/**
 * The project list of app/Editordashboard/page.tsx: the search filter and
 * the "recent projects" strip, which sorts the projects array in place,
 * newest first, and shows its first five entries.
 *
 * `new Date(createdAt).getTime()` is the number `createdAt` here: the
 * timestamps are taken as already parsed.
 */
module EditorDashboard {
  import opened Text

  datatype Project = Project(id: string, name: string, description: string, createdAt: int)

  /** How many projects the "recent" strip shows. */
  const RecentCount := 5

  /** The filter's test: the lowercased name includes the lowercased search term. */
  predicate Matches(p: Project, searchTerm: string) {
    Contains(Lower(p.name), Lower(searchTerm))
  }

  /** filteredProjects. */
  function FilteredProjects(projects: seq<Project>, searchTerm: string): (r: seq<Project>)
    ensures |r| <= |projects|
    ensures forall p :: p in r ==> p in projects && Matches(p, searchTerm)
    decreases |projects|
  {
    if projects == [] then []
    else
      var rest := FilteredProjects(projects[1..], searchTerm);
      if Matches(projects[0], searchTerm) then [projects[0]] + rest else rest
  }

  /** Filtering a concatenation filters each part, so the kept projects stay in their order. */
  lemma {:induction false} FilterAppend(a: seq<Project>, b: seq<Project>, searchTerm: string)
    ensures FilteredProjects(a + b, searchTerm) == FilteredProjects(a, searchTerm) + FilteredProjects(b, searchTerm)
    decreases |a|
  {
    if a == [] {
      assert a + b == b;
    } else {
      assert (a + b)[0] == a[0];
      assert (a + b)[1..] == a[1..] + b;
      FilterAppend(a[1..], b, searchTerm);
    }
  }

  /** Every matching project is kept: the filter drops exactly the projects that do not match. */
  lemma {:induction false} FilterKeepsMatches(projects: seq<Project>, searchTerm: string)
    ensures forall p :: p in projects && Matches(p, searchTerm) ==> p in FilteredProjects(projects, searchTerm)
    decreases |projects|
  {
    if projects != [] {
      FilterKeepsMatches(projects[1..], searchTerm);
      forall p | p in projects && Matches(p, searchTerm)
        ensures p in FilteredProjects(projects, searchTerm)
      {
        if p != projects[0] {
          assert p in projects[1..];
        }
      }
    }
  }

  /** Every string contains the empty string. */
  lemma ContainsEmpty(s: string)
    ensures Contains(s, "")
  {
    assert s[..0] == "";
  }

  /** An empty search term keeps every project, in order. */
  lemma {:induction false} EmptySearchKeepsAll(projects: seq<Project>)
    ensures FilteredProjects(projects, "") == projects
    decreases |projects|
  {
    if projects != [] {
      ContainsEmpty(Lower(projects[0].name));
      assert Lower("") == "";
      EmptySearchKeepsAll(projects[1..]);
    }
  }

  /** The comparator `b.createdAt - a.createdAt`: newer projects come first. */
  predicate NewestFirst(s: seq<Project>) {
    forall i, j :: 0 <= i < j < |s| ==> s[i].createdAt >= s[j].createdAt
  }

  /**
   * `projects.sort(...)`: reorders the array in place, newest first.  An
   * insertion sort that only moves a project past strictly older ones, so
   * projects with equal timestamps keep their order, as JavaScript's stable
   * sort does.
   */
  method SortNewestFirst(a: array<Project>)
    modifies a
    ensures NewestFirst(a[..])
    ensures multiset(a[..]) == multiset(old(a[..]))
  {
    var i := 0;
    while i < a.Length
      invariant 0 <= i <= a.Length
      invariant NewestFirst(a[..i])
      invariant multiset(a[..]) == multiset(old(a[..]))
    {
      InsertAt(a, i);
      i := i + 1;
    }
    assert a[..] == a[..a.Length];
  }

  /** One insertion step: the project at `i` moves left past the strictly older ones before it. */
  method InsertAt(a: array<Project>, i: int)
    requires 0 <= i < a.Length && NewestFirst(a[..i])
    modifies a
    ensures NewestFirst(a[..i + 1])
    ensures multiset(a[..]) == multiset(old(a[..]))
  {
    var j := i;
    while j > 0 && a[j - 1].createdAt < a[j].createdAt
      invariant 0 <= j <= i
      invariant forall k, l :: 0 <= k < l <= i && k != j && l != j ==> a[k].createdAt >= a[l].createdAt
      invariant forall l :: j < l <= i ==> a[j].createdAt > a[l].createdAt
      invariant multiset(a[..]) == multiset(old(a[..]))
    {
      Swap(a, j - 1, j);
      j := j - 1;
    }
  }

  /** Exchanges two adjacent projects. */
  method Swap(a: array<Project>, k: int, l: int)
    requires 0 <= k < l < a.Length
    modifies a
    ensures a[..] == old(a[..])[k := old(a[l])][l := old(a[k])]
    ensures multiset(a[..]) == multiset(old(a[..]))
  {
    a[k], a[l] := a[l], a[k];
  }

  /** recentProjects: sort the state array in place, then take its first five entries. */
  method RecentProjects(projects: array<Project>) returns (recent: seq<Project>)
    modifies projects
    ensures NewestFirst(projects[..])
    ensures multiset(projects[..]) == multiset(old(projects[..]))
    ensures recent == projects[..if projects.Length < RecentCount then projects.Length else RecentCount]
  {
    SortNewestFirst(projects);
    recent := projects[..if projects.Length < RecentCount then projects.Length else RecentCount];
  }

  /**
   * The first five of a newest-first list: at most five projects, newest
   * first, none older than any project left out, and all of them when
   * there are five or fewer.
   */
  lemma RecentAreNewest(sorted: seq<Project>)
    requires NewestFirst(sorted)
    ensures var recent := sorted[..if |sorted| < RecentCount then |sorted| else RecentCount];
      && |recent| <= RecentCount
      && NewestFirst(recent)
      && (forall p, q :: p in recent && q in sorted[|recent|..] ==> p.createdAt >= q.createdAt)
      && (|sorted| <= RecentCount ==> recent == sorted)
  {
    var n := if |sorted| < RecentCount then |sorted| else RecentCount;
    forall p, q | p in sorted[..n] && q in sorted[n..] ensures p.createdAt >= q.createdAt {
      var i :| 0 <= i < n && sorted[..n][i] == p;
      var j :| 0 <= j < |sorted| - n && sorted[n..][j] == q;
      assert sorted[i] == p && sorted[n + j] == q;
    }
  }
}
