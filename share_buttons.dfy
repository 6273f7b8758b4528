/**
 * The share buttons of components/ShareButtons.tsx: the hashtag list handed
 * to the Twitter button, the text handed to Facebook and Pinterest, and the
 * Tumblr share link.
 *
 * `encodeURIComponent` is the parameter `encode`.  The props are typed as
 * strings, but `description` may be absent at run time; it is an
 * `Option<string>` here because the code treats the absent case specially.
 */
module ShareButtons {
  import opened Optional
  import opened Text

  /** The filter-then-strip step: tokens that start with '#', each without its first character. */
  function TagsOf(tokens: seq<string>): (r: seq<string>)
    ensures |r| <= |tokens|
  {
    if tokens == [] then []
    else
      var head := if StartsWith(tokens[0], "#") then [tokens[0][1..]] else [];
      head + TagsOf(tokens[1..])
  }

  /** hashtagsArray: split on single spaces, keep the '#' tokens, drop one leading '#'. */
  function HashtagsArray(hashtags: string): (r: seq<string>)
    ensures |r| <= multiset(hashtags)[' '] + 1
  {
    TagsOf(Split(hashtags, ' '))
  }

  /** Filtering commutes with concatenation, so tags come out in token order. */
  lemma {:induction false} TagsOfAppend(a: seq<string>, b: seq<string>)
    ensures TagsOf(a + b) == TagsOf(a) + TagsOf(b)
    decreases |a|
  {
    if a != [] {
      assert (a + b)[0] == a[0];
      assert (a + b)[1..] == a[1..] + b;
      TagsOfAppend(a[1..], b);
      var head := if StartsWith(a[0], "#") then [a[0][1..]] else [];
      calc {
        TagsOf(a + b);
        head + TagsOf(a[1..] + b);
        head + (TagsOf(a[1..]) + TagsOf(b));
        (head + TagsOf(a[1..])) + TagsOf(b);
        TagsOf(a) + TagsOf(b);
      }
    } else {
      assert a + b == b;
    }
  }

  /** A tag is produced exactly when the token list holds that tag with '#' in front. */
  lemma {:induction false} TagsOfMembership(tokens: seq<string>, tag: string)
    ensures tag in TagsOf(tokens) <==> "#" + tag in tokens
    decreases |tokens|
  {
    if tokens != [] {
      TagsOfMembership(tokens[1..], tag);
      var t := tokens[0];
      if StartsWith(t, "#") {
        assert t == "#" + t[1..];
        if t[1..] == tag {
          assert "#" + tag == t;
        }
      }
      if "#" + tag == t {
        assert StartsWith(t, "#") && t[1..] == tag;
      }
      assert tokens == [t] + tokens[1..];
    }
  }

  /** Every tag, given back its '#', is one of the space-separated tokens of the input. */
  lemma TagsComeFromTokens(hashtags: string, tag: string)
    ensures tag in HashtagsArray(hashtags) <==> "#" + tag in Split(hashtags, ' ')
  {
    TagsOfMembership(Split(hashtags, ' '), tag);
  }

  /**
   * Only one '#' is stripped, a lone '#' gives the empty tag, and tokens
   * without '#' (including the empty token between two spaces) are dropped.
   */
  lemma StripsOneHash()
    ensures TagsOf(["##a", "#", "", "b", "#c"]) == ["#a", "", "c"]
  {
    assert StartsWith("##a", "#") && StartsWith("#", "#") && !StartsWith("", "#");
    assert "b"[..1] == "b" && "b" != "#";
    assert StartsWith("#c", "#");
  }

  /** `${description || ''} ${hashtags}`: the Tumblr caption before encoding. */
  function TumblrCaption(description: Option<string>, hashtags: string): (r: string)
    ensures description.Some? ==> r == description.value + " " + hashtags
    ensures description.None? ==> r == " " + hashtags
  {
    description.GetOr("") + " " + hashtags
  }

  const TumblrHost := "https://www.tumblr.com"
  const TumblrSharePath := "/widgets/share/tool"
  /** The link up to the first parameter's value. */
  const TumblrShareBase := TumblrHost + TumblrSharePath + "?canonicalUrl="

  /** tumblrShareUrl. */
  function TumblrShareUrl(encode: string -> string, imageUrl: string, title: string,
                          description: Option<string>, hashtags: string): string
  {
    TumblrShareBase + encode(imageUrl)
      + "&title=" + encode(title)
      + "&caption=" + encode(TumblrCaption(description, hashtags))
  }

  /**
   * Since encodeURIComponent escapes '&', the link's query separates back
   * into its three parameters at the '&' characters: the image URL, the
   * title and the caption, each as encoded.
   */
  lemma TumblrUrlParameters(encode: string -> string, imageUrl: string, title: string,
                            description: Option<string>, hashtags: string)
    requires forall s :: '&' !in encode(s)
    ensures Split(TumblrShareUrl(encode, imageUrl, title, description, hashtags), '&') ==
      [ TumblrShareBase + encode(imageUrl),
        "title=" + encode(title),
        "caption=" + encode(TumblrCaption(description, hashtags)) ]
  {
    var a := TumblrShareBase + encode(imageUrl);
    var b := "title=" + encode(title);
    var c := "caption=" + encode(TumblrCaption(description, hashtags));
    NoAmpersandInLiterals();
    UrlPieces(a, b, c, encode(title), encode(TumblrCaption(description, hashtags)));
    assert '&' !in a && '&' !in b && '&' !in c;
    SplitThree(a, b, c, '&');
  }

  /** Three separator-free pieces joined by the separator split back into those pieces. */
  lemma SplitThree(a: string, b: string, c: string, sep: char)
    requires sep !in a && sep !in b && sep !in c
    ensures Split(a + [sep] + (b + [sep] + c), sep) == [a, b, c]
  {
    SplitAtFirst(a, b + [sep] + c, sep);
    SplitAtFirst(b, c, sep);
    SplitWithout(c, sep);
  }

  /** The link is the three parameters joined by '&'. */
  lemma UrlPieces(a: string, b: string, c: string, t: string, d: string)
    requires b == "title=" + t && c == "caption=" + d
    ensures a + "&title=" + t + "&caption=" + d == a + ['&'] + (b + ['&'] + c)
  {
    assert "&title=" == ['&'] + "title=";
    assert "&caption=" == ['&'] + "caption=";
  }

  lemma NoAmpersandInLiterals()
    ensures '&' !in TumblrShareBase && '&' !in "title=" && '&' !in "caption="
  {
    assert forall i | 0 <= i < |TumblrHost| :: TumblrHost[i] != '&';
    assert forall i | 0 <= i < |TumblrSharePath| :: TumblrSharePath[i] != '&';
    assert forall i | 0 <= i < |"?canonicalUrl="| :: "?canonicalUrl="[i] != '&';
    assert forall i | 0 <= i < |"title="| :: "title="[i] != '&';
    assert forall i | 0 <= i < |"caption="| :: "caption="[i] != '&';
  }

  /** A string without the separator splits into itself alone. */
  lemma SplitWithout(s: string, sep: char)
    requires sep !in s
    ensures Split(s, sep) == [s]
  {
    assert multiset(s)[sep] == 0;
  }

  /** Splitting at the first separator: the piece before it, then the split of the rest. */
  lemma SplitAtFirst(a: string, b: string, sep: char)
    requires sep !in a
    ensures Split(a + [sep] + b, sep) == [a] + Split(b, sep)
  {
    var s := a + [sep] + b;
    var i := IndexOf(s, sep);
    assert s[|a|] == sep;
    assert s[..|a|] == a;
    assert i == |a|;
    assert s[i + 1..] == b;
  }

  /** The text given to Facebook and Pinterest: an absent description renders as "undefined". */
  function ShareText(title: string, description: Option<string>, hashtags: string): (r: string)
    ensures description.Some? ==> r == title + " " + description.value + " " + hashtags
    ensures description.None? ==> r == title + " undefined " + hashtags
  {
    title + " " + (if description.Some? then description.value else "undefined") + " " + hashtags
  }
}
