/**
 * The figures of app/facebook/analytics/page.tsx: metric lookup by name,
 * the totals on the metric cards, the bar chart's 14-entry window and bar
 * heights, and the default account selection.
 *
 * A metric value the API left out is `None`; JavaScript reads it as
 * `undefined`, which `|| 0` turns into 0 and `Math.max` into NaN.
 */
module FacebookAnalytics {
  import opened Optional

  datatype DataPoint = DataPoint(value: Option<int>, endTime: string)

  datatype Insight = Insight(name: string, period: string, values: seq<DataPoint>, title: string, description: string)

  /** How many of the newest entries the chart shows. */
  const ChartWindow := 14

  /** `item.value || 0`: a missing value and 0 both count as 0. */
  function ValueOrZero(p: DataPoint): (r: int)
    ensures p.value.Some? ==> r == p.value.value
    ensures p.value.None? ==> r == 0
  {
    if p.value.Some? then p.value.value else 0
  }

  /**
   * sumValues: `reduce` from the left, starting at 0.  A series whose values
   * are all missing sums to 0, every `undefined` counting as 0.
   */
  function SumValues(values: seq<DataPoint>): (r: int)
    ensures (forall i :: 0 <= i < |values| ==> values[i].value.None?) ==> r == 0
    decreases |values|
  {
    if values == [] then 0
    else SumValues(values[..|values| - 1]) + ValueOrZero(values[|values| - 1])
  }

  /** The sum of a concatenation is the sum of the parts. */
  lemma {:induction false} SumValuesAppend(a: seq<DataPoint>, b: seq<DataPoint>)
    ensures SumValues(a + b) == SumValues(a) + SumValues(b)
    decreases |b|
  {
    if b == [] {
      assert a + b == a;
    } else {
      var last := b[|b| - 1];
      assert (a + b)[..|a + b| - 1] == a + b[..|b| - 1];
      SumValuesAppend(a, b[..|b| - 1]);
    }
  }

  /** An empty series sums to 0 and a one-entry series to its value, or 0 when the value is missing. */
  lemma SumValuesSingle(p: DataPoint)
    ensures SumValues([p]) == (if p.value.Some? then p.value.value else 0)
    ensures SumValues([]) == 0
  {
    assert [p][..0] == [];
  }

  /** Non-negative values sum to a non-negative total at least as large as each present value. */
  lemma {:induction false} SumValuesBounds(values: seq<DataPoint>)
    requires forall i :: 0 <= i < |values| ==> ValueOrZero(values[i]) >= 0
    ensures SumValues(values) >= 0
    ensures forall i :: 0 <= i < |values| ==> ValueOrZero(values[i]) <= SumValues(values)
    decreases |values|
  {
    if values != [] {
      var init := values[..|values| - 1];
      SumValuesBounds(init);
      forall i | 0 <= i < |values| ensures ValueOrZero(values[i]) <= SumValues(values) {
        if i < |values| - 1 {
          assert values[i] == init[i];
        }
      }
    }
  }

  /** `insights.find(i => i.name === name)`: the first insight with that name. */
  function FindInsight(insights: seq<Insight>, name: string): (r: Option<Insight>)
    ensures r.Some? ==> r.value in insights && r.value.name == name
    ensures r.None? <==> forall i :: 0 <= i < |insights| ==> insights[i].name != name
    decreases |insights|
  {
    if insights == [] then None
    else if insights[0].name == name then Some(insights[0])
    else FindInsight(insights[1..], name)
  }

  /** The insight found is the first one with the name: every earlier insight has another name. */
  lemma {:induction false} FindInsightIsFirst(insights: seq<Insight>, name: string)
    requires FindInsight(insights, name).Some?
    ensures exists k :: (
      && 0 <= k < |insights| && insights[k] == FindInsight(insights, name).value
      && forall j :: 0 <= j < k ==> insights[j].name != name)
    decreases |insights|
  {
    if insights[0].name != name {
      FindInsightIsFirst(insights[1..], name);
      var k :| 0 <= k < |insights[1..]| && insights[1..][k] == FindInsight(insights, name).value
        && forall j :: 0 <= j < k ==> insights[1..][j].name != name;
      assert insights[k + 1] == FindInsight(insights, name).value;
      forall j | 0 <= j < k + 1 ensures insights[j].name != name {
        if j > 0 {
          assert insights[j] == insights[1..][j - 1];
        }
      }
    } else {
      assert insights[0] == FindInsight(insights, name).value;
    }
  }

  /** `find(name)?.values || []`: the metric's series, empty when the metric is absent. */
  function Series(insights: seq<Insight>, name: string): seq<DataPoint> {
    var found := FindInsight(insights, name);
    if found.Some? then found.value.values else []
  }

  /** A card's total: sumValues of the series. */
  function Total(insights: seq<Insight>, name: string): int {
    SumValues(Series(insights, name))
  }

  /** The "Page Fans" card: `find("page_fans")?.values[0]?.value || 0`. */
  function FanCount(insights: seq<Insight>): (r: int)
    ensures FindInsight(insights, "page_fans").None? ==> r == 0
  {
    var found := FindInsight(insights, "page_fans");
    if found.None? || found.value.values == [] then 0
    else ValueOrZero(found.value.values[0])
  }

  /** A metric that is absent shows 0 on its card, as a fan count or as a total. */
  lemma MissingMetricShowsZero(insights: seq<Insight>, name: string)
    requires forall i :: 0 <= i < |insights| ==> insights[i].name != name
    ensures Series(insights, name) == [] && Total(insights, name) == 0
    ensures name == "page_fans" ==> FanCount(insights) == 0
  {
  }

  /** `data.slice(-14)`: the 14 newest entries, or all of them when there are fewer. */
  function Window(data: seq<DataPoint>): (r: seq<DataPoint>)
    ensures |r| == if |data| <= ChartWindow then |data| else ChartWindow
    ensures r == data[|data| - |r|..]
  {
    if |data| <= ChartWindow then data else data[|data| - ChartWindow..]
  }

  /** The window is a suffix of the data, so it keeps the data's order and its last entry. */
  lemma WindowKeepsNewest(data: seq<DataPoint>)
    requires data != []
    ensures Window(data) != [] && Window(data)[|Window(data)| - 1] == data[|data| - 1]
    ensures forall i :: 0 <= i < |Window(data)| ==> Window(data)[i] == data[|data| - |Window(data)| + i]
  {
  }

  /** The largest present value (the values are all present here). */
  function MaxValue(values: seq<int>): (m: int)
    requires values != []
    ensures m in values
    ensures forall i :: 0 <= i < |values| ==> values[i] <= m
  {
    if |values| == 1 then values[0]
    else
      var rest := MaxValue(values[1..]);
      assert values[1..][|values[1..]| - 1] == values[|values| - 1];
      if values[0] >= rest then values[0] else rest
  }

  predicate AllPresent(data: seq<DataPoint>) {
    forall i :: 0 <= i < |data| ==> data[i].value.Some?
  }

  function Values(data: seq<DataPoint>): (r: seq<int>)
    requires AllPresent(data)
    ensures |r| == |data| && forall i :: 0 <= i < |data| ==> r[i] == data[i].value.value
  {
    seq(|data|, i requires 0 <= i < |data| => data[i].value.value)
  }

  /**
   * The bar heights (in percent) of the entries shown.  `Math.max` over
   * entries with a missing value is NaN and a maximum of 0 is falsy; both
   * give every bar height 0.
   */
  function Heights(shown: seq<DataPoint>): (h: seq<real>)
    requires shown != []
    ensures |h| == |shown|
  {
    if !AllPresent(shown) then seq(|shown|, i => 0.0)
    else
      var maxValue := MaxValue(Values(shown));
      if maxValue == 0 then seq(|shown|, i => 0.0)
      else seq(|shown|, i requires 0 <= i < |shown| => (shown[i].value.value as real / maxValue as real) * 100.0)
  }

  /** InsightsChart: `None` for "No data available", otherwise the heights of the window's bars. */
  function BarHeights(data: seq<DataPoint>): (r: Option<seq<real>>)
    ensures r.None? <==> data == []
    ensures r.Some? ==> |r.value| == |Window(data)|
  {
    if data == [] then None else Some(Heights(Window(data)))
  }

  /** With non-negative values every bar lies in [0, 100]. */
  lemma HeightsWithinRange(shown: seq<DataPoint>)
    requires shown != []
    requires forall i :: 0 <= i < |shown| ==> ValueOrZero(shown[i]) >= 0
    ensures forall i :: 0 <= i < |shown| ==> 0.0 <= Heights(shown)[i] <= 100.0
  {
    if AllPresent(shown) {
      var vs := Values(shown);
      var m := MaxValue(vs);
      if m > 0 {
        forall i | 0 <= i < |shown| ensures 0.0 <= Heights(shown)[i] <= 100.0 {
          RatioAtMostOne(vs[i], m);
        }
      }
    }
  }

  /** With a positive maximum, the largest entry's bar is exactly 100. */
  lemma LargestBarIsFull(shown: seq<DataPoint>)
    requires shown != [] && AllPresent(shown) && MaxValue(Values(shown)) > 0
    ensures exists i :: 0 <= i < |shown| && Heights(shown)[i] == 100.0
  {
    var vs := Values(shown);
    var m := MaxValue(vs);
    var j :| 0 <= j < |vs| && vs[j] == m;
    assert shown[j].value.value == m;
    assert m as real / m as real == 1.0;
    assert Heights(shown)[j] == (m as real / m as real) * 100.0;
  }

  /** A missing value anywhere in the window, or a zero maximum, flattens every bar to 0. */
  lemma FlatBars(shown: seq<DataPoint>)
    requires shown != [] && (!AllPresent(shown) || MaxValue(Values(shown)) == 0)
    ensures forall i :: 0 <= i < |shown| ==> Heights(shown)[i] == 0.0
  {
  }

  lemma RatioAtMostOne(v: int, m: int)
    requires 0 <= v <= m && m > 0
    ensures 0.0 <= (v as real / m as real) * 100.0 <= 100.0
  {
    assert v as real / m as real <= 1.0;
  }

  /**
   * The default-selection effect: with accounts connected and nothing
   * selected (null or ""), the first account's id becomes the selection.
   */
  function DefaultSelection(accountIds: seq<string>, selected: Option<string>): (r: Option<string>)
    ensures |accountIds| > 0 && (selected.None? || selected == Some("")) ==> r == Some(accountIds[0])
    ensures !(|accountIds| > 0 && (selected.None? || selected == Some(""))) ==> r == selected
  {
    if |accountIds| > 0 && (selected.None? || selected.value == "") then Some(accountIds[0]) else selected
  }

  /** Once a selection exists the effect leaves it alone, so re-running it changes nothing. */
  lemma DefaultSelectionStable(accountIds: seq<string>, selected: Option<string>)
    ensures DefaultSelection(accountIds, DefaultSelection(accountIds, selected)) == DefaultSelection(accountIds, selected)
    ensures var r := DefaultSelection(accountIds, selected); r == selected || r.value in accountIds
  {
  }

  /** The page's selection state. */
  class AnalyticsView {
    var selectedAccountId: Option<string>

    constructor ()
      ensures selectedAccountId.None?
    {
      selectedAccountId := None;
    }

    /** The effect running with the connected accounts' ids. */
    method SelectDefaultAccount(accountIds: seq<string>)
      modifies this
      ensures selectedAccountId == DefaultSelection(accountIds, old(selectedAccountId))
    {
      if |accountIds| > 0 && (selectedAccountId.None? || selectedAccountId.value == "") {
        selectedAccountId := Some(accountIds[0]);
      }
    }
  }
}
