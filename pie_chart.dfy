/**
 * The data behind the success pie chart (`pie_chart_vis`). For "ALL" plotly
 * sums the `class` column per launch site, one slice per site in order of
 * first appearance; for one site the callback builds a two-row frame,
 * Success and Failure, by editing a grouped frame step by step.
 */
module PieChart {
  import opened Wrappers
  import opened LaunchTable

  /** One pie slice: its label and its value. */
  datatype Slice = Slice(name: string, value: int)

  /** Why the one-site branch fails: the grouped frame has no row 0 to index. */
  datatype PieError = NoRowsForSite

  const SUCCESS_LABEL: string := "Success"
  const FAILURE_LABEL: string := "Failure"

  /** The labels of the slices, in order. */
  function Labels(g: seq<Slice>): (ls: seq<string>)
    ensures |ls| == |g|
    ensures forall i :: 0 <= i < |g| ==> ls[i] == g[i].name
  {
    seq(|g|, i requires 0 <= i < |g| => g[i].name)
  }

  /** Sum of the slice values: what the whole pie adds up to. */
  function SliceTotal(g: seq<Slice>): int
  {
    if g == [] then 0 else g[0].value + SliceTotal(g[1..])
  }

  /** No label occurs twice. */
  predicate Distinct(ls: seq<string>)
  {
    forall i, j :: 0 <= i < j < |ls| ==> ls[i] != ls[j]
  }

  /**
   * `groupby('Launch Site').sum()` on the class column, as plotly aggregates
   * `px.pie(values='class', names='Launch Site')`: one slice per distinct
   * site, in order of first appearance, valued at that site's class total.
   */
  function GroupSum(t: Table): seq<Slice>
    decreases |t|
  {
    if t == [] then []
    else
      var s := t[0].site;
      assert OtherRows(t, s) == OtherRows(t[1..], s);
      [Slice(s, ClassSum(SiteRows(t, s)))] + GroupSum(OtherRows(t, s))
  }

  lemma LabelsCons(x: Slice, g: seq<Slice>)
    ensures Labels([x] + g) == [x.name] + Labels(g)
  {
  }

  lemma DistinctCons(s: string, ls: seq<string>)
    requires s !in ls && Distinct(ls)
    ensures Distinct([s] + ls)
  {
  }

  /** The "ALL" pie has a slice for a site exactly when the site occurs in the table. */
  lemma {:induction false} GroupSumLabels(t: Table)
    ensures forall s :: s in Labels(GroupSum(t)) <==> s in Sites(t)
    decreases |t|
  {
    if t != [] {
      var s := t[0].site;
      var others := OtherRows(t, s);
      assert others == OtherRows(t[1..], s);
      GroupSumLabels(others);
      OtherRowsKeepSites(t, s);
      LabelsCons(Slice(s, ClassSum(SiteRows(t, s))), GroupSum(others));
      assert t[0] in t;
    }
  }

  /** No site has two slices in the "ALL" pie. */
  lemma {:induction false} GroupSumDistinct(t: Table)
    ensures Distinct(Labels(GroupSum(t)))
    decreases |t|
  {
    if t != [] {
      var s := t[0].site;
      var others := OtherRows(t, s);
      assert others == OtherRows(t[1..], s);
      GroupSumDistinct(others);
      GroupSumLabels(others);
      OtherRowsKeepSites(t, s);
      LabelsCons(Slice(s, ClassSum(SiteRows(t, s))), GroupSum(others));
      DistinctCons(s, Labels(GroupSum(others)));
    }
  }

  /** Each slice of the "ALL" pie holds the class total of its own site. */
  lemma {:induction false} GroupSumValues(t: Table)
    ensures forall i :: 0 <= i < |GroupSum(t)| ==>
      GroupSum(t)[i].value == ClassSum(SiteRows(t, GroupSum(t)[i].name))
    decreases |t|
  {
    if t != [] {
      var s := t[0].site;
      var others := OtherRows(t, s);
      assert others == OtherRows(t[1..], s);
      var g, rest := GroupSum(t), GroupSum(others);
      GroupSumValues(others);
      GroupSumLabels(others);
      OtherRowsKeepSites(t, s);
      forall i | 0 < i < |g| ensures g[i].value == ClassSum(SiteRows(t, g[i].name)) {
        assert g[i] == rest[i - 1];
        assert Labels(rest)[i - 1] == g[i].name;
      }
    }
  }

  /** Removing one site's rows leaves every other site's rows as they were. */
  lemma OtherRowsKeepSites(t: Table, s: string)
    ensures Sites(OtherRows(t, s)) == Sites(t) - {s}
    ensures forall n :: n != s ==> SiteRows(OtherRows(t, s), n) == SiteRows(t, n)
  {
    forall n | n != s ensures SiteRows(OtherRows(t, s), n) == SiteRows(t, n) {
      FilterCommute(t, NotAtSite(s), AtSite(n));
      FilterKeepsAll(SiteRows(t, n), NotAtSite(s));
    }
    forall n | n in Sites(t) - {s} ensures n in Sites(OtherRows(t, s)) {
      var r :| r in t && r.site == n;
      assert r in OtherRows(t, s);
    }
  }

  /** The one-site groupby: empty for a site with no rows, else one slice holding its class total. */
  lemma GroupSumOneSite(t: Table, site: string)
    ensures GroupSum(SiteRows(t, site)) ==
      if SiteRows(t, site) == [] then [] else [Slice(site, ClassSum(SiteRows(t, site)))]
  {
    var u := SiteRows(t, site);
    if u != [] {
      assert u[0] in u;
      FilterKeepsAll(u, AtSite(site));
      FilterKeepsNone(u, NotAtSite(site));
    }
  }

  /** The "ALL" pie adds up to the class total of the whole table. */
  lemma {:induction false} GroupSumTotal(t: Table)
    ensures SliceTotal(GroupSum(t)) == ClassSum(t)
    decreases |t|
  {
    if t != [] {
      var s := t[0].site;
      assert OtherRows(t, s) == OtherRows(t[1..], s);
      GroupSumTotal(OtherRows(t, s));
      SiteSplit(t, s);
      var g := GroupSum(t);
      assert g[1..] == GroupSum(OtherRows(t, s));
    }
  }

  /** The two-slice pie the one-site branch is meant to draw, or its failure. */
  function SiteOutcomes(t: Table, site: string): (r: Result<seq<Slice>, PieError>)
    ensures r.Failure? <==> site !in Sites(t)
    ensures r.Success? ==> Labels(r.value) == [SUCCESS_LABEL, FAILURE_LABEL]
    ensures r.Success? ==> r.value[0].value == ClassSum(SiteRows(t, site))
    ensures r.Success? ==> SliceTotal(r.value) == |SiteRows(t, site)|
  {
    var rows := SiteRows(t, site);
    SiteRowsEmpty(t, site);
    if rows == [] then Failure(NoRowsForSite)
    else
      var s := ClassSum(rows);
      var g := [Slice(SUCCESS_LABEL, s), Slice(FAILURE_LABEL, |rows| - s)];
      assert SliceTotal(g) == s + SliceTotal(g[1..]);
      assert SliceTotal(g[1..]) == |rows| - s + SliceTotal(g[2..]);
      Success(g)
  }

  /** With 0/1 outcomes the slices count the site's successful and failed launches. */
  lemma SiteOutcomesCount(t: Table, site: string)
    requires Binary(t) && site in Sites(t)
    ensures SiteOutcomes(t, site).Success?
    ensures SiteOutcomes(t, site).value[0].value == |Successes(SiteRows(t, site))| >= 0
    ensures SiteOutcomes(t, site).value[1].value == |Failures(SiteRows(t, site))| >= 0
  {
    SiteRowsBinary(t, site);
    ClassSumCountsOutcomes(SiteRows(t, site));
  }

  /**
   * `pie_chart_vis`: the slices handed to `px.pie`. The one-site branch
   * follows the frame edits of the source one by one.
   */
  method PieChartVis(t: Table, selected: string) returns (r: Result<seq<Slice>, PieError>)
    ensures selected == ALL_SITES ==> r == Success(GroupSum(t))
    ensures selected != ALL_SITES ==> r == SiteOutcomes(t, selected)
  {
    if selected == ALL_SITES {
      return Success(GroupSum(t));
    }
    var site1 := SiteRows(t, selected);
    var size := |site1|;
    var frame := GroupSum(site1);
    GroupSumOneSite(t, selected);
    if |frame| == 0 {
      // `site1_df['class'][0]` has no row to index
      return Failure(NoRowsForSite);
    }
    // `loc[1]` appends the failure count under the index label 1
    frame := frame + [Slice("1", size - frame[0].value)];
    // after `reset_index` and the rename, rows 0 and 1 are relabelled
    frame := frame[0 := frame[0].(name := SUCCESS_LABEL)];
    frame := frame[1 := frame[1].(name := FAILURE_LABEL)];
    assert frame == [Slice(SUCCESS_LABEL, ClassSum(site1)), Slice(FAILURE_LABEL, size - ClassSum(site1))];
    return Success(frame);
  }
}
