/**
 * The data behind the payload-vs-outcome scatter chart (`scatter_plot_vis`):
 * the rows whose payload mass lies in the slider's range, further restricted
 * to one launch site unless the dropdown says "ALL".
 */
module ScatterChart {
  import opened LaunchTable
  import opened Loader

  /** One plotted point: x is the payload mass, y the outcome, colour the booster category. */
  datatype Point = Point(payload: int, cls: int, booster: string)

  /** The mask `(payload >= lo) & (payload <= hi)`. */
  function InPayloadRange(lo: int, hi: int): LaunchRecord -> bool
  {
    (r: LaunchRecord) => lo <= r.payload && r.payload <= hi
  }

  /** `scatterAll_df`: the rows with `lo <= payload <= hi`, inclusive at both ends, in table order. */
  function PayloadRows(t: Table, lo: int, hi: int): (f: Table)
    ensures IsSubsequence(f, t)
    ensures forall r :: r in f <==> r in t && lo <= r.payload <= hi
    ensures forall r :: multiset(f)[r] == if lo <= r.payload <= hi then multiset(t)[r] else 0
  {
    var f := Filter(t, InPayloadRange(lo, hi));
    FilterIsSubsequence(t, InPayloadRange(lo, hi));
    forall r ensures multiset(f)[r] == if lo <= r.payload <= hi then multiset(t)[r] else 0 {
      FilterMultiplicity(t, InPayloadRange(lo, hi), r);
    }
    f
  }

  /** The frame handed to `px.scatter`: `scatterAll_df` for "ALL", else its rows at the selected site. */
  function ScatterRows(t: Table, selected: string, lo: int, hi: int): (f: Table)
    ensures IsSubsequence(f, PayloadRows(t, lo, hi))
    ensures IsSubsequence(f, t)
    ensures selected != ALL_SITES ==> forall r :: r in f ==> r.site == selected
    ensures forall r :: r in f <==>
      r in t && lo <= r.payload <= hi && (selected == ALL_SITES || r.site == selected)
    ensures forall r ::
      multiset(f)[r] == if lo <= r.payload <= hi && (selected == ALL_SITES || r.site == selected) then multiset(t)[r] else 0
  {
    var all := PayloadRows(t, lo, hi);
    if selected == ALL_SITES then
      SubsequenceReflexive(all);
      all
    else
      var f := SiteRows(all, selected);
      FilterIsSubsequence(all, AtSite(selected));
      forall r ensures multiset(f)[r] == if lo <= r.payload <= hi && r.site == selected then multiset(t)[r] else 0 {
        FilterMultiplicity(all, AtSite(selected), r);
      }
      SubsequenceTransitive(f, all, t);
      f
  }

  /** The points of the scatter chart, one per selected row, in row order. */
  function ScatterPoints(t: Table, selected: string, lo: int, hi: int): (pts: seq<Point>)
    ensures |pts| == |ScatterRows(t, selected, lo, hi)|
    ensures forall i :: 0 <= i < |pts| ==>
      var r := ScatterRows(t, selected, lo, hi)[i];
      pts[i] == Point(r.payload, r.cls, r.booster)
  {
    var f := ScatterRows(t, selected, lo, hi);
    seq(|f|, i requires 0 <= i < |f| => Point(f[i].payload, f[i].cls, f[i].booster))
  }

  lemma {:induction false} SubsequenceReflexive(s: Table)
    ensures IsSubsequence(s, s)
    decreases |s|
  {
    if s != [] {
      SubsequenceReflexive(s[1..]);
    }
  }

  /** An inverted range selects nothing, whichever site is chosen. */
  lemma EmptyRangeSelectsNothing(t: Table, selected: string, lo: int, hi: int)
    requires lo > hi
    ensures ScatterRows(t, selected, lo, hi) == []
    ensures ScatterPoints(t, selected, lo, hi) == []
  {
  }

  /** Restricting by payload then by site equals restricting by site then by payload. */
  lemma SiteScatterIsSiteRowsInRange(t: Table, selected: string, lo: int, hi: int)
    requires selected != ALL_SITES
    ensures ScatterRows(t, selected, lo, hi) == PayloadRows(SiteRows(t, selected), lo, hi)
  {
    FilterCommute(t, InPayloadRange(lo, hi), AtSite(selected));
  }

  /** At the slider's default value the "ALL" scatter shows every row of a non-empty table. */
  lemma DefaultRangeShowsEveryRow(t: Table)
    requires t != []
    ensures ScatterRows(t, ALL_SITES, MinPayload(t).value, MaxPayload(t).value) == t
  {
    var lo, hi := MinPayload(t).value, MaxPayload(t).value;
    PayloadBounds(t);
    FilterKeepsAll(t, InPayloadRange(lo, hi));
  }

  /** A site with no rows in range gives an empty chart; a site's chart never exceeds the "ALL" chart. */
  lemma SiteScatterNarrows(t: Table, selected: string, lo: int, hi: int)
    ensures |ScatterRows(t, selected, lo, hi)| <= |ScatterRows(t, ALL_SITES, lo, hi)|
    ensures selected !in Sites(t) && selected != ALL_SITES ==> ScatterRows(t, selected, lo, hi) == []
  {
  }
}
