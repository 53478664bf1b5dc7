/**
 * The loaded launch table and the row selections every chart is built from:
 * a pandas boolean mask is `Filter`, the `class` column total is `ClassSum`.
 */
module LaunchTable {

  /** One row of the table, restricted to the four columns the dashboard reads. */
  datatype LaunchRecord = LaunchRecord(site: string, cls: int, payload: int, booster: string)

  type Table = seq<LaunchRecord>

  /** The dropdown value that stands for every site. */
  const ALL_SITES: string := "ALL"

  /** `r` is `s` with some elements dropped and the rest kept in order. */
  predicate IsSubsequence<T(==,!new)>(r: seq<T>, s: seq<T>)
    decreases |s|
  {
    if r == [] then true
    else if s == [] then false
    else if r[0] == s[0] then IsSubsequence(r[1..], s[1..])
    else IsSubsequence(r, s[1..])
  }

  /** The elements of `s` that satisfy `p`, in their order in `s`: `df[mask]`. */
  function Filter<T(==,!new)>(s: seq<T>, p: T -> bool): (r: seq<T>)
    ensures |r| <= |s|
    ensures forall x :: x in r <==> x in s && p(x)
    decreases |s|
  {
    if s == [] then []
    else (if p(s[0]) then [s[0]] else []) + Filter(s[1..], p)
  }

  /** The mask `df['Launch Site'] == site`. */
  function AtSite(site: string): LaunchRecord -> bool
  {
    (r: LaunchRecord) => r.site == site
  }

  /** The complement of `AtSite(site)`. */
  function NotAtSite(site: string): LaunchRecord -> bool
  {
    (r: LaunchRecord) => r.site != site
  }

  /** The rows of one launch site, in table order. */
  function SiteRows(t: Table, site: string): (rows: Table)
    ensures forall r :: r in rows <==> r in t && r.site == site
  {
    Filter(t, AtSite(site))
  }

  /** The rows of every other launch site, in table order. */
  function OtherRows(t: Table, site: string): (rows: Table)
    ensures forall r :: r in rows <==> r in t && r.site != site
  {
    Filter(t, NotAtSite(site))
  }

  /** The distinct launch sites that occur in the table. */
  function Sites(t: Table): set<string>
  {
    set r | r in t :: r.site
  }

  /** Total of the `class` column: `df['class'].sum()`. */
  function ClassSum(t: Table): int
  {
    if t == [] then 0 else t[0].cls + ClassSum(t[1..])
  }

  /** Every `class` value is an outcome flag, 0 or 1. */
  predicate Binary(t: Table)
  {
    forall r :: r in t ==> r.cls == 0 || r.cls == 1
  }

  /** Rows whose launch succeeded (`class == 1`). */
  function Successes(t: Table): Table
  {
    Filter(t, (r: LaunchRecord) => r.cls == 1)
  }

  /** Rows whose launch failed (`class == 0`). */
  function Failures(t: Table): Table
  {
    Filter(t, (r: LaunchRecord) => r.cls == 0)
  }

  lemma {:induction false} FilterIsSubsequence<T(!new)>(s: seq<T>, p: T -> bool)
    ensures IsSubsequence(Filter(s, p), s)
    decreases |s|
  {
    if s != [] {
      var rest := Filter(s[1..], p);
      FilterIsSubsequence(s[1..], p);
      if p(s[0]) {
        assert ([s[0]] + rest)[1..] == rest;
      } else {
        assert Filter(s, p) == rest;
        SubsequenceOfTail(rest, s);
      }
    }
  }

  /** A subsequence of the tail of `s` is a subsequence of `s`. */
  lemma {:induction false} SubsequenceOfTail<T(!new)>(r: seq<T>, s: seq<T>)
    requires s != [] && IsSubsequence(r, s[1..])
    ensures IsSubsequence(r, s)
    decreases |s|, 1
  {
    if r != [] && r[0] == s[0] {
      SubsequenceDropHead(r, s[1..]);
    }
  }

  /** A subsequence stays one when its own first element is removed. */
  lemma {:induction false} SubsequenceDropHead<T(!new)>(r: seq<T>, s: seq<T>)
    requires r != [] && IsSubsequence(r, s)
    ensures IsSubsequence(r[1..], s)
    decreases |s|, 2
  {
    if r[0] == s[0] {
      SubsequenceOfTail(r[1..], s);
    } else {
      SubsequenceDropHead(r, s[1..]);
      SubsequenceOfTail(r[1..], s);
    }
  }

  /** Subsequence is transitive. */
  lemma {:induction false} SubsequenceTransitive<T(!new)>(a: seq<T>, b: seq<T>, c: seq<T>)
    requires IsSubsequence(a, b) && IsSubsequence(b, c)
    ensures IsSubsequence(a, c)
    decreases |c|
  {
    if a != [] {
      assert b != [] && c != [];
      if b[0] == c[0] {
        if a[0] == b[0] {
          SubsequenceTransitive(a[1..], b[1..], c[1..]);
        } else {
          SubsequenceTransitive(a, b[1..], c[1..]);
        }
      } else {
        SubsequenceTransitive(a, b, c[1..]);
        if a[0] == c[0] {
          SubsequenceDropHead(a, c[1..]);
        }
      }
    }
  }

  /** The mask keeps every qualifying row as often as the table holds it, and no other row. */
  lemma {:induction false} FilterMultiplicity<T(!new)>(s: seq<T>, p: T -> bool, x: T)
    ensures multiset(Filter(s, p))[x] == if p(x) then multiset(s)[x] else 0
    decreases |s|
  {
    if s != [] {
      FilterMultiplicity(s[1..], p, x);
      assert s == [s[0]] + s[1..];
      assert multiset(s) == multiset([s[0]]) + multiset(s[1..]);
      var head: seq<T> := if p(s[0]) then [s[0]] else [];
      assert multiset(Filter(s, p)) == multiset(head) + multiset(Filter(s[1..], p));
    }
  }

  /** A mask every row passes keeps the whole table. */
  lemma {:induction false} FilterKeepsAll<T(!new)>(s: seq<T>, p: T -> bool)
    requires forall x :: x in s ==> p(x)
    ensures Filter(s, p) == s
    decreases |s|
  {
    if s != [] {
      FilterKeepsAll(s[1..], p);
      assert s == [s[0]] + s[1..];
    }
  }

  /** A mask no row passes keeps nothing. */
  lemma {:induction false} FilterKeepsNone<T(!new)>(s: seq<T>, p: T -> bool)
    requires forall x :: x in s ==> !p(x)
    ensures Filter(s, p) == []
    decreases |s|
  {
    if s != [] {
      FilterKeepsNone(s[1..], p);
    }
  }

  /** Two masks applied one after the other give the same rows in either order. */
  lemma {:induction false} FilterCommute<T(!new)>(s: seq<T>, p: T -> bool, q: T -> bool)
    ensures Filter(Filter(s, p), q) == Filter(Filter(s, q), p)
    decreases |s|
  {
    if s != [] {
      FilterCommute(s[1..], p, q);
      FilterAppend((if p(s[0]) then [s[0]] else []), Filter(s[1..], p), q);
      FilterAppend((if q(s[0]) then [s[0]] else []), Filter(s[1..], q), p);
    }
  }

  lemma {:induction false} FilterAppend<T(!new)>(a: seq<T>, b: seq<T>, p: T -> bool)
    ensures Filter(a + b, p) == Filter(a, p) + Filter(b, p)
    decreases |a|
  {
    if a != [] {
      FilterAppend(a[1..], b, p);
      assert (a + b)[1..] == a[1..] + b;
    } else {
      assert a + b == b;
    }
  }

  lemma {:induction false} ClassSumAppend(a: Table, b: Table)
    ensures ClassSum(a + b) == ClassSum(a) + ClassSum(b)
    decreases |a|
  {
    if a != [] {
      ClassSumAppend(a[1..], b);
      assert (a + b)[1..] == a[1..] + b;
    } else {
      assert a + b == b;
    }
  }

  /** Splitting the table by one site splits its row count and its class total. */
  lemma {:induction false} SiteSplit(t: Table, site: string)
    ensures |SiteRows(t, site)| + |OtherRows(t, site)| == |t|
    ensures ClassSum(SiteRows(t, site)) + ClassSum(OtherRows(t, site)) == ClassSum(t)
    decreases |t|
  {
    if t != [] {
      SiteSplit(t[1..], site);
      var head: Table := if t[0].site == site then [t[0]] else [];
      ClassSumAppend(head, SiteRows(t[1..], site));
      var other: Table := if t[0].site != site then [t[0]] else [];
      ClassSumAppend(other, OtherRows(t[1..], site));
    }
  }

  /** A site has rows exactly when it occurs in the table. */
  lemma SiteRowsEmpty(t: Table, site: string)
    ensures SiteRows(t, site) == [] <==> site !in Sites(t)
  {
    if site in Sites(t) {
      var r :| r in t && r.site == site;
      assert r in SiteRows(t, site);
    } else {
      forall x | x in t ensures !AtSite(site)(x) {
        assert x.site in Sites(t);
      }
      FilterKeepsNone(t, AtSite(site));
    }
  }

  /** With 0/1 outcomes the class total counts the successful launches. */
  lemma {:induction false} ClassSumCountsOutcomes(t: Table)
    requires Binary(t)
    ensures ClassSum(t) == |Successes(t)|
    ensures |t| - ClassSum(t) == |Failures(t)|
    decreases |t|
  {
    if t != [] {
      assert Binary(t[1..]) by {
        forall r | r in t[1..] ensures r.cls == 0 || r.cls == 1 {
          assert r in t;
        }
      }
      ClassSumCountsOutcomes(t[1..]);
      assert t[0] in t;
    }
  }

  /** With 0/1 outcomes the class total lies between 0 and the row count. */
  lemma ClassSumBounds(t: Table)
    requires Binary(t)
    ensures 0 <= ClassSum(t) <= |t|
  {
    ClassSumCountsOutcomes(t);
  }

  /** Every subset of a binary table is binary. */
  lemma SiteRowsBinary(t: Table, site: string)
    requires Binary(t)
    ensures Binary(SiteRows(t, site))
  {
  }
}
