/**
 * The payload slider's tick labels: `{i: f'{i}' for i in range(0, 10001, 1000)}`,
 * a map from every multiple of 1000 up to 10000 to its decimal string.
 */
module SliderMarks {

  /** Python's `range(start, stop, step)` for a positive step. */
  function PyRange(start: int, stop: int, step: int): (r: seq<int>)
    requires step > 0
    ensures forall i :: 0 <= i < |r| ==> r[i] == start + i * step
    ensures forall x :: x in r ==> start <= x < stop
    ensures start + |r| * step >= stop
    decreases stop - start
  {
    if start >= stop then []
    else
      var rest := PyRange(start + step, stop, step);
      assert start + (|rest| + 1) * step == start + step + |rest| * step;
      [start] + rest
  }

  /** The character of one decimal digit. */
  function DigitChar(d: int): (c: char)
    requires 0 <= d < 10
    ensures '0' <= c <= '9'
  {
    (48 + d) as char
  }

  /** The value of a digit character. */
  function DigitValue(c: char): (d: int)
    requires '0' <= c <= '9'
    ensures 0 <= d < 10
  {
    c as int - 48
  }

  /** Only decimal digits, and no leading zero unless the number is 0: the shape `f'{i}'` has for i >= 0. */
  predicate CanonicalDecimal(s: string)
  {
    && |s| > 0
    && (forall k :: 0 <= k < |s| ==> '0' <= s[k] <= '9')
    && (s[0] == '0' ==> |s| == 1)
  }

  /** `f'{n}'` for a non-negative integer `n`. */
  function Decimal(n: nat): (s: string)
    ensures CanonicalDecimal(s)
    ensures n < 10 <==> |s| == 1
  {
    if n < 10 then [DigitChar(n)]
    else Decimal(n / 10) + [DigitChar(n % 10)]
  }

  /** The number a string of decimal digits denotes. */
  function ParseDecimal(s: string): (n: nat)
    requires forall k :: 0 <= k < |s| ==> '0' <= s[k] <= '9'
  {
    if s == [] then 0
    else ParseDecimal(s[..|s| - 1]) * 10 + DigitValue(s[|s| - 1])
  }

  /** Reading a label back gives the number it was written from. */
  lemma {:induction false} ParseDecimalOfDecimal(n: nat)
    ensures ParseDecimal(Decimal(n)) == n
    decreases n
  {
    var s := Decimal(n);
    if n >= 10 {
      ParseDecimalOfDecimal(n / 10);
      assert s[..|s| - 1] == Decimal(n / 10);
    }
  }

  /** Distinct numbers get distinct labels. */
  lemma DecimalInjective(m: nat, n: nat)
    requires Decimal(m) == Decimal(n)
    ensures m == n
  {
    ParseDecimalOfDecimal(m);
    ParseDecimalOfDecimal(n);
  }

  /** The keys of the slider marks, in the order the comprehension visits them. */
  function MarkKeys(): (ks: seq<int>)
    ensures forall k: int :: k in ks ==> 0 <= k
  {
    PyRange(0, 10001, 1000)
  }

  /** The comprehension visits 0, 1000, ..., 10000 in that order. */
  lemma MarkKeysListed()
    ensures MarkKeys() == [0, 1000, 2000, 3000, 4000, 5000, 6000, 7000, 8000, 9000, 10000]
  {
  }

  /** The eleven listed thousands are exactly the multiples of 1000 from 0 to 10000. */
  lemma ThousandsListed(ks: set<int>)
    requires ks == {0, 1000, 2000, 3000, 4000, 5000, 6000, 7000, 8000, 9000, 10000}
    ensures forall k :: k in ks <==> 0 <= k <= 10000 && k % 1000 == 0
    ensures |ks| == 11
  {
    forall k | 0 <= k <= 10000 && k % 1000 == 0 ensures k in ks {
      var q := k / 1000;
      assert k == 1000 * q && 0 <= q <= 10;
      if q <= 5 {
        assert q == 0 || q == 1 || q == 2 || q == 3 || q == 4 || q == 5;
      } else {
        assert q == 6 || q == 7 || q == 8 || q == 9 || q == 10;
      }
    }
  }

  /** Labels written by `Decimal` are canonical and read back as their keys. */
  lemma DecimalLabels(m: map<int, string>)
    requires forall k: int :: k in m ==> k >= 0 && m[k] == Decimal(k)
    ensures forall k: int :: k in m ==> CanonicalDecimal(m[k]) && ParseDecimal(m[k]) == k
  {
    forall k: int | k in m ensures CanonicalDecimal(m[k]) && ParseDecimal(m[k]) == k {
      ParseDecimalOfDecimal(k);
    }
  }

  /**
   * The `marks` argument of the payload slider: exactly the eleven multiples
   * of 1000 from 0 to 10000, each labelled by its canonical decimal string.
   */
  function Marks(): (m: map<int, string>)
    ensures forall k :: k in m <==> 0 <= k <= 10000 && k % 1000 == 0
    ensures |m| == 11
    ensures forall k: int :: k in m ==> CanonicalDecimal(m[k]) && ParseDecimal(m[k]) == k
  {
    var m := map k | k in MarkKeys() :: Decimal(k);
    MarkKeysListed();
    assert m.Keys == {0, 1000, 2000, 3000, 4000, 5000, 6000, 7000, 8000, 9000, 10000};
    ThousandsListed(m.Keys);
    DecimalLabels(m);
    m
  }
}
