/**
 * Column aggregates used by the prediction form: the minimum, maximum and
 * arithmetic mean of a non-empty column of readings. Readings are
 * mathematical reals; there are no missing values and no rounding.
 */
module Stats {

  /** The smallest reading of a non-empty column. */
  function Min(s: seq<real>): (m: real)
    requires |s| > 0
    ensures m in s
    ensures forall i :: 0 <= i < |s| ==> m <= s[i]
  {
    if |s| == 1 then s[0]
    else
      var rest := Min(s[1..]);
      if s[0] <= rest then s[0] else rest
  }

  /** The largest reading of a non-empty column. */
  function Max(s: seq<real>): (m: real)
    requires |s| > 0
    ensures m in s
    ensures forall i :: 0 <= i < |s| ==> s[i] <= m
  {
    if |s| == 1 then s[0]
    else
      var rest := Max(s[1..]);
      if rest <= s[0] then s[0] else rest
  }

  /** The total of a column. */
  function Sum(s: seq<real>): real
  {
    if s == [] then 0.0 else s[0] + Sum(s[1..])
  }

  /** Every reading at least `c` makes the total at least |s| copies of `c`. */
  lemma {:induction false} SumAtLeast(s: seq<real>, c: real)
    requires forall i :: 0 <= i < |s| ==> c <= s[i]
    ensures |s| as real * c <= Sum(s)
  {
    if s != [] {
      var t := s[1..];
      SumAtLeast(t, c);
      assert (|t| as real + 1.0) * c == |t| as real * c + c;
    }
  }

  /** Every reading at most `c` makes the total at most |s| copies of `c`. */
  lemma {:induction false} SumAtMost(s: seq<real>, c: real)
    requires forall i :: 0 <= i < |s| ==> s[i] <= c
    ensures Sum(s) <= |s| as real * c
  {
    if s != [] {
      var t := s[1..];
      SumAtMost(t, c);
      assert (|t| as real + 1.0) * c == |t| as real * c + c;
    }
  }

  /** Dividing a total bounded by n copies of `lo` and `hi` by n keeps it between them. */
  lemma QuotientBounds(total: real, n: real, lo: real, hi: real)
    requires n > 0.0 && n * lo <= total <= n * hi
    ensures lo <= total / n <= hi
  {
    assert total / n - lo == (total - n * lo) / n;
    assert hi - total / n == (n * hi - total) / n;
  }

  /** The arithmetic mean of a non-empty column; it never leaves the column's range. */
  function Mean(s: seq<real>): (m: real)
    requires |s| > 0
    ensures Min(s) <= m <= Max(s)
  {
    SumAtLeast(s, Min(s));
    SumAtMost(s, Max(s));
    QuotientBounds(Sum(s), |s| as real, Min(s), Max(s));
    Sum(s) / |s| as real
  }
}
