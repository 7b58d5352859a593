/** Arithmetic over series of measurements: `sum`, `min`, `max`, the mean,
    and dropping `None` entries, as the Python comprehensions and the ORM
    aggregates (`Sum`, `Avg`, `Min`, `Max`) compute them. */
module Series {
  import opened Wrappers
  import opened Sequences

  function Sum(s: seq<real>): real {
    if |s| == 0 then 0.0 else s[0] + Sum(s[1..])
  }

  lemma {:induction false} SumAppend(a: seq<real>, b: seq<real>)
    ensures Sum(a + b) == Sum(a) + Sum(b)
  {
    if |a| == 0 {
      assert a + b == b;
    } else {
      assert (a + b)[1..] == a[1..] + b;
      SumAppend(a[1..], b);
    }
  }

  /** A series whose every entry is `c` sums to `|s| * c`. */
  lemma {:induction false} SumConstant(s: seq<real>, c: real)
    requires forall i :: 0 <= i < |s| ==> s[i] == c
    ensures Sum(s) == |s| as real * c
  {
    if |s| > 0 {
      SumConstant(s[1..], c);
    }
  }

  function Min(s: seq<real>): (m: real)
    requires |s| > 0
    ensures m in s
    ensures forall i :: 0 <= i < |s| ==> m <= s[i]
  {
    if |s| == 1 then s[0]
    else
      var rest := Min(s[1..]);
      assert forall i :: 1 <= i < |s| ==> s[i] == s[1..][i - 1];
      if s[0] <= rest then s[0] else rest
  }

  function Max(s: seq<real>): (m: real)
    requires |s| > 0
    ensures m in s
    ensures forall i :: 0 <= i < |s| ==> s[i] <= m
  {
    if |s| == 1 then s[0]
    else
      var rest := Max(s[1..]);
      assert forall i :: 1 <= i < |s| ==> s[i] == s[1..][i - 1];
      if s[0] >= rest then s[0] else rest
  }

  /** The arithmetic mean of a non-empty series. */
  function Mean(s: seq<real>): real
    requires |s| > 0
  {
    Sum(s) / (|s| as real)
  }

  /** Every entry lies in [lo, hi], so the sum lies in [n * lo, n * hi]. */
  lemma {:induction false} SumBetween(s: seq<real>, lo: real, hi: real)
    requires forall i :: 0 <= i < |s| ==> lo <= s[i] <= hi
    ensures |s| as real * lo <= Sum(s) <= |s| as real * hi
  {
    if |s| > 0 {
      SumBetween(s[1..], lo, hi);
    }
  }

  /** The mean of a series lies between its smallest and largest entry. */
  lemma MeanBetweenExtremes(s: seq<real>)
    requires |s| > 0
    ensures Min(s) <= Mean(s) <= Max(s)
  {
    MeanBetween(s, Min(s), Max(s));
  }

  /** The mean of a series with entries in [lo, hi] lies in [lo, hi]. */
  lemma MeanBetween(s: seq<real>, lo: real, hi: real)
    requires |s| > 0
    requires forall i :: 0 <= i < |s| ==> lo <= s[i] <= hi
    ensures lo <= Mean(s) <= hi
  {
    var n := |s| as real;
    SumBetween(s, lo, hi);
    assert Mean(s) * n == Sum(s);
  }

  /** The values that are present, in their original order. */
  function Present(s: seq<Option<real>>): (r: seq<real>)
    ensures |r| <= |s|
    ensures |r| == 0 <==> forall i :: 0 <= i < |s| ==> s[i] == None
    ensures forall i :: 0 <= i < |r| ==> Some(r[i]) in s
    ensures forall i :: 0 <= i < |s| && s[i].Some? ==> s[i].value in r
  {
    if |s| == 0 then []
    else
      var rest := Present(s[1..]);
      assert forall i :: 1 <= i < |s| ==> s[i] == s[1..][i - 1];
      assert forall x :: x in s[1..] ==> x in s;
      match s[0]
      case Some(x) => [x] + rest
      case None => rest
  }

  predicate Positive(x: real) {
    x > 0.0
  }

  /** How many values are strictly positive. */
  function CountPositive(s: seq<real>): (n: nat)
    ensures n == Count(s, Positive)
    ensures n <= |s|
    ensures n == |s| <==> forall i :: 0 <= i < |s| ==> s[i] > 0.0
    ensures n == 0 <==> forall i :: 0 <= i < |s| ==> s[i] <= 0.0
  {
    if |s| == 0 then 0
    else
      assert forall i :: 1 <= i < |s| ==> s[i] == s[1..][i - 1];
      (if s[0] > 0.0 then 1 else 0) + CountPositive(s[1..])
  }
}
