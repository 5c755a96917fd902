/** Window averages (src/broadcast-svc/main.go, `average`). */
module Stats {

  /** Sum of a history, accumulated front to back as `average`'s loop does. */
  function Sum(xs: seq<real>): real
    decreases |xs|
  {
    if |xs| == 0 then 0.0 else Sum(xs[..|xs| - 1]) + xs[|xs| - 1]
  }

  /** Arithmetic mean of a history; an empty history averages to 0. */
  function Mean(xs: seq<real>): (m: real)
    ensures |xs| == 0 ==> m == 0.0
    ensures |xs| > 0 ==> m * (|xs| as real) == Sum(xs)
  {
    if |xs| == 0 then 0.0 else Sum(xs) / (|xs| as real)
  }

  /** `average`'s loop: 0 on an empty history, otherwise a running sum divided
      by the length. */
  method Average(hist: seq<real>) returns (avg: real)
    ensures avg == Mean(hist)
  {
    if |hist| == 0 {
      return 0.0;
    }
    var sum := 0.0;
    var i := 0;
    while i < |hist|
      invariant 0 <= i <= |hist|
      invariant sum == Sum(hist[..i])
    {
      assert hist[..i + 1][..i] == hist[..i];
      sum := sum + hist[i];
      i := i + 1;
    }
    assert hist[..|hist|] == hist;
    avg := sum / (|hist| as real);
  }

  /** Every element within [lo, hi] puts the sum within [n*lo, n*hi]. */
  lemma {:induction false} SumBounds(xs: seq<real>, lo: real, hi: real)
    requires forall i :: 0 <= i < |xs| ==> lo <= xs[i] <= hi
    ensures (|xs| as real) * lo <= Sum(xs) <= (|xs| as real) * hi
    decreases |xs|
  {
    if |xs| > 0 {
      var init := xs[..|xs| - 1];
      assert forall i :: 0 <= i < |init| ==> init[i] == xs[i];
      SumBounds(init, lo, hi);
      assert (|xs| as real) * lo == (|init| as real) * lo + lo;
      assert (|xs| as real) * hi == (|init| as real) * hi + hi;
    }
  }

  /** A non-empty history whose elements all exceed `c` sums to more than n*c. */
  lemma {:induction false} SumAbove(xs: seq<real>, c: real)
    requires |xs| > 0
    requires forall i :: 0 <= i < |xs| ==> xs[i] > c
    ensures Sum(xs) > (|xs| as real) * c
    decreases |xs|
  {
    var init := xs[..|xs| - 1];
    assert forall i :: 0 <= i < |init| ==> init[i] == xs[i];
    if |init| > 0 {
      SumAbove(init, c);
    }
  }

  /** A non-empty history whose elements all fall below `c` sums to less than n*c. */
  lemma {:induction false} SumBelow(xs: seq<real>, c: real)
    requires |xs| > 0
    requires forall i :: 0 <= i < |xs| ==> xs[i] < c
    ensures Sum(xs) < (|xs| as real) * c
    decreases |xs|
  {
    var init := xs[..|xs| - 1];
    assert forall i :: 0 <= i < |init| ==> init[i] == xs[i];
    if |init| > 0 {
      SumBelow(init, c);
    }
  }

  /** The mean of a non-empty history lies within any bounds that hold of all
      its elements. */
  lemma MeanWithinBounds(xs: seq<real>, lo: real, hi: real)
    requires |xs| > 0
    requires forall i :: 0 <= i < |xs| ==> lo <= xs[i] <= hi
    ensures lo <= Mean(xs) <= hi
  {
    SumBounds(xs, lo, hi);
  }

  /** The mean of a non-empty history lies between its smallest and its largest
      element: some element is at most the mean and some element at least it. */
  lemma MeanBetweenExtremes(xs: seq<real>)
    requires |xs| > 0
    ensures exists i :: 0 <= i < |xs| && xs[i] <= Mean(xs)
    ensures exists j :: 0 <= j < |xs| && xs[j] >= Mean(xs)
  {
    var m := Mean(xs);
    if forall i :: 0 <= i < |xs| ==> xs[i] > m {
      SumAbove(xs, m);
      assert false;
    }
    if forall j :: 0 <= j < |xs| ==> xs[j] < m {
      SumBelow(xs, m);
      assert false;
    }
  }
}
