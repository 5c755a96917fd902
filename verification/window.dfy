/** The bounded FIFO history the sampler keeps for each metric
    (src/broadcast-svc/main.go, `maxSamples` and the append/trim in `monitor`). */
module RollingWindow {

  /** A window capacity: the sampler never keeps fewer than one slot. */
  type Capacity = c: int | c >= 1 witness 1

  /** Number of samples a window holds: the averaging period divided by the
      sampling period (integer division), raised to 1 when the averaging period
      is shorter than one sampling period. */
  function MaxSamples(avgSeconds: int, sampleInterval: int): (cap: Capacity)
    requires avgSeconds > 0 && sampleInterval > 0
    ensures sampleInterval <= avgSeconds ==>
              cap * sampleInterval <= avgSeconds < (cap + 1) * sampleInterval
    ensures avgSeconds < sampleInterval ==> cap == 1
  {
    var q := avgSeconds / sampleInterval;
    if q < 1 then 1 else q
  }

  /** One tick on one history: append the new sample, then drop the front
      element if the history has grown past its capacity. */
  function Push(history: seq<real>, x: real, cap: Capacity): (r: seq<real>)
    ensures |r| > 0 && r[|r| - 1] == x
    ensures |history| < cap ==> |r| == |history| + 1
    ensures |history| >= cap ==> |r| == |history|
    ensures |history| <= cap ==> |r| <= cap
    // everything before the new sample is the old history minus at most its oldest element
    ensures r[..|r| - 1] == history[|history| + 1 - |r|..]
  {
    var appended := history + [x];
    if |appended| > cap then appended[1..] else appended
  }

  /** The last `min(|xs|, cap)` elements of `xs`, in order: what a window of
      capacity `cap` should hold after seeing `xs`. */
  function Latest(xs: seq<real>, cap: Capacity): (r: seq<real>)
    ensures |r| == if |xs| < cap then |xs| else cap
    ensures r == xs[|xs| - |r|..]
  {
    if |xs| <= cap then xs else xs[|xs| - cap..]
  }

  /** Feed `samples` to a window one at a time, oldest first. */
  function PushAll(history: seq<real>, samples: seq<real>, cap: Capacity): (r: seq<real>)
    ensures |history| <= cap ==> |r| <= cap
    ensures |samples| > 0 ==> |r| > 0 && r[|r| - 1] == samples[|samples| - 1]
    decreases |samples|
  {
    if |samples| == 0 then history
    else Push(PushAll(history, samples[..|samples| - 1], cap), samples[|samples| - 1], cap)
  }

  /** Pushing onto a window that already holds the latest elements of `xs`
      yields the latest elements of `xs + [x]`. */
  lemma PushLatest(xs: seq<real>, x: real, cap: Capacity)
    ensures Push(Latest(xs, cap), x, cap) == Latest(xs + [x], cap)
  {
    var w := Latest(xs, cap);
    var ys := xs + [x];
    if |xs| < cap {
      assert w == xs;
    } else {
      assert w == xs[|xs| - cap..];
      assert (w + [x])[1..] == ys[|ys| - cap..];
    }
  }

  /** Starting from any window within capacity, feeding samples leaves exactly
      the latest `cap` elements of the old window followed by the samples. */
  lemma {:induction false} PushAllKeepsLatest(history: seq<real>, samples: seq<real>, cap: Capacity)
    requires |history| <= cap
    ensures PushAll(history, samples, cap) == Latest(history + samples, cap)
    decreases |samples|
  {
    if |samples| == 0 {
      assert history + samples == history;
    } else {
      var init := samples[..|samples| - 1];
      var x := samples[|samples| - 1];
      assert samples == init + [x];
      calc {
        PushAll(history, samples, cap);
        Push(PushAll(history, init, cap), x, cap);
        { PushAllKeepsLatest(history, init, cap); }
        Push(Latest(history + init, cap), x, cap);
        { PushLatest(history + init, x, cap); }
        Latest((history + init) + [x], cap);
        { assert (history + init) + [x] == history + samples; }
        Latest(history + samples, cap);
      }
    }
  }

  /** From an empty history, n samples leave the last `min(n, cap)` of them in
      arrival order; in particular the history never exceeds its capacity. */
  lemma RecordFromEmpty(samples: seq<real>, cap: Capacity)
    ensures PushAll([], samples, cap) == Latest(samples, cap)
    ensures |PushAll([], samples, cap)| <= cap
  {
    PushAllKeepsLatest([], samples, cap);
    assert [] + samples == samples;
  }

  /** The worked case: a 20 s window sampled every 5 s holds 4 samples, and
      after 6 samples it holds samples 3 to 6. */
  lemma FourSlotWindowAfterSixSamples(s1: real, s2: real, s3: real, s4: real, s5: real, s6: real)
    ensures MaxSamples(20, 5) == 4
    ensures PushAll([], [s1, s2, s3, s4, s5, s6], MaxSamples(20, 5)) == [s3, s4, s5, s6]
  {
    var samples := [s1, s2, s3, s4, s5, s6];
    assert MaxSamples(20, 5) == 4;
    RecordFromEmpty(samples, 4);
    assert Latest(samples, 4) == samples[2..] == [s3, s4, s5, s6];
  }
}
