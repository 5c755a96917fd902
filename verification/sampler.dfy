/** One sampling tick of `monitor` (src/broadcast-svc/main.go): probe readings
    in, one scalar per metric appended to each of the five histories. */
module Sampler {
  import opened Wrappers
  import opened RollingWindow

  const TwoTo64: int := 0x1_0000_0000_0000_0000

  /** The probes' cumulative byte counters are Go `uint64`s. */
  type U64 = n: int | 0 <= n < TwoTo64

  /** Bytes sent (or received) between two counter readings, computed the way
      `monitor`'s `uint64` subtraction does: modulo 2^64. */
  function CounterDelta(prev: U64, curr: U64): (d: U64)
    ensures (prev + d) % TwoTo64 == curr
    ensures prev <= curr ==> d == curr - prev
  {
    (curr - prev) % TwoTo64
  }

  /** A counter that went backwards (an interface reset, or the probe reporting
      0 after an error) is read as a huge delta, not as zero traffic. */
  lemma CounterResetReadsAsHugeDelta(prev: U64, curr: U64)
    requires curr < prev
    ensures CounterDelta(prev, curr) >= TwoTo64 - prev
    ensures CounterDelta(prev, curr) > curr
  {
  }

  /** Throughput in kilobits per second of `delta` bytes over one sampling period. */
  function Kbps(delta: nat, sampleInterval: int): (r: real)
    requires sampleInterval > 0
    ensures r >= 0.0
    ensures r * (sampleInterval as real) * 1000.0 == (delta as real) * 8.0
  {
    ((delta as real) * 8.0 / 1000.0) / (sampleInterval as real)
  }

  /** What the external probes returned during one tick. */
  datatype Reading = Reading(
    cpuPercents: Option<seq<real>>,  // `cpu.Percent` over the interval; None on error
    memUsedPercent: Option<real>,    // `mem.VirtualMemory().UsedPercent`; None on error
    txBefore: U64, rxBefore: U64,    // byte counters read before the CPU measurement
    txAfter: U64, rxAfter: U64,      // byte counters read after it
    establishedConns: nat)           // established TCP connections

  /** The five metrics the sampler tracks. */
  datatype Metric = Cpu | Mem | Tx | Rx | Conns

  /** The five scalars recorded by one tick. */
  datatype Sample = Sample(cpu: real, mem: real, tx: real, rx: real, conns: real) {
    function Get(m: Metric): real {
      match m
      case Cpu => cpu
      case Mem => mem
      case Tx => tx
      case Rx => rx
      case Conns => conns
    }
  }

  /** Turn one tick's readings into the scalars to record: a failed probe
      contributes 0, throughput comes from the counter deltas. */
  function SampleOf(reading: Reading, sampleInterval: int): (s: Sample)
    requires sampleInterval > 0
    ensures reading.cpuPercents.None? ==> s.cpu == 0.0
    ensures reading.cpuPercents.Some? && |reading.cpuPercents.value| > 0 ==>
              s.cpu == reading.cpuPercents.value[0]
    ensures reading.cpuPercents == Some([]) ==> s.cpu == 0.0
    ensures reading.memUsedPercent.None? ==> s.mem == 0.0
    ensures reading.memUsedPercent.Some? ==> s.mem == reading.memUsedPercent.value
    ensures s.tx >= 0.0 && s.rx >= 0.0 && s.conns >= 0.0
    ensures s.tx == Kbps(CounterDelta(reading.txBefore, reading.txAfter), sampleInterval)
    ensures s.rx == Kbps(CounterDelta(reading.rxBefore, reading.rxAfter), sampleInterval)
    ensures reading.txBefore <= reading.txAfter ==>
              s.tx * (sampleInterval as real) * 1000.0 == ((reading.txAfter - reading.txBefore) as real) * 8.0
    ensures reading.rxBefore <= reading.rxAfter ==>
              s.rx * (sampleInterval as real) * 1000.0 == ((reading.rxAfter - reading.rxBefore) as real) * 8.0
    ensures s.conns == reading.establishedConns as real
  {
    var cpu := match reading.cpuPercents
      case Some(ps) => if |ps| > 0 then ps[0] else 0.0
      case None => 0.0;
    var mem := match reading.memUsedPercent
      case Some(p) => p
      case None => 0.0;
    Sample(
      cpu,
      mem,
      Kbps(CounterDelta(reading.txBefore, reading.txAfter), sampleInterval),
      Kbps(CounterDelta(reading.rxBefore, reading.rxAfter), sampleInterval),
      reading.establishedConns as real)
  }

  /** The five parallel histories. */
  datatype Histories = Histories(cpu: seq<real>, mem: seq<real>, tx: seq<real>, rx: seq<real>, conns: seq<real>) {
    function Get(m: Metric): seq<real> {
      match m
      case Cpu => cpu
      case Mem => mem
      case Tx => tx
      case Rx => rx
      case Conns => conns
    }

    /** All five histories have the same length and fit the window. */
    predicate WellFormed(cap: Capacity) {
      |cpu| == |mem| == |tx| == |rx| == |conns| <= cap
    }
  }

  /** The histories before the first tick. */
  const NoHistory := Histories([], [], [], [], [])

  /** The locked section of one tick: each history gets its scalar appended and
      is trimmed by the same rule. */
  function Tick(h: Histories, s: Sample, cap: Capacity): (r: Histories)
    ensures forall m: Metric :: r.Get(m) == Push(h.Get(m), s.Get(m), cap)
    ensures h.WellFormed(cap) ==> r.WellFormed(cap)
    ensures h.WellFormed(cap) && |h.cpu| < cap ==> |r.cpu| == |h.cpu| + 1
    ensures h.WellFormed(cap) && |h.cpu| == cap ==> |r.cpu| == cap
  {
    var r := Histories(
      Push(h.cpu, s.cpu, cap),
      Push(h.mem, s.mem, cap),
      Push(h.tx, s.tx, cap),
      Push(h.rx, s.rx, cap),
      Push(h.conns, s.conns, cap));
    assert h.WellFormed(cap) ==> |r.cpu| == |r.mem| == |r.tx| == |r.rx| == |r.conns| <= cap;
    r
  }

  /** The samples' values for one metric, in arrival order. */
  function Series(samples: seq<Sample>, m: Metric): (r: seq<real>)
    ensures |r| == |samples|
    ensures forall i :: 0 <= i < |samples| ==> r[i] == samples[i].Get(m)
  {
    seq(|samples|, i requires 0 <= i < |samples| => samples[i].Get(m))
  }

  /** The sampler's state after `monitor` has recorded `samples` one tick at a
      time, starting from empty histories. */
  function Run(samples: seq<Sample>, cap: Capacity): (r: Histories)
    ensures r.WellFormed(cap)
    ensures |r.cpu| == if |samples| < cap then |samples| else cap
    decreases |samples|
  {
    if |samples| == 0 then NoHistory
    else
      var before := Run(samples[..|samples| - 1], cap);
      assert before.WellFormed(cap);
      Tick(before, samples[|samples| - 1], cap)
  }

  /** The last tick of a run is one `Push` on each history. */
  lemma RunStep(samples: seq<Sample>, cap: Capacity, m: Metric)
    requires |samples| > 0
    ensures Run(samples, cap).Get(m) ==
            Push(Run(samples[..|samples| - 1], cap).Get(m), samples[|samples| - 1].Get(m), cap)
  {
    var before := Run(samples[..|samples| - 1], cap);
    assert Run(samples, cap) == Tick(before, samples[|samples| - 1], cap);
  }

  /** Each history of a run is its metric's series fed through the window. */
  lemma {:induction false} RunIsPushAll(samples: seq<Sample>, cap: Capacity, m: Metric)
    ensures Run(samples, cap).Get(m) == PushAll([], Series(samples, m), cap)
    decreases |samples|
  {
    if |samples| > 0 {
      var init := samples[..|samples| - 1];
      var s := Series(samples, m);
      assert Series(init, m) == s[..|s| - 1];
      RunIsPushAll(init, cap, m);
      RunStep(samples, cap, m);
      assert s[|s| - 1] == samples[|samples| - 1].Get(m);
    }
  }

  /** One metric's history after a run is the latest `min(n, cap)` of its values. */
  lemma RunMetricHoldsLatest(samples: seq<Sample>, cap: Capacity, m: Metric)
    ensures Run(samples, cap).Get(m) == Latest(Series(samples, m), cap)
  {
    RunIsPushAll(samples, cap, m);
    RecordFromEmpty(Series(samples, m), cap);
  }

  /** After any number of ticks from empty, every history holds exactly the
      latest `min(n, cap)` values of its metric, in arrival order, and the five
      histories have equal length within capacity. */
  lemma RunHoldsLatest(samples: seq<Sample>, cap: Capacity)
    ensures forall m: Metric :: Run(samples, cap).Get(m) == Latest(Series(samples, m), cap)
    ensures Run(samples, cap).WellFormed(cap)
  {
    forall m: Metric
      ensures Run(samples, cap).Get(m) == Latest(Series(samples, m), cap)
    {
      RunMetricHoldsLatest(samples, cap, m);
    }
    var h := Run(samples, cap);
    assert h.cpu == h.Get(Cpu) && h.mem == h.Get(Mem) && h.tx == h.Get(Tx);
    assert h.rx == h.Get(Rx) && h.conns == h.Get(Conns);
  }
}
