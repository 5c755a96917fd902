/** One cycle of the broadcast loop in `main` (src/broadcast-svc/main.go):
    pick a jittered delay, read the window averages, build the announcement. */
module Broadcast {
  import opened Wrappers
  import opened RollingWindow
  import opened Stats
  import opened Sampler
  import opened Config

  /** The announcement payload, `main.go`'s `Resources` record. */
  datatype Resources = Resources(
    hostname: string,
    cpu: real,
    memory: real,
    txKbps: real,
    rxKbps: real,
    activeConns: real,
    custom: string)

  /** Traffic below 1 kbps is reported as exactly 0. */
  function NoiseFloor(v: real): (r: real)
    ensures r == 0.0 || r >= 1.0
    ensures r == v <==> v >= 1.0 || v == 0.0
    ensures r != v ==> r == 0.0
  {
    if v < 1.0 then 0.0 else v
  }

  /** Applying the floor twice changes nothing. */
  lemma NoiseFloorIdempotent(v: real)
    ensures NoiseFloor(NoiseFloor(v)) == NoiseFloor(v)
  {
  }

  /** More traffic never reports less. */
  lemma NoiseFloorMonotone(v: real, w: real)
    requires v <= w
    ensures NoiseFloor(v) <= NoiseFloor(w)
  {
  }

  /** The announcement built from the current histories. `round` stands for
      `round(val, 2)`, the rounding to two decimals, which is not interpreted here; the floor
      applies to the rounded traffic averages only. */
  function Report(hostname: string, custom: string, h: Histories, round: real -> real): (r: Resources)
    ensures r.hostname == hostname && r.custom == custom
    ensures r.cpu == round(Mean(h.cpu))
    ensures r.memory == round(Mean(h.mem))
    ensures r.activeConns == round(Mean(h.conns))
    ensures round(Mean(h.tx)) >= 1.0 ==> r.txKbps == round(Mean(h.tx))
    ensures round(Mean(h.tx)) < 1.0 ==> r.txKbps == 0.0
    ensures round(Mean(h.rx)) >= 1.0 ==> r.rxKbps == round(Mean(h.rx))
    ensures round(Mean(h.rx)) < 1.0 ==> r.rxKbps == 0.0
  {
    Resources(
      hostname,
      round(Mean(h.cpu)),
      round(Mean(h.mem)),
      NoiseFloor(round(Mean(h.tx))),
      NoiseFloor(round(Mean(h.rx))),
      round(Mean(h.conns)),
      custom)
  }

  /** After any run of ticks, every reported figure is the (rounded) mean of
      that metric's latest `cap` samples only; cpu, memory and connections are
      never floored, traffic figures are. */
  lemma {:induction false} ReportReflectsLatestSamples(hostname: string, custom: string, samples: seq<Sample>,
                                    cap: Capacity, round: real -> real)
    ensures Report(hostname, custom, Run(samples, cap), round).cpu ==
              round(Mean(Latest(Series(samples, Cpu), cap)))
    ensures Report(hostname, custom, Run(samples, cap), round).memory ==
              round(Mean(Latest(Series(samples, Mem), cap)))
    ensures Report(hostname, custom, Run(samples, cap), round).txKbps ==
              NoiseFloor(round(Mean(Latest(Series(samples, Tx), cap))))
    ensures Report(hostname, custom, Run(samples, cap), round).rxKbps ==
              NoiseFloor(round(Mean(Latest(Series(samples, Rx), cap))))
    ensures Report(hostname, custom, Run(samples, cap), round).activeConns ==
              round(Mean(Latest(Series(samples, Conns), cap)))
  {
    RunMetricHoldsLatest(samples, cap, Cpu);
    RunMetricHoldsLatest(samples, cap, Mem);
    RunMetricHoldsLatest(samples, cap, Tx);
    RunMetricHoldsLatest(samples, cap, Rx);
    RunMetricHoldsLatest(samples, cap, Conns);
    ReportOfHistories(hostname, custom, Run(samples, cap), round,
                      Latest(Series(samples, Cpu), cap), Latest(Series(samples, Mem), cap),
                      Latest(Series(samples, Tx), cap), Latest(Series(samples, Rx), cap),
                      Latest(Series(samples, Conns), cap));
  }

  /** Report's fields in terms of given history contents. */
  lemma ReportOfHistories(hostname: string, custom: string, h: Histories, round: real -> real,
                          cpu: seq<real>, mem: seq<real>, tx: seq<real>, rx: seq<real>, conns: seq<real>)
    requires h.Get(Cpu) == cpu && h.Get(Mem) == mem && h.Get(Tx) == tx
    requires h.Get(Rx) == rx && h.Get(Conns) == conns
    ensures Report(hostname, custom, h, round).cpu == round(Mean(cpu))
    ensures Report(hostname, custom, h, round).memory == round(Mean(mem))
    ensures Report(hostname, custom, h, round).txKbps == NoiseFloor(round(Mean(tx)))
    ensures Report(hostname, custom, h, round).rxKbps == NoiseFloor(round(Mean(rx)))
    ensures Report(hostname, custom, h, round).activeConns == round(Mean(conns))
  {
  }

  /** Before the first tick every history is empty, so all raw figures are 0. */
  lemma ReportBeforeFirstTick(hostname: string, custom: string, round: real -> real)
    requires round(0.0) == 0.0
    ensures Report(hostname, custom, NoHistory, round) == Resources(hostname, 0.0, 0.0, 0.0, 0.0, 0.0, custom)
  {
  }

  /** The exclusive upper bound `main` passes to `rand.Int`: max - min + 1.
      Valid settings make it positive (`rand.Int` panics otherwise), and its
      largest draw puts the delay exactly at max. */
  function DrawBound(c: Settings): (n: int)
    ensures c.Valid() ==> n >= 2
    ensures c.minInterval + (n - 1) == c.maxInterval
  {
    c.maxInterval - c.minInterval + 1
  }

  /** The jittered delay before the next announcement. `draw` is what
      `rand.Int` returned for the bound `DrawBound(c)`; None means `rand.Int`
      failed, and the loop starts the cycle again without sleeping. */
  function NextInterval(c: Settings, draw: Option<int>): (r: Option<int>)
    requires c.Valid()
    requires draw.Some? ==> 0 <= draw.value < DrawBound(c)
    ensures r.Some? <==> draw.Some?
    ensures r.Some? ==> c.minInterval <= r.value <= c.maxInterval
    ensures r.Some? ==> r.value - c.minInterval == draw.value
  {
    match draw
    case Some(d) => Some(c.minInterval + d)
    case None => None
  }

  /** Every delay in [min, max] comes from exactly one draw below `DrawBound`,
      so a uniform draw gives a uniform delay over the whole range, ends included. */
  lemma IntervalCoversRangeOnce(c: Settings, t: int)
    requires c.Valid()
    requires c.minInterval <= t <= c.maxInterval
    ensures exists d :: 0 <= d < DrawBound(c) && NextInterval(c, Some(d)) == Some(t)
    ensures forall d :: 0 <= d < DrawBound(c) && NextInterval(c, Some(d)) == Some(t) ==>
              d == t - c.minInterval
  {
    var d := t - c.minInterval;
    assert NextInterval(c, Some(d)) == Some(t);
  }

  /** What one pass of the broadcast loop does. */
  datatype Cycle =
    | Retry                                     // `rand.Int` failed
    | Announce(delay: int, payload: Resources)  // sleep `delay` seconds, then send `payload`

  /** One pass of the loop: draw the delay, then announce the averages of the
      histories as they stand when the loop wakes. */
  function BroadcastCycle(c: Settings, hostname: string, draw: Option<int>,
                          atWake: Histories, round: real -> real): (r: Cycle)
    requires c.Valid()
    requires draw.Some? ==> 0 <= draw.value < DrawBound(c)
    ensures r.Retry? <==> draw.None?
    ensures r.Announce? ==> c.minInterval <= r.delay <= c.maxInterval
    ensures r.Announce? ==> r.delay == c.minInterval + draw.value
    ensures r.Announce? ==> r.payload == Report(hostname, c.custom, atWake, round)
    ensures r.Announce? ==> r.payload.hostname == hostname && r.payload.custom == c.custom
    ensures r.Announce? ==> r.payload.txKbps == 0.0 || r.payload.txKbps >= 1.0
    ensures r.Announce? ==> r.payload.rxKbps == 0.0 || r.payload.rxKbps >= 1.0
  {
    match NextInterval(c, draw)
    case None => Retry
    case Some(delay) => Announce(delay, Report(hostname, c.custom, atWake, round))
  }

  /** A cycle after any run of ticks under validated settings: the window
      capacity comes from the settings, and every announced figure is the
      (rounded) mean of its metric's latest `WindowCapacity()` samples. */
  lemma {:induction false} CycleAnnouncesLatestWindow(c: Settings, hostname: string, draw: int,
                                                       samples: seq<Sample>, round: real -> real)
    requires c.Valid()
    requires 0 <= draw < DrawBound(c)
    ensures var r := BroadcastCycle(c, hostname, Some(draw), Run(samples, c.WindowCapacity()), round);
      && r.Announce?
      && r.payload.cpu == round(Mean(Latest(Series(samples, Cpu), c.WindowCapacity())))
      && r.payload.memory == round(Mean(Latest(Series(samples, Mem), c.WindowCapacity())))
      && r.payload.txKbps == NoiseFloor(round(Mean(Latest(Series(samples, Tx), c.WindowCapacity()))))
      && r.payload.rxKbps == NoiseFloor(round(Mean(Latest(Series(samples, Rx), c.WindowCapacity()))))
      && r.payload.activeConns == round(Mean(Latest(Series(samples, Conns), c.WindowCapacity())))
  {
    ReportReflectsLatestSamples(hostname, c.custom, samples, c.WindowCapacity(), round);
  }
}
