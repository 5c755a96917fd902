# go-discover broadcast service: sampler and broadcast-cycle model

This Dafny project models the core of the go-discover broadcast service
(`src/broadcast-svc/main.go`). A background loop, `monitor`, records one
sample per metric on each pass. It keeps a bounded rolling history per metric.
The main loop wakes at a jittered interval and announces the window averages
to the local network. `monitor` has no sleep of its own. Its pace comes only
from `cpu.Percent` blocking for `sampleInterval` seconds (main.go:177).
In this file, `main.go:N` means line N of `src/broadcast-svc/main.go`.

The model is functional: immutable sequences of `real`, pure functions, and lemmas.

- `RollingWindow` (`window.dfy`): the window capacity `maxSamples` and the
  append-then-trim step applied to one history. `Latest` is a reference
  definition: the last `min(n, cap)` elements. The lemmas prove that feeding samples
  one at a time yields exactly `Latest`.
- `Stats` (`stats.dfy`): the `average` loop, a recursive `Sum`/`Mean`
  reference for it, and bounds on the mean.
- `Sampler` (`sampler.dfy`): one `monitor` tick. Probe results are inputs
  (`Reading`). Byte-counter deltas are taken modulo 2^64, as Go's `uint64`
  subtraction does. Throughput is `delta * 8 / 1000 / sampleInterval`. The five
  histories are updated by the same rule in the same tick.
- `Config` (`config.dfy`): the start-up checks in `main`, applied to settings
  that are already parsed. Checks run in `main`'s order, and the first failure
  decides the error. SAMPLE_INTERVAL defaults to 5.
- `Broadcast` (`broadcast.dfy`): one pass of the broadcast loop. It covers the
  bound `max - min + 1` passed to `rand.Int`, the delay `min + r` for its draw
  `r`, the announcement built from the window averages, and the sub-1-kbps
  noise floor on tx/rx.

Facts about `main.go` that the model keeps:

- On a `rand.Int` error the loop retries at once (`continue`, main.go:126-129),
  without sleeping and without announcing. `NextInterval` returns `None` and
  `BroadcastCycle` returns `Retry`.
- The floor on tx/rx applies to the averages after they are rounded to two
  decimals (main.go:136-146). So a traffic mean of 0.996 rounds to 1.0 and is
  reported as 1.0.
- A tick drops at most one element from each history (main.go:204-205).
  Histories stay within capacity because they start empty and grow by at most
  one per tick (`Push`, `RecordFromEmpty`, `RunHoldsLatest`).

Counter spikes: `getNetIO` returns 0, 0 when the probe fails (main.go:246-248).
If that happens on the later read, or an interface resets, the counter goes
backwards. The `uint64` delta then wraps to a value near 2^64 and the tick
records a huge throughput (`CounterDelta`, `CounterResetReadsAsHugeDelta`).
If it happens on the earlier read instead, there is no wrap. The whole
cumulative counter then becomes one tick's delta, which is also a spike. The
model states what the code computes in both cases and does not say what the
intended behaviour would be.

## Model

| member | source | states |
|---|---|---|
| `RollingWindow.MaxSamples` | src/broadcast-svc/main.go:102-105 | capacity is the largest c with c·sampleInterval ≤ avgSeconds when the window covers at least one interval, and exactly 1 otherwise; always ≥ 1 |
| `RollingWindow.Push` | src/broadcast-svc/main.go:203-206 | the new sample is last; the rest is the old history with at most its oldest element dropped; length grows by one below capacity, stays put at capacity, never exceeds capacity if it did not before |
| `RollingWindow.PushAll` | src/broadcast-svc/main.go:203-206 | definition: one `Push` per sample, oldest first; a history within capacity stays within it, and the last sample fed is the last element |
| `RollingWindow.PushLatest` | src/broadcast-svc/main.go:203-206 | a tick on a window holding the latest elements of xs holds the latest elements of xs followed by the new sample |
| `RollingWindow.PushAllKeepsLatest` | src/broadcast-svc/main.go:202-223 | from any history within capacity, any sequence of ticks leaves exactly the last `cap` elements of history-then-samples, in order |
| `RollingWindow.RecordFromEmpty` | src/broadcast-svc/main.go:202-223 | from an empty history, n samples leave the last min(n, cap) samples in arrival order, never more than cap |
| `RollingWindow.FourSlotWindowAfterSixSamples` | src/broadcast-svc/main.go:102-105 | a 20 s window sampled every 5 s has capacity 4, and after six samples holds samples 3 to 6 |
| `Stats.Mean` | src/broadcast-svc/main.go:228-237 | the mean of an empty history is 0; otherwise mean times length equals the sum |
| `Stats.Average` | src/broadcast-svc/main.go:228-237 | `average`'s summing loop computes exactly `Mean` (0 on empty input) |
| `Stats.SumBounds` | src/broadcast-svc/main.go:232-235 | elements within [lo, hi] put the sum within [n·lo, n·hi] |
| `Stats.SumAbove` | src/broadcast-svc/main.go:232-235 | a non-empty history whose elements all exceed c sums to more than n·c |
| `Stats.SumBelow` | src/broadcast-svc/main.go:232-235 | a non-empty history whose elements all fall below c sums to less than n·c |
| `Stats.MeanWithinBounds` | src/broadcast-svc/main.go:228-237 | the average of a non-empty history lies within any bounds that hold of every element |
| `Stats.MeanBetweenExtremes` | src/broadcast-svc/main.go:228-237 | the average of a non-empty history lies between its smallest and its largest element |
| `Sampler.CounterDelta` | src/broadcast-svc/main.go:186-187 | the delta is the unique 64-bit value that, added to the earlier counter modulo 2^64, gives the later one; it is the plain difference when the counter did not go backwards |
| `Sampler.CounterResetReadsAsHugeDelta` | src/broadcast-svc/main.go:186-187 | a counter that went backwards yields a delta of at least 2^64 minus the earlier reading |
| `Sampler.Kbps` | src/broadcast-svc/main.go:189-190 | throughput is non-negative and, multiplied by the sampling period and 1000, equals the byte delta times 8 |
| `Sampler.SampleOf` | src/broadcast-svc/main.go:175-200 | a failed CPU or memory probe (or an empty CPU result) contributes 0; CPU is the first per-interval percentage; tx/rx are the throughputs of the 64-bit wrapping counter deltas, also when a counter went backwards; connections are the established count |
| `Sampler.Tick` | src/broadcast-svc/main.go:202-223 | all five histories get the same append-and-trim in the same tick; equal lengths within capacity are preserved; length grows by one below capacity and stays at capacity |
| `Sampler.Run` | src/broadcast-svc/main.go:169-225 | definition: one `Tick` per sample, starting from the empty histories `main` declares (main.go:108); the result is well-formed and holds min(n, cap) entries per metric |
| `Sampler.RunIsPushAll` | src/broadcast-svc/main.go:202-223 | each history after a run of ticks is that metric's series fed through the window |
| `Sampler.RunMetricHoldsLatest` | src/broadcast-svc/main.go:202-223 | each history after a run of ticks is the latest min(n, cap) values of its metric |
| `Sampler.RunHoldsLatest` | src/broadcast-svc/main.go:169-223 | after any run of ticks from empty, every history holds the latest min(n, cap) values of its metric and the five histories have equal length within capacity |
| `Config.Validate` | src/broadcast-svc/main.go:35-85 | accepted exactly when the address and custom tag are non-empty, port, min, max and avgSeconds are positive integers with min < max, and the sample interval is unset or positive; an accepted configuration carries the given values, with sample interval 5 when unset; each error is reported exactly when every earlier check in `main`'s order passed and that setting is missing or invalid, so the first failing check decides the error |
| `Config.ValidateAcceptsExactlyValid` | src/broadcast-svc/main.go:43-81 | a configuration spelled out in full is accepted exactly when it is valid, and then unchanged |
| `Config.UnsetSampleIntervalIsFive` | src/broadcast-svc/main.go:74-81 | leaving SAMPLE_INTERVAL unset is equivalent to setting it to 5 |
| `Broadcast.NoiseFloor` | src/broadcast-svc/main.go:141-146 | the result is 0 or at least 1; it equals the input exactly when the input is at least 1 or 0; any change is to 0 |
| `Broadcast.NoiseFloorIdempotent` | src/broadcast-svc/main.go:141-146 | flooring twice is flooring once |
| `Broadcast.NoiseFloorMonotone` | src/broadcast-svc/main.go:141-146 | more traffic never reports less |
| `Broadcast.Report` | src/broadcast-svc/main.go:133-156 | cpu, memory and connections are the rounded window means, never floored; tx/rx are the rounded means when at least 1 and 0 otherwise; hostname and custom tag are passed through |
| `Broadcast.ReportReflectsLatestSamples` | src/broadcast-svc/main.go:133-146 | after any run of ticks, each announced figure depends only on its metric's latest `cap` samples |
| `Broadcast.ReportBeforeFirstTick` | src/broadcast-svc/main.go:228-231 | before any sample is recorded every announced figure is 0 |
| `Broadcast.DrawBound` | src/broadcast-svc/main.go:125 | definition of the exclusive upper bound max − min + 1 passed to `rand.Int`; for valid settings it is at least 2, and the largest draw it admits puts the delay exactly at max |
| `Broadcast.NextInterval` | src/broadcast-svc/main.go:125-130 | with a draw below the bound max − min + 1 the delay lies in [min, max] inclusive and exceeds min by exactly the draw; a failed draw gives no delay |
| `Broadcast.IntervalCoversRangeOnce` | src/broadcast-svc/main.go:125-130 | every delay in [min, max] comes from exactly one draw below the `rand.Int` bound, so a uniform draw gives a uniform delay over the whole range |
| `Broadcast.BroadcastCycle` | src/broadcast-svc/main.go:124-156 | a failed draw retries the cycle; otherwise the cycle sleeps min + draw seconds, within [min, max], and announces exactly the report of the histories at wake-up, with tx/rx either 0 or at least 1 |
| `Broadcast.CycleAnnouncesLatestWindow` | src/broadcast-svc/main.go:102-146 | under validated settings, after any run of ticks, a cycle announces for each metric the rounded mean of its latest `maxSamples` samples, with only tx/rx floored |

## Left out

- Broadcast.Report: rounding to two decimals (`round`, src/broadcast-svc/main.go:239-242) is a parameter and is not interpreted, because it is floating-point `math.Pow`/`math.Round` arithmetic.
- Floating point: all metric arithmetic is over `real`, with no float64 rounding. The model converts counter deltas to numbers exactly, while Go's `float64(deltaTx)` (main.go:189-190) can round deltas above 2^53, including the wrapped deltas near 2^64.
- The resource probes (`cpu.Percent`, `mem.VirtualMemory`, `getNetIO`, `getActiveConns`) are foreign calls. Their results are inputs (`Reading`). This includes the interface-name exclusion and the summation of per-interface counters in `getNetIO`.
- Goroutines, the mutex, context cancellation, signal handling and the initial `avgSec` sleep are concurrency and process lifecycle. The locked section of a tick is modelled as one atomic `Tick`.
- `crypto/rand` is not modelled. The draw is a parameter in [0, `DrawBound`) as `rand.Int` guarantees for the bound it is passed, or is absent on error.
- JSON encoding, the UDP send and its logged failure are library I/O. The announcement is the `Resources` value itself.
- Reading and parsing the environment (`os.Getenv`, `strconv.Atoi`) is string parsing. Settings arrive as `Unset`, `Malformed` or `Parsed(n)`, and a value out of Atoi's range is `Malformed`.
- The hostname lookup and UDP address resolution and dial are start-up I/O. Their failures are fatal in `main`, and they are not modelled.
- The conversion of a delay to `time.Duration` is not modelled, so a huge interval that would overflow it is not covered.
- `src/listen-udp/main.go` and `main.go` are socket plumbing (read/print loops, a stdin-to-broadcast sender with SO_BROADCAST set, a lookup of a local IP inside a CIDR), so they are not modelled.
- Tick timing is not modelled. Each `Tick` is one pass of `monitor`, with no clock. The model assumes `cpu.Percent` blocks for the full sampling period. A call that returns early, for example on an error, starts the next pass at once and records cpu 0 and near-zero traffic.
