/**
 * The run controller: `startTest`, `stopTest`, the interval tick and
 * `updateProgress`, over the page globals `isRunning`, `startTime`,
 * `testInterval` and `progressInterval`.
 *
 * Clock readings are parameters and every timer callback is one atomic step.
 * Each step is first given as a function on a `RunState` value; the
 * `Controller` class updates its fields as the code does and is proved to
 * follow those functions.
 */
module Scheduler {
  import opened Wrappers
  import opened History
  import opened Engine

  datatype Mode = Single | Continuous

  /** The constants injected into the script: `CONTINUOUS`, `DURATION_MS`, `FREQUENCY_MS`. */
  datatype Config = Config(continuous: bool, durationMs: int, frequencyMs: int)

  /** Duration and frequency used when the sidebar is in single-test mode. */
  const DefaultDurationSec: int := 30
  const DefaultFrequencySec: int := 5

  /** The progress display refreshes every 500 ms. */
  const ProgressPeriodMs: int := 500

  /** What the two sidebar sliders can produce: 10..300 s in steps of 10, and 2..60 s. */
  predicate SliderValues(durationSec: int, frequencySec: int)
  {
    10 <= durationSec <= 300 && durationSec % 10 == 0 && 2 <= frequencySec <= 60
  }

  /** A configuration the page can actually be running with. */
  predicate ValidConfig(cfg: Config)
  {
    10_000 <= cfg.durationMs <= 300_000 && cfg.durationMs % 10_000 == 0 &&
    2_000 <= cfg.frequencyMs <= 60_000 && cfg.frequencyMs % 1_000 == 0
  }

  /** The sidebar settings turned into the script's constants (seconds to milliseconds). */
  function Configure(mode: Mode, durationSec: int, frequencySec: int): (cfg: Config)
    requires mode == Continuous ==> SliderValues(durationSec, frequencySec)
    ensures ValidConfig(cfg)
    ensures cfg.continuous <==> mode == Continuous
    ensures mode == Continuous ==> cfg.durationMs == durationSec * 1000 && cfg.frequencyMs == frequencySec * 1000
    ensures mode == Single ==> cfg.durationMs == 30_000 && cfg.frequencyMs == 5_000
  {
    if mode == Continuous then Config(true, durationSec * 1000, frequencySec * 1000)
    else Config(false, DefaultDurationSec * 1000, DefaultFrequencySec * 1000)
  }

  /** A scheduled `setInterval` callback and its period. */
  datatype Timer = Every(periodMs: int)

  /** The controller's globals. */
  datatype RunState = RunState(isRunning: bool, startTime: Option<int>,
                               testInterval: Option<Timer>, progressInterval: Option<Timer>)

  /** The globals as the page declares them. */
  const Idle: RunState := RunState(false, None, None, None)

  /** The state after a step, and whether the step ran a measurement cycle. */
  datatype Step = Step(next: RunState, runsTest: bool)

  /** `Date.now() - startTime`, where a null `startTime` counts as 0. */
  function Elapsed(s: RunState, now: int): int
  {
    now - (if s.startTime.Some? then s.startTime.value else 0)
  }

  /** `stopTest`: not running, both intervals cleared; `startTime` is left as it was. */
  function Stopped(s: RunState): (r: RunState)
    ensures !r.isRunning && r.testInterval.None? && r.progressInterval.None?
    ensures r.startTime == s.startTime
  {
    s.(isRunning := false, testInterval := None, progressInterval := None)
  }

  /**
   * `startTest`: nothing while running; otherwise record the start, run one
   * cycle, then either schedule the tick and the progress timer
   * (continuous) or stop (single).
   */
  function StartStep(s: RunState, cfg: Config, now: int): (r: Step)
    ensures s.isRunning ==> r == Step(s, false)
    ensures !s.isRunning ==> r.runsTest && r.next.startTime == Some(now)
    ensures !s.isRunning ==> (r.next.isRunning <==> cfg.continuous)
    ensures !s.isRunning && cfg.continuous ==>
      r.next.testInterval == Some(Every(cfg.frequencyMs)) && r.next.progressInterval == Some(Every(ProgressPeriodMs))
    ensures !s.isRunning && !cfg.continuous ==> r.next.testInterval.None? && r.next.progressInterval.None?
  {
    if s.isRunning then Step(s, false)
    else
      var started := s.(isRunning := true, startTime := Some(now));
      if cfg.continuous then
        Step(started.(testInterval := Some(Every(cfg.frequencyMs)), progressInterval := Some(Every(ProgressPeriodMs))), true)
      else
        Step(Stopped(started), true)
  }

  /** The interval callback: nothing when stopped; stop once the duration is used up; else one more cycle. */
  function TickStep(s: RunState, cfg: Config, now: int): (r: Step)
    ensures !s.isRunning ==> r == Step(s, false)
    ensures s.isRunning ==> (r.runsTest <==> Elapsed(s, now) < cfg.durationMs)
    ensures r.runsTest ==> r.next == s
    ensures s.isRunning && !r.runsTest ==> r.next == Stopped(s)
  {
    if !s.isRunning then Step(s, false)
    else if Elapsed(s, now) >= cfg.durationMs then Step(Stopped(s), false)
    else Step(s, true)
  }

  /**
   * The controller's invariant: running happens only in continuous mode,
   * with a start time and both timers scheduled; when not running no timer
   * is scheduled.
   */
  predicate Inv(s: RunState, cfg: Config)
  {
    (s.isRunning ==>
      cfg.continuous && s.startTime.Some? &&
      s.testInterval == Some(Every(cfg.frequencyMs)) &&
      s.progressInterval == Some(Every(ProgressPeriodMs))) &&
    (!s.isRunning ==> s.testInterval.None? && s.progressInterval.None?)
  }

  /** Start, tick and stop each keep the invariant. */
  lemma StepsKeepInv(s: RunState, cfg: Config, now: int)
    requires Inv(s, cfg)
    ensures Inv(StartStep(s, cfg, now).next, cfg)
    ensures Inv(TickStep(s, cfg, now).next, cfg)
    ensures Inv(Stopped(s), cfg)
  {
  }

  /** Feed the tick a sequence of clock readings; the final state and how many cycles ran. */
  function RunTicks(s: RunState, cfg: Config, times: seq<int>): (RunState, nat)
    decreases |times|
  {
    if times == [] then (s, 0)
    else
      var st := TickStep(s, cfg, times[0]);
      var rest := RunTicks(st.next, cfg, times[1..]);
      (rest.0, rest.1 + if st.runsTest then 1 else 0)
  }

  /**
   * The clock readings of the interval's ticks k..m: the interval is
   * registered at `base` and fires every `freq` ms, at base + k*freq, ...,
   * base + m*freq.
   */
  function Schedule(base: int, freq: int, k: int, m: int): seq<int>
    decreases m - k
  {
    if k > m then [] else [base + k * freq] + Schedule(base, freq, k + 1, m)
  }

  /**
   * The j-th tick of a run whose first cycle took `first` ms comes
   * first + j*F after the start, and runs a cycle exactly when that is still
   * short of the duration.
   */
  predicate BeforeDeadline(cfg: Config, first: int, j: int)
  {
    first + j * cfg.frequencyMs < cfg.durationMs
  }

  /** Once stopped, any number of ticks changes nothing and runs nothing. */
  lemma {:induction false} IdleTicks(s: RunState, cfg: Config, times: seq<int>)
    requires !s.isRunning
    ensures RunTicks(s, cfg, times) == (s, 0)
  {
    if times != [] {
      IdleTicks(s, cfg, times[1..]);
    }
  }

  lemma MulMonotone(a: int, b: int, f: int)
    requires f > 0 && a * f < b * f
    ensures a < b
  {
  }

  lemma MulLe(a: int, b: int, f: int)
    requires f > 0 && a <= b
    ensures a * f <= b * f
  {
  }

  /**
   * From the k-th tick of a run whose interval was registered `first` ms
   * after the start, with tick k-1 (if any) still before the deadline and
   * tick m past it: the run stops after n more cycles, where tick k-1+n is
   * the last one before the deadline (or there is none) and tick k+n is past it.
   */
  lemma {:induction false} RunFrom(cfg: Config, s: RunState, start: int, first: int, k: int, m: int)
    requires cfg.frequencyMs > 0
    requires s.isRunning && s.startTime == Some(start)
    requires 1 <= k <= m
    requires k == 1 || BeforeDeadline(cfg, first, k - 1)
    requires !BeforeDeadline(cfg, first, m)
    ensures !RunTicks(s, cfg, Schedule(start + first, cfg.frequencyMs, k, m)).0.isRunning
    ensures var n := RunTicks(s, cfg, Schedule(start + first, cfg.frequencyMs, k, m)).1;
      (k + n == 1 || BeforeDeadline(cfg, first, k - 1 + n)) && !BeforeDeadline(cfg, first, k + n)
    decreases m - k
  {
    var f := cfg.frequencyMs;
    var ts := Schedule(start + first, f, k, m);
    assert ts[0] == start + first + k * f && ts[1..] == Schedule(start + first, f, k + 1, m);
    assert Elapsed(s, ts[0]) == first + k * f;
    if !BeforeDeadline(cfg, first, k) {
      IdleTicks(Stopped(s), cfg, ts[1..]);
    } else {
      MulMonotone(k, m, f);
      RunFrom(cfg, s, start, first, k + 1, m);
      var n' := RunTicks(s, cfg, ts[1..]).1;
      assert k - 1 + (n' + 1) == k + n';
    }
  }

  /**
   * A continuous run whose first cycle takes `first` ms: `startTest` makes
   * one attempt, the interval is registered only after it, and the ticks
   * that run a cycle are exactly those before the deadline, tick 1 to tick
   * n; so the run makes 1 + #{j >= 1 | first + j*F < D} attempts, then stops.
   */
  lemma ContinuousRunLength(cfg: Config, start: int, first: int, m: int)
    requires cfg.continuous && ValidConfig(cfg)
    requires first >= 0 && m >= 1 && !BeforeDeadline(cfg, first, m)
    ensures StartStep(Idle, cfg, start).runsTest && StartStep(Idle, cfg, start).next.isRunning
    ensures var r := RunTicks(StartStep(Idle, cfg, start).next, cfg, Schedule(start + first, cfg.frequencyMs, 1, m));
      !r.0.isRunning && forall j :: 1 <= j ==> (j <= r.1 <==> BeforeDeadline(cfg, first, j))
  {
    var f := cfg.frequencyMs;
    var s := StartStep(Idle, cfg, start).next;
    RunFrom(cfg, s, start, first, 1, m);
    var n := RunTicks(s, cfg, Schedule(start + first, f, 1, m)).1;
    forall j | 1 <= j
      ensures j <= n <==> BeforeDeadline(cfg, first, j)
    {
      if j <= n {
        MulLe(j, n, f);
      } else {
        MulLe(n + 1, j, f);
      }
    }
  }

  /**
   * The attempt count in closed form: a first cycle that uses up the whole
   * duration leaves a single attempt; otherwise the run makes
   * ceil((D - first) / F) attempts, the A with (A - 1) * F < D - first <= A * F.
   */
  lemma AttemptCount(cfg: Config, start: int, first: int, m: int)
    requires cfg.continuous && ValidConfig(cfg)
    requires first >= 0 && m >= 1 && !BeforeDeadline(cfg, first, m)
    ensures var a := 1 + RunTicks(StartStep(Idle, cfg, start).next, cfg, Schedule(start + first, cfg.frequencyMs, 1, m)).1;
      (first >= cfg.durationMs ==> a == 1) &&
      (first < cfg.durationMs ==> (a - 1) * cfg.frequencyMs < cfg.durationMs - first <= a * cfg.frequencyMs)
  {
    ContinuousRunLength(cfg, start, first, m);
    var n := RunTicks(StartStep(Idle, cfg, start).next, cfg, Schedule(start + first, cfg.frequencyMs, 1, m)).1;
    assert !BeforeDeadline(cfg, first, n + 1);
    if n >= 1 {
      assert BeforeDeadline(cfg, first, 1) && BeforeDeadline(cfg, first, n);
    }
  }

  /** With D = 20 s and F = 3 s, which does not divide D, a 2.5 s first cycle gives 6 attempts, not ceil(20 / 3) = 7. */
  lemma TwentySecondsEveryThree(start: int)
    ensures RunTicks(StartStep(Idle, Config(true, 20_000, 3_000), start).next,
                     Config(true, 20_000, 3_000), Schedule(start + 2_500, 3_000, 1, 6)).1 == 5
  {
    var cfg := Config(true, 20_000, 3_000);
    ContinuousRunLength(cfg, start, 2_500, 6);
    assert BeforeDeadline(cfg, 2_500, 5) && !BeforeDeadline(cfg, 2_500, 6);
  }

  /** With a 20 s duration and a 5 s interval, a first cycle under 5 s leaves room for 3 ticks: 4 attempts. */
  lemma TwentySecondsEveryFive(start: int, first: int)
    requires 0 <= first < 5_000
    ensures RunTicks(StartStep(Idle, Config(true, 20_000, 5_000), start).next,
                     Config(true, 20_000, 5_000), Schedule(start + first, 5_000, 1, 4)).1 == 3
  {
    var cfg := Config(true, 20_000, 5_000);
    ContinuousRunLength(cfg, start, first, 4);
    assert BeforeDeadline(cfg, first, 3) && !BeforeDeadline(cfg, first, 4);
  }

  /** With the same settings, a first cycle of 5 to 10 s leaves room for only 2 ticks: 3 attempts. */
  lemma TwentySecondsSlowFirstCycle(start: int, first: int)
    requires 5_000 <= first < 10_000
    ensures RunTicks(StartStep(Idle, Config(true, 20_000, 5_000), start).next,
                     Config(true, 20_000, 5_000), Schedule(start + first, 5_000, 1, 4)).1 == 2
  {
    var cfg := Config(true, 20_000, 5_000);
    ContinuousRunLength(cfg, start, first, 4);
    assert BeforeDeadline(cfg, first, 2) && !BeforeDeadline(cfg, first, 3);
  }

  /** A single-mode start runs exactly one cycle and leaves the controller idle: later ticks do nothing. */
  lemma SingleRunIsOneCycle(cfg: Config, s: RunState, now: int, times: seq<int>)
    requires !cfg.continuous && !s.isRunning
    ensures StartStep(s, cfg, now).runsTest
    ensures RunTicks(StartStep(s, cfg, now).next, cfg, times) == (StartStep(s, cfg, now).next, 0)
  {
    IdleTicks(StartStep(s, cfg, now).next, cfg, times);
  }

  /** The progress bar width in percent and the whole seconds left. */
  datatype ProgressView = ProgressView(percent: real, remainingSec: int)

  /** `Math.ceil(ms / 1000)` for a whole number of milliseconds. */
  function CeilSeconds(ms: int): (sec: int)
    ensures sec * 1000 >= ms && (sec - 1) * 1000 < ms
  {
    -((-ms) / 1000)
  }

  lemma RatioAtLeastHundred(elapsed: int, duration: int)
    requires duration > 0
    ensures (elapsed as real / duration as real) * 100.0 >= 100.0 <==> elapsed >= duration
  {
  }

  lemma RatioNonNegative(elapsed: int, duration: int)
    requires duration > 0
    ensures elapsed >= 0 ==> (elapsed as real / duration as real) * 100.0 >= 0.0
  {
  }

  /**
   * `updateProgress`: nothing without a start time (a null or zero
   * `startTime`); otherwise the elapsed share of the duration, capped at
   * 100 percent, and the seconds left, rounded up and floored at 0.
   */
  function Progress(startTime: Option<int>, now: int, durationMs: int): (r: Option<ProgressView>)
    requires durationMs > 0
    ensures r.None? <==> startTime.None? || startTime.value == 0
    ensures r.Some? ==> r.value.percent <= 100.0 && r.value.remainingSec >= 0
    ensures r.Some? ==> (r.value.percent == 100.0 <==> now - startTime.value >= durationMs)
    ensures r.Some? ==> (r.value.remainingSec == 0 <==> now - startTime.value >= durationMs)
    ensures r.Some? && now >= startTime.value ==> r.value.percent >= 0.0
    ensures r.Some? && now - startTime.value < durationMs ==>
      r.value.percent * durationMs as real == (now - startTime.value) as real * 100.0
    ensures r.Some? ==> r.value.remainingSec * 1000 >= durationMs - (now - startTime.value)
    ensures r.Some? && r.value.remainingSec > 0 ==>
      (r.value.remainingSec - 1) * 1000 < durationMs - (now - startTime.value)
  {
    if startTime.None? || startTime.value == 0 then None
    else
      var elapsed := now - startTime.value;
      var ratio := (elapsed as real / durationMs as real) * 100.0;
      RatioAtLeastHundred(elapsed, durationMs);
      RatioNonNegative(elapsed, durationMs);
      var left := CeilSeconds(durationMs - elapsed);
      Some(ProgressView(if ratio < 100.0 then ratio else 100.0, if left > 0 then left else 0))
  }

  /** The page's controller globals, with the history the cycles append to. */
  class Controller {
    const cfg: Config
    const store: HistoryStore
    var isRunning: bool
    var startTime: Option<int>
    var testInterval: Option<Timer>
    var progressInterval: Option<Timer>

    function State(): RunState
      reads this
    {
      RunState(isRunning, startTime, testInterval, progressInterval)
    }

    ghost predicate Valid()
      reads this
    {
      Inv(State(), cfg)
    }

    /** The globals as declared: not running, no start time, no timers. */
    constructor (cfg: Config, store: HistoryStore)
      ensures this.cfg == cfg && this.store == store
      ensures State() == Idle && Valid()
    {
      this.cfg := cfg;
      this.store := store;
      isRunning := false;
      startTime := None;
      testInterval := None;
      progressInterval := None;
    }

    /** `stopTest`. */
    method Stop()
      modifies this
      ensures State() == Stopped(old(State()))
      ensures Valid()
    {
      isRunning := false;
      if testInterval.Some? { testInterval := None; }
      if progressInterval.Some? { progressInterval := None; }
    }

    /** `startTest`, with the first cycle's outcomes `c`. */
    method Start(now: int, c: CycleInput)
      requires Valid() && WellFormed(c)
      modifies this, store
      ensures Valid()
      ensures State() == StartStep(old(State()), cfg, now).next
      ensures store.history ==
        if StartStep(old(State()), cfg, now).runsTest then Appended(old(store.history), c) else old(store.history)
      ensures store.stored == old(store.stored)
    {
      if isRunning {
        return;
      }
      isRunning := true;
      startTime := Some(now);
      var ok := RunSingleTest(store, c);
      if cfg.continuous {
        testInterval := Some(Every(cfg.frequencyMs));
        progressInterval := Some(Every(ProgressPeriodMs));
      } else {
        Stop();
      }
    }

    /** The `testInterval` callback at clock reading `now`, with that cycle's outcomes `c`. */
    method Tick(now: int, c: CycleInput)
      requires Valid() && WellFormed(c)
      modifies this, store
      ensures Valid()
      ensures State() == TickStep(old(State()), cfg, now).next
      ensures store.history ==
        if TickStep(old(State()), cfg, now).runsTest then Appended(old(store.history), c) else old(store.history)
      ensures store.stored == old(store.stored)
    {
      if !isRunning {
        return;
      }
      if now - (if startTime.Some? then startTime.value else 0) >= cfg.durationMs {
        Stop();
        return;
      }
      var ok := RunSingleTest(store, c);
    }
  }
}
