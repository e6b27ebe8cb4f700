/**
 * One measurement cycle (`runSingleTest`): five sequential latency probes, one
 * download, one upload, reduced to a record that is appended to the history
 * only when all three phases succeed.
 *
 * The network is not modelled: each awaited request is an input `Transfer`,
 * either the error it threw or the milliseconds it took and the bytes it
 * returned.
 */
module Engine {
  import opened Wrappers
  import Metrics
  import opened History

  /** Why an awaited request threw: the timeout's abort (`AbortError`) or any other error. */
  datatype Failure = TimedOut | NetworkError

  /** What one awaited request gave: an error, or completion after `elapsedMs` with a body of `size` bytes. */
  datatype Transfer = Failed(why: Failure) | Done(elapsedMs: real, size: nat)

  /** Everything from outside the page that one cycle depends on; `clock` is the time label. */
  datatype CycleInput = CycleInput(probes: seq<Transfer>, download: Transfer, upload: Transfer, clock: string)

  /** The upload body is always a 5,000,000-byte array, whatever the server answers. */
  const UploadBytes: nat := 5_000_000

  predicate AllDone(ts: seq<Transfer>)
  {
    forall i :: 0 <= i < |ts| ==> ts[i].Done?
  }

  /**
   * What the clock can produce: one outcome per latency probe, and a positive
   * elapsed time for a completed download or upload (the divisor of the rate).
   */
  predicate WellFormed(c: CycleInput)
  {
    |c.probes| == Metrics.ProbeCount &&
    (c.download.Done? ==> c.download.elapsedMs > 0.0) &&
    (c.upload.Done? ==> c.upload.elapsedMs > 0.0)
  }

  /** The latency samples the probe loop collects, or the error of the first probe that threw. */
  function Latency(probes: seq<Transfer>): (r: Result<seq<real>, Failure>)
    ensures r.Ok? <==> AllDone(probes)
    ensures r.Ok? ==> |r.value| == |probes|
    ensures r.Ok? ==> forall i :: 0 <= i < |probes| ==> r.value[i] == probes[i].elapsedMs
  {
    if probes == [] then Ok([])
    else
      match probes[0]
      case Failed(why) => Err(why)
      case Done(ms, _) =>
        match Latency(probes[1..])
        case Err(why) =>
          assert !AllDone(probes[1..]);
          Err(why)
        case Ok(rest) =>
          assert forall i :: 1 <= i < |probes| ==> probes[i] == probes[1..][i - 1];
          Ok([ms] + rest)
  }

  /** The first probe that throws ends the phase with its error; later probes never run. */
  lemma {:induction false} FirstFailureWins(probes: seq<Transfer>, i: nat)
    requires i < |probes| && probes[i].Failed? && AllDone(probes[..i])
    ensures Latency(probes) == Err(probes[i].why)
  {
    if i > 0 {
      assert probes[0] == probes[..i][0];
      assert probes[1..][..i - 1] == probes[..i][1..];
      FirstFailureWins(probes[1..], i - 1);
    }
  }

  /** The probe loop: await each probe in turn, pushing its round-trip time. */
  method SampleLatency(probes: seq<Transfer>) returns (r: Result<seq<real>, Failure>)
    requires |probes| == Metrics.ProbeCount
    ensures r == Latency(probes)
  {
    var pings: seq<real> := [];
    for i := 0 to Metrics.ProbeCount
      invariant AllDone(probes[..i])
      invariant |pings| == i
      invariant forall j :: 0 <= j < i ==> pings[j] == probes[j].elapsedMs
    {
      match probes[i]
      case Failed(why) =>
        FirstFailureWins(probes, i);
        return Err(why);
      case Done(ms, _) =>
        assert probes[..i + 1] == probes[..i] + [probes[i]];
        pings := pings + [ms];
    }
    assert probes[..Metrics.ProbeCount] == probes;
    assert pings == Latency(probes).value;
    r := Ok(pings);
  }

  /**
   * The cycle's result: the first phase error, or the record with the
   * minimum sample as ping, the mean successive difference as jitter, and
   * the two rates in Mbps.
   */
  function Measure(c: CycleInput): (r: Result<Record, Failure>)
    requires WellFormed(c)
    ensures r.Ok? <==> AllDone(c.probes) && c.download.Done? && c.upload.Done?
    ensures r.Err? && !AllDone(c.probes) ==> r.error == Latency(c.probes).error
    ensures r.Err? && AllDone(c.probes) && c.download.Failed? ==> r.error == c.download.why
    ensures r.Err? && AllDone(c.probes) && c.download.Done? ==> r.error == c.upload.why
    ensures r.Ok? ==> r.value.time == c.clock
    ensures r.Ok? ==> forall i :: 0 <= i < |c.probes| ==> r.value.ping <= c.probes[i].elapsedMs
    ensures r.Ok? ==> exists i :: 0 <= i < |c.probes| && r.value.ping == c.probes[i].elapsedMs
    ensures r.Ok? ==> r.value.jitter >= 0.0
    ensures r.Ok? ==> Latency(c.probes).Ok? && r.value.jitter == Metrics.Jitter(Latency(c.probes).value)
    ensures r.Ok? ==> r.value.dl >= 0.0 && (r.value.dl > 0.0 <==> c.download.size > 0)
    ensures r.Ok? ==> r.value.dl * (c.download.elapsedMs / 1000.0) == Metrics.Megabits(c.download.size)
    ensures r.Ok? ==> r.value.ul > 0.0
    ensures r.Ok? ==> r.value.ul * (c.upload.elapsedMs / 1000.0) == Metrics.Megabits(UploadBytes)
  {
    match Latency(c.probes)
    case Err(why) => Err(why)
    case Ok(pings) =>
      if c.download.Failed? then Err(c.download.why)
      else if c.upload.Failed? then Err(c.upload.why)
      else
        var ping := Metrics.Min(pings);
        assert ping in pings;
        Ok(Record(c.clock, ping, Metrics.Jitter(pings),
                  Metrics.Mbps(c.download.size, c.download.elapsedMs), Metrics.Mbps(UploadBytes, c.upload.elapsedMs)))
  }

  /** The jitter of a successful cycle is zero exactly when all five probes took the same time. */
  lemma JitterZeroIffSteady(c: CycleInput)
    requires WellFormed(c) && Measure(c).Ok?
    ensures Measure(c).value.jitter == 0.0 <==>
      forall i, j :: 0 <= i < |c.probes| && 0 <= j < |c.probes| ==> c.probes[i].elapsedMs == c.probes[j].elapsedMs
  {
    var pings := Latency(c.probes).value;
    Metrics.JitterZeroIffConstant(pings);
  }

  /**
   * The history after one cycle: one more entry if and only if every phase
   * succeeded, and that entry is the cycle's record.
   */
  function Appended(h: seq<Entry>, c: CycleInput): (r: seq<Entry>)
    requires WellFormed(c)
    ensures |r| == |h| + (if AllDone(c.probes) && c.download.Done? && c.upload.Done? then 1 else 0)
    ensures r[..|h|] == h
    ensures |r| > |h| ==> ValidPing(r[|h|]) && r[|h|].time == c.clock
    ensures |r| > |h| ==> Measure(c).Ok? && r[|h|] == ToEntry(Measure(c).value)
  {
    if Measure(c).Ok? then
      h + [ToEntry(Measure(c).value)]
    else h
  }

  /**
   * `runSingleTest`: run the three phases in order, stop at the first error
   * (the `catch` returns false), and push the record only after all succeed.
   */
  method RunSingleTest(store: HistoryStore, c: CycleInput) returns (ok: bool)
    requires WellFormed(c)
    modifies store
    ensures ok <==> Measure(c).Ok?
    ensures store.history == Appended(old(store.history), c)
    ensures store.stored == old(store.stored)
  {
    var latency := SampleLatency(c.probes);
    if latency.Err? {
      return false;
    }
    var pings := latency.value;
    var ping := Metrics.Min(pings);
    var jitter := Metrics.Jitter(pings);
    if c.download.Failed? {
      return false;
    }
    var dl := Metrics.Mbps(c.download.size, c.download.elapsedMs);
    if c.upload.Failed? {
      return false;
    }
    var ul := Metrics.Mbps(UploadBytes, c.upload.elapsedMs);
    store.Push(ToEntry(Record(c.clock, ping, jitter, dl, ul)));
    ok := true;
  }
}
