# Speedtest core, modelled in Dafny

The repository is a single Streamlit page (`app.py`). Its working logic is the
JavaScript embedded in the page, which measures the browser's connection
against Cloudflare's speed endpoints. This project models three parts of that
script and proves properties of them:

- **The measurement cycle** (`runSingleTest`). Five sequential latency probes
  are reduced to a ping (their minimum) and a jitter (the mean absolute
  difference between consecutive probes). One download and one upload are each
  turned into Mbps. The cycle is all-or-nothing: the record
  `{time, ping, jitter, dl, ul}` is pushed onto the history only when every
  phase succeeded. The first error ends the cycle with `false`.
  Files: `metrics.dfy` (the arithmetic) and `engine.dfy` (the cycle).
- **The history store** (`testHistory`, `updateAverages`, `clearHistory`, the
  `window.onload` loader and the 3-second save timer), in `history.dfy`. The
  history is an append-only sequence that is never capped in memory. Only the
  stored copy is limited, to the last 100 entries. The averages skip entries
  whose `ping` is not numeric, read `dl`/`ul` with fallbacks to the legacy keys
  `download`/`upload`, count a missing key as 0, and let an unparsable value
  turn that average into NaN. A missing or corrupt stored blob leaves the
  history as it was.
- **The run controller** (`startTest`, `stopTest`, the interval tick and
  `updateProgress`), in `scheduler.dfy`. It is a two-state machine over
  `isRunning`, `startTime`, `testInterval` and `progressInterval`. Each step
  is a function on a `RunState` value, and the `Controller` class is proved to
  update its fields exactly as those functions say. The tick interval is
  registered only after the first cycle has finished, so its ticks come at
  start + T1 + j·F, where T1 is the first cycle's duration. D is
  `DURATION_MS` and F is `FREQUENCY_MS`. The model proves that a continuous
  run whose interval fires on time makes 1 + #{j >= 1 | T1 + j·F < D} attempts
  and then stops. For 0 <= T1 < D this is ceil((D - T1) / F) attempts, and it
  is 1 when T1 >= D. It equals ceil(D / F) when T1 = 0, or when F divides D
  and T1 < F.

Inputs from outside the page are parameters:

- Each awaited request is a `Transfer`: either the error it threw (timeout
  abort or other error), or the milliseconds it took and the bytes it returned.
- Clock readings (`Date.now()`) are integer milliseconds.
- The time label is an opaque string.
- Browser storage is an `Option<Blob>`, where a blob is a parsable list of
  entries or a corrupt string.
- Whether a storage write throws is a boolean.

`wrappers.dfy` holds the `Option` and `Result` datatypes.

Behaviour kept exactly as the code has it, where a reader might expect otherwise:

- The code divides by the measured elapsed time with no clamp
  (app.py:231-232, 238-239). The model therefore requires a positive elapsed
  time for a completed download or upload, instead of clamping it to an epsilon.
- The in-memory history has no retention cap. Only the saved snapshot keeps
  the last 100 entries (app.py:410).
- An empty history is never written (app.py:408), so a save of an empty
  history leaves an older stored copy in place, and the next load brings that
  copy back (`HistoryStore.Save`).
- The sliders allow an interval longer than the duration (60 s against 10 s,
  app.py:23-24). `Configure` accepts such a configuration. Such a run makes a
  single attempt: by `ContinuousRunLength`, no tick runs a cycle, since
  T1 + F >= D already.
- A failed cycle in continuous mode leaves the controller running, and the
  next tick runs again. In-flight results after a stop are not modelled (see
  below).

## Model

| member | source | states |
|---|---|---|
| `Metrics.Min` | app.py:224 | The ping is at most every latency sample and is one of the samples. |
| `Metrics.SumAbsDiff` | app.py:225 | The sum of absolute successive differences (the `reduce`) is never negative. |
| `Metrics.Jitter` | app.py:225 | The jitter (that sum divided by the number of samples minus one) is never negative. |
| `Metrics.SumAbsDiffZero` | app.py:225 | The sum of successive differences is zero exactly when all samples are equal. |
| `Metrics.JitterZeroIffConstant` | app.py:225 | Jitter is zero if and only if every sample has the same value. |
| `Metrics.JitterAtMostSpread` | app.py:225 | If every sample lies in [lo, hi], the jitter is at most hi - lo. |
| `Metrics.Mbps` | app.py:231-239 | A rate is non-negative, positive exactly when bytes are positive, and times the seconds gives back the megabits transferred. |
| `History.GetVal` | app.py:275-280 | Reads the first of the listed keys that is present (parsed, so unparsable gives NaN), or 0 when none is present. |
| `History.ToEntry` | app.py:248 | The pushed object carries the cycle's time label and exactly the keys `ping`, `jitter`, `dl` and `ul`, and its ping is numeric. |
| `History.Parse` | app.py:277 | `parseFloat` of a stored field is NaN exactly for an unparsable value, and a number parses to itself. |
| `History.ValidPing` | app.py:282 | The filter keeps an entry exactly when it has a `ping` field that parses to a number; a missing `ping` parses to NaN. |
| `History.ValidEntries` | app.py:282 | Keeps exactly the entries whose `ping` parses to a number, each as many times as it occurs in the history, and never more entries than given. |
| `History.ValidEntriesAppend` | app.py:282 | Filtering commutes with a push: the pushed entry comes last among the kept ones if its ping is numeric, and is dropped otherwise; the earlier kept entries stay in order. |
| `History.Column` | app.py:287-290 | The `.map(t => getVal(t, keys))` has one value per kept entry, in order, each read by `getVal`. |
| `History.Add` | app.py:285 | `+` gives NaN if either side is NaN, and the exact sum otherwise. |
| `History.Sum` | app.py:285 | The `reduce` sum is NaN exactly when some term is NaN. |
| `History.SumConcat` | app.py:285 | The sum of a concatenation is the sum of the first part plus the sum of the second, so the sum adds every term once. |
| `History.Mean` | app.py:285 | The average is NaN exactly when some term is NaN; otherwise the average times the number of terms is the sum. |
| `History.Averages` | app.py:271-290 | Gives no data exactly when no entry has a numeric ping, including the empty history. |
| `History.ToEntryReadBack` | app.py:248 | A pushed record passes the ping filter, and each metric reads back as the value written, through its primary key. |
| `History.MeanWithin` | app.py:285 | The mean of numbers in [lo, hi] is a number in [lo, hi]. |
| `History.AverageWithin` | app.py:282-290 | If every entry with a numeric ping yields a number in [lo, hi] for a metric, that metric's average is a number in [lo, hi]. |
| `History.PingAverageIsNumber` | app.py:282-287 | The ping average, when there is one, is never NaN. |
| `History.UnparsableFieldPoisons` | app.py:277-290 | An entry with a numeric ping and an unparsable metric value makes that metric's average NaN. |
| `History.AverageIsColumnMean` | app.py:282-290 | When there is data, each shown average is `avg` of that metric's column over the entries with a numeric ping. |
| `History.ColumnPush` | app.py:282-290 | The column of a list with one more entry is the old column with that entry's value, as `getVal` reads it, at the end. |
| `History.MeanPush` | app.py:285 | Adding a number x to a finite mean a of n terms gives the mean a' with (n + 1)·a' = n·a + x. |
| `History.AveragesPush` | app.py:282-290 | After a push of an entry with a numeric ping there is an average, and each average is the mean of the old kept column with the new entry's value added. |
| `History.RunningAverage` | app.py:248-290 | Pushing an entry with a numeric ping updates each numeric average as a running mean over the k kept entries: (k + 1)·a' = k·a + v, where v is the new entry's value. |
| `History.InvalidEntryIgnored` | app.py:282 | Appending an entry without a numeric ping leaves every average unchanged. |
| `History.RecordAverages` | app.py:248-290 | A non-empty history made of cycle records has a numeric average for every metric, lying between the smallest and largest recorded value. |
| `History.Snapshot` | app.py:410 | The last-100 snapshot, which the save timer writes for a non-empty history, has min(n, 100) entries and is the history's suffix of that length, in order. |
| `History.SnapshotAfterPush` | app.py:410 | One push slides the saved window: the new entry is appended, and the oldest one drops out once the window holds 100. |
| `History.SnapshotIdempotent` | app.py:410 | Taking the snapshot of a snapshot changes nothing. |
| `History.SaveLoadRoundTrip` | app.py:383-410 | Loading the last-100 snapshot of a history gives that history back exactly when it has at most 100 entries; otherwise it gives its last 100. |
| `History.Loaded` | app.py:382-387 | A parsable stored list becomes the history; a missing or corrupt blob leaves the history as it was. |
| `History.HistoryStore.constructor` | app.py:111 | A new page starts with an empty history, and storage holds whatever an earlier session left. |
| `History.HistoryStore.Load` | app.py:382-387 | A parsable blob replaces the history; otherwise the history is unchanged. Storage is untouched. |
| `History.HistoryStore.Save` | app.py:407-416 | Writes the last-100 snapshot only when the history is non-empty and storage accepts the write. The history is unchanged. |
| `History.HistoryStore.Clear` | app.py:317-319 | Empties the history and removes the stored copy. |
| `History.HistoryStore.Push` | app.py:248 | Appends exactly one entry at the end, and storage is untouched. |
| `Engine.Latency` | app.py:218-223 | Succeeds exactly when every probe completed, and then gives one sample per probe, equal to its elapsed time, in order. |
| `Engine.FirstFailureWins` | app.py:219-223 | The error of the latency phase is the error of the first probe that threw. |
| `Engine.SampleLatency` | app.py:218-223 | The probe loop's result equals the `Latency` specification. |
| `Engine.Measure` | app.py:216-248 | Succeeds exactly when every probe, the download and the upload succeed. The error is the first failing phase's. The ping is the minimum sample. The jitter is the `Jitter` of the five samples, so non-negative. Download Mbps is positive exactly for a non-empty body. Upload Mbps is always positive and computed from 5,000,000 bytes. |
| `Engine.JitterZeroIffSteady` | app.py:218-225 | A successful cycle's jitter is zero exactly when all five probes took the same time. |
| `Engine.Appended` | app.py:248-268 | After one cycle the history gains one entry exactly when every phase succeeded. Earlier entries are unchanged, and the new one is exactly the cycle's record, with a numeric ping and the cycle's time label. |
| `Engine.RunSingleTest` | app.py:213-269 | Returns true exactly when the cycle succeeds. The history becomes `Appended` of the old one, and storage is untouched. |
| `Scheduler.Configure` | app.py:19-24 | Maps the sidebar to the script constants: continuous mode uses the slider seconds times 1000, single mode 30,000 and 5,000 ms, and every result is within the slider bounds. |
| `Scheduler.StepsKeepInv` | app.py:339-376 | Start, tick and stop keep the invariant: running only in continuous mode, with a start time and both timers; no timer when not running. |
| `Scheduler.Stopped` | app.py:373-376 | Stop leaves the controller not running with both timers cleared, and keeps the start time. |
| `Scheduler.StartStep` | app.py:339-371 | Starting while a run is in progress changes nothing and runs no cycle. A start from idle runs one cycle and records the start time; single mode ends idle with no timers, continuous mode ends running with the tick every `FREQUENCY_MS` and the progress timer every 500 ms. |
| `Scheduler.TickStep` | app.py:354-365 | A tick when stopped does nothing. A tick while running runs a cycle exactly when less than the duration has elapsed, leaving the state as it was; otherwise it stops. |
| `Scheduler.IdleTicks` | app.py:355 | Once stopped, any sequence of ticks changes nothing and runs no cycle. |
| `Scheduler.RunFrom` | app.py:354-365 | From the k-th on-time tick of an interval registered T1 after the start, the run stops after n more cycles: tick k-1+n is the last before the deadline (T1 + (k-1+n)·F < D, or there is no such tick) and tick k+n is past it. |
| `Scheduler.ContinuousRunLength` | app.py:339-365 | A continuous run whose first cycle took T1 runs a cycle at tick j (j >= 1) exactly when T1 + j·F < D, so it makes 1 + #{j >= 1 | T1 + j·F < D} attempts, and ends idle. |
| `Scheduler.AttemptCount` | app.py:339-365 | A continuous run makes 1 attempt when the first cycle outlasts the duration, and otherwise ceil((D - T1) / F) attempts. |
| `Scheduler.TwentySecondsEveryThree` | app.py:348-365 | With D = 20 s, F = 3 s and a 2.5 s first cycle there are 5 tick cycles, so 6 attempts, not ceil(20 / 3) = 7. |
| `Scheduler.TwentySecondsEveryFive` | app.py:348-365 | With D = 20 s, F = 5 s and a first cycle under 5 s there are exactly 3 tick cycles after the first, so 4 attempts in all. |
| `Scheduler.TwentySecondsSlowFirstCycle` | app.py:348-365 | With the same settings and a first cycle of 5 to 10 s there are only 2 tick cycles, so 3 attempts in all. |
| `Scheduler.SingleRunIsOneCycle` | app.py:368-370 | A single-mode start runs exactly one cycle, and no later tick does anything. |
| `Scheduler.CeilSeconds` | app.py:335 | Gives the smallest whole number of seconds covering the given milliseconds. |
| `Scheduler.Progress` | app.py:329-336 | No progress without a (non-zero) start time. Otherwise: percent is at most 100, equals 100 exactly when the duration is used up, and before that is exactly elapsed / D · 100; it is non-negative for a non-negative elapsed time. Remaining seconds are non-negative, zero exactly when the duration is used up, and otherwise the ceiling of the milliseconds left. |
| `Scheduler.Controller.constructor` | app.py:107-110 | The globals start not running, with no start time and no timers. |
| `Scheduler.Controller.Stop` | app.py:373-380 | The new state is `Stopped` of the old one, and the invariant holds. |
| `Scheduler.Controller.Start` | app.py:339-371 | The new state is `StartStep` of the old one. The history gains the cycle's result only when that step runs a cycle. The invariant holds afterwards. |
| `Scheduler.Controller.Tick` | app.py:354-365 | The new state is `TickStep` of the old one. The history gains the cycle's result only when that step runs a cycle. The invariant holds afterwards. |

## Left out

- Page layout, sidebar widgets and captions, CSS, status texts, the Chart.js
  chart and its legend, the "chart only after two tests" rule, and the history
  list rendering. These are presentation only.
- `fetchWithTimeout`, `AbortController` and the Cloudflare requests. These are
  network I/O; each request is an input `Transfer`. The 10 s and 60 s timeouts
  appear only as the `TimedOut` failure. The download body read (`blob()`)
  happens after the timeout is cleared, so no bound on elapsed times is
  modelled.
- `localStorage` and `JSON.parse`/`JSON.stringify`. These are browser APIs;
  storage is an abstract blob. A blob that parses to a JSON value other than a
  list, such as `null`, is not modelled. The code would assign it to the
  history before the `catch`.
- Asynchronous overlap. Every timer callback is one atomic step. This leaves
  out three things: a tick firing while an earlier cycle is still awaited; a
  `stopTest` during the first cycle of a continuous `startTest` (the code then
  still schedules both timers); and a cycle that finishes after `stopTest` and
  still pushes its record.
- `performance.now`, `Date.now` and `toLocaleTimeString`. These are clocks;
  readings and the time label are parameters.
- `Engine.Measure`: the code pushes `toFixed(1)` strings and averages them
  after `parseFloat`. The model keeps the exact reals, so the modelled averages
  are over unrounded values. The display strings themselves are not modelled.
- `Engine.RunSingleTest`: rendering after the push (history list, averages,
  chart) is assumed not to throw. If it threw, for example when the chart
  library failed to load, the code would return `false` with the record
  already appended.
- A `null` entry in a stored list is not modelled: the code throws when it
  reads that entry's fields (app.py:308). Other non-object entries (numbers,
  strings, booleans, arrays) read `undefined` for every key and act like an
  `Entry` with no fields, which the filter drops.
- Scheduler.ContinuousRunLength: the interval is taken to fire exactly every
  F ms after it is registered. Browser timer clamping and throttling in
  background tabs are not modelled, so the attempt count holds for on-time
  ticks only.
- JavaScript's double-precision arithmetic, Infinity and overflow. All metric
  values are exact reals; NaN is modelled only where parsing produces it.
