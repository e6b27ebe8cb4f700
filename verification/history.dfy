/**
 * The test history: the in-memory array of result objects, the averages shown
 * under each metric, and the copy of the history kept in browser storage.
 *
 * Elements of the array are modelled as they may come back from storage, not
 * only as a cycle creates them: a field may be missing, may use a legacy key
 * (`download`, `upload`), or may hold something `parseFloat` turns into NaN.
 */
module History {
  import opened Wrappers

  /** What `parseFloat` makes of a stored field: a number, or NaN. */
  datatype Value = Num(x: real) | Unparsable

  /** One element of the history array: its time label and its other keys. */
  datatype Entry = Entry(time: string, fields: map<string, Value>)

  /** The result object a successful cycle pushes: `{time, ping, jitter, dl, ul}`. */
  datatype Record = Record(time: string, ping: real, jitter: real, dl: real, ul: real)

  /** A JavaScript number, as far as summing and dividing are concerned. */
  datatype Float = Finite(x: real) | NaN

  /** The four averaged metrics; `Keys` gives the keys each is read from, in order of preference. */
  datatype Metric = PingMs | JitterMs | DownloadMbps | UploadMbps

  /** The four averages the page shows. */
  datatype Summary = Summary(ping: Float, jitter: Float, dl: Float, ul: Float)

  /** Only the last this many records are written to storage. */
  const SnapshotCap: nat := 100

  /** What the storage key holds: a parsable list of entries, or a string `JSON.parse` rejects. */
  datatype Blob = Entries(es: seq<Entry>) | Corrupt

  function Keys(m: Metric): seq<string>
  {
    match m
    case PingMs => ["ping"]
    case JitterMs => ["jitter"]
    case DownloadMbps => ["dl", "download"]
    case UploadMbps => ["ul", "upload"]
  }

  function Field(r: Record, m: Metric): real
  {
    match m
    case PingMs => r.ping
    case JitterMs => r.jitter
    case DownloadMbps => r.dl
    case UploadMbps => r.ul
  }

  function Pick(s: Summary, m: Metric): Float
  {
    match m
    case PingMs => s.ping
    case JitterMs => s.jitter
    case DownloadMbps => s.dl
    case UploadMbps => s.ul
  }

  /** The object literal a successful cycle pushes onto the history. */
  function ToEntry(r: Record): (e: Entry)
    ensures e.time == r.time && ValidPing(e)
    ensures e.fields.Keys == {"ping", "jitter", "dl", "ul"}
  {
    Entry(r.time, map["ping" := Num(r.ping), "jitter" := Num(r.jitter), "dl" := Num(r.dl), "ul" := Num(r.ul)])
  }

  /** `parseFloat`: NaN exactly for an unparsable value, and a number parses to itself. */
  function Parse(v: Value): (r: Float)
    ensures r.NaN? <==> v.Unparsable?
    ensures v.Num? ==> r == Finite(v.x)
  {
    match v
    case Num(x) => Finite(x)
    case Unparsable => NaN
  }

  /**
   * `getVal(t, keys)`: the parsed value of the first key present in the
   * entry, or 0 when none of the keys is present.
   */
  function GetVal(e: Entry, keys: seq<string>): (r: Float)
    ensures (forall i :: 0 <= i < |keys| ==> keys[i] !in e.fields) ==> r == Finite(0.0)
    ensures forall i :: 0 <= i < |keys| && keys[i] in e.fields && FirstPresent(e, keys, i) ==>
      r == Parse(e.fields[keys[i]])
  {
    if keys == [] then Finite(0.0)
    else if keys[0] in e.fields then Parse(e.fields[keys[0]])
    else
      var r := GetVal(e, keys[1..]);
      assert forall i :: 1 <= i < |keys| ==> keys[i] == keys[1..][i - 1];
      r
  }

  /** None of the keys before index i is present in the entry. */
  predicate FirstPresent(e: Entry, keys: seq<string>, i: nat)
    requires i <= |keys|
  {
    forall j :: 0 <= j < i ==> keys[j] !in e.fields
  }

  /** An entry survives the filter when its `ping` parses to a number. */
  predicate ValidPing(e: Entry)
    ensures ValidPing(e) <==> "ping" in e.fields && Parse(e.fields["ping"]).Finite?
  {
    "ping" in e.fields && e.fields["ping"].Num?
  }

  /**
   * `testHistory.filter(t => !isNaN(parseFloat(t.ping)))`: every entry with a
   * numeric ping, as often as it occurs in the history, and no other entry.
   */
  function ValidEntries(h: seq<Entry>): (r: seq<Entry>)
    ensures |r| <= |h|
    ensures forall e :: e in r <==> e in h && ValidPing(e)
    ensures forall e :: multiset(r)[e] == if ValidPing(e) then multiset(h)[e] else 0
  {
    if h == [] then []
    else
      var rest := ValidEntries(h[..|h| - 1]);
      assert h == h[..|h| - 1] + [h[|h| - 1]];
      if ValidPing(h[|h| - 1]) then rest + [h[|h| - 1]] else rest
  }

  /** `validTests.map(t => getVal(t, keys))`. */
  function Column(v: seq<Entry>, keys: seq<string>): (c: seq<Float>)
    ensures |c| == |v|
    ensures forall i :: 0 <= i < |v| ==> c[i] == GetVal(v[i], keys)
  {
    seq(|v|, i requires 0 <= i < |v| => GetVal(v[i], keys))
  }

  /** JavaScript `+` on numbers: NaN if either side is NaN, the exact sum otherwise. */
  function Add(a: Float, b: Float): (r: Float)
    ensures r.NaN? <==> a.NaN? || b.NaN?
    ensures r.Finite? ==> r.x == a.x + b.x
  {
    if a.NaN? || b.NaN? then NaN else Finite(a.x + b.x)
  }

  /** `arr.reduce((a, b) => a + b, 0)`, left to right: NaN exactly when some term is NaN. */
  function Sum(s: seq<Float>): (r: Float)
    ensures r.NaN? <==> exists i :: 0 <= i < |s| && s[i].NaN?
  {
    if s == [] then Finite(0.0)
    else
      var init := Sum(s[..|s| - 1]);
      assert forall i :: 0 <= i < |s| - 1 ==> s[..|s| - 1][i] == s[i];
      Add(init, s[|s| - 1])
  }

  /** `avg(arr)`: the sum divided by the length, so that length times mean gives the sum back. */
  function Mean(s: seq<Float>): (r: Float)
    requires |s| > 0
    ensures r.NaN? <==> exists i :: 0 <= i < |s| && s[i].NaN?
    ensures r.Finite? ==> r.x * |s| as real == Sum(s).x
  {
    match Sum(s)
    case NaN => NaN
    case Finite(t) => Finite(t / |s| as real)
  }

  /**
   * `updateAverages`: no data for an empty history or one without a numeric
   * ping; otherwise the mean of each metric over the entries with a numeric ping.
   */
  function Averages(h: seq<Entry>): (r: Option<Summary>)
    ensures r.None? <==> forall i :: 0 <= i < |h| ==> !ValidPing(h[i])
  {
    if |h| == 0 then None
    else
      var v := ValidEntries(h);
      if |v| == 0 then
        assert forall i :: 0 <= i < |h| ==> h[i] in h;
        None
      else
        assert v[0] in h;
        Some(Summary(Mean(Column(v, Keys(PingMs))), Mean(Column(v, Keys(JitterMs))),
                     Mean(Column(v, Keys(DownloadMbps))), Mean(Column(v, Keys(UploadMbps)))))
  }

  /** `testHistory.slice(-100)`: the last (at most) 100 entries, in order. */
  function Snapshot(h: seq<Entry>): (r: seq<Entry>)
    ensures |r| == if |h| < SnapshotCap then |h| else SnapshotCap
    ensures forall i :: 0 <= i < |r| ==> r[i] == h[|h| - |r| + i]
  {
    if |h| <= SnapshotCap then h else h[|h| - SnapshotCap..]
  }

  /** `window.onload`: a parsable list replaces the history; a missing or corrupt blob leaves it. */
  function Loaded(current: seq<Entry>, saved: Option<Blob>): (r: seq<Entry>)
    ensures saved.None? || saved.value.Corrupt? ==> r == current
    ensures saved.Some? && saved.value.Entries? ==> r == saved.value.es
  {
    if saved.Some? && saved.value.Entries? then saved.value.es else current
  }

  // ----- Lemmas about the averages -----

  /** A field written by a cycle reads back, through its own key, as the number written. */
  lemma ToEntryReadBack(r: Record, m: Metric)
    ensures ValidPing(ToEntry(r))
    ensures GetVal(ToEntry(r), Keys(m)) == Finite(Field(r, m))
  {
  }

  /** n copies of x added up: n * x, kept linear for the solver. */
  function Times(n: nat, x: real): real
  {
    if n == 0 then 0.0 else Times(n - 1, x) + x
  }

  lemma {:induction false} TimesIsProduct(n: nat, x: real)
    ensures Times(n, x) == n as real * x
  {
    if n > 0 { TimesIsProduct(n - 1, x); }
  }

  lemma {:induction false} SumWithin(s: seq<Float>, lo: real, hi: real)
    requires forall i :: 0 <= i < |s| ==> s[i].Finite? && lo <= s[i].x <= hi
    ensures Sum(s).Finite?
    ensures Times(|s|, lo) <= Sum(s).x <= Times(|s|, hi)
  {
    if s != [] {
      SumWithin(s[..|s| - 1], lo, hi);
    }
  }

  lemma DivWithin(t: real, n: nat, lo: real, hi: real)
    requires n > 0 && Times(n, lo) <= t <= Times(n, hi)
    ensures lo <= t / n as real <= hi
  {
    TimesIsProduct(n, lo);
    TimesIsProduct(n, hi);
    assert t / n as real * n as real == t;
  }

  /** The mean of numbers in [lo, hi] is a number in [lo, hi]. */
  lemma MeanWithin(s: seq<Float>, lo: real, hi: real)
    requires |s| > 0
    requires forall i :: 0 <= i < |s| ==> s[i].Finite? && lo <= s[i].x <= hi
    ensures Mean(s).Finite? && lo <= Mean(s).x <= hi
  {
    SumWithin(s, lo, hi);
    DivWithin(Sum(s).x, |s|, lo, hi);
  }

  /**
   * Filtering commutes with pushing: the entry pushed last comes last among
   * the kept entries when its ping is numeric, and is dropped otherwise.
   */
  lemma ValidEntriesAppend(h: seq<Entry>, e: Entry)
    ensures ValidEntries(h + [e]) == ValidEntries(h) + (if ValidPing(e) then [e] else [])
  {
  }

  lemma ValidEntriesIndex(h: seq<Entry>, i: nat) returns (j: nat)
    requires i < |h| && ValidPing(h[i])
    ensures j < |ValidEntries(h)| && ValidEntries(h)[j] == h[i]
  {
    assert h[i] in ValidEntries(h);
    j :| 0 <= j < |ValidEntries(h)| && ValidEntries(h)[j] == h[i];
  }

  /**
   * If every entry with a numeric ping yields, for metric m, a number in
   * [lo, hi], then the average of m is a number in [lo, hi].
   */
  lemma AverageWithin(h: seq<Entry>, m: Metric, lo: real, hi: real)
    requires forall i :: 0 <= i < |h| && ValidPing(h[i]) ==>
      GetVal(h[i], Keys(m)).Finite? && lo <= GetVal(h[i], Keys(m)).x <= hi
    ensures Averages(h).Some? ==> Pick(Averages(h).value, m).Finite?
    ensures Averages(h).Some? ==> lo <= Pick(Averages(h).value, m).x <= hi
  {
    if Averages(h).Some? {
      var v := ValidEntries(h);
      var c := Column(v, Keys(m));
      forall k | 0 <= k < |c| ensures c[k].Finite? && lo <= c[k].x <= hi {
        assert v[k] in h;
        var i :| 0 <= i < |h| && h[i] == v[k];
      }
      MeanWithin(c, lo, hi);
    }
  }

  /** The ping average is always a number: the filter keeps only numeric pings. */
  lemma PingAverageIsNumber(h: seq<Entry>)
    ensures Averages(h).Some? ==> Averages(h).value.ping.Finite?
  {
    if Averages(h).Some? {
      var v := ValidEntries(h);
      var c := Column(v, Keys(PingMs));
      AverageIsColumnMean(h, PingMs);
      forall k | 0 <= k < |c| ensures c[k].Finite? {
        assert v[k] in h;
        assert ValidPing(v[k]) && FirstPresent(v[k], ["ping"], 0);
      }
    }
  }

  /** An entry with a numeric ping whose metric m is unparsable makes the m average NaN. */
  lemma UnparsableFieldPoisons(h: seq<Entry>, m: Metric, i: nat)
    requires i < |h| && ValidPing(h[i]) && GetVal(h[i], Keys(m)).NaN?
    ensures Averages(h).Some? && Pick(Averages(h).value, m).NaN?
  {
    var j := ValidEntriesIndex(h, i);
    assert Column(ValidEntries(h), Keys(m))[j].NaN?;
  }

  /** Appending an entry without a numeric ping does not change any average. */
  lemma InvalidEntryIgnored(h: seq<Entry>, e: Entry)
    requires !ValidPing(e)
    ensures Averages(h + [e]) == Averages(h)
  {
  }

  /** The `reduce` sum splits over a concatenation: summing a + b is summing a, then adding the sum of b. */
  lemma {:induction false} SumConcat(a: seq<Float>, b: seq<Float>)
    ensures Sum(a + b) == Add(Sum(a), Sum(b))
  {
    if b == [] {
      assert a + b == a;
    } else {
      var init := b[..|b| - 1];
      assert (a + b)[..|a + b| - 1] == a + init;
      SumConcat(a, init);
    }
  }

  /** Each shown average is the mean of that metric's column over the entries with a numeric ping. */
  lemma AverageIsColumnMean(h: seq<Entry>, m: Metric)
    requires Averages(h).Some?
    ensures |ValidEntries(h)| > 0
    ensures Pick(Averages(h).value, m) == Mean(Column(ValidEntries(h), Keys(m)))
  {
  }

  /** The column of a pushed entry is the old column with that entry's value at the end. */
  lemma ColumnPush(v: seq<Entry>, e: Entry, keys: seq<string>)
    ensures Column(v + [e], keys) == Column(v, keys) + [GetVal(e, keys)]
  {
  }

  /**
   * Adding one number x to a finite mean a of n terms gives a mean a' with
   * (n + 1) * a' == n * a + x, stated with `Times` to keep it linear.
   */
  lemma MeanPush(c: seq<Float>, x: Float)
    requires |c| > 0 && Mean(c).Finite? && x.Finite?
    ensures Mean(c + [x]).Finite?
    ensures Times(|c| + 1, Mean(c + [x]).x) == Times(|c|, Mean(c).x) + x.x
  {
    assert (c + [x])[..|c|] == c;
    TimesIsProduct(|c| + 1, Mean(c + [x]).x);
    TimesIsProduct(|c|, Mean(c).x);
  }

  /** After pushing an entry with a numeric ping, each average is the mean of the old column with the entry's value added. */
  lemma AveragesPush(h: seq<Entry>, e: Entry, m: Metric)
    requires ValidPing(e)
    ensures Averages(h + [e]).Some?
    ensures Pick(Averages(h + [e]).value, m) == Mean(Column(ValidEntries(h), Keys(m)) + [GetVal(e, Keys(m))])
  {
    ValidEntriesAppend(h, e);
    AverageIsColumnMean(h + [e], m);
    ColumnPush(ValidEntries(h), e, Keys(m));
  }

  /**
   * Pushing an entry with a numeric ping updates a numeric average as a
   * running mean: over k kept entries with average a, a new value v gives
   * the average a' with (k + 1) * a' == k * a + v.
   */
  lemma RunningAverage(h: seq<Entry>, e: Entry, m: Metric)
    requires ValidPing(e) && Averages(h).Some?
    requires Pick(Averages(h).value, m).Finite? && GetVal(e, Keys(m)).Finite?
    ensures Averages(h + [e]).Some? && Pick(Averages(h + [e]).value, m).Finite?
    ensures Times(|ValidEntries(h)| + 1, Pick(Averages(h + [e]).value, m).x) ==
      Times(|ValidEntries(h)|, Pick(Averages(h).value, m).x) + GetVal(e, Keys(m)).x
  {
    AveragesPush(h, e, m);
    AverageIsColumnMean(h, m);
    MeanPush(Column(ValidEntries(h), Keys(m)), GetVal(e, Keys(m)));
  }

  /**
   * A non-empty history made only of cycle results has an average for every
   * metric, and it lies between the smallest and the largest value recorded.
   */
  lemma RecordAverages(recs: seq<Record>, m: Metric, lo: real, hi: real)
    requires |recs| > 0
    requires forall i :: 0 <= i < |recs| ==> lo <= Field(recs[i], m) <= hi
    ensures var a := Averages(seq(|recs|, i requires 0 <= i < |recs| => ToEntry(recs[i])));
      a.Some? && Pick(a.value, m).Finite? && lo <= Pick(a.value, m).x <= hi
  {
    var h := seq(|recs|, i requires 0 <= i < |recs| => ToEntry(recs[i]));
    forall i | 0 <= i < |h| ensures ValidPing(h[i]) && GetVal(h[i], Keys(m)) == Finite(Field(recs[i], m)) {
      ToEntryReadBack(recs[i], m);
    }
    assert ValidPing(h[0]);
    AverageWithin(h, m, lo, hi);
  }

  // ----- Lemmas about the stored snapshot -----

  /** Pushing onto the history slides the stored window: the oldest entry drops out once it is full. */
  lemma SnapshotAfterPush(h: seq<Entry>, e: Entry)
    ensures Snapshot(h + [e]) ==
      (if |Snapshot(h)| == SnapshotCap then Snapshot(h)[1..] else Snapshot(h)) + [e]
  {
  }

  /** Taking the snapshot of a snapshot changes nothing. */
  lemma SnapshotIdempotent(h: seq<Entry>)
    ensures Snapshot(Snapshot(h)) == Snapshot(h)
  {
  }

  /**
   * Loading the last-100 snapshot of a history reproduces it exactly when it
   * holds at most 100 entries; a longer history comes back as its last 100.
   * (The save timer writes that snapshot only for a non-empty history.)
   */
  lemma SaveLoadRoundTrip(current: seq<Entry>, h: seq<Entry>)
    ensures Loaded(current, Some(Entries(Snapshot(h)))) == h <==> |h| <= SnapshotCap
    ensures Loaded(current, Some(Entries(Snapshot(h)))) == h[|h| - |Snapshot(h)|..]
  {
  }

  /**
   * The page's history array and the storage key that keeps a copy of it.
   * The in-memory history is never capped; only the stored snapshot is.
   */
  class HistoryStore {
    var history: seq<Entry>
    var stored: Option<Blob>

    /** A fresh page: empty history; whatever an earlier session left in storage. */
    constructor (stored: Option<Blob>)
      ensures history == [] && this.stored == stored
    {
      history := [];
      this.stored := stored;
    }

    /** `window.onload`: adopt a parsable blob, otherwise keep the history. */
    method Load()
      modifies this
      ensures history == Loaded(old(history), stored)
      ensures stored == old(stored)
    {
      if stored.Some? && stored.value.Entries? {
        history := stored.value.es;
      }
    }

    /**
     * The 3-second timer: when the history is non-empty, write its last 100
     * entries; `writable` is false when storage throws (quota, private mode).
     */
    method Save(writable: bool)
      modifies this
      ensures history == old(history)
      ensures stored == if |history| > 0 && writable then Some(Entries(Snapshot(history))) else old(stored)
    {
      if |history| > 0 && writable {
        stored := Some(Entries(Snapshot(history)));
      }
    }

    /** `clearHistory`: empty the history and remove the stored copy. */
    method Clear()
      modifies this
      ensures history == [] && stored == None
    {
      history := [];
      stored := None;
    }

    /** `testHistory.push(e)`. */
    method Push(e: Entry)
      modifies this
      ensures history == old(history) + [e]
      ensures stored == old(stored)
    {
      history := history + [e];
    }
  }
}
