/**
 * The arithmetic reductions of one measurement cycle: the ping is the minimum
 * of the latency samples, the jitter is the mean absolute difference between
 * consecutive samples, and a throughput is megabits over seconds.
 */
module Metrics {

  /** Number of latency probes issued per cycle. */
  const ProbeCount: nat := 5

  /** `Math.min(...pings)`: the smallest sample. */
  function Min(s: seq<real>): (r: real)
    requires |s| > 0
    ensures forall i :: 0 <= i < |s| ==> r <= s[i]
    ensures r in s
  {
    if |s| == 1 then s[0]
    else
      var m := Min(s[1..]);
      if s[0] <= m then s[0] else m
  }

  function Abs(x: real): real { if x < 0.0 then -x else x }

  /** Sum of |s[i] - s[i-1]| for 1 <= i < |s|, accumulated left to right as `reduce` does. */
  function SumAbsDiff(s: seq<real>): (r: real)
    ensures r >= 0.0
  {
    if |s| < 2 then 0.0
    else SumAbsDiff(s[..|s| - 1]) + Abs(s[|s| - 1] - s[|s| - 2])
  }

  /** Mean absolute successive difference of the samples. */
  function Jitter(s: seq<real>): (r: real)
    requires |s| >= 2
    ensures r >= 0.0
  {
    SumAbsDiff(s) / (|s| - 1) as real
  }

  /** All samples are the same value. */
  ghost predicate Constant(s: seq<real>)
  {
    forall i, j :: 0 <= i < |s| && 0 <= j < |s| ==> s[i] == s[j]
  }

  /** Every sample lies in [lo, hi]. */
  ghost predicate Within(s: seq<real>, lo: real, hi: real)
  {
    forall i :: 0 <= i < |s| ==> lo <= s[i] <= hi
  }

  /** The sum of the successive differences vanishes exactly on constant sequences. */
  lemma {:induction false} SumAbsDiffZero(s: seq<real>)
    ensures SumAbsDiff(s) == 0.0 <==> Constant(s)
  {
    if |s| >= 2 {
      var p := s[..|s| - 1];
      SumAbsDiffZero(p);
      if SumAbsDiff(s) == 0.0 {
        assert SumAbsDiff(p) == 0.0 && s[|s| - 1] == s[|s| - 2];
        forall i, j | 0 <= i < |s| && 0 <= j < |s| ensures s[i] == s[j] {
          if i < |s| - 1 { assert s[i] == p[i] == p[|p| - 1]; }
          if j < |s| - 1 { assert s[j] == p[j] == p[|p| - 1]; }
        }
      }
      if Constant(s) {
        assert Constant(p) by {
          forall i, j | 0 <= i < |p| && 0 <= j < |p| ensures p[i] == p[j] {
            assert p[i] == s[i] && p[j] == s[j];
          }
        }
        assert s[|s| - 1] == s[|s| - 2];
      }
    }
  }

  /** Jitter is zero if and only if every latency sample is the same. */
  lemma JitterZeroIffConstant(s: seq<real>)
    requires |s| >= 2
    ensures Jitter(s) == 0.0 <==> Constant(s)
  {
    SumAbsDiffZero(s);
  }

  /** Each successive difference is at most the spread, so their sum is at most (|s|-1) times it. */
  lemma {:induction false} SumAbsDiffBound(s: seq<real>, lo: real, hi: real)
    requires |s| >= 1 && Within(s, lo, hi)
    ensures SumAbsDiff(s) <= (|s| - 1) as real * (hi - lo)
  {
    if |s| >= 2 {
      var p := s[..|s| - 1];
      assert Within(p, lo, hi) by {
        forall i | 0 <= i < |p| ensures lo <= p[i] <= hi { assert p[i] == s[i]; }
      }
      SumAbsDiffBound(p, lo, hi);
      assert Abs(s[|s| - 1] - s[|s| - 2]) <= hi - lo;
      assert (|s| - 1) as real * (hi - lo) == (|p| - 1) as real * (hi - lo) + (hi - lo);
    }
  }

  /** The jitter never exceeds the spread of the samples. */
  lemma JitterAtMostSpread(s: seq<real>, lo: real, hi: real)
    requires |s| >= 2 && Within(s, lo, hi)
    ensures Jitter(s) <= hi - lo
  {
    SumAbsDiffBound(s, lo, hi);
    var n := (|s| - 1) as real;
    assert SumAbsDiff(s) <= n * (hi - lo);
    DivAtMost(SumAbsDiff(s), n, hi - lo);
  }

  lemma DivAtMost(x: real, n: real, b: real)
    requires n > 0.0 && x <= n * b
    ensures x / n <= b
  {
  }

  /**
   * Megabits per second for `bytes` transferred in `elapsedMs` milliseconds:
   * `(bytes * 8 / 1_000_000) / (elapsedMs / 1000)`.
   */
  function Mbps(bytes: nat, elapsedMs: real): (r: real)
    requires elapsedMs > 0.0
    ensures r >= 0.0
    ensures r > 0.0 <==> bytes > 0
    ensures r * (elapsedMs / 1000.0) == Megabits(bytes)
  {
    Megabits(bytes) / (elapsedMs / 1000.0)
  }

  function Megabits(bytes: nat): real
  {
    bytes as real * 8.0 / 1000000.0
  }
}
