/**
 * The records of stats_tracker.py (`DataPoint`, `MapStats`), the validation
 * `add_data_point` applies to one sample, and the decimation that bounds the
 * sample buffer.
 */
module Session {
  import opened Wrappers

  /** Buffer length above which the sample buffer is decimated (stats_tracker.py:10). */
  const MAX_DATA_POINTS: nat := 10000

  /** One telemetry sample; `timestamp` is seconds since the session started. */
  datatype DataPoint = DataPoint(
    timestamp: real,
    combo: int,
    accuracy: real,
    hp: real,
    misses: int,
    unstableRate: real)

  /** The ranges `add_data_point` clamps every sample into. */
  predicate ValidPoint(p: DataPoint) {
    && p.combo >= 0
    && 0.0 <= p.accuracy <= 100.0
    && 0.0 <= p.hp <= 1.0
    && p.misses >= 0
    && p.unstableRate >= 0.0
  }

  predicate AllValid(ps: seq<DataPoint>) {
    forall i :: 0 <= i < |ps| ==> ValidPoint(ps[i])
  }

  /**
   * One completed play. The fields up to `dataPoints` are set when the record
   * is built; the rest are the statistics, which start at zero and are filled
   * in by the statistics step.
   */
  datatype MapStats = MapStats(
    startTime: real,
    endTime: real,
    mapName: string,
    artist: string,
    difficulty: string,
    maxCombo: int,
    finalAccuracy: real,
    totalMisses: int,
    finalHp: real,
    playDuration: real,
    dataPoints: seq<DataPoint>,
    avgAccuracy: real,
    accuracyVariance: real,
    hpDrops: nat,
    comboBreaks: nat,
    peakCombo: int,
    consistencyScore: real)

  /** `max(lo, x)` on integers. */
  function AtLeast(lo: int, x: int): (r: int)
    ensures r >= lo
    ensures x >= lo ==> r == x
    ensures x < lo ==> r == lo
  {
    if x < lo then lo else x
  }

  /** `max(lo, min(hi, x))` on reals. */
  function Clamp(lo: real, hi: real, x: real): (r: real)
    requires lo <= hi
    ensures lo <= r <= hi
    ensures lo <= x <= hi ==> r == x
    ensures x < lo ==> r == lo
    ensures x > hi ==> r == hi
  {
    if x < lo then lo else if x > hi then hi else x
  }

  /**
   * The sample `add_data_point` builds from its arguments: each present value
   * is clamped into its range, and an absent (`None`) value becomes zero, the
   * accuracy included.
   */
  function MakePoint(timestamp: real, combo: Option<int>, accuracy: Option<real>, hp: Option<real>,
                     misses: Option<int>, unstableRate: Option<real>): (p: DataPoint)
    ensures ValidPoint(p)
    ensures p.timestamp == timestamp
    ensures combo.None? ==> p.combo == 0
    ensures combo.Some? ==> p.combo == if combo.value < 0 then 0 else combo.value
    ensures accuracy.None? ==> p.accuracy == 0.0
    ensures accuracy.Some? && 0.0 <= accuracy.value <= 100.0 ==> p.accuracy == accuracy.value
    ensures accuracy.Some? && accuracy.value < 0.0 ==> p.accuracy == 0.0
    ensures accuracy.Some? && accuracy.value > 100.0 ==> p.accuracy == 100.0
    ensures hp.None? ==> p.hp == 0.0
    ensures hp.Some? && 0.0 <= hp.value <= 1.0 ==> p.hp == hp.value
    ensures hp.Some? && hp.value < 0.0 ==> p.hp == 0.0
    ensures hp.Some? && hp.value > 1.0 ==> p.hp == 1.0
    ensures misses.None? ==> p.misses == 0
    ensures misses.Some? ==> p.misses == if misses.value < 0 then 0 else misses.value
    ensures unstableRate.None? ==> p.unstableRate == 0.0
    ensures unstableRate.Some? ==> p.unstableRate == if unstableRate.value < 0.0 then 0.0 else unstableRate.value
  {
    DataPoint(
      timestamp,
      if combo.Some? then AtLeast(0, combo.value) else 0,
      if accuracy.Some? then Clamp(0.0, 100.0, accuracy.value) else 0.0,
      if hp.Some? then Clamp(0.0, 1.0, hp.value) else 0.0,
      if misses.Some? then AtLeast(0, misses.value) else 0,
      if unstableRate.Some? then (if unstableRate.value < 0.0 then 0.0 else unstableRate.value) else 0.0)
  }

  /** Python's slice `s[::step]`: the elements at indices 0, step, 2 * step, ... */
  function EveryNth<T>(s: seq<T>, step: nat): seq<T>
    requires step >= 1
    decreases |s|
  {
    if s == [] then [] else [s[0]] + EveryNth(s[if step <= |s| then step else |s|..], step)
  }

  /** `s[::step]` has the ceiling of |s| / step elements: none for an empty buffer. */
  lemma {:induction false} EveryNthLength<T>(s: seq<T>, step: nat)
    requires step >= 1
    ensures var n := |EveryNth(s, step)|;
      && (n == 0 <==> |s| == 0)
      && (n > 0 ==> (n - 1) * step < |s| <= n * step)
    decreases |s|
  {
    if s != [] && step < |s| {
      var t := s[step..];
      EveryNthLength(t, step);
      var m := |EveryNth(t, step)|;
      assert |EveryNth(s, step)| == m + 1;
      MulSucc(m, step);
      MulSucc(m - 1, step);
    }
  }

  lemma MulSucc(m: int, step: int)
    ensures (m + 1) * step == m * step + step
  {
  }

  /** The i-th element of `s[::step]` is s[i * step]. */
  lemma {:induction false} EveryNthAt<T>(s: seq<T>, step: nat, i: nat)
    requires step >= 1
    requires i < |EveryNth(s, step)|
    ensures i * step < |s| && EveryNth(s, step)[i] == s[i * step]
    decreases |s|
  {
    if i > 0 {
      var t := s[if step <= |s| then step else |s|..];
      assert EveryNth(s, step)[i] == EveryNth(t, step)[i - 1];
      EveryNthAt(t, step, i - 1);
      MulSucc(i - 1, step);
    }
  }

  /** The step `add_data_point` decimates by: len // (MAX_DATA_POINTS // 2). */
  function DecimationStep(len: nat): nat {
    len / (MAX_DATA_POINTS / 2)
  }

  /** The buffer `add_data_point` appends to: decimated when it is longer than MAX_DATA_POINTS. */
  function Decimated(s: seq<DataPoint>): seq<DataPoint> {
    if |s| > MAX_DATA_POINTS then EveryNth(s, DecimationStep(|s|)) else s
  }

  /**
   * Decimation keeps an order-preserving subsequence: a buffer at most
   * MAX_DATA_POINTS long is untouched; a longer one is replaced by the samples
   * at indices 0, step, 2 * step, ... for a step of at least 2, so the first
   * sample survives and every kept sample is one of the originals.
   */
  lemma DecimatedSubsequence(s: seq<DataPoint>)
    ensures |s| <= MAX_DATA_POINTS ==> Decimated(s) == s
    ensures |s| > MAX_DATA_POINTS ==>
      var step := DecimationStep(|s|);
      var r := Decimated(s);
      && step >= 2
      && 0 < |r| < |s|
      && r[0] == s[0]
      && forall i :: 0 <= i < |r| ==> i * step < |s| && r[i] == s[i * step]
  {
    if |s| > MAX_DATA_POINTS {
      var step := DecimationStep(|s|);
      EveryNthLength(s, step);
      var r := Decimated(s);
      MulMonotone(|r| - 1, 2, step);
      forall i | 0 <= i < |r|
        ensures i * step < |s| && r[i] == s[i * step]
      {
        EveryNthAt(s, step, i);
      }
      EveryNthAt(s, step, 0);
    }
  }

  lemma MulMonotone(k: nat, a: nat, b: nat)
    requires a <= b
    ensures k * a <= k * b
  {
  }

  /** Decimation keeps every sample within its clamped range. */
  lemma DecimatedValid(s: seq<DataPoint>)
    requires AllValid(s)
    ensures AllValid(Decimated(s))
  {
    if |s| > MAX_DATA_POINTS {
      DecimatedSubsequence(s);
    }
  }

  /**
   * With the buffer never longer than MAX_DATA_POINTS + 1, decimation fires
   * only at length MAX_DATA_POINTS + 1, with step 2, keeping 5001 samples: the
   * first and the last of the buffer among them. Otherwise the buffer is kept.
   * Either way at most MAX_DATA_POINTS remain before the next append.
   */
  lemma DecimationAtThreshold(s: seq<DataPoint>)
    requires |s| <= MAX_DATA_POINTS + 1
    ensures |Decimated(s)| <= MAX_DATA_POINTS
    ensures |s| == MAX_DATA_POINTS + 1 ==>
      var r := Decimated(s);
      && DecimationStep(|s|) == 2
      && |r| == 5001
      && r[0] == s[0]
      && r[5000] == s[|s| - 1]
  {
    if |s| == MAX_DATA_POINTS + 1 {
      assert DecimationStep(|s|) == 2;
      EveryNthLength(s, 2);
      var r := Decimated(s);
      assert |r| == 5001;
      EveryNthAt(s, 2, 0);
      EveryNthAt(s, 2, 5000);
    }
  }
}
