/**
 * The statistics step of stats_tracker.py (`_calculate_advanced_stats`, up to
 * the consistency score): mean and population variance of the accuracies, the
 * consistency score, the combo-break and HP-drop counts and the peak combo.
 */
module Statistics {
  import opened Session

  /** The accuracies of the samples, in order. */
  function Accuracies(ps: seq<DataPoint>): (a: seq<real>)
    ensures |a| == |ps|
    ensures forall i :: 0 <= i < |ps| ==> a[i] == ps[i].accuracy
  {
    seq(|ps|, i requires 0 <= i < |ps| => ps[i].accuracy)
  }

  function Sum(xs: seq<real>): real {
    if xs == [] then 0.0 else Sum(xs[..|xs| - 1]) + xs[|xs| - 1]
  }

  /** Arithmetic mean: `sum(xs) / len(xs)`. */
  function Mean(xs: seq<real>): real
    requires |xs| > 0
  {
    Sum(xs) / |xs| as real
  }

  /** `sum((x - m) ** 2 for x in xs)`. */
  function SquaredDeviations(xs: seq<real>, m: real): real {
    if xs == [] then 0.0
    else SquaredDeviations(xs[..|xs| - 1], m) + (xs[|xs| - 1] - m) * (xs[|xs| - 1] - m)
  }

  /** Population variance: squared deviations from the mean divided by the count. */
  function Variance(xs: seq<real>): real
    requires |xs| > 0
  {
    SquaredDeviations(xs, Mean(xs)) / |xs| as real
  }

  /** `max(0, 100 - variance * 10)`. */
  function Consistency(variance: real): real {
    if 100.0 - variance * 10.0 < 0.0 then 0.0 else 100.0 - variance * 10.0
  }

  /** The combo the loop compares sample i against: 0 before the first sample. */
  function PrevCombo(ps: seq<DataPoint>, i: nat): int
    requires i < |ps|
  {
    if i == 0 then 0 else ps[i - 1].combo
  }

  /** Sample i breaks the combo: its combo fell below a previous combo that exceeded 20. */
  predicate IsComboBreak(ps: seq<DataPoint>, i: nat)
    requires i < |ps|
  {
    ps[i].combo < PrevCombo(ps, i) && PrevCombo(ps, i) > 20
  }

  /** The number of samples that break the combo. */
  function ComboBreaks(ps: seq<DataPoint>): nat {
    if ps == [] then 0
    else ComboBreaks(ps[..|ps| - 1]) + if IsComboBreak(ps, |ps| - 1) then 1 else 0
  }

  /** The hp the loop compares sample i against: 1.0 before the first sample. */
  function PrevHp(ps: seq<DataPoint>, i: nat): real
    requires i < |ps|
  {
    if i == 0 then 1.0 else ps[i - 1].hp
  }

  /** Sample i is a significant HP drop: more than 0.1 below the previous hp. */
  predicate IsHpDrop(ps: seq<DataPoint>, i: nat)
    requires i < |ps|
  {
    ps[i].hp < PrevHp(ps, i) - 0.1
  }

  /** The number of samples that are significant HP drops. */
  function HpDrops(ps: seq<DataPoint>): nat {
    if ps == [] then 0
    else HpDrops(ps[..|ps| - 1]) + if IsHpDrop(ps, |ps| - 1) then 1 else 0
  }

  /** The largest combo of a non-empty sample sequence. */
  function PeakCombo(ps: seq<DataPoint>): (m: int)
    requires |ps| > 0
    ensures forall i :: 0 <= i < |ps| ==> ps[i].combo <= m
    ensures exists i :: 0 <= i < |ps| && ps[i].combo == m
  {
    if |ps| == 1 then ps[0].combo
    else
      var m' := PeakCombo(ps[..|ps| - 1]);
      if ps[|ps| - 1].combo > m' then ps[|ps| - 1].combo else m'
  }

  /**
   * `_calculate_advanced_stats`, up to the consistency score: a record without
   * samples is returned as it is; otherwise the statistics are filled in from
   * its samples, the two counters added to their current values (`+=`), and
   * nothing else changes.
   */
  method CalculateAdvancedStats(ms: MapStats) returns (r: MapStats)
    ensures ms.dataPoints == [] ==> r == ms
    ensures ms.dataPoints != [] ==>
      var ps := ms.dataPoints;
      var variance := Variance(Accuracies(ps));
      r == ms.(avgAccuracy := Mean(Accuracies(ps)),
               accuracyVariance := variance,
               comboBreaks := ms.comboBreaks + ComboBreaks(ps),
               hpDrops := ms.hpDrops + HpDrops(ps),
               peakCombo := PeakCombo(ps),
               consistencyScore := Consistency(variance))
  {
    r := ms;
    var ps := ms.dataPoints;
    if |ps| == 0 {
      return;
    }
    var accuracies := Accuracies(ps);
    var avg := Sum(accuracies) / |accuracies| as real;
    r := r.(avgAccuracy := avg);
    var variance := SquaredDeviations(accuracies, avg) / |accuracies| as real;
    r := r.(accuracyVariance := variance);

    var lastCombo := 0;
    var lastHp := 1.0;
    for i := 0 to |ps|
      invariant r == ms.(avgAccuracy := avg, accuracyVariance := variance,
                         comboBreaks := r.comboBreaks, hpDrops := r.hpDrops)
      invariant r.comboBreaks == ms.comboBreaks + ComboBreaks(ps[..i])
      invariant r.hpDrops == ms.hpDrops + HpDrops(ps[..i])
      invariant lastCombo == if i == 0 then 0 else ps[i - 1].combo
      invariant lastHp == if i == 0 then 1.0 else ps[i - 1].hp
    {
      var dp := ps[i];
      assert ps[..i + 1][..i] == ps[..i];
      if dp.combo < lastCombo && lastCombo > 20 {
        r := r.(comboBreaks := r.comboBreaks + 1);
      }
      if dp.hp < lastHp - 0.1 {
        r := r.(hpDrops := r.hpDrops + 1);
      }
      lastCombo := dp.combo;
      lastHp := dp.hp;
    }
    assert ps[..|ps|] == ps;
    r := r.(peakCombo := PeakCombo(ps));
    r := r.(consistencyScore := Consistency(variance));
  }

  lemma {:induction false} SumBounds(xs: seq<real>, lo: real, hi: real)
    requires forall i :: 0 <= i < |xs| ==> lo <= xs[i] <= hi
    ensures |xs| as real * lo <= Sum(xs) <= |xs| as real * hi
    decreases |xs|
  {
    if xs != [] {
      SumBounds(xs[..|xs| - 1], lo, hi);
    }
  }

  /** The mean lies within any bounds every value lies within. */
  lemma MeanBounds(xs: seq<real>, lo: real, hi: real)
    requires |xs| > 0
    requires forall i :: 0 <= i < |xs| ==> lo <= xs[i] <= hi
    ensures lo <= Mean(xs) <= hi
  {
    SumBounds(xs, lo, hi);
    var n := |xs| as real;
    assert n * lo <= Sum(xs) <= n * hi;
    assert Mean(xs) * n == Sum(xs);
  }

  lemma {:induction false} SquaredDeviationsNonNegative(xs: seq<real>, m: real)
    ensures SquaredDeviations(xs, m) >= 0.0
    decreases |xs|
  {
    if xs != [] {
      SquaredDeviationsNonNegative(xs[..|xs| - 1], m);
      var d := xs[|xs| - 1] - m;
      assert d * d >= 0.0;
    }
  }

  /** The variance is never negative, so the consistency score lies in [0, 100]. */
  lemma ConsistencyInRange(xs: seq<real>)
    requires |xs| > 0
    ensures Variance(xs) >= 0.0
    ensures 0.0 <= Consistency(Variance(xs)) <= 100.0
  {
    SquaredDeviationsNonNegative(xs, Mean(xs));
  }

  lemma {:induction false} SumConstant(xs: seq<real>, c: real)
    requires forall i :: 0 <= i < |xs| ==> xs[i] == c
    ensures Sum(xs) == |xs| as real * c
    decreases |xs|
  {
    if xs != [] {
      SumConstant(xs[..|xs| - 1], c);
    }
  }

  lemma {:induction false} SquaredDeviationsOfConstant(xs: seq<real>, c: real)
    requires forall i :: 0 <= i < |xs| ==> xs[i] == c
    ensures SquaredDeviations(xs, c) == 0.0
    decreases |xs|
  {
    if xs != [] {
      SquaredDeviationsOfConstant(xs[..|xs| - 1], c);
      var d := xs[|xs| - 1] - c;
      assert d == 0.0;
      assert d * d == 0.0;
    }
  }

  /** Constant accuracies have that accuracy as their mean, variance 0 and consistency score 100. */
  lemma ConstantAccuracies(xs: seq<real>)
    requires |xs| > 0
    requires forall i :: 0 <= i < |xs| ==> xs[i] == xs[0]
    ensures Mean(xs) == xs[0]
    ensures Variance(xs) == 0.0
    ensures Consistency(Variance(xs)) == 100.0
  {
    SumConstant(xs, xs[0]);
    assert Mean(xs) == xs[0];
    SquaredDeviationsOfConstant(xs, xs[0]);
  }

  /** A count over a prefix sees the same breaks and drops as over the whole sequence. */
  lemma PrefixSamePredecessors(ps: seq<DataPoint>, k: nat, i: nat)
    requires i < k <= |ps|
    ensures IsComboBreak(ps[..k], i) == IsComboBreak(ps, i)
    ensures IsHpDrop(ps[..k], i) == IsHpDrop(ps, i)
  {
  }

  /** Combo breaks are counted from the second sample on, so there are at most n - 1 of them. */
  lemma {:induction false} ComboBreaksBound(ps: seq<DataPoint>)
    requires |ps| > 0
    ensures ComboBreaks(ps) <= |ps| - 1
    decreases |ps|
  {
    if |ps| > 1 {
      ComboBreaksBound(ps[..|ps| - 1]);
    }
  }

  /** There are no combo breaks exactly when no sample is a combo break. */
  lemma {:induction false} ComboBreaksZeroIff(ps: seq<DataPoint>)
    ensures ComboBreaks(ps) == 0 <==> forall i :: 0 <= i < |ps| ==> !IsComboBreak(ps, i)
    decreases |ps|
  {
    if ps != [] {
      var init := ps[..|ps| - 1];
      ComboBreaksZeroIff(init);
      forall i | 0 <= i < |init| ensures IsComboBreak(init, i) == IsComboBreak(ps, i) {
        PrefixSamePredecessors(ps, |ps| - 1, i);
      }
    }
  }

  /** A combo that never decreases has no combo breaks. */
  lemma NonDecreasingNoBreaks(ps: seq<DataPoint>)
    requires forall i :: 0 < i < |ps| ==> ps[i - 1].combo <= ps[i].combo
    ensures ComboBreaks(ps) == 0
  {
    ComboBreaksZeroIff(ps);
  }

  /** Combos 0, 5, 30, 10, 50 have one combo break: the fall from 30 to 10. */
  lemma ComboBreaksExample(ps: seq<DataPoint>)
    requires |ps| == 5
    requires ps[0].combo == 0 && ps[1].combo == 5 && ps[2].combo == 30
    requires ps[3].combo == 10 && ps[4].combo == 50
    ensures ComboBreaks(ps) == 1
  {
    assert IsComboBreak(ps, 3) && !IsComboBreak(ps, 4);
    assert ComboBreaks(ps[..3]) == 0 by {
      ComboBreaksZeroIff(ps[..3]);
    }
    assert ps[..4][..3] == ps[..3];
    assert IsComboBreak(ps[..4], 3);
    assert ComboBreaks(ps[..4]) == 1;
    assert ps[..4] == ps[..|ps| - 1];
  }

  /** Every sample, the first included, can be an HP drop, so there are at most n of them. */
  lemma {:induction false} HpDropsBound(ps: seq<DataPoint>)
    ensures HpDrops(ps) <= |ps|
    decreases |ps|
  {
    if ps != [] {
      HpDropsBound(ps[..|ps| - 1]);
    }
  }

  /** There are no HP drops exactly when no sample is an HP drop. */
  lemma {:induction false} HpDropsZeroIff(ps: seq<DataPoint>)
    ensures HpDrops(ps) == 0 <==> forall i :: 0 <= i < |ps| ==> !IsHpDrop(ps, i)
    decreases |ps|
  {
    if ps != [] {
      var init := ps[..|ps| - 1];
      HpDropsZeroIff(init);
      forall i | 0 <= i < |init| ensures IsHpDrop(init, i) == IsHpDrop(ps, i) {
        PrefixSamePredecessors(ps, |ps| - 1, i);
      }
    }
  }

  /** The first sample is compared against full health: it counts as a drop exactly when its hp is below 0.9. */
  lemma FirstSampleHpDrop(ps: seq<DataPoint>)
    requires |ps| > 0
    ensures IsHpDrop(ps, 0) <==> ps[0].hp < 0.9
    ensures HpDrops(ps[..1]) == if ps[0].hp < 0.9 then 1 else 0
  {
    assert ps[..1][..0] == [];
  }

  /**
   * For a non-empty buffer of validated samples, the statistics lie in their
   * ranges: the mean accuracy in [0, 100], the variance non-negative, the
   * consistency score in [0, 100], at most n - 1 combo breaks, at most n HP
   * drops, and a non-negative peak combo.
   */
  lemma StatisticsInRange(ps: seq<DataPoint>)
    requires |ps| > 0 && AllValid(ps)
    ensures 0.0 <= Mean(Accuracies(ps)) <= 100.0
    ensures Variance(Accuracies(ps)) >= 0.0
    ensures 0.0 <= Consistency(Variance(Accuracies(ps))) <= 100.0
    ensures ComboBreaks(ps) <= |ps| - 1
    ensures HpDrops(ps) <= |ps|
    ensures PeakCombo(ps) >= 0
  {
    MeanBounds(Accuracies(ps), 0.0, 100.0);
    ConsistencyInRange(Accuracies(ps));
    ComboBreaksBound(ps);
    HpDropsBound(ps);
    assert ValidPoint(ps[0]);
  }
}
