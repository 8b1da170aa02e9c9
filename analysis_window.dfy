/**
 * `AnalysisWindow.generate_insights` of analysis_window.py: four threshold
 * tests on a completed play's statistics, each choosing one message. The
 * choice is modelled as an `Insight` value and its wording as `Text`.
 */
module AnalysisWindow {
  import opened Decimal
  import opened Session

  /** One insight: the band a statistic falls in, with the count where the message shows one. */
  datatype Insight =
    | ExcellentAccuracy | GoodAccuracy | FocusOnAccuracy
    | VeryConsistent | ModeratelyConsistent | Inconsistent
    | PerfectCombo | FewComboBreaks(breaks: nat) | ManyComboBreaks(breaks: nat)
    | GoodHpManagement | ManyHpDrops(drops: nat)

  /** Which of the four analyses an insight belongs to: accuracy 0, consistency 1, combo 2, HP 3. */
  function Analysis(i: Insight): nat {
    match i
    case ExcellentAccuracy | GoodAccuracy | FocusOnAccuracy => 0
    case VeryConsistent | ModeratelyConsistent | Inconsistent => 1
    case PerfectCombo | FewComboBreaks(_) | ManyComboBreaks(_) => 2
    case GoodHpManagement | ManyHpDrops(_) => 3
  }

  const EXCELLENT_ACCURACY := "Excellent accuracy! You maintained very high precision throughout the map."
  const GOOD_ACCURACY := "Good accuracy, but there's room for improvement in precision."
  const FOCUS_ON_ACCURACY := "Consider focusing on accuracy over speed in practice sessions."
  const VERY_CONSISTENT := "Very consistent performance with minimal accuracy fluctuation."
  const MODERATELY_CONSISTENT := "Moderate consistency. Try to maintain steady rhythm throughout maps."
  const INCONSISTENT := "Accuracy was quite inconsistent. Focus on rhythm and timing practice."
  const PERFECT_COMBO := "Perfect combo! No combo breaks detected."
  const GOOD_HP_MANAGEMENT := "Excellent HP management with minimal health drops."

  /**
   * What follows the count in the counted messages; each starts with a space.
   * The space is written as a separate `" "` only so that the verifier can
   * see the first character (it does not index into long literals); the
   * text is the same.
   */
  const FEW_BREAKS_TAIL := " " + "combo break(s). Great combo maintenance!"
  const MANY_BREAKS_TAIL := " " + "combo breaks. Work on maintaining focus throughout the map."
  const MANY_DROPS_TAIL := " " + "significant HP drops detected. Consider easier difficulties to build consistency."

  /** The message for one or two combo breaks, with the count in decimal after "Only ". */
  function FewBreaksMessage(n: nat): string {
    "Only " + (Digits(n) + FEW_BREAKS_TAIL)
  }

  /** The message for three or more combo breaks, starting with the count in decimal. */
  function ManyBreaksMessage(n: nat): string {
    Digits(n) + MANY_BREAKS_TAIL
  }

  /** The message for more than two HP drops, starting with the count in decimal. */
  function ManyDropsMessage(n: nat): string {
    Digits(n) + MANY_DROPS_TAIL
  }

  /** The message shown for an insight. */
  function Text(i: Insight): string {
    match i
    case ExcellentAccuracy => EXCELLENT_ACCURACY
    case GoodAccuracy => GOOD_ACCURACY
    case FocusOnAccuracy => FOCUS_ON_ACCURACY
    case VeryConsistent => VERY_CONSISTENT
    case ModeratelyConsistent => MODERATELY_CONSISTENT
    case Inconsistent => INCONSISTENT
    case PerfectCombo => PERFECT_COMBO
    case FewComboBreaks(n) => FewBreaksMessage(n)
    case ManyComboBreaks(n) => ManyBreaksMessage(n)
    case GoodHpManagement => GOOD_HP_MANAGEMENT
    case ManyHpDrops(n) => ManyDropsMessage(n)
  }

  /** The messages of a list of insights, in order. */
  function Texts(insights: seq<Insight>): (r: seq<string>)
    ensures |r| == |insights|
    ensures forall k :: 0 <= k < |r| ==> r[k] == Text(insights[k])
  {
    seq(|insights|, k requires 0 <= k < |insights| => Text(insights[k]))
  }

  /** The messages of four insights, one after another. */
  lemma InsightTexts(insights: seq<Insight>)
    requires |insights| == 4
    ensures Texts(insights) == [Text(insights[0]), Text(insights[1]), Text(insights[2]), Text(insights[3])]
  {
  }

  /** The accuracy insight: at least 95, from 90 up to 95, or below 90. */
  function AccuracyInsight(finalAccuracy: real): (i: Insight)
    ensures Analysis(i) == 0
    ensures i == ExcellentAccuracy <==> finalAccuracy >= 95.0
    ensures i == GoodAccuracy <==> 90.0 <= finalAccuracy < 95.0
    ensures i == FocusOnAccuracy <==> finalAccuracy < 90.0
  {
    if finalAccuracy >= 95.0 then ExcellentAccuracy
    else if finalAccuracy >= 90.0 then GoodAccuracy
    else FocusOnAccuracy
  }

  /** The consistency insight: at least 80, from 60 up to 80, or below 60. */
  function ConsistencyInsight(consistencyScore: real): (i: Insight)
    ensures Analysis(i) == 1
    ensures i == VeryConsistent <==> consistencyScore >= 80.0
    ensures i == ModeratelyConsistent <==> 60.0 <= consistencyScore < 80.0
    ensures i == Inconsistent <==> consistencyScore < 60.0
  {
    if consistencyScore >= 80.0 then VeryConsistent
    else if consistencyScore >= 60.0 then ModeratelyConsistent
    else Inconsistent
  }

  /** The combo insight: no break, one or two, or more; the message carries the count. */
  function ComboInsight(comboBreaks: nat): (i: Insight)
    ensures Analysis(i) == 2
    ensures i == PerfectCombo <==> comboBreaks == 0
    ensures i.FewComboBreaks? <==> 1 <= comboBreaks <= 2
    ensures i.ManyComboBreaks? <==> comboBreaks > 2
    ensures !i.PerfectCombo? ==> i.breaks == comboBreaks
  {
    if comboBreaks == 0 then PerfectCombo
    else if comboBreaks <= 2 then FewComboBreaks(comboBreaks)
    else ManyComboBreaks(comboBreaks)
  }

  /** The HP insight: at most two significant drops, or more; the message carries the count. */
  function HpInsight(hpDrops: nat): (i: Insight)
    ensures Analysis(i) == 3
    ensures i == GoodHpManagement <==> hpDrops <= 2
    ensures i.ManyHpDrops? <==> hpDrops > 2
    ensures i.ManyHpDrops? ==> i.drops == hpDrops
  {
    if hpDrops <= 2 then GoodHpManagement else ManyHpDrops(hpDrops)
  }

  /** The insights for a play, one per analysis, in the order accuracy, consistency, combo, HP. */
  function Insights(finalAccuracy: real, consistencyScore: real, comboBreaks: nat, hpDrops: nat): (r: seq<Insight>)
    ensures |r| == 4
    ensures r[0] == AccuracyInsight(finalAccuracy) && r[1] == ConsistencyInsight(consistencyScore)
    ensures r[2] == ComboInsight(comboBreaks) && r[3] == HpInsight(hpDrops)
  {
    [AccuracyInsight(finalAccuracy), ConsistencyInsight(consistencyScore),
     ComboInsight(comboBreaks), HpInsight(hpDrops)]
  }

  /**
   * `generate_insights`: appends one message per analysis to an initially
   * empty list. The result is the text of the record's insights, which
   * depend on its final accuracy, consistency score, combo-break count and
   * HP-drop count and on nothing else.
   */
  method GenerateInsights(stats: MapStats) returns (insights: seq<string>)
    ensures insights == Texts(Insights(stats.finalAccuracy, stats.consistencyScore, stats.comboBreaks, stats.hpDrops))
  {
    ghost var expected := Insights(stats.finalAccuracy, stats.consistencyScore, stats.comboBreaks, stats.hpDrops);
    ghost var a, c, b, h := Text(expected[0]), Text(expected[1]), Text(expected[2]), Text(expected[3]);
    InsightTexts(expected);
    insights := [];

    if stats.finalAccuracy >= 95.0 {
      insights := insights + [EXCELLENT_ACCURACY];
    } else if stats.finalAccuracy >= 90.0 {
      insights := insights + [GOOD_ACCURACY];
    } else {
      insights := insights + [FOCUS_ON_ACCURACY];
    }
    assert insights == [a];

    if stats.consistencyScore >= 80.0 {
      insights := insights + [VERY_CONSISTENT];
    } else if stats.consistencyScore >= 60.0 {
      insights := insights + [MODERATELY_CONSISTENT];
    } else {
      insights := insights + [INCONSISTENT];
    }
    assert insights == [a, c];

    if stats.comboBreaks == 0 {
      insights := insights + [PERFECT_COMBO];
    } else if stats.comboBreaks <= 2 {
      insights := insights + [FewBreaksMessage(stats.comboBreaks)];
    } else {
      insights := insights + [ManyBreaksMessage(stats.comboBreaks)];
    }
    assert insights == [a, c, b];

    if stats.hpDrops <= 2 {
      insights := insights + [GOOD_HP_MANAGEMENT];
    } else {
      insights := insights + [ManyDropsMessage(stats.hpDrops)];
    }
    assert insights == [a, c, b, h];
  }

  /** The count embedded in a combo or HP message reads back as the count itself. */
  lemma CountReadBack(i: Insight)
    ensures i.FewComboBreaks? ==> Text(i)[..5] == "Only " && LeadingNumber(Text(i)[5..]) == i.breaks
    ensures i.ManyComboBreaks? ==> LeadingNumber(Text(i)) == i.breaks
    ensures i.ManyHpDrops? ==> LeadingNumber(Text(i)) == i.drops
  {
    match i
    case FewComboBreaks(n) =>
      assert Text(i)[5..] == Digits(n) + FEW_BREAKS_TAIL;
      LeadingNumberOfDigits(n, FEW_BREAKS_TAIL);
    case ManyComboBreaks(n) =>
      LeadingNumberOfDigits(n, MANY_BREAKS_TAIL);
    case ManyHpDrops(n) =>
      LeadingNumberOfDigits(n, MANY_DROPS_TAIL);
    case _ =>
  }

  /** The length of each message and, for the combo messages, how it begins. */
  lemma TextShape(i: Insight)
    ensures i == ExcellentAccuracy ==> |Text(i)| == 74
    ensures i == GoodAccuracy ==> |Text(i)| == 61
    ensures i == FocusOnAccuracy ==> |Text(i)| == 62
    ensures i == VeryConsistent ==> |Text(i)| == 62
    ensures i == ModeratelyConsistent ==> |Text(i)| == 68
    ensures i == Inconsistent ==> |Text(i)| == 69
    ensures i == PerfectCombo ==> |Text(i)| == 40
    ensures i.FewComboBreaks? ==> |Text(i)| >= 47 && Text(i)[0] == 'O'
    ensures i.ManyComboBreaks? ==> |Text(i)| >= 61 && IsDigit(Text(i)[0])
    ensures i == GoodHpManagement ==> |Text(i)| == 50
    ensures i.ManyHpDrops? ==> |Text(i)| >= 83
  {
  }

  /**
   * Within one analysis, different insights read differently: the message
   * alone tells which band a statistic fell in and, for the counted
   * messages, the count.
   */
  lemma TextDistinguishes(i: Insight, j: Insight)
    requires Analysis(i) == Analysis(j)
    requires Text(i) == Text(j)
    ensures i == j
  {
    TextShape(i);
    TextShape(j);
    CountReadBack(i);
    CountReadBack(j);
  }
}
