/**
 * `StatsTracker` of stats_tracker.py: the object that records one play at a
 * time. A play starts with `StartTracking`, collects samples with
 * `AddDataPoint`, and ends with `FinishMap`, which builds the play's record
 * and appends it to the completed maps. The wall clock (`time.time()`) is
 * the parameter `now` of each operation that reads it.
 */
module Tracker {
  import opened Wrappers
  import opened Session
  import opened Statistics
  import opened Config

  /** `dict.get(key, 'Unknown')` on the map information. */
  function Lookup(info: map<string, string>, key: string): (v: string)
    ensures key in info ==> v == info[key]
    ensures key !in info ==> v == "Unknown"
  {
    if key in info then info[key] else "Unknown"
  }

  /**
   * A record as `finish_map` produces it: from a non-empty buffer of clamped
   * samples, for a play at least MIN_PLAY_DURATION long, with the maximum
   * combo and every statistic computed from its own samples.
   */
  ghost predicate WellFormedRecord(m: MapStats) {
    var ps := m.dataPoints;
    && |ps| > 0
    && AllValid(ps)
    && m.playDuration == m.endTime - m.startTime
    && m.playDuration >= MIN_PLAY_DURATION as real
    && m.maxCombo == PeakCombo(ps)
    && m.peakCombo == PeakCombo(ps)
    && m.avgAccuracy == Mean(Accuracies(ps))
    && m.accuracyVariance == Variance(Accuracies(ps))
    && m.consistencyScore == Consistency(m.accuracyVariance)
    && m.comboBreaks == ComboBreaks(ps)
    && m.hpDrops == HpDrops(ps)
  }

  /** Every statistic of a finished record lies in its range. */
  lemma RecordInRange(m: MapStats)
    requires WellFormedRecord(m)
    ensures 0.0 <= m.avgAccuracy <= 100.0
    ensures m.accuracyVariance >= 0.0
    ensures 0.0 <= m.consistencyScore <= 100.0
    ensures m.comboBreaks < |m.dataPoints|
    ensures m.hpDrops <= |m.dataPoints|
    ensures 0 <= m.peakCombo == m.maxCombo
    ensures forall k :: 0 <= k < |m.dataPoints| ==> m.dataPoints[k].combo <= m.maxCombo
  {
    StatisticsInRange(m.dataPoints);
  }

  class StatsTracker {
    var isPlaying: bool
    var currentSession: seq<DataPoint>
    var lastCombo: int
    var lastMissCount: int
    var sessionStartTime: Option<real>
    var mapInfo: map<string, string>
    var completedMaps: seq<MapStats>

    /**
     * While a play is tracked its start time is known; the buffer holds
     * clamped samples and is never longer than MAX_DATA_POINTS + 1, because
     * `add_data_point` decimates it before it grows past that; every
     * completed record is well formed.
     */
    ghost predicate Valid()
      reads this
    {
      && (isPlaying ==> sessionStartTime.Some?)
      && |currentSession| <= MAX_DATA_POINTS + 1
      && AllValid(currentSession)
      && forall k :: 0 <= k < |completedMaps| ==> WellFormedRecord(completedMaps[k])
    }

    /** `__init__`: not playing, nothing recorded. */
    constructor ()
      ensures Valid()
      ensures !isPlaying && currentSession == [] && lastCombo == 0 && lastMissCount == 0
      ensures sessionStartTime == None && mapInfo == map[] && completedMaps == []
    {
      isPlaying := false;
      currentSession := [];
      lastCombo := 0;
      lastMissCount := 0;
      sessionStartTime := None;
      mapInfo := map[];
      completedMaps := [];
    }

    /** `start_tracking`: a new play begins at `now` with an empty buffer; completed maps are kept. */
    method StartTracking(now: real, info: map<string, string>)
      requires Valid()
      modifies this
      ensures Valid()
      ensures isPlaying && currentSession == [] && sessionStartTime == Some(now)
      ensures lastCombo == 0 && lastMissCount == 0 && mapInfo == info
      ensures completedMaps == old(completedMaps)
    {
      isPlaying := true;
      currentSession := [];
      sessionStartTime := Some(now);
      lastCombo := 0;
      lastMissCount := 0;
      mapInfo := info;
    }

    /**
     * `add_data_point`: ignored when no play is tracked. Otherwise a buffer
     * longer than MAX_DATA_POINTS is first decimated, then the clamped sample
     * stamped with the time since the play started is appended.
     */
    method AddDataPoint(now: real, combo: Option<int>, accuracy: Option<real>, hp: Option<real>,
                        misses: Option<int>, unstableRate: Option<real>)
      requires Valid()
      modifies this
      ensures Valid()
      ensures !old(isPlaying) ==> currentSession == old(currentSession)
      ensures old(isPlaying) ==>
        currentSession == Decimated(old(currentSession))
                          + [MakePoint(now - old(sessionStartTime).value, combo, accuracy, hp, misses, unstableRate)]
      ensures old(isPlaying) && |old(currentSession)| == MAX_DATA_POINTS + 1 ==> |currentSession| == 5002
      ensures isPlaying == old(isPlaying) && sessionStartTime == old(sessionStartTime)
      ensures lastCombo == old(lastCombo) && lastMissCount == old(lastMissCount)
      ensures mapInfo == old(mapInfo) && completedMaps == old(completedMaps)
    {
      if !isPlaying {
        return;
      }

      if |currentSession| > MAX_DATA_POINTS {
        var step := DecimationStep(|currentSession|);
        currentSession := EveryNth(currentSession, step);
      }
      DecimationAtThreshold(old(currentSession));
      DecimatedValid(old(currentSession));

      var dataPoint := MakePoint(now - sessionStartTime.value, combo, accuracy, hp, misses, unstableRate);
      currentSession := currentSession + [dataPoint];
    }

    /**
     * `finish_map`: returns `None` and changes nothing when no play is
     * tracked or its buffer is empty; returns `None` and stops tracking when
     * the play lasted less than MIN_PLAY_DURATION. Otherwise it builds the
     * record of the play from a copy of the buffer, fills in its statistics,
     * appends it to the completed maps, stops tracking and returns it. The
     * final combo is not used, and the buffer is left as it is.
     */
    method FinishMap(now: real, finalCombo: int, finalAccuracy: real, finalHp: real, totalMisses: int)
      returns (r: Option<MapStats>)
      requires Valid()
      modifies this
      ensures Valid()
      ensures currentSession == old(currentSession) && sessionStartTime == old(sessionStartTime)
      ensures lastCombo == old(lastCombo) && lastMissCount == old(lastMissCount) && mapInfo == old(mapInfo)
      ensures !old(isPlaying) || old(currentSession) == [] ==>
        r.None? && isPlaying == old(isPlaying) && completedMaps == old(completedMaps)
      ensures old(isPlaying) && old(currentSession) != []
              && now - old(sessionStartTime).value < MIN_PLAY_DURATION as real ==>
        r.None? && !isPlaying && completedMaps == old(completedMaps)
      ensures old(isPlaying) && old(currentSession) != []
              && now - old(sessionStartTime).value >= MIN_PLAY_DURATION as real ==>
        && r.Some?
        && !isPlaying
        && completedMaps == old(completedMaps) + [r.value]
        && WellFormedRecord(r.value)
        && r.value.dataPoints == old(currentSession)
        && r.value.startTime == old(sessionStartTime).value
        && r.value.endTime == now
        && r.value.mapName == Lookup(old(mapInfo), "title")
        && r.value.artist == Lookup(old(mapInfo), "artist")
        && r.value.difficulty == Lookup(old(mapInfo), "difficulty")
        && r.value.finalAccuracy == finalAccuracy
        && r.value.totalMisses == totalMisses
        && r.value.finalHp == finalHp
    {
      if !isPlaying || currentSession == [] {
        return None;
      }

      var endTime := now;
      var playDuration := endTime - sessionStartTime.value;

      if playDuration < MIN_PLAY_DURATION as real {
        isPlaying := false;
        return None;
      }

      var mapStats := MapStats(
        sessionStartTime.value, endTime,
        Lookup(mapInfo, "title"), Lookup(mapInfo, "artist"), Lookup(mapInfo, "difficulty"),
        PeakCombo(currentSession), finalAccuracy, totalMisses, finalHp, playDuration,
        currentSession,
        0.0, 0.0, 0, 0, 0, 0.0);

      mapStats := CalculateAdvancedStats(mapStats);

      completedMaps := completedMaps + [mapStats];
      isPlaying := false;

      return Some(mapStats);
    }
  }
}
