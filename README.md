# osu! performance tracker: session statistics, insights and formatting

A Dafny model of the core of the osu! Performance Tracker Overlay. The
overlay samples a running osu! play (combo, accuracy, hp, misses, unstable
rate), keeps the samples of the current play in a bounded buffer, turns a
finished play into a `MapStats` record with derived statistics, chooses
textual insights for that record, and formats times and map names for
display.

Modules, following the source files:

- `Session` (stats_tracker.py): the `DataPoint` and `MapStats` records,
  the clamping of one sample, and the decimation that keeps the sample
  buffer bounded (`MAX_DATA_POINTS = 10000`).
- `Statistics` (stats_tracker.py): `_calculate_advanced_stats` as a
  method with the source's loop, proved against specification functions
  (mean, population variance, consistency score, combo-break and HP-drop
  counts, peak combo), and lemmas about those functions.
- `Tracker` (stats_tracker.py): the class `StatsTracker`. Its fields are
  the source's fields, and `start_tracking`, `add_data_point` and
  `finish_map` are methods that keep a class invariant. The invariant
  bounds the buffer at `MAX_DATA_POINTS + 1`, keeps every buffered sample
  in range, and requires every completed record to be well formed.
- `AnalysisWindow` (analysis_window.py): `generate_insights` as a method
  that appends one message per analysis. It is proved equal to the text
  of a pure classification into `Insight` values.
- `Utils` (utils.py): `format_time` and the map-name shortening. Python's
  float `//` and `%` (floor-based) and `int()` (truncation) are written
  out explicitly.
- `Decimal`: decimal rendering of naturals (what `str(n)` and f-strings
  produce) and reading it back. It is used by the formatting and insight
  proofs.
- `Config` (config.py): `MIN_PLAY_DURATION = 10`.
- `Wrappers`: `Option`, standing for Python's `None`.

The clock (`time.time()`) is the parameter `now` of the operations that
read it. Python arguments that may be `None` are `Option` values.
Accuracy, hp, unstable rate and times are exact `real`s.

## Model

| member | source | states |
|---|---|---|
| Session.MakePoint | stats_tracker.py:79-92 | the appended sample is in range (combo ≥ 0, 0 ≤ accuracy ≤ 100, 0 ≤ hp ≤ 1, misses ≥ 0, unstable rate ≥ 0); each present value is clamped into its range; each `None` becomes 0, accuracy included; the timestamp is kept |
| Session.EveryNthLength | stats_tracker.py:76 | `s[::step]` is empty exactly when `s` is; otherwise it has ⌈len/step⌉ elements |
| Session.EveryNthAt | stats_tracker.py:76 | element i of `s[::step]` is `s[i * step]`, and that index is in range |
| Session.DecimatedSubsequence | stats_tracker.py:73-76 | a buffer of at most MAX_DATA_POINTS is untouched; a longer one becomes the samples at 0, step, 2·step, … for step = len // 5000 ≥ 2; the result is shorter, non-empty, keeps the first sample and is an order-preserving subsequence |
| Session.DecimatedValid | stats_tracker.py:73-83 | decimation keeps every sample in range |
| Session.DecimationAtThreshold | stats_tracker.py:73-76 | for a buffer of at most MAX_DATA_POINTS + 1 samples, at most MAX_DATA_POINTS remain after decimation; at exactly 10001 the step is 2, and 5001 samples remain, the first and the last among them |
| Statistics.Accuracies | stats_tracker.py:139 | the accuracies list has one entry per sample, in order |
| Statistics.PeakCombo | stats_tracker.py:114-160 | the peak combo bounds every sample's combo and is attained by one of them |
| Statistics.CalculateAdvancedStats | stats_tracker.py:133-163 | a record without samples is returned unchanged; otherwise the result sets the mean accuracy, the population variance, the peak combo and the consistency score max(0, 100 − 10·variance); it adds the combo-break and HP-drop counts to the record's counters; every other field is unchanged |
| Statistics.SumBounds | stats_tracker.py:140 | a sum of n values in [lo, hi] lies in [n·lo, n·hi] |
| Statistics.MeanBounds | stats_tracker.py:140 | the mean lies within any bounds that every value lies within |
| Statistics.SquaredDeviationsNonNegative | stats_tracker.py:143 | a sum of squared deviations is never negative |
| Statistics.ConsistencyInRange | stats_tracker.py:143-163 | the variance is ≥ 0, so the consistency score lies in [0, 100] |
| Statistics.SumConstant | stats_tracker.py:140 | n copies of c sum to n·c |
| Statistics.SquaredDeviationsOfConstant | stats_tracker.py:143 | constant values have no deviation from that constant |
| Statistics.ConstantAccuracies | stats_tracker.py:139-163 | constant accuracies have that accuracy as their mean, variance 0 and consistency score 100 |
| Statistics.PrefixSamePredecessors | stats_tracker.py:146-157 | whether sample i is a combo break or an HP drop depends only on the samples up to i |
| Statistics.ComboBreaksBound | stats_tracker.py:146-154 | a non-empty buffer of n samples has at most n − 1 combo breaks, since the first sample is compared with 0 |
| Statistics.ComboBreaksZeroIff | stats_tracker.py:146-154 | the combo-break count is 0 if and only if no sample has a combo below a previous combo above 20 |
| Statistics.NonDecreasingNoBreaks | stats_tracker.py:146-154 | a combo that never decreases gives no combo break |
| Statistics.ComboBreaksExample | stats_tracker.py:146-154 | combos 0, 5, 30, 10, 50 give exactly one combo break |
| Statistics.HpDropsBound | stats_tracker.py:146-157 | n samples give at most n HP drops |
| Statistics.HpDropsZeroIff | stats_tracker.py:146-157 | the HP-drop count is 0 if and only if no sample's hp is more than 0.1 below the previous one (1.0 before the first) |
| Statistics.FirstSampleHpDrop | stats_tracker.py:147-157 | the first sample counts as an HP drop if and only if its hp is below 0.9 |
| Statistics.StatisticsInRange | stats_tracker.py:133-163 | for a non-empty buffer of in-range samples: mean accuracy in [0, 100], variance ≥ 0, consistency in [0, 100], at most n − 1 combo breaks, at most n HP drops, peak combo ≥ 0 |
| Tracker.Lookup | stats_tracker.py:111-113 | `map_info.get(key, 'Unknown')`: the stored value when the key is present, else "Unknown" |
| Tracker.RecordInRange | stats_tracker.py:108-163 | every completed record has mean accuracy in [0, 100], variance ≥ 0, consistency in [0, 100], fewer combo breaks than samples, at most one HP drop per sample, and max combo equal to peak combo, at least 0 and at least every sample's combo |
| Tracker.StatsTracker.constructor | stats_tracker.py:47-54 | not playing, empty buffer, zeroed counters, no start time, empty map info, no completed maps |
| Tracker.StatsTracker.StartTracking | stats_tracker.py:56-63 | playing, empty buffer, start time `now`, counters zeroed, map info stored, completed maps unchanged; the invariant is kept |
| Tracker.StatsTracker.AddDataPoint | stats_tracker.py:67-93 | nothing changes when not playing; otherwise the buffer becomes its decimation followed by the clamped sample stamped `now − start`; a buffer of 10001 becomes 5002; no other field changes; the buffer stays at most MAX_DATA_POINTS + 1 long with in-range samples |
| Tracker.StatsTracker.FinishMap | stats_tracker.py:95-131 | not playing or empty buffer: `None`, nothing changes; a play shorter than MIN_PLAY_DURATION: `None`, only `isPlaying` becomes false; otherwise exactly one record is appended and returned and tracking stops; the record holds a copy of the buffer, start, end, duration end − start, title/artist/difficulty defaulting to "Unknown", the final accuracy, hp and misses passed in, max combo and peak combo equal to the buffer's maximum (the final combo passed in is not used), and its statistics; the buffer is not cleared |
| AnalysisWindow.Texts | analysis_window.py:160-196 | one message per insight, in order |
| AnalysisWindow.AccuracyInsight | analysis_window.py:165-170 | "Excellent" exactly when final accuracy ≥ 95, "Good" exactly when 90 ≤ accuracy < 95, "Consider focusing" exactly when below 90 |
| AnalysisWindow.ConsistencyInsight | analysis_window.py:173-178 | very consistent exactly when the score is ≥ 80, moderate exactly when 60 ≤ score < 80, inconsistent exactly when below 60 |
| AnalysisWindow.ComboInsight | analysis_window.py:181-187 | "Perfect combo" exactly when there is no break; "Only N combo break(s)" exactly when 1 ≤ N ≤ 2; "N combo breaks" exactly when N > 2; N is the count |
| AnalysisWindow.HpInsight | analysis_window.py:190-194 | the good-HP message exactly when there are at most 2 drops, otherwise the message with the drop count |
| AnalysisWindow.Insights | analysis_window.py:160-196 | exactly four insights, in the order accuracy, consistency, combo, HP, each chosen by its own statistic |
| AnalysisWindow.InsightTexts | analysis_window.py:160-196 | the messages of four insights are the four messages in order |
| AnalysisWindow.GenerateInsights | analysis_window.py:160-196 | the list built by the four if/elif chains is the text of the insights of the record's final accuracy, consistency score, combo breaks and HP drops, and depends on nothing else |
| AnalysisWindow.CountReadBack | analysis_window.py:184-194 | the count written into a combo or HP message reads back as that count |
| AnalysisWindow.TextShape | analysis_window.py:165-194 | each message's length, and the first character of the counted combo messages |
| AnalysisWindow.TextDistinguishes | analysis_window.py:160-196 | within one analysis, different insights have different messages, so the message determines the band and, where shown, the count |
| Decimal.Digits | analysis_window.py:184 | the decimal rendering of n is a non-empty string of digits; one digit below 10, two digits from 10 to 99 |
| Decimal.ParseDigits | utils.py:45 | reading back the decimal rendering of n gives n |
| Decimal.ParseLeadingZero | utils.py:45 | a leading zero does not change the value read |
| Decimal.DigitPrefix | analysis_window.py:184-194 | the digit prefix of a string is a prefix made of digits, and the character after it is not a digit |
| Decimal.DigitPrefixOfDigits | analysis_window.py:184-194 | the digit prefix of a digit string followed by text that does not start with a digit is that digit string |
| Decimal.LeadingNumberOfDigits | analysis_window.py:184-194 | the number at the head of "N" followed by a non-digit is N |
| Utils.Trunc | utils.py:43-44 | `int(x)` on a float truncates toward zero |
| Utils.Pad2Natural | utils.py:45 | `f"{n:02d}"` for n ≥ 0 is at least two digits that read back as n; exactly two below 100 |
| Utils.Pad2Negative | utils.py:45 | `f"{n:02d}"` for n < 0 is a minus sign followed by the digits of −n |
| Utils.FloorDivMod60 | utils.py:43-44 | `int(s // 60)` is ⌊s⌋ div 60 and `int(s % 60)` is ⌊s⌋ mod 60 |
| Utils.FormatTimeFields | utils.py:41-45 | `format_time(s)` is the padded ⌊s⌋ div 60, a colon, and the padded ⌊s⌋ mod 60 |
| Utils.FormatTimeRoundTrip | utils.py:41-45 | for s ≥ 0 the output is `MM:SS`: SS is two digits below 60, MM is digits, and 60·MM + SS = ⌊s⌋ |
| Utils.ClockRoundTrip | utils.py:45 | the same round trip for the whole-second value f ≥ 0 |
| Utils.SplitAtColon | utils.py:45 | `mm + ":" + ss` with a two-character `ss` splits back into `mm` and `ss` |
| Utils.FormatTimeShape | utils.py:41-45 | for 0 ≤ s < 6000 the output has five characters with ':' at index 2 |
| Utils.FormatTimeNegative | utils.py:41-45 | for s < 0 the output starts with a minus sign |
| Utils.FormatTimeNegativeExample | utils.py:41-45 | −1.5 s is formatted as "-1:58": minutes ⌊−1.5⌋ div 60 = −1, seconds ⌊−1.5⌋ mod 60 = 58 |
| Utils.ShortenName | utils.py:56-57 | names of at most 20 characters are unchanged; longer names become their first 20 characters followed by "..."; the result is at most 23 characters and starts with the name's first min(20, length) characters |
| Utils.ShortenNameIdempotent | utils.py:56-57 | shortening a shortened name changes nothing |

## Left out

- The four extra metrics that `_calculate_advanced_stats` assigns after the consistency score (stats_tracker.py:166-169): the helpers they call are defined nowhere in stats_tracker.py, so the statistics stop at line 163.
- Tracker.StatsTracker.FinishMap: as written, stats_tracker.py:166 raises AttributeError inside `_calculate_advanced_stats`, which `finish_map` calls at line 123, so the source never reaches the append and the state update at lines 125-126: no record is appended, tracking does not stop, and the exception reaches the caller. The model leaves lines 166-169 out and follows lines 108-126 as if the statistics step ended at line 163.
- `_save_map_stats` (stats_tracker.py:171-227) and the call to it in `finish_map`: JSON file output, charts and date formatting.
- The `print` calls of `start_tracking` and `_save_map_stats`: console output only.
- `time.time()`: the clock is the parameter `now` of `StartTracking`, `AddDataPoint` and `FinishMap`.
- IEEE-754 floating point: accuracy, hp, unstable rate, times and all statistics are exact reals, so rounding in the mean, the variance and the 0.1 hp threshold is not modelled.
- Python's `int()` and `float()` coercion of arbitrary values in `add_data_point`: each argument is an `Option` of an already numeric value, and `None` is `None`.
- `map_info` is a dictionary of arbitrary values in the source; here it maps strings to strings.
- Aliasing: `finish_map` returns the same `MapStats` object it appends to `completed_maps`, and `_calculate_advanced_stats` updates it in place. Records are values here, so a caller's later change to the returned record is not seen in `completed_maps`.
- A missing accuracy becomes 0.0 in `add_data_point` (stats_tracker.py:80), although the telemetry reader defaults a missing accuracy to 100.0 (memory_reader.py:30). The model follows `add_data_point`.
- Statistics.ConstantAccuracies: only the direction "constant accuracies ⇒ variance 0" is proved; the converse is not stated.
- Utils.FormatTimeNegative: states only the leading minus sign; the whole output for a negative time is fixed by Utils.FormatTimeFields (for example, −1.5 s gives "-1:58", Utils.FormatTimeNegativeExample).
- The list comprehension over all records and the plotting around the name shortening (utils.py:48-124): only the per-name expression is modelled.
- The rest of analysis_window.py, and overlay.py, memory_reader.py, debug.py, input_handler.py and main.py: user interface, charts, websocket client, threads and hotkeys.
