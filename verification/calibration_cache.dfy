/**
 * The reuse-or-recompute decision `TensorRTEngineBuilder.quantize` makes from
 * the state of `<output_path>/calibration`.
 */
module CalibrationCache {
  import opened Wrappers
  import opened Descriptors

  const CALIBRATION_DIR := "calibration"
  const JSON_SUFFIX := ".json"
  const SAFETENSORS_SUFFIX := ".safetensors"

  /** What the calibration path is on disk; a directory comes with its listing. */
  datatype PathState = Absent | RegularFile | Directory(entries: seq<string>)

  datatype CalibrationAction = NoCalibration | ReuseCached | Recompute

  function CalibrationPath(outputPath: string): string {
    JoinPath(outputPath, CALIBRATION_DIR)
  }

  predicate EndsWith(s: string, suffix: string) {
    |suffix| <= |s| && s[|s| - |suffix|..] == suffix
  }

  /** `any(f.endswith(suffix) for f in entries)` */
  predicate AnyEndsWith(entries: seq<string>, suffix: string) {
    exists i | 0 <= i < |entries| :: EndsWith(entries[i], suffix)
  }

  /** `has_json and has_qweight`: both are only looked for in a directory of exactly two entries. */
  predicate HasJsonAndWeights(state: PathState) {
    && state.Directory?
    && |state.entries| == 2
    && AnyEndsWith(state.entries, JSON_SUFFIX)
    && AnyEndsWith(state.entries, SAFETENSORS_SUFFIX)
  }

  /** What `quantize` does with the calibration data, given the dataset and the path's state. */
  function CalibrationDecision(calibration: Option<CalibrationSet>, state: PathState): (a: CalibrationAction)
    ensures a == NoCalibration <==> calibration.None?
    ensures a == ReuseCached ==> state.Directory? && |state.entries| == 2
  {
    if calibration.None? then NoCalibration
    else if state.Absent? || !HasJsonAndWeights(state) then Recompute
    else ReuseCached
  }

  /** No name ends both in `.json` and in `.safetensors`. */
  lemma SuffixesExclusive(s: string)
    ensures !(EndsWith(s, JSON_SUFFIX) && EndsWith(s, SAFETENSORS_SUFFIX))
  {
    if EndsWith(s, JSON_SUFFIX) {
      assert s[|s| - 1] == s[|s| - |JSON_SUFFIX|..][|JSON_SUFFIX| - 1] == 'n';
    }
  }

  /**
   * With a calibration dataset, cached data is reused exactly when the path is a
   * directory listing two entries, one ending `.json` and the other `.safetensors`.
   */
  lemma ReuseIff(calibration: CalibrationSet, state: PathState)
    ensures CalibrationDecision(Some(calibration), state) == ReuseCached
            <==> (state.Directory? && |state.entries| == 2
                  && ((EndsWith(state.entries[0], JSON_SUFFIX) && EndsWith(state.entries[1], SAFETENSORS_SUFFIX))
                      || (EndsWith(state.entries[0], SAFETENSORS_SUFFIX) && EndsWith(state.entries[1], JSON_SUFFIX))))
  {
    if state.Directory? && |state.entries| == 2 {
      SuffixesExclusive(state.entries[0]);
      SuffixesExclusive(state.entries[1]);
    }
  }

  /** Without a calibration dataset nothing is calibrated, whatever the directory holds. */
  lemma NoDatasetNoCalibration(state: PathState)
    ensures CalibrationDecision(None, state) == NoCalibration
  {
  }
}
