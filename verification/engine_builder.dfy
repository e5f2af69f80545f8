/**
 * TensorRTEngineBuilder: a builder configured through fluent setters, validated,
 * optionally calibrated, then built one shard after another. External calls are
 * parameters: the hardware fp8 check, the state of the output directory and the
 * external graph builder's per-rank answer.
 */
module EngineBuilder {
  import opened Wrappers
  import opened Descriptors
  import opened ProfileChecks
  import opened CalibrationCache
  import opened RankBuild

  /** How a call to `build` ends. */
  datatype BuildOutcome = Built(outputPath: string) | DispatchedParallel(outputPath: string) | Failed(error: Error)

  /** What `build` finds on disk: whether the output directory exists, and the calibration path. */
  datatype DiskState = DiskState(outputExists: bool, calibrationDir: PathState) {
    /** `<output>/calibration` lies inside the output directory, so it cannot exist without it. */
    predicate Possible() {
      outputExists || calibrationDir.Absent?
    }
  }

  /** The dispatch test of `build`: a process pool only for a parallel build with more than one job. */
  predicate UsesParallelBuild(info: BuildInfo) {
    info.parallel && info.numParallelJobs > 1
  }

  /** The effects of `build` before validation: creating the output directory, then calibrating. */
  function BuildPrelude(outputPath: string, disk: DiskState, qconfig: QConfig, calibration: Option<CalibrationSet>): seq<Effect> {
    (if disk.outputExists then [] else [CreateDirectory(outputPath)])
    + (if QConfigTruthy(qconfig) && CalibrationDecision(calibration, disk.calibrationDir) == Recompute
       then [Calibrate(CalibrationPath(outputPath))] else [])
  }

  class TensorRTEngineBuilder {
    const modelIdOrPath: string
    const modelConfig: ModelConfig

    var dtype: string
    var buildInfo: BuildInfo
    var shardingInfo: ShardingInfo
    var optimizationProfile: Option<OptimizationProfile>
    var qconfig: QConfig
    var quantizationCalibration: Option<CalibrationSet>
    var beamWidth: int

    /** The build is serial: nothing ever asks for a process pool. */
    predicate Serial()
      reads this
    {
      !buildInfo.parallel
    }

    constructor (modelIdOrPath: string, config: ModelConfig)
      ensures Serial()
      ensures this.modelIdOrPath == modelIdOrPath && modelConfig == config
      ensures dtype == config.torchDtype
      ensures buildInfo == SERIAL_BUILD && shardingInfo == NO_SHARDING
      ensures optimizationProfile == None && qconfig == Unset && quantizationCalibration == None
      ensures beamWidth == -1
    {
      this.modelIdOrPath := modelIdOrPath;
      modelConfig := config;
      dtype := config.torchDtype;
      buildInfo := SERIAL_BUILD;
      shardingInfo := NO_SHARDING;
      optimizationProfile := None;
      qconfig := Unset;
      quantizationCalibration := None;
      beamWidth := -1;
    }

    /** The fields a per-rank build reads. */
    function Settings(): EngineSettings
      reads this
    {
      EngineSettings(modelIdOrPath, modelConfig, dtype, qconfig, optimizationProfile, beamWidth, buildInfo.quantizedPath)
    }

    /**
     * `enable_parallel_build` builds a three-field BuildInfo from two values, which
     * raises TypeError before `_build_info` is assigned: it always fails and changes nothing.
     */
    method EnableParallelBuild(numJobs: int) returns (r: Outcome<Error>)
      ensures r == Fail(BuildInfoArity)
    {
      r := Fail(BuildInfoArity);
    }

    method To(dtypeValue: string)
      modifies this`dtype
      ensures dtype == dtypeValue
    {
      if dtypeValue != dtype {
        dtype := dtypeValue;
      }
    }

    /** Stores the sharding degrees as given; nothing relates them to one another. */
    method Shard(tpDegree: int, ppDegree: int, worldSize: int, numGpusPerNode: int)
      modifies this`shardingInfo
      ensures shardingInfo == ShardingInfo(tpDegree, ppDegree, worldSize, numGpusPerNode)
    {
      shardingInfo := ShardingInfo(tpDegree, ppDegree, worldSize, numGpusPerNode);
    }

    /** `float8Supported` is what the device query answers; it is consulted only for fp8 modes. */
    method WithQuantizationProfile(mode: QuantMode, calibration: Option<CalibrationSet>, float8Supported: bool) returns (r: Outcome<Error>)
      modifies this`qconfig, this`quantizationCalibration
      ensures r.Fail? <==> (mode.HasFp8Qdq() || mode.HasFp8KvCache()) && !float8Supported
      ensures r.Fail? ==> r.error == UnsupportedFloat8
      ensures r.Fail? ==> qconfig == old(qconfig) && quantizationCalibration == old(quantizationCalibration)
      ensures r.Pass? ==> qconfig == Mode(mode) && quantizationCalibration == calibration
    {
      if mode.HasFp8Qdq() || mode.HasFp8KvCache() {
        if !float8Supported {
          return Fail(UnsupportedFloat8);
        }
      }
      qconfig := Mode(mode);
      quantizationCalibration := calibration;
      r := Pass;
    }

    method WithGenerationProfile(maxBatchSize: int, maxPromptLength: Option<int>, maxNewTokens: Option<int>, maxOutputLength: Option<int>)
      modifies this`optimizationProfile
      ensures optimizationProfile == Some(GenerationProfile(maxBatchSize, maxPromptLength, maxNewTokens, maxOutputLength))
    {
      var output := maxOutputLength;
      if output.None? && maxPromptLength.Some? && maxNewTokens.Some? {
        output := Some(maxPromptLength.value + maxNewTokens.value);
      }
      optimizationProfile := Some(OptimizationProfile(maxBatchSize, maxPromptLength, maxNewTokens, output));
    }

    method WithSamplingStrategy(numBeams: int)
      modifies this`beamWidth
      ensures beamWidth == numBeams
    {
      beamWidth := numBeams;
    }

    /**
     * Defaults the quantization descriptor (even when validation then fails),
     * checks the profile's bounds in order, and defaults the beam width to greedy
     * search. Every failure is an error; success always carries `true`.
     */
    method Validate() returns (r: Result<bool, Error>, warnings: seq<Warning>)
      modifies this`qconfig, this`beamWidth
      ensures qconfig == if old(qconfig).Unset? then DefaultTuple else old(qconfig)
      ensures var err := ProfileError(optimizationProfile, modelConfig.maxPositionEmbeddings);
              && (err.Some? ==> r == Err(err.value) && beamWidth == old(beamWidth))
              && (err.None? ==> r == Ok(true) && beamWidth == if old(beamWidth) < 1 then 1 else old(beamWidth))
      ensures warnings == (if old(qconfig).Unset? then [QuantizationDefaulted] else [])
                          + (if r.Ok? && old(beamWidth) < 1 then [GreedySearchDefaulted] else [])
    {
      warnings := [];
      if qconfig.Unset? {
        warnings := warnings + [QuantizationDefaulted];
        qconfig := DefaultTuple;
      }
      if optimizationProfile.None? {
        return Err(NoOptimizationProfile), warnings;
      }
      var profile := optimizationProfile.value;
      var maxSequenceLength := modelConfig.maxPositionEmbeddings;
      if profile.maxPromptLength.None? || profile.maxNewTokens.None? {
        return Err(NoneInLengthSum), warnings;
      }
      var bounds := Bounds(profile, maxSequenceLength);
      var i := 0;
      while i < |bounds|
        invariant 0 <= i <= |bounds|
        invariant FirstViolation(bounds) == FirstViolation(bounds[i..])
      {
        var bound := bounds[i];
        assert bounds[i..][0] == bound && bounds[i..][1..] == bounds[i + 1..];
        if bound.value.None? {
          return Err(NoneCompared(bound.field)), warnings;
        }
        var value := bound.value.value;
        if value < bound.min {
          return Err(BelowMinimum(bound.field, value, bound.min)), warnings;
        }
        if bound.max.Some? && value > bound.max.value {
          return Err(AboveMaximum(bound.field, value, bound.max.value)), warnings;
        }
        i := i + 1;
      }
      var prompt, newTokens := profile.maxPromptLength.value, profile.maxNewTokens.value;
      PassingBoundsExcludeTruncation(profile, maxSequenceLength);
      if prompt + newTokens > maxSequenceLength {
        warnings := warnings + [TruncatingNewTokens(maxSequenceLength - prompt)];
      }
      if beamWidth < 1 {
        warnings := warnings + [GreedySearchDefaulted];
        beamWidth := 1;
      }
      r := Ok(true);
    }

    /**
     * With a calibration dataset, reuses `<output_path>/calibration` when it looks
     * complete and recomputes it otherwise; in every case the quantized path then
     * points there and the parallel settings are kept.
     */
    method Quantize(outputPath: string, calibrationDir: PathState) returns (action: CalibrationAction)
      modifies this`buildInfo
      ensures action == CalibrationDecision(quantizationCalibration, calibrationDir)
      ensures buildInfo == BuildInfo(old(buildInfo).parallel, old(buildInfo).numParallelJobs, Some(CalibrationPath(outputPath)))
      ensures old(Serial()) ==> Serial()
    {
      var calibrationPath := JoinPath(outputPath, CALIBRATION_DIR);
      action := NoCalibration;
      if quantizationCalibration.Some? {
        var hasJson, hasWeights := false, false;
        if calibrationDir.Directory? {
          var entries := calibrationDir.entries;
          if |entries| == 2 {
            hasJson := AnyEndsWith(entries, JSON_SUFFIX);
            hasWeights := AnyEndsWith(entries, SAFETENSORS_SUFFIX);
          }
        }
        if calibrationDir.Absent? || !(hasJson && hasWeights) {
          action := Recompute;
        } else {
          action := ReuseCached;
        }
      }
      buildInfo := BuildInfo(buildInfo.parallel, buildInfo.numParallelJobs, Some(calibrationPath));
    }

    /** `_build_serial`: builds the shards in order; the first exception ends the build. */
    method BuildSerial(shards: seq<Shard>, target: BuildTarget, engineOk: int -> bool) returns (effects: seq<Effect>, error: Option<Error>)
      ensures RankOutcome(effects, error) == SerialBuild(Settings(), shards, target, engineOk)
    {
      effects, error := [], None;
      var i := 0;
      while i < |shards|
        invariant 0 <= i <= |shards|
        invariant var rest := SerialBuild(Settings(), shards[i..], target, engineOk);
                  SerialBuild(Settings(), shards, target, engineOk) == RankOutcome(effects + rest.effects, rest.error)
      {
        assert shards[i..][0] == shards[i] && shards[i..][1..] == shards[i + 1..];
        var outcome := EngineForRank(Settings(), shards[i], target, false, engineOk(shards[i].rank));
        effects := effects + outcome.effects;
        if outcome.error.Some? {
          return effects, outcome.error;
        }
        i := i + 1;
      }
      assert shards[i..] == [];
    }

    /** The first half of `build`: create the output directory if absent, then quantize when `_qconfig` is truthy. */
    method PrepareOutput(outputPath: string, disk: DiskState) returns (effects: seq<Effect>)
      requires disk.Possible()
      modifies this`buildInfo
      ensures effects == BuildPrelude(outputPath, disk, qconfig, quantizationCalibration)
      ensures buildInfo == if QConfigTruthy(qconfig)
                           then BuildInfo(old(buildInfo).parallel, old(buildInfo).numParallelJobs, Some(CalibrationPath(outputPath)))
                           else old(buildInfo)
      ensures old(Serial()) ==> Serial()
    {
      effects := [];
      if !disk.outputExists {
        effects := effects + [CreateDirectory(outputPath)];
      }
      if QConfigTruthy(qconfig) {
        var action := Quantize(outputPath, disk.calibrationDir);
        if action == Recompute {
          effects := effects + [Calibrate(CalibrationPath(outputPath))];
        }
      }
    }

    /** The dispatch of a validated `build`: the process pool is not modelled, the serial build is. */
    method Dispatch(outputPath: string, target: BuildTarget, engineOk: int -> bool) returns (outcome: BuildOutcome, effects: seq<Effect>)
      ensures UsesParallelBuild(buildInfo) ==> outcome == DispatchedParallel(outputPath) && effects == []
      ensures !UsesParallelBuild(buildInfo) ==>
                var serial := SerialBuild(Settings(), Shards(shardingInfo), target, engineOk);
                effects == serial.effects
                && outcome == if serial.error.Some? then Failed(serial.error.value) else Built(outputPath)
    {
      if UsesParallelBuild(buildInfo) {
        return DispatchedParallel(outputPath), [];
      }
      var error;
      effects, error := BuildSerial(Shards(shardingInfo), target, engineOk);
      outcome := if error.Some? then Failed(error.value) else Built(outputPath);
    }

    /**
     * `build`: creates the output directory if needed, quantizes when `_qconfig`
     * is truthy, validates, then dispatches; the serial build is `SerialBuild` over
     * one shard per rank.
     */
    method Build(outputPath: string, optimizationLevel: Option<int>, names: MetadataNames, disk: DiskState, engineOk: int -> bool)
      returns (outcome: BuildOutcome, effects: seq<Effect>)
      requires disk.Possible()
      modifies this`buildInfo, this`qconfig, this`beamWidth
      ensures buildInfo == if QConfigTruthy(old(qconfig))
                           then BuildInfo(old(buildInfo).parallel, old(buildInfo).numParallelJobs, Some(CalibrationPath(outputPath)))
                           else old(buildInfo)
      ensures qconfig == if old(qconfig).Unset? then DefaultTuple else old(qconfig)
      ensures var prelude := BuildPrelude(outputPath, disk, old(qconfig), quantizationCalibration);
              var err := ProfileError(optimizationProfile, modelConfig.maxPositionEmbeddings);
              && (err.Some? ==> outcome == Failed(err.value) && effects == prelude && beamWidth == old(beamWidth))
              && (err.None? ==> beamWidth == if old(beamWidth) < 1 then 1 else old(beamWidth))
              && (err.None? && UsesParallelBuild(old(buildInfo)) ==> outcome == DispatchedParallel(outputPath) && effects == prelude)
              && (err.None? && !UsesParallelBuild(old(buildInfo)) ==>
                    var serial := SerialBuild(Settings(), Shards(shardingInfo), BuildTarget(outputPath, optimizationLevel, names), engineOk);
                    effects == prelude + serial.effects
                    && outcome == if serial.error.Some? then Failed(serial.error.value) else Built(outputPath))
      ensures old(qconfig).Unset? && shardingInfo.worldSize >= 1 && !UsesParallelBuild(old(buildInfo))
              && ProfileError(optimizationProfile, modelConfig.maxPositionEmbeddings).None? ==>
                outcome == Failed(QConfigNotAQuantMode)
                && effects == BuildPrelude(outputPath, disk, old(qconfig), quantizationCalibration)
      ensures old(Serial()) ==> Serial() && !outcome.DispatchedParallel?
    {
      var target := BuildTarget(outputPath, optimizationLevel, names);
      effects := PrepareOutput(outputPath, disk);
      var valid, _ := Validate();
      if valid.Err? {
        return Failed(valid.error), effects;
      }
      var dispatched;
      outcome, dispatched := Dispatch(outputPath, target, engineOk);
      if old(qconfig).Unset? && shardingInfo.worldSize >= 1 && !UsesParallelBuild(buildInfo) {
        DefaultTupleBuildFails(Settings(), shardingInfo, target, engineOk);
      }
      effects := effects + dispatched;
    }
  }
}
