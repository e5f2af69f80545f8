/**
 * What `TensorRTEngineBuilder` decides for one shard (builder configuration,
 * plugins, weight source, engine file, metadata writes) and what a serial build
 * over all shards writes. The external graph builder is an oracle that says,
 * per rank, whether `build_engine` returned an engine.
 */
module RankBuild {
  import opened Wrappers
  import opened Descriptors
  import opened Naming

  /** The `tensorrt_llm.Mapping` built for one rank. */
  datatype Shard = Shard(worldSize: int, rank: int, gpusPerNode: int, tpSize: int, ppSize: int)

  /** One shard per rank `0 .. world_size - 1`, in rank order, all sharing the sharding degrees. */
  function Shards(info: ShardingInfo): (shards: seq<Shard>)
    ensures |shards| == if info.worldSize > 0 then info.worldSize else 0
    ensures forall i :: 0 <= i < |shards| ==>
              shards[i] == Shard(info.worldSize, i, info.numGpusPerNode, info.tpDegree, info.ppDegree)
  {
    seq(if info.worldSize > 0 then info.worldSize else 0,
        i => Shard(info.worldSize, i, info.numGpusPerNode, info.tpDegree, info.ppDegree))
  }

  /** The builder fields a per-rank build reads. */
  datatype EngineSettings = EngineSettings(
    modelIdOrPath: string,
    config: ModelConfig,
    dtype: string,
    qconfig: QConfig,
    profile: Option<OptimizationProfile>,
    beamWidth: int,
    quantizedPath: Option<string>)

  /** The keyword arguments given to the external `create_builder_config`. */
  datatype BuilderConfig = BuilderConfig(
    name: string,
    precision: string,
    fp8: bool,
    hiddenSize: int,
    numLayers: int,
    maxBatchSize: int,
    tensorParallel: int,
    useRefit: bool,
    quantMode: QuantMode,
    huggingface: ModelConfig,
    hiddenAct: string,
    numKvHeads: Option<int>,
    numHeads: int,
    maxPositionEmbeddings: int,
    maxInputLen: Option<int>,
    maxOutputLen: Option<int>,
    maxNumTokens: Option<int>,
    maxBeamWidth: int,
    stronglyTyped: bool,
    pipelineParallel: int,
    parallelBuild: bool,
    vocabSize: int,
    optLevel: Option<int>)

  /** The keyword arguments given to the model's `prepare_inputs`. */
  datatype InputsRequest = InputsRequest(
    maxBatchSize: int,
    maxInputLen: Option<int>,
    maxSeqLen: int,
    maxNumTokens: Option<int>,
    maxBeamWidth: int,
    useCache: bool)

  /** `config.get("num_key_value_heads", config["num_attention_heads"])` */
  function KvHeads(config: ModelConfig): Option<int> {
    match config.numKeyValueHeads
    case Missing => Some(config.numAttentionHeads)
    case Present(heads) => heads
  }

  /**
   * The builder configuration for one shard. Reading `has_fp8_qdq()` fails unless
   * `_qconfig` holds a QuantMode; that read comes before the profile is touched.
   */
  function CreateBuilderConfig(s: EngineSettings, shard: Shard, isParallel: bool, optLevel: Option<int>): (r: Result<BuilderConfig, Error>)
    ensures r.Ok? <==> s.qconfig.Mode? && s.profile.Some?
    ensures !s.qconfig.Mode? ==> r == Err(QConfigNotAQuantMode)
    ensures s.qconfig.Mode? && s.profile.None? ==> r == Err(ProfileIsNone)
    ensures r.Ok? ==> r.value.fp8 == r.value.stronglyTyped == s.qconfig.mode.HasFp8Qdq()
    ensures r.Ok? ==> r.value.numKvHeads == (if s.config.numKeyValueHeads.Missing? then Some(s.config.numAttentionHeads)
                                             else s.config.numKeyValueHeads.heads)
    ensures r.Ok? ==> && r.value.maxBatchSize == s.profile.value.maxBatchSize
                      && r.value.maxInputLen == s.profile.value.maxPromptLength
                      && r.value.maxOutputLen == s.profile.value.maxOutputLength
                      && r.value.maxNumTokens.None? && !r.value.useRefit
    ensures r.Ok? ==> && r.value.tensorParallel == shard.tpSize && r.value.pipelineParallel == shard.ppSize
                      && r.value.parallelBuild == isParallel && r.value.maxBeamWidth == s.beamWidth
                      && r.value.precision == s.dtype && r.value.name == s.config.modelType
    ensures r.Ok? ==> && r.value.quantMode == s.qconfig.mode && r.value.optLevel == optLevel
                      && r.value.huggingface == s.config && r.value.hiddenSize == s.config.hiddenSize
                      && r.value.numLayers == s.config.numHiddenLayers && r.value.numHeads == s.config.numAttentionHeads
                      && r.value.maxPositionEmbeddings == s.config.maxPositionEmbeddings
                      && r.value.vocabSize == s.config.vocabSize && r.value.hiddenAct == s.config.hiddenAct
  {
    if !s.qconfig.Mode? then Err(QConfigNotAQuantMode)
    else if s.profile.None? then Err(ProfileIsNone)
    else
      var mode := s.qconfig.mode;
      var profile := s.profile.value;
      var config := s.config;
      Ok(BuilderConfig(
        name := config.modelType,
        precision := s.dtype,
        fp8 := mode.HasFp8Qdq(),
        hiddenSize := config.hiddenSize,
        numLayers := config.numHiddenLayers,
        maxBatchSize := profile.maxBatchSize,
        tensorParallel := shard.tpSize,
        useRefit := false,
        quantMode := mode,
        huggingface := config,
        hiddenAct := config.hiddenAct,
        numKvHeads := KvHeads(config),
        numHeads := config.numAttentionHeads,
        maxPositionEmbeddings := config.maxPositionEmbeddings,
        maxInputLen := profile.maxPromptLength,
        maxOutputLen := profile.maxOutputLength,
        maxNumTokens := None,
        maxBeamWidth := s.beamWidth,
        stronglyTyped := mode.HasFp8Qdq(),
        pipelineParallel := shard.ppSize,
        parallelBuild := isParallel,
        vocabSize := config.vocabSize,
        optLevel := optLevel))
  }

  /** The inputs requested from the model: the new-token bound is passed as `max_num_tokens`. */
  function PrepareInputs(s: EngineSettings): (r: Result<InputsRequest, Error>)
    ensures r.Ok? <==> s.profile.Some?
    ensures r.Err? ==> r.error == ProfileIsNone
    ensures r.Ok? ==> && r.value.maxBatchSize == s.profile.value.maxBatchSize
                      && r.value.maxInputLen == s.profile.value.maxPromptLength
                      && r.value.maxNumTokens == s.profile.value.maxNewTokens
                      && r.value.maxSeqLen == s.config.maxPositionEmbeddings
                      && r.value.maxBeamWidth == s.beamWidth && r.value.useCache
  {
    match s.profile
    case None => Err(ProfileIsNone)
    case Some(profile) =>
      Ok(InputsRequest(
        maxBatchSize := profile.maxBatchSize,
        maxInputLen := profile.maxPromptLength,
        maxSeqLen := s.config.maxPositionEmbeddings,
        maxNumTokens := profile.maxNewTokens,
        maxBeamWidth := s.beamWidth,
        useCache := true))
  }

  /** The plugin settings of the network; a plugin given a precision is enabled. */
  datatype PluginConfig = PluginConfig(
    gptAttention: string,
    bertAttention: string,
    contextFmha: bool,
    removeInputPadding: bool,
    gemm: Option<string>,
    nccl: Option<string>,
    enableXqa: bool,
    pagedKvCache: bool)

  /**
   * The plugins of one rank's network: both attention plugins and fused context
   * attention always on at the precision, input padding removed, XQA and paged KV
   * cache off; the GEMM plugin only without fp8, the NCCL plugin only across ranks.
   */
  function Plugins(dtype: string, fp8: bool, worldSize: int): (p: PluginConfig)
    ensures p.gptAttention == p.bertAttention == dtype && p.contextFmha && p.removeInputPadding
    ensures !p.enableXqa && !p.pagedKvCache
    ensures p.gemm.Some? <==> !fp8
    ensures p.gemm.Some? ==> p.gemm.value == dtype
    ensures p.nccl.Some? <==> worldSize > 1
    ensures p.nccl.Some? ==> p.nccl.value == dtype
  {
    PluginConfig(
      gptAttention := dtype,
      bertAttention := dtype,
      contextFmha := true,
      removeInputPadding := true,
      gemm := if fp8 then None else Some(dtype),
      nccl := if worldSize > 1 then Some(dtype) else None,
      enableXqa := false,
      pagedKvCache := false)
  }

  /** The TensorRT-LLM model implementations, keyed by HuggingFace model type. */
  datatype Adapter = LLaMAForCausalLM

  const MODEL_TYPE_TO_TRT_IMPL: map<string, Adapter> :=
    map["llama" := LLaMAForCausalLM, "mistral" := LLaMAForCausalLM]

  /** Where the network's weights are loaded from. */
  datatype WeightSource =
    | FromCheckpoint(adapter: Adapter, checkpoint: string)
    | FromHuggingFace(adapter: Adapter, modelDir: string, dtype: string, mapping: Shard, quantMode: QuantMode)

  /** Everything decided for one rank before the external builder runs. */
  datatype RankPlan = RankPlan(
    engineName: string,
    builderConfig: BuilderConfig,
    plugins: PluginConfig,
    weights: WeightSource,
    inputs: InputsRequest)

  /** The settings under which a rank's plan can be made at all (independent of the rank). */
  predicate PlanSucceeds(s: EngineSettings) {
    s.qconfig.Mode? && s.profile.Some? && s.config.modelType in MODEL_TYPE_TO_TRT_IMPL
  }

  function PlanRank(s: EngineSettings, shard: Shard, isParallel: bool, optLevel: Option<int>): (r: Result<RankPlan, Error>)
    ensures r.Ok? <==> PlanSucceeds(s)
    ensures !s.qconfig.Mode? ==> r == Err(QConfigNotAQuantMode)
    ensures s.qconfig.Mode? && s.profile.None? ==> r == Err(ProfileIsNone)
    ensures s.qconfig.Mode? && s.profile.Some? && s.config.modelType !in MODEL_TYPE_TO_TRT_IMPL ==>
              r == Err(NoAdapterFor(s.config.modelType))
    ensures r.Ok? ==> r.value.engineName == CreateUniqueEngineName(s.config.modelType, s.dtype, shard.rank, shard.tpSize)
    ensures r.Ok? ==> (r.value.plugins.gemm.Some? <==> !s.qconfig.mode.HasFp8Qdq())
    ensures r.Ok? ==> (r.value.plugins.nccl.Some? <==> shard.worldSize > 1)
    ensures r.Ok? ==> (r.value.weights.FromCheckpoint? <==> s.qconfig.mode.HasFp8Qdq() && s.quantizedPath.Some?)
    ensures r.Ok? && r.value.weights.FromCheckpoint? ==> r.value.weights.checkpoint == s.quantizedPath.value
    ensures r.Ok? ==> r.value.builderConfig == CreateBuilderConfig(s, shard, isParallel, optLevel).value
                      && r.value.inputs == PrepareInputs(s).value
    ensures r.Ok? ==> r.value.plugins == Plugins(s.dtype, s.qconfig.mode.HasFp8Qdq(), shard.worldSize)
    ensures r.Ok? && r.value.weights.FromHuggingFace? ==>
              r.value.weights == FromHuggingFace(MODEL_TYPE_TO_TRT_IMPL[s.config.modelType], s.modelIdOrPath, s.dtype, shard, s.qconfig.mode)
  {
    var engineName := CreateUniqueEngineName(s.config.modelType, s.dtype, shard.rank, shard.tpSize);
    var builderConfig :- CreateBuilderConfig(s, shard, isParallel, optLevel);
    var plugins := Plugins(s.dtype, builderConfig.fp8, shard.worldSize);
    if s.config.modelType !in MODEL_TYPE_TO_TRT_IMPL then Err(NoAdapterFor(s.config.modelType))
    else
      var adapter := MODEL_TYPE_TO_TRT_IMPL[s.config.modelType];
      var weights :=
        if builderConfig.fp8 && s.quantizedPath.Some? then FromCheckpoint(adapter, s.quantizedPath.value)
        else FromHuggingFace(adapter, s.modelIdOrPath, s.dtype, shard, s.qconfig.mode);
      var inputs := PrepareInputs(s).value;
      Ok(RankPlan(engineName, builderConfig, plugins, weights, inputs))
  }

  /** `CONFIG_NAME` of huggingface_hub. */
  const CONFIG_NAME := "config.json"

  /** The two optimum-nvidia metadata file names, whose definitions are not part of this model. */
  datatype MetadataNames = MetadataNames(builderConfigFile: string, timingsFile: string)

  /** Where a build writes: the output directory, the optimisation level, the metadata names. */
  datatype BuildTarget = BuildTarget(outputPath: string, optLevel: Option<int>, names: MetadataNames)

  /** Rank 0's writes: the model configuration, the timing cache, the builder configuration. */
  function MetadataWrites(target: BuildTarget): seq<Effect> {
    [ WriteFile(JoinPath(target.outputPath, CONFIG_NAME)),
      WriteFile(JoinPath(target.outputPath, target.names.timingsFile)),
      WriteFile(JoinPath(target.outputPath, target.names.builderConfigFile)) ]
  }

  /** The effects of one rank's build and the exception it ends with, if any. */
  datatype RankOutcome = RankOutcome(effects: seq<Effect>, error: Option<Error>)

  function EngineForRank(s: EngineSettings, shard: Shard, target: BuildTarget, isParallel: bool, engineReturned: bool): (r: RankOutcome)
    ensures !PlanSucceeds(s) ==> r == RankOutcome([], Some(PlanRank(s, shard, isParallel, target.optLevel).error))
    ensures PlanSucceeds(s) ==> r.error == (if engineReturned then None else Some(EngineBuildFailed))
    ensures PlanSucceeds(s) ==> |r.effects| == (if shard.rank == 0 then 3 else 0) + (if engineReturned then 1 else 0)
    ensures PlanSucceeds(s) && shard.rank == 0 ==> r.effects[..3] == MetadataWrites(target)
    ensures PlanSucceeds(s) && engineReturned ==>
              r.effects[|r.effects| - 1]
                == WriteFile(JoinPath(target.outputPath, CreateUniqueEngineName(s.config.modelType, s.dtype, shard.rank, shard.tpSize)))
    ensures PlanSucceeds(s) && shard.rank != 0 && !engineReturned ==> r.effects == []
  {
    match PlanRank(s, shard, isParallel, target.optLevel)
    case Err(e) => RankOutcome([], Some(e))
    case Ok(plan) =>
      var metadata := if shard.rank == 0 then MetadataWrites(target) else [];
      if !engineReturned then RankOutcome(metadata, Some(EngineBuildFailed))
      else RankOutcome(metadata + [WriteFile(JoinPath(target.outputPath, plan.engineName))], None)
  }

  /** `_build_serial`: the ranks in order, stopping at the first exception. */
  function SerialBuild(s: EngineSettings, shards: seq<Shard>, target: BuildTarget, engineOk: int -> bool): RankOutcome
    decreases |shards|
  {
    if shards == [] then RankOutcome([], None)
    else
      var first := EngineForRank(s, shards[0], target, false, engineOk(shards[0].rank));
      if first.error.Some? then first
      else
        var rest := SerialBuild(s, shards[1..], target, engineOk);
        RankOutcome(first.effects + rest.effects, rest.error)
  }

  /** The least rank in `from .. n - 1` whose engine build returns nothing, or `n` if none does. */
  function FirstFailedRank(engineOk: int -> bool, from: int, n: int): (k: int)
    requires from <= n
    ensures from <= k <= n
    ensures forall i :: from <= i < k ==> engineOk(i)
    ensures k < n ==> !engineOk(k)
    decreases n - from
  {
    if from == n then n
    else if !engineOk(from) then from
    else FirstFailedRank(engineOk, from + 1, n)
  }

  /** The engine file written for a rank. */
  function EngineFile(s: EngineSettings, tpDegree: int, target: BuildTarget, rank: int): Effect {
    WriteFile(JoinPath(target.outputPath, CreateUniqueEngineName(s.config.modelType, s.dtype, rank, tpDegree)))
  }

  /** The effects `file(lo), .., file(hi - 1)`, one per rank, in rank order. */
  function RankWrites(file: int -> Effect, lo: int, hi: int): (w: seq<Effect>)
    requires lo <= hi
    decreases hi - lo
    ensures |w| == hi - lo
  {
    if lo == hi then [] else [file(lo)] + RankWrites(file, lo + 1, hi)
  }

  /** Position `i` of the per-rank writes is the write of rank `lo + i`. */
  lemma {:induction false} RankWritesAt(file: int -> Effect, lo: int, hi: int, i: int)
    requires lo <= hi && 0 <= i < hi - lo
    ensures RankWrites(file, lo, hi)[i] == file(lo + i)
    decreases hi - lo
  {
    if i > 0 {
      RankWritesAt(file, lo + 1, hi, i - 1);
    }
  }

  /** The engine file of each rank, as a function of the rank. */
  function EngineFiles(s: EngineSettings, tpDegree: int, target: BuildTarget): int -> Effect {
    rank => EngineFile(s, tpDegree, target, rank)
  }

  /** The engine files of ranks `lo .. hi - 1`, in rank order. */
  function EngineWrites(s: EngineSettings, tpDegree: int, target: BuildTarget, lo: int, hi: int): (w: seq<Effect>)
    requires lo <= hi
    ensures |w| == hi - lo
  {
    RankWrites(EngineFiles(s, tpDegree, target), lo, hi)
  }

  function ShardCount(info: ShardingInfo): nat {
    if info.worldSize > 0 then info.worldSize else 0
  }

  lemma {:induction false} SerialBuildFrom(s: EngineSettings, info: ShardingInfo, target: BuildTarget, engineOk: int -> bool, j: nat)
    requires PlanSucceeds(s)
    requires 1 <= j <= ShardCount(info)
    ensures var n := ShardCount(info);
            var k := FirstFailedRank(engineOk, j, n);
            SerialBuild(s, Shards(info)[j..], target, engineOk)
              == RankOutcome(EngineWrites(s, info.tpDegree, target, j, k), if k < n then Some(EngineBuildFailed) else None)
    decreases ShardCount(info) - j
  {
    var n := ShardCount(info);
    var shards := Shards(info);
    if j < n {
      var shard := shards[j];
      assert shard.rank == j && shard.tpSize == info.tpDegree;
      var suffix := shards[j..];
      assert suffix[0] == shard;
      assert suffix[1..] == shards[j + 1..];
      var first := EngineForRank(s, shard, target, false, engineOk(j));
      var k := FirstFailedRank(engineOk, j, n);
      if engineOk(j) {
        var plan := PlanRank(s, shard, false, target.optLevel).value;
        assert first.effects == [WriteFile(JoinPath(target.outputPath, plan.engineName))];
        assert first.effects == [EngineFile(s, info.tpDegree, target, j)];
        assert first.error.None?;
        SerialBuildFrom(s, info, target, engineOk, j + 1);
        assert k == FirstFailedRank(engineOk, j + 1, n);
      } else {
        assert first == RankOutcome([], Some(EngineBuildFailed));
        assert k == j;
      }
    }
  }

  /**
   * With settings under which every rank can be planned, a serial build writes
   * rank 0's metadata, then the engine files of the ranks in order up to the first
   * rank whose engine build returns nothing, and raises the RuntimeError there.
   */
  lemma SerialBuildClosedForm(s: EngineSettings, info: ShardingInfo, target: BuildTarget, engineOk: int -> bool)
    requires PlanSucceeds(s)
    requires info.worldSize >= 1
    ensures var n := info.worldSize;
            var k := FirstFailedRank(engineOk, 0, n);
            SerialBuild(s, Shards(info), target, engineOk)
              == RankOutcome(MetadataWrites(target) + EngineWrites(s, info.tpDegree, target, 0, k),
                             if k < n then Some(EngineBuildFailed) else None)
  {
    var n := info.worldSize;
    var shards := Shards(info);
    SerialBuildFrom(s, info, target, engineOk, 1);
    var k := FirstFailedRank(engineOk, 0, n);
    if engineOk(0) {
      assert MetadataWrites(target) + [EngineFile(s, info.tpDegree, target, 0)] + EngineWrites(s, info.tpDegree, target, 1, k)
             == MetadataWrites(target) + EngineWrites(s, info.tpDegree, target, 0, k);
    }
  }

  /** When rank 0's engine build returns nothing, the metadata is still written before the error. */
  lemma RankZeroFailureWritesMetadata(s: EngineSettings, info: ShardingInfo, target: BuildTarget, engineOk: int -> bool)
    requires PlanSucceeds(s) && info.worldSize >= 1 && !engineOk(0)
    ensures SerialBuild(s, Shards(info), target, engineOk) == RankOutcome(MetadataWrites(target), Some(EngineBuildFailed))
  {
    SerialBuildClosedForm(s, info, target, engineOk);
  }

  /** When every engine is returned, each rank's engine file is written, after the metadata, and nothing fails. */
  lemma SerialBuildAllSucceed(s: EngineSettings, info: ShardingInfo, target: BuildTarget, engineOk: int -> bool)
    requires PlanSucceeds(s) && info.worldSize >= 1
    requires forall r :: 0 <= r < info.worldSize ==> engineOk(r)
    ensures SerialBuild(s, Shards(info), target, engineOk)
            == RankOutcome(MetadataWrites(target) + EngineWrites(s, info.tpDegree, target, 0, info.worldSize), None)
  {
    SerialBuildClosedForm(s, info, target, engineOk);
  }

  /** When no rank can be planned, the first rank raises the planning error and nothing is written. */
  lemma SerialBuildPlanFailure(s: EngineSettings, shards: seq<Shard>, target: BuildTarget, engineOk: int -> bool)
    requires !PlanSucceeds(s) && |shards| >= 1
    ensures SerialBuild(s, shards, target, engineOk)
            == RankOutcome([], Some(PlanRank(s, shards[0], false, target.optLevel).error))
  {
  }

  /** A build whose `_qconfig` is the default tuple fails on rank 0 with an AttributeError, writing nothing. */
  lemma DefaultTupleBuildFails(s: EngineSettings, info: ShardingInfo, target: BuildTarget, engineOk: int -> bool)
    requires s.qconfig == DefaultTuple && info.worldSize >= 1
    ensures SerialBuild(s, Shards(info), target, engineOk) == RankOutcome([], Some(QConfigNotAQuantMode))
  {
    SerialBuildPlanFailure(s, Shards(info), target, engineOk);
  }

  /** Two ranks write two different engine files. */
  lemma EngineFilesDistinct(s: EngineSettings, tpDegree: int, target: BuildTarget, a: int, b: int)
    requires a != b
    ensures EngineFile(s, tpDegree, target, a) != EngineFile(s, tpDegree, target, b)
  {
    var nameA := CreateUniqueEngineName(s.config.modelType, s.dtype, a, tpDegree);
    var nameB := CreateUniqueEngineName(s.config.modelType, s.dtype, b, tpDegree);
    EngineNamesDistinct(s.config.modelType, s.dtype, tpDegree, a, b);
    if JoinPath(target.outputPath, nameA) == JoinPath(target.outputPath, nameB) {
      JoinPathInjective(target.outputPath, nameA, nameB);
    }
  }

  /** Per-rank writes that differ from rank to rank are pairwise distinct. */
  lemma RankWritesDistinct(file: int -> Effect, lo: int, hi: int)
    requires lo <= hi
    requires forall a, b :: lo <= a < b < hi ==> file(a) != file(b)
    ensures var w := RankWrites(file, lo, hi);
            forall i, j :: 0 <= i < j < |w| ==> w[i] != w[j]
  {
    var w := RankWrites(file, lo, hi);
    forall i, j | 0 <= i < j < |w|
      ensures w[i] != w[j]
    {
      RankWritesAt(file, lo, hi, i);
      RankWritesAt(file, lo, hi, j);
    }
  }

  /** No engine file is written twice in one build. */
  lemma EngineWritesDistinct(s: EngineSettings, tpDegree: int, target: BuildTarget, lo: int, hi: int)
    requires lo <= hi
    ensures var w := EngineWrites(s, tpDegree, target, lo, hi);
            forall i, j :: 0 <= i < j < |w| ==> w[i] != w[j]
  {
    var file := EngineFiles(s, tpDegree, target);
    forall a, b | lo <= a < b < hi
      ensures file(a) != file(b)
    {
      EngineFilesDistinct(s, tpDegree, target, a, b);
    }
    RankWritesDistinct(file, lo, hi);
    assert EngineWrites(s, tpDegree, target, lo, hi) == RankWrites(file, lo, hi);
  }
}
