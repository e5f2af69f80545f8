/**
 * The value records a TensorRTEngineBuilder holds (build, shape, sharding and
 * quantization descriptors, the HuggingFace model configuration), the errors its
 * operations raise, and the file-system effects a build performs.
 */
module Descriptors {
  import opened Wrappers

  /** Whether to build the shards in a process pool, and where calibration artifacts live. */
  datatype BuildInfo = BuildInfo(parallel: bool, numParallelJobs: int, quantizedPath: Option<string>)

  const SERIAL_BUILD := BuildInfo(false, 1, None)

  /** Shape bounds the engine is specialised for; the last three may be None. */
  datatype OptimizationProfile = OptimizationProfile(
    maxBatchSize: int,
    maxPromptLength: Option<int>,
    maxNewTokens: Option<int>,
    maxOutputLength: Option<int>)

  datatype ShardingInfo = ShardingInfo(tpDegree: int, ppDegree: int, worldSize: int, numGpusPerNode: int)

  const NO_SHARDING := ShardingInfo(1, 1, 1, 1)

  /**
   * TensorRT-LLM's QuantMode bit set, seen through what the builder asks of it:
   * the fp8 QDQ bit, the fp8 KV-cache bit, and whether any other bit is set.
   */
  datatype QuantMode = QuantMode(fp8Qdq: bool, fp8KvCache: bool, otherBits: bool) {
    predicate HasFp8Qdq() { fp8Qdq }
    predicate HasFp8KvCache() { fp8KvCache }
    /** Python truthiness of the flag value: some bit is set. */
    predicate IsNonZero() { fp8Qdq || fp8KvCache || otherBits }
  }

  /**
   * What `_qconfig` can hold: nothing yet, a QuantMode given by the user, or the
   * pair `(QuantMode(0), 0)` that validation stores when nothing was given.
   */
  datatype QConfig = Unset | Mode(mode: QuantMode) | DefaultTuple

  /** Python truthiness of `_qconfig`: None is false, a QuantMode by its bits, a non-empty tuple true. */
  predicate QConfigTruthy(q: QConfig) {
    match q
    case Unset => false
    case Mode(m) => m.IsNonZero()
    case DefaultTuple => true
  }

  /** A calibration dataset handle; its contents belong to the external calibrator. */
  datatype CalibrationSet = CalibrationSet(name: string)

  /** The `num_key_value_heads` entry of a configuration mapping: absent, or present (possibly null). */
  datatype KvHeadsEntry = Missing | Present(heads: Option<int>)

  /** The entries of the HuggingFace configuration mapping that the builder reads. */
  datatype ModelConfig = ModelConfig(
    modelType: string,
    torchDtype: string,
    hiddenSize: int,
    numHiddenLayers: int,
    numAttentionHeads: int,
    numKeyValueHeads: KvHeadsEntry,
    maxPositionEmbeddings: int,
    vocabSize: int,
    hiddenAct: string)

  /** The optimization-profile fields, in the order validation checks them. */
  datatype Field = MaxBatchSize | MaxPromptLength | MaxNewTokens | MaxOutputLength

  function FieldOrder(f: Field): nat {
    match f
    case MaxBatchSize => 0
    case MaxPromptLength => 1
    case MaxNewTokens => 2
    case MaxOutputLength => 3
  }

  /** The exceptions raised by the builder, each with the Python exception kind it stands for. */
  datatype Error =
    | BuildInfoArity                                    // TypeError: BuildInfo built from two values
    | UnsupportedFloat8                                 // UnsupportedHardwareFeature.float8()
    | NoOptimizationProfile                             // ValueError
    | NoneInLengthSum                                   // TypeError: None + int
    | NoneCompared(field: Field)                        // TypeError: None < int
    | BelowMinimum(field: Field, value: int, min: int)  // ValueError: "Needs to be >= min"
    | AboveMaximum(field: Field, value: int, max: int)  // ValueError: "Needs to be <= max"
    | QConfigNotAQuantMode                              // AttributeError: has_fp8_qdq on None or a tuple
    | ProfileIsNone                                     // AttributeError: field of None
    | NoAdapterFor(modelType: string)                   // KeyError in the model-type table
    | EngineBuildFailed                                 // RuntimeError: no engine returned

  /** Warnings logged by validation. */
  datatype Warning = QuantizationDefaulted | TruncatingNewTokens(newMaxNewTokens: int) | GreedySearchDefaulted

  /** An effect on the file system, in the order a build performs them. */
  datatype Effect = CreateDirectory(dir: string) | Calibrate(dir: string) | WriteFile(path: string)

  /** `Path.joinpath` for one relative component. */
  function JoinPath(dir: string, name: string): string {
    dir + "/" + name
  }

  lemma JoinPathInjective(dir: string, a: string, b: string)
    requires JoinPath(dir, a) == JoinPath(dir, b)
    ensures a == b
  {
    assert a == JoinPath(dir, a)[|dir| + 1..];
    assert b == JoinPath(dir, b)[|dir| + 1..];
  }
}
