# optimum-nvidia engine builder and pipeline factory, in Dafny

This project models two parts of optimum-nvidia:

- `TensorRTEngineBuilder`, which turns a HuggingFace model into one TensorRT-LLM engine per rank.
- The `pipeline` factory, which maps a model type and a task to a pipeline class and a model loader.

The model follows the Python code as written, including what happens when an object holds a value its later users cannot handle.

## What is modelled

**Names.** `create_unique_engine_name` and `create_npz_calibration_filename` are modelled together with Python's `str` of an integer (module `Decimal`). Each name can be read back to the rank it encodes, so two ranks never share a file.

**The builder** is a class (`EngineBuilder.TensorRTEngineBuilder`) whose fields are the builder's private attributes. Its fluent setters update those fields in place. Three external queries become method parameters:

- the device's float8 support;
- the state of the output directory;
- the external graph builder's answer per rank (`engineOk`).

**Validation** (`Validate`) works as follows:

- It stores the default quantization descriptor first, even when it then fails.
- It checks the four shape bounds in order against `max_position_embeddings`.
- It defaults the beam width to 1.

The bounds it enforces are `ProfileChecks.Bounds`. `ProfileErrorNoneIff` proves that validation passes exactly when every field lies within its range. Python's behaviour on `None` fields is kept:

- a missing prompt or new-token length makes the sum in the bounds list raise TypeError;
- a missing output length makes the comparison raise TypeError (`NoneCompared(MaxOutputLength)`). No profile stored by `with_generation_profile` reaches this: when both lengths are given, a missing output length is defaulted, and otherwise the sum raises first (`NoneInLengthSum`). Only a profile assigned directly to the attribute can reach it.

Once the bounds pass, prompt plus new tokens always fit the sequence length (`PassingBoundsExcludeTruncation`). So the "truncating max_new_tokens" warning can never be logged. A prompt of 100 and 50 new tokens against a 120-token model is refused with a ValueError on `max_output_length`; it is not truncated (`OverlongDefaultRefused`).

**Quantization.** Without a calibration dataset, `quantize` neither reuses nor recalibrates. With a calibration dataset, it reuses `<output>/calibration` exactly when that path is a directory listing two entries, one ending `.json` and the other `.safetensors` (`ReuseIff`), and recalibrates otherwise. In every case it points `quantized_path` there.

**Build.** `build` runs these steps in order:

1. It creates the output directory if needed.
2. It quantizes when `_qconfig` is truthy.
3. It validates.
4. It builds one shard per rank, serially.

`SerialBuildClosedForm` gives the serial build's effects in closed form: rank 0's three metadata files, then the engine files in rank order up to the first rank whose engine build returns nothing, where the RuntimeError ends the build.

Per rank, `RankBuild.PlanRank` records these decisions:

- the builder configuration;
- the plugin settings (no GEMM plugin under fp8, NCCL only for more than one rank);
- the weight source (the calibration checkpoint only under fp8 QDQ with a quantized path);
- the inputs requested from the model.

Three consequences of the code as written are stated in the contracts:

- When no quantization profile was given, `validate` stores the pair `(QuantMode(0), 0)`. The later `qconfig.has_fp8_qdq()` in `create_builder_config` then raises AttributeError on rank 0, before anything is written. `DefaultTupleBuildFails` proves this, and the `ensures` of `Build` that begins `old(qconfig).Unset? && shardingInfo.worldSize >= 1` states it.
- `enable_parallel_build` builds a three-field `BuildInfo` from two values, so it always raises TypeError and changes nothing. Because that is the only place `parallel` is set, the process-pool branch of `build` cannot be reached from a freshly constructed builder: the constructor establishes `Serial` (no parallel build requested), every method keeps it, and `Build` on a `Serial` builder never dispatches to the pool.
- `prepare_inputs` passes `max_new_tokens` as `max_num_tokens`, while `create_builder_config` passes `None` for it. Both are kept as written.

**Pipelines.** The model has these pieces:

- `SUPPORTED_MODEL_WITH_TASKS` is a nested map.
- `get_target_class_for_model_and_task` keys its first argument into the outer map. It also tests the first argument for emptiness only after the lookup. So a task name passed first reaches `.get` on `None` (`TaskFirstLookupFails`), and only `("llama", "text-generation")` succeeds on the shipped registry (`ShippedRegistryLookup`).
- `pipeline` gets the configuration's `model_type` as a parameter, standing for `AutoConfig`. It records its external loads in order. It raises NotImplementedError for an unknown model type and ValueError for an unknown task. It loads the tokenizer only when none is given, and it loads the model unless it was handed a `TensorRTForCausalLM`.

Two names that come from outside the core are parameters:

- the registry of supported model types and tasks, given to both lookup functions (the shipped one is the constant `Pipelines.SUPPORTED_MODEL_WITH_TASKS`);
- the file names `OPTIMUM_NVIDIA_CONFIG_FILE` and `TENSORRT_TIMINGS_FILE` (`RankBuild.MetadataNames`), whose defining module is not part of this model.

## Model

| member | source | states |
|---|---|---|
| Decimal.NatToString | src/optimum/nvidia/builder/base.py:100 | the decimal text of a rank or degree is non-empty, all digits, and a single digit exactly for values below 10, and starts with `0` only for 0 (no padding) |
| Decimal.IntToString | src/optimum/nvidia/builder/base.py:100 | the text of an integer starts with a minus sign exactly when it is negative |
| Decimal.NatToStringRoundTrip | src/optimum/nvidia/builder/base.py:100 | reading the digits back gives the number (by induction on the number) |
| Decimal.IntToStringRoundTrip | src/optimum/nvidia/builder/base.py:100 | reading back the text of any integer gives that integer |
| Decimal.IntToStringInjective | src/optimum/nvidia/builder/base.py:100 | distinct integers print differently |
| Naming.CreateUniqueEngineName | src/optimum/nvidia/builder/base.py:97-100 | an engine name starts with the model identifier and ends in `.engine` |
| Naming.CreateNpzCalibrationFilename | src/optimum/nvidia/builder/base.py:103-104 | a calibration archive name starts with the identifier and ends in `.npz` |
| Naming.EngineNameRoundTrip | src/optimum/nvidia/builder/base.py:97-100 | the rank can be read back from an engine name given identifier, dtype and degree |
| Naming.NpzNameRoundTrip | src/optimum/nvidia/builder/base.py:103-104 | the rank can be read back from a calibration archive name |
| Naming.EngineNamesDistinct | src/optimum/nvidia/builder/base.py:477-479 | two ranks of one build get different engine names |
| Naming.NpzNamesDistinct | src/optimum/nvidia/builder/base.py:103-104 | two ranks get different calibration archive names |
| Descriptors.QConfigTruthy | src/optimum/nvidia/builder/base.py:409 | Python truthiness of `_qconfig`; decides quantization in `PrepareOutput` and `Build` |
| Descriptors.JoinPath | src/optimum/nvidia/builder/base.py:545-547 | `Path.joinpath` of one component as `dir/name`; characterised by `JoinPathInjective` |
| Descriptors.JoinPathInjective | src/optimum/nvidia/builder/base.py:567 | joining one directory with two different names gives two different paths |
| ProfileChecks.GenerationProfile | src/optimum/nvidia/builder/base.py:230-248 | the profile keeps batch, prompt and new-token values; the output length is kept when given, defaults to prompt + new tokens when both are set, and stays None otherwise |
| ProfileChecks.Bounds | src/optimum/nvidia/builder/base.py:281-292 | the bounds list has four rows, in the order batch size, prompt, new tokens, output length |
| ProfileChecks.BoundError | src/optimum/nvidia/builder/base.py:293-302 | the error of one bound row (None compared, below minimum, above maximum, checked in that order); characterised by `BoundErrorMeansViolated` |
| ProfileChecks.FirstViolation | src/optimum/nvidia/builder/base.py:281-302 | the error of the first row that raises; characterised by `FirstViolationIsFirst` and `FirstViolationNone` |
| ProfileChecks.ProfileError | src/optimum/nvidia/builder/base.py:263-302 | the error `validate` raises for a stored profile; characterised by `ProfileErrorNoneIff` and `ProfileErrorNamesFirstViolated` |
| ProfileChecks.BoundErrorMeansViolated | src/optimum/nvidia/builder/base.py:293-302 | a row raises exactly when its field is outside its range, and the error names that field |
| ProfileChecks.FirstViolationIsFirst | src/optimum/nvidia/builder/base.py:281-302 | the raised error is that of some row all of whose predecessors pass |
| ProfileChecks.FirstViolationNone | src/optimum/nvidia/builder/base.py:281-302 | the loop raises nothing exactly when no row raises |
| ProfileChecks.ProfileErrorNoneIff | src/optimum/nvidia/builder/base.py:270-302 | a stored profile passes validation exactly when all four fields are integers within their ranges |
| ProfileChecks.ProfileErrorNamesFirstViolated | src/optimum/nvidia/builder/base.py:281-302 | a failed check names an out-of-range field, and every field checked before it is in range |
| ProfileChecks.PassingBoundsExcludeTruncation | src/optimum/nvidia/builder/base.py:304-313 | after the bounds pass, prompt + new tokens never exceed the sequence length, so the truncation branch is dead |
| ProfileChecks.DefaultedOutputValidIff | src/optimum/nvidia/builder/base.py:230-237 | with a defaulted output length, validation passes exactly when batch ≥ 1, prompt and new tokens lie in [1, L-1] and their sum is at most L |
| ProfileChecks.OverlongDefaultRefused | src/optimum/nvidia/builder/base.py:299-302 | prompt 100 + 50 new tokens against 120 positions raises on max_output_length (150 > 120) |
| CalibrationCache.CalibrationDecision | src/optimum/nvidia/builder/base.py:334-344 | no calibration exactly when there is no dataset; reuse only of a two-entry directory; characterised exactly by `ReuseIff` and `NoDatasetNoCalibration` |
| CalibrationCache.SuffixesExclusive | src/optimum/nvidia/builder/base.py:339-342 | no file name ends both in `.json` and in `.safetensors` |
| CalibrationCache.ReuseIff | src/optimum/nvidia/builder/base.py:334-344 | with a dataset, cached calibration is reused exactly for a two-entry directory holding one `.json` and one `.safetensors` entry, in either order |
| CalibrationCache.NoDatasetNoCalibration | src/optimum/nvidia/builder/base.py:334 | without a dataset nothing is calibrated, whatever is on disk |
| RankBuild.Shards | src/optimum/nvidia/builder/base.py:392-402 | one shard per rank 0 .. world_size-1 in order, each carrying the sharding degrees; none for a non-positive world size |
| RankBuild.KvHeads | src/optimum/nvidia/builder/base.py:615-617 | `num_key_value_heads` when the key is present (even as None), `num_attention_heads` when it is absent; stated through `CreateBuilderConfig`'s KV-head clause |
| RankBuild.CreateBuilderConfig | src/optimum/nvidia/builder/base.py:590-631 | fails with AttributeError unless `_qconfig` is a QuantMode (checked before the profile); fp8 and strongly-typed both follow the fp8 QDQ bit; KV heads fall back to attention heads only when the key is absent; max_num_tokens is None; quantization mode, optimisation level and the HuggingFace configuration are passed through; hidden size, layer count, attention heads, position limit, vocabulary size and activation are the configuration's; shapes come from the profile and parallel degrees from the shard |
| RankBuild.PrepareInputs | src/optimum/nvidia/builder/base.py:574-588 | fails exactly when no profile is stored; otherwise it requests max_new_tokens as max_num_tokens, the model's position limit as sequence length, and the cache |
| RankBuild.Plugins | src/optimum/nvidia/builder/base.py:492-506 | GPT and BERT attention plugins in the build dtype, context FMHA and input-padding removal on, XQA and paged KV cache off; a GEMM plugin in the build dtype iff not fp8; an NCCL plugin in the build dtype iff world size > 1 |
| RankBuild.PlanRank | src/optimum/nvidia/builder/base.py:474-524 | planning succeeds exactly for a QuantMode, a stored profile and a known model type, with errors in that order; the engine name is the unique rank name; the builder configuration is `CreateBuilderConfig`'s and the inputs `PrepareInputs`'s; the plugins are `Plugins` of the build dtype, the fp8 QDQ bit and the world size; checkpoint weights iff fp8 and a quantized path, otherwise the HuggingFace weights of the model type's TensorRT implementation for this checkpoint, dtype, shard and quantization mode |
| RankBuild.MetadataWrites | src/optimum/nvidia/builder/base.py:544-561 | rank 0's three writes into the output directory, in order; placed first by `EngineForRank` and `SerialBuildClosedForm`, kept on failure by `RankZeroFailureWritesMetadata` |
| RankBuild.EngineForRank | src/optimum/nvidia/builder/base.py:463-567 | a planning error writes nothing; otherwise rank 0 writes its three metadata files first, a returned engine is written last to `<output>/<unique engine name>`, a missing engine raises RuntimeError, and a failing rank other than 0 writes nothing |
| RankBuild.SerialBuild | src/optimum/nvidia/builder/base.py:422-433 | `_build_serial` over the shards, stopping at the first exception; closed form in `SerialBuildClosedForm`, implemented by the loop of `BuildSerial` |
| RankBuild.FirstFailedRank | src/optimum/nvidia/builder/base.py:563-566 | the least rank at or after `from` whose engine build returns nothing, or the rank count if none |
| RankBuild.SerialBuildFrom | src/optimum/nvidia/builder/base.py:430-433 | from rank j ≥ 1 on, the serial build writes the engines of ranks j up to the first failure and raises there |
| RankBuild.SerialBuildClosedForm | src/optimum/nvidia/builder/base.py:422-433 | a serial build writes the metadata, then the engines in rank order up to the first failing rank, and raises RuntimeError iff some rank fails |
| RankBuild.RankZeroFailureWritesMetadata | src/optimum/nvidia/builder/base.py:543-566 | when rank 0 gets no engine, its metadata is still written before the RuntimeError |
| RankBuild.SerialBuildAllSucceed | src/optimum/nvidia/builder/base.py:422-433 | when every engine is returned, the metadata and every rank's engine file are written and nothing fails |
| RankBuild.SerialBuildPlanFailure | src/optimum/nvidia/builder/base.py:474-487 | when no rank can be planned, the first rank raises the planning error and nothing is written |
| RankBuild.DefaultTupleBuildFails | src/optimum/nvidia/builder/base.py:601-606 | with the `(QuantMode(0), 0)` default, a build of at least one rank raises AttributeError at rank 0 and writes nothing |
| RankBuild.RankWritesAt | src/optimum/nvidia/builder/base.py:430-433 | the i-th per-rank write of ranks lo .. hi-1 is that of rank lo + i |
| RankBuild.EngineFilesDistinct | src/optimum/nvidia/builder/base.py:567 | two ranks write to two different engine paths |
| RankBuild.RankWritesDistinct | src/optimum/nvidia/builder/base.py:430-433 | per-rank writes that differ from rank to rank give a sequence without repeats |
| RankBuild.EngineWritesDistinct | src/optimum/nvidia/builder/base.py:567 | no engine file is written twice in one build |
| EngineBuilder.UsesParallelBuild | src/optimum/nvidia/builder/base.py:413 | the pool is chosen only for a parallel build with more than one job; used by `Dispatch` and `Build`, never true for a `Serial` builder |
| EngineBuilder.BuildPrelude | src/optimum/nvidia/builder/base.py:404-410 | the directory creation when absent, then a calibration only for a truthy `_qconfig` whose cache is not reusable; the effects `PrepareOutput` and `Build` ensure |
| EngineBuilder.TensorRTEngineBuilder.constructor | src/optimum/nvidia/builder/base.py:130-149 | dtype from the configuration, serial build (`Serial` holds), no sharding, no profile, no quantization, beam width -1 |
| EngineBuilder.TensorRTEngineBuilder.EnableParallelBuild | src/optimum/nvidia/builder/base.py:151-165 | always raises TypeError and changes no field |
| EngineBuilder.TensorRTEngineBuilder.To | src/optimum/nvidia/builder/base.py:167-177 | the dtype becomes the given one; nothing else changes |
| EngineBuilder.TensorRTEngineBuilder.Shard | src/optimum/nvidia/builder/base.py:179-200 | stores the four sharding degrees as given; nothing else changes |
| EngineBuilder.TensorRTEngineBuilder.WithQuantizationProfile | src/optimum/nvidia/builder/base.py:202-221 | fails with the float8 hardware error iff an fp8 bit is requested without device support, changing nothing; otherwise stores mode and calibration |
| EngineBuilder.TensorRTEngineBuilder.WithGenerationProfile | src/optimum/nvidia/builder/base.py:223-250 | stores the profile with the output length defaulted as `GenerationProfile` states |
| EngineBuilder.TensorRTEngineBuilder.WithSamplingStrategy | src/optimum/nvidia/builder/base.py:252-260 | stores the beam width as given |
| EngineBuilder.TensorRTEngineBuilder.Validate | src/optimum/nvidia/builder/base.py:262-323 | defaults `_qconfig` to the tuple first; raises exactly the first error of the stored profile's checks; on success defaults a beam width below 1 to 1; the warnings logged, never the truncation warning |
| EngineBuilder.TensorRTEngineBuilder.Quantize | src/optimum/nvidia/builder/base.py:325-388 | the calibration action is the cache decision on the calibration path's state; quantized_path becomes `<output>/calibration` and the parallel settings are kept, so `Serial` is preserved |
| EngineBuilder.TensorRTEngineBuilder.BuildSerial | src/optimum/nvidia/builder/base.py:422-433 | the loop's effects and error are those of `SerialBuild` over the shards |
| EngineBuilder.TensorRTEngineBuilder.PrepareOutput | src/optimum/nvidia/builder/base.py:404-410 | creates the output directory when absent, quantizes exactly when `_qconfig` is truthy, and calibrates only when the cache is not reusable; `Serial` is preserved; the disk state must be possible (no calibration path without the output directory) |
| EngineBuilder.TensorRTEngineBuilder.Dispatch | src/optimum/nvidia/builder/base.py:412-419 | a parallel build with more than one job goes to the pool; otherwise the serial build's effects and first error |
| EngineBuilder.TensorRTEngineBuilder.Build | src/optimum/nvidia/builder/base.py:390-420 | directory, quantization, validation, dispatch in that order; a validation error ends the build after the prelude; with no quantization profile, a serial build fails with AttributeError and writes no engine; from a `Serial` builder the pool is never chosen and the builder stays `Serial`; the disk state must be possible |
| Pipelines.GetTargetClassForModelAndTask | src/optimum/nvidia/pipelines/__init__.py:19-32 | succeeds exactly for a non-empty first argument that is an outer key whose map holds the second; empty gives NotImplementedError, a missing outer key AttributeError, a missing inner key NotImplementedError listing the supported keys |
| Pipelines.MakePipeline | src/optimum/nvidia/pipelines/__init__.py:35-91 | succeeds exactly for a registered model type and task; the configuration is loaded first and alone on error; on success the calls are configuration, then the tokenizer iff none was given, then the model by the registered loader iff it is not an engine instance; the registered pipeline class is built from the engine instance as given or the loaded model, and from the given or auto-loaded tokenizer |
| Pipelines.PipelineErrorOrder | src/optimum/nvidia/pipelines/__init__.py:74-78 | an unknown model type raises NotImplementedError before the task is checked; an unknown task raises ValueError |
| Pipelines.ShippedRegistryLookup | src/optimum/nvidia/pipelines/__init__.py:13-32 | on the shipped registry the lookup succeeds only for ("llama", "text-generation") |
| Pipelines.TaskFirstLookupFails | src/optimum/nvidia/pipelines/__init__.py:19-24 | passing the task name first reaches `.get` on None |
| Pipelines.LookupAgreesWithPipeline | src/optimum/nvidia/pipelines/__init__.py:74-84 | with the model type first, the lookup helper and `pipeline` succeed together and agree on the pipeline class |
| Pipelines.ShippedTextGeneration | src/optimum/nvidia/pipelines/__init__.py:13-17 | a llama checkpoint and "text-generation" give a TextGenerationPipeline |

## Left out

- `_build_parallel` and its process pool: concurrency is not modelled. `Dispatch` records only that the pool was chosen. The branch cannot be reached anyway, since `enable_parallel_build` always raises.
- Logging, the `print` in `prepare_inputs`, and the network, plugin and builder objects of TensorRT-LLM: they are external. Only the arguments the builder passes to them are modelled.
- The debug-output and ONNX-export environment flags of `_build_engine_for_rank`: they read the process environment and are not modelled. The debug flag marks hidden tensors as extra network outputs, which changes the built engine. The ONNX flag writes `model.onnx` into the output directory, and that write is not among the recorded effects.
- `_from_pretrained` and `_serialize_engine`: the first is a constructor wrapper and the second a file write, modelled as a `WriteFile` effect.
- Reading and writing files, `os.listdir`, `Path.exists` and `mkdir`: they are parameters (`DiskState`, `PathState`) and effects. The contents of the written files are not modelled.
- The calibration itself (model loading, device memory budgets in floating point, the calibrator): it is external and is modelled as one `Calibrate` effect.
- The configuration mapping's own failures (a missing key other than `num_key_value_heads`): `ModelConfig` holds every key the builder reads.
- `AutoConfig`, `AutoTokenizer` and the model loaders: they are external. `pipeline` gets the configuration's `model_type` as a parameter, and `**kwargs` are not modelled.
- EngineBuilder.TensorRTEngineBuilder.Quantize: a calibration dataset object that is present but falsy is treated as present.
- EngineBuilder.TensorRTEngineBuilder.WithQuantizationProfile: the QuantMode bit set is reduced to the two fp8 bits plus "some other bit set".
- The definitions of `OPTIMUM_NVIDIA_CONFIG_FILE` and `TENSORRT_TIMINGS_FILE` are not part of this model. They are parameters.
- Integers are unbounded, as they are in Python.
- Descriptors.JoinPath: paths are plain strings joined with `/`; the normalisation `Path.joinpath` performs (a trailing slash on the directory, `.` or `..` components) is not modelled.
- Pipelines.GetTargetClassForModelAndTask: the error lists the supported architectures as a set; the insertion order in which the message prints them is not modelled.
