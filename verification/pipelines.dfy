/**
 * The pipeline factory: a registry from model type to task to the pipeline class
 * and model loader, the lookup helper `get_target_class_for_model_and_task`, and
 * `pipeline`, which resolves the pair and wires a model to a tokenizer. Loading
 * a configuration, a tokenizer or a model is an external call, recorded in order.
 */
module Pipelines {
  import opened Wrappers

  datatype PipelineClass = TextGenerationPipeline
  datatype ModelLoader = AutoModelForCausalLM

  /** The pair a registry entry holds. */
  datatype Target = Target(pipelineClass: PipelineClass, modelLoader: ModelLoader)

  type Registry = map<string, map<string, Target>>

  const SUPPORTED_MODEL_WITH_TASKS: Registry :=
    map["llama" := map["text-generation" := Target(TextGenerationPipeline, AutoModelForCausalLM)]]

  /**
   * The exceptions of the factory, with the Python exception kind each stands for.
   * The message of `ArchitectureNotSupported` lists the supported architectures in
   * the registry's insertion order; the model keeps only which ones they are.
   */
  datatype PipelineError =
    | TaskNotSupportedYet(task: string)                                              // NotImplementedError
    | ArchitectureNotSupported(architecture: string, task: string, supported: set<string>)  // NotImplementedError
    | GetOnNone                                                                      // AttributeError: None.get
    | ModelTypeNotSupported(modelType: string)                                       // NotImplementedError
    | TaskNotSupportedFor(task: string, modelType: string)                           // ValueError

  predicate IsNotImplementedError(e: PipelineError) {
    e.TaskNotSupportedYet? || e.ArchitectureNotSupported? || e.ModelTypeNotSupported?
  }

  /**
   * `get_target_class_for_model_and_task(task, architecture)`: the first argument
   * is the OUTER registry key and the second the inner one; the empty-string test
   * is on `task` itself, so a missing outer key reaches `.get` on None.
   */
  function GetTargetClassForModelAndTask(registry: Registry, task: string, architecture: string): (r: Result<Target, PipelineError>)
    ensures r.Ok? <==> task != "" && task in registry && architecture in registry[task]
    ensures r.Ok? ==> r.value == registry[task][architecture]
    ensures task == "" ==> r == Err(TaskNotSupportedYet(task))
    ensures task != "" && task in registry && architecture !in registry[task] ==>
              r == Err(ArchitectureNotSupported(architecture, task, registry[task].Keys))
    ensures task != "" && task !in registry ==> r == Err(GetOnNone)
  {
    var entry := if task in registry then Some(registry[task]) else None;
    if task == "" then Err(TaskNotSupportedYet(task))
    else if entry.None? then Err(GetOnNone)
    else if architecture !in entry.value then Err(ArchitectureNotSupported(architecture, task, entry.value.Keys))
    else Ok(entry.value[architecture])
  }

  /** What the caller passes as `model_or_path`. */
  datatype ModelRef = ModelPath(path: string) | EngineInstance(engine: string) | OtherModule(name: string)

  /** What the caller passes as `tokenizer` when it is not None. */
  datatype TokenizerArg = TokenizerName(name: string) | TokenizerObject(handle: string)

  datatype Tokenizer = Supplied(arg: TokenizerArg) | AutoLoaded(source: ModelRef)
  datatype Model = AsGiven(ref: ModelRef) | LoadedBy(loader: ModelLoader, source: ModelRef)
  datatype PipelineInstance = PipelineInstance(pipelineClass: PipelineClass, model: Model, tokenizer: Tokenizer)

  /** The external loading calls `pipeline` makes. */
  datatype ExternalCall = LoadConfig(source: ModelRef) | LoadTokenizer(source: ModelRef) | LoadModel(loader: ModelLoader, source: ModelRef)

  datatype PipelineRun = PipelineRun(calls: seq<ExternalCall>, result: Result<PipelineInstance, PipelineError>)

  /**
   * `pipeline(task, model_or_path, tokenizer)`. `modelType` is the `model_type`
   * of the configuration that `AutoConfig` loads for `model_or_path`.
   */
  function MakePipeline(registry: Registry, task: string, modelOrPath: ModelRef, tokenizer: Option<TokenizerArg>, modelType: string): (run: PipelineRun)
    ensures run.result.Ok? <==> modelType in registry && task in registry[modelType]
    ensures modelType !in registry ==> run.result == Err(ModelTypeNotSupported(modelType))
    ensures modelType in registry && task !in registry[modelType] ==> run.result == Err(TaskNotSupportedFor(task, modelType))
    ensures run.result.Err? ==> run.calls == [LoadConfig(modelOrPath)]
    ensures run.result.Ok? ==>
              && run.result.value.pipelineClass == registry[modelType][task].pipelineClass
              && (run.result.value.model.LoadedBy? <==> !modelOrPath.EngineInstance?)
              && (run.result.value.model.LoadedBy? ==> run.result.value.model.loader == registry[modelType][task].modelLoader)
              && (run.result.value.tokenizer.AutoLoaded? <==> tokenizer.None?)
    ensures |run.calls| >= 1 && run.calls[0] == LoadConfig(modelOrPath)
    ensures run.result.Ok? ==> (LoadTokenizer(modelOrPath) in run.calls <==> tokenizer.None?)
    ensures run.result.Ok? ==>
              (LoadModel(registry[modelType][task].modelLoader, modelOrPath) in run.calls <==> !modelOrPath.EngineInstance?)
    ensures forall c | c in run.calls :: c.source == modelOrPath
    ensures run.result.Ok? ==>
              var target := registry[modelType][task];
              && run.calls == [LoadConfig(modelOrPath)]
                              + (if tokenizer.None? then [LoadTokenizer(modelOrPath)] else [])
                              + (if modelOrPath.EngineInstance? then [] else [LoadModel(target.modelLoader, modelOrPath)])
              && run.result.value == PipelineInstance(
                   target.pipelineClass,
                   if modelOrPath.EngineInstance? then AsGiven(modelOrPath) else LoadedBy(target.modelLoader, modelOrPath),
                   if tokenizer.None? then AutoLoaded(modelOrPath) else Supplied(tokenizer.value))
  {
    var calls := [LoadConfig(modelOrPath)];
    if modelType !in registry then PipelineRun(calls, Err(ModelTypeNotSupported(modelType)))
    else if task !in registry[modelType] then PipelineRun(calls, Err(TaskNotSupportedFor(task, modelType)))
    else
      var loadedTokenizer := if tokenizer.None? then AutoLoaded(modelOrPath) else Supplied(tokenizer.value);
      var calls := calls + if tokenizer.None? then [LoadTokenizer(modelOrPath)] else [];
      var target := registry[modelType][task];
      var model := if !modelOrPath.EngineInstance? then LoadedBy(target.modelLoader, modelOrPath) else AsGiven(modelOrPath);
      var calls := calls + if !modelOrPath.EngineInstance? then [LoadModel(target.modelLoader, modelOrPath)] else [];
      PipelineRun(calls, Ok(PipelineInstance(target.pipelineClass, model, loadedTokenizer)))
  }

  /** Both registry errors of `pipeline`: an unknown model type wins over an unknown task, and is NotImplementedError. */
  lemma PipelineErrorOrder(registry: Registry, task: string, modelOrPath: ModelRef, tokenizer: Option<TokenizerArg>, modelType: string)
    ensures var run := MakePipeline(registry, task, modelOrPath, tokenizer, modelType);
            && (modelType !in registry ==> IsNotImplementedError(run.result.error))
            && (modelType in registry && task !in registry[modelType] ==> run.result.Err? && !IsNotImplementedError(run.result.error))
  {
  }

  /** With the shipped registry, the lookup helper succeeds only for the first argument "llama" and the second "text-generation". */
  lemma ShippedRegistryLookup(task: string, architecture: string)
    ensures GetTargetClassForModelAndTask(SUPPORTED_MODEL_WITH_TASKS, task, architecture).Ok?
            <==> task == "llama" && architecture == "text-generation"
  {
  }

  /** Calling the lookup helper with a task name first, as its parameter names suggest, fails with AttributeError. */
  lemma TaskFirstLookupFails()
    ensures GetTargetClassForModelAndTask(SUPPORTED_MODEL_WITH_TASKS, "text-generation", "llama") == Err(GetOnNone)
  {
  }

  /**
   * The lookup helper and `pipeline` resolve the same pair when the helper is given
   * the model type first: they agree on success and on the class pair returned.
   */
  lemma LookupAgreesWithPipeline(registry: Registry, task: string, modelOrPath: ModelRef, tokenizer: Option<TokenizerArg>, modelType: string)
    requires modelType != ""
    ensures var run := MakePipeline(registry, task, modelOrPath, tokenizer, modelType);
            var lookup := GetTargetClassForModelAndTask(registry, modelType, task);
            && (run.result.Ok? <==> lookup.Ok?)
            && (lookup.Ok? ==> run.result.value.pipelineClass == lookup.value.pipelineClass)
  {
  }

  /** With the shipped registry, "text-generation" on a llama checkpoint gives a text-generation pipeline. */
  lemma ShippedTextGeneration(modelOrPath: ModelRef, tokenizer: Option<TokenizerArg>)
    ensures var run := MakePipeline(SUPPORTED_MODEL_WITH_TASKS, "text-generation", modelOrPath, tokenizer, "llama");
            run.result.Ok? && run.result.value.pipelineClass == TextGenerationPipeline
  {
  }
}
