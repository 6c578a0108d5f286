/** Obtaining a decision runtime and a model: the KieBase fallback at the top of `evaluateDecision`
    and `loadDMNModel`, with its chain of storage locations and its failure wrapping. */
module ModelLoading {
  import opened Wrappers
  import opened JavaText
  import opened Engine

  /** The directory tried, relative to the working directory, when the reference is not itself a
      path to an existing file. */
  const ResourceRoot := "src/main/resources/"

  const NoKieBaseMessage := "No KieBase available. Please ensure module.xml is properly configured in src/main/resources/META-INF/"

  /** Every failure of `loadDMNModel` is rethrown with this prefix in front of the cause's message. */
  const LoadFailurePrefix := "Failed to load DMN model: "

  function LoadFailure(cause: string): string { LoadFailurePrefix + cause }

  /** The container's default KieBase if it has one, otherwise its first named KieBase; a container
      with no KieBase at all yields the configuration error. */
  function SelectKieBase(p: Platform): (r: Result<KieBase>)
    ensures r.Success? ==> (p.defaultBase.Some? && r.value == p.defaultBase.value) ||
                           (p.defaultBase.None? && p.namedBases != [] && r.value == p.namedBases[0])
    ensures r.Failure? <==> p.defaultBase.None? && p.namedBases == []
    ensures r.Failure? ==> r.error == NoKieBaseMessage
  {
    match p.defaultBase
    case Some(base) => Success(base)
    case None =>
      if |p.namedBases| > 0 then Success(p.namedBases[0]) else Failure(NoKieBaseMessage)
  }

  /** The model bytes are taken from the first location that has them, in this order of priority:
      the reference as a filesystem path, the reference under the resource root, the classpath. */
  function ResolveSource(p: Platform, ref: string): (r: Option<Source>)
    ensures r.None? <==> !p.fileExists(ref) && !p.fileExists(ResourceRoot + ref) && !p.onClasspath(ref)
    ensures p.fileExists(ref) ==> r == Some(FileSystem(ref))
    ensures r == Some(FileSystem(ResourceRoot + ref)) <== !p.fileExists(ref) && p.fileExists(ResourceRoot + ref)
    ensures r == Some(ClasspathResource(ref)) <==>
            !p.fileExists(ref) && !p.fileExists(ResourceRoot + ref) && p.onClasspath(ref)
  {
    if p.fileExists(ref) then Some(FileSystem(ref))
    else if p.fileExists(ResourceRoot + ref) then Some(FileSystem(ResourceRoot + ref))
    else if p.onClasspath(ref) then Some(ClasspathResource(ref))
    else None
  }

  /** What `loadDMNModel(runtime, ref)` returns or throws. A null reference fails on its first use;
      a reference found nowhere, a build with errors, a missing runtime and a runtime without models
      each fail with their own cause. A successful load returns the runtime's first model, which does
      not depend on where the bytes were found: the built resource only has to exist and compile. */
  function LoadedModel(p: Platform, runtime: Option<DmnRuntime>, ref: Option<string>): (r: Result<DmnModel>)
    ensures r.Success? <==>
            ref.Some? && ResolveSource(p, ref.value).Some? &&
            !p.build(ResolveSource(p, ref.value).value, ref.value).hasErrors &&
            runtime.Some? && |runtime.value.models| > 0
    ensures r.Success? ==> r.value == runtime.value.models[0]
    ensures r.Failure? ==> StartsWith(r.error, LoadFailurePrefix)
    ensures ref.Some? && ResolveSource(p, ref.value).None? ==>
            r == Failure(LoadFailure("DMN file not found: " + ref.value))
  {
    if ref.None? then Failure(LoadFailure(NullableText(p.nullPointerMessage)))
    else
      match ResolveSource(p, ref.value)
      case None => Failure(LoadFailure("DMN file not found: " + ref.value))
      case Some(source) =>
        var results := p.build(source, ref.value);
        if results.hasErrors then Failure(LoadFailure("DMN compilation errors: " + results.messagesText))
        else if runtime.None? then Failure(LoadFailure(NullableText(p.nullPointerMessage)))
        else if |runtime.value.models| == 0 then Failure(LoadFailure("No DMN models found in file: " + ref.value))
        else Success(runtime.value.models[0])
  }

  /** `loadDMNModel`: the classpath stream is opened first and then replaced by a filesystem stream
      when the direct path, or else the path under the resource root, exists. */
  method LoadModel(p: Platform, runtime: Option<DmnRuntime>, ref: Option<string>) returns (r: Result<DmnModel>)
    ensures r == LoadedModel(p, runtime, ref)
  {
    if ref.None? {
      return Failure(LoadFailure(NullableText(p.nullPointerMessage)));
    }
    var dmnFilePath := ref.value;
    var dmnStream: Option<Source> := None;
    if p.onClasspath(dmnFilePath) {
      dmnStream := Some(ClasspathResource(dmnFilePath));
    }
    var path := dmnFilePath;
    if p.fileExists(path) {
      dmnStream := Some(FileSystem(path));
    } else {
      path := ResourceRoot + dmnFilePath;
      if p.fileExists(path) {
        dmnStream := Some(FileSystem(path));
      }
    }
    if dmnStream.None? {
      return Failure(LoadFailure("DMN file not found: " + dmnFilePath));
    }
    var results := p.build(dmnStream.value, dmnFilePath);
    if results.hasErrors {
      return Failure(LoadFailure("DMN compilation errors: " + results.messagesText));
    }
    if runtime.None? {
      return Failure(LoadFailure(NullableText(p.nullPointerMessage)));
    }
    var models := runtime.value.models;
    if |models| == 0 {
      return Failure(LoadFailure("No DMN models found in file: " + dmnFilePath));
    }
    return Success(models[0]);
  }
}
