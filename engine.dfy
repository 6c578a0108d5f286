/** The decision engine, the filesystem and the classpath, which the service drives but does not
    implement. They appear here only as data (what a call returned) and as oracles (functions the
    pipeline is given), so that every decision the service itself takes can be stated about them. */
module Engine {
  import opened Wrappers

  /** A raw value as the engine hands it over: Java `null`, a `Boolean`, a `String`, a `Number`
      (its numeric value) or any other object (identified by an opaque handle). */
  datatype Value = Null | Bool(b: bool) | Str(s: string) | Num(x: real) | Other(handle: nat)

  /** A diagnostic message of an evaluation, with its severity reduced to "is an error". */
  datatype Message = Message(text: string, isError: bool)

  /** One entry of the engine's decision results: the decision's name and its raw result. */
  datatype DecisionResult = DecisionResult(decisionName: string, result: Value)

  /** What one `evaluateByName` or `evaluateAll` call returns, both lists in engine order. */
  datatype EvaluationResult = EvaluationResult(messages: seq<Message>, decisionResults: seq<DecisionResult>)
  {
    /** The engine's `hasErrors`: some message has error severity. */
    predicate HasErrors() { exists i :: 0 <= i < |messages| && messages[i].isError }
  }

  /** A compiled decision model; only the names of its decision nodes matter to the service. */
  datatype DmnModel = DmnModel(name: string, decisions: set<string>)

  /** The decision runtime of a KieBase, with the models it knows (a null list counts as empty). */
  datatype DmnRuntime = DmnRuntime(models: seq<DmnModel>)

  /** A KieBase; `runtime` is None when no decision runtime can be obtained from it. */
  datatype KieBase = KieBase(name: string, runtime: Option<DmnRuntime>)

  /** Where the bytes of a model were read from. */
  datatype Source = ClasspathResource(name: string) | FileSystem(path: string)

  /** The builder's verdict on a submitted resource, and the printed list of its messages. */
  datatype BuildResults = BuildResults(hasErrors: bool, messagesText: string)

  /** An engine evaluation call either returns or throws an exception with a (nullable) message. */
  datatype EngineReply = Returned(result: EvaluationResult) | Threw(message: Option<string>)

  /** Everything outside the repository that one request touches. */
  datatype Platform = Platform(
    // the classpath container's default KieBase; None when asking for it throws
    defaultBase: Option<KieBase>,
    // the container's other KieBases, in the container's iteration order
    namedBases: seq<KieBase>,
    // `getResourceAsStream(ref) != null`
    onClasspath: string -> bool,
    // `Files.exists(Paths.get(path))`
    fileExists: string -> bool,
    // build a resource read from a source, given the source path recorded on it
    build: (Source, string) -> BuildResults,
    evaluateByName: (DmnModel, map<string, Value>, string) -> EngineReply,
    evaluateAll: (DmnModel, map<string, Value>) -> EngineReply,
    // `Object.toString` of a result that is neither a String nor a Boolean
    show: Value -> string,
    // the message of a NullPointerException raised on a null reference
    nullPointerMessage: Option<string>)

  /** The engine's evaluation context, which the service fills entry by entry. */
  class DmnContext {
    var entries: map<string, Value>

    /** `newContext()`: an empty context. */
    constructor ()
      ensures entries == map[]
    {
      entries := map[];
    }

    /** `set(name, value)` binds one input, replacing an earlier binding of the same name. */
    method Set(name: string, value: Value)
      modifies this
      ensures entries == old(entries)[name := value]
    {
      entries := entries[name := value];
    }
  }
}
