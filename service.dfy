/** `DmnService.evaluateDecision`: obtain a runtime and a model, bind the inputs into a context,
    evaluate one named decision or all of them, report evaluation errors, and turn the selected
    decision result into a boolean outcome with an explanation. */
module Service {
  import opened Wrappers
  import opened JavaText
  import opened Engine
  import opened Requests
  import opened Responses
  import opened Coercion
  import opened ModelLoading

  /** Any exception reaching the top of `evaluateDecision` becomes an error with this prefix. */
  const UnexpectedPrefix := "Error evaluating DMN: "
  const EvaluationErrorsPrefix := "DMN evaluation errors: "
  const DecisionNotFoundPrefix := "Decision not found: "
  const NoResultsMessage := "No decision results found"
  const DefaultReason := "Decision evaluated successfully"
  const ResultSuffix := " - Result: "

  /** A decision name counts as given when it is non-null and not blank after `trim`. */
  predicate HasDecisionName(decisionName: Option<string>)
  {
    decisionName.Some? && !IsBlank(decisionName.value)
  }

  // ---------------------------------------------------------------------------------------------
  // Context building

  /** The entries the evaluation context must hold for the request's input data. */
  function InputContext(inputData: Option<map<string, Value>>): map<string, Value>
  {
    if inputData.None? then map[] else inputData.value
  }

  /** Copies every input entry, key and value unchanged, into a fresh context; a null input map
      gives an empty context. Nothing is validated, dropped or converted. */
  method BuildContext(inputData: Option<map<string, Value>>) returns (context: DmnContext)
    ensures fresh(context)
    ensures inputData.None? ==> context.entries == map[]
    ensures inputData.Some? ==>
              context.entries.Keys == inputData.value.Keys &&
              forall k :: k in context.entries ==> context.entries[k] == inputData.value[k]
    ensures context.entries == InputContext(inputData)
  {
    context := new DmnContext();
    if inputData.Some? {
      var input := inputData.value;
      var pending := input.Keys;
      while pending != {}
        invariant pending <= input.Keys
        invariant context.entries.Keys == input.Keys - pending
        invariant forall k :: k in context.entries ==> context.entries[k] == input[k]
        decreases pending
      {
        var key :| key in pending;
        context.Set(key, input[key]);
        pending := pending - {key};
      }
    }
  }

  // ---------------------------------------------------------------------------------------------
  // Dispatch

  /** A given decision name is evaluated alone, passed to the engine exactly as received (untrimmed);
      otherwise every decision of the model is evaluated. */
  function Dispatch(p: Platform, model: DmnModel, context: map<string, Value>, decisionName: Option<string>): EngineReply
  {
    if HasDecisionName(decisionName) then p.evaluateByName(model, context, decisionName.value)
    else p.evaluateAll(model, context)
  }

  /** A null name, or one made only of characters `trim` strips, takes the evaluate-all path. */
  lemma DispatchBlankEvaluatesAll(p: Platform, model: DmnModel, context: map<string, Value>, decisionName: Option<string>)
    requires decisionName.None? || AllBlank(decisionName.value)
    ensures Dispatch(p, model, context, decisionName) == p.evaluateAll(model, context)
  {
    if decisionName.Some? {
      BlankIffAllTrimmable(decisionName.value);
    }
  }

  /** A name with any character `trim` keeps is evaluated by name, with its padding left on. */
  lemma DispatchNamedEvaluatesByName(p: Platform, model: DmnModel, context: map<string, Value>, name: string, i: nat)
    requires i < |name| && !IsTrimmable(name[i])
    ensures Dispatch(p, model, context, Some(name)) == p.evaluateByName(model, context, name)
  {
    BlankIffAllTrimmable(name);
  }

  /** The absent forms of the name seen in practice, null, empty and spaces only, evaluate all
      decisions. */
  lemma DispatchAbsentNames(p: Platform, model: DmnModel, context: map<string, Value>, name: string)
    requires name == "" || name == "   "
    ensures Dispatch(p, model, context, None) == p.evaluateAll(model, context)
    ensures Dispatch(p, model, context, Some(name)) == p.evaluateAll(model, context)
  {
    assert AllBlank(name);
    DispatchBlankEvaluatesAll(p, model, context, Some(name));
  }

  // ---------------------------------------------------------------------------------------------
  // Error aggregation

  /** Every message text followed by "; ", in engine order. */
  function JoinMessages(messages: seq<Message>): string
  {
    if messages == [] then "" else messages[0].text + "; " + JoinMessages(messages[1..])
  }

  function ErrorReport(messages: seq<Message>): string
  {
    EvaluationErrorsPrefix + JoinMessages(messages)
  }

  /** Joining distributes over concatenation of message lists. */
  lemma {:induction false} JoinConcat(a: seq<Message>, b: seq<Message>)
    ensures JoinMessages(a + b) == JoinMessages(a) + JoinMessages(b)
    decreases |a|
  {
    if a == [] {
      assert a + b == b;
    } else {
      assert (a + b)[1..] == a[1..] + b;
      JoinConcat(a[1..], b);
    }
  }

  /** The report lists the i-th message's text, followed by "; ", right after the texts of all
      earlier messages and before those of all later ones. */
  lemma ErrorReportInOrder(messages: seq<Message>, i: nat)
    requires i < |messages|
    ensures ErrorReport(messages) ==
            EvaluationErrorsPrefix + JoinMessages(messages[..i]) + messages[i].text + "; " + JoinMessages(messages[i + 1..])
  {
    var before, rest := messages[..i], messages[i..];
    assert messages == before + rest;
    JoinConcat(before, rest);
    assert rest[0] == messages[i] && rest[1..] == messages[i + 1..];
    assert JoinMessages(rest) == messages[i].text + "; " + JoinMessages(messages[i + 1..]);
    Regroup(EvaluationErrorsPrefix, JoinMessages(before), messages[i].text, "; ", JoinMessages(messages[i + 1..]));
  }

  lemma Regroup(a: string, b: string, c: string, d: string, e: string)
    ensures a + (b + (c + d + e)) == a + b + c + d + e
  {
  }

  /** The `StringBuilder` loop of `evaluateDecision`. */
  method AggregateErrors(messages: seq<Message>) returns (text: string)
    ensures text == ErrorReport(messages)
  {
    text := EvaluationErrorsPrefix;
    for i := 0 to |messages|
      invariant text == EvaluationErrorsPrefix + JoinMessages(messages[..i])
    {
      assert messages[..i + 1] == messages[..i] + [messages[i]];
      JoinConcat(messages[..i], [messages[i]]);
      assert JoinMessages([messages[i]]) == messages[i].text + "; ";
      text := text + messages[i].text + "; ";
    }
    assert messages[..|messages|] == messages;
  }

  // ---------------------------------------------------------------------------------------------
  // Result extraction

  /** The engine's `getDecisionResultByName`: the first reported result whose name is exactly
      `name` (case-sensitive), if any. */
  function FindDecision(results: seq<DecisionResult>, name: string): (r: Option<nat>)
    ensures r.Some? ==> r.value < |results| && results[r.value].decisionName == name &&
                        forall j :: 0 <= j < r.value ==> results[j].decisionName != name
    ensures r.None? ==> forall j :: 0 <= j < |results| ==> results[j].decisionName != name
  {
    if results == [] then None
    else if results[0].decisionName == name then Some(0)
    else
      match FindDecision(results[1..], name)
      case None => None
      case Some(i) => Some(i + 1)
  }

  function EvaluatedReason(name: string): string
  {
    "Decision '" + name + "' evaluated"
  }

  /** `String.valueOf` of a raw result: a String is itself, a Boolean is "true" or "false", any
      other object is its `toString`. */
  function RenderValue(p: Platform, v: Value): string
  {
    match v
    case Str(s) => s
    case Bool(b) => if b then "true" else "false"
    case _ => p.show(v)
  }

  /** A successful response for a selected raw result: its coercion, and the explanation with the
      result appended exactly when the result is not null. */
  function Completed(p: Platform, v: Value, reason: string): (r: Response)
    ensures r.Ok? && r.result == ConvertToBoolean(v)
    ensures v.Null? ==> r.reason == reason
    ensures !v.Null? ==> r.reason == reason + ResultSuffix + RenderValue(p, v)
  {
    Ok(ConvertToBoolean(v), if v.Null? then reason else reason + ResultSuffix + RenderValue(p, v))
  }

  /** The named branch of `processResult`: the first result reported under `name`, an error naming it
      when there is none; the explanation names the decision only when the model declares it. */
  function SelectNamed(p: Platform, results: seq<DecisionResult>, name: string, model: DmnModel): (r: Response)
    ensures (forall j :: 0 <= j < |results| ==> results[j].decisionName != name) ==>
            r == Err(DecisionNotFoundPrefix + name)
    ensures (exists k :: 0 <= k < |results| && results[k].decisionName == name) ==>
            var j := FindDecision(results, name).value;
            j < |results| && results[j].decisionName == name &&
            (forall i :: 0 <= i < j ==> results[i].decisionName != name) &&
            r == Completed(p, results[j].result, if name in model.decisions then EvaluatedReason(name) else DefaultReason)
  {
    match FindDecision(results, name)
    case None => Err(DecisionNotFoundPrefix + name)
    case Some(j) =>
      Completed(p, results[j].result, if name in model.decisions then EvaluatedReason(name) else DefaultReason)
  }

  /** What `processResult` returns for an evaluation without errors. A given name selects the first
      result reported under that name (`SelectNamed`). Without a name the first reported result is
      taken and named, an error when nothing was reported. */
  function Extract(p: Platform, result: EvaluationResult, decisionName: Option<string>, model: DmnModel): (r: Response)
    ensures HasDecisionName(decisionName) &&
            (forall j :: 0 <= j < |result.decisionResults| ==> result.decisionResults[j].decisionName != decisionName.value) ==>
            r == Err(DecisionNotFoundPrefix + decisionName.value)
    ensures HasDecisionName(decisionName) &&
            (exists k :: 0 <= k < |result.decisionResults| && result.decisionResults[k].decisionName == decisionName.value) ==>
            var j := FindDecision(result.decisionResults, decisionName.value).value;
            j < |result.decisionResults| && result.decisionResults[j].decisionName == decisionName.value &&
            (forall i :: 0 <= i < j ==> result.decisionResults[i].decisionName != decisionName.value) &&
            r == Completed(p, result.decisionResults[j].result,
                           if decisionName.value in model.decisions then EvaluatedReason(decisionName.value) else DefaultReason)
    ensures !HasDecisionName(decisionName) && result.decisionResults == [] ==> r == Err(NoResultsMessage)
    ensures !HasDecisionName(decisionName) && result.decisionResults != [] ==>
            r == Completed(p, result.decisionResults[0].result, EvaluatedReason(result.decisionResults[0].decisionName))
  {
    var results := result.decisionResults;
    if HasDecisionName(decisionName) then SelectNamed(p, results, decisionName.value, model)
    else if results == [] then Err(NoResultsMessage)
    else Completed(p, results[0].result, EvaluatedReason(results[0].decisionName))
  }

  /** A success is always the coercion of a result the engine reported. */
  lemma ExtractFromReportedResult(p: Platform, result: EvaluationResult, decisionName: Option<string>, model: DmnModel)
    returns (j: nat)
    requires Extract(p, result, decisionName, model).Ok?
    ensures j < |result.decisionResults|
    ensures Extract(p, result, decisionName, model).result == ConvertToBoolean(result.decisionResults[j].result)
  {
    if HasDecisionName(decisionName) {
      j := FindDecision(result.decisionResults, decisionName.value).value;
    } else {
      j := 0;
    }
  }

  /** `processResult`: `result` and `reason` are set step by step as in the source. */
  method ProcessResult(p: Platform, dmnResult: EvaluationResult, decisionName: Option<string>, model: DmnModel)
    returns (r: Response)
    ensures r == Extract(p, dmnResult, decisionName, model)
  {
    var result: Value;
    var reason := DefaultReason;
    if HasDecisionName(decisionName) {
      var found := FindDecision(dmnResult.decisionResults, decisionName.value);
      if found.None? {
        return Err(DecisionNotFoundPrefix + decisionName.value);
      }
      result := dmnResult.decisionResults[found.value].result;
      if decisionName.value in model.decisions {
        reason := EvaluatedReason(decisionName.value);
      }
    } else {
      if |dmnResult.decisionResults| > 0 {
        var firstResult := dmnResult.decisionResults[0];
        result := firstResult.result;
        reason := EvaluatedReason(firstResult.decisionName);
      } else {
        return Err(NoResultsMessage);
      }
    }
    var booleanResult := ConvertToBoolean(result);
    if !result.Null? {
      reason := reason + ResultSuffix + RenderValue(p, result);
    }
    return Ok(booleanResult, reason);
  }

  // ---------------------------------------------------------------------------------------------
  // The whole pipeline

  /** What `evaluateDecision` returns for a (possibly null) request. */
  function Evaluate(p: Platform, request: Option<DmnRequest>): (r: Response)
  {
    match SelectKieBase(p)
    case Failure(e) => Err(e)
    case Success(base) =>
      if request.None? then Err(UnexpectedPrefix + NullableText(p.nullPointerMessage))
      else
        var req := request.value;
        match LoadedModel(p, base.runtime, req.dmnFile)
        case Failure(e) => Err(UnexpectedPrefix + e)
        case Success(model) =>
          match Dispatch(p, model, InputContext(req.inputData), req.decisionName)
          case Threw(message) => Err(UnexpectedPrefix + NullableText(message))
          case Returned(result) =>
            if result.HasErrors() then Err(ErrorReport(result.messages))
            else Extract(p, result, req.decisionName, model)
  }

  /** `evaluateDecision`, step by step. */
  method EvaluateDecision(p: Platform, request: Option<DmnRequest>) returns (r: Response)
    ensures r == Evaluate(p, request)
  {
    var kieBase := SelectKieBase(p);
    if kieBase.Failure? {
      return Err(kieBase.error);
    }
    if request.None? {
      return Err(UnexpectedPrefix + NullableText(p.nullPointerMessage));
    }
    var req := request.value;
    var loaded := LoadModel(p, kieBase.value.runtime, req.dmnFile);
    if loaded.Failure? {
      return Err(UnexpectedPrefix + loaded.error);
    }
    var dmnModel := loaded.value;
    var dmnContext := BuildContext(req.inputData);
    var reply: EngineReply;
    if HasDecisionName(req.decisionName) {
      reply := p.evaluateByName(dmnModel, dmnContext.entries, req.decisionName.value);
    } else {
      reply := p.evaluateAll(dmnModel, dmnContext.entries);
    }
    if reply.Threw? {
      return Err(UnexpectedPrefix + NullableText(reply.message));
    }
    var dmnResult := reply.result;
    if dmnResult.HasErrors() {
      var errorMessage := AggregateErrors(dmnResult.messages);
      return Err(errorMessage);
    }
    r := ProcessResult(p, dmnResult, req.decisionName, dmnModel);
  }

  // ---------------------------------------------------------------------------------------------
  // Properties of the pipeline

  /** An evaluation that reports any error-severity message fails with the aggregated report, even
      when it also produced decision results; every message appears in the report, in engine order. */
  lemma ErrorsDominate(p: Platform, req: DmnRequest, base: KieBase, model: DmnModel, result: EvaluationResult, i: nat)
    requires SelectKieBase(p) == Success(base)
    requires LoadedModel(p, base.runtime, req.dmnFile) == Success(model)
    requires Dispatch(p, model, InputContext(req.inputData), req.decisionName) == Returned(result)
    requires result.HasErrors() && i < |result.messages|
    ensures Evaluate(p, Some(req)) == Err(ErrorReport(result.messages))
    ensures ErrorReport(result.messages) ==
            EvaluationErrorsPrefix + JoinMessages(result.messages[..i]) + result.messages[i].text + "; " +
            JoinMessages(result.messages[i + 1..])
  {
    ErrorReportInOrder(result.messages, i);
  }

  /** A reference found at none of the three locations fails with a message that ends with the
      reference itself. */
  lemma MissingModelReported(p: Platform, req: DmnRequest, ref: string)
    requires SelectKieBase(p).Success?
    requires req.dmnFile == Some(ref)
    requires !p.fileExists(ref) && !p.fileExists(ResourceRoot + ref) && !p.onClasspath(ref)
    ensures Evaluate(p, Some(req)) == Err(UnexpectedPrefix + LoadFailurePrefix + "DMN file not found: " + ref)
    ensures EndsWith(Evaluate(p, Some(req)).error, ref)
  {
    var head := UnexpectedPrefix + LoadFailurePrefix + "DMN file not found: ";
    assert UnexpectedPrefix + LoadFailure("DMN file not found: " + ref) == head + ref;
    var e := head + ref;
    assert e[|e| - |ref|..] == ref;
  }

  /** A null request fails with the generic prefix once a KieBase has been found. */
  lemma NullRequestFails(p: Platform)
    requires SelectKieBase(p).Success?
    ensures Evaluate(p, None).Err?
    ensures StartsWith(Evaluate(p, None).error, UnexpectedPrefix)
  {
  }

  /** A blank decision name behaves exactly like a missing one, throughout the pipeline. */
  lemma BlankNameIsNoName(p: Platform, req: DmnRequest, blank: string)
    requires AllBlank(blank)
    ensures Evaluate(p, Some(req.(decisionName := Some(blank)))) == Evaluate(p, Some(req.(decisionName := None)))
  {
    BlankIffAllTrimmable(blank);
    assert !HasDecisionName(Some(blank));
    forall model: DmnModel, context: map<string, Value>
      ensures Dispatch(p, model, context, Some(blank)) == Dispatch(p, model, context, None)
    {
    }
    forall result: EvaluationResult, model: DmnModel
      ensures Extract(p, result, Some(blank), model) == Extract(p, result, None, model)
    {
    }
  }

  /** A successful response is the coercion of a result that an evaluation without errors reported. */
  lemma SuccessComesFromReportedResult(p: Platform, request: Option<DmnRequest>)
    ensures Evaluate(p, request).Ok? ==>
            exists base, model, result, j ::
              SelectKieBase(p) == Success(base) && request.Some? &&
              LoadedModel(p, base.runtime, request.value.dmnFile) == Success(model) &&
              Dispatch(p, model, InputContext(request.value.inputData), request.value.decisionName) == Returned(result) &&
              !result.HasErrors() && 0 <= j < |result.decisionResults| &&
              Evaluate(p, request).result == ConvertToBoolean(result.decisionResults[j].result)
  {
    if Evaluate(p, request).Ok? {
      var base := SelectKieBase(p).value;
      var req := request.value;
      var model := LoadedModel(p, base.runtime, req.dmnFile).value;
      var result := Dispatch(p, model, InputContext(req.inputData), req.decisionName).result;
      assert Evaluate(p, request) == Extract(p, result, req.decisionName, model);
      var j := ExtractFromReportedResult(p, result, req.decisionName, model);
    }
  }

  /** Conversely, an evaluation without error messages succeeds when it has a result to select: the
      named decision's result when a name is given, any result when none is. */
  lemma EvaluationSucceeds(p: Platform, req: DmnRequest, base: KieBase, model: DmnModel, result: EvaluationResult)
    requires SelectKieBase(p) == Success(base)
    requires LoadedModel(p, base.runtime, req.dmnFile) == Success(model)
    requires Dispatch(p, model, InputContext(req.inputData), req.decisionName) == Returned(result)
    requires !result.HasErrors()
    requires (!HasDecisionName(req.decisionName) && result.decisionResults != []) ||
             (HasDecisionName(req.decisionName) &&
              exists k :: 0 <= k < |result.decisionResults| && result.decisionResults[k].decisionName == req.decisionName.value)
    ensures Evaluate(p, Some(req)).Ok?
  {
    assert Evaluate(p, Some(req)) == Extract(p, result, req.decisionName, model);
  }
}
