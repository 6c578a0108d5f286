# dmn-micro decision evaluation, modelled in Dafny

This project models the decision-evaluation endpoint of dmn-micro. The endpoint takes a request
naming a DMN model file, an optional decision name and a map of input values. It answers with a
boolean outcome and an explanation, or with an error.

The model covers everything the repository decides by itself:

- **Controller.** `DmnController.evaluateDecision` validates the request body and maps the service's
  answer to an HTTP status.
- **Service pipeline.** `DmnService.evaluateDecision` runs these steps in order:
  - chooses a KieBase;
  - loads the model through a chain of storage locations (`loadDMNModel`);
  - copies the inputs into the engine's context;
  - evaluates either one named decision or all decisions;
  - turns engine errors into a single report;
  - selects a decision result and coerces it to a boolean (`processResult`, `convertToBoolean`).
- **Response bean.** `DmnResponse` has four fields, two informative constructors and its setters.

The KIE/DMN engine, the filesystem and the classpath are opaque collaborators. They appear as data
and oracles in the `Engine` module. A `Platform` value collects:

- existence flags for the classpath and the filesystem;
- the builder's verdict on a resource;
- the two engine evaluation functions;
- the `toString` of foreign objects;
- the text of a `NullPointerException`.

The engine's `DMNContext` is the class `Engine.DmnContext`, which the service fills entry by entry.

Modules, one per file:

- `Wrappers`: Option and Result.
- `JavaText`: `String.trim`, `trim().isEmpty()`, ASCII `toLowerCase`, and null in string concatenation.
- `Engine`: the collaborators.
- `Requests`: the `DmnRequest` carrier.
- `Responses`: `DmnResponse`.
- `Coercion`: `convertToBoolean`.
- `ModelLoading`: the KieBase fallback and `loadDMNModel`.
- `Service`: the pipeline.
- `Controller`: the handler.

The imperative parts of the source are methods:

- `LoadModel` reassigns the stream and the path.
- `BuildContext` fills a context object in a loop.
- `AggregateErrors` is the `StringBuilder` loop.
- `ProcessResult` sets `result` and `reason` step by step.
- `EvaluateDecision` runs the whole pipeline.

Each method is proved equal to a specification function (`LoadedModel`, `InputContext`,
`ErrorReport`, `Extract`, `Evaluate`), and the lemmas state the properties of those functions. The
service answers with the value `Responses.Response` (`Ok(result, reason)` or `Err(error)`).
`Response.View` gives the four fields a `DmnResponse` built by the matching constructor holds.

Four behaviours of the code that are easy to misread:

- **Source priority.** An existing filesystem path wins over the same path under
  `src/main/resources/`, which wins over the classpath. The classpath stream is opened first but is
  replaced whenever a file exists (src/main/java/mn/dmn/DmnService.java:91-103).
- **Error report contents.** The error report lists the text of every message of the evaluation
  result, not only the error-severity ones (src/main/java/mn/dmn/DmnService.java:77).
- **Which model is loaded.** The model is the first model of the classpath KieBase's runtime. It
  does not depend on which file was found: the resolved file only has to exist and build without
  errors (src/main/java/mn/dmn/DmnService.java:128-134). `LoadedModel` states this.
- **Named reason.** A named decision whose node the model does not declare keeps the reason
  "Decision evaluated successfully" (src/main/java/mn/dmn/DmnService.java:155-158).

## Model

| member | source | states |
|---|---|---|
| JavaText.TrimSplit | src/main/java/mn/dmn/DmnService.java:194 | every text is its `trim` with only blanks before and after it, and the `trim` itself has no blank at either end |
| JavaText.TrimPadded | src/main/java/mn/dmn/DmnService.java:194 | `trim` of blank padding around a text whose ends are not blank gives back exactly that text; with `TrimSplit`, `trim` yields the unique unpadded core |
| JavaText.BlankIffAllTrimmable | src/main/java/mn/dmn/DmnController.java:27 | `s.trim().isEmpty()` holds exactly when every character of `s` is at or below U+0020 |
| JavaText.LowerTrimCommute | src/main/java/mn/dmn/DmnService.java:194 | lower-casing then trimming, as the source does, equals trimming then lower-casing |
| Coercion.ConvertStringTrimmed | src/main/java/mn/dmn/DmnService.java:193-196 | a String result is true iff its trimmed, lower-cased text is "true", "yes" or "1" |
| Coercion.ConvertStringPadded | src/main/java/mn/dmn/DmnService.java:193-196 | blanks of any length around a String result never change its boolean reading |
| Coercion.ConvertUnpadded | src/main/java/mn/dmn/DmnService.java:193-196 | a String without blank ends is true iff its lower-case form is one of the three words |
| Coercion.ConvertNonStringKinds | src/main/java/mn/dmn/DmnService.java:185-206 | null is false, every Boolean is itself, every Number is true exactly when it is positive, every other object is true |
| Coercion.ConvertFalseWords | src/main/java/mn/dmn/DmnService.java:193-196 | "0", "no" and "y e s" are false |
| Coercion.ConvertTrueWords | src/main/java/mn/dmn/DmnService.java:193-196 | "1", "True" and "YES" are true |
| Coercion.ConvertPaddedTrueWord | src/main/java/mn/dmn/DmnService.java:193-196 | " YES " is true: padding and case are both ignored |
| ModelLoading.SelectKieBase | src/main/java/mn/dmn/DmnService.java:25-38 | the default KieBase if there is one, else the first named one; the "No KieBase available" error exactly when the container has neither |
| ModelLoading.ResolveSource | src/main/java/mn/dmn/DmnService.java:91-103 | the direct path if it exists, else the path under `src/main/resources/`, else the classpath; no source exactly when none of the three has the reference |
| ModelLoading.LoadedModel | src/main/java/mn/dmn/DmnService.java:89-139 | success exactly when the reference is non-null, found, built without errors, and the runtime exists and has models; the result is the runtime's first model; every failure message starts with "Failed to load DMN model: "; a reference found nowhere gives "...DMN file not found: <ref>" |
| ModelLoading.LoadModel | src/main/java/mn/dmn/DmnService.java:89-139 | the step-by-step stream and path reassignment computes `LoadedModel` |
| Engine.DmnContext.constructor | src/main/java/mn/dmn/DmnService.java:57 | a new context is empty |
| Engine.DmnContext.Set | src/main/java/mn/dmn/DmnService.java:60 | binding a name replaces only that name's entry |
| Service.BuildContext | src/main/java/mn/dmn/DmnService.java:57-62 | a null input map gives an empty context; otherwise the context has exactly the input's keys with identical values |
| Service.DispatchBlankEvaluatesAll | src/main/java/mn/dmn/DmnService.java:66-72 | a null name, or one made only of blanks, evaluates all decisions |
| Service.DispatchNamedEvaluatesByName | src/main/java/mn/dmn/DmnService.java:66-68 | a name with any non-blank character is evaluated by name, passed untrimmed |
| Service.DispatchAbsentNames | src/test/java/mn/dmn/DmnServiceTest.java:249-292 | null, "" and "   " evaluate all decisions |
| Service.JoinConcat | src/main/java/mn/dmn/DmnService.java:77 | joining message texts distributes over concatenation of message lists |
| Service.ErrorReportInOrder | src/main/java/mn/dmn/DmnService.java:76-78 | the report is the prefix followed by each message text and "; ", in engine order, with message i between all earlier and all later ones |
| Service.AggregateErrors | src/main/java/mn/dmn/DmnService.java:76-78 | the `StringBuilder` loop produces exactly the error report |
| Service.FindDecision | src/main/java/mn/dmn/DmnService.java:148-151 | finds the first result whose name equals the requested name exactly; none is found only when no result has that name |
| Service.Completed | src/main/java/mn/dmn/DmnService.java:170-178 | a success carries the coercion of the result; " - Result: " and the result's text are appended to the reason exactly when the result is not null |
| Service.SelectNamed | src/main/java/mn/dmn/DmnService.java:144-158 | "Decision not found: <name>" exactly when no result carries the name; otherwise the success built from the first result with that name, whose reason names the decision only when the model declares it |
| Service.Extract | src/main/java/mn/dmn/DmnService.java:141-183 | named: "Decision not found: <name>" when no result has the name, else the first result with that name, with a reason naming it only when the model declares the decision; unnamed: "No decision results found" for no results, else the first result named in the reason |
| Service.ExtractFromReportedResult | src/main/java/mn/dmn/DmnService.java:141-178 | a success is always the coercion of a result the engine reported |
| Service.ProcessResult | src/main/java/mn/dmn/DmnService.java:141-183 | the step-by-step `result`/`reason` updates compute `Extract` |
| Service.EvaluateDecision | src/main/java/mn/dmn/DmnService.java:19-87 | the pipeline computes `Evaluate`: KieBase error first, then "Error evaluating DMN: " for load failures and engine exceptions, the error report when the result has errors, otherwise the extracted result |
| Service.ErrorsDominate | src/main/java/mn/dmn/DmnService.java:75-79 | an evaluation with any error message fails with the report, even when decision results exist, and the report lists every message in engine order |
| Service.MissingModelReported | src/main/java/mn/dmn/DmnService.java:84-86 | a reference found nowhere gives "Error evaluating DMN: Failed to load DMN model: DMN file not found: <ref>", which ends with the reference |
| Service.NullRequestFails | src/main/java/mn/dmn/DmnService.java:49 | a null request fails with an error starting "Error evaluating DMN: " once a KieBase is found |
| Service.BlankNameIsNoName | src/main/java/mn/dmn/DmnService.java:66 | a blank decision name gives the same response as a null one through the whole pipeline |
| Service.EvaluationSucceeds | src/main/java/mn/dmn/DmnService.java:141-178 | an evaluation without error messages succeeds when no name is given and some result was reported, or when a result carries the given name |
| Service.SuccessComesFromReportedResult | src/main/java/mn/dmn/DmnService.java:141-178 | a successful response is the coercion of a decision result the engine reported in an evaluation without errors |
| Responses.Response.View | src/main/java/mn/dmn/DmnResponse.java:21-33 | an outcome response has success, a reason and no error; an error response has no success, result false, no reason and the error |
| Responses.DmnResponse.constructor | src/main/java/mn/dmn/DmnResponse.java:19 | all fields at their defaults: result false, reason null, success false, error null |
| Responses.DmnResponse.FromResult | src/main/java/mn/dmn/DmnResponse.java:21-26 | success true, error null, result and reason as given |
| Responses.DmnResponse.FromError | src/main/java/mn/dmn/DmnResponse.java:28-33 | success false, result false, reason null, error as given |
| Responses.DmnResponse.SetResult | src/main/java/mn/dmn/DmnResponse.java:35-41 | only `result` changes, and `isResult` returns the value set |
| Responses.DmnResponse.SetReason | src/main/java/mn/dmn/DmnResponse.java:43-49 | only `reason` changes, and `getReason` returns the value set |
| Responses.DmnResponse.SetSuccess | src/main/java/mn/dmn/DmnResponse.java:51-57 | only `success` changes, and `isSuccess` returns the value set |
| Responses.DmnResponse.SetError | src/main/java/mn/dmn/DmnResponse.java:59-65 | only `error` changes, and `getError` returns the value set |
| Controller.EvaluateEndpoint | src/main/java/mn/dmn/DmnController.java:18-50 | 400 exactly for invalid requests: "Request body is required" for a null body, "DMN file path is required" for a null or blank file, body check first; a validated request gets the service's response unchanged, 200 when it reports success and 500 otherwise; an exception gives 500 with "Unexpected error: " and its message |
| Controller.ServiceOnlyForValidatedRequests | src/main/java/mn/dmn/DmnController.java:21-34 | the service is consulted only for a validated request, and only on that request |
| Controller.BlankFileRejected | src/test/java/mn/dmn/DmnControllerTest.java:90-123 | an empty or blank model file gets 400 "DMN file path is required" and never reaches model loading |
| Controller.MissingFileIsServerError | src/test/java/mn/dmn/DmnControllerTest.java:125-140 | a non-blank reference found nowhere gives 500 with an error ending with the reference |

## Left out

- The KIE/DMN engine: compiling a resource, `evaluateByName`, `evaluateAll`, the decision-table semantics of sample-decision.dmn and `getDecisionByName` lookups. These are oracles and data in `Engine.Platform`. `FindDecision` assumes the engine returns the first result with the requested name.
- Filesystem and classpath I/O: existence is modelled as boolean oracles. Exceptions while opening an existing file, `InvalidPathException` from `Paths.get`, and exceptions thrown by the builder or by `getKieBase(name)` are not modelled.
- Texts of foreign exceptions: every `NullPointerException` carries the single abstract message `nullPointerMessage`, and the builder's message list is an abstract text. Only the repository's own prefixes are exact.
- `processResult`'s catch ("Error processing result: "): only exceptions from engine accessors or from a result's `toString` reach it, and those are foreign code.
- `Object.toString` of a result that is neither a String nor a Boolean: it is the abstract `show` oracle.
- `Number.doubleValue`: a number is its exact real value, so IEEE rounding is not modelled. A tiny positive `BigDecimal` that rounds to 0.0 would read as true here.
- Locale-sensitive Unicode lower-casing: only ASCII letters are lower-cased.
- Logging to `System.out`, the commented-out runtime fallback and the Java `assert` on the runtime: none changes a result. With a null runtime, loading fails first.
- The `dmnModel == null` branch of `evaluateDecision`: it is dead, because `loadDMNModel` throws instead of returning null.
- The health endpoint and JAX-RS routing, content types and HTTP methods.
- `DmnRequest`'s constructors and accessors: it is a behaviour-free carrier, modelled as a datatype.
- Idempotence of evaluation: the pipeline is a function of the platform and the request, so it holds by construction.
- `DmnResponse` getters: they are functions that read one field each, and the setters' contracts state what they return.
