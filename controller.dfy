/** `DmnController.evaluateDecision`: validate the request body, call the service, and map its
    response to an HTTP status. */
module Controller {
  import opened Wrappers
  import opened JavaText
  import opened Engine
  import opened Requests
  import opened Responses
  import opened ModelLoading
  import opened Service

  const StatusOk := 200
  const StatusBadRequest := 400
  const StatusInternalServerError := 500

  const MissingBodyMessage := "Request body is required"
  const MissingFileMessage := "DMN file path is required"
  const UnexpectedErrorPrefix := "Unexpected error: "

  /** A call of the injected service either returns a response or throws. */
  datatype ServiceReply = Responded(response: Response) | Raised(message: Option<string>)

  /** The status and entity of the HTTP response built by the handler. */
  datatype HttpResponse = HttpResponse(status: int, entity: Response)

  /** The request passes validation: it is present and names a non-blank model file. */
  predicate Validated(request: Option<DmnRequest>)
  {
    request.Some? && request.value.dmnFile.Some? && !IsBlank(request.value.dmnFile.value)
  }

  /** The handler. Invalid requests get 400 with the first failed check's message; a validated request
      gets the service's response unchanged, with 200 when it reports success and 500 otherwise; an
      exception gets 500 with its message. */
  function EvaluateEndpoint(request: Option<DmnRequest>, service: DmnRequest -> ServiceReply): (r: HttpResponse)
    ensures r.status == StatusBadRequest <==> !Validated(request)
    ensures request.None? ==> r == HttpResponse(StatusBadRequest, Err(MissingBodyMessage))
    ensures request.Some? && !Validated(request) ==> r == HttpResponse(StatusBadRequest, Err(MissingFileMessage))
    ensures Validated(request) && service(request.value).Responded? ==>
              r.entity == service(request.value).response &&
              (r.status == StatusOk <==> r.entity.View().success) &&
              (r.status != StatusOk ==> r.status == StatusInternalServerError)
    ensures Validated(request) && service(request.value).Raised? ==>
              r == HttpResponse(StatusInternalServerError,
                                Err(UnexpectedErrorPrefix + NullableText(service(request.value).message)))
  {
    if request.None? then
      HttpResponse(StatusBadRequest, Err(MissingBodyMessage))
    else if request.value.dmnFile.None? || IsBlank(request.value.dmnFile.value) then
      HttpResponse(StatusBadRequest, Err(MissingFileMessage))
    else
      match service(request.value)
      case Raised(message) =>
        HttpResponse(StatusInternalServerError, Err(UnexpectedErrorPrefix + NullableText(message)))
      case Responded(response) =>
        if response.View().success then HttpResponse(StatusOk, response)
        else HttpResponse(StatusInternalServerError, response)
  }

  /** The service is consulted only for a validated request, and only on that request: two services
      that agree on it give the same HTTP response, and for an invalid request any two services do. */
  lemma ServiceOnlyForValidatedRequests(request: Option<DmnRequest>, s1: DmnRequest -> ServiceReply, s2: DmnRequest -> ServiceReply)
    requires !Validated(request) || s1(request.value) == s2(request.value)
    ensures EvaluateEndpoint(request, s1) == EvaluateEndpoint(request, s2)
  {
  }

  /** The handler wired to the service pipeline of this model. */
  function PipelineService(p: Platform): DmnRequest -> ServiceReply
  {
    req => Responded(Evaluate(p, Some(req)))
  }

  /** An empty or blank model reference is rejected with 400 before the pipeline runs, so it can never
      come back as a missing-model error. */
  lemma BlankFileRejected(p: Platform, req: DmnRequest, file: string)
    requires req.dmnFile == Some(file) && AllBlank(file)
    ensures EvaluateEndpoint(Some(req), PipelineService(p)) ==
            HttpResponse(StatusBadRequest, Err(MissingFileMessage))
  {
    BlankIffAllTrimmable(file);
  }

  /** A model reference found nowhere reaches the pipeline and comes back as 500 with an error that
      ends with the reference. */
  lemma MissingFileIsServerError(p: Platform, req: DmnRequest, ref: string, i: nat)
    requires SelectKieBase(p).Success?
    requires req.dmnFile == Some(ref) && i < |ref| && !IsTrimmable(ref[i])
    requires !p.fileExists(ref) && !p.fileExists(ResourceRoot + ref) && !p.onClasspath(ref)
    ensures EvaluateEndpoint(Some(req), PipelineService(p)).status == StatusInternalServerError
    ensures EndsWith(EvaluateEndpoint(Some(req), PipelineService(p)).entity.error, ref)
  {
    BlankIffAllTrimmable(ref);
    MissingModelReported(p, req, ref);
  }
}
