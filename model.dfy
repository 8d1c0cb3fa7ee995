/** Value types shared by the orchestrator's components: tenant records, the service's tagged
    result, the exceptions that cross component boundaries, and the invocation event and
    response that the proxy exchanges with a tenant function. */
module Model {

  /** The HTTP status codes the endpoints answer with. */
  const Ok: int := 200
  const BadRequest: int := 400
  const NotFound: int := 404
  const InternalServerError: int := 500

  /** A point in time (LocalDateTime / Instant), as an abstract count of milliseconds. */
  type Time = int

  datatype Option<+T> = None | Some(value: T)

  /** How a call finished: normally with a value, or by throwing. */
  datatype Completion<+T> = Normal(value: T) | Abrupt(exception: Exception)

  /** The exceptions the core throws or catches. The first three are raised by the
      function-as-a-service client; the others by the handler and the JSON reader. */
  datatype Exception =
    | ResourceConflictException
    | ResourceNotFoundException
    | LambdaException
    | IllegalArgumentException
    | RuntimeException
    | IllegalStateException
    | JsonProcessingException

  /** The lifecycle state of a tenant application. */
  datatype NodeAppStatus = DEPLOYED | ACTIVE | INACTIVE | REMOVED | ERROR

  /** One registry record. */
  datatype ApplicationInfo = ApplicationInfo(
    name: string,
    status: NodeAppStatus,
    createdAt: Time,
    updatedAt: Time)

  /** The projection of a record that the REST endpoints return. */
  datatype AppControllerResponse = AppControllerResponse(name: string, status: NodeAppStatus)

  datatype AppServiceResponseStatus = NOT_FOUND | CONCURRENT_UPDATE | SUCCESS | UNKNOWN_ERROR

  /** The orchestration service's tagged result. */
  datatype AppServiceResponse = AppServiceResponse(
    status: AppServiceResponseStatus,
    applicationInfo: Option<ApplicationInfo>)

  /** A response built from a status alone, as the constructor's default argument does. */
  function StatusOnly(status: AppServiceResponseStatus): (r: AppServiceResponse)
    ensures r.status == status && r.applicationInfo == None
  {
    AppServiceResponse(status, None)
  }

  /** toAppServiceResponse: a missing record is NOT_FOUND, a present one SUCCESS carrying it. */
  function ToAppServiceResponse(info: Option<ApplicationInfo>): (r: AppServiceResponse)
    ensures r.applicationInfo == info
    ensures r.status == NOT_FOUND <==> info.None?
    ensures r.status == SUCCESS <==> info.Some?
    ensures r.applicationInfo.Some? <==> r.status == SUCCESS
  {
    match info
    case None => StatusOnly(NOT_FOUND)
    case Some(app) => AppServiceResponse(SUCCESS, Some(app))
  }

  /** toAppControllerResponse applied under `?.`: the name and status of the record, if any. */
  function ToAppControllerResponse(info: Option<ApplicationInfo>): (r: Option<AppControllerResponse>)
    ensures r.Some? <==> info.Some?
    ensures r.Some? ==> r.value.name == info.value.name && r.value.status == info.value.status
  {
    match info
    case None => None
    case Some(app) => Some(AppControllerResponse(app.name, app.status))
  }

  /** The event handed to a tenant function: the request, flattened to single values. */
  datatype LambdaEvent = LambdaEvent(
    path: string,
    httpMethod: string,
    queryStringParameters: Option<map<string, Option<string>>>,
    headers: map<string, Option<string>>,
    body: Option<string>)

  /** No two entries share a key. */
  predicate DistinctKeys(entries: seq<(string, string)>)
  {
    forall i, j :: 0 <= i < j < |entries| ==> entries[i].0 != entries[j].0
  }

  /** A Map<String, String> as the JSON reader builds it: its entries in iteration order, each
      key once (a key repeated in the JSON text keeps only its last value). */
  type HeaderEntries = entries: seq<(string, string)> | DistinctKeys(entries) witness []

  /** The response object a tenant function is expected to return. */
  datatype ApiGatewayProxyResponse = ApiGatewayProxyResponse(
    statusCode: int,
    headers: Option<HeaderEntries>,
    body: Option<string>)

  /** The text a tenant function returned: either JSON for an ApiGatewayProxyResponse, or
      text the JSON reader cannot turn into one. */
  datatype ResultText = ProxyResponseJson(response: ApiGatewayProxyResponse) | UnreadableText
}
