/** The REST endpoints under /apps (AppController): each calls the service once and maps the
    tagged result to an HTTP status, with the record's name and status as the body on success.
    An exception from the service is left to the web framework, which answers 500. */
module Endpoints {
  import opened Model
  import opened Repository
  import opened Handler
  import opened Service

  /** A ResponseEntity<AppControllerResponse>: status code and optional body. */
  datatype AppEntity = AppEntity(statusCode: int, body: Option<AppControllerResponse>)

  /** The table of status, activate, deactivate and remove: NOT_FOUND is 404, SUCCESS is 200
      with the projected record, anything else 500. */
  function StatusEntity(response: AppServiceResponse): (r: AppEntity)
    ensures r.statusCode == NotFound <==> response.status == NOT_FOUND
    ensures r.statusCode == Ok <==> response.status == SUCCESS
    ensures r.statusCode == InternalServerError <==>
      response.status == CONCURRENT_UPDATE || response.status == UNKNOWN_ERROR
    ensures r.body.Some? ==> r.statusCode == Ok
    ensures r.statusCode == Ok ==> r.body == ToAppControllerResponse(response.applicationInfo)
  {
    match response.status
    case NOT_FOUND => AppEntity(NotFound, None)
    case SUCCESS => AppEntity(Ok, ToAppControllerResponse(response.applicationInfo))
    case _ => AppEntity(InternalServerError, None)
  }

  /** The table of deploy: UNKNOWN_ERROR and NOT_FOUND are 400, SUCCESS is 200 with the
      projected record, anything else (CONCURRENT_UPDATE) 500; 409 is never produced. */
  function DeployEntity(response: AppServiceResponse): (r: AppEntity)
    ensures r.statusCode == BadRequest <==> response.status == UNKNOWN_ERROR || response.status == NOT_FOUND
    ensures r.statusCode == Ok <==> response.status == SUCCESS
    ensures r.statusCode == InternalServerError <==> response.status == CONCURRENT_UPDATE
    ensures r.body.Some? ==> r.statusCode == Ok
    ensures r.statusCode == Ok ==> r.body == ToAppControllerResponse(response.applicationInfo)
  {
    match response.status
    case UNKNOWN_ERROR => AppEntity(BadRequest, None)
    case NOT_FOUND => AppEntity(BadRequest, None)
    case SUCCESS => AppEntity(Ok, ToAppControllerResponse(response.applicationInfo))
    case _ => AppEntity(InternalServerError, None)
  }

  /** Status never answers 500: it is 404 exactly when the table has no row with the name,
      and otherwise 200 with the name and status of the first such row. */
  lemma StatusReportsLookup(rows: seq<ApplicationInfo>, name: string)
    ensures var r := StatusEntity(ToAppServiceResponse(Lookup(rows, name)));
      && r.statusCode != InternalServerError
      && (r.statusCode == NotFound <==> forall i :: 0 <= i < |rows| ==> rows[i].name != name)
      && (r.statusCode == Ok ==> r.body == Some(AppControllerResponse(name, Lookup(rows, name).value.status)))
  {
  }

  /** activate and deactivate never answer 500: 404 without a record, else 200 with the
      record's name and its new status. */
  lemma TransitionEndpoint(name: string, status: NodeAppStatus, rows0: seq<ApplicationInfo>,
                           rows1: seq<ApplicationInfo>, now: Time, response: AppServiceResponse)
    requires TransitionResult(name, status, rows0, rows1, now, response)
    ensures var r := StatusEntity(response);
      && (r.statusCode == NotFound <==> Lookup(rows0, name).None?)
      && (r.statusCode == Ok <==> Lookup(rows0, name).Some?)
      && (r.statusCode == Ok ==> r.body == Some(AppControllerResponse(name, status)))
  {
    TransitionIsVisible(name, status, rows0, rows1, now, response);
  }

  /** A conflict while creating a new function is reported as 500, not as 409. */
  lemma CreateConflictIsServerError(h: LambdaFunctionHandler, name: string, archive: string, base: nat,
                                    calls: seq<BackendCall>, start: Time, end: Time,
                                    rows0: seq<ApplicationInfo>, rows1: seq<ApplicationInfo>,
                                    response: Completion<AppServiceResponse>)
    requires DeployResult(h, name, archive, base, calls, start, end, rows0, rows1,
                          Abrupt(ResourceConflictException), response)
    requires GetResult(h.client.getFunction(name, base)) == Normal(None)
    ensures response.Normal? && DeployEntity(response.value).statusCode == InternalServerError
    ensures rows1 == rows0
  {
  }

  /** A successful deploy answers 200 with the tenant's name and ACTIVE, on either path. */
  lemma DeploySuccessIsActive(h: LambdaFunctionHandler, name: string, archive: string, base: nat,
                              calls: seq<BackendCall>, start: Time, end: Time,
                              rows0: seq<ApplicationInfo>, rows1: seq<ApplicationInfo>,
                              backend: Completion<()>, response: Completion<AppServiceResponse>)
    requires DeployResult(h, name, archive, base, calls, start, end, rows0, rows1, backend, response)
    requires response.Normal? && DeployEntity(response.value).statusCode == Ok
    ensures backend.Normal?
    ensures DeployEntity(response.value).body == Some(AppControllerResponse(name, NodeAppStatus.ACTIVE))
  {
    match GetResult(h.client.getFunction(name, base))
    case Normal(None) =>
    case Normal(Some(_)) =>
  }

  class AppController {
    const nodeAppService: NodeAppService

    constructor (nodeAppService: NodeAppService)
      ensures this.nodeAppService == nodeAppService
    {
      this.nodeAppService := nodeAppService;
    }

    /** GET /apps/{name}/status */
    method Status(name: string) returns (r: AppEntity)
      ensures r == StatusEntity(ToAppServiceResponse(Lookup(nodeAppService.appRepository.rows, name)))
    {
      var response := nodeAppService.GetByName(name);
      r := StatusEntity(response);
    }

    /** POST /apps/deploy */
    method Deploy(name: string, archive: string) returns (r: Completion<AppEntity>, ghost response: Completion<AppServiceResponse>,
                                                        ghost backend: Completion<()>)
      modifies nodeAppService.appRepository, nodeAppService.lambdaFunctionHandler,
               nodeAppService.lambdaFunctionHandler.clock
      ensures Extends(old(nodeAppService.lambdaFunctionHandler.log), nodeAppService.lambdaFunctionHandler.log)
      ensures DeployResult(nodeAppService.lambdaFunctionHandler, name, archive,
                           |old(nodeAppService.lambdaFunctionHandler.log)|,
                           nodeAppService.lambdaFunctionHandler.log[|old(nodeAppService.lambdaFunctionHandler.log)|..],
                           old(nodeAppService.lambdaFunctionHandler.clock.now),
                           nodeAppService.lambdaFunctionHandler.clock.now,
                           old(nodeAppService.appRepository.rows), nodeAppService.appRepository.rows,
                           backend, response)
      ensures r == match response
                   case Abrupt(e) => Abrupt(e)
                   case Normal(resp) => Normal(DeployEntity(resp))
    {
      var outcome;
      outcome, backend := nodeAppService.Deploy(name, archive);
      response := outcome;
      if outcome.Abrupt? {
        return Abrupt(outcome.exception), response, backend;
      }
      r := Normal(DeployEntity(outcome.value));
    }

    /** POST /apps/{name}/activate */
    method Activate(name: string) returns (r: AppEntity, ghost response: AppServiceResponse)
      modifies nodeAppService.appRepository
      ensures TransitionResult(name, NodeAppStatus.ACTIVE, old(nodeAppService.appRepository.rows),
                               nodeAppService.appRepository.rows,
                               nodeAppService.lambdaFunctionHandler.clock.now, response)
      ensures r == StatusEntity(response)
    {
      var outcome := nodeAppService.Activate(name);
      response := outcome;
      r := StatusEntity(outcome);
    }

    /** POST /apps/{name}/deactivate */
    method Deactivate(name: string) returns (r: AppEntity, ghost response: AppServiceResponse)
      modifies nodeAppService.appRepository
      ensures TransitionResult(name, NodeAppStatus.INACTIVE, old(nodeAppService.appRepository.rows),
                               nodeAppService.appRepository.rows,
                               nodeAppService.lambdaFunctionHandler.clock.now, response)
      ensures r == StatusEntity(response)
    {
      var outcome := nodeAppService.Deactivate(name);
      response := outcome;
      r := StatusEntity(outcome);
    }

    /** POST /apps/{name}/remove */
    method Remove(name: string) returns (r: Completion<AppEntity>, ghost response: Completion<AppServiceResponse>,
                                         ghost backend: Completion<()>)
      modifies nodeAppService.appRepository, nodeAppService.lambdaFunctionHandler
      ensures Extends(old(nodeAppService.lambdaFunctionHandler.log), nodeAppService.lambdaFunctionHandler.log)
      ensures RemoveResult(nodeAppService.lambdaFunctionHandler, name,
                           |old(nodeAppService.lambdaFunctionHandler.log)|,
                           nodeAppService.lambdaFunctionHandler.log[|old(nodeAppService.lambdaFunctionHandler.log)|..],
                           old(nodeAppService.appRepository.rows), nodeAppService.appRepository.rows,
                           nodeAppService.lambdaFunctionHandler.clock.now, backend, response)
      ensures r == match response
                   case Abrupt(e) => Abrupt(e)
                   case Normal(resp) => Normal(StatusEntity(resp))
    {
      var outcome;
      outcome, backend := nodeAppService.Remove(name);
      response := outcome;
      if outcome.Abrupt? {
        return Abrupt(outcome.exception), response, backend;
      }
      r := Normal(StatusEntity(outcome.value));
    }
  }
}
