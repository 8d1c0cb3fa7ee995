/** The orchestration service (NodeAppService): deploy, create, update, activate,
    deactivate, remove and getByName over the repository and the backend bridge.
    The predicates below say, on values, what each operation does to the table and what
    it answers; the methods of NodeAppService promise them. */
module Service {
  import opened Model
  import opened Repository
  import opened Handler

  /** The lambda description create provisions for a tenant. */
  function TenantLambda(name: string, archive: string): (r: AwsLambda)
    ensures r.name == name && r.packageFileBase64 == archive
    ensures r.handler == "index.handler" && r.packageType == ZIP && r.runtime == NODEJS20_X
  {
    AwsLambda(name, NODEJS20_X, ZIP, archive, DefaultHandler)
  }

  /** The record create and update write: ACTIVE, created and updated `now`. */
  function ActiveRecord(name: string, now: Time): (r: ApplicationInfo)
    ensures r.name == name && r.status == NodeAppStatus.ACTIVE
    ensures r.createdAt == now && r.updatedAt == now
  {
    ApplicationInfo(name, NodeAppStatus.ACTIVE, now, now)
  }

  /** create, once the backend call ended with `backend`: a conflict is CONCURRENT_UPDATE and
      any other exception UNKNOWN_ERROR, with the table unchanged; success inserts an ACTIVE
      record stamped `now` and answers SUCCESS with it. */
  ghost predicate CreateResult(name: string, backend: Completion<()>, rows0: seq<ApplicationInfo>,
                               rows1: seq<ApplicationInfo>, now: Time, r: AppServiceResponse)
  {
    match backend
    case Abrupt(e) =>
      rows1 == rows0 &&
      r == StatusOnly(if e == ResourceConflictException then CONCURRENT_UPDATE else UNKNOWN_ERROR)
    case Normal(_) =>
      rows1 == rows0 + [ActiveRecord(name, now)] &&
      r == AppServiceResponse(SUCCESS, Some(ActiveRecord(name, now)))
  }

  /** update, once the backend call ended with `backend`: not-found is NOT_FOUND, a conflict
      CONCURRENT_UPDATE and any other exception UNKNOWN_ERROR, with the table unchanged;
      success runs the repository's UPDATE with an ACTIVE record stamped `now` and answers
      SUCCESS with that record, whether or not a row matched. */
  ghost predicate UpdateResult(name: string, backend: Completion<()>, rows0: seq<ApplicationInfo>,
                               rows1: seq<ApplicationInfo>, now: Time, r: AppServiceResponse)
  {
    match backend
    case Abrupt(e) =>
      rows1 == rows0 &&
      r == StatusOnly(
        if e == ResourceNotFoundException then NOT_FOUND
        else if e == ResourceConflictException then CONCURRENT_UPDATE
        else UNKNOWN_ERROR)
    case Normal(_) =>
      rows1 == UpdateWhere(rows0, ActiveRecord(name, now)) &&
      r == AppServiceResponse(SUCCESS, Some(ActiveRecord(name, now)))
  }

  /** activate, deactivate and the last step of remove: a name with no record is NOT_FOUND
      and changes nothing; otherwise the found record gets `status` and updatedAt `now`. */
  ghost predicate TransitionResult(name: string, status: NodeAppStatus, rows0: seq<ApplicationInfo>,
                                   rows1: seq<ApplicationInfo>, now: Time, r: AppServiceResponse)
  {
    match Lookup(rows0, name)
    case None => rows1 == rows0 && r == StatusOnly(NOT_FOUND)
    case Some(app) =>
      var changed := app.(status := status, updatedAt := now);
      rows1 == UpdateWhere(rows0, changed) && r == AppServiceResponse(SUCCESS, Some(changed))
  }

  /** remove: a name with no record is NOT_FOUND without any backend call; otherwise the
      backend deletes the function, and only if that did not throw is the record marked REMOVED. */
  ghost predicate RemoveResult(h: LambdaFunctionHandler, name: string, base: nat, calls: seq<BackendCall>,
                               rows0: seq<ApplicationInfo>, rows1: seq<ApplicationInfo>, now: Time,
                               backend: Completion<()>, r: Completion<AppServiceResponse>)
  {
    if Lookup(rows0, name).None? then
      calls == [] && rows1 == rows0 && r == Normal(StatusOnly(NOT_FOUND))
    else
      && h.RemoveTrace(name, base, calls, backend)
      && (backend.Abrupt? ==> rows1 == rows0 && r == Abrupt(backend.exception))
      && (backend.Normal? ==> r.Normal? && TransitionResult(name, REMOVED, rows0, rows1, now, r.value))
  }

  /** deploy: probe the backend with get; an exception from it propagates; no function means
      create, an existing one means update. */
  ghost predicate DeployResult(h: LambdaFunctionHandler, name: string, archive: string, base: nat,
                               calls: seq<BackendCall>, start: Time, end: Time,
                               rows0: seq<ApplicationInfo>, rows1: seq<ApplicationInfo>,
                               backend: Completion<()>, r: Completion<AppServiceResponse>)
  {
    var probe := h.client.getFunction(name, base);
    && |calls| >= 1
    && calls[0] == GetFunctionCall(name, start, probe)
    && match GetResult(probe)
       case Abrupt(e) => |calls| == 1 && end == start && rows1 == rows0 && r == Abrupt(e)
       case Normal(None) =>
         && h.CreateTrace(TenantLambda(name, archive), base + 1, calls[1..], start, end, backend)
         && r.Normal? && CreateResult(name, backend, rows0, rows1, end, r.value)
       case Normal(Some(_)) =>
         && h.UpdateTrace(name, archive, base + 1, calls[1..], start, end, backend)
         && r.Normal? && UpdateResult(name, backend, rows0, rows1, end, r.value)
  }

  /** deploy takes exactly one path: it asks the backend to create a function only when the
      probe found none, and to update code only when the probe found one. */
  lemma DeployTakesOnePath(h: LambdaFunctionHandler, name: string, archive: string, base: nat,
                           calls: seq<BackendCall>, start: Time, end: Time,
                           rows0: seq<ApplicationInfo>, rows1: seq<ApplicationInfo>,
                           backend: Completion<()>, r: Completion<AppServiceResponse>)
    requires DeployResult(h, name, archive, base, calls, start, end, rows0, rows1, backend, r)
    ensures (exists i :: 0 <= i < |calls| && calls[i].CreateFunctionCall?) ==>
      GetResult(h.client.getFunction(name, base)) == Normal(None)
    ensures (exists i :: 0 <= i < |calls| && calls[i].UpdateFunctionCodeCall?) ==>
      var probe := GetResult(h.client.getFunction(name, base));
      probe.Normal? && probe.value.Some?
  {
    var probe := GetResult(h.client.getFunction(name, base));
    if probe.Normal? {
      if probe.value.None? {
        h.CreateTraceIssues(TenantLambda(name, archive), base + 1, calls[1..], start, end, backend);
      } else {
        h.UpdateTraceIssues(name, archive, base + 1, calls[1..], start, end, backend);
      }
      forall i | 0 < i < |calls|
        ensures calls[i] == calls[1..][i - 1]
      {
      }
    }
  }

  /** After a successful create, getByName finds the new record only if the table had no row
      with that name before; otherwise it still finds the earlier row. */
  lemma CreatedIsVisible(name: string, backend: Completion<()>, rows0: seq<ApplicationInfo>,
                         rows1: seq<ApplicationInfo>, now: Time, r: AppServiceResponse)
    requires CreateResult(name, backend, rows0, rows1, now, r) && r.status == SUCCESS
    ensures Lookup(rows1, name) ==
      if Lookup(rows0, name).Some? then Lookup(rows0, name) else Some(ActiveRecord(name, now))
  {
    LookupAfterInsert(rows0, ActiveRecord(name, now), name);
  }

  /** Deploying again over a REMOVED record through the create path reports SUCCESS while
      getByName goes on returning the REMOVED record. */
  lemma RedeployAfterRemoveStaysRemoved(name: string, app: ApplicationInfo, rows0: seq<ApplicationInfo>,
                                        rows1: seq<ApplicationInfo>, now: Time, r: AppServiceResponse)
    requires Lookup(rows0, name) == Some(app) && app.status == REMOVED
    requires CreateResult(name, Normal(()), rows0, rows1, now, r)
    ensures r.status == SUCCESS && r.applicationInfo.value.status == NodeAppStatus.ACTIVE
    ensures ToAppServiceResponse(Lookup(rows1, name)) == AppServiceResponse(SUCCESS, Some(app))
  {
    CreatedIsVisible(name, Normal(()), rows0, rows1, now, r);
  }

  /** After a successful update the stored row, if any, is ACTIVE with updatedAt `now` and its
      own createdAt; with no row the answer is still SUCCESS and nothing is stored. */
  lemma UpdatedIsVisible(name: string, backend: Completion<()>, rows0: seq<ApplicationInfo>,
                         rows1: seq<ApplicationInfo>, now: Time, r: AppServiceResponse)
    requires UpdateResult(name, backend, rows0, rows1, now, r) && r.status == SUCCESS
    ensures Lookup(rows0, name).None? ==> Lookup(rows1, name).None?
    ensures Lookup(rows0, name).Some? ==>
      Lookup(rows1, name) == Some(Lookup(rows0, name).value.(status := NodeAppStatus.ACTIVE, updatedAt := now))
  {
    LookupAfterUpdate(rows0, ActiveRecord(name, now), name);
  }

  /** After a successful transition getByName finds exactly the record the operation answered:
      the new status and updatedAt, the name and createdAt it had. */
  lemma TransitionIsVisible(name: string, status: NodeAppStatus, rows0: seq<ApplicationInfo>,
                            rows1: seq<ApplicationInfo>, now: Time, r: AppServiceResponse)
    requires TransitionResult(name, status, rows0, rows1, now, r)
    ensures r.status == SUCCESS <==> Lookup(rows0, name).Some?
    ensures r.status == SUCCESS ==>
      && Lookup(rows1, name) == r.applicationInfo
      && r.applicationInfo.value.status == status
      && r.applicationInfo.value.updatedAt == now
      && r.applicationInfo.value.name == name
      && r.applicationInfo.value.createdAt == Lookup(rows0, name).value.createdAt
  {
    if Lookup(rows0, name).Some? {
      var changed := Lookup(rows0, name).value.(status := status, updatedAt := now);
      LookupAfterUpdate(rows0, changed, name);
    }
  }

  class NodeAppService {
    const appRepository: AppRepository
    const lambdaFunctionHandler: LambdaFunctionHandler

    constructor (appRepository: AppRepository, lambdaFunctionHandler: LambdaFunctionHandler)
      ensures this.appRepository == appRepository && this.lambdaFunctionHandler == lambdaFunctionHandler
    {
      this.appRepository := appRepository;
      this.lambdaFunctionHandler := lambdaFunctionHandler;
    }

    /** getByName: the table is only read. */
    method GetByName(name: string) returns (r: AppServiceResponse)
      ensures r == ToAppServiceResponse(Lookup(appRepository.rows, name))
    {
      var app := appRepository.FindByName(name);
      r := ToAppServiceResponse(app);
    }

    method Deploy(name: string, archive: string) returns (r: Completion<AppServiceResponse>, ghost backend: Completion<()>)
      modifies appRepository, lambdaFunctionHandler, lambdaFunctionHandler.clock
      ensures Extends(old(lambdaFunctionHandler.log), lambdaFunctionHandler.log)
      ensures DeployResult(lambdaFunctionHandler, name, archive, |old(lambdaFunctionHandler.log)|,
                           lambdaFunctionHandler.log[|old(lambdaFunctionHandler.log)|..],
                           old(lambdaFunctionHandler.clock.now), lambdaFunctionHandler.clock.now,
                           old(appRepository.rows), appRepository.rows, backend, r)
    {
      ghost var base := |lambdaFunctionHandler.log|;
      var existing := lambdaFunctionHandler.Get(name);
      ghost var probed := lambdaFunctionHandler.log;
      if existing.Abrupt? {
        backend := Abrupt(existing.exception);
        return Abrupt(existing.exception), backend;
      }
      var response;
      if existing.value.None? {
        response, backend := Create(name, archive);
      } else {
        response, backend := Update(name, archive);
      }
      r := Normal(response);
      assert lambdaFunctionHandler.log[..|probed|] == probed;
      assert lambdaFunctionHandler.log[base..][0] == probed[base];
      assert lambdaFunctionHandler.log[base..][1..] == lambdaFunctionHandler.log[|probed|..];
    }

    method Create(name: string, archive: string) returns (r: AppServiceResponse, ghost backend: Completion<()>)
      modifies appRepository, lambdaFunctionHandler, lambdaFunctionHandler.clock
      ensures Extends(old(lambdaFunctionHandler.log), lambdaFunctionHandler.log)
      ensures lambdaFunctionHandler.CreateTrace(TenantLambda(name, archive), |old(lambdaFunctionHandler.log)|,
                                                lambdaFunctionHandler.log[|old(lambdaFunctionHandler.log)|..],
                                                old(lambdaFunctionHandler.clock.now),
                                                lambdaFunctionHandler.clock.now, backend)
      ensures CreateResult(name, backend, old(appRepository.rows), appRepository.rows,
                           lambdaFunctionHandler.clock.now, r)
    {
      var lambda := AwsLambda(name, NODEJS20_X, ZIP, archive, DefaultHandler);
      var outcome := lambdaFunctionHandler.Create(lambda);
      backend := outcome;
      if outcome.Abrupt? {
        if outcome.exception == ResourceConflictException {
          return StatusOnly(CONCURRENT_UPDATE), backend;
        }
        return StatusOnly(UNKNOWN_ERROR), backend;
      }
      var now := lambdaFunctionHandler.clock.now;
      var applicationInfo := ApplicationInfo(name, NodeAppStatus.ACTIVE, now, now);
      var _ := appRepository.Create(applicationInfo);
      r := ToAppServiceResponse(Some(applicationInfo));
    }

    method Update(name: string, archive: string) returns (r: AppServiceResponse, ghost backend: Completion<()>)
      modifies appRepository, lambdaFunctionHandler, lambdaFunctionHandler.clock
      ensures Extends(old(lambdaFunctionHandler.log), lambdaFunctionHandler.log)
      ensures lambdaFunctionHandler.UpdateTrace(name, archive, |old(lambdaFunctionHandler.log)|,
                                                lambdaFunctionHandler.log[|old(lambdaFunctionHandler.log)|..],
                                                old(lambdaFunctionHandler.clock.now),
                                                lambdaFunctionHandler.clock.now, backend)
      ensures UpdateResult(name, backend, old(appRepository.rows), appRepository.rows,
                           lambdaFunctionHandler.clock.now, r)
    {
      var outcome := lambdaFunctionHandler.Update(name, archive);
      backend := outcome;
      if outcome.Abrupt? {
        if outcome.exception == ResourceNotFoundException {
          return StatusOnly(NOT_FOUND), backend;
        }
        if outcome.exception == ResourceConflictException {
          return StatusOnly(CONCURRENT_UPDATE), backend;
        }
        return StatusOnly(UNKNOWN_ERROR), backend;
      }
      var now := lambdaFunctionHandler.clock.now;
      var applicationInfo := ApplicationInfo(name, NodeAppStatus.ACTIVE, now, now);
      var _ := appRepository.Update(applicationInfo);
      r := ToAppServiceResponse(Some(applicationInfo));
    }

    /** The shared step of activate and deactivate: find the record, then UPDATE it with
        `status` and the current time. */
    method Transition(name: string, status: NodeAppStatus) returns (r: AppServiceResponse)
      modifies appRepository
      ensures TransitionResult(name, status, old(appRepository.rows), appRepository.rows,
                               lambdaFunctionHandler.clock.now, r)
    {
      var nodeApp := appRepository.FindByName(name);
      if nodeApp.None? {
        return StatusOnly(NOT_FOUND);
      }
      var changed := appRepository.Update(nodeApp.value.(status := status, updatedAt := lambdaFunctionHandler.clock.now));
      r := ToAppServiceResponse(Some(changed));
    }

    method Activate(name: string) returns (r: AppServiceResponse)
      modifies appRepository
      ensures TransitionResult(name, NodeAppStatus.ACTIVE, old(appRepository.rows), appRepository.rows,
                               lambdaFunctionHandler.clock.now, r)
    {
      r := Transition(name, NodeAppStatus.ACTIVE);
    }

    method Deactivate(name: string) returns (r: AppServiceResponse)
      modifies appRepository
      ensures TransitionResult(name, NodeAppStatus.INACTIVE, old(appRepository.rows), appRepository.rows,
                               lambdaFunctionHandler.clock.now, r)
    {
      r := Transition(name, NodeAppStatus.INACTIVE);
    }

    method Remove(name: string) returns (r: Completion<AppServiceResponse>, ghost backend: Completion<()>)
      modifies appRepository, lambdaFunctionHandler
      ensures Extends(old(lambdaFunctionHandler.log), lambdaFunctionHandler.log)
      ensures RemoveResult(lambdaFunctionHandler, name, |old(lambdaFunctionHandler.log)|,
                           lambdaFunctionHandler.log[|old(lambdaFunctionHandler.log)|..],
                           old(appRepository.rows), appRepository.rows,
                           lambdaFunctionHandler.clock.now, backend, r)
    {
      backend := Normal(());
      var nodeApp := appRepository.FindByName(name);
      if nodeApp.None? {
        assert lambdaFunctionHandler.log[|old(lambdaFunctionHandler.log)|..] == [];
        return Normal(StatusOnly(NOT_FOUND)), backend;
      }
      var outcome := lambdaFunctionHandler.Remove(name);
      backend := outcome;
      if outcome.Abrupt? {
        return Abrupt(outcome.exception), backend;
      }
      var removed := appRepository.Update(nodeApp.value.(status := REMOVED, updatedAt := lambdaFunctionHandler.clock.now));
      r := Normal(ToAppServiceResponse(Some(removed)));
    }
  }
}
