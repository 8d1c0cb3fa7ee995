# app-orchestrator: a verified model of the tenant lifecycle

This project models the core of app-orchestrator, a service that hosts Node.js tenant
applications as functions on a function-as-a-service backend and keeps a registry of them in
an `application_info` table. It covers:

- the orchestration service, `NodeAppService`: deploy, create, update, activate, deactivate,
  remove and getByName;
- the registry repository, `AppRepository`, with the SQL statements written out as operations
  on a sequence of rows;
- the control logic of the backend bridge, `LambdaFunctionHandler`. This includes the
  activation wait, which polls `get` against a 60-second deadline;
- the host-based proxy, `ProxyController`. It turns `tenant.example.com` into the tenant
  `tenant`, admits only ACTIVE tenants, builds the invocation event and turns the function's
  reply back into an HTTP response;
- the mapping of service results to HTTP statuses in `AppController`, and
  `toAppServiceResponse`.

Modules follow the program's packages:

| module | file | models |
|---|---|---|
| `Model` | `model.dfy` | `ApplicationInfo`, `NodeAppStatus`, `AppServiceResponse`, exceptions, invocation event and reply |
| `Repository` | `repository.dfy` | the table and `AppRepository` |
| `Handler` | `lambda_handler.dfy` | `LambdaFunctionHandler`, the backend client and the clock |
| `Service` | `service.dfy` | `NodeAppService` |
| `Endpoints` | `app_controller.dfy` | `AppController` |
| `Proxy` | `proxy.dfy` | `ProxyController` |

How the environment is represented:

- **Exceptions.** An operation that can throw returns `Completion<T>`, which is either
  `Normal(value)` or `Abrupt(exception)`. A `catch` becomes a branch on the exception.
- **Backend.** `LambdaClient` is a datatype of functions. Each function takes the request and
  the call's position in the handler's `log`, so successive calls may have any outcome. The
  handler appends every backend call and its outcome to `log`. The service and controller
  contracts state which calls were made, in order, and what followed from each.
- **Time.** A `Clock` object stands in for `Instant.now()` and `LocalDateTime.now()`. `Sleep(ms)`
  advances it by at least `ms`; the `oversleep` function says how much more. The clock moves
  only in `Sleep`, so every backend call takes no time. That is why a trace can end at the time
  it started when it did not sleep, and why a poll is stamped with the time of the loop test
  just before it. A real call that takes time would only make the polls sparser; no promise of
  the model depends on calls being instantaneous except those equalities.
- **Table.** The table is a sequence of rows in storage order, because the code does not rely
  on names being unique:
  - `findByName` takes the first row returned by `SELECT … WHERE name = ?`;
  - `update` rewrites every row with the name;
  - `create` appends a row.

  One consequence is proved as `Service.RedeployAfterRemoveStaysRemoved`, under two conditions
  the source does not settle: that the schema (which is not part of this model) allows two rows
  with one name, and that `SELECT … WHERE name = ?`, which has no `ORDER BY`, returns rows in
  insertion order. If both hold, deploying a removed tenant again goes through the create path,
  because the backend no longer has its function. That deploy reports SUCCESS and inserts a new
  ACTIVE row, but getByName goes on returning the earlier REMOVED row. If the schema makes
  `name` unique instead, the INSERT, which sits outside the `try`, throws and the deploy does
  not report SUCCESS.
- **Injected settings.** The role variable `AWS_LAMBDA_ROLE_ARN`, Base64 decoding and
  `HttpStatus.valueOf`'s set of known codes are constant fields of the handler and the proxy
  controller.

Where the code and the documented intent disagree, the model follows the code:

- `create` answers CONCURRENT_UPDATE on a conflict.
- `remove` lets a backend failure propagate, and leaves the table unchanged when it does.
- `AppController.deploy` refers to an `ALREADY_EXISTS` status, but the enum has no such
  value. The model has the four real statuses. A deploy conflict therefore falls into the
  `else` branch and answers 500, not 409 (`Endpoints.CreateConflictIsServerError`).
- The repository reads and writes an `id` column that `ApplicationInfo` does not have. The
  model leaves the `id` out.

## Model

| member | source | states |
|---|---|---|
| `Model.StatusOnly` | src/main/kotlin/org/projects/app/orchestrator/model/NodeAppServiceResponse.kt:3-6 | A response built from a status alone carries that status and no record |
| `Model.ToAppServiceResponse` | src/main/kotlin/org/projects/app/orchestrator/model/NodeAppServiceResponse.kt:15-21 | No record gives NOT_FOUND and a record gives SUCCESS carrying that same record; the info is present if and only if the status is SUCCESS |
| `Model.ToAppControllerResponse` | src/main/kotlin/org/projects/app/orchestrator/model/ApplicationInfo.kt:13-18 | The projection exists exactly when the record does, and carries the record's name and status |
| `Repository.Touch` | src/main/kotlin/org/projects/app/orchestrator/repository/AppRepository.kt:58-60 | One row under the UPDATE: a row with the name takes the new status and updatedAt and keeps its name and createdAt; any other row is unchanged |
| `Repository.Where` | src/main/kotlin/org/projects/app/orchestrator/repository/AppRepository.kt:71-76 | The SELECT returns exactly the rows with the name, and never more rows than the table has |
| `Repository.Lookup` | src/main/kotlin/org/projects/app/orchestrator/repository/AppRepository.kt:71-76 | No result exactly when no row has the name; a result is a row of the table with that name |
| `Repository.LookupIsFirst` | src/main/kotlin/org/projects/app/orchestrator/repository/AppRepository.kt:23-29 | findByName returns the first row with the name |
| `Repository.UpdateWhere` | src/main/kotlin/org/projects/app/orchestrator/repository/AppRepository.kt:56-69 | The UPDATE keeps every row's place, name and createdAt; it gives matching rows the new status and updatedAt and leaves the other rows unchanged |
| `Repository.WhereAppend` | src/main/kotlin/org/projects/app/orchestrator/repository/AppRepository.kt:39-54 | The SELECT over a table with appended rows returns the old matches followed by the new ones |
| `Repository.LookupAfterInsert` | src/main/kotlin/org/projects/app/orchestrator/repository/AppRepository.kt:39-54 | After an INSERT, findByName still finds an earlier row with the name; only without one does it find the new row |
| `Repository.LookupAfterUpdate` | src/main/kotlin/org/projects/app/orchestrator/repository/AppRepository.kt:56-76 | After the UPDATE, findByName finds the same row as before, with the new status and updatedAt; an absent name stays absent |
| `Repository.ResultSet.Next` | src/main/kotlin/org/projects/app/orchestrator/repository/AppRepository.kt:17 | next() is true exactly when a row remains, and then moves past it |
| `Repository.AppRepository.FetchList` | src/main/kotlin/org/projects/app/orchestrator/repository/AppRepository.kt:15-21 | The loop maps every remaining row, in order, and exhausts the cursor |
| `Repository.AppRepository.FetchSingle` | src/main/kotlin/org/projects/app/orchestrator/repository/AppRepository.kt:23-29 | Maps the next row if there is one, else gives null; the cursor moves past that row, or stays at the end when there is none |
| `Repository.AppRepository.Create` | src/main/kotlin/org/projects/app/orchestrator/repository/AppRepository.kt:39-54 | Appends a row equal to the argument and returns the argument |
| `Repository.AppRepository.Update` | src/main/kotlin/org/projects/app/orchestrator/repository/AppRepository.kt:56-69 | The table becomes the UPDATE of the old table; the argument is returned even when no row matched |
| `Repository.AppRepository.FindByName` | src/main/kotlin/org/projects/app/orchestrator/repository/AppRepository.kt:71-76 | Returns the first row with the name, or null exactly when there is none; the table is not changed |
| `Repository.AppRepository.FindAll` | src/main/kotlin/org/projects/app/orchestrator/repository/AppRepository.kt:78-83 | Returns one element per row, in table order; the table is not changed |
| `Handler.CreateRequest` | src/main/kotlin/org/projects/app/orchestrator/handler/LambdaFunctionHandler.kt:36-45 | The CreateFunction request carries the lambda's name, runtime, handler and package type, the role, the decoded archive, ARM64 only, and a 60-second timeout |
| `Handler.GetResult` | src/main/kotlin/org/projects/app/orchestrator/handler/LambdaFunctionHandler.kt:70-79 | get gives null exactly on not-found or an unsuccessful response, and the configuration exactly on success; any other exception propagates unchanged |
| `Handler.WaitOutcome` | src/main/kotlin/org/projects/app/orchestrator/handler/LambdaFunctionHandler.kt:84-89 | The wait ends normally only when its last poll saw ACTIVE. It ends in IllegalStateException exactly when there were no polls, the last poll said "keep polling", or that poll itself threw IllegalStateException |
| `Handler.ToInvokeResult` | src/main/kotlin/org/projects/app/orchestrator/handler/LambdaFunctionHandler.kt:17-29 | invoke returns the payload as result and the function error, possibly null, as error; a client exception propagates |
| `Handler.Clock.Sleep` | src/main/kotlin/org/projects/app/orchestrator/handler/LambdaFunctionHandler.kt:87 | A sleep advances the clock by at least the time asked |
| `Handler.LambdaFunctionHandler.WaitStops` | src/main/kotlin/org/projects/app/orchestrator/handler/LambdaFunctionHandler.kt:85-86 | A poll before the deadline that does not say "keep polling" ends the wait, with the poll's exception or normally on ACTIVE |
| `Handler.LambdaFunctionHandler.WaitTimesOut` | src/main/kotlin/org/projects/app/orchestrator/handler/LambdaFunctionHandler.kt:84-89 | Reaching the deadline while still waiting ends the wait with IllegalStateException |
| `Handler.LambdaFunctionHandler.PollsSpaced` | src/main/kotlin/org/projects/app/orchestrator/handler/LambdaFunctionHandler.kt:84-88 | Poll i happens at least i × 100 ms after the wait started |
| `Handler.LambdaFunctionHandler.PollCount` | src/main/kotlin/org/projects/app/orchestrator/handler/LambdaFunctionHandler.kt:82-88 | An activation wait issues at most 600 polls, so it ends |
| `Handler.LambdaFunctionHandler.CreateTraceIssues` | src/main/kotlin/org/projects/app/orchestrator/handler/LambdaFunctionHandler.kt:33-50 | create makes at most one CreateFunction request, first, and after it only GetFunction polls |
| `Handler.LambdaFunctionHandler.UpdateTraceIssues` | src/main/kotlin/org/projects/app/orchestrator/handler/LambdaFunctionHandler.kt:52-62 | update makes a GetFunction probe, then at most one UpdateFunctionCode request, then only GetFunction polls |
| `Handler.LambdaFunctionHandler.Get` | src/main/kotlin/org/projects/app/orchestrator/handler/LambdaFunctionHandler.kt:70-79 | One GetFunction call is logged with the clock's time, and its outcome is mapped by `GetResult` |
| `Handler.LambdaFunctionHandler.WaitForLambdaActivation` | src/main/kotlin/org/projects/app/orchestrator/handler/LambdaFunctionHandler.kt:81-90 | The new log entries are GetFunction polls for the name. All fall within 60000 ms of the start, at least 100 ms apart, and all but the last said "keep polling". The result is `WaitOutcome` of the polls; a timeout is thrown only once 60000 ms have passed |
| `Handler.LambdaFunctionHandler.Create` | src/main/kotlin/org/projects/app/orchestrator/handler/LambdaFunctionHandler.kt:33-50 | No role, or an archive that does not decode, throws IllegalArgumentException with no backend call. Otherwise one CreateFunction request (ARM64, 60 s timeout) is made. An exception propagates, an unsuccessful response throws RuntimeException, and only a successful one leads to the activation wait |
| `Handler.LambdaFunctionHandler.Update` | src/main/kotlin/org/projects/app/orchestrator/handler/LambdaFunctionHandler.kt:52-62 | The get probe comes first. A null result throws IllegalArgumentException with no code update; a bad archive throws the same. Otherwise one code update is made. An exception propagates, an unsuccessful response throws RuntimeException, and a successful one leads to the activation wait |
| `Handler.LambdaFunctionHandler.Remove` | src/main/kotlin/org/projects/app/orchestrator/handler/LambdaFunctionHandler.kt:65-68 | One DeleteFunction call is logged; its exception propagates and the response is not inspected |
| `Handler.LambdaFunctionHandler.Invoke` | src/main/kotlin/org/projects/app/orchestrator/handler/LambdaFunctionHandler.kt:17-29 | One Invoke call with the name and event is logged, and its outcome is mapped by `ToInvokeResult` |
| `Handler.LambdaFunctionHandler.InvokeLambda` | src/main/kotlin/org/projects/app/orchestrator/handler/LambdaFunctionHandler.kt:31 | The overload invokes the lambda's name |
| `Service.TenantLambda` | src/main/kotlin/org/projects/app/orchestrator/service/NodeAppService.kt:34-40 | The lambda create provisions has the tenant's name and archive, handler `index.handler`, a ZIP package and the NODEJS20_X runtime |
| `Service.ActiveRecord` | src/main/kotlin/org/projects/app/orchestrator/service/NodeAppService.kt:50-56 | The record create writes, and update writes at lines 76-81, has the name, status ACTIVE, and createdAt = updatedAt = now |
| `Service.DeployTakesOnePath` | src/main/kotlin/org/projects/app/orchestrator/service/NodeAppService.kt:26-31 | deploy issues a CreateFunction request only when the get probe found nothing, and a code update only when it found a function; never both |
| `Service.CreatedIsVisible` | src/main/kotlin/org/projects/app/orchestrator/service/NodeAppService.kt:50-58 | After a successful create, getByName finds the new record unless the table already had a row with the name |
| `Service.RedeployAfterRemoveStaysRemoved` | src/main/kotlin/org/projects/app/orchestrator/service/NodeAppService.kt:33-59 | Creating over a REMOVED row reports SUCCESS with an ACTIVE record, while getByName keeps returning the REMOVED row |
| `Service.UpdatedIsVisible` | src/main/kotlin/org/projects/app/orchestrator/service/NodeAppService.kt:75-83 | After a successful update the stored row is ACTIVE with updatedAt now and keeps its createdAt; with no row nothing is stored, yet the answer is SUCCESS |
| `Service.TransitionIsVisible` | src/main/kotlin/org/projects/app/orchestrator/service/NodeAppService.kt:86-122 | A transition succeeds exactly when the name has a record. getByName then returns the answered record: the new status, updatedAt now, and the same name and createdAt |
| `Service.NodeAppService.GetByName` | src/main/kotlin/org/projects/app/orchestrator/service/NodeAppService.kt:22-24 | Answers `toAppServiceResponse` of the first row with the name, and changes nothing |
| `Service.NodeAppService.Deploy` | src/main/kotlin/org/projects/app/orchestrator/service/NodeAppService.kt:26-31 | The first backend call is the get probe, and its exception propagates. A null probe continues as create and a found function as update, each with its own calls and answer |
| `Service.NodeAppService.Create` | src/main/kotlin/org/projects/app/orchestrator/service/NodeAppService.kt:33-59 | Provisions `index.handler` on NODEJS20_X from a ZIP. A conflict gives CONCURRENT_UPDATE and any other exception UNKNOWN_ERROR, with the table unchanged. Success appends an ACTIVE record with createdAt = updatedAt = now and answers SUCCESS with it |
| `Service.NodeAppService.Update` | src/main/kotlin/org/projects/app/orchestrator/service/NodeAppService.kt:61-84 | Not-found gives NOT_FOUND, a conflict CONCURRENT_UPDATE and any other exception UNKNOWN_ERROR, with the table unchanged. Success runs the UPDATE with an ACTIVE record stamped now and answers SUCCESS with it |
| `Service.NodeAppService.Transition` | src/main/kotlin/org/projects/app/orchestrator/service/NodeAppService.kt:86-109 | No record gives NOT_FOUND and changes nothing; otherwise the found record is updated with the status and the current time, and returned |
| `Service.NodeAppService.Activate` | src/main/kotlin/org/projects/app/orchestrator/service/NodeAppService.kt:86-96 | The transition to ACTIVE |
| `Service.NodeAppService.Deactivate` | src/main/kotlin/org/projects/app/orchestrator/service/NodeAppService.kt:98-109 | The transition to INACTIVE |
| `Service.NodeAppService.Remove` | src/main/kotlin/org/projects/app/orchestrator/service/NodeAppService.kt:111-122 | No record gives NOT_FOUND with no backend call. Otherwise one delete is made; its exception propagates with the table unchanged, and else the record is kept and marked REMOVED |
| `Endpoints.StatusEntity` | src/main/kotlin/org/projects/app/orchestrator/controller/AppController.kt:21-25 | NOT_FOUND is 404, SUCCESS is 200 with the projected record, and CONCURRENT_UPDATE or UNKNOWN_ERROR is 500; only a 200 has a body |
| `Endpoints.DeployEntity` | src/main/kotlin/org/projects/app/orchestrator/controller/AppController.kt:34-42 | UNKNOWN_ERROR and NOT_FOUND are 400, SUCCESS is 200 with the projected record, and CONCURRENT_UPDATE is 500 |
| `Endpoints.StatusReportsLookup` | src/main/kotlin/org/projects/app/orchestrator/controller/AppController.kt:17-26 | The status endpoint never answers 500. It answers 404 exactly when no row has the name, and otherwise 200 with that row's name and status |
| `Endpoints.TransitionEndpoint` | src/main/kotlin/org/projects/app/orchestrator/controller/AppController.kt:45-70 | activate and deactivate answer 404 exactly without a record, else 200 with the name and the new status |
| `Endpoints.CreateConflictIsServerError` | src/main/kotlin/org/projects/app/orchestrator/controller/AppController.kt:34-42 | A conflict on the create path of deploy answers 500, and the table is unchanged |
| `Endpoints.DeploySuccessIsActive` | src/main/kotlin/org/projects/app/orchestrator/controller/AppController.kt:28-43 | A 200 from deploy means the backend step succeeded, and carries the tenant's name with ACTIVE |
| `Endpoints.AppController.Status` | src/main/kotlin/org/projects/app/orchestrator/controller/AppController.kt:17-26 | Maps getByName of the name through the status table |
| `Endpoints.AppController.Deploy` | src/main/kotlin/org/projects/app/orchestrator/controller/AppController.kt:28-43 | Calls deploy once with the request's name and archive, and maps its answer through the deploy table; an exception propagates |
| `Endpoints.AppController.Activate` | src/main/kotlin/org/projects/app/orchestrator/controller/AppController.kt:45-56 | Calls activate once and maps its answer through the status table |
| `Endpoints.AppController.Deactivate` | src/main/kotlin/org/projects/app/orchestrator/controller/AppController.kt:58-70 | Calls deactivate once and maps its answer through the status table |
| `Endpoints.AppController.Remove` | src/main/kotlin/org/projects/app/orchestrator/controller/AppController.kt:72-84 | Calls remove once and maps its answer through the status table; an exception propagates |
| `Proxy.GetHeader` | src/main/kotlin/org/projects/app/orchestrator/controller/ProxyController.kt:30 | No value exactly when no header line has the name; otherwise the value of the first such line |
| `Proxy.HostOf` | src/main/kotlin/org/projects/app/orchestrator/controller/ProxyController.kt:30 | The Host header if present, else the server name |
| `Proxy.SubstringBefore` | src/main/kotlin/org/projects/app/orchestrator/controller/ProxyController.kt:31 | A prefix of the text that contains no delimiter and is followed by the delimiter or the end of the text |
| `Proxy.TenantOfSubdomain` | src/main/kotlin/org/projects/app/orchestrator/controller/ProxyController.kt:30-31 | The tenant of `name.rest` is `name`, and a host without a dot is itself the tenant |
| `Proxy.TenantName` | src/main/kotlin/org/projects/app/orchestrator/controller/ProxyController.kt:30-31 | The tenant is the longest dot-free prefix of the request's host: it contains no dot and is followed by a dot or the end of the host |
| `Proxy.FirstOrNone` | src/main/kotlin/org/projects/app/orchestrator/controller/ProxyController.kt:59 | The first value, or null exactly when there are none |
| `Proxy.QueryParameters` | src/main/kotlin/org/projects/app/orchestrator/controller/ProxyController.kt:59-65 | Absent exactly when there are no parameters; otherwise the same keys, each with its first value |
| `Proxy.EventHeaders` | src/main/kotlin/org/projects/app/orchestrator/controller/ProxyController.kt:66 | Exactly the request's header names, each with its getHeader value |
| `Proxy.BuildLambdaEvent` | src/main/kotlin/org/projects/app/orchestrator/controller/ProxyController.kt:58-70 | path is the URI, httpMethod the method, and the query and header maps are as above. The body is absent exactly when the request body is empty |
| `Proxy.AddHeader` | src/main/kotlin/org/projects/app/orchestrator/controller/ProxyController.kt:52 | Appends the value to that header's list and leaves the other headers alone |
| `Proxy.AddAll` | src/main/kotlin/org/projects/app/orchestrator/controller/ProxyController.kt:51-52 | Adding entries one by one never drops a header, and every header's earlier values stay at the front of its list |
| `Proxy.AddAllKeys` | src/main/kotlin/org/projects/app/orchestrator/controller/ProxyController.kt:51-52 | The outgoing headers are exactly the keys of the reply's header entries |
| `Proxy.AddAllDistinct` | src/main/kotlin/org/projects/app/orchestrator/controller/ProxyController.kt:51-52 | The reply's header map has each key once, so every key ends up holding exactly its own value |
| `Proxy.HeadersOf` | src/main/kotlin/org/projects/app/orchestrator/controller/ProxyController.kt:51-52 | No header map gives no headers; otherwise the outgoing headers are exactly the map's keys, each with the one-element list of its value |
| `Proxy.ResponseFor` | src/main/kotlin/org/projects/app/orchestrator/controller/ProxyController.kt:49-56 | Unreadable text throws JsonProcessingException and an unknown status code IllegalArgumentException. Otherwise the status is passed through, the headers are `HeadersOf` the reply's map, and the body is the reply's body or "" when absent |
| `Proxy.InvocationResponse` | src/main/kotlin/org/projects/app/orchestrator/controller/ProxyController.kt:40-46 | An invoke exception propagates. A function error answers 400 with no body, and the reply is not read. Otherwise the reply is translated |
| `Proxy.ProxyController.ProxyByHost` | src/main/kotlin/org/projects/app/orchestrator/controller/ProxyController.kt:26-47 | Unless the host's tenant has an ACTIVE record, the answer is 404 and the backend is not called. Otherwise exactly one invocation is made for the tenant with the request's event, and its outcome is translated |
| `Proxy.ProxyController.BuildHttpResponse` | src/main/kotlin/org/projects/app/orchestrator/controller/ProxyController.kt:49-56 | The header loop computes `ResponseFor` of the result |

## Left out

- Concurrency: the model is sequential. Races between deploys of the same tenant, and request-per-thread serving, are not modelled.
- The AWS SDK: request builders, `SdkBytes` and credentials (`AwsLambdaConfig.kt`) are not modelled. The client is the `LambdaClient` oracle, and Base64 decoding is an injected partial function.
- JDBC: SQL text, `ResultSet` column parsing, UUID and timestamp conversion, and the database schema are not modelled. Any uniqueness constraint on `name` in the schema is not part of this model.
- Handler.LambdaFunctionHandler.Create: it does not model how `System.getenv` reads the role. The role is a constant of the handler.
- Jackson: serialisation of the event to text and parsing of the reply are not modelled. The event is a `LambdaEvent` value and the reply a `ResultText`, which is either a parsed `ApiGatewayProxyResponse` or text that fails to parse.
- Proxy.GetHeader: compares header names exactly. Servlet containers compare them case-insensitively.
- Proxy.AddHeader: keys are compared exactly. Spring's `HttpHeaders` compares them case-insensitively.
- Proxy.BuildLambdaEvent: the request body is text. Reading the input stream's bytes and their character decoding are not modelled.
- Proxy.ResponseFor: the body is text; the UTF-8 encoding of `toByteArray` is not modelled.
- Proxy.ResponseFor: the set of codes `HttpStatus.valueOf` accepts is the injected predicate `isHttpStatus`, not Spring's enum.
- Logging: the logging calls are side effects only and are not modelled.
- Exception messages: they are only logged, so exceptions carry no text.
- The web framework's answers to exceptions: an exception thrown from a controller is returned as `Abrupt`; Spring would answer 500.
- `AppController.deploy`'s ALREADY_EXISTS branch is not modelled: the status does not exist, so the branch can never fire.
- The record `id` is not modelled, because `ApplicationInfo` has no such field.
- Repository.Where: no `ORDER BY` is written in the source. The rows are assumed to come back in storage order.
