/** The host-based proxy (ProxyController): the tenant is the first label of the Host header,
    only ACTIVE tenants are invoked, the request is flattened into an invocation event, and the
    function's reply is turned back into an HTTP response. */
module Proxy {
  import opened Model
  import opened Repository
  import opened Handler
  import opened Service

  const HostHeader: string := "Host"

  /** The parts of an HttpServletRequest the proxy reads. `headers` lists the header lines in
      order; the body is the text of the request's input stream. */
  datatype HttpServletRequest = HttpServletRequest(
    serverName: string,
    requestURI: string,
    httpMethod: string,
    parameterMap: map<string, seq<string>>,
    headers: seq<(string, string)>,
    body: string)

  /** A ResponseEntity<ByteArray>: status code, HttpHeaders (name to values) and body. */
  datatype ProxyEntity = ProxyEntity(statusCode: int, headers: map<string, seq<string>>, body: Option<string>)

  /** getHeader: the value of the first header line with the name, if any. */
  function GetHeader(headers: seq<(string, string)>, name: string): (r: Option<string>)
    ensures r.None? <==> forall i :: 0 <= i < |headers| ==> headers[i].0 != name
    ensures r.Some? ==> exists i :: 0 <= i < |headers| && headers[i] == (name, r.value) &&
                                    forall j :: 0 <= j < i ==> headers[j].0 != name
    decreases |headers|
  {
    if headers == [] then None
    else if headers[0].0 == name then Some(headers[0].1)
    else
      var rest := GetHeader(headers[1..], name);
      assert rest.Some? ==> exists i :: 1 <= i < |headers| && headers[i] == (name, rest.value) &&
                                        forall j :: 0 <= j < i ==> headers[j].0 != name by {
        if rest.Some? {
          var k :| 0 <= k < |headers[1..]| && headers[1..][k] == (name, rest.value) &&
                   forall j :: 0 <= j < k ==> headers[1..][j].0 != name;
          assert headers[k + 1] == (name, rest.value);
          assert forall j :: 0 <= j < k + 1 ==> headers[j].0 != name by {
            forall j | 0 < j < k + 1
              ensures headers[j].0 != name
            {
              assert headers[j] == headers[1..][j - 1];
            }
          }
        }
      }
      rest
  }

  /** The host the request was addressed to: the Host header, else the server name. */
  function HostOf(request: HttpServletRequest): (r: string)
    ensures GetHeader(request.headers, HostHeader).Some? ==> r == GetHeader(request.headers, HostHeader).value
    ensures GetHeader(request.headers, HostHeader).None? ==> r == request.serverName
  {
    match GetHeader(request.headers, HostHeader)
    case Some(host) => host
    case None => request.serverName
  }

  /** substringBefore: the text up to the first delimiter, or all of it when there is none. */
  function SubstringBefore(s: string, delimiter: char): (r: string)
    ensures |r| <= |s| && r == s[..|r|]
    ensures delimiter !in r
    ensures |r| < |s| ==> s[|r|] == delimiter
    decreases |s|
  {
    if s == [] then []
    else if s[0] == delimiter then []
    else [s[0]] + SubstringBefore(s[1..], delimiter)
  }

  /** The tenant a request is for: the host up to its first dot, which is the longest prefix
      of the host without a dot. */
  function TenantName(request: HttpServletRequest): (r: string)
    ensures var host := HostOf(request);
      && |r| <= |host| && r == host[..|r|]
      && '.' !in r
      && (|r| < |host| ==> host[|r|] == '.')
  {
    SubstringBefore(HostOf(request), '.')
  }

  /** The tenant of `name.rest` is `name`, and a host without a dot is a tenant name itself. */
  lemma TenantOfSubdomain(name: string, rest: string)
    requires '.' !in name
    ensures SubstringBefore(name + "." + rest, '.') == name
    ensures SubstringBefore(name, '.') == name
  {
    var s := name + "." + rest;
    var r := SubstringBefore(s, '.');
    assert s[|name|] == '.';
    assert r == s[..|name|] == name;
  }

  /** firstOrNull on a parameter's values. */
  function FirstOrNone(values: seq<string>): (r: Option<string>)
    ensures r.None? <==> values == []
    ensures r.Some? ==> r.value == values[0]
  {
    if values == [] then None else Some(values[0])
  }

  /** The event's queryStringParameters: absent when there are no parameters, else each
      parameter with its first value. */
  function QueryParameters(parameterMap: map<string, seq<string>>): (r: Option<map<string, Option<string>>>)
    ensures r.None? <==> parameterMap == map[]
    ensures r.Some? ==> r.value.Keys == parameterMap.Keys &&
                        forall k :: k in parameterMap ==> r.value[k] == FirstOrNone(parameterMap[k])
  {
    if parameterMap == map[] then None
    else Some(map k | k in parameterMap :: FirstOrNone(parameterMap[k]))
  }

  /** The event's headers: every header name of the request, with its first value. */
  function EventHeaders(headers: seq<(string, string)>): (r: map<string, Option<string>>)
    ensures forall name :: name in r <==> exists i :: 0 <= i < |headers| && headers[i].0 == name
    ensures forall name :: name in r ==> r[name].Some? && r[name] == GetHeader(headers, name)
  {
    map name | name in (set i | 0 <= i < |headers| :: headers[i].0) :: GetHeader(headers, name)
  }

  /** buildLambdaEventPayload, before serialisation: an empty body is absent. */
  function BuildLambdaEvent(request: HttpServletRequest): (r: LambdaEvent)
    ensures r.path == request.requestURI && r.httpMethod == request.httpMethod
    ensures r.queryStringParameters == QueryParameters(request.parameterMap)
    ensures r.headers == EventHeaders(request.headers)
    ensures r.body.None? <==> request.body == ""
    ensures r.body.Some? ==> r.body.value == request.body
  {
    LambdaEvent(request.requestURI, request.httpMethod, QueryParameters(request.parameterMap),
                EventHeaders(request.headers), if request.body == "" then None else Some(request.body))
  }

  /** HttpHeaders.add: appends a value to the header's list. */
  function AddHeader(headers: map<string, seq<string>>, key: string, value: string): (r: map<string, seq<string>>)
    ensures r.Keys == headers.Keys + {key}
    ensures r[key] == (if key in headers then headers[key] else []) + [value]
    ensures forall k :: k in headers && k != key ==> r[k] == headers[k]
  {
    headers[key := (if key in headers then headers[key] else []) + [value]]
  }

  /** The headers after adding every entry, in order. Adding never drops a header or a value
      already there. */
  function AddAll(headers: map<string, seq<string>>, entries: seq<(string, string)>): (r: map<string, seq<string>>)
    ensures headers.Keys <= r.Keys
    ensures forall k :: k in headers ==> |headers[k]| <= |r[k]| && r[k][..|headers[k]|] == headers[k]
    decreases |entries|
  {
    if entries == [] then headers
    else
      var last := entries[|entries| - 1];
      AddHeader(AddAll(headers, entries[..|entries| - 1]), last.0, last.1)
  }

  /** The headers added are exactly the entries' keys. */
  lemma {:induction false} AddAllKeys(entries: seq<(string, string)>)
    ensures forall k :: k in AddAll(map[], entries) <==> exists i :: 0 <= i < |entries| && entries[i].0 == k
    decreases |entries|
  {
    if entries != [] {
      var init := entries[..|entries| - 1];
      AddAllKeys(init);
      forall k | k in AddAll(map[], init)
        ensures exists i :: 0 <= i < |entries| && entries[i].0 == k
      {
        var i :| 0 <= i < |init| && init[i].0 == k;
        assert entries[i] == init[i];
      }
      forall k | exists i :: 0 <= i < |entries| && entries[i].0 == k
        ensures k in AddAll(map[], entries)
      {
        var i :| 0 <= i < |entries| && entries[i].0 == k;
        if i < |init| {
          assert init[i] == entries[i];
        }
      }
    }
  }

  /** The reply's headers are a map, so its keys are distinct, and then every key ends up with
      exactly its own value. */
  lemma {:induction false} AddAllDistinct(entries: HeaderEntries)
    ensures forall i :: 0 <= i < |entries| ==>
      entries[i].0 in AddAll(map[], entries) && AddAll(map[], entries)[entries[i].0] == [entries[i].1]
    decreases |entries|
  {
    AddAllKeys(entries);
    if entries != [] {
      var init := entries[..|entries| - 1];
      var last := entries[|entries| - 1];
      assert DistinctKeys(init);
      AddAllDistinct(init);
      AddAllKeys(init);
      assert last.0 !in AddAll(map[], init) by {
        forall i | 0 <= i < |init|
          ensures init[i].0 != last.0
        {
          assert init[i] == entries[i];
        }
      }
      forall i | 0 <= i < |init|
        ensures entries[i].0 in AddAll(map[], entries) && AddAll(map[], entries)[entries[i].0] == [entries[i].1]
      {
        assert entries[i] == init[i];
      }
    }
  }

  /** The HttpHeaders built from the reply's optional header map: no headers when it is
      absent, else exactly its keys, each with its own value alone. */
  function HeadersOf(headers: Option<HeaderEntries>): (r: map<string, seq<string>>)
    ensures headers.None? ==> r == map[]
    ensures headers.Some? ==>
      && (forall k :: k in r <==> exists i :: 0 <= i < |headers.value| && headers.value[i].0 == k)
      && (forall i :: 0 <= i < |headers.value| ==> r[headers.value[i].0] == [headers.value[i].1])
  {
    match headers
    case None => map[]
    case Some(entries) =>
      AddAllKeys(entries);
      AddAllDistinct(entries);
      AddAll(map[], entries)
  }

  /** buildHttpResponse: text that is not a proxy response fails in the JSON reader and a
      status code HttpStatus does not know is rejected; otherwise the reply's status, headers
      and body (empty when absent) are sent on. */
  function ResponseFor(result: ResultText, isHttpStatus: int -> bool): (r: Completion<ProxyEntity>)
    ensures result.UnreadableText? ==> r == Abrupt(JsonProcessingException)
    ensures result.ProxyResponseJson? && !isHttpStatus(result.response.statusCode) ==>
      r == Abrupt(IllegalArgumentException)
    ensures r.Normal? <==> result.ProxyResponseJson? && isHttpStatus(result.response.statusCode)
    ensures r.Normal? ==>
      && r.value.statusCode == result.response.statusCode
      && r.value.headers == HeadersOf(result.response.headers)
      && r.value.body.Some?
      && (result.response.body.Some? ==> r.value.body.value == result.response.body.value)
      && (result.response.body.None? ==> r.value.body.value == "")
  {
    match result
    case UnreadableText => Abrupt(JsonProcessingException)
    case ProxyResponseJson(response) =>
      if !isHttpStatus(response.statusCode) then Abrupt(IllegalArgumentException)
      else
        var body := match response.body case Some(text) => text case None => "";
        Normal(ProxyEntity(response.statusCode, HeadersOf(response.headers), Some(body)))
  }

  /** What proxyByHost answers once the function was invoked: an exception propagates, a
      function error is 400 without a body, otherwise the reply is sent on. */
  function InvocationResponse(outcome: Completion<InvokeResponse>, isHttpStatus: int -> bool): (r: Completion<ProxyEntity>)
    ensures outcome.Abrupt? ==> r == Abrupt(outcome.exception)
    ensures outcome.Normal? && outcome.value.functionError.Some? ==>
      r == Normal(ProxyEntity(BadRequest, map[], None))
    ensures outcome.Normal? && outcome.value.functionError.None? ==>
      r == ResponseFor(outcome.value.payload, isHttpStatus)
  {
    match ToInvokeResult(outcome)
    case Abrupt(e) => Abrupt(e)
    case Normal(invokeResult) =>
      if invokeResult.error.Some? then Normal(ProxyEntity(BadRequest, map[], None))
      else ResponseFor(invokeResult.result, isHttpStatus)
  }

  class ProxyController {
    const nodeAppService: NodeAppService
    const lambdaFunctionHandler: LambdaFunctionHandler
    /** Whether HttpStatus.valueOf knows the code. */
    const isHttpStatus: int -> bool

    constructor (nodeAppService: NodeAppService, lambdaFunctionHandler: LambdaFunctionHandler,
                 isHttpStatus: int -> bool)
      ensures this.nodeAppService == nodeAppService && this.lambdaFunctionHandler == lambdaFunctionHandler
      ensures this.isHttpStatus == isHttpStatus
    {
      this.nodeAppService := nodeAppService;
      this.lambdaFunctionHandler := lambdaFunctionHandler;
      this.isHttpStatus := isHttpStatus;
    }

    /** Any request: a tenant without an ACTIVE record is 404 and the backend is not called;
        otherwise its function is invoked once with the request's event. */
    method ProxyByHost(request: HttpServletRequest) returns (r: Completion<ProxyEntity>)
      modifies lambdaFunctionHandler
      ensures var appName := TenantName(request);
              var app := Lookup(nodeAppService.appRepository.rows, appName);
              if app.Some? && app.value.status == NodeAppStatus.ACTIVE then
                var event := BuildLambdaEvent(request);
                var outcome := lambdaFunctionHandler.client.invoke(appName, event, |old(lambdaFunctionHandler.log)|);
                && lambdaFunctionHandler.log == old(lambdaFunctionHandler.log) + [InvokeCall(appName, event, outcome)]
                && r == InvocationResponse(outcome, isHttpStatus)
              else
                lambdaFunctionHandler.log == old(lambdaFunctionHandler.log) &&
                r == Normal(ProxyEntity(NotFound, map[], None))
    {
      var appName := TenantName(request);
      var appServiceResponse := nodeAppService.GetByName(appName);
      if appServiceResponse.status != SUCCESS || appServiceResponse.applicationInfo.None? ||
         appServiceResponse.applicationInfo.value.status != NodeAppStatus.ACTIVE {
        return Normal(ProxyEntity(NotFound, map[], None));
      }
      var payload := BuildLambdaEvent(request);
      var invokeResult := lambdaFunctionHandler.Invoke(appName, payload);
      if invokeResult.Abrupt? {
        return Abrupt(invokeResult.exception);
      }
      if invokeResult.value.error.Some? {
        return Normal(ProxyEntity(BadRequest, map[], None));
      }
      r := BuildHttpResponse(invokeResult.value);
    }

    /** buildHttpResponse, adding the reply's headers one by one. */
    method BuildHttpResponse(invokeResult: InvokeResult) returns (r: Completion<ProxyEntity>)
      ensures r == ResponseFor(invokeResult.result, isHttpStatus)
    {
      if invokeResult.result.UnreadableText? {
        return Abrupt(JsonProcessingException);
      }
      var lambdaResponse := invokeResult.result.response;
      var headers: map<string, seq<string>> := map[];
      if lambdaResponse.headers.Some? {
        var entries := lambdaResponse.headers.value;
        for i := 0 to |entries|
          invariant headers == AddAll(map[], entries[..i])
        {
          assert entries[..i + 1][..i] == entries[..i];
          headers := AddHeader(headers, entries[i].0, entries[i].1);
        }
        assert entries[..|entries|] == entries;
      }
      if !isHttpStatus(lambdaResponse.statusCode) {
        return Abrupt(IllegalArgumentException);
      }
      var body := match lambdaResponse.body case Some(text) => text case None => "";
      r := Normal(ProxyEntity(lambdaResponse.statusCode, headers, Some(body)));
    }
  }
}
