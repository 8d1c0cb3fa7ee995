/** The bridge to the function-as-a-service backend (LambdaFunctionHandler): get, create,
    update, remove and invoke, and the activation wait that polls `get` against a deadline.
    The provider itself is an oracle (LambdaClient) and the wall clock a Clock object; the
    handler records every provider call, with its outcome, in `log`. */
module Handler {
  import opened Model

  newtype byte = x: int | 0 <= x < 256

  datatype Runtime = NODEJS20_X | OtherRuntime(id: string)
  datatype PackageType = ZIP | IMAGE
  datatype Architecture = ARM64 | X86_64

  /** The readiness state a function configuration reports (the SDK's State enum). */
  datatype State = Pending | Active | Inactive | Failed

  datatype FunctionConfiguration = FunctionConfiguration(functionName: string, state: State)

  datatype AwsLambda = AwsLambda(
    name: string,
    runtime: Runtime,
    packageType: PackageType,
    packageFileBase64: string,
    handler: string)

  const DefaultHandler: string := "index.handler"
  /** The function timeout, in seconds, that create asks for. */
  const FunctionTimeoutSeconds: int := 60
  /** How long the activation wait lasts, and how long it sleeps between polls. */
  const WaitTimeMilliseconds: nat := 60000
  const PollIntervalMilliseconds: nat := 100

  datatype CreateFunctionRequest = CreateFunctionRequest(
    functionName: string,
    runtime: Runtime,
    handler: string,
    role: string,
    packageType: PackageType,
    architectures: seq<Architecture>,
    zipFile: seq<byte>,
    timeout: int)

  /** The request create builds for a lambda, a role and the decoded archive. */
  function CreateRequest(awsLambda: AwsLambda, role: string, zip: seq<byte>): (r: CreateFunctionRequest)
    ensures r.functionName == awsLambda.name && r.runtime == awsLambda.runtime
    ensures r.handler == awsLambda.handler && r.packageType == awsLambda.packageType
    ensures r.role == role && r.zipFile == zip
    ensures r.architectures == [ARM64] && r.timeout == 60
  {
    CreateFunctionRequest(awsLambda.name, awsLambda.runtime, awsLambda.handler, role,
                          awsLambda.packageType, [ARM64], zip, FunctionTimeoutSeconds)
  }

  /** A GetFunction reply: whether the HTTP response succeeded, and the configuration. */
  datatype GetFunctionResponse = GetFunctionResponse(successful: bool, configuration: FunctionConfiguration)

  /** An Invoke reply: the returned text and the function error the provider reported, if any. */
  datatype InvokeResponse = InvokeResponse(payload: ResultText, functionError: Option<string>)

  datatype InvokeResult = InvokeResult(result: ResultText, error: Option<string>)

  /** The provider. The outcome of each operation is a function of the request and of the
      call's position in the handler's log, so successive calls may have any outcomes.
      A `bool` outcome is the HTTP response's isSuccessful. */
  datatype LambdaClient = LambdaClient(
    getFunction: (string, nat) -> Completion<GetFunctionResponse>,
    createFunction: (CreateFunctionRequest, nat) -> Completion<bool>,
    updateFunctionCode: (string, seq<byte>, nat) -> Completion<bool>,
    deleteFunction: (string, nat) -> Completion<bool>,
    invoke: (string, LambdaEvent, nat) -> Completion<InvokeResponse>)

  /** One call to the provider, with its outcome. */
  datatype BackendCall =
    | GetFunctionCall(name: string, at: Time, getOutcome: Completion<GetFunctionResponse>)
    | CreateFunctionCall(request: CreateFunctionRequest, createOutcome: Completion<bool>)
    | UpdateFunctionCodeCall(name: string, zipFile: seq<byte>, updateOutcome: Completion<bool>)
    | DeleteFunctionCall(name: string, deleteOutcome: Completion<bool>)
    | InvokeCall(name: string, payload: LambdaEvent, invokeOutcome: Completion<InvokeResponse>)

  /** get: not-found and unsuccessful responses become None, other exceptions propagate. */
  function GetResult(outcome: Completion<GetFunctionResponse>): (r: Completion<Option<FunctionConfiguration>>)
    ensures r == Normal(None) <==>
      outcome == Abrupt(ResourceNotFoundException) || (outcome.Normal? && !outcome.value.successful)
    ensures (r.Normal? && r.value.Some?) <==> (outcome.Normal? && outcome.value.successful)
    ensures r.Normal? && r.value.Some? ==> r.value.value == outcome.value.configuration
    ensures r.Abrupt? <==> outcome.Abrupt? && outcome.exception != ResourceNotFoundException
    ensures r.Abrupt? ==> r.exception == outcome.exception
  {
    match outcome
    case Abrupt(e) => if e == ResourceNotFoundException then Normal(None) else Abrupt(e)
    case Normal(response) =>
      if response.successful then Normal(Some(response.configuration)) else Normal(None)
  }

  /** A `get` result that ends the activation wait successfully. */
  predicate IsActive(r: Completion<Option<FunctionConfiguration>>)
  {
    r.Normal? && r.value.Some? && r.value.value.state == Active
  }

  /** A poll after which the activation wait sleeps and polls again. */
  predicate KeepsPolling(outcome: Completion<GetFunctionResponse>)
  {
    GetResult(outcome).Normal? && !IsActive(GetResult(outcome))
  }

  predicate AllGets(polls: seq<BackendCall>)
  {
    forall i :: 0 <= i < |polls| ==> polls[i].GetFunctionCall?
  }

  /** How the activation wait ends, given its polls: ACTIVE returns, an exception from the
      last poll propagates, and otherwise the deadline passed. */
  function WaitOutcome(polls: seq<BackendCall>): (r: Completion<()>)
    requires AllGets(polls)
    ensures r.Normal? ==> |polls| > 0 && IsActive(GetResult(polls[|polls| - 1].getOutcome))
    ensures r == Abrupt(IllegalStateException) <==>
      (polls == [] || KeepsPolling(polls[|polls| - 1].getOutcome) ||
       GetResult(polls[|polls| - 1].getOutcome) == Abrupt(IllegalStateException))
  {
    if polls == [] then Abrupt(IllegalStateException)
    else
      var last := GetResult(polls[|polls| - 1].getOutcome);
      if last.Abrupt? then Abrupt(last.exception)
      else if IsActive(last) then Normal(())
      else Abrupt(IllegalStateException)
  }

  /** invoke: the provider's payload is the result and its function error the error. */
  function ToInvokeResult(outcome: Completion<InvokeResponse>): (r: Completion<InvokeResult>)
    ensures r.Normal? <==> outcome.Normal?
    ensures r.Normal? ==> r.value.result == outcome.value.payload && r.value.error == outcome.value.functionError
    ensures r.Abrupt? ==> r.exception == outcome.exception
  {
    match outcome
    case Normal(response) => Normal(InvokeResult(response.payload, response.functionError))
    case Abrupt(e) => Abrupt(e)
  }

  ghost predicate Extends(before: seq<BackendCall>, after: seq<BackendCall>)
  {
    |before| <= |after| && after[..|before|] == before
  }

  /** The wall clock. A sleep lasts at least as long as asked; `oversleep` says how much longer. */
  class Clock {
    var now: Time
    const oversleep: Time -> nat

    constructor (start: Time, oversleep: Time -> nat)
      ensures now == start && this.oversleep == oversleep
    {
      now := start;
      this.oversleep := oversleep;
    }

    method Sleep(ms: nat)
      modifies this
      ensures now == old(now) + ms + oversleep(old(now))
    {
      now := now + ms + oversleep(now);
    }
  }

  class LambdaFunctionHandler {
    const client: LambdaClient
    const clock: Clock
    /** The AWS_LAMBDA_ROLE_ARN environment variable. */
    const roleArn: Option<string>
    /** Base64 decoding of an archive; None where the text is not valid Base64. */
    const decodeBase64: string -> Option<seq<byte>>
    /** Every provider call made so far, in order. */
    var log: seq<BackendCall>

    constructor (client: LambdaClient, clock: Clock, roleArn: Option<string>,
                 decodeBase64: string -> Option<seq<byte>>)
      ensures this.client == client && this.clock == clock && this.roleArn == roleArn
      ensures this.decodeBase64 == decodeBase64 && log == []
    {
      this.client := client;
      this.clock := clock;
      this.roleArn := roleArn;
      this.decodeBase64 := decodeBase64;
      log := [];
    }

    /** The polls of an activation wait for `name` that started at `start` and, numbered
        from `base` in the log, were all answered "keep polling"; the clock now reads `now`. */
    ghost predicate PollsUnder(name: string, base: nat, polls: seq<BackendCall>, start: Time)
    {
      && AllGets(polls)
      && (forall i :: 0 <= i < |polls| ==>
            polls[i].name == name && polls[i].getOutcome == client.getFunction(name, base + i)
            && start <= polls[i].at < start + WaitTimeMilliseconds)
      && (forall i :: 0 < i < |polls| ==> polls[i - 1].at + PollIntervalMilliseconds <= polls[i].at)
    }

    /** An activation wait for `name` from `start` to `end`, that issued `polls` and ended with `r`. */
    ghost predicate ActivationWait(name: string, base: nat, polls: seq<BackendCall>, start: Time, end: Time,
                                   r: Completion<()>)
    {
      && PollsUnder(name, base, polls, start)
      && (forall i :: 0 <= i < |polls| - 1 ==> KeepsPolling(polls[i].getOutcome))
      && r == WaitOutcome(polls)
      && (polls == [] || KeepsPolling(polls[|polls| - 1].getOutcome) ==> end >= start + WaitTimeMilliseconds)
    }

    /** After the provisioning call: throw on an exception or an unsuccessful response,
        otherwise wait for activation. */
    ghost predicate ProvisionThenWait(name: string, outcome: Completion<bool>, base: nat,
                                      polls: seq<BackendCall>, start: Time, end: Time, r: Completion<()>)
    {
      match outcome
      case Abrupt(e) => polls == [] && end == start && r == Abrupt(e)
      case Normal(successful) =>
        if successful then ActivationWait(name, base, polls, start, end, r)
        else polls == [] && end == start && r == Abrupt(RuntimeException)
    }

    /** The calls `create` makes (numbered from `base`) and how it ends. */
    ghost predicate CreateTrace(awsLambda: AwsLambda, base: nat, calls: seq<BackendCall>,
                                start: Time, end: Time, r: Completion<()>)
    {
      match roleArn
      case None => calls == [] && end == start && r == Abrupt(IllegalArgumentException)
      case Some(role) =>
        match decodeBase64(awsLambda.packageFileBase64)
        case None => calls == [] && end == start && r == Abrupt(IllegalArgumentException)
        case Some(zip) =>
          var request := CreateRequest(awsLambda, role, zip);
          var outcome := client.createFunction(request, base);
          && |calls| >= 1
          && calls[0] == CreateFunctionCall(request, outcome)
          && ProvisionThenWait(awsLambda.name, outcome, base + 1, calls[1..], start, end, r)
    }

    /** The calls `update` makes (numbered from `base`) and how it ends. */
    ghost predicate UpdateTrace(name: string, archive: string, base: nat, calls: seq<BackendCall>,
                                start: Time, end: Time, r: Completion<()>)
    {
      var existing := GetResult(client.getFunction(name, base));
      && |calls| >= 1
      && calls[0] == GetFunctionCall(name, start, client.getFunction(name, base))
      && if existing.Abrupt? then
           |calls| == 1 && end == start && r == Abrupt(existing.exception)
         else if existing.value.None? then
           |calls| == 1 && end == start && r == Abrupt(IllegalArgumentException)
         else
           match decodeBase64(archive)
           case None => |calls| == 1 && end == start && r == Abrupt(IllegalArgumentException)
           case Some(zip) =>
             var outcome := client.updateFunctionCode(name, zip, base + 1);
             && |calls| >= 2
             && calls[1] == UpdateFunctionCodeCall(name, zip, outcome)
             && ProvisionThenWait(name, outcome, base + 2, calls[2..], start, end, r)
    }

    /** The call `remove` makes (numbered `base`) and how it ends: exceptions propagate. */
    ghost predicate RemoveTrace(name: string, base: nat, calls: seq<BackendCall>, r: Completion<()>)
    {
      var outcome := client.deleteFunction(name, base);
      && calls == [DeleteFunctionCall(name, outcome)]
      && (r.Normal? <==> outcome.Normal?)
      && (outcome.Abrupt? ==> r == Abrupt(outcome.exception))
    }

    method Get(name: string) returns (r: Completion<Option<FunctionConfiguration>>)
      modifies this
      ensures log == old(log) + [GetFunctionCall(name, clock.now, client.getFunction(name, |old(log)|))]
      ensures r == GetResult(client.getFunction(name, |old(log)|))
    {
      var outcome := client.getFunction(name, |log|);
      log := log + [GetFunctionCall(name, clock.now, outcome)];
      r := GetResult(outcome);
    }

    /** One more poll that was issued before the deadline, at least a poll interval after
        the previous one, keeps the polls well formed. */
    lemma PollsUnderSnoc(name: string, base: nat, polls: seq<BackendCall>, start: Time, call: BackendCall)
      requires PollsUnder(name, base, polls, start)
      requires call.GetFunctionCall? && call.name == name
      requires call.getOutcome == client.getFunction(name, base + |polls|)
      requires start <= call.at < start + WaitTimeMilliseconds
      requires polls != [] ==> polls[|polls| - 1].at + PollIntervalMilliseconds <= call.at
      ensures PollsUnder(name, base, polls + [call], start)
    {
      var extended := polls + [call];
      forall i | 0 <= i < |extended|
        ensures extended[i].GetFunctionCall? && extended[i].name == name
        ensures extended[i].getOutcome == client.getFunction(name, base + i)
        ensures start <= extended[i].at < start + WaitTimeMilliseconds
      {
        if i < |polls| {
          assert extended[i] == polls[i];
        }
      }
    }

    /** The state of an activation wait between polls: every poll so far said "keep
        polling", and the clock has moved at least a poll interval past the last one. */
    ghost predicate Waiting(name: string, base: nat, polls: seq<BackendCall>, start: Time, now: Time)
    {
      && start <= now
      && PollsUnder(name, base, polls, start)
      && (forall i :: 0 <= i < |polls| ==> KeepsPolling(polls[i].getOutcome))
      && (polls != [] ==> polls[|polls| - 1].at + PollIntervalMilliseconds <= now)
    }

    /** A poll issued at `call.at`, before the deadline, that says "keep polling", followed by
        a sleep of at least a poll interval, keeps the wait going. */
    lemma WaitContinues(name: string, base: nat, polls: seq<BackendCall>, start: Time, call: BackendCall, now: Time)
      requires call.GetFunctionCall? && call.name == name
      requires Waiting(name, base, polls, start, call.at)
      requires call.getOutcome == client.getFunction(name, base + |polls|)
      requires call.at < start + WaitTimeMilliseconds
      requires KeepsPolling(call.getOutcome) && call.at + PollIntervalMilliseconds <= now
      ensures Waiting(name, base, polls + [call], start, now)
    {
      PollsUnderSnoc(name, base, polls, start, call);
      var extended := polls + [call];
      forall i | 0 <= i < |extended|
        ensures KeepsPolling(extended[i].getOutcome)
      {
        if i < |polls| {
          assert extended[i] == polls[i];
        }
      }
    }

    /** A poll before the deadline that does not say "keep polling" ends the wait: with the
        poll's exception, or normally when it saw ACTIVE. */
    lemma WaitStops(name: string, base: nat, polls: seq<BackendCall>, start: Time, call: BackendCall, end: Time)
      requires call.GetFunctionCall? && call.name == name
      requires Waiting(name, base, polls, start, call.at)
      requires call.getOutcome == client.getFunction(name, base + |polls|)
      requires call.at < start + WaitTimeMilliseconds
      requires !KeepsPolling(call.getOutcome)
      ensures AllGets(polls + [call])
      ensures ActivationWait(name, base, polls + [call], start, end, WaitOutcome(polls + [call]))
      ensures WaitOutcome(polls + [call]) ==
        if GetResult(call.getOutcome).Abrupt? then Abrupt(GetResult(call.getOutcome).exception) else Normal(())
    {
      PollsUnderSnoc(name, base, polls, start, call);
      var extended := polls + [call];
      assert extended[|extended| - 1] == call;
      forall i | 0 <= i < |extended| - 1
        ensures KeepsPolling(extended[i].getOutcome)
      {
        assert extended[i] == polls[i];
      }
    }

    /** Reaching the deadline while waiting ends the wait with IllegalStateException. */
    lemma WaitTimesOut(name: string, base: nat, polls: seq<BackendCall>, start: Time, end: Time)
      requires Waiting(name, base, polls, start, end) && end >= start + WaitTimeMilliseconds
      ensures ActivationWait(name, base, polls, start, end, Abrupt(IllegalStateException))
    {
    }

    /** Poll i of a wait happens at least i poll intervals after the wait started. */
    lemma {:induction false} PollsSpaced(name: string, base: nat, polls: seq<BackendCall>, start: Time, i: nat)
      requires PollsUnder(name, base, polls, start) && i < |polls|
      ensures polls[i].at >= start + i * PollIntervalMilliseconds
      decreases i
    {
      if i > 0 {
        PollsSpaced(name, base, polls, start, i - 1);
      }
    }

    /** The deadline bounds the activation wait: at most 600 polls fit in 60 seconds. */
    lemma PollCount(name: string, base: nat, polls: seq<BackendCall>, start: Time)
      requires PollsUnder(name, base, polls, start)
      ensures |polls| <= WaitTimeMilliseconds / PollIntervalMilliseconds
    {
      if polls != [] {
        PollsSpaced(name, base, polls, start, |polls| - 1);
      }
    }

    /** create issues one CreateFunction request, then nothing but GetFunction polls. */
    lemma CreateTraceIssues(awsLambda: AwsLambda, base: nat, calls: seq<BackendCall>,
                            start: Time, end: Time, r: Completion<()>)
      requires CreateTrace(awsLambda, base, calls, start, end, r)
      ensures forall i :: 0 <= i < |calls| ==>
        if i == 0 then calls[i].CreateFunctionCall? else calls[i].GetFunctionCall?
    {
      if calls != [] {
        assert AllGets(calls[1..]);
        forall i | 0 < i < |calls|
          ensures calls[i].GetFunctionCall?
        {
          assert calls[i] == calls[1..][i - 1];
        }
      }
    }

    /** update issues one GetFunction probe, at most one UpdateFunctionCode request, then
        nothing but GetFunction polls. */
    lemma UpdateTraceIssues(name: string, archive: string, base: nat, calls: seq<BackendCall>,
                            start: Time, end: Time, r: Completion<()>)
      requires UpdateTrace(name, archive, base, calls, start, end, r)
      ensures forall i :: 0 <= i < |calls| ==>
        if i == 1 then calls[i].UpdateFunctionCodeCall? else calls[i].GetFunctionCall?
    {
      if |calls| >= 2 {
        assert AllGets(calls[2..]);
        forall i | 1 < i < |calls|
          ensures calls[i].GetFunctionCall?
        {
          assert calls[i] == calls[2..][i - 2];
        }
      }
    }

    method WaitForLambdaActivation(name: string) returns (r: Completion<()>)
      modifies this, clock
      ensures Extends(old(log), log)
      ensures ActivationWait(name, |old(log)|, log[|old(log)|..], old(clock.now), clock.now, r)
    {
      var waitUntilTime := clock.now + WaitTimeMilliseconds;
      ghost var start := clock.now;
      ghost var base := |log|;
      ghost var polls: seq<BackendCall> := [];
      while clock.now < waitUntilTime
        invariant log == old(log) + polls
        invariant Waiting(name, base, polls, start, clock.now)
        decreases waitUntilTime - clock.now
      {
        ghost var call := GetFunctionCall(name, clock.now, client.getFunction(name, base + |polls|));
        var fn := Get(name);
        if fn.Abrupt? || (fn.value.Some? && fn.value.value.state == Active) {
          WaitStops(name, base, polls, start, call, clock.now);
          polls := polls + [call];
          assert log[base..] == polls;
          r := if fn.Abrupt? then Abrupt(fn.exception) else Normal(());
          return;
        }
        clock.Sleep(PollIntervalMilliseconds);
        WaitContinues(name, base, polls, start, call, clock.now);
        polls := polls + [call];
      }
      WaitTimesOut(name, base, polls, start, clock.now);
      assert log[base..] == polls;
      r := Abrupt(IllegalStateException);
    }

    method Create(awsLambda: AwsLambda) returns (r: Completion<()>)
      modifies this, clock
      ensures Extends(old(log), log)
      ensures CreateTrace(awsLambda, |old(log)|, log[|old(log)|..], old(clock.now), clock.now, r)
    {
      if roleArn.None? {
        return Abrupt(IllegalArgumentException);
      }
      var zip := decodeBase64(awsLambda.packageFileBase64);
      if zip.None? {
        return Abrupt(IllegalArgumentException);
      }
      var request := CreateRequest(awsLambda, roleArn.value, zip.value);
      var response := client.createFunction(request, |log|);
      log := log + [CreateFunctionCall(request, response)];
      if response.Abrupt? {
        return Abrupt(response.exception);
      }
      if !response.value {
        return Abrupt(RuntimeException);
      }
      ghost var provisioned := log;
      r := WaitForLambdaActivation(awsLambda.name);
      assert log[|old(log)|..][1..] == log[|provisioned|..];
    }

    method Update(name: string, archive: string) returns (r: Completion<()>)
      modifies this, clock
      ensures Extends(old(log), log)
      ensures UpdateTrace(name, archive, |old(log)|, log[|old(log)|..], old(clock.now), clock.now, r)
    {
      var existing := Get(name);
      if existing.Abrupt? {
        return Abrupt(existing.exception);
      }
      if existing.value.None? {
        return Abrupt(IllegalArgumentException);
      }
      var zip := decodeBase64(archive);
      if zip.None? {
        return Abrupt(IllegalArgumentException);
      }
      var response := client.updateFunctionCode(name, zip.value, |log|);
      log := log + [UpdateFunctionCodeCall(name, zip.value, response)];
      if response.Abrupt? {
        return Abrupt(response.exception);
      }
      if !response.value {
        return Abrupt(RuntimeException);
      }
      ghost var provisioned := log;
      r := WaitForLambdaActivation(name);
      assert log[|old(log)|..][2..] == log[|provisioned|..];
    }

    method Remove(name: string) returns (r: Completion<()>)
      modifies this
      ensures Extends(old(log), log)
      ensures RemoveTrace(name, |old(log)|, log[|old(log)|..], r)
    {
      var outcome := client.deleteFunction(name, |log|);
      log := log + [DeleteFunctionCall(name, outcome)];
      r := if outcome.Abrupt? then Abrupt(outcome.exception) else Normal(());
    }

    method Invoke(functionName: string, event: LambdaEvent) returns (r: Completion<InvokeResult>)
      modifies this
      ensures log == old(log) + [InvokeCall(functionName, event, client.invoke(functionName, event, |old(log)|))]
      ensures r == ToInvokeResult(client.invoke(functionName, event, |old(log)|))
    {
      var outcome := client.invoke(functionName, event, |log|);
      log := log + [InvokeCall(functionName, event, outcome)];
      r := ToInvokeResult(outcome);
    }

    /** The overload of invoke that takes the lambda description. */
    method InvokeLambda(lambda: AwsLambda, event: LambdaEvent) returns (r: Completion<InvokeResult>)
      modifies this
      ensures log == old(log) + [InvokeCall(lambda.name, event, client.invoke(lambda.name, event, |old(log)|))]
      ensures r == ToInvokeResult(client.invoke(lambda.name, event, |old(log)|))
    {
      r := Invoke(lambda.name, event);
    }
  }
}
