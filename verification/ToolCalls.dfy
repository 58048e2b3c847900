/** pkg/workflow/tools.go: the nine tools that act on a single app, as calls routed to sidecars. */
module ToolCalls {
  import opened Text
  import opened AppRegistry

  const MAX_UINT32: nat := 0xFFFF_FFFF

  datatype ToolCall =
    | Start(appID: string, workflow: string, instanceID: string, input: string, startTime: string)
    | Status(appID: string, instanceID: string)
    | History(appID: string, instanceID: string)
    | Rerun(appID: string, instanceID: string, eventID: int, newInstanceID: string, input: string)
    | Pause(appID: string, instanceID: string, reason: string)
    | Resume(appID: string, instanceID: string, reason: string)
    | Terminate(appID: string, instanceID: string)
    | Raise(appID: string, instanceID: string, eventName: string, eventData: string)
    | Purge(appID: string, instanceID: string)

  /** What goes to a workflow client; an empty optional argument is not sent. */
  datatype ClientCall =
    | ScheduleWorkflow(workflow: string, instanceID: Option<string>, input: Option<string>, startTime: Option<int>)
    | FetchWorkflowMetadata(id: string, payloads: bool)
    | GetInstanceHistory(id: string)
    | RerunWorkflowFromEvent(id: string, eventID: nat, newID: Option<string>, input: Option<string>)
    | SuspendWorkflow(id: string, reason: string)
    | ResumeWorkflow(id: string, reason: string)
    | TerminateWorkflow(id: string)
    | RaiseEvent(id: string, name: string, data: Option<string>)
    | PurgeWorkflowState(id: string)

  datatype CallError =
    | BadEventID(eventID: int)
    | BadRoute(route: RouteError)
    | BadStartTime(text: string)
    | ClientFailed(appID: string, cause: string)

  type Reply = Result<(string, string), CallError>

  datatype Sidecar<S> = Sidecar(state: S, log: seq<ClientCall>)

  /** The registry, the time parser, and how a sidecar in some state answers a call. */
  datatype Env<!S> = Env(
    reg: Registry, parseTime: string -> Option<int>,
    exec: (Client, S, ClientCall) -> (S, Result<string, string>))

  function Optional(s: string): Option<string> {
    if s == "" then None else Some(s)
  }

  /** What a tool sends to its client: each of the nine tools has its own client call. */
  function RequestOf(call: ToolCall, at: Option<int>): ClientCall
    requires call.Rerun? ==> call.eventID >= 0
  {
    match call
    case Start(_, workflow, id, input, _) => ScheduleWorkflow(workflow, Optional(id), Optional(input), at)
    case Status(_, id) => FetchWorkflowMetadata(id, true)
    case History(_, id) => GetInstanceHistory(id)
    case Rerun(_, id, eventID, newID, input) => RerunWorkflowFromEvent(id, eventID, Optional(newID), Optional(input))
    case Pause(_, id, reason) => SuspendWorkflow(id, reason)
    case Resume(_, id, reason) => ResumeWorkflow(id, reason)
    case Terminate(_, id) => TerminateWorkflow(id)
    case Raise(_, id, name, data) => RaiseEvent(id, name, Optional(data))
    case Purge(_, id) => PurgeWorkflowState(id)
  }

  // ----- reading a client call back -----

  ghost function Given(o: Option<string>): string {
    if o.Some? then o.value else ""
  }

  /** The tool call, but for its start time, that a sidecar called like this was reached by. */
  ghost function ReceivedAs(appID: string, request: ClientCall): ToolCall {
    match request
    case ScheduleWorkflow(workflow, id, input, _) => Start(appID, workflow, Given(id), Given(input), "")
    case FetchWorkflowMetadata(id, _) => Status(appID, id)
    case GetInstanceHistory(id) => History(appID, id)
    case RerunWorkflowFromEvent(id, eventID, newID, input) => Rerun(appID, id, eventID, Given(newID), Given(input))
    case SuspendWorkflow(id, reason) => Pause(appID, id, reason)
    case ResumeWorkflow(id, reason) => Resume(appID, id, reason)
    case TerminateWorkflow(id) => Terminate(appID, id)
    case RaiseEvent(id, name, data) => Raise(appID, id, name, Given(data))
    case PurgeWorkflowState(id) => Purge(appID, id)
  }

  ghost predicate NothingEmptySent(request: ClientCall) {
    match request
    case ScheduleWorkflow(_, id, input, _) => id != Some("") && input != Some("")
    case RerunWorkflowFromEvent(_, _, newID, input) => newID != Some("") && input != Some("")
    case RaiseEvent(_, _, data) => data != Some("")
    case _ => true
  }

  /** The request is the one tool's client call, with every argument of the tool call in its
      place, an empty optional one left out, and the start time as parsed. */
  ghost predicate Conveys<S>(env: Env<S>, call: ToolCall, request: ClientCall) {
    && ReceivedAs(call.appID, request) == (if call.Start? then call.(startTime := "") else call)
    && (request.FetchWorkflowMetadata? ==> request.payloads)
    && (call.Start? ==>
          && request.startTime == (if call.startTime == "" then None else env.parseTime(call.startTime))
          && (request.startTime.None? ==> call.startTime == ""))
    && NothingEmptySent(request)
  }

  // ----- one tool call -----

  ghost predicate BadEvent(call: ToolCall) {
    call.Rerun? && !(0 <= call.eventID <= MAX_UINT32)
  }

  ghost predicate BadTime<S>(env: Env<S>, call: ToolCall) {
    call.Start? && call.startTime != "" && env.parseTime(call.startTime).None?
  }

  /** Where the call goes and as what: the event id is checked before the app-id, the start time after. */
  ghost function Prepare<S>(env: Env<S>, call: ToolCall): Result<(Target, ClientCall), CallError> {
    if BadEvent(call) then Failure(BadEventID(call.eventID))
    else if env.reg.Route(call.appID).Failure? then Failure(BadRoute(env.reg.Route(call.appID).error))
    else if BadTime(env, call) then Failure(BadStartTime(call.startTime))
    else
      var at := if call.Start? && call.startTime != "" then env.parseTime(call.startTime) else None;
      Success((env.reg.Route(call.appID).value, RequestOf(call, at)))
  }

  /** No argument is lost or changed on the way to the sidecar, and no tool makes another's call. */
  lemma ArgumentsArrive<S>(env: Env<S>, call: ToolCall)
    ensures Prepare(env, call).Success? ==> Conveys(env, call, Prepare(env, call).value.1)
  {
  }

  /** The app-id of the call, after an empty one is read as the only app, belongs to this client. */
  ghost predicate ResolvesTo(reg: Registry, call: ToolCall, c: Client) {
    reg.Route(call.appID).Success? && reg.Route(call.appID).value.client == c
  }

  type Sidecars<S> = map<Client, Sidecar<S>>

  ghost predicate Connected<S>(reg: Registry, sidecars: Sidecars<S>) {
    reg.defaultClient in sidecars && forall id | id in reg.byAppID :: reg.byAppID[id] in sidecars
  }

  lemma RouteIsConnected<S>(reg: Registry, sidecars: Sidecars<S>, appID: string)
    requires Connected(reg, sidecars) && reg.Route(appID).Success?
    ensures reg.Route(appID).value.client in sidecars
  {
  }

  /** One tool call: at most one client call, made on the resolved client and logged there. */
  ghost function Step<S>(env: Env<S>, sidecars: Sidecars<S>, call: ToolCall): (r: (Sidecars<S>, Reply))
    requires Connected(env.reg, sidecars)
    ensures r.0.Keys == sidecars.Keys
  {
    match Prepare(env, call)
    case Failure(e) => (sidecars, Failure(e))
    case Success((t, request)) =>
      RouteIsConnected(env.reg, sidecars, call.appID);
      var before := sidecars[t.client];
      var (state, answer) := env.exec(t.client, before.state, request);
      (sidecars[t.client := Sidecar(state, before.log + [request])],
       match answer case Failure(cause) => Failure(ClientFailed(t.appID, cause)) case Success(text) => Success((t.appID, text)))
  }

  /** The call did not get as far as a client. */
  ghost predicate Refused(reply: Reply) {
    reply.Failure? && !reply.error.ClientFailed?
  }

  /** The target's sidecar, and no other, has answered the request: it has logged it and moved to the
      state it answered with, and the reply is its text, or its error, with the app-id. */
  ghost predicate CalledOnce<S>(exec: (Client, S, ClientCall) -> (S, Result<string, string>), t: Target, request: ClientCall,
                                before: Sidecars<S>, after: Sidecars<S>, reply: Reply)
  {
    && after.Keys == before.Keys && t.client in before
    && (forall c | c in before && c != t.client :: after[c] == before[c])
    && after[t.client].log == before[t.client].log + [request]
    && after[t.client].state == exec(t.client, before[t.client].state, request).0
    && match exec(t.client, before[t.client].state, request).1
       case Success(text) => reply.Success? && reply.value.0 == t.appID && reply.value.1 == text
       case Failure(cause) => reply.Failure? && reply.error.ClientFailed? && reply.error.appID == t.appID && reply.error.cause == cause
  }

  /** One tool call. It is refused for a bad event id, an app-id without a client (such as an empty one
      where there are several apps) or a bad start time, in this order, and then nobody is called.
      Otherwise the resolved client, and nobody else, gets one call, which conveys the arguments. */
  ghost predicate Handled<S>(env: Env<S>, before: Sidecars<S>, call: ToolCall, after: Sidecars<S>, reply: Reply) {
    var route := env.reg.Route(call.appID);
    && (Refused(reply) ==> after == before)
    && (Refused(reply) <==> BadEvent(call) || route.Failure? || BadTime(env, call))
    && (BadEvent(call) ==> reply == Failure(BadEventID(call.eventID)))
    && (!BadEvent(call) && route.Failure? ==> reply == Failure(BadRoute(route.error)))
    && (!BadEvent(call) && route.Success? && BadTime(env, call) ==> reply == Failure(BadStartTime(call.startTime)))
    && (BadEvent(call) <==> call.Rerun? && (call.eventID < 0 || call.eventID > 4294967295))
    && (call.appID == "" && env.reg.byAppID != map[] ==> Refused(reply))
    && (!Refused(reply) ==>
          route.Success? && exists request :: Conveys(env, call, request) && CalledOnce(env.exec, route.value, request, before, after, reply))
  }

  lemma StepHandles<S>(env: Env<S>, sidecars: Sidecars<S>, call: ToolCall)
    requires Connected(env.reg, sidecars)
    ensures Handled(env, sidecars, call, Step(env, sidecars, call).0, Step(env, sidecars, call).1)
  {
    ArgumentsArrive(env, call);
    Refusals(env.reg, call.appID);
    var (after, reply) := Step(env, sidecars, call);
    if Prepare(env, call).Success? {
      var (t, request) := Prepare(env, call).value;
      RouteIsConnected(env.reg, sidecars, call.appID);
      assert CalledOnce(env.exec, t, request, sidecars, after, reply);
    }
  }

  /** The server's side of the tools: the sidecars change in place, call by call. */
  class ToolServer<S> {
    const env: Env<S>
    var sidecars: Sidecars<S>

    constructor (env: Env<S>, sidecars: Sidecars<S>)
      ensures this.env == env && this.sidecars == sidecars
    {
      this.env := env;
      this.sidecars := sidecars;
    }

    method Invoke(t: Target, request: ClientCall) returns (reply: Reply)
      requires t.client in sidecars
      modifies this
      ensures var before := old(sidecars)[t.client];
              var after := env.exec(t.client, before.state, request);
              && sidecars == old(sidecars)[t.client := Sidecar(after.0, before.log + [request])]
              && reply == match after.1 case Failure(cause) => Failure(ClientFailed(t.appID, cause)) case Success(text) => Success((t.appID, text))
    {
      var before := sidecars[t.client];
      var (state, answer) := env.exec(t.client, before.state, request);
      sidecars := sidecars[t.client := Sidecar(state, before.log + [request])];
      match answer {
        case Failure(cause) => return Failure(ClientFailed(t.appID, cause));
        case Success(text) => return Success((t.appID, text));
      }
    }

    method Handle(call: ToolCall) returns (reply: Reply)
      requires Connected(env.reg, sidecars)
      modifies this
      ensures (sidecars, reply) == Step(env, old(sidecars), call)
      ensures Handled(env, old(sidecars), call, sidecars, reply)
    {
      StepHandles(env, sidecars, call);
      if call.Rerun? && !(0 <= call.eventID <= MAX_UINT32) {
        return Failure(BadEventID(call.eventID));
      }
      var route := env.reg.ClientFor(call.appID);
      if route.Failure? {
        return Failure(BadRoute(route.error));
      }
      RouteIsConnected(env.reg, sidecars, call.appID);
      var at: Option<int> := None;
      if call.Start? && call.startTime != "" {
        at := env.parseTime(call.startTime);
        if at.None? {
          return Failure(BadStartTime(call.startTime));
        }
      }
      reply := Invoke(route.value, RequestOf(call, at));
    }
  }

  // ----- sequences of calls -----

  ghost function Run<S>(env: Env<S>, sidecars: Sidecars<S>, calls: seq<ToolCall>): (r: (Sidecars<S>, seq<Reply>))
    requires Connected(env.reg, sidecars)
    ensures r.0.Keys == sidecars.Keys && |r.1| == |calls|
    decreases |calls|
  {
    if calls == [] then (sidecars, []) else
      var (next, reply) := Step(env, sidecars, calls[0]);
      var (last, replies) := Run(env, next, calls[1..]);
      (last, [reply] + replies)
  }

  ghost function CallsTo(reg: Registry, calls: seq<ToolCall>, c: Client): (r: seq<ToolCall>)
    ensures |r| <= |calls|
  {
    if calls == [] then []
    else (if ResolvesTo(reg, calls[0], c) then [calls[0]] else []) + CallsTo(reg, calls[1..], c)
  }

  ghost function RepliesFrom(reg: Registry, calls: seq<ToolCall>, replies: seq<Reply>, c: Client): seq<Reply>
    requires |replies| == |calls|
  {
    if calls == [] then []
    else (if ResolvesTo(reg, calls[0], c) then [replies[0]] else []) + RepliesFrom(reg, calls[1..], replies[1..], c)
  }

  /** A call leaves alone every sidecar it does not resolve to. */
  lemma StepElsewhere<S>(env: Env<S>, sidecars: Sidecars<S>, call: ToolCall, c: Client)
    requires Connected(env.reg, sidecars) && c in sidecars && !ResolvesTo(env.reg, call, c)
    ensures Step(env, sidecars, call).0[c] == sidecars[c]
  {
  }

  /** What a call does to its own sidecar, and its reply, depend on that sidecar alone. */
  lemma StepHere<S>(env: Env<S>, a: Sidecars<S>, b: Sidecars<S>, call: ToolCall, c: Client)
    requires Connected(env.reg, a) && Connected(env.reg, b) && c in a && c in b && a[c] == b[c]
    requires ResolvesTo(env.reg, call, c)
    ensures Step(env, a, call).0[c] == Step(env, b, call).0[c]
    ensures Step(env, a, call).1 == Step(env, b, call).1
  {
  }

  lemma {:induction false} SameAlone<S>(env: Env<S>, a: Sidecars<S>, b: Sidecars<S>, calls: seq<ToolCall>, c: Client)
    requires Connected(env.reg, a) && Connected(env.reg, b) && c in a && c in b && a[c] == b[c]
    ensures Run(env, a, calls).0[c] == Run(env, b, CallsTo(env.reg, calls, c)).0[c]
    ensures RepliesFrom(env.reg, calls, Run(env, a, calls).1, c) == Run(env, b, CallsTo(env.reg, calls, c)).1
    decreases |calls|
  {
    if calls == [] {
    } else {
      var a' := Step(env, a, calls[0]).0;
      assert Run(env, a, calls).1[1..] == Run(env, a', calls[1..]).1;
      if ResolvesTo(env.reg, calls[0], c) {
        StepHere(env, a, b, calls[0], c);
        var b' := Step(env, b, calls[0]).0;
        SameAlone(env, a', b', calls[1..], c);
        assert CallsTo(env.reg, calls, c)[1..] == CallsTo(env.reg, calls[1..], c);
      } else {
        StepElsewhere(env, a, calls[0], c);
        SameAlone(env, a', b, calls[1..], c);
        assert CallsTo(env.reg, calls, c) == CallsTo(env.reg, calls[1..], c);
        assert RepliesFrom(env.reg, calls, Run(env, a, calls).1, c)
            == RepliesFrom(env.reg, calls[1..], Run(env, a', calls[1..]).1, c);
      }
    }
  }

  /** Non-interference: over any sequence of calls each sidecar ends in the state, with the call
      log and having given the replies, that it would if only its own calls had been made. */
  lemma NonInterference<S>(env: Env<S>, sidecars: Sidecars<S>, calls: seq<ToolCall>, c: Client)
    requires Connected(env.reg, sidecars) && c in sidecars
    ensures Run(env, sidecars, calls).0[c] == Run(env, sidecars, CallsTo(env.reg, calls, c)).0[c]
    ensures RepliesFrom(env.reg, calls, Run(env, sidecars, calls).1, c) == Run(env, sidecars, CallsTo(env.reg, calls, c)).1
  {
    SameAlone(env, sidecars, sidecars, calls, c);
  }

  /** A rejected app-id reaches no sidecar at all, and neither do calls with a bad argument. */
  lemma RejectedCallsNobody<S>(env: Env<S>, sidecars: Sidecars<S>, call: ToolCall)
    requires Connected(env.reg, sidecars)
    ensures env.reg.Route(call.appID).Failure? ==> Step(env, sidecars, call).0 == sidecars && Step(env, sidecars, call).1.Failure?
    ensures Prepare(env, call).Failure? <==>
              forall c | c in sidecars :: Step(env, sidecars, call).0[c].log == sidecars[c].log
  {
    var after := Step(env, sidecars, call).0;
    if Prepare(env, call).Success? {
      RouteIsConnected(env.reg, sidecars, call.appID);
      var (t, request) := Prepare(env, call).value;
      assert after[t.client].log == sidecars[t.client].log + [request];
      assert |after[t.client].log| == |sidecars[t.client].log| + 1;
    }
  }

  /** When the pool has an entry for the own app, the own client is never called again,
      unless that entry is the own client. */
  lemma {:induction false} ReplacedDefaultIsIdle<S>(env: Env<S>, sidecars: Sidecars<S>, calls: seq<ToolCall>)
    requires Connected(env.reg, sidecars) && env.reg.defaultAppID in env.reg.byAppID
    requires forall id | id in env.reg.byAppID :: env.reg.byAppID[id] != env.reg.defaultClient
    ensures Run(env, sidecars, calls).0[env.reg.defaultClient] == sidecars[env.reg.defaultClient]
    decreases |calls|
  {
    if calls == [] {
    } else {
      assert !ResolvesTo(env.reg, calls[0], env.reg.defaultClient);
      StepElsewhere(env, sidecars, calls[0], env.reg.defaultClient);
      ReplacedDefaultIsIdle(env, Step(env, sidecars, calls[0]).0, calls[1..]);
    }
  }
}
