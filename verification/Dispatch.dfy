/**
 One tools/call through the gateway, internal/dataplane/edge/dispatch.go: the gates in their order, the plugin
 hooks, the backend, and the request state that travels between them through the client.
 */
module Dispatch {
  import opened Options
  import opened Json
  import opened Verdicts
  import opened RequestState

  type Fields = map<string, Json>

  datatype Tool = Tool(qualifiedName: string, name: string, server: string, tenantSlug: string, tenantId: string)

  datatype ClientCall = ClientCall(
    tool: Tool,
    arguments: Args,
    token: string,
    responses: Option<Fields>,
    presentedAt: int,
    wrappedAt: int,
    nonce: string)

  /** What the on_tool_call hook is shown. */
  datatype PluginCall = PluginCall(subject: string, arguments: Args, state: string, responses: Option<Fields>)

  datatype BackendCall = BackendCall(
    server: string,
    tenantId: string,
    toolName: string,
    arguments: Args,
    state: string,
    responses: Option<Fields>)

  datatype CallDecision = CallDecision(
    decision: Decision,
    reason: string,
    arguments: Option<Args>,
    inputRequests: Fields,
    requestState: string)

  predicate Deferred(d: CallDecision) { d.decision.Defer? && |d.inputRequests| > 0 }

  datatype BackendResult = BackendResult(needsInput: bool, inputRequests: Fields, requestState: string, isError: bool,
                                         content: Json)

  datatype DispatchError = CircuitOpen | Unreachable | Timeout | Cancelled | OtherError

  datatype ResultDecision = ResultDecision(decision: Decision, reason: string, replacement: Option<BackendResult>)

  /** Everyone but the client. `blocked` is the drift guard's reason; no pipeline is None. */
  datatype Parties = Parties(
    callable: bool,
    subject: Option<string>,
    blocked: Option<string>,
    onCall: Option<PluginCall -> Result<CallDecision, string>>,
    backend: BackendCall -> Result<BackendResult, DispatchError>,
    onResult: BackendResult -> Result<ResultDecision, string>)

  datatype Reply =
    | NotCallable
    | Unauthenticated
    | PipelineError
    | WrapError
    | DriftBlocked(why: string)
    | InvalidRequestState(error: StateError)
    | Denied(reason: string)
    | ResultDenied(reason: string)
    | Unavailable(failure: DispatchError)
    | InputRequired(requests: Fields, token: string)
    | Answer(result: BackendResult)

  /** What one call leaves behind: the reply, what each party was sent, and the deferral issued, if any. */
  datatype Record = Record(reply: Reply, toPlugin: Option<PluginCall>, toBackend: Option<BackendCall>,
                           issued: Option<Issue>)

  function Only(reply: Reply): Record { Record(reply, None, None, None) }

  // ---------------------------------------------------------------- routing

  /** A client's answers go to the party that asked; a call that is no retry is not filtered. */
  function BackendResponses(retry: Retry, responses: Option<Fields>): Option<Fields> {
    if retry.source.Nobody? || retry.source.Backend? then responses else None
  }

  function PluginResponses(retry: Retry, responses: Option<Fields>): Option<Fields> {
    if retry.source.Nobody? || retry.source.Plugin? then responses else None
  }

  // ---------------------------------------------------------------- the steps

  function IssueFor(c: ClientCall, subject: string, source: Source, args: Args, inner: string): Issue {
    Issue(source, c.tool.qualifiedName, subject, c.tool.tenantSlug, args, inner, c.wrappedAt, c.nonce)
  }

  /** A deferral's reply: the wrapped token, or a refusal when there is no key to sign with. */
  function Defers(signer: Option<Suite>, r: Record, requests: Fields, i: Issue): Record {
    if signer.None? then r.(reply := WrapError)
    else r.(reply := InputRequired(requests, TokenOf(signer.value, i)), issued := Some(i))
  }

  /** The token is verified against this tool, caller and arguments. */
  function RetryOf(signer: Option<Suite>, c: ClientCall, subject: string): Result<Retry, StateError> {
    UnwrapForRetry(signer, c.tool.qualifiedName, subject, c.tool.tenantSlug, c.arguments, c.token, c.presentedAt)
  }

  function PluginCallFor(c: ClientCall, subject: string, retry: Retry): PluginCall {
    PluginCall(subject, c.arguments, retry.pluginState, PluginResponses(retry, c.responses))
  }

  function BackendCallFor(c: ClientCall, args: Args, retry: Retry): BackendCall {
    BackendCall(c.tool.server, c.tool.tenantId, c.tool.name, args, retry.backendState,
                BackendResponses(retry, c.responses))
  }

  /** From dispatch on. */
  function Dispatched(signer: Option<Suite>, c: ClientCall, p: Parties, subject: string, retry: Retry, args: Args,
                      asked: Option<PluginCall>)
    : Record
  {
    var sent := BackendCallFor(c, args, retry);
    var r := Record(WrapError, asked, Some(sent), None);
    match p.backend(sent)
    case Err(failure) => r.(reply := Unavailable(failure))
    case Ok(res) =>
      if res.needsInput then Defers(signer, r, res.inputRequests, IssueFor(c, subject, Backend, args, res.requestState))
      else if p.onCall.None? then r.(reply := Answer(res))
      else
        match p.onResult(res)
        case Err(_) => r.(reply := PipelineError)
        case Ok(d) =>
          if d.decision.Deny? then r.(reply := ResultDenied(d.reason))
          else r.(reply := Answer(if d.replacement.Some? then d.replacement.value else res))
  }

  /** The whole call. */
  function Handle(signer: Option<Suite>, c: ClientCall, p: Parties): Record {
    if !p.callable then Only(NotCallable)
    else if p.subject.None? then Only(Unauthenticated)
    else if p.blocked.Some? then Only(DriftBlocked(p.blocked.value))
    else
      var subject := p.subject.value;
      match RetryOf(signer, c, subject)
      case Err(e) => Only(InvalidRequestState(e))
      case Ok(retry) =>
        if p.onCall.None? then Dispatched(signer, c, p, subject, retry, c.arguments, None)
        else
          var asked := PluginCallFor(c, subject, retry);
          var r := Record(PipelineError, Some(asked), None, None);
          match p.onCall.value(asked)
          case Err(_) => r
          case Ok(d) =>
            if d.decision.Deny? then r.(reply := Denied(d.reason))
            else if Deferred(d) then
              Defers(signer, r, d.inputRequests, IssueFor(c, subject, Plugin, c.arguments, d.requestState))
            else
              Dispatched(signer, c, p, subject, retry, if d.arguments.Some? then d.arguments.value else c.arguments,
                         Some(asked))
  }

  /**
   The handler in the code's own form: `arguments`, `retry`, `res` and the record are rewritten as the call proceeds.
   */
  method ToolHandler(signer: Option<Suite>, c: ClientCall, p: Parties) returns (r: Record)
    ensures r == Handle(signer, c, p)
  {
    r := Record(NotCallable, None, None, None);
    if !p.callable { return; }
    if p.subject.None? {
      r := r.(reply := Unauthenticated);
      return;
    }
    var subject := p.subject.value;
    if p.blocked.Some? {
      r := r.(reply := DriftBlocked(p.blocked.value));
      return;
    }
    var arguments, retry := c.arguments, NO_RETRY;
    if c.token != "" {
      var unwrapped :=
        UnwrapForRetry(signer, c.tool.qualifiedName, subject, c.tool.tenantSlug, arguments, c.token, c.presentedAt);
      if unwrapped.Err? {
        r := r.(reply := InvalidRequestState(unwrapped.error));
        return;
      }
      retry := unwrapped.value;
    }
    if p.onCall.Some? {
      var asked := PluginCall(subject, arguments, retry.pluginState, PluginResponses(retry, c.responses));
      r := r.(toPlugin := Some(asked));
      var decision := p.onCall.value(asked);
      if decision.Err? {
        r := r.(reply := PipelineError);
        return;
      }
      if decision.value.decision.Deny? {
        r := r.(reply := Denied(decision.value.reason));
        return;
      }
      if Deferred(decision.value) {
        r := Defers(signer, r, decision.value.inputRequests,
                    IssueFor(c, subject, Plugin, arguments, decision.value.requestState));
        return;
      }
      if decision.value.arguments.Some? { arguments := decision.value.arguments.value; }
    }
    var sent := BackendCall(c.tool.server, c.tool.tenantId, c.tool.name, arguments, retry.backendState,
                            BackendResponses(retry, c.responses));
    r := r.(toBackend := Some(sent));
    var outcome := p.backend(sent);
    if outcome.Err? {
      r := r.(reply := Unavailable(outcome.error));
      return;
    }
    var res := outcome.value;
    if res.needsInput {
      r := Defers(signer, r, res.inputRequests, IssueFor(c, subject, Backend, arguments, res.requestState));
      return;
    }
    if p.onCall.Some? {
      var decision := p.onResult(res);
      if decision.Err? {
        r := r.(reply := PipelineError);
        return;
      }
      if decision.value.decision.Deny? {
        r := r.(reply := ResultDenied(decision.value.reason));
        return;
      }
      if decision.value.replacement.Some? { res := decision.value.replacement.value; }
    }
    r := r.(reply := Answer(res));
  }

  // ---------------------------------------------------------------- one call

  /** The gates before any plugin: callable, authenticated, not drifted, and a token that verifies. */
  predicate Admitted(signer: Option<Suite>, c: ClientCall, p: Parties) {
    p.callable && p.subject.Some? && p.blocked.None? && RetryOf(signer, c, p.subject.value).Ok?
  }

  /** Plugins see exactly the admitted calls, and the backend exactly those the plugins neither refuse nor hold back. */
  lemma {:induction false} Gates(signer: Option<Suite>, c: ClientCall, p: Parties)
    ensures var r := Handle(signer, c, p);
            && (r.toPlugin.Some? <==> Admitted(signer, c, p) && p.onCall.Some?)
            && (r.toBackend.Some? <==>
                  && Admitted(signer, c, p)
                  && (p.onCall.None? ||
                        var retry := RetryOf(signer, c, p.subject.value).value;
                        var said := p.onCall.value(PluginCallFor(c, p.subject.value, retry));
                        said.Ok? && !said.value.decision.Deny? && !Deferred(said.value)))
            && (r.reply.Answer? ==> r.toBackend.Some?)
            && (r.reply.InputRequired? <==> r.issued.Some?)
  {
    hide UnwrapForRetry, TokenOf;
  }

  /** Each refusal before the hooks has one cause, and the earlier gate speaks first. */
  lemma {:induction false} Refusals(signer: Option<Suite>, c: ClientCall, p: Parties)
    ensures var reply := Handle(signer, c, p).reply;
            && (reply.NotCallable? <==> !p.callable)
            && (reply.Unauthenticated? <==> p.callable && p.subject.None?)
            && (forall why :: reply == DriftBlocked(why) <==> p.callable && p.subject.Some? && p.blocked == Some(why))
            && (forall e :: reply == InvalidRequestState(e) <==>
                  p.callable && p.subject.Some? && p.blocked.None? && RetryOf(signer, c, p.subject.value) == Err(e))
            && (!Admitted(signer, c, p) ==> Handle(signer, c, p) == Only(reply))
  {
    hide UnwrapForRetry, TokenOf;
  }

  /** The backend is called under its own name and address, with the plugins' arguments if they gave any. */
  lemma {:induction false} Addressing(signer: Option<Suite>, c: ClientCall, p: Parties)
    requires Handle(signer, c, p).toBackend.Some?
    ensures var r := Handle(signer, c, p);
            var sent := r.toBackend.value;
            && sent.server == c.tool.server && sent.tenantId == c.tool.tenantId && sent.toolName == c.tool.name
            && (r.toPlugin.None? ==> sent.arguments == c.arguments)
            && (r.toPlugin.Some? ==>
                  p.onCall.Some? && var said := p.onCall.value(r.toPlugin.value);
                  said.Ok? && sent.arguments ==
                              if said.value.arguments.Some? then said.value.arguments.value else c.arguments)
  {
    hide UnwrapForRetry, TokenOf;
  }

  /** Where a deferral comes from: the party that answered this very call, and what it was answering. */
  lemma {:induction false} Issuing(signer: Option<Suite>, c: ClientCall, p: Parties)
    ensures var r := Handle(signer, c, p);
            r.issued.Some? ==>
              var i := r.issued.value;
              && signer.Some? && Admitted(signer, c, p)
              && i.tool == c.tool.qualifiedName && i.tenant == c.tool.tenantSlug && Some(i.principal) == p.subject
              && i.at == c.wrappedAt && r.reply.InputRequired? && r.reply.token == TokenOf(signer.value, i)
              && (AskedByBackend(r, p, i) || AskedByPlugin(r, p, i))
              && (i.source.Plugin? ==> i.args == c.arguments)
  {
    hide UnwrapForRetry, TokenOf;
  }

  /** The backend's answer to this call is the deferral `i`. */
  predicate AskedByBackend(r: Record, p: Parties, i: Issue) {
    && i.source.Backend? && r.toBackend.Some? && r.toBackend.value.arguments == i.args
    && var res := p.backend(r.toBackend.value); res.Ok? && res.value.needsInput && res.value.requestState == i.inner
  }

  predicate AskedByPlugin(r: Record, p: Parties, i: Issue) {
    && i.source.Plugin? && r.toPlugin.Some? && p.onCall.Some? && r.toBackend.None?
    && var said := p.onCall.value(r.toPlugin.value);
       said.Ok? && Deferred(said.value) && said.value.requestState == i.inner
  }

  /** On a retry, inner state and the client's answers reach the party that asked and no other. */
  lemma {:induction false} Routing(signer: Option<Suite>, c: ClientCall, p: Parties)
    requires Admitted(signer, c, p)
    ensures var r, retry := Handle(signer, c, p), RetryOf(signer, c, p.subject.value).value;
            && (r.toBackend.Some? ==> r.toBackend.value.state == retry.backendState)
            && (r.toPlugin.Some? ==>
                  r.toPlugin.value.state == retry.pluginState && r.toPlugin.value.arguments == c.arguments)
            && (retry.source.Plugin? && r.toBackend.Some? ==> r.toBackend.value.responses.None?)
            && (retry.source.Backend? && r.toPlugin.Some? ==> r.toPlugin.value.responses.None?)
            && (retry.source.Backend? && r.toBackend.Some? ==> r.toBackend.value.responses == c.responses)
            && (retry.source.Plugin? && r.toPlugin.Some? ==> r.toPlugin.value.responses == c.responses)
  {
    hide UnwrapForRetry, TokenOf;
  }

  // ---------------------------------------------------------------- what the client gets

  /** The plugins asked the client for something. */
  predicate PluginHolds(r: Record, p: Parties) {
    && r.toPlugin.Some? && p.onCall.Some?
    && var said := p.onCall.value(r.toPlugin.value);
       said.Ok? && said.value.decision == Defer && |said.value.inputRequests| > 0
  }

  /** The backend did. */
  predicate BackendHolds(r: Record, p: Parties) {
    && r.toBackend.Some?
    && p.backend(r.toBackend.value).Ok? && p.backend(r.toBackend.value).value.needsInput
  }

  /** The backend was sent the call and answered it for good. */
  predicate Settled(r: Record, p: Parties) {
    r.toBackend.Some? && p.backend(r.toBackend.value).Ok? && !p.backend(r.toBackend.value).value.needsInput
  }

  /**
   What the client is told once the call got past the gates, by what the other parties said. An answer is the backend's
   own, or what the result hook put in its place, and never one the result hook denied; each refusal names the party
   and the reason it gave.
   */
  lemma {:induction false} RepliesTell(signer: Option<Suite>, c: ClientCall, p: Parties)
    ensures var r := Handle(signer, c, p);
            && (forall x :: r.reply == Answer(x) <==>
                  && Settled(r, p)
                  && var res := p.backend(r.toBackend.value).value;
                     if p.onCall.None? then x == res
                     else
                       && p.onResult(res).Ok? && p.onResult(res).value.decision != Deny
                       && var other := p.onResult(res).value.replacement;
                          x == if other.Some? then other.value else res)
            && (forall reason :: r.reply == ResultDenied(reason) <==>
                  && Settled(r, p) && p.onCall.Some?
                  && var d := p.onResult(p.backend(r.toBackend.value).value);
                     d.Ok? && d.value.decision == Deny && reason == d.value.reason)
            && (forall failure :: r.reply == Unavailable(failure) <==>
                  r.toBackend.Some? && p.backend(r.toBackend.value) == Err(failure))
            && (forall reason :: r.reply == Denied(reason) <==>
                  && r.toPlugin.Some? && p.onCall.Some?
                  && var said := p.onCall.value(r.toPlugin.value);
                     said.Ok? && said.value.decision == Deny && reason == said.value.reason)
  {
    hide UnwrapForRetry, TokenOf, RetryOf;
  }

  /** And when it is asked for input, by whom and for what, or told that something else went wrong. */
  lemma {:induction false} HoldsTell(signer: Option<Suite>, c: ClientCall, p: Parties)
    ensures var r := Handle(signer, c, p);
            && (r.reply.InputRequired? <==> signer.Some? && (PluginHolds(r, p) || BackendHolds(r, p)))
            && (r.reply == WrapError <==> signer.None? && (PluginHolds(r, p) || BackendHolds(r, p)))
            && (r.reply.InputRequired? && PluginHolds(r, p) ==>
                  r.reply.requests == p.onCall.value(r.toPlugin.value).value.inputRequests)
            && (r.reply.InputRequired? && BackendHolds(r, p) ==>
                  r.reply.requests == p.backend(r.toBackend.value).value.inputRequests)
            && (r.reply == PipelineError <==>
                  || (r.toPlugin.Some? && p.onCall.Some? && p.onCall.value(r.toPlugin.value).Err?)
                  || (Settled(r, p) && p.onCall.Some? && p.onResult(p.backend(r.toBackend.value).value).Err?))
  {
    hide UnwrapForRetry, TokenOf, RetryOf;
  }

  /** What plugins and backend of a first call are sent: the call itself and the client's responses, and no state. */
  lemma {:induction false} FirstCallIsSent(signer: Option<Suite>, c: ClientCall, p: Parties)
    requires c.token == ""
    ensures var r := Handle(signer, c, p);
            && (r.toPlugin.Some? ==>
                  Some(r.toPlugin.value.subject) == p.subject && r.toPlugin.value.arguments == c.arguments
                  && r.toPlugin.value.state == "" && r.toPlugin.value.responses == c.responses)
            && (r.toBackend.Some? ==> r.toBackend.value.state == "" && r.toBackend.value.responses == c.responses)
  {
    hide TokenOf;
  }
}
