/**
 Request state over whole runs: any number of calls by any clients, who may present any token they can come by,
 in any order and as often as they like. Nothing is accepted that was not issued for the same call, and state is handed
 back to the party that asked: the plugins, or the backend its tool's name stands for.
 */
module DispatchRuns {
  import opened Options
  import opened Json
  import opened Verdicts
  import opened Base64
  import opened RequestState
  import opened Dispatch

  datatype Step = Step(call: ClientCall, parties: Parties)

  function Done(su: Suite, s: Step): Record { Handle(Some(su), s.call, s.parties) }

  /** The deferrals issued so far, in order. */
  function Issued(su: Suite, run: seq<Step>): seq<Issue> {
    if run == [] then []
    else
      var last := Done(su, run[|run| - 1]).issued;
      Issued(su, run[..|run| - 1]) + if last.Some? then [last.value] else []
  }

  /** Clients cannot forge: each presented token is vouched for only if an earlier call of the run issued its text. */
  ghost predicate NoForgery(su: Suite, run: seq<Step>) {
    forall k :: 0 <= k < |run| ==> Unforgeable(su, Issued(su, run[..k]), run[k].call.token)
  }

  /** The arguments that occur: those the clients send and those deferrals are bound to. */
  function Arguments(su: Suite, run: seq<Step>): seq<Args> {
    seq(|run|, k requires 0 <= k < |run| => run[k].call.arguments) + ArgsOf(Issued(su, run))
  }

  /** What is assumed of JSON, the hash and the MAC, about the envelopes, arguments and tokens of this run only. */
  ghost predicate Ideal(su: Suite, run: seq<Step>) {
    Faithful(su, Issued(su, run)) && CollisionFree(su, Arguments(su, run)) && NoForgery(su, run)
  }

  /** Call `k` is a retry that got past the gates. */
  predicate AcceptedRetry(su: Suite, s: Step) { s.call.token != "" && Admitted(Some(su), s.call, s.parties) }

  lemma {:induction false} IssuedPrefix(su: Suite, run: seq<Step>, k: nat)
    requires k <= |run|
    ensures Issued(su, run[..k]) <= Issued(su, run)
  {
    hide Done;
    if k < |run| {
      IssuedPrefix(su, run[..|run| - 1], k);
      assert run[..|run| - 1][..k] == run[..k];
    } else {
      assert run[..k] == run;
    }
  }

  /** What is assumed of the whole run holds of call `k` and the deferrals before it. */
  lemma {:induction false} IdealBefore(su: Suite, run: seq<Step>, k: nat)
    requires Ideal(su, run) && k < |run|
    ensures Faithful(su, Issued(su, run[..k])) && Unforgeable(su, Issued(su, run[..k]), run[k].call.token)
    ensures CollisionFree(su, [run[k].call.arguments] + ArgsOf(Issued(su, run[..k])))
  {
    hide Issued, Collide, Unforgeable, Survives;
    IssuedPrefix(su, run, k);
    var before, all := Issued(su, run[..k]), Issued(su, run);
    forall m | 0 <= m < |before| ensures Survives(su, Signed(su, before[m])) { assert before[m] == all[m]; }
    var args := Arguments(su, run);
    assert args[k] == run[k].call.arguments;
    forall a | a in [run[k].call.arguments] + ArgsOf(before) ensures a in args {
      if a in ArgsOf(before) {
        var m :| 0 <= m < |before| && ArgsOf(before)[m] == a;
        assert args[|run| + m] == ArgsOf(all)[m] == a;
      }
    }
  }

  lemma {:induction false} IssuedBy(su: Suite, run: seq<Step>, m: nat) returns (j: nat)
    requires m < |Issued(su, run)|
    ensures j < |run| && Done(su, run[j]).issued == Some(Issued(su, run)[m])
  {
    hide Done;
    var n := |run| - 1;
    if m == |Issued(su, run[..n])| {
      j := n;
    } else {
      j := IssuedBy(su, run[..n], m);
    }
  }

  /** Step `j` issued the deferral that step `k` redeems: the same call, in time. */
  predicate Redeems(su: Suite, run: seq<Step>, j: nat, k: nat)
    requires j < |run| && k < |run|
  {
    var r, c := Done(su, run[j]), run[k].call;
    && r.issued.Some? && run[k].parties.subject.Some?
    && SameCall(su, r.issued.value, c.tool.qualifiedName, run[k].parties.subject.value, c.tool.tenantSlug, c.arguments)
    && r.issued.value.args.text == c.arguments.text
    && Timely(r.issued.value, c.presentedAt)
    && RetryOf(Some(su), c, run[k].parties.subject.value) == Ok(Redeemed(r.issued.value))
  }

  /** The backend of call `j` asked for the input. */
  predicate BackendAsked(su: Suite, s: Step) {
    Done(su, s).issued.Some? && AskedByBackend(Done(su, s), s.parties, Done(su, s).issued.value)
  }

  predicate PluginAsked(su: Suite, s: Step) {
    Done(su, s).issued.Some? && AskedByPlugin(Done(su, s), s.parties, Done(su, s).issued.value)
  }

  /**
   Safety: every accepted retry redeems a deferral that an earlier call of the run issued, for the same tool,
   principal, tenant and arguments, at most ten minutes before and at most a minute ahead. Either the backend of
   that call or one of its plugins had asked.
   */
  lemma {:induction false} RetriesAreEarned(su: Suite, run: seq<Step>, k: nat) returns (j: nat)
    requires Ideal(su, run) && k < |run| && AcceptedRetry(su, run[k])
    ensures j < k && Redeems(su, run, j, k)
    ensures BackendAsked(su, run[j]) || PluginAsked(su, run[j])
  {
    hide Handle, Vouched, UnwrapForRetry, SameCall, Timely, Issued, Unforgeable, CollisionFree;
    var c, p := run[k].call, run[k].parties;
    var before := Issued(su, run[..k]);
    IdealBefore(su, run, k);
    var m := AcceptedWasIssued(su, before, c.tool.qualifiedName, p.subject.value, c.tool.tenantSlug, c.arguments,
                               c.token, c.presentedAt);
    j := IssuedBy(su, run[..k], m);
    assert run[..k][j] == run[j];
    Issuing(Some(su), run[j].call, run[j].parties);
  }

  // ---------------------------------------------------------------- who gets what

  /** The backend that was sent `one` is the one that is sent `two`. */
  predicate SameBackend(one: BackendCall, two: BackendCall) { one.server == two.server && one.tenantId == two.tenantId }

  /**
   What a backend is handed on a retry. If the earlier call's backend had asked, the exact state it answered with and
   the client's responses; if a plugin had, nothing. The envelope names the tool and the tenant, not the server, so
   the state is back with the server that produced it exactly when the name still stands for that server.
   */
  lemma {:induction false} BackendGetsItsOwn(su: Suite, run: seq<Step>, k: nat) returns (j: nat)
    requires Ideal(su, run) && k < |run| && AcceptedRetry(su, run[k]) && Done(su, run[k]).toBackend.Some?
    ensures j < k && Redeems(su, run, j, k) && (BackendAsked(su, run[j]) || PluginAsked(su, run[j]))
    ensures PluginAsked(su, run[j]) ==>
              Done(su, run[k]).toBackend.value.state == "" && Done(su, run[k]).toBackend.value.responses.None?
    ensures BackendAsked(su, run[j]) ==>
              var asked, sent := Done(su, run[j]).toBackend.value, Done(su, run[k]).toBackend.value;
              && sent.state == run[j].parties.backend(asked).value.requestState
              && sent.responses == run[k].call.responses
              && (SameBackend(asked, sent) <==>
                    run[j].call.tool.server == run[k].call.tool.server
                      && run[j].call.tool.tenantId == run[k].call.tool.tenantId)
  {
    hide Handle, UnwrapForRetry, SameCall, Timely;
    j := RetriesAreEarned(su, run, k);
    Routing(Some(su), run[k].call, run[k].parties);
    Addressing(Some(su), run[k].call, run[k].parties);
    if BackendAsked(su, run[j]) { Addressing(Some(su), run[j].call, run[j].parties); }
  }

  /** No publish during the run moves a tenant's qualified name to another server. */
  ghost predicate Stable(run: seq<Step>) {
    forall i, j :: 0 <= i < |run| && 0 <= j < |run| ==> SameServer(run[i].call.tool, run[j].call.tool)
  }

  predicate SameServer(one: Tool, two: Tool) {
    one.qualifiedName == two.qualifiedName && one.tenantSlug == two.tenantSlug ==>
      one.server == two.server && one.tenantId == two.tenantId
  }

  /**
   With names that do not move, no backend ever holds a byte of state that it did not itself produce, in answer to a
   call of the same tool with the same arguments.
   */
  lemma {:induction false} StateStaysHome(su: Suite, run: seq<Step>, k: nat) returns (j: nat)
    requires Ideal(su, run) && Stable(run) && k < |run|
    requires Done(su, run[k]).toBackend.Some? && Done(su, run[k]).toBackend.value.state != ""
    requires forall i :: 0 <= i < |run| ==> run[i].call.tool.qualifiedName != "" && run[i].call.tool.tenantSlug != ""
    ensures j < k && BackendAsked(su, run[j])
    ensures var asked, sent := Done(su, run[j]).toBackend.value, Done(su, run[k]).toBackend.value;
            && SameBackend(asked, sent) && run[j].parties.backend(asked).value.requestState == sent.state
            && asked.arguments.text == run[k].call.arguments.text
  {
    hide Handle, UnwrapForRetry, Timely;
    Gates(Some(su), run[k].call, run[k].parties);
    if run[k].call.token == "" { NoStateWithoutToken(su, run[k]); }
    j := BackendGetsItsOwn(su, run, k);
    Issuing(Some(su), run[j].call, run[j].parties);
    assert SameServer(run[j].call.tool, run[k].call.tool);
  }

  /** What plugins are shown on a retry: the state of their own deferral, or nothing if the backend had asked. */
  lemma {:induction false} PluginGetsItsOwn(su: Suite, run: seq<Step>, k: nat) returns (j: nat)
    requires Ideal(su, run) && k < |run| && AcceptedRetry(su, run[k]) && Done(su, run[k]).toPlugin.Some?
    ensures j < k && Redeems(su, run, j, k) && (BackendAsked(su, run[j]) || PluginAsked(su, run[j]))
    ensures var shown := Done(su, run[k]).toPlugin.value;
            && (BackendAsked(su, run[j]) ==> shown.state == "" && shown.responses.None?)
            && (PluginAsked(su, run[j]) ==>
                  && shown.state == run[j].parties.onCall.value(Done(su, run[j]).toPlugin.value).value.requestState
                  && shown.responses == run[k].call.responses)
  {
    hide Handle, UnwrapForRetry, SameCall, Timely;
    j := RetriesAreEarned(su, run, k);
    Routing(Some(su), run[k].call, run[k].parties);
  }

  /** A call without a token hands nobody any state. */
  lemma {:induction false} NoStateWithoutToken(su: Suite, s: Step)
    requires s.call.token == ""
    ensures Done(su, s).toBackend.Some? ==> Done(su, s).toBackend.value.state == ""
    ensures Done(su, s).toPlugin.Some? ==> Done(su, s).toPlugin.value.state == ""
  {
    hide TokenOf;
  }

  // ---------------------------------------------------------------- completeness

  /** The same client repeats its call with the token it was given. */
  predicate Repeats(su: Suite, first: Step, again: Step) {
    && Done(su, first).issued.Some?
    && again.call.tool == first.call.tool && again.call.arguments == first.call.arguments
    && again.parties.subject == first.parties.subject
    && again.call.token == TokenOf(su, Done(su, first).issued.value)
    && Timely(Done(su, first).issued.value, again.call.presentedAt)
  }

  /**
   Repeating a deferred call in time redeems its token exactly when the deferral was bound to the arguments the
   client sent: always when a plugin asked, and when the backend asked, exactly when the plugins had left the
   arguments' JSON text as it was.
   */
  lemma {:induction false} RepeatIsRedeemed(su: Suite, first: Step, again: Step)
    requires Repeats(su, first, again)
    requires var i := Done(su, first).issued.value;
             Faithful(su, [i]) && CollisionFree(su, [i.args, first.call.arguments])
    ensures var i := Done(su, first).issued.value;
            var out := RetryOf(Some(su), again.call, again.parties.subject.value);
            && again.call.token != ""
            && (out.Ok? <==> i.source.Plugin? || i.args.text == first.call.arguments.text)
            && (out.Ok? ==> out.value == Redeemed(i))
            && (out.Err? ==> out.error == Mismatched)
  {
    hide Handle, Unwrap, TokenOf, ArgsDigest;
    var i, c := Done(su, first).issued.value, again.call;
    Issuing(Some(su), first.call, first.parties);
    TokensAreNotEmpty(su, i);
    RetryOutcome(su, i, c.tool.qualifiedName, again.parties.subject.value, c.tool.tenantSlug, c.arguments,
                 c.presentedAt);
    DigestBinds(su, i.args, c.arguments);
  }

  lemma {:induction false} TokensAreNotEmpty(su: Suite, i: Issue)
    ensures TokenOf(su, i) != ""
  {
    var env := Stamped(EnvelopeOf(su, i), i.at, i.nonce);
    assert TokenOf(su, i)[..|VERSION|] == VERSION;
  }

  /** What the backend was sent when it deferred: with no plugin rewriting, the client's own arguments. */
  lemma {:induction false} UnchangedArguments(su: Suite, s: Step)
    requires Done(su, s).toBackend.Some?
    requires s.parties.onCall.None? ||
             (var retry := RetryOf(Some(su), s.call, s.parties.subject.value).value;
              s.parties.onCall.value(PluginCallFor(s.call, s.parties.subject.value, retry)).value.arguments.None?)
    ensures Done(su, s).toBackend.value.arguments == s.call.arguments
  {
    hide UnwrapForRetry, TokenOf;
  }

  /**
   Meaning the same is not enough: if the plugins hand back the client's arguments as the same tree encoded otherwise,
   say because they patched something else in the call, the backend's deferral cannot be redeemed by repeating it.
   */
  lemma {:induction false} ReencodingLosesTheRetry(su: Suite, first: Step, again: Step)
    requires Repeats(su, first, again) && BackendAsked(su, first)
    requires var i := Done(su, first).issued.value;
             Faithful(su, [i]) && CollisionFree(su, [i.args, first.call.arguments])
    requires Done(su, first).toPlugin.Some? && first.parties.onCall.Some?
    requires var said := first.parties.onCall.value(Done(su, first).toPlugin.value);
             && said.Ok? && said.value.arguments.Some?
             && said.value.arguments.value.tree == first.call.arguments.tree
             && said.value.arguments.value.text != first.call.arguments.text
    ensures again.call.arguments.tree == Done(su, first).toBackend.value.arguments.tree
    ensures RetryOf(Some(su), again.call, again.parties.subject.value) == Err(Mismatched)
  {
    hide Handle, UnwrapForRetry, TokenOf, SameCall;
    Issuing(Some(su), first.call, first.parties);
    Addressing(Some(su), first.call, first.parties);
    RepeatIsRedeemed(su, first, again);
  }

  // ---------------------------------------------------------------- runs as a whole

  /** The backend's or the plugins' answer that let a call through to dispatch. */
  predicate LetThrough(su: Suite, s: Step) {
    s.parties.onCall.None? ||
    (Done(su, s).toPlugin.Some? &&
     var said := s.parties.onCall.value(Done(su, s).toPlugin.value);
     said.Ok? && !said.value.decision.Deny? && !Deferred(said.value))
  }

  /**
   Every dispatch of a run was permitted, unblocked, let through by the plugins, and either a first call or the
   redemption of an earlier deferral of the same call.
   */
  lemma {:induction false} DispatchesAreEarned(su: Suite, run: seq<Step>, k: nat)
    requires Ideal(su, run) && k < |run| && Done(su, run[k]).toBackend.Some?
    ensures run[k].parties.callable && run[k].parties.subject.Some? && run[k].parties.blocked.None?
            && LetThrough(su, run[k])
    ensures run[k].call.token == "" || exists j :: 0 <= j < k && Redeems(su, run, j, k)
  {
    hide UnwrapForRetry, TokenOf, Ideal, SameCall, Timely;
    Gates(Some(su), run[k].call, run[k].parties);
    if run[k].call.token != "" { var j := RetriesAreEarned(su, run, k); }
  }

  /** A call that a gate refuses is inert: without it the rest of the run issues and accepts exactly the same. */
  lemma {:induction false} RefusedCallsAreInert(su: Suite, front: seq<Step>, refused: Step, back: seq<Step>)
    requires !Admitted(Some(su), refused.call, refused.parties)
    ensures Done(su, refused).toPlugin.None? && Done(su, refused).toBackend.None?
    ensures Issued(su, front + [refused] + back) == Issued(su, front + back)
    ensures NoForgery(su, front + [refused] + back) ==> NoForgery(su, front + back)
    decreases |back|
  {
    hide Done, Unforgeable;
    Refusals(Some(su), refused.call, refused.parties);
    assert Done(su, refused) == Only(Done(su, refused).reply) by { RefusedRecord(su, refused); }
    IssuedWithout(su, front, refused, back);
    if NoForgery(su, front + [refused] + back) {
      forall k | 0 <= k < |front + back|
        ensures Unforgeable(su, Issued(su, (front + back)[..k]), (front + back)[k].call.token)
      {
        var all := front + [refused] + back;
        if k < |front| {
          assert all[..k] == (front + back)[..k] && all[k] == (front + back)[k];
        } else {
          var m := k - |front|;
          assert all[..k + 1] == front + [refused] + back[..m] && (front + back)[..k] == front + back[..m];
          assert all[k + 1] == (front + back)[k];
          IssuedWithout(su, front, refused, back[..m]);
        }
      }
    }
  }

  lemma {:induction false} RefusedRecord(su: Suite, s: Step)
    requires !Admitted(Some(su), s.call, s.parties)
    ensures Done(su, s) == Only(Done(su, s).reply)
  {
    hide Handle, Admitted;
    Refusals(Some(su), s.call, s.parties);
  }

  lemma {:induction false} IssuedWithout(su: Suite, front: seq<Step>, refused: Step, back: seq<Step>)
    requires Done(su, refused).issued.None?
    ensures Issued(su, front + [refused] + back) == Issued(su, front + back)
    decreases |back|
  {
    hide Done;
    var all, rest := front + [refused] + back, front + back;
    if back == [] {
      assert all[..|all| - 1] == front && rest == front;
      assert Issued(su, front) + [] == Issued(su, front);
    } else {
      var more := back[..|back| - 1];
      assert all[..|all| - 1] == front + [refused] + more && rest[..|rest| - 1] == front + more;
      IssuedWithout(su, front, refused, more);
    }
  }

  // ---------------------------------------------------------------- a run that meets every assumption

  const NOTHING := Args(Null, Some([]))

  function Everybody(subject: string, answer: BackendResult): Parties {
    Parties(true, Some(subject), None, None, (sent: BackendCall) => Ok(answer), (res: BackendResult) => Err(""))
  }

  /** A first call that its backend defers with this state. */
  function First(tool: Tool, subject: string, state: string): Step {
    Step(ClientCall(tool, NOTHING, "", None, SECOND, SECOND, "n"),
         Everybody(subject, BackendResult(true, map[], state, false, Null)))
  }

  /** The call again, with a token, and a backend that answers. */
  function Second(tool: Tool, subject: string, token: string): Step {
    Step(ClientCall(tool, NOTHING, token, None, SECOND, SECOND, "n"),
         Everybody(subject, BackendResult(false, map[], "", false, Null)))
  }

  /** JSON, hash and MAC enough for one envelope and one argument text. */
  function OneEnvelope(env: Envelope): Suite {
    Suite((e: Envelope) => [], (b: seq<Byte>) => Some(env), (s: string) => [], (b: seq<Byte>) => Digits(0, 32))
  }

  function OnlyIssue(tool: Tool, subject: string, state: string): Issue {
    Issue(Backend, tool.qualifiedName, subject, tool.tenantSlug, NOTHING, state, SECOND, "n")
  }

  lemma {:induction false} FirstIsDeferred(su: Suite, tool: Tool, subject: string, state: string)
    ensures var s := First(tool, subject, state);
            && Done(su, s).issued == Some(OnlyIssue(tool, subject, state)) && BackendAsked(su, s)
            && Done(su, s).toBackend.Some?
            && Done(su, s).toBackend.value.server == tool.server
            && Done(su, s).toBackend.value.tenantId == tool.tenantId
  {
    hide TokenOf;
  }

  lemma {:induction false} SecondIsAccepted(su: Suite, tool: Tool, subject: string, token: string, state: string)
    requires token != ""
             && RetryOf(Some(su), Second(tool, subject, token).call, subject) == Ok(Retry(Backend, state, ""))
    ensures var s := Second(tool, subject, token);
            && AcceptedRetry(su, s) && Done(su, s).issued.None? && Done(su, s).toBackend.Some?
            && Done(su, s).toBackend.value.state == state
            && Done(su, s).toBackend.value.server == tool.server
            && Done(su, s).toBackend.value.tenantId == tool.tenantId
  {
    hide UnwrapForRetry;
  }

  /**
   All assumptions together have a model with an accepted retry in it. The two tools may be of different servers: a
   publish in between that gives the name to `second` hands it, through a token at most ten minutes old, the state
   that the server of `first` produced.
   */
  lemma {:induction false} DeferThenRetry(first: Tool, second: Tool, subject: string, state: string)
    returns (su: Suite, run: seq<Step>)
    requires first.qualifiedName == second.qualifiedName && first.tenantSlug == second.tenantSlug
    ensures |run| == 2 && run[0].call.tool == first && run[1].call.tool == second
    ensures Ideal(su, run) && AcceptedRetry(su, run[1]) && BackendAsked(su, run[0])
    ensures Done(su, run[0]).toBackend.Some? && Done(su, run[1]).toBackend.Some?
    ensures Done(su, run[0]).issued.value.inner == state == Done(su, run[1]).toBackend.value.state
    ensures SameBackend(Done(su, run[0]).toBackend.value, Done(su, run[1]).toBackend.value) <==>
              first.server == second.server && first.tenantId == second.tenantId
  {
    hide Handle, UnwrapForRetry, Vouched, Encode, TokenOf;
    var i := OnlyIssue(first, subject, state);
    var digest := ArgsDigest(OneEnvelope(Envelope("", "", "", "", "", Nobody, "", "", 0, "")), NOTHING);
    su := OneEnvelope(Envelope(VERSION, i.tenant, i.tool, i.principal, digest, Backend, state, "", 1, "n"));
    assert su.unmarshal([]) == Some(Signed(su, i));
    var one, two := First(first, subject, state), Second(second, subject, TokenOf(su, i));
    run := [one, two];
    TokensAreNotEmpty(su, i);
    RetryOutcome(su, i, second.qualifiedName, subject, second.tenantSlug, NOTHING, SECOND);
    FirstIsDeferred(su, first, subject, state);
    SecondIsAccepted(su, second, subject, TokenOf(su, i), state);
    OneDeferralIsIdeal(su, one, two, i);
  }

  lemma {:induction false} OneDeferralIsIdeal(su: Suite, one: Step, two: Step, i: Issue)
    requires Done(su, one).issued == Some(i) && Done(su, two).issued.None? && Faithful(su, [i])
    requires one.call.arguments == two.call.arguments == i.args && forall x :: |su.sha(x)| == 32
    requires one.call.token == "" && two.call.token == TokenOf(su, i)
    ensures Ideal(su, [one, two])
  {
    hide Done, Encode, Survives, EnvelopeOf, Signed;
    var run := [one, two];
    assert run[..1] == [one] && run[..0] == [] && [one][..0] == [];
    assert Issued(su, [one]) == [i];
    assert Issued(su, run) == [i] + [] == [i];
    assert forall a :: a in Arguments(su, run) ==> a == i.args;
    OnlyItsOwnText(su, i);
    assert Unforgeable(su, [i], two.call.token) by { assert [i][0] == i; }
  }

  /** An honest token bears its own text and no other; the empty one bears none. */
  lemma {:induction false} OnlyItsOwnText(su: Suite, i: Issue)
    ensures forall encoded, mac :: Bears(su, TokenOf(su, i), encoded, mac) ==>
              encoded == Encode(su.marshal(Signed(su, i)))
    ensures forall encoded, mac :: !Bears(su, "", encoded, mac)
  {
    hide Encode, Decode, Vouched;
    WrapIsVouched(su, EnvelopeOf(su, i), i.at, i.nonce);
    forall encoded, mac | Bears(su, TokenOf(su, i), encoded, mac)
      ensures encoded == Encode(su.marshal(Signed(su, i)))
    {
      BornIsVouched(su, TokenOf(su, i), encoded, mac);
    }
  }
}
