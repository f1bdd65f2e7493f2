/**
 The engine in the code's own form: a mutable map of breaker objects, a request whose payload and consumed time are
 updated as plugins run, and the loops of internal/dataplane/pipeline/engine.go. Run is proved against Engine.Run.
 */
module EngineRun {
  import opened Options
  import opened Json
  import opened JsonPatch
  import opened Verdicts
  import Spec = Engine
  import opened Engine
  import PB = PluginBreakers
  import PatchInPlace

  /** One hook invocation's input, as the source calls it; the time consumed and the trace add up if it is reused. */
  class HookRequest {
    const req: Request
    var payload: Json
    var consumed: int
    var hooks: seq<HookTrace>

    constructor (req: Request, payload: Json)
      ensures this.req == req && this.payload == payload && consumed == 0 && hooks == []
    {
      this.req, this.payload, consumed, hooks := req, payload, 0, [];
    }
  }

  // ---------------------------------------------------------------- the small loops

  lemma {:induction false} AnnotatedPut(into: map<string, Json>, name: string, extra: map<string, Json>, key: string,
                                        value: Json)
    ensures Annotated(into, name, extra[key := value]) == Annotated(into, name, extra)[Namespaced(name, key) := value]
  {
    hide Namespaced, KeyIn;
    var more := extra[key := value];
    assert Namespace(name, more.Keys) == Namespace(name, extra.Keys) + {Namespaced(name, key)};
  }

  lemma {:induction false} AnnotatedNone(into: map<string, Json>, name: string)
    ensures Annotated(into, name, map[]) == into
  {
  }

  /** Adds every annotation under the plugin's name; the order of the map does not matter. */
  method AddAnnotations(into: map<string, Json>, name: string, extra: map<string, Json>)
    returns (out: map<string, Json>)
    ensures out == Annotated(into, name, extra)
  {
    hide Annotated, Namespaced;
    out := into;
    var left := extra.Keys;
    ghost var taken: map<string, Json> := map[];
    AnnotatedNone(into, name);
    while left != {}
      invariant left <= extra.Keys && taken == map k | k in extra && k !in left :: extra[k]
      invariant out == Annotated(into, name, taken)
      decreases |left|
    {
      var key :| key in left;
      AnnotatedPut(into, name, taken, key, extra[key]);
      out := out[Namespaced(name, key) := extra[key]];
      taken := taken[key := extra[key]];
      left := left - {key};
    }
    assert taken == extra;
  }

  /** Marks the plugins behind the deciding one as pre-empted. */
  method MarkShortCircuited(outcomes: seq<Outcome>, plugins: seq<Manifest>, decidedAt: string)
    returns (out: seq<Outcome>)
    ensures out == outcomes + Preempted(plugins, decidedAt, false)
  {
    out := outcomes;
    var seen := false;
    for i := 0 to |plugins|
      invariant out + Preempted(plugins[i..], decidedAt, seen) == outcomes + Preempted(plugins, decidedAt, false)
    {
      assert plugins[i..][1..] == plugins[i + 1..];
      if plugins[i].id == decidedAt {
        seen := true;
      } else if seen {
        out := out + [Skip(plugins[i], ShortCircuited)];
      }
    }
  }

  /** The loop from plugin `i` on is one turn and the rest; it stands still once it is done. */
  lemma {:induction false} OneTurn(o: Config, w: World, req: Request, l: Loop, all: seq<Manifest>, i: nat,
                                   hookDeadline: int)
    requires i <= |all| && !l.done
    ensures i == |all| ==> Turns(o, w, req, l, all, all[i..], hookDeadline) == l
    ensures i < |all| ==>
              var next := Turn(o, w, req, l, all, all[i], hookDeadline);
              && Turns(o, w, req, l, all, all[i..], hookDeadline)
                 == Turns(o, w, req, next, all, all[i + 1..], hookDeadline)
              && (next.done ==> Turns(o, w, req, next, all, all[i + 1..], hookDeadline) == next)
  {
    hide Turn;
    if i < |all| { assert all[i..][1..] == all[i + 1..]; }
  }

  // ---------------------------------------------------------------- the engine

  class PluginEngine {
    const opts: Config
    var breakers: map<string, PB.Breaker>

    /** Distinct plugins have distinct breakers. */
    ghost predicate Valid()
      reads this
    {
      forall i, j :: i in breakers && j in breakers && i != j ==> breakers[i] != breakers[j]
    }

    ghost function States(): map<string, PB.State>
      reads this, breakers.Values
    {
      map id | id in breakers :: breakers[id].Value()
    }

    constructor (opts: Config)
      ensures Valid() && this.opts == WithDefaults(opts) && breakers == map[]
    {
      this.opts := WithDefaults(opts);
      breakers := map[];
    }

    method BreakerFor(id: string) returns (b: PB.Breaker)
      requires Valid()
      modifies this
      ensures Valid() && id in breakers && breakers[id] == b
      ensures breakers == old(breakers)[id := b] && (id in old(breakers) ==> b == old(breakers[id]))
      ensures id !in old(breakers) ==> fresh(b)
      ensures b.Value() == BreakerOf(opts, old(States()), id)
    {
      if id in breakers {
        b := breakers[id];
        assert breakers == breakers[id := b];
      } else {
        b := new PB.Breaker(opts.threshold, opts.cooldown);
        breakers := breakers[id := b];
      }
    }

    /** One plugin's turn, once its breaker is found: the breaker's leave, the host, the answer. */
    method Attempt(w: World, r: HookRequest, b: PB.Breaker, m: Manifest, hookDeadline: int) returns (out: Outcome)
      modifies b, r`consumed
      ensures (out, b.Value()) == Try(opts, w, r.req, old(b.Value()), r.payload, m, hookDeadline)
      ensures r.consumed == old(r.consumed) + Took(w, out)
    {
      hide PB.Allow, PB.Granted, PB.Success, PB.Failure, PB.Breaker.Value, ShouldEnforce, ModeFor, EffectName,
           Verdicts.Valid, PluginBudget;
      var t := w.clock(m.id);
      out := Blank(m);
      var granted := b.TryAllow(t.asked);
      if !granted {
        out := out.(skipped := CircuitOpen);
        return;
      }
      if !w.hostUp(m.id) {
        out := out.(skipped := HostUnavailable, problem := HostError, failureMode := Some(ModeFor(m, r.req.effect)));
        return;
      }
      var enforce := ShouldEnforce(opts, r.req, m);
      var deadline := t.armed + PluginBudget(opts, m);
      if deadline > hookDeadline { deadline := hookDeadline; }
      var reply := w.answer(m.id, r.payload, !enforce, deadline);
      out := out.(ran := true);
      r.consumed := r.consumed + (t.ended - t.started);
      if reply.Failed? {
        b.RecordFailure(t.settled);
        var tripped := b.TakeJustOpened();
        var mode := ModeFor(m, r.req.effect);
        out := out.(problem := InvokeError(reply.error), failureMode := Some(mode));
        if mode.FailClosed? && enforce {
          out := out.(enforced := true, verdict := Some(FailClosedVerdict(m, r.req.effect)));
        }
        return;
      }
      var verdict := if reply.verdict.None? then ALLOW else reply.verdict.value;
      if !Verdicts.Valid(verdict, m) {
        b.RecordFailure(t.settled);
        out := out.(problem := InvalidVerdict, failureMode := Some(ModeFor(m, r.req.effect)));
        return;
      }
      b.RecordSuccess();
      out := out.(verdict := Some(verdict), enforced := enforce);
      if !enforce && !verdict.decision.Allow? && !verdict.decision.Annotate? {
        out := out.(diverged := true);
      }
    }

    method RunOne(w: World, r: HookRequest, m: Manifest, hookDeadline: int) returns (out: Outcome)
      requires Valid()
      modifies this, r`consumed, breakers.Values
      ensures Valid() && fresh(breakers.Values - old(breakers.Values))
      ensures (out, Carry(States(), r.payload, r.consumed))
           == RunPlugin(opts, w, r.req, Carry(old(States()), old(r.payload), old(r.consumed)), m, hookDeadline)
    {
      hide Try, Took;
      ghost var before := States();
      var b := BreakerFor(m.id);
      out := Attempt(w, r, b, m, hookDeadline);
      assert States() == before[m.id := b.Value()];
    }

    /** The switch on an outcome's decision: what it does to the result, the payload and the trace. */
    method Settle(r: HookRequest, before: HookResult, sofar: seq<Outcome>, plugins: seq<Manifest>, m: Manifest,
                  out: Outcome, ghost l: Loop)
      returns (result: HookResult, outcomes: seq<Outcome>, done: bool)
      requires l.carry.payload == r.payload && l.result == before && l.outcomes == sofar && !l.done
      modifies r`payload
      ensures Act(l, plugins, m, out) == Loop(l.carry.(payload := r.payload), result, outcomes, l.exhausted, done)
    {
      hide ApplyPatch, Annotated, Preempted;
      result, outcomes, done := before, sofar + [out], false;
      if !out.enforced || out.verdict.None? { return; }
      var v := out.verdict.value;
      match v.decision
      case Deny =>
        result := result.(decision := Deny, reason := v.reason, decidedBy := m.name);
        outcomes := MarkShortCircuited(outcomes, plugins, m.id);
        done := true;
      case Defer =>
        result := result.(decision := Defer, reason := v.reason, decidedBy := m.name,
                          inputRequests := v.inputRequests, pluginState := v.pluginState);
        outcomes := MarkShortCircuited(outcomes, plugins, m.id);
        done := true;
      case Mutate =>
        var patched := PatchInPlace.ApplyPatchInPlace(r.payload, v.patch, m.writes);
        if patched.Err? {
          var last := |outcomes| - 1;
          outcomes := outcomes[last := outcomes[last].(problem := PatchRefused(patched.error), enforced := false)];
          return;
        }
        r.payload := patched.value;
        result := result.(payload := Some(patched.value), decision := Mutate, decidedBy := m.name);
      case Annotate =>
        var notes := AddAnnotations(result.annotations, m.name, v.annotations);
        result := result.(annotations := notes);
      case _ =>
    }

    /** One hook of a request. */
    method Run(w: World, r: HookRequest, plugins: seq<Manifest>, start: int) returns (result: HookResult)
      requires Valid()
      modifies this, r, breakers.Values
      ensures Valid() && fresh(breakers.Values - old(breakers.Values))
      ensures var (after, res, tr) :=
                Spec.Run(opts, w, r.req, Carry(old(States()), old(r.payload), old(r.consumed)), plugins, start);
              && Carry(States(), r.payload, r.consumed) == after
              && result == res
              && r.hooks == old(r.hooks) + [tr]
    {
      hide RunPlugin, Act, BudgetOfHook, BreakerOf, Turns;
      ghost var begin := Begin(Carry(States(), r.payload, r.consumed));
      result := UNDECIDED;
      var outcomes, exhausted, done := [], false, false;
      if |plugins| == 0 {
        OneTurn(opts, w, r.req, begin, plugins, 0, start + BudgetOfHook(opts, r.consumed));
        assert plugins[0..] == plugins;
        r.hooks := r.hooks + [HookTrace(outcomes, exhausted)];
        return;
      }
      var hookDeadline := start + BudgetOfHook(opts, r.consumed);
      for i := 0 to |plugins|
        invariant Valid() && fresh(breakers.Values - old(breakers.Values)) && r.hooks == old(r.hooks)
        invariant Turns(opts, w, r.req,
                        Loop(Carry(States(), r.payload, r.consumed), result, outcomes, exhausted, false),
                        plugins, plugins[i..], hookDeadline)
               == Turns(opts, w, r.req, begin, plugins, plugins, hookDeadline)
      {
        var m := plugins[i];
        OneTurn(opts, w, r.req, Loop(Carry(States(), r.payload, r.consumed), result, outcomes, exhausted, false),
                plugins, i, hookDeadline);
        if opts.totalBudget - r.consumed <= 0 {
          outcomes := outcomes + [Skip(m, RequestBudget)];
          continue;
        }
        if w.clock(m.id).checked > hookDeadline {
          exhausted := true;
          outcomes := outcomes + [Skip(m, HookBudget)];
          continue;
        }
        var out := RunOne(w, r, m, hookDeadline);
        ghost var l := Loop(Carry(States(), r.payload, r.consumed), result, outcomes, exhausted, false);
        result, outcomes, done := Settle(r, result, outcomes, plugins, m, out, l);
        if done {
          r.hooks := r.hooks + [HookTrace(outcomes, exhausted)];
          return;
        }
      }
      OneTurn(opts, w, r.req, Loop(Carry(States(), r.payload, r.consumed), result, outcomes, exhausted, false), plugins,
              |plugins|, hookDeadline);
      r.hooks := r.hooks + [HookTrace(outcomes, exhausted)];
      if result.payload.None? { result := result.(payload := Some(r.payload)); }
    }
  }
}
