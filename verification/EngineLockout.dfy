/**
 The half-open slot. A plugin's trial slot is taken before its host is looked up and is given back only when the
 host answers; a host that cannot be found at that moment keeps the slot. Only the outcome of an invocation that was
 already under way can free it; without one the plugin never runs again.
 */
module EngineLockout {
  import opened Options
  import opened Json
  import opened Verdicts
  import opened Engine
  import opened EngineTrace
  import opened BreakerRuns
  import PB = PluginBreakers

  /** Open, with its only slot taken. */
  predicate Locked(b: PB.State) { b.open && b.probeInFlight }

  /** The one way a plugin's turn locks its breaker: half-open, let through, and no host. */
  lemma {:induction false} SlotLeaks(h: Hook, payload: Json, m: Manifest)
    requires PB.Sound(BreakerOf(h.o, h.c.breakers, m.id))
    ensures var b := BreakerOf(h.o, h.c.breakers, m.id);
            Locked(Alone(h, payload, m).1) <==>
              Locked(b) || (b.open && PB.Granted(b, h.w.clock(m.id).asked) && !h.w.hostUp(m.id))
  {
    hide Valid, ModeFor, ShouldEnforce, Deadline, EffectName;
  }

  /**
   As long as the host is found, a turn is one bracketed use of the breaker: the plugin runs exactly if it is let
   through, and only an answer with a valid verdict counts as a success.
   */
  lemma {:induction false} TurnIsBracket(h: Hook, payload: Json, m: Manifest)
    requires h.w.hostUp(m.id)
    ensures var b, t := BreakerOf(h.o, h.c.breakers, m.id), h.w.clock(m.id);
            var (out, after) := Alone(h, payload, m);
            var reply := h.w.answer(m.id, payload, !ShouldEnforce(h.o, h.req, m), Deadline(h.o, h.w, m, h.deadline));
            var ok := reply.Said? && (reply.verdict.None? || Valid(reply.verdict.value, m));
            && (out.ran <==> PB.Granted(b, t.asked))
            && after.(justOpened := false) == BracketP(b, Bracket(t.asked, ok, t.settled)).(justOpened := false)
  {
    hide ModeFor, ShouldEnforce, Deadline, EffectName;
  }

  /** A locked plugin neither runs nor changes its breaker. */
  lemma {:induction false} LockedAlone(h: Hook, payload: Json, m: Manifest)
    requires Locked(BreakerOf(h.o, h.c.breakers, m.id))
    ensures Alone(h, payload, m) == (Skip(m, CircuitOpen), BreakerOf(h.o, h.c.breakers, m.id))
  {
  }

  lemma {:induction false} LockedHook(o: Config, w: World, req: Request, c: Carry, plugins: seq<Manifest>, start: int,
                                      id: string)
    requires UniqueIds(plugins) && Locked(BreakerOf(o, c.breakers, id))
    ensures var (after, _, tr) := Run(o, w, req, c, plugins, start);
            && BreakerOf(o, after.breakers, id) == BreakerOf(o, c.breakers, id)
            && |tr.outcomes| == |plugins|
            && (forall k :: 0 <= k < |plugins| && plugins[k].id == id ==> !tr.outcomes[k].ran)
  {
    hide Run, Alone, SumOf;
    RunIsFold(o, w, req, c, plugins, start);
    var h := HookAt(o, w, req, c, plugins, start);
    forall k | 0 <= k < |plugins| && plugins[k].id == id
      ensures BreakerAt(h, k) == BreakerOf(o, c.breakers, id) && !OutcomeAt(h, k).ran
    {
      LockedAlone(h, SumOf(h, k).payload, plugins[k]);
    }
  }

  /** Hooks of any requests, one after another; only the breakers carry over. */
  datatype Round = Round(w: World, req: Request, payload: Json, consumed: int, plugins: seq<Manifest>, start: int)

  function RunRound(o: Config, breakers: map<string, PB.State>, r: Round): (Carry, HookResult, HookTrace) {
    Run(o, r.w, r.req, Carry(breakers, r.payload, r.consumed), r.plugins, r.start)
  }

  function After(o: Config, breakers: map<string, PB.State>, rounds: seq<Round>): map<string, PB.State> {
    if rounds == [] then breakers
    else RunRound(o, After(o, breakers, rounds[..|rounds| - 1]), rounds[|rounds| - 1]).0.breakers
  }

  /**
   With hooks one after another, once leaked is always leaked: in no later hook, of any request, does the plugin run.
   */
  lemma {:induction false} LockedForever(o: Config, breakers: map<string, PB.State>, rounds: seq<Round>, id: string)
    requires Locked(BreakerOf(o, breakers, id)) && forall i :: 0 <= i < |rounds| ==> UniqueIds(rounds[i].plugins)
    ensures BreakerOf(o, After(o, breakers, rounds), id) == BreakerOf(o, breakers, id)
    ensures forall i :: 0 <= i < |rounds| ==>
              var r, outs := rounds[i], RunRound(o, After(o, breakers, rounds[..i]), rounds[i]).2.outcomes;
              |outs| == |r.plugins| && forall k :: 0 <= k < |outs| && r.plugins[k].id == id ==> !outs[k].ran
  {
    hide Run, BreakerOf;
    if rounds != [] {
      var front, r := rounds[..|rounds| - 1], rounds[|rounds| - 1];
      LockedForever(o, breakers, front, id);
      assert forall i :: 0 <= i <= |front| ==> front[..i] == rounds[..i];
      LockedHook(o, r.w, r.req, Carry(After(o, breakers, front), r.payload, r.consumed), r.plugins, r.start, id);
    }
  }

  // ---------------------------------------------------------------- overlapping hooks

  /** What concurrent hooks do to one plugin's breaker: turns begin, and those that run settle later, in any order. */
  datatype Moment = Begin(turn: nat, at: int, hostUp: bool) | Settle(turn: nat, ok: bool, at: int)

  /** The breaker, the turns that have begun, and those whose invocation is under way. */
  datatype Desk = Desk(breaker: PB.State, begun: set<nat>, running: set<nat>)

  predicate Legal(d: Desk, m: Moment) { if m.Begin? then m.turn !in d.begun else m.turn in d.running }

  function Next(d: Desk, m: Moment): Desk {
    match m
    case Begin(turn, at, hostUp) =>
      Desk(PB.Allow(d.breaker, at), d.begun + {turn},
           if PB.Granted(d.breaker, at) && hostUp then d.running + {turn} else d.running)
    case Settle(turn, ok, at) =>
      Desk(if ok then PB.Success(d.breaker) else PB.Failure(d.breaker, at), d.begun, d.running - {turn})
  }

  function DeskAfter(d: Desk, ms: seq<Moment>): Desk
    decreases |ms|
  {
    if ms == [] then d else Next(DeskAfter(d, ms[..|ms| - 1]), ms[|ms| - 1])
  }

  ghost predicate LegalRun(d: Desk, ms: seq<Moment>) {
    forall i :: 0 <= i < |ms| ==> Legal(DeskAfter(d, ms[..i]), ms[i])
  }

  predicate Grants(d: Desk, ms: seq<Moment>, j: int) {
    0 <= j < |ms| && ms[j].Begin? && PB.Granted(DeskAfter(d, ms[..j]).breaker, ms[j].at)
  }

  /** A turn of the engine in these terms: it begins, and settles if the plugin ran. */
  lemma {:induction false} TurnIsMoments(h: Hook, payload: Json, m: Manifest, d: Desk, turn: nat)
    requires d.breaker == BreakerOf(h.o, h.c.breakers, m.id) && turn !in d.begun
    ensures var t := h.w.clock(m.id);
            var (out, after) := Alone(h, payload, m);
            var ok := out.problem.NoProblem?;
            var ms := [Begin(turn, t.asked, h.w.hostUp(m.id))] + if out.ran then [Settle(turn, ok, t.settled)] else [];
            LegalRun(d, ms) && DeskAfter(d, ms).breaker.(justOpened := false) == after.(justOpened := false)
  {
    hide ModeFor, ShouldEnforce, Deadline, EffectName, Valid;
    var t := h.w.clock(m.id);
    var (out, after) := Alone(h, payload, m);
    var begin, settle := Begin(turn, t.asked, h.w.hostUp(m.id)), Settle(turn, out.problem.NoProblem?, t.settled);
    assert [begin][..0] == [] && [begin, settle][..1] == [begin] && [begin, settle][..0] == [];
    assert DeskAfter(d, [begin]) == Next(d, begin);
    assert DeskAfter(d, [begin, settle]) == Next(Next(d, begin), settle);
    assert [begin] + [settle] == [begin, settle] && [begin] + [] == [begin];
  }

  /** While only turns begin, a locked breaker stays as it is and nobody starts running. */
  lemma {:induction false} LockedBegins(d: Desk, ms: seq<Moment>, n: nat)
    requires Locked(d.breaker) && n <= |ms| && forall i :: 0 <= i < n ==> ms[i].Begin?
    ensures DeskAfter(d, ms[..n]).breaker == d.breaker && DeskAfter(d, ms[..n]).running == d.running
  {
    if n > 0 {
      LockedBegins(d, ms, n - 1);
      assert ms[..n][..n - 1] == ms[..n - 1];
    }
  }

  lemma {:induction false} FirstSettle(ms: seq<Moment>, j: nat) returns (k: nat)
    requires j <= |ms| && exists i :: 0 <= i < j && ms[i].Settle?
    ensures k < j && ms[k].Settle? && forall i :: 0 <= i < k ==> ms[i].Begin?
  {
    k := 0;
    while ms[k].Begin?
      invariant k < j && (forall i :: 0 <= i < k ==> ms[i].Begin?) && exists i :: k <= i < j && ms[i].Settle?
      decreases j - k
    {
      k := k + 1;
    }
  }

  /** After a leak nothing is granted until an invocation that was under way at the leak comes back. */
  lemma {:induction false} OnlyALateOutcomeFrees(d: Desk, ms: seq<Moment>, j: nat)
    requires Locked(d.breaker) && LegalRun(d, ms) && Grants(d, ms, j)
    ensures exists k :: 0 <= k < j && ms[k].Settle? && ms[k].turn in d.running
  {
    if forall i :: 0 <= i < j ==> ms[i].Begin? {
      LockedBegins(d, ms, j);
    } else {
      var k := FirstSettle(ms, j);
      LockedBegins(d, ms, k);
      assert Legal(DeskAfter(d, ms[..k]), ms[k]);
    }
  }

  /** And any such outcome does free it: a success at once, a failure once the cooldown it starts is over. */
  lemma {:induction false} ALateOutcomeFrees(d: Desk, m: Moment)
    requires Locked(d.breaker) && m.Settle?
    ensures !Locked(Next(d, m).breaker)
            && forall now :: now - m.at >= d.breaker.cooldown || m.ok ==> PB.Granted(Next(d, m).breaker, now)
  {
  }

  /** Nothing is ever granted, whatever happens next. */
  ghost predicate LockedOut(d: Desk) {
    forall ms, now :: LegalRun(d, ms) ==> !PB.Granted(DeskAfter(d, ms).breaker, now)
  }

  lemma {:induction false} NobodySettles(d: Desk, ms: seq<Moment>, n: nat)
    requires d.running == {} && Locked(d.breaker) && LegalRun(d, ms) && n <= |ms|
    ensures forall i :: 0 <= i < n ==> ms[i].Begin?
  {
    if n > 0 {
      NobodySettles(d, ms, n - 1);
      LockedBegins(d, ms, n - 1);
      assert Legal(DeskAfter(d, ms[..n - 1]), ms[n - 1]);
    }
  }

  /** Exactly when a leak locks the plugin out for good: when no invocation of it is under way. */
  lemma {:induction false} LockedOutForGood(d: Desk)
    requires Locked(d.breaker)
    ensures LockedOut(d) <==> d.running == {}
  {
    if d.running == {} {
      forall ms, now | LegalRun(d, ms) ensures !PB.Granted(DeskAfter(d, ms).breaker, now) {
        NobodySettles(d, ms, |ms|);
        LockedBegins(d, ms, |ms|);
        assert ms[..|ms|] == ms;
      }
    } else {
      var turn :| turn in d.running;
      var ms := [Settle(turn, true, 0)];
      assert ms[..0] == [] && LegalRun(d, ms);
      assert DeskAfter(d, ms) == Next(d, ms[0]);
      ALateOutcomeFrees(d, ms[0]);
      assert PB.Granted(DeskAfter(d, ms).breaker, 0);
    }
  }
}
