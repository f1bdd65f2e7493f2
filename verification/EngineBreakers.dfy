/**
 A plugin's breaker told by the traces: over any hooks of any requests it has seen the requests of the turns that
 came and the outcomes of the invocations that ran, and nothing else.
 */
module EngineBreakers {
  import opened Options
  import opened Json
  import opened JsonPatch
  import opened Verdicts
  import opened Engine
  import opened EngineTrace
  import opened EngineLockout
  import opened BreakerRuns
  import PB = PluginBreakers

  // ---------------------------------------------------------------- what a trace tells of a breaker

  /**
   The events of one turn, read off its outcome: nothing if the turn never came, else a request and, if the plugin ran,
   a failure where it failed or answered with an invalid verdict, and a success otherwise. A patch that is refused is
   no failure.
   */
  function EventsOf(w: World, out: Outcome): seq<Event> {
    var t := w.clock(out.pluginId);
    if out.skipped in {RequestBudget, HookBudget, ShortCircuited} then []
    else if !out.ran then [Ask(t.asked)]
    else [Ask(t.asked), if out.problem.InvokeError? || out.problem.InvalidVerdict? then Fail(t.settled) else Succeed]
  }

  function EventsIn(w: World, outs: seq<Outcome>, id: string): seq<Event> {
    if outs == [] then []
    else
      var last := outs[|outs| - 1];
      EventsIn(w, outs[..|outs| - 1], id) + if last.pluginId == id then EventsOf(w, last) else []
  }

  /** Everything plugin `id` went through in these rounds. */
  function Events(o: Config, breakers: map<string, PB.State>, rounds: seq<Round>, id: string): seq<Event> {
    if rounds == [] then []
    else
      var front, r := rounds[..|rounds| - 1], rounds[|rounds| - 1];
      Events(o, breakers, front, id) + EventsIn(r.w, RunRound(o, After(o, breakers, front), r).2.outcomes, id)
  }

  /** Equal but for the mark that a trip is still to be reported. */
  predicate Same(a: PB.State, b: PB.State) { a.(justOpened := false) == b.(justOpened := false) }

  lemma {:induction false} SameStep(a: PB.State, b: PB.State, e: Event)
    requires Same(a, b)
    ensures Same(StepP(a, e), StepP(b, e))
  {
  }

  lemma {:induction false} SameRun(a: PB.State, b: PB.State, es: seq<Event>)
    requires Same(a, b)
    ensures Same(RunP(a, es), RunP(b, es))
    decreases |es|
  {
    hide Same, StepP;
    if es != [] {
      SameRun(a, b, es[..|es| - 1]);
      SameStep(RunP(a, es[..|es| - 1]), RunP(b, es[..|es| - 1]), es[|es| - 1]);
    }
  }

  lemma {:induction false} RunOn(b: PB.State, es: seq<Event>, more: seq<Event>)
    ensures RunP(b, es + more) == RunP(RunP(b, es), more)
    decreases |more|
  {
    hide StepP;
    if more == [] {
      assert es + more == es;
    } else {
      var n := |more| - 1;
      assert (es + more)[..|es| + n] == es + more[..n] && (es + more)[|es| + n] == more[n];
      RunOn(b, es, more[..n]);
    }
  }

  lemma {:induction false} TwoEvents(b: PB.State, e: Event, f: Event)
    ensures RunP(b, [e]) == StepP(b, e) && RunP(b, [e, f]) == StepP(StepP(b, e), f)
  {
    hide StepP;
    assert [e][..0] == [] && [e, f][..1] == [e];
    assert RunP(b, [e]) == StepP(RunP(b, []), e);
  }

  // ---------------------------------------------------------------- one turn

  lemma {:induction false} AloneIsItsEvents(h: Hook, payload: Json, m: Manifest)
    ensures var (out, after) := Alone(h, payload, m);
            Same(after, RunP(BreakerOf(h.o, h.c.breakers, m.id), EventsOf(h.w, out)))
  {
    hide PB.Allow, PB.Granted, PB.Success, PB.Failure, ModeFor, ShouldEnforce, Deadline, EffectName, BreakerOf, Valid,
         RunP;
    TryFacts(h, payload, m);
    var b, t := BreakerOf(h.o, h.c.breakers, m.id), h.w.clock(m.id);
    TwoEvents(b, Ask(t.asked), Succeed);
    TwoEvents(b, Ask(t.asked), Fail(t.settled));
    if !Alone(h, payload, m).0.ran && !PB.Granted(b, t.asked) { RefusedIsUnmoved(b, t.asked); }
  }

  lemma {:induction false} RefusedIsUnmoved(b: PB.State, at: int)
    requires !PB.Granted(b, at)
    ensures PB.Allow(b, at) == b
  {
  }

  lemma {:induction false} EditsAreSound(h: Hook, payload: Json, m: Manifest)
    ensures var out := Alone(h, payload, m).0; Edits(out) ==> out.problem == NoProblem
  {
    hide PB.Allow, PB.Granted, PB.Success, PB.Failure, ModeFor, ShouldEnforce, Deadline, EffectName, BreakerOf, Valid;
  }

  lemma {:induction false} TurnIsItsEvents(h: Hook, before: Sum, m: Manifest)
    ensures Same(BreakerLeft(h, before, m),
                 RunP(BreakerOf(h.o, h.c.breakers, m.id), EventsOf(h.w, OutcomeOf(h, before, m))))
  {
    hide Alone, BreakerOf, ApplyPatch;
    AloneIsItsEvents(h, before.payload, m);
    EditsAreSound(h, before.payload, m);
    TryFacts(h, before.payload, m);
  }

  // ---------------------------------------------------------------- one hook

  lemma {:induction false} NotItsEvents(w: World, outs: seq<Outcome>, id: string)
    requires forall i :: 0 <= i < |outs| ==> outs[i].pluginId != id
    ensures EventsIn(w, outs, id) == []
  {
    if outs != [] { NotItsEvents(w, outs[..|outs| - 1], id); }
  }

  lemma {:induction false} OnlyItsEvents(w: World, outs: seq<Outcome>, k: nat)
    requires k < |outs| && forall i :: 0 <= i < |outs| && i != k ==> outs[i].pluginId != outs[k].pluginId
    ensures EventsIn(w, outs, outs[k].pluginId) == EventsOf(w, outs[k])
  {
    hide EventsOf;
    var front := outs[..|outs| - 1];
    if k == |front| {
      NotItsEvents(w, front, outs[k].pluginId);
    } else {
      OnlyItsEvents(w, front, k);
    }
  }

  lemma {:induction false} HookIsItsEvents(o: Config, w: World, req: Request, c: Carry, plugins: seq<Manifest>,
                                           start: int, id: string)
    requires UniqueIds(plugins)
    ensures var (after, _, tr) := Run(o, w, req, c, plugins, start);
            Same(BreakerOf(o, after.breakers, id), RunP(BreakerOf(o, c.breakers, id), EventsIn(w, tr.outcomes, id)))
  {
    hide Run, BreakerOf, EventsOf, SumOf, BreakerLeft, OutcomeOf, Answer, RunP;
    RunIsFold(o, w, req, c, plugins, start);
    var h := HookAt(o, w, req, c, plugins, start);
    forall k | 0 <= k < |plugins| ensures Outcomes(h)[k].pluginId == plugins[k].id {
      OutcomeTells(h, SumOf(h, k), plugins[k]);
    }
    if k :| 0 <= k < |plugins| && plugins[k].id == id {
      OnlyItsEvents(w, Outcomes(h), k);
      TurnIsItsEvents(h, SumOf(h, k), plugins[k]);
    } else {
      NotItsEvents(w, Outcomes(h), id);
      assert id !in (set k | 0 <= k < |plugins| :: plugins[k].id);
      NoEvents(BreakerOf(o, c.breakers, id));
    }
  }

  lemma {:induction false} NoEvents(b: PB.State)
    ensures RunP(b, []) == b
  {
  }

  // ---------------------------------------------------------------- any hooks

  /** The breaker a plugin is left with is the run of its own events, from the one it had. */
  lemma {:induction false} BreakerIsItsTurns(o: Config, breakers: map<string, PB.State>, rounds: seq<Round>, id: string)
    requires forall i :: 0 <= i < |rounds| ==> UniqueIds(rounds[i].plugins)
    ensures Same(BreakerOf(o, After(o, breakers, rounds), id),
                 RunP(BreakerOf(o, breakers, id), Events(o, breakers, rounds, id)))
  {
    hide Run, BreakerOf, EventsIn, RunP, Same;
    if rounds == [] {
      NoEvents(BreakerOf(o, breakers, id));
      SameSelf(BreakerOf(o, breakers, id));
    } else {
      var front, r := rounds[..|rounds| - 1], rounds[|rounds| - 1];
      BreakerIsItsTurns(o, breakers, front, id);
      var held, es := After(o, breakers, front), Events(o, breakers, front, id);
      HookIsItsEvents(o, r.w, r.req, Carry(held, r.payload, r.consumed), r.plugins, r.start, id);
      var more := EventsIn(r.w, RunRound(o, held, r).2.outcomes, id);
      SameRun(BreakerOf(o, held, id), RunP(BreakerOf(o, breakers, id), es), more);
      RunOn(BreakerOf(o, breakers, id), es, more);
      SameTwice(BreakerOf(o, After(o, breakers, rounds), id), RunP(BreakerOf(o, held, id), more),
                RunP(BreakerOf(o, breakers, id), es + more));
    }
  }

  lemma {:induction false} SameSelf(b: PB.State)
    ensures Same(b, b)
  {
  }

  lemma {:induction false} SameTwice(a: PB.State, b: PB.State, c: PB.State)
    requires Same(a, b) && Same(b, c)
    ensures Same(a, c)
  {
  }

  /**
   Exactly when a plugin is turned away, over all hooks since the engine was made: the failures since its last success
   have reached the threshold, and its breaker is cooling down or its one trial is out.
   */
  lemma {:induction false} TurnedAwayExactly(o: Config, rounds: seq<Round>, r: Round, k: nat)
    requires (forall i :: 0 <= i < |rounds| ==> UniqueIds(rounds[i].plugins)) && UniqueIds(r.plugins)
    requires k < |r.plugins|
    ensures var outs, m := RunRound(o, After(o, map[], rounds), r).2.outcomes, r.plugins[k];
            var t, es := AtLeastOne(o.threshold), Events(o, map[], rounds, m.id);
            && |outs| == |r.plugins|
            && (outs[k].skipped !in {RequestBudget, HookBudget, ShortCircuited} ==>
                  (outs[k].skipped == CircuitOpen <==>
                     !Lets(StoryP(t, o.cooldown, es), FailsSince(es) >= t, o.cooldown, r.w.clock(m.id).asked)))
  {
    hide Run, SumOf, Events, After, StoryP, Lets, RunP, Same, Answer;
    var m, held := r.plugins[k], After(o, map[], rounds);
    var c := Carry(held, r.payload, r.consumed);
    var h := HookAt(o, r.w, r.req, c, r.plugins, r.start);
    RunIsFold(o, r.w, r.req, c, r.plugins, r.start);
    BreakerIsItsTurns(o, map[], rounds, m.id);
    var es := Events(o, map[], rounds, m.id);
    GrantsExactlyP(o.threshold, o.cooldown, es, r.w.clock(m.id).asked);
    assert BreakerOf(o, map[], m.id) == PB.New(o.threshold, o.cooldown);
    SameGrants(BreakerOf(o, held, m.id), RunP(PB.New(o.threshold, o.cooldown), es), r.w.clock(m.id).asked);
    OutcomeTells(h, SumOf(h, k), m);
    AskedIfItsTurn(h, SumOf(h, k), m);
    assert RunRound(o, held, r).2.outcomes[k] == OutcomeAt(h, k);
  }

  lemma {:induction false} SameGrants(a: PB.State, b: PB.State, at: int)
    requires Same(a, b)
    ensures PB.Granted(a, at) == PB.Granted(b, at)
  {
  }

  lemma {:induction false} AskedIfItsTurn(h: Hook, before: Sum, m: Manifest)
    ensures var out := OutcomeOf(h, before, m);
            out.skipped !in {RequestBudget, HookBudget, ShortCircuited} ==>
              (out.skipped == CircuitOpen <==>
                 !PB.Granted(BreakerOf(h.o, h.c.breakers, m.id), h.w.clock(m.id).asked))
  {
    hide PB.Allow, PB.Granted, PB.Success, PB.Failure, ModeFor, ShouldEnforce, Deadline, EffectName, BreakerOf, Valid,
         ApplyPatch;
  }
}
