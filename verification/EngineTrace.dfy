/**
 A hook as a left fold over its plugins. Each plugin is looked at alone: with the breaker the hook began with and
 the payload the accepted patches before it leave. The theorems say that the engine's loop, with its breaker
 map, its early exits and its pre-emption marks, computes exactly this fold, and what the trace then tells.
 */
module EngineTrace {
  import opened Options
  import opened Json
  import opened JsonPatch
  import opened Verdicts
  import opened Engine
  import PB = PluginBreakers

  /** Everything one hook depends on. */
  datatype Hook = Hook(o: Config, w: World, req: Request, c: Carry, plugins: seq<Manifest>, deadline: int)

  function HookAt(o: Config, w: World, req: Request, c: Carry, plugins: seq<Manifest>, start: int): Hook {
    Hook(o, w, req, c, plugins, start + BudgetOfHook(o, c.consumed))
  }

  // ---------------------------------------------------------------- reading an outcome

  predicate Acted(out: Outcome) { out.enforced && out.verdict.Some? }

  /** The outcome ends the hook. */
  predicate Decides(out: Outcome) {
    Acted(out) && (out.verdict.value.decision.Deny? || out.verdict.value.decision.Defer?)
  }

  predicate Edits(out: Outcome) { Acted(out) && out.verdict.value.decision.Mutate? }

  predicate Notes(out: Outcome) { Acted(out) && out.verdict.value.decision.Annotate? }

  // ---------------------------------------------------------------- the fold

  datatype Ending = Ending(verdict: Verdict, decider: string)

  /** What the plugins so far add up to. */
  datatype Sum = Sum(
    payload: Json,
    editor: Option<string>,
    notes: map<string, Json>,
    consumed: int,
    exhausted: bool,
    ending: Option<Ending>)

  /** A verdict as the hook takes it: a patch that is refused loses its force. */
  function Judged(out: Outcome, payload: Json, m: Manifest): Outcome {
    if !Edits(out) then out
    else match ApplyPatch(payload, out.verdict.value.patch, m.writes)
      case Ok(_) => out
      case Err(e) => out.(problem := PatchRefused(e), enforced := false)
  }

  /** The plugin on its own: its outcome and the breaker it leaves. */
  function Alone(h: Hook, payload: Json, m: Manifest): (Outcome, PB.State) {
    Try(h.o, h.w, h.req, BreakerOf(h.o, h.c.breakers, m.id), payload, m, h.deadline)
  }

  /** The outcome of plugin `m` after `before`: pre-empted, out of budget, or its own word. */
  function OutcomeOf(h: Hook, before: Sum, m: Manifest): Outcome {
    if before.ending.Some? then Skip(m, ShortCircuited)
    else match BudgetSkip(h.o, h.w, before.consumed, m, h.deadline)
      case NotSkipped => Judged(Alone(h, before.payload, m).0, before.payload, m)
      case why => Skip(m, why)
  }

  /** The breaker of plugin `m` afterwards: moved only if the plugin's turn came. */
  function BreakerLeft(h: Hook, before: Sum, m: Manifest): PB.State {
    if before.ending.None? && BudgetSkip(h.o, h.w, before.consumed, m, h.deadline).NotSkipped?
    then Alone(h, before.payload, m).1
    else BreakerOf(h.o, h.c.breakers, m.id)
  }

  function SumAfter(w: World, before: Sum, out: Outcome, m: Manifest): Sum {
    var timed := before.(consumed := before.consumed + Took(w, out),
                             exhausted := before.exhausted || out.skipped.HookBudget?);
    if Decides(out) then timed.(ending := Some(Ending(out.verdict.value, m.name)))
    else if Notes(out) then timed.(notes := Annotated(before.notes, m.name, out.verdict.value.annotations))
    else if Edits(out) then
      match ApplyPatch(before.payload, out.verdict.value.patch, m.writes)
      case Ok(doc) => timed.(payload := doc, editor := Some(m.name))
      case Err(_) => timed
    else timed
  }

  function SumOf(h: Hook, n: nat): Sum
    requires n <= |h.plugins|
    decreases n, 0
  {
    if n == 0 then Sum(h.c.payload, None, map[], h.c.consumed, false, None)
    else SumAfter(h.w, SumOf(h, n - 1), OutcomeAt(h, n - 1), h.plugins[n - 1])
  }

  function OutcomeAt(h: Hook, i: nat): Outcome
    requires i < |h.plugins|
    decreases i, 1
  {
    OutcomeOf(h, SumOf(h, i), h.plugins[i])
  }

  function BreakerAt(h: Hook, i: nat): PB.State
    requires i < |h.plugins|
  {
    BreakerLeft(h, SumOf(h, i), h.plugins[i])
  }

  function Outcomes(h: Hook): (outs: seq<Outcome>)
    ensures |outs| == |h.plugins|
  {
    seq(|h.plugins|, i requires 0 <= i < |h.plugins| => OutcomeAt(h, i))
  }

  /** Mutate if a patch was accepted, else allow. */
  function Undecided(s: Sum): HookResult {
    match s.editor
    case None => UNDECIDED.(annotations := s.notes)
    case Some(name) =>
      UNDECIDED.(decision := Mutate, decidedBy := name, payload := Some(s.payload), annotations := s.notes)
  }

  /** The decision of whoever ended the hook; a deferral also carries what the client is asked for. */
  function Decided(s: Sum): HookResult
    requires s.ending.Some?
  {
    var Ending(v, decider) := s.ending.value;
    var r := Undecided(s).(decision := v.decision, reason := v.reason, decidedBy := decider);
    if v.decision.Defer? then r.(inputRequests := v.inputRequests, pluginState := v.pluginState) else r
  }

  // ---------------------------------------------------------------- one turn of the loop

  /** The loop's state once `i` plugins had their turn. */
  ghost predicate Done(h: Hook, l: Loop, i: nat) {
    && i <= |h.plugins| && i <= |l.outcomes|
    && (forall k :: 0 <= k < i ==> l.outcomes[k] == OutcomeAt(h, k))
    && (forall k :: 0 <= k < i ==> BreakerOf(h.o, l.carry.breakers, h.plugins[k].id) == BreakerAt(h, k))
    && Elsewhere(h, l.carry.breakers, i)
  }

  /** The breakers of everyone but the first `i` plugins are the ones the hook began with. */
  ghost predicate Elsewhere(h: Hook, breakers: map<string, PB.State>, i: nat)
    requires i <= |h.plugins|
  {
    forall id :: id !in (set k | 0 <= k < i :: h.plugins[k].id) ==>
      BreakerOf(h.o, breakers, id) == BreakerOf(h.o, h.c.breakers, id)
  }

  predicate Agrees(l: Loop, s: Sum) {
    && l.carry.payload == s.payload && l.carry.consumed == s.consumed && l.exhausted == s.exhausted
    && (l.done <==> s.ending.Some?)
    && l.result == if l.done then Decided(s) else Undecided(s)
  }

  /** A plugin's breaker is as the hook found it until its turn comes. */
  lemma {:induction false} Untouched(h: Hook, l: Loop, i: nat)
    requires Done(h, l, i) && i < |h.plugins| && UniqueIds(h.plugins)
    ensures BreakerOf(h.o, l.carry.breakers, h.plugins[i].id) == BreakerOf(h.o, h.c.breakers, h.plugins[i].id)
  {
    hide OutcomeAt, BreakerAt, BreakerOf;
  }

  lemma {:induction false} Grow(h: Hook, l: Loop, l2: Loop, i: nat)
    requires Done(h, l, i) && i < |h.plugins| && UniqueIds(h.plugins) && i == |l.outcomes| < |l2.outcomes|
    requires l2.outcomes[..i] == l.outcomes && l2.outcomes[i] == OutcomeAt(h, i)
    requires BreakerOf(h.o, l2.carry.breakers, h.plugins[i].id) == BreakerAt(h, i)
    requires forall id ::
               id != h.plugins[i].id ==> BreakerOf(h.o, l2.carry.breakers, id) == BreakerOf(h.o, l.carry.breakers, id)
    ensures Done(h, l2, i + 1)
  {
    hide OutcomeAt, BreakerAt, BreakerOf;
    assert forall k :: 0 <= k < i ==> l2.outcomes[..i][k] == l2.outcomes[k];
    forall id | id !in (set k | 0 <= k < i + 1 :: h.plugins[k].id)
      ensures BreakerOf(h.o, l2.carry.breakers, id) == BreakerOf(h.o, h.c.breakers, id)
    {
      assert h.plugins[i].id in (set k | 0 <= k < i + 1 :: h.plugins[k].id);
      assert id !in (set k | 0 <= k < i :: h.plugins[k].id);
    }
  }

  lemma {:induction false} TryFacts(h: Hook, payload: Json, m: Manifest)
    ensures var out := Alone(h, payload, m).0;
            && out.pluginId == m.id && out.pluginName == m.name && out.rollout == m.rollout
            && out.skipped in {NotSkipped, CircuitOpen, HostUnavailable} && (out.ran <==> out.skipped.NotSkipped?)
            && (out.verdict.Some? ==> out.ran && !out.verdict.value.decision.Unknown?)
            && (out.enforced ==> out.ran)
  {
    hide PB.Allow, PB.Granted, PB.Success, PB.Failure, ModeFor, ShouldEnforce, Deadline, EffectName;
  }

  function SkipAll(plugins: seq<Manifest>): seq<Outcome> {
    seq(|plugins|, i requires 0 <= i < |plugins| => Skip(plugins[i], ShortCircuited))
  }

  /** The loop stands where the fold stands, but for the time `out` took. */
  predicate Level(w: World, l: Loop, before: Sum, out: Outcome) {
    && before.ending.None? && Agrees(l.(carry := l.carry.(consumed := before.consumed)), before)
    && l.carry.consumed == before.consumed + Took(w, out)
    && (out.verdict.Some? ==> !out.verdict.value.decision.Unknown?) && !out.skipped.HookBudget?
  }

  /** What the hook makes of an outcome that leaves it open is the step of the fold. */
  lemma {:induction false} ActsOn(w: World, l: Loop, all: seq<Manifest>, m: Manifest, out: Outcome, before: Sum)
    requires Level(w, l, before, out) && !Decides(out)
    ensures var x := Judged(out, before.payload, m);
            var l2, s := Act(l, all, m, out), SumAfter(w, before, x, m);
            && Agrees(l2, s) && !l2.done && l2.carry.breakers == l.carry.breakers && l2.outcomes == l.outcomes + [x]
  {
    hide ApplyPatch, Annotated, Preempted;
  }

  lemma {:induction false} ActsLast(w: World, l: Loop, all: seq<Manifest>, m: Manifest, out: Outcome, before: Sum)
    requires Level(w, l, before, out) && Decides(out)
    ensures var l2, s := Act(l, all, m, out), SumAfter(w, before, out, m);
            && Judged(out, before.payload, m) == out
            && Agrees(l2, s) && l2.done && l2.carry.breakers == l.carry.breakers
            && l2.outcomes == l.outcomes + [out] + Preempted(all, m.id, false)
  {
    hide ApplyPatch, Annotated, Preempted;
  }

  lemma {:induction false} PreemptedRest(plugins: seq<Manifest>, id: string)
    requires forall i :: 0 <= i < |plugins| ==> plugins[i].id != id
    ensures Preempted(plugins, id, true) == SkipAll(plugins)
  {
    if plugins != [] {
      PreemptedRest(plugins[1..], id);
      assert SkipAll(plugins) == [Skip(plugins[0], ShortCircuited)] + SkipAll(plugins[1..]);
    }
  }

  /** With distinct ids, exactly the plugins behind the deciding one are marked. */
  lemma {:induction false} PreemptedTail(plugins: seq<Manifest>, i: nat)
    requires UniqueIds(plugins) && i < |plugins|
    ensures Preempted(plugins, plugins[i].id, false) == SkipAll(plugins[i + 1..])
    decreases i
  {
    if i == 0 {
      PreemptedRest(plugins[1..], plugins[0].id);
    } else {
      assert plugins[1..][i - 1] == plugins[i];
      PreemptedTail(plugins[1..], i - 1);
      assert plugins[1..][i..] == plugins[i + 1..];
      assert [] + SkipAll(plugins[i + 1..]) == SkipAll(plugins[i + 1..]);
    }
  }

  // ---------------------------------------------------------------- the whole loop

  /** A skip for want of budget. */
  lemma {:induction false} TurnSkips(h: Hook, l: Loop, i: nat)
    requires Done(h, l, i) && i == |l.outcomes| < |h.plugins| && UniqueIds(h.plugins) && Agrees(l, SumOf(h, i))
             && !l.done
    requires !BudgetSkip(h.o, h.w, l.carry.consumed, h.plugins[i], h.deadline).NotSkipped?
    ensures var l2 := Turn(h.o, h.w, h.req, l, h.plugins, h.plugins[i], h.deadline);
            && Done(h, l2, i + 1) && |l2.outcomes| == i + 1 && Agrees(l2, SumOf(h, i + 1)) && !l2.done
  {
    hide Try, ApplyPatch, Done;
    Untouched(h, l, i);
    Grow(h, l, Turn(h.o, h.w, h.req, l, h.plugins, h.plugins[i], h.deadline), i);
  }

  lemma {:induction false} RunsAlone(h: Hook, l: Loop, i: nat)
    requires Done(h, l, i) && i == |l.outcomes| < |h.plugins| && UniqueIds(h.plugins) && Agrees(l, SumOf(h, i))
             && !l.done
    requires BudgetSkip(h.o, h.w, l.carry.consumed, h.plugins[i], h.deadline).NotSkipped?
    ensures var m, before := h.plugins[i], SumOf(h, i);
            var (out, b) := Alone(h, before.payload, m);
            var mid := l.(carry :=
                          Carry(l.carry.breakers[m.id := b], before.payload, before.consumed + Took(h.w, out)));
            && Turn(h.o, h.w, h.req, l, h.plugins, m, h.deadline) == Act(mid, h.plugins, m, out)
            && OutcomeAt(h, i) == Judged(out, before.payload, m) && BreakerAt(h, i) == b
            && Level(h.w, mid, before, out)
  {
    hide Try, ApplyPatch, Act, Done, Judged, Undecided, Decided, SumAfter;
    TryFacts(h, SumOf(h, i).payload, h.plugins[i]);
    Untouched(h, l, i);
  }

  /** The plugin ran, or tried to. */
  lemma {:induction false} TurnRuns(h: Hook, l: Loop, i: nat)
    requires Done(h, l, i) && i == |l.outcomes| < |h.plugins| && UniqueIds(h.plugins) && Agrees(l, SumOf(h, i))
             && !l.done
    requires BudgetSkip(h.o, h.w, l.carry.consumed, h.plugins[i], h.deadline).NotSkipped?
    ensures var l2 := Turn(h.o, h.w, h.req, l, h.plugins, h.plugins[i], h.deadline);
            && Done(h, l2, i + 1) && Agrees(l2, SumOf(h, i + 1))
            && i < |l2.outcomes| && l2.outcomes[i + 1..] == if l2.done then SkipAll(h.plugins[i + 1..]) else []
  {
    hide Alone, ApplyPatch, Act, Done, Judged, Decides, Turn, Took, BudgetSkip, Agrees, Level, OutcomeAt, BreakerAt,
         SumAfter;
    RunsAlone(h, l, i);
    var m, before := h.plugins[i], SumOf(h, i);
    var l2 := Turn(h.o, h.w, h.req, l, h.plugins, m, h.deadline);
    var (out, b) := Alone(h, before.payload, m);
    var mid := l.(carry := Carry(l.carry.breakers[m.id := b], before.payload, before.consumed + Took(h.w, out)));
    if Decides(out) {
      ActsLast(h.w, mid, h.plugins, m, out, before);
      PreemptedTail(h.plugins, i);
    } else {
      ActsOn(h.w, mid, h.plugins, m, out, before);
    }
    Grow(h, l, l2, i);
  }

  /** Behind an ending the fold stands still, and every plugin is pre-empted. */
  lemma {:induction false} AfterTheEnd(h: Hook, i: nat, n: nat)
    requires i <= n <= |h.plugins| && SumOf(h, i).ending.Some?
    ensures SumOf(h, n) == SumOf(h, i)
    ensures forall k :: i <= k < n ==> OutcomeAt(h, k) == Skip(h.plugins[k], ShortCircuited)
    ensures forall k :: i <= k < n ==> BreakerAt(h, k) == BreakerOf(h.o, h.c.breakers, h.plugins[k].id)
  {
    hide Alone, ApplyPatch, Annotated, Judged, BudgetSkip, BreakerOf;
    if i < n { AfterTheEnd(h, i, n - 1); }
  }

  lemma {:induction false} Preempting(h: Hook, l: Loop, i: nat)
    requires UniqueIds(h.plugins) && i <= |h.plugins| && Done(h, l, i) && Agrees(l, SumOf(h, i)) && l.done
    requires l.outcomes[i..] == SkipAll(h.plugins[i..])
    ensures Done(h, l, |h.plugins|) && |l.outcomes| == |h.plugins| && Agrees(l, SumOf(h, |h.plugins|))
  {
    hide OutcomeAt, BreakerAt, BreakerOf, SumOf, Undecided, Decided;
    var n := |h.plugins|;
    AfterTheEnd(h, i, n);
    forall k | i <= k < n ensures l.outcomes[k] == OutcomeAt(h, k) {
      assert l.outcomes[k] == l.outcomes[i..][k - i];
    }
    forall k | 0 <= k < n ensures BreakerOf(h.o, l.carry.breakers, h.plugins[k].id) == BreakerAt(h, k) {
      if k >= i {
        assert h.plugins[k].id !in (set j | 0 <= j < i :: h.plugins[j].id);
      }
    }
  }

  /** From any point of the hook to its end. */
  lemma {:induction false} TurnsFold(h: Hook, l: Loop, i: nat)
    requires UniqueIds(h.plugins) && i == |l.outcomes| <= |h.plugins| && Done(h, l, i) && Agrees(l, SumOf(h, i))
             && !l.done
    ensures var last := Turns(h.o, h.w, h.req, l, h.plugins, h.plugins[i..], h.deadline);
            Done(h, last, |h.plugins|) && |last.outcomes| == |h.plugins| && Agrees(last, SumOf(h, |h.plugins|))
    decreases |h.plugins| - i
  {
    hide Turn, Done, Agrees, SumOf, BudgetSkip;
    if i < |h.plugins| {
      var l2 := Turn(h.o, h.w, h.req, l, h.plugins, h.plugins[i], h.deadline);
      assert h.plugins[i..][1..] == h.plugins[i + 1..];
      if BudgetSkip(h.o, h.w, l.carry.consumed, h.plugins[i], h.deadline).NotSkipped? {
        TurnRuns(h, l, i);
      } else {
        TurnSkips(h, l, i);
      }
      if l2.done {
        Preempting(h, l2, i + 1);
      } else {
        TurnsFold(h, l2, i + 1);
      }
    }
  }

  // ---------------------------------------------------------------- the theorems

  /** What the hook answers: with nobody to end it and at least one plugin, the payload comes back even if unpatched. */
  function Answer(h: Hook): HookResult {
    var total := SumOf(h, |h.plugins|);
    if total.ending.Some? then Decided(total)
    else Undecided(total).(payload := if h.plugins == [] then None else Some(total.payload))
  }

  /**
   The run is the left fold of its plugins: its outcomes, its result, the payload, the time consumed and every
   breaker, those of plugins outside the hook included.
   */
  lemma {:induction false} RunIsFold(o: Config, w: World, req: Request, c: Carry, plugins: seq<Manifest>, start: int)
    requires UniqueIds(plugins)
    ensures var (after, result, tr) := Run(o, w, req, c, plugins, start);
            var h := HookAt(o, w, req, c, plugins, start);
            var total := SumOf(h, |plugins|);
            && result == Answer(h)
            && tr == HookTrace(Outcomes(h), total.exhausted)
            && after.payload == total.payload && after.consumed == total.consumed
            && (forall i :: 0 <= i < |plugins| ==> BreakerOf(o, after.breakers, plugins[i].id) == BreakerAt(h, i))
            && Elsewhere(h, after.breakers, |plugins|)
  {
    hide OutcomeAt, BreakerAt, Turn, BreakerOf;
    var h := HookAt(o, w, req, c, plugins, start);
    assert plugins[0..] == plugins;
    TurnsFold(h, Begin(c), 0);
    var last := Turns(o, w, req, Begin(c), plugins, plugins, h.deadline);
    assert last.outcomes == Outcomes(h);
  }

  /** It either ran or says why not, and what did not run had no say. */
  predicate Accounted(out: Outcome, m: Manifest) {
    && out.pluginId == m.id && out.pluginName == m.name && out.rollout == m.rollout
    && (out.ran <==> out.skipped.NotSkipped?)
    && (!out.ran ==> !out.enforced && out.verdict.None?)
  }

  lemma {:induction false} OutcomeTells(h: Hook, before: Sum, m: Manifest)
    ensures var out := OutcomeOf(h, before, m);
            && Accounted(out, m)
            && (out.skipped.ShortCircuited? <==> before.ending.Some?)
            && (out.skipped.RequestBudget? <==> before.ending.None? && before.consumed >= h.o.totalBudget)
            && (out.skipped.HookBudget? <==>
                  before.ending.None? && before.consumed < h.o.totalBudget && h.w.clock(m.id).checked > h.deadline)
  {
    hide Alone, ApplyPatch;
    TryFacts(h, before.payload, m);
  }

  /** Who ended the hook, if anyone: the only plugin to decide. */
  lemma {:induction false} WhoEnded(h: Hook, n: nat) returns (i: int)
    requires n <= |h.plugins|
    ensures SumOf(h, n).ending.None? ==>
              forall k :: 0 <= k < n ==> !Decides(OutcomeAt(h, k)) && !OutcomeAt(h, k).skipped.ShortCircuited?
    ensures SumOf(h, n).ending.Some? ==>
              && 0 <= i < n && Decides(OutcomeAt(h, i)) && !OutcomeAt(h, i).skipped.ShortCircuited?
              && SumOf(h, n).ending == Some(Ending(OutcomeAt(h, i).verdict.value, h.plugins[i].name))
              && (forall k :: 0 <= k < n && k != i ==> !Decides(OutcomeAt(h, k)))
              && (forall k :: 0 <= k < n ==> (OutcomeAt(h, k).skipped.ShortCircuited? <==> i < k))
  {
    hide OutcomeOf, ApplyPatch, Annotated;
    i := -1;
    if n > 0 {
      i := WhoEnded(h, n - 1);
      OutcomeTells(h, SumOf(h, n - 1), h.plugins[n - 1]);
      if SumOf(h, n - 1).ending.None? { i := n - 1; }
    }
  }

  /** An edit that kept its force was accepted. */
  lemma {:induction false} EditsApply(h: Hook, before: Sum, m: Manifest)
    ensures var out := OutcomeOf(h, before, m);
            Edits(out) ==> ApplyPatch(before.payload, out.verdict.value.patch, m.writes).Ok?
  {
    hide Alone, ApplyPatch;
  }

  /** Who edited last: the decider of a hook nobody ended. */
  lemma {:induction false} WhoEdited(h: Hook, n: nat) returns (i: int)
    requires n <= |h.plugins|
    ensures SumOf(h, n).editor.None? ==> forall k :: 0 <= k < n ==> !Edits(OutcomeAt(h, k))
    ensures SumOf(h, n).editor.Some? ==>
              && 0 <= i < n && Edits(OutcomeAt(h, i)) && SumOf(h, n).editor == Some(h.plugins[i].name)
              && (forall k :: i < k < n ==> !Edits(OutcomeAt(h, k)))
  {
    hide OutcomeOf, ApplyPatch, Annotated;
    i := -1;
    if n > 0 {
      i := WhoEdited(h, n - 1);
      EditsApply(h, SumOf(h, n - 1), h.plugins[n - 1]);
      if Edits(OutcomeAt(h, n - 1)) { i := n - 1; }
    }
  }

  /**
   Every run leaves one outcome per configured plugin, in the configured order: it ran, or says why it did not.
   A plugin is out of the request's budget exactly when the plugins before it consumed all of it, out of the
   hook's exactly when its turn came after the hook's deadline, and pre-empted exactly when one before it decided.
   */
  lemma {:induction false} TraceIsComplete(o: Config, w: World, req: Request, c: Carry, plugins: seq<Manifest>,
                                           start: int)
    requires UniqueIds(plugins)
    ensures var outs := Run(o, w, req, c, plugins, start).2.outcomes;
            var h := HookAt(o, w, req, c, plugins, start);
            && |outs| == |plugins|
            && (forall k :: 0 <= k < |plugins| ==>
                  && Accounted(outs[k], plugins[k])
                  && (outs[k].skipped.ShortCircuited? <==> exists j :: 0 <= j < k && Decides(outs[j]))
                  && (outs[k].skipped.RequestBudget? ==> SumOf(h, k).consumed >= o.totalBudget)
                  && (outs[k].ran ==>
                        SumOf(h, k).consumed < o.totalBudget && w.clock(plugins[k].id).checked <= h.deadline))
  {
    hide Run, Decides, SumOf, OutcomeOf;
    RunIsFold(o, w, req, c, plugins, start);
    var h := HookAt(o, w, req, c, plugins, start);
    forall k | 0 <= k < |plugins|
      ensures var out := OutcomeAt(h, k);
              && Accounted(out, plugins[k])
              && (out.skipped.ShortCircuited? <==> exists j :: 0 <= j < k && Decides(OutcomeAt(h, j)))
              && (out.skipped.RequestBudget? ==> SumOf(h, k).consumed >= o.totalBudget)
              && (out.ran ==> SumOf(h, k).consumed < o.totalBudget && w.clock(plugins[k].id).checked <= h.deadline)
    {
      var i := WhoEnded(h, k);
      OutcomeTells(h, SumOf(h, k), plugins[k]);
    }
  }

  /**
   The decision, read off the trace: that of the one enforced deny or defer, with everything it said; failing
   that, mutate in the name of the last plugin whose patch was accepted; failing that, allow.
   */
  lemma {:induction false} DecisionRule(o: Config, w: World, req: Request, c: Carry, plugins: seq<Manifest>, start: int)
    requires UniqueIds(plugins)
    ensures var (_, result, tr) := Run(o, w, req, c, plugins, start);
            var outs := tr.outcomes;
            && |outs| == |plugins|
            && (forall i ::
                  0 <= i < |outs| && Decides(outs[i]) ==> Speaks(result, outs[i].verdict.value, plugins[i].name))
            && (forall i, j :: 0 <= i < j < |outs| && Decides(outs[i]) ==> !Decides(outs[j]))
            && ((forall i :: 0 <= i < |outs| ==> !Decides(outs[i])) ==>
                  && result.reason == result.inputRequests == result.pluginState == ""
                  && (result.decision.Allow? || result.decision.Mutate?)
                  && (result.decision.Mutate? ==>
                        exists i :: 0 <= i < |outs| && Edits(outs[i]) && result.decidedBy == plugins[i].name
                                    && forall j :: i < j < |outs| ==> !Edits(outs[j]))
                  && (result.decision.Allow? ==>
                        result.decidedBy == "" && forall i :: 0 <= i < |outs| ==> !Edits(outs[i])))
  {
    hide Run, SumOf, OutcomeOf, Decides, Edits;
    RunIsFold(o, w, req, c, plugins, start);
    var h := HookAt(o, w, req, c, plugins, start);
    var i := WhoEnded(h, |plugins|);
    var e := WhoEdited(h, |plugins|);
    assert forall k :: 0 <= k < |plugins| ==> Outcomes(h)[k] == OutcomeAt(h, k);
  }

  /** The result says what verdict `v` says, in the name of `decider`. */
  predicate Speaks(result: HookResult, v: Verdict, decider: string) {
    && result.decision == v.decision && result.reason == v.reason && result.decidedBy == decider
    && (if v.decision.Defer? then result.inputRequests == v.inputRequests && result.pluginState == v.pluginState
        else result.inputRequests == "" && result.pluginState == "")
  }

  /** The breaker the hook finds, a closed one if it finds none, admits a request at the reading the plugin asks at. */
  predicate LetThrough(h: Hook, m: Manifest) {
    m.id in h.c.breakers ==>
      var b := h.c.breakers[m.id];
      !b.open || (h.w.clock(m.id).asked - b.openedAt >= b.cooldown && !b.probeInFlight)
  }

  /**
   What a verdict needs: a decision of the five, a confidence between 0 and 1, a patch exactly with a mutation, by a
   plugin that declares writes, unless it defers, and input requests with a deferral.
   */
  predicate Consistent(v: Verdict, m: Manifest) {
    && v.decision in {Allow, Deny, Mutate, Annotate, Defer}
    && v.confidence >= 0.0 && v.confidence <= 1.0
    && (v.decision == Mutate ==> v.patch != Absent && |m.writes| > 0)
    && (v.decision == Defer ==> |v.inputRequests| > 0)
    && (v.decision in {Allow, Deny, Annotate} ==> v.patch == Absent)
  }

  lemma {:induction false} ValidIsConsistent(v: Verdict, m: Manifest)
    ensures Valid(v, m) <==> Consistent(v, m)
  {
  }

  lemma {:induction false} DeadlineTells(h: Hook, m: Manifest) returns (d: int)
    ensures var own := h.w.clock(m.id).armed + if m.budgetMs > 0 then m.budgetMs * 1_000_000 else h.o.pluginBudget;
            d <= h.deadline && d <= own && (d == h.deadline || d == own) && d == Deadline(h.o, h.w, m, h.deadline)
  {
    d := Deadline(h.o, h.w, m, h.deadline);
  }

  lemma {:induction false} AllowIsValid(m: Manifest)
    ensures Valid(ALLOW, m)
  {
  }

  lemma {:induction false} GrantIsLetThrough(h: Hook, m: Manifest)
    ensures PB.Granted(BreakerOf(h.o, h.c.breakers, m.id), h.w.clock(m.id).asked) <==> LetThrough(h, m)
  {
  }

  lemma {:induction false} PolicyTells(m: Manifest, effect: EffectClass)
    ensures ModeFor(m, effect) ==
            if effect in m.failurePolicy && m.failurePolicy[effect] == FailClosed then FailClosed else FailOpen
  {
  }

  lemma {:induction false} RolloutTells(o: Config, req: Request, m: Manifest)
    ensures ShouldEnforce(o, req, m) <==>
              m.rollout.Enforce? || (m.rollout.Canary? && o.sample(req.id, m.canaryPercent))
  {
  }

  /**
   When a plugin has a say, and which: its breaker lets it through, its host is up, it is enforced, and it either said
   something consistent, or failed while the policy for this effect class says closed. A plugin without such a policy
   fails open, and a closed policy denies on no other route. `d` is the deadline the host is given: the earlier of the
   hook's and the plugin's own.
   */
  lemma {:induction false} HasASay(h: Hook, payload: Json, m: Manifest) returns (d: int)
    ensures var own := h.w.clock(m.id).armed + if m.budgetMs > 0 then m.budgetMs * 1_000_000 else h.o.pluginBudget;
            d <= h.deadline && d <= own && (d == h.deadline || d == own) && d == Deadline(h.o, h.w, m, h.deadline)
    ensures var out, t := Alone(h, payload, m).0, h.w.clock(m.id);
            var enforced := m.rollout.Enforce? || (m.rollout.Canary? && h.o.sample(h.req.id, m.canaryPercent));
            var reply := h.w.answer(m.id, payload, !enforced, d);
            && (out.enforced && out.verdict.Some? <==>
                  && LetThrough(h, m) && h.w.hostUp(m.id) && enforced
                  && (match reply
                      case Failed(_) =>
                        h.req.effect in m.failurePolicy && m.failurePolicy[h.req.effect] == FailClosed
                      case Said(None) => true
                      case Said(Some(v)) => Consistent(v, m)))
            && (out.enforced && out.verdict.Some? ==>
                  match reply
                  case Failed(_) =>
                    && out.verdict.value.decision.Deny?
                    && out.verdict.value.reason ==
                       m.name + " could not evaluate this request and is configured to fail closed for "
                       + (if h.req.effect == Read then "read" else if h.req.effect == Write then "write"
                          else "destructive")
                       + " tools"
                  case Said(None) => out.verdict.value == Verdict(Allow, "", 0.0, Absent, map[], "", "")
                  case Said(Some(v)) => out.verdict.value == v)
  {
    hide Alone, LetThrough, Consistent, Deadline;
    d := DeadlineTells(h, m);
    ActsWhen(h, payload, m);
    SaysWhat(h, payload, m);
  }

  lemma {:induction false} ActsWhen(h: Hook, payload: Json, m: Manifest)
    ensures var out, d := Alone(h, payload, m).0, Deadline(h.o, h.w, m, h.deadline);
            var enforced := m.rollout.Enforce? || (m.rollout.Canary? && h.o.sample(h.req.id, m.canaryPercent));
            out.enforced && out.verdict.Some? <==>
              && LetThrough(h, m) && h.w.hostUp(m.id) && enforced
              && (match h.w.answer(m.id, payload, !enforced, d)
                  case Failed(_) => h.req.effect in m.failurePolicy && m.failurePolicy[h.req.effect] == FailClosed
                  case Said(None) => true
                  case Said(Some(v)) => Consistent(v, m))
  {
    hide PB.Allow, PB.Success, PB.Failure, PB.Granted, BreakerOf, LetThrough, Valid, Consistent, ModeFor, ShouldEnforce,
         EffectName, Deadline;
    GrantIsLetThrough(h, m);
    PolicyTells(m, h.req.effect);
    RolloutTells(h.o, h.req, m);
    var reply := h.w.answer(m.id, payload, !ShouldEnforce(h.o, h.req, m), Deadline(h.o, h.w, m, h.deadline));
    if reply.Said? && reply.verdict.Some? { ValidIsConsistent(reply.verdict.value, m); }
    AllowIsValid(m);
  }

  lemma {:induction false} SaysWhat(h: Hook, payload: Json, m: Manifest)
    ensures var out, d := Alone(h, payload, m).0, Deadline(h.o, h.w, m, h.deadline);
            var enforced := m.rollout.Enforce? || (m.rollout.Canary? && h.o.sample(h.req.id, m.canaryPercent));
            out.enforced && out.verdict.Some? ==>
              match h.w.answer(m.id, payload, !enforced, d)
              case Failed(_) =>
                && out.verdict.value.decision.Deny?
                && out.verdict.value.reason ==
                   m.name + " could not evaluate this request and is configured to fail closed for "
                   + (if h.req.effect == Read then "read" else if h.req.effect == Write then "write"
                      else "destructive")
                   + " tools"
              case Said(None) => out.verdict.value == Verdict(Allow, "", 0.0, Absent, map[], "", "")
              case Said(Some(v)) => out.verdict.value == v
  {
    hide PB.Allow, PB.Success, PB.Failure, PB.Granted, BreakerOf, Valid, ModeFor, ShouldEnforce, Deadline;
    RolloutTells(h.o, h.req, m);
  }

  /** What the trace records of a plugin's turn: whether it ran, why not, and what went wrong. */
  lemma {:induction false} TurnReads(h: Hook, payload: Json, m: Manifest) returns (d: int)
    ensures var own := h.w.clock(m.id).armed + if m.budgetMs > 0 then m.budgetMs * 1_000_000 else h.o.pluginBudget;
            d <= h.deadline && d <= own && (d == h.deadline || d == own) && d == Deadline(h.o, h.w, m, h.deadline)
    ensures var out := Alone(h, payload, m).0;
            var enforced := m.rollout.Enforce? || (m.rollout.Canary? && h.o.sample(h.req.id, m.canaryPercent));
            var reply := h.w.answer(m.id, payload, !enforced, d);
            && out.pluginId == m.id && out.pluginName == m.name && out.rollout == m.rollout
            && (out.skipped == CircuitOpen <==> !LetThrough(h, m))
            && (out.skipped == HostUnavailable <==> LetThrough(h, m) && !h.w.hostUp(m.id))
            && (out.ran <==> LetThrough(h, m) && h.w.hostUp(m.id)) && (out.ran <==> out.skipped == NotSkipped)
            && (out.problem == HostError <==> out.skipped == HostUnavailable)
            && (forall text :: out.problem == InvokeError(text) <==> out.ran && reply == Failed(text))
            && (out.problem == InvalidVerdict <==>
                  out.ran && reply.Said? && reply.verdict.Some? && !Consistent(reply.verdict.value, m))
            && !out.problem.PatchRefused?
  {
    hide PB.Allow, PB.Success, PB.Failure, PB.Granted, BreakerOf, LetThrough, Valid, Consistent, ModeFor, ShouldEnforce,
         EffectName;
    d := DeadlineTells(h, m);
    hide Deadline;
    GrantIsLetThrough(h, m);
    PolicyTells(m, h.req.effect);
    RolloutTells(h.o, h.req, m);
    var enforced := m.rollout.Enforce? || (m.rollout.Canary? && h.o.sample(h.req.id, m.canaryPercent));
    assert ShouldEnforce(h.o, h.req, m) == enforced;
    var reply := h.w.answer(m.id, payload, !enforced, d);
    assert h.w.answer(m.id, payload, !ShouldEnforce(h.o, h.req, m), d) == reply;
    if reply.Said? && reply.verdict.Some? { ValidIsConsistent(reply.verdict.value, m); }
    AllowIsValid(m);
  }

  /** And what it records of the verdict: how a failure was treated, and whether a verdict was acted on or diverged. */
  lemma {:induction false} VerdictReads(h: Hook, payload: Json, m: Manifest)
    ensures var out := Alone(h, payload, m).0;
            var enforced := m.rollout.Enforce? || (m.rollout.Canary? && h.o.sample(h.req.id, m.canaryPercent));
            var closed := h.req.effect in m.failurePolicy && m.failurePolicy[h.req.effect] == FailClosed;
            && out.failureMode ==
               (if out.problem == NoProblem then None else Some(if closed then FailClosed else FailOpen))
            && (out.problem == NoProblem ==> (out.verdict.Some? <==> out.ran) && out.enforced == (out.ran && enforced))
            && (out.problem != NoProblem ==>
                  && (out.enforced <==> out.problem.InvokeError? && closed && enforced)
                  && (out.verdict.Some? <==> out.enforced))
            && (out.diverged <==>
                  && out.ran && out.problem == NoProblem && !enforced && out.verdict.Some?
                  && out.verdict.value.decision !in {Allow, Annotate})
  {
    hide PB.Allow, PB.Success, PB.Failure, PB.Granted, BreakerOf, LetThrough, Valid, Consistent, ModeFor, ShouldEnforce,
         EffectName, Deadline;
    PolicyTells(m, h.req.effect);
    RolloutTells(h.o, h.req, m);
  }

  /** The payload after the accepted edits of a trace, applied in order, each within its plugin's own write scopes. */
  function Patched(payload: Json, plugins: seq<Manifest>, outs: seq<Outcome>): Json
    requires |outs| <= |plugins|
  {
    if outs == [] then payload
    else
      var i := |outs| - 1;
      var before := Patched(payload, plugins, outs[..i]);
      if !Edits(outs[i]) then before
      else match ApplyPatch(before, outs[i].verdict.value.patch, plugins[i].writes)
        case Ok(doc) => doc
        case Err(_) => before
  }

  lemma {:induction false} PatchStep(w: World, before: Sum, out: Outcome, m: Manifest)
    ensures SumAfter(w, before, out, m).payload ==
            if !Edits(out) then before.payload
            else match ApplyPatch(before.payload, out.verdict.value.patch, m.writes)
              case Ok(doc) => doc
              case Err(_) => before.payload
  {
    hide ApplyPatch, Annotated, Took;
  }

  lemma {:induction false} PatchedSoFar(h: Hook, n: nat)
    requires n <= |h.plugins|
    ensures Patched(h.c.payload, h.plugins, Outcomes(h)[..n]) == SumOf(h, n).payload
  {
    hide OutcomeOf, SumAfter, ApplyPatch, Edits;
    if n > 0 {
      PatchedSoFar(h, n - 1);
      PatchStep(h.w, SumOf(h, n - 1), OutcomeAt(h, n - 1), h.plugins[n - 1]);
      assert Outcomes(h)[..n][..n - 1] == Outcomes(h)[..n - 1];
      assert Outcomes(h)[..n][n - 1] == OutcomeAt(h, n - 1);
    }
  }

  /**
   The plugins of a hook are one party: until a patch is accepted each of them, in shadow or enforced, is shown the
   payload the hook was given, whichever plugin's deferred state that carries.
   */
  lemma {:induction false} EveryoneIsShown(h: Hook, k: nat)
    requires k < |h.plugins| && forall j :: 0 <= j < k ==> !Edits(OutcomeAt(h, j))
    ensures SumOf(h, k).payload == h.c.payload
    ensures OutcomeAt(h, k).ran ==>
              OutcomeAt(h, k) == Judged(Alone(h, h.c.payload, h.plugins[k]).0, h.c.payload, h.plugins[k])
  {
    hide OutcomeOf, SumAfter, Edits, Alone;
    ShownSoFar(h, k);
    if OutcomeAt(h, k).ran { RanIsJudged(h, SumOf(h, k), h.plugins[k]); }
  }

  lemma {:induction false} ShownSoFar(h: Hook, k: nat)
    requires k <= |h.plugins| && forall j :: 0 <= j < k ==> !Edits(OutcomeAt(h, j))
    ensures SumOf(h, k).payload == h.c.payload
  {
    hide OutcomeOf, SumAfter, Edits;
    if k > 0 {
      ShownSoFar(h, k - 1);
      PatchStep(h.w, SumOf(h, k - 1), OutcomeAt(h, k - 1), h.plugins[k - 1]);
    }
  }

  lemma {:induction false} RanIsJudged(h: Hook, before: Sum, m: Manifest)
    requires OutcomeOf(h, before, m).ran
    ensures OutcomeOf(h, before, m) == Judged(Alone(h, before.payload, m).0, before.payload, m)
  {
    hide Alone, Judged;
  }

  lemma {:induction false} AnswerCarries(h: Hook, outs: seq<Outcome>)
    requires outs == Outcomes(h)
    ensures Answer(h).payload ==
            if (exists k :: 0 <= k < |h.plugins| && Edits(outs[k]))
               || (h.plugins != [] && forall k :: 0 <= k < |h.plugins| ==> !Decides(outs[k]))
            then Some(SumOf(h, |h.plugins|).payload) else None
  {
    hide SumOf, OutcomeOf, Decides, Edits;
    var i := WhoEnded(h, |h.plugins|);
    var e := WhoEdited(h, |h.plugins|);
    assert forall k :: 0 <= k < |h.plugins| ==> outs[k] == OutcomeAt(h, k);
    assert SumOf(h, |h.plugins|).editor.Some? ==> Edits(outs[e]);
    assert SumOf(h, |h.plugins|).ending.Some? ==> Decides(outs[i]);
  }

  /**
   What a run carries on is the payload it was given with the accepted patches of its trace applied in order; a refused
   patch, like every other outcome, contributes nothing. The result carries it too, unless the hook was ended before
   any patch was accepted, or had no plugins.
   */
  lemma {:induction false} PayloadIsFold(o: Config, w: World, req: Request, c: Carry, plugins: seq<Manifest>,
                                         start: int)
    requires UniqueIds(plugins)
    ensures var (after, result, tr) := Run(o, w, req, c, plugins, start);
            && |tr.outcomes| == |plugins|
            && after.payload == Patched(c.payload, plugins, tr.outcomes)
            && result.payload ==
               if (exists k :: 0 <= k < |plugins| && Edits(tr.outcomes[k]))
                  || (plugins != [] && forall k :: 0 <= k < |plugins| ==> !Decides(tr.outcomes[k]))
               then Some(after.payload) else None
  {
    hide Run, SumOf, OutcomeAt, Decides, Edits, Patched, Answer;
    RunIsFold(o, w, req, c, plugins, start);
    var h := HookAt(o, w, req, c, plugins, start);
    PatchedSoFar(h, |plugins|);
    AnswerCarries(h, Outcomes(h));
    assert Outcomes(h)[..|plugins|] == Outcomes(h);
    assert forall k :: 0 <= k < |plugins| ==> Outcomes(h)[k] == OutcomeAt(h, k);
  }

  /** Annotations land under the plugin's own name, a dot between, and leave every other entry alone. */
  lemma {:induction false} AnnotationsTell(into: map<string, Json>, name: string, extra: map<string, Json>,
                                           full: string)
    ensures var out := Annotated(into, name, extra);
            && (forall key :: key in extra ==> name + "." + key in out && out[name + "." + key] == extra[key])
            && (full in out ==> full in into || exists key :: key in extra && full == name + "." + key)
            && (full in into && (forall key :: key in extra ==> full != name + "." + key) ==>
                  full in out && out[full] == into[full])
  {
    hide KeyIn;
    forall key | key in extra ensures Namespaced(name, key) in Namespace(name, extra.Keys) { }
    assert forall key :: Namespaced(name, key) == name + "." + key;
  }

  /** The hook is marked exhausted exactly if some plugin's turn came after the hook's deadline. */
  lemma {:induction false} ExhaustedTells(o: Config, w: World, req: Request, c: Carry, plugins: seq<Manifest>,
                                          start: int)
    requires UniqueIds(plugins)
    ensures var tr := Run(o, w, req, c, plugins, start).2;
            tr.exhausted <==> exists k :: 0 <= k < |tr.outcomes| && tr.outcomes[k].skipped == HookBudget
  {
    hide Run, SumOf, OutcomeAt;
    RunIsFold(o, w, req, c, plugins, start);
    var h := HookAt(o, w, req, c, plugins, start);
    ExhaustedSoFar(h, |plugins|);
    forall k | 0 <= k < |plugins| ensures LateAt(h, k) <==> Outcomes(h)[k].skipped == HookBudget {
      assert Outcomes(h)[k] == OutcomeAt(h, k);
    }
  }

  predicate LateAt(h: Hook, k: nat)
    requires k < |h.plugins|
  {
    OutcomeAt(h, k).skipped == HookBudget
  }

  lemma {:induction false} ExhaustedSoFar(h: Hook, n: nat)
    requires n <= |h.plugins|
    ensures SumOf(h, n).exhausted <==> exists k :: 0 <= k < n && LateAt(h, k)
  {
    hide OutcomeOf, SumAfter;
    if n > 0 {
      ExhaustedSoFar(h, n - 1);
      ExhaustedStep(h.w, SumOf(h, n - 1), OutcomeAt(h, n - 1), h.plugins[n - 1]);
      if SumOf(h, n - 1).exhausted {
        var k :| 0 <= k < n - 1 && LateAt(h, k);
      }
      assert LateAt(h, n - 1) <==> OutcomeAt(h, n - 1).skipped == HookBudget;
    }
  }

  lemma {:induction false} ExhaustedStep(w: World, before: Sum, out: Outcome, m: Manifest)
    ensures SumAfter(w, before, out, m).exhausted <==> before.exhausted || out.skipped == HookBudget
  {
    hide ApplyPatch, Annotated, Took;
  }

  /** The settings an engine runs with, in nanoseconds. */
  lemma {:induction false} DefaultsTell(o: Config)
    ensures var d := WithDefaults(o);
            && d.totalBudget == (if o.totalBudget > 0 then o.totalBudget else 250_000_000)
            && d.hookBudget == (if o.hookBudget > 0 then o.hookBudget else 50_000_000)
            && d.pluginBudget == (if o.pluginBudget > 0 then o.pluginBudget else 25_000_000)
            && d.threshold == (if o.threshold > 0 then o.threshold else 5)
            && d.cooldown == (if o.cooldown > 0 then o.cooldown else 30_000_000_000)
            && d.sample == o.sample
  {
  }
}
