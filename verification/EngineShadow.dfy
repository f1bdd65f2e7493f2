/**
 Shadow plugins are silent: what a hook decides, carries on and does to the breakers of enforced plugins depends
 on the enforced plugins alone, however many shadow plugins stand between them and whatever those answer, as long as the
 time they take shows neither in the budgets nor in what a cooling breaker lets through.
 */
module EngineShadow {
  import opened Options
  import opened Json
  import opened JsonPatch
  import opened Verdicts
  import opened Engine
  import opened EngineTrace
  import PB = PluginBreakers

  // ---------------------------------------------------------------- who enforces

  /** The default sampler: nobody at 0, everybody at 100, and nobody drops out when the share grows. */
  lemma {:induction false} CanaryShares(o: Config, hash: string -> bv32, req: Request, m: Manifest, more: Manifest)
    requires o.sample == ((id, percent) => HashSample(hash, id, percent))
    requires m.rollout.Canary? && more.rollout.Canary? && m.canaryPercent <= more.canaryPercent
    ensures m.canaryPercent <= 0 ==> !ShouldEnforce(o, req, m)
    ensures m.canaryPercent >= 100 ==> ShouldEnforce(o, req, m)
    ensures 0 < m.canaryPercent < 100 ==> (ShouldEnforce(o, req, m) <==> hash(req.id) as int % 100 < m.canaryPercent)
    ensures ShouldEnforce(o, req, m) ==> ShouldEnforce(o, req, more)
  {
  }

  /** A plugin without its rollout label: a canary in the sample counts as enforced. */
  function Unlabelled(m: Manifest): Manifest { m.(rollout := Enforce, canaryPercent := 0) }

  /** The enforced plugins, in order. */
  function Enforcing(o: Config, req: Request, plugins: seq<Manifest>): seq<Manifest> {
    if plugins == [] then []
    else
      var last := plugins[|plugins| - 1];
      Enforcing(o, req, plugins[..|plugins| - 1]) + if ShouldEnforce(o, req, last) then [Unlabelled(last)] else []
  }

  lemma {:induction false} EnforcingSnoc(h: Hook, i: nat)
    requires i < |h.plugins|
    ensures Enforcing(h.o, h.req, h.plugins[..i + 1])
         == Enforcing(h.o, h.req, h.plugins[..i])
            + if ShouldEnforce(h.o, h.req, h.plugins[i]) then [Unlabelled(h.plugins[i])] else []
  {
    assert h.plugins[..i + 1][..i] == h.plugins[..i];
  }

  /** The enforced plugin at place `j` of the enforced ones. */
  lemma {:induction false} PlaceOf(h: Hook, n: nat, j: nat) returns (i: nat)
    requires n <= |h.plugins| && j < |Enforcing(h.o, h.req, h.plugins[..n])|
    ensures i < n && ShouldEnforce(h.o, h.req, h.plugins[i])
    ensures |Enforcing(h.o, h.req, h.plugins[..i])| == j
    ensures Enforcing(h.o, h.req, h.plugins[..n])[j] == Unlabelled(h.plugins[i])
    ensures Enforcing(h.o, h.req, h.plugins[..i]) <= Enforcing(h.o, h.req, h.plugins[..n])
  {
    EnforcingSnoc(h, n - 1);
    if j == |Enforcing(h.o, h.req, h.plugins[..n - 1])| {
      i := n - 1;
    } else {
      i := PlaceOf(h, n - 1, j);
    }
  }

  // ---------------------------------------------------------------- the fold without budgets

  /** A sum without the time it took. */
  function Timeless(s: Sum): Sum { s.(consumed := 0, exhausted := false) }

  function BareOutcome(h: Hook, before: Sum, m: Manifest): Outcome {
    if before.ending.Some? then Skip(m, ShortCircuited) else Judged(Alone(h, before.payload, m).0, before.payload, m)
  }

  function BareBreaker(h: Hook, before: Sum, m: Manifest): PB.State {
    if before.ending.Some? then BreakerOf(h.o, h.c.breakers, m.id) else Alone(h, before.payload, m).1
  }

  /** The fold over `es`, as if time were free. */
  function Bare(h: Hook, es: seq<Manifest>): Sum {
    if es == [] then Timeless(SumOf(h, 0))
    else
      var before, m := Bare(h, es[..|es| - 1]), es[|es| - 1];
      Timeless(SumAfter(h.w, before, BareOutcome(h, before, m), m))
  }

  ghost predicate NoBudgetSkips(h: Hook) {
    forall k :: 0 <= k < |h.plugins| ==> !OutcomeAt(h, k).skipped.RequestBudget? && !OutcomeAt(h, k).skipped.HookBudget?
  }

  /** Without an enforced outcome, nothing but time passes. */
  lemma {:induction false} SilentStep(w: World, before: Sum, out: Outcome, m: Manifest)
    requires !out.enforced
    ensures Timeless(SumAfter(w, before, out, m)) == Timeless(before)
  {
    hide Annotated, ApplyPatch, Took;
  }

  lemma {:induction false} ShadowIsNotEnforced(h: Hook, payload: Json, m: Manifest)
    requires !ShouldEnforce(h.o, h.req, m)
    ensures !Judged(Alone(h, payload, m).0, payload, m).enforced
  {
    hide ApplyPatch, ShouldEnforce, PB.Allow, PB.Granted, PB.Success, PB.Failure, ModeFor, Deadline, EffectName;
  }

  /** The label of a plugin matters to its trace only, as long as the plugin stays enforced or stays in shadow. */
  lemma {:induction false} LabelIsInert(h: Hook, payload: Json, m: Manifest, n: Manifest)
    requires Unlabelled(m) == Unlabelled(n) && ShouldEnforce(h.o, h.req, m) == ShouldEnforce(h.o, h.req, n)
    ensures Alone(h, payload, n) == (Alone(h, payload, m).0.(rollout := n.rollout), Alone(h, payload, m).1)
  {
    hide PB.Allow, PB.Granted, PB.Success, PB.Failure, ShouldEnforce;
    SameButLabel(m, n);
    assert Deadline(h.o, h.w, n, h.deadline) == Deadline(h.o, h.w, m, h.deadline);
    assert ModeFor(n, h.req.effect) == ModeFor(m, h.req.effect);
    assert FailClosedVerdict(n, h.req.effect) == FailClosedVerdict(m, h.req.effect);
  }

  lemma {:induction false} UnlabelledEnforces(h: Hook, m: Manifest)
    ensures ShouldEnforce(h.o, h.req, Unlabelled(m)) && Unlabelled(Unlabelled(m)) == Unlabelled(m)
  {
  }

  lemma {:induction false} SameButLabel(m: Manifest, n: Manifest)
    requires Unlabelled(m) == Unlabelled(n)
    ensures m.id == n.id && m.name == n.name && m.budgetMs == n.budgetMs && m.writes == n.writes
            && m.failurePolicy == n.failurePolicy
  {
    assert Unlabelled(m).id == m.id && Unlabelled(m).name == m.name && Unlabelled(m).budgetMs == m.budgetMs;
    assert Unlabelled(m).writes == m.writes && Unlabelled(m).failurePolicy == m.failurePolicy;
  }

  lemma {:induction false} LabelledStep(w: World, before: Sum, time: Sum, out: Outcome, m: Manifest)
    requires Timeless(time) == before
    ensures Timeless(SumAfter(w, time, Judged(out, before.payload, m), m))
         == Timeless(SumAfter(w, before, Judged(out.(rollout := Enforce), before.payload, Unlabelled(m)),
                              Unlabelled(m)))
  {
    hide Annotated, ApplyPatch, Took;
  }

  predicate InBudget(h: Hook, before: Sum, m: Manifest) {
    !OutcomeOf(h, before, m).skipped.RequestBudget? && !OutcomeOf(h, before, m).skipped.HookBudget?
  }

  lemma {:induction false} EnforcedStep(h: Hook, before: Sum, m: Manifest)
    requires InBudget(h, before, m) && ShouldEnforce(h.o, h.req, m)
    ensures Timeless(SumAfter(h.w, before, OutcomeOf(h, before, m), m))
         == Timeless(SumAfter(h.w, Timeless(before), BareOutcome(h, Timeless(before), Unlabelled(m)), Unlabelled(m)))
  {
    hide Alone, Judged, SumAfter, ShouldEnforce;
    OutcomeTells(h, before, m);
    UnlabelledEnforces(h, m);
    LabelIsInert(h, before.payload, m, Unlabelled(m));
    if before.ending.None? {
      LabelledStep(h.w, Timeless(before), before, Alone(h, before.payload, m).0, m);
    } else {
      SilentStep(h.w, before, Skip(m, ShortCircuited), m);
      SilentStep(h.w, Timeless(before), Skip(Unlabelled(m), ShortCircuited), Unlabelled(m));
    }
  }

  lemma {:induction false} ShadowStep(h: Hook, before: Sum, m: Manifest)
    requires !ShouldEnforce(h.o, h.req, m)
    ensures Timeless(SumAfter(h.w, before, OutcomeOf(h, before, m), m)) == Timeless(before)
  {
    hide Alone, Judged, SumAfter, ShouldEnforce;
    ShadowIsNotEnforced(h, before.payload, m);
    SilentStep(h.w, before, OutcomeOf(h, before, m), m);
  }

  lemma {:induction false} BareSnoc(h: Hook, es: seq<Manifest>, m: Manifest)
    ensures Bare(h, es + [m]) == Timeless(SumAfter(h.w, Bare(h, es), BareOutcome(h, Bare(h, es), m), m))
  {
    hide SumAfter, BareOutcome;
    assert (es + [m])[..|es|] == es;
  }

  lemma {:induction false} InBudgetAt(h: Hook, i: nat)
    requires NoBudgetSkips(h) && i < |h.plugins|
    ensures InBudget(h, SumOf(h, i), h.plugins[i])
  {
    hide SumOf, OutcomeOf;
    assert OutcomeAt(h, i) == OutcomeOf(h, SumOf(h, i), h.plugins[i]);
  }

  lemma {:induction false} BareBeginning(h: Hook)
    ensures Timeless(SumOf(h, 0)) == Bare(h, Enforcing(h.o, h.req, h.plugins[..0]))
  {
    assert h.plugins[..0] == [];
  }

  lemma {:induction false} SumSnoc(h: Hook, i: nat)
    requires i < |h.plugins|
    ensures SumOf(h, i + 1) == SumAfter(h.w, SumOf(h, i), OutcomeOf(h, SumOf(h, i), h.plugins[i]), h.plugins[i])
  {
  }

  /** A hook that skipped nobody for want of budget adds up to the fold over its enforced plugins. */
  lemma {:induction false} ShadowFold(h: Hook, n: nat)
    requires n <= |h.plugins| && NoBudgetSkips(h)
    ensures Timeless(SumOf(h, n)) == Bare(h, Enforcing(h.o, h.req, h.plugins[..n]))
  {
    hide SumOf, Bare, Enforcing, OutcomeOf, SumAfter, ShouldEnforce, NoBudgetSkips, InBudget, Timeless, Unlabelled;
    if n == 0 {
      BareBeginning(h);
    } else {
      ShadowFold(h, n - 1);
      SumSnoc(h, n - 1);
      EnforcingSnoc(h, n - 1);
      InBudgetAt(h, n - 1);
      ShadowFoldStep(h, SumOf(h, n - 1), h.plugins[n - 1], Enforcing(h.o, h.req, h.plugins[..n - 1]));
    }
  }

  lemma {:induction false} ShadowFoldStep(h: Hook, before: Sum, m: Manifest, es: seq<Manifest>)
    requires InBudget(h, before, m) && Timeless(before) == Bare(h, es)
    ensures Timeless(SumAfter(h.w, before, OutcomeOf(h, before, m), m))
         == Bare(h, es + if ShouldEnforce(h.o, h.req, m) then [Unlabelled(m)] else [])
  {
    hide Bare, OutcomeOf, BareOutcome, SumAfter, ShouldEnforce, InBudget, Timeless;
    if ShouldEnforce(h.o, h.req, m) {
      BareSnoc(h, es, Unlabelled(m));
      EnforcedStep(h, before, m);
    } else {
      assert es + [] == es;
      ShadowStep(h, before, m);
    }
  }

  /** Every plugin's breaker, shadow or enforced, depends on itself and the enforced plugins before it. */
  lemma {:induction false} AnyBreaker(h: Hook, i: nat)
    requires i < |h.plugins| && NoBudgetSkips(h)
    ensures BreakerAt(h, i) == BareBreaker(h, Bare(h, Enforcing(h.o, h.req, h.plugins[..i])), h.plugins[i])
  {
    hide Alone, Judged, ShouldEnforce;
    ShadowFold(h, i);
    OutcomeTells(h, SumOf(h, i), h.plugins[i]);
    assert !OutcomeAt(h, i).skipped.RequestBudget? && !OutcomeAt(h, i).skipped.HookBudget?;
  }

  // ---------------------------------------------------------------- two hooks

  /** The same breaker but for the time it last opened. */
  predicate Twin(a: PB.State, b: PB.State) { a.(openedAt := 0) == b.(openedAt := 0) }

  /** Plugin `m` finds twin breakers, the same host and, whatever its deadline, the same answers in both hooks. */
  ghost predicate SameParty(h1: Hook, h2: Hook, m: Manifest) {
    && Twin(BreakerOf(h1.o, h1.c.breakers, m.id), BreakerOf(h2.o, h2.c.breakers, m.id))
    && h1.w.hostUp(m.id) == h2.w.hostUp(m.id)
    && SameAnswers(h1, h2, m.id, !ShouldEnforce(h1.o, h1.req, m))
  }

  ghost predicate SameAnswers(h1: Hook, h2: Hook, id: string, shadow: bool) {
    forall payload, d1, d2 :: h1.w.answer(id, payload, shadow, d1) == h2.w.answer(id, payload, shadow, d2)
  }

  /** Whenever each hook gets round to asking, the breakers let the plugin through in both or in neither. */
  predicate GrantsAlike(h1: Hook, h2: Hook, id: string) {
    PB.Granted(BreakerOf(h1.o, h1.c.breakers, id), h1.w.clock(id).asked)
      == PB.Granted(BreakerOf(h2.o, h2.c.breakers, id), h2.w.clock(id).asked)
  }

  ghost predicate SameFor(h1: Hook, h2: Hook, m: Manifest) { SameParty(h1, h2, m) && GrantsAlike(h1, h2, m.id) }

  /** The two hooks share configuration, request and payload; of the clock only the grants of `es` need to agree. */
  ghost predicate SameForAll(h1: Hook, h2: Hook, es: seq<Manifest>) {
    && h1.o == h2.o && h1.req == h2.req && h1.c.payload == h2.c.payload
    && forall j :: 0 <= j < |es| ==> SameFor(h1, h2, es[j])
  }

  /** The very same breaker, settled at the very same reading. */
  predicate SettlesAlike(h1: Hook, h2: Hook, id: string) {
    && BreakerOf(h1.o, h1.c.breakers, id) == BreakerOf(h2.o, h2.c.breakers, id)
    && h1.w.clock(id).settled == h2.w.clock(id).settled
  }

  /** A closed breaker lets everyone through at any reading. */
  lemma {:induction false} ClosedGrantAlike(h1: Hook, h2: Hook, m: Manifest)
    requires SameParty(h1, h2, m) && !BreakerOf(h1.o, h1.c.breakers, m.id).open
    ensures GrantsAlike(h1, h2, m.id)
  {
    hide BreakerOf;
    var a, b := BreakerOf(h1.o, h1.c.breakers, m.id), BreakerOf(h2.o, h2.c.breakers, m.id);
    assert a.(openedAt := 0).open == b.(openedAt := 0).open;
  }

  lemma {:induction false} TwinSteps(a: PB.State, b: PB.State, s: int, t: int, now1: int, now2: int)
    requires Twin(a, b) && PB.Granted(a, s) == PB.Granted(b, t)
    ensures Twin(PB.Allow(a, s), PB.Allow(b, t)) && Twin(PB.Success(PB.Allow(a, s)), PB.Success(PB.Allow(b, t)))
    ensures Twin(PB.Failure(PB.Allow(a, s), now1), PB.Failure(PB.Allow(b, t), now2))
    ensures a == b ==> PB.Allow(a, s) == PB.Allow(b, t)
  {
    assert b == a.(openedAt := b.openedAt) by { assert a.(openedAt := 0).(openedAt := b.openedAt) == b; }
  }

  lemma {:induction false} AloneAgrees(h1: Hook, h2: Hook, payload: Json, m: Manifest)
    requires h1.o == h2.o && h1.req == h2.req && SameFor(h1, h2, m)
    ensures Alone(h1, payload, m).0 == Alone(h2, payload, m).0 && Twin(Alone(h1, payload, m).1, Alone(h2, payload, m).1)
    ensures SettlesAlike(h1, h2, m.id) ==> Alone(h1, payload, m).1 == Alone(h2, payload, m).1
  {
    hide PB.Allow, PB.Granted, PB.Success, PB.Failure, ModeFor, EffectName, Valid, ShouldEnforce;
    var shadow := !ShouldEnforce(h1.o, h1.req, m);
    var t1, t2 := h1.w.clock(m.id), h2.w.clock(m.id);
    assert h1.w.answer(m.id, payload, shadow, Deadline(h1.o, h1.w, m, h1.deadline))
        == h2.w.answer(m.id, payload, shadow, Deadline(h2.o, h2.w, m, h2.deadline));
    TwinSteps(BreakerOf(h1.o, h1.c.breakers, m.id), BreakerOf(h2.o, h2.c.breakers, m.id), t1.asked, t2.asked,
              t1.settled, t2.settled);
  }

  lemma {:induction false} TimelessStep(w1: World, w2: World, before: Sum, out: Outcome, m: Manifest)
    ensures Timeless(SumAfter(w1, before, out, m)) == Timeless(SumAfter(w2, before, out, m))
  {
    hide Annotated, ApplyPatch, Took;
  }

  lemma {:induction false} BareAgrees(h1: Hook, h2: Hook, es: seq<Manifest>)
    requires SameForAll(h1, h2, es)
    ensures Bare(h1, es) == Bare(h2, es)
  {
    hide Alone, Judged, SumAfter;
    if es != [] {
      var front, m := es[..|es| - 1], es[|es| - 1];
      BareAgrees(h1, h2, front);
      AloneAgrees(h1, h2, Bare(h1, front).payload, m);
      TimelessStep(h1.w, h2.w, Bare(h1, front), BareOutcome(h1, Bare(h1, front), m), m);
    }
  }

  /** A plugin listed in both hooks behind the same enforced plugins. */
  ghost predicate Retained(h1: Hook, h2: Hook, i: int, j: int) {
    && 0 <= i < |h1.plugins| && 0 <= j < |h2.plugins| && h1.plugins[i] == h2.plugins[j]
    && Enforcing(h1.o, h1.req, h1.plugins[..i]) == Enforcing(h2.o, h2.req, h2.plugins[..j])
    && SameFor(h1, h2, h1.plugins[i])
  }

  lemma {:induction false} EnforcingPrefix(h: Hook, i: nat, n: nat)
    requires i <= n <= |h.plugins|
    ensures Enforcing(h.o, h.req, h.plugins[..i]) <= Enforcing(h.o, h.req, h.plugins[..n])
  {
    hide Enforcing;
    if i < n {
      EnforcingPrefix(h, i, n - 1);
      EnforcingSnoc(h, n - 1);
    }
  }

  /** It ends with the same breaker in both but for the time it last opened, and with that too if it settles alike. */
  lemma {:induction false} RetainedBreaker(h1: Hook, h2: Hook, i: nat, j: nat)
    requires NoBudgetSkips(h1) && NoBudgetSkips(h2) && Retained(h1, h2, i, j)
    requires SameForAll(h1, h2, Enforcing(h1.o, h1.req, h1.plugins))
    ensures Twin(BreakerAt(h1, i), BreakerAt(h2, j))
    ensures SettlesAlike(h1, h2, h1.plugins[i].id) ==> BreakerAt(h1, i) == BreakerAt(h2, j)
  {
    hide Alone, BreakerAt, SameAnswers, Enforcing, Bare, BreakerOf;
    var es := Enforcing(h1.o, h1.req, h1.plugins[..i]);
    EnforcingPrefix(h1, i, |h1.plugins|);
    assert h1.plugins[..|h1.plugins|] == h1.plugins;
    AnyBreaker(h1, i);
    AnyBreaker(h2, j);
    BareAgrees(h1, h2, es);
    AloneAgrees(h1, h2, Bare(h1, es).payload, h1.plugins[i]);
  }

  /**
   Take any two plugin lists with the same enforced plugins (shadow plugins added, removed or replaced, a canary
   in the sample in place of an enforced plugin), and hosts whose answers depend on payload and shadow flag only.
   If no budget ran out in either run, and each enforced plugin is let through by its breaker in both runs or in
   neither, whenever they ask, both come to the same decision, reason, decider, annotations and deferral and carry the
   same payload. Every plugin that both list behind the same enforced plugins, shadow plugins included, is left with
   the same breaker up to the time it last opened, and a breaker that is no listed plugin's is untouched. The
   result's payload is the same too, except that a hook with no plugins at all returns none.
   */
  lemma {:induction false} ShadowsAreSilent(o: Config, req: Request, w1: World, c1: Carry, plugins1: seq<Manifest>,
                                            start1: int, w2: World, c2: Carry, plugins2: seq<Manifest>, start2: int)
    requires UniqueIds(plugins1) && UniqueIds(plugins2)
    requires Enforcing(o, req, plugins1) == Enforcing(o, req, plugins2)
    requires var h1, h2 := HookAt(o, w1, req, c1, plugins1, start1), HookAt(o, w2, req, c2, plugins2, start2);
             NoBudgetSkips(h1) && NoBudgetSkips(h2) && SameForAll(h1, h2, Enforcing(o, req, plugins1))
    ensures var (after1, r1, _) := Run(o, w1, req, c1, plugins1, start1);
            var (after2, r2, _) := Run(o, w2, req, c2, plugins2, start2);
            var h1, h2 := HookAt(o, w1, req, c1, plugins1, start1), HookAt(o, w2, req, c2, plugins2, start2);
            && r1.(payload := None) == r2.(payload := None) && after1.payload == after2.payload
            && ((plugins1 == [] <==> plugins2 == []) ==> r1 == r2)
            && (forall i, j :: Retained(h1, h2, i, j) ==>
                  var id := plugins1[i].id;
                  && Twin(BreakerOf(o, after1.breakers, id), BreakerOf(o, after2.breakers, id))
                  && (SettlesAlike(h1, h2, id) ==>
                        BreakerOf(o, after1.breakers, id) == BreakerOf(o, after2.breakers, id)))
            && (forall id ::
                  id !in Ids(plugins1) ==> BreakerOf(o, after1.breakers, id) == BreakerOf(o, c1.breakers, id))
            && (forall id ::
                  id !in Ids(plugins2) ==> BreakerOf(o, after2.breakers, id) == BreakerOf(o, c2.breakers, id))
  {
    hide Run, SumOf, BreakerAt, BreakerOf, Bare, Enforcing, Outcomes, OutcomeAt, Annotated, SameFor, Twin, SettlesAlike;
    var h1, h2 := HookAt(o, w1, req, c1, plugins1, start1), HookAt(o, w2, req, c2, plugins2, start2);
    RunIsFold(o, w1, req, c1, plugins1, start1);
    RunIsFold(o, w2, req, c2, plugins2, start2);
    assert plugins1[..|plugins1|] == plugins1 && plugins2[..|plugins2|] == plugins2;
    ShadowFold(h1, |plugins1|);
    ShadowFold(h2, |plugins2|);
    BareAgrees(h1, h2, Enforcing(o, req, plugins1));
    assert Timeless(SumOf(h1, |plugins1|)) == Timeless(SumOf(h2, |plugins2|));
    forall i, j | Retained(h1, h2, i, j)
      ensures Twin(BreakerAt(h1, i), BreakerAt(h2, j))
      ensures SettlesAlike(h1, h2, plugins1[i].id) ==> BreakerAt(h1, i) == BreakerAt(h2, j)
    {
      RetainedBreaker(h1, h2, i, j);
    }
  }

  /** What two hooks leave of plugin `id`'s breaker, given twins to begin with. */
  predicate LeftAlike(h1: Hook, h2: Hook, after1: Carry, after2: Carry, id: string) {
    var a, b := BreakerOf(h1.o, after1.breakers, id), BreakerOf(h2.o, after2.breakers, id);
    && (Twin(BreakerOf(h1.o, h1.c.breakers, id), BreakerOf(h2.o, h2.c.breakers, id)) ==> Twin(a, b))
    && (SettlesAlike(h1, h2, id) ==> a == b)
  }

  function Ids(plugins: seq<Manifest>): set<string> { set k | 0 <= k < |plugins| :: plugins[k].id }

  // ---------------------------------------------------------------- shadow plugins come and go

  lemma {:induction false} EnforcingConcat(o: Config, req: Request, a: seq<Manifest>, b: seq<Manifest>)
    ensures Enforcing(o, req, a + b) == Enforcing(o, req, a) + Enforcing(o, req, b)
    decreases |b|
  {
    hide ShouldEnforce;
    if b == [] {
      assert a + b == a;
    } else {
      assert (a + b)[..|a + b| - 1] == a + b[..|b| - 1];
      EnforcingConcat(o, req, a, b[..|b| - 1]);
    }
  }

  predicate AllShadow(o: Config, req: Request, plugins: seq<Manifest>) {
    forall k :: 0 <= k < |plugins| ==> !ShouldEnforce(o, req, plugins[k])
  }

  lemma {:induction false} ShadowsDoNotEnforce(o: Config, req: Request, plugins: seq<Manifest>)
    requires AllShadow(o, req, plugins)
    ensures Enforcing(o, req, plugins) == []
  {
    hide ShouldEnforce;
    if plugins != [] { ShadowsDoNotEnforce(o, req, plugins[..|plugins| - 1]); }
  }

  /** An enforced plugin and its unlabelled self find the same things. */
  lemma {:induction false} SameUnlabelled(h1: Hook, h2: Hook, plugins: seq<Manifest>)
    requires SameForAll(h1, h2, plugins)
    ensures SameForAll(h1, h2, Enforcing(h1.o, h1.req, plugins))
  {
    hide SameAnswers, BreakerOf;
    if plugins != [] {
      var front, last := plugins[..|plugins| - 1], plugins[|plugins| - 1];
      SameUnlabelled(h1, h2, front);
      assert SameFor(h1, h2, last);
      assert ShouldEnforce(h1.o, h1.req, last) ==> SameFor(h1, h2, Unlabelled(last));
    }
  }

  lemma {:induction false} EnforcingAround(o: Config, req: Request, front: seq<Manifest>, mid: seq<Manifest>,
                                           rest: seq<Manifest>)
    requires AllShadow(o, req, mid)
    ensures Enforcing(o, req, front + mid + rest) == Enforcing(o, req, front + rest)
  {
    hide Enforcing, AllShadow;
    EnforcingConcat(o, req, front + mid, rest);
    EnforcingConcat(o, req, front, mid);
    EnforcingConcat(o, req, front, rest);
    ShadowsDoNotEnforce(o, req, mid);
    assert Enforcing(o, req, front) + [] == Enforcing(o, req, front);
  }

  lemma {:induction false} MidIds(front: seq<Manifest>, mid: seq<Manifest>, rest: seq<Manifest>)
    ensures forall k :: |front| <= k < |front| + |mid| ==> (front + mid + rest)[k].id in Ids(mid)
  {
    forall k | |front| <= k < |front| + |mid| ensures (front + mid + rest)[k].id in Ids(mid) {
      assert (front + mid + rest)[k] == mid[k - |front|];
    }
  }

  /** A plugin that is none of the changed shadow plugins is retained. */
  lemma {:induction false} RetainedAround(h1: Hook, h2: Hook, front: seq<Manifest>, mid1: seq<Manifest>,
                                          mid2: seq<Manifest>, rest: seq<Manifest>, k: nat) returns (j: nat)
    requires h1.plugins == front + mid1 + rest && h2.plugins == front + mid2 + rest && k < |h1.plugins|
    requires AllShadow(h1.o, h1.req, mid1) && AllShadow(h1.o, h1.req, mid2) && SameForAll(h1, h2, front + rest)
    requires h1.plugins[k].id !in Ids(mid1)
    ensures j < |h2.plugins| && h2.plugins[j].id == h1.plugins[k].id && Retained(h1, h2, k, j)
  {
    hide Enforcing, AllShadow, SameFor;
    if k < |front| {
      j := k;
      assert h1.plugins[..k] == front[..k] == h2.plugins[..k];
      assert (front + rest)[k] == h1.plugins[k];
    } else {
      MidIds(front, mid1, rest);
      var m := k - |front| - |mid1|;
      j := |front| + |mid2| + m;
      assert h1.plugins[..k] == front + mid1 + rest[..m] && h2.plugins[..j] == front + mid2 + rest[..m];
      EnforcingAround(h1.o, h1.req, front, mid1, rest[..m]);
      EnforcingAround(h1.o, h1.req, front, mid2, rest[..m]);
      assert (front + rest)[|front| + m] == rest[m] == h1.plugins[k] == h2.plugins[j];
    }
  }

  /** The ids around the changed plugins are listed in both. */
  lemma {:induction false} ListedAround(front: seq<Manifest>, mid1: seq<Manifest>, mid2: seq<Manifest>,
                                        rest: seq<Manifest>, id: string)
    requires id in Ids(front + mid2 + rest) && id !in Ids(mid2)
    ensures id in Ids(front + mid1 + rest)
  {
    var p1, p2 := front + mid1 + rest, front + mid2 + rest;
    var k :| 0 <= k < |p2| && p2[k].id == id;
    if k < |front| {
      assert p1[k] == p2[k];
    } else {
      MidIds(front, mid2, rest);
      assert p1[k - |mid2| + |mid1|] == p2[k];
    }
  }

  /**
   Deleting, adding or arbitrarily replacing shadow plugins anywhere in the list leaves everything else as it was: the
   decision and all that goes with it, the payload, and, up to the time it last opened, the breaker of every other
   plugin, listed or not. What time the changed plugins take does not matter, as long as every other plugin is let
   through by its breaker in both runs or in neither.
   */
  lemma {:induction false} ShadowsComeAndGo(o: Config, req: Request, w1: World, c1: Carry, start1: int, w2: World,
                                            c2: Carry, start2: int, front: seq<Manifest>, mid1: seq<Manifest>,
                                            mid2: seq<Manifest>, rest: seq<Manifest>)
    requires UniqueIds(front + mid1 + rest) && UniqueIds(front + mid2 + rest)
    requires AllShadow(o, req, mid1) && AllShadow(o, req, mid2)
    requires var h1 := HookAt(o, w1, req, c1, front + mid1 + rest, start1);
             var h2 := HookAt(o, w2, req, c2, front + mid2 + rest, start2);
             NoBudgetSkips(h1) && NoBudgetSkips(h2) && SameForAll(h1, h2, front + rest)
    ensures var (after1, r1, _) := Run(o, w1, req, c1, front + mid1 + rest, start1);
            var (after2, r2, _) := Run(o, w2, req, c2, front + mid2 + rest, start2);
            var h1 := HookAt(o, w1, req, c1, front + mid1 + rest, start1);
            var h2 := HookAt(o, w2, req, c2, front + mid2 + rest, start2);
            && r1.(payload := None) == r2.(payload := None) && after1.payload == after2.payload
            && (front + rest != [] ==> r1 == r2)
            && forall id :: id !in Ids(mid1) && id !in Ids(mid2) ==> LeftAlike(h1, h2, after1, after2, id)
  {
    hide Run, Enforcing, NoBudgetSkips, SameFor, AllShadow, Twin, SettlesAlike, BreakerOf;
    var p1, p2 := front + mid1 + rest, front + mid2 + rest;
    var h1, h2 := HookAt(o, w1, req, c1, p1, start1), HookAt(o, w2, req, c2, p2, start2);
    EnforcingAround(o, req, front, mid1, rest);
    EnforcingAround(o, req, front, mid2, rest);
    SameUnlabelled(h1, h2, front + rest);
    ShadowsAreSilent(o, req, w1, c1, p1, start1, w2, c2, p2, start2);
    var after1, after2 := Run(o, w1, req, c1, p1, start1).0, Run(o, w2, req, c2, p2, start2).0;
    forall id | id !in Ids(mid1) && id !in Ids(mid2) ensures LeftAlike(h1, h2, after1, after2, id) {
      if id in Ids(p1) {
        var k :| 0 <= k < |p1| && p1[k].id == id;
        var j := RetainedAround(h1, h2, front, mid1, mid2, rest, k);
      } else {
        if id in Ids(p2) { ListedAround(front, mid1, mid2, rest, id); }
        UntouchedAlike(h1, h2, after1, after2, id);
      }
    }
  }

  lemma {:induction false} UntouchedAlike(h1: Hook, h2: Hook, after1: Carry, after2: Carry, id: string)
    requires BreakerOf(h1.o, after1.breakers, id) == BreakerOf(h1.o, h1.c.breakers, id)
    requires BreakerOf(h2.o, after2.breakers, id) == BreakerOf(h2.o, h2.c.breakers, id)
    ensures LeftAlike(h1, h2, after1, after2, id)
  {
    hide BreakerOf, Twin;
  }

  predicate AllClosed(h: Hook, es: seq<Manifest>) {
    forall j :: 0 <= j < |es| ==> !BreakerOf(h.o, h.c.breakers, es[j].id).open
  }

  /** With closed breakers the clock does not matter at all, beyond the budgets. */
  lemma {:induction false} ClosedBreakersNeedNoClock(o: Config, req: Request, w1: World, c1: Carry, start1: int,
                                                     w2: World, c2: Carry, start2: int, front: seq<Manifest>,
                                                     mid1: seq<Manifest>, mid2: seq<Manifest>, rest: seq<Manifest>)
    requires UniqueIds(front + mid1 + rest) && UniqueIds(front + mid2 + rest)
    requires AllShadow(o, req, mid1) && AllShadow(o, req, mid2) && c1.payload == c2.payload
    requires var h1 := HookAt(o, w1, req, c1, front + mid1 + rest, start1);
             var h2 := HookAt(o, w2, req, c2, front + mid2 + rest, start2);
             && NoBudgetSkips(h1) && NoBudgetSkips(h2) && AllClosed(h1, front + rest)
             && forall j :: 0 <= j < |front + rest| ==> SameParty(h1, h2, (front + rest)[j])
    ensures var (after1, r1, _) := Run(o, w1, req, c1, front + mid1 + rest, start1);
            var (after2, r2, _) := Run(o, w2, req, c2, front + mid2 + rest, start2);
            var h1 := HookAt(o, w1, req, c1, front + mid1 + rest, start1);
            var h2 := HookAt(o, w2, req, c2, front + mid2 + rest, start2);
            && r1.(payload := None) == r2.(payload := None) && after1.payload == after2.payload
            && forall id :: id !in Ids(mid1) && id !in Ids(mid2) ==> LeftAlike(h1, h2, after1, after2, id)
  {
    hide Run, NoBudgetSkips, SameParty, AllShadow, BreakerOf, LeftAlike, GrantsAlike;
    var h1 := HookAt(o, w1, req, c1, front + mid1 + rest, start1);
    var h2 := HookAt(o, w2, req, c2, front + mid2 + rest, start2);
    forall j | 0 <= j < |front + rest| ensures SameFor(h1, h2, (front + rest)[j]) {
      ClosedGrantAlike(h1, h2, (front + rest)[j]);
    }
    ShadowsComeAndGo(o, req, w1, c1, start1, w2, c2, start2, front, mid1, mid2, rest);
  }

  // ---------------------------------------------------------------- what the assumptions are for

  /** After `before`, within both budgets, the enforced plugin `m` answers a request to deny with `v`. */
  predicate WouldDeny(h: Hook, before: Sum, m: Manifest, v: Verdict) {
    && before.ending.None? && before.consumed < h.o.totalBudget && h.w.clock(m.id).checked <= h.deadline
    && ShouldEnforce(h.o, h.req, m) && h.w.hostUp(m.id)
    && h.w.answer(m.id, before.payload, false, Deadline(h.o, h.w, m, h.deadline)) == Said(Some(v))
    && v.decision.Deny? && Valid(v, m)
  }

  /** It denies exactly if its breaker lets it through. */
  lemma {:induction false} DeniesIfGranted(h: Hook, k: nat, v: Verdict)
    requires k < |h.plugins| && WouldDeny(h, SumOf(h, k), h.plugins[k], v) && SumOf(h, k).editor.None?
    ensures var m, after := h.plugins[k], SumOf(h, k + 1);
            if PB.Granted(BreakerOf(h.o, h.c.breakers, m.id), h.w.clock(m.id).asked)
            then after.ending == Some(Ending(v, m.name)) else after.ending.None? && after.editor.None?
  {
    hide Alone, Annotated, Valid, Deadline;
    var d := HasASay(h, SumOf(h, k).payload, h.plugins[k]);
    ValidIsConsistent(v, h.plugins[k]);
    assert SumOf(h, k + 1) == SumAfter(h.w, SumOf(h, k), OutcomeAt(h, k), h.plugins[k]);
  }

  /**
   Grants have to agree: of two runs with one enforced plugin, which would deny if asked, the decisions agree exactly
   if the breaker lets it through in both or in neither.
   */
  lemma {:induction false} GrantsDecide(o: Config, req: Request, w1: World, c1: Carry, start1: int, w2: World,
                                        c2: Carry, start2: int, denier: Manifest, v: Verdict)
    requires var h1, h2 := HookAt(o, w1, req, c1, [denier], start1), HookAt(o, w2, req, c2, [denier], start2);
             WouldDeny(h1, SumOf(h1, 0), denier, v) && WouldDeny(h2, SumOf(h2, 0), denier, v)
    ensures var h1, h2 := HookAt(o, w1, req, c1, [denier], start1), HookAt(o, w2, req, c2, [denier], start2);
            GrantsAlike(h1, h2, denier.id) <==>
              Run(o, w1, req, c1, [denier], start1).1.decision == Run(o, w2, req, c2, [denier], start2).1.decision
  {
    hide Run, BreakerOf, PB.Granted, WouldDeny;
    var h1, h2 := HookAt(o, w1, req, c1, [denier], start1), HookAt(o, w2, req, c2, [denier], start2);
    RunIsFold(o, w1, req, c1, [denier], start1);
    RunIsFold(o, w2, req, c2, [denier], start2);
    DeniesIfGranted(h1, 0, v);
    DeniesIfGranted(h2, 0, v);
    assert v.decision.Deny? by { DeniesWith(h1, SumOf(h1, 0), denier, v); }
  }

  lemma {:induction false} DeniesWith(h: Hook, before: Sum, m: Manifest, v: Verdict)
    requires WouldDeny(h, before, m, v)
    ensures v.decision.Deny?
  {
  }

  /**
   So even with budget to spare a shadow plugin can show: if its time carries an enforced plugin past the end of its
   breaker's cooldown, that plugin denies a request that is allowed without the shadow plugin.
   */
  lemma {:induction false} ShadowOutlastsCooldown(o: Config, req: Request, c: Carry, w1: World, start1: int, w2: World,
                                                  start2: int, slow: Manifest, denier: Manifest, v: Verdict)
    requires !ShouldEnforce(o, req, slow) && slow.id != denier.id
    requires var h1, h2 := HookAt(o, w1, req, c, [slow, denier], start1), HookAt(o, w2, req, c, [denier], start2);
             WouldDeny(h1, SumOf(h1, 1), denier, v) && WouldDeny(h2, SumOf(h2, 0), denier, v)
    requires var b := BreakerOf(o, c.breakers, denier.id);
             && b.open && !b.probeInFlight
             && w2.clock(denier.id).asked - b.openedAt < b.cooldown <= w1.clock(denier.id).asked - b.openedAt
    ensures Run(o, w1, req, c, [slow, denier], start1).1.decision.Deny?
    ensures Run(o, w2, req, c, [denier], start2).1.decision.Allow?
  {
    hide Run, BreakerOf, WouldDeny, ShouldEnforce, Alone, OutcomeOf, SumAfter;
    var h1, h2 := HookAt(o, w1, req, c, [slow, denier], start1), HookAt(o, w2, req, c, [denier], start2);
    RunIsFold(o, w1, req, c, [slow, denier], start1);
    RunIsFold(o, w2, req, c, [denier], start2);
    ShadowStep(h1, SumOf(h1, 0), slow);
    assert Timeless(SumOf(h1, 1)) == Timeless(SumOf(h1, 0));
    assert SumOf(h1, 1).editor == Timeless(SumOf(h1, 1)).editor == None;
    DeniesIfGranted(h1, 1, v);
    DeniesIfGranted(h2, 0, v);
    DeniesWith(h2, SumOf(h2, 0), denier, v);
  }

  /**
   Without the budget assumption the claim is false: a shadow plugin that spends the HookRequest's budget keeps a later
   plugin from denying a request it denies when the shadow plugin is removed.
   */
  lemma {:induction false} SlowShadowStarves(o: Config, w: World, req: Request, c: Carry, slow: Manifest,
                                             denier: Manifest, v: Verdict, start: int)
    requires !ShouldEnforce(o, req, slow) && slow.id != denier.id && w.hostUp(slow.id)
    requires PB.Granted(BreakerOf(o, c.breakers, slow.id), w.clock(slow.id).asked)
    requires PB.Granted(BreakerOf(o, c.breakers, denier.id), w.clock(denier.id).asked)
    requires var h := HookAt(o, w, req, c, [denier], start);
             && WouldDeny(h, SumOf(h, 0), denier, v) && w.clock(slow.id).checked <= h.deadline
             && w.clock(slow.id).ended - w.clock(slow.id).started >= o.totalBudget - c.consumed
    ensures Run(o, w, req, c, [denier], start).1.decision.Deny?
    ensures Run(o, w, req, c, [slow, denier], start).1.decision.Allow?
  {
    hide Run, SumOf, BreakerOf, PB.Granted;
    RunIsFold(o, w, req, c, [denier], start);
    RunIsFold(o, w, req, c, [slow, denier], start);
    var h := HookAt(o, w, req, c, [denier], start);
    assert SumOf(h, 0).editor.None? && SumOf(h, 0).consumed == c.consumed by { SumOfNone(h); }
    DeniesIfGranted(h, 0, v);
    Starved(HookAt(o, w, req, c, [slow, denier], start), slow, denier);
  }

  lemma {:induction false} SumOfNone(h: Hook)
    ensures SumOf(h, 0).editor.None? && SumOf(h, 0).consumed == h.c.consumed
  {
  }

  lemma {:induction false} Starved(h: Hook, slow: Manifest, denier: Manifest)
    requires h.plugins == [slow, denier] && !ShouldEnforce(h.o, h.req, slow) && h.w.hostUp(slow.id)
    requires PB.Granted(BreakerOf(h.o, h.c.breakers, slow.id), h.w.clock(slow.id).asked)
    requires h.c.consumed < h.o.totalBudget && h.w.clock(slow.id).checked <= h.deadline
    requires h.w.clock(slow.id).ended - h.w.clock(slow.id).started >= h.o.totalBudget - h.c.consumed
    ensures SumOf(h, 2).ending.None? && SumOf(h, 2).editor.None?
  {
    hide Annotated, ApplyPatch;
    var one := OutcomeAt(h, 0);
    assert SumOf(h, 0).ending.None?;
    assert one.ran && !one.enforced && one.pluginId == slow.id by { SlowRuns(h, h.c.payload, slow); }
    assert SumOf(h, 1).consumed >= h.o.totalBudget && SumOf(h, 1).ending.None? && SumOf(h, 1).editor.None?;
    assert OutcomeAt(h, 1) == Skip(denier, RequestBudget);
  }

  lemma {:induction false} SlowRuns(h: Hook, payload: Json, m: Manifest)
    requires !ShouldEnforce(h.o, h.req, m) && h.w.hostUp(m.id)
    requires PB.Granted(BreakerOf(h.o, h.c.breakers, m.id), h.w.clock(m.id).asked)
    ensures var out := Judged(Alone(h, payload, m).0, payload, m); out.ran && !out.enforced && out.pluginId == m.id
  {
    hide PB.Allow, PB.Success, PB.Failure, EffectName, ModeFor, Valid, Deadline;
  }

  // ---------------------------------------------------------------- labels

  /** The same plugins but for their rollout labels, and the same of them enforced. */
  predicate Relabelled(o: Config, req: Request, a: seq<Manifest>, b: seq<Manifest>) {
    |a| == |b| && forall i :: 0 <= i < |a| ==>
      Unlabelled(a[i]) == Unlabelled(b[i]) && ShouldEnforce(o, req, a[i]) == ShouldEnforce(o, req, b[i])
  }

  lemma {:induction false} LabelledAfter(w: World, before: Sum, out: Outcome, m: Manifest, n: Manifest)
    requires Unlabelled(m) == Unlabelled(n)
    ensures Judged(out.(rollout := n.rollout), before.payload, n)
            == Judged(out, before.payload, m).(rollout := n.rollout)
    ensures SumAfter(w, before, out.(rollout := n.rollout), n) == SumAfter(w, before, out, m)
  {
    hide Judged, SumAfter;
    JudgedAfter(before.payload, out, m, n);
    SummedAfter(w, before, out, m, n);
  }

  lemma {:induction false} JudgedAfter(payload: Json, out: Outcome, m: Manifest, n: Manifest)
    requires Unlabelled(m) == Unlabelled(n)
    ensures Judged(out.(rollout := n.rollout), payload, n) == Judged(out, payload, m).(rollout := n.rollout)
  {
    hide ApplyPatch, Unlabelled;
    SameButLabel(m, n);
  }

  lemma {:induction false} SummedAfter(w: World, before: Sum, out: Outcome, m: Manifest, n: Manifest)
    requires Unlabelled(m) == Unlabelled(n)
    ensures SumAfter(w, before, out.(rollout := n.rollout), n) == SumAfter(w, before, out, m)
  {
    hide Annotated, ApplyPatch, Unlabelled;
    SameButLabel(m, n);
  }

  lemma {:induction false} RelabelledAt(o: Config, req: Request, a: seq<Manifest>, b: seq<Manifest>, i: nat)
    requires Relabelled(o, req, a, b) && i < |a|
    ensures i < |b| && Unlabelled(a[i]) == Unlabelled(b[i])
            && ShouldEnforce(o, req, a[i]) == ShouldEnforce(o, req, b[i])
  {
  }

  lemma {:induction false} LabelledTurn(h: Hook, g: Hook, before: Sum, m: Manifest, n: Manifest)
    requires Unlabelled(m) == Unlabelled(n) && ShouldEnforce(h.o, h.req, m) == ShouldEnforce(h.o, h.req, n)
    requires g == h.(plugins := g.plugins)
    ensures OutcomeOf(g, before, n) == OutcomeOf(h, before, m).(rollout := n.rollout)
    ensures BreakerLeft(g, before, n) == BreakerLeft(h, before, m)
    ensures SumAfter(g.w, before, OutcomeOf(g, before, n), n) == SumAfter(h.w, before, OutcomeOf(h, before, m), m)
  {
    hide Alone, Judged, SumAfter, ShouldEnforce, Unlabelled;
    SameButLabel(m, n);
    LabelIsInert(h, before.payload, m, n);
    SameSetting(h, g, before.payload, n);
    LabelledAfter(h.w, before, Alone(h, before.payload, m).0, m, n);
    LabelledAfter(h.w, before, OutcomeOf(h, before, m), m, n);
  }

  lemma {:induction false} SameSetting(h: Hook, g: Hook, payload: Json, m: Manifest)
    requires g == h.(plugins := g.plugins)
    ensures Alone(g, payload, m) == Alone(h, payload, m)
  {
  }

  lemma {:induction false} LabelsStep(h: Hook, g: Hook, i: nat)
    requires g == h.(plugins := g.plugins) && Relabelled(h.o, h.req, h.plugins, g.plugins)
    requires i < |h.plugins| == |g.plugins| && SumOf(g, i) == SumOf(h, i)
    ensures SumOf(g, i + 1) == SumOf(h, i + 1)
    ensures OutcomeAt(g, i) == OutcomeAt(h, i).(rollout := g.plugins[i].rollout) && BreakerAt(g, i) == BreakerAt(h, i)
  {
    hide OutcomeOf, BreakerLeft, SumAfter, ShouldEnforce, Unlabelled, Relabelled;
    RelabelledAt(h.o, h.req, h.plugins, g.plugins, i);
    LabelledTurn(h, g, SumOf(h, i), h.plugins[i], g.plugins[i]);
  }

  lemma {:induction false} SameBeginning(h: Hook, g: Hook)
    requires g == h.(plugins := g.plugins)
    ensures SumOf(g, 0) == SumOf(h, 0)
  {
  }

  /** Changing labels changes nothing but the labels in the trace. */
  lemma {:induction false} LabelsFold(h: Hook, g: Hook, n: nat)
    requires g == h.(plugins := g.plugins) && Relabelled(h.o, h.req, h.plugins, g.plugins)
    requires n <= |g.plugins| == |h.plugins|
    ensures SumOf(g, n) == SumOf(h, n)
    ensures forall i :: 0 <= i < n ==>
              OutcomeAt(g, i) == OutcomeAt(h, i).(rollout := g.plugins[i].rollout) && BreakerAt(g, i) == BreakerAt(h, i)
  {
    hide SumOf, OutcomeAt, BreakerAt, Relabelled;
    if n == 0 {
      SameBeginning(h, g);
    } else {
      LabelsFold(h, g, n - 1);
      LabelsStep(h, g, n - 1);
    }
  }

  /**
   Only who is enforced matters, not why: runs with relabelled plugins agree in everything but the labels they record.
   */
  lemma {:induction false} LabelsAreInert(o: Config, w: World, req: Request, c: Carry, plugins: seq<Manifest>,
                                          start: int, other: seq<Manifest>)
    requires UniqueIds(plugins) && Relabelled(o, req, plugins, other)
    ensures var (after1, r1, tr1) := Run(o, w, req, c, plugins, start);
            var (after2, r2, tr2) := Run(o, w, req, c, other, start);
            && r1 == r2 && after1.payload == after2.payload && after1.consumed == after2.consumed
            && (forall id :: BreakerOf(o, after1.breakers, id) == BreakerOf(o, after2.breakers, id))
            && tr1.exhausted == tr2.exhausted && |tr1.outcomes| == |tr2.outcomes| == |plugins|
            && forall i :: 0 <= i < |plugins| ==> tr2.outcomes[i] == tr1.outcomes[i].(rollout := other[i].rollout)
  {
    hide Run, OutcomeAt, BreakerAt, BreakerOf, SumOf, ShouldEnforce, Unlabelled;
    var h := HookAt(o, w, req, c, plugins, start);
    var g := HookAt(o, w, req, c, other, start);
    forall i | 0 <= i < |plugins| ensures other[i].id == plugins[i].id { SameButLabel(plugins[i], other[i]); }
    RunIsFold(o, w, req, c, plugins, start);
    RunIsFold(o, w, req, c, other, start);
    LabelsFold(h, g, |plugins|);
    SameIds(plugins, other);
    forall id
      ensures BreakerOf(o, Run(o, w, req, c, plugins, start).0.breakers, id)
              == BreakerOf(o, Run(o, w, req, c, other, start).0.breakers, id)
    {
      if id in Ids(plugins) {
        var k :| 0 <= k < |plugins| && plugins[k].id == id;
        assert other[k].id == id;
      }
    }
  }

  lemma {:induction false} SameIds(a: seq<Manifest>, b: seq<Manifest>)
    requires |a| == |b| && forall i :: 0 <= i < |a| ==> a[i].id == b[i].id
    ensures Ids(a) == Ids(b)
  {
    forall id ensures id in Ids(a) <==> id in Ids(b) {
      if id in Ids(a) { var k :| 0 <= k < |a| && a[k].id == id; assert b[k].id == id; }
      if id in Ids(b) { var k :| 0 <= k < |b| && b[k].id == id; assert a[k].id == id; }
    }
  }

  /**
   Under the default sampler a canary at 100 or more runs exactly as the same plugin enforced, and one at 0 or less
   exactly as the same plugin in shadow, whatever the request.
   */
  lemma {:induction false} CanaryAtTheEnds(o: Config, hash: string -> bv32, w: World, req: Request, c: Carry,
                                           front: seq<Manifest>, m: Manifest, back: seq<Manifest>, start: int)
    requires o.sample == ((id, percent) => HashSample(hash, id, percent)) && UniqueIds(front + [m] + back)
    requires m.rollout.Canary? && (m.canaryPercent >= 100 || m.canaryPercent <= 0)
    ensures var plain := m.(rollout := if m.canaryPercent <= 0 then Shadow else Enforce, canaryPercent := 0);
            var (after1, r1, tr1) := Run(o, w, req, c, front + [m] + back, start);
            var (after2, r2, tr2) := Run(o, w, req, c, front + [plain] + back, start);
            && r1 == r2 && after1.payload == after2.payload && after1.consumed == after2.consumed
            && forall id :: BreakerOf(o, after1.breakers, id) == BreakerOf(o, after2.breakers, id)
  {
    hide Run, BreakerOf;
    var plain := m.(rollout := if m.canaryPercent <= 0 then Shadow else Enforce, canaryPercent := 0);
    var a, b := front + [m] + back, front + [plain] + back;
    assert forall i :: 0 <= i < |a| ==> b[i] == if i == |front| then plain else a[i];
    assert a[|front|] == m;
    LabelsAreInert(o, w, req, c, a, start, b);
  }
}
