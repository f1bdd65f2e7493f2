/**
 The time budgets. Over any sequence of hooks run on one HookRequest the plugins together consume no more than the total
 budget, give or take the overrun of a single plugin. The gateway makes a new HookRequest for every hook, so a client
 request is bounded by one hook budget per hook, and by the total budget only where those fit into it.
 */
module EngineBudget {
  import opened Options
  import opened Json
  import opened Verdicts
  import opened Engine
  import opened EngineTrace
  import opened JsonPatch
  import opened EngineShadow
  import PB = PluginBreakers

  /** The engine's readings of a monotone clock: within each plugin, and from each plugin to those behind it. */
  ghost predicate Ticks(w: World, plugins: seq<Manifest>, start: int) {
    && (forall i :: 0 <= i < |plugins| ==> InOrder(w.clock(plugins[i].id)) && start <= w.clock(plugins[i].id).checked)
    && (forall i, j :: 0 <= i < j < |plugins| ==> w.clock(plugins[i].id).settled <= w.clock(plugins[j].id).checked)
  }

  predicate InOrder(t: Readings) { t.checked <= t.asked <= t.armed <= t.started <= t.ended <= t.settled }

  /** No host returns later than `slack` after its deadline; one asked after its deadline returns within `slack`. */
  ghost predicate Punctual(h: Hook, slack: nat) {
    forall i :: 0 <= i < |h.plugins| ==> Overrun(h, h.plugins[i]) <= slack
  }

  function Max(a: int, b: int): int { if a < b then b else a }

  function Overrun(h: Hook, m: Manifest): int {
    h.w.clock(m.id).ended - Max(h.w.clock(m.id).started, Deadline(h.o, h.w, m, h.deadline))
  }

  lemma {:induction false} Charges(w: World, before: Sum, out: Outcome, m: Manifest)
    ensures SumAfter(w, before, out, m).consumed == before.consumed + Took(w, out)
  {
    hide Took, Annotated, Acted;
  }

  /** One plugin's charge keeps the bounds. */
  lemma {:induction false} ChargeWithin(h: Hook, start: int, slack: nat, before: Sum, m: Manifest, since: int)
    requires h.deadline == start + BudgetOfHook(h.o, h.c.consumed)
    requires InOrder(h.w.clock(m.id)) && Overrun(h, m) <= slack && start <= since <= h.w.clock(m.id).checked
    requires h.c.consumed <= before.consumed <= Max(h.c.consumed, h.o.totalBudget + slack)
    requires before.consumed - h.c.consumed <= since - start
    ensures var after := before.consumed + Took(h.w, OutcomeOf(h, before, m));
            && h.c.consumed <= after <= Max(h.c.consumed, h.o.totalBudget + slack)
            && after - h.c.consumed <= h.w.clock(m.id).settled - start
  {
    hide OutcomeOf, PluginBudget;
    OutcomeTells(h, before, m);
  }

  /** After `n` plugins: no more consumed than time has passed, and never past the budget by more than `slack`. */
  lemma {:induction false} ConsumedWithin(h: Hook, start: int, slack: nat, n: nat)
    requires n <= |h.plugins| && Ticks(h.w, h.plugins, start) && Punctual(h, slack)
    requires h.deadline == start + BudgetOfHook(h.o, h.c.consumed)
    ensures h.c.consumed <= SumOf(h, n).consumed <= Max(h.c.consumed, h.o.totalBudget + slack)
    ensures SumOf(h, n).consumed - h.c.consumed <= if n == 0 then 0 else h.w.clock(h.plugins[n - 1].id).settled - start
  {
    hide OutcomeOf, SumAfter, Overrun, Took, BudgetOfHook;
    if n > 0 {
      ConsumedWithin(h, start, slack, n - 1);
      var m, before := h.plugins[n - 1], SumOf(h, n - 1);
      ChargeWithin(h, start, slack, before, m, if n == 1 then start else h.w.clock(h.plugins[n - 2].id).settled);
      Charges(h.w, before, OutcomeOf(h, before, m), m);
    }
  }

  /** Hooks run on one HookRequest, in order, each with its own plugins and world. */
  datatype Call = Call(w: World, plugins: seq<Manifest>, start: int)

  function Runs(o: Config, req: Request, c: Carry, calls: seq<Call>): Carry
    decreases |calls|
  {
    if calls == [] then c
    else Runs(o, req, Run(o, calls[0].w, req, c, calls[0].plugins, calls[0].start).0, calls[1..])
  }

  /** Every hook run on the HookRequest meets the clock and `slack` assumptions. */
  ghost predicate AllPunctual(o: Config, req: Request, c: Carry, calls: seq<Call>, slack: nat)
    decreases |calls|
  {
    calls == [] ||
    (var k := calls[0];
     && UniqueIds(k.plugins) && Ticks(k.w, k.plugins, k.start)
     && Punctual(HookAt(o, k.w, req, c, k.plugins, k.start), slack)
     && AllPunctual(o, req, Run(o, k.w, req, c, k.plugins, k.start).0, calls[1..], slack))
  }

  /**
   A HookRequest that starts within its budget never consumes more than the budget and one overrun; with hosts that
   return by their deadlines, never more than the budget.
   */
  lemma {:induction false} BudgetHolds(o: Config, req: Request, c: Carry, calls: seq<Call>, slack: nat)
    requires AllPunctual(o, req, c, calls, slack) && c.consumed <= o.totalBudget + slack
    ensures c.consumed <= Runs(o, req, c, calls).consumed <= o.totalBudget + slack
    decreases |calls|
  {
    hide Run, SumOf, Answer, Outcomes, Elsewhere, BreakerAt;
    if calls != [] {
      var k := calls[0];
      var h := HookAt(o, k.w, req, c, k.plugins, k.start);
      RunIsFold(o, k.w, req, c, k.plugins, k.start);
      ConsumedWithin(h, k.start, slack, |k.plugins|);
      BudgetHolds(o, req, Run(o, k.w, req, c, k.plugins, k.start).0, calls[1..], slack);
    }
  }

  /** Once the budget is spent, no plugin of any later hook runs and nothing more is charged. */
  lemma {:induction false} SpentIsSpent(o: Config, w: World, req: Request, c: Carry, plugins: seq<Manifest>, start: int)
    requires UniqueIds(plugins) && c.consumed >= o.totalBudget
    ensures var (after, result, tr) := Run(o, w, req, c, plugins, start);
            && after.consumed == c.consumed && after.payload == c.payload && result.decision.Allow?
            && |tr.outcomes| == |plugins|
            && (forall i :: 0 <= i < |plugins| ==> tr.outcomes[i] == Skip(plugins[i], RequestBudget))
  {
    hide Run, OutcomeOf;
    RunIsFold(o, w, req, c, plugins, start);
    SpentFold(HookAt(o, w, req, c, plugins, start), |plugins|);
  }

  lemma {:induction false} SpentFold(h: Hook, n: nat)
    requires n <= |h.plugins| && h.c.consumed >= h.o.totalBudget
    ensures SumOf(h, n) == SumOf(h, 0)
    ensures forall i :: 0 <= i < n ==> OutcomeAt(h, i) == Skip(h.plugins[i], RequestBudget)
  {
    hide Alone, Annotated;
    if n > 0 { SpentFold(h, n - 1); }
  }

  // ---------------------------------------------------------------- hooks that skip nobody

  /** No more is consumed than time has passed, whatever the hosts do. */
  lemma {:induction false} ElapsedBound(h: Hook, start: int, n: nat)
    requires n <= |h.plugins| && Ticks(h.w, h.plugins, start)
    ensures SumOf(h, n).consumed - h.c.consumed <= if n == 0 then 0 else h.w.clock(h.plugins[n - 1].id).settled - start
  {
    hide OutcomeOf, SumAfter;
    if n > 0 {
      ElapsedBound(h, start, n - 1);
      var m, before := h.plugins[n - 1], SumOf(h, n - 1);
      OutcomeTells(h, before, m);
      Charges(h.w, before, OutcomeOf(h, before, m), m);
    }
  }

  /**
   If every plugin's turn comes before the hook's deadline, nobody is skipped for want of budget: the deadline already
   allows for what the request had left.
   */
  lemma {:induction false} InTimeSkipsNobody(h: Hook, start: int)
    requires Ticks(h.w, h.plugins, start) && h.deadline == start + BudgetOfHook(h.o, h.c.consumed)
    requires forall i :: 0 <= i < |h.plugins| ==> h.w.clock(h.plugins[i].id).checked < h.deadline
    ensures NoBudgetSkips(h)
  {
    hide OutcomeOf, SumOf;
    forall k | 0 <= k < |h.plugins|
      ensures !OutcomeAt(h, k).skipped.RequestBudget? && !OutcomeAt(h, k).skipped.HookBudget?
    {
      ElapsedBound(h, start, k);
      OutcomeTells(h, SumOf(h, k), h.plugins[k]);
    }
  }

  // ---------------------------------------------------------------- a client request

  /** One hook, whatever it has left: it consumes at most its own budget and one overrun. */
  lemma {:induction false} HookWithin(h: Hook, start: int, slack: nat, n: nat)
    requires n <= |h.plugins| && Ticks(h.w, h.plugins, start) && Punctual(h, slack)
    requires h.deadline == start + BudgetOfHook(h.o, h.c.consumed) && BudgetOfHook(h.o, h.c.consumed) >= 0
    ensures SumOf(h, n).consumed - h.c.consumed <= BudgetOfHook(h.o, h.c.consumed) + slack
  {
    hide OutcomeOf, SumAfter, PluginBudget, BudgetOfHook;
    if n > 0 {
      HookWithin(h, start, slack, n - 1);
      var m, before := h.plugins[n - 1], SumOf(h, n - 1);
      ElapsedBound(h, start, n - 1);
      OutcomeTells(h, before, m);
      Charges(h.w, before, OutcomeOf(h, before, m), m);
    }
  }

  /**
   A hook of a client request as the gateway runs it: on a HookRequest of its own, so nothing is consumed yet; the
   breakers are as it finds them.
   */
  datatype FreshHook = FreshHook(
    w: World,
    req: Request,
    breakers: map<string, PB.State>,
    payload: Json,
    plugins: seq<Manifest>,
    start: int)

  function CarryFor(k: FreshHook): Carry { Carry(k.breakers, k.payload, 0) }

  function SpentBy(o: Config, k: FreshHook): int { Run(o, k.w, k.req, CarryFor(k), k.plugins, k.start).0.consumed }

  /** What the plugins of a client request consume, over all its hooks. */
  function Spent(o: Config, hooks: seq<FreshHook>): int {
    if hooks == [] then 0 else Spent(o, hooks[..|hooks| - 1]) + SpentBy(o, hooks[|hooks| - 1])
  }

  ghost predicate OnTime(o: Config, k: FreshHook, slack: nat) {
    && UniqueIds(k.plugins) && Ticks(k.w, k.plugins, k.start)
    && Punctual(HookAt(o, k.w, k.req, CarryFor(k), k.plugins, k.start), slack)
  }

  ghost predicate AllOnTime(o: Config, hooks: seq<FreshHook>, slack: nat) {
    forall i :: 0 <= i < |hooks| ==> OnTime(o, hooks[i], slack)
  }

  /** Each hook starts when the one before it is through. */
  ghost predicate OneAfterAnother(hooks: seq<FreshHook>) {
    forall i, j, k :: 0 <= i < j < |hooks| && 0 <= k < |hooks[i].plugins| ==>
      hooks[i].w.clock(hooks[i].plugins[k].id).settled <= hooks[j].start
  }

  /** What one hook may use: its own budget, or the total if that is less. */
  function Share(o: Config): int { Min(o.totalBudget, o.hookBudget) }

  lemma {:induction false} SpentWithin(o: Config, k: FreshHook, slack: nat)
    requires OnTime(o, k, slack) && Share(o) >= 0
    ensures 0 <= SpentBy(o, k) <= Share(o) + slack
  {
    hide Run, SumOf, Answer, Outcomes, Elsewhere, BreakerAt;
    var h := HookAt(o, k.w, k.req, CarryFor(k), k.plugins, k.start);
    RunIsFold(o, k.w, k.req, CarryFor(k), k.plugins, k.start);
    ConsumedWithin(h, k.start, slack, |k.plugins|);
    HookWithin(h, k.start, slack, |k.plugins|);
  }

  /** A client request of `k` hooks consumes at most `k` hook budgets, each with one overrun. */
  lemma {:induction false} ClientRequestWithin(o: Config, hooks: seq<FreshHook>, slack: nat)
    requires AllOnTime(o, hooks, slack) && Share(o) >= 0
    ensures 0 <= Spent(o, hooks) <= |hooks| * (Share(o) + slack)
  {
    hide OnTime, SpentBy, Share;
    if hooks != [] {
      var front := hooks[..|hooks| - 1];
      assert forall i :: 0 <= i < |front| ==> front[i] == hooks[i];
      ClientRequestWithin(o, front, slack);
      assert OnTime(o, hooks[|hooks| - 1], slack);
      SpentWithin(o, hooks[|hooks| - 1], slack);
      OneMore(|front|, Share(o) + slack);
    }
  }

  lemma {:induction false} OneMore(k: nat, x: int)
    ensures (k + 1) * x == k * x + x
  {
  }

  /** One plugin with a generous budget whose host answers at the hook's deadline. */
  function FullHook(o: Config, start: int): FreshHook {
    var t := Readings(start, start, start, start, start + Share(o), start + Share(o));
    var w := World((id: string) => true, (id: string, p: Json, s: bool, d: int) => Said(None), (id: string) => t);
    FreshHook(w, Request("", Read), map[], Null, [Manifest("p", "p", Enforce, 0, Share(o), [], map[])], start)
  }

  function FullHooks(o: Config, k: nat): seq<FreshHook> { seq(k, i => FullHook(o, i * Share(o))) }

  lemma {:induction false} FullHookSpends(o: Config, start: int)
    requires Share(o) > 0
    ensures OnTime(o, FullHook(o, start), 0) && SpentBy(o, FullHook(o, start)) == Share(o)
  {
    hide Run, ApplyPatch, Valid;
    var k := FullHook(o, start);
    var h, m := HookAt(o, k.w, k.req, CarryFor(k), k.plugins, start), k.plugins[0];
    RunIsFold(o, k.w, k.req, CarryFor(k), k.plugins, start);
    assert SumOf(h, 1) == SumAfter(h.w, SumOf(h, 0), OutcomeAt(h, 0), m);
    FullTurn(h, m);
    Charges(h.w, SumOf(h, 0), OutcomeAt(h, 0), m);
  }

  lemma {:induction false} FullTurn(h: Hook, m: Manifest)
    requires m.id !in h.c.breakers && h.w.hostUp(m.id)
    ensures Judged(Alone(h, h.c.payload, m).0, h.c.payload, m).ran
    ensures Judged(Alone(h, h.c.payload, m).0, h.c.payload, m).pluginId == m.id
  {
    hide ApplyPatch, Valid, ShouldEnforce, ModeFor, EffectName, Deadline;
  }

  lemma {:induction false} FullHooksSpend(o: Config, k: nat)
    requires Share(o) > 0
    ensures |FullHooks(o, k)| == k && AllOnTime(o, FullHooks(o, k), 0) && OneAfterAnother(FullHooks(o, k))
    ensures Spent(o, FullHooks(o, k)) == k * Share(o)
  {
    hide OnTime, SpentBy, Share;
    var hooks := FullHooks(o, k);
    forall i | 0 <= i < k ensures OnTime(o, hooks[i], 0) { FullHookSpends(o, i * Share(o)); }
    forall i, j | 0 <= i < j < k ensures hooks[i].start + Share(o) <= hooks[j].start {
      OneMore(i, Share(o));
      InTurn(i + 1, j, Share(o));
    }
    if k > 0 {
      FullHooksSpend(o, k - 1);
      assert hooks[..k - 1] == FullHooks(o, k - 1);
      FullHookSpends(o, (k - 1) * Share(o));
      OneMore(k - 1, Share(o));
    }
  }

  lemma {:induction false} InTurn(i: nat, j: nat, x: int)
    requires i <= j && x >= 0
    ensures i * x <= j * x
  {
  }

  /**
   What the total budget is worth to a client request of `k` hooks: with hosts that return by their deadlines it always
   holds exactly when `k` hook budgets fit into it.
   */
  lemma {:induction false} TotalHoldsIffHooksFit(o: Config, k: nat)
    requires o.totalBudget > 0 && o.hookBudget > 0
    ensures k * Share(o) <= o.totalBudget <==>
              forall hooks :: |hooks| == k && AllOnTime(o, hooks, 0) && OneAfterAnother(hooks) ==>
                Spent(o, hooks) <= o.totalBudget
  {
    hide AllOnTime, Spent, OneAfterAnother;
    FullHooksSpend(o, k);
    forall hooks | |hooks| == k && AllOnTime(o, hooks, 0) ensures Spent(o, hooks) <= k * Share(o) {
      ClientRequestWithin(o, hooks, 0);
    }
  }

  /** A tools/call runs two hooks; a hook budget above half the total, as configuration allows, breaks the total. */
  lemma {:induction false} TwoHooksOverspend(o: Config) returns (hooks: seq<FreshHook>)
    requires 0 < o.hookBudget <= o.totalBudget < 2 * o.hookBudget
    ensures |hooks| == 2 && AllOnTime(o, hooks, 0) && OneAfterAnother(hooks)
    ensures |hooks[0].plugins| == |hooks[1].plugins| == 1 && Spent(o, hooks) > o.totalBudget
  {
    hooks := FullHooks(o, 2);
    FullHooksSpend(o, 2);
  }
}
