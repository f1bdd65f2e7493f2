/**
 The hook engine of internal/dataplane/pipeline/engine.go as a function of everything it reads: the plugins,
 the request, the breakers, the hosts' answers and the clock. EngineRun holds the code's own form and proves
 it against this one.
 */
module Engine {
  import opened Options
  import opened Json
  import opened JsonPatch
  import opened Verdicts
  import PB = PluginBreakers

  const MILLISECOND := 1_000_000

  // ---------------------------------------------------------------- configuration

  /** Budgets and cooldown in nanoseconds; `sample` decides canary membership. */
  datatype Config = Config(
    totalBudget: int,
    hookBudget: int,
    pluginBudget: int,
    threshold: int,
    cooldown: int,
    sample: (string, int) -> bool)

  /** The defaults New fills in. */
  function WithDefaults(o: Config): Config {
    o.(totalBudget := if o.totalBudget <= 0 then 250 * MILLISECOND else o.totalBudget,
       hookBudget := if o.hookBudget <= 0 then 50 * MILLISECOND else o.hookBudget,
       pluginBudget := if o.pluginBudget <= 0 then 25 * MILLISECOND else o.pluginBudget,
       threshold := if o.threshold < 1 then 5 else o.threshold,
       cooldown := if o.cooldown <= 0 then 30_000 * MILLISECOND else o.cooldown)
  }

  /** The default sampler over a 32-bit hash of the request id. */
  function HashSample(hash: string -> bv32, requestId: string, percent: int): bool {
    if percent <= 0 then false
    else if percent >= 100 then true
    else (hash(requestId) as int) % 100 < percent
  }

  datatype Request = Request(id: string, effect: EffectClass)

  // ---------------------------------------------------------------- what the engine does not decide

  datatype Reply = Failed(error: string) | Said(verdict: Option<Verdict>)

  /** The clock readings taken around one plugin, in the order the engine takes them. */
  datatype Readings = Readings(checked: int, asked: int, armed: int, started: int, ended: int, settled: int)

  /** `answer` takes plugin id, payload, shadow flag and deadline. */
  datatype World = World(
    hostUp: string -> bool,
    answer: (string, Json, bool, int) -> Reply,
    clock: string -> Readings)

  // ---------------------------------------------------------------- what the engine records

  datatype SkipReason = NotSkipped | CircuitOpen | RequestBudget | HookBudget | HostUnavailable | ShortCircuited

  datatype Problem =
    | NoProblem
    | HostError
    | InvokeError(text: string)
    | InvalidVerdict
    | PatchRefused(error: PatchError)

  datatype Outcome = Outcome(
    pluginId: string,
    pluginName: string,
    rollout: Rollout,
    ran: bool,
    skipped: SkipReason,
    verdict: Option<Verdict>,
    enforced: bool,
    diverged: bool,
    problem: Problem,
    failureMode: Option<FailureMode>)

  datatype HookTrace = HookTrace(outcomes: seq<Outcome>, exhausted: bool)

  datatype HookResult = HookResult(
    decision: Decision,
    reason: string,
    decidedBy: string,
    payload: Option<Json>,
    annotations: map<string, Json>,
    inputRequests: string,
    pluginState: string)

  const UNDECIDED := HookResult(Allow, "", "", None, map[], "", "")

  function Blank(m: Manifest): Outcome {
    Outcome(m.id, m.name, m.rollout, false, NotSkipped, None, false, false, NoProblem, None)
  }

  function Skip(m: Manifest, why: SkipReason): Outcome { Blank(m).(skipped := why) }

  // ---------------------------------------------------------------- policy lookups

  function ShouldEnforce(o: Config, req: Request, m: Manifest): bool {
    match m.rollout
    case Enforce => true
    case Canary => o.sample(req.id, m.canaryPercent)
    case _ => false
  }

  function ModeFor(m: Manifest, effect: EffectClass): FailureMode {
    if effect in m.failurePolicy && m.failurePolicy[effect] != FailUnspecified then m.failurePolicy[effect]
    else FailOpen
  }

  function PluginBudget(o: Config, m: Manifest): int {
    if m.budgetMs > 0 then m.budgetMs * MILLISECOND else o.pluginBudget
  }

  function Min(a: int, b: int): int { if a < b then a else b }

  /** Never more than the request has left. */
  function BudgetOfHook(o: Config, consumed: int): int { Min(o.totalBudget - consumed, o.hookBudget) }

  function EffectName(e: EffectClass): string {
    match e case Read => "read" case Write => "write" case Destructive => "destructive"
  }

  function FailClosedVerdict(m: Manifest, effect: EffectClass): Verdict {
    ALLOW.(decision := Deny,
           reason := m.name + " could not evaluate this request and is configured to fail closed for "
             + EffectName(effect) + " tools")
  }

  // ---------------------------------------------------------------- one plugin

  /** What a run changes outside its result: breakers by plugin id, the payload, and the time consumed. */
  datatype Carry = Carry(breakers: map<string, PB.State>, payload: Json, consumed: int)

  function BreakerOf(o: Config, breakers: map<string, PB.State>, id: string): PB.State {
    if id in breakers then breakers[id] else PB.New(o.threshold, o.cooldown)
  }

  function Deadline(o: Config, w: World, m: Manifest, hookDeadline: int): int {
    Min(w.clock(m.id).armed + PluginBudget(o, m), hookDeadline)
  }

  /**
   One plugin with breaker `b` and this payload: its outcome, and the breaker afterwards. The slot a half-open
   breaker grants stays taken when the host cannot be found.
   */
  function Try(o: Config, w: World, req: Request, b: PB.State, payload: Json, m: Manifest,
               hookDeadline: int): (Outcome, PB.State) {
    var t := w.clock(m.id);
    var asked := PB.Allow(b, t.asked);
    if !PB.Granted(b, t.asked) then (Skip(m, CircuitOpen), asked)
    else if !w.hostUp(m.id) then
      (Skip(m, HostUnavailable).(problem := HostError, failureMode := Some(ModeFor(m, req.effect))), asked)
    else
      var enforce := ShouldEnforce(o, req, m);
      var ran := Blank(m).(ran := true);
      match w.answer(m.id, payload, !enforce, Deadline(o, w, m, hookDeadline))
      case Failed(text) =>
        var failed := ran.(problem := InvokeError(text), failureMode := Some(ModeFor(m, req.effect)));
        (if ModeFor(m, req.effect).FailClosed? && enforce
         then failed.(enforced := true, verdict := Some(FailClosedVerdict(m, req.effect))) else failed,
         PB.Failure(asked, t.settled).(justOpened := false))
      case Said(v) =>
        var verdict := if v.None? then ALLOW else v.value;
        if !Valid(verdict, m) then
          (ran.(problem := InvalidVerdict, failureMode := Some(ModeFor(m, req.effect))), PB.Failure(asked, t.settled))
        else
          (ran.(verdict := Some(verdict), enforced := enforce,
                diverged := !enforce && !verdict.decision.Allow? && !verdict.decision.Annotate?),
           PB.Success(asked))
  }

  /** The time a plugin that ran is charged for. */
  function Took(w: World, out: Outcome): int {
    if out.ran then w.clock(out.pluginId).ended - w.clock(out.pluginId).started else 0
  }

  function RunPlugin(o: Config, w: World, req: Request, c: Carry, m: Manifest, hookDeadline: int): (Outcome, Carry) {
    var (out, b) := Try(o, w, req, BreakerOf(o, c.breakers, m.id), c.payload, m, hookDeadline);
    (out, Carry(c.breakers[m.id := b], c.payload, c.consumed + Took(w, out)))
  }

  // ---------------------------------------------------------------- the loop over plugins

  datatype Loop = Loop(carry: Carry, result: HookResult, outcomes: seq<Outcome>, exhausted: bool, done: bool)

  /** The plugins an early decision pre-empts: those after the first with the deciding id, except that id. */
  function Preempted(plugins: seq<Manifest>, decidedAt: string, seen: bool): seq<Outcome> {
    if plugins == [] then []
    else if plugins[0].id == decidedAt then Preempted(plugins[1..], decidedAt, true)
    else (if seen then [Skip(plugins[0], ShortCircuited)] else []) + Preempted(plugins[1..], decidedAt, seen)
  }

  function Namespaced(name: string, key: string): (full: string)
    ensures KeyIn(name, full) == key
  {
    name + "." + key
  }

  /** The key behind a plugin's name and a dot. */
  function KeyIn(name: string, full: string): string {
    if |full| > |name| then full[|name| + 1..] else full
  }

  function Namespace(name: string, keys: set<string>): set<string> { set key | key in keys :: Namespaced(name, key) }

  function Annotated(into: map<string, Json>, name: string, extra: map<string, Json>): map<string, Json> {
    into + map full | full in Namespace(name, extra.Keys) :: extra[KeyIn(name, full)]
  }

  /** What an outcome does to the hook's result and payload. */
  function Act(l: Loop, all: seq<Manifest>, m: Manifest, out: Outcome): Loop {
    var noted := l.(outcomes := l.outcomes + [out]);
    if !out.enforced || out.verdict.None? then noted
    else
      var v := out.verdict.value;
      match v.decision
      case Deny =>
        noted.(result := l.result.(decision := Deny, reason := v.reason, decidedBy := m.name),
               outcomes := noted.outcomes + Preempted(all, m.id, false), done := true)
      case Defer =>
        noted.(result := l.result.(decision := Defer, reason := v.reason, decidedBy := m.name,
                                   inputRequests := v.inputRequests, pluginState := v.pluginState),
               outcomes := noted.outcomes + Preempted(all, m.id, false), done := true)
      case Mutate =>
        (match ApplyPatch(l.carry.payload, v.patch, m.writes)
         case Err(e) => noted.(outcomes := l.outcomes + [out.(problem := PatchRefused(e), enforced := false)])
         case Ok(doc) =>
           noted.(carry := l.carry.(payload := doc),
                  result := l.result.(payload := Some(doc), decision := Mutate, decidedBy := m.name)))
      case Annotate =>
        noted.(result := l.result.(annotations := Annotated(l.result.annotations, m.name, v.annotations)))
      case _ => noted
  }

  /** The two budget checks, the request's first. */
  function BudgetSkip(o: Config, w: World, consumed: int, m: Manifest, hookDeadline: int): SkipReason {
    if o.totalBudget - consumed <= 0 then RequestBudget
    else if w.clock(m.id).checked > hookDeadline then HookBudget
    else NotSkipped
  }

  function Turn(o: Config, w: World, req: Request, l: Loop, all: seq<Manifest>, m: Manifest, hookDeadline: int): Loop {
    match BudgetSkip(o, w, l.carry.consumed, m, hookDeadline)
    case RequestBudget => l.(outcomes := l.outcomes + [Skip(m, RequestBudget)])
    case HookBudget => l.(outcomes := l.outcomes + [Skip(m, HookBudget)], exhausted := true)
    case _ =>
      var (out, carry) := RunPlugin(o, w, req, l.carry, m, hookDeadline);
      Act(l.(carry := carry), all, m, out)
  }

  function Turns(o: Config, w: World, req: Request, l: Loop, all: seq<Manifest>, rest: seq<Manifest>,
                 hookDeadline: int): Loop
    decreases |rest|
  {
    if rest == [] || l.done then l
    else Turns(o, w, req, Turn(o, w, req, l, all, rest[0], hookDeadline), all, rest[1..], hookDeadline)
  }

  function Begin(c: Carry): Loop { Loop(c, UNDECIDED, [], false, false) }

  /** One hook: what it carries forward, its result and its trace. */
  function Run(o: Config, w: World, req: Request, c: Carry, plugins: seq<Manifest>,
               start: int): (Carry, HookResult, HookTrace) {
    var l := Turns(o, w, req, Begin(c), plugins, plugins, start + BudgetOfHook(o, c.consumed));
    (l.carry,
     if plugins == [] || l.done || l.result.payload.Some? then l.result
     else l.result.(payload := Some(l.carry.payload)), HookTrace(l.outcomes, l.exhausted))
  }

  predicate UniqueIds(plugins: seq<Manifest>) {
    forall i, j :: 0 <= i < j < |plugins| ==> plugins[i].id != plugins[j].id
  }
}
