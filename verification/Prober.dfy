/**
 The probe sweep of internal/dataplane/health/prober.go, and how long a block lasts: until a readable catalog shows
 the tool as admitted again, the server stops being strict, or its binding leaves the snapshot.
 */
module Prober {
  import opened Options
  import opened Drift
  import opened HealthRegistry
  import opened Targets

  datatype ServingMode = Unspecified | Strict | Advisory

  /** Unspecified counts as strict. */
  predicate IsStrict(m: ServingMode) { !m.Advisory? }

  datatype Binding = Binding(target: Target, serverName: string, mode: ServingMode)

  datatype SnapshotTool = SnapshotTool(serverId: string, tenantId: string, name: string, def: Definition)

  datatype Snapshot = Snapshot(bindings: seq<Binding>, tools: seq<SnapshotTool>)

  /** A probe's answer: none, a catalog that cannot be canonicalized, or one that can. */
  datatype Listing = NoAnswer | Unreadable(count: int) | Catalog(count: int, observed: Observed)

  /** When the answer came and when it was judged. */
  datatype Clock = Clock(answered: int, judged: int)

  /** One sweep: what it is run against, and what each target answers, None if the sweep is cancelled first. */
  datatype Sweep = Sweep(snapshot: Snapshot, listing: Target -> Option<Listing>, clock: Target -> Clock)

  // ---------------------------------------------------------------- what was admitted

  /** The tools admitted for one target, by the backend's own names. */
  function AdmittedTo(tools: seq<SnapshotTool>, t: Target): Admitted {
    if tools == [] then map[]
    else
      var last := tools[|tools| - 1];
      var rest := AdmittedTo(tools[..|tools| - 1], t);
      if Target(last.serverId, last.tenantId) == t then rest[last.name := last.def] else rest
  }

  method AdmittedByBinding(tools: seq<SnapshotTool>) returns (out: map<Target, Admitted>)
    ensures forall t :: (if t in out then out[t] else map[]) == AdmittedTo(tools, t)
  {
    out := map[];
    for i := 0 to |tools|
      invariant forall t :: (if t in out then out[t] else map[]) == AdmittedTo(tools[..i], t)
    {
      var tool := tools[i];
      var target := Target(tool.serverId, tool.tenantId);
      assert tools[..i + 1][..i] == tools[..i];
      if target !in out { out := out[target := map[]]; }
      out := out[target := out[target][tool.name := tool.def]];
    }
    assert tools[..|tools|] == tools;
  }

  // ---------------------------------------------------------------- one probe

  function Blank(b: Binding, admitted: Admitted): Backend {
    Backend(b.target, b.serverName, IsStrict(b.mode), Unset, None, 0, |admitted|, 0, [])
  }

  /** What the registry held before, or the zero condition. */
  function Previous(held: map<Target, Backend>, t: Target): Backend {
    if t in held then held[t] else Backend(t, "", false, Unset, None, 0, 0, 0, [])
  }

  /** The three exits of a probe. Without a readable catalog the previous drift is kept. */
  ghost predicate IsProbed(w: Wording, grace: int, previous: Backend, b: Binding, admitted: Admitted, l: Listing,
                           c: Clock, current: Backend) {
    var base := Blank(b, admitted).(drift := current.drift);
    match l
    case NoAnswer =>
      && current.drift == previous.drift
      && current == base.(failures := previous.failures + 1, lastSuccess := previous.lastSuccess,
                          toolsObserved := previous.toolsObserved,
                          state := Classify(true, previous.drift, previous.lastSuccess, c.judged, grace))
    case Unreadable(count) =>
      && current.drift == previous.drift
      && current == base.(lastSuccess := Some(c.answered), toolsObserved := count, state := Drifted)
    case Catalog(count, observed) =>
      && IsDiff(w, admitted, observed, current.drift)
      && current == base.(lastSuccess := Some(c.answered), toolsObserved := count,
                          state := Classify(false, current.drift, Some(c.answered), c.judged, grace))
  }

  /** Every target of the snapshot once probed, the cancelled ones as they were, and no others. */
  ghost predicate IsSwept(w: Wording, grace: int, before: map<Target, Backend>, s: Sweep, after: map<Target, Backend>) {
    && (forall t :: t in after ==> t in BoundTargets(s.snapshot.bindings))
    && (forall i :: 0 <= i < |s.snapshot.bindings| ==> IsSettled(w, grace, before, s, s.snapshot.bindings[i], after))
  }

  ghost predicate IsSettled(w: Wording, grace: int, before: map<Target, Backend>, s: Sweep, b: Binding,
                            after: map<Target, Backend>) {
    var t := b.target;
    match s.listing(t)
    case None => (t in after <==> t in before) && (t in after ==> after[t] == before[t])
    case Some(l) =>
      t in after && IsProbed(w, grace, Previous(before, t), b, AdmittedTo(s.snapshot.tools, t), l, s.clock(t), after[t])
  }

  function BoundTargets(bindings: seq<Binding>): set<Target> { set i | 0 <= i < |bindings| :: bindings[i].target }

  /** One binding per server and tenant. */
  predicate DistinctTargets(bindings: seq<Binding>) {
    forall i, j :: 0 <= i < j < |bindings| ==> bindings[i].target != bindings[j].target
  }

  /** Whether a target is settled depends on its own entry only. */
  lemma {:induction false} OwnEntryOnly(w: Wording, grace: int, before: map<Target, Backend>, s: Sweep, b: Binding,
                                        one: map<Target, Backend>, two: map<Target, Backend>)
    requires IsSettled(w, grace, before, s, b, one)
    requires (b.target in one <==> b.target in two) && (b.target in one ==> one[b.target] == two[b.target])
    ensures IsSettled(w, grace, before, s, b, two)
  {
    hide IsProbed, AdmittedTo;
  }

  // ---------------------------------------------------------------- the code's own form

  class ProbeLoop {
    const registry: Registry
    const grace: int
    const words: Wording

    constructor (registry: Registry, grace: int, words: Wording)
      ensures this.registry == registry && this.words == words
      ensures this.grace == if grace <= 0 then 600_000_000_000 else grace
    {
      this.registry, this.words := registry, words;
      this.grace := if grace <= 0 then 600_000_000_000 else grace;
    }

    /** Fills in the condition one probe finds, exit by exit. */
    method Observe(previous: Backend, b: Binding, admitted: Admitted, l: Listing, c: Clock) returns (current: Backend)
      ensures current.target == b.target && IsProbed(words, grace, previous, b, admitted, l, c, current)
    {
      hide Classify, IsDiff, IsStrict;
      current := Blank(b, admitted).(lastSuccess := previous.lastSuccess);
      if l.NoAnswer? {
        current := current.(failures := previous.failures + 1, drift := previous.drift,
                            toolsObserved := previous.toolsObserved);
        current := current.(state := Classify(true, current.drift, current.lastSuccess, c.judged, grace));
        return;
      }
      current := current.(lastSuccess := Some(c.answered), toolsObserved := l.count);
      if l.Unreadable? {
        current := current.(state := Drifted, drift := previous.drift);
        return;
      }
      var drift := Diff(words, admitted, l.observed);
      current := current.(drift := drift);
      current := current.(state := Classify(false, drift, current.lastSuccess, c.judged, grace));
    }

    method Probe(b: Binding, admitted: Admitted, l: Listing, c: Clock)
      requires registry.Valid()
      modifies registry
      ensures registry.Valid() && registry.backends.Keys == old(registry.backends).Keys + {b.target}
      ensures forall t :: t in registry.backends && t != b.target ==> registry.backends[t] == old(registry.backends)[t]
      ensures IsProbed(words, grace, Previous(old(registry.backends), b.target), b, admitted, l, c,
                       registry.backends[b.target])
    {
      hide IsProbed, Registry.Valid;
      var held := registry.Condition(b.target);
      var previous := if held.Some? then held.value else Backend(b.target, "", false, Unset, None, 0, 0, 0, []);
      var current := Observe(previous, b, admitted, l, c);
      registry.Set(current);
    }

    /** Forgets what left the snapshot, then probes every binding; without a snapshot, nothing. */
    method ProbeAll(snapshot: Option<Snapshot>, listing: Target -> Option<Listing>, clock: Target -> Clock)
      requires registry.Valid() && (snapshot.Some? ==> DistinctTargets(snapshot.value.bindings))
      modifies registry
      ensures registry.Valid()
      ensures snapshot.None? ==> registry.backends == old(registry.backends)
      ensures snapshot.Some? ==>
                IsSwept(words, grace, old(registry.backends), Sweep(snapshot.value, listing, clock), registry.backends)
    {
      if snapshot.None? { return; }
      hide IsProbed, Registry.Valid, AdmittedTo;
      var bindings := snapshot.value.bindings;
      ghost var before, s := registry.backends, Sweep(snapshot.value, listing, clock);
      registry.Forget(BoundTargets(bindings));
      var admitted := AdmittedByBinding(snapshot.value.tools);
      for i := 0 to |bindings|
        invariant registry.Valid()
        invariant forall t :: t in registry.backends ==> t in BoundTargets(bindings)
        invariant forall k :: 0 <= k < i ==> IsSettled(words, grace, before, s, bindings[k], registry.backends)
        invariant forall k :: i <= k < |bindings| ==>
                    (bindings[k].target in registry.backends <==> bindings[k].target in before)
                    && (bindings[k].target in before ==>
                          registry.backends[bindings[k].target] == before[bindings[k].target])
      {
        var t := bindings[i].target;
        assert t in BoundTargets(bindings);
        var l := listing(t);
        ghost var sofar := registry.backends;
        if l.Some? {
          Probe(bindings[i], if t in admitted then admitted[t] else map[], l.value, clock(t));
        }
        assert IsSettled(words, grace, before, s, bindings[i], registry.backends);
        forall k | 0 <= k < i ensures IsSettled(words, grace, before, s, bindings[k], registry.backends) {
          OwnEntryOnly(words, grace, before, s, bindings[k], sofar, registry.backends);
        }
      }
    }
  }

  // ---------------------------------------------------------------- how long a block lasts

  /** The catalog still differs, beyond prose, from a tool admitted under this qualified name. */
  predicate StillDrifted(admitted: Admitted, observed: Observed, name: string) {
    exists n :: n in admitted && admitted[n].qualifiedName == name
      && (n !in observed
          || (observed[n].full != admitted[n].digest && observed[n].semantic != admitted[n].semanticDigest))
  }

  /** A strict backend with this diff blocks exactly the admitted tools that are gone or no longer mean the same. */
  lemma {:induction false} DiffBlocks(w: Wording, admitted: Admitted, observed: Observed, b: Backend, name: string)
    requires IsDiff(w, admitted, observed, b.drift) && b.strict
    ensures Blocks(b, name) <==> name != "" && StillDrifted(admitted, observed, name)
  {
    hide Before;
    if Blocks(b, name) {
      var k :| 0 <= k < |b.drift| && Refuses(b.drift[k]) && b.drift[k].qualifiedName == name;
      assert b.drift[k] in b.drift;
      assert DriftOf(w, admitted, observed, b.drift[k].name) == Some(b.drift[k]);
    }
    if name != "" && StillDrifted(admitted, observed, name) {
      var n :| n in admitted && admitted[n].qualifiedName == name
        && (n !in observed
            || (observed[n].full != admitted[n].digest && observed[n].semantic != admitted[n].semanticDigest));
      var d := DriftOf(w, admitted, observed, n).value;
      assert DriftOf(w, admitted, observed, d.name) == Some(d);
      assert d in b.drift;
    }
  }

  /** The binding of target `t`, if the snapshot has one. */
  predicate Serves(s: Snapshot, b: Binding) { exists i :: 0 <= i < |s.bindings| && s.bindings[i] == b }

  /**
   After a sweep, whether a target blocks a name is decided by what the probe learnt: a cancelled one changes
   nothing, one without a readable catalog changes nothing but the mode, a readable one decides alone, and a target
   that left the snapshot blocks nothing.
   */
  lemma {:induction false} AfterSweep(w: Wording, grace: int, before: map<Target, Backend>, s: Sweep,
                                      after: map<Target, Backend>, b: Binding, name: string)
    requires IsSwept(w, grace, before, s, after) && Serves(s.snapshot, b)
    ensures var t := b.target;
            var now := t in after && Blocks(after[t], name);
            match s.listing(t)
            case None => now <==> t in before && Blocks(before[t], name)
            case Some(Catalog(_, observed)) =>
              now <==> b.mode != Advisory && name != "" && StillDrifted(AdmittedTo(s.snapshot.tools, t), observed, name)
            case Some(_) => now <==> t in before && b.mode != Advisory && Blocks(before[t].(strict := true), name)
  {
    hide IsDiff, StillDrifted, AdmittedTo, Classify, Refuses;
    var t := b.target;
    assert IsSettled(w, grace, before, s, b, after);
    if s.listing(t).Some? && s.listing(t).value.Catalog? && IsStrict(b.mode) {
      DiffBlocks(w, AdmittedTo(s.snapshot.tools, t), s.listing(t).value.observed, after[t], name);
    }
  }

  lemma {:induction false} LeftTheSnapshot(w: Wording, grace: int, before: map<Target, Backend>, s: Sweep,
                                           after: map<Target, Backend>, t: Target)
    requires IsSwept(w, grace, before, s, after) && forall b :: Serves(s.snapshot, b) ==> b.target != t
    ensures t !in after
  {
    hide IsSettled;
    assert forall i :: 0 <= i < |s.snapshot.bindings| ==> Serves(s.snapshot, s.snapshot.bindings[i]);
  }

  /** The conditions before and after each sweep of a run. */
  ghost predicate IsRun(w: Wording, grace: int, held: seq<map<Target, Backend>>, sweeps: seq<Sweep>) {
    |held| == |sweeps| + 1 && forall i :: 0 <= i < |sweeps| ==> IsSwept(w, grace, held[i], sweeps[i], held[i + 1])
  }

  /** The sweep leaves the target's block standing: it is served in strict mode, and no readable catalog clears it. */
  ghost predicate KeepsBlocked(s: Sweep, t: Target, name: string) {
    exists b :: Serves(s.snapshot, b) && b.target == t && IsStrict(b.mode)
      && (match s.listing(t)
          case Some(Catalog(_, observed)) => StillDrifted(AdmittedTo(s.snapshot.tools, t), observed, name)
          case _ => true)
  }

  /**
   Blocks are sticky: through any number of sweeps, failed, unreadable or cancelled, a blocked tool stays blocked as
   long as its target is served in strict mode and no readable catalog shows it without blocking drift.
   */
  lemma {:induction false} BlocksAreSticky(w: Wording, grace: int, held: seq<map<Target, Backend>>, sweeps: seq<Sweep>,
                                           t: Target, name: string, n: nat)
    requires IsRun(w, grace, held, sweeps) && n <= |sweeps|
    requires t in held[0] && Blocks(held[0][t], name)
    requires forall i :: 0 <= i < n ==> KeepsBlocked(sweeps[i], t, name)
    ensures t in held[n] && Blocks(held[n][t], name)
  {
    hide IsSwept, StillDrifted;
    if n > 0 {
      BlocksAreSticky(w, grace, held, sweeps, t, name, n - 1);
      assert KeepsBlocked(sweeps[n - 1], t, name);
      var b :| Serves(sweeps[n - 1].snapshot, b) && b.target == t && IsStrict(b.mode);
      var was := held[n - 1][t];
      assert was.(strict := true) == was;
      AfterSweep(w, grace, held[n - 1], sweeps[n - 1], held[n], b, name);
      assert name != "";
    }
  }

  /** And it lifts at the first sweep of which that is not true. */
  lemma {:induction false} BlockLifts(w: Wording, grace: int, before: map<Target, Backend>, s: Sweep,
                                      after: map<Target, Backend>, t: Target, name: string)
    requires IsSwept(w, grace, before, s, after) && DistinctTargets(s.snapshot.bindings) && s.listing(t).Some?
    requires t in before && Blocks(before[t], name)
    ensures t in after && Blocks(after[t], name) <==> KeepsBlocked(s, t, name)
  {
    hide IsSwept, StillDrifted;
    if exists b :: Serves(s.snapshot, b) && b.target == t {
      var b :| Serves(s.snapshot, b) && b.target == t;
      forall other | Serves(s.snapshot, other) && other.target == t ensures other == b {
      }
      assert before[t].(strict := true) == before[t];
      AfterSweep(w, grace, before, s, after, b, name);
      assert name != "";
    } else {
      LeftTheSnapshot(w, grace, before, s, after, t);
    }
  }

  // ---------------------------------------------------------------- why a tool is refused

  lemma {:induction false} SweepSorts(w: Wording, grace: int, before: map<Target, Backend>, s: Sweep,
                                      after: map<Target, Backend>)
    requires IsSwept(w, grace, before, s, after) && AllSeverestFirst(before)
    ensures AllSeverestFirst(after)
  {
    hide IsDiff, SeverestFirst, Classify, AdmittedTo;
    assert SeverestFirst([]) by { NoneOutOfOrder(); }
    forall t | t in after ensures SeverestFirst(after[t].drift) {
      assert t in BoundTargets(s.snapshot.bindings);
      var i :| 0 <= i < |s.snapshot.bindings| && s.snapshot.bindings[i].target == t;
      assert IsSettled(w, grace, before, s, s.snapshot.bindings[i], after);
      if s.listing(t).Some? && s.listing(t).value.Catalog? {
        DiffIsSeverestFirst(w, AdmittedTo(s.snapshot.tools, t), s.listing(t).value.observed, after[t].drift);
      }
    }
  }

  lemma {:induction false} NoneOutOfOrder()
    ensures SeverestFirst([])
  {
  }

  /**
   After any number of sweeps from an empty registry, whatever the probes found, a refused tool's recorded reason is a
   drift that takes the tool out of service.
   */
  lemma {:induction false} ReasonsStayBlocking(w: Wording, grace: int, held: seq<map<Target, Backend>>,
                                               sweeps: seq<Sweep>, n: nat, blocked: map<string, Reason>)
    requires IsRun(w, grace, held, sweeps) && held[0] == map[] && n <= |sweeps|
    requires Indexes(held[n], held[n].Keys, blocked)
    ensures forall name :: name in blocked ==> Blocking(blocked[name].kind)
  {
    hide IsSwept, AllSeverestFirst, Indexes;
    SweepsSort(w, grace, held, sweeps, n);
    ReasonsAreBlocking(held[n], blocked);
  }

  lemma {:induction false} SweepsSort(w: Wording, grace: int, held: seq<map<Target, Backend>>, sweeps: seq<Sweep>,
                                      n: nat)
    requires IsRun(w, grace, held, sweeps) && held[0] == map[] && n <= |sweeps|
    ensures AllSeverestFirst(held[n])
  {
    hide IsSwept;
    if n > 0 {
      SweepsSort(w, grace, held, sweeps, n - 1);
      SweepSorts(w, grace, held[n - 1], sweeps[n - 1], held[n]);
    }
  }

  // ---------------------------------------------------------------- the condition of a backend, told by its probes

  /** The tools admitted for a target are those filed under it, each as it was filed last. */
  lemma {:induction false} AdmittedTells(tools: seq<SnapshotTool>, t: Target, name: string)
    ensures var m := AdmittedTo(tools, t);
            && (name in m <==> exists i :: 0 <= i < |tools| && FiledAs(tools, i, t, name))
            && (name in m ==> exists i :: 0 <= i < |tools| && FiledAs(tools, i, t, name) && m[name] == tools[i].def
                                          && forall k :: i < k < |tools| ==> !FiledAs(tools, k, t, name))
  {
    if tools != [] {
      var front := tools[..|tools| - 1];
      AdmittedTells(front, t, name);
      assert forall i :: 0 <= i < |front| ==> (FiledAs(front, i, t, name) <==> FiledAs(tools, i, t, name));
      assert FiledAs(tools, |tools| - 1, t, name) ==> AdmittedTo(tools, t)[name] == tools[|tools| - 1].def;
      if !FiledAs(tools, |tools| - 1, t, name) && name in AdmittedTo(front, t) {
        var i :| 0 <= i < |front| && FiledAs(front, i, t, name) && AdmittedTo(front, t)[name] == front[i].def
                 && forall k :: i < k < |front| ==> !FiledAs(front, k, t, name);
        assert FiledAs(tools, i, t, name) && tools[i].def == front[i].def;
      }
    }
  }

  predicate FiledAs(tools: seq<SnapshotTool>, i: int, t: Target, name: string) {
    0 <= i < |tools| && tools[i].serverId == t.serverId && tools[i].tenantId == t.tenantId && tools[i].name == name
  }

  /** What one probe leaves, field by field, given what was held before. */
  lemma {:induction false} ProbeTells(w: Wording, grace: int, before: map<Target, Backend>, s: Sweep,
                                      after: map<Target, Backend>, b: Binding)
    requires IsSwept(w, grace, before, s, after) && Serves(s.snapshot, b) && s.listing(b.target).Some?
    ensures var t, at := b.target, s.clock(b.target);
            && t in after && after[t].target == t && after[t].serverName == b.serverName
            && after[t].strict == (b.mode != Advisory)
            && after[t].toolsAdmitted == |AdmittedTo(s.snapshot.tools, t)|
            && match s.listing(t).value
               case NoAnswer =>
                 var last := if t in before then before[t].lastSuccess else None;
                 && after[t].failures == (if t in before then before[t].failures else 0) + 1
                 && after[t].lastSuccess == last
                 && after[t].drift == (if t in before then before[t].drift else [])
                 && after[t].toolsObserved == (if t in before then before[t].toolsObserved else 0)
                 && after[t].state == if last.Some? && at.judged - last.value < grace then Degraded else Unavailable
               case Unreadable(count) =>
                 && after[t].failures == 0 && after[t].lastSuccess == Some(at.answered)
                 && after[t].drift == (if t in before then before[t].drift else [])
                 && after[t].toolsObserved == count && after[t].state == Drifted
               case Catalog(count, observed) =>
                 && after[t].failures == 0 && after[t].lastSuccess == Some(at.answered)
                 && IsDiff(w, AdmittedTo(s.snapshot.tools, t), observed, after[t].drift)
                 && after[t].toolsObserved == count
                 && after[t].state ==
                    if exists k :: 0 <= k < |after[t].drift| && after[t].drift[k].kind in {Removed, Semantic}
                    then Drifted else Healthy
  {
    hide IsDiff, AdmittedTo;
    assert IsSettled(w, grace, before, s, b, after);
  }

  /** Probes without an answer since the last one with any; a cancelled one does not count. */
  function Streak(sweeps: seq<Sweep>, t: Target): nat {
    if sweeps == [] then 0
    else match sweeps[|sweeps| - 1].listing(t)
      case None => Streak(sweeps[..|sweeps| - 1], t)
      case Some(NoAnswer) => Streak(sweeps[..|sweeps| - 1], t) + 1
      case Some(_) => 0
  }

  /** When a probe was last answered, readably or not. */
  function LastAnswer(sweeps: seq<Sweep>, t: Target): Option<int> {
    if sweeps == [] then None
    else match sweeps[|sweeps| - 1].listing(t)
      case None => LastAnswer(sweeps[..|sweeps| - 1], t)
      case Some(NoAnswer) => LastAnswer(sweeps[..|sweeps| - 1], t)
      case Some(_) => Some(sweeps[|sweeps| - 1].clock(t).answered)
  }

  /**
   Over any sweeps of snapshots that all bind a target, its entry is the story of its own probes: it is there once one
   was made, it counts the failures in a row, and it remembers the last answer.
   */
  lemma {:induction false} ConditionIsItsProbes(w: Wording, grace: int, held: seq<map<Target, Backend>>,
                                                sweeps: seq<Sweep>, t: Target)
    requires IsRun(w, grace, held, sweeps) && held[0] == map[]
    requires forall i :: 0 <= i < |sweeps| ==> exists b :: Serves(sweeps[i].snapshot, b) && b.target == t
    ensures var now := held[|sweeps|];
            && (t in now <==> exists i :: 0 <= i < |sweeps| && sweeps[i].listing(t).Some?)
            && (t !in now ==> Streak(sweeps, t) == 0 && LastAnswer(sweeps, t) == None)
            && (t in now ==> now[t].failures == Streak(sweeps, t) && now[t].lastSuccess == LastAnswer(sweeps, t))
  {
    hide IsSwept, IsRun;
    if sweeps != [] {
      var n := |sweeps| - 1;
      var front, last := sweeps[..n], sweeps[n];
      FrontOfRun(w, grace, held, sweeps);
      assert forall i :: 0 <= i < n ==> front[i] == sweeps[i];
      ConditionIsItsProbes(w, grace, held[..n + 1], front, t);
      assert held[..n + 1][n] == held[n];
      OneMoreProbe(w, grace, held[n], last, held[n + 1], t);
    }
  }

  lemma {:induction false} FrontOfRun(w: Wording, grace: int, held: seq<map<Target, Backend>>, sweeps: seq<Sweep>)
    requires IsRun(w, grace, held, sweeps) && sweeps != []
    ensures var n := |sweeps| - 1;
            |held| == n + 2 && IsRun(w, grace, held[..n + 1], sweeps[..n])
            && IsSwept(w, grace, held[n], sweeps[n], held[n + 1])
  {
    hide IsSwept;
  }

  lemma {:induction false} OneMoreProbe(w: Wording, grace: int, before: map<Target, Backend>, s: Sweep,
                                        after: map<Target, Backend>, t: Target)
    requires IsSwept(w, grace, before, s, after) && exists b :: Serves(s.snapshot, b) && b.target == t
    ensures s.listing(t).None? ==> (t in after <==> t in before) && (t in after ==> after[t] == before[t])
    ensures s.listing(t).Some? ==>
              && t in after
              && if s.listing(t).value.NoAnswer?
                 then after[t].failures == (if t in before then before[t].failures else 0) + 1
                      && after[t].lastSuccess == if t in before then before[t].lastSuccess else None
                 else after[t].failures == 0 && after[t].lastSuccess == Some(s.clock(t).answered)
  {
    hide IsSwept, AdmittedTo, IsDiff;
    var b :| Serves(s.snapshot, b) && b.target == t;
    if s.listing(t).Some? {
      ProbeTells(w, grace, before, s, after, b);
    } else {
      CancelledTells(w, grace, before, s, after, b);
    }
  }

  lemma {:induction false} CancelledTells(w: Wording, grace: int, before: map<Target, Backend>, s: Sweep,
                                          after: map<Target, Backend>, b: Binding)
    requires IsSwept(w, grace, before, s, after) && Serves(s.snapshot, b) && s.listing(b.target).None?
    ensures (b.target in after <==> b.target in before) && (b.target in after ==> after[b.target] == before[b.target])
  {
    assert IsSettled(w, grace, before, s, b, after);
  }
}
