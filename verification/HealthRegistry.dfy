/**
 The condition of every backend, and the index of refused tools derived from it: internal/dataplane/health/state.go.
 */
module HealthRegistry {
  import opened Options
  import opened Drift
  import opened Targets

  /** `Unset` is the empty state of a backend nobody has probed. */
  datatype Fitness = Unset | Unknown | Healthy | Degraded | Unavailable | Drifted

  datatype Backend = Backend(
    target: Target,
    serverName: string,
    strict: bool,
    state: Fitness,
    lastSuccess: Option<int>,
    failures: int,
    toolsAdmitted: int,
    toolsObserved: int,
    drift: seq<ToolDrift>)

  datatype Reason = Reason(server: string, kind: DriftKind, detail: string)

  // ---------------------------------------------------------------- which tools are refused

  /** A drift that takes its tool out of service. */
  predicate Refuses(d: ToolDrift) { Blocking(d.kind) && d.qualifiedName != "" }

  /** The qualified names this backend must not serve: none unless it is strict. */
  function BlockedTools(b: Backend): seq<string> {
    if !b.strict then [] else Refused(b.drift)
  }

  function Refused(drift: seq<ToolDrift>): seq<string> {
    if drift == [] then [] else (if Refuses(drift[0]) then [drift[0].qualifiedName] else []) + Refused(drift[1..])
  }

  predicate Blocks(b: Backend, name: string) {
    b.strict && exists k :: 0 <= k < |b.drift| && Refuses(b.drift[k]) && b.drift[k].qualifiedName == name
  }

  lemma {:induction false} RefusedNames(drift: seq<ToolDrift>, name: string)
    ensures name in Refused(drift) <==>
              exists k :: 0 <= k < |drift| && Refuses(drift[k]) && drift[k].qualifiedName == name
  {
    hide Refuses;
    if drift != [] {
      RefusedNames(drift[1..], name);
      assert forall k :: 0 < k < |drift| ==> drift[k] == drift[1..][k - 1];
      assert forall k :: 0 <= k < |drift[1..]| ==> drift[1..][k] == drift[k + 1];
    }
  }

  /** The reason recorded for a name is the first drift that carries it, blocking or not. */
  predicate FirstFor(b: Backend, name: string, why: Reason) {
    exists k :: 0 <= k < |b.drift| && b.drift[k].qualifiedName == name
      && why == Reason(b.serverName, b.drift[k].kind, b.drift[k].detail)
      && forall j :: 0 <= j < k ==> b.drift[j].qualifiedName != name
  }

  /**
   `blocked` holds exactly the names of `names` that some backend of `those` blocks, each with a reason of such a
   backend.
   */
  ghost predicate Indexes(backends: map<Target, Backend>, those: set<Target>, blocked: map<string, Reason>)
    requires those <= backends.Keys
  {
    && (forall name :: name in blocked <==> exists t :: t in those && Blocks(backends[t], name))
    && (forall name ::
          name in blocked ==>
            exists t :: t in those && Blocks(backends[t], name) && FirstFor(backends[t], name, blocked[name]))
  }

  /** Drift lists as Diff returns them put the blocking kinds first. */
  ghost predicate SeverestFirst(drift: seq<ToolDrift>) {
    forall i, j :: 0 <= i < j < |drift| ==> Severity(drift[i].kind) >= Severity(drift[j].kind)
  }

  /** With the severest first, the recorded reason is of a blocking kind. */
  lemma {:induction false} ReasonIsBlocking(b: Backend, name: string, why: Reason)
    requires Blocks(b, name) && FirstFor(b, name, why) && SeverestFirst(b.drift)
    ensures Blocking(why.kind)
  {
    var k :| 0 <= k < |b.drift| && Refuses(b.drift[k]) && b.drift[k].qualifiedName == name;
    var i :| 0 <= i < |b.drift| && b.drift[i].qualifiedName == name
      && why == Reason(b.serverName, b.drift[i].kind, b.drift[i].detail)
             && forall j :: 0 <= j < i ==> b.drift[j].qualifiedName != name;
    assert i <= k;
  }

  /** Every held drift list puts the severest first. */
  ghost predicate AllSeverestFirst(backends: map<Target, Backend>) {
    forall t :: t in backends ==> SeverestFirst(backends[t].drift)
  }

  /** Then every reason in the index is of a blocking kind. */
  lemma {:induction false} ReasonsAreBlocking(backends: map<Target, Backend>, blocked: map<string, Reason>)
    requires Indexes(backends, backends.Keys, blocked) && AllSeverestFirst(backends)
    ensures forall name :: name in blocked ==> Blocking(blocked[name].kind)
  {
    hide Blocks, FirstFor, SeverestFirst;
    forall name | name in blocked ensures Blocking(blocked[name].kind) {
      var t :| t in backends && Blocks(backends[t], name) && FirstFor(backends[t], name, blocked[name]);
      ReasonIsBlocking(backends[t], name, blocked[name]);
    }
  }

  /** A diff is in that order. */
  lemma {:induction false} DiffIsSeverestFirst(w: Wording, admitted: Admitted, observed: Observed, out: seq<ToolDrift>)
    requires IsDiff(w, admitted, observed, out)
    ensures SeverestFirst(out)
  {
    hide DriftOf;
    forall i, j | 0 <= i < j < |out| ensures Severity(out[i].kind) >= Severity(out[j].kind) {
      assert Before(out[i], out[j]);
    }
  }

  // ---------------------------------------------------------------- one probe's verdict

  /** `failed`: the probe got no answer. Never having succeeded earns no grace. */
  function Classify(failed: bool, drift: seq<ToolDrift>, lastSuccess: Option<int>, now: int, grace: int): Fitness {
    if failed then
      if lastSuccess.None? then Unavailable
      else if now - lastSuccess.value < grace then Degraded
      else Unavailable
    else if exists k :: 0 <= k < |drift| && Blocking(drift[k].kind) then Drifted
    else Healthy
  }

  // ---------------------------------------------------------------- the registry

  datatype Summary = Summary(total: int, healthy: int, degraded: int, unavailable: int, drifted: int, unknown: int,
                             blockedTools: int)

  class Registry {
    var backends: map<Target, Backend>
    var blocked: map<string, Reason>

    /** The index agrees with a scan of every drift list. */
    ghost predicate Valid()
      reads this
    {
      && (forall t :: t in backends ==> backends[t].target == t)
      && Indexes(backends, backends.Keys, blocked)
    }

    constructor ()
      ensures Valid() && backends == map[]
    {
      backends, blocked := map[], map[];
    }

    method Set(b: Backend)
      requires Valid()
      modifies this
      ensures Valid() && backends == old(backends)[b.target := b]
    {
      backends := backends[b.target := b];
      RebuildBlocked();
    }

    /** Drops the backends that are no longer in the snapshot. */
    method Forget(keep: set<Target>)
      requires Valid()
      modifies this
      ensures Valid() && backends == map t | t in old(backends) && t in keep :: old(backends)[t]
    {
      var left := backends.Keys;
      var all := backends;
      while left != {}
        invariant left <= all.Keys
        invariant backends == map t | t in all && (t in keep || t in left) :: all[t]
        decreases |left|
      {
        var t :| t in left;
        left := left - {t};
        if t !in keep { backends := backends - {t}; }
      }
      RebuildBlocked();
    }

    /** Walks the backends in any order; a name several backends block keeps the reason written last. */
    method RebuildBlocked()
      requires forall t :: t in backends ==> backends[t].target == t
      modifies this`blocked
      ensures Indexes(backends, backends.Keys, blocked)
    {
      var index: map<string, Reason> := map[];
      var left := backends.Keys;
      ghost var done: set<Target> := {};
      while left != {}
        invariant left <= backends.Keys && done == backends.Keys - left && Indexes(backends, done, index)
        decreases |left|
      {
        var t :| t in left;
        left := left - {t};
        ghost var before := index;
        index := AddBlocked(backends[t], index);
        IndexOneMore(backends, done, t, before, index);
        done := done + {t};
      }
      blocked := index;
    }

    /** Whether a tool must be refused, whichever tenant asks, and why. */
    method Blocked(qualifiedName: string) returns (why: Option<Reason>)
      requires Valid()
      ensures why.Some? <==> exists t :: t in backends && Blocks(backends[t], qualifiedName)
      ensures why.Some? ==>
                exists t :: t in backends && Blocks(backends[t], qualifiedName)
                  && FirstFor(backends[t], qualifiedName, why.value)
    {
      if qualifiedName in blocked { why := Some(blocked[qualifiedName]); } else { why := None; }
    }

    method Condition(t: Target) returns (b: Option<Backend>)
      ensures b == if t in backends then Some(backends[t]) else None
    {
      if t in backends { b := Some(backends[t]); } else { b := None; }
    }

    /** Every held backend is counted in exactly one state. */
    method Summarise() returns (s: Summary)
      ensures Counts(s, backends) && s.blockedTools == |blocked|
      ensures s.total == s.healthy + s.degraded + s.unavailable + s.drifted + s.unknown
    {
      hide Counts, InState, Indexes, Blocks;
      s := Summary(0, 0, 0, 0, 0, 0, |blocked|);
      var left := backends.Keys;
      ghost var seen: map<Target, Backend> := map[];
      CountNone(s);
      while left != {}
        invariant left <= backends.Keys && seen.Keys == backends.Keys - left
                  && forall t :: t in seen ==> seen[t] == backends[t]
        invariant Counts(s, seen) && s.blockedTools == |blocked|
        invariant s.total == s.healthy + s.degraded + s.unavailable + s.drifted + s.unknown
        decreases |left|
      {
        var t :| t in left;
        CountOne(s, seen, t, backends[t]);
        left := left - {t};
        s := Tally(s, backends[t].state);
        seen := seen[t := backends[t]];
      }
      assert seen == backends;
    }
  }

  /** One more backend, counted under its state; what was never probed is unknown. */
  function Tally(s: Summary, state: Fitness): Summary {
    var more := s.(total := s.total + 1);
    match state
    case Healthy => more.(healthy := s.healthy + 1)
    case Degraded => more.(degraded := s.degraded + 1)
    case Unavailable => more.(unavailable := s.unavailable + 1)
    case Drifted => more.(drifted := s.drifted + 1)
    case _ => more.(unknown := s.unknown + 1)
  }

  function InState(backends: map<Target, Backend>, states: set<Fitness>): set<Target> {
    set t | t in backends && backends[t].state in states
  }

  /** The counts are the sizes of the states; what was never probed is unknown. */
  ghost predicate Counts(s: Summary, backends: map<Target, Backend>) {
    && s.total == |backends|
    && s.healthy == |InState(backends, {Healthy})| && s.degraded == |InState(backends, {Degraded})|
    && s.unavailable == |InState(backends, {Unavailable})| && s.drifted == |InState(backends, {Drifted})|
    && s.unknown == |InState(backends, {Unset, Unknown})|
  }

  lemma {:induction false} CountNone(s: Summary)
    requires s.total == s.healthy == s.degraded == s.unavailable == s.drifted == s.unknown == 0
    ensures Counts(s, map[])
  {
    assert forall states :: InState(map[], states) == {};
  }

  lemma {:induction false} InStateOne(seen: map<Target, Backend>, t: Target, b: Backend, states: set<Fitness>)
    requires t !in seen
    ensures |InState(seen[t := b], states)| == |InState(seen, states)| + (if b.state in states then 1 else 0)
  {
    assert InState(seen[t := b], states) == InState(seen, states) + if b.state in states then {t} else {};
  }

  lemma {:induction false} CountOne(s: Summary, seen: map<Target, Backend>, t: Target, b: Backend)
    requires Counts(s, seen) && t !in seen
    ensures Counts(Tally(s, b.state), seen[t := b])
  {
    hide InState;
    assert seen[t := b].Keys == seen.Keys + {t};
    InStateOne(seen, t, b, {Healthy});
    InStateOne(seen, t, b, {Degraded});
    InStateOne(seen, t, b, {Unavailable});
    InStateOne(seen, t, b, {Drifted});
    InStateOne(seen, t, b, {Unset, Unknown});
  }

  /** The two inner loops of the rebuild: each refused name gets the first drift that carries it. */
  method AddBlocked(b: Backend, index: map<string, Reason>) returns (out: map<string, Reason>)
    ensures forall name :: name in out <==> name in index || Blocks(b, name)
    ensures forall name :: Blocks(b, name) ==> FirstFor(b, name, out[name])
    ensures forall name :: name in index && !Blocks(b, name) ==> out[name] == index[name]
  {
    hide Refuses, FirstFor, Refused;
    var names := BlockedTools(b);
    forall name ensures name in names <==> Blocks(b, name) { RefusedNames(b.drift, name); }
    out := index;
    for i := 0 to |names|
      invariant forall name :: name in out <==> name in index || name in names[..i]
      invariant forall name :: name in names[..i] ==> FirstFor(b, name, out[name])
      invariant forall name :: name in index && name !in names[..i] ==> out[name] == index[name]
    {
      var why := FirstCarrying(b, names[i]);
      out := out[names[i] := why];
      assert names[..i + 1] == names[..i] + [names[i]];
    }
    assert names[..|names|] == names;
  }

  method FirstCarrying(b: Backend, name: string) returns (why: Reason)
    requires Blocks(b, name)
    ensures FirstFor(b, name, why)
  {
    var k := 0;
    while b.drift[k].qualifiedName != name
      invariant k < |b.drift| && forall j :: 0 <= j < k ==> b.drift[j].qualifiedName != name
      decreases |b.drift| - k
    {
      k := k + 1;
    }
    return Reason(b.serverName, b.drift[k].kind, b.drift[k].detail);
  }

  lemma {:induction false} IndexOneMore(backends: map<Target, Backend>, done: set<Target>, t: Target,
                                        before: map<string, Reason>, after: map<string, Reason>)
    requires done <= backends.Keys && t in backends && Indexes(backends, done, before)
    requires forall name :: name in after <==> name in before || Blocks(backends[t], name)
    requires forall name :: Blocks(backends[t], name) ==> FirstFor(backends[t], name, after[name])
    requires forall name :: name in before && !Blocks(backends[t], name) ==> after[name] == before[name]
    ensures Indexes(backends, done + {t}, after)
  {
    hide Blocks, FirstFor;
    forall name | name in after
      ensures exists u :: u in done + {t} && Blocks(backends[u], name) && FirstFor(backends[u], name, after[name])
    {
      if Blocks(backends[t], name) {
        assert t in done + {t};
      } else {
        var u :| u in done && Blocks(backends[u], name) && FirstFor(backends[u], name, before[name]);
        assert u in done + {t};
      }
    }
  }
}
