/**
 The backend pool of internal/dataplane/backends/pool.go: reconciling its entries with a snapshot, and the breaker
 around every call. An unrelated publish never resets a breaker.
 */
module Pool {
  import opened Options
  import opened Circuits
  import opened Targets
  import opened BreakerRuns
  import B = BackendBreakers

  datatype Binding = Binding(tenantId: string, primary: string)

  datatype Server = Server(id: string, name: string, ejectAfter: Option<int>, bindings: seq<Binding>)

  datatype Settings = Settings(failureThreshold: int, cooldown: int)

  function WithDefaults(o: Settings): Settings {
    Settings(if o.failureThreshold < 1 then 5 else o.failureThreshold,
             if o.cooldown <= 0 then 30_000_000_000 else o.cooldown)
  }

  // ---------------------------------------------------------------- what a publish asks for

  datatype Want = Want(server: Server, endpoint: string)

  function WithBindings(wanted: map<Target, Want>, s: Server, bs: seq<Binding>): map<Target, Want> {
    if bs == [] then wanted
    else
      var last := bs[|bs| - 1];
      WithBindings(wanted, s, bs[..|bs| - 1])[Target(s.id, last.tenantId) := Want(s, last.primary)]
  }

  /** Every server for every tenant it is bound to; a repeated pair takes its last binding. */
  function Wanted(servers: seq<Server>): map<Target, Want> {
    if servers == [] then map[]
    else WithBindings(Wanted(servers[..|servers| - 1]), servers[|servers| - 1], servers[|servers| - 1].bindings)
  }

  predicate Binds(s: Server, t: Target, endpoint: string) {
    s.id == t.serverId && exists k :: 0 <= k < |s.bindings| && s.bindings[k] == Binding(t.tenantId, endpoint)
  }

  lemma {:induction false} WithBindingsExact(wanted: map<Target, Want>, s: Server, bs: seq<Binding>, t: Target)
    ensures var m := WithBindings(wanted, s, bs);
            && (t in m <==>
                  t in wanted || (s.id == t.serverId && exists k :: 0 <= k < |bs| && bs[k].tenantId == t.tenantId))
            && (t in m ==>
                  || (t in wanted && m[t] == wanted[t])
                  || (m[t].server == s && s.id == t.serverId
                      && exists k :: 0 <= k < |bs| && bs[k] == Binding(t.tenantId, m[t].endpoint)))
  {
    if bs != [] {
      var front := bs[..|bs| - 1];
      WithBindingsExact(wanted, s, front, t);
      assert forall k :: 0 <= k < |front| ==> front[k] == bs[k];
    }
  }

  /** The wanted targets are the bound ones, each with an endpoint it is bound to. */
  lemma {:induction false} WantedExact(servers: seq<Server>, t: Target)
    ensures t in Wanted(servers) <==> exists i, e :: 0 <= i < |servers| && Binds(servers[i], t, e)
    ensures t in Wanted(servers) ==>
              var w := Wanted(servers)[t]; w.server in servers && Binds(w.server, t, w.endpoint)
  {
    if servers != [] {
      var front, last := servers[..|servers| - 1], servers[|servers| - 1];
      WantedExact(front, t);
      WithBindingsExact(Wanted(front), last, last.bindings, t);
      assert forall i :: 0 <= i < |front| ==> front[i] == servers[i];
      if t in Wanted(front) {
        var i, e :| 0 <= i < |front| && Binds(front[i], t, e);
        assert Binds(servers[i], t, e);
      }
      if last.id == t.serverId && exists k :: 0 <= k < |last.bindings| && last.bindings[k].tenantId == t.tenantId {
        var k :| 0 <= k < |last.bindings| && last.bindings[k].tenantId == t.tenantId;
        assert last.bindings[k] == Binding(t.tenantId, last.bindings[k].primary);
        assert Binds(servers[|servers| - 1], t, last.bindings[k].primary);
      }
    }
  }

  predicate BindsAt(servers: seq<Server>, i: int, k: int, t: Target) {
    && 0 <= i < |servers| && servers[i].id == t.serverId
    && 0 <= k < |servers[i].bindings| && servers[i].bindings[k].tenantId == t.tenantId
  }

  /** The last binding of a pair, in the order of the snapshot. */
  ghost predicate LastBinding(servers: seq<Server>, i: int, k: int, t: Target) {
    && BindsAt(servers, i, k, t)
    && (forall l :: k < l ==> !BindsAt(servers, i, l, t))
    && (forall j, l :: i < j ==> !BindsAt(servers, j, l, t))
  }

  /** A pair bound more than once gets the endpoint of its last binding. */
  lemma {:induction false} LastBindingWins(servers: seq<Server>, i: int, k: int, t: Target)
    requires LastBinding(servers, i, k, t)
    ensures t in Wanted(servers) && Wanted(servers)[t] == Want(servers[i], servers[i].bindings[k].primary)
  {
    var n := |servers| - 1;
    var front, last := servers[..n], servers[n];
    forall l: int | last.id == t.serverId && 0 <= l < |last.bindings| && last.bindings[l].tenantId == t.tenantId
      ensures BindsAt(servers, n, l, t)
    {
    }
    if i == n {
      LastOfServer(Wanted(front), last, last.bindings, k, t);
    } else {
      assert forall j, l :: j < n ==> (BindsAt(front, j, l, t) <==> BindsAt(servers, j, l, t));
      LastBindingWins(front, i, k, t);
      NoneOfServer(Wanted(front), last, last.bindings, t);
    }
  }

  lemma {:induction false} LastOfServer(wanted: map<Target, Want>, s: Server, bs: seq<Binding>, k: nat, t: Target)
    requires s.id == t.serverId && k < |bs| && bs[k].tenantId == t.tenantId
    requires forall l :: k < l && 0 <= l < |bs| ==> bs[l].tenantId != t.tenantId
    ensures var m := WithBindings(wanted, s, bs); t in m && m[t] == Want(s, bs[k].primary)
  {
    if k < |bs| - 1 { LastOfServer(wanted, s, bs[..|bs| - 1], k, t); }
  }

  lemma {:induction false} NoneOfServer(wanted: map<Target, Want>, s: Server, bs: seq<Binding>, t: Target)
    requires t in wanted
    requires s.id == t.serverId ==> forall l :: 0 <= l < |bs| ==> bs[l].tenantId != t.tenantId
    ensures var m := WithBindings(wanted, s, bs); t in m && m[t] == wanted[t]
  {
    if bs != [] { NoneOfServer(wanted, s, bs[..|bs| - 1], t); }
  }

  // ---------------------------------------------------------------- entries as values

  datatype EntryValue = EntryValue(server: Server, endpoint: string, connected: bool, breaker: B.State)

  function Threshold(o: Settings, s: Server): int {
    if s.ejectAfter.Some? && s.ejectAfter.value > 0 then s.ejectAfter.value else o.failureThreshold
  }

  function NewEntry(o: Settings, w: Want): EntryValue {
    EntryValue(w.server, w.endpoint, false, B.New(Threshold(o, w.server), o.cooldown))
  }

  /** A target whose endpoint stands keeps everything but its server record; any other starts afresh. */
  function SyncedEntry(o: Settings, held: map<Target, EntryValue>, t: Target, w: Want): EntryValue {
    if t in held && held[t].endpoint == w.endpoint then held[t].(server := w.server) else NewEntry(o, w)
  }

  function Synced(o: Settings, held: map<Target, EntryValue>, servers: seq<Server>): map<Target, EntryValue> {
    map t | t in Wanted(servers) :: SyncedEntry(o, held, t, Wanted(servers)[t])
  }

  // ---------------------------------------------------------------- one call

  /** When a call asks and settles, whether a dial would succeed, and whether the backend answers at all. */
  datatype Call = Call(target: Target, asked: int, dials: bool, answers: bool, settled: int)

  datatype CallResult = NoEntry | CircuitOpen(until: Option<int>) | NotConnected | Failed | Answered

  function CalledEntry(e: EntryValue, c: Call): (EntryValue, CallResult) {
    var asked := B.Allow(e.breaker, c.asked);
    if !B.Granted(e.breaker, c.asked) then
      (e.(breaker := asked), CircuitOpen(if asked.phase.Open? then Some(asked.openedAt + asked.cooldown) else None))
    else if !e.connected && !c.dials then (e.(breaker := B.Failure(asked, c.settled)), NotConnected)
    else if !c.answers then (e.(connected := true, breaker := B.Failure(asked, c.settled)), Failed)
    else (e.(connected := true, breaker := B.Success(asked)), Answered)
  }

  function Called(held: map<Target, EntryValue>, c: Call): (map<Target, EntryValue>, CallResult) {
    if c.target !in held then (held, NoEntry)
    else var (e, r) := CalledEntry(held[c.target], c); (held[c.target := e], r)
  }

  /** The breaker admits a request at this reading. */
  predicate Admits(b: B.State, at: int) {
    && (b.phase == Open ==> at >= b.openedAt + b.cooldown)
    && (b.phase == HalfOpen ==> !b.probeInFlight)
  }

  /** The call gets through to the backend: there is a session, or a dial makes one. */
  predicate Reaches(e: EntryValue, c: Call) { e.connected || c.dials }

  /**
   What a call comes to, by what the breaker, the dial and the backend do. It succeeds exactly if it is admitted, gets
   through and is answered. Every grant is settled once, by the call it was granted to, as a success or a failure
   accordingly; a refused call leaves no mark; and a session once made stays.
   */
  lemma {:induction false} CallIsBracket(e: EntryValue, c: Call)
    ensures var (after, r) := CalledEntry(e, c);
            && (r == Answered <==> Admits(e.breaker, c.asked) && Reaches(e, c) && c.answers)
            && (r == Failed <==> Admits(e.breaker, c.asked) && Reaches(e, c) && !c.answers)
            && (r == NotConnected <==> Admits(e.breaker, c.asked) && !Reaches(e, c))
            && (forall until :: r == CircuitOpen(until) <==>
                  && !Admits(e.breaker, c.asked)
                  && until == if e.breaker.phase == Open then Some(e.breaker.openedAt + e.breaker.cooldown) else None)
            && after.breaker == BracketB(e.breaker, Bracket(c.asked, Reaches(e, c) && c.answers, c.settled))
            && (!Admits(e.breaker, c.asked) ==> after == e)
            && (Admits(e.breaker, c.asked) ==> after.connected == Reaches(e, c))
            && after.endpoint == e.endpoint && after.server == e.server
  {
  }

  /** A call touches its target's entry only; without one it is told so. */
  lemma {:induction false} CallTouchesItsTarget(held: map<Target, EntryValue>, c: Call)
    ensures var (after, r) := Called(held, c);
            && after.Keys == held.Keys && (forall t :: t in held && t != c.target ==> after[t] == held[t])
            && (r == NoEntry <==> c.target !in held)
            && (c.target in held ==> (after[c.target], r) == CalledEntry(held[c.target], c))
  {
    hide CalledEntry;
    if c.target in held { assert CalledEntry(held[c.target], c).1 != NoEntry by { SomeEntry(held[c.target], c); } }
  }

  lemma {:induction false} SomeEntry(e: EntryValue, c: Call)
    ensures CalledEntry(e, c).1 != NoEntry
  {
  }

  /** The settings a pool runs with. */
  lemma {:induction false} DefaultsTell(o: Settings)
    ensures WithDefaults(o).failureThreshold == (if o.failureThreshold > 0 then o.failureThreshold else 5)
    ensures WithDefaults(o).cooldown == (if o.cooldown > 0 then o.cooldown else 30_000_000_000)
  {
  }

  // ---------------------------------------------------------------- the code's own form

  class Entry {
    const target: Target
    const endpoint: string
    const breaker: B.Breaker
    var server: Server
    var connected: bool

    ghost function Value(): EntryValue
      reads this, breaker
    {
      EntryValue(server, endpoint, connected, breaker.Value())
    }

    constructor (target: Target, s: Server, endpoint: string, o: Settings)
      ensures this.target == target && Value() == NewEntry(o, Want(s, endpoint)) && fresh(breaker)
    {
      var threshold := o.failureThreshold;
      if s.ejectAfter.Some? && s.ejectAfter.value > 0 { threshold := s.ejectAfter.value; }
      this.target, this.endpoint, server, connected := target, endpoint, s, false;
      breaker := new B.Breaker(threshold, o.cooldown);
    }

    method Close()
      modifies this`connected
      ensures !connected
    {
      connected := false;
    }

    /** Asks the breaker, dials if there is no session, calls, and settles what was granted. */
    method Dispatch(c: Call) returns (r: CallResult)
      modifies this`connected, breaker
      ensures (Value(), r) == CalledEntry(old(Value()), c)
    {
      var ok := breaker.TryAllow(c.asked);
      if !ok {
        var until := breaker.OpenUntil();
        return CircuitOpen(until);
      }
      if !connected {
        if !c.dials {
          breaker.RecordFailure(c.settled);
          return NotConnected;
        }
        connected := true;
      }
      if !c.answers {
        breaker.RecordFailure(c.settled);
        return Failed;
      }
      breaker.RecordSuccess();
      return Answered;
    }
  }

  class BackendPool {
    const opts: Settings
    var entries: map<Target, Entry>

    /** Distinct targets share no entry and no breaker. */
    ghost predicate Valid()
      reads this, entries.Values
    {
      && (forall t :: t in entries ==> entries[t].target == t)
      && (forall t, u :: t in entries && u in entries && t != u ==> entries[t].breaker != entries[u].breaker)
    }

    ghost function Breakers(): set<B.Breaker>
      reads this
    {
      set t | t in entries :: entries[t].breaker
    }

    ghost function Values(): map<Target, EntryValue>
      reads this, entries.Values, Breakers()
    {
      map t | t in entries :: entries[t].Value()
    }

    lemma {:induction false} HeldKeys()
      requires Valid()
      ensures Values().Keys == entries.Keys && forall t :: t in entries ==> entries[t].target == t
    {
    }

    constructor (o: Settings)
      ensures Valid() && opts == WithDefaults(o) && Values() == map[]
    {
      opts, entries := WithDefaults(o), map[];
    }

    method Collect(servers: seq<Server>) returns (wanted: map<Target, Want>)
      ensures wanted == Wanted(servers)
    {
      wanted := map[];
      for i := 0 to |servers|
        invariant wanted == Wanted(servers[..i])
      {
        var s := servers[i];
        ghost var outer := wanted;
        for k := 0 to |s.bindings|
          invariant wanted == WithBindings(outer, s, s.bindings[..k])
        {
          assert s.bindings[..k + 1][..k] == s.bindings[..k];
          wanted := wanted[Target(s.id, s.bindings[k].tenantId) := Want(s, s.bindings[k].primary)];
        }
        assert s.bindings[..|s.bindings|] == s.bindings;
        assert servers[..i + 1][..i] == servers[..i];
      }
      assert servers[..|servers|] == servers;
    }

    method CallTool(c: Call) returns (r: CallResult)
      requires Valid()
      modifies entries.Values, Breakers()
      ensures Valid() && (Values(), r) == Called(old(Values()), c)
    {
      if c.target !in entries { return NoEntry; }
      ghost var before := Values();
      var e := entries[c.target];
      r := e.Dispatch(c);
      assert Values() == before[c.target := e.Value()];
    }

    /** The target is gone from the snapshot. */
    method Drop(target: Target)
      requires Valid() && target in entries
      modifies `entries, entries[target]
      ensures Valid() && Values() == old(Values()) - {target} && entries == old(entries) - {target}
      ensures !old(entries)[target].connected
    {
      hide B.Breaker.Value;
      ghost var before := Values();
      entries[target].Close();
      entries := entries - {target};
      assert Values() == before - {target};
    }

    /** The target is new. */
    method Open(target: Target, w: Want)
      requires Valid() && target !in entries
      modifies `entries
      ensures Valid() && Values() == old(Values())[target := NewEntry(opts, w)]
      ensures target in entries && entries == old(entries)[target := entries[target]]
      ensures fresh(entries[target]) && fresh(entries[target].breaker)
    {
      hide B.Breaker.Value;
      ghost var before := Values();
      var e := new Entry(target, w.server, w.endpoint, opts);
      assert Values() == before;
      entries := entries[target := e];
      assert Values() == before[target := e.Value()];
    }

    /** The target stands; its server record may have changed. */
    method Keep(target: Target, w: Want)
      requires Valid() && target in entries && entries[target].endpoint == w.endpoint
      modifies entries[target]
      ensures Valid() && Values() == old(Values())[target := SyncedEntry(opts, old(Values()), target, w)]
      ensures entries[target].connected == old(entries[target].connected)
    {
      hide B.Breaker.Value, NewEntry;
      ghost var before := Values();
      entries[target].server := w.server;
      assert Values() == before[target := entries[target].Value()];
    }

    /** The target moved: a different backend as far as health is concerned. */
    method Replace(target: Target, w: Want)
      requires Valid() && target in entries && entries[target].endpoint != w.endpoint
      modifies this, entries[target]
      ensures Valid() && Values() == old(Values())[target := SyncedEntry(opts, old(Values()), target, w)]
      ensures target in entries && entries == old(entries)[target := entries[target]]
      ensures fresh(entries[target]) && fresh(entries[target].breaker) && !old(entries)[target].connected
    {
      hide B.Breaker.Value, NewEntry, Valid;
      ghost var before := Values();
      Drop(target);
      Open(target, w);
    }

    /** The first loop of Sync: what is held is closed, replaced or kept. */
    method Reconcile(wanted: map<Target, Want>)
      requires Valid()
      modifies this, entries.Values
      ensures Valid() && Values() == Midway(opts, old(Values()), wanted, {})
      ensures forall t :: t in entries <==> t in old(entries) && t in wanted
      ensures forall t :: t in entries ==>
                if old(entries)[t].endpoint == wanted[t].endpoint then entries[t] == old(entries)[t]
                else fresh(entries[t]) && fresh(entries[t].breaker)
      ensures forall t ::
                t in old(entries) && (t !in entries || entries[t] != old(entries)[t]) ==> !old(entries)[t].connected
    {
      hide NewEntry, Valid, Values, Midway, SyncedEntry, Tracks;
      ghost var all, before := entries, Values();
      var left := entries.Keys;
      ghost var born: set<object>, shut: set<Entry> := {}, {};
      HeldKeys();
      MidwayStart(opts, before, wanted);
      TrackStart(all, wanted);
      while left != {}
        invariant Valid() && left <= all.Keys && Values() == Midway(opts, before, wanted, left)
        invariant Tracks(all, entries, wanted, left, born, shut)
        invariant forall x :: x in born ==> fresh(x)
        invariant forall e :: e in shut ==> !e.connected
        decreases |left|
      {
        var target :| target in left;
        MidwayStep(opts, before, wanted, left, target);
        TrackStep(all, entries, wanted, left, born, shut, target);
        if target !in wanted {
          shut := shut + {entries[target]};
          Drop(target);
        } else if wanted[target].endpoint != entries[target].endpoint {
          ghost var was := entries;
          Replace(target, wanted[target]);
          TrackReplace(all, was, wanted, left, born, shut, target, entries[target]);
          born := born + {entries[target], entries[target].breaker};
          shut := shut + {all[target]};
        } else {
          Keep(target, wanted[target]);
        }
        left := left - {target};
      }
      TrackEnd(all, entries, wanted, born, shut);
    }

    /** The second loop of Sync: what is wanted and not held is opened. */
    method OpenMissing(wanted: map<Target, Want>)
      requires Valid() && entries.Keys <= wanted.Keys
      modifies this
      ensures Valid() && Values() == Filled(opts, old(Values()), wanted, wanted.Keys)
      ensures entries.Keys == wanted.Keys
      ensures forall t :: t in entries ==>
                if t in old(entries) then entries[t] == old(entries)[t]
                else fresh(entries[t]) && fresh(entries[t].breaker)
    {
      hide Valid, Values, Filled, NewEntry;
      ghost var before, all := Values(), entries;
      HeldKeys();
      FilledStart(opts, before, wanted);
      var left := wanted.Keys;
      while left != {}
        invariant Valid() && left <= wanted.Keys && Values() == Filled(opts, before, wanted, wanted.Keys - left)
        invariant forall t :: t in entries <==> t in wanted && (t in all || t !in left)
        invariant forall t ::
                    t in entries ==>
                      if t in all then entries[t] == all[t] else fresh(entries[t]) && fresh(entries[t].breaker)
        decreases |left|
      {
        var target :| target in left;
        ghost var done := wanted.Keys - left;
        FilledStep(opts, before, wanted, done, target);
        if target !in entries { Open(target, wanted[target]); }
        left := left - {target};
        assert wanted.Keys - left == done + {target};
      }
      assert wanted.Keys - left == wanted.Keys;
    }

    /**
     Reconciles the pool with a snapshot. Entries whose endpoint stands are the same objects, session and breaker
     included; every other entry is new; and whatever was dropped or replaced is closed.
     */
    method Sync(servers: seq<Server>)
      requires Valid()
      modifies this, entries.Values
      ensures Valid() && Values() == Synced(opts, old(Values()), servers) && entries.Keys == Wanted(servers).Keys
      ensures forall t :: t in entries ==>
                if t in old(entries) && old(entries)[t].endpoint == Wanted(servers)[t].endpoint
                then entries[t] == old(entries)[t]
                else fresh(entries[t]) && fresh(entries[t].breaker)
      ensures forall t ::
                t in old(entries) && (t !in entries || entries[t] != old(entries)[t]) ==> !old(entries)[t].connected
    {
      hide Wanted, NewEntry, Midway, Filled, Synced, Entry.Value;
      ghost var before := Values();
      var wanted := Collect(servers);
      assert Values() == before;
      Reconcile(wanted);
      OpenMissing(wanted);
      FilledMidway(opts, before, servers);
    }
  }

  /** Every target of `done` that is wanted and was not held is new. */
  function Filled(o: Settings, before: map<Target, EntryValue>, wanted: map<Target, Want>,
                  done: set<Target>): map<Target, EntryValue> {
    map t | t in wanted && (t in before || t in done) :: if t in before then before[t] else NewEntry(o, wanted[t])
  }

  lemma {:induction false} FilledStart(o: Settings, before: map<Target, EntryValue>, wanted: map<Target, Want>)
    requires before.Keys <= wanted.Keys
    ensures Filled(o, before, wanted, {}) == before && wanted.Keys - wanted.Keys == {}
  {
  }

  lemma {:induction false} FilledStep(o: Settings, before: map<Target, EntryValue>, wanted: map<Target, Want>,
                                      done: set<Target>, t: Target)
    requires t in wanted
    ensures Filled(o, before, wanted, done + {t})
         == if t in before then Filled(o, before, wanted, done)
           else Filled(o, before, wanted, done)[t := NewEntry(o, wanted[t])]
  {
    hide NewEntry;
  }

  lemma {:induction false} FilledMidway(o: Settings, before: map<Target, EntryValue>, servers: seq<Server>)
    ensures Filled(o, Midway(o, before, Wanted(servers), {}), Wanted(servers), Wanted(servers).Keys)
            == Synced(o, before, servers)
  {
    hide Wanted, NewEntry;
  }

  /** Which entries the loop has kept, which are new (`born`), and which it has closed (`shut`). */
  ghost predicate Tracks(all: map<Target, Entry>, now: map<Target, Entry>, wanted: map<Target, Want>, left: set<Target>,
                         born: set<object>, shut: set<Entry>)
  {
    && (forall t :: t in now <==> t in all && (t in left || t in wanted))
    && (forall t :: t in now ==> if t in left || all[t].endpoint == wanted[t].endpoint then now[t] == all[t]
                                 else now[t] in born && now[t].breaker in born)
    && (forall t :: t in all && (t !in now || now[t] != all[t]) ==> all[t] in shut)
  }

  lemma {:induction false} TrackStart(all: map<Target, Entry>, wanted: map<Target, Want>)
    ensures Tracks(all, all, wanted, all.Keys, {}, {})
  {
  }

  lemma {:induction false} TrackStep(all: map<Target, Entry>, now: map<Target, Entry>, wanted: map<Target, Want>,
                                     left: set<Target>, born: set<object>, shut: set<Entry>, t: Target)
    requires Tracks(all, now, wanted, left, born, shut) && t in left && left <= all.Keys
    ensures t in now && now[t] == all[t]
    ensures t !in wanted ==> Tracks(all, now - {t}, wanted, left - {t}, born, shut + {all[t]})
    ensures t in wanted && wanted[t].endpoint == all[t].endpoint ==> Tracks(all, now, wanted, left - {t}, born, shut)
  {
  }

  lemma {:induction false} TrackReplace(all: map<Target, Entry>, now: map<Target, Entry>, wanted: map<Target, Want>,
                                        left: set<Target>, born: set<object>, shut: set<Entry>, t: Target, e: Entry)
    requires Tracks(all, now, wanted, left, born, shut) && t in left && left <= all.Keys
    requires t in wanted && wanted[t].endpoint != all[t].endpoint
    ensures Tracks(all, now[t := e], wanted, left - {t}, born + {e, e.breaker}, shut + {all[t]})
  {
  }

  lemma {:induction false} TrackEnd(all: map<Target, Entry>, now: map<Target, Entry>, wanted: map<Target, Want>,
                                    born: set<object>, shut: set<Entry>)
    requires Tracks(all, now, wanted, {}, born, shut)
    ensures forall t :: t in now <==> t in all && t in wanted
    ensures forall t ::
              t in now ==> if all[t].endpoint == wanted[t].endpoint then now[t] == all[t]
                else now[t] in born && now[t].breaker in born
    ensures forall t :: t in all && (t !in now || now[t] != all[t]) ==> all[t] in shut
  {
  }

  /** Part of the way through the held entries: those in `left` are still to come. */
  function Midway(o: Settings, before: map<Target, EntryValue>, wanted: map<Target, Want>,
                  left: set<Target>): map<Target, EntryValue> {
    map t | t in before && (t in left || t in wanted) ::
      if t in left then before[t] else SyncedEntry(o, before, t, wanted[t])
  }

  lemma {:induction false} MidwayStart(o: Settings, before: map<Target, EntryValue>, wanted: map<Target, Want>)
    ensures Midway(o, before, wanted, before.Keys) == before
  {
  }

  lemma {:induction false} MidwayStep(o: Settings, before: map<Target, EntryValue>, wanted: map<Target, Want>,
                                      left: set<Target>, t: Target)
    requires t in left && t in before
    ensures var now, next := Midway(o, before, wanted, left), Midway(o, before, wanted, left - {t});
            next == if t in wanted then now[t := SyncedEntry(o, now, t, wanted[t])] else now - {t}
  {
    hide NewEntry;
  }
}
