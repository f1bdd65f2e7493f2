/**
 The pool over whole histories. A call is three steps, each under one lock: it finds its entry, asks the entry's
 breaker, and, if let through, settles when the backend comes back. Publishes and other calls land anywhere between
 them; an entry that a publish replaces lives on for the calls that hold it.
 */
module PoolHistory {
  import opened Options
  import opened Circuits
  import opened Targets
  import opened BreakerRuns
  import opened Pool
  import opened PoolRuns
  import B = BackendBreakers

  /** One entry object: its target and the publish that made it. */
  datatype Slot = Slot(target: Target, born: nat)

  datatype Stage = Found(slot: Slot) | Granted(slot: Slot) | Over

  /** `entries` are the current ones; `heap` holds every entry ever made. */
  datatype Gateway = Gateway(entries: map<Target, nat>, heap: map<Slot, EntryValue>, publishes: nat,
                             calls: map<nat, Stage>)

  const START := Gateway(map[], map[], 0, map[])

  datatype Happening =
    | Publish(servers: seq<Server>)
    | Find(call: nat, target: Target)
    | Asks(call: nat, at: int)
    | Settled(call: nat, ok: bool, at: int)

  /** The entry a step works on: the one its call found, if the step is this call's next. */
  function SlotOf(g: Gateway, h: Happening): Option<Slot> {
    match h
    case Asks(call, _) =>
      if call in g.calls && g.calls[call].Found? && g.calls[call].slot in g.heap then Some(g.calls[call].slot) else None
    case Settled(call, _, _) =>
      if call in g.calls && g.calls[call].Granted? && g.calls[call].slot in g.heap then Some(g.calls[call].slot)
      else None
    case _ => None
  }

  function Held(g: Gateway): map<Target, EntryValue> {
    map t | t in g.entries && Slot(t, g.entries[t]) in g.heap :: g.heap[Slot(t, g.entries[t])]
  }

  /** A standing endpoint keeps its entry; every other wanted target gets a new one. */
  function Renewed(g: Gateway, wanted: map<Target, Want>): map<Target, nat> {
    map t | t in wanted ::
      if t in Held(g) && Held(g)[t].endpoint == wanted[t].endpoint then g.entries[t] else g.publishes
  }

  function Slots(entries: map<Target, nat>): set<Slot> { set t | t in entries :: Slot(t, entries[t]) }

  function Published(o: Settings, g: Gateway, servers: seq<Server>): Gateway {
    var entries, values := Renewed(g, Wanted(servers)), Synced(o, Held(g), servers);
    Gateway(entries, g.heap + map s | s in Slots(entries) :: values[s.target], g.publishes + 1, g.calls)
  }

  function Touch(e: EntryValue, event: Event): EntryValue { e.(breaker := StepB(e.breaker, event)) }

  /** What a step on an entry is to its breaker. */
  function EventOf(h: Happening): Event
    requires h.Asks? || h.Settled?
  {
    match h case Asks(_, at) => Ask(at) case Settled(_, ok, at) => if ok then Succeed else Fail(at)
  }

  /** A step that is not its call's next does nothing. */
  function Next(o: Settings, g: Gateway, h: Happening): Gateway {
    match h
    case Publish(servers) => Published(o, g, servers)
    case Find(call, target) =>
      if call in g.calls then g
      else g.(calls := g.calls[call := if target in g.entries then Found(Slot(target, g.entries[target])) else Over])
    case Asks(call, at) =>
      (match SlotOf(g, h)
       case None => g
       case Some(s) =>
         g.(heap := g.heap[s := Touch(g.heap[s], Ask(at))],
            calls := g.calls[call := if B.Granted(g.heap[s].breaker, at) then Granted(s) else Over]))
    case Settled(call, ok, at) =>
      match SlotOf(g, h)
      case None => g
      case Some(s) =>
        g.(heap := g.heap[s := Touch(g.heap[s], if ok then Succeed else Fail(at))], calls := g.calls[call := Over])
  }

  function After(o: Settings, hs: seq<Happening>): Gateway {
    if hs == [] then START else Next(o, After(o, hs[..|hs| - 1]), hs[|hs| - 1])
  }

  // ---------------------------------------------------------------- what every history keeps

  /** Current entries and held ones exist, and no entry comes from a publish that has not happened. */
  ghost predicate Well(g: Gateway) {
    && (forall t :: t in g.entries ==> Slot(t, g.entries[t]) in g.heap)
    && (forall s :: s in g.heap ==> s.born < g.publishes)
    && (forall c :: c in g.calls && !g.calls[c].Over? ==> g.calls[c].slot in g.heap)
  }

  /** A publish keeps every entry's breaker; a new entry has a new one. */
  lemma {:induction false} PublishedEntry(o: Settings, g: Gateway, servers: seq<Server>, s: Slot)
    requires Well(g)
    ensures var next := Published(o, g, servers);
            && (s in g.heap ==> s in next.heap && next.heap[s].breaker == g.heap[s].breaker)
            && (s in next.heap && s !in g.heap ==>
                  s.born == g.publishes && exists threshold :: next.heap[s].breaker == B.New(threshold, o.cooldown))
  {
    hide Wanted, Threshold;
    var wanted, next := Wanted(servers), Published(o, g, servers);
    assert s in g.heap ==> s in next.heap;
    assert s in next.heap && s !in g.heap ==> next.heap[s] == NewEntry(o, wanted[s.target]);
  }

  lemma {:induction false} PublishKeepsWell(o: Settings, g: Gateway, servers: seq<Server>)
    requires Well(g)
    ensures Well(Published(o, g, servers))
    ensures forall s ::
              s in g.heap ==>
                s in Published(o, g, servers).heap && Published(o, g, servers).heap[s].breaker == g.heap[s].breaker
    ensures forall s :: s in Published(o, g, servers).heap && s !in g.heap ==>
              exists threshold :: Published(o, g, servers).heap[s].breaker == B.New(threshold, o.cooldown)
  {
    hide Published, B.New;
    var next := Published(o, g, servers);
    forall s
      ensures s in g.heap ==> s in next.heap && next.heap[s].breaker == g.heap[s].breaker
      ensures s in next.heap && s !in g.heap ==>
                s.born == g.publishes && exists threshold :: next.heap[s].breaker == B.New(threshold, o.cooldown)
    {
      PublishedEntry(o, g, servers, s);
    }
    EntriesExist(o, g, servers);
  }

  lemma {:induction false} EntriesExist(o: Settings, g: Gateway, servers: seq<Server>)
    ensures var next := Published(o, g, servers);
            && (forall t :: t in next.entries ==> Slot(t, next.entries[t]) in next.heap)
            && next.publishes == g.publishes + 1 && next.calls == g.calls
  {
    hide Wanted, Threshold, Held;
  }

  lemma {:induction false} StepKeepsWell(o: Settings, g: Gateway, h: Happening)
    requires Well(g)
    ensures Well(Next(o, g, h))
  {
    hide Published, Touch, B.Granted;
    if h.Publish? { PublishKeepsWell(o, g, h.servers); }
  }

  lemma {:induction false} StaysWell(o: Settings, hs: seq<Happening>)
    ensures Well(After(o, hs))
  {
    hide Next;
    if hs != [] {
      StaysWell(o, hs[..|hs| - 1]);
      StepKeepsWell(o, After(o, hs[..|hs| - 1]), hs[|hs| - 1]);
    }
  }

  // ---------------------------------------------------------------- one entry's breaker

  /** The events of entry `s`, in order. */
  function EventsOn(o: Settings, hs: seq<Happening>, s: Slot): seq<Event> {
    if hs == [] then []
    else
      var front, h := hs[..|hs| - 1], hs[|hs| - 1];
      EventsOn(o, front, s) + if SlotOf(After(o, front), h) == Some(s) then [EventOf(h)] else []
  }

  /** The breaker the entry began with: its threshold and cooldown never change. */
  function Fresh(e: EntryValue): B.State { B.New(e.breaker.threshold, e.breaker.cooldown) }

  lemma {:induction false} NewIsNew(threshold: int, cooldown: int)
    ensures var b := B.New(threshold, cooldown); B.New(b.threshold, b.cooldown) == b && B.Sound(b)
  {
  }

  lemma {:induction false} RunSnoc(b: B.State, es: seq<Event>, e: Event)
    ensures RunB(b, es + [e]) == StepB(RunB(b, es), e)
  {
    assert (es + [e])[..|es|] == es;
  }

  /**
   Every entry's breaker, current or replaced, is exactly the run of the steps its own calls took, from new: no publish
   and no other call shows in it. An entry that does not exist yet has had none.
   */
  lemma {:induction false} BreakerIsItsCalls(o: Settings, hs: seq<Happening>, s: Slot)
    ensures var heap := After(o, hs).heap;
            if s in heap then heap[s].breaker == RunB(Fresh(heap[s]), EventsOn(o, hs, s))
              && heap[s].breaker.threshold >= 1
            else EventsOn(o, hs, s) == []
  {
    hide Next, StepB, SlotOf;
    if hs != [] {
      var front, h := hs[..|hs| - 1], hs[|hs| - 1];
      var g, es := After(o, front), EventsOn(o, front, s);
      BreakerIsItsCalls(o, front, s);
      StaysWell(o, front);
      EntryStep(o, g, h, s);
      assert es + [] == es;
      if SlotOf(g, h) == Some(s) {
        NewIsNew(g.heap[s].breaker.threshold, g.heap[s].breaker.cooldown);
        SoundB(Fresh(g.heap[s]), es);
        StepKeeps(g.heap[s].breaker, EventOf(h));
        RunSnoc(Fresh(g.heap[s]), es, EventOf(h));
      }
    }
  }

  /** One step: an entry's breaker takes the steps on that entry, and a new entry's is new. */
  lemma {:induction false} EntryStep(o: Settings, g: Gateway, h: Happening, s: Slot)
    requires Well(g)
    ensures var next := Next(o, g, h);
            && (SlotOf(g, h) == Some(s) ==> (h.Asks? || h.Settled?) && s in g.heap)
            && (s in g.heap ==> s in next.heap)
            && (s in g.heap && SlotOf(g, h) == Some(s) ==> next.heap[s].breaker == StepB(g.heap[s].breaker, EventOf(h)))
            && (s in g.heap && SlotOf(g, h) != Some(s) ==> next.heap[s].breaker == g.heap[s].breaker)
            && (s in next.heap && s !in g.heap ==>
                  next.heap[s].breaker == Fresh(next.heap[s]) && next.heap[s].breaker.threshold >= 1)
  {
    hide Published, StepB, B.Granted;
    if h.Publish? {
      PublishKeepsWell(o, g, h.servers);
      var next := Published(o, g, h.servers);
      if s in next.heap && s !in g.heap {
        var threshold :| next.heap[s].breaker == B.New(threshold, o.cooldown);
        NewIsNew(threshold, o.cooldown);
      }
    }
  }

  lemma {:induction false} StepKeeps(b: B.State, e: Event)
    ensures StepB(b, e).threshold == b.threshold && StepB(b, e).cooldown == b.cooldown
  {
  }

  /** Every publish wants `t` at endpoint `e`. */
  predicate Stands(hs: seq<Happening>, t: Target, e: string) {
    forall i :: 0 <= i < |hs| && hs[i].Publish? ==> t in Wanted(hs[i].servers) && Wanted(hs[i].servers)[t].endpoint == e
  }

  lemma {:induction false} StandingStep(o: Settings, g: Gateway, h: Happening, t: Target, e: string)
    requires Well(g) && t in g.entries && g.heap[Slot(t, g.entries[t])].endpoint == e && Stands([h], t, e)
    ensures var next := Next(o, g, h);
            t in next.entries && next.entries[t] == g.entries[t] && Slot(t, g.entries[t]) in next.heap
            && next.heap[Slot(t, g.entries[t])].endpoint == e
  {
    hide Wanted, Threshold;
    var s := Slot(t, g.entries[t]);
    if h.Publish? {
      assert [h][0].Publish?;
      assert t in Held(g) && Held(g)[t] == g.heap[s];
      var entries := Renewed(g, Wanted(h.servers));
      assert entries[t] == g.entries[t] && s in Slots(entries);
    }
  }

  /**
   An unrelated publish never resets a breaker: while every publish wants a target where it is, the target keeps its
   entry, whatever publishes and calls come in whatever order, calls in flight included.
   */
  lemma {:induction false} PublishesAreInvisible(o: Settings, hs: seq<Happening>, more: seq<Happening>, t: Target)
    requires t in After(o, hs).entries && Slot(t, After(o, hs).entries[t]) in After(o, hs).heap
    requires Stands(more, t, After(o, hs).heap[Slot(t, After(o, hs).entries[t])].endpoint)
    ensures var s, now := Slot(t, After(o, hs).entries[t]), After(o, hs + more);
            && t in now.entries && Slot(t, now.entries[t]) == s && s in now.heap
            && now.heap[s].endpoint == After(o, hs).heap[s].endpoint
            && now.heap[s].breaker == RunB(Fresh(now.heap[s]), EventsOn(o, hs + more, s))
    decreases |more|
  {
    hide Next, RunB, EventsOn;
    var s, e := Slot(t, After(o, hs).entries[t]), After(o, hs).heap[Slot(t, After(o, hs).entries[t])].endpoint;
    BreakerIsItsCalls(o, hs + more, s);
    if more == [] {
      assert hs + more == hs;
    } else {
      var front, h := more[..|more| - 1], more[|more| - 1];
      assert forall i :: 0 <= i < |front| ==> front[i] == more[i];
      assert Stands(front, t, e) && Stands([h], t, e);
      PublishesAreInvisible(o, hs, front, t);
      assert (hs + more)[..|hs + more| - 1] == hs + front && (hs + more)[|hs + more| - 1] == h;
      StaysWell(o, hs + front);
      StandingStep(o, After(o, hs + front), h, t, e);
    }
  }

  // ---------------------------------------------------------------- whose outcome

  /** Where on entry `s` call `c` was let through. */
  function GrantOf(o: Settings, hs: seq<Happening>, s: Slot, c: nat): int {
    if hs == [] then -1
    else
      var front, h := hs[..|hs| - 1], hs[|hs| - 1];
      var g := After(o, front);
      if h.Asks? && h.call == c && SlotOf(g, h) == Some(s) && B.Granted(g.heap[s].breaker, h.at)
      then |EventsOn(o, front, s)|
      else GrantOf(o, front, s, c)
  }

  /** For every event of entry `s`, the grant of the call it settles. */
  function Owners(o: Settings, hs: seq<Happening>, s: Slot): seq<int> {
    if hs == [] then []
    else
      var front, h := hs[..|hs| - 1], hs[|hs| - 1];
      Owners(o, front, s)
      + if SlotOf(After(o, front), h) == Some(s) then [if h.Settled? then GrantOf(o, front, s, h.call) else -1] else []
  }

  lemma {:induction false} GrantSnoc(b: B.State, es: seq<Event>, e: Event, i: int)
    requires 0 <= i < |es|
    ensures GrantB(b, es + [e], i) <==> GrantB(b, es, i)
  {
    assert (es + [e])[..i] == es[..i];
  }

  /** The entries that exist stay, and start from the same breaker. */
  lemma {:induction false} EntriesStay(o: Settings, g: Gateway, h: Happening, s: Slot)
    requires Well(g)
    ensures s in g.heap ==> s in Next(o, g, h).heap && Fresh(Next(o, g, h).heap[s]) == Fresh(g.heap[s])
    ensures s in Next(o, g, h).heap && s !in g.heap ==> h.Publish?
  {
    hide Published, StepB;
    if h.Publish? {
      PublishKeepsWell(o, g, h.servers);
    } else if s in g.heap && SlotOf(g, h) == Some(s) {
      StepKeeps(g.heap[s].breaker, EventOf(h));
    }
  }

  /** Step `h` lets call `c` through on entry `s`. */
  predicate LetsThrough(g: Gateway, h: Happening, s: Slot, c: nat) {
    h.Asks? && h.call == c && SlotOf(g, h) == Some(s) && s in g.heap && B.Granted(g.heap[s].breaker, h.at)
  }

  /** A call is under way once let through, and until it settles. */
  lemma {:induction false} UnderWay(o: Settings, g: Gateway, h: Happening, s: Slot, c: nat)
    requires Well(g)
    ensures var next := Next(o, g, h);
            (c in next.calls && next.calls[c] == Granted(s)) <==>
              LetsThrough(g, h, s, c) || (c in g.calls && g.calls[c] == Granted(s) && !(h.Settled? && h.call == c))
    ensures c in g.calls ==> c in Next(o, g, h).calls
    ensures c in g.calls && g.calls[c].Over? ==> Next(o, g, h).calls[c].Over?
    ensures c in g.calls && g.calls[c] == Granted(s) ==> Next(o, g, h).calls[c] in {Granted(s), Over}
  {
    hide Published, StepB;
    assert h.Publish? ==> Next(o, g, h).calls == g.calls by { PublishedCalls(o, g, h); }
  }

  lemma {:induction false} PublishedCalls(o: Settings, g: Gateway, h: Happening)
    ensures h.Publish? ==> Next(o, g, h).calls == g.calls
  {
  }

  lemma {:induction false} NoGrantBefore(o: Settings, hs: seq<Happening>, s: Slot, c: nat)
    requires s !in After(o, hs).heap
    ensures GrantOf(o, hs, s, c) < 0
  {
    hide Next;
    if hs != [] {
      var front, h := hs[..|hs| - 1], hs[|hs| - 1];
      StaysWell(o, front);
      EntriesStay(o, After(o, front), h, s);
      NoGrantBefore(o, front, s, c);
    }
  }

  /** A call that is under way was let through at its grant. */
  lemma {:induction false} GrantedAtItsGrant(o: Settings, hs: seq<Happening>, s: Slot, c: nat)
    requires s in After(o, hs).heap
    ensures GrantOf(o, hs, s, c) < |EventsOn(o, hs, s)|
    ensures GrantOf(o, hs, s, c) >= 0 ==> GrantB(Fresh(After(o, hs).heap[s]), EventsOn(o, hs, s), GrantOf(o, hs, s, c))
    ensures c in After(o, hs).calls && After(o, hs).calls[c] == Granted(s) ==> GrantOf(o, hs, s, c) >= 0
  {
    hide Next, RunB, GrantB, Well;
    if hs != [] {
      var front, h := hs[..|hs| - 1], hs[|hs| - 1];
      var g, es := After(o, front), EventsOn(o, front, s);
      StaysWell(o, front);
      EntriesStay(o, g, h, s);
      UnderWay(o, g, h, s, c);
      BreakerIsItsCalls(o, front, s);
      assert es + [] == es;
      if s in g.heap {
        GrantedAtItsGrant(o, front, s, c);
        if SlotOf(g, h) == Some(s) {
          if GrantOf(o, front, s, c) >= 0 { GrantSnoc(Fresh(g.heap[s]), es, EventOf(h), GrantOf(o, front, s, c)); }
          if LetsThrough(g, h, s, c) { GrantLast(Fresh(g.heap[s]), es, h.at); }
        }
      } else {
        NoGrantBefore(o, front, s, c);
        NotUnderWay(g, s, c);
      }
    }
  }

  lemma {:induction false} GrantLast(b: B.State, es: seq<Event>, at: int)
    requires B.Granted(RunB(b, es), at)
    ensures GrantB(b, es + [Ask(at)], |es|)
  {
    assert (es + [Ask(at)])[..|es|] == es;
  }

  lemma {:induction false} NotUnderWay(g: Gateway, s: Slot, c: nat)
    requires Well(g) && s !in g.heap
    ensures !(c in g.calls && g.calls[c] == Granted(s))
  {
  }

  /** Each outcome belongs to a call that was let through before: what CallTool's bracket amounts to. */
  lemma {:induction false} OutcomesAreOwned(o: Settings, hs: seq<Happening>, s: Slot)
    requires s in After(o, hs).heap
    ensures Settles(Fresh(After(o, hs).heap[s]), EventsOn(o, hs, s), Owners(o, hs, s))
  {
    hide Next, GrantB, RunB;
    if hs != [] {
      var front, h := hs[..|hs| - 1], hs[|hs| - 1];
      var g, es, owners := After(o, front), EventsOn(o, front, s), Owners(o, front, s);
      StaysWell(o, front);
      EntriesStay(o, g, h, s);
      BreakerIsItsCalls(o, front, s);
      assert es + [] == es && owners + [] == owners;
      if s in g.heap {
        OutcomesAreOwned(o, front, s);
        if SlotOf(g, h) == Some(s) {
          if h.Settled? { GrantedAtItsGrant(o, front, s, h.call); }
          SettlesSnoc(Fresh(g.heap[s]), es, owners, EventOf(h),
                      if h.Settled? then GrantOf(o, front, s, h.call) else -1);
        }
      } else {
        NoOwnersBefore(o, front, s);
      }
    }
  }

  lemma {:induction false} NoOwnersBefore(o: Settings, hs: seq<Happening>, s: Slot)
    requires s !in After(o, hs).heap
    ensures Owners(o, hs, s) == []
  {
    hide Next;
    if hs != [] {
      StaysWell(o, hs[..|hs| - 1]);
      EntriesStay(o, After(o, hs[..|hs| - 1]), hs[|hs| - 1], s);
      NoOwnersBefore(o, hs[..|hs| - 1], s);
    }
  }

  lemma {:induction false} SettlesSnoc(b: B.State, es: seq<Event>, owner: seq<int>, e: Event, mine: int)
    requires Settles(b, es, owner) && (!e.Ask? ==> 0 <= mine < |es| && GrantB(b, es, mine))
    ensures Settles(b, es + [e], owner + [mine])
  {
    hide GrantB;
    forall k | 0 <= k < |es + [e]| && !(es + [e])[k].Ask?
      ensures 0 <= (owner + [mine])[k] < k && GrantB(b, es + [e], (owner + [mine])[k])
    {
      GrantSnoc(b, es, e, (owner + [mine])[k]);
    }
  }

  // ---------------------------------------------------------------- the cooldown over a whole history

  lemma {:induction false} EventsGrow(o: Settings, hs: seq<Happening>, s: Slot, n: nat)
    requires n <= |hs|
    ensures EventsOn(o, hs[..n], s) <= EventsOn(o, hs, s)
    decreases |hs|
  {
    hide After, SlotOf;
    if n < |hs| {
      EventsGrow(o, hs[..|hs| - 1], s, n);
      assert hs[..|hs| - 1][..n] == hs[..n];
    } else {
      assert hs[..n] == hs;
    }
  }

  lemma {:induction false} HeapGrows(o: Settings, hs: seq<Happening>, s: Slot, n: nat)
    requires n <= |hs| && s in After(o, hs[..n]).heap
    ensures s in After(o, hs).heap && Fresh(After(o, hs).heap[s]) == Fresh(After(o, hs[..n]).heap[s])
    decreases |hs|
  {
    hide Next, Fresh;
    if n < |hs| {
      var front := hs[..|hs| - 1];
      assert front[..n] == hs[..n];
      HeapGrows(o, front, s, n);
      StaysWell(o, front);
      EntriesStay(o, After(o, front), hs[|hs| - 1], s);
    } else {
      assert hs[..n] == hs;
    }
  }

  /** The step behind event `k` of an entry. */
  lemma {:induction false} MomentOf(o: Settings, hs: seq<Happening>, s: Slot, k: nat) returns (x: nat)
    requires k < |EventsOn(o, hs, s)|
    ensures x < |hs| && SlotOf(After(o, hs[..x]), hs[x]) == Some(s) && |EventsOn(o, hs[..x], s)| == k
    ensures EventsOn(o, hs, s)[k] == EventOf(hs[x]) && |Owners(o, hs, s)| == |EventsOn(o, hs, s)|
    ensures hs[x].Settled? ==> Owners(o, hs, s)[k] == GrantOf(o, hs[..x], s, hs[x].call)
  {
    hide After, SlotOf;
    var front, h := hs[..|hs| - 1], hs[|hs| - 1];
    OwnersCount(o, front, s);
    if k == |EventsOn(o, front, s)| {
      x := |hs| - 1;
    } else {
      x := MomentOf(o, front, s, k);
      assert front[..x] == hs[..x];
    }
  }

  lemma {:induction false} OwnersCount(o: Settings, hs: seq<Happening>, s: Slot)
    ensures |Owners(o, hs, s)| == |EventsOn(o, hs, s)|
  {
    hide After, SlotOf, GrantOf;
    if hs != [] { OwnersCount(o, hs[..|hs| - 1], s); }
  }

  /** A later step has no fewer events before it. */
  lemma {:induction false} Later(o: Settings, hs: seq<Happening>, s: Slot, x: nat, y: nat)
    requires x <= y <= |hs|
    ensures |EventsOn(o, hs[..x], s)| <= |EventsOn(o, hs[..y], s)|
    ensures x < y && SlotOf(After(o, hs[..x]), hs[x]) == Some(s) ==>
              |EventsOn(o, hs[..x], s)| < |EventsOn(o, hs[..y], s)|
  {
    hide After, SlotOf;
    EventsGrow(o, hs[..y], s, x);
    assert hs[..y][..x] == hs[..x];
    if x < y {
      EventsGrow(o, hs[..y], s, x + 1);
      assert hs[..y][..x + 1] == hs[..x + 1] && hs[..x + 1][..x] == hs[..x];
    }
  }

  predicate Timed(h: Happening) { h.Asks? || h.Settled? }

  /** The readings of one clock. */
  ghost predicate OnOneClock(hs: seq<Happening>) {
    forall i, j :: 0 <= i < j < |hs| && Timed(hs[i]) && Timed(hs[j]) ==> hs[i].at <= hs[j].at
  }

  lemma {:induction false} EventsInOrder(o: Settings, hs: seq<Happening>, s: Slot)
    requires OnOneClock(hs)
    ensures InOrder(EventsOn(o, hs, s))
  {
    hide After, EventsOn;
    var es := EventsOn(o, hs, s);
    forall i, j | 0 <= i < j < |es| && !es[i].Succeed? && !es[j].Succeed? ensures es[i].at <= es[j].at {
      var x := MomentOf(o, hs, s, i);
      var y := MomentOf(o, hs, s, j);
      if y <= x { Later(o, hs, s, y, x); }
      assert Timed(hs[x]) && Timed(hs[y]);
    }
  }

  /** A call under way whose grant lies before step `n` was under way at step `n`. */
  lemma {:induction false} UnderWayBefore(o: Settings, hs: seq<Happening>, s: Slot, c: nat, n: nat)
    requires n <= |hs| && c in After(o, hs).calls && After(o, hs).calls[c] == Granted(s)
    requires GrantOf(o, hs, s, c) < |EventsOn(o, hs[..n], s)|
    ensures c in After(o, hs[..n]).calls && After(o, hs[..n]).calls[c] == Granted(s)
    decreases |hs|
  {
    hide Next, EventsOn, SlotOf;
    if n < |hs| {
      var front, h := hs[..|hs| - 1], hs[|hs| - 1];
      assert front[..n] == hs[..n] && front[..|front|] == front == hs[..|hs| - 1];
      StaysWell(o, front);
      UnderWay(o, After(o, front), h, s, c);
      Later(o, hs, s, n, |front|);
      UnderWayBefore(o, front, s, c, n);
    } else {
      assert hs[..n] == hs;
    }
  }

  /**
   Over any history of publishes and overlapping calls, no call is dispatched to an entry while its breaker cools down,
   unless a call that was under way when the breaker stood open comes back successful first.
   */
  lemma {:induction false} CooldownHolds(o: Settings, hs: seq<Happening>, s: Slot, n: nat, m: nat)
    requires OnOneClock(hs) && n <= m < |hs| && s in After(o, hs[..n]).heap
    requires hs[m].Asks? && LetsThrough(After(o, hs[..m]), hs[m], s, hs[m].call)
    requires !After(o, hs[..n]).heap[s].breaker.phase.Closed?
    ensures var b := After(o, hs[..n]).heap[s].breaker;
            || hs[m].at - b.openedAt >= b.cooldown
            || exists k :: n <= k < m && hs[k].Settled? && hs[k].ok && hs[k].call in After(o, hs[..n]).calls
                           && After(o, hs[..n]).calls[hs[k].call] == Granted(s)
  {
    hide Next, RunB, GrantOf, Owners, StepB;
    var es, i, j := EventsOn(o, hs, s), |EventsOn(o, hs[..n], s)|, |EventsOn(o, hs[..m], s)|;
    var now := After(o, hs[..n]).heap[s].breaker;
    HeapGrows(o, hs, s, n);
    var b := Fresh(After(o, hs).heap[s]);
    At(o, hs, s, n);
    Later(o, hs, s, n, m);
    assert hs[..m][..n] == hs[..n];
    HeapGrows(o, hs[..m], s, n);
    At(o, hs, s, m);
    GrantAt(o, hs, s, m);
    OutcomesAreOwned(o, hs, s);
    EventsInOrder(o, hs, s);
    CooldownStays(o, hs[..n], s);
    NoDispatchInCooldown(now.threshold, now.cooldown, es, Owners(o, hs, s), i, j);
    if hs[m].at - now.openedAt < now.cooldown {
      var k :| i <= k < j && es[k].Succeed? && Owners(o, hs, s)[k] < i;
      var x := MomentOf(o, hs, s, k);
      if x < n { Later(o, hs, s, x, n); }
      if m <= x { Later(o, hs, s, m, x); }
      assert hs[..x][..n] == hs[..n];
      UnderWayBefore(o, hs[..x], s, hs[x].call, n);
    }
  }

  /** The entry's breaker at step `n` is the run of its events so far. */
  lemma {:induction false} At(o: Settings, hs: seq<Happening>, s: Slot, n: nat)
    requires n <= |hs| && s in After(o, hs[..n]).heap
    ensures var i, es := |EventsOn(o, hs[..n], s)|, EventsOn(o, hs, s);
            i <= |es| && s in After(o, hs).heap
            && RunB(Fresh(After(o, hs).heap[s]), es[..i]) == After(o, hs[..n]).heap[s].breaker
  {
    hide Next, RunB, EventsOn, Fresh;
    HeapGrows(o, hs, s, n);
    EventsGrow(o, hs, s, n);
    BreakerIsItsCalls(o, hs[..n], s);
    assert EventsOn(o, hs, s)[..|EventsOn(o, hs[..n], s)|] == EventsOn(o, hs[..n], s);
  }

  lemma {:induction false} GrantAt(o: Settings, hs: seq<Happening>, s: Slot, m: nat)
    requires m < |hs| && hs[m].Asks? && LetsThrough(After(o, hs[..m]), hs[m], s, hs[m].call)
    ensures s in After(o, hs).heap
    ensures var j, es := |EventsOn(o, hs[..m], s)|, EventsOn(o, hs, s);
            GrantB(Fresh(After(o, hs).heap[s]), es, j) && es[j].at == hs[m].at
  {
    hide Next, RunB, Fresh;
    HeapGrows(o, hs, s, m);
    At(o, hs, s, m);
    EventsGrow(o, hs, s, m + 1);
    assert hs[..m + 1][..m] == hs[..m];
  }

  lemma {:induction false} CooldownStays(o: Settings, hs: seq<Happening>, s: Slot)
    requires s in After(o, hs).heap
    ensures var b := After(o, hs).heap[s].breaker; B.New(b.threshold, b.cooldown) == Fresh(After(o, hs).heap[s])
  {
  }

  // ---------------------------------------------------------------- Sync and CallTool as steps

  /** What a publish leaves held is what Sync leaves. */
  lemma {:induction false} PublishIsSync(o: Settings, g: Gateway, servers: seq<Server>)
    ensures Held(Next(o, g, Publish(servers))) == Synced(o, Held(g), servers)
  {
    hide Wanted, SyncedEntry, Held, Published;
    var next := Published(o, g, servers);
    forall t
      ensures t in Held(next) <==> t in Synced(o, Held(g), servers)
      ensures t in Held(next) ==> Held(next)[t] == Synced(o, Held(g), servers)[t]
    {
      HeldHas(next, t);
      PublishedHas(o, g, servers, t);
    }
  }

  lemma {:induction false} HeldHas(g: Gateway, t: Target)
    ensures t in Held(g) <==> t in g.entries && Slot(t, g.entries[t]) in g.heap
    ensures t in Held(g) ==> Held(g)[t] == g.heap[Slot(t, g.entries[t])]
  {
  }

  lemma {:induction false} PublishedHas(o: Settings, g: Gateway, servers: seq<Server>, t: Target)
    ensures var next := Published(o, g, servers);
            && (t in next.entries <==> t in Wanted(servers))
            && (t in next.entries ==> Slot(t, next.entries[t]) in next.heap
                                      && next.heap[Slot(t, next.entries[t])] == Synced(o, Held(g), servers)[t])
  {
    hide Wanted, SyncedEntry, Held;
    var entries := Renewed(g, Wanted(servers));
    assert t in entries ==> Slot(t, entries[t]) in Slots(entries);
  }

  /** The steps of one undisturbed call. */
  function StepsOf(g: Gateway, call: nat, c: Call): seq<Happening> {
    var found := [Find(call, c.target), Asks(call, c.asked)];
    if c.target in Held(g) && B.Granted(Held(g)[c.target].breaker, c.asked)
    then found + [Settled(call, Reaches(Held(g)[c.target], c) && c.answers, c.settled)] else found
  }

  function Steps(o: Settings, g: Gateway, hs: seq<Happening>): Gateway
    decreases |hs|
  {
    if hs == [] then g else Steps(o, Next(o, g, hs[0]), hs[1..])
  }

  lemma {:induction false} TwoSteps(o: Settings, g: Gateway, a: Happening, b: Happening)
    ensures Steps(o, g, [a, b]) == Next(o, Next(o, g, a), b)
  {
    hide Next;
    assert [a, b][1..] == [b] && [b][1..] == [];
    assert Steps(o, Next(o, g, a), [b]) == Steps(o, Next(o, Next(o, g, a), b), []);
  }

  lemma {:induction false} ThreeSteps(o: Settings, g: Gateway, a: Happening, b: Happening, c: Happening)
    ensures Steps(o, g, [a, b, c]) == Next(o, Next(o, Next(o, g, a), b), c)
  {
    hide Next;
    assert [a, b, c][1..] == [b, c];
    TwoSteps(o, Next(o, g, a), b, c);
  }

  /** A step on a target's current entry shows there only. */
  lemma {:induction false} HeldAfterTouch(g: Gateway, h: Happening, t: Target, o: Settings)
    requires Well(g) && t in g.entries && SlotOf(g, h) == Some(Slot(t, g.entries[t]))
    ensures t in Held(g) && Held(Next(o, g, h)) == Held(g)[t := Touch(Held(g)[t], EventOf(h))]
    ensures h.Asks? && B.Granted(Held(g)[t].breaker, h.at) ==>
              Next(o, g, h).calls == g.calls[h.call := Granted(Slot(t, g.entries[t]))]
    ensures Next(o, g, h).entries == g.entries && Well(Next(o, g, h))
  {
    hide StepB, B.Granted;
  }

  lemma {:induction false} AfterFind(o: Settings, g: Gateway, call: nat, t: Target)
    requires Well(g) && call !in g.calls
    ensures var one := Next(o, g, Find(call, t));
            Held(one) == Held(g) && Well(one) && one.entries == g.entries
            && forall at :: SlotOf(one, Asks(call, at)) == if t in g.entries then Some(Slot(t, g.entries[t])) else None
  {
  }

  /** Undisturbed, a call's steps, a success if it gets through and is answered, do to breakers what CallTool does. */
  lemma {:induction false} CallToolIsItsSteps(o: Settings, g: Gateway, call: nat, c: Call)
    requires Well(g) && call !in g.calls
    ensures var (after, now) := (Called(Held(g), c).0, Held(Steps(o, g, StepsOf(g, call, c))));
            after.Keys == now.Keys && forall t :: t in now ==> now[t].breaker == after[t].breaker
  {
    hide StepB, B.Granted, CalledEntry, Held, Well, Touch;
    var find, asks := Find(call, c.target), Asks(call, c.asked);
    var one := Next(o, g, find);
    var two := Next(o, one, asks);
    AfterFind(o, g, call, c.target);
    HeldTargets(g, c.target);
    TwoSteps(o, g, find, asks);
    if c.target in g.entries {
      var e := Held(g)[c.target];
      HeldAfterTouch(one, asks, c.target, o);
      CallIsStepped(e, c);
      if B.Granted(e.breaker, c.asked) {
        var settled := Settled(call, Reaches(e, c) && c.answers, c.settled);
        HeldAfterTouch(two, settled, c.target, o);
        ThreeSteps(o, g, find, asks, settled);
      }
    }
  }

  lemma {:induction false} HeldTargets(g: Gateway, t: Target)
    requires Well(g)
    ensures t in Held(g) <==> t in g.entries
    ensures t in g.entries ==> Slot(t, g.entries[t]) in g.heap
  {
  }

  lemma {:induction false} CallIsStepped(e: EntryValue, c: Call)
    ensures var after, asked := CalledEntry(e, c).0, Touch(e, Ask(c.asked));
            var ok := Reaches(e, c) && c.answers;
            after.breaker == if B.Granted(e.breaker, c.asked)
                             then Touch(asked, EventOf(Settled(0, ok, c.settled))).breaker else asked.breaker
  {
  }
}
