/** What a circuit breaker, of either kind, tells its readers. */
module Circuits {
  datatype Phase = Closed | Open | HalfOpen
}

/**
 The per-plugin circuit breaker: internal/dataplane/pipeline/breaker.go. Times are readings of one clock;
 a method that reads the clock takes its reading as `now`.
 */
module PluginBreakers {
  import opened Circuits

  datatype State = State(
    threshold: int,
    cooldown: int,
    consecutive: int,
    open: bool,
    openedAt: int,
    probeInFlight: bool,
    justOpened: bool)

  function New(threshold: int, cooldown: int): State {
    State(if threshold < 1 then 1 else threshold, cooldown, 0, false, 0, false, false)
  }

  function Granted(b: State, now: int): bool {
    !b.open || (now - b.openedAt >= b.cooldown && !b.probeInFlight)
  }

  function Allow(b: State, now: int): State {
    if b.open && Granted(b, now) then b.(probeInFlight := true) else b
  }

  function Success(b: State): State { b.(consecutive := 0, open := false, probeInFlight := false) }

  function Failure(b: State, now: int): State {
    if b.probeInFlight then b.(open := true, openedAt := now, probeInFlight := false)
    else
      var n := b.consecutive + 1;
      if n >= b.threshold && !b.open then b.(consecutive := n, open := true, openedAt := now, justOpened := true)
      else b.(consecutive := n)
  }

  function PhaseAt(b: State, now: int): Phase {
    if !b.open then Closed else if now - b.openedAt >= b.cooldown then HalfOpen else Open
  }

  /** Holds of every breaker that only its own methods have touched. */
  predicate Sound(b: State) {
    && b.threshold >= 1 && b.consecutive >= 0
    && (b.open <==> b.consecutive >= b.threshold)
    && (b.probeInFlight ==> b.open)
  }

  class Breaker {
    const threshold: int
    const cooldown: int
    var consecutive: int
    var open: bool
    var openedAt: int
    var probeInFlight: bool
    var justOpened: bool

    ghost function Value(): State
      reads this
    {
      State(threshold, cooldown, consecutive, open, openedAt, probeInFlight, justOpened)
    }

    constructor (threshold: int, cooldown: int)
      ensures Value() == New(threshold, cooldown)
    {
      this.threshold := if threshold < 1 then 1 else threshold;
      this.cooldown := cooldown;
      consecutive, open, openedAt, probeInFlight, justOpened := 0, false, 0, false, false;
    }

    method TryAllow(now: int) returns (ok: bool)
      modifies this
      ensures Value() == Allow(old(Value()), now) && ok == Granted(old(Value()), now)
    {
      if !open { return true; }
      if now - openedAt < cooldown { return false; }
      if probeInFlight { return false; }
      probeInFlight := true;
      return true;
    }

    method RecordSuccess()
      modifies this
      ensures Value() == Success(old(Value()))
    {
      consecutive := 0;
      open := false;
      probeInFlight := false;
    }

    method RecordFailure(now: int)
      modifies this
      ensures Value() == Failure(old(Value()), now)
    {
      if probeInFlight {
        open := true;
        openedAt := now;
        probeInFlight := false;
        return;
      }
      consecutive := consecutive + 1;
      if consecutive >= threshold && !open {
        open := true;
        openedAt := now;
        justOpened := true;
      }
    }

    /** True once per trip. */
    method TakeJustOpened() returns (tripped: bool)
      modifies this
      ensures tripped == old(justOpened) && Value() == old(Value()).(justOpened := false)
    {
      tripped := justOpened;
      justOpened := false;
    }

    method ReportPhase(now: int) returns (p: Phase)
      ensures p == PhaseAt(Value(), now)
    {
      if !open { return Closed; }
      if now - openedAt >= cooldown { return HalfOpen; }
      return Open;
    }
  }
}
