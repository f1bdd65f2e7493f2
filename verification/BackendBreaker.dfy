/** The per-backend circuit breaker: internal/dataplane/backends/breaker.go. */
module BackendBreakers {
  import opened Options
  import opened Circuits

  datatype State = State(
    threshold: int,
    cooldown: int,
    consecutive: int,
    phase: Phase,
    openedAt: int,
    probeInFlight: bool)

  function New(threshold: int, cooldown: int): State {
    State(if threshold < 1 then 1 else threshold, cooldown, 0, Closed, 0, false)
  }

  function Granted(b: State, now: int): bool {
    match b.phase
    case Closed => true
    case Open => now - b.openedAt >= b.cooldown
    case HalfOpen => !b.probeInFlight
  }

  function Allow(b: State, now: int): State {
    if b.phase.Closed? || !Granted(b, now) then b else b.(phase := HalfOpen, probeInFlight := true)
  }

  function Success(b: State): State { b.(consecutive := 0, phase := Closed, probeInFlight := false) }

  function Failure(b: State, now: int): State {
    if b.phase.HalfOpen? then b.(phase := Open, openedAt := now, probeInFlight := false)
    else
      var n := b.consecutive + 1;
      if n >= b.threshold then b.(consecutive := n, phase := Open, openedAt := now, probeInFlight := false)
      else b.(consecutive := n)
  }

  function PhaseAt(b: State, now: int): Phase {
    if b.phase.Open? && now - b.openedAt >= b.cooldown then HalfOpen else b.phase
  }

  /** Holds of every breaker that only its own methods have touched. */
  predicate Sound(b: State) {
    && b.threshold >= 1 && b.consecutive >= 0
    && (!b.phase.Closed? <==> b.consecutive >= b.threshold)
    && (b.phase.HalfOpen? <==> b.probeInFlight)
  }

  class Breaker {
    const threshold: int
    const cooldown: int
    var consecutive: int
    var phase: Phase
    var openedAt: int
    var probeInFlight: bool

    ghost function Value(): State
      reads this
    {
      State(threshold, cooldown, consecutive, phase, openedAt, probeInFlight)
    }

    constructor (threshold: int, cooldown: int)
      ensures Value() == New(threshold, cooldown)
    {
      this.threshold := if threshold < 1 then 1 else threshold;
      this.cooldown := cooldown;
      consecutive, phase, openedAt, probeInFlight := 0, Closed, 0, false;
    }

    method TryAllow(now: int) returns (ok: bool)
      modifies this
      ensures Value() == Allow(old(Value()), now) && ok == Granted(old(Value()), now)
    {
      match phase {
        case Closed => return true;
        case Open =>
          if now - openedAt < cooldown { return false; }
          phase := HalfOpen;
          probeInFlight := true;
          return true;
        case HalfOpen =>
          if probeInFlight { return false; }
          probeInFlight := true;
          return true;
      }
    }

    method RecordSuccess()
      modifies this
      ensures Value() == Success(old(Value()))
    {
      consecutive := 0;
      phase := Closed;
      probeInFlight := false;
    }

    method RecordFailure(now: int)
      modifies this
      ensures Value() == Failure(old(Value()), now)
    {
      if phase == HalfOpen {
        phase := Open;
        openedAt := now;
        probeInFlight := false;
        return;
      }
      consecutive := consecutive + 1;
      if consecutive >= threshold {
        phase := Open;
        openedAt := now;
        probeInFlight := false;
      }
    }

    method ReportPhase(now: int) returns (p: Phase)
      ensures p == PhaseAt(Value(), now)
    {
      if phase == Open && now - openedAt >= cooldown { return HalfOpen; }
      return phase;
    }

    /** When the next probe is admitted; None unless open. */
    method OpenUntil() returns (until: Option<int>)
      ensures until == if phase.Open? then Some(openedAt + cooldown) else None
    {
      if phase != Open { return None; }
      return Some(openedAt + cooldown);
    }
  }
}
