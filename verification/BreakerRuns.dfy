/**
 What the two breakers promise over whole runs: any interleaving of requests asking to proceed and of
 outcomes arriving, whoever they belong to.
 */
module BreakerRuns {
  import opened Circuits
  import P = PluginBreakers
  import B = BackendBreakers

  datatype Event = Ask(at: int) | Succeed | Fail(at: int)

  // ---------------------------------------------------------------- runs

  function StepP(b: P.State, e: Event): P.State {
    match e
    case Ask(t) => P.Allow(b, t)
    case Succeed => P.Success(b)
    case Fail(t) => P.Failure(b, t)
  }

  function StepB(b: B.State, e: Event): B.State {
    match e
    case Ask(t) => B.Allow(b, t)
    case Succeed => B.Success(b)
    case Fail(t) => B.Failure(b, t)
  }

  function RunP(b: P.State, es: seq<Event>): P.State
    decreases |es|
  {
    if es == [] then b else StepP(RunP(b, es[..|es| - 1]), es[|es| - 1])
  }

  function RunB(b: B.State, es: seq<Event>): B.State
    decreases |es|
  {
    if es == [] then b else StepB(RunB(b, es[..|es| - 1]), es[|es| - 1])
  }

  /** Event `i` of the run is a request that was let through. */
  predicate GrantP(b: P.State, es: seq<Event>, i: int) {
    0 <= i < |es| && es[i].Ask? && P.Granted(RunP(b, es[..i]), es[i].at)
  }

  predicate GrantB(b: B.State, es: seq<Event>, i: int) {
    0 <= i < |es| && es[i].Ask? && B.Granted(RunB(b, es[..i]), es[i].at)
  }

  // ---------------------------------------------------------------- what every run keeps

  /** Tripped exactly while the consecutive failures stand at the threshold, in every reachable state. */
  lemma {:induction false} SoundP(b: P.State, es: seq<Event>)
    requires P.Sound(b)
    ensures P.Sound(RunP(b, es)) && RunP(b, es).threshold == b.threshold && RunP(b, es).cooldown == b.cooldown
    decreases |es|
  {
    if es != [] { SoundP(b, es[..|es| - 1]); }
  }

  lemma {:induction false} SoundB(b: B.State, es: seq<Event>)
    requires B.Sound(b)
    ensures B.Sound(RunB(b, es)) && RunB(b, es).threshold == b.threshold && RunB(b, es).cooldown == b.cooldown
    decreases |es|
  {
    if es != [] { SoundB(b, es[..|es| - 1]); }
  }

  predicate NoSuccess(es: seq<Event>, i: int, j: int) {
    forall k :: 0 <= i <= k < j <= |es| ==> !es[k].Succeed?
  }

  /** From event `i` on, outcomes carry readings no earlier than `t`. */
  predicate FailuresFrom(es: seq<Event>, i: int, t: int) {
    forall k :: 0 <= i <= k < |es| && es[k].Fail? ==> es[k].at >= t
  }

  lemma {:induction false} StaysOpenP(b: P.State, es: seq<Event>, i: nat, j: nat, t: int)
    requires P.Sound(b) && i <= j <= |es|
    requires RunP(b, es[..i]).open && RunP(b, es[..i]).openedAt >= t
    requires NoSuccess(es, i, j) && FailuresFrom(es, i, t)
    ensures RunP(b, es[..j]).open && RunP(b, es[..j]).openedAt >= t
    decreases j
  {
    if i < j {
      StaysOpenP(b, es, i, j - 1, t);
      assert es[..j][..j - 1] == es[..j - 1];
    }
  }

  lemma {:induction false} StaysOpenB(b: B.State, es: seq<Event>, i: nat, j: nat, t: int)
    requires B.Sound(b) && i <= j <= |es|
    requires !RunB(b, es[..i]).phase.Closed? && RunB(b, es[..i]).openedAt >= t
    requires NoSuccess(es, i, j) && FailuresFrom(es, i, t)
    ensures !RunB(b, es[..j]).phase.Closed? && RunB(b, es[..j]).openedAt >= t
    decreases j
  {
    SoundB(b, es[..j]);
    if i < j {
      StaysOpenB(b, es, i, j - 1, t);
      assert es[..j][..j - 1] == es[..j - 1];
    }
  }

  /**
   A breaker that is open since `t` grants nothing before `t` plus the cooldown, unless a success of a call
   admitted earlier arrives in between. The clock only has to give later failures later readings.
   */
  lemma {:induction false} NoGrantInCooldownP(b: P.State, es: seq<Event>, i: nat, j: nat)
    requires P.Sound(b) && i <= j && GrantP(b, es, j)
    requires RunP(b, es[..i]).open && FailuresFrom(es, i, RunP(b, es[..i]).openedAt)
    ensures es[j].at - RunP(b, es[..i]).openedAt >= b.cooldown || exists k :: i <= k < j && es[k].Succeed?
  {
    if NoSuccess(es, i, j) {
      StaysOpenP(b, es, i, j, RunP(b, es[..i]).openedAt);
      SoundP(b, es[..j]);
    }
  }

  lemma {:induction false} NoGrantInCooldownB(b: B.State, es: seq<Event>, i: nat, j: nat)
    requires B.Sound(b) && i <= j && GrantB(b, es, j)
    requires !RunB(b, es[..i]).phase.Closed? && FailuresFrom(es, i, RunB(b, es[..i]).openedAt)
    ensures es[j].at - RunB(b, es[..i]).openedAt >= b.cooldown || exists k :: i <= k < j && es[k].Succeed?
  {
    if NoSuccess(es, i, j) {
      StaysOpenB(b, es, i, j, RunB(b, es[..i]).openedAt);
      SoundB(b, es[..j]);
    }
  }

  predicate OnlyAsks(es: seq<Event>, i: int, j: int) {
    forall k :: 0 <= i <= k < j <= |es| ==> es[k].Ask?
  }

  lemma {:induction false} ProbeHeldP(b: P.State, es: seq<Event>, i: nat, j: nat)
    requires i <= j <= |es| && OnlyAsks(es, i, j)
    requires RunP(b, es[..i]).open && RunP(b, es[..i]).probeInFlight
    ensures RunP(b, es[..j]).open && RunP(b, es[..j]).probeInFlight
    decreases j
  {
    if i < j {
      ProbeHeldP(b, es, i, j - 1);
      assert es[..j][..j - 1] == es[..j - 1];
    }
  }

  lemma {:induction false} ProbeHeldB(b: B.State, es: seq<Event>, i: nat, j: nat)
    requires i <= j <= |es| && OnlyAsks(es, i, j)
    requires RunB(b, es[..i]).phase.HalfOpen? && RunB(b, es[..i]).probeInFlight
    ensures RunB(b, es[..j]).phase.HalfOpen? && RunB(b, es[..j]).probeInFlight
    decreases j
  {
    if i < j {
      ProbeHeldB(b, es, i, j - 1);
      assert es[..j][..j - 1] == es[..j - 1];
    }
  }

  /** While tripped, between two outcomes at most one request is let through. */
  lemma {:induction false} OneProbeP(b: P.State, es: seq<Event>, i: nat, j: nat)
    requires i < j < |es| && OnlyAsks(es, i, j) && RunP(b, es[..i]).open
    ensures !(GrantP(b, es, i) && GrantP(b, es, j))
  {
    if GrantP(b, es, i) {
      assert es[..i + 1][..i] == es[..i];
      ProbeHeldP(b, es, i + 1, j);
    }
  }

  lemma {:induction false} OneProbeB(b: B.State, es: seq<Event>, i: nat, j: nat)
    requires i < j < |es| && OnlyAsks(es, i, j) && !RunB(b, es[..i]).phase.Closed?
    ensures !(GrantB(b, es, i) && GrantB(b, es, j))
  {
    if GrantB(b, es, i) {
      assert es[..i + 1][..i] == es[..i];
      ProbeHeldB(b, es, i + 1, j);
    }
  }

  // ---------------------------------------------------------------- the two breakers compared

  /** The two states tell the same story. */
  predicate Alike(p: P.State, b: B.State) {
    && p.threshold == b.threshold && p.cooldown == b.cooldown && p.consecutive == b.consecutive
    && P.Sound(p) && B.Sound(b)
    && (p.open <==> !b.phase.Closed?) && p.probeInFlight == b.probeInFlight
    && (p.open ==> p.openedAt == b.openedAt)
  }

  lemma {:induction false} NewAreAlike(threshold: int, cooldown: int)
    ensures Alike(P.New(threshold, cooldown), B.New(threshold, cooldown))
  {
  }

  /**
   Alike breakers grant alike, and report alike as long as a trial in flight is not observed before it was granted.
   */
  lemma {:induction false} AlikeGrants(p: P.State, b: B.State, now: int)
    requires Alike(p, b)
    ensures P.Granted(p, now) == B.Granted(b, now)
    ensures (p.probeInFlight ==> now - p.openedAt >= p.cooldown) ==> P.PhaseAt(p, now) == B.PhaseAt(b, now)
  {
  }

  /**
   Event `i` is a failure that arrives while the backend breaker is open with no trial in flight, at another reading.
   */
  predicate Stale(b: B.State, es: seq<Event>, i: int) {
    && 0 <= i < |es| && es[i].Fail?
    && RunB(b, es[..i]).phase.Open? && es[i].at != RunB(b, es[..i]).openedAt
  }

  ghost predicate NoneStale(b: B.State, es: seq<Event>) { forall i :: 0 <= i < |es| ==> !Stale(b, es, i) }

  lemma {:induction false} StayAlike(p: P.State, b: B.State, es: seq<Event>)
    requires Alike(p, b) && NoneStale(b, es)
    ensures Alike(RunP(p, es), RunB(b, es))
    decreases |es|
  {
    if es != [] {
      var front := es[..|es| - 1];
      assert forall i :: 0 <= i < |front| ==> front[..i] == es[..i] && front[i] == es[i];
      assert forall i :: 0 <= i < |front| ==> (Stale(b, front, i) <==> Stale(b, es, i));
      StayAlike(p, b, front);
      assert !Stale(b, es, |es| - 1);
    }
  }

  /** At every point of the run, at any time, both would grant or both refuse. */
  ghost predicate SameGrants(p: P.State, b: B.State, es: seq<Event>) {
    forall n, now :: 0 <= n <= |es| ==> P.Granted(RunP(p, es[..n]), now) == B.Granted(RunB(b, es[..n]), now)
  }

  /**
   A stale failure moves one cooldown and not the other. On a clock that runs forward it is later than the opening, and
   a request that one grants and the other refuses can still come.
   */
  lemma {:induction false} StaleTellsThemApart(p: P.State, b: B.State, es: seq<Event>, i: nat) returns (now: int)
    requires Alike(p, b) && Stale(b, es, i) && NoneStale(b, es[..i])
    ensures P.Granted(RunP(p, es[..i + 1]), now) != B.Granted(RunB(b, es[..i + 1]), now)
    ensures p.cooldown > 0 && es[i].at > RunB(b, es[..i]).openedAt ==> now >= es[i].at
  {
    StayAlike(p, b, es[..i]);
    assert es[..i + 1][..i] == es[..i];
    var since, late := RunB(b, es[..i]).openedAt, es[i].at;
    now := if late < since then late + p.cooldown
           else if p.cooldown > 0 && late > since + p.cooldown then late
           else since + p.cooldown;
    SoundB(b, es[..i]);
    SoundP(p, es[..i]);
  }

  lemma {:induction false} FirstStale(b: B.State, es: seq<Event>) returns (i: nat)
    requires !NoneStale(b, es)
    ensures i < |es| && Stale(b, es, i) && NoneStale(b, es[..i])
  {
    i := 0;
    while !Stale(b, es, i)
      invariant i < |es| && (forall k :: 0 <= k < i ==> !Stale(b, es, k))
      invariant exists k :: i <= k < |es| && Stale(b, es, k)
      decreases |es| - i
    {
      i := i + 1;
    }
    assert forall k :: 0 <= k < i ==> es[..i][..k] == es[..k];
    assert forall k :: 0 <= k < i ==> (Stale(b, es[..i], k) <==> Stale(b, es, k));
  }

  /**
   When the two implementations are interchangeable: under any interleaving of requests and outcomes, overlapping calls
   included, they would grant exactly the same requests throughout iff no failure arrives stale.
   */
  lemma {:induction false} AgreeUnlessStale(p: P.State, b: B.State, es: seq<Event>)
    requires Alike(p, b)
    ensures SameGrants(p, b, es) <==> NoneStale(b, es)
  {
    if NoneStale(b, es) {
      forall n, now | 0 <= n <= |es| ensures P.Granted(RunP(p, es[..n]), now) == B.Granted(RunB(b, es[..n]), now) {
        assert forall i :: 0 <= i < n ==> es[..n][..i] == es[..i];
        assert forall i :: 0 <= i < n ==> (Stale(b, es[..n], i) <==> Stale(b, es, i));
        StayAlike(p, b, es[..n]);
        AlikeGrants(RunP(p, es[..n]), RunB(b, es[..n]), now);
      }
    } else {
      var i := FirstStale(b, es);
      var now := StaleTellsThemApart(p, b, es, i);
    }
  }

  /** One request: it asks, and if let through its outcome arrives before anyone else asks. */
  datatype Bracket = Bracket(ask: int, ok: bool, settled: int)

  function BracketP(b: P.State, r: Bracket): P.State {
    if !P.Granted(b, r.ask) then b
    else if r.ok then P.Success(P.Allow(b, r.ask)) else P.Failure(P.Allow(b, r.ask), r.settled)
  }

  function BracketB(b: B.State, r: Bracket): B.State {
    if !B.Granted(b, r.ask) then b
    else if r.ok then B.Success(B.Allow(b, r.ask)) else B.Failure(B.Allow(b, r.ask), r.settled)
  }

  function BracketsP(b: P.State, rs: seq<Bracket>): P.State
    decreases |rs|
  {
    if rs == [] then b else BracketP(BracketsP(b, rs[..|rs| - 1]), rs[|rs| - 1])
  }

  function BracketsB(b: B.State, rs: seq<Bracket>): B.State
    decreases |rs|
  {
    if rs == [] then b else BracketB(BracketsB(b, rs[..|rs| - 1]), rs[|rs| - 1])
  }

  /** Between two bracketed requests. */
  predicate Similar(p: P.State, b: B.State) {
    && p.threshold == b.threshold && p.cooldown == b.cooldown && p.consecutive == b.consecutive
    && P.Sound(p) && B.Sound(b)
    && (p.open <==> b.phase.Open?) && !b.phase.HalfOpen? && !p.probeInFlight
    && (p.open ==> p.openedAt == b.openedAt)
  }

  lemma {:induction false} StaySimilar(threshold: int, cooldown: int, rs: seq<Bracket>)
    ensures Similar(BracketsP(P.New(threshold, cooldown), rs), BracketsB(B.New(threshold, cooldown), rs))
    decreases |rs|
  {
    if rs != [] { StaySimilar(threshold, cooldown, rs[..|rs| - 1]); }
  }

  /**
   In bracketed use the two implementations are indistinguishable: after any history they admit the same
   next request, and report the same phase at any time, before it, while it is in flight (on a clock that
   does not run backwards), and after it settled.
   */
  lemma {:induction false} BreakersAgree(threshold: int, cooldown: int, rs: seq<Bracket>, r: Bracket, now: int)
    ensures var p, b := BracketsP(P.New(threshold, cooldown), rs), BracketsB(B.New(threshold, cooldown), rs);
            && P.Granted(p, r.ask) == B.Granted(b, r.ask)
            && P.PhaseAt(p, now) == B.PhaseAt(b, now)
            && (now >= r.ask ==> P.PhaseAt(P.Allow(p, r.ask), now) == B.PhaseAt(B.Allow(b, r.ask), now))
            && P.PhaseAt(BracketP(p, r), now) == B.PhaseAt(BracketB(b, r), now)
  {
    StaySimilar(threshold, cooldown, rs);
    StaySimilar(threshold, cooldown, rs + [r]);
    assert (rs + [r])[..|rs|] == rs;
  }

  /** `asks` requests, then `fails` failures, all at time 0. */
  function Burst(asks: nat, fails: nat): seq<Event> { seq(asks, _ => Ask(0)) + seq(fails, _ => Fail(0)) }

  lemma {:induction false} BurstAsks(b: B.State, asks: nat)
    requires b.phase.Closed?
    ensures RunB(b, Burst(asks, 0)) == b
  {
    if asks > 0 {
      BurstAsks(b, asks - 1);
      assert Burst(asks, 0)[..asks - 1] == Burst(asks - 1, 0);
    }
  }

  /** A fresh breaker after this many failures. */
  predicate Failed(b: B.State, threshold: int, fails: nat) {
    && b.consecutive == fails && b.threshold == threshold
    && if fails < threshold then b.phase.Closed? else b.phase.Open? && b.openedAt == 0
  }

  lemma {:induction false} FailOnce(b: B.State, threshold: int, fails: nat)
    requires Failed(b, threshold, fails) && fails < threshold
    ensures Failed(StepB(b, Fail(0)), threshold, fails + 1)
  {
  }

  lemma {:induction false} BurstStep(b: B.State, asks: nat, fails: nat)
    ensures RunB(b, Burst(asks, fails + 1)) == StepB(RunB(b, Burst(asks, fails)), Fail(0))
  {
    hide StepB;
    var es := Burst(asks, fails + 1);
    assert es[..|es| - 1] == Burst(asks, fails) && es[|es| - 1] == Fail(0);
  }

  lemma {:induction false} BurstFails(b: B.State, asks: nat, fails: nat)
    requires Failed(b, b.threshold, 0) && fails <= b.threshold && b.threshold >= 1
    ensures Failed(RunB(b, Burst(asks, fails)), b.threshold, fails)
  {
    hide RunB, StepB, Burst;
    if fails == 0 {
      BurstAsks(b, asks);
    } else {
      BurstFails(b, asks, fails - 1);
      BurstStep(b, asks, fails - 1);
      FailOnce(RunB(b, Burst(asks, fails - 1)), b.threshold, fails - 1);
    }
  }

  /**
   Out of brackets they can always be told apart, whatever threshold and cooldown: one request more than the threshold
   is let through by both and all of them fail, the last one late.
   */
  lemma {:induction false} LateFailureTellsThemApart(threshold: int, cooldown: int) returns (es: seq<Event>)
    ensures var p, b, n := P.New(threshold, cooldown), B.New(threshold, cooldown), B.New(threshold, cooldown).threshold;
            && |es| == 2 * n + 2 && (forall i :: 0 <= i <= n ==> GrantP(p, es, i) && GrantB(b, es, i))
            && (forall i :: n < i < |es| ==> es[i].Fail?) && !SameGrants(p, b, es)
  {
    var p, b := P.New(threshold, cooldown), B.New(threshold, cooldown);
    var n: nat := b.threshold;
    var burst := Burst(n + 1, n);
    es := burst + [Fail(1)];
    BurstFails(b, n + 1, n);
    assert es[..|burst|] == burst;
    assert Stale(b, es, |burst|);
    NewAreAlike(threshold, cooldown);
    AgreeUnlessStale(p, b, es);
    forall i | 0 <= i <= n ensures GrantP(p, es, i) && GrantB(b, es, i) {
      assert es[i] == Ask(0) && es[..i] == Burst(i, 0);
      BurstAsks(b, i);
      assert NoneStale(b, es[..i]) by { assert forall k :: 0 <= k < i ==> es[..i][k].Ask?; }
      StayAlike(p, b, es[..i]);
      AlikeGrants(RunP(p, es[..i]), RunB(b, es[..i]), 0);
    }
  }

  // ---------------------------------------------------------------- the breakers told by their history

  /** Failures since the last success. */
  function FailsSince(es: seq<Event>): nat {
    if es == [] then 0
    else match es[|es| - 1]
      case Ask(_) => FailsSince(es[..|es| - 1])
      case Succeed => 0
      case Fail(_) => FailsSince(es[..|es| - 1]) + 1
  }

  /** What the history says: when the breaker last opened, and whether a trial request is out. */
  datatype Story = Story(openedAt: int, trial: bool)

  /**
   A tripped breaker lets one trial request through once its cooldown is over; any outcome ends the trial. The plugin
   breaker opens with the failure that reaches the threshold, and again with a failure that ends a trial.
   */
  function StoryP(threshold: int, cooldown: int, es: seq<Event>): Story {
    if es == [] then Story(0, false)
    else
      var front := es[..|es| - 1];
      var before := StoryP(threshold, cooldown, front);
      match es[|es| - 1]
      case Ask(at) => Asked(before, FailsSince(front) >= threshold, cooldown, at)
      case Succeed => before.(trial := false)
      case Fail(at) =>
        Story(if FailsSince(es) == threshold || before.trial then at else before.openedAt, false)
  }

  /** The backend breaker opens again with every failure once the threshold is reached. */
  function StoryB(threshold: int, cooldown: int, es: seq<Event>): Story {
    if es == [] then Story(0, false)
    else
      var front := es[..|es| - 1];
      var before := StoryB(threshold, cooldown, front);
      match es[|es| - 1]
      case Ask(at) => Asked(before, FailsSince(front) >= threshold, cooldown, at)
      case Succeed => before.(trial := false)
      case Fail(at) => Story(if FailsSince(es) >= threshold then at else before.openedAt, false)
  }

  function Asked(before: Story, tripped: bool, cooldown: int, at: int): Story {
    before.(trial := before.trial || (tripped && at - before.openedAt >= cooldown))
  }

  /** Who is let through, by the history alone. */
  predicate Lets(story: Story, tripped: bool, cooldown: int, at: int) {
    !tripped || (!story.trial && at - story.openedAt >= cooldown)
  }

  lemma {:induction false} HistoryP(threshold: int, cooldown: int, es: seq<Event>)
    requires threshold >= 1
    ensures var b, story := RunP(P.New(threshold, cooldown), es), StoryP(threshold, cooldown, es);
            && P.Sound(b) && b.threshold == threshold && b.cooldown == cooldown
            && (b.open <==> FailsSince(es) >= threshold) && (!b.open ==> b.consecutive == FailsSince(es))
            && b.probeInFlight == (b.open && story.trial) && (!b.open ==> !story.trial)
            && (b.open ==> b.openedAt == story.openedAt)
    decreases |es|
  {
    if es != [] { HistoryP(threshold, cooldown, es[..|es| - 1]); }
  }

  lemma {:induction false} HistoryB(threshold: int, cooldown: int, es: seq<Event>)
    requires threshold >= 1
    ensures var b, story := RunB(B.New(threshold, cooldown), es), StoryB(threshold, cooldown, es);
            && B.Sound(b) && b.threshold == threshold && b.cooldown == cooldown
            && (!b.phase.Closed? <==> FailsSince(es) >= threshold)
            && (b.phase.Closed? ==> b.consecutive == FailsSince(es) && !story.trial)
            && (!b.phase.Closed? ==> b.probeInFlight == story.trial && b.openedAt == story.openedAt)
    decreases |es|
  {
    if es != [] { HistoryB(threshold, cooldown, es[..|es| - 1]); }
  }

  /** A threshold below one counts as one. */
  function AtLeastOne(threshold: int): int { if threshold > 1 then threshold else 1 }

  /**
   Exactly who the plugin breaker lets through over any history: everyone below the threshold; at it, one trial once
   the cooldown is over. And the state it reports then.
   */
  lemma {:induction false} GrantsExactlyP(threshold: int, cooldown: int, es: seq<Event>, at: int)
    ensures var t := AtLeastOne(threshold);
            var b, story, tripped :=
              RunP(P.New(threshold, cooldown), es), StoryP(t, cooldown, es), FailsSince(es) >= t;
            && (P.Granted(b, at) <==> Lets(story, tripped, cooldown, at))
            && (P.PhaseAt(b, at) == Closed <==> !tripped)
            && (P.PhaseAt(b, at) == HalfOpen <==> tripped && at - story.openedAt >= cooldown)
  {
    hide RunP, StoryP;
    var t := AtLeastOne(threshold);
    HistoryP(t, cooldown, es);
    assert P.New(threshold, cooldown) == P.New(t, cooldown);
  }

  /** A trip is marked, to be reported once: the failure that opens a closed breaker, and no other. */
  lemma {:induction false} TripIsMarked(b: P.State, at: int)
    requires P.Sound(b)
    ensures P.Failure(b, at).justOpened <==> b.justOpened || (!b.open && P.Failure(b, at).open)
    ensures P.Allow(b, at).justOpened == P.Success(b).justOpened == b.justOpened
  {
  }

  lemma {:induction false} GrantsExactlyB(threshold: int, cooldown: int, es: seq<Event>, at: int)
    ensures var t := AtLeastOne(threshold);
            var b, story, tripped :=
              RunB(B.New(threshold, cooldown), es), StoryB(t, cooldown, es), FailsSince(es) >= t;
            && (B.Granted(b, at) <==> Lets(story, tripped, cooldown, at))
            && (B.PhaseAt(b, at) == Closed <==> !tripped)
            && (B.PhaseAt(b, at) == HalfOpen <==> tripped && (story.trial || at - story.openedAt >= cooldown))
  {
    hide RunB, StoryB;
    var t := AtLeastOne(threshold);
    HistoryB(t, cooldown, es);
    assert B.New(threshold, cooldown) == B.New(t, cooldown);
  }
}
