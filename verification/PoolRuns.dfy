/** What a publish leaves of the pool, and what a backend breaker promises to overlapping calls. */
module PoolRuns {
  import opened Options
  import opened Circuits
  import opened Targets
  import opened BreakerRuns
  import opened Pool
  import B = BackendBreakers

  // ---------------------------------------------------------------- publishes

  /** Closed, with no failure counted, under the server's own threshold if it has a positive one. */
  predicate IsNew(b: B.State, o: Settings, s: Server) {
    var threshold := if s.ejectAfter.Some? && s.ejectAfter.value > 0 then s.ejectAfter.value else o.failureThreshold;
    && b.phase == Closed && b.consecutive == 0 && !b.probeInFlight && b.cooldown == o.cooldown
    && b.threshold == if threshold > 0 then threshold else 1
  }

  /** After a publish the entries are exactly the wanted targets, at their wanted endpoints, with their servers. */
  lemma {:induction false} SyncIsExact(o: Settings, held: map<Target, EntryValue>, servers: seq<Server>, t: Target)
    ensures var now := Synced(o, held, servers);
            && (t in now <==> exists i, e :: 0 <= i < |servers| && Binds(servers[i], t, e))
            && (t in now ==>
                  && now[t].server in servers && Binds(now[t].server, t, now[t].endpoint)
                  && (if t in held && held[t].endpoint == now[t].endpoint
                      then now[t].breaker == held[t].breaker && now[t].connected == held[t].connected
                      else IsNew(now[t].breaker, o, now[t].server) && !now[t].connected))
  {
    hide Wanted;
    WantedExact(servers, t);
  }

  /** Publishing the same snapshot again changes nothing. */
  lemma {:induction false} SyncIsIdempotent(o: Settings, held: map<Target, EntryValue>, servers: seq<Server>)
    ensures Synced(o, Synced(o, held, servers), servers) == Synced(o, held, servers)
  {
    hide Wanted, Threshold;
  }

  // ---------------------------------------------------------------- overlapping calls

  /** The reading an event carries; a success carries none. */
  predicate InOrder(es: seq<Event>) {
    forall i, j :: 0 <= i < j < |es| && !es[i].Succeed? && !es[j].Succeed? ==> es[i].at <= es[j].at
  }

  /**
   Calls may overlap, but each outcome belongs to a call whose request was granted earlier: `owner` names the
   request behind every outcome.
   */
  predicate Settles(b: B.State, es: seq<Event>, owner: seq<int>) {
    && |owner| == |es|
    && (forall k :: 0 <= k < |es| && !es[k].Ask? ==> 0 <= owner[k] < k && GrantB(b, es, owner[k]))
  }

  /** An open breaker was opened by a failure that has already been read. */
  lemma {:induction false} OpenedBefore(threshold: int, cooldown: int, es: seq<Event>, i: nat)
    requires InOrder(es) && i <= |es|
    ensures var b := RunB(B.New(threshold, cooldown), es[..i]);
            !b.phase.Closed? ==> forall k :: i <= k < |es| && !es[k].Succeed? ==> b.openedAt <= es[k].at
  {
    if i > 0 {
      OpenedBefore(threshold, cooldown, es, i - 1);
      assert es[..i][..i - 1] == es[..i - 1];
      SoundB(B.New(threshold, cooldown), es[..i - 1]);
    }
  }

  /** The first success at or after `i`. */
  lemma {:induction false} FirstSuccess(es: seq<Event>, i: nat, j: nat) returns (k: nat)
    requires i <= j <= |es| && !NoSuccess(es, i, j)
    ensures i <= k < j && es[k].Succeed? && NoSuccess(es, i, k)
  {
    k := i;
    while !es[k].Succeed?
      invariant i <= k < j && NoSuccess(es, i, k) && !NoSuccess(es, k, j)
      decreases j - k
    {
      k := k + 1;
    }
  }

  /**
   No call is dispatched to a backend while its breaker cools down, unless before it a call that had been let
   through before the breaker opened comes back successful.
   */
  lemma {:induction false} NoDispatchInCooldown(threshold: int, cooldown: int, es: seq<Event>, owner: seq<int>, i: nat,
                                                j: nat)
    requires InOrder(es) && Settles(B.New(threshold, cooldown), es, owner)
    requires i <= j && GrantB(B.New(threshold, cooldown), es, j)
             && !RunB(B.New(threshold, cooldown), es[..i]).phase.Closed?
    ensures var since := RunB(B.New(threshold, cooldown), es[..i]).openedAt;
            es[j].at - since >= cooldown || exists k :: i <= k < j && es[k].Succeed? && owner[k] < i
  {
    var b := B.New(threshold, cooldown);
    OpenedBefore(threshold, cooldown, es, i);
    if NoSuccess(es, i, j) {
      NoGrantInCooldownB(b, es, i, j);
    } else {
      var k := FirstSuccess(es, i, j);
      var g := owner[k];
      if g >= i {
        NoGrantInCooldownB(b, es, i, g);
        assert es[g].at <= es[j].at;
      }
    }
  }
}
