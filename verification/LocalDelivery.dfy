/**
 * Envelopes for targets the node knows: the mailbox's, its own agent, its delegate and its
 * relay clients.  They are settled or dropped at once, and never reach the DHT or the slow queue.
 */
module LocalDelivery {
  import opened Wrappers
  import opened Sequences
  import opened Scheduler

  /** The envelope is through: settled by its router, or dropped. */
  predicate Finished(s: State, x: nat) {
    x in FastTrack(s) || x in DroppedIds(s.dropped)
  }

  /** It is with no router, and neither in the slow queue nor with its sender. */
  ghost predicate Away(s: State, x: nat) {
    && (forall w :: 0 <= w < |s.routers| ==> x !in Line(s.routers[w]))
    && x !in s.slow && s.slowHand != Some(x)
  }

  lemma FinishedIsAway(c: Config, s: State, x: nat)
    requires Inv(c, s) && Finished(s, x)
    ensures Away(s, x)
  {
    CountPositive(FastTrack(s), x);
    CountPositive(DroppedIds(s.dropped), x);
    assert Places(s, x) <= 1;
    CountPositive(SlowTrack(s), x);
    assert x !in SlowTrack(s);
    forall w | 0 <= w < |s.routers|
      ensures x !in Line(s.routers[w])
    {
      SumAtLeast(s.routers, w, CountIn(x));
      CountPositive(Line(s.routers[w]), x);
    }
  }

  /** Outcomes are only ever added. */
  lemma OutcomesGrow(c: Config, s: State, step: Step, s': State)
    requires Next(c, s, step, s')
    ensures s.settled <= s'.settled && s.dropped <= s'.dropped
  {
  }

  lemma {:induction false} LaneGrows(before: seq<Outcome>, after: seq<Outcome>, x: nat)
    requires before <= after && x in InLane(before, Fast)
    ensures x in InLane(after, Fast)
  {
    if |before| == |after| {
      assert before == after;
    } else {
      var front := after[..|after| - 1];
      LaneGrows(before, front, x);
      assert after == front + [after[|after| - 1]];
      InLaneAppend(front, after[|after| - 1], Fast);
    }
  }

  lemma FinishedStays(s: State, s': State, x: nat)
    requires s.settled <= s'.settled && s.dropped <= s'.dropped && Finished(s, x)
    ensures Finished(s', x)
  {
    if x in FastTrack(s) {
      LaneGrows(s.settled, s'.settled, x);
    } else {
      var k :| 0 <= k < |s.dropped| && DroppedIds(s.dropped)[k] == x;
      assert DroppedIds(s'.dropped)[k] == x;
    }
  }

  /** What is nowhere to be tried is not tried. */
  lemma AwayIsNotTried(c: Config, s: State, step: Step, s': State, x: nat)
    requires Next(c, s, step, s') && Away(s, x)
    ensures s'.tries[x] == s.tries[x]
  {
    if step.Route? {
      assert !s.routers[step.w].hand.Idle? ==> Line(s.routers[step.w])[0] == s.routers[step.w].hand.id;
    }
  }

  lemma {:induction false} FinishedForGood(c: Config, run: seq<State>, i: nat, j: nat, x: nat)
    requires IsRun(c, run) && i <= j < |run| && Finished(run[i], x)
    ensures Finished(run[j], x) && run[j].tries[x] == run[i].tries[x]
  {
    if i == j {
    } else {
      FinishedForGood(c, run, i, j - 1, x);
      RunKeepsInv(c, run, j - 1);
      FinishedIsAway(c, run[j - 1], x);
      assert Steps(c, run[j - 1], run[j]);
      var step :| Next(c, run[j - 1], step, run[j]);
      OutcomesGrow(c, run[j - 1], step, run[j]);
      FinishedStays(run[j - 1], run[j], x);
      AwayIsNotTried(c, run[j - 1], step, run[j], x);
    }
  }

  /** A target known to the mailbox, or the own agent, a delegate or a relay client; or a sender without record. */
  predicate Known(v: View) {
    !v.hasRecord || v.mailboxTakes || v.isMine || v.isDelegate || v.isRelay
  }

  lemma UntriedInHand(c: Config, s: State, w: nat)
    requires Inv(c, s) && w < |s.routers| && s.routers[w].hand.Routing?
    ensures s.tries[s.routers[w].hand.id] == 0
  {
    var x := s.routers[w].hand.id;
    SumAtLeast(s.routers, w, BudgetIn(x));
  }

  /**
   * If the maps know the target when the envelope is routed, then from there on, in every run,
   * the envelope is never tried over the DHT and never in the slow queue.
   */
  lemma KnownTargetStaysLocal(c: Config, run: seq<State>, i: nat, w: nat, a: Action, j: nat)
    requires IsRun(c, run) && i < j < |run| && Next(c, run[i], Route(w, a), run[i + 1])
    requires (a.RouteDirectly? || a.TryDht?) && Known(a.view)
    ensures var x := run[i].routers[w].hand.id;
            Finished(run[j], x) && Away(run[j], x) && run[j].tries[x] == 0
  {
    var x := run[i].routers[w].hand.id;
    RunKeepsInv(c, run, i);
    UntriedInHand(c, run[i], w);
    DirectlyFinished(c, run[i], w, a, run[i + 1]);
    FinishedForGood(c, run, i + 1, j, x);
    RunKeepsInv(c, run, j);
    FinishedIsAway(c, run[j], x);
  }

  lemma DirectlyFinished(c: Config, s: State, w: nat, a: Action, s': State)
    requires Next(c, s, Route(w, a), s') && (a.RouteDirectly? || a.TryDht?) && Known(a.view)
    ensures Finished(s', s.routers[w].hand.id) && s'.tries == s.tries
  {
    var x := s.routers[w].hand.id;
    assert a.RouteDirectly?;
    InLaneAppend(s.settled, Outcome(x, Fast), Fast);
    assert DroppedIds(s.dropped + [Drop(x, RouteFailed)]) == DroppedIds(s.dropped) + [x];
  }

  /** Routing counts one attempt over the DHT, and that the first, exactly for a target nobody here knows. */
  lemma UnknownTargetIsTried(c: Config, run: seq<State>, i: nat, w: nat, a: Action)
    requires IsRun(c, run) && i + 1 < |run| && Next(c, run[i], Route(w, a), run[i + 1])
    requires a.RouteDirectly? || a.TryDht?
    ensures run[i + 1].tries[run[i].routers[w].hand.id] == if Known(a.view) then 0 else 1
  {
    RunKeepsInv(c, run, i);
    UntriedInHand(c, run[i], w);
  }
}
