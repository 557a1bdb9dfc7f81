/**
 * The envelope-handling code of a DHT peer: accepting from a delegate connection, routing,
 * and draining the slow queue.  Each method runs without interruption and accounts for its
 * steps, so that it goes from one reachable state of the scheduler to another.
 */
module RoutingPeer {
  import opened Wrappers
  import opened Envelopes
  import opened Scheduler
  import opened Sequences
  import opened DeliveryOrder

  class DhtPeer {
    const mayFail: Pair -> bool
    var accepted: seq<Item>
    var syncMessages: map<string, nat>
    var routers: seq<Router>
    var slowQueue: seq<nat>
    var slowHand: Option<nat>
    ghost var settled: seq<Outcome>
    ghost var dropped: seq<Drop>
    ghost var tries: multiset<nat>

    ghost function View(): State
      reads this
    {
      State(accepted, syncMessages, routers, slowQueue, slowHand, settled, dropped, tries)
    }

    /** The present state is one the scheduler can reach. */
    ghost predicate Valid()
      reads this
    {
      Scheduled(mayFail, View())
    }

    constructor (mayFail: Pair -> bool)
      ensures Valid() && this.mayFail == mayFail && Init(View())
    {
      this.mayFail := mayFail;
      accepted, syncMessages, routers, slowQueue, slowHand := [], map[], [], [], None;
      settled, dropped, tries := [], [], multiset{};
      new;
      StartScheduled(mayFail, View());
    }

    /** The first attempt over the DHT may fail for envelope `id`. */
    ghost predicate MayBeDeferred(id: nat)
      reads this
    {
      id < |accepted| && mayFail(PairOf(accepted[id].envelope))
    }

    /** What waits in the channel of a key; a key without a channel has nothing waiting. */
    ghost function Waiting(key: string): seq<nat>
      reads this
    {
      if key in syncMessages && syncMessages[key] < |routers| then routers[syncMessages[key]].queue else []
    }

    /** Create the queue of a pair and start its worker, unless it exists. */
    method OpenQueue(key: string)
      requires Valid()
      modifies this`syncMessages, this`routers
      ensures Valid() && key in syncMessages && syncMessages[key] < |routers| <= |old(routers)| + 1
      ensures key in old(syncMessages) ==> syncMessages == old(syncMessages) && routers == old(routers)
      ensures key !in old(syncMessages) ==> routers[syncMessages[key]] == Router(Some(key), [], Idle)
      ensures forall k :: Waiting(k) == old(Waiting(k))
      ensures forall k :: k in syncMessages && syncMessages[k] == syncMessages[key] ==> k == key
    {
      ghost var n: nat :| Reachable(Config(n, mayFail), View());
      ReachableKeepsInv(Config(n, mayFail), View());
      if key !in syncMessages {
        ghost var s := View();
        syncMessages := syncMessages[key := |routers|];
        routers := routers + [Router(Some(key), [], Idle)];
        ExtendScheduled(mayFail, s, Arrive(Open(key)), View());
      }
    }

    /** An envelope read from a delegate connection: queued for its pair, or discarded when the queue is full. */
    method AcceptEnvelope(e: Envelope) returns (queued: bool)
      requires Valid()
      modifies this`accepted, this`syncMessages, this`routers, this`dropped
      ensures Valid() && accepted == old(accepted) + [Item(e, true)]
      ensures queued <==> |old(Waiting(Key(e)))| < 1000
      ensures Waiting(Key(e)) == old(Waiting(Key(e))) + (if queued then [|old(accepted)|] else [])
      ensures forall key :: key != Key(e) ==> Waiting(key) == old(Waiting(key))
      ensures dropped == old(dropped) + (if queued then [] else [Drop(|old(accepted)|, PairQueueFull)])
    {
      OpenQueue(Key(e));
      queued := Enqueue(e);
    }

    /** The select: into the channel, or discarded when it is full. */
    method Enqueue(e: Envelope) returns (queued: bool)
      requires Valid() && Key(e) in syncMessages && syncMessages[Key(e)] < |routers|
      requires forall k :: k in syncMessages && syncMessages[k] == syncMessages[Key(e)] ==> k == Key(e)
      modifies this`accepted, this`routers, this`dropped
      ensures Valid() && accepted == old(accepted) + [Item(e, true)]
      ensures queued <==> |old(Waiting(Key(e)))| < 1000
      ensures Waiting(Key(e)) == old(Waiting(Key(e))) + (if queued then [|old(accepted)|] else [])
      ensures forall key :: key != Key(e) ==> Waiting(key) == old(Waiting(key))
      ensures dropped == old(dropped) + (if queued then [] else [Drop(|old(accepted)|, PairQueueFull)])
    {
      ghost var s := View();
      var w, id := syncMessages[Key(e)], |accepted|;
      var r := routers[w];
      accepted := accepted + [Item(e, true)];
      queued := |r.queue| < PAIR_QUEUE_SIZE;
      if queued {
        routers := routers[w := r.(queue := r.queue + [id])];
      } else {
        dropped := dropped + [Drop(id, PairQueueFull)];
      }
      ExtendScheduled(mayFail, s, Arrive(Accept(e)), View());
    }

    /** A worker receives the next envelope of its channel. */
    method Receive(w: nat) returns (id: nat)
      requires Valid() && w < |routers| && routers[w].hand.Idle? && routers[w].queue != []
      modifies this`routers
      ensures Valid() && id == old(routers)[w].queue[0]
      ensures routers == old(routers)[w := Router(old(routers)[w].key, old(routers)[w].queue[1..], Routing(id))]
    {
      ghost var s := View();
      var r := routers[w];
      id := r.queue[0];
      routers := routers[w := r.(hand := Routing(id), queue := r.queue[1..])];
      ExtendScheduled(mayFail, s, Route(w, Take), View());
    }

    /**
     * `RouteEnvelope` for the envelope in the worker's hand: `view` is what its reads of the
     * maps return, `ok` whether delivery on the chosen branch succeeds, and `branch` where
     * the envelope was sent.
     */
    method RouteEnvelope(w: nat, view: View, ok: bool) returns (branch: Branch)
      requires Valid() && w < |routers| && routers[w].hand.Routing?
      requires IsRemote(view) && !ok ==> MayBeDeferred(routers[w].hand.id)
      modifies this`routers, this`slowQueue, this`settled, this`dropped, this`tries
      ensures Valid() && routers == old(routers)[w := old(routers)[w].(hand := Idle)]
      ensures branch.NoRecord? <==> !view.hasRecord
      ensures branch.ToMailbox? <==> view.hasRecord && view.mailboxTakes
      ensures branch.ToOwnAgent? <==> view.hasRecord && !view.mailboxTakes && view.isMine
      ensures branch.ToDelegate? <==> view.hasRecord && !view.mailboxTakes && !view.isMine && view.isDelegate
      ensures branch.ToRelay? <==>
                view.hasRecord && !view.mailboxTakes && !view.isMine && !view.isDelegate && view.isRelay
      ensures branch.ToDht? <==> IsRemote(view)
      ensures var id, room := old(routers)[w].hand.id, |old(slowQueue)| < 99;
              var delivered := view.hasRecord && (view.mailboxTakes || ok);
              var deferred := IsRemote(view) && !ok && room;
              && settled == old(settled) + (if delivered then [Outcome(id, Fast)] else [])
              && slowQueue == old(slowQueue) + (if deferred then [id] else [])
              && dropped == old(dropped) + (if delivered || deferred then []
                                            else [Drop(id, if IsRemote(view) then SlowQueueFull else RouteFailed)])
              && tries == old(tries) + (if IsRemote(view) then multiset{id} else multiset{})
    {
      var id := routers[w].hand.id;
      branch := Destination(view);
      if branch.ToDht? {
        TryOverDht(w, view, ok);
        return;
      }
      ghost var s := View();
      var delivered := branch.ToMailbox? || (!branch.NoRecord? && ok);
      routers := routers[w := routers[w].(hand := Idle)];
      if delivered {
        settled := settled + [Outcome(id, Fast)];
      } else {
        dropped := dropped + [Drop(id, RouteFailed)];
      }
      ExtendScheduled(mayFail, s, Route(w, RouteDirectly(view, delivered)), View());
    }

    /** The last branch: one attempt over the DHT, then the slow queue. */
    method TryOverDht(w: nat, view: View, ok: bool)
      requires Valid() && w < |routers| && routers[w].hand.Routing? && IsRemote(view)
      requires !ok ==> MayBeDeferred(routers[w].hand.id)
      modifies this`routers, this`slowQueue, this`settled, this`dropped, this`tries
      ensures Valid() && routers == old(routers)[w := old(routers)[w].(hand := Idle)]
      ensures var id := old(routers)[w].hand.id;
              && tries == old(tries) + multiset{id}
              && settled == old(settled) + (if ok then [Outcome(id, Fast)] else [])
              && slowQueue == old(slowQueue) + (if !ok && |old(slowQueue)| < SLOW_QUEUE_SIZE - 1 then [id] else [])
              && dropped == old(dropped) + (if ok || |old(slowQueue)| < SLOW_QUEUE_SIZE - 1 then []
                                            else [Drop(id, SlowQueueFull)])
    {
      ghost var s := View();
      var r := routers[w];
      var id := r.hand.id;
      tries := tries + multiset{id};
      if ok {
        routers, settled := routers[w := r.(hand := Idle)], settled + [Outcome(id, Fast)];
        ExtendScheduled(mayFail, s, Route(w, TryDht(view, true)), View());
        return;
      }
      routers := routers[w := r.(hand := Failed(id))];
      ExtendScheduled(mayFail, s, Route(w, TryDht(view, false)), View());
      MoveToSlowQueue(w);
    }

    /** After a failed attempt: into the slow queue if it is short enough, else dropped. */
    method MoveToSlowQueue(w: nat)
      requires Valid() && w < |routers| && routers[w].hand.Failed?
      modifies this`routers, this`slowQueue, this`dropped
      ensures Valid() && routers == old(routers)[w := old(routers)[w].(hand := Idle)]
      ensures var id, room := old(routers)[w].hand.id, |old(slowQueue)| < 99;
              && slowQueue == old(slowQueue) + (if room then [id] else [])
              && dropped == old(dropped) + (if room then [] else [Drop(id, SlowQueueFull)])
    {
      ghost var s := View();
      var r := routers[w];
      var id := r.hand.id;
      if |slowQueue| >= SLOW_QUEUE_SIZE - 1 {
        routers, dropped := routers[w := r.(hand := Idle)], dropped + [Drop(id, SlowQueueFull)];
        ExtendScheduled(mayFail, s, Route(w, Check), View());
        return;
      }
      routers := routers[w := r.(hand := Reserved(id))];
      ExtendScheduled(mayFail, s, Route(w, Check), View());
      s := View();
      routers, slowQueue := routers[w := r.(hand := Idle)], slowQueue + [id];
      ExtendScheduled(mayFail, s, Route(w, Send), View());
    }

    /** One round of `slowEnvelopeSendLoop`. */
    method SendSlowEnvelope(ok: bool)
      requires Valid() && slowHand.None? && slowQueue != []
      modifies this`slowQueue, this`slowHand, this`settled, this`dropped, this`tries
      ensures Valid() && slowHand.None? && slowQueue == old(slowQueue)[1..]
      ensures var id := old(slowQueue)[0];
              && tries == old(tries) + multiset{id}
              && settled == old(settled) + (if ok then [Outcome(id, Slow)] else [])
              && dropped == old(dropped) + (if ok then [] else [Drop(id, SlowFailed)])
    {
      ghost var s := View();
      var id := slowQueue[0];
      slowHand, slowQueue := Some(id), slowQueue[1..];
      ExtendScheduled(mayFail, s, Consume(SlowTake), View());
      s := View();
      slowHand, tries := None, tries + multiset{id};
      if ok {
        settled := settled + [Outcome(id, Slow)];
      } else {
        dropped := dropped + [Drop(id, SlowFailed)];
      }
      ExtendScheduled(mayFail, s, Consume(SlowTry(ok)), View());
    }
  }

  /** Whatever methods have run, in whatever order, every envelope is in one place and every pair in order. */
  lemma PeerDelivers(peer: DhtPeer, p: Pair, x: nat)
    requires peer.Valid()
    ensures var s := peer.View();
            && Places(s, x) == (if x < |s.accepted| then 1 else 0)
            && s.tries[x] <= 2
            && IsMerge(Deliveries(s, p), DeliveriesIn(s, p, Fast), DeliveriesIn(s, p, Slow))
            && IsSubsequence(DeliveriesIn(s, p, Fast), Arrivals(s, p))
            && IsSubsequence(DeliveriesIn(s, p, Slow), Arrivals(s, p))
  {
    var n: nat :| Reachable(Config(n, peer.mayFail), peer.View());
    EnvelopeConservation(Config(n, peer.mayFail), peer.View(), x);
    PairOrder(Config(n, peer.mayFail), peer.View(), p);
  }
}
