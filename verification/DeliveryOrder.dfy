/** What the scheduler guarantees about delivery: the order of each pair, and sends that never block. */
module DeliveryOrder {
  import opened Wrappers
  import opened Envelopes
  import opened Sequences
  import opened Scheduler

  /** Envelope `x` was accepted from a delegate connection for pair `p`. */
  function InPair(acc: seq<Item>, p: Pair): nat -> bool {
    (x: nat) => x < |acc| && acc[x].delegate && PairOf(acc[x].envelope) == p
  }

  function SettledIds(settled: seq<Outcome>): seq<nat> {
    seq(|settled|, i requires 0 <= i < |settled| => settled[i].id)
  }

  /** The pair's envelopes in acceptance order. */
  function Arrivals(s: State, p: Pair): seq<nat> {
    Filter(Range(|s.accepted|), InPair(s.accepted, p))
  }

  /** The pair's envelopes in the order they were settled. */
  function Deliveries(s: State, p: Pair): seq<nat> {
    Filter(SettledIds(s.settled), InPair(s.accepted, p))
  }

  function DeliveriesIn(s: State, p: Pair, lane: Lane): seq<nat> {
    Filter(InLane(s.settled, lane), InPair(s.accepted, p))
  }

  /** Filtering an ordered track by a pair gives increasing acceptance numbers. */
  lemma {:induction false} OrderedPairIncreasing(acc: seq<Item>, xs: seq<nat>, p: Pair)
    requires Ordered(acc, xs)
    ensures Increasing(Filter(xs, InPair(acc, p)))
  {
    if xs == [] {
    } else {
      var f, front, last := InPair(acc, p), xs[..|xs| - 1], xs[|xs| - 1];
      OrderedPairIncreasing(acc, front, p);
      if f(last) {
        forall i | 0 <= i < |Filter(front, f)|
          ensures Filter(front, f)[i] < last
        {
          var x := Filter(front, f)[i];
          FilterMembers(front, f, x);
          var j :| 0 <= j < |front| && front[j] == x;
          assert SameKey(acc, xs[j], last);
        }
      }
    }
  }

  lemma {:induction false} IncreasingFilter(xs: seq<nat>, f: nat -> bool)
    requires Increasing(xs)
    ensures Increasing(Filter(xs, f))
  {
    if xs == [] {
    } else {
      var front, last := xs[..|xs| - 1], xs[|xs| - 1];
      IncreasingFilter(front, f);
      forall i | 0 <= i < |Filter(front, f)|
        ensures Filter(front, f)[i] < last
      {
        FilterMembers(front, f, Filter(front, f)[i]);
      }
    }
  }

  lemma {:induction false} LanesMerge(settled: seq<Outcome>, f: nat -> bool)
    ensures IsMerge(Filter(SettledIds(settled), f), Filter(InLane(settled, Fast), f), Filter(InLane(settled, Slow), f))
  {
    if settled == [] {
    } else {
      var front, last := settled[..|settled| - 1], settled[|settled| - 1];
      LanesMerge(front, f);
      assert settled == front + [last];
      InLaneAppend(front, last, Fast);
      InLaneAppend(front, last, Slow);
      assert SettledIds(settled) == SettledIds(front) + [last.id];
      FilterAppend(SettledIds(front), last.id, f);
      FilterAppend(InLane(front, last.lane), last.id, f);
      if f(last.id) {
        var z, x, y := Filter(SettledIds(settled), f), Filter(InLane(settled, Fast), f), Filter(InLane(settled, Slow), f);
        assert z[..|z| - 1] == Filter(SettledIds(front), f);
        if last.lane.Fast? {
          assert x[..|x| - 1] == Filter(InLane(front, Fast), f);
        } else {
          assert y[..|y| - 1] == Filter(InLane(front, Slow), f);
        }
      }
    }
  }

  lemma FilterAppend(xs: seq<nat>, x: nat, f: nat -> bool)
    ensures Filter(xs + [x], f) == Filter(xs, f) + (if f(x) then [x] else [])
  {
    assert (xs + [x])[..|xs|] == xs;
  }

  lemma LaneInOrder(c: Config, s: State, p: Pair, lane: Lane)
    requires Reachable(c, s)
    ensures Increasing(DeliveriesIn(s, p, lane))
    ensures IsSubsequence(DeliveriesIn(s, p, lane), Arrivals(s, p))
  {
    ReachableKeepsInv(c, s);
    var xs := InLane(s.settled, lane);
    assert Ordered(s.accepted, xs) by {
      if lane.Slow? {
        assert forall i :: 0 <= i < |xs| ==> xs[i] == SlowTrack(s)[i];
      }
    }
    OrderedPairIncreasing(s.accepted, xs, p);
    IncreasingFilter(Range(|s.accepted|), InPair(s.accepted, p));
    forall x | x in DeliveriesIn(s, p, lane)
      ensures x in Arrivals(s, p)
    {
      FilterMembers(xs, InPair(s.accepted, p), x);
      FilterMembers(Range(|s.accepted|), InPair(s.accepted, p), x);
      assert Range(|s.accepted|)[x] == x;
    }
    IncreasingIsSubsequence(DeliveriesIn(s, p, lane), Arrivals(s, p));
  }

  /**
   * The order the code gives: what a pair has had delivered is a merge of its fast and its
   * slow lane, and each lane is in acceptance order, whatever other pairs share its queue.
   */
  lemma PairOrder(c: Config, s: State, p: Pair)
    requires Reachable(c, s)
    ensures IsMerge(Deliveries(s, p), DeliveriesIn(s, p, Fast), DeliveriesIn(s, p, Slow))
    ensures IsSubsequence(DeliveriesIn(s, p, Fast), Arrivals(s, p))
    ensures IsSubsequence(DeliveriesIn(s, p, Slow), Arrivals(s, p))
  {
    LanesMerge(s.settled, InPair(s.accepted, p));
    LaneInOrder(c, s, p, Fast);
    LaneInOrder(c, s, p, Slow);
  }

  // ---------------------------------------------------------------------------
  // Pairs that stay out of the slow queue
  // ---------------------------------------------------------------------------

  /** Nothing of the pair is in the slow queue or with its sender, or was settled through it. */
  ghost predicate NothingSlow(s: State, p: Pair) {
    forall x: nat :: x in SlowTrack(s) ==> !InPair(s.accepted, p)(x)
  }

  function Survives(s: State, p: Pair): nat -> bool {
    (x: nat) => InPair(s.accepted, p)(x) && x !in DroppedIds(s.dropped)
  }

  /** What the worker of the pair's queue still holds of the pair, oldest first. */
  function Waiting(s: State, p: Pair): seq<nat> {
    var k := p.to + p.sender;
    if k in s.sync && s.sync[k] < |s.routers|
    then Filter(Line(s.routers[s.sync[k]]), InPair(s.accepted, p)) else []
  }

  lemma {:induction false} SumWitness(rs: seq<Router>, x: nat) returns (w: nat)
    requires Held(rs, x) > 0
    ensures w < |rs| && x in Line(rs[w])
  {
    var n := |rs| - 1;
    if Count(Line(rs[n]), x) > 0 {
      CountPositive(Line(rs[n]), x);
      w := n;
    } else {
      w := SumWitness(rs[..n], x);
    }
  }

  /** A surviving envelope of such a pair is settled in the fast lane or with its worker. */
  lemma WhereSurvivorsAre(c: Config, s: State, p: Pair, x: nat)
    requires Reachable(c, s) && NothingSlow(s, p)
    ensures Survives(s, p)(x) <==> x in DeliveriesIn(s, p, Fast) || x in Waiting(s, p)
  {
    ReachableKeepsInv(c, s);
    var f := InPair(s.accepted, p);
    FilterMembers(FastTrack(s), f, x);
    CountPositive(FastTrack(s), x);
    CountPositive(SlowTrack(s), x);
    CountPositive(DroppedIds(s.dropped), x);
    var k := p.to + p.sender;
    if k in s.sync {
      var w := s.sync[k];
      FilterMembers(Line(s.routers[w]), f, x);
      CountPositive(Line(s.routers[w]), x);
      SumAtLeast(s.routers, w, CountIn(x));
    }
    if f(x) && Held(s.routers, x) > 0 {
      var w := SumWitness(s.routers, x);
      assert RouterOk(s, w);
    }
    assert Places(s, x) <= 1;
  }

  /**
   * If nothing of the pair went through the slow queue, what was delivered followed by what
   * is still waiting is exactly the acceptance order minus the drops.
   */
  lemma PairOrderWithoutSlow(c: Config, s: State, p: Pair)
    requires Reachable(c, s) && NothingSlow(s, p)
    ensures Deliveries(s, p) + Waiting(s, p) == Filter(Range(|s.accepted|), Survives(s, p))
  {
    ReachableKeepsInv(c, s);
    var f, fast, waiting := InPair(s.accepted, p), DeliveriesIn(s, p, Fast), Waiting(s, p);
    DeliveriesAreFast(s, p);
    LaneInOrder(c, s, p, Fast);
    WaitingIncreasing(c, s, p);
    IncreasingFilter(Range(|s.accepted|), Survives(s, p));
    forall x: nat
      ensures x in fast + waiting <==> x in Filter(Range(|s.accepted|), Survives(s, p))
    {
      WhereSurvivorsAre(c, s, p, x);
      FilterMembers(Range(|s.accepted|), Survives(s, p), x);
      assert x < |s.accepted| ==> Range(|s.accepted|)[x] == x;
    }
    IncreasingUnique(fast + waiting, Filter(Range(|s.accepted|), Survives(s, p)));
  }

  lemma DeliveriesAreFast(s: State, p: Pair)
    requires NothingSlow(s, p)
    ensures Deliveries(s, p) == DeliveriesIn(s, p, Fast)
  {
    var f := InPair(s.accepted, p);
    LanesMerge(s.settled, f);
    var slow := DeliveriesIn(s, p, Slow);
    if slow != [] {
      FilterMembers(InLane(s.settled, Slow), f, slow[0]);
    }
    MergeWithNothing(Deliveries(s, p), DeliveriesIn(s, p, Fast));
  }

  lemma WaitingIncreasing(c: Config, s: State, p: Pair)
    requires Inv(c, s)
    ensures Increasing(DeliveriesIn(s, p, Fast) + Waiting(s, p))
  {
    var f, fast, waiting := InPair(s.accepted, p), DeliveriesIn(s, p, Fast), Waiting(s, p);
    OrderedPairIncreasing(s.accepted, FastTrack(s), p);
    var k := p.to + p.sender;
    if k in s.sync {
      var line := Line(s.routers[s.sync[k]]);
      assert RouterOk(s, s.sync[k]);
      IncreasingFilter(line, f);
      forall i, j | 0 <= i < |fast| && 0 <= j < |waiting|
        ensures fast[i] < waiting[j]
      {
        FilterMembers(FastTrack(s), f, fast[i]);
        FilterMembers(line, f, waiting[j]);
        var m :| 0 <= m < |FastTrack(s)| && FastTrack(s)[m] == fast[i];
        assert SameKey(s.accepted, FastTrack(s)[m], waiting[j]);
      }
    }
  }

  // ---------------------------------------------------------------------------
  // When the documented total order holds
  // ---------------------------------------------------------------------------

  ghost predicate InOrder(s: State, p: Pair) {
    Increasing(Deliveries(s, p))
  }

  lemma InOrderWithoutFailure(c: Config, s: State, p: Pair)
    requires Reachable(c, s) && !(c.mayFail(p) && c.maxRouters > 0)
    ensures InOrder(s, p)
  {
    ReachableKeepsInv(c, s);
    if c.maxRouters == 0 {
      assert s.routers == [];
    }
    DeliveriesAreFast(s, p);
    LaneInOrder(c, s, p, Fast);
  }

  function Chat(p: Pair): Envelope {
    Envelope(p.to, p.sender, [])
  }

  lemma StartReachable(c: Config) returns (s: State)
    ensures Init(s) && Reachable(c, s)
  {
    s := State([], map[], [], [], None, [], [], multiset{});
    assert IsRun(c, [s]);
  }

  /** An idle router takes its next envelope, fails it over the DHT and passes the length check. */
  lemma FailNext(c: Config, s: State, w: nat) returns (s': State)
    requires Reachable(c, s) && w < |s.routers| && s.routers[w].hand.Idle? && s.routers[w].queue != []
    requires |s.slow| < SLOW_QUEUE_SIZE - 1 && MayFail(c, s, s.routers[w].queue[0])
    ensures Reachable(c, s')
    ensures var r := s.routers[w];
            s' == Put(s, w, r.(queue := r.queue[1..], hand := Reserved(r.queue[0])))
                  .(tries := s.tries + multiset{r.queue[0]})
  {
    var r := s.routers[w];
    var id := r.queue[0];
    var t := Put(s, w, r.(hand := Routing(id), queue := r.queue[1..]));
    Extend(c, s, Route(w, Take), t);
    var u := Grip(t.(tries := t.tries + multiset{id}), w, Failed(id));
    Extend(c, t, Route(w, TryDht(View(true, false, false, false, false), false)), u);
    s' := Grip(u, w, Reserved(id));
    Extend(c, u, Route(w, Check), s');
  }

  lemma SendNext(c: Config, s: State, w: nat) returns (s': State)
    requires Reachable(c, s) && w < |s.routers| && s.routers[w].hand.Reserved? && |s.slow| < SLOW_QUEUE_SIZE
    ensures Reachable(c, s') && s' == Grip(s, w, Idle).(slow := s.slow + [s.routers[w].hand.id])
  {
    s' := Grip(s, w, Idle).(slow := s.slow + [s.routers[w].hand.id]);
    Extend(c, s, Route(w, Send), s');
  }

  /** Two envelopes of the pair wait in its queue. */
  lemma TwoAccepted(c: Config, p: Pair) returns (s: State)
    requires c.maxRouters > 0
    ensures Reachable(c, s) && s.accepted == [Item(Chat(p), true), Item(Chat(p), true)]
    ensures s.routers == [Router(Some(p.to + p.sender), [0, 1], Idle)]
    ensures s.slow == [] && s.slowHand == None && s.settled == []
  {
    var e, k := Chat(p), p.to + p.sender;
    var t := StartReachable(c);
    s := t.(routers := t.routers + [Router(Some(k), [], Idle)], sync := t.sync[k := 0]);
    Extend(c, t, Arrive(Open(k)), s);
    t := Queued(s, e);
    Extend(c, s, Arrive(Accept(e)), t);
    s := Queued(t, e);
    Extend(c, t, Arrive(Accept(e)), s);
    assert s.routers[0].queue == [0, 1];
    assert s.routers == [Router(Some(k), [0, 1], Idle)];
  }

  function Queued(s: State, e: Envelope): State
    requires s.routers != []
  {
    Put(s.(accepted := s.accepted + [Item(e, true)]), 0,
        s.routers[0].(queue := s.routers[0].queue + [|s.accepted|]))
  }

  /** A later envelope overtakes an earlier one whose first attempt over the DHT failed. */
  lemma Overtaken(c: Config, p: Pair) returns (s: State)
    requires c.mayFail(p) && c.maxRouters > 0
    ensures Reachable(c, s) && !InOrder(s, p)
  {
    var t := TwoAccepted(c, p);
    t := FailNext(c, t, 0);
    t := SendNext(c, t, 0);
    s := Put(t, 0, t.routers[0].(hand := Routing(1), queue := t.routers[0].queue[1..]));
    Extend(c, t, Route(0, Take), s);
    t := Grip(s, 0, Idle).(settled := s.settled + [Outcome(1, Fast)]);
    Extend(c, s, Route(0, RouteDirectly(View(true, false, false, false, true), true)), t);
    s := t.(slowHand := Some(0), slow := t.slow[1..]);
    Extend(c, t, Consume(SlowTake), s);
    t := s.(slowHand := None, tries := s.tries + multiset{0}, settled := s.settled + [Outcome(0, Slow)]);
    Extend(c, s, Consume(SlowTry(true)), t);
    s := t;
    OvertakenOrder(s, p);
  }

  lemma OvertakenOrder(s: State, p: Pair)
    requires s.accepted == [Item(Chat(p), true), Item(Chat(p), true)]
    requires s.settled == [Outcome(1, Fast), Outcome(0, Slow)]
    ensures !InOrder(s, p)
  {
    var ids := SettledIds(s.settled);
    assert ids[0] == 1 && ids[1] == 0;
    FilterAll(ids, InPair(s.accepted, p));
  }

  lemma {:induction false} FilterAll(xs: seq<nat>, f: nat -> bool)
    requires forall i :: 0 <= i < |xs| ==> f(xs[i])
    ensures Filter(xs, f) == xs
  {
    if xs == [] {
    } else {
      FilterAll(xs[..|xs| - 1], f);
    }
  }

  /** The pair is always delivered in acceptance order exactly when its first DHT attempt cannot fail. */
  lemma TotalOrder(c: Config, p: Pair)
    ensures (forall s :: Reachable(c, s) ==> InOrder(s, p)) <==> !(c.mayFail(p) && c.maxRouters > 0)
  {
    if c.mayFail(p) && c.maxRouters > 0 {
      var s := Overtaken(c, p);
    } else {
      forall s | Reachable(c, s)
        ensures InOrder(s, p)
      {
        InOrderWithoutFailure(c, s, p);
      }
    }
  }

  // ---------------------------------------------------------------------------
  // When a send to the slow queue can block
  // ---------------------------------------------------------------------------

  ghost predicate Blocked(s: State, w: nat) {
    w < |s.routers| && s.routers[w].hand.Reserved? && |s.slow| >= SLOW_QUEUE_SIZE
  }

  /** With N concurrent routers, queue length plus pending sends stays within SlowQueueSize - 2 + N. */
  lemma SlowQueueReservation(c: Config, s: State)
    requires Reachable(c, s)
    ensures Claimed(s) <= SLOW_QUEUE_SIZE - 2 + c.maxRouters
    ensures c.maxRouters <= 2 ==> forall w :: !Blocked(s, w)
  {
    ReachableKeepsInv(c, s);
    forall w | Blocked(s, w)
      ensures c.maxRouters > 2
    {
      SumAtLeast(s.routers, w, Reserving());
    }
  }

  const CALLER: Router := Router(None, [], Idle)

  lemma ThreeCallers(c: Config) returns (s: State)
    requires c.maxRouters >= 3
    ensures Reachable(c, s) && s.routers == [CALLER, CALLER, CALLER] && s.slow == []
  {
    var t := StartReachable(c);
    s := t.(routers := t.routers + [CALLER]);
    Extend(c, t, Arrive(Spawn), s);
    t := s.(routers := s.routers + [CALLER]);
    Extend(c, s, Arrive(Spawn), t);
    s := t.(routers := t.routers + [CALLER]);
    Extend(c, t, Arrive(Spawn), s);
  }

  /** A caller submits an envelope of a failing pair and gets as far as the pending send. */
  lemma Reserve(c: Config, p: Pair, s: State, w: nat) returns (s': State)
    requires Reachable(c, s) && c.mayFail(p) && w < |s.routers| && s.routers[w] == CALLER
    requires |s.slow| < SLOW_QUEUE_SIZE - 1
    ensures Reachable(c, s') && s'.routers == s.routers[w := Router(None, [], Reserved(|s.accepted|))]
    ensures s'.slow == s.slow
  {
    var id := |s.accepted|;
    var t := Put(s.(accepted := s.accepted + [Item(Chat(p), false)]), w, CALLER.(queue := CALLER.queue + [id]));
    Extend(c, s, Arrive(Submit(w, Chat(p))), t);
    assert t.routers[w].queue == [id];
    s' := FailNext(c, t, w);
    assert [id][1..] == [];
  }

  lemma {:induction false} FillSlowQueue(c: Config, p: Pair, n: nat) returns (s: State)
    requires c.maxRouters >= 3 && c.mayFail(p) && n <= SLOW_QUEUE_SIZE - 2
    ensures Reachable(c, s) && s.routers == [CALLER, CALLER, CALLER] && |s.slow| == n
  {
    if n == 0 {
      s := ThreeCallers(c);
    } else {
      var t := FillSlowQueue(c, p, n - 1);
      t := Reserve(c, p, t, 0);
      s := SendNext(c, t, 0);
      assert s.routers == [CALLER, CALLER, CALLER];
    }
  }

  lemma ThirdSendBlocks(c: Config, p: Pair) returns (s: State)
    requires c.maxRouters >= 3 && c.mayFail(p)
    ensures Reachable(c, s) && Blocked(s, 2)
  {
    s := FillSlowQueue(c, p, SLOW_QUEUE_SIZE - 2);
    s := Reserve(c, p, s, 0);
    s := Reserve(c, p, s, 1);
    s := Reserve(c, p, s, 2);
    s := SendNext(c, s, 0);
    s := SendNext(c, s, 1);
  }

  /** A send to the slow queue never blocks exactly with at most two routers, or with nothing that can fail. */
  lemma SendNeverBlocks(c: Config)
    ensures (forall s, w :: Reachable(c, s) ==> !Blocked(s, w))
            <==> c.maxRouters <= 2 || forall p :: !c.mayFail(p)
  {
    if c.maxRouters <= 2 || forall p :: !c.mayFail(p) {
      forall s, w | Reachable(c, s)
        ensures !Blocked(s, w)
      {
        SlowQueueReservation(c, s);
        ReachableKeepsInv(c, s);
      }
    } else {
      var p :| c.mayFail(p);
      var s := ThirdSendBlocks(c, p);
    }
  }
}
