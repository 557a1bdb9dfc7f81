/**
 * The envelope scheduler of a DHT peer: one bounded queue and one worker per (To, Sender)
 * pair, other callers of `RouteEnvelope`, and a global slow queue with one consumer.
 * States before `Close`; looking a pair up and creating its queue is one step here, and
 * `PairQueues` shows when the code with its two steps behaves like this.
 */
module Scheduler {
  import opened Wrappers
  import opened Envelopes
  import opened Sequences

  const PAIR_QUEUE_SIZE: nat := 1000
  const SLOW_QUEUE_SIZE: nat := 100

  datatype Pair = Pair(to: string, sender: string)

  /** `maxRouters` bounds the concurrent callers of `RouteEnvelope`; `mayFail` says for which
      pairs the first attempt over the DHT may fail. */
  datatype Config = Config(maxRouters: nat, mayFail: Pair -> bool)

  function PairOf(e: Envelope): Pair {
    Pair(e.to, e.sender)
  }

  /** The key of `syncMessages`: a concatenation, so two pairs may share one queue. */
  function Key(e: Envelope): string {
    e.to + e.sender
  }

  /** An accepted envelope; its place in the acceptance order is its number from here on. */
  datatype Item = Item(envelope: Envelope, delegate: bool)

  datatype Hand =
    | Idle
    | Routing(id: nat)
    | Failed(id: nat)    // the DHT attempt failed; slow queue not yet checked
    | Reserved(id: nat)  // the slow queue was short enough; send pending

  /** The worker of a pair queue, or with no key another caller and its backlog. */
  datatype Router = Router(key: Option<string>, queue: seq<nat>, hand: Hand)

  datatype Lane = Fast | Slow

  datatype Outcome = Outcome(id: nat, lane: Lane)

  datatype Cause = PairQueueFull | RouteFailed | SlowQueueFull | SlowFailed

  datatype Drop = Drop(id: nat, cause: Cause)

  datatype State = State(
    accepted: seq<Item>, sync: map<string, nat>, routers: seq<Router>,
    slow: seq<nat>, slowHand: Option<nat>, settled: seq<Outcome>, dropped: seq<Drop>, tries: multiset<nat>)

  /** What `RouteEnvelope` finds out about an envelope before choosing a branch. */
  datatype View = View(hasRecord: bool, mailboxTakes: bool, isMine: bool, isDelegate: bool, isRelay: bool)

  /** The sender has a record, and the target is known neither to the mailbox nor to the node itself. */
  predicate IsRemote(v: View) {
    v.hasRecord && !v.mailboxTakes && !v.isMine && !v.isDelegate && !v.isRelay
  }

  datatype Branch = NoRecord | ToMailbox | ToOwnAgent | ToDelegate | ToRelay | ToDht

  /** The routing cascade. */
  function Destination(v: View): Branch {
    if !v.hasRecord then NoRecord
    else if v.mailboxTakes then ToMailbox
    else if v.isMine then ToOwnAgent
    else if v.isDelegate then ToDelegate
    else if v.isRelay then ToRelay
    else ToDht
  }

  /** A delegate connection opens a pair queue or pushes to it; another caller appears or submits. */
  datatype Arrival =
    | Open(key: string)
    | Spawn
    | Accept(e: Envelope)
    | Submit(w: nat, e: Envelope)

  /** What a router does next. */
  datatype Action =
    | Take
    | RouteDirectly(view: View, ok: bool)
    | TryDht(view: View, ok: bool)
    | Check
    | Send

  /** What the consumer of the slow queue does next. */
  datatype Drain = SlowTake | SlowTry(ok: bool)

  datatype Step = Arrive(arrival: Arrival) | Route(w: nat, action: Action) | Consume(drain: Drain)

  ghost predicate Init(s: State) {
    s == State([], map[], [], [], None, [], [], multiset{})
  }

  function Put(s: State, w: nat, r: Router): State
    requires w < |s.routers|
  {
    s.(routers := s.routers[w := r])
  }

  function Grip(s: State, w: nat, hand: Hand): State
    requires w < |s.routers|
  {
    Put(s, w, s.routers[w].(hand := hand))
  }

  /** The first attempt over the DHT may fail for envelope `id`. */
  ghost predicate MayFail(c: Config, s: State, id: nat) {
    id < |s.accepted| && c.mayFail(PairOf(s.accepted[id].envelope))
  }

  ghost predicate Arrives(c: Config, s: State, a: Arrival, s': State) {
    match a
    case Open(key) =>
      && key !in s.sync && |s.routers| < c.maxRouters
      && s' == s.(routers := s.routers + [Router(Some(key), [], Idle)], sync := s.sync[key := |s.routers|])
    case Spawn =>
      && |s.routers| < c.maxRouters
      && s' == s.(routers := s.routers + [Router(None, [], Idle)])
    case Accept(e) =>
      && Key(e) in s.sync && s.sync[Key(e)] < |s.routers|
      && var w, id := s.sync[Key(e)], |s.accepted|;
      && var r, t := s.routers[w], s.(accepted := s.accepted + [Item(e, true)]);
      && s' == (if |r.queue| < PAIR_QUEUE_SIZE then Put(t, w, r.(queue := r.queue + [id]))
                else t.(dropped := s.dropped + [Drop(id, PairQueueFull)]))
    case Submit(w, e) =>
      && w < |s.routers| && s.routers[w].key.None?
      && var r, t := s.routers[w], s.(accepted := s.accepted + [Item(e, false)]);
      && s' == Put(t, w, r.(queue := r.queue + [|s.accepted|]))
  }

  ghost predicate Routes(c: Config, s: State, w: nat, a: Action, s': State) {
    && w < |s.routers|
    && var r := s.routers[w];
    match a
    case Take =>
      && r.hand.Idle? && r.queue != []
      && s' == Put(s, w, r.(hand := Routing(r.queue[0]), queue := r.queue[1..]))
    case RouteDirectly(view, ok) =>
      && r.hand.Routing?
      && !Destination(view).ToDht? && (Destination(view).NoRecord? ==> !ok) && (Destination(view).ToMailbox? ==> ok)
      && s' == (if ok then Grip(s, w, Idle).(settled := s.settled + [Outcome(r.hand.id, Fast)])
                else Grip(s, w, Idle).(dropped := s.dropped + [Drop(r.hand.id, RouteFailed)]))
    case TryDht(view, ok) =>
      && r.hand.Routing? && Destination(view).ToDht?
      && (!ok ==> MayFail(c, s, r.hand.id))
      && var t := s.(tries := s.tries + multiset{r.hand.id});
      && s' == (if ok then Grip(t, w, Idle).(settled := s.settled + [Outcome(r.hand.id, Fast)])
                else Grip(t, w, Failed(r.hand.id)))
    case Check =>
      && r.hand.Failed?
      && s' == (if |s.slow| >= SLOW_QUEUE_SIZE - 1
                then Grip(s, w, Idle).(dropped := s.dropped + [Drop(r.hand.id, SlowQueueFull)])
                else Grip(s, w, Reserved(r.hand.id)))
    case Send =>
      // a send on a full channel blocks
      && r.hand.Reserved? && |s.slow| < SLOW_QUEUE_SIZE
      && s' == Grip(s, w, Idle).(slow := s.slow + [r.hand.id])
  }

  ghost predicate Drains(s: State, d: Drain, s': State) {
    match d
    case SlowTake =>
      && s.slowHand.None? && s.slow != []
      && s' == s.(slowHand := Some(s.slow[0]), slow := s.slow[1..])
    case SlowTry(ok) =>
      && s.slowHand.Some?
      && var id := s.slowHand.value;
      && var t := s.(slowHand := None, tries := s.tries + multiset{id});
      && s' == (if ok then t.(settled := s.settled + [Outcome(id, Slow)])
                else t.(dropped := s.dropped + [Drop(id, SlowFailed)]))
  }

  ghost predicate Next(c: Config, s: State, step: Step, s': State) {
    match step
    case Arrive(a) => Arrives(c, s, a, s')
    case Route(w, a) => Routes(c, s, w, a, s')
    case Consume(d) => Drains(s, d, s')
  }

  ghost predicate Steps(c: Config, s: State, s': State) {
    exists step :: Next(c, s, step, s')
  }

  ghost predicate IsRun(c: Config, run: seq<State>) {
    && run != [] && Init(run[0])
    && forall i :: 0 < i < |run| ==> Steps(c, run[i - 1], run[i])
  }

  ghost predicate Reachable(c: Config, s: State) {
    exists run :: IsRun(c, run) && run[|run| - 1] == s
  }

  lemma Extend(c: Config, s: State, step: Step, s': State)
    requires Reachable(c, s) && Next(c, s, step, s')
    ensures Reachable(c, s')
  {
    var run :| IsRun(c, run) && run[|run| - 1] == s;
    var longer := run + [s'];
    assert Steps(c, s, s');
    forall i | 0 < i < |longer|
      ensures Steps(c, longer[i - 1], longer[i])
    {
      assert longer[i - 1] == run[i - 1];
      assert i < |run| ==> longer[i] == run[i];
    }
    assert IsRun(c, longer) && longer[|longer| - 1] == s';
  }

  /** `s` is reachable with some bound on the number of routers; the code sets none. */
  ghost predicate Scheduled(mayFail: Pair -> bool, s: State) {
    exists n: nat :: Reachable(Config(n, mayFail), s)
  }

  lemma MoreRouters(n: nat, m: nat, mayFail: Pair -> bool, s: State)
    requires n <= m && Reachable(Config(n, mayFail), s)
    ensures Reachable(Config(m, mayFail), s)
  {
    var few, many := Config(n, mayFail), Config(m, mayFail);
    var run :| IsRun(few, run) && run[|run| - 1] == s;
    forall i | 0 < i < |run|
      ensures Steps(many, run[i - 1], run[i])
    {
      assert Steps(few, run[i - 1], run[i]);
      var step :| Next(few, run[i - 1], step, run[i]);
      assert Next(many, run[i - 1], step, run[i]);
    }
    assert IsRun(many, run);
  }

  lemma StartScheduled(mayFail: Pair -> bool, s: State)
    requires Init(s)
    ensures Scheduled(mayFail, s)
  {
    assert IsRun(Config(0, mayFail), [s]);
    assert Reachable(Config(0, mayFail), s);
  }

  /** A configuration in which one more router may start. */
  function Room(mayFail: Pair -> bool, s: State): Config {
    Config(|s.routers| + 1, mayFail)
  }

  lemma ExtendScheduled(mayFail: Pair -> bool, s: State, step: Step, s': State)
    requires Scheduled(mayFail, s) && Next(Room(mayFail, s), s, step, s')
    ensures Scheduled(mayFail, s')
  {
    var n: nat :| Reachable(Config(n, mayFail), s);
    var m := if n <= |s.routers| then |s.routers| + 1 else n;
    MoreRouters(n, m, mayFail, s);
    assert Next(Config(m, mayFail), s, step, s');
    Extend(Config(m, mayFail), s, step, s');
  }

  /** Only opening a queue changes which keys have one. */
  lemma KeysStay(c: Config, s: State, step: Step, s': State)
    requires Next(c, s, step, s') && !(step.Arrive? && step.arrival.Open?)
    ensures s'.sync == s.sync
    ensures |s'.routers| == |s.routers| + (if step.Arrive? && step.arrival.Spawn? then 1 else 0)
    ensures forall w :: 0 <= w < |s.routers| ==> s'.routers[w].key == s.routers[w].key
  {
    if step.Route? {
      RoutesAdvances(c, s, step.w, step.action, s');
    }
  }

  // ---------------------------------------------------------------------------
  // Where an envelope is
  // ---------------------------------------------------------------------------

  function InHand(h: Hand): seq<nat> {
    if h.Idle? then [] else [h.id]
  }

  /** What a router holds, oldest first. */
  function Line(r: Router): seq<nat> {
    InHand(r.hand) + r.queue
  }

  function Sum(rs: seq<Router>, f: Router -> nat): nat {
    if rs == [] then 0 else Sum(rs[..|rs| - 1], f) + f(rs[|rs| - 1])
  }

  function CountIn(x: nat): Router -> nat {
    r => Count(Line(r), x)
  }

  function Held(rs: seq<Router>, x: nat): nat {
    Sum(rs, CountIn(x))
  }

  /** The envelopes settled in a lane, in settlement order. */
  function InLane(settled: seq<Outcome>, lane: Lane): seq<nat> {
    if settled == [] then [] else
    var before, last := InLane(settled[..|settled| - 1], lane), settled[|settled| - 1];
    if last.lane == lane then before + [last.id] else before
  }

  function DroppedIds(dropped: seq<Drop>): (ids: seq<nat>)
    ensures |ids| == |dropped| && forall i :: 0 <= i < |ids| ==> ids[i] == dropped[i].id
  {
    seq(|dropped|, i requires 0 <= i < |dropped| => dropped[i].id)
  }

  /** Everything that ever entered the slow queue and was not dropped, oldest first. */
  function SlowTrack(s: State): seq<nat> {
    InLane(s.settled, Slow) + (if s.slowHand.Some? then [s.slowHand.value] else []) + s.slow
  }

  function FastTrack(s: State): seq<nat> {
    InLane(s.settled, Fast)
  }

  /** How many places envelope `x` is in: routers, settled, slow queue or slow sender, dropped. */
  function Places(s: State, x: nat): nat {
    Held(s.routers, x) + Count(FastTrack(s), x) + Count(SlowTrack(s), x) + Count(DroppedIds(s.dropped), x)
  }

  ghost predicate Conserved(s: State) {
    forall x: nat :: Places(s, x) == if x < |s.accepted| then 1 else 0
  }

  lemma {:induction false} SumUpdate(rs: seq<Router>, w: nat, r: Router, f: Router -> nat)
    requires w < |rs|
    ensures Sum(rs[w := r], f) + f(rs[w]) == Sum(rs, f) + f(r)
  {
    var n := |rs| - 1;
    if w == n {
      assert rs[w := r][..n] == rs[..n];
    } else {
      assert rs[w := r][..n] == rs[..n][w := r];
      SumUpdate(rs[..n], w, r, f);
    }
  }

  lemma SumAppend(rs: seq<Router>, r: Router, f: Router -> nat)
    ensures Sum(rs + [r], f) == Sum(rs, f) + f(r)
  {
    assert (rs + [r])[..|rs|] == rs;
  }

  lemma InLaneAppend(settled: seq<Outcome>, o: Outcome, lane: Lane)
    ensures InLane(settled + [o], lane) == InLane(settled, lane) + (if o.lane == lane then [o.id] else [])
  {
    assert (settled + [o])[..|settled|] == settled;
  }

  /** Router `w` lets go of the envelope in its hand. */
  lemma HeldRelease(s: State, w: nat, x: nat)
    requires w < |s.routers| && !s.routers[w].hand.Idle?
    ensures Held(Grip(s, w, Idle).routers, x) + Count([s.routers[w].hand.id], x) == Held(s.routers, x)
  {
    var r := s.routers[w];
    SumUpdate(s.routers, w, r.(hand := Idle), CountIn(x));
    CountConcat([r.hand.id], r.queue, x);
    assert Line(r.(hand := Idle)) == r.queue;
  }

  /** Router `w` is handed one more envelope. */
  lemma HeldAdmit(s: State, w: nat, id: nat, x: nat)
    requires w < |s.routers|
    ensures var r := s.routers[w];
            Held(s.routers[w := r.(queue := r.queue + [id])], x) == Held(s.routers, x) + Count([id], x)
  {
    var r := s.routers[w];
    SumUpdate(s.routers, w, r.(queue := r.queue + [id]), CountIn(x));
    assert Line(r.(queue := r.queue + [id])) == Line(r) + [id];
    CountConcat(Line(r), [id], x);
  }

  lemma SettleFast(s: State, id: nat, x: nat)
    ensures var s' := s.(settled := s.settled + [Outcome(id, Fast)]);
            SlowTrack(s') == SlowTrack(s) && FastTrack(s') == FastTrack(s) + [id]
            && Count(FastTrack(s'), x) == Count(FastTrack(s), x) + Count([id], x)
  {
    InLaneAppend(s.settled, Outcome(id, Fast), Fast);
    InLaneAppend(s.settled, Outcome(id, Fast), Slow);
    CountConcat(FastTrack(s), [id], x);
  }

  lemma DropOne(dropped: seq<Drop>, d: Drop, x: nat)
    ensures Count(DroppedIds(dropped + [d]), x) == Count(DroppedIds(dropped), x) + Count([d.id], x)
  {
    assert DroppedIds(dropped + [d]) == DroppedIds(dropped) + [d.id];
    CountConcat(DroppedIds(dropped), [d.id], x);
  }

  /** Routers and drops aside, the state holds envelopes where it did. */
  ghost predicate SameElsewhere(s: State, s': State) {
    s'.settled == s.settled && s'.slow == s.slow && s'.slowHand == s.slowHand
  }

  lemma PlacesNewRouter(s: State, r: Router, s': State, x: nat)
    requires SameElsewhere(s, s') && s'.dropped == s.dropped && s'.routers == s.routers + [r] && Line(r) == []
    ensures Places(s', x) == Places(s, x)
  {
    SumAppend(s.routers, r, CountIn(x));
  }

  lemma PlacesSameLine(s: State, w: nat, r: Router, s': State, x: nat)
    requires SameElsewhere(s, s') && s'.dropped == s.dropped && w < |s.routers|
    requires s'.routers == s.routers[w := r] && Line(r) == Line(s.routers[w])
    ensures Places(s', x) == Places(s, x)
  {
    SumUpdate(s.routers, w, r, CountIn(x));
  }

  /** A new envelope is queued or dropped. */
  lemma PlacesAccept(s: State, w: nat, id: nat, s': State, x: nat)
    requires SameElsewhere(s, s') && w < |s.routers|
    requires var r := s.routers[w];
             || (s'.routers == s.routers[w := r.(queue := r.queue + [id])] && s'.dropped == s.dropped)
             || (s'.routers == s.routers && s'.dropped == s.dropped + [Drop(id, PairQueueFull)])
    ensures Places(s', x) == Places(s, x) + Count([id], x)
  {
    if s'.dropped == s.dropped {
      HeldAdmit(s, w, id, x);
    } else {
      DropOne(s.dropped, Drop(id, PairQueueFull), x);
    }
  }

  lemma PlacesSettle(s: State, w: nat, s': State, x: nat)
    requires w < |s.routers| && !s.routers[w].hand.Idle? && s'.routers == Grip(s, w, Idle).routers
    requires s'.settled == s.settled + [Outcome(s.routers[w].hand.id, Fast)]
    requires s'.dropped == s.dropped && s'.slow == s.slow && s'.slowHand == s.slowHand
    ensures Places(s', x) == Places(s, x)
  {
    HeldRelease(s, w, x);
    SettleFast(s, s.routers[w].hand.id, x);
  }

  lemma PlacesDrop(s: State, w: nat, cause: Cause, s': State, x: nat)
    requires w < |s.routers| && !s.routers[w].hand.Idle? && s'.routers == Grip(s, w, Idle).routers
    requires SameElsewhere(s, s') && s'.dropped == s.dropped + [Drop(s.routers[w].hand.id, cause)]
    ensures Places(s', x) == Places(s, x)
  {
    HeldRelease(s, w, x);
    DropOne(s.dropped, Drop(s.routers[w].hand.id, cause), x);
  }

  lemma PlacesSend(s: State, w: nat, s': State, x: nat)
    requires w < |s.routers| && !s.routers[w].hand.Idle? && s'.routers == Grip(s, w, Idle).routers
    requires s'.settled == s.settled && s'.dropped == s.dropped && s'.slowHand == s.slowHand
    requires s'.slow == s.slow + [s.routers[w].hand.id]
    ensures Places(s', x) == Places(s, x)
  {
    HeldRelease(s, w, x);
    assert SlowTrack(s') == SlowTrack(s) + [s.routers[w].hand.id];
    CountConcat(SlowTrack(s), [s.routers[w].hand.id], x);
  }

  /** The consumer of the slow queue moves nothing along its track, unless it drops an envelope. */
  lemma SlowTrackDrains(s: State, d: Drain, s': State)
    requires Drains(s, d, s')
    ensures FastTrack(s') == FastTrack(s)
    ensures d.SlowTry? && !d.ok ==>
              && SlowTrack(s) == InLane(s.settled, Slow) + [s.slowHand.value] + s.slow
              && SlowTrack(s') == InLane(s.settled, Slow) + s.slow
    ensures !(d.SlowTry? && !d.ok) ==> SlowTrack(s') == SlowTrack(s)
  {
    if d.SlowTry? && d.ok {
      InLaneAppend(s.settled, Outcome(s.slowHand.value, Slow), Slow);
      InLaneAppend(s.settled, Outcome(s.slowHand.value, Slow), Fast);
    }
  }

  lemma PlacesArrives(c: Config, s: State, a: Arrival, s': State, x: nat)
    requires Arrives(c, s, a, s')
    ensures Places(s', x) == Places(s, x) + (if |s'.accepted| > |s.accepted| && x == |s.accepted| then 1 else 0)
  {
    match a
    case Open(key) => PlacesNewRouter(s, Router(Some(key), [], Idle), s', x);
    case Spawn => PlacesNewRouter(s, Router(None, [], Idle), s', x);
    case Accept(e) => PlacesAccept(s, s.sync[Key(e)], |s.accepted|, s', x);
    case Submit(w, _) => PlacesAccept(s, w, |s.accepted|, s', x);
  }

  lemma PlacesRoutes(c: Config, s: State, w: nat, a: Action, s': State, x: nat)
    requires Routes(c, s, w, a, s')
    ensures Places(s', x) == Places(s, x)
  {
    if s'.settled != s.settled {
      PlacesSettle(s, w, s', x);
    } else if s'.dropped != s.dropped {
      PlacesDrop(s, w, if a.Check? then SlowQueueFull else RouteFailed, s', x);
    } else if a.Send? {
      PlacesSend(s, w, s', x);
    } else {
      PlacesSameLine(s, w, s'.routers[w], s', x);
    }
  }

  lemma PlacesDrains(s: State, d: Drain, s': State, x: nat)
    requires Drains(s, d, s')
    ensures Places(s', x) == Places(s, x)
  {
    SlowTrackDrains(s, d, s');
    if d.SlowTry? && !d.ok {
      var id, settled := s.slowHand.value, InLane(s.settled, Slow);
      DropOne(s.dropped, Drop(id, SlowFailed), x);
      CountConcat(settled + [id], s.slow, x);
      CountConcat(settled, [id], x);
      CountConcat(settled, s.slow, x);
    }
  }

  /** A step moves an envelope from one place to another, or accepts a new one. */
  lemma ConservedStep(c: Config, s: State, step: Step, s': State)
    requires Conserved(s) && Next(c, s, step, s')
    ensures Conserved(s')
  {
    forall x: nat
      ensures Places(s', x) == if x < |s'.accepted| then 1 else 0
    {
      match step
      case Arrive(a) => PlacesArrives(c, s, a, s', x);
      case Route(w, a) => PlacesRoutes(c, s, w, a, s', x);
      case Consume(d) => PlacesDrains(s, d, s', x);
    }
  }

  // ---------------------------------------------------------------------------
  // In which order
  // ---------------------------------------------------------------------------

  /** Both came from delegate connections and went through the same pair queue. */
  predicate SameKey(acc: seq<Item>, x: nat, y: nat) {
    && x < |acc| && y < |acc| && acc[x].delegate && acc[y].delegate
    && Key(acc[x].envelope) == Key(acc[y].envelope)
  }

  /** Envelopes of one queue appear in acceptance order. */
  ghost predicate Ordered(acc: seq<Item>, xs: seq<nat>) {
    && (forall i :: 0 <= i < |xs| ==> xs[i] < |acc|)
    && forall i, j :: 0 <= i < j < |xs| && SameKey(acc, xs[i], xs[j]) ==> xs[i] < xs[j]
  }

  /** An item a router with this key may hold. */
  predicate Belongs(item: Item, key: Option<string>) {
    if key.Some? then item.delegate && Key(item.envelope) == key.value else !item.delegate
  }

  /** A router holds, in acceptance order, envelopes of its own queue only. */
  ghost predicate RouterOk(s: State, w: nat)
    requires w < |s.routers|
  {
    var r := s.routers[w];
    && Increasing(Line(r))
    && (r.key.Some? ==> r.key.value in s.sync && s.sync[r.key.value] == w)
    && forall i :: 0 <= i < |Line(r)| ==>
         && Line(r)[i] < |s.accepted|
         && Belongs(s.accepted[Line(r)[i]], r.key)
  }

  ghost predicate SyncOk(s: State) {
    forall k :: k in s.sync ==> s.sync[k] < |s.routers| && s.routers[s.sync[k]].key == Some(k)
  }

  ghost predicate RoutersOk(s: State) {
    SyncOk(s) && forall w :: 0 <= w < |s.routers| ==> RouterOk(s, w)
  }

  /** Envelope `x` of track `xs` left its pair queue before everything still there. */
  ghost predicate Ahead(s: State, xs: seq<nat>) {
    forall i, w, y :: 0 <= i < |xs| && 0 <= w < |s.routers| && y in Line(s.routers[w]) && SameKey(s.accepted, xs[i], y)
                      ==> xs[i] < y
  }

  ghost predicate TrackOk(s: State, xs: seq<nat>) {
    Ordered(s.accepted, xs) && Ahead(s, xs)
  }

  ghost predicate OrderOk(s: State) {
    RoutersOk(s) && TrackOk(s, FastTrack(s)) && TrackOk(s, SlowTrack(s))
  }

  /** A router's line loses its head, gains the newest envelope, or stays. */
  ghost predicate LineMoves(s: State, w: nat, s': State)
    requires w < |s.routers| && w < |s'.routers|
  {
    var line, line' := Line(s.routers[w]), Line(s'.routers[w]);
    || line' == line
    || (line != [] && line' == line[1..])
    || (|s'.accepted| == |s.accepted| + 1 && line' == line + [|s.accepted|]
        && Belongs(s'.accepted[|s.accepted|], s.routers[w].key))
  }

  lemma LineSteps(r: Router, id: nat)
    ensures Line(r.(queue := r.queue + [id])) == Line(r) + [id]
    ensures r.hand.Idle? && r.queue != [] ==> Line(r.(hand := Routing(r.queue[0]), queue := r.queue[1..])) == Line(r)
    ensures !r.hand.Idle? ==> Line(r) != [] && Line(r.(hand := Idle)) == Line(r)[1..]
  {
  }

  /** Acceptance only grows, known routers keep their key while their lines move, new ones are empty. */
  ghost predicate QueuesAdvance(s: State, s': State) {
    && s.accepted <= s'.accepted && |s.routers| <= |s'.routers|
    && (forall w :: 0 <= w < |s.routers| ==> s'.routers[w].key == s.routers[w].key && LineMoves(s, w, s'))
    && forall w :: |s.routers| <= w < |s'.routers| ==> Line(s'.routers[w]) == []
  }

  lemma ArrivesAdvances(c: Config, s: State, a: Arrival, s': State)
    requires RoutersOk(s) && Arrives(c, s, a, s')
    ensures QueuesAdvance(s, s')
  {
    forall w | 0 <= w < |s.routers|
      ensures s'.routers[w].key == s.routers[w].key && LineMoves(s, w, s')
    {
      LineSteps(s.routers[w], |s.accepted|);
    }
  }

  lemma RoutesAdvances(c: Config, s: State, w: nat, a: Action, s': State)
    requires Routes(c, s, w, a, s')
    ensures QueuesAdvance(s, s')
    ensures s'.accepted == s.accepted && s'.sync == s.sync && s'.routers == s.routers[w := s'.routers[w]]
  {
    LineSteps(s.routers[w], 0);
    assert s'.routers[w].key == s.routers[w].key && LineMoves(s, w, s');
    forall v | 0 <= v < |s.routers|
      ensures s'.routers[v].key == s.routers[v].key && LineMoves(s, v, s')
    {
      assert v != w ==> s'.routers[v] == s.routers[v];
    }
  }

  lemma QueuesAdvanceStep(c: Config, s: State, step: Step, s': State)
    requires RoutersOk(s) && Next(c, s, step, s')
    ensures QueuesAdvance(s, s')
  {
    match step
    case Arrive(a) => ArrivesAdvances(c, s, a, s');
    case Route(w, a) => RoutesAdvances(c, s, w, a, s');
    case Consume(_) =>
  }

  lemma SyncArrives(c: Config, s: State, a: Arrival, s': State)
    requires RoutersOk(s) && Arrives(c, s, a, s')
    ensures SyncOk(s') && forall k :: k in s.sync ==> k in s'.sync && s'.sync[k] == s.sync[k]
    ensures forall w :: |s.routers| <= w < |s'.routers| ==> RouterOk(s', w)
  {
  }

  lemma RoutersStep(c: Config, s: State, step: Step, s': State)
    requires RoutersOk(s) && Next(c, s, step, s')
    ensures RoutersOk(s')
  {
    QueuesAdvanceStep(c, s, step, s');
    if step.Arrive? {
      SyncArrives(c, s, step.arrival, s');
    } else if step.Route? {
      RoutesAdvances(c, s, step.w, step.action, s');
    }
    forall w | 0 <= w < |s'.routers|
      ensures RouterOk(s', w)
    {
      if w < |s.routers| {
        RouterStays(s, w, s');
      }
    }
  }

  lemma RouterStays(s: State, w: nat, s': State)
    requires w < |s.routers| && RouterOk(s, w) && QueuesAdvance(s, s')
    requires forall k :: k in s.sync ==> k in s'.sync && s'.sync[k] == s.sync[k]
    ensures RouterOk(s', w)
  {
    assert LineMoves(s, w, s');
  }

  lemma OrderedStays(acc: seq<Item>, acc': seq<Item>, xs: seq<nat>)
    requires Ordered(acc, xs) && acc <= acc'
    ensures Ordered(acc', xs)
  {
    forall i, j | 0 <= i < j < |xs| && SameKey(acc', xs[i], xs[j])
      ensures xs[i] < xs[j]
    {
      assert SameKey(acc, xs[i], xs[j]);
    }
  }

  lemma AheadStays(s: State, s': State, x: nat, w: nat, y: nat)
    requires RoutersOk(s) && QueuesAdvance(s, s') && x < |s.accepted|
    requires w < |s'.routers| && y in Line(s'.routers[w]) && SameKey(s'.accepted, x, y)
    ensures y == |s.accepted| || (w < |s.routers| && y in Line(s.routers[w]) && SameKey(s.accepted, x, y))
  {
    if w < |s.routers| {
      assert LineMoves(s, w, s') && RouterOk(s, w);
      assert y in Line(s.routers[w]) || y == |s.accepted|;
    }
  }

  /** Tracks stay ordered and ahead while queues only advance. */
  lemma TrackStays(s: State, s': State, xs: seq<nat>)
    requires RoutersOk(s) && TrackOk(s, xs) && QueuesAdvance(s, s')
    ensures TrackOk(s', xs)
  {
    OrderedStays(s.accepted, s'.accepted, xs);
    forall i, w, y | 0 <= i < |xs| && 0 <= w < |s'.routers| && y in Line(s'.routers[w]) && SameKey(s'.accepted, xs[i], y)
      ensures xs[i] < y
    {
      AheadStays(s, s', xs[i], w, y);
    }
  }

  /** The envelope a router lets go of may be added at the end of a track. */
  lemma TrackGrows(s: State, w: nat, s': State, xs: seq<nat>)
    requires RoutersOk(s) && TrackOk(s, xs) && w < |s.routers| && !s.routers[w].hand.Idle?
    requires s'.accepted == s.accepted && s'.routers == Grip(s, w, Idle).routers
    ensures TrackOk(s', xs + [s.routers[w].hand.id])
  {
    var id, ys := s.routers[w].hand.id, xs + [s.routers[w].hand.id];
    var line := Line(s.routers[w]);
    assert RouterOk(s, w) && line[0] == id && id in line;
    forall i, v, y | 0 <= i < |ys| && 0 <= v < |s'.routers| && y in Line(s'.routers[v]) && SameKey(s.accepted, ys[i], y)
      ensures ys[i] < y
    {
      assert RouterOk(s, v) && y in Line(s.routers[v]);
      if i == |xs| && v == w {
        var j :| 0 <= j < |s.routers[w].queue| && s.routers[w].queue[j] == y;
        assert line[j + 1] == y;
      }
    }
  }

  lemma TrackShrinks(s: State, xs: seq<nat>, x: nat, ys: seq<nat>)
    requires TrackOk(s, xs + [x] + ys)
    ensures TrackOk(s, xs + ys)
  {
    var before, after := xs + [x] + ys, xs + ys;
    assert forall i :: 0 <= i < |after| ==> after[i] == before[if i < |xs| then i else i + 1];
  }

  /** A router's envelope ends up in the fast lane, in the slow queue, or on no track. */
  lemma TracksRoute(c: Config, s: State, w: nat, a: Action, s': State)
    requires Routes(c, s, w, a, s')
    ensures FastTrack(s') == FastTrack(s) ||
            (FastTrack(s') == FastTrack(s) + [s.routers[w].hand.id] && s'.routers == Grip(s, w, Idle).routers
             && !s.routers[w].hand.Idle?)
    ensures if a.Send? then SlowTrack(s') == SlowTrack(s) + [s.routers[w].hand.id] && s'.routers == Grip(s, w, Idle).routers
            else SlowTrack(s') == SlowTrack(s)
  {
    if s'.settled != s.settled {
      InLaneAppend(s.settled, Outcome(s.routers[w].hand.id, Fast), Fast);
      InLaneAppend(s.settled, Outcome(s.routers[w].hand.id, Fast), Slow);
    }
  }

  lemma OrderRoutes(c: Config, s: State, w: nat, a: Action, s': State)
    requires OrderOk(s) && Routes(c, s, w, a, s')
    ensures TrackOk(s', FastTrack(s')) && TrackOk(s', SlowTrack(s'))
  {
    TracksRoute(c, s, w, a, s');
    RoutesAdvances(c, s, w, a, s');
    TrackStays(s, s', FastTrack(s));
    TrackStays(s, s', SlowTrack(s));
    if FastTrack(s') != FastTrack(s) {
      TrackGrows(s, w, s', FastTrack(s));
    }
    if a.Send? {
      TrackGrows(s, w, s', SlowTrack(s));
    }
  }

  lemma OrderDrains(s: State, d: Drain, s': State)
    requires OrderOk(s) && Drains(s, d, s')
    ensures TrackOk(s', FastTrack(s')) && TrackOk(s', SlowTrack(s'))
  {
    SlowTrackDrains(s, d, s');
    TrackStays(s, s', FastTrack(s));
    TrackStays(s, s', SlowTrack(s));
    if d.SlowTry? && !d.ok {
      TrackShrinks(s', InLane(s.settled, Slow), s.slowHand.value, s.slow);
    }
  }

  lemma OrderStep(c: Config, s: State, step: Step, s': State)
    requires OrderOk(s) && Next(c, s, step, s')
    ensures OrderOk(s')
  {
    RoutersStep(c, s, step, s');
    match step
    case Arrive(a) =>
      ArrivesAdvances(c, s, a, s');
      TrackStays(s, s', FastTrack(s));
      TrackStays(s, s', SlowTrack(s));
    case Route(w, a) => OrderRoutes(c, s, w, a, s');
    case Consume(d) => OrderDrains(s, d, s');
  }

  // ---------------------------------------------------------------------------
  // How often tried, and how full the slow queue gets
  // ---------------------------------------------------------------------------

  function HandBudget(h: Hand, x: nat): nat {
    if h.Idle? || h.id != x then 0 else if h.Routing? then 2 else 1
  }

  /** How many more attempts over the DHT a router's holdings allow envelope `x`. */
  function RouterBudget(r: Router, x: nat): nat {
    2 * Count(r.queue, x) + HandBudget(r.hand, x)
  }

  function BudgetIn(x: nat): Router -> nat {
    (r: Router) => RouterBudget(r, x)
  }

  function SlowPending(s: State): seq<nat> {
    (if s.slowHand.Some? then [s.slowHand.value] else []) + s.slow
  }

  function Budget(s: State, x: nat): nat {
    Sum(s.routers, BudgetIn(x)) + Count(SlowPending(s), x)
  }

  /** Attempts made and attempts still possible never exceed two. */
  ghost predicate TriesOk(s: State) {
    forall x: nat :: s.tries[x] + Budget(s, x) <= if x < |s.accepted| then 2 else 0
  }

  /** Only router `w` changes: the budget changes by what that router holds. */
  lemma BudgetOfRouter(s: State, w: nat, s': State, x: nat)
    requires w < |s.routers| && |s'.routers| == |s.routers| && s'.routers == s.routers[w := s'.routers[w]]
    ensures Sum(s'.routers, BudgetIn(x)) + RouterBudget(s.routers[w], x)
            == Sum(s.routers, BudgetIn(x)) + RouterBudget(s'.routers[w], x)
  {
    SumUpdate(s.routers, w, s'.routers[w], BudgetIn(x));
  }

  lemma BudgetArrives(c: Config, s: State, a: Arrival, s': State, x: nat)
    requires Arrives(c, s, a, s')
    ensures Budget(s', x) <= Budget(s, x) + (if |s'.accepted| > |s.accepted| && x == |s.accepted| then 2 else 0)
  {
    if a.Open? || a.Spawn? {
      SumAppend(s.routers, s'.routers[|s.routers|], BudgetIn(x));
    } else {
      var w := if a.Accept? then s.sync[Key(a.e)] else a.w;
      BudgetOfRouter(s, w, s', x);
      CountConcat(s.routers[w].queue, [|s.accepted|], x);
    }
  }

  lemma BudgetTake(s: State, w: nat, s': State, x: nat)
    requires w < |s.routers| && s.routers[w].hand.Idle? && s.routers[w].queue != []
    requires var r := s.routers[w]; s' == Put(s, w, r.(hand := Routing(r.queue[0]), queue := r.queue[1..]))
    ensures Budget(s', x) == Budget(s, x)
  {
    var queue := s.routers[w].queue;
    BudgetOfRouter(s, w, s', x);
    CountConcat([queue[0]], queue[1..], x);
    assert queue == [queue[0]] + queue[1..];
  }

  lemma BudgetSend(s: State, w: nat, s': State, x: nat)
    requires w < |s.routers| && s.routers[w].hand.Reserved?
    requires s' == Grip(s, w, Idle).(slow := s.slow + [s.routers[w].hand.id])
    ensures Budget(s', x) == Budget(s, x)
  {
    BudgetOfRouter(s, w, s', x);
    assert SlowPending(s') == SlowPending(s) + [s.routers[w].hand.id];
    CountConcat(SlowPending(s), [s.routers[w].hand.id], x);
  }

  /** Letting go of an envelope gives up its budget; failing it over the DHT spends one attempt. */
  lemma BudgetHand(s: State, w: nat, h': Hand, s': State, x: nat)
    requires w < |s.routers| && s'.routers == Grip(s, w, h').routers && s'.slow == s.slow && s'.slowHand == s.slowHand
    requires var h := s.routers[w].hand;
             && !h.Idle? && (h'.Idle? || (h'.id == h.id && !h'.Routing?))
             && (s'.tries == s.tries || (h.Routing? && s'.tries == s.tries + multiset{h.id}))
    ensures s'.tries[x] + Budget(s', x) <= s.tries[x] + Budget(s, x)
  {
    BudgetOfRouter(s, w, s', x);
  }

  lemma BudgetRoutes(c: Config, s: State, w: nat, a: Action, s': State, x: nat)
    requires Routes(c, s, w, a, s')
    ensures s'.tries[x] + Budget(s', x) <= s.tries[x] + Budget(s, x)
  {
    if a.Take? {
      BudgetTake(s, w, s', x);
    } else if a.Send? {
      BudgetSend(s, w, s', x);
    } else {
      BudgetHand(s, w, s'.routers[w].hand, s', x);
    }
  }

  lemma BudgetDrains(s: State, d: Drain, s': State, x: nat)
    requires Drains(s, d, s')
    ensures s'.tries[x] + Budget(s', x) <= s.tries[x] + Budget(s, x)
  {
    if d.SlowTake? {
      assert SlowPending(s') == SlowPending(s);
    } else {
      CountConcat([s.slowHand.value], s.slow, x);
      assert SlowPending(s') == s.slow;
    }
  }

  function Reserving(): Router -> nat {
    (r: Router) => if r.hand.Reserved? then 1 else 0
  }

  /** Queue length plus routers between the check and the send. */
  function Claimed(s: State): nat {
    |s.slow| + Sum(s.routers, Reserving())
  }

  ghost predicate SlowBounded(s: State) {
    Claimed(s) <= SLOW_QUEUE_SIZE - 2 + |s.routers|
  }

  lemma {:induction false} ReservingAtMost(rs: seq<Router>)
    ensures Sum(rs, Reserving()) <= |rs|
  {
    if rs == [] {
    } else {
      ReservingAtMost(rs[..|rs| - 1]);
    }
  }

  lemma ReservingUpdate(s: State, w: nat, s': State)
    requires w < |s.routers| && |s'.routers| == |s.routers| && s'.routers == s.routers[w := s'.routers[w]]
    ensures Sum(s'.routers, Reserving()) <= |s.routers|
    ensures Sum(s'.routers, Reserving()) + (if s.routers[w].hand.Reserved? then 1 else 0)
            == Sum(s.routers, Reserving()) + (if s'.routers[w].hand.Reserved? then 1 else 0)
  {
    SumUpdate(s.routers, w, s'.routers[w], Reserving());
    ReservingAtMost(s'.routers);
  }

  lemma {:induction false} SumAtLeast(rs: seq<Router>, w: nat, f: Router -> nat)
    requires w < |rs|
    ensures f(rs[w]) <= Sum(rs, f)
  {
    if w == |rs| - 1 {
    } else {
      SumAtLeast(rs[..|rs| - 1], w, f);
    }
  }

  lemma SlowBoundedArrives(c: Config, s: State, a: Arrival, s': State)
    requires SlowBounded(s) && Arrives(c, s, a, s')
    ensures SlowBounded(s')
  {
    if a.Open? || a.Spawn? {
      SumAppend(s.routers, s'.routers[|s.routers|], Reserving());
    } else {
      ReservingUpdate(s, if a.Accept? then s.sync[Key(a.e)] else a.w, s');
    }
  }

  lemma SlowBoundedRoutes(c: Config, s: State, w: nat, a: Action, s': State)
    requires SlowBounded(s) && Routes(c, s, w, a, s')
    ensures SlowBounded(s')
  {
    RoutesAdvances(c, s, w, a, s');
    ReservingUpdate(s, w, s');
  }

  lemma SlowBoundedStep(c: Config, s: State, step: Step, s': State)
    requires SlowBounded(s) && Next(c, s, step, s')
    ensures SlowBounded(s')
  {
    match step
    case Arrive(a) => SlowBoundedArrives(c, s, a, s');
    case Route(w, a) => SlowBoundedRoutes(c, s, w, a, s');
    case Consume(_) =>
  }

  /** Only envelopes whose first attempt may fail are ever on their way through the slow queue. */
  ghost predicate SlowMayFail(c: Config, s: State) {
    && (forall w :: 0 <= w < |s.routers| && (s.routers[w].hand.Failed? || s.routers[w].hand.Reserved?)
                    ==> MayFail(c, s, s.routers[w].hand.id))
    && forall x :: x in SlowTrack(s) ==> MayFail(c, s, x)
  }

  lemma SlowMayFailRoutes(c: Config, s: State, w: nat, a: Action, s': State)
    requires SlowMayFail(c, s) && Routes(c, s, w, a, s')
    ensures SlowMayFail(c, s')
  {
    TracksRoute(c, s, w, a, s');
    RoutesAdvances(c, s, w, a, s');
    assert s'.routers[w].hand.Failed? || s'.routers[w].hand.Reserved? ==> MayFail(c, s, s'.routers[w].hand.id);
  }

  lemma SlowMayFailArrives(c: Config, s: State, a: Arrival, s': State)
    requires SlowMayFail(c, s) && Arrives(c, s, a, s')
    ensures SlowMayFail(c, s')
  {
    ArrivesKeepsHands(c, s, a, s');
    assert s.accepted <= s'.accepted;
  }

  lemma ArrivesKeepsHands(c: Config, s: State, a: Arrival, s': State)
    requires Arrives(c, s, a, s')
    ensures SlowTrack(s') == SlowTrack(s) && |s.routers| <= |s'.routers|
    ensures forall w :: 0 <= w < |s'.routers| ==> s'.routers[w].hand == if w < |s.routers| then s.routers[w].hand else Idle
  {
  }

  lemma SlowMayFailDrains(c: Config, s: State, d: Drain, s': State)
    requires SlowMayFail(c, s) && Drains(s, d, s')
    ensures SlowMayFail(c, s')
  {
    SlowTrackDrains(s, d, s');
    assert forall x :: x in SlowTrack(s') ==> x in SlowTrack(s);
  }

  lemma SlowMayFailStep(c: Config, s: State, step: Step, s': State)
    requires SlowMayFail(c, s) && Next(c, s, step, s')
    ensures SlowMayFail(c, s')
  {
    match step
    case Arrive(a) => SlowMayFailArrives(c, s, a, s');
    case Route(w, a) => SlowMayFailRoutes(c, s, w, a, s');
    case Consume(d) => SlowMayFailDrains(c, s, d, s');
  }

  // ---------------------------------------------------------------------------
  // Every run
  // ---------------------------------------------------------------------------

  ghost predicate SizesOk(c: Config, s: State) {
    |s.routers| <= c.maxRouters && (s.routers == [] ==> s.accepted == [])
  }

  ghost predicate Inv(c: Config, s: State) {
    && Conserved(s) && OrderOk(s) && TriesOk(s) && SlowBounded(s) && SlowMayFail(c, s)
    && SizesOk(c, s)
  }

  lemma InvStep(c: Config, s: State, step: Step, s': State)
    requires Inv(c, s) && Next(c, s, step, s')
    ensures Inv(c, s')
  {
    ConservedStep(c, s, step, s');
    OrderStep(c, s, step, s');
    SlowBoundedStep(c, s, step, s');
    SlowMayFailStep(c, s, step, s');
    TriesStep(c, s, step, s');
    SizesStep(c, s, step, s');
  }

  lemma SizesStep(c: Config, s: State, step: Step, s': State)
    requires SizesOk(c, s) && Next(c, s, step, s')
    ensures SizesOk(c, s')
  {
    if step.Route? {
      RoutesAdvances(c, s, step.w, step.action, s');
    }
  }

  lemma TriesStep(c: Config, s: State, step: Step, s': State)
    requires TriesOk(s) && Next(c, s, step, s')
    ensures TriesOk(s')
  {
    forall x: nat
      ensures s'.tries[x] + Budget(s', x) <= if x < |s'.accepted| then 2 else 0
    {
      match step
      case Arrive(a) => BudgetArrives(c, s, a, s', x);
      case Route(w, a) => BudgetRoutes(c, s, w, a, s', x);
      case Consume(d) => BudgetDrains(s, d, s', x);
    }
  }

  lemma {:induction false} RunKeepsInv(c: Config, run: seq<State>, i: nat)
    requires IsRun(c, run) && i < |run|
    ensures Inv(c, run[i])
  {
    if i == 0 {
    } else {
      RunKeepsInv(c, run, i - 1);
      assert Steps(c, run[i - 1], run[i]);
      var step :| Next(c, run[i - 1], step, run[i]);
      InvStep(c, run[i - 1], step, run[i]);
    }
  }

  lemma ReachableKeepsInv(c: Config, s: State)
    requires Reachable(c, s)
    ensures Inv(c, s)
  {
    var run :| IsRun(c, run) && run[|run| - 1] == s;
    RunKeepsInv(c, run, |run| - 1);
  }

  /**
   * Every accepted envelope is in exactly one place and nothing else is anywhere; it is
   * tried over the DHT at most twice and settled, so acknowledged, at most once.
   */
  lemma EnvelopeConservation(c: Config, s: State, x: nat)
    requires Reachable(c, s)
    ensures Places(s, x) == if x < |s.accepted| then 1 else 0
    ensures s.tries[x] <= 2
    ensures Count(InLane(s.settled, Fast), x) + Count(InLane(s.settled, Slow), x) <= 1
  {
    ReachableKeepsInv(c, s);
    var settled, hand := InLane(s.settled, Slow), if s.slowHand.Some? then [s.slowHand.value] else [];
    CountConcat(settled + hand, s.slow, x);
    CountConcat(settled, hand, x);
  }
}
