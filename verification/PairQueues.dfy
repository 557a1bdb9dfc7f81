/**
 * Creating pair queues.  A delegate connection looks its pair up in `syncMessages`, releases
 * the lock, and if the pair was missing takes the lock again to create its channel and start
 * a worker; the worker fetches its channel from the map later.  This is the scheduler with
 * these steps apart.  The module says exactly when it behaves like the scheduler that takes
 * them as one.
 */
module PairQueues {
  import opened Wrappers
  import opened Envelopes
  import opened Sequences
  import Scheduler
  import DeliveryOrder

  /** Each slot holds one delegate connection at a time, of one of the slot's addresses, so two
      addresses can be live together only in different slots. */
  datatype Config = Config(slots: seq<iset<string>>, mayFail: Scheduler.Pair -> bool)

  datatype Connection =
    | Offline
    | Reading(addr: string)
    | Missing(e: Envelope)  // the pair was looked up and not found, the lock released
    | Ready(e: Envelope)    // about to push

  /**
   * Router number `i` of `core` stands for the channel and the thread that were created as
   * number `i`: its queue is what the channel holds, its hand what the thread does.  The
   * thread need not read that channel: it reads `fetched[i]`, once it has fetched it.
   */
  datatype State = State(core: Scheduler.State, fetched: seq<Option<nat>>, connections: seq<Connection>)

  datatype Step =
    | Connect(c: nat, addr: string)
    | Disconnect(c: nat)
    | LookUp(c: nat, e: Envelope)
    | Create(c: nat)
    | Push(c: nat)
    | Fetch(w: nat)
    | Receive(w: nat)
    | Spawn
    | Submit(w: nat, e: Envelope)
    | Route(w: nat, action: Scheduler.Action)
    | Consume(drain: Scheduler.Drain)

  ghost predicate Init(cfg: Config, s: State) {
    Scheduler.Init(s.core) && s.fetched == [] && s.connections == seq(|cfg.slots|, i => Offline)
  }

  /** What a delegate connection does. */
  ghost predicate Connects(cfg: Config, s: State, step: Step, s': State)
    requires step.Connect? || step.Disconnect? || step.LookUp? || step.Create? || step.Push?
  {
    && step.c < |s.connections| == |cfg.slots|
    && var c, now := step.c, s.connections[step.c];
    match step
    case Connect(_, addr) =>
      && now.Offline? && addr in cfg.slots[c]
      && s' == s.(connections := s.connections[c := Reading(addr)])
    case Disconnect(_) =>
      && now.Reading?
      && s' == s.(connections := s.connections[c := Offline])
    case LookUp(_, e) =>
      && now == Reading(e.sender)
      && s' == s.(connections := s.connections[c := if Scheduler.Key(e) in s.core.sync then Ready(e) else Missing(e)])
    case Create(_) =>
      && now.Missing?
      && var key := Scheduler.Key(now.e);
      && s' == State(s.core.(routers := s.core.routers + [Scheduler.Router(Some(key), [], Scheduler.Idle)],
                             sync := s.core.sync[key := |s.core.routers|]),
                     s.fetched + [None], s.connections[c := Ready(now.e)])
    case Push(_) =>
      && now.Ready?
      && Scheduler.Next(Scheduler.Room(cfg.mayFail, s.core), s.core, Scheduler.Arrive(Scheduler.Accept(now.e)), s'.core)
      && s' == s.(core := s'.core, connections := s.connections[c := Reading(now.e.sender)])
  }

  /** What threads do with channels. */
  ghost predicate Works(s: State, w: nat, step: Step, s': State)
    requires step.Fetch? || step.Receive?
  {
    && w < |s.fetched| && w < |s.core.routers|
    && var r := s.core.routers[w];
    match step
    case Fetch(_) =>
      && s.fetched[w].None? && r.key.Some? && r.key.value in s.core.sync
      && s' == s.(fetched := s.fetched[w := Some(s.core.sync[r.key.value])])
    case Receive(_) =>
      && s.fetched[w].Some? && s.fetched[w].value < |s.core.routers| && r.hand.Idle?
      && var ch := s.fetched[w].value;
      && s.core.routers[ch].queue != []
      && var queue := s.core.routers[ch].queue;
      && var held := s.core.routers[w := r.(hand := Scheduler.Routing(queue[0]))];
      && s' == s.(core := s.core.(routers := held[ch := held[ch].(queue := queue[1..])]))
  }

  ghost predicate Next(cfg: Config, s: State, step: Step, s': State) {
    var c := Scheduler.Room(cfg.mayFail, s.core);
    match step
    case Fetch(w) => Works(s, w, step, s')
    case Receive(w) => Works(s, w, step, s')
    case Spawn =>
      && Scheduler.Next(c, s.core, Scheduler.Arrive(Scheduler.Spawn), s'.core)
      && s' == s.(core := s'.core, fetched := s.fetched + [Some(|s.core.routers|)])
    case Submit(w, e) =>
      && Scheduler.Next(c, s.core, Scheduler.Arrive(Scheduler.Submit(w, e)), s'.core)
      && s' == s.(core := s'.core)
    case Route(w, a) =>
      && !a.Take? && Scheduler.Next(c, s.core, Scheduler.Route(w, a), s'.core)
      && s' == s.(core := s'.core)
    case Consume(d) =>
      && Scheduler.Next(c, s.core, Scheduler.Consume(d), s'.core)
      && s' == s.(core := s'.core)
    case _ => Connects(cfg, s, step, s')
  }

  ghost predicate Steps(cfg: Config, s: State, s': State) {
    exists step :: Next(cfg, s, step, s')
  }

  ghost predicate StepAt(cfg: Config, run: seq<State>, i: int)
    requires 0 < i < |run|
  {
    Steps(cfg, run[i - 1], run[i])
  }

  ghost predicate IsRun(cfg: Config, run: seq<State>) {
    && run != [] && Init(cfg, run[0])
    && forall i :: 0 < i < |run| ==> StepAt(cfg, run, i)
  }

  ghost predicate Reachable(cfg: Config, s: State) {
    exists run :: IsRun(cfg, run) && run[|run| - 1] == s
  }

  /** The thread reads, or will fetch and then read, this channel. */
  ghost predicate Serves(s: State, w: nat, ch: nat) {
    && w < |s.fetched| && w < |s.core.routers|
    && match s.fetched[w]
       case Some(channel) => channel == ch
       case None =>
         var key := s.core.routers[w].key;
         key.Some? && key.value in s.core.sync && s.core.sync[key.value] == ch
  }

  ghost predicate Served(s: State, ch: nat) {
    exists w :: Serves(s, w, ch)
  }

  /** Every channel has a reader, and only one. */
  ghost predicate OneWorkerEach(s: State) {
    && (forall ch: nat :: ch < |s.core.routers| ==> Served(s, ch))
    && (forall v: nat, w: nat, ch: nat :: Serves(s, v, ch) && Serves(s, w, ch) ==> v == w)
  }

  // ---------------------------------------------------------------------------
  // Addresses that can share a key
  // ---------------------------------------------------------------------------

  predicate EndsWith(s: string, end: string) {
    |end| <= |s| && s[|s| - |end|..] == end
  }

  predicate Related(a: string, b: string) {
    EndsWith(a, b) || EndsWith(b, a)
  }

  /** No two addresses that can be live together end with one another; in particular no address
      has two live connections. */
  ghost predicate Unrelated(slots: seq<iset<string>>) {
    forall c, d, a, b :: 0 <= c < d < |slots| && a in slots[c] && b in slots[d] ==> !Related(a, b)
  }

  /** Senders of one key are related, and related senders can share a key. */
  lemma OneKeyRelates(key: string, a: string, b: string)
    ensures EndsWith(key, a) && EndsWith(key, b) ==> Related(a, b)
  {
    if EndsWith(key, a) && EndsWith(key, b) {
      if |a| <= |b| {
        assert key[|key| - |b|..][|b| - |a|..] == key[|key| - |a|..];
      } else {
        assert key[|key| - |a|..][|a| - |b|..] == key[|key| - |b|..];
      }
    }
  }

  lemma RelatedShareKey(a: string, b: string) returns (to: string, to': string)
    requires Related(a, b)
    ensures to + a == to' + b
  {
    if EndsWith(a, b) {
      to, to' := "", a[..|a| - |b|];
    } else {
      to, to' := b[..|b| - |a|], "";
    }
  }

  /** Disjoint slots of addresses of one length, as within one ledger, are unrelated. */
  lemma SameLengthUnrelated(slots: seq<iset<string>>, n: nat)
    requires forall c, d, a :: 0 <= c < d < |slots| && a in slots[c] ==> a !in slots[d]
    requires forall c, a :: 0 <= c < |slots| && a in slots[c] ==> |a| == n
    ensures Unrelated(slots)
  {
  }

  // ---------------------------------------------------------------------------
  // The invariant
  // ---------------------------------------------------------------------------

  ghost predicate ConnectionOk(sync: map<string, nat>, addresses: iset<string>, now: Connection) {
    match now
    case Offline => true
    case Reading(addr) => addr in addresses
    case Missing(e) => e.sender in addresses && Scheduler.Key(e) !in sync
    case Ready(e) => e.sender in addresses && Scheduler.Key(e) in sync
  }

  /** Channel and thread number `i` stay together, and a key looked up in vain is still missing. */
  ghost predicate Inv(cfg: Config, s: State) {
    && |s.fetched| == |s.core.routers| && |s.connections| == |cfg.slots|
    && (forall w: nat :: w < |s.core.routers| ==> Serves(s, w, w))
    && (forall c :: 0 <= c < |s.connections| ==> ConnectionOk(s.core.sync, cfg.slots[c], s.connections[c]))
  }

  /** Only one connection can be about to create a given key. */
  lemma MissingOnce(cfg: Config, s: State, c: nat, d: nat)
    requires Unrelated(cfg.slots) && Inv(cfg, s)
    requires c < |s.connections| && d < |s.connections| && c != d
    requires s.connections[c].Missing? && s.connections[d].Missing?
    ensures Scheduler.Key(s.connections[c].e) != Scheduler.Key(s.connections[d].e)
  {
    var e, f := s.connections[c].e, s.connections[d].e;
    assert ConnectionOk(s.core.sync, cfg.slots[c], s.connections[c]);
    assert ConnectionOk(s.core.sync, cfg.slots[d], s.connections[d]);
    assert EndsWith(Scheduler.Key(e), e.sender) && EndsWith(Scheduler.Key(f), f.sender);
    OneKeyRelates(Scheduler.Key(e), e.sender, f.sender);
    assert !Related(e.sender, f.sender) by {
      if c < d {
        assert e.sender in cfg.slots[c] && f.sender in cfg.slots[d];
      } else {
        assert f.sender in cfg.slots[d] && e.sender in cfg.slots[c];
        assert !Related(f.sender, e.sender);
      }
    }
  }

  /** The step of the scheduler that a step comes to; looking up and fetching come to none. */
  function SchedulerStep(s: State, step: Step): Option<Scheduler.Step> {
    match step
    case Create(c) =>
      if c < |s.connections| && s.connections[c].Missing?
      then Some(Scheduler.Arrive(Scheduler.Open(Scheduler.Key(s.connections[c].e)))) else None
    case Push(c) =>
      if c < |s.connections| && s.connections[c].Ready?
      then Some(Scheduler.Arrive(Scheduler.Accept(s.connections[c].e))) else None
    case Receive(w) => Some(Scheduler.Route(w, Scheduler.Take))
    case Spawn => Some(Scheduler.Arrive(Scheduler.Spawn))
    case Submit(w, e) => Some(Scheduler.Arrive(Scheduler.Submit(w, e)))
    case Route(w, a) => Some(Scheduler.Route(w, a))
    case Consume(d) => Some(Scheduler.Consume(d))
    case _ => None
  }

  /** Every step is a step of the scheduler, or leaves it alone. */
  lemma SimulationStep(cfg: Config, s: State, step: Step, s': State)
    requires Inv(cfg, s) && Next(cfg, s, step, s')
    ensures match SchedulerStep(s, step)
            case None => s'.core == s.core
            case Some(t) => Scheduler.Next(Scheduler.Room(cfg.mayFail, s.core), s.core, t, s'.core)
  {
    match step
    case Create(c) =>
      assert ConnectionOk(s.core.sync, cfg.slots[c], s.connections[c]);
    case Receive(w) =>
      assert Serves(s, w, w);
    case _ =>
  }

  lemma CoreKeepsKeys(cfg: Config, s: State, step: Step, s': State)
    requires Next(cfg, s, step, s') && !step.Create?
    ensures s'.core.sync == s.core.sync
    ensures |s'.core.routers| == |s.core.routers| + (if step.Spawn? then 1 else 0)
    ensures forall w :: 0 <= w < |s.core.routers| ==> s'.core.routers[w].key == s.core.routers[w].key
  {
    var c := Scheduler.Room(cfg.mayFail, s.core);
    match step
    case Push(d) => Scheduler.KeysStay(c, s.core, Scheduler.Arrive(Scheduler.Accept(s.connections[d].e)), s'.core);
    case Spawn => Scheduler.KeysStay(c, s.core, Scheduler.Arrive(Scheduler.Spawn), s'.core);
    case Submit(w, e) => Scheduler.KeysStay(c, s.core, Scheduler.Arrive(Scheduler.Submit(w, e)), s'.core);
    case Route(w, a) => Scheduler.KeysStay(c, s.core, Scheduler.Route(w, a), s'.core);
    case Consume(d) => Scheduler.KeysStay(c, s.core, Scheduler.Consume(d), s'.core);
    case _ =>
  }

  lemma ServesStep(cfg: Config, s: State, step: Step, s': State)
    requires Inv(cfg, s) && Next(cfg, s, step, s')
    requires step.Create? ==> Scheduler.Key(s.connections[step.c].e) !in s.core.sync
    ensures |s'.fetched| == |s'.core.routers|
    ensures forall w: nat :: w < |s'.core.routers| ==> Serves(s', w, w)
  {
    if !step.Create? {
      CoreKeepsKeys(cfg, s, step, s');
    }
    forall w: nat | w < |s'.core.routers|
      ensures Serves(s', w, w)
    {
      if w < |s.core.routers| {
        assert Serves(s, w, w);
      }
    }
  }

  lemma ConnectionsStep(cfg: Config, s: State, step: Step, s': State)
    requires Unrelated(cfg.slots) && Inv(cfg, s) && Next(cfg, s, step, s')
    ensures |s'.connections| == |cfg.slots|
    ensures forall c :: 0 <= c < |s'.connections| ==> ConnectionOk(s'.core.sync, cfg.slots[c], s'.connections[c])
  {
    if step.Create? {
      forall d: nat | d < |s.connections| && d != step.c && s.connections[d].Missing?
        ensures Scheduler.Key(s.connections[d].e) != Scheduler.Key(s.connections[step.c].e)
      {
        MissingOnce(cfg, s, d, step.c);
      }
    } else {
      CoreKeepsKeys(cfg, s, step, s');
    }
    forall c | 0 <= c < |s'.connections|
      ensures ConnectionOk(s'.core.sync, cfg.slots[c], s'.connections[c])
    {
      assert ConnectionOk(s.core.sync, cfg.slots[c], s.connections[c]);
    }
  }

  /** Each step keeps the invariant, and a pair that has a channel keeps it. */
  lemma InvStep(cfg: Config, s: State, step: Step, s': State)
    requires Unrelated(cfg.slots) && Inv(cfg, s) && Next(cfg, s, step, s')
    ensures Inv(cfg, s')
    ensures forall key :: key in s.core.sync ==> key in s'.core.sync && s'.core.sync[key] == s.core.sync[key]
  {
    if step.Create? {
      assert ConnectionOk(s.core.sync, cfg.slots[step.c], s.connections[step.c]);
    } else {
      CoreKeepsKeys(cfg, s, step, s');
    }
    ServesStep(cfg, s, step, s');
    ConnectionsStep(cfg, s, step, s');
  }

  lemma ScheduledStep(cfg: Config, s: State, step: Step, s': State)
    requires Inv(cfg, s) && Scheduler.Scheduled(cfg.mayFail, s.core) && Next(cfg, s, step, s')
    ensures Scheduler.Scheduled(cfg.mayFail, s'.core)
  {
    SimulationStep(cfg, s, step, s');
    match SchedulerStep(s, step) {
      case None =>
      case Some(t) => Scheduler.ExtendScheduled(cfg.mayFail, s.core, t, s'.core);
    }
  }

  lemma ScheduledStays(cfg: Config, s: State, s': State)
    requires Inv(cfg, s) && Scheduler.Scheduled(cfg.mayFail, s.core) && Steps(cfg, s, s')
    ensures Scheduler.Scheduled(cfg.mayFail, s'.core)
  {
    var step :| Next(cfg, s, step, s');
    ScheduledStep(cfg, s, step, s');
  }

  lemma {:induction false} RunKeepsInv(cfg: Config, run: seq<State>, i: nat)
    requires Unrelated(cfg.slots) && IsRun(cfg, run) && i < |run|
    ensures Inv(cfg, run[i])
  {
    if i == 0 {
    } else {
      RunKeepsInv(cfg, run, i - 1);
      assert StepAt(cfg, run, i);
      var step :| Next(cfg, run[i - 1], step, run[i]);
      InvStep(cfg, run[i - 1], step, run[i]);
    }
  }

  /** Every run is one of the scheduler's, steps that come to nothing aside. */
  lemma {:induction false} RunIsScheduled(cfg: Config, run: seq<State>, i: nat)
    requires Unrelated(cfg.slots) && IsRun(cfg, run) && i < |run|
    ensures Scheduler.Scheduled(cfg.mayFail, run[i].core)
  {
    if i == 0 {
      Scheduler.StartScheduled(cfg.mayFail, run[0].core);
    } else {
      RunIsScheduled(cfg, run, i - 1);
      RunKeepsInv(cfg, run, i - 1);
      assert StepAt(cfg, run, i);
      ScheduledStays(cfg, run[i - 1], run[i]);
    }
  }

  lemma ChannelStays(cfg: Config, run: seq<State>, i: nat, key: string)
    requires Unrelated(cfg.slots) && IsRun(cfg, run) && 0 < i < |run| && key in run[i - 1].core.sync
    ensures key in run[i].core.sync && run[i].core.sync[key] == run[i - 1].core.sync[key]
  {
    RunKeepsInv(cfg, run, i - 1);
    assert StepAt(cfg, run, i);
    var step :| Next(cfg, run[i - 1], step, run[i]);
    InvStep(cfg, run[i - 1], step, run[i]);
  }

  lemma {:induction false} ChannelForGood(cfg: Config, run: seq<State>, i: nat, j: nat, key: string)
    requires Unrelated(cfg.slots)
    requires IsRun(cfg, run) && i <= j < |run| && key in run[i].core.sync
    ensures key in run[j].core.sync && run[j].core.sync[key] == run[i].core.sync[key]
  {
    if i == j {
    } else {
      ChannelForGood(cfg, run, i, j - 1, key);
      ChannelStays(cfg, run, j, key);
    }
  }

  lemma InvServesOnce(cfg: Config, s: State)
    requires Inv(cfg, s)
    ensures OneWorkerEach(s)
  {
    forall ch: nat | ch < |s.core.routers|
      ensures Served(s, ch)
    {
      assert Serves(s, ch, ch);
    }
    forall w: nat, ch: nat | Serves(s, w, ch)
      ensures w == ch
    {
      assert Serves(s, w, w);
    }
  }

  /** Conservation and pair order, which the scheduler gives, hold of the code with its two steps. */
  lemma TwoStepDelivery(cfg: Config, s: State, p: Scheduler.Pair, x: nat)
    requires Unrelated(cfg.slots) && Reachable(cfg, s)
    ensures Scheduler.Places(s.core, x) == if x < |s.core.accepted| then 1 else 0
    ensures s.core.tries[x] <= 2
    ensures IsMerge(DeliveryOrder.Deliveries(s.core, p), DeliveryOrder.DeliveriesIn(s.core, p, Scheduler.Fast),
                    DeliveryOrder.DeliveriesIn(s.core, p, Scheduler.Slow))
    ensures forall lane :: IsSubsequence(DeliveryOrder.DeliveriesIn(s.core, p, lane), DeliveryOrder.Arrivals(s.core, p))
  {
    var run :| IsRun(cfg, run) && run[|run| - 1] == s;
    RunIsScheduled(cfg, run, |run| - 1);
    var n: nat :| Scheduler.Reachable(Scheduler.Config(n, cfg.mayFail), s.core);
    Scheduler.EnvelopeConservation(Scheduler.Config(n, cfg.mayFail), s.core, x);
    DeliveryOrder.PairOrder(Scheduler.Config(n, cfg.mayFail), s.core, p);
    forall lane: Scheduler.Lane
      ensures IsSubsequence(DeliveryOrder.DeliveriesIn(s.core, p, lane), DeliveryOrder.Arrivals(s.core, p))
    {
      assert lane.Fast? || lane.Slow?;
    }
  }

  // ---------------------------------------------------------------------------
  // The race
  // ---------------------------------------------------------------------------

  /** A channel that no thread reads or will fetch, and that no pair pushes to any more. */
  ghost predicate Stranded(s: State, ch: nat) {
    && ch < |s.core.routers| == |s.fetched| && s.core.routers[ch].key.Some? && !Served(s, ch)
    && forall key :: key in s.core.sync ==> s.core.sync[key] != ch
  }

  /** Nobody takes from or pushes to a stranded channel. */
  lemma StrandedUntouched(cfg: Config, s: State, step: Step, s': State, ch: nat)
    requires Stranded(s, ch) && Next(cfg, s, step, s')
    ensures ch < |s'.core.routers| && s'.core.routers[ch].queue == s.core.routers[ch].queue
  {
    assert step.Receive? ==> Serves(s, step.w, s.fetched[step.w].value);
  }

  lemma StrandedStep(cfg: Config, s: State, step: Step, s': State, ch: nat)
    requires Stranded(s, ch) && Next(cfg, s, step, s')
    ensures Stranded(s', ch)
  {
    if !step.Create? {
      CoreKeepsKeys(cfg, s, step, s');
    }
    forall w: nat
      ensures !Serves(s', w, ch)
    {
      assert !Serves(s, w, ch);
    }
  }

  lemma StrandedStays(cfg: Config, s: State, s': State, ch: nat)
    requires Stranded(s, ch) && Steps(cfg, s, s')
    ensures Stranded(s', ch) && s'.core.routers[ch].queue == s.core.routers[ch].queue
  {
    var step :| Next(cfg, s, step, s');
    StrandedStep(cfg, s, step, s', ch);
    StrandedUntouched(cfg, s, step, s', ch);
  }

  /** What is stranded stays where it is in every continuation. */
  lemma {:induction false} StrandedForGood(cfg: Config, run: seq<State>, i: nat, j: nat, ch: nat)
    requires IsRun(cfg, run) && i <= j < |run| && Stranded(run[i], ch)
    ensures Stranded(run[j], ch) && run[j].core.routers[ch].queue == run[i].core.routers[ch].queue
  {
    if i == j {
    } else {
      StrandedForGood(cfg, run, i, j - 1, ch);
      assert StepAt(cfg, run, j);
      StrandedStays(cfg, run[j - 1], run[j], ch);
    }
  }

  lemma Extend(cfg: Config, s: State, step: Step, s': State)
    requires Reachable(cfg, s) && Next(cfg, s, step, s')
    ensures Reachable(cfg, s')
  {
    var run :| IsRun(cfg, run) && run[|run| - 1] == s;
    var longer := run + [s'];
    assert Steps(cfg, s, s');
    forall i | 0 < i < |longer|
      ensures StepAt(cfg, longer, i)
    {
      assert i < |run| ==> StepAt(cfg, run, i);
    }
    assert IsRun(cfg, longer) && longer[|longer| - 1] == s';
  }

  const EMPTY: Scheduler.State := Scheduler.State([], map[], [], [], None, [], [], multiset{})

  /** Two connections of related addresses can both be reading. */
  lemma BothReading(cfg: Config, c: nat, d: nat, a: string, b: string) returns (s: State)
    requires c < d < |cfg.slots| && a in cfg.slots[c] && b in cfg.slots[d]
    ensures Reachable(cfg, s) && s == State(EMPTY, [], s.connections) && |s.connections| == |cfg.slots|
    ensures s.connections[c] == Reading(a) && s.connections[d] == Reading(b)
  {
    var start := State(EMPTY, [], seq(|cfg.slots|, i => Offline));
    assert IsRun(cfg, [start]);
    var one := start.(connections := start.connections[c := Reading(a)]);
    Extend(cfg, start, Connect(c, a), one);
    s := one.(connections := one.connections[d := Reading(b)]);
    Extend(cfg, one, Connect(d, b), s);
  }

  /** Both can then find one key missing. */
  lemma BothMissing(cfg: Config, c: nat, d: nat, a: string, b: string) returns (s: State, e: Envelope, f: Envelope)
    requires c < d < |cfg.slots| && a in cfg.slots[c] && b in cfg.slots[d] && Related(a, b)
    ensures Reachable(cfg, s) && s == State(EMPTY, [], s.connections) && |s.connections| == |cfg.slots|
    ensures s.connections[c] == Missing(e) && s.connections[d] == Missing(f) && Scheduler.Key(e) == Scheduler.Key(f)
  {
    var to, to' := RelatedShareKey(a, b);
    e, f := Envelope(to, a, []), Envelope(to', b, []);
    var reading := BothReading(cfg, c, d, a, b);
    var one := reading.(connections := reading.connections[c := Missing(e)]);
    Extend(cfg, reading, LookUp(c, e), one);
    s := one.(connections := one.connections[d := Missing(f)]);
    Extend(cfg, one, LookUp(d, f), s);
  }

  /** The first of them creates a channel. */
  lemma FirstCreates(cfg: Config, both: State, c: nat, e: Envelope) returns (s: State)
    requires Reachable(cfg, both) && both == State(EMPTY, [], both.connections)
    requires c < |both.connections| == |cfg.slots| && both.connections[c] == Missing(e)
    ensures Reachable(cfg, s)
    ensures s == State(EMPTY.(routers := [Scheduler.Router(Some(Scheduler.Key(e)), [], Scheduler.Idle)],
                              sync := map[Scheduler.Key(e) := 0]),
                       [None], both.connections[c := Ready(e)])
  {
    var key := Scheduler.Key(e);
    var core := EMPTY.(routers := [Scheduler.Router(Some(key), [], Scheduler.Idle)], sync := map[key := 0]);
    s := State(core, [None], both.connections[c := Ready(e)]);
    Extend(cfg, both, Create(c), s);
  }

  /** And it pushes to that channel. */
  lemma FirstPushes(cfg: Config, created: State, c: nat, e: Envelope) returns (s: State)
    requires Reachable(cfg, created) && c < |created.connections| == |cfg.slots| && created.connections[c] == Ready(e)
    requires var core := created.core;
             && core.sync == map[Scheduler.Key(e) := 0] && core.accepted == []
             && core.routers == [Scheduler.Router(Some(Scheduler.Key(e)), [], Scheduler.Idle)]
    ensures Reachable(cfg, s)
    ensures s.connections == created.connections[c := Reading(e.sender)] && s.fetched == created.fetched
    ensures s.core.sync == created.core.sync
    ensures s.core.routers == [Scheduler.Router(Some(Scheduler.Key(e)), [0], Scheduler.Idle)]
  {
    var t := created.core.(accepted := created.core.accepted + [Scheduler.Item(e, true)]);
    var r := created.core.routers[0];
    s := State(Scheduler.Put(t, 0, r.(queue := r.queue + [0])), created.fetched,
               created.connections[c := Reading(e.sender)]);
    Extend(cfg, created, Push(c), s);
    assert r.queue + [0] == [0];
  }

  /** Such a race strands an envelope, in a channel that no worker will ever read. */
  lemma RaceStrands(cfg: Config, c: nat, d: nat, a: string, b: string) returns (s: State)
    requires c < d < |cfg.slots| && a in cfg.slots[c] && b in cfg.slots[d] && Related(a, b)
    ensures Reachable(cfg, s) && Stranded(s, 0) && s.core.routers[0].queue == [0]
  {
    var both, e, f := BothMissing(cfg, c, d, a, b);
    var created := FirstCreates(cfg, both, c, e);
    var pushed := FirstPushes(cfg, created, c, e);
    var key := Scheduler.Key(f);
    var core := pushed.core.(routers := pushed.core.routers + [Scheduler.Router(Some(key), [], Scheduler.Idle)],
                             sync := pushed.core.sync[key := 1]);
    s := State(core, pushed.fetched + [None], pushed.connections[d := Ready(f)]);
    Extend(cfg, pushed, Create(d), s);
    assert forall w: nat :: !Serves(s, w, 0);
  }

  lemma ScheduledKeepsChannel(mayFail: Scheduler.Pair -> bool, s: Scheduler.State, w: nat)
    requires Scheduler.Scheduled(mayFail, s) && w < |s.routers| && s.routers[w].key.Some?
    ensures s.routers[w].key.value in s.sync && s.sync[s.routers[w].key.value] == w
  {
    var n: nat :| Scheduler.Reachable(Scheduler.Config(n, mayFail), s);
    Scheduler.ReachableKeepsInv(Scheduler.Config(n, mayFail), s);
    assert Scheduler.RouterOk(s, w);
  }

  /** The scheduler that looks up and creates in one step strands nothing. */
  lemma StrandedUnscheduled(mayFail: Scheduler.Pair -> bool, s: State, ch: nat)
    requires Stranded(s, ch)
    ensures !Scheduler.Scheduled(mayFail, s.core)
  {
    if Scheduler.Scheduled(mayFail, s.core) {
      ScheduledKeepsChannel(mayFail, s.core, ch);
    }
  }

  /**
   * The code with its two steps only ever does what the scheduler with one step could do, and
   * every channel has exactly one reader throughout, if and only if no two addresses that
   * can be live together end with one another.
   */
  lemma CreationIsAtomic(cfg: Config)
    ensures (forall s :: Reachable(cfg, s) ==> Scheduler.Scheduled(cfg.mayFail, s.core)) <==> Unrelated(cfg.slots)
    ensures (forall s :: Reachable(cfg, s) ==> OneWorkerEach(s)) <==> Unrelated(cfg.slots)
  {
    if Unrelated(cfg.slots) {
      forall s | Reachable(cfg, s)
        ensures Scheduler.Scheduled(cfg.mayFail, s.core) && OneWorkerEach(s)
      {
        var run :| IsRun(cfg, run) && run[|run| - 1] == s;
        RunIsScheduled(cfg, run, |run| - 1);
        RunKeepsInv(cfg, run, |run| - 1);
        InvServesOnce(cfg, s);
      }
    } else {
      var c, d, a, b :| 0 <= c < d < |cfg.slots| && a in cfg.slots[c] && b in cfg.slots[d] && Related(a, b);
      var s := RaceStrands(cfg, c, d, a, b);
      StrandedUnscheduled(cfg.mayFail, s, 0);
      assert !OneWorkerEach(s);
    }
  }
}
