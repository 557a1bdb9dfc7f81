/**
 * The address-announcement handshake of a DHT peer.  Registration handlers publish an
 * address, wait for notification handlers in progress and then read a flag; notification
 * handlers scan the published addresses and then raise the flag.  Each step below is one
 * critical section or one WaitGroup operation, so a run is any interleaving.
 */
module Announcement {
  /** How the node is started: its services and its own agent's address, empty if none. */
  datatype Config = Config(relayEnabled: bool, delegateEnabled: bool, own: string)

  datatype Kind = Relay | Delegate

  /** `handleAeaRegisterStream` and `handleNewDelegationConnection` after their PoR check. */
  datatype Stage =
    | Arriving    // address not yet in its map
    | Waiting     // in the map, inside WaitGroup.Wait
    | Passed      // Wait has returned, flag not yet read
    | Announcing  // flag was up, address about to be marked
    | Settled

  datatype Client = Client(kind: Kind, addr: string, stage: Stage)

  /** `handleAeaNotifStream`, from its arrival to its deferred Done. */
  datatype Notif =
    | Arrived
    | Raised
    | OwnDone
    | ScanRelays(todo: set<string>)
    | RelaysDone
    | ScanDelegates(todo: set<string>)
    | DelegatesDone
    | FlagSet

  datatype State = State(
    relays: set<string>, delegates: set<string>, announced: set<string>, flag: bool, waitGroup: int,
    clients: map<nat, Client>, notifs: map<nat, Notif>)

  datatype Step =
    | Connect(p: nat, kind: Kind, addr: string)
    | Insert(p: nat)
    | WaitReturns(p: nat)
    | ReadFlag(p: nat)
    | Announce(p: nat)
    | Disconnect(p: nat)
    | MailboxAnnounce(addr: string)
    | Notify(q: nat)
    | WaitGroupAdd(q: nat)
    | AnnounceOwn(q: nat)
    | Scan(q: nat, addr: string)
    | Proceed(q: nat)
    | WaitGroupDone(q: nat)

  /** A finished `New` without bootstrap peers; `stored` are the relay clients replayed from the log. */
  ghost predicate Init(s: State, stored: set<string>) {
    s == State(stored, {}, {}, false, 0, map[], map[])
  }

  function Move(s: State, p: nat, stage: Stage): State
    requires p in s.clients
  {
    s.(clients := s.clients[p := s.clients[p].(stage := stage)])
  }

  /** The read lock a scan holds on the map it ranges over keeps writers out. */
  ghost predicate Unlocked(s: State, kind: Kind) {
    forall q :: q in s.notifs ==>
      if kind.Relay? then !s.notifs[q].ScanRelays? else !s.notifs[q].ScanDelegates?
  }

  ghost predicate Next(c: Config, s: State, step: Step, s': State) {
    match step
    case Connect(p, kind, addr) =>
      && p !in s.clients && (if kind.Relay? then c.relayEnabled else c.delegateEnabled)
      && s' == s.(clients := s.clients[p := Client(kind, addr, Arriving)])
    case Insert(p) =>
      && p in s.clients && s.clients[p].stage.Arriving? && Unlocked(s, s.clients[p].kind)
      && s' == (if s.clients[p].kind.Relay?
                then Move(s, p, Waiting).(relays := s.relays + {s.clients[p].addr})
                else Move(s, p, Waiting).(delegates := s.delegates + {s.clients[p].addr}))
    case WaitReturns(p) =>
      && p in s.clients && s.clients[p].stage.Waiting? && s.waitGroup == 0
      && s' == Move(s, p, Passed)
    case ReadFlag(p) =>
      && p in s.clients && s.clients[p].stage.Passed?
      && s' == Move(s, p, if s.flag then Announcing else Settled)
    case Announce(p) =>
      && p in s.clients && s.clients[p].stage.Announcing?
      && s' == Move(s, p, Settled).(announced := s.announced + {s.clients[p].addr})
    case Disconnect(p) =>
      && p in s.clients && s.clients[p].stage.Settled? && s.clients[p].kind.Delegate? && Unlocked(s, Delegate)
      && s' == s.(clients := s.clients - {p}, delegates := s.delegates - {s.clients[p].addr})
    case MailboxAnnounce(addr) =>
      s' == s.(announced := s.announced + {addr})
    case Notify(q) =>
      q !in s.notifs && s' == s.(notifs := s.notifs[q := Arrived])
    case WaitGroupAdd(q) =>
      && q in s.notifs && s.notifs[q].Arrived?
      && s' == s.(notifs := s.notifs[q := Raised], waitGroup := s.waitGroup + 1)
    case AnnounceOwn(q) =>
      && q in s.notifs && s.notifs[q].Raised?
      && s' == s.(notifs := s.notifs[q := OwnDone],
                  announced := if c.own == "" then s.announced else s.announced + {c.own})
    case Scan(q, addr) =>
      && q in s.notifs
      && (match s.notifs[q]
          case ScanRelays(todo) =>
            addr in todo && s' == s.(notifs := s.notifs[q := ScanRelays(todo - {addr})],
                                     announced := s.announced + {addr})
          case ScanDelegates(todo) =>
            addr in todo && s' == s.(notifs := s.notifs[q := ScanDelegates(todo - {addr})],
                                     announced := s.announced + {addr})
          case _ => false)
    case Proceed(q) =>
      && q in s.notifs
      && (match s.notifs[q]
          case OwnDone =>
            s' == s.(notifs := s.notifs[q := if c.relayEnabled then ScanRelays(s.relays) else RelaysDone])
          case ScanRelays(todo) =>
            todo == {} && s' == s.(notifs := s.notifs[q := RelaysDone])
          case RelaysDone =>
            s' == s.(notifs := s.notifs[q := if c.delegateEnabled then ScanDelegates(s.delegates) else DelegatesDone])
          case ScanDelegates(todo) =>
            todo == {} && s' == s.(notifs := s.notifs[q := DelegatesDone])
          case DelegatesDone =>
            s' == s.(notifs := s.notifs[q := FlagSet], flag := true)
          case _ => false)
    case WaitGroupDone(q) =>
      // normal end, routing-table timeout, or failure to announce the own address
      && q in s.notifs && (s.notifs[q].FlagSet? || s.notifs[q].Raised? || s.notifs[q].OwnDone?)
      && s' == s.(notifs := s.notifs - {q}, waitGroup := s.waitGroup - 1)
  }

  ghost predicate Steps(c: Config, s: State, s': State) {
    exists step :: Next(c, s, step, s')
  }

  ghost predicate IsRun(c: Config, stored: set<string>, run: seq<State>) {
    && run != [] && Init(run[0], stored)
    && forall i :: 0 < i < |run| ==> Steps(c, run[i - 1], run[i])
  }

  ghost predicate Reachable(c: Config, stored: set<string>, s: State) {
    exists run :: IsRun(c, stored, run) && run[|run| - 1] == s
  }

  // ---------------------------------------------------------------------------
  // The property
  // ---------------------------------------------------------------------------

  /** Some handler registering `addr` is at one of the given stages. */
  ghost predicate HasClient(clients: map<nat, Client>, kind: Kind, addr: string, stages: set<Stage>) {
    exists p :: p in clients && clients[p].kind == kind && clients[p].addr == addr && clients[p].stage in stages
  }

  /** The address is marked, or a handler of its own has still to wait, read the flag and mark it. */
  ghost predicate Kept(s: State, kind: Kind, addr: string) {
    addr in s.announced || HasClient(s.clients, kind, addr, {Waiting, Passed, Announcing})
  }

  function Published(s: State, kind: Kind): set<string> {
    if kind.Relay? then s.relays else s.delegates
  }

  function Own(c: Config): set<string> {
    if c.own == "" then {} else {c.own}
  }

  /** No address is lost: once announcements are enabled every published address is kept. */
  ghost predicate NoneLost(c: Config, s: State) {
    s.flag ==>
      && Own(c) <= s.announced
      && forall kind, a :: a in Published(s, kind) ==> Kept(s, kind, a)
  }

  // ---------------------------------------------------------------------------
  // The invariant
  // ---------------------------------------------------------------------------

  /** The notification handler will still mark `addr` if it stays published. */
  predicate WillScan(n: Notif, kind: Kind, addr: string) {
    match n
    case Arrived | Raised | OwnDone => true
    case ScanRelays(todo) => kind.Delegate? || addr in todo
    case RelaysDone => kind.Delegate?
    case ScanDelegates(todo) => kind.Delegate? && addr in todo
    case DelegatesDone | FlagSet => false
  }

  ghost predicate AllWillScan(s: State, kind: Kind, addr: string) {
    forall q :: q in s.notifs ==> WillScan(s.notifs[q], kind, addr)
  }

  /** Why a published address is not lost. */
  ghost predicate Safe(s: State, kind: Kind, addr: string) {
    || addr in s.announced
    || HasClient(s.clients, kind, addr, {Waiting, Announcing})
    || (s.flag && HasClient(s.clients, kind, addr, {Passed}))
    || (!s.flag && AllWillScan(s, kind, addr))
  }

  ghost predicate AllSafe(s: State) {
    forall kind, a :: a in Published(s, kind) ==> Safe(s, kind, a)
  }

  ghost function Active(s: State): set<nat> {
    set q | q in s.notifs && !s.notifs[q].Arrived?
  }

  ghost predicate OwnSafe(c: Config, s: State) {
    && (s.flag ==> Own(c) <= s.announced)
    && forall q :: q in s.notifs && !s.notifs[q].Arrived? && !s.notifs[q].Raised? ==> Own(c) <= s.announced
  }

  /** Services that are off have no clients; relay addresses may still have been replayed from the log. */
  ghost predicate ServicesOk(c: Config, s: State) {
    && (!c.relayEnabled ==> s.relays <= Own(c))
    && (!c.delegateEnabled ==> s.delegates == {})
    && forall p :: p in s.clients ==> if s.clients[p].kind.Relay? then c.relayEnabled else c.delegateEnabled
  }

  ghost predicate Inv(c: Config, s: State) {
    s.waitGroup == |Active(s)| && OwnSafe(c, s) && ServicesOk(c, s) && AllSafe(s)
  }

  lemma WaitGroupStep(c: Config, s: State, step: Step, s': State)
    requires s.waitGroup == |Active(s)| && Next(c, s, step, s')
    ensures s'.waitGroup == |Active(s')|
  {
    if step.WaitGroupAdd? {
      assert Active(s') == Active(s) + {step.q};
    } else if step.WaitGroupDone? {
      assert Active(s') == Active(s) - {step.q};
    } else if step.Notify? || step.AnnounceOwn? || step.Scan? || step.Proceed? {
      ActiveUnchanged(s, step.q, s');
    } else {
      assert s'.notifs == s.notifs;
    }
  }

  lemma ActiveUnchanged(s: State, q: nat, s': State)
    requires q in s'.notifs && s'.notifs == s.notifs[q := s'.notifs[q]]
    requires s'.notifs[q].Arrived? <==> q !in s.notifs || s.notifs[q].Arrived?
    ensures Active(s') == Active(s)
  {
  }

  lemma ServicesStep(c: Config, s: State, step: Step, s': State)
    requires OwnSafe(c, s) && ServicesOk(c, s) && Next(c, s, step, s')
    ensures OwnSafe(c, s') && ServicesOk(c, s')
  {
  }

  /** A handler not touched by the step is still where it was. */
  lemma OtherClientStays(s: State, s': State, p: nat, kind: Kind, a: string, stages: set<Stage>)
    requires HasClient(s.clients, kind, a, stages)
    requires forall r :: r in s.clients && r != p ==> r in s'.clients && s'.clients[r] == s.clients[r]
    ensures
      || HasClient(s'.clients, kind, a, stages)
      || (p in s.clients && s.clients[p].kind == kind && s.clients[p].addr == a && s.clients[p].stage in stages)
  {
    var r :| r in s.clients && s.clients[r].kind == kind && s.clients[r].addr == a && s.clients[r].stage in stages;
    assert r == p || s'.clients[r] == s.clients[r];
  }

  ghost predicate IsClientStep(step: Step) {
    step.Connect? || step.Insert? || step.WaitReturns? || step.ReadFlag? || step.Announce? || step.Disconnect?
  }

  lemma SafeClientStep(c: Config, s: State, step: Step, s': State, kind: Kind, a: string)
    requires Next(c, s, step, s') && IsClientStep(step)
    requires s.waitGroup == |Active(s)| && Safe(s, kind, a)
    ensures Safe(s', kind, a)
  {
    var p := step.p;
    if HasClient(s.clients, kind, a, {Waiting, Announcing}) {
      OtherClientStays(s, s', p, kind, a, {Waiting, Announcing});
      if step.WaitReturns? {
        assert Active(s) == {};
        assert forall q :: q in s.notifs ==> q in Active(s) || s.notifs[q].Arrived?;
        assert s'.clients[p].stage in {Passed};
      }
    } else if HasClient(s.clients, kind, a, {Passed}) {
      OtherClientStays(s, s', p, kind, a, {Passed});
      assert step.ReadFlag? && s.flag ==> s'.clients[p].stage in {Waiting, Announcing};
    }
  }

  lemma SafeNotifStep(c: Config, s: State, step: Step, s': State, kind: Kind, a: string)
    requires Next(c, s, step, s') && !IsClientStep(step)
    requires OwnSafe(c, s) && ServicesOk(c, s) && a in Published(s, kind) && Safe(s, kind, a)
    ensures Safe(s', kind, a)
  {
  }

  lemma InvStep(c: Config, s: State, step: Step, s': State)
    requires Inv(c, s) && Next(c, s, step, s')
    ensures Inv(c, s')
  {
    WaitGroupStep(c, s, step, s');
    ServicesStep(c, s, step, s');
    forall kind, a | a in Published(s', kind)
      ensures Safe(s', kind, a)
    {
      if a in Published(s, kind) {
        if IsClientStep(step) {
          SafeClientStep(c, s, step, s', kind, a);
        } else {
          SafeNotifStep(c, s, step, s', kind, a);
        }
      } else {
        assert s'.clients[step.p].stage in {Waiting, Announcing};
      }
    }
  }

  lemma {:induction false} RunKeepsInv(c: Config, stored: set<string>, run: seq<State>, i: nat)
    requires IsRun(c, stored, run) && i < |run|
    requires c.relayEnabled || stored <= Own(c)
    ensures Inv(c, run[i])
  {
    if i == 0 {
      assert Active(run[0]) == {};
    } else {
      RunKeepsInv(c, stored, run, i - 1);
      assert Steps(c, run[i - 1], run[i]);
      var step :| Next(c, run[i - 1], step, run[i]);
      InvStep(c, run[i - 1], step, run[i]);
    }
  }

  // ---------------------------------------------------------------------------
  // When the property holds
  // ---------------------------------------------------------------------------

  lemma NoneLostWhenScanned(c: Config, stored: set<string>, s: State)
    requires c.relayEnabled || stored <= Own(c)
    requires Reachable(c, stored, s)
    ensures NoneLost(c, s)
  {
    var run :| IsRun(c, stored, run) && run[|run| - 1] == s;
    RunKeepsInv(c, stored, run, |run| - 1);
    forall kind, a | s.flag && a in Published(s, kind)
      ensures Kept(s, kind, a)
    {
      assert Safe(s, kind, a);
      if a !in s.announced {
        var stages: set<Stage> := if HasClient(s.clients, kind, a, {Passed}) then {Passed} else {Waiting, Announcing};
        var p :| p in s.clients && s.clients[p].kind == kind && s.clients[p].addr == a && s.clients[p].stage in stages;
        assert s.clients[p].stage in {Waiting, Passed, Announcing};
      }
    }
  }

  lemma Extend(c: Config, stored: set<string>, s: State, step: Step, s': State)
    requires Reachable(c, stored, s) && Next(c, s, step, s')
    ensures Reachable(c, stored, s')
  {
    var run :| IsRun(c, stored, run) && run[|run| - 1] == s;
    var longer := run + [s'];
    assert Steps(c, s, s');
    assert IsRun(c, stored, longer) && longer[|longer| - 1] == s';
  }

  /** A notification handler of a node without relay service gets past the relay scan it skips. */
  lemma RelayScanSkipped(c: Config, stored: set<string>) returns (s: State)
    requires !c.relayEnabled
    ensures Reachable(c, stored, s) && s == State(stored, {}, Own(c), false, 1, map[], map[0 := RelaysDone])
  {
    s := State(stored, {}, {}, false, 0, map[], map[]);
    assert IsRun(c, stored, [s]);
    var t := s.(notifs := map[0 := Arrived]);
    Extend(c, stored, s, Notify(0), t);
    s := t.(notifs := map[0 := Raised], waitGroup := 1);
    Extend(c, stored, t, WaitGroupAdd(0), s);
    t := s.(notifs := map[0 := OwnDone], announced := Own(c));
    Extend(c, stored, s, AnnounceOwn(0), t);
    s := t.(notifs := map[0 := RelaysDone]);
    Extend(c, stored, t, Proceed(0), s);
  }

  /** A node restarted with its relay service off never announces the relay clients in its log. */
  lemma StoredRelayLost(c: Config, stored: set<string>, a: string) returns (s: State)
    requires !c.relayEnabled && a in stored && a !in Own(c)
    ensures Reachable(c, stored, s) && s.flag && a in s.relays && !Kept(s, Relay, a)
  {
    var t := RelayScanSkipped(c, stored);
    if c.delegateEnabled {
      s := t.(notifs := map[0 := ScanDelegates({})]);
      Extend(c, stored, t, Proceed(0), s);
      t := s;
    }
    s := t.(notifs := map[0 := DelegatesDone]);
    Extend(c, stored, t, Proceed(0), s);
    t := s.(notifs := map[0 := FlagSet], flag := true);
    Extend(c, stored, s, Proceed(0), t);
    s := t;
  }

  /**
   * No interleaving loses an address exactly when the node scans its relay map or has
   * replayed nothing into it but its own agent's address.
   */
  lemma NoLostAnnouncement(c: Config, stored: set<string>)
    ensures (forall s :: Reachable(c, stored, s) ==> NoneLost(c, s)) <==> c.relayEnabled || stored <= Own(c)
  {
    if c.relayEnabled || stored <= Own(c) {
      forall s | Reachable(c, stored, s)
        ensures NoneLost(c, s)
      {
        NoneLostWhenScanned(c, stored, s);
      }
    } else {
      var a :| a in stored && a !in Own(c);
      var s := StoredRelayLost(c, stored, a);
      assert a in Published(s, Relay);
    }
  }

  /** A handler that has still to wait and read the flag is not stuck: left alone, it marks its address. */
  lemma PendingClientAnnounces(c: Config, stored: set<string>, s: State, p: nat) returns (s': State)
    requires Reachable(c, stored, s) && s.flag && s.waitGroup == 0
    requires p in s.clients && s.clients[p].stage in {Waiting, Passed, Announcing}
    ensures Reachable(c, stored, s') && s.clients[p].addr in s'.announced
    ensures s'.relays == s.relays && s'.delegates == s.delegates
  {
    s' := s;
    if s'.clients[p].stage.Waiting? {
      var t := Move(s', p, Passed);
      Extend(c, stored, s', WaitReturns(p), t);
      s' := t;
    }
    if s'.clients[p].stage.Passed? {
      var t := Move(s', p, Announcing);
      Extend(c, stored, s', ReadFlag(p), t);
      s' := t;
    }
    var t := Move(s', p, Settled).(announced := s'.announced + {s'.clients[p].addr});
    Extend(c, stored, s', Announce(p), t);
    s' := t;
  }
}
