/**
 * What `agentRecords` may hold for one address.  Registrations write it under one lock and
 * the relay map and the log under another, so relay and delegate clients of one address
 * replace each other's records, and two relay registrations may cross.  This module says
 * exactly when that cannot be seen: in a forwarded envelope, and across a restart.
 */
module RecordAgreement {
  import opened Wrappers
  import opened Por
  import opened RecordLog
  import opened Registry
  import Sequences

  lemma StartReachable(n: Node) returns (s: State)
    ensures Init(s) && Reachable(n, s)
  {
    s := State(Shared(map[], map[], {}, [], map[], map[]), map[], []);
    assert IsRun(n, [s]);
  }

  // ---------------------------------------------------------------------------
  // Forwarded envelopes
  // ---------------------------------------------------------------------------

  /** A client registering through a peer of another key leaves a record that receivers reject. */
  lemma RelayRecordRejected(n: Node, r: AgentRecord) returns (s: State)
    requires Registrable(n, r.address, r) && r.peerPublicKey != n.myKey
    ensures Reachable(n, s) && Lookup(s.shared.records, r.address) == Some(r)
    ensures !CheckPor(n.ledgers, r, r.address, n.myKey).Success?
  {
    var id := n.codec.peerIdOf(r.peerPublicKey).value;
    var start := StartReachable(n);
    var verified := start.(shared := start.shared.(tasks := map[0 := Relay(r, false, id)]));
    Extend(n, start, Register(VerifyRelay(0, r, r.peerPublicKey, id)), verified);
    s := start.(shared := start.shared.(records := map[r.address := r], tasks := map[0 := Relay(r, true, id)]));
    Extend(n, verified, Register(Record(0)), s);
    PorBindsAgentAndPeer(n.ledgers, r, r.address, n.myKey);
  }

  /**
   * Receivers accept the stored record of `a` in every reachable state if and only if no
   * relay client can register `a` through a peer of another key.
   */
  lemma StoredRecordAcceptable(n: Node, a: string)
    requires Started(n)
    ensures (forall s :: Reachable(n, s) && a in s.shared.records ==>
                           CheckPor(n.ledgers, s.shared.records[a], a, n.myKey).Success?)
            <==> forall r :: Registrable(n, a, r) ==> r.peerPublicKey == n.myKey
  {
    if forall r :: Registrable(n, a, r) ==> r.peerPublicKey == n.myKey {
      forall s | Reachable(n, s) && a in s.shared.records
        ensures CheckPor(n.ledgers, s.shared.records[a], a, n.myKey).Success?
      {
        ReachableKeepsInv(n, s);
        assert Sound(n, a, s.shared.records[a]);
      }
    } else {
      var r :| Registrable(n, a, r) && r.peerPublicKey != n.myKey;
      var s := RelayRecordRejected(n, r);
    }
  }

  // ---------------------------------------------------------------------------
  // Restarts
  // ---------------------------------------------------------------------------

  /** The registrations of `a` in progress. */
  function Pending(s: Shared, a: string): set<nat> {
    set t | t in s.tasks && s.tasks[t].record.address == a
  }

  /** Only relay clients register `a`, at most `k` at a time. */
  ghost predicate AtMost(s: Shared, a: string, k: nat) {
    && (forall t :: t in s.tasks && s.tasks[t].record.address == a ==> s.tasks[t].Relay?)
    && |Pending(s, a)| <= k
  }

  /** A run in which only relay clients register `a`, at most `k` of them at any time. */
  ghost predicate IsRunWithin(n: Node, run: seq<State>, a: string, k: nat) {
    IsRun(n, run) && forall i :: 0 <= i < |run| ==> AtMost(run[i].shared, a, k)
  }

  ghost predicate ReachableWithin(n: Node, s: State, a: string, k: nat) {
    exists run :: IsRunWithin(n, run, a, k) && run[|run| - 1] == s
  }

  /** A restart would find the record of `a` that is in memory. */
  ghost predicate Agrees(n: Node, s: Shared, a: string) {
    var replay := Replay(n.codec, s.storage, EMPTY);
    replay.Ok? && Lookup(replay.value.records, a) == Lookup(s.records, a)
  }

  ghost predicate OneRecord(n: Node, a: string) {
    forall p, q :: Registrable(n, a, p) && Registrable(n, a, q) ==> p == q
  }

  /** Registration `t` has written the record of `a` and has still to append it to the log. */
  ghost predicate Writing(s: Shared, a: string, t: nat) {
    t in s.tasks && s.tasks[t].Relay? && s.tasks[t].recorded && s.tasks[t].record.address == a
  }

  /** Whoever has still to append the record of `a` has the one in memory; with nobody left, the log has it. */
  ghost predicate AgreeOk(n: Node, s: Shared, a: string) {
    && (forall t :: Writing(s, a, t) ==> Lookup(s.records, a) == Some(s.tasks[t].record))
    && ((forall t :: !Writing(s, a, t)) ==> Agrees(n, s, a))
  }

  /** With one registration at a time, or one record to register, whoever is at work has this record. */
  lemma PendingAlike(n: Node, s: Shared, a: string, k: nat, t: nat, u: nat)
    requires k <= 1 || OneRecord(n, a)
    requires TasksOk(n, s) && AtMost(s, a, k) && t in Pending(s, a) && u in Pending(s, a)
    ensures s.tasks[t].record == s.tasks[u].record
  {
    if t != u && k <= 1 {
      assert {t, u} <= Pending(s, a);
      Sequences.SubsetSize({t, u}, Pending(s, a));
      assert false;
    }
    if t != u {
      assert TaskOk(n, s, s.tasks[t]) && TaskOk(n, s, s.tasks[u]);
      assert Registrable(n, a, s.tasks[t].record) && Registrable(n, a, s.tasks[u].record);
    }
  }

  lemma RecordedAlike(n: Node, s: Shared, t: nat, s': Shared, a: string, k: nat)
    requires k <= 1 || OneRecord(n, a)
    requires TasksOk(n, s) && AtMost(s, a, k) && Registers(n, s, Record(t), s')
    requires s.tasks[t].record.address == a
    ensures Writing(s', a, t)
    ensures forall u :: Writing(s', a, u) ==> s'.tasks[u].record == s.tasks[t].record
  {
    forall u | Writing(s', a, u)
      ensures s'.tasks[u].record == s.tasks[t].record
    {
      PendingAlike(n, s, a, k, t, u);
    }
  }

  lemma RecordElsewhere(n: Node, s: Shared, t: nat, s': Shared, a: string)
    requires Registers(n, s, Record(t), s') && s.tasks[t].record.address != a
    ensures Lookup(s'.records, a) == Lookup(s.records, a) && s'.storage == s.storage
    ensures forall u :: Writing(s', a, u) <==> Writing(s, a, u)
    ensures forall u :: Writing(s, a, u) ==> s'.tasks[u] == s.tasks[u]
  {
    WritersStay(s, s', a);
  }

  lemma AgreeRecord(n: Node, s: Shared, t: nat, s': Shared, a: string, k: nat)
    requires k <= 1 || OneRecord(n, a)
    requires TasksOk(n, s) && AtMost(s, a, k) && Registers(n, s, Record(t), s')
    requires AgreeOk(n, s, a)
    ensures AgreeOk(n, s', a)
  {
    if s.tasks[t].record.address == a {
      RecordedAlike(n, s, t, s', a, k);
    } else {
      RecordElsewhere(n, s, t, s', a);
    }
  }

  lemma AgreeInsert(n: Node, s: Shared, t: nat, s': Shared, a: string)
    requires Started(n) && SharedOk(n, s) && Registers(n, s, InsertRelay(t), s')
    requires AgreeOk(n, s, a)
    ensures AgreeOk(n, s', a)
  {
    ReplayAppend(n.codec, s.storage, EMPTY, s.tasks[t].record, s.tasks[t].remotePeer);
    if s.tasks[t].record.address == a {
      assert Writing(s, a, t);
      assert forall u :: Writing(s', a, u) ==> Writing(s, a, u);
    } else {
      WritersStay(s, s', a);
    }
  }

  /** Steps of other addresses leave the writers of `a` alone. */
  lemma WritersStay(s: Shared, s': Shared, a: string)
    requires forall t :: t in s.tasks && s.tasks[t].record.address == a ==> t in s'.tasks && s'.tasks[t] == s.tasks[t]
    requires forall t :: t in s'.tasks && s'.tasks[t].record.address == a ==>
               (t in s.tasks && s'.tasks[t] == s.tasks[t]) || (s'.tasks[t].Relay? && !s'.tasks[t].recorded)
    ensures forall t :: Writing(s', a, t) <==> Writing(s, a, t)
    ensures forall t :: Writing(s, a, t) ==> s'.tasks[t] == s.tasks[t]
  {
    forall t
      ensures Writing(s', a, t) <==> Writing(s, a, t)
      ensures Writing(s, a, t) ==> s'.tasks[t] == s.tasks[t]
    {
    }
  }

  lemma AgreeOther(n: Node, s: Shared, reg: Registration, s': Shared, a: string, k: nat)
    requires AtMost(s, a, k) && Registers(n, s, reg, s') && AtMost(s', a, k)
    requires !reg.Record? && !reg.InsertRelay?
    ensures s'.records == s.records && s'.storage == s.storage
    ensures forall t :: Writing(s', a, t) <==> Writing(s, a, t)
    ensures forall t :: Writing(s, a, t) ==> s'.tasks[t] == s.tasks[t]
  {
    WritersStay(s, s', a);
  }

  lemma AgreeRegisters(n: Node, s: Shared, reg: Registration, s': Shared, a: string, k: nat)
    requires Started(n) && (k <= 1 || OneRecord(n, a))
    requires SharedOk(n, s) && AtMost(s, a, k) && Registers(n, s, reg, s') && AtMost(s', a, k)
    requires AgreeOk(n, s, a)
    ensures AgreeOk(n, s', a)
  {
    match reg
    case Record(t) => AgreeRecord(n, s, t, s', a, k);
    case InsertRelay(t) => AgreeInsert(n, s, t, s', a);
    case _ => AgreeOther(n, s, reg, s', a, k);
  }

  lemma AgreeStep(n: Node, s: State, step: Step, s': State, a: string, k: nat)
    requires Started(n) && (k <= 1 || OneRecord(n, a))
    requires Inv(n, s) && AtMost(s.shared, a, k) && Next(n, s, step, s') && AtMost(s'.shared, a, k)
    requires AgreeOk(n, s.shared, a)
    ensures AgreeOk(n, s'.shared, a)
  {
    if step.Register? {
      AgreeRegisters(n, s.shared, step.reg, s'.shared, a, k);
    }
  }

  lemma {:induction false} RunAgrees(n: Node, run: seq<State>, a: string, k: nat, i: nat)
    requires Started(n) && (k <= 1 || OneRecord(n, a))
    requires IsRunWithin(n, run, a, k) && i < |run|
    ensures AgreeOk(n, run[i].shared, a)
  {
    if i == 0 {
    } else {
      RunAgrees(n, run, a, k, i - 1);
      RunKeepsInv(n, run, i - 1);
      assert Steps(n, run[i - 1], run[i]);
      var step :| Next(n, run[i - 1], step, run[i]);
      AgreeStep(n, run[i - 1], step, run[i], a, k);
    }
  }

  lemma ExtendWithin(n: Node, s: State, reg: Registration, s': State, a: string, k: nat)
    requires ReachableWithin(n, s, a, k) && Next(n, s, Register(reg), s') && AtMost(s'.shared, a, k)
    ensures ReachableWithin(n, s', a, k)
  {
    var run :| IsRunWithin(n, run, a, k) && run[|run| - 1] == s;
    var longer := run + [s'];
    assert Steps(n, s, s');
    assert IsRunWithin(n, longer, a, k) && longer[|longer| - 1] == s';
  }

  // ---------------------------------------------------------------------------
  // Crossing registrations
  // ---------------------------------------------------------------------------

  /** Only the registrations 0 and 1 are in progress, both of relay clients. */
  ghost predicate OnlyTwo(s: State) {
    s.shared.tasks.Keys <= {0, 1} && forall t :: t in s.shared.tasks ==> s.shared.tasks[t].Relay?
  }

  lemma WithinTwo(s: State, a: string, k: nat)
    requires OnlyTwo(s) && k >= 2
    ensures AtMost(s.shared, a, k)
  {
    Sequences.SubsetSize(Pending(s.shared, a), {0, 1});
  }

  /** A relay client passes its checks. */
  lemma VerifyNext(n: Node, s: State, t: nat, r: AgentRecord, a: string, k: nat) returns (s': State)
    requires ReachableWithin(n, s, a, k) && k >= 2 && OnlyTwo(s)
    requires t in {0, 1} && t !in s.shared.tasks && Registrable(n, a, r)
    ensures ReachableWithin(n, s', a, k) && OnlyTwo(s')
    ensures s' == s.(shared := s.shared.(tasks := s.shared.tasks[t := Relay(r, false, n.codec.peerIdOf(r.peerPublicKey).value)]))
  {
    var id := n.codec.peerIdOf(r.peerPublicKey).value;
    s' := s.(shared := s.shared.(tasks := s.shared.tasks[t := Relay(r, false, id)]));
    WithinTwo(s', a, k);
    ExtendWithin(n, s, VerifyRelay(t, r, r.peerPublicKey, id), s', a, k);
  }

  /** It writes its record. */
  lemma RecordNext(n: Node, s: State, t: nat, a: string, k: nat) returns (s': State)
    requires ReachableWithin(n, s, a, k) && k >= 2 && OnlyTwo(s)
    requires t in s.shared.tasks && !s.shared.tasks[t].recorded && s.shared.tasks[t].record.address == a
    ensures ReachableWithin(n, s', a, k) && OnlyTwo(s')
    ensures var task := s.shared.tasks[t];
            s' == s.(shared := s.shared.(records := s.shared.records[a := task.record],
                                         tasks := s.shared.tasks[t := task.(recorded := true)]))
  {
    var task := s.shared.tasks[t];
    s' := s.(shared := s.shared.(records := s.shared.records[a := task.record],
                                 tasks := s.shared.tasks[t := task.(recorded := true)]));
    WithinTwo(s', a, k);
    ExtendWithin(n, s, Record(t), s', a, k);
  }

  /** It enters the relay map and the log. */
  lemma InsertNext(n: Node, s: State, t: nat, a: string, k: nat) returns (s': State)
    requires ReachableWithin(n, s, a, k) && k >= 2 && OnlyTwo(s)
    requires t in s.shared.tasks && s.shared.tasks[t].recorded && s.shared.tasks[t].record.address == a
    ensures ReachableWithin(n, s', a, k) && OnlyTwo(s')
    ensures s'.shared.records == s.shared.records && s'.shared.tasks == s.shared.tasks - {t}
    ensures s'.shared.storage == s.shared.storage + Entry(n.codec, s.shared.tasks[t].record)
  {
    var task := s.shared.tasks[t];
    s' := s.(shared := s.shared.(relays := s.shared.relays[a := task.remotePeer], tasks := s.shared.tasks - {t},
                                 storage := s.shared.storage + Entry(n.codec, task.record)));
    WithinTwo(s', a, k);
    ExtendWithin(n, s, InsertRelay(t), s', a, k);
  }

  /** Two relay clients of one address have passed their checks. */
  lemma BothVerified(n: Node, a: string, k: nat, p: AgentRecord, q: AgentRecord) returns (s: State)
    requires k >= 2 && Registrable(n, a, p) && Registrable(n, a, q)
    ensures ReachableWithin(n, s, a, k) && OnlyTwo(s) && s.shared.storage == [] && s.shared.tasks.Keys == {0, 1}
    ensures !s.shared.tasks[0].recorded && s.shared.tasks[0].record == p
    ensures !s.shared.tasks[1].recorded && s.shared.tasks[1].record == q
  {
    s := State(Shared(map[], map[], {}, [], map[], map[]), map[], []);
    WithinTwo(s, a, k);
    assert IsRunWithin(n, [s], a, k);
    s := VerifyNext(n, s, 0, p, a, k);
    s := VerifyNext(n, s, 1, q, a, k);
  }

  /** Both have written their record, the second one last. */
  lemma BothRecorded(n: Node, a: string, k: nat, p: AgentRecord, q: AgentRecord) returns (s: State)
    requires k >= 2 && Registrable(n, a, p) && Registrable(n, a, q)
    ensures ReachableWithin(n, s, a, k) && OnlyTwo(s) && s.shared.storage == [] && s.shared.tasks.Keys == {0, 1}
    ensures s.shared.tasks[0].recorded && s.shared.tasks[0].record == p
    ensures s.shared.tasks[1].recorded && s.shared.tasks[1].record == q
    ensures Lookup(s.shared.records, a) == Some(q)
  {
    s := BothVerified(n, a, k, p, q);
    s := RecordNext(n, s, 0, a, k);
    s := RecordNext(n, s, 1, a, k);
  }

  /** They enter the log in the opposite order. */
  lemma BothInserted(n: Node, a: string, k: nat, p: AgentRecord, q: AgentRecord) returns (s: State)
    requires k >= 2 && Registrable(n, a, p) && Registrable(n, a, q)
    ensures ReachableWithin(n, s, a, k) && s.shared.tasks.Keys == {}
    ensures Lookup(s.shared.records, a) == Some(q)
    ensures s.shared.storage == [] + Entry(n.codec, q) + Entry(n.codec, p)
  {
    s := BothRecorded(n, a, k, p, q);
    s := InsertNext(n, s, 1, a, k);
    s := InsertNext(n, s, 0, a, k);
  }

  /** Registrations that cross: a restart finds the record that memory has not. */
  lemma CrossedRegistrations(n: Node, a: string, k: nat, p: AgentRecord, q: AgentRecord) returns (s: State)
    requires Started(n) && k >= 2 && Registrable(n, a, p) && Registrable(n, a, q)
    ensures ReachableWithin(n, s, a, k) && Pending(s.shared, a) == {}
    ensures Lookup(s.shared.records, a) == Some(q)
    ensures Replay(n.codec, s.shared.storage, EMPTY).Ok?
    ensures Lookup(Replay(n.codec, s.shared.storage, EMPTY).value.records, a) == Some(p)
  {
    s := BothInserted(n, a, k, p, q);
    ReplayAppend(n.codec, [], EMPTY, q, n.codec.peerIdOf(q.peerPublicKey).value);
    ReplayAppend(n.codec, [] + Entry(n.codec, q), EMPTY, p, n.codec.peerIdOf(p.peerPublicKey).value);
  }

  /**
   * Once the relay clients of an address are done, a restart finds the record of it that is
   * in memory, whatever the run, if and only if they register one at a time or have only one
   * record to register.
   */
  lemma RecordSurvivesRestart(n: Node, a: string, k: nat)
    requires Started(n)
    ensures (forall s :: ReachableWithin(n, s, a, k) && Pending(s.shared, a) == {} ==> Agrees(n, s.shared, a))
            <==> k <= 1 || OneRecord(n, a)
  {
    if k <= 1 || OneRecord(n, a) {
      forall s | ReachableWithin(n, s, a, k) && Pending(s.shared, a) == {}
        ensures Agrees(n, s.shared, a)
      {
        var run :| IsRunWithin(n, run, a, k) && run[|run| - 1] == s;
        RunAgrees(n, run, a, k, |run| - 1);
        assert forall t :: Writing(s.shared, a, t) ==> t in Pending(s.shared, a);
      }
    } else {
      var p, q :| Registrable(n, a, p) && Registrable(n, a, q) && p != q;
      var s := CrossedRegistrations(n, a, k, p, q);
      assert !Agrees(n, s.shared, a);
    }
  }
}
