/**
 * Every interleaving of relay and delegate registrations, disconnects, mailbox
 * registrations, address lookups and restarts.  Each step is one critical section.
 */
module Registry {
  import opened Wrappers
  import opened Bytes
  import opened Por
  import opened RecordLog

  /** A node's identity and foreign functions.  `myRecord` is the agent's own record, if it has one. */
  datatype Node = Node(
    ledgers: Ledgers, codec: Codec, myKey: string, myAddress: string, myRecord: Option<AgentRecord>)

  /** What `New` has established when it returns. */
  ghost predicate Started(n: Node) {
    && RoundTrips(n.codec)
    && (n.myRecord.Some? ==>
          && n.myAddress == n.myRecord.value.address
          && CheckPor(n.ledgers, n.myRecord.value, n.myRecord.value.address, n.myKey).Success?)
  }

  /** A registration past its PoR check; `recorded` once it has written `agentRecords`. */
  datatype Task =
    | Relay(record: AgentRecord, recorded: bool, remotePeer: string)
    | Delegate(record: AgentRecord, recorded: bool)
    | Connected(record: AgentRecord)

  /** The shared maps, the log and the registrations in progress. */
  datatype Shared = Shared(
    records: map<string, AgentRecord>, relays: map<string, string>, delegates: set<string>,
    storage: Data, mailbox: map<string, AgentRecord>, tasks: map<nat, Task>)

  datatype Registration =
    | VerifyRelay(t: nat, r: AgentRecord, remoteKey: string, remotePeer: string)
    | VerifyDelegate(t: nat, r: AgentRecord)
    | Record(t: nat)
    | InsertRelay(t: nat)
    | InsertDelegate(t: nat)
    | Disconnect(t: nat)
    | RegisterMailbox(r: AgentRecord)
    | UnregisterMailbox(addr: string)

  /** An address request: which maps it has read so far, in the order it reads them. */
  datatype Request =
    | Asked(addr: string)
    | ReadRelays(addr: string, relay: bool)
    | ReadDelegates(addr: string, relay: bool, delegate: bool)
    | ReadRecords(addr: string, relay: bool, delegate: bool, local: Option<AgentRecord>)
    | InMailbox(addr: string)

  datatype Source = Own | FromRelay | FromMailbox | FromDelegate | FromDht

  /** A request in progress; `seen` is its history: the maps at each of its steps so far. */
  datatype Query = Query(request: Request, seen: seq<Shared>)

  /** What goes out; no record means an error status. */
  datatype Reply = Reply(source: Source, record: Option<AgentRecord>)

  /** A finished request, with its history and what the DHT returned in case it was asked. */
  datatype Answer = Answer(addr: string, source: Source, record: Option<AgentRecord>,
                           seen: seq<Shared>, dht: Option<AgentRecord>)

  datatype State = State(shared: Shared, requests: map<nat, Query>, answers: seq<Answer>)

  datatype Step =
    | Register(reg: Registration)
    | Ask(q: nat, addr: string)
    | Read(q: nat)
    | Decide(q: nat, dht: Option<AgentRecord>)
    | Restart

  ghost predicate Init(s: State) {
    s == State(Shared(map[], map[], {}, [], map[], map[]), map[], [])
  }

  ghost predicate Registers(n: Node, s: Shared, reg: Registration, s': Shared) {
    match reg
    case VerifyRelay(t, r, remoteKey, remotePeer) =>
      && t !in s.tasks
      && n.codec.peerIdOf(remoteKey) == Some(remotePeer)  // a connection's peer ID comes from its key
      && CheckPor(n.ledgers, r, r.address, remoteKey).Success?
      && Storable(n.codec, r)
      && s' == s.(tasks := s.tasks[t := Relay(r, false, remotePeer)])
    case VerifyDelegate(t, r) =>
      && t !in s.tasks
      && CheckPor(n.ledgers, r, r.address, n.myKey).Success?
      && s' == s.(tasks := s.tasks[t := Delegate(r, false)])
    case Record(t) =>
      && t in s.tasks && !s.tasks[t].Connected? && !s.tasks[t].recorded
      && var r := s.tasks[t].record;
      && s' == s.(records := s.records[r.address := r], tasks := s.tasks[t := s.tasks[t].(recorded := true)])
    case InsertRelay(t) =>
      && t in s.tasks && s.tasks[t].Relay? && s.tasks[t].recorded
      && var r := s.tasks[t].record;
      && s' == s.(relays := s.relays[r.address := s.tasks[t].remotePeer],
                  storage := s.storage + Entry(n.codec, r), tasks := s.tasks - {t})
    case InsertDelegate(t) =>
      && t in s.tasks && s.tasks[t].Delegate? && s.tasks[t].recorded
      && var r := s.tasks[t].record;
      && s' == s.(delegates := s.delegates + {r.address}, tasks := s.tasks[t := Connected(r)])
    case Disconnect(t) =>
      && t in s.tasks && s.tasks[t].Connected?
      && s' == s.(delegates := s.delegates - {s.tasks[t].record.address}, tasks := s.tasks - {t})
    case RegisterMailbox(r) =>
      && CheckPor(n.ledgers, r, r.address, n.myKey).Success?
      && s' == s.(mailbox := s.mailbox[r.address := r])
    case UnregisterMailbox(a) =>
      s' == s.(mailbox := s.mailbox - {a})
  }

  function Lookup(m: map<string, AgentRecord>, a: string): Option<AgentRecord> {
    if a in m then Some(m[a]) else None
  }

  /** The order of `HandleAeaAddressRequest`: relay map, delegate map, then records. */
  function ReadNext(s: Shared, q: Request): Request {
    match q
    case Asked(a) => ReadRelays(a, a in s.relays)
    case ReadRelays(a, relay) => ReadDelegates(a, relay, a in s.delegates)
    case ReadDelegates(a, relay, delegate) => ReadRecords(a, relay, delegate, Lookup(s.records, a))
    case _ => q
  }

  /**
   * The branch taken once all maps are read: an answer, or a mailbox client whose record
   * is still to be fetched.  `dht` is what the DHT lookup returns if it is reached.
   */
  function Choose(n: Node, s: Shared, q: Request, dht: Option<AgentRecord>): Option<Reply>
    requires q.ReadRecords? || q.InMailbox?
  {
    match q
    case InMailbox(a) => Some(Reply(FromMailbox, Lookup(s.mailbox, a)))
    case ReadRecords(a, relay, delegate, local) =>
      if a == n.myAddress then Some(Reply(Own, n.myRecord))
      else if relay then Some(Reply(FromRelay, local))
      else if a in s.mailbox then None
      else if delegate then Some(Reply(FromDelegate, local))
      else Some(Reply(FromDht, dht))
  }

  ghost predicate Next(n: Node, s: State, step: Step, s': State) {
    match step
    case Register(reg) =>
      Registers(n, s.shared, reg, s'.shared) && s' == s.(shared := s'.shared)
    case Ask(q, a) =>
      q !in s.requests && s' == s.(requests := s.requests[q := Query(Asked(a), [])])
    case Read(q) =>
      && q in s.requests
      && var Query(request, seen) := s.requests[q];
      && !request.ReadRecords? && !request.InMailbox?
      && s' == s.(requests := s.requests[q := Query(ReadNext(s.shared, request), seen + [s.shared])])
    case Decide(q, dht) =>
      && q in s.requests
      && var Query(request, before) := s.requests[q];
      && var seen := before + [s.shared];
      && (request.ReadRecords? || request.InMailbox?)
      && (dht.Some? ==> CheckPor(n.ledgers, dht.value, request.addr, dht.value.peerPublicKey).Success?)
      && s' == (match Choose(n, s.shared, request, dht)
                case None => s.(requests := s.requests[q := Query(InMailbox(request.addr), seen)])
                case Some(reply) =>
                  s.(requests := s.requests - {q},
                     answers := s.answers + [Answer(request.addr, reply.source, reply.record, seen, dht)]))
    case Restart =>
      && Replay(n.codec, s.shared.storage, EMPTY).Ok?
      && var m := Replay(n.codec, s.shared.storage, EMPTY).value;
      && s' == State(Shared(m.records, m.relays, {}, s.shared.storage, map[], map[]), map[], s.answers)
  }

  ghost predicate Steps(n: Node, s: State, s': State) {
    exists step :: Next(n, s, step, s')
  }

  ghost predicate IsRun(n: Node, run: seq<State>) {
    && run != [] && Init(run[0])
    && forall i :: 0 < i < |run| ==> Steps(n, run[i - 1], run[i])
  }

  ghost predicate Reachable(n: Node, s: State) {
    exists run :: IsRun(n, run) && run[|run| - 1] == s
  }

  // ---------------------------------------------------------------------------
  // The invariant
  // ---------------------------------------------------------------------------

  /** `r` may be served for `a`: it is about `a` and proves itself. */
  predicate Sound(n: Node, a: string, r: AgentRecord) {
    r.address == a && CheckPor(n.ledgers, r, a, r.peerPublicKey).Success?
  }

  ghost predicate AllSound(n: Node, m: map<string, AgentRecord>) {
    forall a :: a in m ==> Sound(n, a, m[a])
  }

  /** A relay client can register `r` for `a`: the peer it names passes the handler's checks. */
  predicate Registrable(n: Node, a: string, r: AgentRecord) {
    Sound(n, a, r) && Storable(n.codec, r) && n.codec.peerIdOf(r.peerPublicKey).Some?
  }

  /** The maps point only at published, sound records, each naming this node or a relay client's peer. */
  ghost predicate MapsOk(n: Node, s: Shared) {
    && AllSound(n, s.records)
    && (forall a :: a in s.records ==> s.records[a].peerPublicKey == n.myKey || Registrable(n, a, s.records[a]))
    && s.relays.Keys <= s.records.Keys && s.delegates <= s.records.Keys
    && AllSound(n, s.mailbox) && (forall a :: a in s.mailbox ==> s.mailbox[a].peerPublicKey == n.myKey)
  }

  ghost predicate TaskOk(n: Node, s: Shared, t: Task) {
    && Sound(n, t.record.address, t.record)
    && (t.Relay? ==> n.codec.peerIdOf(t.record.peerPublicKey) == Some(t.remotePeer) && Storable(n.codec, t.record))
    && (!t.Relay? ==> t.record.peerPublicKey == n.myKey)
    && (t.Connected? || t.recorded ==> t.record.address in s.records)
  }

  ghost predicate TasksOk(n: Node, s: Shared) {
    forall t :: t in s.tasks ==> TaskOk(n, s, s.tasks[t])
  }

  /** The log replays to exactly the relay map in memory, with a sound record for each entry. */
  ghost predicate LogOk(n: Node, s: Shared) {
    var replay := Replay(n.codec, s.storage, EMPTY);
    && replay.Ok?
    && replay.value.relays == s.relays
    && replay.value.records.Keys == s.relays.Keys
    && forall a :: a in replay.value.records ==> Registrable(n, a, replay.value.records[a])
  }

  /** Address `a` is, or is about to be, registered by a relay client. */
  ghost predicate RelayTouched(s: Shared, a: string) {
    || a in s.relays
    || exists t :: t in s.tasks && s.tasks[t].Relay? && s.tasks[t].recorded && s.tasks[t].record.address == a
  }

  ghost predicate OwnKeyOk(n: Node, s: Shared) {
    forall a :: a in s.records ==> s.records[a].peerPublicKey == n.myKey || RelayTouched(s, a)
  }

  ghost predicate RequestOk(n: Node, s: Shared, q: Request) {
    match q
    case Asked(_) => true
    case ReadRelays(a, relay) => relay ==> a in s.records
    case ReadDelegates(a, relay, delegate) => relay || delegate ==> a in s.records
    case ReadRecords(a, relay, delegate, local) =>
      (relay || delegate ==> local.Some?) && (local.Some? ==> Sound(n, a, local.value))
    case InMailbox(_) => true
  }

  ghost predicate ReplyOk(n: Node, addr: string, source: Source, record: Option<AgentRecord>) {
    && (record.Some? ==> Sound(n, addr, record.value))
    && (source.FromRelay? || source.FromDelegate? ==> record.Some?)
  }

  ghost predicate AnswerOk(n: Node, a: Answer) {
    ReplyOk(n, a.addr, a.source, a.record)
  }

  ghost predicate SharedOk(n: Node, s: Shared) {
    MapsOk(n, s) && TasksOk(n, s) && LogOk(n, s) && OwnKeyOk(n, s)
  }

  ghost predicate Inv(n: Node, s: State) {
    && SharedOk(n, s.shared)
    && (forall q :: q in s.requests ==> RequestOk(n, s.shared, s.requests[q].request))
    && (forall i :: 0 <= i < |s.answers| ==> AnswerOk(n, s.answers[i]))
  }

  lemma MapsStep(n: Node, s: Shared, reg: Registration, s': Shared)
    requires MapsOk(n, s) && TasksOk(n, s) && Registers(n, s, reg, s')
    ensures MapsOk(n, s') && s.records.Keys <= s'.records.Keys
  {
  }

  lemma TasksStep(n: Node, s: Shared, reg: Registration, s': Shared)
    requires TasksOk(n, s) && Registers(n, s, reg, s')
    ensures TasksOk(n, s')
  {
  }

  lemma LogStep(n: Node, s: Shared, reg: Registration, s': Shared)
    requires RoundTrips(n.codec) && TasksOk(n, s) && LogOk(n, s) && Registers(n, s, reg, s')
    ensures LogOk(n, s')
  {
    if reg.InsertRelay? {
      ReplayAppend(n.codec, s.storage, EMPTY, s.tasks[reg.t].record, s.tasks[reg.t].remotePeer);
    }
  }

  lemma RelayTouchedStays(n: Node, s: Shared, reg: Registration, s': Shared, a: string)
    requires Registers(n, s, reg, s') && RelayTouched(s, a)
    ensures RelayTouched(s', a)
  {
    if a !in s.relays {
      var t :| t in s.tasks && s.tasks[t].Relay? && s.tasks[t].recorded && s.tasks[t].record.address == a;
      assert t in s'.tasks || a in s'.relays;
    }
  }

  lemma OwnKeyStep(n: Node, s: Shared, reg: Registration, s': Shared)
    requires TasksOk(n, s) && OwnKeyOk(n, s) && Registers(n, s, reg, s')
    ensures OwnKeyOk(n, s')
  {
    forall a | a in s'.records
      ensures s'.records[a].peerPublicKey == n.myKey || RelayTouched(s', a)
    {
      if a in s.records && RelayTouched(s, a) {
        RelayTouchedStays(n, s, reg, s', a);
      } else if reg.Record? {
        assert reg.t in s'.tasks && s'.tasks[reg.t].recorded;
      }
    }
  }

  lemma RequestStep(n: Node, s: Shared, q: Request, dht: Option<AgentRecord>)
    requires Started(n) && MapsOk(n, s) && RequestOk(n, s, q)
    requires dht.Some? ==> CheckPor(n.ledgers, dht.value, q.addr, dht.value.peerPublicKey).Success?
    ensures RequestOk(n, s, ReadNext(s, q))
    ensures (q.ReadRecords? || q.InMailbox?) && Choose(n, s, q, dht).Some? ==>
              var reply := Choose(n, s, q, dht).value;
              ReplyOk(n, q.addr, reply.source, reply.record)
  {
  }

  lemma InvStep(n: Node, s: State, step: Step, s': State)
    requires Started(n) && Inv(n, s) && Next(n, s, step, s')
    ensures Inv(n, s')
  {
    match step
    case Register(reg) =>
      MapsStep(n, s.shared, reg, s'.shared);
      TasksStep(n, s.shared, reg, s'.shared);
      LogStep(n, s.shared, reg, s'.shared);
      OwnKeyStep(n, s.shared, reg, s'.shared);
    case Ask(_, _) =>
    case Read(q) => RequestStep(n, s.shared, s.requests[q].request, None);
    case Decide(q, dht) => RequestStep(n, s.shared, s.requests[q].request, dht);
    case Restart =>
  }

  /** Every run keeps the invariant, restarts included. */
  lemma {:induction false} RunKeepsInv(n: Node, run: seq<State>, i: nat)
    requires Started(n) && IsRun(n, run) && i < |run|
    ensures Inv(n, run[i])
  {
    if i == 0 {
    } else {
      RunKeepsInv(n, run, i - 1);
      assert Steps(n, run[i - 1], run[i]);
      var step :| Next(n, run[i - 1], step, run[i]);
      InvStep(n, run[i - 1], step, run[i]);
    }
  }

  lemma ReachableKeepsInv(n: Node, s: State)
    requires Started(n) && Reachable(n, s)
    ensures Inv(n, s)
  {
    var run :| IsRun(n, run) && run[|run| - 1] == s;
    RunKeepsInv(n, run, |run| - 1);
  }

  lemma Extend(n: Node, s: State, step: Step, s': State)
    requires Reachable(n, s) && Next(n, s, step, s')
    ensures Reachable(n, s')
  {
    var run :| IsRun(n, run) && run[|run| - 1] == s;
    var longer := run + [s'];
    assert Steps(n, s, s');
    assert IsRun(n, longer) && longer[|longer| - 1] == s';
  }

  // ---------------------------------------------------------------------------
  // What callers may rely on
  // ---------------------------------------------------------------------------

  /** Crash recovery: at every point of every run the log replays, to exactly the relay map and to sound records. */
  lemma CrashRecovery(n: Node, s: State)
    requires Started(n) && Reachable(n, s)
    ensures Replay(n.codec, s.shared.storage, EMPTY).Ok?
    ensures Replay(n.codec, s.shared.storage, EMPTY).value.relays == s.shared.relays
    ensures AllSound(n, Replay(n.codec, s.shared.storage, EMPTY).value.records)
  {
    ReachableKeepsInv(n, s);
  }

  /** Lookup soundness: on all five branches a served record is about the address asked for and passes PoR. */
  lemma LookupSoundness(n: Node, s: State, i: nat)
    requires Started(n) && Reachable(n, s) && i < |s.answers| && s.answers[i].record.Some?
    ensures var r := s.answers[i].record.value;
            CheckPor(n.ledgers, r, s.answers[i].addr, r.peerPublicKey).Success?
  {
    ReachableKeepsInv(n, s);
    var r := s.answers[i].record.value;
    PorBindsAgentAndPeer(n.ledgers, r, s.answers[i].addr, r.peerPublicKey);
  }

  /** Publication order: maps point only at published records, so a relay or delegate hit always has one. */
  lemma PublicationOrder(n: Node, s: State)
    requires Started(n) && Reachable(n, s)
    ensures s.shared.relays.Keys <= s.shared.records.Keys && s.shared.delegates <= s.shared.records.Keys
    ensures forall i :: 0 <= i < |s.answers| && (s.answers[i].source.FromRelay? || s.answers[i].source.FromDelegate?)
                        ==> s.answers[i].record.Some?
  {
    ReachableKeepsInv(n, s);
  }

  /**
   * `getEnvelopeAcnRecord`: `local` and `mailbox` are what the two reads return; the
   * mailbox read yields no record when the client unregisters between its two sections.
   */
  function EnvelopeRecord(n: Node, sender: string, local: Option<AgentRecord>, inMailbox: bool,
                          mailbox: Option<AgentRecord>): Result<Option<AgentRecord>> {
    if sender == n.myAddress then Ok(n.myRecord)
    else if inMailbox then Ok(mailbox)
    else if local.Some? then Ok(local)
    else Err("Envelope sender is not registered locally " + sender)
  }

  /**
   * End-to-end acceptance: the record attached to a forwarded envelope passes the
   * receiver's PoR check against this node's key exactly when it names that key, and it
   * does for the node's own agent, for mailbox clients, and for clients no relay client
   * shares the address of.  The own agent's envelopes carry its own record, a mailbox client's
   * the one in the mailbox, anybody else's the one in `agentRecords`.  `s` is the state when `agentRecords` is read and `later` the
   * one when the mailbox is.
   */
  lemma ForwardedRecordAccepted(n: Node, s: State, later: State, sender: string, inMailbox: bool)
    requires Started(n) && Reachable(n, s) && Reachable(n, later)
    ensures match EnvelopeRecord(n, sender, Lookup(s.shared.records, sender), inMailbox, Lookup(later.shared.mailbox, sender))
            case Err(_) => sender != n.myAddress && !inMailbox && sender !in s.shared.records
            case Ok(None) =>
              if sender == n.myAddress then n.myRecord.None? else inMailbox && sender !in later.shared.mailbox
            case Ok(Some(r)) =>
              && r.address == sender
              && Some(r) == (if sender == n.myAddress then n.myRecord
                             else Lookup(if inMailbox then later.shared.mailbox else s.shared.records, sender))
              && (CheckPor(n.ledgers, r, r.address, n.myKey).Success? <==> r.peerPublicKey == n.myKey)
              && (sender == n.myAddress || inMailbox || !RelayTouched(s.shared, sender) ==> r.peerPublicKey == n.myKey)
  {
    ReachableKeepsInv(n, s);
    ReachableKeepsInv(n, later);
    match EnvelopeRecord(n, sender, Lookup(s.shared.records, sender), inMailbox, Lookup(later.shared.mailbox, sender)) {
      case Ok(Some(r)) =>
        PorBindsAgentAndPeer(n.ledgers, r, r.address, n.myKey);
        PorBindsAgentAndPeer(n.ledgers, r, r.address, r.peerPublicKey);
      case _ =>
    }
  }
}
