/**
 * Which record an address request is answered with.  A request reads three maps one after the
 * other and the mailbox last, while registrations go on; the answer is settled by what each map
 * held when it was read.
 */
module AddressRequests {
  import opened Wrappers
  import opened Por
  import opened Registry

  /** What a request in progress holds is what the maps held: relays first, delegates, then records. */
  ghost predicate Reads(n: Node, q: Query) {
    var a, seen := q.request.addr, q.seen;
    match q.request
    case Asked(_) => seen == []
    case ReadRelays(_, relay) => |seen| == 1 && (relay <==> a in seen[0].relays)
    case ReadDelegates(_, relay, delegate) =>
      |seen| == 2 && (relay <==> a in seen[0].relays) && (delegate <==> a in seen[1].delegates)
    case ReadRecords(_, relay, delegate, local) =>
      && |seen| == 3 && (relay <==> a in seen[0].relays) && (delegate <==> a in seen[1].delegates)
      && local == Lookup(seen[2].records, a)
    case InMailbox(_) => |seen| == 4 && a != n.myAddress && a !in seen[0].relays && a in seen[3].mailbox
  }

  /**
   * The answer to a request: the own agent's record for the own address; else the record of a
   * relay client; else that of a mailbox client, read once more; else that of a delegate client;
   * else what the DHT returned.
   */
  ghost predicate Rightly(n: Node, x: Answer) {
    var a, seen := x.addr, x.seen;
    && |seen| >= 4
    && if a == n.myAddress then x.source.Own? && x.record == n.myRecord
       else if a in seen[0].relays then x.source.FromRelay? && x.record == Lookup(seen[2].records, a)
       else if a in seen[3].mailbox then |seen| == 5 && x.source.FromMailbox? && x.record == Lookup(seen[4].mailbox, a)
       else if a in seen[1].delegates then x.source.FromDelegate? && x.record == Lookup(seen[2].records, a)
       else x.source.FromDht? && x.record == x.dht
  }

  /** The states of a history were passed through, in that order, before state `i` of the run. */
  ghost predicate Passed(run: seq<State>, i: nat, seen: seq<Shared>, at: seq<nat>) {
    && |at| == |seen|
    && (forall k :: 0 <= k < |at| ==> at[k] < i && at[k] < |run| && run[at[k]].shared == seen[k])
    && (forall k, m :: 0 <= k < m < |at| ==> at[k] < at[m])
  }

  ghost predicate Witnessed(run: seq<State>, i: nat, seen: seq<Shared>) {
    exists at :: Passed(run, i, seen, at)
  }

  lemma WitnessedLater(run: seq<State>, i: nat, seen: seq<Shared>)
    requires Witnessed(run, i, seen)
    ensures Witnessed(run, i + 1, seen)
  {
    var at :| Passed(run, i, seen, at);
    assert Passed(run, i + 1, seen, at);
  }

  lemma WitnessedNow(run: seq<State>, i: nat, seen: seq<Shared>)
    requires i < |run| && Witnessed(run, i, seen)
    ensures Witnessed(run, i + 1, seen + [run[i].shared])
  {
    var at :| Passed(run, i, seen, at);
    assert Passed(run, i + 1, seen + [run[i].shared], at + [i]);
  }

  ghost predicate RequestsRight(n: Node, s: State) {
    && (forall q :: q in s.requests ==> Reads(n, s.requests[q]))
    && (forall k :: 0 <= k < |s.answers| ==> Rightly(n, s.answers[k]))
  }

  lemma ReadStep(n: Node, s: Shared, q: Query)
    requires Reads(n, q) && !q.request.ReadRecords? && !q.request.InMailbox?
    ensures Reads(n, Query(ReadNext(s, q.request), q.seen + [s]))
  {
  }

  lemma DecideStep(n: Node, s: Shared, q: Query, dht: Option<AgentRecord>)
    requires Reads(n, q) && (q.request.ReadRecords? || q.request.InMailbox?)
    ensures match Choose(n, s, q.request, dht)
            case None => Reads(n, Query(InMailbox(q.request.addr), q.seen + [s]))
            case Some(reply) => Rightly(n, Answer(q.request.addr, reply.source, reply.record, q.seen + [s], dht))
  {
  }

  lemma RequestsStep(n: Node, s: State, step: Step, s': State)
    requires RequestsRight(n, s) && Next(n, s, step, s')
    ensures RequestsRight(n, s')
  {
    match step
    case Read(q) => ReadStep(n, s.shared, s.requests[q]);
    case Decide(q, dht) => DecideStep(n, s.shared, s.requests[q], dht);
    case _ =>
  }

  lemma {:induction false} RunRequestsRight(n: Node, run: seq<State>, i: nat)
    requires IsRun(n, run) && i < |run|
    ensures RequestsRight(n, run[i])
  {
    if i == 0 {
    } else {
      RunRequestsRight(n, run, i - 1);
      assert Steps(n, run[i - 1], run[i]);
      var step :| Next(n, run[i - 1], step, run[i]);
      RequestsStep(n, run[i - 1], step, run[i]);
    }
  }

  ghost predicate AllWitnessed(run: seq<State>, i: nat, s: State) {
    && (forall q :: q in s.requests ==> Witnessed(run, i, s.requests[q].seen))
    && (forall k :: 0 <= k < |s.answers| ==> Witnessed(run, i, s.answers[k].seen))
  }

  lemma WitnessStep(n: Node, run: seq<State>, i: nat, step: Step, s': State)
    requires i < |run| && AllWitnessed(run, i, run[i]) && Next(n, run[i], step, s')
    ensures AllWitnessed(run, i + 1, s')
  {
    var s := run[i];
    forall q | q in s'.requests
      ensures Witnessed(run, i + 1, s'.requests[q].seen)
    {
      if q !in s.requests {
        assert Passed(run, i + 1, [], []);
      } else {
        WitnessedLater(run, i, s.requests[q].seen);
        WitnessedNow(run, i, s.requests[q].seen);
      }
    }
    forall k | 0 <= k < |s'.answers|
      ensures Witnessed(run, i + 1, s'.answers[k].seen)
    {
      if k < |s.answers| {
        WitnessedLater(run, i, s.answers[k].seen);
      } else {
        WitnessedNow(run, i, s.requests[step.q].seen);
      }
    }
  }

  lemma {:induction false} RunWitnessed(n: Node, run: seq<State>, i: nat)
    requires IsRun(n, run) && i < |run|
    ensures AllWitnessed(run, i, run[i])
  {
    if i == 0 {
    } else {
      RunWitnessed(n, run, i - 1);
      assert Steps(n, run[i - 1], run[i]);
      var step :| Next(n, run[i - 1], step, run[i]);
      WitnessStep(n, run, i - 1, step, run[i]);
    }
  }

  /**
   * In every run, every answer is the right one for what the maps held at successive moments of
   * that run.
   */
  lemma AnswersAreRight(n: Node, run: seq<State>, i: nat, k: nat)
    requires IsRun(n, run) && i < |run| && k < |run[i].answers|
    ensures Rightly(n, run[i].answers[k]) && Witnessed(run, i, run[i].answers[k].seen)
  {
    RunRequestsRight(n, run, i);
    RunWitnessed(n, run, i);
  }

  // ---------------------------------------------------------------------------
  // Relay clients are found for good
  // ---------------------------------------------------------------------------

  /** The request for `a` has not read the relay map yet, or has found `a` in it. */
  predicate Hits(a: string, q: Request) {
    q.addr == a ==> q.Asked? || (!q.InMailbox? && q.relay)
  }

  /** From answer number `from` on, `a` is answered for as a relay client. */
  ghost predicate ServedSince(s: State, a: string, from: nat) {
    && a in s.shared.relays
    && (forall q :: q in s.requests ==> Hits(a, s.requests[q].request))
    && (forall k :: from <= k < |s.answers| && s.answers[k].addr == a ==>
          s.answers[k].source.FromRelay? && s.answers[k].record.Some?)
  }

  lemma RelaysStay(n: Node, s: State, step: Step, s': State, a: string)
    requires LogOk(n, s.shared) && Next(n, s, step, s') && a in s.shared.relays
    ensures a in s'.shared.relays
  {
    if step.Register? {
      assert Registers(n, s.shared, step.reg, s'.shared);
    }
  }

  /** Such a request ends with a record from the relay map. */
  lemma DecideHits(n: Node, s: Shared, q: Request, dht: Option<AgentRecord>, a: string)
    requires (q.ReadRecords? || q.InMailbox?) && RequestOk(n, s, q) && Hits(a, q) && a != n.myAddress
    ensures q.addr == a ==>
              var reply := Choose(n, s, q, dht);
              reply.Some? && reply.value.source.FromRelay? && reply.value.record.Some?
  {
  }

  lemma HitsStep(n: Node, s: State, step: Step, s': State, a: string)
    requires Next(n, s, step, s') && a != n.myAddress && a in s.shared.relays
    requires forall q :: q in s.requests ==> Hits(a, s.requests[q].request)
    ensures forall q :: q in s'.requests ==> Hits(a, s'.requests[q].request)
  {
    forall q | q in s'.requests
      ensures Hits(a, s'.requests[q].request)
    {
      if q in s.requests {
        assert Hits(a, s.requests[q].request);
      }
    }
  }

  /** An answer given in this step for `a` comes from the relay map. */
  lemma AnswerHits(n: Node, s: State, step: Step, s': State, a: string)
    requires Next(n, s, step, s') && a != n.myAddress
    requires forall q :: q in s.requests ==> Hits(a, s.requests[q].request) && RequestOk(n, s.shared, s.requests[q].request)
    ensures s'.answers == s.answers ||
            (|s'.answers| == |s.answers| + 1 && s.answers <= s'.answers
             && var x := s'.answers[|s.answers|];
             (x.addr == a ==> x.source.FromRelay? && x.record.Some?))
  {
    if step.Decide? {
      DecideHits(n, s.shared, s.requests[step.q].request, step.dht, a);
    }
  }

  lemma ServedStep(n: Node, s: State, step: Step, s': State, a: string, from: nat)
    requires Inv(n, s) && Next(n, s, step, s') && a != n.myAddress && from <= |s.answers|
    requires ServedSince(s, a, from)
    ensures ServedSince(s', a, from) && from <= |s'.answers|
  {
    RelaysStay(n, s, step, s', a);
    HitsStep(n, s, step, s', a);
    AnswerHits(n, s, step, s', a);
  }

  lemma ServedStays(n: Node, s: State, s': State, a: string, from: nat)
    requires Started(n) && Inv(n, s) && Steps(n, s, s') && a != n.myAddress && from <= |s.answers|
    requires ServedSince(s, a, from)
    ensures ServedSince(s', a, from) && from <= |s'.answers|
  {
    var step :| Next(n, s, step, s');
    ServedStep(n, s, step, s', a, from);
  }

  lemma RunStep(n: Node, run: seq<State>, i: nat)
    requires Started(n) && IsRun(n, run) && 0 < i < |run|
    ensures Inv(n, run[i - 1]) && Steps(n, run[i - 1], run[i])
  {
    RunKeepsInv(n, run, i - 1);
  }

  lemma ServedNext(n: Node, run: seq<State>, i: nat, a: string, from: nat)
    requires Started(n) && IsRun(n, run) && 0 < i < |run| && a != n.myAddress && from <= |run[i - 1].answers|
    requires ServedSince(run[i - 1], a, from)
    ensures ServedSince(run[i], a, from) && from <= |run[i].answers|
  {
    RunStep(n, run, i);
    ServedStays(n, run[i - 1], run[i], a, from);
  }

  lemma {:induction false} ServedForGood(n: Node, run: seq<State>, i: nat, j: nat, a: string, from: nat)
    requires Started(n) && IsRun(n, run) && i <= j < |run| && a != n.myAddress
    requires from <= |run[i].answers| && ServedSince(run[i], a, from)
    ensures from <= |run[j].answers| && ServedSince(run[j], a, from)
    decreases j - i
  {
    if i == j {
    } else {
      ServedNext(n, run, i + 1, a, from);
      ServedForGood(n, run, i + 1, j, a, from);
    }
  }

  /**
   * Once a relay client is registered, every request for it made from then on is answered with a
   * record from the relay map, whatever else happens, restarts included.
   */
  lemma RelayClientServed(n: Node, run: seq<State>, i: nat, j: nat, a: string, k: nat)
    requires Started(n) && IsRun(n, run) && i <= j < |run| && a != n.myAddress
    requires a in run[i].shared.relays
    requires forall q :: q in run[i].requests && run[i].requests[q].request.addr == a ==> run[i].requests[q].request.Asked?
    requires |run[i].answers| <= k < |run[j].answers| && run[j].answers[k].addr == a
    ensures run[j].answers[k].source.FromRelay? && run[j].answers[k].record.Some?
  {
    ServedForGood(n, run, i, j, a, |run[i].answers|);
  }

  // ---------------------------------------------------------------------------
  // Mailbox clients
  // ---------------------------------------------------------------------------

  /** A mailbox client's record is served as soon as it is registered, and no longer once it is removed. */
  lemma MailboxClientAnswered(n: Node, s: State, reg: Registration, s': State, q: nat, dht: Option<AgentRecord>, s'': State)
    requires reg.RegisterMailbox? || reg.UnregisterMailbox?
    requires Next(n, s, Register(reg), s') && Next(n, s', Decide(q, dht), s'')
    requires s'.requests[q].request == InMailbox(if reg.RegisterMailbox? then reg.r.address else reg.addr)
    ensures |s''.answers| == |s.answers| + 1
    ensures var x := s''.answers[|s.answers|];
            && x.source.FromMailbox? && x.addr == s'.requests[q].request.addr
            && x.record == if reg.RegisterMailbox? then Some(reg.r) else None
  {
  }
}
