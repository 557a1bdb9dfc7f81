/**
 * The mailbox server: three maps under one lock, a bounded FIFO per registered address,
 * and an unregister request that takes the lock twice.
 */
module Mailbox {
  import opened Wrappers
  import opened Por
  import opened Envelopes

  const ENVELOPES_LIMIT: nat := 1000

  /** The maps of `MailboxServer`; a `limit` of zero means no limit. */
  datatype Maps = Maps(
    sessions: map<string, string>, records: map<string, AgentRecord>,
    envelopes: map<string, seq<Envelope>>, limit: nat)
  {
    function Register(r: AgentRecord, session: string): Maps {
      this.(records := records[r.address := r], sessions := sessions[session := r.address],
            envelopes := envelopes[r.address := []])
    }

    /** The second critical section of an unregister request. */
    function Remove(session: string, addr: string): Maps {
      this.(records := records - {addr}, sessions := sessions - {session}, envelopes := envelopes - {addr})
    }

    /** Whether `RouteEnvelope` takes the envelope. */
    predicate Accepts(e: Envelope) {
      e.to in envelopes && (limit == 0 || |envelopes[e.to]| < limit)
    }

    function Deliver(e: Envelope): Maps {
      if Accepts(e) then this.(envelopes := envelopes[e.to := envelopes[e.to] + [e]]) else this
    }

    /** The envelope a fetch with this session would return. */
    function Head(session: string): Option<Envelope> {
      if session in sessions && sessions[session] in envelopes && envelopes[sessions[session]] != []
      then Some(envelopes[sessions[session]][0]) else None
    }

    /** A fetch removes the envelope only once it has been written out. */
    function Fetch(session: string, written: bool): Maps {
      if Head(session).Some? && written
      then var a := sessions[session]; this.(envelopes := envelopes[a := envelopes[a][1..]])
      else this
    }
  }

  class MailboxServer {
    var sessions: map<string, string>
    var agentRecords: map<string, AgentRecord>
    var envelopes: map<string, seq<Envelope>>
    var envelopesLimit: nat

    function View(): Maps
      reads this
    {
      Maps(sessions, agentRecords, envelopes, envelopesLimit)
    }

    constructor ()
      ensures View() == Maps(map[], map[], map[], 1000)
    {
      sessions, agentRecords, envelopes, envelopesLimit := map[], map[], map[], ENVELOPES_LIMIT;
    }

    /** The critical section of `apiRegister`. */
    method Register(record: AgentRecord, uuid: string)
      modifies this
      ensures agentRecords == old(agentRecords)[record.address := record]
      ensures sessions == old(sessions)[uuid := record.address]
      ensures envelopes == old(envelopes)[record.address := []] && envelopesLimit == old(envelopesLimit)
      ensures View() == old(View()).Register(record, uuid)
    {
      agentRecords := agentRecords[record.address := record];
      sessions := sessions[uuid := record.address];
      envelopes := envelopes[record.address := []];
    }

    /** The first critical section of `apiUnregister`. */
    method FindSession(sessionId: string) returns (addr: Option<string>)
      ensures addr == if sessionId in sessions then Some(sessions[sessionId]) else None
    {
      if sessionId in sessions {
        return Some(sessions[sessionId]);
      }
      return None;
    }

    /** The second critical section of `apiUnregister`. */
    method Remove(sessionId: string, addr: string)
      modifies this
      ensures addr !in agentRecords && sessionId !in sessions && addr !in envelopes
      ensures forall a :: a != addr ==>
                && (a in agentRecords <==> a in old(agentRecords)) && (a in envelopes <==> a in old(envelopes))
                && (a in agentRecords ==> agentRecords[a] == old(agentRecords)[a])
                && (a in envelopes ==> envelopes[a] == old(envelopes)[a])
      ensures forall id :: id != sessionId ==>
                (id in sessions <==> id in old(sessions)) && (id in sessions ==> sessions[id] == old(sessions)[id])
      ensures envelopesLimit == old(envelopesLimit)
      ensures View() == old(View()).Remove(sessionId, addr)
    {
      agentRecords := agentRecords - {addr};
      sessions := sessions - {sessionId};
      envelopes := envelopes - {addr};
    }

    /** `apiGetEnvelope`: an unmarshallable or unwritten envelope stays in the mailbox. */
    method GetEnvelope(sessionId: string, marshalOk: bool, writeOk: bool) returns (sent: Option<Envelope>)
      modifies this
      ensures sent.Some? <==>
                && marshalOk && sessionId in old(sessions) && old(sessions)[sessionId] in old(envelopes)
                && old(envelopes)[old(sessions)[sessionId]] != []
      ensures sent.Some? ==>
                var a := old(sessions)[sessionId];
                && sent.value == old(envelopes)[a][0]
                && envelopes == if writeOk then old(envelopes)[a := old(envelopes)[a][1..]] else old(envelopes)
      ensures sent.None? ==> envelopes == old(envelopes)
      ensures sessions == old(sessions) && agentRecords == old(agentRecords) && envelopesLimit == old(envelopesLimit)
      ensures View() == old(View()).Fetch(sessionId, marshalOk && writeOk)
    {
      if sessionId !in sessions {
        return None;
      }
      var addr := sessions[sessionId];
      var envelopesList := if addr in envelopes then envelopes[addr] else [];
      if |envelopesList| == 0 {
        return None;
      }
      var envelope := envelopesList[0];
      if !marshalOk {
        return None;
      }
      if writeOk {
        envelopes := envelopes[addr := envelopes[addr][1..]];
      }
      return Some(envelope);
    }

    /** `RouteEnvelope`. */
    method RouteEnvelope(envelope: Envelope) returns (taken: bool)
      modifies this
      ensures taken <==>
                && envelope.to in old(envelopes)
                && (old(envelopesLimit) == 0 || |old(envelopes)[envelope.to]| < old(envelopesLimit))
      ensures envelopes == if taken then old(envelopes)[envelope.to := old(envelopes)[envelope.to] + [envelope]]
                           else old(envelopes)
      ensures sessions == old(sessions) && agentRecords == old(agentRecords) && envelopesLimit == old(envelopesLimit)
      ensures taken <==> old(View()).Accepts(envelope)
      ensures View() == old(View()).Deliver(envelope)
    {
      var target := envelope.to;
      if target !in envelopes {
        return false;
      }
      if envelopesLimit != 0 && |envelopes[target]| >= envelopesLimit {
        return false;
      }
      envelopes := envelopes[target := envelopes[target] + [envelope]];
      return true;
    }

    method IsAddrRegistered(addr: string) returns (r: bool)
      ensures r <==> addr in envelopes
    {
      r := addr in envelopes;
    }

    /** `GetAgentRecord` without interference: a registered address has its record. */
    method GetAgentRecord(addr: string) returns (r: Option<AgentRecord>)
      requires agentRecords.Keys == envelopes.Keys
      ensures r == if addr in agentRecords then Some(agentRecords[addr]) else None
    {
      var registered := IsAddrRegistered(addr);
      if !registered {
        return None;
      }
      return Some(agentRecords[addr]);
    }
  }

  // ---------------------------------------------------------------------------
  // Interleaved requests
  // ---------------------------------------------------------------------------

  /** An unregister request between its two critical sections. */
  datatype Leaving = Leaving(session: string, addr: string)

  /**
   * `issued` holds every session id handed out.  `accepted` and `taken` record, for each
   * address and since it last registered, the envelopes routed to it and those fetched.
   */
  datatype State = State(
    maps: Maps, leaving: map<nat, Leaving>, issued: set<string>,
    accepted: map<string, seq<Envelope>>, taken: map<string, seq<Envelope>>)

  datatype Step =
    | Join(r: AgentRecord, session: string)
    | StartLeaving(p: nat, session: string)
    | FinishLeaving(p: nat)
    | Deliver(e: Envelope)
    | Fetch(session: string, written: bool)

  function Extend(log: map<string, seq<Envelope>>, a: string, e: Envelope): map<string, seq<Envelope>> {
    log[a := (if a in log then log[a] else []) + [e]]
  }

  ghost predicate Init(s: State, limit: nat) {
    s == State(Maps(map[], map[], map[], limit), map[], {}, map[], map[])
  }

  ghost predicate Next(s: State, step: Step, s': State) {
    match step
    case Join(r, session) =>
      && session !in s.issued  // uuid.NewString never repeats
      && s' == s.(maps := s.maps.Register(r, session), issued := s.issued + {session},
                  accepted := s.accepted[r.address := []], taken := s.taken[r.address := []])
    case StartLeaving(p, session) =>
      && p !in s.leaving && session in s.maps.sessions
      && s' == s.(leaving := s.leaving[p := Leaving(session, s.maps.sessions[session])])
    case FinishLeaving(p) =>
      && p in s.leaving
      && s' == s.(maps := s.maps.Remove(s.leaving[p].session, s.leaving[p].addr), leaving := s.leaving - {p})
    case Deliver(e) =>
      s' == s.(maps := s.maps.Deliver(e),
               accepted := if s.maps.Accepts(e) then Extend(s.accepted, e.to, e) else s.accepted)
    case Fetch(session, written) =>
      s' == s.(maps := s.maps.Fetch(session, written),
               taken := if s.maps.Head(session).Some? && written
                        then Extend(s.taken, s.maps.sessions[session], s.maps.Head(session).value) else s.taken)
  }

  ghost predicate Steps(s: State, s': State) {
    exists step :: Next(s, step, s')
  }

  ghost predicate IsRun(run: seq<State>, limit: nat) {
    && run != [] && Init(run[0], limit)
    && forall i :: 0 < i < |run| ==> Steps(run[i - 1], run[i])
  }

  /** Records and queues agree, and every registered address has a live session. */
  ghost predicate Consistent(m: Maps) {
    && m.records.Keys == m.envelopes.Keys
    && forall a :: a in m.envelopes ==> exists session :: session in m.sessions && m.sessions[session] == a
  }

  /** Session ids are never rebound, not even under a pending unregister. */
  ghost predicate SessionsOk(s: State) {
    && s.maps.sessions.Keys <= s.issued
    && forall p :: p in s.leaving ==>
         var l := s.leaving[p];
         l.session in s.issued && (l.session in s.maps.sessions ==> s.maps.sessions[l.session] == l.addr)
  }

  /** The mailbox of `a` is a bounded FIFO of envelopes addressed to `a`. */
  ghost predicate IsFifo(s: State, a: string)
    requires a in s.maps.envelopes
  {
    var queue := s.maps.envelopes[a];
    && a in s.accepted && a in s.taken
    && s.accepted[a] == s.taken[a] + queue
    && (s.maps.limit != 0 ==> |queue| <= s.maps.limit)
    && forall i :: 0 <= i < |s.accepted[a]| ==> s.accepted[a][i].to == a
  }

  ghost predicate Inv(s: State) {
    Consistent(s.maps) && SessionsOk(s) && forall a :: a in s.maps.envelopes ==> IsFifo(s, a)
  }

  lemma ConsistentStep(s: State, step: Step, s': State)
    requires Consistent(s.maps) && SessionsOk(s) && Next(s, step, s')
    ensures Consistent(s'.maps) && SessionsOk(s')
  {
    forall a | a in s'.maps.envelopes
      ensures exists session :: session in s'.maps.sessions && s'.maps.sessions[session] == a
    {
      if step.Join? && a == step.r.address {
        assert s'.maps.sessions[step.session] == a;
      } else {
        var session :| session in s.maps.sessions && s.maps.sessions[session] == a;
        assert session in s'.maps.sessions;
      }
    }
  }

  lemma FifoStep(s: State, step: Step, s': State, a: string)
    requires Inv(s) && Next(s, step, s') && a in s'.maps.envelopes
    ensures IsFifo(s', a)
  {
    if a in s.maps.envelopes {
      assert IsFifo(s, a);
    }
  }

  lemma {:induction false} RunKeepsInv(run: seq<State>, limit: nat, i: nat)
    requires IsRun(run, limit) && i < |run|
    ensures Inv(run[i]) && run[i].maps.limit == limit
  {
    if i == 0 {
    } else {
      RunKeepsInv(run, limit, i - 1);
      assert Steps(run[i - 1], run[i]);
      var step :| Next(run[i - 1], step, run[i]);
      ConsistentStep(run[i - 1], step, run[i]);
      forall a | a in run[i].maps.envelopes
        ensures IsFifo(run[i], a)
      {
        FifoStep(run[i - 1], step, run[i], a);
      }
    }
  }

  /**
   * In every interleaving, unregister split in two included, the maps stay consistent and
   * each mailbox holds exactly what was accepted for it and not yet fetched, in order.
   */
  lemma MailboxIsBoundedFifo(run: seq<State>, limit: nat, a: string)
    requires IsRun(run, limit)
    ensures var m := run[|run| - 1].maps;
            && m.records.Keys == m.envelopes.Keys
            && (a in m.envelopes ==>
                  && (exists session :: session in m.sessions && m.sessions[session] == a)
                  && (limit != 0 ==> |m.envelopes[a]| <= limit)
                  && (forall i :: 0 <= i < |m.envelopes[a]| ==> m.envelopes[a][i].to == a))
    ensures var s := run[|run| - 1];
            a in s.maps.envelopes ==> a in s.accepted && a in s.taken
                                      && s.accepted[a] == s.taken[a] + s.maps.envelopes[a]
  {
    RunKeepsInv(run, limit, |run| - 1);
    var s := run[|run| - 1];
    if a in s.maps.envelopes {
      assert IsFifo(s, a);
      forall i | 0 <= i < |s.maps.envelopes[a]|
        ensures s.maps.envelopes[a][i].to == a
      {
        assert s.accepted[a][|s.taken[a]| + i] == s.maps.envelopes[a][i];
      }
    }
  }

  /** In every run, a delivery to a registered address with room is accepted, queued last, and nothing else is. */
  lemma DeliveryIsAccepted(run: seq<State>, limit: nat, i: nat, e: Envelope)
    requires IsRun(run, limit) && 0 < i < |run| && Next(run[i - 1], Deliver(e), run[i])
    ensures var s, s' := run[i - 1], run[i];
            if e.to in s.maps.envelopes && (limit == 0 || |s.maps.envelopes[e.to]| < limit)
            then e.to in s.accepted
                 && s'.accepted == s.accepted[e.to := s.accepted[e.to] + [e]]
                 && s'.maps.envelopes == s.maps.envelopes[e.to := s.maps.envelopes[e.to] + [e]]
            else s' == s
  {
    RunKeepsInv(run, limit, i - 1);
    if e.to in run[i - 1].maps.envelopes {
      assert IsFifo(run[i - 1], e.to);
    }
  }

  /** In every run, a fetch that is written out hands over the oldest envelope of the session's address. */
  lemma FetchIsOldest(run: seq<State>, limit: nat, i: nat, session: string, a: string)
    requires IsRun(run, limit) && 0 < i < |run| && Next(run[i - 1], Fetch(session, true), run[i])
    requires session in run[i - 1].maps.sessions && run[i - 1].maps.sessions[session] == a
    requires a in run[i - 1].maps.envelopes && run[i - 1].maps.envelopes[a] != []
    ensures var s, s' := run[i - 1], run[i];
            && a in s.taken && a in s.accepted && |s.taken[a]| < |s.accepted[a]|
            && s'.taken == s.taken[a := s.taken[a] + [s.accepted[a][|s.taken[a]|]]]
            && s'.accepted == s.accepted
  {
    RunKeepsInv(run, limit, i - 1);
    assert IsFifo(run[i - 1], a);
  }

  /** An unregister request that has finished leaves neither the address nor its session behind. */
  lemma LeavingIsComplete(s: State, p: nat, s': State)
    requires Next(s, FinishLeaving(p), s')
    ensures var l := s.leaving[p];
            && l.addr !in s'.maps.records && l.addr !in s'.maps.envelopes && l.session !in s'.maps.sessions
            && s'.maps.records.Keys == s.maps.records.Keys - {l.addr}
            && s'.maps.envelopes.Keys == s.maps.envelopes.Keys - {l.addr}
            && s'.maps.sessions.Keys == s.maps.sessions.Keys - {l.session}
  {
  }
}
