/**
 * The ACN message protocol: what a node reads and writes on register, lookup and envelope
 * streams and on the pipes of its delegate clients and its own agent.
 */
module Dialogue {
  import opened Wrappers
  import opened Bytes
  import opened Por
  import opened Framing

  datatype AcnMessage =
    | Register(record: AgentRecord)
    | LookupRequest(agentAddress: string)
    | LookupResponse(record: AgentRecord)
    | AeaEnvelope(envelope: Data, record: AgentRecord)
    | Status(code: StatusCode)
    | NoPerformative

  /** The protobuf codec. */
  datatype Codec = Codec(encode: AcnMessage -> Data, decode: Data -> Option<AcnMessage>)

  ghost predicate RoundTrips(c: Codec) {
    forall m :: c.decode(c.encode(m)) == Some(m)
  }

  datatype Found = Found(record: AgentRecord) | NotFound(code: StatusCode)

  /** The node behind the handlers: its PoR check, its lookup, its envelope decoder and delivery. */
  datatype Host = Host(
    por: AgentRecord -> StatusCode, lookup: string -> Found,
    isEnvelope: Data -> bool, deliver: Data -> StatusCode)

  datatype Channel = RegisterStream | LookupStream | EnvelopeStream | ClientPipe

  /** What a node answers to a frame, if anything. */
  function Answer(ch: Channel, c: Codec, h: Host, frame: Data): Option<AcnMessage> {
    match (ch, c.decode(frame))
    case (_, None) => Some(Status(ErrorDecode))
    case (RegisterStream, Some(Register(r))) => Some(Status(h.por(r)))
    case (LookupStream, Some(LookupRequest(a))) =>
      (match h.lookup(a)
       case Found(r) => Some(LookupResponse(r))
       case NotFound(code) => Some(Status(code)))
    case (EnvelopeStream, Some(AeaEnvelope(e, r))) =>
      Some(Status(if !h.isEnvelope(e) then ErrorDecode else if !h.por(r).Success? then h.por(r) else h.deliver(e)))
    case (ClientPipe, Some(AeaEnvelope(e, _))) => Some(Status(if h.isEnvelope(e) then Success else ErrorDecode))
    case (EnvelopeStream, Some(Status(_))) => None
    case (ClientPipe, Some(Status(_))) => None
    case (_, Some(_)) => Some(Status(ErrorUnexpectedPayload))
  }

  /** One end of a framed connection: frames not yet read, and frames written. */
  class Pipe {
    var incoming: seq<Data>
    var sent: seq<Data>
    const broken: bool  // writes fail

    method Read() returns (frame: Option<Data>)
      modifies this`incoming
      ensures frame == Next(old(incoming)) && incoming == Rest(old(incoming))
    {
      if incoming == [] {
        return None;
      }
      frame, incoming := Some(incoming[0]), incoming[1..];
    }

    method Write(data: Data) returns (ok: bool)
      modifies this`sent
      ensures ok <==> !broken
      ensures sent == old(sent) + (if broken then [] else [data])
    {
      if broken {
        return false;
      }
      sent := sent + [data];
      return true;
    }
  }

  function Next(frames: seq<Data>): Option<Data> {
    if frames == [] then None else Some(frames[0])
  }

  function Rest(frames: seq<Data>): seq<Data> {
    if frames == [] then [] else frames[1..]
  }

  /** The frames a reply puts on the pipe: at most one. */
  function Written(c: Codec, broken: bool, reply: Option<AcnMessage>): (frames: seq<Data>)
    ensures |frames| <= 1
    ensures frames != [] ==> reply.Some? && frames[0] == c.encode(reply.value)
  {
    if reply.None? || broken then [] else [c.encode(reply.value)]
  }

  /** What one handler run writes, given what it was sent. */
  function Response(ch: Channel, c: Codec, h: Host, broken: bool, incoming: seq<Data>): (frames: seq<Data>)
    ensures |frames| <= 1
  {
    if incoming == [] then [] else Written(c, broken, Answer(ch, c, h, incoming[0]))
  }

  /** `SendAcnSuccess` and `SendAcnError`. */
  method SendStatus(pipe: Pipe, c: Codec, code: StatusCode) returns (ok: bool)
    modifies pipe`sent
    ensures ok <==> !pipe.broken
    ensures pipe.sent == old(pipe.sent) + Written(c, pipe.broken, Some(Status(code)))
  {
    ok := pipe.Write(c.encode(Status(code)));
  }

  /** One status was written, unless writes fail. */
  ghost predicate Told(c: Codec, pipe: Pipe, before: seq<Data>, code: StatusCode)
    reads pipe`sent
  {
    pipe.sent == before + (if pipe.broken then [] else [c.encode(Status(code))])
  }

  /** `ReadAgentRegistrationMessage` followed by the PoR check of the register handlers. */
  method HandleRegistration(pipe: Pipe, c: Codec, h: Host) returns (registered: Option<AgentRecord>)
    modifies pipe
    ensures pipe.incoming == Rest(old(pipe.incoming))
    ensures pipe.sent == old(pipe.sent) + Response(RegisterStream, c, h, pipe.broken, old(pipe.incoming))
    ensures registered.Some? <==>
              && old(pipe.incoming) != [] && !pipe.broken
              && exists r :: c.decode(old(pipe.incoming)[0]) == Some(Register(r)) && h.por(r).Success?
    ensures registered.Some? ==> c.decode(old(pipe.incoming)[0]) == Some(Register(registered.value))
    ensures old(pipe.incoming) == [] ==> pipe.sent == old(pipe.sent)
    ensures old(pipe.incoming) != [] ==>
              match c.decode(old(pipe.incoming)[0])
              case None => Told(c, pipe, old(pipe.sent), ErrorDecode)
              case Some(Register(r)) => Told(c, pipe, old(pipe.sent), h.por(r))
              case Some(_) => Told(c, pipe, old(pipe.sent), ErrorUnexpectedPayload)
  {
    registered := None;
    var buf := pipe.Read();
    if buf.None? {
      return;
    }
    var msg := c.decode(buf.value);
    if msg.None? {
      var _ := SendStatus(pipe, c, ErrorDecode);
      return;
    }
    if !msg.value.Register? {
      var _ := SendStatus(pipe, c, ErrorUnexpectedPayload);
      return;
    }
    var record := msg.value.record;
    var status := h.por(record);
    if !status.Success? {
      var _ := SendStatus(pipe, c, status);
      return;
    }
    var ok := SendStatus(pipe, c, Success);
    if ok {
      registered := Some(record);
    }
  }

  /** `HandleAeaAddressStream`. */
  method HandleAeaAddressStream(pipe: Pipe, c: Codec, h: Host)
    modifies pipe
    ensures pipe.incoming == Rest(old(pipe.incoming))
    ensures pipe.sent == old(pipe.sent) + Response(LookupStream, c, h, pipe.broken, old(pipe.incoming))
    ensures old(pipe.incoming) == [] ==> pipe.sent == old(pipe.sent)
    ensures old(pipe.incoming) != [] ==>
              match c.decode(old(pipe.incoming)[0])
              case None => Told(c, pipe, old(pipe.sent), ErrorDecode)
              case Some(LookupRequest(a)) =>
                (match h.lookup(a)
                 case Found(r) => pipe.sent == old(pipe.sent) + (if pipe.broken then [] else [c.encode(LookupResponse(r))])
                 case NotFound(code) => Told(c, pipe, old(pipe.sent), code))
              case Some(_) => Told(c, pipe, old(pipe.sent), ErrorUnexpectedPayload)
  {
    var buf := pipe.Read();
    if buf.None? {
      return;
    }
    var msg := c.decode(buf.value);
    if msg.None? {
      var _ := SendStatus(pipe, c, ErrorDecode);
      return;
    }
    if !msg.value.LookupRequest? {
      var _ := SendStatus(pipe, c, ErrorUnexpectedPayload);
      return;
    }
    match h.lookup(msg.value.agentAddress) {
      case NotFound(code) =>
        var _ := SendStatus(pipe, c, code);
      case Found(record) =>
        var _ := pipe.Write(c.encode(LookupResponse(record)));
    }
  }

  /** `DecodeAcnMessage`: a message type and its payload, or an error code. */
  datatype Decoded = Decoded(msgType: string, envelope: Option<AcnMessage>, status: Option<StatusCode>, err: Option<StatusCode>)

  function DecodeAcnMessage(c: Codec, buf: Data): (d: Decoded)
    ensures d.err.None? ==>
              || (d.msgType == "aea_envelope" && d.envelope.Some? && d.envelope.value.AeaEnvelope?)
              || (d.msgType == "status" && d.status.Some?)
  {
    match c.decode(buf)
    case None => Decoded("", None, None, Some(ErrorDecode))
    case Some(AeaEnvelope(e, r)) => Decoded("aea_envelope", Some(AeaEnvelope(e, r)), None, None)
    case Some(Status(code)) => Decoded("status", None, Some(code), None)
    case Some(_) => Decoded("", None, None, Some(ErrorUnexpectedPayload))
  }

  /** `HandleAeaEnvelopeStream`: `delivered` is the envelope handed to the node, if any. */
  method HandleAeaEnvelopeStream(pipe: Pipe, c: Codec, h: Host) returns (delivered: Option<Data>)
    modifies pipe
    ensures pipe.incoming == Rest(old(pipe.incoming))
    ensures pipe.sent == old(pipe.sent) + Response(EnvelopeStream, c, h, pipe.broken, old(pipe.incoming))
    ensures forall e :: delivered == Some(e) <==>
              && old(pipe.incoming) != [] && h.isEnvelope(e)
              && exists r :: h.por(r).Success? && c.decode(old(pipe.incoming)[0]) == Some(AeaEnvelope(e, r))
    ensures delivered.Some? ==> Told(c, pipe, old(pipe.sent), h.deliver(delivered.value))
    ensures old(pipe.incoming) == [] ==> pipe.sent == old(pipe.sent)
    ensures old(pipe.incoming) != [] && delivered.None? ==>
              match c.decode(old(pipe.incoming)[0])
              case None => Told(c, pipe, old(pipe.sent), ErrorDecode)
              case Some(AeaEnvelope(e, r)) => Told(c, pipe, old(pipe.sent), if h.isEnvelope(e) then h.por(r) else ErrorDecode)
              case Some(Status(_)) => pipe.sent == old(pipe.sent)
              case Some(_) => Told(c, pipe, old(pipe.sent), ErrorUnexpectedPayload)
  {
    delivered := None;
    var buf := pipe.Read();
    if buf.None? {
      return;
    }
    var d := DecodeAcnMessage(c, buf.value);
    if d.err.Some? {
      var _ := SendStatus(pipe, c, d.err.value);
      return;
    }
    if d.msgType != "aea_envelope" {
      return;
    }
    var AeaEnvelope(envelope, record) := d.envelope.value;
    if !h.isEnvelope(envelope) {
      var _ := SendStatus(pipe, c, ErrorDecode);
      return;
    }
    var status := h.por(record);
    if !status.Success? {
      var _ := SendStatus(pipe, c, status);
      return;
    }
    delivered := Some(envelope);
    var _ := SendStatus(pipe, c, h.deliver(envelope));
  }

  /**
   * `HandleAcnMessageFromPipe`: an envelope is answered at once, a status is queued for
   * whoever waits for it.  The default branch of the switch is dead code.
   */
  method HandleAcnMessageFromPipe(pipe: Pipe, c: Codec, h: Host)
    returns (envelope: Option<Data>, queued: Option<StatusCode>, ok: bool)
    modifies pipe
    ensures pipe.incoming == Rest(old(pipe.incoming))
    ensures pipe.sent == old(pipe.sent) + Response(ClientPipe, c, h, pipe.broken, old(pipe.incoming))
    ensures queued.Some? <==> old(pipe.incoming) != [] && IsStatus(c, old(pipe.incoming)[0])
    ensures queued.Some? ==> c.decode(old(pipe.incoming)[0]) == Some(Status(queued.value)) && ok && envelope.None?
    ensures forall e :: envelope == Some(e) <==>
              && old(pipe.incoming) != [] && h.isEnvelope(e)
              && exists r :: c.decode(old(pipe.incoming)[0]) == Some(AeaEnvelope(e, r))
    ensures envelope.Some? ==> Told(c, pipe, old(pipe.sent), Success) && (ok <==> !pipe.broken)
    ensures old(pipe.incoming) == [] || queued.Some? ==> pipe.sent == old(pipe.sent)
    ensures old(pipe.incoming) != [] && envelope.None? && queued.None? ==>
              && !ok
              && match c.decode(old(pipe.incoming)[0])
                 case None => Told(c, pipe, old(pipe.sent), ErrorDecode)
                 case Some(AeaEnvelope(_, _)) => Told(c, pipe, old(pipe.sent), ErrorDecode)
                 case Some(_) => Told(c, pipe, old(pipe.sent), ErrorUnexpectedPayload)
  {
    envelope, queued, ok := None, None, false;
    var data := pipe.Read();
    if data.None? {
      return;
    }
    var d := DecodeAcnMessage(c, data.value);
    if d.err.Some? {
      var _ := SendStatus(pipe, c, d.err.value);
      return;
    }
    if d.msgType == "aea_envelope" {
      var e := d.envelope.value.envelope;
      if !h.isEnvelope(e) {
        var _ := SendStatus(pipe, c, ErrorDecode);
        return;
      }
      ok := SendStatus(pipe, c, Success);
      envelope := Some(e);
    } else if d.msgType == "status" {
      queued, ok := d.status, true;
    } else {
      assert false;
    }
  }

  /** `PerformAddressLookup`, `SendAgentRegisterMessage` and envelope sending: write one frame, read one. */
  method Ask(pipe: Pipe, c: Codec, request: AcnMessage) returns (reply: Option<AcnMessage>)
    modifies pipe
    ensures pipe.sent == old(pipe.sent) + Written(c, pipe.broken, Some(request))
    ensures pipe.incoming == if pipe.broken then old(pipe.incoming) else Rest(old(pipe.incoming))
    ensures reply == if pipe.broken || old(pipe.incoming) == [] then None else c.decode(old(pipe.incoming)[0])
  {
    var ok := pipe.Write(c.encode(request));
    if !ok {
      return None;
    }
    var buf := pipe.Read();
    if buf.None? {
      return None;
    }
    reply := c.decode(buf.value);
  }

  /**
   * A stream carries at most one frame back, so however its bytes are chunked the single
   * `ReadBytes` of the initiator finds it whole and its buffered reader drops nothing after it.
   */
  lemma SoleFrameArrives(ch: Channel, c: Codec, h: Host, incoming: seq<Data>)
    requires incoming != [] && Answer(ch, c, h, incoming[0]).Some?
    requires |c.encode(Answer(ch, c, h, incoming[0]).value)| <= MAX_MESSAGE
    ensures var data, bytes := c.encode(Answer(ch, c, h, incoming[0]).value), Concat(Response(ch, c, h, false, incoming));
            bytes == Frame(data) && Receive(bytes) == Ok(data)
  {
    var data, frames := c.encode(Answer(ch, c, h, incoming[0]).value), Response(ch, c, h, false, incoming);
    assert frames == [data] && frames[1..] == [];
    assert Concat(frames) == Frame(data) + [] == Frame(data);
    ReceiveOfFrame(data, []);
  }

  // ---------------------------------------------------------------------------
  // Exchanges end to end
  // ---------------------------------------------------------------------------

  /** What the initiator of a stream decodes once the responder has answered its request. */
  function Exchange(ch: Channel, c: Codec, h: Host, request: AcnMessage): Option<AcnMessage> {
    match Answer(ch, c, h, c.encode(request))
    case None => None
    case Some(reply) => c.decode(c.encode(reply))
  }

  /** `ReadLookupResponse`: a record, or an error for a status or anything else. */
  function LookupResult(reply: Option<AcnMessage>): Option<AgentRecord> {
    if reply.Some? && reply.value.LookupResponse? then Some(reply.value.record) else None
  }

  /** A status reply with code SUCCESS: registration accepted, or envelope delivered. */
  predicate Acknowledged(reply: Option<AcnMessage>) {
    reply == Some(Status(Success))
  }

  /** Each exchange tells the initiator exactly what happened at the responder. */
  lemma ExchangesAreFaithful(c: Codec, h: Host, r: AgentRecord, address: string, envelope: Data)
    requires RoundTrips(c)
    ensures Acknowledged(Exchange(RegisterStream, c, h, Register(r))) <==> h.por(r).Success?
    ensures forall found :: LookupResult(Exchange(LookupStream, c, h, LookupRequest(address))) == Some(found)
                            <==> h.lookup(address) == Found(found)
    ensures Acknowledged(Exchange(EnvelopeStream, c, h, AeaEnvelope(envelope, r)))
            <==> h.isEnvelope(envelope) && h.por(r).Success? && h.deliver(envelope).Success?
    ensures Acknowledged(Exchange(ClientPipe, c, h, AeaEnvelope(envelope, r))) <==> h.isEnvelope(envelope)
  {
    assert c.decode(c.encode(Register(r))) == Some(Register(r));
    assert c.decode(c.encode(LookupRequest(address))) == Some(LookupRequest(address));
    assert c.decode(c.encode(AeaEnvelope(envelope, r))) == Some(AeaEnvelope(envelope, r));
  }

  /** A frame the channel is not for: no decoding, or another performative than the channel's own. */
  predicate Misplaced(ch: Channel, m: AcnMessage) {
    match ch
    case RegisterStream => !m.Register?
    case LookupStream => !m.LookupRequest?
    case EnvelopeStream => !m.AeaEnvelope? && !m.Status?
    case ClientPipe => !m.AeaEnvelope? && !m.Status?
  }

  /**
   * What each status tells its receiver, whatever the frame.  On a client pipe success means an
   * envelope that decodes.  Provided the node's own checks do not return these codes, an
   * unexpected payload means a misplaced message, and a decoding error one that does not decode.
   */
  lemma StatusMeanings(ch: Channel, c: Codec, h: Host, frame: Data)
    requires forall r :: !h.por(r).ErrorDecode? && !h.por(r).ErrorUnexpectedPayload?
    requires forall e :: !h.deliver(e).ErrorDecode? && !h.deliver(e).ErrorUnexpectedPayload?
    requires forall a, code :: h.lookup(a) == NotFound(code) ==> !code.ErrorDecode? && !code.ErrorUnexpectedPayload?
    ensures var reply, m := Answer(ch, c, h, frame), c.decode(frame);
            && (reply == Some(Status(ErrorUnexpectedPayload)) <==> m.Some? && Misplaced(ch, m.value))
            && (reply == Some(Status(ErrorDecode)) <==>
                  || m.None?
                  || (m.value.AeaEnvelope? && (ch.EnvelopeStream? || ch.ClientPipe?) && !h.isEnvelope(m.value.envelope)))
            && (reply.None? <==> m.Some? && m.value.Status? && (ch.EnvelopeStream? || ch.ClientPipe?))
            && (ch.ClientPipe? ==>
                  (reply == Some(Status(Success)) <==> m.Some? && m.value.AeaEnvelope? && h.isEnvelope(m.value.envelope)))
  {
  }

  // ---------------------------------------------------------------------------
  // The reply rules of the protocol definition
  // ---------------------------------------------------------------------------

  /** The `reply` table: which performatives may answer which, and which take no answer. */
  predicate Permitted(received: AcnMessage, reply: Option<AcnMessage>) {
    match received
    case Register(_) => reply.Some? && reply.value.Status?
    case LookupRequest(_) => reply.Some? && (reply.value.LookupResponse? || reply.value.Status?)
    case AeaEnvelope(_, _) => reply.Some? && reply.value.Status?
    case Status(_) => reply.None?
    case LookupResponse(_) => reply.None?
    case NoPerformative => true
  }

  /**
   * The handlers follow the table exactly when the frame is not a stray terminal message: a
   * lookup response always draws a status, and so does a status outside envelope streams
   * and pipes.
   */
  lemma ReplyRules(ch: Channel, c: Codec, h: Host, frame: Data)
    requires c.decode(frame).Some?
    ensures var m := c.decode(frame).value;
            Permitted(m, Answer(ch, c, h, frame))
            <==> !(m.LookupResponse? || (m.Status? && (ch.RegisterStream? || ch.LookupStream?)))
  {
  }

  // ---------------------------------------------------------------------------
  // Two endpoints answering each other
  // ---------------------------------------------------------------------------

  predicate IsStatus(c: Codec, frame: Data) {
    c.decode(frame).Some? && c.decode(frame).value.Status?
  }

  /** Frames in flight each way, and the statuses each side has queued. */
  datatype Flight = Flight(toA: seq<Data>, toB: seq<Data>, heardA: nat, heardB: nat)

  function Tell(c: Codec, h: Host, frame: Data, out: seq<Data>): seq<Data> {
    match Answer(ClientPipe, c, h, frame)
    case None => out
    case Some(m) => out + [c.encode(m)]
  }

  /** One endpoint runs `HandleAcnMessageFromPipe` once. */
  predicate Pumps(c: Codec, a: Host, b: Host, w: Flight, w': Flight) {
    || (w.toA != [] && w' == Flight(w.toA[1..], Tell(c, a, w.toA[0], w.toB),
                                  w.heardA + (if IsStatus(c, w.toA[0]) then 1 else 0), w.heardB))
    || (w.toB != [] && w' == Flight(Tell(c, b, w.toB[0], w.toA), w.toB[1..],
                                  w.heardA, w.heardB + (if IsStatus(c, w.toB[0]) then 1 else 0)))
  }

  function Statuses(c: Codec, frames: seq<Data>): nat {
    if frames == [] then 0 else (if IsStatus(c, frames[0]) then 1 else 0) + Statuses(c, frames[1..])
  }

  /** A status weighs one and anything else two. */
  function Weight(c: Codec, frames: seq<Data>): nat {
    if frames == [] then 0 else (if IsStatus(c, frames[0]) then 1 else 2) + Weight(c, frames[1..])
  }

  function Load(c: Codec, w: Flight): nat {
    Weight(c, w.toA) + Weight(c, w.toB)
  }

  ghost predicate IsDialogue(c: Codec, a: Host, b: Host, run: seq<Flight>) {
    run != [] && forall i :: 0 < i < |run| ==> Pumps(c, a, b, run[i - 1], run[i])
  }

  lemma {:induction false} AppendStatus(c: Codec, frames: seq<Data>, code: StatusCode)
    requires RoundTrips(c)
    ensures Weight(c, frames + [c.encode(Status(code))]) == Weight(c, frames) + 1
    ensures Statuses(c, frames + [c.encode(Status(code))]) == Statuses(c, frames) + 1
  {
    var f := c.encode(Status(code));
    assert c.decode(f) == Some(Status(code));
    if frames == [] {
      assert frames + [f] == [f];
    } else {
      assert (frames + [f])[1..] == frames[1..] + [f];
      AppendStatus(c, frames[1..], code);
    }
  }

  /** A status is answered by silence and any other frame by exactly one status. */
  lemma TellsOneStatus(c: Codec, h: Host, frame: Data, out: seq<Data>)
    requires RoundTrips(c)
    ensures Weight(c, Tell(c, h, frame, out)) == Weight(c, out) + (if IsStatus(c, frame) then 0 else 1)
    ensures Statuses(c, Tell(c, h, frame, out)) == Statuses(c, out) + (if IsStatus(c, frame) then 0 else 1)
    ensures |Tell(c, h, frame, out)| == |out| + (if IsStatus(c, frame) then 0 else 1)
  {
    var reply := Answer(ClientPipe, c, h, frame);
    if reply.Some? {
      AppendStatus(c, out, reply.value.code);
    }
  }

  /** Statuses `A` has heard or will hear: those sent to it, and one for each other frame sent to `B`. */
  function OwedToA(c: Codec, w: Flight): int {
    w.heardA + Statuses(c, w.toA) + (|w.toB| - Statuses(c, w.toB))
  }

  function OwedToB(c: Codec, w: Flight): int {
    w.heardB + Statuses(c, w.toB) + (|w.toA| - Statuses(c, w.toA))
  }

  lemma PumpStep(c: Codec, a: Host, b: Host, w: Flight, w': Flight)
    requires RoundTrips(c) && Pumps(c, a, b, w, w')
    ensures Load(c, w') == Load(c, w) - 1
    ensures OwedToA(c, w') == OwedToA(c, w) && OwedToB(c, w') == OwedToB(c, w)
  {
    if w.toA != [] && w'.toA == w.toA[1..] {
      TellsOneStatus(c, a, w.toA[0], w.toB);
    }
    if w.toB != [] && w'.toB == w.toB[1..] {
      TellsOneStatus(c, b, w.toB[0], w.toA);
    }
  }

  /**
   * Whatever is in flight, the two endpoints stop: after n rounds the load has dropped by
   * exactly n, and when neither can go on each has heard every status it was owed.
   */
  lemma {:induction false} DialogueStops(c: Codec, a: Host, b: Host, run: seq<Flight>)
    requires RoundTrips(c) && IsDialogue(c, a, b, run)
    ensures var first, last := run[0], run[|run| - 1];
            && Load(c, last) == Load(c, first) - (|run| - 1)
            && OwedToA(c, last) == OwedToA(c, first) && OwedToB(c, last) == OwedToB(c, first)
            && (last.toA == [] && last.toB == [] ==>
                  last.heardA == OwedToA(c, first) && last.heardB == OwedToB(c, first)
                  && |run| - 1 == Load(c, first))
  {
    if |run| == 1 {
    } else {
      var front := run[..|run| - 1];
      DialogueStops(c, a, b, front);
      PumpStep(c, a, b, run[|run| - 2], run[|run| - 1]);
    }
  }
}
