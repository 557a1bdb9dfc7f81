/**
 * The record registry of a DHT peer: the maps `agentRecords`, `dhtAddresses` (relay
 * clients) and `tcpAddresses` (delegate clients), the append-only record log, and the
 * replay of that log at start-up.
 */
module RecordLog {
  import opened Wrappers
  import opened Bytes
  import opened Framing
  import opened Por

  /** The foreign functions of the log: the record codec and peer-ID derivation. */
  datatype Codec = Codec(
    encode: AgentRecord -> Data,
    decode: Data -> Option<AgentRecord>,
    peerIdOf: string -> Option<string>)

  ghost predicate RoundTrips(c: Codec) {
    forall r :: c.decode(c.encode(r)) == Some(r)
  }

  datatype Maps = Maps(records: map<string, AgentRecord>, relays: map<string, string>)

  const EMPTY: Maps := Maps(map[], map[])

  function Enter(m: Maps, r: AgentRecord, peerId: string): Maps {
    Maps(m.records[r.address := r], m.relays[r.address := peerId])
  }

  /** What replaying the log `b` on top of `m` yields. */
  function Replay(c: Codec, b: Data, m: Maps): Result<Maps> {
    if b == [] then Ok(m)
    else match Take(b)
      case None => Err("while loading agent records")
      case Some((line, rest)) =>
        match c.decode(line)
        case None => Err("while loading agent records")
        case Some(r) =>
          match c.peerIdOf(r.peerPublicKey)
          case None => Err("While loading agent records")
          case Some(id) => Replay(c, rest, Enter(m, r, id))
  }

  /** The bytes `saveAgentRecordToPersistentStorage` appends: nothing when the record encodes to nothing. */
  function Entry(c: Codec, r: AgentRecord): Data {
    if c.encode(r) == [] then [] else Frame(c.encode(r))
  }

  /** A record the log can hold: it arrived in one frame, so its encoding has a 32-bit size. */
  predicate Storable(c: Codec, r: AgentRecord) {
    0 < |c.encode(r)| < TWO_TO_32
  }

  /** Replaying an extended log is replaying the log and then entering the new record. */
  lemma {:induction false} ReplayAppend(c: Codec, b: Data, m: Maps, r: AgentRecord, id: string)
    requires RoundTrips(c) && Storable(c, r) && c.peerIdOf(r.peerPublicKey) == Some(id)
    requires Replay(c, b, m).Ok?
    ensures Replay(c, b + Entry(c, r), m) == Ok(Enter(Replay(c, b, m).value, r, id))
    decreases |b|
  {
    var e := Entry(c, r);
    if b == [] {
      TakeOfFrame(c.encode(r), []);
      assert b + e == e == Frame(c.encode(r)) + [];
      assert Replay(c, [], Enter(m, r, id)) == Ok(Enter(m, r, id));
    } else {
      FrameOfTake(b);
      var (line, rest) := Take(b).value;
      TakeOfFrame(line, rest + e);
      assert b + e == Frame(line) + (rest + e);
      var q := c.decode(line).value;
      ReplayAppend(c, rest, Enter(m, q, c.peerIdOf(q.peerPublicKey).value), r, id);
    }
  }

  /** A frame the replay takes: a record whose peer key has an ID. */
  predicate Replayable(c: Codec, frame: Data) {
    c.decode(frame).Some? && c.peerIdOf(c.decode(frame).value.peerPublicKey).Some?
  }

  /** Frame `i` is the last one about `a`. */
  ghost predicate LastAbout(c: Codec, frames: seq<Data>, a: string, i: nat) {
    && i < |frames| && About(c, frames[i], a)
    && forall j :: i < j < |frames| ==> !About(c, frames[j], a)
  }

  predicate About(c: Codec, frame: Data, a: string) {
    c.decode(frame).Some? && c.decode(frame).value.address == a
  }

  /** The log replays exactly when it is made of whole frames and each of them is taken. */
  lemma {:induction false} ReplaysWhenTaken(c: Codec, b: Data, m: Maps)
    ensures Replay(c, b, m).Ok? <==>
              LoadFrames(b).Ok? && forall i :: 0 <= i < |LoadFrames(b).value| ==> Replayable(c, LoadFrames(b).value[i])
    decreases |b|
  {
    if b == [] || Take(b).None? {
    } else {
      var (line, rest) := Take(b).value;
      if Replayable(c, line) {
        var r := c.decode(line).value;
        ReplaysWhenTaken(c, rest, Enter(m, r, c.peerIdOf(r.peerPublicKey).value));
      }
      if LoadFrames(rest).Ok? {
        assert LoadFrames(b).value == [line] + LoadFrames(rest).value;
        assert LoadFrames(b).value[0] == line;
        assert forall i :: 0 <= i < |LoadFrames(rest).value| ==> LoadFrames(rest).value[i] == LoadFrames(b).value[i + 1];
      }
    }
  }

  /** Addresses the log does not mention stay as they were. */
  lemma {:induction false} ReplayKeepsOthers(c: Codec, b: Data, m: Maps, a: string)
    requires Replay(c, b, m).Ok? && LoadFrames(b).Ok?
    requires forall i :: 0 <= i < |LoadFrames(b).value| ==> !About(c, LoadFrames(b).value[i], a)
    ensures var m' := Replay(c, b, m).value;
            && (a in m'.records <==> a in m.records) && (a in m'.relays <==> a in m.relays)
            && (a in m.records ==> m'.records[a] == m.records[a]) && (a in m.relays ==> m'.relays[a] == m.relays[a])
    decreases |b|
  {
    if b == [] {
    } else {
      var (line, rest) := Take(b).value;
      var r := c.decode(line).value;
      assert LoadFrames(b).value == [line] + LoadFrames(rest).value;
      assert LoadFrames(b).value[0] == line;
      assert forall i :: 0 <= i < |LoadFrames(rest).value| ==> LoadFrames(rest).value[i] == LoadFrames(b).value[i + 1];
      ReplayKeepsOthers(c, rest, Enter(m, r, c.peerIdOf(r.peerPublicKey).value), a);
    }
  }

  /** The last record about an address is the one the replay leaves, with the ID of its peer key. */
  lemma {:induction false} LastRecordWins(c: Codec, b: Data, m: Maps, a: string, i: nat)
    requires Replay(c, b, m).Ok? && LoadFrames(b).Ok? && LastAbout(c, LoadFrames(b).value, a, i)
    ensures var m', r := Replay(c, b, m).value, c.decode(LoadFrames(b).value[i]).value;
            a in m'.records && m'.records[a] == r && a in m'.relays && Some(m'.relays[a]) == c.peerIdOf(r.peerPublicKey)
    decreases |b|
  {
    if b == [] {
      assert false;
    } else {
      var (line, rest) := Take(b).value;
      var r := c.decode(line).value;
      var tail := LoadFrames(rest).value;
      assert LoadFrames(b).value == [line] + tail;
      assert forall j :: 0 <= j < |tail| ==> tail[j] == LoadFrames(b).value[j + 1];
      if i == 0 {
        ReplayKeepsOthers(c, rest, Enter(m, r, c.peerIdOf(r.peerPublicKey).value), a);
      } else {
        LastRecordWins(c, rest, Enter(m, r, c.peerIdOf(r.peerPublicKey).value), a, i - 1);
      }
    }
  }

  /** The registry fields of `DHTPeer`, with `storage` the contents of the log file. */
  class Store {
    const codec: Codec
    var agentRecords: map<string, AgentRecord>
    var dhtAddresses: map<string, string>
    var storage: Data

    function View(): Maps
      reads this
    {
      Maps(agentRecords, dhtAddresses)
    }

    constructor (codec: Codec, storage: Data)
      ensures this.codec == codec && this.storage == storage && View() == EMPTY
    {
      this.codec := codec;
      this.storage := storage;
      agentRecords, dhtAddresses := map[], map[];
    }

    /** `saveAgentRecordToPersistentStorage`, the write succeeding. */
    method SaveAgentRecord(r: AgentRecord) returns (ok: bool)
      modifies this`storage
      ensures ok <==> codec.encode(r) != []
      ensures storage == old(storage) + Entry(codec, r)
      ensures LoadFrames(old(storage)).Ok? && Storable(codec, r) ==>
                LoadFrames(storage) == Ok(LoadFrames(old(storage)).value + [codec.encode(r)])
    {
      var msg := codec.encode(r);
      if LoadFrames(storage).Ok? && Storable(codec, r) {
        LoadAppend(storage, LoadFrames(storage).value, msg);
      }
      if |msg| == 0 {
        return false;
      }
      var buf := PutUint32(|msg|);
      buf := buf + msg;
      storage := storage + buf;
      return true;
    }

    /** The critical section of `dhtAddressesLock` in `handleAeaRegisterStream`. */
    method AddRelay(r: AgentRecord, peerId: string)
      modifies this`dhtAddresses, this`storage
      ensures dhtAddresses == old(dhtAddresses)[r.address := peerId]
      ensures storage == old(storage) + Entry(codec, r)
    {
      dhtAddresses := dhtAddresses[r.address := peerId];
      var ok := SaveAgentRecord(r);
    }

    /** `initAgentRecordPersistentStorage`: the replay loop; `n` counts the records loaded. */
    method InitAgentRecordPersistentStorage() returns (ok: bool, n: nat)
      requires View() == EMPTY
      modifies this`agentRecords, this`dhtAddresses
      ensures ok <==> Replay(codec, storage, EMPTY).Ok?
      ensures ok ==> Replay(codec, storage, EMPTY) == Ok(View())
      ensures ok ==> LoadFrames(storage).Ok? && n == |LoadFrames(storage).value|
      ensures !ok ==> n == 0
    {
      var rest := storage;
      n := 0;
      while rest != []
        invariant Replay(codec, storage, EMPTY) == Replay(codec, rest, View())
        invariant LoadFrames(rest).Ok? ==>
                    LoadFrames(storage).Ok? && |LoadFrames(storage).value| == n + |LoadFrames(rest).value|
        decreases |rest|
      {
        var next := Take(rest);
        if next.None? {
          return false, 0;
        }
        var (line, tail) := next.value;
        var record := codec.decode(line);
        if record.None? {
          return false, 0;
        }
        var r := record.value;
        agentRecords := agentRecords[r.address := r];
        var peerId := codec.peerIdOf(r.peerPublicKey);
        if peerId.None? {
          return false, 0;
        }
        dhtAddresses := dhtAddresses[r.address := peerId.value];
        rest := tail;
        n := n + 1;
      }
      ok := true;
    }
  }
}
