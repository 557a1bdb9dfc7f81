/**
 * Length-prefixed framing: a 4-byte big-endian size followed by that many bytes.
 * The record log and the ACN streams share it; the log loader has no size limit and
 * the stream reader refuses frames above 3 MiB.
 */
module Framing {
  import opened Wrappers
  import opened Bytes

  const MAX_MESSAGE: nat := 1024 * 1024 * 3
  const MAX_INT32: nat := 0x7fff_ffff
  const READER_BUFFER: nat := 4096

  function Frame(data: Data): Data {
    PutUint32(|data|) + data
  }

  function Concat(frames: seq<Data>): Data {
    if frames == [] then [] else Frame(frames[0]) + Concat(frames[1..])
  }

  /** Every frame is short enough for its size to fit the prefix. */
  ghost predicate Fits(frames: seq<Data>) {
    forall i :: 0 <= i < |frames| ==> |frames[i]| < TWO_TO_32
  }

  /** What reading one frame off the front of a byte string yields: the frame and the rest. */
  function Take(b: Data): Option<(Data, Data)> {
    if |b| < 4 || |b| - 4 < BeNat(b[..4]) then None
    else var end := 4 + BeNat(b[..4]); Some((b[4..end], b[end..]))
  }

  /** The loader's view of a log file: end of file is clean only between frames. */
  function LoadFrames(b: Data): Result<seq<Data>> {
    if b == [] then Ok([])
    else match Take(b)
      case None => Err("while loading agent records")
      case Some((frame, rest)) =>
        match LoadFrames(rest)
        case Err(e) => Err(e)
        case Ok(frames) => Ok([frame] + frames)
  }

  lemma TakeOfFrame(f: Data, rest: Data)
    requires |f| < TWO_TO_32
    ensures Take(Frame(f) + rest) == Some((f, rest))
  {
    assert (Frame(f) + rest)[..4] == PutUint32(|f|);
  }

  /** A successful read is a frame: the only prefix with that value is the one written. */
  lemma FrameOfTake(b: Data)
    requires Take(b).Some?
    ensures var (f, rest) := Take(b).value; |f| < TWO_TO_32 && b == Frame(f) + rest
  {
    var p := b[..4];
    BeNatBound(p);
    Pow256Of4();
    PadBeBytesOfBeNat(p);
    assert PutUint32(BeNat(p)) == p;
    assert b == p + b[4..4 + BeNat(p)] + b[4 + BeNat(p)..];
  }

  /** Loading a written log returns the frames in order. */
  lemma {:induction false} LoadOfConcat(frames: seq<Data>)
    requires Fits(frames)
    ensures LoadFrames(Concat(frames)) == Ok(frames)
  {
    if frames == [] {
    } else {
      TakeOfFrame(frames[0], Concat(frames[1..]));
      LoadOfConcat(frames[1..]);
      assert frames == [frames[0]] + frames[1..];
    }
  }

  /** Whatever loads is a written log: the decoding is unambiguous. */
  lemma {:induction false} ConcatOfLoad(b: Data)
    requires LoadFrames(b).Ok?
    ensures Fits(LoadFrames(b).value) && b == Concat(LoadFrames(b).value)
    decreases |b|
  {
    if b == [] {
    } else {
      FrameOfTake(b);
      ConcatOfLoad(Take(b).value.1);
    }
  }

  /** Byte `n` is the end of one of the first frames (or the start of the log). */
  ghost predicate OnBoundary(frames: seq<Data>, n: nat) {
    exists k :: 0 <= k <= |frames| && n == |Concat(frames[..k])|
  }

  /**
   * A log cut after `n` bytes loads exactly when the cut is on a frame boundary, and
   * then yields exactly the frames before the cut.
   */
  lemma {:induction false} LoadOfPrefix(frames: seq<Data>, n: nat)
    requires Fits(frames) && n <= |Concat(frames)|
    ensures LoadFrames(Concat(frames)[..n]).Ok? <==> OnBoundary(frames, n)
    ensures forall k :: 0 <= k <= |frames| && n == |Concat(frames[..k])|
                        ==> LoadFrames(Concat(frames)[..n]) == Ok(frames[..k])
  {
    var b := Concat(frames)[..n];
    if LoadFrames(b).Ok? {
      var loaded := LoadFrames(b).value;
      ConcatOfLoad(b);
      PrefixDecodes(loaded, frames);
      assert frames[..|loaded|] == loaded;
      assert n == |Concat(frames[..|loaded|])|;
    }
    forall k | 0 <= k <= |frames| && n == |Concat(frames[..k])|
      ensures LoadFrames(b) == Ok(frames[..k])
    {
      ConcatSplit(frames, k);
      assert b == Concat(frames[..k]);
      LoadOfConcat(frames[..k]);
    }
  }

  lemma {:induction false} ConcatSplit(frames: seq<Data>, k: nat)
    requires k <= |frames|
    ensures Concat(frames) == Concat(frames[..k]) + Concat(frames[k..])
  {
    if k == 0 {
      assert frames[..0] == [] && frames[0..] == frames;
    } else {
      var f, tail := frames[0], frames[1..];
      ConcatSplit(tail, k - 1);
      assert frames[..k][0] == f && frames[..k][1..] == tail[..k - 1] && tail[k - 1..] == frames[k..];
      assert Concat(frames[..k]) == Frame(f) + Concat(tail[..k - 1]);
      assert Concat(frames) == Frame(f) + (Concat(tail[..k - 1]) + Concat(frames[k..]));
    }
  }

  /** Appending a frame to a loadable log appends its contents to what is loaded. */
  lemma LoadAppend(b: Data, frames: seq<Data>, f: Data)
    requires LoadFrames(b) == Ok(frames) && |f| < TWO_TO_32
    ensures LoadFrames(b + Frame(f)) == Ok(frames + [f])
  {
    ConcatOfLoad(b);
    ConcatSplit(frames + [f], |frames|);
    assert (frames + [f])[..|frames|] == frames && (frames + [f])[|frames|..] == [f];
    assert Concat([f]) == Frame(f) + [] == Frame(f);
    LoadOfConcat(frames + [f]);
  }

  /** Prefixes decode to prefixes. */
  lemma {:induction false} PrefixDecodes(short: seq<Data>, long: seq<Data>)
    requires Fits(short) && Fits(long) && Concat(short) <= Concat(long)
    ensures short <= long
  {
    if short == [] {
    } else {
      assert |Concat(long)| >= |Concat(short)| >= 4;
      FirstFrame(short[0], Concat(short[1..]), long[0], Concat(long[1..]));
      PrefixDecodes(short[1..], long[1..]);
      assert short == [short[0]] + short[1..] && long == [long[0]] + long[1..];
    }
  }

  lemma FirstFrame(f: Data, rest: Data, g: Data, rest': Data)
    requires |f| < TWO_TO_32 && |g| < TWO_TO_32 && Frame(f) + rest <= Frame(g) + rest'
    ensures f == g && rest <= rest'
  {
    var n := |Frame(f) + rest|;
    var tail := (Frame(g) + rest')[n..];
    assert Frame(g) + rest' == Frame(f) + rest + tail == Frame(f) + (rest + tail);
    TakeOfFrame(f, rest + tail);
    TakeOfFrame(g, rest');
  }

  /** What `ReadBytes` returns, as a function of the bytes the stream will ever deliver. */
  function Receive(b: Data): Result<Data> {
    if |b| < 4 then Err("while receiving size")
    else if BeNat(b[..4]) > MAX_MESSAGE then Err("expected message size larger than maximum allowed")
    else match Take(b)
      case None => Err("unexpected EOF")
      case Some((frame, _)) => Ok(frame)
  }

  /** A frame within the limit is read back exactly, whatever follows it. */
  lemma ReceiveOfFrame(data: Data, rest: Data)
    requires |data| <= 0x30_0000
    ensures Receive(Frame(data) + rest) == Ok(data)
  {
    TakeOfFrame(data, rest);
    assert (Frame(data) + rest)[..4] == PutUint32(|data|);
  }

  lemma ReceiveErrors(b: Data)
    ensures |b| < 4 ==> Receive(b) == Err("while receiving size")
    ensures |b| >= 4 && BeNat(b[..4]) > 0x30_0000 ==>
              Receive(b) == Err("expected message size larger than maximum allowed")
    ensures |b| >= 4 && BeNat(b[..4]) <= 0x30_0000 && |b| - 4 < BeNat(b[..4]) ==> Receive(b) == Err("unexpected EOF")
  {
  }

  /** Four header bytes and as many bytes as they say are a frame. */
  lemma ReceiveOfParts(header: Data, body: Data, rest: Data)
    requires |header| == 4 && |body| == BeNat(header) <= MAX_MESSAGE
    ensures Receive(header + body + rest) == Ok(body) && header + body + rest == Frame(body) + rest
  {
    var bytes := header + body + rest;
    assert bytes[..4] == header && bytes[4..4 + |body|] == body && bytes[4 + |body|..] == rest;
    FrameOfTake(bytes);
  }

  function Flatten(chunks: seq<Data>): Data {
    if chunks == [] then [] else chunks[0] + Flatten(chunks[1..])
  }

  /** The receiving side of a network stream: bytes arrive in arbitrary non-empty chunks. */
  class Stream {
    var chunks: seq<Data>

    ghost predicate Valid()
      reads this
    {
      forall i :: 0 <= i < |chunks| ==> chunks[i] != []
    }

    constructor (chunks: seq<Data>)
      requires forall i :: 0 <= i < |chunks| ==> chunks[i] != []
      ensures Valid() && this.chunks == chunks
    {
      this.chunks := chunks;
    }

    /** One `Read`: at most `max` bytes of the next chunk, nothing at end of stream. */
    method Read(max: nat) returns (data: Data)
      requires Valid() && max > 0
      modifies this
      ensures Valid()
      ensures old(Flatten(chunks)) == data + Flatten(chunks)
      ensures |data| <= max
      ensures data == [] <==> old(Flatten(chunks)) == []
    {
      if chunks == [] {
        return [];
      }
      var c := chunks[0];
      if |c| <= max {
        data, chunks := c, chunks[1..];
      } else {
        data := c[..max];
        assert c == data + c[max..];
        var rest := chunks[1..];
        chunks := [c[max..]] + rest;
        assert chunks[1..] == rest;
      }
    }
  }

  /** `bufio.Reader` over a stream: `buffered` holds bytes read ahead and not yet asked for. */
  class Reader {
    const source: Stream
    var buffered: Data

    constructor (source: Stream)
      ensures this.source == source && buffered == []
    {
      this.source := source;
      buffered := [];
    }

    ghost function Pending(): Data
      reads this, source
    {
      buffered + Flatten(source.chunks)
    }

    /** `Read` into a slice of `n` bytes: large requests on an empty buffer bypass it. */
    method Read(n: nat) returns (data: Data)
      requires source.Valid() && n > 0
      modifies this, source
      ensures source.Valid()
      ensures old(Pending()) == data + Pending()
      ensures |data| <= n
      ensures data == [] <==> old(Pending()) == []
    {
      if buffered == [] {
        if n >= READER_BUFFER {
          data := source.Read(n);
          return;
        }
        buffered := source.Read(READER_BUFFER);
      }
      var k := if n < |buffered| then n else |buffered|;
      assert buffered == buffered[..k] + buffered[k..];
      data, buffered := buffered[..k], buffered[k..];
    }

    /** `io.ReadFull`: exactly `n` bytes, or an error once the stream ends early. */
    method ReadFull(n: nat) returns (r: Result<Data>)
      requires source.Valid()
      modifies this, source
      ensures source.Valid()
      ensures r.Ok? <==> n <= |old(Pending())|
      ensures r.Ok? ==> |r.value| == n && old(Pending()) == r.value + Pending()
    {
      var got: Data := [];
      while |got| < n
        invariant source.Valid()
        invariant |got| <= n
        invariant old(Pending()) == got + Pending()
      {
        var data := Read(n - |got|);
        if data == [] {
          return Err("unexpected EOF");
        }
        got := got + data;
      }
      r := Ok(got);
    }
  }

  /**
   * `ReadBytes`: the result depends only on the bytes delivered, not on how they are
   * chunked.  The reader is dropped on return, and `lost` is what it had read ahead.
   */
  method ReadBytes(s: Stream) returns (r: Result<Data>, ghost lost: Data)
    requires s.Valid()
    modifies s
    ensures s.Valid()
    ensures r == Receive(old(Flatten(s.chunks)))
    ensures r.Ok? ==> old(Flatten(s.chunks)) == Frame(r.value) + lost + Flatten(s.chunks)
  {
    ghost var bytes := Flatten(s.chunks);
    ReceiveErrors(bytes);
    var reader := new Reader(s);
    assert reader.Pending() == bytes;
    lost := [];
    var header := reader.ReadFull(4);
    if header.Err? {
      return Err("while receiving size"), lost;
    }
    ghost var afterHeader := reader.Pending();
    assert bytes[..4] == header.value;
    var size := BeNat(header.value);
    if size > MAX_MESSAGE {
      return Err("expected message size larger than maximum allowed"), lost;
    }
    var body := reader.ReadFull(size);
    lost := reader.buffered;
    if body.Err? {
      return Err("unexpected EOF"), lost;
    }
    assert bytes == header.value + body.value + (lost + Flatten(s.chunks));
    ReceiveOfParts(header.value, body.value, lost + Flatten(s.chunks));
    assert bytes == Frame(body.value) + lost + Flatten(s.chunks);
    r := body;
  }

  /** The sending side of a stream. */
  class Wire {
    var sent: Data

    /** `WriteBytes`: an empty message writes nothing and an oversized one is refused. */
    method WriteBytes(data: Data) returns (ok: bool)
      modifies this
      ensures ok <==> |data| <= MAX_INT32
      ensures sent == old(sent) + (if ok && data != [] then Frame(data) else [])
    {
      if |data| > MAX_INT32 {
        return false;
      }
      if |data| == 0 {
        return true;
      }
      sent := sent + PutUint32(|data|);
      sent := sent + data;
      return true;
    }
  }

  /**
   * One frame each way is enough to be safe: when the peer has written a single frame,
   * one `ReadBytes` returns it under every chunking and its reader drops nothing.
   */
  method ReceiveSoleFrame(s: Stream, data: Data) returns (r: Result<Data>, ghost lost: Data)
    requires s.Valid() && Flatten(s.chunks) == Frame(data) && |data| <= 0x30_0000
    modifies s
    ensures r == Ok(data)
    ensures lost == [] && Flatten(s.chunks) == []
  {
    ReceiveOfFrame(data, []);
    assert Frame(data) + [] == Frame(data);
    r, lost := ReadBytes(s);
  }
}
