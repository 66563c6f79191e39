/**
 * The length-prefixed wire protocol shared by the relay and both clients:
 * a frame is a 4-byte big-endian body length followed by the body.
 *
 * An incoming byte stream is a sequence of non-empty chunks; `recv(n)` hands
 * out at most n bytes of the first chunk. When the chunks run out the stream
 * either reports end of stream (`recv` returns b'') or raises a socket error.
 * Every sequence of partial reads a real socket can produce is some chunking.
 */
module Wire {
  import opened Wrappers
  import opened Octets
  import opened Json

  type Chunk = c: Bytes | |c| > 0 witness [0]

  /** What the stream does once its chunks are used up. */
  datatype Fate = Closed | Reset

  datatype Stream = Stream(chunks: seq<Chunk>, fate: Fate)

  /** All bytes still to come, in order, whatever the chunking. */
  function Flatten(cs: seq<Chunk>): Bytes {
    if cs == [] then [] else cs[0] + Flatten(cs[1..])
  }

  function Size(s: Stream): nat {
    |Flatten(s.chunks)|
  }

  /** The outcome of one `conn.recv(n)`. */
  datatype Read = Data(bytes: Bytes, rest: Stream) | Raised

  /** One `conn.recv(n)`: between 1 and n bytes, b'' at end of stream, or an exception. */
  function Recv(s: Stream, n: nat): (r: Read)
    requires n > 0
    ensures r.Raised? <==> s.chunks == [] && s.fate.Reset?
    ensures r.Data? ==> |r.bytes| <= n && (r.bytes == [] <==> s.chunks == [])
    ensures r.Data? ==> Flatten(s.chunks) == r.bytes + Flatten(r.rest.chunks) && r.rest.fate == s.fate
  {
    if s.chunks == [] then
      if s.fate == Closed then Data([], s) else Raised
    else
      var c := s.chunks[0];
      if |c| <= n then Data(c, Stream(s.chunks[1..], s.fate))
      else
        assert Flatten(s.chunks) == c[..n] + Flatten([c[n..]] + s.chunks[1..]) by {
          assert ([c[n..]] + s.chunks[1..])[1..] == s.chunks[1..];
        }
        Data(c[..n], Stream([c[n..]] + s.chunks[1..], s.fate))
  }

  /** The stream after exactly n further bytes have been consumed, chunk boundaries kept. */
  function Drop(s: Stream, n: nat): (r: Stream)
    requires n <= Size(s)
    ensures Flatten(r.chunks) == Flatten(s.chunks)[n..] && r.fate == s.fate
    decreases |s.chunks|
  {
    if n == 0 then s
    else
      var c := s.chunks[0];
      if n >= |c| then Drop(Stream(s.chunks[1..], s.fate), n - |c|)
      else
        assert Flatten([c[n..]] + s.chunks[1..]) == c[n..] + Flatten(s.chunks[1..]) by {
          assert ([c[n..]] + s.chunks[1..])[1..] == s.chunks[1..];
        }
        Stream([c[n..]] + s.chunks[1..], s.fate)
  }

  lemma {:induction false} DropDrop(s: Stream, a: nat, b: nat)
    requires a + b <= Size(s)
    ensures Drop(Drop(s, a), b) == Drop(s, a + b)
    decreases |s.chunks|
  {
    if a > 0 {
      var c := s.chunks[0];
      if a >= |c| {
        DropDrop(Stream(s.chunks[1..], s.fate), a - |c|, b);
      } else if b > 0 {
        var t := Stream([c[a..]] + s.chunks[1..], s.fate);
        assert t.chunks[0] == c[a..];
        assert t.chunks[1..] == s.chunks[1..];
      }
    }
  }

  /** A non-empty `recv` consumes exactly the bytes it returns. */
  lemma RecvIsDrop(s: Stream, n: nat)
    requires n > 0 && s.chunks != []
    ensures Recv(s, n).rest == Drop(s, |Recv(s, n).bytes|)
  {
    var c := s.chunks[0];
    if |c| <= n {
      assert Drop(s, |c|) == Drop(Stream(s.chunks[1..], s.fate), 0);
    }
  }

  /** The outcome of reading one frame off the stream. */
  datatype FrameResult =
    | Body(bytes: Bytes)   // a complete body of the announced length
    | NoHeader             // `recv(4)` returned b''
    | Truncated            // a body `recv` returned b'' before the body was complete
    | SocketError          // a `recv` raised

  /**
   * What reading a frame yields, stated over the flattened stream: the header
   * is whatever the single `recv(4)` returns (possibly fewer than 4 bytes), and
   * the body is the next `msg_len` bytes of the stream however they are chunked.
   */
  function ReadFrame(s: Stream): (FrameResult, Stream) {
    match Recv(s, 4)
    case Raised => (SocketError, s)
    case Data(header, s1) =>
      if header == [] then (NoHeader, s1) else ReadBody(s1, FromBigEndian(header))
  }

  /** The next n bytes of the stream, or how the stream ran out before them. */
  function ReadBody(s: Stream, n: nat): (FrameResult, Stream) {
    var avail := Flatten(s.chunks);
    if n <= |avail| then (Body(avail[..n]), Drop(s, n))
    else (if s.fate == Closed then Truncated else SocketError, Stream([], s.fate))
  }

  /** `recv_message`: one `recv(4)` for the header, then the body loop. */
  method ReceiveFrame(s: Stream) returns (out: FrameResult, rest: Stream)
    ensures (out, rest) == ReadFrame(s)
  {
    var first := Recv(s, 4);
    if first.Raised? {
      return SocketError, s;
    }
    if first.bytes == [] {
      return NoHeader, first.rest;
    }
    out, rest := ReceiveBody(first.rest, FromBigEndian(first.bytes));
  }

  /** The body loop of `recv_message`: call `recv(msg_len - len(data))` until `msg_len` bytes are gathered. */
  method ReceiveBody(start: Stream, msgLen: nat) returns (out: FrameResult, rest: Stream)
    ensures (out, rest) == ReadBody(start, msgLen)
  {
    ghost var avail := Flatten(start.chunks);
    var data: Bytes := [];
    rest := start;
    while |data| < msgLen
      invariant |data| <= msgLen && |data| <= |avail|
      invariant data == avail[..|data|]
      invariant rest == Drop(start, |data|)
      decreases msgLen - |data|
    {
      var chunk := Recv(rest, msgLen - |data|);
      if chunk.Raised? {
        return SocketError, rest;
      }
      if chunk.bytes == [] {
        return Truncated, rest;
      }
      RecvIsDrop(rest, msgLen - |data|);
      DropDrop(start, |data|, |chunk.bytes|);
      data := data + chunk.bytes;
      rest := chunk.rest;
    }
    return Body(data), rest;
  }

  /** A successful frame read consumes at least one byte, so request loops terminate. */
  lemma ReadFrameShrinks(s: Stream)
    requires ReadFrame(s).0.Body?
    ensures Size(ReadFrame(s).1) < Size(s)
  {
  }

  /** `len(data).to_bytes(4, 'big') + data`; None is the OverflowError of a body of 2^32 bytes or more. */
  function EncodeFrame(body: Bytes): (r: Option<Bytes>)
    ensures r.Some? <==> |body| < Pow256(4)
    ensures r.Some? ==> |r.value| == 4 + |body| && r.value[4..] == body
  {
    if |body| < Pow256(4) then Some(ToBigEndian(|body|, 4) + body) else None
  }

  /** Frame boundary: a frame whose header arrives whole is read back with its exact body, whatever the body's chunking. */
  lemma FrameRoundTrip(body: Bytes, s: Stream, more: Bytes)
    requires EncodeFrame(body).Some?
    requires s.chunks != [] && |s.chunks[0]| >= 4
    requires Flatten(s.chunks) == EncodeFrame(body).value + more
    ensures ReadFrame(s).0 == Body(body)
    ensures Flatten(ReadFrame(s).1.chunks) == more && ReadFrame(s).1.fate == s.fate
  {
    var frame := EncodeFrame(body).value;
    var r := Recv(s, 4);
    assert r.bytes == Flatten(s.chunks)[..4];
    assert r.bytes == ToBigEndian(|body|, 4);
    FromToBigEndian(|body|, 4);
    assert Flatten(r.rest.chunks) == body + more;
  }

  /** A frame that arrives as one segment is read exactly, and the segments after it are left as they were. */
  lemma WholeFrameSegment(body: Bytes, tail: seq<Chunk>, fate: Fate)
    requires EncodeFrame(body).Some?
    ensures ReadFrame(Stream([EncodeFrame(body).value] + tail, fate)) == (Body(body), Stream(tail, fate))
  {
    var frame := EncodeFrame(body).value;
    var s := Stream([frame] + tail, fate);
    assert s.chunks[1..] == tail;
    var r := Recv(s, 4);
    assert r.bytes == frame[..4] == ToBigEndian(|body|, 4);
    FromToBigEndian(|body|, 4);
    if |frame| > 4 {
      assert r.rest.chunks[0] == body && r.rest.chunks[1..] == tail;
      assert Drop(r.rest, |body|) == Drop(Stream(tail, fate), 0);
    }
  }

  /** Three segments carry their bytes in order. */
  lemma FlattenThree(a: Chunk, b: Chunk, c: Chunk)
    ensures Flatten([a, b, c]) == a + b + c
  {
    assert Flatten([c]) == c by { assert [c][1..] == []; }
    assert Flatten([b, c]) == b + c by { assert [b, c][1..] == [c]; }
    assert [a, b, c][1..] == [b, c];
  }

  /** A frame followed in the same segment by more bytes is read exactly, and those bytes stay one segment. */
  lemma FrameThenMore(body: Bytes, more: Chunk, fate: Fate)
    requires EncodeFrame(body).Some?
    ensures ReadFrame(Stream([EncodeFrame(body).value + more], fate)) == (Body(body), Stream([more], fate))
  {
    var frame := EncodeFrame(body).value;
    var seg: Chunk := frame + more;
    var r := Recv(Stream([seg], fate), 4);
    assert r.bytes == frame[..4] == ToBigEndian(|body|, 4);
    FromToBigEndian(|body|, 4);
    assert r.rest == Stream([seg[4..]], fate);
    assert seg[4..] == body + more;
    assert Flatten(r.rest.chunks) == body + more;
    if |body| > 0 {
      assert Drop(r.rest, |body|) == Stream([(body + more)[|body|..]], fate);
      assert (body + more)[|body|..] == more;
    }
  }

  /**
   * The header is taken from a single `recv(4)`: when the first segment holds
   * only two header bytes, the frame for the body [7] is read as an empty body.
   */
  lemma ShortHeaderMisframes()
    ensures EncodeFrame([7]) == Some([0, 0, 0, 1, 7])
    ensures ReadFrame(Stream([[0, 0], [0, 1, 7]], Closed)).0 == Body([])
  {
    assert Pow256(4) == 0x1_0000_0000;
    assert ToBigEndian(0, 1) == [0];
    assert ToBigEndian(0, 2) == [0, 0];
    assert ToBigEndian(0, 3) == [0, 0, 0];
    assert ToBigEndian(1, 4) == [0, 0, 0, 1];
    assert EncodeFrame([7]) == Some(ToBigEndian(1, 4) + [7]);
    assert ToBigEndian(1, 4) + [7] == [0, 0, 0, 1, 7];
    assert FromBigEndian([0, 0]) == 0;
  }

  /** The three outcomes a receiver distinguishes. */
  datatype Received = Message(value: Value) | NoMessage | Exception

  /** `json.loads(data.decode('utf-8'))` applied to a frame read: end of stream gives None, errors raise. */
  function Decoded(c: Codec, out: FrameResult): Received {
    match out
    case Body(b) => (match c.loads(b) case Some(v) => Message(v) case None => Exception)
    case NoHeader => NoMessage
    case Truncated => NoMessage
    case SocketError => Exception
  }

  /** The bytes `send_message` writes for a value: the frame, or nothing when encoding it overflows. */
  function Emit(c: Codec, v: Value): (r: Bytes)
    ensures r == [] <==> |c.dumps(v)| >= Pow256(4)
  {
    match EncodeFrame(c.dumps(v)) case Some(f) => f case None => []
  }

  /** A value sent with `send_message` is received as that value, provided its header arrives whole. */
  lemma MessageRoundTrip(c: Codec, v: Value, s: Stream, more: Bytes)
    requires Lawful(c) && |c.dumps(v)| < Pow256(4)
    requires s.chunks != [] && |s.chunks[0]| >= 4
    requires Flatten(s.chunks) == Emit(c, v) + more
    ensures Decoded(c, ReadFrame(s).0) == Message(v)
    ensures Flatten(ReadFrame(s).1.chunks) == more
  {
    FrameRoundTrip(c.dumps(v), s, more);
  }
}
