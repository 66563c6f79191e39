/**
 * The receiving client of reciver.py: registration and the listen loop that
 * decrypts forwarded envelopes with the receiver's own private key. Printing
 * is modelled by the list of what was shown.
 */
module ReceiverClient {
  import opened Wrappers
  import opened Octets
  import opened Json
  import opened Wire
  import opened Envelope
  import opened Client

  /** One line the loop prints. */
  datatype Shown = Delivered(from: string, plaintext: string) | ServerError(message: string)

  /** What one received message does to the loop. */
  datatype Action = Show(item: Shown) | Skip | Stop

  /**
   * Lines 55-62 for a truthy message: a 'forward_msg' is decrypted and shown,
   * an 'error' is shown, any other type is skipped; `.get` on a non-object, a
   * missing field or a failed decryption raises, which ends the loop.
   */
  function ActionOf(p: Primitives, privateKeyPem: string, v: Value): (a: Action)
    ensures a.Skip? <==> v.Object? && TypeOf(v) != Some("forward_msg") && TypeOf(v) != Some("error")
    ensures a.Show? && a.item.Delivered? <==>
      v.Object? && TypeOf(v) == Some("forward_msg") && "from" in v.fields && "data" in v.fields
      && Decrypt(p, privateKeyPem, v.fields["data"]).Some?
    ensures a.Show? && a.item.Delivered? ==>
      a.item == Delivered(v.fields["from"], Decrypt(p, privateKeyPem, v.fields["data"]).value)
    ensures a.Show? && a.item.ServerError? <==> v.Object? && TypeOf(v) == Some("error") && "message" in v.fields
    ensures a.Show? && a.item.ServerError? ==> a.item.message == v.fields["message"]
  {
    if v.Scalar? then Stop
    else if TypeOf(v) == Some("forward_msg") then
      match (Index(v, "from"), Index(v, "data"))
      case (Some(from), Some(data)) =>
        (match Decrypt(p, privateKeyPem, data)
         case Some(plaintext) => Show(Delivered(from, plaintext))
         case None => Stop)
      case _ => Stop
    else if TypeOf(v) == Some("error") then
      (match Index(v, "message") case Some(m) => Show(ServerError(m)) case None => Stop)
    else Skip
  }

  /**
   * One turn of the loop, lines 51-65: what it shows (nothing or one line),
   * whether the loop goes on, and where it leaves the stream. The loop stops at
   * end of stream, on a falsy message and on any exception.
   */
  function Turn(c: Codec, p: Primitives, privateKeyPem: string, s: Stream): (t: (seq<Shown>, bool, Stream))
    ensures t.2 == ReadFrame(s).1
    ensures var r := Decoded(c, ReadFrame(s).0);
      t.1 <==> r.Message? && Truthy(r.value) && !ActionOf(p, privateKeyPem, r.value).Stop?
    ensures t.1 ==> var a := ActionOf(p, privateKeyPem, Decoded(c, ReadFrame(s).0).value);
      t.0 == if a.Show? then [a.item] else []
    ensures t.1 ==> Size(t.2) < Size(s)
    ensures !t.1 ==> t.0 == []
  {
    var (out, rest) := ReadFrame(s);
    match Decoded(c, out)
    case Message(v) =>
      if !Truthy(v) then ([], false, rest)
      else
        ReadFrameShrinks(s);
        (match ActionOf(p, privateKeyPem, v)
         case Stop => ([], false, rest)
         case Skip => ([], true, rest)
         case Show(x) => ([x], true, rest))
    case _ => ([], false, rest)
  }

  /** The listen loop over a stream: what it shows and where it leaves the stream. */
  function Listen(c: Codec, p: Primitives, privateKeyPem: string, s: Stream): (seq<Shown>, Stream)
    decreases Size(s)
  {
    var (x, more, rest) := Turn(c, p, privateKeyPem, s);
    if !more then ([], rest)
    else
      var (next, end) := Listen(c, p, privateKeyPem, rest);
      (x + next, end)
  }

  /** Once the stream has run out, whether closed or reset, the loop shows nothing more. */
  lemma ListenStopsAtEnd(c: Codec, p: Primitives, privateKeyPem: string, fate: Fate)
    ensures Listen(c, p, privateKeyPem, Stream([], fate)) == ([], Stream([], fate))
  {
    assert !Decoded(c, ReadFrame(Stream([], fate)).0).Message?;
  }

  /** The loop is one turn followed, if that turn goes on, by the loop over the rest of the stream. */
  lemma ListenByTurn(c: Codec, p: Primitives, privateKeyPem: string, s: Stream)
    ensures var (x, more, rest) := Turn(c, p, privateKeyPem, s);
      Listen(c, p, privateKeyPem, s) ==
        if more then (x + Listen(c, p, privateKeyPem, rest).0, Listen(c, p, privateKeyPem, rest).1) else ([], rest)
  {
  }

  /** Sequence associativity, stated once so that the proof of `ListenForMessages` stays small. */
  lemma Regroup(a: seq<Shown>, b: seq<Shown>, c: seq<Shown>)
    ensures a + (b + c) == (a + b) + c
  {
  }

  /** One message delivered as one segment is handled as its action says, and the loop goes on to the next segment. */
  lemma ListenStep(c: Codec, p: Primitives, privateKeyPem: string, v: Value, tail: seq<Chunk>, fate: Fate)
    requires Json.Lawful(c) && |c.dumps(v)| < Pow256(4) && Truthy(v)
    ensures var s := Stream([Emit(c, v)] + tail, fate);
      var next := Listen(c, p, privateKeyPem, Stream(tail, fate));
      Listen(c, p, privateKeyPem, s) ==
        match ActionOf(p, privateKeyPem, v)
        case Stop => ([], Stream(tail, fate))
        case Skip => next
        case Show(x) => ([x] + next.0, next.1)
  {
    var s := Stream([Emit(c, v)] + tail, fate);
    WholeFrameSegment(c.dumps(v), tail, fate);
    ListenByTurn(c, p, privateKeyPem, s);
    assert [] + Listen(c, p, privateKeyPem, Stream(tail, fate)).0 == Listen(c, p, privateKeyPem, Stream(tail, fate)).0;
  }

  /** A message in a single envelope sealed for one plaintext. */
  datatype Letter = Letter(from: string, plaintext: string, aesKey: Bytes, nonce: Bytes, seed: Bytes)

  ghost predicate Sealable(l: Letter) {
    |l.aesKey| == AesKeyLength && |l.nonce| == NonceLength
  }

  /** The 'forward_msg' the relay sends for a letter encrypted under the public key. */
  function Forwarded(p: Primitives, publicKeyPem: string, l: Letter): Value
    requires Sealable(l)
  {
    var envelope := Encrypt(p, publicKeyPem, l.plaintext, l.aesKey, l.nonce, l.seed);
    ForwardMsg(l.from, if envelope.Some? then envelope.value else "")
  }

  /** What the loop should show for the letters: each sender with its plaintext, in order. */
  function Deliveries(letters: seq<Letter>): (r: seq<Shown>)
    ensures |r| == |letters|
  {
    if letters == [] then [] else [Delivered(letters[0].from, letters[0].plaintext)] + Deliveries(letters[1..])
  }

  /** A forwarded letter, decrypted with the matching private key, shows its sender and plaintext. */
  lemma ForwardedShows(p: Primitives, publicKeyPem: string, privateKeyPem: string, l: Letter)
    requires Envelope.Lawful(p) && p.isKeyPair(publicKeyPem, privateKeyPem)
    requires p.keyBytes(publicKeyPem).value >= AesKeyLength + OaepOverhead
    requires Sealable(l)
    ensures Truthy(Forwarded(p, publicKeyPem, l))
    ensures ActionOf(p, privateKeyPem, Forwarded(p, publicKeyPem, l)) == Show(Delivered(l.from, l.plaintext))
  {
    RoundTrip(p, publicKeyPem, privateKeyPem, l.plaintext, l.aesKey, l.nonce, l.seed);
    assert TypeOf(Forwarded(p, publicKeyPem, l)) == Some("forward_msg");
  }

  /** A segment holding one forwarded letter shows that letter, and the loop goes on to the next segment. */
  lemma ForwardedStep(c: Codec, p: Primitives, publicKeyPem: string, privateKeyPem: string,
                      l: Letter, tail: seq<Chunk>, fate: Fate)
    requires Json.Lawful(c) && Envelope.Lawful(p) && p.isKeyPair(publicKeyPem, privateKeyPem)
    requires p.keyBytes(publicKeyPem).value >= AesKeyLength + OaepOverhead
    requires Sealable(l) && Emit(c, Forwarded(p, publicKeyPem, l)) != []
    ensures var next := Listen(c, p, privateKeyPem, Stream(tail, fate));
      Listen(c, p, privateKeyPem, Stream([Emit(c, Forwarded(p, publicKeyPem, l))] + tail, fate))
        == ([Delivered(l.from, l.plaintext)] + next.0, next.1)
  {
    ForwardedShows(p, publicKeyPem, privateKeyPem, l);
    ListenStep(c, p, privateKeyPem, Forwarded(p, publicKeyPem, l), tail, fate);
  }

  /**
   * End to end on the receiving side: when every segment is the relay's frame
   * of a 'forward_msg' carrying an envelope sealed under the receiver's public
   * key, the loop shows every sender and plaintext, in order.
   */
  lemma {:induction false} ListenDeliversAll(c: Codec, p: Primitives, publicKeyPem: string, privateKeyPem: string,
                                             letters: seq<Letter>, segments: seq<Chunk>)
    requires Json.Lawful(c) && Envelope.Lawful(p) && p.isKeyPair(publicKeyPem, privateKeyPem)
    requires p.keyBytes(publicKeyPem).value >= AesKeyLength + OaepOverhead
    requires |segments| == |letters|
    requires forall i :: 0 <= i < |letters| ==> Sealable(letters[i])
    requires forall i :: 0 <= i < |letters| ==> segments[i] == Emit(c, Forwarded(p, publicKeyPem, letters[i]))
    ensures Listen(c, p, privateKeyPem, Stream(segments, Closed)).0 == Deliveries(letters)
  {
    if letters == [] {
      assert ReadFrame(Stream([], Closed)).0 == NoHeader;
    } else {
      assert segments == [Emit(c, Forwarded(p, publicKeyPem, letters[0]))] + segments[1..];
      assert segments[0] != [];
      ForwardedStep(c, p, publicKeyPem, privateKeyPem, letters[0], segments[1..], Closed);
      ListenDeliversAll(c, p, publicKeyPem, privateKeyPem, letters[1..], segments[1..]);
    }
  }

  class Receiver {
    const codec: Codec
    const prims: Primitives
    const username: string
    const privateKeyPem: string
    const publicKeyPem: string
    /** What the relay has yet to deliver on the socket. */
    var incoming: Stream
    /** Every byte written to the socket. */
    var outgoing: Bytes
    /** Every line the listen loop has printed. */
    var shown: seq<Shown>

    /** The username comes from `input()` and the key pair from generate_rsa_keypair. */
    constructor(codec: Codec, prims: Primitives, username: string, privateKeyPem: string, publicKeyPem: string)
      ensures this.codec == codec && this.prims == prims && this.username == username
      ensures this.privateKeyPem == privateKeyPem && this.publicKeyPem == publicKeyPem
      ensures incoming == Stream([], Closed) && outgoing == [] && shown == []
    {
      this.codec, this.prims, this.username := codec, prims, username;
      this.privateKeyPem, this.publicKeyPem := privateKeyPem, publicKeyPem;
      incoming, outgoing, shown := Stream([], Closed), [], [];
    }

    /** Lines 30-33: write the frame; a body of 2^32 bytes or more raises before anything is written. */
    method SendMessage(v: Value) returns (ok: bool)
      modifies this`outgoing
      ensures ok <==> |codec.dumps(v)| < Pow256(4)
      ensures outgoing == old(outgoing) + Emit(codec, v)
    {
      var frame := EncodeFrame(codec.dumps(v));
      if frame.None? {
        return false;
      }
      outgoing := outgoing + frame.value;
      return true;
    }

    /** Lines 35-46: None at end of stream; socket and decoding errors raise. */
    method RecvMessage() returns (r: Received)
      modifies this`incoming
      ensures r == Decoded(codec, ReadFrame(old(incoming)).0) && incoming == ReadFrame(old(incoming)).1
    {
      var out, rest := ReceiveFrame(incoming);
      incoming := rest;
      r := Decoded(codec, out);
    }

    /** Lines 15-28: send 'register' and succeed only on a 'registered' reply; `replies` is what the relay will send. */
    method Connect(replies: Stream) returns (ok: bool)
      modifies this`incoming, this`outgoing
      ensures outgoing == Emit(codec, RegisterMsg(username, publicKeyPem))
      ensures |codec.dumps(RegisterMsg(username, publicKeyPem))| >= Pow256(4) ==> !ok && incoming == replies
      ensures |codec.dumps(RegisterMsg(username, publicKeyPem))| < Pow256(4) ==>
        ok == Confirmed(Decoded(codec, ReadFrame(replies).0)) && incoming == ReadFrame(replies).1
    {
      incoming, outgoing := replies, [];
      var sent := SendMessage(RegisterMsg(username, publicKeyPem));
      if !sent {
        return false;
      }
      var resp := RecvMessage();
      ok := Confirmed(resp);
    }

    /** Lines 51-65, one turn of the loop: receive one message and act on it; `more` says whether the loop goes on. */
    method HandleNext() returns (more: bool)
      modifies this`incoming, this`shown
      ensures var t := Turn(codec, prims, privateKeyPem, old(incoming));
        more == t.1 && shown == old(shown) + t.0 && incoming == t.2
    {
      var msg := RecvMessage();
      if !msg.Message? || !Truthy(msg.value) {
        return false;
      }
      var action := ActionOf(prims, privateKeyPem, msg.value);
      if action.Stop? {
        return false;
      }
      if action.Show? {
        shown := shown + [action.item];
      }
      return true;
    }

    /** Lines 48-65: receive, dispatch and show until the stream ends or something raises. */
    method ListenForMessages()
      modifies this`incoming, this`shown
      ensures shown == old(shown) + Listen(codec, prims, privateKeyPem, old(incoming)).0
      ensures incoming == Listen(codec, prims, privateKeyPem, old(incoming)).1
    {
      ghost var total := Listen(codec, prims, privateKeyPem, incoming);
      while true
        invariant old(shown) + total.0 == shown + Listen(codec, prims, privateKeyPem, incoming).0
        invariant total.1 == Listen(codec, prims, privateKeyPem, incoming).1
        decreases Size(incoming)
      {
        ghost var before, shownBefore := incoming, shown;
        ListenByTurn(codec, prims, privateKeyPem, before);
        ghost var turn := Turn(codec, prims, privateKeyPem, before);
        var more := HandleNext();
        if !more {
          break;
        }
        assert shown == shownBefore + turn.0;
        ghost var next := Listen(codec, prims, privateKeyPem, incoming);
        Regroup(shownBefore, turn.0, next.0);
      }
    }
  }
}
