/**
 * The end-to-end exchange through the relay. Bob and alice connect and
 * register; alice's sender fetches bob's key over her connection and sends
 * "hello" sealed under it; the relay forwards the opaque envelope on bob's
 * connection; bob's listen loop shows it; alice disconnects and the relay
 * cleans up her entry.
 *
 * Each reply of the relay depends only on the frames before it, and each
 * client writes its frames before reading the matching reply. So the
 * relay's steps are run first, over the frames the clients write. The
 * clients then run over the relay's outboxes. `AliceToBob` proves that the
 * relay heard exactly what each client wrote.
 */
module Scenario {
  import opened Wrappers
  import opened Octets
  import opened Json
  import opened Wire
  import opened Envelope
  import opened Relay
  import opened SenderClient
  import opened ReceiverClient

  /** Lines 18-28 of handle_client on a well-formed 'register' frame that arrives as one segment. */
  method Accept(relay: Server, conn: ConnId, username: string, publicKey: string, input: Stream)
    returns (rest: Stream)
    requires relay.Valid() && conn !in relay.closed && conn !in relay.owner
    requires Json.Lawful(relay.codec) && |relay.codec.dumps(RegisterMsg(username, publicKey))| < Pow256(4)
    requires input.chunks != [] && input.chunks[0] == Emit(relay.codec, RegisterMsg(username, publicKey))
    modifies relay
    ensures relay.Valid() && relay.closed == old(relay.closed)
    ensures relay.clients == old(relay.clients)[username := Session(conn, publicKey)]
    ensures relay.owner == old(relay.owner)[conn := username]
    ensures relay.outbox == old(relay.outbox)[conn := old(relay.Sent(conn)) + Emit(relay.codec, RegisteredMsg(username))]
    ensures rest == Stream(input.chunks[1..], input.fate)
  {
    assert input.chunks == [input.chunks[0]] + input.chunks[1..];
    WholeFrameSegment(relay.codec.dumps(RegisterMsg(username, publicKey)), input.chunks[1..], input.fate);
    var first;
    first, rest := relay.RecvMessage(input);
    assert RegistrationOf(first) == Some((username, publicKey));
    relay.Register(conn, username, publicKey);
    relay.SendMessage(conn, RegisteredMsg(username));
  }

  /** Lines 31-35 for a 'get_key' that arrives as one segment and names a registered user. */
  method ServeKeyRequest(relay: Server, sender: string, target: string, input: Stream) returns (rest: Stream)
    requires Json.Lawful(relay.codec) && |relay.codec.dumps(GetKeyMsg(target))| < Pow256(4)
    requires input.chunks != [] && input.chunks[0] == Emit(relay.codec, GetKeyMsg(target))
    requires sender in relay.clients && target in relay.clients && relay.clients[sender].conn !in relay.closed
    modifies relay`outbox
    ensures rest == Stream(input.chunks[1..], input.fate) && relay.clients == old(relay.clients)
    ensures var conn := relay.clients[sender].conn;
      relay.outbox == old(relay.outbox)[conn := old(relay.Sent(conn))
                                                + Emit(relay.codec, KeyResponseMsg(relay.clients[target].publicKey))]
  {
    assert input.chunks == [input.chunks[0]] + input.chunks[1..];
    WholeFrameSegment(relay.codec.dumps(GetKeyMsg(target)), input.chunks[1..], input.fate);
    var request;
    request, rest := relay.RecvMessage(input);
    assert RequestOf(request.value) == KeyRequest(target);
    var _ := relay.ProcessRequest(sender, request.value);
  }

  /** Lines 31-35 for a 'send_msg' that arrives as one segment and names a registered user. */
  method ServeForward(relay: Server, sender: string, target: string, data: string, input: Stream) returns (rest: Stream)
    requires Json.Lawful(relay.codec) && |relay.codec.dumps(SendMsgMsg(target, data))| < Pow256(4)
    requires input.chunks != [] && input.chunks[0] == Emit(relay.codec, SendMsgMsg(target, data))
    requires target in relay.clients && relay.clients[target].conn !in relay.closed
    modifies relay`outbox
    ensures rest == Stream(input.chunks[1..], input.fate) && relay.clients == old(relay.clients)
    ensures var conn := relay.clients[target].conn;
      relay.outbox == old(relay.outbox)[conn := old(relay.Sent(conn)) + Emit(relay.codec, ForwardMsg(sender, data))]
  {
    assert input.chunks == [input.chunks[0]] + input.chunks[1..];
    WholeFrameSegment(relay.codec.dumps(SendMsgMsg(target, data)), input.chunks[1..], input.fate);
    var request;
    request, rest := relay.RecvMessage(input);
    assert RequestOf(request.value) == Forward(target, data);
    var _ := relay.ProcessRequest(sender, request.value);
  }

  /** Lines 32-34 and 39-43 when the connection's stream has ended: the name is removed and `conn` closed. */
  method Leave(relay: Server, conn: ConnId, username: string, input: Stream)
    requires relay.Valid() && conn in relay.owner && relay.owner[conn] == username
    requires input == Stream([], Closed)
    modifies relay`clients, relay`closed
    ensures relay.Valid() && relay.clients == old(relay.clients) - {username}
    ensures relay.closed == old(relay.closed) + {conn}
  {
    var last, _ := relay.RecvMessage(input);
    assert last.None?;
    relay.Cleanup(conn, Some(username));
  }

  /** A fresh relay after bob has registered on connection 2 and alice on connection 1. */
  method Connected(c: Codec, alicePub: string, bobPub: string, fromAlice: Stream, fromBob: Stream)
    returns (relay: Server, rest: Stream)
    requires Json.Lawful(c)
    requires |c.dumps(RegisterMsg("alice", alicePub))| < Pow256(4) && |c.dumps(RegisterMsg("bob", bobPub))| < Pow256(4)
    requires fromBob.chunks != [] && fromBob.chunks[0] == Emit(c, RegisterMsg("bob", bobPub))
    requires fromAlice.chunks != [] && fromAlice.chunks[0] == Emit(c, RegisterMsg("alice", alicePub))
    ensures fresh(relay) && relay.codec == c && relay.Valid() && relay.closed == {}
    ensures relay.clients == map["bob" := Session(2, bobPub), "alice" := Session(1, alicePub)]
    ensures relay.owner == map[2 := "bob", 1 := "alice"]
    ensures relay.outbox == map[2 := Emit(c, RegisteredMsg("bob")), 1 := Emit(c, RegisteredMsg("alice"))]
    ensures rest == Stream(fromAlice.chunks[1..], fromAlice.fate)
  {
    relay := new Server(c);
    var _ := Accept(relay, 2, "bob", bobPub, fromBob);
    assert [] + Emit(c, RegisteredMsg("bob")) == Emit(c, RegisteredMsg("bob"));
    rest := Accept(relay, 1, "alice", alicePub, fromAlice);
    assert [] + Emit(c, RegisteredMsg("alice")) == Emit(c, RegisteredMsg("alice"));
  }

  /**
   * The relay's side. Bob registers on connection 2 and alice on connection 1.
   * Alice's 'get_key' for bob and her 'send_msg' to bob are served. Alice's
   * stream then ends and her entry is cleaned up.
   */
  method RelayRun(c: Codec, alicePub: string, bobPub: string, envelope: string, fromAlice: Stream, fromBob: Stream)
    returns (toAlice: Bytes, toBob: Bytes, registry: map<string, Session>)
    requires Json.Lawful(c)
    requires |c.dumps(RegisterMsg("alice", alicePub))| < Pow256(4) && |c.dumps(RegisterMsg("bob", bobPub))| < Pow256(4)
    requires |c.dumps(GetKeyMsg("bob"))| < Pow256(4) && |c.dumps(SendMsgMsg("bob", envelope))| < Pow256(4)
    requires fromBob == Stream([Emit(c, RegisterMsg("bob", bobPub))], Closed)
    requires fromAlice == Stream([Emit(c, RegisterMsg("alice", alicePub)), Emit(c, GetKeyMsg("bob")),
                                  Emit(c, SendMsgMsg("bob", envelope))], Closed)
    ensures toAlice == Emit(c, RegisteredMsg("alice")) + Emit(c, KeyResponseMsg(bobPub))
    ensures toBob == Emit(c, RegisteredMsg("bob")) + Emit(c, ForwardMsg("alice", envelope))
    ensures registry == map["bob" := Session(2, bobPub)]
  {
    var relay, s := Connected(c, alicePub, bobPub, fromAlice, fromBob);
    assert s.chunks == [Emit(c, GetKeyMsg("bob")), Emit(c, SendMsgMsg("bob", envelope))];
    s := ServeKeyRequest(relay, "alice", "bob", s);
    assert s.chunks == [Emit(c, SendMsgMsg("bob", envelope))];
    s := ServeForward(relay, "alice", "bob", envelope, s);
    toAlice, toBob := relay.Sent(1), relay.Sent(2);
    Leave(relay, 1, "alice", s);
    registry := relay.clients;
  }

  /** Alice's sender over the bytes the relay wrote to her connection. */
  method AliceRun(c: Codec, p: Primitives, alicePub: string, bobPub: string,
                  aesKey: Bytes, nonce: Bytes, seed: Bytes, replies: Stream)
    returns (registered: bool, written: Bytes)
    requires Json.Lawful(c) && bobPub != "" && |aesKey| == AesKeyLength && |nonce| == NonceLength
    requires Encrypt(p, bobPub, "hello", aesKey, nonce, seed).Some?
    requires |c.dumps(RegisterMsg("alice", alicePub))| < Pow256(4) && |c.dumps(GetKeyMsg("bob"))| < Pow256(4)
    requires |c.dumps(RegisteredMsg("alice"))| < Pow256(4) && |c.dumps(KeyResponseMsg(bobPub))| < Pow256(4)
    requires replies == Stream([Emit(c, RegisteredMsg("alice")) + Emit(c, KeyResponseMsg(bobPub))], Closed)
    ensures registered
    ensures written == Emit(c, RegisterMsg("alice", alicePub)) + Emit(c, GetKeyMsg("bob"))
                       + Emit(c, SendMsgMsg("bob", Encrypt(p, bobPub, "hello", aesKey, nonce, seed).value))
  {
    var keyReply: Chunk := Emit(c, KeyResponseMsg(bobPub));
    FrameThenMore(c.dumps(RegisteredMsg("alice")), keyReply, Closed);
    assert TypeOf(RegisteredMsg("alice")) == Some("registered");
    var alice := new Sender(c, p, "alice", alicePub);
    registered := alice.Connect(replies);
    KeyResponseDelivers(c, bobPub, alice.incoming, []);
    var _ := alice.SendEncryptedMessage("bob", "hello", aesKey, nonce, seed);
    written := alice.outgoing;
  }

  /** A single forwarded letter, sealed to the receiver, is shown and then the stream ends. */
  lemma OneLetterShown(c: Codec, p: Primitives, bobPub: string, bobPriv: string, letter: Letter)
    requires Json.Lawful(c) && Envelope.Lawful(p) && p.isKeyPair(bobPub, bobPriv)
    requires p.keyBytes(bobPub).value >= AesKeyLength + OaepOverhead && Sealable(letter)
    requires |c.dumps(Forwarded(p, bobPub, letter))| < Pow256(4)
    ensures Listen(c, p, bobPriv, Stream([Emit(c, Forwarded(p, bobPub, letter))], Closed)).0
            == [Delivered(letter.from, letter.plaintext)]
  {
    var forward := Emit(c, Forwarded(p, bobPub, letter));
    ForwardedShows(p, bobPub, bobPriv, letter);
    ListenStep(c, p, bobPriv, Forwarded(p, bobPub, letter), [], Closed);
    assert [forward] + [] == [forward];
    assert Listen(c, p, bobPriv, Stream([], Closed)).0 == [];
  }

  /** Bob's receiver over the bytes the relay wrote to his connection. */
  method BobRun(c: Codec, p: Primitives, bobPub: string, bobPriv: string, letter: Letter, replies: Stream)
    returns (registered: bool, written: Bytes, shown: seq<Shown>)
    requires Json.Lawful(c) && Envelope.Lawful(p) && p.isKeyPair(bobPub, bobPriv)
    requires p.keyBytes(bobPub).value >= AesKeyLength + OaepOverhead && Sealable(letter)
    requires |c.dumps(RegisterMsg("bob", bobPub))| < Pow256(4) && |c.dumps(RegisteredMsg("bob"))| < Pow256(4)
    requires |c.dumps(Forwarded(p, bobPub, letter))| < Pow256(4)
    requires replies == Stream([Emit(c, RegisteredMsg("bob")) + Emit(c, Forwarded(p, bobPub, letter))], Closed)
    ensures registered && written == Emit(c, RegisterMsg("bob", bobPub))
    ensures shown == [Delivered(letter.from, letter.plaintext)]
  {
    var forward: Chunk := Emit(c, Forwarded(p, bobPub, letter));
    FrameThenMore(c.dumps(RegisteredMsg("bob")), forward, Closed);
    assert TypeOf(RegisteredMsg("bob")) == Some("registered");
    var bob := new Receiver(c, p, "bob", bobPriv, bobPub);
    registered := bob.Connect(replies);
    written := bob.outgoing;
    OneLetterShown(c, p, bobPub, bobPriv, letter);
    bob.ListenForMessages();
    shown := bob.shown;
  }

  /**
   * The relay run over the frames the two clients write, each arriving as one
   * segment: what it heard on each connection and what it wrote back.
   */
  method RelayHears(c: Codec, alicePub: string, bobPub: string, envelope: string)
    returns (heardFromAlice: Bytes, heardFromBob: Bytes, toAlice: Bytes, toBob: Bytes,
             registry: map<string, Session>)
    requires Json.Lawful(c)
    requires |c.dumps(RegisterMsg("alice", alicePub))| < Pow256(4) && |c.dumps(RegisterMsg("bob", bobPub))| < Pow256(4)
    requires |c.dumps(GetKeyMsg("bob"))| < Pow256(4) && |c.dumps(SendMsgMsg("bob", envelope))| < Pow256(4)
    ensures heardFromAlice == Emit(c, RegisterMsg("alice", alicePub)) + Emit(c, GetKeyMsg("bob"))
                              + Emit(c, SendMsgMsg("bob", envelope))
    ensures heardFromBob == Emit(c, RegisterMsg("bob", bobPub))
    ensures toAlice == Emit(c, RegisteredMsg("alice")) + Emit(c, KeyResponseMsg(bobPub))
    ensures toBob == Emit(c, RegisteredMsg("bob")) + Emit(c, ForwardMsg("alice", envelope))
    ensures registry == map["bob" := Session(2, bobPub)]
  {
    var fromAlice: seq<Chunk> := [Emit(c, RegisterMsg("alice", alicePub)), Emit(c, GetKeyMsg("bob")),
                                  Emit(c, SendMsgMsg("bob", envelope))];
    var fromBob: seq<Chunk> := [Emit(c, RegisterMsg("bob", bobPub))];
    heardFromAlice, heardFromBob := Flatten(fromAlice), Flatten(fromBob);
    FlattenThree(fromAlice[0], fromAlice[1], fromAlice[2]);
    assert Flatten(fromBob) == fromBob[0] by { assert |fromBob[1..]| == 0; }
    toAlice, toBob, registry := RelayRun(c, alicePub, bobPub, envelope, Stream(fromAlice, Closed), Stream(fromBob, Closed));
  }

  /** Alice's envelope for bob exists and is what the relay's forward carries. */
  lemma SealedForBob(p: Primitives, bobPub: string, bobPriv: string, aesKey: Bytes, nonce: Bytes, seed: Bytes)
    requires Envelope.Lawful(p) && p.isKeyPair(bobPub, bobPriv)
    requires p.keyBytes(bobPub).value >= AesKeyLength + OaepOverhead
    requires |aesKey| == AesKeyLength && |nonce| == NonceLength
    ensures Encrypt(p, bobPub, "hello", aesKey, nonce, seed).Some?
    ensures Forwarded(p, bobPub, Letter("alice", "hello", aesKey, nonce, seed))
            == ForwardMsg("alice", Encrypt(p, bobPub, "hello", aesKey, nonce, seed).value)
  {
    RoundTrip(p, bobPub, bobPriv, "hello", aesKey, nonce, seed);
  }

  /**
   * The whole exchange. The relay hears on each connection exactly the bytes
   * that client writes, and each client reads exactly the relay's outbox for
   * its connection. Both registrations are confirmed, bob is shown alice's
   * plaintext, and after alice leaves only bob is registered.
   */
  method AliceToBob(c: Codec, p: Primitives, alicePub: string, bobPub: string, bobPriv: string,
                    aesKey: Bytes, nonce: Bytes, seed: Bytes)
    returns (aliceWrote: Bytes, heardFromAlice: Bytes, toAlice: Bytes,
             bobWrote: Bytes, heardFromBob: Bytes, toBob: Bytes,
             confirmed: bool, shown: seq<Shown>, registry: map<string, Session>)
    requires Json.Lawful(c) && Envelope.Lawful(p) && p.isKeyPair(bobPub, bobPriv) && bobPub != ""
    requires p.keyBytes(bobPub).value >= AesKeyLength + OaepOverhead
    requires |aesKey| == AesKeyLength && |nonce| == NonceLength
    requires var envelope := Forwarded(p, bobPub, Letter("alice", "hello", aesKey, nonce, seed)).fields["data"];
      && |c.dumps(RegisterMsg("alice", alicePub))| < Pow256(4) && |c.dumps(RegisterMsg("bob", bobPub))| < Pow256(4)
      && |c.dumps(RegisteredMsg("alice"))| < Pow256(4) && |c.dumps(RegisteredMsg("bob"))| < Pow256(4)
      && |c.dumps(GetKeyMsg("bob"))| < Pow256(4) && |c.dumps(KeyResponseMsg(bobPub))| < Pow256(4)
      && |c.dumps(SendMsgMsg("bob", envelope))| < Pow256(4) && |c.dumps(ForwardMsg("alice", envelope))| < Pow256(4)
    ensures heardFromAlice == aliceWrote && heardFromBob == bobWrote
    ensures confirmed && shown == [Delivered("alice", "hello")]
    ensures registry == map["bob" := Session(2, bobPub)]
  {
    var letter := Letter("alice", "hello", aesKey, nonce, seed);
    SealedForBob(p, bobPub, bobPriv, aesKey, nonce, seed);
    var envelope := Encrypt(p, bobPub, "hello", aesKey, nonce, seed).value;

    heardFromAlice, heardFromBob, toAlice, toBob, registry := RelayHears(c, alicePub, bobPub, envelope);

    // What the clients read: the relay's outbox for their connection, as one segment.
    var aliceConfirmed, bobConfirmed;
    aliceConfirmed, aliceWrote := AliceRun(c, p, alicePub, bobPub, aesKey, nonce, seed, Stream([toAlice], Closed));
    bobConfirmed, bobWrote, shown := BobRun(c, p, bobPub, bobPriv, letter, Stream([toBob], Closed));
    confirmed := aliceConfirmed && bobConfirmed;
  }
}
