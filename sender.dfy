/**
 * The sending client of sender.py: registration, the public-key request and
 * the encrypted send. `self.sock` is modelled by its two directions: the
 * stream of bytes still to arrive from the relay and the bytes written so far.
 */
module SenderClient {
  import opened Wrappers
  import opened Octets
  import opened Json
  import opened Wire
  import opened Envelope
  import opened Client

  /** What `get_public_key` returns, or that it raised. */
  datatype KeyReply = PublicKey(pem: string) | NoKey | Failed

  /**
   * Lines 53-59: `resp['public_key']` on a 'key_response'; None on an 'error'
   * (after printing `resp['message']`, which must exist) and on anything else.
   */
  function KeyReplyOf(r: Received): (k: KeyReply)
    ensures k.PublicKey? <==> r.Message? && r.value.Object? && TypeOf(r.value) == Some("key_response")
                              && "public_key" in r.value.fields
    ensures k.PublicKey? ==> k.pem == r.value.fields["public_key"]
    ensures k.Failed? <==>
              || r.Exception?
              || (r.Message? && Truthy(r.value) &&
                  (|| r.value.Scalar?
                   || (TypeOf(r.value) == Some("key_response") && "public_key" !in r.value.fields)
                   || (TypeOf(r.value) == Some("error") && "message" !in r.value.fields)))
  {
    match r
    case Exception => Failed
    case NoMessage => NoKey
    case Message(v) =>
      if !Truthy(v) then NoKey
      else if v.Scalar? then Failed
      else if TypeOf(v) == Some("key_response") then
        (match Index(v, "public_key") case Some(pk) => PublicKey(pk) case None => Failed)
      else if TypeOf(v) == Some("error") then
        (match Index(v, "message") case Some(_) => NoKey case None => Failed)
      else NoKey
  }

  /** The relay's 'key_response' reaches the sender as exactly the key it sent. */
  lemma KeyResponseDelivers(c: Codec, publicKey: string, s: Stream, more: Bytes)
    requires Json.Lawful(c) && |c.dumps(KeyResponseMsg(publicKey))| < Pow256(4)
    requires s.chunks != [] && |s.chunks[0]| >= 4
    requires Flatten(s.chunks) == Emit(c, KeyResponseMsg(publicKey)) + more
    ensures KeyReplyOf(Decoded(c, ReadFrame(s).0)) == PublicKey(publicKey)
  {
    MessageRoundTrip(c, KeyResponseMsg(publicKey), s, more);
    assert TypeOf(KeyResponseMsg(publicKey)) == Some("key_response");
  }

  /** The relay's 'error' reply makes `get_public_key` return None. */
  lemma ErrorReplyGivesNoKey(c: Codec, message: string, s: Stream, more: Bytes)
    requires Json.Lawful(c) && |c.dumps(ErrorMsg(message))| < Pow256(4)
    requires s.chunks != [] && |s.chunks[0]| >= 4
    requires Flatten(s.chunks) == Emit(c, ErrorMsg(message)) + more
    ensures KeyReplyOf(Decoded(c, ReadFrame(s).0)) == NoKey
  {
    MessageRoundTrip(c, ErrorMsg(message), s, more);
    assert TypeOf(ErrorMsg(message)) == Some("error");
  }

  class Sender {
    const codec: Codec
    const prims: Primitives
    const username: string
    const publicKeyPem: string
    /** What the relay has yet to deliver on the socket. */
    var incoming: Stream
    /** Every byte written to the socket. */
    var outgoing: Bytes

    /** The request and the reply of `get_public_key(target)` on the stream s: the reply and what is left of s. */
    function KeyLookup(s: Stream, target: string): (KeyReply, Stream)
      reads this
    {
      if |codec.dumps(GetKeyMsg(target))| >= Pow256(4) then (Failed, s)
      else (KeyReplyOf(Decoded(codec, ReadFrame(s).0)), ReadFrame(s).1)
    }

    /** The username comes from `input()` and the key pair from generate_rsa_keypair. */
    constructor(codec: Codec, prims: Primitives, username: string, publicKeyPem: string)
      ensures this.codec == codec && this.prims == prims
      ensures this.username == username && this.publicKeyPem == publicKeyPem
      ensures incoming == Stream([], Closed) && outgoing == []
    {
      this.codec, this.prims := codec, prims;
      this.username, this.publicKeyPem := username, publicKeyPem;
      incoming, outgoing := Stream([], Closed), [];
    }

    /** Lines 30-34: write the frame; a body of 2^32 bytes or more raises before anything is written. */
    method SendMessage(v: Value) returns (ok: bool)
      modifies this`outgoing
      ensures ok <==> |codec.dumps(v)| < Pow256(4)
      ensures outgoing == old(outgoing) + Emit(codec, v)
    {
      var frame := EncodeFrame(codec.dumps(v));
      if frame.None? {
        return false;
      }
      outgoing := outgoing + frame.value;
      return true;
    }

    /** Lines 36-48: None at end of stream; socket and decoding errors raise. */
    method RecvMessage() returns (r: Received)
      modifies this`incoming
      ensures r == Decoded(codec, ReadFrame(old(incoming)).0) && incoming == ReadFrame(old(incoming)).1
    {
      var out, rest := ReceiveFrame(incoming);
      incoming := rest;
      r := Decoded(codec, out);
    }

    /** Lines 14-28: send 'register' and succeed only on a 'registered' reply; `replies` is what the relay will send. */
    method Connect(replies: Stream) returns (ok: bool)
      modifies this`incoming, this`outgoing
      ensures outgoing == Emit(codec, RegisterMsg(username, publicKeyPem))
      ensures |codec.dumps(RegisterMsg(username, publicKeyPem))| >= Pow256(4) ==> !ok && incoming == replies
      ensures |codec.dumps(RegisterMsg(username, publicKeyPem))| < Pow256(4) ==>
        ok == Confirmed(Decoded(codec, ReadFrame(replies).0)) && incoming == ReadFrame(replies).1
    {
      incoming, outgoing := replies, [];
      var sent := SendMessage(RegisterMsg(username, publicKeyPem));
      if !sent {
        return false;
      }
      var resp := RecvMessage();
      ok := Confirmed(resp);
    }

    /** Lines 50-59: send 'get_key' for the target and classify the reply. */
    method GetPublicKey(target: string) returns (k: KeyReply)
      modifies this`incoming, this`outgoing
      ensures outgoing == old(outgoing) + Emit(codec, GetKeyMsg(target))
      ensures (k, incoming) == KeyLookup(old(incoming), target)
    {
      var sent := SendMessage(GetKeyMsg(target));
      if !sent {
        return Failed;
      }
      var resp := RecvMessage();
      k := KeyReplyOf(resp);
    }

    /**
     * Lines 61-74: fetch the target's key; without one (None or an empty
     * string) send nothing further; otherwise send the envelope in 'send_msg'.
     * The AES key, nonce and OAEP seed are the random bytes the source draws.
     */
    method SendEncryptedMessage(target: string, plaintext: string, aesKey: Bytes, nonce: Bytes, seed: Bytes)
      returns (ok: bool)
      requires |aesKey| == AesKeyLength && |nonce| == NonceLength
      modifies this`incoming, this`outgoing
      ensures incoming == KeyLookup(old(incoming), target).1
      ensures var k := KeyLookup(old(incoming), target).0;
        var asked := old(outgoing) + Emit(codec, GetKeyMsg(target));
        && (k.Failed? ==> !ok && outgoing == asked)
        && ((k.NoKey? || k == PublicKey("")) ==> ok && outgoing == asked)
        && (k.PublicKey? && k.pem != "" ==>
              var envelope := Encrypt(prims, k.pem, plaintext, aesKey, nonce, seed);
              && (envelope.None? ==> !ok && outgoing == asked)
              && (envelope.Some? ==>
                    && outgoing == asked + Emit(codec, SendMsgMsg(target, envelope.value))
                    && (ok <==> |codec.dumps(SendMsgMsg(target, envelope.value))| < Pow256(4))))
    {
      var k := GetPublicKey(target);
      if k.Failed? {
        return false;
      }
      if k.NoKey? || k.pem == "" {
        return true;
      }
      var envelope := Encrypt(prims, k.pem, plaintext, aesKey, nonce, seed);
      if envelope.None? {
        return false;
      }
      ok := SendMessage(SendMsgMsg(target, envelope.value));
    }
  }
}
