/** What sender.py and reciver.py share beyond the framing: the registration handshake check. */
module Client {
  import opened Wrappers
  import opened Octets
  import opened Json
  import opened Wire

  /**
   * `resp and resp.get('type') == 'registered'` in `connect` (lines 25-28 of
   * both clients); anything else raises "Registration failed", and `.get` on a
   * truthy non-object raises too.
   */
  predicate Confirmed(r: Received) {
    r.Message? && Truthy(r.value) && r.value.Object? && TypeOf(r.value) == Some("registered")
  }

  /** The relay's acknowledgement, received with its header whole, confirms the registration. */
  lemma AcknowledgementConfirms(c: Codec, username: string, s: Stream, more: Bytes)
    requires Lawful(c) && |c.dumps(RegisteredMsg(username))| < Pow256(4)
    requires s.chunks != [] && |s.chunks[0]| >= 4
    requires Flatten(s.chunks) == Emit(c, RegisteredMsg(username)) + more
    ensures Confirmed(Decoded(c, ReadFrame(s).0))
  {
    MessageRoundTrip(c, RegisteredMsg(username), s, more);
    assert TypeOf(RegisteredMsg(username)) == Some("registered");
  }
}
