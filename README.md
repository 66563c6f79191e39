# Encrypted relay: a verified model

This models a small chat relay written in Python and proves properties of the model. Three programs take part:

- The relay (`srever.py`) keeps a registry from username to (connection, public-key PEM).
- A sender (`sender.py`) registers, asks the relay for a recipient's public key and sends a hybrid-encrypted envelope.
- A receiver (`reciver.py`) registers and decrypts every forwarded envelope with its own private key.

The relay only passes each envelope on. The envelope is built by `crypto_utils.py`: RSA-OAEP for the AES key plus AES-GCM for the text, packed as `enc_aes_key ‖ nonce ‖ tag ‖ ciphertext` and base64-encoded. All three programs speak one wire protocol: a 4-byte big-endian length, then a UTF-8 JSON body.

## How the model is organised

| module | file | what it holds |
|---|---|---|
| `Wrappers` | wrappers.dfy | `Option` |
| `Octets` | octets.dfy | bytes; `int.from_bytes(…, 'big')` and `n.to_bytes(w, 'big')` |
| `Json` | json.dfy | the decoded JSON value and its Python truthiness; the JSON codec; the seven protocol messages |
| `Wire` | wire.dfy | the byte stream, one `recv(n)`, the framing loop and frame encoding |
| `Envelope` | envelope.dfy | `encrypt_message` / `decrypt_message`, with the cryptographic primitives abstracted |
| `Relay` | relay.dfy | the `Server` class: registry, outboxes, the atomic steps, `handle_client` |
| `Client` | client.dfy | the registration check both clients use |
| `SenderClient` | sender.dfy | the `Sender` class |
| `ReceiverClient` | receiver.dfy | the `Receiver` class and its listen loop |
| `Scenario` | scenario.dfy | alice sends "hello" to bob through the relay, end to end |

The abstractions are:

- **Socket input.** A socket's input is a `Wire.Stream`: a sequence of non-empty chunks plus what happens when they run out. `Closed` means `recv` returns `b''`; `Reset` means `recv` raises. `recv(n)` returns at most n bytes of the first chunk. Every pattern of partial reads a socket can produce is some chunking.
- **Socket output.** What a program writes is an append-only byte sequence: `Sender.outgoing`, `Receiver.outgoing`, and per connection the relay's `Server.outbox`.
- **Library calls.** JSON, RSA-OAEP, AES-GCM, base64 and UTF-8 are function-valued fields of `Json.Codec` and `Envelope.Primitives`. The only laws assumed of them are stated as predicates (`Json.Lawful`, `Envelope.Lawful`), and the lemmas that need them require them:
  - OAEP ciphertexts are k octets, as in section 7.1.1 of RFC 8017.
  - A message of at most k − 42 octets encrypts.
  - Both halves of a key pair import, with the same modulus size.
  - The private half of a key pair inverts encryption.
  - A GCM ciphertext is as long as its plaintext, and the tag is 16 bytes (NIST SP 800-38D).
  - GCM open inverts seal, and it succeeds only on a pair that seal produces.
  - Under one key and nonce, equal GCM ciphertexts come from equal plaintexts: counter mode XORs the plaintext with a keystream fixed by the key and nonce. `Envelope.TamperedTagRejected` uses this law.
  - base64 decoding inverts encoding (section 4 of RFC 4648), and so does UTF-8 decoding.
- **Randomness.** The random AES key, the nonce and the OAEP seed are parameters.
- **Locking.** Each `with self.lock:` block is one method of `Relay.Server`. A whole `handle_client` run on one connection is `Relay.Server.HandleClient`.

Some specification functions carry no contract of their own; the methods and lemmas below are proved against them. `Json.Index` and `Json.TypeOf` do have `ensures` clauses, but those clauses only spell out the body; they help the verifier and are not claims about the source. The lemmas `ReceiverClient.ListenByTurn` (`Listen` unfolded once) and `ReceiverClient.Regroup` (sequence associativity) serve the same purpose for `ReceiverClient.Receiver.ListenForMessages`.

- `Wire.ReadFrame` (`srever.py:74-89`, `sender.py:36-48`, `reciver.py:35-46`) is what one `recv_message` reads. The header is exactly what the single `recv(4)` returns. The body is the next `msg_len` bytes of the stream, however they are chunked.
- `Wire.ReadBody` is the body of a frame, or how the stream ran out before it.
- `Wire.Decoded` turns a frame read into a received message, end of stream, or an exception.
- `Json.Index` is `msg[key]` (`srever.py:51`): the key's value on an object holding it, otherwise None where Python raises. `Json.TypeOf` is `msg.get('type')` (`srever.py:48`).
- `Relay.ServerView` (`srever.py:88-89`) is the relay's `recv_message`: the decoded value, or None for every error and for end of stream.
- `Client.Confirmed` (`sender.py:25-28`) is the registration test: the reply is a truthy object of type 'registered'.
- `Envelope.Decrypt` (`crypto_utils.py:38-61`) is `decrypt_message`: base64-decode, then open the package. `Envelope.DecryptEncoded` and `Envelope.RoundTrip` state what it does.
- `Envelope.AesAccepts` (`crypto_utils.py:59`) is what `AES.new` checks before it can raise: a 16-, 24- or 32-byte key and a non-empty nonce.
- `Envelope.Pack` and `Envelope.Unpack` (`crypto_utils.py:35`, `crypto_utils.py:48-52`) are the packing and the slicing.
- `Relay.Server.FirstRegistration` (`srever.py:18-22`) is the registration a handler performs on its input stream, if any: `Relay.RegistrationOf` of the first frame the relay reads. `Relay.Server.HandleClient`'s contract is stated in its terms.
- `Relay.Server.AfterSend` is the outboxes after one `send_message`.
- `Relay.Server.ServedGetKey` and `Relay.Server.ServedSendMsg` are the state a handled `get_key` / `send_msg` leaves behind.
- `SenderClient.Sender.KeyLookup` is the request and reply of `get_public_key`.
- `ReceiverClient.Forwarded` is the relay's 'forward_msg' (`srever.py:68-69`) for a letter sealed under a public key with `encrypt_message`. It is the input of every end-to-end receiver lemma.
- `ReceiverClient.Listen` is the whole listen loop over a stream, `ReceiverClient.Turn` after `ReceiverClient.Turn`.

## Model

| member | source | states |
|---|---|---|
| Octets.FromBigEndian | srever.py:80 | `int.from_bytes(raw, 'big')` of any number of bytes is below 256^len |
| Octets.ToBigEndian | srever.py:95 | `n.to_bytes(w, 'big')` is exactly w bytes, defined only for n < 256^w |
| Octets.FromToBigEndian | srever.py:95 | decoding an encoded length gives the length back |
| Octets.ToFromBigEndian | srever.py:80 | encoding a decoded prefix gives the same bytes: the two are inverse bijections |
| Wire.Recv | srever.py:83 | one `recv(n)` raises only on a reset stream with nothing left, returns at most n bytes, returns b'' exactly at end of stream, and consumes exactly the bytes it returns |
| Wire.Drop | srever.py:86 | consuming n bytes leaves exactly the stream's bytes after the n-th, and keeps how the stream ends |
| Wire.DropDrop | srever.py:82-86 | consuming a bytes and then b bytes is consuming a + b bytes |
| Wire.RecvIsDrop | srever.py:83-86 | a non-empty `recv` consumes exactly the bytes it returns |
| Wire.ReceiveBody | srever.py:81-86 | the body loop keeps `len(data) <= msg_len` and `data` a prefix of what arrives. It ends with exactly the next `msg_len` bytes, or reports truncation or a socket error when the stream ends first |
| Wire.ReceiveFrame | srever.py:76-86 | one `recv_message` read is `ReadFrame`: b'' from `recv(4)` is no message; otherwise the header is whatever that one `recv(4)` returned |
| Wire.ReadFrameShrinks | srever.py:31-35 | a successful frame read consumes at least one byte, so the request loops terminate |
| Wire.EncodeFrame | srever.py:94-96 | the frame exists exactly when the body is shorter than 2^32 bytes. It is then 4 + len(body) bytes ending with the body |
| Wire.FrameRoundTrip | srever.py:74-98 | a frame whose header arrives whole is read back as exactly its body, however the body is chunked, and the bytes after it are left |
| Wire.WholeFrameSegment | sender.py:30-48 | a frame that arrives as one segment is read exactly, and the later segments are untouched |
| Wire.FrameThenMore | sender.py:36-48 | when more bytes follow a frame in the same segment, the frame is read as exactly its body and the rest of the segment stays unread |
| Wire.ShortHeaderMisframes | srever.py:77-80 | the header is taken from a single `recv(4)`: when the frame for body [7] arrives split after two bytes, it is read as an empty body |
| Wire.Emit | srever.py:91-98 | `send_message` writes nothing exactly when the body has 2^32 bytes or more |
| Wire.MessageRoundTrip | reciver.py:30-46 | a value sent by `send_message` is received by `recv_message` as that value when its header arrives whole |
| Envelope.Slice | crypto_utils.py:49-51 | Python `s[lo:hi]`: clamped to the sequence, empty past its end, and element-wise the sequence from `lo` |
| Envelope.SliceFrom | crypto_utils.py:52 | Python `s[lo:]`, clamped the same way |
| Envelope.UnpackPack | crypto_utils.py:48-52 | fields of lengths k, 12 and 16 plus any ciphertext are recovered exactly by slicing at k, k+12 and k+28 |
| Envelope.PackUnpack | crypto_utils.py:49-52 | any package, however short, is the concatenation of its four slices |
| Envelope.Encrypt | crypto_utils.py:13-36 | `encrypt_message` with a 32-byte AES key and a 12-byte nonce succeeds exactly when the PEM imports and OAEP accepts the AES key |
| Envelope.OpenPackage | crypto_utils.py:45-61 | opening fails when the private PEM does not import. When it succeeds, OAEP recovered a key from the first k bytes and GCM verified the tag |
| Envelope.DecryptEncoded | crypto_utils.py:43 | base64 is transparent: `decrypt_message` of the encoding of a package is exactly the opening of that package |
| Envelope.EnvelopeLayout | crypto_utils.py:27-35 | the package is k + 28 + len(utf8(plaintext)) bytes, and slicing it gives back `enc_aes_key`, `nonce`, `tag`, `ciphertext` in that order |
| Envelope.RoundTrip | crypto_utils.py:13-61 | with a matching key pair of at least 74 bytes, `decrypt_message(priv, encrypt_message(pub, p)) == p` |
| Envelope.TamperedTagRejected | crypto_utils.py:59-61 | replacing the tag of a package that opens by any other 16 bytes makes `decrypt_and_verify` fail, so no plaintext is returned |
| Relay.RegistrationOf | srever.py:18-22 | the handler registers exactly when the first frame is an object of type 'register' holding 'username' and 'public_key', and registers those two values |
| Relay.RequestOf | srever.py:46-72 | `process_request` answers 'get_key' with a 'username' and 'send_msg' with 'to' and 'data'. It silently ignores every other type, and it raises on a non-object or a missing field |
| Relay.CleanupRegistry | srever.py:40-42 | corrected cleanup: a name is removed exactly when this handler registered it, whichever connection now holds it; every other entry is kept unchanged |
| Relay.CleanupKeepsRoutesLive | srever.py:40-43 | after the corrected cleanup and `conn.close()`, every registry entry still routes to an open connection whose handler registered that name |
| Relay.ClaimedNameAsWritten | srever.py:18-22 | as written, `username` is set exactly when the first frame has type 'register' and a 'username' field, and it is that field, with or without 'public_key'. It agrees with the registration whenever one happens |
| Relay.CleanupAsWritten | srever.py:41-42 | as written, a name leaves the registry exactly when it is the claimed name and is not "": "" is never removed, and the other entries keep their sessions |
| Relay.MalformedRegisterEvictsAsWritten | srever.py:21-22 | as written, for every registry and every 'register' frame that claims a registered non-empty name but lacks 'public_key', nothing is registered, yet the cleanup deletes that name's entry. The corrected cleanup keeps the registry |
| Relay.MalformedRegisterEvictsBob | srever.py:21-22 | the eviction on one input: bob is live on connection 7, and a second connection's `{"type": "register", "username": "bob"}` deletes his entry |
| Relay.EmptyNameDanglesAsWritten | srever.py:41 | as written, an entry registered under "" survives its handler and routes to a closed connection; the corrected cleanup removes it |
| Relay.Server.constructor | srever.py:6-10 | an empty registry and no connections; no dangling routes |
| Relay.Server.SendMessage | srever.py:91-98 | appends the frame to the connection's outbox. It writes nothing when encoding overflows or the connection is closed, and the error is swallowed |
| Relay.Server.RecvMessage | srever.py:74-89 | the relay's read is the frame read with every error mapped to None; a successful read consumes input |
| Relay.Server.Register | srever.py:23-24 | `clients[username] = (conn, public_key)`, overwriting any entry of that name; other entries are unchanged; no dangling routes |
| Relay.Server.GetKey | srever.py:52-59 | for a present target, sends 'key_response' with exactly `clients[target][1]` to `clients[sender][0]`; otherwise 'error' "User not found" there. It raises when the sender has no entry, and the registry is unchanged |
| Relay.Server.SendMsg | srever.py:65-72 | for a present target, appends 'forward_msg' with the sender and the data unchanged to the target's connection only. Otherwise it sends 'error' "Recipient not online" to `clients[sender][0]`, or raises when the sender has no entry |
| Relay.Server.ProcessRequest | srever.py:46-72 | dispatches by `RequestOf`. Unknown types send nothing and do not raise; malformed requests raise; the registry never changes |
| Relay.Server.Cleanup | srever.py:40-43 | corrected cleanup: removes the name this handler registered, "" included, closes the connection, and keeps every route live |
| Relay.Server.ServeRequests | srever.py:31-35 | the request loop leaves the registry unchanged and only appends to outboxes |
| Relay.Server.RunSession | srever.py:23-43 | once the first frame registered a name: 'registered' goes to `conn` first. After the requests and the cleanup exactly that name is gone from the registry, `conn` is closed, outboxes only grow, and no route dangles |
| Relay.Server.HandleClient | srever.py:12-44 | without a valid first 'register' frame, the registry and outboxes are unchanged. Otherwise 'registered' with the username goes first to `conn`, and afterwards the name is gone from the registry. `conn` is closed on every path, and no route dangles |
| Client.AcknowledgementConfirms | reciver.py:25-28 | the relay's 'registered' acknowledgement, received whole, confirms the registration |
| SenderClient.KeyReplyOf | sender.py:53-59 | `get_public_key` returns `resp['public_key']` exactly on a 'key_response' that has one. It raises on a socket or decoding error, on a truthy non-object, or on a 'key_response' / 'error' missing its field; otherwise it returns None |
| SenderClient.KeyResponseDelivers | sender.py:50-55 | the relay's 'key_response' reaches the sender as exactly the key the relay sent |
| SenderClient.ErrorReplyGivesNoKey | sender.py:56-58 | the relay's 'error' reply makes `get_public_key` return None |
| SenderClient.Sender.constructor | sender.py:7-12 | a sender with its name and key and an unused socket |
| SenderClient.Sender.SendMessage | sender.py:30-34 | writes the frame; a body of 2^32 bytes or more raises before anything is written |
| SenderClient.Sender.RecvMessage | sender.py:36-48 | reads one frame: None at end of stream or on a truncated body; socket and decoding errors raise |
| SenderClient.Sender.Connect | sender.py:14-28 | writes exactly the 'register' frame with the username and public key, and succeeds exactly when the reply is confirmed |
| SenderClient.Sender.GetPublicKey | sender.py:50-59 | writes the 'get_key' frame for the target and returns the reply classified by `KeyReplyOf` |
| SenderClient.Sender.SendEncryptedMessage | sender.py:61-74 | with no key or an empty key, nothing is written after 'get_key'. Otherwise it writes 'send_msg' to the target carrying exactly `encrypt_message(key, plaintext)`. It fails when lookup, encryption or framing raises |
| ReceiverClient.ActionOf | reciver.py:55-62 | a 'forward_msg' is shown exactly when it has 'from' and 'data' and the data decrypts, and it shows that sender and plaintext. An 'error' with a 'message' is shown exactly as that message; other types are skipped; everything else raises and stops the loop |
| ReceiverClient.Turn | reciver.py:50-65 | one turn reads exactly one frame and leaves the stream after it. It goes on exactly when a truthy message was decoded and its action does not raise. So it stops at end of stream, on a truncated frame, on a socket or decoding error, on a falsy message, and when the action raises. When it goes on, it shows exactly what the action shows and has consumed input; when it stops, it shows nothing |
| ReceiverClient.ListenStopsAtEnd | reciver.py:52-54 | once the stream has run out, whether `recv` returns b'' or raises, the loop shows nothing more and leaves the stream as it is |
| ReceiverClient.ListenStep | reciver.py:50-65 | one message arriving as one segment is handled as its action says, and the loop goes on to the next segment unless it stops |
| ReceiverClient.Deliveries | reciver.py:60 | one line per letter, in order |
| ReceiverClient.ForwardedShows | reciver.py:55-60 | a forwarded envelope sealed under the receiver's public key shows its sender and plaintext |
| ReceiverClient.ForwardedStep | reciver.py:55-60 | a segment holding the relay's 'forward_msg' for an envelope sealed to the receiver shows that sender and plaintext, and the loop goes on to the next segment |
| ReceiverClient.ListenDeliversAll | reciver.py:48-65 | when every segment is the relay's 'forward_msg' for an envelope sealed to the receiver, the loop shows every sender and plaintext, in order |
| ReceiverClient.Receiver.constructor | reciver.py:7-13 | a receiver with its name and key pair, an unused socket and nothing shown |
| ReceiverClient.Receiver.SendMessage | reciver.py:30-33 | writes the frame; a body of 2^32 bytes or more raises before anything is written |
| ReceiverClient.Receiver.RecvMessage | reciver.py:35-46 | reads one frame: None at end of stream or on a truncated body; socket and decoding errors raise |
| ReceiverClient.Receiver.Connect | reciver.py:15-28 | writes exactly the 'register' frame and succeeds exactly when the reply is confirmed |
| ReceiverClient.Receiver.HandleNext | reciver.py:51-65 | one turn of the loop: it shows, goes on and leaves the stream exactly as `Turn` says |
| ReceiverClient.Receiver.ListenForMessages | reciver.py:48-65 | the loop shows exactly what `Listen` yields for the incoming stream and stops where it stops: at end of stream, on a falsy message, or on any exception including a failed decryption |
| Scenario.Accept | srever.py:18-28 | a 'register' frame arriving as one segment registers the name to `conn` and appends 'registered' to `conn`'s outbox; nothing else changes and the next segment is left |
| Scenario.ServeKeyRequest | srever.py:31-35 | a 'get_key' for a registered user appends a 'key_response' with that user's key to the requester's connection only |
| Scenario.ServeForward | srever.py:31-35 | a 'send_msg' to a registered user appends a 'forward_msg' from the sender, with the data unchanged, to the target's connection only |
| Scenario.Leave | srever.py:32-43 | when the connection's stream has ended, the handler's name leaves the registry and `conn` is closed |
| Scenario.Connected | srever.py:18-28 | after bob and then alice register, the registry maps each to its connection and key, and each outbox holds just its 'registered' frame |
| Scenario.RelayRun | srever.py:12-72 | the relay over alice's three frames and bob's one: alice is sent 'registered' then bob's key, bob 'registered' then alice's forward, and only bob stays registered |
| Scenario.RelayHears | srever.py:74-87 | the bytes the relay reads on each connection are exactly those frames in order |
| Scenario.SealedForBob | crypto_utils.py:13-36 | alice's envelope for bob exists and is what the relay's forward carries |
| Scenario.AliceRun | sender.py:61-74 | alice, reading the relay's outbox for her connection, registers, then writes 'get_key' for bob and 'send_msg' carrying the envelope for bob's key |
| Scenario.OneLetterShown | reciver.py:55-60 | one forwarded letter sealed to bob, then end of stream, shows exactly that letter |
| Scenario.BobRun | reciver.py:48-65 | bob, reading the relay's outbox for his connection, registers, and his listen loop shows exactly alice's letter |
| Scenario.AliceToBob | sender.py:61-74 | end to end: the relay hears on each connection exactly what that client wrote. Both registrations are confirmed, bob is shown exactly `Delivered("alice", "hello")`, and after alice leaves only bob is registered |

## Left out

- Sockets, `bind`/`listen`/`accept` and thread spawning (`Server.start`) are not modelled. Connections are ids, input is a `Wire.Stream` parameter and output is an append-only byte sequence.
- `threading.Lock` and concurrency are not modelled. Each locked block is one atomic method; interleavings of several handlers are not explored.
- Key generation, the internals of RSA-OAEP, AES-GCM, base64, UTF-8 and JSON are not modelled. They are abstract functions with the laws listed above.
- Partial writes by `conn.send` (send versus sendall) are not modelled. A send appends the whole frame.
- A peer that closed its side is modelled only for the relay's own closed connections. For those, `send_message` writes nothing (the error is swallowed). A client writing to a reset socket is not modelled.
- `print` logging, `input()` prompts, `KeyboardInterrupt` and `run()` are not modelled. Usernames and keys are parameters, and the receiver's printed lines are the `shown` list.
- JSON field values other than strings are not modelled: a field holding a number, a list or an object. Every non-object JSON value is a `Scalar` that remembers only its truthiness.
- That a changed ciphertext or nonce fails to open is left out: that is a computational property of GCM, not a law of its interface. Only a replaced tag is proved to be rejected.
- Relay.Server.HandleClient: uses the corrected cleanup (`Relay.CleanupRegistry`) rather than lines 40-42 as written. The as-written behaviour is modelled separately; see Findings.
- Relay.Server.ServeRequests: states only that the registry is unchanged and outboxes only grow. What each request sends is stated per step by `Relay.Server.ProcessRequest`, not composed over the loop.
- Relay.Server.RunSession: uses the corrected cleanup, so it removes the registered name even when that name is "". The replies of its request loop are stated per request only (`Relay.Server.ProcessRequest`); its contract says only that 'registered' is written to `conn` first and that outboxes only grow.
- Relay.Server.HandleClient: for a registered handler, states that the 'registered' frame is the first thing written to `conn`. Later replies are described per request only.
- Scenario.RelayRun: drives the relay through its steps (`RecvMessage`, `Register`, `SendMessage`, `ProcessRequest`, `Cleanup`) in the order `handle_client` runs them, not through `Relay.Server.HandleClient` whole. HandleClient's contract does not say what each request sends.
- Scenario.AliceToBob: covers one interleaving, in which bob registers first and alice's connection ends while bob's is still open. Bob's own disconnection is not run.

The protocol's header is four bytes, but the code takes whatever a single `recv(4)` returns, so a header split across segments misframes. The model follows the code (`Wire.ReadFrame`, `Wire.ShortHeaderMisframes`), and the round-trip lemmas require the header to arrive whole.

## Findings

| source | as written | input that shows it | evidently intended | confidence | as-written member | corrected member |
|---|---|---|---|---|---|---|
| srever.py:21-22 | `username` is assigned before `data['public_key']` can raise, so the `finally` cleanup deletes that name even though this handler registered nothing | bob is registered; a second connection sends `{"type": "register", "username": "bob"}`; bob's live entry is deleted | cleanup removes only the name this handler registered | not executed | Relay.MalformedRegisterEvictsAsWritten | Relay.Server.HandleClient |
| srever.py:41 | `if username and …` is false for the empty username, so an entry registered under "" is never removed | a client registers with username "" and disconnects; the registry keeps routing "" to the closed connection | every registered name is removed when its handler ends | not executed | Relay.EmptyNameDanglesAsWritten | Relay.Server.HandleClient |
