/**
 * The relay of srever.py: the registry `Server.clients` (username to
 * connection and public-key PEM), the per-connection handler and request
 * dispatch. Each `with self.lock:` block is one atomic method; a whole
 * handler run is `HandleClient`. Connections are ids; what the relay has
 * written to each is its outbox of bytes.
 */
module Relay {
  import opened Wrappers
  import opened Octets
  import opened Json
  import opened Wire

  type ConnId = nat

  /** One registry entry: `(conn, public_key)`. */
  datatype Session = Session(conn: ConnId, publicKey: string)

  /**
   * No dangling routes: every entry routes to an open connection, and that
   * connection's handler is the one that registered the entry's name.
   */
  ghost predicate LiveRoutes(clients: map<string, Session>, owner: map<ConnId, string>, closed: set<ConnId>) {
    forall u :: u in clients ==>
      clients[u].conn !in closed && clients[u].conn in owner && owner[clients[u].conn] == u
  }

  /** `recv_message` of the relay maps every error, and end of stream, to None. */
  function ServerView(r: Received): Option<Value> {
    if r.Message? then Some(r.value) else None
  }

  /**
   * The registration the first frame asks for, as (username, public key); None
   * when the handler returns or raises before line 24: no frame, a falsy or
   * non-object value, a type other than 'register', or a missing field.
   */
  function RegistrationOf(first: Option<Value>): (r: Option<(string, string)>)
    ensures r.Some? <==> first.Some? && Index(first.value, "type") == Some("register")
                         && Index(first.value, "username").Some? && Index(first.value, "public_key").Some?
    ensures r.Some? ==> r.value == (first.value.fields["username"], first.value.fields["public_key"])
  {
    match first
    case None => None
    case Some(v) =>
      if !Truthy(v) || Index(v, "type") != Some("register") then None
      else
        match (Index(v, "username"), Index(v, "public_key"))
        case (Some(u), Some(k)) => Some((u, k))
        case _ => None
  }

  /** What `process_request` does with a message. */
  datatype Request =
    | KeyRequest(target: string)            // 'get_key' with a 'username'
    | Forward(to: string, data: string)     // 'send_msg' with 'to' and 'data'
    | Ignored                               // any other type, or none: no else branch
    | Malformed                             // `.get` on a non-object, or a missing field: raises

  function RequestOf(msg: Value): (r: Request)
    ensures r.KeyRequest? <==> msg.Object? && TypeOf(msg) == Some("get_key") && "username" in msg.fields
    ensures r.Forward? <==> msg.Object? && TypeOf(msg) == Some("send_msg") && "to" in msg.fields && "data" in msg.fields
    ensures r.Ignored? <==> msg.Object? && TypeOf(msg) != Some("get_key") && TypeOf(msg) != Some("send_msg")
    ensures r.KeyRequest? ==> r.target == msg.fields["username"]
    ensures r.Forward? ==> r.to == msg.fields["to"] && r.data == msg.fields["data"]
  {
    if msg.Scalar? then Malformed
    else if TypeOf(msg) == Some("get_key") then
      (match Index(msg, "username") case Some(t) => KeyRequest(t) case None => Malformed)
    else if TypeOf(msg) == Some("send_msg") then
      (match (Index(msg, "to"), Index(msg, "data"))
       case (Some(t), Some(d)) => Forward(t, d)
       case _ => Malformed)
    else Ignored
  }

  /**
   * The registry after the cleanup of lines 40-42, as intended: the name is
   * removed exactly when this handler registered it, whichever connection
   * now owns the entry; every other entry is kept as it was.
   */
  function CleanupRegistry(clients: map<string, Session>, registered: Option<string>): (r: map<string, Session>)
    ensures forall u :: u in r <==> u in clients && registered != Some(u)
    ensures forall u :: u in r ==> r[u] == clients[u]
  {
    if registered.Some? then clients - {registered.value} else clients
  }

  /** Corrected cleanup keeps every route live once the handler's connection is closed. */
  lemma CleanupKeepsRoutesLive(clients: map<string, Session>, owner: map<ConnId, string>, closed: set<ConnId>,
                               conn: ConnId, registered: Option<string>)
    requires LiveRoutes(clients, owner, closed)
    requires registered == (if conn in owner then Some(owner[conn]) else None)
    ensures LiveRoutes(CleanupRegistry(clients, registered), owner, closed + {conn})
  {
    var r := CleanupRegistry(clients, registered);
    forall u | u in r
      ensures r[u].conn != conn
    {
      assert clients[u].conn in owner && owner[clients[u].conn] == u;
    }
  }

  /** The value `username` holds when the `finally` block runs, as written: line 21 assigns it before line 22 can raise. */
  function ClaimedNameAsWritten(first: Option<Value>): (r: Option<string>)
    ensures r.Some? <==> first.Some? && Index(first.value, "type") == Some("register")
                         && Index(first.value, "username").Some?
    ensures r.Some? ==> r.value == first.value.fields["username"]
    ensures RegistrationOf(first).Some? ==> r == Some(RegistrationOf(first).value.0)
  {
    match first
    case None => None
    case Some(v) =>
      if !Truthy(v) || Index(v, "type") != Some("register") then None else Index(v, "username")
  }

  /** Lines 40-42 as written: `if username and username in self.clients: del self.clients[username]`. */
  function CleanupAsWritten(clients: map<string, Session>, username: Option<string>): (r: map<string, Session>)
    ensures forall u :: u in r <==> u in clients && (username != Some(u) || u == "")
    ensures forall u :: u in r ==> r[u] == clients[u]
  {
    if username.Some? && username.value != "" && username.value in clients then clients - {username.value}
    else clients
  }

  /**
   * As written, a handler whose register frame names a non-empty user but
   * lacks 'public_key' was never registered, yet its cleanup deletes that
   * user's live entry, whichever connection holds it. The corrected cleanup
   * leaves the registry as it was.
   */
  lemma MalformedRegisterEvictsAsWritten(frame: Value, clients: map<string, Session>)
    requires Index(frame, "type") == Some("register") && Index(frame, "public_key").None?
    requires Index(frame, "username").Some? && Index(frame, "username").value != ""
    requires Index(frame, "username").value in clients
    ensures RegistrationOf(Some(frame)).None?
    ensures Index(frame, "username").value !in CleanupAsWritten(clients, ClaimedNameAsWritten(Some(frame)))
    ensures CleanupRegistry(clients, None) == clients
  {
  }

  /** The eviction on one input: "bob" is live on connection 7, and a second connection claims his name. */
  lemma MalformedRegisterEvictsBob()
    ensures var first := Some(Object(map["type" := "register", "username" := "bob"]));
      var clients := map["bob" := Session(7, "bob-key")];
      && RegistrationOf(first).None?
      && "bob" !in CleanupAsWritten(clients, ClaimedNameAsWritten(first))
      && CleanupRegistry(clients, None) == clients
  {
    var frame := Object(map["type" := "register", "username" := "bob"]);
    assert Index(frame, "username") == Some("bob");
    MalformedRegisterEvictsAsWritten(frame, map["bob" := Session(7, "bob-key")]);
  }

  /**
   * As written, the empty username is falsy, so a handler that registered ""
   * leaves its entry behind and the registry routes to a closed connection.
   */
  lemma EmptyNameDanglesAsWritten()
    ensures var clients := map["" := Session(3, "key")];
      var owner := map[3 := ""];
      && LiveRoutes(clients, owner, {})
      && !LiveRoutes(CleanupAsWritten(clients, Some("")), owner, {3})
      && LiveRoutes(CleanupRegistry(clients, Some("")), owner, {3})
  {
    var clients := map["" := Session(3, "key")];
    assert CleanupAsWritten(clients, Some(""))[""].conn == 3;
    assert CleanupRegistry(clients, Some("")) == map[];
  }

  class Server {
    const codec: Codec
    var clients: map<string, Session>
    /** The bytes written so far to each connection. */
    var outbox: map<ConnId, Bytes>
    /** Connections whose handler has run `conn.close()`. */
    var closed: set<ConnId>
    /** For each connection whose handler registered, the name it registered. */
    ghost var owner: map<ConnId, string>

    ghost predicate Valid()
      reads this
    {
      LiveRoutes(clients, owner, closed)
    }

    function Sent(c: ConnId): Bytes
      reads this
    {
      if c in outbox then outbox[c] else []
    }

    /** The outboxes after `send_message(conn, v)`: nothing reaches a closed connection (the OSError is swallowed). */
    function AfterSend(c: ConnId, v: Value): map<ConnId, Bytes>
      reads this
    {
      if c in closed then outbox else outbox[c := Sent(c) + Emit(codec, v)]
    }

    /** Outboxes only ever grow: bytes once written stay written. */
    twostate predicate OutboxGrew()
      reads this
    {
      forall c :: c in old(outbox) ==> c in outbox && old(outbox[c]) <= outbox[c]
    }

    /** What a handled 'get_key' leaves behind (lines 52-59). */
    twostate predicate ServedGetKey(sender: string, target: string, raised: bool)
      reads this
    {
      && clients == old(clients)
      && (raised <==> sender !in old(clients))
      && (raised ==> outbox == old(outbox))
      && (!raised ==> outbox == old(AfterSend(clients[sender].conn,
            if target in clients then KeyResponseMsg(clients[target].publicKey) else ErrorMsg("User not found"))))
    }

    /** What a handled 'send_msg' leaves behind (lines 65-72). */
    twostate predicate ServedSendMsg(sender: string, target: string, data: string, raised: bool)
      reads this
    {
      && clients == old(clients)
      && (raised <==> target !in old(clients) && sender !in old(clients))
      && (target in clients ==> outbox == old(AfterSend(clients[target].conn, ForwardMsg(sender, data))))
      && (target !in clients && sender in clients ==>
            outbox == old(AfterSend(clients[sender].conn, ErrorMsg("Recipient not online"))))
      && (raised ==> outbox == old(outbox))
    }

    constructor(codec: Codec)
      ensures this.codec == codec && Valid()
      ensures clients == map[] && outbox == map[] && closed == {} && owner == map[]
    {
      this.codec := codec;
      clients, outbox, closed := map[], map[], {};
      owner := map[];
    }

    /** `send_message(conn, msg)`: the frame is appended, or nothing when encoding overflows or the connection is closed. */
    method SendMessage(conn: ConnId, v: Value)
      modifies this`outbox
      ensures outbox == old(AfterSend(conn, v)) && OutboxGrew()
    {
      if conn !in closed {
        outbox := outbox[conn := Sent(conn) + Emit(codec, v)];
      }
    }

    /** `recv_message(conn)` of the relay: every error and end of stream become None. */
    method RecvMessage(input: Stream) returns (v: Option<Value>, rest: Stream)
      ensures v == ServerView(Decoded(codec, ReadFrame(input).0)) && rest == ReadFrame(input).1
      ensures v.Some? ==> Size(rest) < Size(input)
    {
      var out;
      out, rest := ReceiveFrame(input);
      if out.Body? {
        ReadFrameShrinks(input);
      }
      v := ServerView(Decoded(codec, out));
    }

    /** Lines 23-24: register, overwriting any earlier entry of that name. */
    method Register(conn: ConnId, username: string, publicKey: string)
      requires Valid() && conn !in closed && conn !in owner
      modifies this`clients, this`owner
      ensures clients == old(clients)[username := Session(conn, publicKey)]
      ensures owner == old(owner)[conn := username]
      ensures Valid()
    {
      clients := clients[username := Session(conn, publicKey)];
      owner := owner[conn := username];
    }

    /** Lines 52-59: answer a 'get_key' on the connection the registry holds for the sender. */
    method GetKey(sender: string, target: string) returns (raised: bool)
      modifies this`outbox
      ensures ServedGetKey(sender, target, raised) && OutboxGrew()
    {
      if sender !in clients {
        return true;    // `self.clients[sender]` raises KeyError
      }
      var reply := if target in clients then KeyResponseMsg(clients[target].publicKey)
                   else ErrorMsg("User not found");
      SendMessage(clients[sender].conn, reply);
      return false;
    }

    /** Lines 65-72: forward the opaque data to the target, or tell the sender it is not online. */
    method SendMsg(sender: string, target: string, data: string) returns (raised: bool)
      modifies this`outbox
      ensures ServedSendMsg(sender, target, data, raised) && OutboxGrew()
    {
      if target in clients {
        SendMessage(clients[target].conn, ForwardMsg(sender, data));
        return false;
      }
      if sender !in clients {
        return true;    // `self.clients[sender]` raises KeyError
      }
      SendMessage(clients[sender].conn, ErrorMsg("Recipient not online"));
      return false;
    }

    /** `process_request(sender, msg)`: dispatch on the type; unknown types are ignored. */
    method ProcessRequest(sender: string, msg: Value) returns (raised: bool)
      modifies this`outbox
      ensures OutboxGrew() && clients == old(clients)
      ensures RequestOf(msg).Ignored? ==> !raised && outbox == old(outbox)
      ensures RequestOf(msg).Malformed? ==> raised && outbox == old(outbox)
      ensures RequestOf(msg).KeyRequest? ==> ServedGetKey(sender, RequestOf(msg).target, raised)
      ensures RequestOf(msg).Forward? ==> ServedSendMsg(sender, RequestOf(msg).to, RequestOf(msg).data, raised)
    {
      match RequestOf(msg)
      case KeyRequest(target) =>
        raised := GetKey(sender, target);
      case Forward(to, data) =>
        raised := SendMsg(sender, to, data);
      case Ignored =>
        raised := false;
      case Malformed =>
        raised := true;
    }

    /** Lines 40-43 with the corrected guard: remove the name this handler registered, then close. */
    method Cleanup(conn: ConnId, registered: Option<string>)
      requires Valid()
      requires registered == (if conn in owner then Some(owner[conn]) else None)
      modifies this`clients, this`closed
      ensures clients == CleanupRegistry(old(clients), registered)
      ensures closed == old(closed) + {conn}
      ensures Valid()
    {
      CleanupKeepsRoutesLive(clients, owner, closed, conn, registered);
      clients := CleanupRegistry(clients, registered);
      closed := closed + {conn};
    }

    /** Lines 31-35: handle requests until end of stream, a falsy message, or an exception. */
    method ServeRequests(username: string, input: Stream)
      requires Valid()
      modifies this`outbox
      ensures clients == old(clients) && OutboxGrew()
    {
      var s := input;
      while true
        invariant clients == old(clients) && OutboxGrew()
        decreases Size(s)
      {
        var msg;
        msg, s := RecvMessage(s);
        if msg.None? || !Truthy(msg.value) {
          break;
        }
        var raised := ProcessRequest(username, msg.value);
        if raised {
          break;
        }
      }
    }

    /** The registration the handler of this input stream performs, if any. */
    function FirstRegistration(input: Stream): Option<(string, string)>
      reads this
    {
      RegistrationOf(ServerView(Decoded(codec, ReadFrame(input).0)))
    }

    /**
     * Lines 23-43 once the first frame has registered: register, acknowledge
     * on `conn`, serve requests, then remove the name and close `conn`.
     */
    method RunSession(conn: ConnId, username: string, publicKey: string, s: Stream)
      requires Valid() && conn !in closed && conn !in owner
      modifies this`clients, this`outbox, this`closed, this`owner
      ensures Valid() && closed == old(closed) + {conn} && OutboxGrew()
      ensures clients == old(clients) - {username}
      ensures old(Sent(conn)) + Emit(codec, RegisteredMsg(username)) <= Sent(conn)
    {
      Register(conn, username, publicKey);
      SendMessage(conn, RegisteredMsg(username));
      assert old(Sent(conn)) + Emit(codec, RegisteredMsg(username)) <= Sent(conn);
      ServeRequests(username, s);
      Cleanup(conn, Some(username));
      assert clients == old(clients) - {username};
    }

    /**
     * `handle_client(conn, addr)` run to completion on one connection: the
     * first frame must register; then requests until end of stream, a falsy
     * message or an exception; the cleanup runs on every exit path.
     */
    method HandleClient(conn: ConnId, input: Stream)
      requires Valid() && conn !in closed && conn !in owner
      modifies this`clients, this`outbox, this`closed, this`owner
      ensures Valid() && closed == old(closed) + {conn} && OutboxGrew()
      ensures old(FirstRegistration(input)).None? ==> clients == old(clients) && outbox == old(outbox)
      ensures old(FirstRegistration(input)).Some? ==>
        var username := old(FirstRegistration(input)).value.0;
        clients == old(clients) - {username} && old(Sent(conn)) + Emit(codec, RegisteredMsg(username)) <= Sent(conn)
    {
      var first, s := RecvMessage(input);
      var registration := RegistrationOf(first);
      if registration.None? {
        Cleanup(conn, None);
        return;
      }
      RunSession(conn, registration.value.0, registration.value.1, s);
    }
  }
}
