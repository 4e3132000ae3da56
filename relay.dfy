/** The signalling relay of the central server.

    The relay keeps one table, `userToSocket`, from a user's email to the
    connection that last registered under it, and relays three handshake
    events (offer, answer, candidate) from a sender's connection to the
    connection registered for the message's `receiverEmail`. Connections are
    opaque ids; every `emit` is recorded in an output log.

    Each connection's handler closure also owns a variable `userEmail` that
    starts as `null` and is never assigned (the register handler binds its own
    parameter of the same name), so the disconnect handler never removes a
    registry entry. The model keeps that variable, per connection, as
    `sessionEmail`. */
module Relay {
  import opened Js

  type ConnId = nat
  type Registry = map<JsValue, ConnId>

  datatype Kind = Offer | Answer | Candidate

  /** The event name under which a handshake travels; it is also the name of
      the property that carries its payload. */
  function EventName(k: Kind): string
  {
    match k
    case Offer => "offer"
    case Answer => "answer"
    case Candidate => "candidate"
  }

  /** One `emit` call: the connection it goes to, the event name and the body. */
  datatype Emit = Emit(to: ConnId, event: string, body: Message)

  function ErrorBody(text: string): Message
  {
    map["message" := Str(text)]
  }

  function InvalidText(k: Kind): string
  {
    "Invalid " + EventName(k) + " message. Missing '" + EventName(k) + "' or 'receiverEmail'."
  }

  function NotFoundText(receiver: JsValue): string
  {
    "User " + Display(receiver) + " not found or offline."
  }

  /** The guard of handleOffer / handleAnswer / handleCandidate: the payload
      property and `receiverEmail` are both truthy. */
  predicate WellFormed(k: Kind, m: Message)
  {
    Truthy(Field(m, EventName(k))) && Truthy(Field(m, "receiverEmail"))
  }

  function Receiver(m: Message): JsValue
  {
    Field(m, "receiverEmail")
  }

  /** The forwarded body `{...message, senderEmail, receiverEmail}`: every
      property of the incoming message survives with its value, and the two
      addresses are present (as `undefined` when the message lacked them). */
  function Forwarded(m: Message): (r: Message)
    ensures r.Keys == m.Keys + {"senderEmail", "receiverEmail"}
    ensures forall key :: key in m ==> r[key] == m[key]
    ensures Field(r, "senderEmail") == Field(m, "senderEmail")
    ensures Field(r, "receiverEmail") == Field(m, "receiverEmail")
  {
    m["senderEmail" := Field(m, "senderEmail")]["receiverEmail" := Field(m, "receiverEmail")]
  }

  function ForwardMessage(reg: Registry, from: ConnId, event: string, m: Message): Emit
  {
    if Receiver(m) in reg then Emit(reg[Receiver(m)], event, Forwarded(m))
    else Emit(from, "errorMessage", ErrorBody(NotFoundText(Receiver(m))))
  }

  /** What one handshake message causes: exactly one emit. It is the message,
      forwarded under its own event name to the receiver's current connection,
      when the message is well formed and the receiver is registered; in every
      other case it is one `errorMessage` back to the sender, saying which of
      the two checks failed. */
  function Handle(reg: Registry, from: ConnId, k: Kind, m: Message): (r: seq<Emit>)
    ensures |r| == 1
    ensures r[0].event != "errorMessage" <==> WellFormed(k, m) && Receiver(m) in reg
    ensures r[0].event != "errorMessage" ==>
              && r[0].to == reg[Receiver(m)]
              && r[0].event == EventName(k)
              && Field(r[0].body, "senderEmail") == Field(m, "senderEmail")
              && forall key :: key in m ==> key in r[0].body && r[0].body[key] == m[key]
    ensures r[0].event == "errorMessage" ==> r[0].to == from
    ensures !WellFormed(k, m) ==> r[0].body == ErrorBody(InvalidText(k))
    ensures WellFormed(k, m) && Receiver(m) !in reg ==> r[0].body == ErrorBody(NotFoundText(Receiver(m)))
  {
    if !WellFormed(k, m) then [Emit(from, "errorMessage", ErrorBody(InvalidText(k)))]
    else [ForwardMessage(reg, from, EventName(k), m)]
  }

  /** The key `register` stores: the payload's `userEmail`, whatever it is. */
  function RegisteredKey(payload: Message): JsValue
  {
    Field(payload, "userEmail")
  }

  datatype RelayState = RelayState(userToSocket: Registry, sessionEmail: map<ConnId, JsValue>)

  /** The socket events the relay reacts to. */
  datatype Input =
    | Connect(conn: ConnId)
    | Register(conn: ConnId, payload: Message)
    | Handshake(conn: ConnId, kind: Kind, message: Message)
    | Disconnect(conn: ConnId)

  /** No connection has a bound email: the state every run keeps, since
      nothing assigns the per-connection `userEmail`. */
  ghost predicate Unbound(sessions: map<ConnId, JsValue>)
  {
    forall c :: c in sessions ==> sessions[c] == Null
  }

  /** One event: the new state and the emits it causes. */
  function Step(s: RelayState, i: Input): (r: (RelayState, seq<Emit>))
    ensures |r.1| == (if i.Register? || i.Handshake? then 1 else 0)
    ensures i.Connect? ==> r.0 == s.(sessionEmail := s.sessionEmail[i.conn := Null])
    ensures !i.Connect? ==> r.0.sessionEmail == s.sessionEmail
    ensures i.Register? ==>
              && RegisteredKey(i.payload) in r.0.userToSocket
              && r.0.userToSocket[RegisteredKey(i.payload)] == i.conn
              && (forall e :: e != RegisteredKey(i.payload) ==>
                    (e in r.0.userToSocket <==> e in s.userToSocket) &&
                    (e in s.userToSocket ==> r.0.userToSocket[e] == s.userToSocket[e]))
              && r.1 == [Emit(i.conn, "registerSuccess", map["username" := RegisteredKey(i.payload)])]
    ensures i.Handshake? ==> r.0 == s && r.1 == Handle(s.userToSocket, i.conn, i.kind, i.message)
    ensures i.Disconnect? && Unbound(s.sessionEmail) ==> r.0 == s
  {
    match i
    case Connect(c) =>
      (s.(sessionEmail := s.sessionEmail[c := Null]), [])
    case Register(c, p) =>
      (s.(userToSocket := s.userToSocket[RegisteredKey(p) := c]),
       [Emit(c, "registerSuccess", map["username" := RegisteredKey(p)])])
    case Handshake(c, k, m) =>
      (s, Handle(s.userToSocket, c, k, m))
    case Disconnect(c) =>
      var email := if c in s.sessionEmail then s.sessionEmail[c] else Undefined;
      if Truthy(email) then (s.(userToSocket := s.userToSocket - {email}), []) else (s, [])
  }

  /** A run of events from a starting state: the final state and every emit, in order. */
  function Run(s: RelayState, ins: seq<Input>): (RelayState, seq<Emit>)
    decreases |ins|
  {
    if ins == [] then (s, [])
    else
      var before := Run(s, ins[..|ins| - 1]);
      var last := Step(before.0, ins[|ins| - 1]);
      (last.0, before.1 + last.1)
  }

  /** The connection of the last `register` for key `e` in a run, if any. */
  function LastRegistration(ins: seq<Input>, e: JsValue): Option<ConnId>
    decreases |ins|
  {
    if ins == [] then None
    else if ins[|ins| - 1].Register? && RegisteredKey(ins[|ins| - 1].payload) == e then Some(ins[|ins| - 1].conn)
    else LastRegistration(ins[..|ins| - 1], e)
  }

  /** No event ever binds a connection's email. */
  lemma {:induction false} RunKeepsSessionsUnbound(s: RelayState, ins: seq<Input>)
    requires Unbound(s.sessionEmail)
    ensures Unbound(Run(s, ins).0.sessionEmail)
    decreases |ins|
  {
    if ins != [] {
      RunKeepsSessionsUnbound(s, ins[..|ins| - 1]);
    }
  }

  /** After any run, the registry maps each key to the connection of its last
      registration; a key nobody registered keeps its old entry. Disconnects
      never remove an entry, so a departed user stays routed to the closed
      connection. */
  lemma {:induction false} RegistryFollowsLastRegistration(s: RelayState, ins: seq<Input>, e: JsValue)
    requires Unbound(s.sessionEmail)
    ensures LastRegistration(ins, e).Some? ==>
              e in Run(s, ins).0.userToSocket &&
              Run(s, ins).0.userToSocket[e] == LastRegistration(ins, e).value
    ensures LastRegistration(ins, e).None? ==>
              (e in Run(s, ins).0.userToSocket <==> e in s.userToSocket) &&
              (e in s.userToSocket ==> Run(s, ins).0.userToSocket[e] == s.userToSocket[e])
    decreases |ins|
  {
    if ins != [] {
      var prefix := ins[..|ins| - 1];
      RunKeepsSessionsUnbound(s, prefix);
      RegistryFollowsLastRegistration(s, prefix, e);
    }
  }

  /** A run made only of handshakes leaves the relay state as it was, and
      emits exactly one event per message. */
  lemma {:induction false} HandshakesKeepState(s: RelayState, ins: seq<Input>)
    requires forall j :: 0 <= j < |ins| ==> ins[j].Handshake?
    ensures Run(s, ins).0 == s
    ensures |Run(s, ins).1| == |ins|
    decreases |ins|
  {
    if ins != [] {
      HandshakesKeepState(s, ins[..|ins| - 1]);
    }
  }

  /** The relay process: the registry, each connection's closure variable, and
      the log of every emit so far. */
  class RelayServer {
    var userToSocket: Registry
    var sessionEmail: map<ConnId, JsValue>
    var emitted: seq<Emit>

    function State(): RelayState
      reads this
    {
      RelayState(userToSocket, sessionEmail)
    }

    ghost predicate Valid()
      reads this
    {
      Unbound(sessionEmail)
    }

    constructor ()
      ensures Valid()
      ensures userToSocket == map[] && sessionEmail == map[] && emitted == []
    {
      userToSocket := map[];
      sessionEmail := map[];
      emitted := [];
    }

    /** io.on('connection'): the new connection's `userEmail` starts as null. */
    method OnConnection(conn: ConnId)
      requires Valid()
      modifies this`sessionEmail
      ensures Valid()
      ensures State() == Step(old(State()), Connect(conn)).0
      ensures sessionEmail == old(sessionEmail)[conn := Null]
    {
      sessionEmail := sessionEmail[conn := Null];
    }

    /** socket.on('register'): bind the payload's `userEmail` to this
        connection, replacing any earlier binding, and acknowledge to this
        connection only. */
    method OnRegister(conn: ConnId, payload: Message)
      requires Valid()
      modifies this`userToSocket, this`emitted
      ensures Valid()
      ensures State() == Step(old(State()), Register(conn, payload)).0
      ensures emitted == old(emitted) + Step(old(State()), Register(conn, payload)).1
      ensures userToSocket == old(userToSocket)[RegisteredKey(payload) := conn]
      ensures emitted == old(emitted) + [Emit(conn, "registerSuccess", map["username" := RegisteredKey(payload)])]
    {
      var key := RegisteredKey(payload);
      userToSocket := userToSocket[key := conn];
      emitted := emitted + [Emit(conn, "registerSuccess", map["username" := key])];
    }

    /** socket.on('offer' | 'answer' | 'candidate'): validate, then forward or
        report the error to the sender. The registry is not touched. */
    method OnHandshake(conn: ConnId, kind: Kind, message: Message)
      requires Valid()
      modifies this`emitted
      ensures Valid()
      ensures State() == Step(old(State()), Handshake(conn, kind, message)).0
      ensures emitted == old(emitted) + Step(old(State()), Handshake(conn, kind, message)).1
      ensures emitted == old(emitted) + Handle(userToSocket, conn, kind, message)
    {
      if !WellFormed(kind, message) {
        emitted := emitted + [Emit(conn, "errorMessage", ErrorBody(InvalidText(kind)))];
        return;
      }
      var receiver := Receiver(message);
      if receiver in userToSocket {
        emitted := emitted + [Emit(userToSocket[receiver], EventName(kind), Forwarded(message))];
      } else {
        emitted := emitted + [Emit(conn, "errorMessage", ErrorBody(NotFoundText(receiver)))];
      }
    }

    /** socket.on('disconnect'): delete the closure's `userEmail` when it is
        truthy, which it never is. */
    method OnDisconnect(conn: ConnId)
      modifies this`userToSocket
      ensures sessionEmail == old(sessionEmail)
      ensures State() == Step(old(State()), Disconnect(conn)).0
      ensures Valid() ==> userToSocket == old(userToSocket)
    {
      var email := if conn in sessionEmail then sessionEmail[conn] else Undefined;
      if Truthy(email) {
        userToSocket := userToSocket - {email};
      }
    }
  }
}
