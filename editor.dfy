/** The Editor page: ICE-candidate queueing, call set-up, the connection
    timeout and the ICE restart rules, text edits and the save guard.

    React callbacks and effects become methods on the page's `Client`.
    Promise chains are taken as completing at once, with their outcome a
    parameter. */
module Editor {
  import opened Js
  import opened PeerClient
  import DataChannel

  predicate SocketReady(s: SocketRef)
  {
    s.Socket? && s.connected
  }

  /** The body of a `candidate` emit. */
  function CandidateEmit(candidate: JsValue, sender: JsValue, receiver: JsValue): SocketEmit
  {
    SocketEmit("candidate", map["candidate" := candidate, "senderEmail" := sender, "receiverEmail" := receiver])
  }

  /** The emits of a queue flush: one `candidate` emit per queued candidate,
      in queue order, all with the same sender and receiver. */
  function QueuedCandidateEmits(queue: seq<JsValue>, sender: JsValue, receiver: JsValue): (r: seq<SocketEmit>)
    ensures |r| == |queue|
    ensures forall i :: 0 <= i < |queue| ==>
              && r[i].event == "candidate"
              && Field(r[i].body, "candidate") == queue[i]
              && Field(r[i].body, "senderEmail") == sender
              && Field(r[i].body, "receiverEmail") == receiver
    decreases |queue|
  {
    if queue == [] then []
    else QueuedCandidateEmits(queue[..|queue| - 1], sender, receiver) + [CandidateEmit(queue[|queue| - 1], sender, receiver)]
  }

  /** sendIceCandidate: emit now when the socket is connected and a peer is
      known; otherwise append the candidate to the queue and emit nothing. */
  method SendIceCandidate(c: Client, candidate: JsValue)
    modifies c`outbox, c`iceCandidatesQueue
    ensures SocketReady(c.socket) && Truthy(c.peerEmailRef) ==>
              && c.outbox == old(c.outbox) + [CandidateEmit(candidate, c.userEmail, c.peerEmailRef)]
              && c.iceCandidatesQueue == old(c.iceCandidatesQueue)
    ensures !(SocketReady(c.socket) && Truthy(c.peerEmailRef)) ==>
              && c.outbox == old(c.outbox)
              && c.iceCandidatesQueue == old(c.iceCandidatesQueue) + [candidate]
  {
    if SocketReady(c.socket) && Truthy(c.peerEmailRef) {
      c.outbox := c.outbox + [CandidateEmit(candidate, c.userEmail, c.peerEmailRef)];
    } else {
      c.iceCandidatesQueue := c.iceCandidatesQueue + [candidate];
    }
  }

  /** `onicecandidate` of a peer connection: a candidate goes to
      sendIceCandidate; the final empty candidate ends gathering and sends nothing. */
  method OnIceCandidate(c: Client, candidate: JsValue)
    modifies c`outbox, c`iceCandidatesQueue
    ensures !Truthy(candidate) ==> c.outbox == old(c.outbox) && c.iceCandidatesQueue == old(c.iceCandidatesQueue)
    ensures Truthy(candidate) && SocketReady(c.socket) && Truthy(c.peerEmailRef) ==>
              && c.outbox == old(c.outbox) + [CandidateEmit(candidate, c.userEmail, c.peerEmailRef)]
              && c.iceCandidatesQueue == old(c.iceCandidatesQueue)
    ensures Truthy(candidate) && !(SocketReady(c.socket) && Truthy(c.peerEmailRef)) ==>
              && c.outbox == old(c.outbox)
              && c.iceCandidatesQueue == old(c.iceCandidatesQueue) + [candidate]
  {
    if Truthy(candidate) {
      SendIceCandidate(c, candidate);
    }
  }

  /** Whether the flush effect sends the queue. */
  predicate FlushReady(c: Client)
    reads c
  {
    Truthy(c.userEmail) && SocketReady(c.socket) && Truthy(c.peerEmailRef) && |c.iceCandidatesQueue| > 0
  }

  /** The queue-flush effect: when a user, a connected socket, a peer and a
      non-empty queue are all present, emit every queued candidate in order and
      empty the queue; otherwise change nothing. */
  method FlushIceCandidates(c: Client)
    modifies c`outbox, c`iceCandidatesQueue
    ensures old(FlushReady(c)) ==>
              && c.outbox == old(c.outbox) + QueuedCandidateEmits(old(c.iceCandidatesQueue), c.userEmail, c.peerEmailRef)
              && c.iceCandidatesQueue == []
    ensures !old(FlushReady(c)) ==> c.outbox == old(c.outbox) && c.iceCandidatesQueue == old(c.iceCandidatesQueue)
  {
    if !Truthy(c.userEmail) {
      return;
    }
    if SocketReady(c.socket) && Truthy(c.peerEmailRef) && |c.iceCandidatesQueue| > 0 {
      var queue := c.iceCandidatesQueue;
      var i := 0;
      while i < |queue|
        invariant 0 <= i <= |queue|
        invariant c.outbox == old(c.outbox) + QueuedCandidateEmits(queue[..i], c.userEmail, c.peerEmailRef)
      {
        c.outbox := c.outbox + [CandidateEmit(queue[i], c.userEmail, c.peerEmailRef)];
        assert queue[..i + 1][..i] == queue[..i];
        i := i + 1;
      }
      assert queue[..i] == queue;
      c.iceCandidatesQueue := [];
    }
  }

  /** clearTimeout(connectionTimeoutRef.current): cancels the timer the ref
      holds, whichever peer connection it belongs to. */
  method ClearConnectionTimeout(c: Client)
    requires c.Valid()
    modifies c`timers
    ensures c.Valid()
    ensures c.connectionTimeout.None? ==> c.timers == old(c.timers)
    ensures c.connectionTimeout.Some? ==>
              c.timers == old(c.timers)[c.connectionTimeout.value := old(c.timers)[c.connectionTimeout.value].(pending := false)]
  {
    if c.connectionTimeout.Some? {
      var t := c.connectionTimeout.value;
      c.timers := c.timers[t := c.timers[t].(pending := false)];
    }
  }

  /** createPeerConnection: a new peer connection with a new data channel
      whose handlers are set up, stored in the refs, and a new pending 15 s
      timeout for it. An earlier timeout is not cancelled. */
  method CreatePeerConnection(c: Client) returns (pc: nat)
    requires c.Valid()
    modifies c`pcs, c`channels, c`dataChannel, c`peerConnection, c`timers, c`connectionTimeout
    ensures c.Valid()
    ensures pc == |old(c.pcs)|
    ensures c.pcs == old(c.pcs) + [NewPeerConnection]
    ensures c.channels == old(c.channels) + [Channel(Connecting, true)]
    ensures c.dataChannel == Some(|old(c.channels)|)
    ensures c.peerConnection == Some(pc)
    ensures c.timers == old(c.timers) + [Timer(pc, true)]
    ensures c.connectionTimeout == Some(|old(c.timers)|)
  {
    pc := |c.pcs|;
    c.pcs := c.pcs + [NewPeerConnection];
    c.channels := c.channels + [Channel(Connecting, false)];
    c.dataChannel := Some(|c.channels| - 1);
    DataChannel.SetupDataChannelEvents(c);
    c.peerConnection := Some(pc);
    c.timers := c.timers + [Timer(pc, true)];
    c.connectionTimeout := Some(|c.timers| - 1);
  }

  function IceStateName(st: IceState): string
  {
    match st
    case IceNew => "new"
    case IceChecking => "checking"
    case IceConnected => "connected"
    case IceCompleted => "completed"
    case IceFailed => "failed"
    case IceDisconnected => "disconnected"
    case IceClosed => "closed"
  }

  /** `oniceconnectionstatechange` of peer connection `pc`: the status shows
      the new state, and `connected` cancels the current timeout. */
  method OnIceConnectionStateChange(c: Client, pc: nat, st: IceState)
    requires c.Valid() && pc < |c.pcs|
    modifies c`pcs, c`connectionStatus, c`timers
    ensures c.Valid()
    ensures c.pcs == old(c.pcs)[pc := old(c.pcs)[pc].(ice := st)]
    ensures c.connectionStatus == IceStateName(st)
    ensures st != IceConnected || c.connectionTimeout.None? ==> c.timers == old(c.timers)
    ensures st == IceConnected && c.connectionTimeout.Some? ==>
              c.timers == old(c.timers)[c.connectionTimeout.value := old(c.timers)[c.connectionTimeout.value].(pending := false)]
  {
    c.pcs := c.pcs[pc := c.pcs[pc].(ice := st)];
    c.connectionStatus := IceStateName(st);
    if st == IceConnected {
      ClearConnectionTimeout(c);
    }
  }

  /** `onconnectionstatechange` of peer connection `pc`: `connected` cancels
      the current timeout, `failed` restarts ICE on `pc`. */
  method OnConnectionStateChange(c: Client, pc: nat, st: ConnectionState)
    requires c.Valid() && pc < |c.pcs|
    modifies c`pcs, c`timers, c`restarts
    ensures c.Valid()
    ensures c.pcs == old(c.pcs)[pc := old(c.pcs)[pc].(state := st)]
    ensures st == ConnFailed <==> c.restarts == old(c.restarts) + [pc]
    ensures st != ConnFailed ==> c.restarts == old(c.restarts)
    ensures st != ConnConnected || c.connectionTimeout.None? ==> c.timers == old(c.timers)
    ensures st == ConnConnected && c.connectionTimeout.Some? ==>
              c.timers == old(c.timers)[c.connectionTimeout.value := old(c.timers)[c.connectionTimeout.value].(pending := false)]
  {
    c.pcs := c.pcs[pc := c.pcs[pc].(state := st)];
    if st == ConnConnected {
      ClearConnectionTimeout(c);
    } else if st == ConnFailed {
      c.restarts := c.restarts + [pc];
    }
  }

  /** The 15 s timeout `t` fires. A cancelled timer does nothing; a pending
      one restarts ICE on its own peer connection unless that connection's
      ICE state is `connected`. */
  method ConnectionTimeoutFired(c: Client, t: nat)
    requires c.Valid() && t < |c.timers|
    modifies c`timers, c`restarts
    ensures c.Valid()
    ensures !old(c.timers[t].pending) ==> c.timers == old(c.timers) && c.restarts == old(c.restarts)
    ensures old(c.timers[t].pending) ==> c.timers == old(c.timers)[t := old(c.timers)[t].(pending := false)]
    ensures c.restarts != old(c.restarts) <==> old(c.timers[t].pending) && c.pcs[c.timers[t].pc].ice != IceConnected
    ensures c.restarts != old(c.restarts) ==> c.restarts == old(c.restarts) + [c.timers[t].pc]
  {
    if !c.timers[t].pending {
      return;
    }
    c.timers := c.timers[t := c.timers[t].(pending := false)];
    var pc := c.timers[t].pc;
    if c.pcs[pc].ice != IceConnected {
      c.restarts := c.restarts + [pc];
    }
  }

  /** The peer-email input's `onChange`. */
  method EnterPeerEmail(c: Client, value: string)
    modifies c`peerEmail
    ensures c.peerEmail == Str(value)
  {
    c.peerEmail := Str(value);
  }

  /** The body of the `offer` emit. */
  function OfferEmit(offer: JsValue, sender: JsValue, receiver: JsValue, documentId: JsValue): SocketEmit
  {
    SocketEmit("offer", map["offer" := offer, "senderEmail" := sender, "receiverEmail" := receiver, "documentId" := documentId])
  }

  /** callPeer. `offer` is the local description once createOffer and
      setLocalDescription resolve, `None` when the chain rejects (the error is
      caught and logged). An empty peer email only raises an alert. Otherwise
      the peer is bound first, a peer connection is created, the offer (if
      any) is emitted to the bound peer when a socket exists, and the call is
      marked initiated whatever the chain's outcome. */
  method CallPeer(c: Client, offer: Option<JsValue>)
    requires c.Valid()
    modifies c`alerts, c`peerEmailRef, c`pcs, c`channels, c`dataChannel, c`peerConnection,
             c`timers, c`connectionTimeout, c`outbox, c`callInitiated
    ensures c.Valid()
    ensures !Truthy(old(c.peerEmail)) ==>
              && c.alerts == old(c.alerts) + ["Please enter a peer email"]
              && c.pcs == old(c.pcs) && c.timers == old(c.timers) && c.outbox == old(c.outbox)
              && c.channels == old(c.channels) && c.dataChannel == old(c.dataChannel)
              && c.peerConnection == old(c.peerConnection) && c.connectionTimeout == old(c.connectionTimeout)
              && c.peerEmailRef == old(c.peerEmailRef)
              && c.callInitiated == old(c.callInitiated)
    ensures Truthy(old(c.peerEmail)) ==>
              && c.alerts == old(c.alerts)
              && c.peerEmailRef == c.peerEmail
              && c.peerConnection == Some(|old(c.pcs)|)
              && |c.pcs| == |old(c.pcs)| + 1
              && c.pcs[..|old(c.pcs)|] == old(c.pcs)
              && c.pcs[|old(c.pcs)|] == (if offer.Some? then NewPeerConnection.(localDescription := offer.value) else NewPeerConnection)
              && c.channels == old(c.channels) + [Channel(Connecting, true)]
              && c.dataChannel == Some(|old(c.channels)|)
              && c.timers == old(c.timers) + [Timer(|old(c.pcs)|, true)]
              && c.connectionTimeout == Some(|old(c.timers)|)
              && c.outbox == old(c.outbox) +
                   (if offer.Some? && c.socket.Socket? then [OfferEmit(offer.value, c.userEmail, c.peerEmail, c.documentId)] else [])
              && c.callInitiated
  {
    if !Truthy(c.peerEmail) {
      c.alerts := c.alerts + ["Please enter a peer email"];
      return;
    }
    c.peerEmailRef := c.peerEmail;
    var pc := CreatePeerConnection(c);
    if offer.Some? {
      c.pcs := c.pcs[pc := c.pcs[pc].(localDescription := offer.value)];
      if c.socket.Socket? {
        c.outbox := c.outbox + [OfferEmit(offer.value, c.userEmail, c.peerEmailRef, c.documentId)];
      }
    }
    c.callInitiated := true;
  }

  /** handleTextChange: the displayed text and the whole shared text are
      replaced by the new value. The update the CRDT reports for this
      transaction reaches the channel through DataChannel.DocUpdated. */
  method HandleTextChange(c: Client, value: string)
    modifies c`text, c`sharedText
    ensures c.text == value && c.sharedText == value
  {
    c.text := value;
    c.sharedText := value;
  }

  /** The characters `String.prototype.trim` removes: ECMAScript white space
      and line terminators. */
  predicate IsJsWhitespace(ch: char)
  {
    || ch == '\t' || ch == '\n' || ch == '\U{000B}' || ch == '\U{000C}' || ch == '\r' || ch == ' '
    || ch == '\U{00A0}' || ch == '\U{1680}' || ('\U{2000}' <= ch <= '\U{200A}')
    || ch == '\U{2028}' || ch == '\U{2029}' || ch == '\U{202F}' || ch == '\U{205F}' || ch == '\U{3000}' || ch == '\U{FEFF}'
  }

  /** The string without its leading white space. */
  function TrimStart(s: string): (r: string)
    ensures |r| <= |s| && r == s[|s| - |r|..]
    ensures forall i :: 0 <= i < |s| - |r| ==> IsJsWhitespace(s[i])
    ensures r != [] ==> !IsJsWhitespace(r[0])
    decreases |s|
  {
    if s != [] && IsJsWhitespace(s[0]) then TrimStart(s[1..]) else s
  }

  /** The string without its trailing white space. */
  function TrimEnd(s: string): (r: string)
    ensures |r| <= |s| && r == s[..|r|]
    ensures forall i :: |r| <= i < |s| ==> IsJsWhitespace(s[i])
    ensures r != [] ==> !IsJsWhitespace(r[|r| - 1])
    decreases |s|
  {
    if s != [] && IsJsWhitespace(s[|s| - 1]) then TrimEnd(s[..|s| - 1]) else s
  }

  function Trim(s: string): string
  {
    TrimEnd(TrimStart(s))
  }

  /** A text trims to the empty string exactly when all of it is white space. */
  lemma TrimEmptyIffBlank(s: string)
    ensures Trim(s) == "" <==> Blank(s)
  {
    var t := TrimStart(s);
    if t != [] {
      // t starts with a character that is not white space, and TrimEnd keeps it.
      assert t[0] == s[|s| - |t|];
      assert TrimEnd(t) != "";
    }
  }

  /** A text that is all white space: by TrimEmptyIffBlank, exactly a text
      whose `trim()` is empty, the falsy case of `!text.trim()`. */
  predicate Blank(s: string)
  {
    forall i :: 0 <= i < |s| ==> IsJsWhitespace(s[i])
  }

  /** handleSave: a text that is empty after trimming only sets the status
      "Nothing to save"; any other text starts a save of the whole text. */
  method HandleSave(c: Client)
    modifies c`saveStatus, c`isSaving, c`saveRequests
    ensures Blank(c.text) ==>
              c.saveStatus == "Nothing to save" && c.isSaving == old(c.isSaving) && c.saveRequests == old(c.saveRequests)
    ensures !Blank(c.text) ==>
              && c.saveStatus == "Saving..."
              && c.isSaving
              && c.saveRequests == old(c.saveRequests) + [SaveRequest(c.documentId, c.text)]
  {
    if Blank(c.text) {
      c.saveStatus := "Nothing to save";
      return;
    }
    c.isSaving := true;
    c.saveStatus := "Saving...";
    c.saveRequests := c.saveRequests + [SaveRequest(c.documentId, c.text)];
  }

  /** The outcome of the save request: success, or a failure with the
      server's message (empty when the response carries none). */
  datatype SaveOutcome = Saved | Failed(serverMessage: string)

  /** The end of handleSave: the status reports the outcome and saving stops. */
  method SaveFinished(c: Client, outcome: SaveOutcome)
    modifies c`saveStatus, c`isSaving
    ensures !c.isSaving
    ensures outcome.Saved? ==> c.saveStatus == "Saved successfully!"
    ensures outcome.Failed? && outcome.serverMessage != "" ==> c.saveStatus == outcome.serverMessage
    ensures outcome.Failed? && outcome.serverMessage == "" ==> c.saveStatus == "Error saving document"
  {
    if outcome.Saved? {
      c.saveStatus := "Saved successfully!";
    } else {
      c.saveStatus := if outcome.serverMessage != "" then outcome.serverMessage else "Error saving document";
    }
    c.isSaving := false;
  }

  /** One of the status-clearing timeouts fires. */
  method SaveStatusTimerFired(c: Client)
    modifies c`saveStatus
    ensures c.saveStatus == ""
  {
    c.saveStatus := "";
  }
}
