/** The state of one editor page in the browser.

    The Editor page keeps its signalling and peer-connection state in React
    refs and state variables; the socket handlers and the data-channel set-up
    receive those same refs and change them. The model gathers all of them in
    one object, `Client`. Browser objects (the Socket.IO socket, peer
    connections, their data channels and timers) become values in sequences:
    the id of a peer connection, timer or channel is its position, allocated
    when it is created and never reused. Everything the page sends is logged:
    `outbox` for socket emits, `sent` for data-channel sends, `restarts` for
    `restartIce` calls, `alerts` for `alert` calls and `saveRequests` for the
    HTTP save request. */
module PeerClient {
  import opened Js

  newtype byte = x: int | 0 <= x < 256

  /** `socketRef.current`: absent, or a Socket.IO socket and whether it is connected. */
  datatype SocketRef = NoSocket | Socket(connected: bool)

  /** One `socket.emit(event, body)` call. */
  datatype SocketEmit = SocketEmit(event: string, body: Message)

  datatype IceState = IceNew | IceChecking | IceConnected | IceCompleted | IceFailed | IceDisconnected | IceClosed
  datatype ConnectionState = ConnNew | ConnConnecting | ConnConnected | ConnDisconnected | ConnFailed | ConnClosed

  /** The parts of an RTCPeerConnection the page reads or writes.
      `answersDataChannel` records whether its `ondatachannel` handler is set. */
  datatype PeerConnection = PeerConnection(
    ice: IceState,
    state: ConnectionState,
    localDescription: JsValue,
    remoteDescription: JsValue,
    candidates: seq<JsValue>,
    answersDataChannel: bool)

  const NewPeerConnection := PeerConnection(IceNew, ConnNew, Null, Null, [], false)

  /** A `setTimeout` callback for the connection timeout of peer connection `pc`. */
  datatype Timer = Timer(pc: nat, pending: bool)

  datatype ReadyState = Connecting | Open | Closing | Closed

  /** An RTCDataChannel: its ready state and whether the set-up has assigned its handlers. */
  datatype Channel = Channel(readyState: ReadyState, handlersSet: bool)

  /** The data-channel message `{type, update}` before serialisation. */
  datatype Envelope = Envelope(kind: string, update: seq<int>)

  /** One PUT of the document content. */
  datatype SaveRequest = SaveRequest(documentId: JsValue, content: string)

  class Client {
    const userEmail: JsValue
    const documentId: JsValue

    var socket: SocketRef
    var outbox: seq<SocketEmit>
    var connectionStatus: string
    var alerts: seq<string>

    var peerEmail: JsValue
    var peerEmailRef: JsValue
    var callInitiated: bool
    var iceCandidatesQueue: seq<JsValue>

    var pcs: seq<PeerConnection>
    var peerConnection: Option<nat>
    var timers: seq<Timer>
    var connectionTimeout: Option<nat>
    var restarts: seq<nat>

    var channels: seq<Channel>
    var dataChannel: Option<nat>
    var sent: seq<(nat, Envelope)>
    var updateListeners: nat

    var sharedText: string
    var appliedUpdates: seq<seq<byte>>
    var text: string
    var saveStatus: string
    var isSaving: bool
    var saveRequests: seq<SaveRequest>

    /** Every ref that holds an id holds one that was allocated. */
    ghost predicate Valid()
      reads this
    {
      && (peerConnection.Some? ==> peerConnection.value < |pcs|)
      && (connectionTimeout.Some? ==> connectionTimeout.value < |timers|)
      && (forall t :: 0 <= t < |timers| ==> timers[t].pc < |pcs|)
      && (dataChannel.Some? ==> dataChannel.value < |channels|)
    }

    /** The page as first rendered: empty refs, an empty shared text and no socket yet. */
    constructor (userEmail: JsValue, documentId: JsValue)
      ensures Valid()
      ensures this.userEmail == userEmail && this.documentId == documentId
      ensures socket == NoSocket && outbox == [] && connectionStatus == "Disconnected" && alerts == []
      ensures peerEmail == Str("") && peerEmailRef == Str("") && !callInitiated && iceCandidatesQueue == []
      ensures pcs == [] && peerConnection == None && timers == [] && connectionTimeout == None && restarts == []
      ensures channels == [] && dataChannel == None && sent == [] && updateListeners == 0
      ensures sharedText == "" && appliedUpdates == [] && text == "" && saveStatus == "" && !isSaving && saveRequests == []
    {
      this.userEmail := userEmail;
      this.documentId := documentId;
      socket := NoSocket;
      outbox := [];
      connectionStatus := "Disconnected";
      alerts := [];
      peerEmail := Str("");
      peerEmailRef := Str("");
      callInitiated := false;
      iceCandidatesQueue := [];
      pcs := [];
      peerConnection := None;
      timers := [];
      connectionTimeout := None;
      restarts := [];
      channels := [];
      dataChannel := None;
      sent := [];
      updateListeners := 0;
      sharedText := "";
      appliedUpdates := [];
      text := "";
      saveStatus := "";
      isSaving := false;
      saveRequests := [];
    }
  }

  /** The transport: Socket.IO creates, connects or drops `socketRef.current`. */
  method SocketChanged(c: Client, s: SocketRef)
    modifies c`socket
    ensures c.socket == s
  {
    c.socket := s;
  }
}
