# CoDeciDoc signalling, peer session and document store: a Dafny model

CoDeciDoc is a collaborative text editor. Two browsers connect to each other
over WebRTC and exchange Yjs CRDT updates on a data channel. A central
Socket.IO server relays the WebRTC handshake between them: offers, answers
and ICE candidates. An Express/MongoDB back end stores the documents, their
owners and their collaborators.

The project models five parts of that system:

- **The relay** (`relay.dfy`, module `Relay`).
  - The `userToSocket` registry maps an email to a connection. The register
    handler rebinds it.
  - The three handshake handlers validate a message and forward it to the
    receiver's connection, or report an `errorMessage` to the sender.
  - The disconnect handler tests a per-connection `userEmail` that nothing
    ever assigns.
  - A pure `Step`/`Run` semantics over a trace of socket events comes with
    trace lemmas. A `RelayServer` class has one method per event, each proved
    against `Step`.
- **The editor page** (`client.dfy`, `editor.dfy`; modules `PeerClient`,
  `Editor`).
  - Every React ref and piece of state the page and its helpers share lives in
    one `Client` object. Peer connections, data channels and timeouts are
    values in sequences, indexed by the id allocated when each is created.
  - The page logic covers the ICE candidate queue and its flush, `callPeer`,
    the 15 s connection timeout and the ICE restart rules, text edits, and the
    save guard with its `trim()`.
- **The signalling handlers** (`socket_handlers.dfy`): `handleOffer`,
  `handleAnswer` and `handleCandidate`, which act on the same refs.
- **The data channel** (`data_channel.dfy`).
  - The `{type: 'yjsUpdate', update: Array.from(bytes)}` envelope and its
    decoding with `new Uint8Array(...)`, with both round trips proved.
  - The `onopen` full-state send, the `update` forwarding guarded by
    `readyState === 'open'`, and the `onmessage` dispatch.
- **The document controllers** (`documents.dfy`).
  - Create, get, update (with its `||` fallback), add-collaborator, and the
    two listings, each with its status codes and error messages.
  - The collections are sequences. A document's id is its position.

`js.dfy` holds the small part of JavaScript the code relies on: a value type,
truthiness, `||`, property reads that give `undefined`, and template-literal
rendering. `signalling.dfy` joins the two ends of the signalling path. It
proves what the relay does with the offer, answer and candidate bodies that
the page emits.

The model follows the code wherever a description of the system promises
more than the code does:

- The relay does not buffer messages for offline users.
- There are no email aliases, no heartbeat and no eviction of dead connections.
- There is no sync-step exchange and no debouncing.
- Local edits run their Yjs transaction with the origin `'local'`, but
  nothing reads that tag. The `update` listener forwards every update
  whatever its origin, and remote updates are applied with no origin.
- Disconnect never removes a registry entry. The register handler's
  destructured parameter shadows the connection's own `userEmail`, which stays
  `null`.

Browser and library calls are inputs to the operations:

- The outcome of each WebRTC promise chain (`createOffer`,
  `setLocalDescription`, `setRemoteDescription`, `createAnswer`,
  `addIceCandidate`) is a parameter, and so is the text Yjs holds after
  `applyUpdate`.
- The update bytes Yjs reports and its full-state encoding are parameters.
- The result of the collaborator duplicate test is a parameter.
- Socket.IO connecting and dropping is the operation `SocketChanged`. Timer
  expiry is `ConnectionTimeoutFired` and `SaveStatusTimerFired`.

## Model

| member | source | states |
|---|---|---|
| Js.Or | centralServer/backend/controllers/documentControllers.js:85-86 | the logical-or operator gives `a` when `a` is truthy, else `b`; the result is truthy iff either operand is |
| Relay.Forwarded | centralServer/backend/index.js:73-85 | the forwarded body keeps every property of the message with its value, adds only `senderEmail`/`receiverEmail`, and passes `senderEmail` through unchanged |
| Relay.Handle | centralServer/backend/index.js:73-128 | every handshake yields exactly one emit; it is a forward iff payload and `receiverEmail` are truthy and the receiver is registered, and then goes to the receiver's connection under the same event with every field kept; otherwise an `errorMessage` to the sender with the "Invalid …" or "User … not found or offline." text |
| Relay.Step | centralServer/backend/index.js:38-66 | connect sets the connection's `userEmail` to null; register binds the key to the connection, changes no other key and acknowledges `registerSuccess` with `username` to that connection only; handshakes leave the state unchanged; disconnect with no bound email changes nothing |
| Relay.RunKeepsSessionsUnbound | centralServer/backend/index.js:39-66 | no sequence of events ever binds a connection's `userEmail` |
| Relay.RegistryFollowsLastRegistration | centralServer/backend/index.js:41-66 | after any run the registry maps each key to the connection of its last registration, and keys nobody registered keep their old entry: disconnect never removes an entry |
| Relay.HandshakesKeepState | centralServer/backend/index.js:73-128 | routing never modifies the registry, and each handshake emits exactly once |
| Relay.RelayServer.constructor | centralServer/backend/index.js:36 | the registry starts empty |
| Relay.RelayServer.OnConnection | centralServer/backend/index.js:38-39 | the new connection's `userEmail` is null; the state is `Step`'s |
| Relay.RelayServer.OnRegister | centralServer/backend/index.js:41-47 | the registry maps the payload's `userEmail` to this connection, replacing any earlier binding, and exactly one `registerSuccess` goes to this connection; agrees with `Step` |
| Relay.RelayServer.OnHandshake | centralServer/backend/index.js:94-128 | appends exactly `Handle`'s emit to the log and leaves the registry unchanged; agrees with `Step` |
| Relay.RelayServer.OnDisconnect | centralServer/backend/index.js:61-66 | agrees with `Step`; in any reachable state the registry is unchanged |
| PeerClient.Client.constructor | peer/src/page/Editor.js:14-33 | initial refs and state: status "Disconnected", empty peer email and queue, no peer connection, channel or timeout |
| PeerClient.SocketChanged | peer/src/hooks/useSocket.js:23 | `socketRef.current` becomes the given socket |
| DataChannel.Encode | peer/src/utils/dataChannelUtils.js:20-25 | `Array.from(update)`: one number per byte, same order, each in 0..255 |
| DataChannel.Decode | peer/src/utils/dataChannelUtils.js:45 | `new Uint8Array(numbers)`: one byte per number, each the number modulo 256 |
| DataChannel.DecodeEncode | peer/src/utils/dataChannelUtils.js:33-45 | decoding an encoded update gives back the original bytes |
| DataChannel.EncodeDecode | peer/src/utils/dataChannelUtils.js:45 | a number list of byte values survives decode then encode |
| DataChannel.Dispatch | peer/src/utils/dataChannelUtils.js:41-46 | an update reaches the CRDT iff the message parsed and its `type` is `yjsUpdate`, and then it is the decoded list |
| DataChannel.WireRoundTrip | peer/src/utils/dataChannelUtils.js:20-46 | an update sent by one peer is exactly the update the other peer applies |
| DataChannel.SetupDataChannelEvents | peer/src/utils/dataChannelUtils.js:11-13 | with no current channel nothing changes; otherwise only that channel gets its handlers |
| DataChannel.ChannelOpened | peer/src/utils/dataChannelUtils.js:13-37 | the channel becomes open; if it has handlers, one more update listener is registered and exactly one full-state `yjsUpdate` is sent on the current channel if that one is open |
| DataChannel.ChannelLeftOpen | peer/src/utils/dataChannelUtils.js:56-62 | closing or an error only changes the channel's ready state |
| DataChannel.DocUpdated | peer/src/utils/dataChannelUtils.js:17-27 | a local update is sent once per registered listener, wrapped as `yjsUpdate`, only while the current channel is open; otherwise nothing is sent |
| DataChannel.ChannelMessage | peer/src/utils/dataChannelUtils.js:39-54 | a parse failure, another `type` or an apply failure changes neither the document nor the displayed text; an applied update makes the displayed text equal the shared text |
| Editor.QueuedCandidateEmits | peer/src/page/Editor.js:250-257 | one `candidate` emit per queued candidate, in queue order, each carrying that candidate, the user as sender and the peer as receiver |
| Editor.SendIceCandidate | peer/src/page/Editor.js:35-47 | with a connected socket and a known peer, one emit with `{candidate, senderEmail: userEmail, receiverEmail: peer}` and the queue unchanged; otherwise the candidate is appended to the queue and nothing is emitted |
| Editor.OnIceCandidate | peer/src/page/Editor.js:57-64 | the end-of-gathering null candidate changes nothing; a candidate is either emitted with the queue unchanged, or queued with nothing emitted, as by `SendIceCandidate` |
| Editor.FlushIceCandidates | peer/src/page/Editor.js:242-260 | when user, connected socket, peer and a non-empty queue are all present, every queued candidate is emitted in order and the queue is emptied; otherwise nothing changes |
| Editor.ClearConnectionTimeout | peer/src/page/Editor.js:69-71 | cancels exactly the timer the timeout ref holds |
| Editor.CreatePeerConnection | peer/src/page/Editor.js:49-107 | a fresh peer connection and a data channel with handlers become current, and a fresh pending timeout for that connection becomes the timeout ref; nothing else is removed |
| Editor.OnIceConnectionStateChange | peer/src/page/Editor.js:66-72 | the status shows the ICE state; `connected` cancels the current timeout, any other state leaves the timers alone |
| Editor.OnConnectionStateChange | peer/src/page/Editor.js:74-83 | `connected` cancels the current timeout; ICE is restarted on this connection iff the state is `failed` |
| Editor.ConnectionTimeoutFired | peer/src/page/Editor.js:99-104 | a cancelled timer does nothing; a pending one restarts ICE on its own connection iff that connection's ICE state is not `connected` |
| Editor.EnterPeerEmail | peer/src/page/Editor.js:329 | the peer-email input sets the peer email state |
| Editor.CallPeer | peer/src/page/Editor.js:159-185 | an empty peer email raises "Please enter a peer email" and creates nothing, emits nothing, and leaves every ref and `callInitiated` unchanged; otherwise the ref is bound to the peer before the connection is created, a new data channel with handlers and a new pending timeout become current, the offer goes out with `senderEmail: userEmail`, `receiverEmail` = the bound peer and `documentId`, and `callInitiated` becomes true |
| Editor.HandleTextChange | peer/src/page/Editor.js:203-211 | the displayed text and the whole shared text become the new value |
| Editor.TrimStart | peer/src/page/Editor.js:127 | removes exactly the leading white space: a suffix of the input, starting at a non-space |
| Editor.TrimEnd | peer/src/page/Editor.js:127 | removes exactly the trailing white space: a prefix of the input, ending at a non-space |
| Editor.TrimEmptyIffBlank | peer/src/page/Editor.js:127 | `text.trim()` is empty iff the text is all white space |
| Editor.HandleSave | peer/src/page/Editor.js:126-135 | a text that is empty after trimming sets "Nothing to save" and issues no request; any other text sets "Saving..." and issues one save of the whole text |
| Editor.SaveFinished | peer/src/page/Editor.js:144-156 | saving stops; the status is "Saved successfully!", the server's message, or "Error saving document" |
| Editor.SaveStatusTimerFired | peer/src/page/Editor.js:129 | the status message is cleared |
| SocketHandlers.HandleOffer | peer/src/handlers/socketHandlers.js:1-43 | the peer is bound to the offer's sender before the connection is created; a new data channel with handlers and a new pending timeout become current; the answer is emitted with `senderEmail: userEmail` and `receiverEmail` = the offer's sender; a rejection stops the handler without throwing |
| SocketHandlers.OnDataChannel | peer/src/handlers/socketHandlers.js:20-28 | on the answering side the announced channel becomes current and gets its handlers |
| SocketHandlers.HandleAnswer | peer/src/handlers/socketHandlers.js:45-56 | only the current connection's remote description changes, and only when there is one and the call succeeds |
| SocketHandlers.HandleCandidate | peer/src/handlers/socketHandlers.js:59-81 | with a peer connection, the candidate is added to it and the queue is unchanged; without one, it is appended to the end of the queue |
| Signalling.OfferIsRelayed | centralServer/backend/index.js:94-104 | an offer from `callPeer` always passes the relay's check and reaches the peer's connection with sender, receiver and document id intact, or the caller learns the peer is offline |
| Signalling.AnswerReturnsToCaller | centralServer/backend/index.js:106-116 | the answer from `handleOffer` is relayed to the offer's sender, naming the answering user |
| Signalling.FlushedCandidatesAreRelayed | centralServer/backend/index.js:118-128 | every flushed candidate is relayed to the peer's connection |
| Documents.Updated | centralServer/backend/controllers/documentControllers.js:85-86 | title and content are replaced only by truthy values, otherwise kept; nothing else changes |
| Documents.UpdateIdempotent | centralServer/backend/controllers/documentControllers.js:85-86 | repeating an update changes nothing more |
| Documents.FindUserByEmail | centralServer/backend/controllers/documentControllers.js:109 | a stored user with that email, and none exactly when no user has it |
| Documents.OwnedBy | centralServer/backend/controllers/documentControllers.js:50 | exactly the stored documents with that owner, each as many times as it is stored (a multiset filter) |
| Documents.SharedWith | centralServer/backend/controllers/documentControllers.js:64-65 | exactly the shared records of that user, each as many times as it is stored (a multiset filter) |
| Documents.Populate | centralServer/backend/controllers/documentControllers.js:64-73 | each record replaced, in order, by the document it names |
| Documents.DocumentStore.constructor | centralServer/backend/controllers/documentControllers.js:1-5 | no documents and no shared records |
| Documents.DocumentStore.CreateDocument | centralServer/backend/controllers/documentControllers.js:8-28 | stores one document owned by the user with the given title and content and no collaborators, and answers 201 with it |
| Documents.DocumentStore.GetDocument | centralServer/backend/controllers/documentControllers.js:31-40 | 404 "Document not found" iff the id is unknown, otherwise 200 with that document |
| Documents.DocumentStore.UpdateDocument | centralServer/backend/controllers/documentControllers.js:82-93 | an unknown id gives 404 and no change; otherwise only that document changes, as `Updated` says, and it is returned |
| Documents.DocumentStore.AddCollaborator | centralServer/backend/controllers/documentControllers.js:99-136 | document checked before user; unknown document or user gives 404, a duplicate 400, each with no change; on success exactly one `{userId, email}` entry and one shared record are added |
| Documents.DocumentStore.GetUserDocuments | centralServer/backend/controllers/documentControllers.js:42-58 | 404 iff the user owns no document, otherwise exactly the user's documents, each once per stored copy |
| Documents.DocumentStore.GetSharedDocuments | centralServer/backend/controllers/documentControllers.js:60-76 | 404 iff the user has no shared record, otherwise the user's records, in order, mapped to their documents |

## Left out

- Transport and I/O are not modelled: the Socket.IO transport, HTTP server
  start-up, Express routing, the MongoDB connection, and console logging.
  Connections are ids and every emit goes into a log.
- Socket event wiring (`peer/src/hooks/useSocket.js`) is not modelled. It only
  attaches handlers, and the page never passes `handleOffer`, `handleAnswer`
  or `handleCandidate` to it, so the handlers are modelled as standalone
  operations.
- WebRTC and ICE internals are opaque. Each promise chain completes at once,
  with its outcome as a parameter, so interleavings of concurrently pending
  promises are not modelled.
- The Yjs CRDT is opaque: merging, the text after `applyUpdate`, and the bytes
  of `update` events and of `encodeStateAsUpdate`. An `update` listener fires
  for remote updates as well as local ones; the model has one operation,
  `DocUpdated`, for each update the CRDT reports.
- Remote candidates handled with no peer connection go into the same queue
  the page uses for its own outgoing candidates. The model keeps the single
  shared queue.
- The queue-flush effect's dependencies are `userEmail` and `socketRef`.
  `socketRef` is a stable ref object, so after mount the effect runs again
  only when `userEmail` changes. A candidate queued while the socket was not
  yet connected is then in practice never flushed. The model offers the flush
  as an operation and does not model when React runs effects.
- The `register` emit and the status updates of the socket's `connect`,
  `disconnect` and `registerSuccess` handlers are not modelled.
  `SocketChanged` only replaces `socketRef.current`.
- Not modelled from the page:
  - the effect at peer/src/page/Editor.js:187-201, which is a no-op on first
    render;
  - the Yjs observer;
  - the unmount cleanup;
  - the collaborator fetch and the client-side add-collaborator request;
  - rendering.
- Mongoose schema validation, `trim` on schema fields, ObjectId casting, and
  timestamps are not modelled. `findById` on a malformed id answers 404 here.
- Documents.DocumentStore.CreateDocument: answers 201 for every input. The
  source answers 500 "Server error" whenever creation throws. That includes
  input-driven cases: a body without `user` (reading `user._id` throws), a
  `user._id` that is not an ObjectId, or a missing title (the schema requires
  one). Database failures also give 500. Owners here are always valid ids and
  titles are not validated. The 400 "Failed to create document" branch is
  unreachable, because `Document.create` never resolves to a falsy value.
- The 400 "User ID not found" path in `getUserDocuments` is not modelled. User
  ids are natural numbers here, so the id is always present.
- Documents.DocumentStore.AddCollaborator: the duplicate test is a boolean
  parameter. The source compares an id against `{userId, email}` entries, and
  its meaning depends on Mongoose's array `includes`.
- JavaScript values are limited to integers for numbers: there is no NaN,
  infinity or fractional number. A non-object payload (`undefined` passed to
  a destructuring handler) throws in the source; the model assumes every
  payload is an object.
- DataChannel.Decode: an `update` field that is not an array of numbers
  (which `Uint8Array` would accept or reject in many ways) is not modelled.
  The received `update` is always a number list.
- Timer delays (15 s, 3 s, 5 s) are not modelled. A timer firing is an
  explicit operation.
- UI pages, authentication, the Signup form and the configuration constants
  are not part of this model.
