/** The client's handlers for signalling messages that arrive from the relay.

    Each handler receives the page's refs and changes them. The browser's
    asynchronous peer-connection calls are opaque; their outcome is a
    parameter. Every handler wraps its work in try/catch, so a rejected call
    ends the handler with whatever it had already changed and nothing thrown. */
module SocketHandlers {
  import opened Js
  import opened PeerClient
  import DataChannel
  import Editor

  /** How far answering an offer gets: setRemoteDescription rejects, or
      createAnswer / setLocalDescription rejects after the remote description
      is set, or all three resolve with the given answer. */
  datatype Negotiation = RemoteRejected | AnswerRejected | Answered(answer: JsValue)

  /** The body of the `answer` emit. */
  function AnswerEmit(answer: JsValue, sender: JsValue, receiver: JsValue): SocketEmit
  {
    SocketEmit("answer", map["answer" := answer, "senderEmail" := sender, "receiverEmail" := receiver])
  }

  /** handleOffer: bind the peer to the offer's sender, then create a peer
      connection that will accept the remote data channel, then negotiate.
      A successful negotiation emits the answer back to the offer's sender
      (when a socket exists); a rejection is caught. */
  method HandleOffer(c: Client, offer: JsValue, senderEmail: JsValue, negotiation: Negotiation)
    requires c.Valid()
    modifies c`peerEmail, c`peerEmailRef, c`pcs, c`channels, c`dataChannel, c`peerConnection,
             c`timers, c`connectionTimeout, c`outbox
    ensures c.Valid()
    ensures c.peerEmail == senderEmail && c.peerEmailRef == senderEmail
    ensures c.peerConnection == Some(|old(c.pcs)|)
    ensures |c.pcs| == |old(c.pcs)| + 1 && c.pcs[..|old(c.pcs)|] == old(c.pcs)
    ensures c.pcs[|old(c.pcs)|] ==
              match negotiation
              case RemoteRejected => NewPeerConnection.(answersDataChannel := true)
              case AnswerRejected => NewPeerConnection.(answersDataChannel := true, remoteDescription := offer)
              case Answered(a) => NewPeerConnection.(answersDataChannel := true, remoteDescription := offer, localDescription := a)
    ensures c.channels == old(c.channels) + [Channel(Connecting, true)]
    ensures c.dataChannel == Some(|old(c.channels)|)
    ensures c.timers == old(c.timers) + [Timer(|old(c.pcs)|, true)]
    ensures c.connectionTimeout == Some(|old(c.timers)|)
    ensures c.outbox == old(c.outbox) +
              (if negotiation.Answered? && c.socket.Socket? then [AnswerEmit(negotiation.answer, c.userEmail, senderEmail)] else [])
  {
    c.peerEmail := senderEmail;
    c.peerEmailRef := senderEmail;
    var pc := Editor.CreatePeerConnection(c);
    c.pcs := c.pcs[pc := c.pcs[pc].(answersDataChannel := true)];
    if negotiation.RemoteRejected? {
      return;
    }
    c.pcs := c.pcs[pc := c.pcs[pc].(remoteDescription := offer)];
    if negotiation.AnswerRejected? {
      return;
    }
    c.pcs := c.pcs[pc := c.pcs[pc].(localDescription := negotiation.answer)];
    if c.socket.Socket? {
      c.outbox := c.outbox + [AnswerEmit(negotiation.answer, c.userEmail, c.peerEmailRef)];
    }
  }

  /** `ondatachannel` of peer connection `pc`, set only by handleOffer: the
      announced channel becomes the current channel and gets its handlers. */
  method OnDataChannel(c: Client, pc: nat)
    requires c.Valid() && pc < |c.pcs|
    modifies c`channels, c`dataChannel
    ensures c.Valid()
    ensures !c.pcs[pc].answersDataChannel ==> c.channels == old(c.channels) && c.dataChannel == old(c.dataChannel)
    ensures c.pcs[pc].answersDataChannel ==>
              c.channels == old(c.channels) + [Channel(Connecting, true)] && c.dataChannel == Some(|old(c.channels)|)
  {
    if !c.pcs[pc].answersDataChannel {
      return;
    }
    c.channels := c.channels + [Channel(Connecting, false)];
    c.dataChannel := Some(|c.channels| - 1);
    DataChannel.SetupDataChannelEvents(c);
  }

  /** handleAnswer: set the remote description of the current peer
      connection. With no peer connection the call throws and is caught;
      a rejected call is caught too. No peer is bound and no queue changes. */
  method HandleAnswer(c: Client, answer: JsValue, accepted: bool)
    requires c.Valid()
    modifies c`pcs
    ensures c.Valid()
    ensures c.peerConnection.Some? && accepted ==>
              c.pcs == old(c.pcs)[c.peerConnection.value := old(c.pcs)[c.peerConnection.value].(remoteDescription := answer)]
    ensures !(c.peerConnection.Some? && accepted) ==> c.pcs == old(c.pcs)
  {
    if c.peerConnection.None? || !accepted {
      return;
    }
    var pc := c.peerConnection.value;
    c.pcs := c.pcs[pc := c.pcs[pc].(remoteDescription := answer)];
  }

  /** handleCandidate: with a peer connection, add the candidate to it (a
      rejected add is caught) and leave the queue alone; without one, append
      the candidate to the end of the queue. */
  method HandleCandidate(c: Client, candidate: JsValue, accepted: bool)
    requires c.Valid()
    modifies c`pcs, c`iceCandidatesQueue
    ensures c.Valid()
    ensures c.peerConnection.Some? ==> c.iceCandidatesQueue == old(c.iceCandidatesQueue)
    ensures c.peerConnection.Some? && accepted ==>
              c.pcs == old(c.pcs)[c.peerConnection.value :=
                old(c.pcs)[c.peerConnection.value].(candidates := old(c.pcs)[c.peerConnection.value].candidates + [candidate])]
    ensures c.peerConnection.Some? && !accepted ==> c.pcs == old(c.pcs)
    ensures c.peerConnection.None? ==>
              c.iceCandidatesQueue == old(c.iceCandidatesQueue) + [candidate] && c.pcs == old(c.pcs)
  {
    if c.peerConnection.None? {
      c.iceCandidatesQueue := c.iceCandidatesQueue + [candidate];
      return;
    }
    if accepted {
      var pc := c.peerConnection.value;
      c.pcs := c.pcs[pc := c.pcs[pc].(candidates := c.pcs[pc].candidates + [candidate])];
    }
  }
}
