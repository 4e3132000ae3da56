/** The two ends of the signalling path together: what the relay does with
    the bodies the editor page and the socket handlers emit. */
module Signalling {
  import opened Js
  import Relay
  import Editor
  import SocketHandlers

  /** An offer from callPeer passes the relay's check whenever the local
      description is truthy (callPeer only runs with a truthy peer), and then
      reaches the peer's registered connection with the sender, the receiver
      and the document id unchanged; an unregistered peer sends the caller
      "User ... not found or offline." instead. */
  lemma OfferIsRelayed(reg: Relay.Registry, from: Relay.ConnId, offer: JsValue, sender: JsValue, peer: JsValue, documentId: JsValue)
    requires Truthy(offer) && Truthy(peer)
    ensures var body := Editor.OfferEmit(offer, sender, peer, documentId).body;
            var r := Relay.Handle(reg, from, Relay.Offer, body);
            && Relay.WellFormed(Relay.Offer, body)
            && (peer in reg ==>
                  && r[0] == Relay.Emit(reg[peer], "offer", r[0].body)
                  && Field(r[0].body, "offer") == offer
                  && Field(r[0].body, "senderEmail") == sender
                  && Field(r[0].body, "receiverEmail") == peer
                  && Field(r[0].body, "documentId") == documentId)
            && (peer !in reg ==>
                  r == [Relay.Emit(from, "errorMessage", Relay.ErrorBody(Relay.NotFoundText(peer)))])
  {
    // Relay.Handle's contract applied to the emitted body.
  }

  /** The answer from handleOffer goes back to the offer's sender: when that
      sender is registered, the relay delivers the answer to it, naming the
      answering user as sender. */
  lemma AnswerReturnsToCaller(reg: Relay.Registry, from: Relay.ConnId, answer: JsValue, userEmail: JsValue, caller: JsValue)
    requires Truthy(answer) && Truthy(caller) && caller in reg
    ensures var body := SocketHandlers.AnswerEmit(answer, userEmail, caller).body;
            var r := Relay.Handle(reg, from, Relay.Answer, body);
            && r[0].to == reg[caller]
            && r[0].event == "answer"
            && Field(r[0].body, "answer") == answer
            && Field(r[0].body, "senderEmail") == userEmail
  {
    // Relay.Handle's contract applied to the emitted body.
  }

  /** Every candidate of a queue flush is relayed, in order, to the peer's
      registered connection. */
  lemma FlushedCandidatesAreRelayed(reg: Relay.Registry, from: Relay.ConnId, queue: seq<JsValue>, sender: JsValue, peer: JsValue)
    requires forall i :: 0 <= i < |queue| ==> Truthy(queue[i])
    requires Truthy(peer) && peer in reg
    ensures var emits := Editor.QueuedCandidateEmits(queue, sender, peer);
            forall i :: 0 <= i < |queue| ==>
              var r := Relay.Handle(reg, from, Relay.Candidate, emits[i].body);
              && r[0].to == reg[peer]
              && r[0].event == "candidate"
              && Field(r[0].body, "candidate") == queue[i]
  {
    // Relay.Handle's contract applied to the emitted body.
  }
}
