/** The data-channel envelope and handlers.

    A CRDT update is a byte string. It travels over the data channel as the
    JSON text of `{type: 'yjsUpdate', update: Array.from(bytes)}` and is turned
    back into bytes with `new Uint8Array(data.update)`, which reduces every
    number modulo 256. The CRDT itself is opaque: its full-state encoding, the
    update bytes it reports and the text it holds after applying an update are
    parameters of the handlers below. */
module DataChannel {
  import opened Js
  import opened PeerClient

  const UpdateKind := "yjsUpdate"

  /** `Array.from(update)`: one number per byte, in order. */
  function Encode(update: seq<byte>): (r: seq<int>)
    ensures |r| == |update|
    ensures forall i :: 0 <= i < |update| ==> r[i] == update[i] as int
    ensures forall i :: 0 <= i < |r| ==> 0 <= r[i] < 256
    decreases |update|
  {
    if update == [] then [] else Encode(update[..|update| - 1]) + [update[|update| - 1] as int]
  }

  /** `new Uint8Array(numbers)`: each integer is converted by ToUint8, that is
      reduced modulo 2^8 into 0..255. */
  function Decode(numbers: seq<int>): (r: seq<byte>)
    ensures |r| == |numbers|
    ensures forall i :: 0 <= i < |numbers| ==> r[i] as int == numbers[i] % 256
    decreases |numbers|
  {
    if numbers == [] then [] else Decode(numbers[..|numbers| - 1]) + [(numbers[|numbers| - 1] % 256) as byte]
  }

  /** Decoding an encoded update gives back the same bytes. */
  lemma {:induction false} DecodeEncode(update: seq<byte>)
    ensures Decode(Encode(update)) == update
  {
    // Follows index by index from the contracts of Encode and Decode.
  }

  /** A number list that only holds byte values survives the opposite trip. */
  lemma {:induction false} EncodeDecode(numbers: seq<int>)
    requires forall i :: 0 <= i < |numbers| ==> 0 <= numbers[i] < 256
    ensures Encode(Decode(numbers)) == numbers
  {
    // A byte value is its own residue modulo 256; the contracts of Decode and
    // Encode then give the equality index by index.
  }

  function Wrap(update: seq<byte>): Envelope
  {
    Envelope(UpdateKind, Encode(update))
  }

  /** What `onmessage` gets after `JSON.parse(event.data)`: either the parse
      failed, or an object with a `type` and an `update` number list. */
  datatype Received = Unparsable | Parsed(kind: JsValue, update: seq<int>)

  /** The text on the wire, parsed back at the other end. */
  function Deliver(e: Envelope): Received
  {
    Parsed(Str(e.kind), e.update)
  }

  /** The update that `onmessage` hands to the CRDT: present exactly for a
      parsed `yjsUpdate` message, and then the decoded number list. */
  function Dispatch(data: Received): (r: Option<seq<byte>>)
    ensures r.Some? <==> data.Parsed? && data.kind == Str(UpdateKind)
    ensures r.Some? ==> |r.value| == |data.update|
    ensures r.Some? ==> forall i :: 0 <= i < |r.value| ==> r.value[i] as int == data.update[i] % 256
  {
    if data.Parsed? && data.kind == Str(UpdateKind) then Some(Decode(data.update)) else None
  }

  /** An update sent by one peer is the update the other peer applies. */
  lemma WireRoundTrip(update: seq<byte>)
    ensures Dispatch(Deliver(Wrap(update))) == Some(update)
  {
    DecodeEncode(update);
  }

  /** `n` copies of one send. */
  function Copies<T>(x: T, n: nat): (r: seq<T>)
    ensures |r| == n
    ensures forall i :: 0 <= i < n ==> r[i] == x
  {
    seq(n, _ => x)
  }

  /** Whether `dataChannelRef.current` is a channel in state `open`. */
  predicate CurrentOpen(channels: seq<Channel>, current: Option<nat>)
  {
    current.Some? && current.value < |channels| && channels[current.value].readyState == Open
  }

  /** setupDataChannelEvents: with no current channel, nothing; otherwise the
      current channel's handlers are assigned. */
  method SetupDataChannelEvents(c: Client)
    requires c.Valid()
    modifies c`channels
    ensures c.Valid()
    ensures c.dataChannel.None? ==> c.channels == old(c.channels)
    ensures c.dataChannel.Some? ==>
              c.channels == old(c.channels)[c.dataChannel.value := old(c.channels)[c.dataChannel.value].(handlersSet := true)]
  {
    if c.dataChannel.None? {
      return;
    }
    var ch := c.dataChannel.value;
    c.channels := c.channels[ch := c.channels[ch].(handlersSet := true)];
  }

  /** The transport opens channel `ch`, which runs its `onopen` if one is
      assigned: one more CRDT 'update' listener, then one send of the full
      state on the current channel (`send` on a missing or unopened channel
      throws, and nothing is sent). */
  method ChannelOpened(c: Client, ch: nat, fullState: seq<byte>)
    requires c.Valid() && ch < |c.channels|
    modifies c`channels, c`updateListeners, c`sent
    ensures c.Valid()
    ensures c.channels == old(c.channels)[ch := old(c.channels)[ch].(readyState := Open)]
    ensures !old(c.channels)[ch].handlersSet ==> c.updateListeners == old(c.updateListeners) && c.sent == old(c.sent)
    ensures old(c.channels)[ch].handlersSet ==>
              && c.updateListeners == old(c.updateListeners) + 1
              && c.sent == old(c.sent) + (if CurrentOpen(c.channels, c.dataChannel) then [(c.dataChannel.value, Wrap(fullState))] else [])
  {
    c.channels := c.channels[ch := c.channels[ch].(readyState := Open)];
    if !c.channels[ch].handlersSet {
      return;
    }
    c.updateListeners := c.updateListeners + 1;
    if CurrentOpen(c.channels, c.dataChannel) {
      c.sent := c.sent + [(c.dataChannel.value, Wrap(fullState))];
    }
  }

  /** The transport moves channel `ch` to a state other than open; its
      `onclose` and `onerror` handlers only log. */
  method ChannelLeftOpen(c: Client, ch: nat, st: ReadyState)
    requires c.Valid() && ch < |c.channels| && st != Open
    modifies c`channels
    ensures c.Valid()
    ensures c.channels == old(c.channels)[ch := old(c.channels)[ch].(readyState := st)]
  {
    c.channels := c.channels[ch := c.channels[ch].(readyState := st)];
  }

  /** The CRDT reports an update: each registered listener sends it on the
      current channel, and only while that channel is open. */
  method DocUpdated(c: Client, update: seq<byte>)
    requires c.Valid()
    modifies c`sent
    ensures CurrentOpen(c.channels, c.dataChannel) ==>
              c.sent == old(c.sent) + Copies((c.dataChannel.value, Wrap(update)), c.updateListeners)
    ensures !CurrentOpen(c.channels, c.dataChannel) ==> c.sent == old(c.sent)
  {
    if CurrentOpen(c.channels, c.dataChannel) {
      c.sent := c.sent + Copies((c.dataChannel.value, Wrap(update)), c.updateListeners);
    }
  }

  /** `onmessage` of channel `ch`. `merged` is what the CRDT does with the
      decoded update: `None` when `applyUpdate` throws, otherwise the shared
      text afterwards. A parse failure, a message of another type and an apply
      failure are all swallowed and change nothing; an applied update becomes
      both the shared text and the displayed text. */
  method ChannelMessage(c: Client, ch: nat, data: Received, merged: Option<string>)
    requires ch < |c.channels|
    modifies c`sharedText, c`text, c`appliedUpdates
    ensures var applies := c.channels[ch].handlersSet && Dispatch(data).Some? && merged.Some?;
            && (applies ==>
                  && c.sharedText == merged.value
                  && c.text == c.sharedText
                  && c.appliedUpdates == old(c.appliedUpdates) + [Dispatch(data).value])
            && (!applies ==>
                  c.sharedText == old(c.sharedText) && c.text == old(c.text) && c.appliedUpdates == old(c.appliedUpdates))
  {
    if !c.channels[ch].handlersSet {
      return;
    }
    var update := Dispatch(data);
    if update.None? || merged.None? {
      return;
    }
    c.sharedText := merged.value;
    c.appliedUpdates := c.appliedUpdates + [update.value];
    c.text := c.sharedText;
  }
}
