/**
 * Reassembly of MQTT payloads that arrive in several fragments.
 * Step says what one data event does to the buffer; PayloadBuffer does it in place on a byte array.
 */
module PayloadBuffers {
  import opened Basics
  import opened Sequences

  /** A data event of the transport: topic only on the first fragment, offset and total of the whole payload. */
  datatype Event = Event(topic: Option<string>, data: seq<byte>, total: nat, offset: nat)

  datatype Message = Message(topic: string, payload: seq<byte>)

  /** The buffer: a copied topic, the allocated payload block and the number of bytes copied into it. */
  datatype Buffer = Buffer(topic: Option<string>, payload: Option<seq<byte>>, total: nat, received: nat)

  const EMPTY := Buffer(None, None, 0, 0)

  /** The bytes of block from start on replaced by data: what memcpy leaves behind. */
  function Overwrite(block: seq<byte>, start: nat, data: seq<byte>): (r: seq<byte>)
    requires start + |data| <= |block|
    ensures |r| == |block|
    ensures forall k :: 0 <= k < |r| ==> r[k] == if start <= k < start + |data| then data[k - start] else block[k]
  {
    block[..start] + data + block[start + |data|..]
  }

  predicate HasTopic(topic: Option<string>) {
    topic.Some? && topic.value != ""
  }

  predicate IsWhole(e: Event) {
    HasTopic(e.topic) && |e.data| >= e.total
  }

  predicate IsComplete(b: Buffer) {
    HasTopic(b.topic) && b.payload.Some? && b.received >= b.total
  }

  /** A block has the size it was allocated with; under a topic, no more bytes were counted than it holds. */
  predicate Valid(b: Buffer) {
    b.payload.Some? ==>
      |b.payload.value| == b.total <= MAX_RX_MSG_LENGTH && (HasTopic(b.topic) ==> b.received <= b.total)
  }

  /** The event is neither refused nor delivered as it comes, but fed to the buffer. */
  predicate IsFed(e: Event) {
    e.total <= MAX_RX_MSG_LENGTH && (e.offset == 0 || e.offset < e.total) && !IsWhole(e)
  }

  /** There is something to copy, and a block for it. */
  predicate IsCopied(b: Buffer, e: Event) {
    e.data != [] && e.total > 0 && (b.payload.Some? ==> b.total == e.total)
  }

  /** The fragment lies inside the block, and what is counted as received under a topic does too. */
  predicate CopyFits(b: Buffer, e: Event) {
    IsCopied(b, e) ==>
      && e.offset + |e.data| <= e.total
      && (b.payload.Some? && HasTopic(b.topic) ==> b.received + |e.data| <= e.total)
  }

  /** The buffer an event is fed to: a topic starts a new message. */
  function Cleared(b: Buffer, e: Event): Buffer {
    if e.topic.Some? then EMPTY else b
  }

  /** Copying and handing out stay inside the block: what C asks of memcpy and of the reader of the payload. */
  predicate StaysInside(b: Buffer, e: Event) {
    IsFed(e) ==> CopyFits(Cleared(b, e), e)
  }

  /** garbage is what a block allocated for this event happens to contain. */
  predicate CanStep(b: Buffer, e: Event, garbage: seq<byte>) {
    Valid(b) && StaysInside(b, e) && |garbage| == e.total
  }

  function Feed(b: Buffer, e: Event, garbage: seq<byte>): (r: Buffer)
    requires Valid(b) && CopyFits(b, e) && |garbage| == e.total <= MAX_RX_MSG_LENGTH
    requires e.topic.Some? ==> b == EMPTY
    ensures Valid(r)
  {
    var b1 := if HasTopic(e.topic) then b.(topic := e.topic) else b;
    if !IsCopied(b, e) then b1
    else if b1.payload.None? then
      b1.(payload := Some(Overwrite(garbage, e.offset, e.data)), total := e.total, received := |e.data|)
    else b1.(payload := Some(Overwrite(b1.payload.value, e.offset, e.data)), received := b1.received + |e.data|)
  }

  /** One data event: the new buffer and the message handed to the client, if any. A delivery empties the buffer. */
  function Step(b: Buffer, e: Event, garbage: seq<byte>): (r: (Buffer, Option<Message>))
    requires CanStep(b, e, garbage)
    ensures Valid(r.0)
    ensures r.1.Some? ==> r.0 == EMPTY
  {
    if e.total > MAX_RX_MSG_LENGTH || (e.offset > 0 && e.offset >= e.total) then (b, None)
    else
      var b1 := Cleared(b, e);
      if IsWhole(e) then (b1, Some(Message(e.topic.value, e.data)))
      else
        var b2 := Feed(b1, e, garbage);
        if IsComplete(b2) then (EMPTY, Some(Message(b2.topic.value, b2.payload.value[..b2.received])))
        else (b2, None)
  }

  // ---- The buffer in place -----------------------------------------------------------------------

  method CopyInto(block: array<byte>, start: nat, data: seq<byte>)
    requires start + |data| <= block.Length
    modifies block
    ensures block[..] == Overwrite(old(block[..]), start, data)
  {
    var i := 0;
    while i < |data|
      invariant i <= |data|
      invariant forall k :: 0 <= k < block.Length ==>
        block[k] == if start <= k < start + i then data[k - start] else old(block[k])
    {
      block[start + i] := data[i];
      i := i + 1;
    }
  }

  class PayloadBuffer {
    var topic: Option<string>
    var payload: array?<byte>
    var total: nat
    var received: nat

    ghost function Contents(): Buffer
      reads this, payload
    {
      Buffer(topic, if payload == null then None else Some(payload[..]), total, received)
    }

    constructor ()
      ensures Contents() == EMPTY
    {
      topic, payload, total, received := None, null, 0, 0;
    }

    method Free()
      modifies this
      ensures Contents() == EMPTY
      ensures payload == null
    {
      topic, payload, total, received := None, null, 0, 0;
    }

    method FeedEvent(e: Event) returns (ghost garbage: seq<byte>)
      requires Valid(Contents()) && CopyFits(Contents(), e) && e.total <= MAX_RX_MSG_LENGTH
      requires e.topic.Some? ==> Contents() == EMPTY
      modifies this, payload
      ensures |garbage| == e.total
      ensures Contents() == Feed(old(Contents()), e, garbage)
      ensures payload == old(payload) || fresh(payload)
    {
      garbage := seq(e.total, _ => 0);
      if e.topic.Some? && e.topic.value != "" {
        topic := e.topic;
      }
      if |e.data| > 0 && e.total > 0 {
        if payload == null {
          total, received := 0, 0;
          var block := new byte[e.total];
          garbage := block[..];
          payload := block;
          total := e.total;
          received := received + |e.data|;
          CopyInto(block, e.offset, e.data);
        } else {
          if total != e.total {
            return;
          }
          CopyInto(payload, e.offset, e.data);
          received := received + |e.data|;
        }
      }
    }

    method Process(e: Event) returns (delivered: Option<Message>, ghost garbage: seq<byte>)
      requires Valid(Contents()) && StaysInside(Contents(), e)
      modifies this, payload
      ensures CanStep(old(Contents()), e, garbage)
      ensures (Contents(), delivered) == Step(old(Contents()), e, garbage)
      ensures payload == null || payload == old(payload) || fresh(payload)
    {
      garbage := seq(e.total, _ => 0);
      delivered := None;
      if e.total > MAX_RX_MSG_LENGTH {
        return;
      }
      if e.offset > 0 && e.offset >= e.total {
        return;
      }
      if e.topic.Some? {
        Free();
      }
      if IsWhole(e) {
        delivered := Some(Message(e.topic.value, e.data));
        return;
      }
      garbage := FeedEvent(e);
      if topic.Some? && topic.value != "" && payload != null && received >= total {
        delivered := Some(Message(topic.value, payload[..received]));
        Free();
      }
    }
  }
}
