/** What every single data event does to the receive buffer, also one no transport should send, in plain values. */
module PayloadLaws {
  import opened Basics
  import opened Sequences
  import opened PayloadBuffers

  /** An event that announces more than 128 KiB, or lies behind the end of its payload, is dropped. */
  lemma RefusedEvent(b: Buffer, e: Event, garbage: seq<byte>)
    requires CanStep(b, e, garbage) && (e.total > 131072 || (e.offset > 0 && e.offset >= e.total))
    ensures Step(b, e, garbage) == (b, None)
  {}

  /** An event with a topic and all of its payload is delivered as it is, whatever the buffer held; that is freed. */
  lemma WholeEvent(b: Buffer, e: Event, garbage: seq<byte>)
    requires CanStep(b, e, garbage) && e.total <= 131072 && (e.offset == 0 || e.offset < e.total)
    requires e.topic.Some? && e.topic.value != "" && |e.data| >= e.total
    ensures Step(b, e, garbage) == (Buffer(None, None, 0, 0), Some(Message(e.topic.value, e.data)))
  {}

  /**
   * Any other event: a topic frees what the buffer held and is remembered unless it is empty; bytes are copied to their
   * place in the block, which is allocated for the first ones, unless the block was allocated for another length; and a
   * message is delivered if and only if there is a topic and as many bytes were counted as were announced.
   */
  lemma FedEvent(b: Buffer, e: Event, garbage: seq<byte>)
    requires CanStep(b, e, garbage) && e.total <= 131072 && (e.offset == 0 || e.offset < e.total)
    requires !(e.topic.Some? && e.topic.value != "" && |e.data| >= e.total)
    ensures var held := if e.topic.Some? then Buffer(None, None, 0, 0) else b;
            var topic := if e.topic.Some? && e.topic.value != "" then e.topic else held.topic;
            var copied := e.data != [] && e.total > 0 && (held.payload.Some? ==> held.total == e.total);
            var received := if !copied then held.received
                            else if held.payload.Some? then held.received + |e.data|
                            else |e.data|;
            var total := if copied then e.total else held.total;
            var hasBlock := copied || held.payload.Some?;
            var full := topic.Some? && topic.value != "" && hasBlock && received >= total;
            var r := Step(b, e, garbage);
            && (r.1.Some? <==> full)
            && (full ==> r.0 == Buffer(None, None, 0, 0) && r.1.value.topic == topic.value)
            && (full ==> Holds(r.1.value.payload, received, held, e, copied, garbage))
            && (!full ==> r.0.topic == topic && r.0.received == received && r.0.total == total)
            && (!full ==> (r.0.payload.Some? <==> hasBlock))
            && (!full && hasBlock ==> Holds(r.0.payload.value, total, held, e, copied, garbage))
  {
    hide Holds, Feed;
    var held := if e.topic.Some? then Buffer(None, None, 0, 0) else b;
    FeedOutcome(held, e, garbage);
    var fed := Feed(held, e, garbage);
    if fed.payload.Some? && fed.received <= fed.total {
      var copied := e.data != [] && e.total > 0 && (held.payload.Some? ==> held.total == e.total);
      HoldsPrefix(fed.payload.value, fed.received, held, e, copied, garbage);
    }
  }

  lemma FeedOutcome(held: Buffer, e: Event, garbage: seq<byte>)
    requires Valid(held) && CopyFits(held, e) && |garbage| == e.total <= 131072
    requires e.topic.Some? ==> held == EMPTY
    ensures var copied := e.data != [] && e.total > 0 && (held.payload.Some? ==> held.total == e.total);
            var r := Feed(held, e, garbage);
            && r.topic == (if e.topic.Some? && e.topic.value != "" then e.topic else held.topic)
            && r.total == (if copied then e.total else held.total)
            && r.received == (if !copied then held.received
                              else if held.payload.Some? then held.received + |e.data|
                              else |e.data|)
            && (r.payload.Some? <==> copied || held.payload.Some?)
            && (r.payload.Some? ==> Holds(r.payload.value, r.total, held, e, copied, garbage))
  {}

  lemma HoldsPrefix(bytes: seq<byte>, n: nat, held: Buffer, e: Event, copied: bool, garbage: seq<byte>)
    requires n <= |bytes| && Holds(bytes, |bytes|, held, e, copied, garbage)
    ensures Holds(bytes[..n], n, held, e, copied, garbage)
  {
    assert forall k :: 0 <= k < n ==> bytes[..n][k] == bytes[k];
  }

  /** The first n bytes of the block: what was copied now, and elsewhere what was there or what memory contained. */
  predicate Holds(bytes: seq<byte>, n: nat, held: Buffer, e: Event, copied: bool, garbage: seq<byte>) {
    && |bytes| == n
    && (forall k :: 0 <= k < n && copied && e.offset <= k < e.offset + |e.data| ==> bytes[k] == e.data[k - e.offset])
    && (forall k :: 0 <= k < n && !(copied && e.offset <= k < e.offset + |e.data|) ==>
          if held.payload.Some? then k < |held.payload.value| && bytes[k] == held.payload.value[k]
          else k < |garbage| && bytes[k] == garbage[k])
  }
}
