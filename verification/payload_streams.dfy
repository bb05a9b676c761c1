/** Reassembly over whole streams: the messages delivered are the complete ones, in order, once each. */
module PayloadStreams {
  import opened Basics
  import opened Sequences
  import opened PayloadBuffers

  /** A message on the wire: the fragments that arrived before it was finished or cut off. */
  datatype Transfer = Transfer(topic: string, fragments: seq<seq<byte>>, total: nat)

  predicate ValidTransfer(t: Transfer) {
    && t.topic != ""
    && |t.fragments| > 0
    && |Flatten(t.fragments)| <= t.total
    && (t.fragments == [[]] || forall k :: 0 <= k < |t.fragments| ==> t.fragments[k] != [])
    && (t.fragments == [[]] ==> t.total == 0)
  }

  predicate IsFinished(t: Transfer) {
    |Flatten(t.fragments)| == t.total
  }

  /** The first n data events of a transfer: contiguous, in order, topic only on the first. */
  function Events(t: Transfer, n: nat): (es: seq<Event>)
    requires n <= |t.fragments|
    ensures |es| == n
  {
    if n == 0 then [] else Events(t, n - 1) + [EventAt(t, n - 1)]
  }

  function EventAt(t: Transfer, k: nat): Event
    requires k < |t.fragments|
  {
    Event(if k == 0 then Some(t.topic) else None, t.fragments[k], t.total, |Flatten(t.fragments[..k])|)
  }

  function StreamEvents(ts: seq<Transfer>): seq<Event> {
    if ts == [] then []
    else StreamEvents(ts[..|ts| - 1]) + Events(ts[|ts| - 1], |ts[|ts| - 1].fragments|)
  }

  /** The specification: every finished message of acceptable size, in order, once. */
  function Expected(ts: seq<Transfer>): seq<Message> {
    if ts == [] then [] else Expected(ts[..|ts| - 1]) + Delivered(ts[|ts| - 1])
  }

  function Delivered(t: Transfer): seq<Message> {
    if IsFinished(t) && t.total <= 131072 then [Message(t.topic, Flatten(t.fragments))] else []
  }

  /** Every event of the run meets what the buffer asks of it. */
  predicate CanRun(b: Buffer, es: seq<Event>, garbage: seq<seq<byte>>)
    decreases |es|, 0
  {
    && |garbage| == |es|
    && (es != [] ==>
          && CanRun(b, es[..|es| - 1], garbage[..|es| - 1])
          && CanStep(Run(b, es[..|es| - 1], garbage[..|es| - 1]).0, es[|es| - 1], garbage[|es| - 1]))
  }

  function Run(b: Buffer, es: seq<Event>, garbage: seq<seq<byte>>): (Buffer, seq<Message>)
    requires CanRun(b, es, garbage)
    decreases |es|, 1
  {
    if es == [] then (b, [])
    else
      var before := Run(b, es[..|es| - 1], garbage[..|es| - 1]);
      var (after, out) := Step(before.0, es[|es| - 1], garbage[|es| - 1]);
      (after, before.1 + AsSeq(out))
  }

  function AsSeq<T>(o: Option<T>): seq<T> {
    if o.Some? then [o.value] else []
  }

  lemma RunNothing(b: Buffer, garbage: seq<seq<byte>>)
    requires GarbageFor([], garbage)
    ensures CanRun(b, [], garbage) && Run(b, [], garbage) == (b, [])
  {}

  lemma RunOneMore(b: Buffer, es: seq<Event>, e: Event, garbage: seq<seq<byte>>)
    requires |garbage| == |es| + 1
    requires CanRun(b, es, garbage[..|es|])
    requires CanStep(Run(b, es, garbage[..|es|]).0, e, garbage[|es|])
    ensures CanRun(b, es + [e], garbage)
    ensures var before := Run(b, es, garbage[..|es|]);
            var step := Step(before.0, e, garbage[|es|]);
            Run(b, es + [e], garbage) == (step.0, before.1 + AsSeq(step.1))
  {
    hide Step, CanStep;
    assert (es + [e])[..|es|] == es;
  }

  predicate GarbageFor(es: seq<Event>, garbage: seq<seq<byte>>) {
    |garbage| == |es| && forall k :: 0 <= k < |es| ==> |garbage[k]| == es[k].total
  }

  lemma RunLast(b: Buffer, es: seq<Event>, garbage: seq<seq<byte>>)
    requires CanRun(b, es, garbage) && es != []
    ensures var n := |es| - 1;
            && CanRun(b, es[..n], garbage[..n])
            && CanStep(Run(b, es[..n], garbage[..n]).0, es[n], garbage[n])
            && var before := Run(b, es[..n], garbage[..n]);
               var step := Step(before.0, es[n], garbage[n]);
               Run(b, es, garbage) == (step.0, before.1 + AsSeq(step.1))
  {
    hide Step, CanStep;
  }

  lemma {:induction false} RunConcat(b: Buffer, left: seq<Event>, right: seq<Event>, garbage: seq<seq<byte>>)
    requires |garbage| == |left| + |right|
    requires CanRun(b, left, garbage[..|left|])
    requires CanRun(Run(b, left, garbage[..|left|]).0, right, garbage[|left|..])
    ensures CanRun(b, left + right, garbage)
    ensures var middle := Run(b, left, garbage[..|left|]);
            var end := Run(middle.0, right, garbage[|left|..]);
            Run(b, left + right, garbage) == (end.0, middle.1 + end.1)
    decreases |right|
  {
    hide Step, CanStep, Run, CanRun;
    var n, l := |left| + |right|, |left|;
    var middle := Run(b, left, garbage[..l]);
    if right == [] {
      RunNothing(middle.0, garbage[l..]);
      assert left + right == left && garbage[..l] == garbage && middle.1 + [] == middle.1;
    } else {
      var init, e := right[..|right| - 1], right[|right| - 1];
      RunLast(middle.0, right, garbage[l..]);
      var g := garbage[..n - 1];
      assert g[..l] == garbage[..l] && g[l..] == garbage[l..][..|right| - 1];
      assert garbage[l..][|right| - 1] == garbage[n - 1];
      RunConcat(b, left, init, g);
      RunOneMore(b, left + init, e, garbage);
      assert left + init + [e] == left + right;
      var before := Run(middle.0, init, g[l..]);
      var out := AsSeq(Step(before.0, e, garbage[n - 1]).1);
      assert middle.1 + before.1 + out == middle.1 + (before.1 + out);
    }
  }

  /** A buffer that holds the first fragments of t, and whatever memory was there behind them. */
  predicate Holds(b: Buffer, t: Transfer, n: nat)
    requires n <= |t.fragments|
  {
    var sent := Flatten(t.fragments[..n]);
    && b.topic == Some(t.topic) && b.payload.Some? && Valid(b) && b.total == t.total
    && b.received == |sent| <= t.total
    && b.payload.value[..|sent|] == sent
  }

  lemma {:induction false} FlattenPrefix(fragments: seq<seq<byte>>, n: nat)
    requires n < |fragments|
    ensures Flatten(fragments[..n + 1]) == Flatten(fragments[..n]) + fragments[n]
    ensures |Flatten(fragments[..n + 1])| <= |Flatten(fragments)|
    ensures n + 1 < |fragments| && fragments[n + 1] != [] ==> |Flatten(fragments[..n + 1])| < |Flatten(fragments)|
  {
    assert fragments[..n + 1][..n] == fragments[..n];
    assert fragments == fragments[..n + 1] + fragments[n + 1..];
    FlattenConcat(fragments[..n + 1], fragments[n + 1..]);
    if n + 1 < |fragments| {
      assert fragments[n + 1..] == [fragments[n + 1]] + fragments[n + 2..];
      FlattenCons(fragments[n + 1], fragments[n + 2..]);
    }
  }

  lemma FirstFragment(b: Buffer, t: Transfer, garbage: seq<byte>)
    requires Valid(b) && ValidTransfer(t) && t.total <= MAX_RX_MSG_LENGTH && |garbage| == t.total
    ensures CanStep(b, EventAt(t, 0), garbage)
    ensures var r := Step(b, EventAt(t, 0), garbage);
            if |t.fragments| == 1 && IsFinished(t) then r == (EMPTY, Some(Message(t.topic, Flatten(t.fragments))))
            else Holds(r.0, t, 1) && r.1 == None
  {
    FlattenPrefix(t.fragments, 0);
    assert Events(t, 0) == [];
    assert Flatten(t.fragments[..0]) == [];
    assert Flatten(t.fragments[..1]) == t.fragments[0];
    if |t.fragments| == 1 { assert t.fragments[..1] == t.fragments; }
  }

  lemma NextFragment(b: Buffer, t: Transfer, n: nat, garbage: seq<byte>)
    requires ValidTransfer(t) && t.total <= MAX_RX_MSG_LENGTH && |garbage| == t.total
    requires 1 <= n < |t.fragments| && Holds(b, t, n)
    ensures CanStep(b, EventAt(t, n), garbage)
    ensures var r := Step(b, EventAt(t, n), garbage);
            if n + 1 == |t.fragments| && IsFinished(t) then r == (EMPTY, Some(Message(t.topic, Flatten(t.fragments))))
            else Holds(r.0, t, n + 1) && r.1 == None
  {
    FlattenPrefix(t.fragments, n);
    var sent, e := Flatten(t.fragments[..n]), EventAt(t, n);
    assert e == Event(None, t.fragments[n], t.total, |sent|);
    var b2 := Feed(b, e, garbage);
    assert b2.payload.value[..|sent| + |e.data|] == sent + e.data;
    if n + 1 == |t.fragments| { assert t.fragments[..n + 1] == t.fragments; }
  }

  /** Part of a transfer, from any buffer at all: what is left in the buffer and what was delivered. */
  lemma {:induction false} TransferPrefix(b: Buffer, t: Transfer, n: nat, garbage: seq<seq<byte>>)
    requires Valid(b) && ValidTransfer(t) && t.total <= MAX_RX_MSG_LENGTH && 1 <= n <= |t.fragments|
    requires GarbageFor(Events(t, n), garbage)
    ensures CanRun(b, Events(t, n), garbage)
    ensures var r := Run(b, Events(t, n), garbage);
            if n == |t.fragments| && IsFinished(t) then r == (EMPTY, Delivered(t)) else Holds(r.0, t, n) && r.1 == []
    decreases n
  {
    hide Step, Holds, CanStep, Run, CanRun;
    EventTotals(t, n);
    EventTotals(t, n - 1);
    var before := Events(t, n - 1);
    assert Events(t, n)[..n - 1] == before;
    if n == 1 {
      RunNothing(b, garbage[..0]);
      FirstFragment(b, t, garbage[0]);
    } else {
      TransferPrefix(b, t, n - 1, garbage[..n - 1]);
      NextFragment(Run(b, before, garbage[..n - 1]).0, t, n - 1, garbage[n - 1]);
    }
    RunOneMore(b, before, EventAt(t, n - 1), garbage);
    assert Run(b, Events(t, n), garbage).1 ==
           AsSeq(Step(Run(b, before, garbage[..n - 1]).0, EventAt(t, n - 1), garbage[n - 1]).1);
  }

  lemma {:induction false} EventTotals(t: Transfer, n: nat)
    requires n <= |t.fragments|
    ensures forall k :: 0 <= k < n ==> Events(t, n)[k].total == t.total
  {
    if n > 0 { EventTotals(t, n - 1); }
  }

  /** The fragments of a message that is too long pass without touching the buffer. */
  lemma {:induction false} OversizedPrefix(b: Buffer, t: Transfer, n: nat, garbage: seq<seq<byte>>)
    requires Valid(b) && ValidTransfer(t) && t.total > MAX_RX_MSG_LENGTH && n <= |t.fragments|
    requires GarbageFor(Events(t, n), garbage)
    ensures CanRun(b, Events(t, n), garbage)
    ensures Run(b, Events(t, n), garbage) == (b, [])
  {
    hide Step, CanStep, Run, CanRun;
    if n == 0 {
      RunNothing(b, garbage);
    } else {
      EventTotals(t, n);
      EventTotals(t, n - 1);
      OversizedPrefix(b, t, n - 1, garbage[..n - 1]);
      OversizedFragment(b, t, n - 1, garbage[n - 1]);
      RunOneMore(b, Events(t, n - 1), EventAt(t, n - 1), garbage);
      assert Run(b, Events(t, n), garbage).1 == [];
    }
  }

  lemma OversizedFragment(b: Buffer, t: Transfer, k: nat, garbage: seq<byte>)
    requires Valid(b) && ValidTransfer(t) && t.total > MAX_RX_MSG_LENGTH && k < |t.fragments| && |garbage| == t.total
    ensures CanStep(b, EventAt(t, k), garbage)
    ensures Step(b, EventAt(t, k), garbage) == (b, None)
  {
    FlattenPrefix(t.fragments, k);
  }

  /** One transfer, from any buffer at all. */
  lemma WholeTransfer(b: Buffer, t: Transfer, garbage: seq<seq<byte>>)
    requires Valid(b) && ValidTransfer(t) && GarbageFor(Events(t, |t.fragments|), garbage)
    ensures CanRun(b, Events(t, |t.fragments|), garbage)
    ensures Run(b, Events(t, |t.fragments|), garbage).1 == Delivered(t)
    ensures Valid(Run(b, Events(t, |t.fragments|), garbage).0)
    ensures Delivered(t) != [] ==> Run(b, Events(t, |t.fragments|), garbage).0 == EMPTY
  {
    if t.total > MAX_RX_MSG_LENGTH {
      OversizedPrefix(b, t, |t.fragments|, garbage);
    } else {
      TransferPrefix(b, t, |t.fragments|, garbage);
    }
  }

  lemma GarbageSplits(left: seq<Event>, right: seq<Event>, garbage: seq<seq<byte>>)
    requires GarbageFor(left + right, garbage)
    ensures GarbageFor(left, garbage[..|left|]) && GarbageFor(right, garbage[|left|..])
  {
    assert forall k :: 0 <= k < |left| ==> left[k] == (left + right)[k];
    assert forall k :: 0 <= k < |right| ==> right[k] == (left + right)[|left| + k];
  }

  /**
   * For every stream of messages, finished or cut off, in any fragmentation and starting from any buffer:
   * exactly the finished messages of at most 128 KiB are delivered, in order, once each, with their topic and
   * bytes, whatever the allocator returned; and each event was one the buffer can take.
   */
  lemma {:induction false} StreamDelivery(b: Buffer, ts: seq<Transfer>, garbage: seq<seq<byte>>)
    requires Valid(b) && (forall k :: 0 <= k < |ts| ==> ValidTransfer(ts[k]))
    requires GarbageFor(StreamEvents(ts), garbage)
    ensures CanRun(b, StreamEvents(ts), garbage)
    ensures Run(b, StreamEvents(ts), garbage).1 == Expected(ts)
    ensures Valid(Run(b, StreamEvents(ts), garbage).0)
    ensures ts != [] && Delivered(ts[|ts| - 1]) != [] ==> Run(b, StreamEvents(ts), garbage).0 == EMPTY
  {
    hide Run, CanRun, Delivered, ValidTransfer;
    if ts == [] {
      RunNothing(b, garbage);
    } else {
      var init, t := ts[..|ts| - 1], ts[|ts| - 1];
      var left, right := StreamEvents(init), Events(t, |t.fragments|);
      GarbageSplits(left, right, garbage);
      StreamDelivery(b, init, garbage[..|left|]);
      WholeTransfer(Run(b, left, garbage[..|left|]).0, t, garbage[|left|..]);
      RunConcat(b, left, right, garbage);
    }
  }
}
