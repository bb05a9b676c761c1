/** A set of shared attributes that subscribes its members in batches of at most ten keys, and unsubscribes them. */
module SharedAttributes {
  import opened Basics
  import opened Sequences
  import opened AttributesSubscribe

  const MAX_BATCH: nat := 10

  /** The members not subscribed yet, by their index, in list order. */
  function Unsubscribed(ids: seq<int>): (r: seq<nat>)
    ensures forall i :: i in r <==> 0 <= i < |ids| && ids[i] < 0
    ensures InRange(r, |ids|)
  {
    if ids == [] then []
    else Unsubscribed(ids[..|ids| - 1]) + if ids[|ids| - 1] < 0 then [|ids| - 1] else []
  }

  predicate InRange(batch: seq<nat>, n: nat) {
    forall j :: 0 <= j < |batch| ==> batch[j] < n
  }

  predicate AllInRange(batches: seq<seq<nat>>, n: nat) {
    forall k :: 0 <= k < |batches| ==> InRange(batches[k], n)
  }

  function KeysOf(keys: seq<string>, batch: seq<nat>): (r: seq<string>)
    requires InRange(batch, |keys|)
    ensures |r| == |batch| && forall j :: 0 <= j < |batch| ==> r[j] == keys[batch[j]]
  {
    seq(|batch|, j requires 0 <= j < |batch| => keys[batch[j]])
  }

  /** The k-th id after last. */
  function Later(last: nat, k: nat): nat {
    (last + k) % UINT32
  }

  /** Every member of batch k gets the id of its batch; ids that come back negative are not stored. */
  function Assign(ids: seq<int>, batches: seq<seq<nat>>, last: nat): (r: seq<int>)
    requires AllInRange(batches, |ids|)
    ensures |r| == |ids|
  {
    if batches == [] then ids
    else Store(Assign(ids, batches[..|batches| - 1], last), batches[|batches| - 1], AsInt(Later(last, |batches|)))
  }

  function Store(ids: seq<int>, batch: seq<nat>, id: int): (r: seq<int>)
    requires InRange(batch, |ids|)
    ensures |r| == |ids|
    ensures forall i :: 0 <= i < |ids| ==> r[i] == if id >= 0 && i in batch then id else ids[i]
  {
    seq(|ids|, i requires 0 <= i < |ids| => if id >= 0 && i in batch then id else ids[i])
  }

  /** The registry after the batches were subscribed one after the other. */
  function SubscribeBatches(r: Registry, keys: seq<string>, batches: seq<seq<nat>>, reply: int, ok: bool): Registry
    requires AllInRange(batches, |keys|)
  {
    if batches == [] then r
    else Subscribe(SubscribeBatches(r, keys, batches[..|batches| - 1], reply, ok),
                   KeysOf(keys, batches[|batches| - 1]), reply, ok)
  }

  /** The registry after each subscribed member, in list order, gave back its id, a shared id repeatedly. */
  function GiveBack(r: Registry, ids: seq<int>, ok: bool): Registry {
    if ids == [] then r
    else
      var before := GiveBack(r, ids[..|ids| - 1], ok);
      if ids[|ids| - 1] >= 0 then Unsubscribe(before, ids[|ids| - 1], ok) else before
  }

  function Cleared(ids: seq<int>): (r: seq<int>)
    ensures |r| == |ids| && forall i :: 0 <= i < |ids| ==> r[i] == if ids[i] >= 0 then -1 else ids[i]
  {
    seq(|ids|, i requires 0 <= i < |ids| => if ids[i] >= 0 then -1 else ids[i])
  }

  function BatchSize(max: nat): (m: nat)
    requires max > 0
    ensures 0 < m <= MAX_BATCH
  {
    if max < MAX_BATCH then max else MAX_BATCH
  }

  /** Unsubscribing sets every id in use to -1 and leaves the others. */
  lemma ClearedExactly(ids: seq<int>, i: nat)
    requires i < |ids|
    ensures Cleared(ids)[i] == if ids[i] >= 0 then -1 else ids[i]
  {}

  /** The batches: the unsubscribed members in order, cut into pieces. */
  function Batches(ids: seq<int>, max: nat): (r: seq<seq<nat>>)
    requires max > 0
    ensures AllInRange(r, |ids|)
  {
    var waiting := Unsubscribed(ids);
    BatchesInRange(waiting, BatchSize(max), |ids|);
    Chunks(waiting, BatchSize(max))
  }

  lemma {:induction false} BatchesInRange(waiting: seq<nat>, m: nat, n: nat)
    requires m > 0 && InRange(waiting, n)
    ensures AllInRange(Chunks(waiting, m), n)
    decreases |waiting|
  {
    if |waiting| > m {
      BatchesInRange(waiting[m..], m, n);
    }
  }

  lemma NoBatch(ids: seq<int>, r: Registry, keys: seq<string>, reply: int, ok: bool)
    ensures AllInRange([], |ids|) && AllInRange([], |keys|)
    ensures Assign(ids, [], r.lastId) == ids && SubscribeBatches(r, keys, [], reply, ok) == r
  {}

  lemma OneMoreBatch(ids: seq<int>, r: Registry, keys: seq<string>, done: seq<seq<nat>>, batch: seq<nat>,
                     reply: int, ok: bool)
    requires AllInRange(done, |keys|) && InRange(batch, |keys|) && |ids| == |keys|
    ensures AllInRange(done + [batch], |keys|)
    ensures Assign(ids, done + [batch], r.lastId) ==
            Store(Assign(ids, done, r.lastId), batch, AsInt(Later(r.lastId, |done| + 1)))
    ensures SubscribeBatches(r, keys, done + [batch], reply, ok) ==
            Subscribe(SubscribeBatches(r, keys, done, reply, ok), KeysOf(keys, batch), reply, ok)
  {
    assert (done + [batch])[..|done|] == done;
  }

  lemma {:induction false} LastIdAfter(r: Registry, keys: seq<string>, done: seq<seq<nat>>, reply: int, ok: bool)
    requires AllInRange(done, |keys|)
    ensures var last := SubscribeBatches(r, keys, done, reply, ok).lastId;
            (last + 1) % UINT32 == Later(r.lastId, |done| + 1)
  {
    if done != [] {
      LastIdAfter(r, keys, done[..|done| - 1], reply, ok);
    }
  }

  /** After looking at i members: the full batches and the batch being collected are the unsubscribed ones so far. */
  predicate Collected(ids: seq<int>, i: nat, done: seq<seq<nat>>, batch: seq<nat>, m: nat) {
    && i <= |ids| && |batch| < m && InRange(batch, i)
    && AllInRange(done, |ids|) && (forall k :: 0 <= k < |done| ==> |done[k]| == m)
    && Unsubscribed(ids[..i]) == Flatten(done) + batch
  }

  lemma CollectNext(ids: seq<int>, i: nat, done: seq<seq<nat>>, batch: seq<nat>, m: nat)
    requires Collected(ids, i, done, batch, m) && i < |ids|
    ensures ids[i] >= 0 ==> Collected(ids, i + 1, done, batch, m)
    ensures ids[i] < 0 && |batch| + 1 < m ==> Collected(ids, i + 1, done, batch + [i], m)
    ensures ids[i] < 0 && |batch| + 1 == m ==> Collected(ids, i + 1, done + [batch + [i]], [], m)
  {
    assert ids[..i + 1][..i] == ids[..i];
    FlattenAppend(done, batch + [i]);
    assert Flatten(done) + batch + [i] == Flatten(done) + (batch + [i]);
    assert Flatten(done + [batch + [i]]) + [] == Flatten(done + [batch + [i]]);
  }

  lemma CollectNothing(ids: seq<int>, m: nat)
    requires m > 0
    ensures Collected(ids, 0, [], [], m)
  {
    assert ids[..0] == [];
  }

  lemma CollectedInRange(ids: seq<int>, i: nat, done: seq<seq<nat>>, batch: seq<nat>, m: nat)
    requires Collected(ids, i, done, batch, m)
    ensures InRange(batch, i) && i <= |ids|
  {}

  lemma CollectEnd(ids: seq<int>, done: seq<seq<nat>>, batch: seq<nat>, max: nat)
    requires max > 0 && Collected(ids, |ids|, done, batch, BatchSize(max))
    ensures Batches(ids, max) == if batch == [] then done else done + [batch]
  {
    assert ids[..|ids|] == ids;
    ChunksOfFullPieces(done, batch, BatchSize(max));
    assert done + [] == done;
  }

  lemma GiveBackOne(r: Registry, ids: seq<int>, i: nat, ok: bool)
    requires i < |ids|
    ensures var before := GiveBack(r, ids[..i], ok);
            GiveBack(r, ids[..i + 1], ok) == if ids[i] >= 0 then Unsubscribe(before, ids[i], ok) else before
  {
    assert ids[..i + 1][..i] == ids[..i];
  }

  // ---- The set in place ----------------------------------------------------------------------------------

  class AttributeSet {
    const keys: seq<string>
    var ids: seq<int>
    var client: SubscriberList?
    const reply: int

    ghost predicate Valid()
      reads this
    {
      |ids| == |keys|
    }

    constructor (keys: seq<string>, reply: int)
      ensures Valid() && this.keys == keys && client == null && forall i :: 0 <= i < |ids| ==> ids[i] == -1
    {
      this.keys := keys;
      this.reply := reply;
      ids := seq(|keys|, _ => -1);
      client := null;
    }

    /** Subscribe the first count entries of the array and give the members their id. */
    method Flush(target: SubscriberList, attributeArray: array<nat>, count: nat, ok: bool)
      requires Valid() && count <= attributeArray.Length && InRange(attributeArray[..count], |keys|)
      modifies this`ids, target
      ensures Valid()
      ensures target.Model() == Subscribe(old(target.Model()), KeysOf(keys, attributeArray[..count]), reply, ok)
      ensures ids == Store(old(ids), attributeArray[..count], AsInt((old(target.lastId) + 1) % UINT32))
    {
      var keyArray := KeysOf(keys, attributeArray[..count]);
      var id := target.SubscribeKeys(keyArray, reply, ok);
      if id >= 0 {
        var j := 0;
        while j < count
          invariant j <= count && |ids| == |keys|
          invariant InRange(attributeArray[..j], |keys|)
          invariant ids == Store(old(ids), attributeArray[..j], id)
          modifies this`ids
        {
          assert attributeArray[..count][j] < |keys|;
          assert attributeArray[..j + 1] == attributeArray[..j] + [attributeArray[j]];
          ids := ids[attributeArray[j] := id];
          j := j + 1;
        }
      }
    }

    /** Flush as the next of the batches done so far, starting from the ids and the registry there were before. */
    method FlushNext(target: SubscriberList, attributeArray: array<nat>, count: nat, ok: bool,
                     ghost before: seq<int>, ghost registry: Registry, ghost done: seq<seq<nat>>)
      requires Valid() && |before| == |keys|
      requires count <= attributeArray.Length && InRange(attributeArray[..count], |keys|) && AllInRange(done, |keys|)
      requires ids == Assign(before, done, registry.lastId)
      requires target.Model() == SubscribeBatches(registry, keys, done, reply, ok)
      modifies this`ids, target
      ensures Valid() && AllInRange(done + [attributeArray[..count]], |keys|)
      ensures ids == Assign(before, done + [attributeArray[..count]], registry.lastId)
      ensures target.Model() == SubscribeBatches(registry, keys, done + [attributeArray[..count]], reply, ok)
      ensures forall i :: 0 <= i < |keys| && i !in attributeArray[..count] ==> ids[i] == old(ids)[i]
    {
      LastIdAfter(registry, keys, done, reply, ok);
      OneMoreBatch(before, registry, keys, done, attributeArray[..count], reply, ok);
      hide Assign, SubscribeBatches, KeysOf;
      Flush(target, attributeArray, count, ok);
    }

    method SubscribeWaiting(target: SubscriberList, max: nat, ok: bool)
      requires Valid() && max > 0
      modifies this`ids, target
      ensures Valid()
      ensures ids == Assign(old(ids), Batches(old(ids), max), old(target.lastId))
      ensures target.Model() == SubscribeBatches(old(target.Model()), keys, Batches(old(ids), max), reply, ok)
    {
      hide Assign, SubscribeBatches, Collected, Batches, AllInRange, Flatten, Unsubscribed;
      var maxAttributes := if max < MAX_BATCH then max else MAX_BATCH;
      var attributeArray := new nat[MAX_BATCH];
      var count, i := 0, 0;
      ghost var done: seq<seq<nat>> := [];
      ghost var before, registry := ids, target.Model();
      NoBatch(before, registry, keys, reply, ok);
      CollectNothing(before, maxAttributes);
      while i < |keys|
        invariant i <= |keys| && count < maxAttributes && |ids| == |keys|
        invariant Collected(before, i, done, attributeArray[..count], maxAttributes) && AllInRange(done, |keys|)
        invariant ids == Assign(before, done, registry.lastId)
        invariant forall j :: i <= j < |ids| ==> ids[j] == before[j]
        invariant target.Model() == SubscribeBatches(registry, keys, done, reply, ok)
      {
        CollectNext(before, i, done, attributeArray[..count], maxAttributes);
        if ids[i] < 0 {
          ghost var batch := attributeArray[..count] + [i];
          CollectedInRange(before, i, done, attributeArray[..count], maxAttributes);
          attributeArray[count] := i;
          count := count + 1;
          assert attributeArray[..count] == batch;
          if count >= maxAttributes {
            FlushNext(target, attributeArray, count, ok, before, registry, done);
            done := done + [batch];
            count := 0;
          }
        }
        i := i + 1;
      }
      CollectEnd(before, done, attributeArray[..count], max);
      if count > 0 {
        CollectedInRange(before, i, done, attributeArray[..count], maxAttributes);
        FlushNext(target, attributeArray, count, ok, before, registry, done);
      }
    }

    /** tbce_sharedattributes_unsubscribe: a set bound to no client is left as it is. */
    method UnsubscribeAll(ok: bool)
      requires Valid()
      modifies this, client
      ensures Valid() && client == null
      ensures old(client) == null ==> unchanged(this)
      ensures old(client) != null ==>
                ids == Cleared(old(ids)) && old(client).Model() == GiveBack(old(client.Model()), old(ids), ok)
    {
      if client == null {
        return;
      }
      ghost var before, registry := ids, client.Model();
      var i := 0;
      while i < |keys|
        invariant i <= |keys| && |ids| == |keys| && client == old(client)
        invariant forall j :: 0 <= j < |ids| ==> ids[j] == if j < i && before[j] >= 0 then -1 else before[j]
        invariant client.Model() == GiveBack(registry, before[..i], ok)
      {
        assert before[..i + 1][..i] == before[..i];
        GiveBackOne(registry, before, i, ok);
        if ids[i] >= 0 {
          client.UnsubscribeId(ids[i], ok);
          ids := ids[i := -1];
        }
        i := i + 1;
      }
      assert before[..i] == before;
      client := null;
    }

    /** tbce_sharedattributes_subscribe: a set bound to another client leaves that client first. */
    method SubscribeTo(target: SubscriberList, max: nat, ok: bool)
      requires Valid()
      modifies this, target, client
      ensures Valid()
      ensures max == 0 ==> unchanged(this) && unchanged(target)
      ensures max > 0 && old(client) != null && old(client) != target ==>
                old(client).Model() == GiveBack(old(client.Model()), old(ids), ok)
      ensures max > 0 ==>
                var start := if old(client) != null && old(client) != target then Cleared(old(ids)) else old(ids);
                && client == target
                && ids == Assign(start, Batches(start, max), old(target.lastId))
                && target.Model() == SubscribeBatches(old(target.Model()), keys, Batches(start, max), reply, ok)
    {
      if max == 0 {
        return;
      }
      if client != null && client != target {
        UnsubscribeAll(ok);
      }
      SubscribeWaiting(target, max, ok);
      client := target;
    }
  }
}
