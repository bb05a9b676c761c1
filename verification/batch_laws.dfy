/** What subscribing a set of shared attributes in batches achieves, and that unsubscribing it undoes it. */
module BatchLaws {
  import opened Sequences
  import opened AttributesSubscribe
  import opened SharedAttributes

  /** The batches are the unsubscribed members in order; all but the last are full. */
  lemma BatchesPartition(ids: seq<int>, max: nat)
    requires max > 0
    ensures Flatten(Batches(ids, max)) == Unsubscribed(ids)
    ensures forall k :: 0 <= k < |Batches(ids, max)| ==> 0 < |Batches(ids, max)[k]| <= (if max < 10 then max else 10)
    ensures forall k :: 0 <= k < |Batches(ids, max)| - 1 ==> |Batches(ids, max)[k]| == if max < 10 then max else 10
  {
    ChunksPartition(Unsubscribed(ids), BatchSize(max));
  }

  predicate Distinct(xs: seq<nat>) {
    forall i, j :: 0 <= i < j < |xs| ==> xs[i] != xs[j]
  }

  lemma {:induction false} UnsubscribedDistinct(ids: seq<int>)
    ensures Distinct(Unsubscribed(ids))
  {
    if ids != [] {
      var init := ids[..|ids| - 1];
      UnsubscribedDistinct(init);
      assert forall j :: 0 <= j < |Unsubscribed(init)| ==> Unsubscribed(init)[j] < |init|;
    }
  }

  /** They are taken in list order. */
  lemma {:induction false} UnsubscribedInOrder(ids: seq<int>)
    ensures forall i, j :: 0 <= i < j < |Unsubscribed(ids)| ==> Unsubscribed(ids)[i] < Unsubscribed(ids)[j]
  {
    if ids != [] { UnsubscribedInOrder(ids[..|ids| - 1]); }
  }

  /** Every member of batch k ends up with the id of that batch, the (k+1)-th drawn, if it is not negative as an int. */
  lemma {:induction false} AssignAt(ids: seq<int>, batches: seq<seq<nat>>, last: nat, k: nat, j: nat)
    requires AllInRange(batches, |ids|) && Distinct(Flatten(batches))
    requires k < |batches| && j < |batches[k]|
    ensures var id, member := (last + k + 1) % 0x1_0000_0000, batches[k][j];
            Assign(ids, batches, last)[member] == if id < 0x8000_0000 then id else ids[member]
  {
    var n := |batches| - 1;
    var init := batches[..n];
    DistinctParts(Flatten(init), batches[n]);
    assert Flatten(batches) == Flatten(init) + batches[n];
    if k < n {
      AssignAt(ids, init, last, k, j);
      InFlatten(init, k, j);
    } else {
      AssignElsewhere(ids, init, last, batches[k][j]);
    }
  }

  lemma DistinctParts(xs: seq<nat>, ys: seq<nat>)
    requires Distinct(xs + ys)
    ensures Distinct(xs) && forall y :: y in ys ==> y !in xs
  {
    assert forall i :: 0 <= i < |xs| ==> (xs + ys)[i] == xs[i];
    assert forall j :: 0 <= j < |ys| ==> (xs + ys)[|xs| + j] == ys[j];
  }

  /** Members that were subscribed already keep their id. */
  lemma {:induction false} AssignElsewhere(ids: seq<int>, batches: seq<seq<nat>>, last: nat, i: nat)
    requires AllInRange(batches, |ids|) && i < |ids| && i !in Flatten(batches)
    ensures Assign(ids, batches, last)[i] == ids[i]
  {
    if batches != [] {
      AssignElsewhere(ids, batches[..|batches| - 1], last, i);
    }
  }

  /**
   * After subscribing: each member of batch k has that batch's id, unless it comes back negative, which leaves the
   * member as unsubscribed as it was; the others have kept theirs.
   */
  lemma MembersGetBatchIds(ids: seq<int>, max: nat, last: nat)
    requires max > 0
    ensures var batches := Batches(ids, max);
            && (forall k, j :: 0 <= k < |batches| && 0 <= j < |batches[k]| ==>
                  var id, member := (last + k + 1) % 0x1_0000_0000, batches[k][j];
                  Assign(ids, batches, last)[member] == if id < 0x8000_0000 then id else ids[member])
            && (forall i :: 0 <= i < |ids| && ids[i] >= 0 ==> Assign(ids, batches, last)[i] == ids[i])
  {
    hide Batches, Assign;
    var batches := Batches(ids, max);
    BatchesPartition(ids, max);
    UnsubscribedDistinct(ids);
    forall k, j | 0 <= k < |batches| && 0 <= j < |batches[k]|
      ensures var id, member := (last + k + 1) % 0x1_0000_0000, batches[k][j];
              Assign(ids, batches, last)[member] == if id < 0x8000_0000 then id else ids[member]
    {
      AssignAt(ids, batches, last, k, j);
    }
    forall i | 0 <= i < |ids| && ids[i] >= 0 ensures Assign(ids, batches, last)[i] == ids[i] {
      AssignElsewhere(ids, batches, last, i);
    }
  }

  /** The subscribers the batches become. */
  function NewSubscribers(keys: seq<string>, batches: seq<seq<nat>>, last: nat, reply: int): (r: seq<Subscriber>)
    requires AllInRange(batches, |keys|)
    ensures |r| == |batches|
    ensures forall k :: 0 <= k < |batches| ==> r[k] == Subscriber(last + k + 1, KeysOf(keys, batches[k]), reply)
  {
    seq(|batches|, k requires 0 <= k < |batches| => Subscriber(last + k + 1, KeysOf(keys, batches[k]), reply))
  }

  /** Each batch is registered once, in order, with exactly the keys of its members, behind the earlier subscribers. */
  lemma {:induction false} BatchesRegistered(r: Registry, keys: seq<string>, batches: seq<seq<nat>>,
                                             reply: int, ok: bool)
    requires AllInRange(batches, |keys|) && r.lastId + |batches| <= INT32_MAX
    ensures var after := SubscribeBatches(r, keys, batches, reply, ok);
            && after.subscribers == r.subscribers + NewSubscribers(keys, batches, r.lastId, reply)
            && after.lastId == r.lastId + |batches|
            && after.connected == r.connected
            && (ok && Agrees(r) ==> Agrees(after))
  {
    hide KeysOf, NewSubscribers;
    if batches != [] {
      var init := batches[..|batches| - 1];
      var s := Subscriber(r.lastId + |batches|, KeysOf(keys, batches[|batches| - 1]), reply);
      BatchesRegistered(r, keys, init, reply, ok);
      var new0 := NewSubscribers(keys, init, r.lastId, reply);
      assert NewSubscribers(keys, batches, r.lastId, reply) == new0 + [s];
      assert r.subscribers + new0 + [s] == r.subscribers + (new0 + [s]);
    }
  }

  // ---- Unsubscribing ---------------------------------------------------------------------------------------

  function Repeat(id: int, n: nat): (r: seq<int>)
    ensures |r| == n && forall i :: 0 <= i < n ==> r[i] == id
  {
    seq(n, _ => id)
  }

  /** The ids of members whose batches are consecutive: one id per batch, repeated for each member. */
  function Blocks(batches: seq<seq<nat>>, last: nat): seq<int> {
    if batches == [] then []
    else Blocks(batches[..|batches| - 1], last) + Repeat(last + |batches|, |batches[|batches| - 1]|)
  }

  function Indices(n: nat): (r: seq<nat>)
    ensures |r| == n && forall i :: 0 <= i < n ==> r[i] == i
  {
    seq(n, i => i)
  }

  lemma {:induction false} AllUnsubscribed(ids: seq<int>)
    requires forall i :: 0 <= i < |ids| ==> ids[i] < 0
    ensures Unsubscribed(ids) == Indices(|ids|)
  {
    if ids != [] {
      AllUnsubscribed(ids[..|ids| - 1]);
    }
  }

  /** Storing an id for the consecutive members from m on touches exactly those. */
  lemma StoreConsecutive(ids: seq<int>, batch: seq<nat>, m: nat, id: int)
    requires InRange(batch, |ids|) && id >= 0 && forall j :: 0 <= j < |batch| ==> batch[j] == m + j
    ensures forall i :: 0 <= i < |ids| ==> Store(ids, batch, id)[i] == if m <= i < m + |batch| then id else ids[i]
  {
    forall i | m <= i < m + |batch| ensures i in batch {
      assert batch[i - m] == i;
    }
  }

  lemma {:induction false} AssignBlocks(ids: seq<int>, batches: seq<seq<nat>>, last: nat)
    requires AllInRange(batches, |ids|) && last + |batches| <= INT32_MAX
    requires Flatten(batches) == Indices(|Flatten(batches)|) && |Flatten(batches)| <= |ids|
    ensures |Blocks(batches, last)| == |Flatten(batches)|
    ensures forall i :: 0 <= i < |Flatten(batches)| ==> Assign(ids, batches, last)[i] == Blocks(batches, last)[i]
  {
    if batches != [] {
      hide Store, Indices, Repeat;
      var n, id := |batches| - 1, last + |batches|;
      var init, m := batches[..n], |Flatten(batches[..n])|;
      assert Flatten(batches) == Flatten(init) + batches[n];
      assert Flatten(init) == Flatten(batches)[..m] == Indices(m);
      AssignBlocks(ids, init, last);
      assert AsInt(Later(last, |batches|)) == id;
      assert Assign(ids, batches, last) == Store(Assign(ids, init, last), batches[n], id);
      assert Blocks(batches, last) == Blocks(init, last) + Repeat(id, |batches[n]|);
      hide Assign, Blocks, Flatten, Later, AsInt;
      assert forall j :: 0 <= j < |batches[n]| ==> batches[n][j] == Flatten(batches)[m + j];
      StoreConsecutive(Assign(ids, init, last), batches[n], m, id);
    }
  }

  lemma {:induction false} GiveBackConcat(r: Registry, left: seq<int>, right: seq<int>, ok: bool)
    ensures GiveBack(r, left + right, ok) == GiveBack(GiveBack(r, left, ok), right, ok)
  {
    if right == [] {
      assert left + right == left;
    } else {
      GiveBackConcat(r, left, right[..|right| - 1], ok);
      assert (left + right)[..|left + right| - 1] == left + right[..|right| - 1];
    }
  }

  /** Giving back an id repeatedly removes its subscriber once and then does nothing. */
  lemma {:induction false} GiveBackRepeated(r: Registry, id: int, n: nat, others: seq<Subscriber>,
                                            rest: seq<Subscriber>, s: Subscriber, ok: bool)
    requires n > 0 && 0 <= id <= INT32_MAX && s.id == id && r.subscribers == others + [s] + rest
    requires forall k :: 0 <= k < |others| ==> others[k].id != id
    requires forall k :: 0 <= k < |rest| ==> rest[k].id != id
    ensures GiveBack(r, Repeat(id, n), ok).subscribers == others + rest
    ensures GiveBack(r, Repeat(id, n), ok).connected == r.connected
    ensures ok && Agrees(r) ==> Agrees(GiveBack(r, Repeat(id, n), ok))
  {
    hide Remove, Position;
    var init := Repeat(id, n)[..n - 1];
    assert init == Repeat(id, n - 1);
    var before := GiveBack(r, init, ok);
    if n > 1 {
      GiveBackRepeated(r, id, n - 1, others, rest, s, ok);
      RemoveAbsent(others + rest, id);
    } else {
      assert init == [];
      RemovePresent(others, s, rest, id);
    }
    if ok && Agrees(before) { StepAgrees(before, Drop(id, ok)); }
  }

  lemma RemoveAbsent(subscribers: seq<Subscriber>, id: int)
    requires 0 <= id <= INT32_MAX && forall k :: 0 <= k < |subscribers| ==> subscribers[k].id != id
    ensures Remove(subscribers, id) == subscribers
  {}

  lemma RemovePresent(others: seq<Subscriber>, s: Subscriber, rest: seq<Subscriber>, id: int)
    requires 0 <= id <= INT32_MAX && s.id == id && forall k :: 0 <= k < |others| ==> others[k].id != id
    ensures Remove(others + [s] + rest, id) == others + rest
  {
    var all := others + [s] + rest;
    assert all[|others|] == s;
    assert forall k :: 0 <= k < |others| ==> all[k] == others[k];
    assert Position(all, id) == |others|;
  }

  /** Giving back the ids of the first batches leaves the others subscribers and those of the later batches. */
  lemma {:induction false} GiveBackBatches(r: Registry, others: seq<Subscriber>, added: seq<Subscriber>,
                                           batches: seq<seq<nat>>, last: nat, n: nat, ok: bool)
    requires n <= |batches| == |added| && last + |batches| <= INT32_MAX && r.subscribers == others + added
    requires forall k :: 0 <= k < |batches| ==> batches[k] != [] && added[k].id == last + k + 1
    requires forall k :: 0 <= k < |others| ==> others[k].id <= last
    ensures var after := GiveBack(r, Blocks(batches[..n], last), ok);
            && after.subscribers == others + added[n..]
            && after.connected == r.connected
            && (ok && Agrees(r) ==> Agrees(after))
    decreases n
  {
    hide GiveBack;
    if n == 0 {
      GiveBackNothing(r, ok);
    } else {
      assert batches[..n][..n - 1] == batches[..n - 1];
      GiveBackBatches(r, others, added, batches, last, n - 1, ok);
      var before := GiveBack(r, Blocks(batches[..n - 1], last), ok);
      GiveBackConcat(r, Blocks(batches[..n - 1], last), Repeat(last + n, |batches[n - 1]|), ok);
      assert added[n - 1..] == [added[n - 1]] + added[n..];
      assert others + added[n - 1..] == others + [added[n - 1]] + added[n..];
      GiveBackRepeated(before, last + n, |batches[n - 1]|, others, added[n..], added[n - 1], ok);
    }
  }

  lemma GiveBackNothing(r: Registry, ok: bool)
    ensures GiveBack(r, [], ok) == r
  {}

  /**
   * Subscribing a set none of whose members was subscribed and then unsubscribing it restores the helper's list of
   * subscribers and, if the calls succeed, the broker's subscription, and every id is -1 again.
   */
  lemma UnsubscribeUndoes(r: Registry, keys: seq<string>, ids: seq<int>, max: nat, reply: int, ok: bool)
    requires max > 0 && |keys| == |ids| && (forall i :: 0 <= i < |ids| ==> ids[i] == -1)
    requires r.lastId + |Batches(ids, max)| <= INT32_MAX
    requires forall k :: 0 <= k < |r.subscribers| ==> r.subscribers[k].id <= r.lastId
    ensures var batches := Batches(ids, max);
            var given := Assign(ids, batches, r.lastId);
            var after := GiveBack(SubscribeBatches(r, keys, batches, reply, ok), given, ok);
            && after.subscribers == r.subscribers
            && after.connected == r.connected
            && (ok && Agrees(r) ==> after.atBroker == r.atBroker)
            && Cleared(given) == ids
  {
    hide Batches, Assign, GiveBack, SubscribeBatches, Blocks;
    var batches := Batches(ids, max);
    BatchesPartition(ids, max);
    AllUnsubscribed(ids);
    AssignBlocks(ids, batches, r.lastId);
    var given := Assign(ids, batches, r.lastId);
    assert given == Blocks(batches, r.lastId);
    BatchesRegistered(r, keys, batches, reply, ok);
    var subscribed := SubscribeBatches(r, keys, batches, reply, ok);
    GiveBackBatches(subscribed, r.subscribers, NewSubscribers(keys, batches, r.lastId, reply), batches, r.lastId,
                    |batches|, ok);
    assert batches[..|batches|] == batches;
    BlocksPositive(batches, r.lastId);
  }

  lemma {:induction false} BlocksPositive(batches: seq<seq<nat>>, last: nat)
    ensures forall i :: 0 <= i < |Blocks(batches, last)| ==> Blocks(batches, last)[i] > 0
  {
    if batches != [] { BlocksPositive(batches[..|batches| - 1], last); }
  }
}
