/** What each operation of a tracker keeps: the ledger of requests, the order of the list and the subscription. */
module TrackerLaws {
  import opened Basics
  import opened RequestIds
  import opened Trackers

  function PendingSet(t: Tracker): set<Request> {
    set r | r in t.pending
  }

  function Callees(calls: seq<Call>): set<Request> {
    set k | 0 <= k < |calls| :: calls[k].request
  }

  /** Every accepted request is pending, answered or given up, and only one of the three. */
  predicate Conserved(t: Tracker) {
    && t.accepted == PendingSet(t) + t.answered + t.expired.Keys
    && PendingSet(t) !! t.answered && PendingSet(t) !! t.expired.Keys && t.answered !! t.expired.Keys
  }

  /**
   * No request is called back twice, none before it is finished; every answered request was called back, and so
   * was every expired one with a handler unless some handler said that the client is gone.
   */
  predicate CalledOnce(t: Tracker) {
    && (forall i, j :: 0 <= i < j < |t.calls| ==> t.calls[i].request != t.calls[j].request)
    && (forall i :: 0 <= i < |t.calls| ==> t.calls[i].request in t.answered + t.expired.Keys)
    && (forall i :: 0 <= i < |t.calls| && t.calls[i].request in t.expired.Keys ==>
          t.calls[i].kind == OnTimeout && t.calls[i].request.onTimeout.Returns?)
    && t.answered <= Callees(t.calls)
    && ((forall r :: r in t.expired.Keys ==> r.onTimeout != Returns(2)) ==>
          forall r :: r in t.expired.Keys && r.onTimeout.Returns? ==> r in Callees(t.calls))
  }

  predicate Numbered(t: Tracker, issued: nat) {
    && (forall r :: r in t.accepted ==> 1 <= r.serial <= issued && r.id == IdAt(r.serial))
    && (forall r, q :: r in t.accepted && q in t.accepted && r.serial == q.serial ==> r == q)
  }

  predicate Sorted(rs: seq<Request>) {
    forall i, j :: 0 <= i < j < |rs| ==> rs[i].serial < rs[j].serial && rs[i].sentAt <= rs[j].sentAt
  }

  predicate SentBy(rs: seq<Request>, now: nat) {
    forall i :: 0 <= i < |rs| ==> rs[i].sentAt <= now
  }

  predicate Inv(t: Tracker, issued: nat, now: nat) {
    Conserved(t) && CalledOnce(t) && Numbered(t, issued) && Sorted(t.pending) && SentBy(t.pending, now)
  }

  predicate Safe(t: Tracker) {
    t.pending != [] ==> t.subscribed
  }

  // ---- Sending -------------------------------------------------------------------------------------

  lemma AppendKeeps(t: Tracker, issued: nat, now: nat, r: Request)
    requires Inv(t, issued, now) && r.serial == issued + 1 && r.id == IdAt(r.serial) && r.sentAt == now
    ensures Inv(Append(t, r), issued + 1, now)
  {
    hide IdAt;
    assert r !in t.accepted;
    assert PendingSet(Append(t, r)) == PendingSet(t) + {r};
    assert Numbered(Append(t, r), issued + 1);
    assert CalledOnce(Append(t, r)) by { hide Numbered, Conserved, Sorted, SentBy; }
    assert Sorted(Append(t, r).pending) by {
      forall i | 0 <= i < |t.pending| ensures t.pending[i].serial <= issued { assert t.pending[i] in PendingSet(t); }
    }
  }

  lemma Weaken(t: Tracker, issued: nat, now: nat, issued': nat, now': nat)
    requires Inv(t, issued, now) && issued <= issued' && now <= now'
    ensures Inv(t, issued', now')
  {}

  // ---- Answers -------------------------------------------------------------------------------------

  lemma AnswerKeeps(t: Tracker, issued: nat, now: nat, connected: bool, id: nat, parsed: bool, unsubscribeOk: bool)
    requires Inv(t, issued, now)
    ensures Inv(Answer(t, connected, id, parsed, unsubscribeOk), issued, now)
    ensures Safe(t) ==> Safe(Answer(t, connected, id, parsed, unsubscribeOk))
  {
    hide IdAt, CalledOnce, Match, Without;
    var i := Match(t.pending, t.matching, id);
    if i < |t.pending| {
      var r, after := t.pending[i], Answer(t, connected, id, parsed, unsubscribeOk);
      assert r in PendingSet(t);
      PendingWithout(t.pending, i);
      assert PendingSet(after) == PendingSet(t) - {r};
      CalledOneMore(t, r, if t.matching == Fifo && !parsed then OnTimeout else OnResponse);
      CalledOnceIgnores(t.(answered := t.answered + {r}, calls := after.calls), after);
      assert SentBy(after.pending, now) by {
        forall k | 0 <= k < |after.pending| ensures after.pending[k].sentAt <= now {
          assert after.pending[k] in PendingSet(after);
        }
      }
    }
  }

  lemma CalledOnceIgnores(t: Tracker, u: Tracker)
    requires CalledOnce(t) && t.calls == u.calls && t.answered == u.answered && t.expired == u.expired
    ensures CalledOnce(u)
  {}

  lemma CalledOneMore(t: Tracker, r: Request, kind: CallKind)
    requires Conserved(t) && CalledOnce(t) && r in PendingSet(t)
    ensures CalledOnce(t.(answered := t.answered + {r}, calls := t.calls + [Call(r, kind)]))
  {
    hide PendingSet;
    CalleesAppend(t.calls, Call(r, kind));
  }

  lemma PendingWithout(rs: seq<Request>, i: nat)
    requires Sorted(rs) && i < |rs|
    ensures (set r | r in Without(rs, i)) == (set r | r in rs) - {rs[i]}
    ensures Sorted(Without(rs, i))
  {
    var rest := Without(rs, i);
    forall r | r in rs && r != rs[i] ensures r in rest {
      var k :| 0 <= k < |rs| && rs[k] == r;
      assert rest[if k < i then k else k - 1] == r;
    }
  }

  lemma CalleesAppend(calls: seq<Call>, c: Call)
    ensures Callees(calls + [c]) == Callees(calls) + {c.request}
  {
    var all := calls + [c];
    assert all[|calls|] == c;
    forall r | r in Callees(calls) ensures r in Callees(all) {
      var k :| 0 <= k < |calls| && calls[k].request == r;
      assert all[k].request == r;
    }
  }

  /** No request pending longer was sent a multiple of 65535 draws earlier. */
  predicate Unambiguous(rs: seq<Request>, i: nat)
    requires i < |rs|
  {
    forall k :: 0 <= k < i ==> (rs[i].serial - rs[k].serial) % 65535 != 0
  }

  /** An answer finds its own request if and only if no older one shares the id. */
  lemma AnswerFindsItsRequest(t: Tracker, issued: nat, now: nat, i: nat)
    requires Inv(t, issued, now) && i < |t.pending| && t.matching == ById
    ensures Match(t.pending, ById, t.pending[i].id) == i <==> Unambiguous(t.pending, i)
  {
    hide IdAt, CalledOnce, Conserved;
    forall k | 0 <= k < i
      ensures t.pending[k].id == t.pending[i].id <==> (t.pending[i].serial - t.pending[k].serial) % 65535 == 0
    {
      PendingAccepted(t, issued, now, k);
      PendingAccepted(t, issued, now, i);
      IdsEqualExactly(t.pending[k].serial, t.pending[i].serial);
    }
  }

  lemma PendingAccepted(t: Tracker, issued: nat, now: nat, i: nat)
    requires Inv(t, issued, now) && i < |t.pending|
    ensures 1 <= t.pending[i].serial <= issued && t.pending[i].id == IdAt(t.pending[i].serial)
  {
    hide IdAt, CalledOnce;
    assert t.pending[i] in PendingSet(t);
  }

  /** With fewer than 65535 draws between the oldest and the newest request pending, no answer is ambiguous. */
  lemma CloseIsUnambiguous(rs: seq<Request>, i: nat)
    requires Sorted(rs) && i < |rs| && rs[|rs| - 1].serial - rs[0].serial < 65535
    ensures Unambiguous(rs, i)
  {
    forall k | 0 <= k < i ensures 0 < rs[i].serial - rs[k].serial < 65535 {}
  }

  // ---- Timeouts ------------------------------------------------------------------------------------

  /** If the first k requests are expired and no others, the sweep cuts the list at k. */
  lemma {:induction false} CutAt(rs: seq<Request>, stamp: nat, k: nat)
    requires k <= |rs|
    requires forall j :: 0 <= j < |rs| ==> (j < k <==> IsExpired(rs[j], stamp))
    ensures Expired(rs, stamp) == rs[..k] && Kept(rs, stamp) == rs[k..]
  {
    if rs != [] {
      hide IsExpired;
      var n := |rs| - 1;
      var init := rs[..n];
      assert rs == init + [rs[n]];
      if k == |rs| {
        CutAt(init, stamp, n);
        assert init[..n] == init && init[n..] == [] && rs[k..] == [];
      } else {
        CutAt(init, stamp, k);
        assert init[..k] == rs[..k] && init[k..] + [rs[n]] == rs[k..];
      }
    }
  }

  /** The first request that is still within its time. */
  function FirstAlive(rs: seq<Request>, stamp: nat): (k: nat)
    ensures k <= |rs|
    ensures forall j :: 0 <= j < k ==> IsExpired(rs[j], stamp)
    ensures k < |rs| ==> !IsExpired(rs[k], stamp)
  {
    if rs == [] || !IsExpired(rs[0], stamp) then 0 else 1 + FirstAlive(rs[1..], stamp)
  }

  /** In a list sorted by time the expired requests are a prefix, and the survivors are the rest in the same order. */
  lemma ExpiredArePrefix(rs: seq<Request>, stamp: nat)
    requires Sorted(rs)
    ensures |Expired(rs, stamp)| <= |rs|
    ensures Expired(rs, stamp) == rs[..|Expired(rs, stamp)|]
    ensures Kept(rs, stamp) == rs[|Expired(rs, stamp)|..]
    ensures forall k :: 0 <= k < |rs| ==> (k < |Expired(rs, stamp)| <==> IsExpired(rs[k], stamp))
  {
    var k := FirstAlive(rs, stamp);
    assert forall j :: k <= j < |rs| ==> rs[k].sentAt <= rs[j].sentAt;
    CutAt(rs, stamp, k);
  }

  /** How many of the requests given up are looked at before a handler says that the client is gone. */
  function Reach(gone: seq<Request>): (n: nat)
    ensures n <= |gone|
    ensures forall k :: 0 <= k < n - 1 ==> gone[k].onTimeout != Returns(2)
    ensures n < |gone| ==> n > 0 && gone[n - 1].onTimeout == Returns(2)
  {
    if gone == [] then 0 else if gone[0].onTimeout == Returns(2) then 1 else 1 + Reach(gone[1..])
  }

  function WithHandler(rs: seq<Request>): seq<Call> {
    if rs == [] then []
    else WithHandler(rs[..|rs| - 1]) +
         if rs[|rs| - 1].onTimeout.Returns? then [Call(rs[|rs| - 1], OnTimeout)] else []
  }

  lemma {:induction false} WithHandlerCons(r: Request, rs: seq<Request>)
    ensures WithHandler([r] + rs) == (if r.onTimeout.Returns? then [Call(r, OnTimeout)] else []) + WithHandler(rs)
  {
    if rs == [] {
      assert ([r] + rs)[..0] == [];
    } else {
      var init := rs[..|rs| - 1];
      WithHandlerCons(r, init);
      assert ([r] + rs)[..|rs|] == [r] + init;
    }
  }

  /** Calls are made in list order, to exactly the handlers up to the first one that returns 2. */
  lemma {:induction false} TimeoutCallsStop(gone: seq<Request>)
    ensures TimeoutCalls(gone) == WithHandler(gone[..Reach(gone)])
  {
    if gone != [] {
      var n := Reach(gone);
      assert gone[..n] == [gone[0]] + gone[1..][..n - 1];
      WithHandlerCons(gone[0], gone[1..][..n - 1]);
      if gone[0].onTimeout != Returns(2) { TimeoutCallsStop(gone[1..]); }
    }
  }

  lemma {:induction false} WithHandlerMembers(rs: seq<Request>)
    requires Sorted(rs)
    ensures forall c :: c in WithHandler(rs) <==> c.request in rs && c.kind == OnTimeout && c.request.onTimeout.Returns?
    ensures forall i, j :: 0 <= i < j < |WithHandler(rs)| ==> WithHandler(rs)[i].request != WithHandler(rs)[j].request
  {
    if rs != [] {
      var init, last := rs[..|rs| - 1], rs[|rs| - 1];
      assert rs == init + [last];
      WithHandlerMembers(init);
      assert last !in init;
      forall i | 0 <= i < |WithHandler(init)| ensures WithHandler(init)[i].request in init {
        assert WithHandler(init)[i] in WithHandler(init);
      }
    }
  }

  lemma TimeoutCallMembers(gone: seq<Request>)
    requires Sorted(gone)
    ensures forall c :: c in TimeoutCalls(gone) ==>
              c.request in gone && c.kind == OnTimeout && c.request.onTimeout.Returns?
    ensures forall i, j :: 0 <= i < j < |TimeoutCalls(gone)| ==>
              TimeoutCalls(gone)[i].request != TimeoutCalls(gone)[j].request
    ensures (forall r :: r in gone ==> r.onTimeout != Returns(2)) ==>
              forall r :: r in gone && r.onTimeout.Returns? ==> Call(r, OnTimeout) in TimeoutCalls(gone)
  {
    var n := Reach(gone);
    TimeoutCallsStop(gone);
    WithHandlerMembers(gone[..n]);
    if n < |gone| {
      assert gone[n - 1] in gone;
    } else {
      assert gone[..n] == gone;
    }
  }

  lemma CalleesConcat(calls: seq<Call>, more: seq<Call>)
    ensures Callees(calls + more) == Callees(calls) + Callees(more)
  {
    var all := calls + more;
    forall r | r in Callees(calls) ensures r in Callees(all) {
      var k :| 0 <= k < |calls| && calls[k].request == r;
      assert all[k].request == r;
    }
    forall r | r in Callees(more) ensures r in Callees(all) {
      var k :| 0 <= k < |more| && more[k].request == r;
      assert all[|calls| + k].request == r;
    }
  }

  lemma SweepConserves(t: Tracker, connected: bool, stamp: nat, unsubscribeOk: bool)
    requires Conserved(t) && Sorted(t.pending)
    ensures Conserved(Sweep(t, connected, stamp, unsubscribeOk))
    ensures Sorted(Kept(t.pending, stamp)) && Sorted(Expired(t.pending, stamp))
    ensures Safe(t) ==> Safe(Sweep(t, connected, stamp, unsubscribeOk))
  {
    hide Expired, Kept, TimeoutCalls, Conserved, PendingSet, IsExpired;
    ExpiredArePrefix(t.pending, stamp);
    var gone, kept := Expired(t.pending, stamp), Kept(t.pending, stamp);
    PendingSplit(t.pending, |gone|);
    SomeExpire(t, gone, kept, Expiry(stamp, connected), Sweep(t, connected, stamp, unsubscribeOk));
  }

  /** Requests that move from the list to the expired ones stay accounted for. */
  lemma SomeExpire(t: Tracker, gone: seq<Request>, kept: seq<Request>, e: Expiry, after: Tracker)
    requires Conserved(t)
    requires (set r | r in t.pending) == (set r | r in gone) + (set r | r in kept)
    requires (set r | r in gone) !! (set r | r in kept)
    requires after.pending == kept && after.accepted == t.accepted && after.answered == t.answered
    requires after.expired == t.expired + Expiries(gone, e)
    ensures Conserved(after)
  {
    hide Expiries;
    assert after.expired.Keys == t.expired.Keys + set r | r in gone;
  }

  lemma PendingSplit(rs: seq<Request>, k: nat)
    requires Sorted(rs) && k <= |rs|
    ensures (set r | r in rs) == (set r | r in rs[..k]) + (set r | r in rs[k..])
    ensures (set r | r in rs[..k]) !! (set r | r in rs[k..])
    ensures Sorted(rs[..k]) && Sorted(rs[k..])
  {
    assert rs == rs[..k] + rs[k..];
    forall r | r in rs[..k] ensures r !in rs[k..] {
      var i :| 0 <= i < k && rs[i] == r;
      assert forall j :: k <= j < |rs| ==> rs[i].serial < rs[j].serial;
    }
  }

  lemma SweepCallsOnce(t: Tracker, connected: bool, stamp: nat, unsubscribeOk: bool)
    requires Conserved(t) && CalledOnce(t) && Sorted(t.pending)
    ensures CalledOnce(Sweep(t, connected, stamp, unsubscribeOk))
  {
    hide Expired, Kept, TimeoutCalls, CalledOnce;
    var gone, after := Expired(t.pending, stamp), Sweep(t, connected, stamp, unsubscribeOk);
    SweepConserves(t, connected, stamp, unsubscribeOk);
    TimeoutCallMembers(gone);
    CalledGone(t, gone, TimeoutCalls(gone), Expiries(gone, Expiry(stamp, connected)));
    CalledOnceIgnores(t.(expired := after.expired, calls := after.calls), after);
  }

  lemma CalledGone(t: Tracker, gone: seq<Request>, more: seq<Call>, expiries: map<Request, Expiry>)
    requires Conserved(t) && CalledOnce(t)
    requires forall r :: r in gone ==> r in PendingSet(t)
    requires expiries.Keys == set r | r in gone
    requires forall c :: c in more ==> c.request in gone && c.kind == OnTimeout && c.request.onTimeout.Returns?
    requires forall i, j :: 0 <= i < j < |more| ==> more[i].request != more[j].request
    requires (forall r :: r in gone ==> r.onTimeout != Returns(2)) ==>
               forall r :: r in gone && r.onTimeout.Returns? ==> Call(r, OnTimeout) in more
    ensures CalledOnce(t.(expired := t.expired + expiries, calls := t.calls + more))
  {
    hide PendingSet;
    var after := t.(expired := t.expired + expiries, calls := t.calls + more);
    CalleesConcat(t.calls, more);
    assert after.expired.Keys == t.expired.Keys + expiries.Keys;
    forall i | 0 <= i < |more| ensures more[i].request in gone && more[i].request in PendingSet(t)
                                       && more[i].kind == OnTimeout && more[i].request.onTimeout.Returns? {
      assert more[i] in more;
    }
    assert forall i :: |t.calls| <= i < |after.calls| ==> after.calls[i] == more[i - |t.calls|];
    if forall r :: r in after.expired.Keys ==> r.onTimeout != Returns(2) {
      assert forall r :: r in gone ==> r in after.expired.Keys;
      assert forall r :: r in t.expired.Keys ==> r in after.expired.Keys;
      forall r | r in gone && r.onTimeout.Returns? ensures r in Callees(more) {
        var k :| 0 <= k < |more| && more[k] == Call(r, OnTimeout);
        assert more[k].request == r;
      }
    }
  }

  lemma SweepKeeps(t: Tracker, issued: nat, now: nat, connected: bool, stamp: nat, unsubscribeOk: bool)
    requires Inv(t, issued, now)
    ensures Inv(Sweep(t, connected, stamp, unsubscribeOk), issued, now)
    ensures Safe(t) ==> Safe(Sweep(t, connected, stamp, unsubscribeOk))
  {
    hide Expired, Kept, TimeoutCalls, Conserved, CalledOnce, IdAt;
    SweepConserves(t, connected, stamp, unsubscribeOk);
    SweepCallsOnce(t, connected, stamp, unsubscribeOk);
    ExpiredArePrefix(t.pending, stamp);
  }

  /** The stamp 32 s ahead expires everything, so clearing the list afterwards drops no request. */
  lemma DisconnectKeeps(t: Tracker, issued: nat, now: nat)
    requires Inv(t, issued, now)
    ensures Inv(Disconnect(t, now), issued, now)
    ensures Disconnect(t, now).pending == []
    ensures Disconnect(t, now).expired.Keys == t.expired.Keys + PendingSet(t)
    ensures Disconnect(t, now).answered == t.answered
  {
    hide Expired, Kept, TimeoutCalls, Conserved, CalledOnce, IdAt;
    var t0, stamp := t.(subscribed := false), now + TIMEOUT + 2;
    SubscriptionIgnored(t, issued, now);
    CutAt(t.pending, stamp, |t.pending|);
    SweepKeeps(t0, issued, now, false, stamp, false);
    assert Sweep(t0, false, stamp, false).pending == [];
  }

  lemma SubscriptionIgnored(t: Tracker, issued: nat, now: nat)
    requires Inv(t, issued, now)
    ensures forall on :: Inv(t.(subscribed := on), issued, now)
  {
    assert forall on :: PendingSet(t.(subscribed := on)) == PendingSet(t);
  }

  /** Running the disconnect handler on an empty tracker changes nothing but the broker's subscription. */
  lemma DisconnectAgain(t: Tracker, now: nat)
    requires t.pending == []
    ensures Disconnect(t, now) == t.(subscribed := false)
  {
    assert Expired([], now + TIMEOUT + 2) == [];
    assert t.calls + [] == t.calls;
    assert t.expired + map[] == t.expired;
  }
}
