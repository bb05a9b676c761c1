/** Subscriptions to shared attributes: the list of subscribers and the one topic they share at the broker. */
module AttributesSubscribe {
  import opened Basics

  const INT32_MAX: nat := 0x7FFF_FFFF

  /** keys: what the subscriber wants to hear of, nothing meaning everything; reply: what its on_update returns. */
  datatype Subscriber = Subscriber(id: nat, keys: seq<string>, reply: int)

  /** lastId is the static counter behind the ids; atBroker tells whether the broker holds the subscription. */
  datatype Registry = Registry(subscribers: seq<Subscriber>, lastId: nat, connected: bool, atBroker: bool)

  /** The id as the int that the subscribe functions return. */
  function AsInt(id: nat): int {
    if id <= INT32_MAX then id else id - UINT32
  }

  function Subscribe(r: Registry, keys: seq<string>, reply: int, ok: bool): Registry {
    var id := (r.lastId + 1) % UINT32;
    r.(subscribers := r.subscribers + [Subscriber(id, keys, reply)],
       lastId := id,
       atBroker := r.atBroker || (r.connected && r.subscribers == [] && ok))
  }

  /** The first subscriber with the id, which is compared as an unsigned number; |subscribers| when there is none. */
  function Position(subscribers: seq<Subscriber>, id: int): (i: nat)
    ensures i <= |subscribers|
    ensures i < |subscribers| ==> subscribers[i].id == id % UINT32
    ensures forall k :: 0 <= k < i ==> subscribers[k].id != id % UINT32
  {
    if subscribers == [] || subscribers[0].id == id % UINT32 then 0 else 1 + Position(subscribers[1..], id)
  }

  function Remove(subscribers: seq<Subscriber>, id: int): seq<Subscriber> {
    var i := Position(subscribers, id);
    if i < |subscribers| then subscribers[..i] + subscribers[i + 1..] else subscribers
  }

  function Unsubscribe(r: Registry, id: int, ok: bool): Registry {
    var rest := Remove(r.subscribers, id);
    r.(subscribers := rest,
       atBroker := r.atBroker && !(r.connected && r.subscribers != [] && rest == [] && ok))
  }

  /** A new connection starts without subscriptions; the topic is subscribed again if anybody wants it. */
  function OnConnected(r: Registry, ok: bool): Registry {
    r.(connected := true, atBroker := r.subscribers != [] && ok)
  }

  function OnDisconnected(r: Registry): Registry {
    r.(connected := false, atBroker := false)
  }

  predicate Wants(s: Subscriber, keys: set<string>) {
    s.keys == [] || HasKey(s.keys, keys)
  }

  predicate HasKey(wanted: seq<string>, keys: set<string>) {
    exists k :: k in wanted && HasItem(keys, k)
  }

  /** cJSON_HasObjectItem does not distinguish upper and lower case. */
  predicate HasItem(keys: set<string>, key: string) {
    exists k :: k in keys && SameText(k, key)
  }

  /** The code of a letter in lower case, of any other character as it is. */
  function Folded(c: char): int {
    if 65 <= c as int <= 90 then c as int + 32 else c as int
  }

  /** The same length, and the same characters up to the case of letters. */
  predicate SameFolded(a: string, b: string) {
    |a| == |b| && forall k :: 0 <= k < |a| ==> Folded(a[k]) == Folded(b[k])
  }

  /** An update of these keys concerns a subscriber that wants everything, or one of whose keys is among them. */
  predicate Concerns(s: Subscriber, keys: set<string>) {
    s.keys == [] || exists i, k :: 0 <= i < |s.keys| && k in keys && SameFolded(s.keys[i], k)
  }

  lemma FoldedExactly(a: string, b: string)
    ensures SameFolded(a, b) <==> SameText(b, a)
  {
    forall k | 0 <= k < |a| ensures Folded(a[k]) == LowerCase(a[k]) as int {}
    forall k | 0 <= k < |b| ensures Folded(b[k]) == LowerCase(b[k]) as int {}
  }

  lemma WantsExactly(s: Subscriber, keys: set<string>)
    ensures Wants(s, keys) <==> Concerns(s, keys)
  {
    hide SameText, SameFolded;
    forall a, b ensures SameFolded(a, b) <==> SameText(b, a) { FoldedExactly(a, b); }
    if i, k :| 0 <= i < |s.keys| && k in keys && SameFolded(s.keys[i], k) {
      assert s.keys[i] in s.keys && HasItem(keys, s.keys[i]);
    }
    if key :| key in s.keys && HasItem(keys, key) {
      var i :| 0 <= i < |s.keys| && s.keys[i] == key;
      var k :| k in keys && SameText(k, key);
      assert SameFolded(s.keys[i], k);
    }
  }

  /** A subscriber with keys of its own can end the distribution, by saying that it disconnected or unsubscribed. */
  predicate Stops(s: Subscriber, keys: set<string>) {
    s.keys != [] && Wants(s, keys) && (s.reply == 2 || s.reply == 1)
  }

  /** Who is told of an update of these keys. */
  function Told(subscribers: seq<Subscriber>, keys: set<string>): seq<Subscriber> {
    if subscribers == [] then []
    else if Stops(subscribers[0], keys) then [subscribers[0]]
    else (if Wants(subscribers[0], keys) then [subscribers[0]] else []) + Told(subscribers[1..], keys)
  }

  /** The value of the last on_update whose result is looked at: that of a subscriber with keys of its own. */
  function LastReply(told: seq<Subscriber>): int {
    if told == [] then 0
    else if told[|told| - 1].keys != [] then told[|told| - 1].reply
    else LastReply(told[..|told| - 1])
  }

  predicate AnyStops(subscribers: seq<Subscriber>, keys: set<string>) {
    exists k :: 0 <= k < |subscribers| && Ends(subscribers[k], keys)
  }

  /** It has keys of its own, is concerned, and says that it disconnected or unsubscribed. */
  predicate Ends(s: Subscriber, keys: set<string>) {
    s.keys != [] && Concerns(s, keys) && (s.reply == 1 || s.reply == 2)
  }

  lemma AnyStopsCons(subscribers: seq<Subscriber>, keys: set<string>)
    requires subscribers != []
    ensures AnyStops(subscribers, keys) <==> Stops(subscribers[0], keys) || AnyStops(subscribers[1..], keys)
  {
    hide Stops, Ends;
    forall s ensures Stops(s, keys) <==> Ends(s, keys) { StopsEnds(s, keys); }
    if k :| 0 <= k < |subscribers| && Ends(subscribers[k], keys) {
      assert k > 0 ==> Ends(subscribers[1..][k - 1], keys);
    }
    if k :| 0 <= k < |subscribers[1..]| && Ends(subscribers[1..][k], keys) {
      assert Ends(subscribers[k + 1], keys);
    }
  }

  lemma StopsEnds(s: Subscriber, keys: set<string>)
    ensures Stops(s, keys) <==> Ends(s, keys)
  {
    StopsConcerns(s, keys);
  }

  /** If somebody stops the distribution it is the last one told. */
  lemma {:induction false} StopperIsLast(subscribers: seq<Subscriber>, keys: set<string>)
    ensures var told := Told(subscribers, keys);
            if AnyStops(subscribers, keys) then told != [] && Stops(told[|told| - 1], keys)
            else forall k :: 0 <= k < |told| ==> Wants(told[k], keys) && !Stops(told[k], keys)
  {
    hide AnyStops, Wants, Stops;
    if subscribers == [] {
      NobodyStops(keys);
    } else {
      AnyStopsCons(subscribers, keys);
      StopperIsLast(subscribers[1..], keys);
    }
  }

  lemma NobodyStops(keys: set<string>)
    ensures !AnyStops([], keys)
  {}

  lemma {:induction false} LastReplyFrom(told: seq<Subscriber>)
    ensures LastReply(told) == 0 ||
            exists k :: 0 <= k < |told| && told[k].keys != [] && told[k].reply == LastReply(told)
  {
    if told != [] && told[|told| - 1].keys == [] {
      LastReplyFrom(told[..|told| - 1]);
    }
  }

  /** The caller learns from the result whether some handler ended the distribution, and how. */
  lemma ResultTells(subscribers: seq<Subscriber>, keys: set<string>)
    ensures var result := LastReply(Told(subscribers, keys));
            result == 1 || result == 2 <==> AnyStops(subscribers, keys)
  {
    hide AnyStops, Told, Wants;
    StopperIsLast(subscribers, keys);
    LastReplyFrom(Told(subscribers, keys));
  }

  /** Exactly the interested subscribers up to and including the first that stops the distribution, in list order. */
  lemma {:induction false} ToldExactly(subscribers: seq<Subscriber>, keys: set<string>, n: nat)
    requires n <= |subscribers| && (forall k :: 0 <= k < n - 1 ==> !Ends(subscribers[k], keys))
    requires n < |subscribers| ==> n > 0 && Ends(subscribers[n - 1], keys)
    ensures Told(subscribers, keys) == Interested(subscribers[..n], keys)
  {
    hide Wants, Stops, Interested, Concerns, Ends;
    InterestedInNothing(keys);
    if subscribers != [] {
      var first, rest := subscribers[0], subscribers[1..];
      assert subscribers[..n] == [first] + rest[..n - 1];
      InterestedCons(first, rest[..n - 1], keys);
      StopsEnds(first, keys);
      EndsConcerns(first, keys);
      WantsExactly(first, keys);
      if Stops(first, keys) {
        assert n == 1 && rest[..0] == [];
      } else {
        assert forall k :: 0 <= k < |rest| ==> rest[k] == subscribers[k + 1];
        ToldExactly(rest, keys, n - 1);
      }
    } else {
      assert subscribers[..n] == [];
    }
  }

  lemma StopsConcerns(s: Subscriber, keys: set<string>)
    ensures Stops(s, keys) <==> s.keys != [] && Concerns(s, keys) && (s.reply == 1 || s.reply == 2)
  {
    WantsExactly(s, keys);
  }

  lemma EndsConcerns(s: Subscriber, keys: set<string>)
    ensures Ends(s, keys) ==> Concerns(s, keys)
  {}

  lemma InterestedInNothing(keys: set<string>)
    ensures Interested([], keys) == []
  {}

  function Interested(subscribers: seq<Subscriber>, keys: set<string>): seq<Subscriber> {
    if subscribers == [] then []
    else Interested(subscribers[..|subscribers| - 1], keys) +
         if Concerns(subscribers[|subscribers| - 1], keys) then [subscribers[|subscribers| - 1]] else []
  }

  lemma {:induction false} InterestedCons(s: Subscriber, rest: seq<Subscriber>, keys: set<string>)
    ensures Interested([s] + rest, keys) == (if Concerns(s, keys) then [s] else []) + Interested(rest, keys)
  {
    hide Concerns;
    if rest == [] {
      assert ([s] + rest)[..0] == [];
    } else {
      var init := rest[..|rest| - 1];
      InterestedCons(s, init, keys);
      assert ([s] + rest)[..|rest|] == [s] + init;
    }
  }

  /** As long as nobody before it ends the distribution, a subscriber is told if and only if the update concerns it. */
  lemma ToldWho(subscribers: seq<Subscriber>, keys: set<string>, n: nat)
    requires n < |subscribers| && forall k :: 0 <= k < n ==> !Ends(subscribers[k], keys)
    ensures subscribers[n] in Told(subscribers, keys) <==>
            || subscribers[n].keys == []
            || exists i, k :: 0 <= i < |subscribers[n].keys| && k in keys && |k| == |subscribers[n].keys[i]|
                 && forall j :: 0 <= j < |k| ==> Folded(subscribers[n].keys[i][j]) == Folded(k[j])
  {
    hide Told, Ends, Interested;
    var s := subscribers[n];
    var m := FirstEnding(subscribers, keys, n);
    ToldExactly(subscribers, keys, m);
    InterestedMembers(subscribers[..m], keys);
    assert subscribers[..m][n] == s;
    forall i, k | 0 <= i < |s.keys| && k in keys
      ensures SameFolded(s.keys[i], k) <==>
              |k| == |s.keys[i]| && forall j :: 0 <= j < |k| ==> Folded(s.keys[i][j]) == Folded(k[j]) {}
  }

  /** How far the distribution gets from n on. */
  lemma {:induction false} FirstEnding(subscribers: seq<Subscriber>, keys: set<string>, n: nat) returns (m: nat)
    requires n < |subscribers| && forall k :: 0 <= k < n ==> !Ends(subscribers[k], keys)
    ensures n < m <= |subscribers| && (forall k :: 0 <= k < m - 1 ==> !Ends(subscribers[k], keys))
    ensures m < |subscribers| ==> Ends(subscribers[m - 1], keys)
    decreases |subscribers| - n
  {
    hide Ends;
    if Ends(subscribers[n], keys) || n + 1 == |subscribers| {
      m := n + 1;
    } else {
      m := FirstEnding(subscribers, keys, n + 1);
    }
  }

  lemma {:induction false} InterestedMembers(subscribers: seq<Subscriber>, keys: set<string>)
    ensures forall s :: s in Interested(subscribers, keys) <==> s in subscribers && Concerns(s, keys)
  {
    hide Concerns;
    if subscribers != [] {
      var init, last := subscribers[..|subscribers| - 1], subscribers[|subscribers| - 1];
      InterestedMembers(init, keys);
      assert subscribers == init + [last];
    }
  }

  // ---- What each operation does --------------------------------------------------------------------------

  /** A new subscriber comes last, under the next id of a 32-bit counter; the first one subscribes the topic. */
  lemma SubscribeOutcome(r: Registry, keys: seq<string>, reply: int, ok: bool)
    ensures var after := Subscribe(r, keys, reply, ok);
            && after.lastId == (r.lastId + 1) % 0x1_0000_0000 && after.connected == r.connected
            && after.subscribers == r.subscribers + [Subscriber(after.lastId, keys, reply)]
            && (after.atBroker <==> r.atBroker || (r.connected && r.subscribers == [] && ok))
  {}

  /** Returned as an int, an id from 2^31 on is negative. */
  lemma IdAsInt(id: nat)
    ensures AsInt(id) == if id < 0x8000_0000 then id else id - 0x1_0000_0000
  {}

  /** An id nobody has changes nothing, neither list nor topic. */
  lemma UnsubscribeStranger(r: Registry, id: int, ok: bool)
    requires forall s :: s in r.subscribers ==> s.id != id % 0x1_0000_0000
    ensures Unsubscribe(r, id, ok) == r
  {
    assert forall k :: 0 <= k < |r.subscribers| ==> r.subscribers[k] in r.subscribers;
  }

  /** The first subscriber with the id leaves, the others stay in order; the last to leave unsubscribes the topic. */
  lemma UnsubscribeOutcome(r: Registry, i: nat, id: int, ok: bool)
    requires i < |r.subscribers| && r.subscribers[i].id == id % 0x1_0000_0000
    requires forall k :: 0 <= k < i ==> r.subscribers[k].id != id % 0x1_0000_0000
    ensures var after := Unsubscribe(r, id, ok);
            && after.subscribers == r.subscribers[..i] + r.subscribers[i + 1..]
            && after.lastId == r.lastId && after.connected == r.connected
            && (after.atBroker <==> r.atBroker && !(r.connected && |r.subscribers| == 1 && ok))
  {
    var p := Position(r.subscribers, id);
    assert p == i;
  }

  /** A connection starts without the topic, and subscribes it if anybody wants it; a disconnect keeps the list. */
  lemma ConnectionOutcome(r: Registry, ok: bool)
    ensures OnConnected(r, ok) == Registry(r.subscribers, r.lastId, true, r.subscribers != [] && ok)
    ensures OnDisconnected(r) == Registry(r.subscribers, r.lastId, false, false)
  {}

  // ---- Subscription equivalence ------------------------------------------------------------------------

  datatype Event =
    | Add(keys: seq<string>, reply: int, ok: bool)
    | Drop(id: int, ok: bool)
    | Connect(ok: bool)
    | Disconnect

  function Step(r: Registry, e: Event): Registry {
    match e
    case Add(keys, reply, ok) => Subscribe(r, keys, reply, ok)
    case Drop(id, ok) => Unsubscribe(r, id, ok)
    case Connect(ok) => OnConnected(r, ok)
    case Disconnect => OnDisconnected(r)
  }

  function Run(r: Registry, es: seq<Event>): Registry {
    if es == [] then r else Step(Run(r, es[..|es| - 1]), es[|es| - 1])
  }

  /** The broker holds the subscription exactly while the connection is up and somebody is subscribed. */
  predicate Agrees(r: Registry) {
    r.atBroker <==> r.connected && r.subscribers != []
  }

  /** A call that would have changed the broker's subscription fails. */
  predicate GoesUnheard(r: Registry, e: Event) {
    match e
    case Add(_, _, ok) => r.connected && r.subscribers == [] && !ok
    case Drop(id, ok) => r.connected && r.subscribers != [] && Remove(r.subscribers, id) == [] && !ok
    case Connect(ok) => r.subscribers != [] && !ok
    case Disconnect => false
  }

  /** One step keeps the agreement if and only if no needed call fails. */
  lemma StepAgrees(r: Registry, e: Event)
    requires Agrees(r)
    ensures Agrees(Step(r, e)) <==> !GoesUnheard(r, e)
  {}

  predicate AlwaysAgrees(r: Registry, es: seq<Event>) {
    Agrees(Run(r, es)) && (es == [] || AlwaysAgrees(r, es[..|es| - 1]))
  }

  /** No needed call of the run fails. */
  predicate AlwaysHeard(r: Registry, es: seq<Event>) {
    es == [] || (AlwaysHeard(r, es[..|es| - 1]) && !GoesUnheard(Run(r, es[..|es| - 1]), es[|es| - 1]))
  }

  /** Over all interleavings the agreement holds throughout if and only if no needed call fails. */
  lemma {:induction false} RunAgreesExactly(r: Registry, es: seq<Event>)
    requires Agrees(r)
    ensures AlwaysAgrees(r, es) <==> AlwaysHeard(r, es)
  {
    hide Step, Agrees, GoesUnheard;
    if es != [] {
      var init := es[..|es| - 1];
      RunAgreesExactly(r, init);
      AgreesNow(r, init);
      if Agrees(Run(r, init)) { StepAgrees(Run(r, init), es[|es| - 1]); }
    }
  }

  lemma AgreesNow(r: Registry, es: seq<Event>)
    ensures AlwaysAgrees(r, es) ==> Agrees(Run(r, es))
  {}

  // ---- The list in place ---------------------------------------------------------------------------------

  class SubscriberList {
    var subscribers: seq<Subscriber>
    var lastId: nat
    var connected: bool
    ghost var atBroker: bool

    ghost function Model(): Registry
      reads this
    {
      Registry(subscribers, lastId, connected, atBroker)
    }

    constructor ()
      ensures Model() == Registry([], 0, false, false)
    {
      subscribers, lastId, connected, atBroker := [], 0, false, false;
    }

    method SubscribeKeys(keys: seq<string>, reply: int, ok: bool) returns (id: int)
      modifies this
      ensures Model() == Subscribe(old(Model()), keys, reply, ok)
      ensures id == AsInt(lastId)
    {
      lastId := (lastId + 1) % UINT32;
      var isEmptyBefore := subscribers == [];
      subscribers := subscribers + [Subscriber(lastId, keys, reply)];
      if connected && isEmptyBefore && subscribers != [] && ok {
        atBroker := true;
      }
      id := AsInt(lastId);
    }

    method UnsubscribeId(id: int, ok: bool)
      modifies this
      ensures Model() == Unsubscribe(old(Model()), id, ok)
    {
      var isEmptyBefore := subscribers == [];
      var i := 0;
      while i < |subscribers| && subscribers[i].id != id % UINT32
        invariant i <= |subscribers| && unchanged(this)
        invariant i <= Position(subscribers, id)
      {
        i := i + 1;
      }
      if i < |subscribers| {
        subscribers := subscribers[..i] + subscribers[i + 1..];
      }
      if connected && !isEmptyBefore && subscribers == [] && ok {
        atBroker := false;
      }
    }

    method Connected(ok: bool)
      modifies this
      ensures Model() == OnConnected(old(Model()), ok)
    {
      connected := true;
      atBroker := false;
      if subscribers != [] && ok {
        atBroker := true;
      }
    }

    method Disconnected()
      modifies this
      ensures Model() == OnDisconnected(old(Model()))
    {
      connected := false;
      atBroker := false;
    }

    method OnData(keys: set<string>) returns (told: seq<Subscriber>, result: int)
      ensures told == Told(subscribers, keys)
      ensures result == LastReply(told)
      ensures result == 1 || result == 2 <==> AnyStops(subscribers, keys)
    {
      hide Told, Wants, Stops, AnyStops, LastReply;
      LastReplyOfNobody();
      ResultTells(subscribers, keys);
      told, result := [], 0;
      ghost var due := Told(subscribers, keys);
      var i := 0;
      while i < |subscribers|
        invariant i <= |subscribers|
        invariant due == Told(subscribers[i..], keys)
        invariant told + due == Told(subscribers, keys)
        invariant result == LastReply(told)
      {
        var s := subscribers[i];
        ToldNext(subscribers, i, keys);
        LastReplyAppend(told, s);
        assert due != [] && due[0] == s ==> told + [s] + due[1..] == told + due;
        if s.keys == [] {
          told := told + [s];
          due := due[1..];
        } else {
          var hit := AnyKey(s.keys, keys);
          if hit {
            told := told + [s];
            result := s.reply;
            if result == 2 || result == 1 {
              return;
            }
            due := due[1..];
          }
        }
        i := i + 1;
      }
      assert subscribers[i..] == [];
      ToldNobody(keys);
    }
  }

  lemma LastReplyAppend(told: seq<Subscriber>, s: Subscriber)
    ensures LastReply(told + [s]) == if s.keys != [] then s.reply else LastReply(told)
  {
    assert (told + [s])[..|told|] == told;
  }

  lemma LastReplyOfNobody()
    ensures LastReply([]) == 0
  {}

  /** What is due at subscriber i and what stays due behind it. */
  lemma ToldNext(subscribers: seq<Subscriber>, i: nat, keys: set<string>)
    requires i < |subscribers|
    ensures var s, due, later := subscribers[i], Told(subscribers[i..], keys), Told(subscribers[i + 1..], keys);
            if s.keys != [] && HasKey(s.keys, keys) && (s.reply == 2 || s.reply == 1) then due == [s]
            else if s.keys == [] || HasKey(s.keys, keys) then due == [s] + later
            else due == later
  {
    hide HasKey;
    assert subscribers[i..][0] == subscribers[i] && subscribers[i..][1..] == subscribers[i + 1..];
  }

  lemma ToldNobody(keys: set<string>)
    ensures Told([], keys) == []
  {}

  method AnyKey(wanted: seq<string>, keys: set<string>) returns (hit: bool)
    ensures hit <==> HasKey(wanted, keys)
  {
    hide HasItem;
    for i := 0 to |wanted|
      invariant forall k :: k in wanted[..i] ==> !HasItem(keys, k)
    {
      if HasItem(keys, wanted[i]) {
        return true;
      }
    }
    assert wanted[..|wanted|] == wanted;
    hit := false;
  }
}
