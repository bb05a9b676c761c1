/**
 * Pending requests that wait for an answer: attribute requests, two-way client RPC and provisioning.
 * A tracker is the pending list and the broker's response subscription, together with the history
 * the properties talk about.
 */
module Trackers {
  import opened Basics
  import opened Sequences

  /** What on_timeout will return when it is called; the application may also have registered no handler. */
  datatype Handler = NoHandler | Returns(code: int)

  /** serial counts the ids handed out when the request was sent; it tells apart requests that share an id. */
  datatype Request = Request(serial: nat, id: nat, sentAt: nat, onTimeout: Handler)

  /** Attribute and RPC answers carry the id of their request, provisioning answers do not. */
  datatype Matching = ById | Fifo

  datatype CallKind = OnResponse | OnTimeout

  datatype Call = Call(request: Request, kind: CallKind)

  /** When a request was given up, and whether the connection was still up. */
  datatype Expiry = Expiry(stamp: nat, live: bool)

  datatype Tracker = Tracker(
    matching: Matching,
    pending: seq<Request>,
    subscribed: bool,
    accepted: set<Request>,
    answered: set<Request>,
    expired: map<Request, Expiry>,
    calls: seq<Call>)

  function Fresh(matching: Matching): Tracker {
    Tracker(matching, [], false, {}, {}, map[], [])
  }

  // ---- Sending -----------------------------------------------------------------------------------

  /** The response topic is subscribed before the first request is sent; ok is the broker's answer. */
  function SubscribeIfEmpty(t: Tracker, ok: bool): Tracker {
    if t.pending == [] then t.(subscribed := t.subscribed || ok) else t
  }

  function Append(t: Tracker, r: Request): Tracker {
    t.(pending := t.pending + [r], accepted := t.accepted + {r})
  }

  // ---- Answers -----------------------------------------------------------------------------------

  /** The request an answer goes to: the first with its id, or simply the first. |pending| when there is none. */
  function Match(pending: seq<Request>, matching: Matching, id: nat): (i: nat)
    ensures i <= |pending|
    ensures i < |pending| && matching == ById ==> pending[i].id == id
    ensures matching == ById ==> forall k :: 0 <= k < i ==> pending[k].id != id
    ensures matching == Fifo ==> i == 0
  {
    if pending == [] || matching == Fifo || pending[0].id == id then 0
    else 1 + Match(pending[1..], matching, id)
  }

  /** A provisioning answer that cannot be parsed is reported through on_timeout, which must then exist. */
  predicate CanReport(t: Tracker, parsed: bool) {
    t.matching == Fifo && !parsed && t.pending != [] ==> t.pending[0].onTimeout.Returns?
  }

  function Without<T>(xs: seq<T>, i: nat): seq<T>
    requires i < |xs|
  {
    xs[..i] + xs[i + 1..]
  }

  function Answer(t: Tracker, connected: bool, id: nat, parsed: bool, unsubscribeOk: bool): Tracker {
    var i := Match(t.pending, t.matching, id);
    if i == |t.pending| then t
    else
      var r, rest := t.pending[i], Without(t.pending, i);
      t.(pending := rest,
         subscribed := t.subscribed && !(connected && rest == [] && unsubscribeOk),
         answered := t.answered + {r},
         calls := t.calls + [Call(r, if t.matching == Fifo && !parsed then OnTimeout else OnResponse)])
  }

  // ---- Timeouts ----------------------------------------------------------------------------------

  predicate IsExpired(r: Request, stamp: nat) {
    r.sentAt + TIMEOUT <= stamp
  }

  function Kept(rs: seq<Request>, stamp: nat): seq<Request> {
    if rs == [] then []
    else Kept(rs[..|rs| - 1], stamp) + if IsExpired(rs[|rs| - 1], stamp) then [] else [rs[|rs| - 1]]
  }

  function Expired(rs: seq<Request>, stamp: nat): (r: seq<Request>)
    ensures forall x :: x in r ==> x in rs
  {
    if rs == [] then []
    else Expired(rs[..|rs| - 1], stamp) + if IsExpired(rs[|rs| - 1], stamp) then [rs[|rs| - 1]] else []
  }

  /** Handlers are called in list order until one of them reports, by returning 2, that the client is gone. */
  function TimeoutCalls(gone: seq<Request>): seq<Call> {
    if gone == [] then []
    else if gone[0].onTimeout == NoHandler then TimeoutCalls(gone[1..])
    else if gone[0].onTimeout == Returns(2) then [Call(gone[0], OnTimeout)]
    else [Call(gone[0], OnTimeout)] + TimeoutCalls(gone[1..])
  }

  function Expiries(gone: seq<Request>, e: Expiry): (m: map<Request, Expiry>)
    ensures m.Keys == set r | r in gone
  {
    map r | r in gone :: e
  }

  function Sweep(t: Tracker, connected: bool, stamp: nat, unsubscribeOk: bool): Tracker {
    var gone, kept := Expired(t.pending, stamp), Kept(t.pending, stamp);
    t.(pending := kept,
       subscribed := t.subscribed && !(connected && t.pending != [] && kept == [] && unsubscribeOk),
       expired := t.expired + Expiries(gone, Expiry(stamp, connected)),
       calls := t.calls + TimeoutCalls(gone))
  }

  /** The broker forgets the subscription, everything pending is swept with a stamp 32 s ahead, the list is cleared. */
  function Disconnect(t: Tracker, now: nat): Tracker {
    Sweep(t.(subscribed := false), false, now + TIMEOUT + 2, false).(pending := [])
  }

  // ---- The list in place -------------------------------------------------------------------------

  class RequestList {
    const matching: Matching
    var pending: seq<Request>
    ghost var subscribed: bool
    ghost var accepted: set<Request>
    ghost var answered: set<Request>
    ghost var expired: map<Request, Expiry>
    ghost var calls: seq<Call>

    ghost function Model(): Tracker
      reads this
    {
      Tracker(matching, pending, subscribed, accepted, answered, expired, calls)
    }

    constructor (matching: Matching)
      ensures Model() == Fresh(matching)
    {
      this.matching := matching;
      pending, subscribed, accepted, answered, expired, calls := [], false, {}, {}, map[], [];
    }

    method EnsureSubscribed(ok: bool)
      modifies this
      ensures Model() == SubscribeIfEmpty(old(Model()), ok)
    {
      if pending == [] {
        subscribed := subscribed || ok;
      }
    }

    method Add(r: Request)
      modifies this
      ensures Model() == Append(old(Model()), r)
    {
      pending := pending + [r];
      accepted := accepted + {r};
    }

    method OnData(connected: bool, id: nat, parsed: bool, unsubscribeOk: bool)
      requires CanReport(Model(), parsed)
      modifies this
      ensures Model() == Answer(old(Model()), connected, id, parsed, unsubscribeOk)
    {
      var isEmptyBefore := pending == [];
      var i := 0;
      while i < |pending| && matching == ById && pending[i].id != id
        invariant i <= |pending| && unchanged(this)
        invariant i <= Match(pending, matching, id)
      {
        i := i + 1;
      }
      assert i == Match(pending, matching, id);
      var found := None;
      if i < |pending| {
        found := Some(pending[i]);
        pending := pending[..i] + pending[i + 1..];
      }
      if connected && !isEmptyBefore && pending == [] && unsubscribeOk {
        subscribed := false;
      }
      if found.None? {
        return;
      }
      answered := answered + {found.value};
      if matching == ById || parsed {
        calls := calls + [Call(found.value, OnResponse)];
      } else {
        calls := calls + [Call(found.value, OnTimeout)];
      }
    }

    /** Move the expired requests, in list order, from the pending list to a list of their own. */
    method CutExpired(stamp: nat) returns (timeoutList: seq<Request>)
      modifies this`pending
      ensures pending == Kept(old(pending), stamp)
      ensures timeoutList == Expired(old(pending), stamp)
    {
      timeoutList := [];
      ghost var before, n: nat := pending, 0;
      var i := 0;
      while i < |pending|
        invariant n <= |before| && i <= |pending|
        invariant pending[..i] == Kept(before[..n], stamp) && pending[i..] == before[n..]
        invariant timeoutList == Expired(before[..n], stamp)
        decreases |before| - n
      {
        assert before[..n + 1][..n] == before[..n];
        assert pending[i] == before[n];
        if pending[i].sentAt + TIMEOUT <= stamp {
          timeoutList := timeoutList + [pending[i]];
          pending := pending[..i] + pending[i + 1..];
        } else {
          i := i + 1;
        }
        n := n + 1;
      }
      assert before[..n] == before && pending[..i] == pending;
    }

    /** Report the requests given up, one by one, as long as no handler says that the client is gone. */
    method ReportTimeouts(timeoutList: seq<Request>)
      modifies this`calls
      ensures calls == old(calls) + TimeoutCalls(timeoutList)
    {
      var clientIsValid := true;
      var rest := timeoutList;
      ghost var all := old(calls) + TimeoutCalls(timeoutList);
      ghost var due := TimeoutCalls(timeoutList);
      while rest != []
        invariant due == (if clientIsValid then TimeoutCalls(rest) else [])
        invariant calls + due == all
        decreases |rest|
      {
        var request, result := rest[0], 0;
        if clientIsValid && request.onTimeout.Returns? {
          assert due == [Call(request, OnTimeout)] + due[1..];
          assert calls + [Call(request, OnTimeout)] + due[1..] == calls + due;
          calls := calls + [Call(request, OnTimeout)];
          due := due[1..];
          result := request.onTimeout.code;
        }
        if result == 2 {
          clientIsValid := false;
        }
        rest := rest[1..];
      }
    }

    method CheckTimeout(connected: bool, stamp: nat, unsubscribeOk: bool)
      modifies this
      ensures Model() == Sweep(old(Model()), connected, stamp, unsubscribeOk)
    {
      var isEmptyBefore := pending == [];
      var timeoutList := CutExpired(stamp);
      if connected && !isEmptyBefore && pending == [] && unsubscribeOk {
        subscribed := false;
      }
      expired := expired + Expiries(timeoutList, Expiry(stamp, connected));
      ReportTimeouts(timeoutList);
    }

    method OnDisconnected(now: nat)
      modifies this
      ensures Model() == Disconnect(old(Model()), now)
    {
      subscribed := false;
      CheckTimeout(false, now + TIMEOUT + 2, false);
      pending := [];
    }
  }
}
