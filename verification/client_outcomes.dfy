/** What each event does to the trackers, case by case, in plain values. */
module ClientOutcomes {
  import opened RequestIds
  import opened Trackers
  import opened TrackerLaws
  import opened Client
  import opened ClientRuns

  /**
   * Sending: without a connection nothing happens at all; with one, an id is drawn whatever comes of it, the response
   * topic is subscribed only if nothing was pending, and the request joins the list behind the others if and only if it
   * was published and somebody wants the response.
   */
  lemma SendOutcome(s: State, e: Event)
    requires s.nextRequestId < 0x1_0000 && CanHappen(s, e) && e.Send?
    ensures var after, t := Step(s, e), s.Get(e.which);
            var t', joins := after.Get(e.which), e.publishOk && e.hasResponse;
            var id := if s.nextRequestId == 65535 then 1 else s.nextRequestId + 1;
            var r := Request(s.issued + 1, id, e.at, e.onTimeout);
            if !s.connected then after == s.(now := e.at)
            else
              && after.nextRequestId == id && after.issued == s.issued + 1 && after.now == e.at
              && after.connected && after.lastCheck == s.lastCheck && after.lastTick == s.lastTick
              && (t'.subscribed <==> t.subscribed || (t.pending == [] && e.subscribeOk))
              && t'.pending == t.pending + (if joins then [r] else [])
              && t'.accepted == t.accepted + (if joins then {r} else {})
              && t'.answered == t.answered && t'.expired == t.expired && t'.calls == t.calls
              && forall w :: w != e.which ==> after.Get(w) == s.Get(w)
  {
    hide CanReport;
  }

  /** An answer that is not JSON is dropped. */
  lemma NoJsonNoEffect(s: State, e: Event)
    requires s.nextRequestId < UINT16 && CanHappen(s, e) && e.Data? && !e.json
    ensures Step(s, e) == s.(now := e.at)
  {}

  /** An answer nobody waits for changes nothing: its id is not pending, or, for provisioning, nothing is. */
  lemma StrangerIgnored(t: Tracker, connected: bool, id: nat, parsed: bool, unsubscribeOk: bool)
    requires t.matching == ById ==> forall r :: r in t.pending ==> r.id != id
    requires t.matching == Fifo ==> t.pending == []
    ensures Answer(t, connected, id, parsed, unsubscribeOk) == t
  {}

  /**
   * An answer to the first request with its id, or to the oldest one where answers carry none: this request leaves the
   * list, is answered, and is called back once, as a timeout only for provisioning data that cannot be parsed; the last
   * one unsubscribes the topic of a live connection.
   */
  lemma AnswerOutcome(t: Tracker, connected: bool, id: nat, parsed: bool, unsubscribeOk: bool, i: nat)
    requires i < |t.pending|
    requires if t.matching == Fifo then i == 0
             else t.pending[i].id == id && forall k :: 0 <= k < i ==> t.pending[k].id != id
    ensures var after, r := Answer(t, connected, id, parsed, unsubscribeOk), t.pending[i];
            && after.pending == t.pending[..i] + t.pending[i + 1..]
            && after.answered == t.answered + {r} && after.accepted == t.accepted && after.expired == t.expired
            && after.calls == t.calls + [Call(r, if t.matching == Fifo && !parsed then OnTimeout else OnResponse)]
            && (after.subscribed <==> t.subscribed && !(connected && |t.pending| == 1 && unsubscribeOk))
  {
    assert Match(t.pending, t.matching, id) == i;
  }

  /** In every reachable state an answer nobody waits for changes nothing. */
  lemma StrangersIgnored(now: nat, es: seq<Event>, e: Event)
    requires CanRun(Init(now), es) && CanHappen(Run(Init(now), es), e) && e.Data?
    requires var pending := Run(Init(now), es).Get(e.which).pending;
             if e.which == Provision then pending == [] else forall r :: r in pending ==> r.id != e.id
    ensures Step(Run(Init(now), es), e) == Run(Init(now), es).(now := e.at)
  {
    hide Run, CanRun, Inv, Answer, CanReport, Match, IdAt;
    RunInv(now, es);
    var s := Run(Init(now), es);
    StrangerIgnored(s.Get(e.which), s.connected, e.id, e.parsed, e.unsubscribeOk);
  }

  /** The handlers called when these requests are given up: in list order, up to the first that returns 2. */
  function Called(gone: seq<Request>): seq<Call> {
    WithHandler(gone[..Reach(gone)])
  }

  /**
   * A sweep gives up exactly the requests that are at least 30 s old, a beginning of the list, calls their handlers in
   * list order, and unsubscribes if that empties the list on a live connection.
   */
  ghost predicate IsSwept(t: Tracker, after: Tracker, at: nat, connected: bool, unsubscribeOk: bool) {
    && |after.pending| <= |t.pending|
    && var n := |t.pending| - |after.pending|;
       && (forall k :: 0 <= k < |t.pending| ==> (k < n <==> t.pending[k].sentAt + 30 <= at))
       && after.pending == t.pending[n..] && after.calls == t.calls + Called(t.pending[..n])
       && (forall r :: r in after.expired.Keys <==> r in t.expired.Keys || r in t.pending[..n])
       && (forall r :: r in t.pending[..n] ==> after.expired[r] == Expiry(at, connected))
       && (after.subscribed <==>
           t.subscribed && !(connected && t.pending != [] && after.pending == [] && unsubscribeOk))
       && after.accepted == t.accepted && after.answered == t.answered
  }

  /**
   * A timeout event in any reachable state: less than 32 s after the last sweep it only passes, otherwise every tracker
   * is swept.
   */
  lemma TimeoutOutcome(now: nat, es: seq<Event>, e: Event, w: Which)
    requires CanRun(Init(now), es) && CanHappen(Run(Init(now), es), e) && e.CheckTimeout?
    ensures var s := Run(Init(now), es);
            var after := Step(s, e);
            if e.at < s.lastCheck + 32 then after == s.(now := e.at, lastTick := e.at)
            else
              && after.lastCheck == after.lastTick == after.now == e.at && after.connected == s.connected
              && after.nextRequestId == s.nextRequestId && after.issued == s.issued
              && IsSwept(s.Get(w), after.Get(w), e.at, s.connected, e.unsubscribeOk)
  {
    hide Run, CanRun, StateInv, CanHappen, Step, Sweep, IsSwept;
    RunInv(now, es);
    var s := Run(Init(now), es);
    StepEffect(s, e);
    assert Step(s, e).Get(w) == Effect(s, e, w);
    SweptList(s, w, e.at, s.connected, e.unsubscribeOk);
  }

  lemma SweptList(s: State, w: Which, at: nat, connected: bool, unsubscribeOk: bool)
    requires StateInv(s)
    ensures IsSwept(s.Get(w), Sweep(s.Get(w), connected, at, unsubscribeOk), at, connected, unsubscribeOk)
  {
    hide Expired, Kept, TimeoutCalls, WithHandler, Reach, IdAt, Conserved, CalledOnce, Numbered, SentBy, Sorted;
    var t := s.Get(w);
    assert Inv(t, s.issued, s.now);
    ExpiredArePrefix(t.pending, at);
    TimeoutCallsStop(Expired(t.pending, at));
  }

  /** A new connection has no subscriptions; nothing else about the trackers changes. */
  lemma ConnectOutcome(s: State, e: Event, w: Which)
    requires s.nextRequestId < UINT16 && CanHappen(s, e) && e.Connected?
    ensures var after := Step(s, e);
            && after.connected && after.lastTick == after.now == e.at && after.lastCheck == s.lastCheck
            && after.nextRequestId == s.nextRequestId && after.issued == s.issued
            && after.Get(w) == s.Get(w).(subscribed := false)
  {}

  /** A disconnect gives up everything pending at once, with the handlers called in list order. */
  lemma DisconnectOutcome(s: State, e: Event, w: Which)
    requires StateInv(s) && s.nextRequestId < UINT16 && CanHappen(s, e) && e.Disconnected?
    ensures var after, t := Step(s, e), s.Get(w);
            var t' := after.Get(w);
            && !after.connected && after.lastCheck == s.lastCheck && after.lastTick == s.lastTick
            && after.nextRequestId == s.nextRequestId && after.issued == s.issued
            && t'.pending == [] && !t'.subscribed && t'.calls == t.calls + Called(t.pending)
            && (forall r :: r in t'.expired.Keys <==> r in t.expired.Keys || r in t.pending)
            && t'.accepted == t.accepted && t'.answered == t.answered
  {
    hide Expired, Kept, TimeoutCalls, WithHandler, Reach, IdAt, Conserved, CalledOnce, Numbered, Sorted, CanReport,
         Step;
    var t := s.Get(w);
    StepEffect(s, e);
    assert Step(s, e).Get(w) == Effect(s, e, w);
    assert Inv(t, s.issued, s.now);
    CutAt(t.pending, e.at + 32, |t.pending|);
    assert t.pending[..|t.pending|] == t.pending;
    TimeoutCallsStop(t.pending);
  }
}
