/** Laws of the client helper over every run of events. */
module ClientRuns {
  import opened Basics
  import opened RequestIds
  import opened Trackers
  import opened TrackerLaws
  import opened Client

  /** Every event of the run could happen where it did. */
  predicate CanRun(s: State, es: seq<Event>)
    requires s.nextRequestId < UINT16
    decreases |es|, 0
  {
    es == [] || (CanRun(s, es[..|es| - 1]) && CanHappen(Run(s, es[..|es| - 1]), es[|es| - 1]))
  }

  function Run(s: State, es: seq<Event>): (r: State)
    requires s.nextRequestId < UINT16 && CanRun(s, es)
    ensures r.nextRequestId < UINT16
    decreases |es|, 1
  {
    if es == [] then s else Step(Run(s, es[..|es| - 1]), es[|es| - 1])
  }

  predicate StateInv(s: State) {
    && s.nextRequestId == IdAt(s.issued)
    && s.attributes.matching == ById && s.clientRpc.matching == ById && s.provision.matching == Fifo
    && (forall w :: Inv(s.Get(w), s.issued, s.now))
    && (!s.connected ==> forall w :: s.Get(w).pending == [])
  }

  lemma InitInv(now: nat)
    ensures StateInv(Init(now))
  {
    forall w ensures Inv(Init(now).Get(w), 0, now) {
      assert PendingSet(Init(now).Get(w)) == {};
    }
  }

  /** What one event does to one tracker. */
  function Effect(s: State, e: Event, w: Which): Tracker
    requires s.nextRequestId < UINT16
  {
    var t := s.Get(w);
    match e
    case Send(at, which, subscribeOk, publishOk, hasResponse, onTimeout) =>
      if which != w || !s.connected then t
      else if !publishOk || !hasResponse then SubscribeIfEmpty(t, subscribeOk)
      else Append(SubscribeIfEmpty(t, subscribeOk), Request(s.issued + 1, Next(s.nextRequestId), at, onTimeout))
    case DrawId(_) => t
    case Data(_, which, json, id, parsed, unsubscribeOk) =>
      if which != w || !json then t else Answer(t, s.connected, id, parsed, unsubscribeOk)
    case CheckTimeout(at, unsubscribeOk) =>
      if Throttled(s, at) then t else Sweep(t, s.connected, at, unsubscribeOk)
    case Connected(_) => t.(subscribed := false)
    case Disconnected(at) => Disconnect(t, at)
  }

  predicate DrawsId(s: State, e: Event) {
    e.DrawId? || (e.Send? && s.connected)
  }

  lemma StepEffect(s: State, e: Event)
    requires s.nextRequestId < UINT16 && CanHappen(s, e)
    ensures var s' := Step(s, e);
            && s'.attributes == Effect(s, e, Attributes)
            && s'.clientRpc == Effect(s, e, ClientRpc)
            && s'.provision == Effect(s, e, Provision)
            && s'.now == e.at
            && s'.issued == s.issued + (if DrawsId(s, e) then 1 else 0)
            && s'.nextRequestId == (if DrawsId(s, e) then Next(s.nextRequestId) else s.nextRequestId)
            && s'.connected == (if e.Connected? then true else if e.Disconnected? then false else s.connected)
            && s'.lastTick == (if e.CheckTimeout? || e.Connected? then e.at else s.lastTick)
            && s'.lastCheck == (if e.CheckTimeout? && !Throttled(s, e.at) then e.at else s.lastCheck)
  {
    hide Next, Sweep, Answer, Disconnect, Append, SubscribeIfEmpty, CanReport;
  }

  lemma EffectMatching(s: State, e: Event, w: Which)
    requires s.nextRequestId < UINT16
    ensures Effect(s, e, w).matching == s.Get(w).matching
  {
    hide Next, Kept, Expired, Match, TimeoutCalls;
  }

  lemma EffectInv(s: State, e: Event, w: Which)
    requires StateInv(s) && s.nextRequestId < UINT16 && CanHappen(s, e)
    ensures Inv(Effect(s, e, w), s.issued + (if DrawsId(s, e) then 1 else 0), e.at)
    ensures e.Disconnected? || (!s.connected && !e.Connected?) ==> Effect(s, e, w).pending == []
  {
    hide Inv, IdAt, Next, Sweep, Answer, Disconnect, CanReport, Append;
    var t := s.Get(w);
    NextIdAt(s.issued);
    Weaken(t, s.issued, s.now, s.issued, e.at);
    Weaken(t, s.issued, s.now, s.issued + 1, e.at);
    SubscriptionIgnored(t, s.issued, e.at);
    SubscriptionIgnored(t, s.issued + 1, e.at);
    match e
    case Send(at, which, subscribeOk, publishOk, hasResponse, onTimeout) =>
      if w == which && s.connected {
        var t1 := SubscribeIfEmpty(t, subscribeOk);
        assert t1 == t.(subscribed := t1.subscribed);
        AppendKeeps(t1, s.issued, at, Request(s.issued + 1, Next(s.nextRequestId), at, onTimeout));
      }
    case DrawId(_) =>
    case Data(at, which, json, id, parsed, unsubscribeOk) =>
      AnswerKeeps(t, s.issued, at, s.connected, id, parsed, unsubscribeOk);
      AnswerFromEmpty(t, s.connected, id, parsed, unsubscribeOk);
    case CheckTimeout(at, unsubscribeOk) =>
      SweepKeeps(t, s.issued, at, s.connected, at, unsubscribeOk);
      SweepOfEmpty(t, s.connected, at, unsubscribeOk);
    case Connected(at) =>
    case Disconnected(at) =>
      DisconnectKeeps(t, s.issued, at);
  }

  lemma StepInv(s: State, e: Event)
    requires StateInv(s) && s.nextRequestId < UINT16 && CanHappen(s, e)
    ensures StateInv(Step(s, e))
  {
    hide Inv, IdAt, Next, Step, Effect, CanHappen;
    StepEffect(s, e);
    NextIdAt(s.issued);
    forall w ensures Step(s, e).Get(w) == Effect(s, e, w) {}
    forall w ensures Effect(s, e, w).matching == s.Get(w).matching { EffectMatching(s, e, w); }
    forall w ensures Inv(Effect(s, e, w), Step(s, e).issued, e.at)
      && (!Step(s, e).connected ==> Effect(s, e, w).pending == []) { EffectInv(s, e, w); }
  }

  lemma AnswerFromEmpty(t: Tracker, connected: bool, id: nat, parsed: bool, unsubscribeOk: bool)
    ensures t.pending == [] ==> Answer(t, connected, id, parsed, unsubscribeOk).pending == []
  {}

  lemma SweepOfEmpty(t: Tracker, connected: bool, stamp: nat, unsubscribeOk: bool)
    ensures t.pending == [] ==> Sweep(t, connected, stamp, unsubscribeOk).pending == []
  {}

  lemma {:induction false} RunInv(now: nat, es: seq<Event>)
    requires CanRun(Init(now), es)
    ensures StateInv(Run(Init(now), es))
  {
    hide StateInv, Step, CanHappen;
    if es == [] {
      InitInv(now);
    } else {
      RunInv(now, es[..|es| - 1]);
      StepInv(Run(Init(now), es[..|es| - 1]), es[|es| - 1]);
    }
  }

  // ---- Every request is finished once ----------------------------------------------------------------

  predicate CalledExactlyOnce(t: Tracker, r: Request) {
    exists k :: 0 <= k < |t.calls| && t.calls[k].request == r
                && forall j :: 0 <= j < |t.calls| && j != k ==> t.calls[j].request != r
  }

  /**
   * After a handled disconnect nothing is pending: every request ever accepted was answered or given up, and,
   * unless some handler returned 2, each one that has a handler got exactly one call. Handling the disconnect
   * again changes nothing.
   */
  lemma AfterDisconnect(now: nat, es: seq<Event>, at: nat, again: nat, w: Which)
    requires CanRun(Init(now), es) && CanHappen(Run(Init(now), es), Disconnected(at)) && at <= again
    ensures var s := Step(Run(Init(now), es), Disconnected(at));
            && s.Get(w).pending == []
            && s.Get(w).accepted == s.Get(w).answered + s.Get(w).expired.Keys
            && s.Get(w).answered !! s.Get(w).expired.Keys
            && ((forall r :: r in s.Get(w).expired.Keys ==> r.onTimeout != Returns(2)) ==>
                  forall r :: r in s.Get(w).answered || (r in s.Get(w).expired.Keys && r.onTimeout.Returns?) ==>
                    CalledExactlyOnce(s.Get(w), r))
            && CanHappen(s, Disconnected(again))
            && Step(s, Disconnected(again)) == s.(now := again)
  {
    hide Step, Run, CanRun;
    RunInv(now, es);
    DisconnectSettles(Run(Init(now), es), at, w);
    DisconnectTwice(Run(Init(now), es), at, again);
  }

  lemma DisconnectSettles(before: State, at: nat, w: Which)
    requires StateInv(before) && before.nextRequestId < UINT16 && CanHappen(before, Disconnected(at))
    ensures var t := Step(before, Disconnected(at)).Get(w);
            && t.pending == []
            && t.accepted == t.answered + t.expired.Keys
            && t.answered !! t.expired.Keys
            && ((forall r :: r in t.expired.Keys ==> r.onTimeout != Returns(2)) ==>
                  forall r :: r in t.answered || (r in t.expired.Keys && r.onTimeout.Returns?) ==>
                    CalledExactlyOnce(t, r))
  {
    hide Step, Disconnect, CalledOnce, CalledExactlyOnce, Numbered, Sorted, SentBy;
    StepEffect(before, Disconnected(at));
    assert Inv(before.Get(w), before.issued, before.now);
    Weaken(before.Get(w), before.issued, before.now, before.issued, at);
    DisconnectKeeps(before.Get(w), before.issued, at);
    var t := Disconnect(before.Get(w), at);
    assert Step(before, Disconnected(at)).Get(w) == t;
    assert PendingSet(t) == {};
    CallsAfterwards(t);
  }

  lemma DisconnectTwice(before: State, at: nat, again: nat)
    requires StateInv(before) && before.nextRequestId < UINT16 && CanHappen(before, Disconnected(at)) && at <= again
    ensures var s := Step(before, Disconnected(at));
            CanHappen(s, Disconnected(again)) && Step(s, Disconnected(again)) == s.(now := again)
  {
    hide Step, Disconnect, Inv;
    var s := Step(before, Disconnected(at));
    StepEffect(before, Disconnected(at));
    StepEffect(s, Disconnected(again));
    forall v ensures Disconnect(s.Get(v), again) == s.Get(v) {
      var t := before.Get(v);
      assert Inv(t, before.issued, before.now);
      Weaken(t, before.issued, before.now, before.issued, at);
      DisconnectKeeps(t, before.issued, at);
      DisconnectUnsubscribes(t, at);
      DisconnectAgain(s.Get(v), again);
    }
    assert Disconnect(s.Get(Attributes), again) == s.attributes;
    assert Disconnect(s.Get(ClientRpc), again) == s.clientRpc;
    assert Disconnect(s.Get(Provision), again) == s.provision;
  }

  lemma CallsAfterwards(t: Tracker)
    requires CalledOnce(t)
    ensures (forall r :: r in t.expired.Keys ==> r.onTimeout != Returns(2)) ==>
              forall r :: r in t.answered || (r in t.expired.Keys && r.onTimeout.Returns?) ==> CalledExactlyOnce(t, r)
  {
    if forall r :: r in t.expired.Keys ==> r.onTimeout != Returns(2) {
      forall r | r in t.answered || (r in t.expired.Keys && r.onTimeout.Returns?) ensures CalledExactlyOnce(t, r) {
        CalleeCalledOnce(t, r);
      }
    }
  }

  lemma DisconnectUnsubscribes(t: Tracker, now: nat)
    ensures !Disconnect(t, now).subscribed
  {}

  lemma CalleeCalledOnce(t: Tracker, r: Request)
    requires CalledOnce(t) && r in Callees(t.calls)
    ensures CalledExactlyOnce(t, r)
  {
    var k :| 0 <= k < |t.calls| && t.calls[k].request == r;
    assert forall j :: 0 <= j < |t.calls| && j != k ==> t.calls[j].request != r;
  }

  // ---- An answer reaches the request that asked ------------------------------------------------------

  /**
   * As long as no request pending longer was sent a multiple of 65535 draws earlier, an answer carrying the id of a
   * pending request finishes exactly that request; a provisioning answer finishes the oldest one.
   */
  lemma AnswersFindTheirRequests(now: nat, es: seq<Event>, e: Event, i: nat)
    requires CanRun(Init(now), es) && CanHappen(Run(Init(now), es), e) && e.Data? && e.json
    requires var pending := Run(Init(now), es).Get(e.which).pending;
             && i < |pending|
             && (if e.which == Provision then i == 0
                 else Unambiguous(pending, i) && e.id == pending[i].id)
    ensures var s := Run(Init(now), es);
            var t := s.Get(e.which);
            var after := Step(s, e);
            && after.Get(e.which).pending == t.pending[..i] + t.pending[i + 1..]
            && after.Get(e.which).answered == t.answered + {t.pending[i]}
            && after.Get(e.which).calls ==
                 t.calls + [Call(t.pending[i], if e.which == Provision && !e.parsed then OnTimeout else OnResponse)]
            && forall v :: v != e.which ==> after.Get(v) == s.Get(v)
  {
    hide Run, CanRun, StateInv, CanHappen, Step;
    RunInv(now, es);
    AnswerDelivered(Run(Init(now), es), e, i);
  }

  lemma AnswerDelivered(s: State, e: Event, i: nat)
    requires StateInv(s) && s.nextRequestId < UINT16 && CanHappen(s, e) && e.Data? && e.json
    requires var pending := s.Get(e.which).pending;
             && i < |pending|
             && (if e.which == Provision then i == 0
                 else Unambiguous(pending, i) && e.id == pending[i].id)
    ensures var t := s.Get(e.which);
            var after := Step(s, e);
            && after.Get(e.which).pending == t.pending[..i] + t.pending[i + 1..]
            && after.Get(e.which).answered == t.answered + {t.pending[i]}
            && after.Get(e.which).calls ==
                 t.calls + [Call(t.pending[i], if e.which == Provision && !e.parsed then OnTimeout else OnResponse)]
            && forall v :: v != e.which ==> after.Get(v) == s.Get(v)
  {
    hide CanReport, Step, Inv, IdAt;
    StepEffect(s, e);
    var t := s.Get(e.which);
    assert Inv(t, s.issued, s.now);
    assert forall v :: v != e.which ==> Effect(s, e, v) == s.Get(v);
    if e.which != Provision { AnswerFindsItsRequest(t, s.issued, s.now, i); }
  }

  // ---- The response subscription ---------------------------------------------------------------------

  predicate SafeState(s: State) {
    s.connected ==> forall w :: Safe(s.Get(w))
  }

  /** A request is put on the list although the broker holds no subscription for its answer. */
  predicate SendsUnheard(s: State, e: Event) {
    && e.Send? && s.connected && e.publishOk && e.hasResponse
    && s.Get(e.which).pending == [] && !s.Get(e.which).subscribed && !e.subscribeOk
  }

  /**
   * While requests are pending on a connection the broker holds the response subscription; the one and only way to
   * lose this is a first request sent although its subscribe call failed, whose result the code does not look at.
   */
  lemma StepSafe(s: State, e: Event)
    requires StateInv(s) && s.nextRequestId < UINT16 && CanHappen(s, e) && SafeState(s)
    ensures SafeState(Step(s, e)) <==> !SendsUnheard(s, e)
  {
    hide Inv, Next, Sweep, Answer, Disconnect, IdAt, Step, CanReport;
    StepEffect(s, e);
    var s' := Step(s, e);
    forall w ensures s'.Get(w) == Effect(s, e, w) {}
    forall w | s'.connected && !(e.Send? && e.which == w) ensures Safe(s'.Get(w)) {
      var t := s.Get(w);
      match e
      case Data(at, which, json, id, parsed, unsubscribeOk) =>
        AnswerKeeps(t, s.issued, s.now, s.connected, id, parsed, unsubscribeOk);
        AnswerFromEmpty(t, s.connected, id, parsed, unsubscribeOk);
      case CheckTimeout(at, unsubscribeOk) =>
        SweepKeeps(t, s.issued, s.now, s.connected, at, unsubscribeOk);
      case _ =>
    }
    if SendsUnheard(s, e) { assert !Safe(s'.Get(e.which)); }
  }

  /** The subscription is held when it is needed, all through the run. */
  predicate AlwaysSafe(s: State, es: seq<Event>)
    requires s.nextRequestId < UINT16 && CanRun(s, es)
  {
    SafeState(Run(s, es)) && (es == [] || AlwaysSafe(s, es[..|es| - 1]))
  }

  /** No event of the run sends an unheard request where it occurs. */
  predicate AlwaysHeard(s: State, es: seq<Event>)
    requires s.nextRequestId < UINT16 && CanRun(s, es)
  {
    es == [] || (AlwaysHeard(s, es[..|es| - 1]) && !SendsUnheard(Run(s, es[..|es| - 1]), es[|es| - 1]))
  }

  /** All through a run the subscription is held when it is needed if and only if no request is sent unheard. */
  lemma {:induction false} RunSafeExactly(now: nat, es: seq<Event>)
    requires CanRun(Init(now), es)
    ensures AlwaysSafe(Init(now), es) <==> AlwaysHeard(Init(now), es)
  {
    hide StateInv, CanHappen, Step, SafeState, SendsUnheard;
    if es != [] {
      var init := es[..|es| - 1];
      RunSafeExactly(now, init);
      RunInv(now, init);
      if SafeState(Run(Init(now), init)) { StepSafe(Run(Init(now), init), es[|es| - 1]); }
      AlwaysSafeNow(now, init);
    } else {
      StartSafe(now);
    }
  }

  lemma AlwaysSafeNow(now: nat, es: seq<Event>)
    requires CanRun(Init(now), es)
    ensures AlwaysSafe(Init(now), es) ==> SafeState(Run(Init(now), es))
  {}

  lemma StartSafe(now: nat)
    ensures SafeState(Init(now)) && FollowsState(Init(now))
  {
    assert !Init(now).connected;
  }

  /** The broker holds the response subscription exactly while requests are pending. */
  predicate Follows(t: Tracker) {
    t.subscribed <==> t.pending != []
  }

  predicate FollowsState(s: State) {
    s.connected ==> forall w :: Follows(s.Get(w))
  }

  /**
   * The subscription falls out of step with the list: a first request for which subscribing and sending end
   * differently, or a list that becomes empty while unsubscribing fails.
   */
  predicate FallsOutOfStep(s: State, e: Event) {
    s.connected &&
    match e
    case Send(_, which, subscribeOk, publishOk, hasResponse, _) =>
      s.Get(which).pending == [] && subscribeOk != (publishOk && hasResponse)
    case Data(_, which, json, id, _, unsubscribeOk) =>
      var t := s.Get(which);
      json && |t.pending| == 1 && Match(t.pending, t.matching, id) == 0 && !unsubscribeOk
    case CheckTimeout(at, unsubscribeOk) =>
      !Throttled(s, at) && !unsubscribeOk && exists w :: s.Get(w).pending != [] && Kept(s.Get(w).pending, at) == []
    case _ => false
  }

  lemma EffectFollows(s: State, e: Event, w: Which)
    requires StateInv(s) && s.nextRequestId < UINT16 && CanHappen(s, e) && FollowsState(s) && Step(s, e).connected
    requires !FallsOutOfStep(s, e)
    ensures Follows(Effect(s, e, w))
  {
    hide Inv, Next, IdAt, Step, CanReport, Expired, TimeoutCalls, Kept, Match;
    StepEffect(s, e);
    if s.connected { assert Follows(s.Get(w)); }
    if e.CheckTimeout? { SweepOfEmpty(s.Get(w), s.connected, e.at, e.unsubscribeOk); }
  }

  /** The subscription follows the list through every step but the ones that fall out of step, and those break it. */
  lemma StepFollows(s: State, e: Event)
    requires StateInv(s) && s.nextRequestId < UINT16 && CanHappen(s, e) && FollowsState(s)
    ensures FollowsState(Step(s, e)) <==> !FallsOutOfStep(s, e)
  {
    hide StateInv, Next, IdAt, Step, CanHappen, Expired, TimeoutCalls, Kept, Match;
    StepEffect(s, e);
    var s' := Step(s, e);
    forall w ensures s'.Get(w) == Effect(s, e, w) {}
    if !FallsOutOfStep(s, e) {
      forall w | s'.connected ensures Follows(s'.Get(w)) { EffectFollows(s, e, w); }
    } else {
      var w: Which :| s.connected && !Follows(Effect(s, e, w));
      assert !Follows(s'.Get(w));
    }
  }

  predicate AlwaysFollows(s: State, es: seq<Event>)
    requires s.nextRequestId < UINT16 && CanRun(s, es)
  {
    FollowsState(Run(s, es)) && (es == [] || AlwaysFollows(s, es[..|es| - 1]))
  }

  predicate AlwaysInStep(s: State, es: seq<Event>)
    requires s.nextRequestId < UINT16 && CanRun(s, es)
  {
    es == [] || (AlwaysInStep(s, es[..|es| - 1]) && !FallsOutOfStep(Run(s, es[..|es| - 1]), es[|es| - 1]))
  }

  /** All through a run the subscription follows the lists if and only if no event makes it fall out of step. */
  lemma {:induction false} RunFollowsExactly(now: nat, es: seq<Event>)
    requires CanRun(Init(now), es)
    ensures AlwaysFollows(Init(now), es) <==> AlwaysInStep(Init(now), es)
  {
    hide StateInv, CanHappen, Step, FollowsState, FallsOutOfStep;
    if es != [] {
      var init := es[..|es| - 1];
      RunFollowsExactly(now, init);
      RunInv(now, init);
      if FollowsState(Run(Init(now), init)) { StepFollows(Run(Init(now), init), es[|es| - 1]); }
      AlwaysFollowsNow(now, init);
    } else {
      StartSafe(now);
    }
  }

  lemma AlwaysFollowsNow(now: nat, es: seq<Event>)
    requires CanRun(Init(now), es)
    ensures AlwaysFollows(Init(now), es) ==> FollowsState(Run(Init(now), es))
  {}

  lemma ConnectedAtZero()
    ensures CanRun(Init(0), [Connected(0)])
    ensures Run(Init(0), [Connected(0)]) == Init(0).(connected := true)
  {
    hide Step;
    RunOneMore(Init(0), [], Connected(0));
    assert [] + [Connected(0)] == [Connected(0)];
    StepEffect(Init(0), Connected(0));
  }

  /** A first request that is subscribed for but not sent leaves a subscription that nobody needs. */
  lemma FailedSendStaysSubscribed()
    ensures exists es :: CanRun(Init(0), es) && !FollowsState(Run(Init(0), es))
  {
    hide Step;
    ConnectedAtZero();
    var send := Send(0, Attributes, true, false, true, NoHandler);
    var s1 := Run(Init(0), [Connected(0)]);
    RunOneMore(Init(0), [Connected(0)], send);
    StepEffect(s1, send);
    assert !Follows(Run(Init(0), [Connected(0)] + [send]).Get(Attributes));
  }

  /** A request that waits for its answer, subscribed. */
  lemma OneSent() returns (es: seq<Event>, s: State)
    ensures CanRun(Init(0), es) && s == Run(Init(0), es) && StateInv(s) && s.connected && s.now == 0
    ensures |s.clientRpc.pending| == 1 && s.clientRpc.subscribed
  {
    hide Step, CanHappen, Next, StateInv;
    ConnectedAtZero();
    var send := Send(0, ClientRpc, true, true, true, NoHandler);
    var s1 := Run(Init(0), [Connected(0)]);
    SendCanHappen(s1, send);
    RunOneMore(Init(0), [Connected(0)], send);
    StepEffect(s1, send);
    es, s := [Connected(0)] + [send], Step(s1, send);
    RunInv(0, es);
  }

  /** A last answer whose unsubscribe call fails leaves a subscription that nobody needs. */
  lemma FailedUnsubscribeStaysSubscribed()
    ensures exists es: seq<Event> ::
              CanRun(Init(0), es) && es != [] && es[|es| - 1].Data? && !FollowsState(Run(Init(0), es))
  {
    hide Step, CanHappen, Run, CanRun, Answer, StateInv;
    var es, s := OneSent();
    var answer := Data(0, ClientRpc, true, s.clientRpc.pending[0].id, true, false);
    AnswerCanHappen(s, answer);
    RunOneMore(Init(0), es, answer);
    StepEffect(s, answer);
    AnsweredOnly(s.clientRpc, answer.id);
    assert !Follows(Run(Init(0), es + [answer]).Get(ClientRpc));
  }

  lemma AnsweredOnly(t: Tracker, id: nat)
    requires |t.pending| == 1 && t.subscribed && t.pending[0].id == id
    ensures Answer(t, true, id, true, false).pending == [] && Answer(t, true, id, true, false).subscribed
  {}

  lemma SendCanHappen(s: State, e: Event)
    requires s.now <= e.at && e.Send?
    ensures CanHappen(s, e)
  {}

  /** Only a provisioning answer can lack a handler. */
  lemma AnswerCanHappen(s: State, e: Event)
    requires StateInv(s) && s.now <= e.at && e.Data? && e.which != Provision
    ensures CanHappen(s, e)
  {
    hide Inv;
  }

  /** Without looking at the result of subscribe, a request can wait for an answer that will never arrive. */
  lemma FailedSubscribeIsUnheard()
    ensures exists es :: CanRun(Init(0), es) && !SafeState(Run(Init(0), es))
  {
    hide Step;
    ConnectedAtZero();
    var send := Send(0, Attributes, false, true, true, NoHandler);
    var s1 := Run(Init(0), [Connected(0)]);
    RunOneMore(Init(0), [Connected(0)], send);
    StepEffect(s1, send);
    assert !Safe(Run(Init(0), [Connected(0)] + [send]).Get(Attributes));
  }

  // ---- Answers without a handler ---------------------------------------------------------------------

  /** Some answer would end the program if and only if the oldest provisioning request has no timeout handler. */
  lemma NullCallExactly(s: State)
    requires StateInv(s)
    ensures (exists e :: CallsNull(s, e)) <==>
            s.provision.pending != [] && s.provision.pending[0].onTimeout == NoHandler
  {
    hide Inv, IdAt;
    if s.provision.pending != [] && s.provision.pending[0].onTimeout == NoHandler {
      assert CallsNull(s, Data(0, Provision, true, 0, false, true));
    }
  }

  /** An event brings in no request but the one it sends. */
  lemma EffectPending(s: State, e: Event, w: Which)
    requires s.nextRequestId < UINT16
    ensures forall r :: r in Effect(s, e, w).pending ==>
              r in s.Get(w).pending || (e.Send? && e.which == w && r.onTimeout == e.onTimeout)
  {
    hide Next, TimeoutCalls, Expired, Match, Kept;
    if e.CheckTimeout? { KeptFrom(s.Get(w).pending, e.at); }
  }

  lemma {:induction false} KeptFrom(rs: seq<Request>, stamp: nat)
    ensures forall r :: r in Kept(rs, stamp) ==> r in rs
  {
    hide IsExpired;
    if rs != [] { KeptFrom(rs[..|rs| - 1], stamp); }
  }

  predicate AllHandled(rs: seq<Request>) {
    forall r :: r in rs ==> r.onTimeout.Returns?
  }

  lemma {:induction false} RunHandled(now: nat, es: seq<Event>)
    requires CanRun(Init(now), es)
    requires forall i :: 0 <= i < |es| && es[i].Send? && es[i].which == Provision ==> es[i].onTimeout.Returns?
    ensures AllHandled(Run(Init(now), es).provision.pending)
  {
    hide Step, CanHappen, Effect;
    if es != [] {
      var init := es[..|es| - 1];
      RunHandled(now, init);
      StepEffect(Run(Init(now), init), es[|es| - 1]);
      EffectPending(Run(Init(now), init), es[|es| - 1], Provision);
    }
  }

  /** Where every provisioning request brings a timeout handler, no answer ever ends the program. */
  lemma NeverCallsNull(now: nat, es: seq<Event>, e: Event)
    requires CanRun(Init(now), es)
    requires forall i :: 0 <= i < |es| && es[i].Send? && es[i].which == Provision ==> es[i].onTimeout.Returns?
    ensures !CallsNull(Run(Init(now), es), e)
  {
    hide Run, CanRun, CanHappen;
    RunInv(now, es);
    RunHandled(now, es);
    NullCallExactly(Run(Init(now), es));
  }

  /** A provisioning request without a timeout handler, answered by an object that cannot be parsed. */
  lemma UnparsedAnswerCallsNull()
    ensures exists es, e :: CanRun(Init(0), es) && CallsNull(Run(Init(0), es), e)
  {
    hide Step;
    ConnectedAtZero();
    var send := Send(0, Provision, true, true, true, NoHandler);
    var s1 := Run(Init(0), [Connected(0)]);
    RunOneMore(Init(0), [Connected(0)], send);
    StepEffect(s1, send);
    assert CallsNull(Run(Init(0), [Connected(0)] + [send]), Data(0, Provision, true, 0, false, true));
  }

  lemma RunOneMore(s: State, es: seq<Event>, e: Event)
    requires s.nextRequestId < UINT16 && CanRun(s, es) && CanHappen(Run(s, es), e)
    ensures CanRun(s, es + [e]) && Run(s, es + [e]) == Step(Run(s, es), e)
  {
    hide Step, CanHappen;
    assert (es + [e])[..|es|] == es;
  }

  // ---- Deadlines -------------------------------------------------------------------------------------

  /** Timeout events are processed with gaps of at most p seconds while the connection is up. */
  predicate Timely(s: State, e: Event, p: nat) {
    s.connected ==> e.at <= s.lastTick + p
  }

  predicate TimelyRun(s: State, es: seq<Event>, p: nat)
    requires s.nextRequestId < UINT16 && CanRun(s, es)
    decreases |es|
  {
    es == [] || (TimelyRun(s, es[..|es| - 1], p) && Timely(Run(s, es[..|es| - 1]), es[|es| - 1], p))
  }

  /** The bounds on what is pending and on what was given up, for one tracker. */
  predicate Punctual(t: Tracker, lastCheck: nat, lastTick: nat, p: nat) {
    && (forall r :: r in t.pending ==>
          && lastCheck < r.sentAt + TIMEOUT
          && (lastTick < lastCheck + TIMEOUT + 2 || lastTick <= r.sentAt))
    && InTime(t, p)
  }

  predicate InTime(t: Tracker, p: nat) {
    forall r :: r in t.expired.Keys && t.expired[r].live ==>
      r.sentAt + TIMEOUT <= t.expired[r].stamp <= r.sentAt + 2 * TIMEOUT + p
  }

  predicate PunctualState(s: State, p: nat) {
    && s.lastCheck <= s.now && s.lastTick <= s.now
    && (s.connected ==> s.now <= s.lastTick + p)
    && forall w :: Punctual(s.Get(w), s.lastCheck, s.lastTick, p)
  }

  lemma SweepPunctual(t: Tracker, lastCheck: nat, lastTick: nat, connected: bool, at: nat, unsubscribeOk: bool, p: nat)
    requires Punctual(t, lastCheck, lastTick, p) && Sorted(t.pending)
    requires t.pending != [] ==> at <= lastTick + p
    ensures Punctual(Sweep(t, connected, at, unsubscribeOk), at, at, p)
  {
    hide Expired, Kept, TimeoutCalls, InTime, Sorted;
    SweptAreLate(t.pending, at);
    SweepInTime(t, lastCheck, lastTick, connected, at, unsubscribeOk, p);
  }

  lemma SweptAreLate(rs: seq<Request>, at: nat)
    requires Sorted(rs)
    ensures forall r :: r in Expired(rs, at) ==> r in rs && IsExpired(r, at)
    ensures forall r :: r in Kept(rs, at) ==> r in rs && !IsExpired(r, at)
  {
    hide Expired, Kept;
    ExpiredArePrefix(rs, at);
    var gone, kept := Expired(rs, at), Kept(rs, at);
    forall r | r in kept ensures r in rs && !IsExpired(r, at) {
      var k :| 0 <= k < |kept| && kept[k] == r;
      assert rs[|gone| + k] == r;
    }
    forall r | r in gone ensures r in rs && IsExpired(r, at) {
      var k :| 0 <= k < |gone| && gone[k] == r;
      assert rs[k] == r;
    }
  }

  lemma SweepInTime(t: Tracker, lastCheck: nat, lastTick: nat, connected: bool, at: nat, unsubscribeOk: bool, p: nat)
    requires Punctual(t, lastCheck, lastTick, p) && Sorted(t.pending)
    requires t.pending != [] ==> at <= lastTick + p
    ensures InTime(Sweep(t, connected, at, unsubscribeOk), p)
  {
    hide Expired, Kept, TimeoutCalls, Sorted;
    SweptAreLate(t.pending, at);
  }

  lemma DisconnectPunctual(t: Tracker, at: nat, p: nat)
    requires InTime(t, p)
    ensures InTime(Disconnect(t, at), p) && Disconnect(t, at).pending == []
  {
    hide Expired, Kept, TimeoutCalls;
  }

  lemma AppendPunctual(t: Tracker, r: Request, lastCheck: nat, lastTick: nat, p: nat)
    requires Punctual(t, lastCheck, lastTick, p) && lastCheck <= r.sentAt && lastTick <= r.sentAt
    ensures Punctual(Append(t, r), lastCheck, lastTick, p)
  {}

  lemma AnswerPending(t: Tracker, connected: bool, id: nat, parsed: bool, unsubscribeOk: bool)
    ensures forall r :: r in Answer(t, connected, id, parsed, unsubscribeOk).pending ==> r in t.pending
    ensures Answer(t, connected, id, parsed, unsubscribeOk).expired == t.expired
  {}

  lemma StepPunctual(s: State, e: Event, p: nat)
    requires StateInv(s) && s.nextRequestId < UINT16 && CanHappen(s, e) && PunctualState(s, p) && Timely(s, e, p)
    ensures PunctualState(Step(s, e), p)
  {
    hide Step, Effect, Punctual, CanHappen, IdAt;
    StepEffect(s, e);
    forall w ensures Step(s, e).Get(w) == Effect(s, e, w) {}
    forall w ensures Punctual(Effect(s, e, w), Step(s, e).lastCheck, Step(s, e).lastTick, p) {
      EffectPunctual(s, e, w, p);
    }
    assert s.now <= e.at by { assert CanHappen(s, e); CanHappenClock(s, e); }
  }

  lemma CanHappenClock(s: State, e: Event)
    requires CanHappen(s, e)
    ensures s.now <= e.at
  {}

  lemma EffectPunctual(s: State, e: Event, w: Which, p: nat)
    requires StateInv(s) && s.nextRequestId < UINT16 && CanHappen(s, e) && PunctualState(s, p) && Timely(s, e, p)
    ensures Punctual(Effect(s, e, w), Step(s, e).lastCheck, Step(s, e).lastTick, p)
  {
    hide Next, Sweep, Answer, Append, Disconnect, IdAt, CalledOnce, Conserved, Numbered, Step, CanReport, InTime;
    StepEffect(s, e);
    var t := s.Get(w);
    assert Inv(t, s.issued, s.now) && Punctual(t, s.lastCheck, s.lastTick, p);
    match e
    case Send(at, which, subscribeOk, publishOk, hasResponse, onTimeout) =>
      var t1 := SubscribeIfEmpty(t, subscribeOk);
      SubscribePunctual(t, subscribeOk, s.lastCheck, s.lastTick, p);
      AppendPunctual(t1, Request(s.issued + 1, Next(s.nextRequestId), at, onTimeout), s.lastCheck, s.lastTick, p);
    case Data(at, which, json, id, parsed, unsubscribeOk) =>
      AnswerPunctual(t, s.connected, id, parsed, unsubscribeOk, s.lastCheck, s.lastTick, p);
    case CheckTimeout(at, unsubscribeOk) =>
      if !Throttled(s, at) { SweepPunctual(t, s.lastCheck, s.lastTick, s.connected, at, unsubscribeOk, p); }
    case Connected(at) =>
      assert t.pending == [];
      SubscriptionUnpunctual(t, p);
    case Disconnected(at) =>
      DisconnectPunctual(t, at, p);
    case DrawId(_) =>
  }

  lemma SubscriptionUnpunctual(t: Tracker, p: nat)
    requires InTime(t, p)
    ensures InTime(t.(subscribed := false), p)
  {}

  lemma SubscribePunctual(t: Tracker, ok: bool, lastCheck: nat, lastTick: nat, p: nat)
    requires Punctual(t, lastCheck, lastTick, p)
    ensures Punctual(SubscribeIfEmpty(t, ok), lastCheck, lastTick, p)
  {}

  lemma AnswerPunctual(t: Tracker, connected: bool, id: nat, parsed: bool, unsubscribeOk: bool,
                       lastCheck: nat, lastTick: nat, p: nat)
    requires Punctual(t, lastCheck, lastTick, p)
    ensures Punctual(Answer(t, connected, id, parsed, unsubscribeOk), lastCheck, lastTick, p)
  {
    hide Answer;
    AnswerPending(t, connected, id, parsed, unsubscribeOk);
  }

  lemma {:induction false} RunPunctual(now: nat, es: seq<Event>, p: nat)
    requires CanRun(Init(now), es) && TimelyRun(Init(now), es, p)
    ensures PunctualState(Run(Init(now), es), p)
  {
    hide StateInv, CanHappen, Step, Timely;
    if es != [] {
      var init := es[..|es| - 1];
      RunPunctual(now, init, p);
      RunInv(now, init);
      StepPunctual(Run(Init(now), init), es[|es| - 1], p);
    }
  }

  /**
   * With timeout events at most p seconds apart, a request on a live connection is given up at the earliest 30 s and
   * at the latest 60 + p s after it was sent, and none stays pending longer, although sweeps are 32 s apart.
   */
  lemma Deadlines(now: nat, es: seq<Event>, p: nat, w: Which)
    requires CanRun(Init(now), es) && TimelyRun(Init(now), es, p)
    ensures var s := Run(Init(now), es);
            && (forall r :: r in s.Get(w).pending && s.connected ==> s.now <= r.sentAt + 60 + p)
            && (forall r :: r in s.Get(w).expired.Keys && s.Get(w).expired[r].live ==>
                  r.sentAt + 30 <= s.Get(w).expired[r].stamp <= r.sentAt + 60 + p)
  {
    RunPunctual(now, es, p);
    var s := Run(Init(now), es);
    assert Punctual(s.Get(w), s.lastCheck, s.lastTick, p);
  }

  lemma SweepSpares(t: Tracker, connected: bool, stamp: nat, unsubscribeOk: bool)
    requires |t.pending| == 1 && !IsExpired(t.pending[0], stamp)
    ensures Sweep(t, connected, stamp, unsubscribeOk) == t
  {
    CutAt(t.pending, stamp, 0);
    assert t.calls + TimeoutCalls([]) == t.calls;
    assert t.expired + Expiries([], Expiry(stamp, connected)) == t.expired;
  }

  lemma SweepTakes(t: Tracker, stamp: nat)
    requires |t.pending| == 1 && IsExpired(t.pending[0], stamp)
    ensures var after := Sweep(t, true, stamp, true);
            t.pending[0] in after.expired.Keys && after.expired[t.pending[0]] == Expiry(stamp, true)
  {
    CutAt(t.pending, stamp, 1);
    assert Expired(t.pending, stamp) == t.pending;
  }

  /** At the end of the run the connection is up and r is the one attributes request that waits. */
  predicate Holds(es: seq<Event>, p: nat, r: Request, lastCheck: nat, lastTick: nat) {
    && CanRun(Init(0), es) && TimelyRun(Init(0), es, p)
    && var s := Run(Init(0), es);
       && s.connected && s.attributes.pending == [r]
       && s.lastCheck == lastCheck && s.lastTick == lastTick && s.now <= lastTick
  }

  lemma TickHolds(es: seq<Event>, p: nat, r: Request, lastCheck: nat, lastTick: nat, at: nat)
    requires Holds(es, p, r, lastCheck, lastTick) && lastTick <= at <= lastTick + p
    requires at < lastCheck + TIMEOUT + 2 || !IsExpired(r, at)
    ensures var check := if at < lastCheck + TIMEOUT + 2 then lastCheck else at;
            Holds(es + [CheckTimeout(at, true)], p, r, check, at)
  {
    hide Step, Sweep, Run, CanRun, TimelyRun;
    var e := CheckTimeout(at, true);
    var s := Run(Init(0), es);
    var after, more := TimelyStep(Init(0), es, e, p);
    if !Throttled(s, at) { SweepSpares(s.attributes, true, at, true); }
  }

  /** Ticks a second apart up to a moment at which the next sweep is not yet due. */
  lemma {:induction false} WaitHolds(es: seq<Event>, p: nat, r: Request, lastCheck: nat, lastTick: nat, wait: nat)
    returns (more: seq<Event>)
    requires p >= 1 && Holds(es, p, r, lastCheck, lastTick) && lastTick + wait < lastCheck + TIMEOUT + 2
    ensures Holds(more, p, r, lastCheck, lastTick + wait)
    decreases wait
  {
    hide Holds;
    if wait == 0 { return es; }
    TickHolds(es, p, r, lastCheck, lastTick, lastTick + 1);
    more := WaitHolds(es + [CheckTimeout(lastTick + 1, true)], p, r, lastCheck, lastTick + 1, wait - 1);
  }

  lemma EmptyRun(s: State, p: nat)
    requires s.nextRequestId < UINT16
    ensures CanRun(s, []) && TimelyRun(s, [], p) && Run(s, []) == s
  {}

  lemma FirstRequest(p: nat, r: Request)
    requires r == Request(1, Next(0), 3, NoHandler)
    ensures Holds([Connected(3), Send(3, Attributes, true, true, true, NoHandler)], p, r, 0, 3)
  {
    hide Step, Next, Run, CanRun, TimelyRun, Sweep, Answer, Disconnect;
    EmptyRun(Init(0), p);
    var send := Send(3, Attributes, true, true, true, NoHandler);
    var s1, es1 := TimelyStep(Init(0), [], Connected(3), p);
    assert s1.attributes == Init(0).attributes;
    var s2, es2 := TimelyStep(Init(0), es1, send, p);
    assert Effect(s1, send, Attributes) == Append(SubscribeIfEmpty(s1.attributes, true), r);
    assert es2 == [Connected(3), send];
  }

  lemma LastTick(es: seq<Event>, p: nat, r: Request, lastCheck: nat, lastTick: nat)
    requires Holds(es, p, r, lastCheck, lastTick)
    requires lastCheck + TIMEOUT + 2 <= lastTick + p && r.sentAt + TIMEOUT <= lastTick + p
    ensures var more := es + [CheckTimeout(lastTick + p, true)];
            && CanRun(Init(0), more) && TimelyRun(Init(0), more, p)
            && r in Run(Init(0), more).attributes.expired.Keys
            && Run(Init(0), more).attributes.expired[r] == Expiry(lastTick + p, true)
  {
    hide Step, Sweep, Run, CanRun, TimelyRun;
    var after, more := TimelyStep(Init(0), es, CheckTimeout(lastTick + p, true), p);
    SweepTakes(Run(Init(0), es).attributes, lastTick + p);
  }

  /** The latest moment is reached: some request is given up exactly 60 + p seconds after it was sent. */
  lemma DeadlineIsTight(p: nat)
    requires p >= 1
    ensures exists es, r :: CanRun(Init(0), es) && TimelyRun(Init(0), es, p)
              && r in Run(Init(0), es).attributes.expired.Keys
              && Run(Init(0), es).attributes.expired[r] == Expiry(r.sentAt + 60 + p, true)
  {
    hide Holds, Run, CanRun, TimelyRun, Next;
    var r := Request(1, Next(0), 3, NoHandler);
    FirstRequest(p, r);
    var es1 := WaitHolds([Connected(3), Send(3, Attributes, true, true, true, NoHandler)], p, r, 0, 3, 28);
    TickHolds(es1, p, r, 0, 31, 32);
    var es2 := WaitHolds(es1 + [CheckTimeout(32, true)], p, r, 32, 32, 31);
    LastTick(es2, p, r, 32, 63);
  }

  /** Extend a timely run by one event. */
  lemma TimelyStep(s: State, es: seq<Event>, e: Event, p: nat) returns (after: State, more: seq<Event>)
    requires s.nextRequestId < UINT16 && CanRun(s, es) && TimelyRun(s, es, p)
    requires CanHappen(Run(s, es), e) && Timely(Run(s, es), e, p)
    ensures more == es + [e] && CanRun(s, more) && TimelyRun(s, more, p)
    ensures var before := Run(s, es);
            && after == Run(s, more) == Step(before, e)
            && after.attributes == Effect(before, e, Attributes)
            && after.issued == before.issued + (if DrawsId(before, e) then 1 else 0)
            && after.nextRequestId == (if DrawsId(before, e) then Next(before.nextRequestId) else before.nextRequestId)
            && after.now == e.at
            && after.connected == (if e.Connected? then true else if e.Disconnected? then false else before.connected)
            && after.lastTick == (if e.CheckTimeout? || e.Connected? then e.at else before.lastTick)
            && after.lastCheck == (if e.CheckTimeout? && !Throttled(before, e.at) then e.at else before.lastCheck)
  {
    hide Step, Effect, CanHappen, Timely;
    RunOneMore(s, es, e);
    StepEffect(Run(s, es), e);
    more := es + [e];
    after := Run(s, more);
    assert more[..|es|] == es;
  }
}
