/**
 * Reconnecting: every connect subscribes the OTA handler to the firmware attributes once more, and nothing takes an
 * earlier subscription back, so that one update is negotiated once for each connect there was.
 */
module Reconnects {
  import opened Basics
  import opened AttributesSubscribe
  import FwUpdate
  import OtaUpdates
  import OtaLaws
  import OtaRuns
  import Dispatch

  const FW_KEYS := ["fw_title", "fw_version", "fw_size", "fw_checksum", "fw_checksum_algorithm"]

  /** A disconnect and a connect: the topic is subscribed again if anybody wants it, and the OTA handler is added. */
  function Reconnect(r: Registry, topicOk: bool, ok: bool): Registry {
    Subscribe(OnConnected(OnDisconnected(r), topicOk), FW_KEYS, 0, ok)
  }

  function Reconnects(r: Registry, oks: seq<bool>): Registry {
    if oks == [] then r else Reconnect(Reconnects(r, oks[..|oks| - 1]), oks[|oks| - 1], oks[|oks| - 1])
  }

  /** The OTA handler: it looks for the firmware attributes and never stops a distribution. */
  predicate IsOtaHandler(s: Subscriber) {
    s.keys == FW_KEYS && s.reply == 0
  }

  /** How many of those told are OTA handlers. */
  function OtaHandlers(told: seq<Subscriber>): nat {
    if told == [] then 0
    else OtaHandlers(told[..|told| - 1]) + if IsOtaHandler(told[|told| - 1]) then 1 else 0
  }

  /** The update carries all the firmware attributes. */
  predicate IsOffer(keys: set<string>) {
    forall k :: k in FW_KEYS ==> HasItem(keys, k)
  }

  lemma {:induction false} ReconnectsAdd(r: Registry, oks: seq<bool>) returns (added: seq<Subscriber>)
    ensures Reconnects(r, oks).subscribers == r.subscribers + added && |added| == |oks|
    ensures forall k :: 0 <= k < |added| ==> IsOtaHandler(added[k])
  {
    if oks == [] {
      added := [];
    } else {
      var init := ReconnectsAdd(r, oks[..|oks| - 1]);
      var before := Reconnects(r, oks[..|oks| - 1]);
      added := init + [Subscriber((before.lastId + 1) % UINT32, FW_KEYS, 0)];
      assert r.subscribers + init + added[|init|..] == r.subscribers + added;
    }
  }

  lemma {:induction false} ToldConcat(left: seq<Subscriber>, right: seq<Subscriber>, keys: set<string>)
    ensures Told(left + right, keys) ==
            if AnyStops(left, keys) then Told(left, keys) else Told(left, keys) + Told(right, keys)
  {
    hide Wants, Stops, AnyStops;
    if left == [] {
      NobodyStops(keys);
      assert left + right == right && [] + Told(right, keys) == Told(right, keys);
    } else {
      var first, rest := left[0], left[1..];
      assert (left + right)[0] == first && (left + right)[1..] == rest + right;
      AnyStopsCons(left, keys);
      ToldConcat(rest, right, keys);
      var own := if Wants(first, keys) then [first] else [];
      assert own + Told(rest, keys) + Told(right, keys) == own + (Told(rest, keys) + Told(right, keys));
    }
  }

  /** An offer reaches every OTA handler of the list. */
  lemma {:induction false} HandlersTold(handlers: seq<Subscriber>, keys: set<string>)
    requires IsOffer(keys) && forall k :: 0 <= k < |handlers| ==> IsOtaHandler(handlers[k])
    ensures Told(handlers, keys) == handlers
  {
    hide HasItem;
    if handlers != [] {
      assert FW_KEYS[0] in FW_KEYS;
      assert HasKey(handlers[0].keys, keys);
      HandlersTold(handlers[1..], keys);
      assert [handlers[0]] + handlers[1..] == handlers;
    }
  }

  lemma {:induction false} OtaHandlersConcat(left: seq<Subscriber>, right: seq<Subscriber>)
    requires forall k :: 0 <= k < |right| ==> IsOtaHandler(right[k])
    ensures OtaHandlers(left + right) == OtaHandlers(left) + |right|
  {
    hide IsOtaHandler;
    if right == [] {
      assert left + right == left;
    } else {
      var init := right[..|right| - 1];
      OtaHandlersConcat(left, init);
      assert (left + right)[..|left + right| - 1] == left + init;
    }
  }

  /**
   * After k connects an offer is handled k times more often than before, unless some earlier subscriber stops its
   * distribution, which then reaches no handler added by the connects.
   */
  lemma HandledOftenExactly(r: Registry, oks: seq<bool>, keys: set<string>)
    requires IsOffer(keys)
    ensures OtaHandlers(Told(Reconnects(r, oks).subscribers, keys)) ==
            OtaHandlers(Told(r.subscribers, keys)) + if AnyStops(r.subscribers, keys) then 0 else |oks|
  {
    hide AnyStops, IsOtaHandler, Told;
    var added := ReconnectsAdd(r, oks);
    ToldConcat(r.subscribers, added, keys);
    HandlersTold(added, keys);
    OtaHandlersConcat(Told(r.subscribers, keys), added);
  }

  // ---- What the handlers do ------------------------------------------------------------------------------

  /** The same offer, handled once for each id, with requests that can be sent. */
  function Offers(a: OtaUpdates.Attributes, ids: seq<nat>, now: nat): seq<OtaUpdates.Event> {
    seq(|ids|, k requires 0 <= k < |ids| => OtaUpdates.SharedAttributes(a, ids[k], now, true))
  }

  function FirstRequests(ids: seq<nat>, size: nat): seq<OtaUpdates.ChunkRequest> {
    seq(|ids|, k requires 0 <= k < |ids| => OtaUpdates.ChunkRequest(ids[k], 0, OtaUpdates.Wanted(size)))
  }

  lemma OfferStarts(o: OtaUpdates.Ota, config: OtaUpdates.Config, a: OtaUpdates.Attributes, id: nat, now: nat)
    requires Dispatch.Starts(o, config, a)
    ensures var after := OtaUpdates.Step(o, config, OtaUpdates.SharedAttributes(a, id, now, true));
            && after.present && after.session.requestId == id
            && after.writer == o.writer && after.flash == o.flash && after.history.reports == o.history.reports
            && after.history.started == o.history.started + 1
            && after.history.replaced == o.history.replaced + (if OtaLaws.IsActive(o) then 1 else 0)
            && after.history.requests == o.history.requests + FirstRequests([id], a.size)
  {
    hide OtaUpdates.IsCrc32;
  }

  /** Handling the same offer again and again: all but the last of the downloads started are replaced silently. */
  lemma {:induction false} OffersReplace(o: OtaUpdates.Ota, config: OtaUpdates.Config, a: OtaUpdates.Attributes,
                                         ids: seq<nat>, now: nat)
    requires Dispatch.Starts(o, config, a) && ids != [] && forall k :: 0 <= k < |ids| ==> ids[k] > 0
    ensures var after := OtaLaws.Run(o, config, Offers(a, ids, now));
            && after.present && after.session.requestId == ids[|ids| - 1]
            && after.writer == o.writer && after.flash == o.flash && after.history.reports == o.history.reports
            && after.history.started == o.history.started + |ids|
            && after.history.replaced == o.history.replaced + |ids| - 1 + (if OtaLaws.IsActive(o) then 1 else 0)
            && after.history.requests == o.history.requests + FirstRequests(ids, a.size)
  {
    hide OtaUpdates.Step, OtaUpdates.IsCrc32, FwUpdate.Negotiate;
    var init, last := ids[..|ids| - 1], ids[|ids| - 1];
    assert Offers(a, ids, now)[..|ids| - 1] == Offers(a, init, now);
    assert FirstRequests(ids, a.size) == FirstRequests(init, a.size) + FirstRequests([last], a.size);
    if init == [] {
      assert FirstRequests(init, a.size) + FirstRequests([last], a.size) == FirstRequests([last], a.size);
      OfferStarts(o, config, a, last, now);
    } else {
      OffersReplace(o, config, a, init, now);
      OfferStarts(OtaLaws.Run(o, config, Offers(a, init, now)), config, a, last, now);
    }
  }

  /**
   * A client whose only subscribers are those of its connects: after k connects one acceptable offer starts k
   * downloads with a request each, of which k - 1 disappear without a report.
   */
  lemma OneOfferManyDownloads(r: Registry, oks: seq<bool>, keys: set<string>, o: OtaUpdates.Ota,
                              config: OtaUpdates.Config, a: OtaUpdates.Attributes, ids: seq<nat>, now: nat)
    requires r.subscribers == [] && oks != [] && IsOffer(keys)
    requires Dispatch.Starts(o, config, a) && !OtaLaws.IsActive(o)
    requires |ids| == OtaHandlers(Told(Reconnects(r, oks).subscribers, keys))
    requires forall k :: 0 <= k < |ids| ==> ids[k] > 0
    ensures var after := OtaLaws.Run(o, config, Offers(a, ids, now));
            && OtaLaws.IsActive(after) && after.history.reports == o.history.reports
            && after.history.started == o.history.started + |oks|
            && after.history.replaced == o.history.replaced + |oks| - 1
            && after.history.requests == o.history.requests + FirstRequests(ids, a.size)
  {
    hide Reconnects, OtaUpdates.IsCrc32, FwUpdate.Negotiate, IsOffer, OtaLaws.Run;
    HandledOftenExactly(r, oks, keys);
    assert Told(r.subscribers, keys) == [];
    OffersReplace(o, config, a, ids, now);
  }

  /** Two connects, one offer: the first of two downloads is gone, and nobody was told. */
  lemma SecondConnectReplaces()
    ensures OtaHandlers(Told(Reconnects(Registry([], 0, false, false), [true, true]).subscribers,
                             set k | k in FW_KEYS)) == 2
    ensures exists es, o :: OtaRuns.Reaches(es, o) && OtaLaws.IsActive(o) && o.history.reports == []
              && o.history.started == 2 && o.history.replaced == 1
  {
    hide OtaUpdates.Step, OtaRuns.Reaches, Reconnects, Told, OtaHandlers;
    TwoHandlers();
    var offer := OtaRuns.Offer(1, "");
    var first, second := OtaUpdates.SharedAttributes(offer, 1, 1, true), OtaUpdates.SharedAttributes(offer, 2, 1, true);
    var es, o := OtaRuns.Subscribed();
    OtaRuns.Next(es, o, first);
    OfferStarts(o, OtaRuns.DEVICE, offer, 1, 1);
    var o1 := OtaUpdates.Step(o, OtaRuns.DEVICE, first);
    OtaRuns.Next(es + [first], o1, second);
    OfferStarts(o1, OtaRuns.DEVICE, offer, 2, 1);
    assert OtaRuns.Reaches(es + [first] + [second], OtaUpdates.Step(o1, OtaRuns.DEVICE, second));
  }

  lemma TwoHandlers()
    ensures OtaHandlers(Told(Reconnects(Registry([], 0, false, false), [true, true]).subscribers,
                             set k | k in FW_KEYS)) == 2
  {
    hide Reconnects;
    var r, keys := Registry([], 0, false, false), set k | k in FW_KEYS;
    assert IsOffer(keys) by {
      forall k | k in FW_KEYS ensures HasItem(keys, k) { assert k in keys && SameText(k, k); }
    }
    HandledOftenExactly(r, [true, true], keys);
    assert Told(r.subscribers, keys) == [];
  }
}
