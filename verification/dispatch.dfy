/**
 * The helper and its OTA entry together: messages go to the handler their topic names, firmware requests draw from the
 * shared id generator, and timeout checks and disconnects reach the download as well.
 */
module Dispatch {
  import opened Basics
  import opened Sequences
  import opened RequestIds
  import opened Numerals
  import Topics
  import Trackers
  import TrackerLaws
  import Client
  import ClientRuns
  import ClientOutcomes
  import FwUpdate
  import OtaUpdates
  import OtaLaws
  import OtaOutcomes

  /** sessions: for every download negotiated, which of the generator's ids it drew. */
  datatype State = State(helper: Client.State, ota: OtaUpdates.Ota, sessions: seq<nat>)

  function Init(now: nat): State {
    State(Client.Init(now), OtaUpdates.Init(), [])
  }

  /** Act: what the application, the timer and the connection do; answers arrive as messages. */
  datatype Event =
    | Act(e: Client.Event)
    | Subscribe(at: nat)
    | Unsubscribe(at: nat)
    | Offer(at: nat, a: OtaUpdates.Attributes, publishOk: bool)
    | Message(at: nat, topic: string, payload: seq<byte>, json: bool, parsed: bool, unsubscribeOk: bool,
              write: FwUpdate.WriteEnv, end: FwUpdate.EndEnv, publishOk: bool)

  /** The negotiation succeeds, so that a chunk request is sent. */
  predicate Starts(o: OtaUpdates.Ota, config: OtaUpdates.Config, a: OtaUpdates.Attributes) {
    && o.present && a.title == config.title && OtaUpdates.IsCrc32(a.algorithm)
    && FwUpdate.Negotiate(config.partition, config.title, config.version, a.title, a.version, a.size).Accepted?
  }

  predicate StartsSession(s: State, config: OtaUpdates.Config, e: Event) {
    e.Offer? && Starts(s.ota, config, e.a)
  }

  /** For the trackers nothing happens, just as with an answer that is not JSON. */
  function TimePasses(at: nat): Client.Event {
    Client.Data(at, Client.Attributes, false, 0, true, true)
  }

  /** What the event is for the trackers. */
  function HelperPart(s: State, config: OtaUpdates.Config, e: Event): Client.Event {
    match e
    case Act(c) => c
    case Subscribe(at) => TimePasses(at)
    case Unsubscribe(at) => TimePasses(at)
    case Offer(at, _, _) => if StartsSession(s, config, e) then Client.DrawId(at) else TimePasses(at)
    case Message(at, topic, _, json, parsed, unsubscribeOk, _, _, _) =>
      match Topics.Route(topic)
      case AttributesResponse(id) => Client.Data(at, Client.Attributes, json, id, parsed, unsubscribeOk)
      case ClientRpcResponse(id) => Client.Data(at, Client.ClientRpc, json, id, parsed, unsubscribeOk)
      case ProvisionResponse => Client.Data(at, Client.Provision, json, 0, parsed, unsubscribeOk)
      case _ => TimePasses(at)
  }

  /** What the event is for the OTA entry. A disconnect counts as a check 60 s ahead. */
  function OtaPart(s: State, e: Event): Option<OtaUpdates.Event>
    requires s.helper.nextRequestId < UINT16
  {
    match e
    case Act(c) =>
      if c.CheckTimeout? && !Client.Throttled(s.helper, c.at) then Some(OtaUpdates.CheckTimeout(c.at))
      else if c.Disconnected? then Some(OtaUpdates.CheckTimeout(c.at + 2 * TIMEOUT))
      else None
    case Subscribe(_) => Some(OtaUpdates.Subscribe)
    case Unsubscribe(_) => Some(OtaUpdates.Unsubscribe)
    case Offer(at, a, publishOk) =>
      Some(OtaUpdates.SharedAttributes(a, Next(s.helper.nextRequestId), at, publishOk))
    case Message(at, topic, payload, _, _, _, write, end, publishOk) =>
      match Topics.Route(topic)
      case FwResponse(id, chunk) => Some(OtaUpdates.Chunk(id, chunk, payload, write, end, at, publishOk))
      case _ => None
  }

  /** Messages and offers arrive while the connection is up. */
  predicate CanHappen(s: State, config: OtaUpdates.Config, e: Event)
    requires s.helper.nextRequestId < UINT16
  {
    && Client.CanHappen(s.helper, HelperPart(s, config, e))
    && (OtaPart(s, e).Some? ==> OtaLaws.CanHappen(s.ota, OtaPart(s, e).value))
    && (e.Offer? || e.Message? ==> s.helper.connected)
    && (e.Act? ==> !e.e.Data?)
  }

  function Step(s: State, config: OtaUpdates.Config, e: Event): (r: State)
    requires s.helper.nextRequestId < UINT16 && CanHappen(s, config, e)
    ensures r.helper.nextRequestId < UINT16
  {
    State(Client.Step(s.helper, HelperPart(s, config, e)),
          if OtaPart(s, e).Some? then OtaUpdates.Step(s.ota, config, OtaPart(s, e).value) else s.ota,
          s.sessions + if StartsSession(s, config, e) then [s.helper.issued + 1] else [])
  }

  // ---- Invariant ---------------------------------------------------------------------------------------

  predicate SessionsInv(s: State) {
    && (forall i :: 0 <= i < |s.sessions| ==> 1 <= s.sessions[i] <= s.helper.issued)
    && (forall i, j :: 0 <= i < j < |s.sessions| ==> s.sessions[i] < s.sessions[j])
  }

  /** The download going on is the one negotiated last, and it carries the id drawn then. */
  predicate DownloadInv(s: State) {
    OtaLaws.IsActive(s.ota) ==>
      && s.sessions != [] && s.ota.session.requestId == IdAt(s.sessions[|s.sessions| - 1])
      && s.ota.session.timestamp <= s.helper.now
      && (!s.helper.connected ==> s.ota.session.timestamp == 0)
  }

  predicate Inv(s: State, config: OtaUpdates.Config) {
    && s.helper.nextRequestId < UINT16
    && ClientRuns.StateInv(s.helper) && OtaLaws.Inv(s.ota, config)
    && SessionsInv(s) && DownloadInv(s)
  }

  /** Where the session after an event comes from. */
  predicate Follows(before: OtaUpdates.Session, e: OtaUpdates.Event, starts: bool, after: OtaUpdates.Session) {
    || after == OtaUpdates.IDLE
    || (after == before && !starts)
    || (e.Chunk? && before.requestId > 0 && after.requestId == before.requestId && after.timestamp == e.now)
    || (e.SharedAttributes? && starts && after.requestId == e.id && after.timestamp == e.now)
  }

  lemma SessionFollows(o: OtaUpdates.Ota, config: OtaUpdates.Config, e: OtaUpdates.Event)
    requires OtaLaws.CanHappen(o, e)
    ensures Follows(o.session, e, e.SharedAttributes? && Starts(o, config, e.a), OtaUpdates.Step(o, config, e).session)
  {
    hide OtaUpdates.Verified, FwUpdate.Write, OtaUpdates.IsCrc32, OtaUpdates.AbortWriter, OtaUpdates.Wrap;
  }

  /** A timeout check ends a stamped download whose last request is 30 s old, and touches no other. */
  lemma CheckedDownload(o: OtaUpdates.Ota, config: OtaUpdates.Config, stamp: nat)
    requires OtaLaws.ValidConfig(config) && OtaLaws.Inv(o, config)
    ensures var after := OtaUpdates.Step(o, config, OtaUpdates.CheckTimeout(stamp));
            if OtaLaws.IsActive(o) && 0 < o.session.timestamp && o.session.timestamp + TIMEOUT <= stamp then
              after.session == OtaUpdates.IDLE
            else after == o
  {
    hide OtaLaws.LedgerInv, OtaUpdates.AbortWriter;
  }

  lemma StepInv(s: State, config: OtaUpdates.Config, e: Event)
    requires OtaLaws.ValidConfig(config) && Inv(s, config) && CanHappen(s, config, e)
    ensures Inv(Step(s, config, e), config)
  {
    hide OtaLaws.Inv, OtaUpdates.Step, OtaLaws.CanHappen, ClientRuns.StateInv, Client.Step, Client.CanHappen, Starts,
         Topics.Route, Next, IdAt;
    ClientRuns.StepInv(s.helper, HelperPart(s, config, e));
    ClientRuns.StepEffect(s.helper, HelperPart(s, config, e));
    if OtaPart(s, e).Some? { OtaLaws.StepKeeps(s.ota, config, OtaPart(s, e).value); }
    StepDownload(s, config, e);
  }

  lemma ClockAndIds(s: State, config: OtaUpdates.Config, e: Event)
    requires s.helper.nextRequestId < UINT16 && ClientRuns.StateInv(s.helper) && CanHappen(s, config, e)
    ensures s.helper.now <= HelperPart(s, config, e).at
    ensures Next(s.helper.nextRequestId) == IdAt(s.helper.issued + 1)
    ensures HelperPart(s, config, e).Connected? ==> !s.helper.connected
  {
    NextIdAt(s.helper.issued);
  }

  lemma StepDownload(s: State, config: OtaUpdates.Config, e: Event)
    requires OtaLaws.ValidConfig(config) && Inv(s, config) && CanHappen(s, config, e)
    ensures DownloadInv(Step(s, config, e))
  {
    hide OtaLaws.Inv, OtaUpdates.Step, OtaLaws.CanHappen, ClientRuns.StateInv, Client.Step, Client.CanHappen, Starts,
         Topics.Route, Next, IdAt;
    ClientRuns.StepEffect(s.helper, HelperPart(s, config, e));
    ClockAndIds(s, config, e);
    if OtaPart(s, e).Some? {
      var part := OtaPart(s, e).value;
      SessionFollows(s.ota, config, part);
      if part.CheckTimeout? { CheckedDownload(s.ota, config, part.stamp); }
    }
  }

  // ---- Runs --------------------------------------------------------------------------------------------

  predicate CanRun(s: State, config: OtaUpdates.Config, es: seq<Event>)
    requires s.helper.nextRequestId < UINT16
    decreases |es|, 0
  {
    es == [] ||
    (CanRun(s, config, es[..|es| - 1]) && CanHappen(Run(s, config, es[..|es| - 1]), config, es[|es| - 1]))
  }

  function Run(s: State, config: OtaUpdates.Config, es: seq<Event>): (r: State)
    requires s.helper.nextRequestId < UINT16 && CanRun(s, config, es)
    ensures r.helper.nextRequestId < UINT16
    decreases |es|, 1
  {
    if es == [] then s else Step(Run(s, config, es[..|es| - 1]), config, es[|es| - 1])
  }

  lemma {:induction false} RunInv(now: nat, config: OtaUpdates.Config, es: seq<Event>)
    requires OtaLaws.ValidConfig(config) && CanRun(Init(now), config, es)
    ensures Inv(Run(Init(now), config, es), config)
  {
    hide Inv, CanHappen, Step;
    if es == [] {
      StartInv(now, config);
    } else {
      RunInv(now, config, es[..|es| - 1]);
      StepInv(Run(Init(now), config, es[..|es| - 1]), config, es[|es| - 1]);
    }
  }

  lemma StartInv(now: nat, config: OtaUpdates.Config)
    ensures Inv(Init(now), config)
  {
    hide ClientRuns.StateInv, OtaLaws.Inv;
    ClientRuns.InitInv(now);
    OtaLaws.InitInv(config);
  }

  // ---- Answers by topic --------------------------------------------------------------------------------

  /**
   * An answer published under the response topic of a pending request's printed id finishes exactly that request, as
   * long as no request pending longer was sent a multiple of 65535 draws earlier.
   */
  lemma AnswerByTopic(now: nat, config: OtaUpdates.Config, es: seq<Event>, e: Event, which: Client.Which, i: nat)
    requires OtaLaws.ValidConfig(config) && CanRun(Init(now), config, es) && which != Client.Provision
    requires var s := Run(Init(now), config, es);
             && CanHappen(s, config, e) && e.Message? && e.json
             && var pending := s.helper.Get(which).pending;
                && i < |pending| && TrackerLaws.Unambiguous(pending, i)
                && e.topic == ResponsePrefix(which) + Print(pending[i].id, 10)
    ensures var s := Run(Init(now), config, es);
            var t, after := s.helper.Get(which), Step(s, config, e);
            && after.helper.Get(which).pending == t.pending[..i] + t.pending[i + 1..]
            && after.helper.Get(which).calls == t.calls + [Trackers.Call(t.pending[i], Trackers.OnResponse)]
            && (forall v :: v != which ==> after.helper.Get(v) == s.helper.Get(v))
            && after.ota == s.ota
  {
    hide Run, CanRun, Client.CanHappen, Client.Step, ClientRuns.StateInv, Topics.Route, OtaLaws.Inv, Print;
    RunInv(now, config, es);
    var s := Run(Init(now), config, es);
    PendingIds(s.helper, which, i);
    if which == Client.Attributes {
      Topics.RouteAttributesResponse(s.helper.Get(which).pending[i].id);
    } else {
      Topics.RouteClientRpcResponse(s.helper.Get(which).pending[i].id);
    }
    ClientRuns.AnswerDelivered(s.helper, HelperPart(s, config, e), i);
  }

  /**
   * A provisioning answer, which carries no id, finishes the request pending longest, if there is one: its handler gets
   * the credentials, or the news of a timeout if they cannot be parsed.
   */
  lemma ProvisionByTopic(now: nat, config: OtaUpdates.Config, es: seq<Event>, e: Event)
    requires OtaLaws.ValidConfig(config) && CanRun(Init(now), config, es)
    requires var s := Run(Init(now), config, es);
             CanHappen(s, config, e) && e.Message? && e.json && e.topic == "/provision/response"
    ensures var s := Run(Init(now), config, es);
            var t, after := s.helper.provision, Step(s, config, e);
            && (if t.pending == [] then after.helper.provision == t
                else
                  && after.helper.provision.pending == t.pending[1..]
                  && after.helper.provision.answered == t.answered + {t.pending[0]}
                  && after.helper.provision.calls == t.calls +
                       [Trackers.Call(t.pending[0], if e.parsed then Trackers.OnResponse else Trackers.OnTimeout)])
            && after.helper.attributes == s.helper.attributes && after.helper.clientRpc == s.helper.clientRpc
            && after.ota == s.ota
  {
    hide Run, CanRun, Client.CanHappen, Client.Step, ClientRuns.StateInv, Topics.Route, OtaLaws.Inv;
    RunInv(now, config, es);
    var s := Run(Init(now), config, es);
    Topics.RoutePlainTopics();
    var part := HelperPart(s, config, e);
    if s.helper.provision.pending == [] {
      NobodyWaits(s.helper, part);
    } else {
      ClientRuns.AnswerDelivered(s.helper, part, 0);
      assert s.helper.provision.pending[..0] == [];
      assert Client.Step(s.helper, part).Get(Client.Attributes) == s.helper.Get(Client.Attributes);
      assert Client.Step(s.helper, part).Get(Client.ClientRpc) == s.helper.Get(Client.ClientRpc);
    }
  }

  lemma NobodyWaits(s: Client.State, e: Client.Event)
    requires ClientRuns.StateInv(s) && s.nextRequestId < UINT16 && Client.CanHappen(s, e)
    requires e.Data? && e.which == Client.Provision && s.provision.pending == []
    ensures Client.Step(s, e) == s.(now := e.at)
  {
    hide TrackerLaws.Inv, IdAt;
    ClientOutcomes.StrangerIgnored(s.provision, s.connected, e.id, e.parsed, e.unsubscribeOk);
  }

  /** A firmware answer reaches the OTA entry with both numbers of its topic, and no tracker. */
  lemma FirmwareByTopic(s: State, config: OtaUpdates.Config, e: Event, id: nat, chunk: nat)
    requires s.helper.nextRequestId < UINT16 && CanHappen(s, config, e) && e.Message?
    requires id < UINT32 && chunk < UINT32
    requires e.topic == "v2/fw/response/" + Print(id, 10) + "/chunk/" + Print(chunk, 10)
    ensures var after := Step(s, config, e);
            && after.helper == s.helper.(now := e.at) && after.sessions == s.sessions
            && after.ota ==
                 OtaUpdates.OnChunk(s.ota, id, chunk, e.payload, e.write, e.end, e.at, e.publishOk)
  {
    hide Topics.Route, OtaUpdates.OnChunk, Print, Trackers.CanReport;
    Topics.RouteFwResponse(id, chunk);
  }

  /** Shared attributes, server RPC and unknown topics concern neither the trackers nor the download. */
  lemma OtherTopicsPass(s: State, config: OtaUpdates.Config, e: Event)
    requires s.helper.nextRequestId < UINT16 && CanHappen(s, config, e) && e.Message?
    requires !("v1/devices/me/attributes/response/" <= e.topic) && !("v1/devices/me/rpc/response/" <= e.topic)
    requires !("v2/fw/response/" <= e.topic) && !("/provision/response" <= e.topic)
    ensures Step(s, config, e) == s.(helper := s.helper.(now := e.at))
  {
    hide Topics.Route, Trackers.CanReport;
    OtherRoutes(e.topic);
    assert s.sessions + [] == s.sessions;
  }

  lemma OtherRoutes(topic: string)
    requires !("v1/devices/me/attributes/response/" <= topic) && !("v1/devices/me/rpc/response/" <= topic)
    requires !("v2/fw/response/" <= topic) && !("/provision/response" <= topic)
    ensures var r := Topics.Route(topic);
            !r.AttributesResponse? && !r.ClientRpcResponse? && !r.FwResponse? && !r.ProvisionResponse?
  {
    hide Topics.ScanChunk;
  }

  /** An acceptable offer draws the next id of the shared generator for its first request; other offers draw none. */
  lemma OfferDrawsId(now: nat, config: OtaUpdates.Config, es: seq<Event>, e: Event)
    requires OtaLaws.ValidConfig(config) && CanRun(Init(now), config, es)
    requires CanHappen(Run(Init(now), config, es), config, e) && e.Offer?
    ensures var s := Run(Init(now), config, es);
            var after, a := Step(s, config, e), e.a;
            var starts := s.ota.present && a.title == config.title && OtaUpdates.IsCrc32(a.algorithm)
                          && a.version != config.version && a.size <= config.partition;
            var drawn := s.helper.issued + 1;
            && after.helper.issued == (if starts then drawn else s.helper.issued)
            && after.sessions == s.sessions + (if starts then [drawn] else [])
            && (starts && e.publishOk ==>
                  after.ota.session == OtaUpdates.Session(IdAt(drawn), 0, 0, 0, e.at, a.size, Some(a.checksum)))
            && after.helper.attributes == s.helper.attributes && after.helper.clientRpc == s.helper.clientRpc
            && after.helper.provision == s.helper.provision
  {
    hide Run, CanRun, Client.CanHappen, Client.Step, ClientRuns.StateInv, OtaLaws.Inv, OtaUpdates.IsCrc32, Next, IdAt,
         OtaUpdates.Step;
    RunInv(now, config, es);
    var s := Run(Init(now), config, es);
    ClockAndIds(s, config, e);
    ClientRuns.StepEffect(s.helper, HelperPart(s, config, e));
    OtaOutcomes.OfferOutcome(s.ota, config, OtaPart(s, e).value);
  }

  function ResponsePrefix(which: Client.Which): string
    requires which != Client.Provision
  {
    if which == Client.Attributes then "v1/devices/me/attributes/response/" else "v1/devices/me/rpc/response/"
  }

  lemma PendingIds(s: Client.State, which: Client.Which, i: nat)
    requires ClientRuns.StateInv(s) && i < |s.Get(which).pending|
    ensures s.Get(which).pending[i].id < UINT32
  {
    var t := s.Get(which);
    assert TrackerLaws.Inv(t, s.issued, s.now);
    assert t.pending[i] in TrackerLaws.PendingSet(t);
  }

  // ---- Late firmware answers ---------------------------------------------------------------------------

  /** No chunk with this id has any effect. */
  ghost predicate IgnoresChunks(o: OtaUpdates.Ota, id: nat) {
    forall chunk, data, write, end, at, ok :: OtaUpdates.OnChunk(o, id, chunk, data, write, end, at, ok) == o
  }

  lemma IgnoresExactly(o: OtaUpdates.Ota, id: nat)
    requires o.present
    ensures IgnoresChunks(o, id) <==> o.session.requestId != id
  {
    hide OtaUpdates.Complete, FwUpdate.Write;
    if o.session.requestId == id {
      var write, end := FwUpdate.WriteEnv([], None, None, true), FwUpdate.EndEnv(true, true);
      var after := OtaUpdates.OnChunk(o, id, 0, [], write, end, 0, true);
      assert |after.history.reports| == |o.history.reports| + 1;
      assert after != o;
    }
  }

  /**
   * Late chunks of an earlier download change nothing unless another download is going on whose id was drawn a
   * multiple of 65535 draws later: exactly then the two cannot be told apart.
   */
  lemma LateChunks(now: nat, config: OtaUpdates.Config, es: seq<Event>, k: nat)
    requires OtaLaws.ValidConfig(config) && CanRun(Init(now), config, es)
    requires k < |Run(Init(now), config, es).sessions|
    ensures var s := Run(Init(now), config, es);
            var id, latest: int := IdAt(s.sessions[k]), s.sessions[|s.sessions| - 1];
            if OtaLaws.IsActive(s.ota) then IgnoresChunks(s.ota, id) <==> (latest - s.sessions[k]) % 65535 != 0
            else IgnoresChunks(s.ota, id)
  {
    hide Run, CanRun, IgnoresChunks, ClientRuns.StateInv;
    RunInv(now, config, es);
    var s := Run(Init(now), config, es);
    var last := |s.sessions| - 1;
    IdsEqualExactly(s.sessions[k], s.sessions[last]);
    if s.ota.present { IgnoresExactly(s.ota, IdAt(s.sessions[k])); } else { AbsentIgnores(s.ota, IdAt(s.sessions[k])); }
  }

  lemma AbsentIgnores(o: OtaUpdates.Ota, id: nat)
    requires !o.present
    ensures IgnoresChunks(o, id)
  {}

  // ---- Deadlines of a download -------------------------------------------------------------------------

  predicate Timely(s: State, config: OtaUpdates.Config, e: Event, p: nat) {
    ClientRuns.Timely(s.helper, HelperPart(s, config, e), p)
  }

  /** While the connection is up, timeout events are processed with gaps of at most p seconds. */
  predicate TimelyRun(s: State, config: OtaUpdates.Config, es: seq<Event>, p: nat)
    requires s.helper.nextRequestId < UINT16 && CanRun(s, config, es)
    decreases |es|
  {
    es == [] ||
    (TimelyRun(s, config, es[..|es| - 1], p) && Timely(Run(s, config, es[..|es| - 1]), config, es[|es| - 1], p))
  }

  /** The last sweep came before the last chunk request was 30 s old, and the next one is due in time. */
  predicate OnTime(s: State) {
    var h, sentAt := s.helper, s.ota.session.timestamp;
    OtaLaws.IsActive(s.ota) && sentAt > 0 ==>
      h.lastCheck < sentAt + TIMEOUT && (h.lastTick < h.lastCheck + TIMEOUT + 2 || h.lastTick <= sentAt)
  }

  lemma StepOnTime(s: State, config: OtaUpdates.Config, e: Event, p: nat)
    requires OtaLaws.ValidConfig(config) && Inv(s, config) && CanHappen(s, config, e)
    requires ClientRuns.PunctualState(s.helper, p) && OnTime(s)
    ensures OnTime(Step(s, config, e))
  {
    hide OtaLaws.Inv, OtaUpdates.Step, OtaLaws.CanHappen, ClientRuns.StateInv, Client.Step, Client.CanHappen, Starts,
         Topics.Route, Next, IdAt, ClientRuns.Punctual;
    ClientRuns.StepEffect(s.helper, HelperPart(s, config, e));
    ClockAndIds(s, config, e);
    if OtaPart(s, e).Some? {
      var part := OtaPart(s, e).value;
      SessionFollows(s.ota, config, part);
      if part.CheckTimeout? { CheckedDownload(s.ota, config, part.stamp); }
    }
  }

  lemma {:induction false} RunOnTime(now: nat, config: OtaUpdates.Config, es: seq<Event>, p: nat)
    requires OtaLaws.ValidConfig(config) && CanRun(Init(now), config, es) && TimelyRun(Init(now), config, es, p)
    ensures ClientRuns.PunctualState(Run(Init(now), config, es).helper, p) && OnTime(Run(Init(now), config, es))
  {
    hide OtaLaws.Inv, ClientRuns.StateInv, OtaUpdates.Step, Client.Step, OnTime, ClientRuns.Timely, Client.CanHappen,
         HelperPart, OtaPart, DownloadInv, SessionsInv;
    if es == [] {
      assert OnTime(Init(now)) by { StartOnTime(now); }
    } else {
      var init, e := es[..|es| - 1], es[|es| - 1];
      RunOnTime(now, config, init, p);
      RunInv(now, config, init);
      var s := Run(Init(now), config, init);
      StepOnTime(s, config, e, p);
      ClientRuns.StepPunctual(s.helper, HelperPart(s, config, e), p);
    }
  }

  lemma StartOnTime(now: nat)
    ensures OnTime(Init(now))
  {}

  /**
   * With timeout events at most p seconds apart, no download waits longer than 60 + p s for the answer to its last
   * chunk request, although sweeps are 32 s apart, and no stamped download survives a disconnect.
   */
  lemma DownloadDeadline(now: nat, config: OtaUpdates.Config, es: seq<Event>, p: nat)
    requires OtaLaws.ValidConfig(config) && CanRun(Init(now), config, es) && TimelyRun(Init(now), config, es, p)
    ensures var s := Run(Init(now), config, es);
            OtaLaws.IsActive(s.ota) && s.ota.session.timestamp > 0 ==>
              s.helper.connected && s.helper.now <= s.ota.session.timestamp + 60 + p
  {
    hide Run, CanRun, TimelyRun, OtaLaws.Inv, ClientRuns.StateInv, ClientRuns.Punctual;
    RunOnTime(now, config, es, p);
    RunInv(now, config, es);
  }

  /**
   * A timeout event gives the waiting download up if and only if the next sweep is due and 30 s have passed since the
   * chunk request; with gaps of at most p seconds the event comes at most 60 + p s after it.
   */
  lemma DownloadGivenUp(now: nat, config: OtaUpdates.Config, es: seq<Event>, e: Event, p: nat)
    requires OtaLaws.ValidConfig(config) && CanRun(Init(now), config, es) && TimelyRun(Init(now), config, es, p)
    requires var s := Run(Init(now), config, es);
             && CanHappen(s, config, e) && Timely(s, config, e, p) && e.Act? && e.e.CheckTimeout?
             && OtaLaws.IsActive(s.ota) && s.ota.session.timestamp > 0
    ensures var s := Run(Init(now), config, es);
            var sentAt, at := s.ota.session.timestamp, e.e.at;
            && at <= sentAt + 60 + p
            && (!OtaLaws.IsActive(Step(s, config, e).ota) <==> s.helper.lastCheck + 32 <= at && sentAt + 30 <= at)
  {
    hide Run, CanRun, TimelyRun, OtaLaws.Inv, OtaLaws.CanHappen, OtaUpdates.Step, ClientRuns.StateInv, Client.Step,
         Client.CanHappen, ClientRuns.Punctual;
    RunOnTime(now, config, es, p);
    RunInv(now, config, es);
    CheckedDownload(Run(Init(now), config, es).ota, config, e.e.at);
  }
}
