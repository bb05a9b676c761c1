/** The client in place: one event handler that fans out to the trackers and to the OTA entry. */
module TbClients {
  import opened Basics
  import opened RequestIds
  import Topics
  import Trackers
  import Client
  import FwUpdate
  import OtaUpdates
  import OtaLaws
  import Dispatch

  class TbClient {
    const helper: Client.Helper
    const ota: OtaUpdates.OtaUpdate
    ghost var sessions: seq<nat>

    ghost predicate Valid()
      reads this, helper
    {
      helper.Valid()
    }

    ghost function Model(): Dispatch.State
      reads this, helper, helper.attributes, helper.clientRpc, helper.provision, ota, ota.fw
    {
      Dispatch.State(helper.Model(), ota.Model(), sessions)
    }

    constructor (config: OtaUpdates.Config, now: nat)
      ensures Valid() && Model() == Dispatch.Init(now) && ota.config == config
    {
      helper := new Client.Helper(now);
      ota := new OtaUpdates.OtaUpdate(config);
      sessions := [];
    }

    /** A timer event: sweeps are throttled, and cover the trackers and the download. */
    method OnCheckTimeout(e: Dispatch.Event)
      requires Valid() && Dispatch.CanHappen(Model(), ota.config, e) && e.Act? && e.e.CheckTimeout?
      modifies helper, helper.attributes, helper.clientRpc, helper.provision, ota, ota.fw
      ensures Valid() && Model() == Dispatch.Step(old(Model()), ota.config, e)
    {
      hide Client.Step, OtaUpdates.OnTimeout, Client.CanHappen;
      var throttled := e.e.at < helper.lastCheckTimestamp + TIMEOUT + 2;
      helper.OnCheckTimeout(e.e);
      if !throttled {
        ota.HandleTimeout(e.e.at);
      }
    }

    method OnDisconnected(e: Dispatch.Event)
      requires Valid() && Dispatch.CanHappen(Model(), ota.config, e) && e.Act? && e.e.Disconnected?
      modifies helper, helper.attributes, helper.clientRpc, helper.provision, ota, ota.fw
      ensures Valid() && Model() == Dispatch.Step(old(Model()), ota.config, e)
    {
      hide Client.Step, OtaUpdates.OnTimeout, Client.CanHappen;
      helper.OnDisconnected(e.e);
      ota.HandleTimeout(e.e.at + 2 * TIMEOUT);
    }

    /** Hand an answer to the trackers. */
    method Answer(c: Client.Event)
      requires Valid() && c.Data? && Client.CanHappen(Model().helper, c)
      modifies helper, helper.attributes, helper.clientRpc, helper.provision
      ensures Valid() && Model() == old(Model()).(helper := Client.Step(old(Model()).helper, c))
    {
      hide Client.Step, Client.CanHappen;
      helper.OnData(c);
    }

    /** Hand a part of the firmware to the OTA entry. */
    method TakeChunk(e: Dispatch.Event, id: nat, chunk: nat)
      requires Valid() && e.Message?
      modifies ota, ota.fw
      ensures Valid()
      ensures Model() == old(Model()).(ota := OtaUpdates.OnChunk(old(Model()).ota, id, chunk, e.payload, e.write, e.end,
                                                                 e.at, e.publishOk))
    {
      hide OtaUpdates.OnChunk;
      ota.HandleChunk(id, chunk, e.payload, e.write, e.end, e.at, e.publishOk);
    }

    method Negotiate(e: Dispatch.Event, id: nat)
      requires Valid() && e.Offer?
      modifies ota, ota.fw
      ensures Valid()
      ensures Model() == old(Model()).(ota := OtaUpdates.OnAttributes(old(Model()).ota, ota.config, e.a, id, e.at,
                                                                      e.publishOk))
    {
      hide OtaUpdates.OnAttributes;
      ota.HandleAttributes(e.a, id, e.at, e.publishOk);
    }

    method DrawSessionId() returns (id: nat)
      requires Valid()
      modifies this, helper
      ensures Valid() && id == helper.nextRequestId
      ensures Model() == Dispatch.State(Client.Draw(old(Model()).helper), old(Model()).ota,
                               old(sessions) + [Client.Draw(old(Model()).helper).issued])
    {
      id := helper.GetRequestId();
      sessions := sessions + [helper.issued];
    }

    method WillStart(a: OtaUpdates.Attributes) returns (starts: bool)
      ensures starts == Dispatch.Starts(ota.Model(), ota.config, a)
    {
      hide OtaUpdates.IsCrc32;
      var config := ota.config;
      starts := false;
      if ota.present && a.title == config.title && OtaUpdates.IsCrc32(a.algorithm) {
        var decision :=
          FwUpdate.Negotiate(config.partition, config.title, config.version, a.title, a.version, a.size);
        starts := decision.Accepted?;
      }
    }

    /** The firmware attributes: only a negotiation that succeeds draws an id. */
    method OnOffer(e: Dispatch.Event)
      requires Valid() && Dispatch.CanHappen(Model(), ota.config, e) && e.Offer?
      modifies this, helper, helper.attributes, helper.clientRpc, helper.provision, ota, ota.fw
      ensures Valid() && Model() == Dispatch.Step(old(Model()), ota.config, e)
    {
      hide OtaUpdates.OnAttributes, OtaUpdates.OnChunk, OtaUpdates.OnTimeout, OtaLaws.CanHappen, Next, Dispatch.Starts,
           Topics.Route, Client.SendRequest, Trackers.Answer, Trackers.Sweep, Trackers.Disconnect, Client.Throttled;
      ghost var before := Model();
      Answer(Dispatch.TimePasses(e.at));
      var starts := WillStart(e.a);
      var id := 0;
      if starts {
        id := DrawSessionId();
      } else {
        IdNotNeeded(before.ota, ota.config, e, id, Next(before.helper.nextRequestId));
      }
      Negotiate(e, id);
    }

    /** A message: the topic decides which handler gets it. */
    method OnMessage(e: Dispatch.Event)
      requires Valid() && Dispatch.CanHappen(Model(), ota.config, e) && e.Message?
      modifies helper, helper.attributes, helper.clientRpc, helper.provision, ota, ota.fw
      ensures Valid() && Model() == Dispatch.Step(old(Model()), ota.config, e)
    {
      hide Topics.Route, OtaUpdates.OnChunk, Client.Step, Client.CanHappen, OtaLaws.CanHappen;
      match Topics.Route(e.topic)
      case AttributesResponse(id) =>
        Answer(Client.Data(e.at, Client.Attributes, e.json, id, e.parsed, e.unsubscribeOk));
      case ClientRpcResponse(id) =>
        Answer(Client.Data(e.at, Client.ClientRpc, e.json, id, e.parsed, e.unsubscribeOk));
      case ProvisionResponse =>
        Answer(Client.Data(e.at, Client.Provision, e.json, 0, e.parsed, e.unsubscribeOk));
      case FwResponse(id, chunk) =>
        Answer(Dispatch.TimePasses(e.at));
        TakeChunk(e, id, chunk);
      case _ =>
        Answer(Dispatch.TimePasses(e.at));
    }

    /** What concerns the trackers alone. */
    method Act(c: Client.Event)
      requires Valid() && Client.CanHappen(Model().helper, c) && (c.Send? || c.DrawId? || c.Connected?)
      modifies helper, helper.attributes, helper.clientRpc, helper.provision
      ensures Valid() && Model() == old(Model()).(helper := Client.Step(old(Model()).helper, c))
    {
      hide Client.SendRequest;
      if c.Send? {
        var _ := helper.Request(c);
      } else if c.Connected? {
        helper.OnConnected(c);
      } else {
        helper.OnData(Dispatch.TimePasses(c.at));
        var _ := helper.GetRequestId();
      }
    }

    method OnAct(e: Dispatch.Event)
      requires Valid() && Dispatch.CanHappen(Model(), ota.config, e) && e.Act?
      modifies helper, helper.attributes, helper.clientRpc, helper.provision, ota, ota.fw
      ensures Valid() && Model() == Dispatch.Step(old(Model()), ota.config, e)
    {
      hide Client.Step, Client.CanHappen, OtaUpdates.Step, OtaLaws.CanHappen;
      if e.e.CheckTimeout? {
        OnCheckTimeout(e);
      } else if e.e.Disconnected? {
        OnDisconnected(e);
      } else {
        Act(e.e);
      }
    }

    method OnSubscribe(e: Dispatch.Event)
      requires Valid() && Dispatch.CanHappen(Model(), ota.config, e) && (e.Subscribe? || e.Unsubscribe?)
      modifies helper, helper.attributes, helper.clientRpc, helper.provision, ota, ota.fw
      ensures Valid() && Model() == Dispatch.Step(old(Model()), ota.config, e)
    {
      hide Client.Step, Client.CanHappen, OtaUpdates.Step;
      Answer(Dispatch.TimePasses(e.at));
      if e.Subscribe? {
        ota.CreateEntry();
      } else {
        ota.DestroyEntry();
      }
    }

    method Handle(e: Dispatch.Event)
      requires Valid() && Dispatch.CanHappen(Model(), ota.config, e)
      modifies this, helper, helper.attributes, helper.clientRpc, helper.provision, ota, ota.fw
      ensures Valid() && Model() == Dispatch.Step(old(Model()), ota.config, e)
    {
      hide Dispatch.Step, Dispatch.CanHappen;
      if e.Act? {
        OnAct(e);
      } else if e.Offer? {
        OnOffer(e);
      } else if e.Message? {
        OnMessage(e);
      } else {
        OnSubscribe(e);
      }
    }

    /** A whole run. */
    method HandleAll(es: seq<Dispatch.Event>)
      requires Valid() && Dispatch.CanRun(Model(), ota.config, es)
      modifies this, helper, helper.attributes, helper.clientRpc, helper.provision, ota, ota.fw
      ensures Valid() && Model() == Dispatch.Run(old(Model()), ota.config, es)
    {
      hide Dispatch.Step, Dispatch.CanHappen, Dispatch.Run, Dispatch.CanRun;
      ghost var before := Model();
      RunNothing(before, ota.config, es);
      for i := 0 to |es|
        invariant Valid() && Dispatch.CanRun(before, ota.config, es[..i])
        invariant Model() == Dispatch.Run(before, ota.config, es[..i])
      {
        RunNext(before, ota.config, es, i);
        Handle(es[i]);
      }
      assert es[..|es|] == es;
    }
  }

  lemma RunNothing(s: Dispatch.State, config: OtaUpdates.Config, es: seq<Dispatch.Event>)
    requires s.helper.nextRequestId < UINT16
    ensures Dispatch.CanRun(s, config, es[..0]) && Dispatch.Run(s, config, es[..0]) == s
  {}

  /** The next event of a run can happen, and takes the run one event further. */
  lemma {:induction false} RunNext(s: Dispatch.State, config: OtaUpdates.Config, es: seq<Dispatch.Event>, n: nat)
    requires s.helper.nextRequestId < UINT16 && Dispatch.CanRun(s, config, es) && n < |es|
    ensures Dispatch.CanRun(s, config, es[..n]) && Dispatch.CanHappen(Dispatch.Run(s, config, es[..n]), config, es[n])
    ensures Dispatch.CanRun(s, config, es[..n + 1])
    ensures Dispatch.Run(s, config, es[..n + 1]) == Dispatch.Step(Dispatch.Run(s, config, es[..n]), config, es[n])
    decreases |es|
  {
    hide Dispatch.Step, Dispatch.CanHappen;
    var init := es[..|es| - 1];
    if n < |es| - 1 {
      assert init[..n] == es[..n] && init[..n + 1] == es[..n + 1];
      RunNext(s, config, init, n);
    } else {
      assert es[..n + 1] == es;
    }
  }

  /** A negotiation that does not succeed leaves the id alone. */
  lemma IdNotNeeded(o: OtaUpdates.Ota, config: OtaUpdates.Config, e: Dispatch.Event, id: nat, id': nat)
    requires e.Offer? && !Dispatch.Starts(o, config, e.a)
    ensures OtaUpdates.OnAttributes(o, config, e.a, id, e.at, e.publishOk) ==
            OtaUpdates.OnAttributes(o, config, e.a, id', e.at, e.publishOk)
  {
    hide OtaUpdates.IsCrc32;
  }
}
