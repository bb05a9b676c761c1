/**
 * The client helper: three trackers that share the request id generator, the sweep throttle and the connection.
 * Step is one event; Helper does the same in place.
 */
module Client {
  import opened Basics
  import opened RequestIds
  import opened Trackers

  datatype Which = Attributes | ClientRpc | Provision

  /**
   * now and lastTick (the last timeout event, or the connect) belong to the history; issued counts the ids drawn.
   * Times are the seconds time(NULL) returns.
   */
  datatype State = State(
    attributes: Tracker,
    clientRpc: Tracker,
    provision: Tracker,
    connected: bool,
    nextRequestId: nat,
    lastCheck: nat,
    issued: nat,
    now: nat,
    lastTick: nat)
  {
    function Get(w: Which): Tracker {
      match w
      case Attributes => attributes
      case ClientRpc => clientRpc
      case Provision => provision
    }

    function Put(w: Which, t: Tracker): State {
      match w
      case Attributes => this.(attributes := t)
      case ClientRpc => this.(clientRpc := t)
      case Provision => this.(provision := t)
    }

    function All(f: Tracker -> Tracker): State {
      this.(attributes := f(attributes), clientRpc := f(clientRpc), provision := f(provision))
    }
  }

  function Init(now: nat): State {
    State(Fresh(ById), Fresh(ById), Fresh(Fifo), false, 0, now, 0, now, now)
  }

  /**
   * The outcomes of subscribing, publishing and unsubscribing belong to the events. json: the answer is a JSON object
   * at all; parsed: a provisioning answer carries credentials.
   */
  datatype Event =
    | Send(at: nat, which: Which, subscribeOk: bool, publishOk: bool, hasResponse: bool, onTimeout: Handler)
    | DrawId(at: nat)
    | Data(at: nat, which: Which, json: bool, id: nat, parsed: bool, unsubscribeOk: bool)
    | CheckTimeout(at: nat, unsubscribeOk: bool)
    | Connected(at: nat)
    | Disconnected(at: nat)

  /** The answer makes the client call a handler that was never registered, which ends the program. */
  predicate CallsNull(s: State, e: Event) {
    e.Data? && e.json && !CanReport(s.Get(e.which), e.parsed)
  }

  /** The clock does not run backwards, and the program survives the event. */
  predicate CanHappen(s: State, e: Event) {
    && s.now <= e.at
    && !CallsNull(s, e)
    && (e.Connected? ==> !s.connected)
  }

  function Draw(s: State): (r: State)
    requires s.nextRequestId < UINT16
    ensures r.nextRequestId < UINT16
  {
    s.(nextRequestId := Next(s.nextRequestId), issued := s.issued + 1)
  }

  function SendRequest(s: State, e: Event): (r: State)
    requires e.Send? && s.nextRequestId < UINT16
    ensures r.nextRequestId < UINT16
  {
    if !s.connected then s
    else
      var s1 := Draw(s.Put(e.which, SubscribeIfEmpty(s.Get(e.which), e.subscribeOk)));
      if !e.publishOk || !e.hasResponse then s1
      else s1.Put(e.which, Append(s1.Get(e.which), Request(s1.issued, s1.nextRequestId, e.at, e.onTimeout)))
  }

  /** Timeout events are acted on at most every 32 seconds. */
  function Throttled(s: State, at: nat): bool {
    at < s.lastCheck + TIMEOUT + 2
  }

  function Step(s: State, e: Event): (r: State)
    requires s.nextRequestId < UINT16 && CanHappen(s, e)
    ensures r.nextRequestId < UINT16
  {
    var s0 := s.(now := e.at);
    match e
    case Send(_, _, _, _, _, _) => SendRequest(s0, e)
    case DrawId(_) => Draw(s0)
    case Data(_, w, json, id, parsed, unsubscribeOk) =>
      if !json then s0 else s0.Put(w, Answer(s.Get(w), s.connected, id, parsed, unsubscribeOk))
    case CheckTimeout(at, unsubscribeOk) =>
      var s1 := s0.(lastTick := at);
      if Throttled(s, at) then s1
      else s1.(lastCheck := at).All(t => Sweep(t, s.connected, at, unsubscribeOk))
    case Connected(at) => s0.(connected := true, lastTick := at).All((t: Tracker) => t.(subscribed := false))
    case Disconnected(at) => s0.(connected := false).All(t => Disconnect(t, at))
  }

  // ---- The helper in place -------------------------------------------------------------------------

  class Helper {
    const attributes: RequestList
    const clientRpc: RequestList
    const provision: RequestList
    var connected: bool
    var nextRequestId: nat
    var lastCheckTimestamp: nat
    var issued: nat  // how many ids were drawn; not in the source, names each request
    ghost var now: nat
    ghost var lastTick: nat

    ghost predicate Valid()
      reads this
    {
      && attributes != clientRpc && attributes != provision && clientRpc != provision
      && nextRequestId < UINT16
    }

    ghost function Model(): State
      reads this, attributes, clientRpc, provision
    {
      State(attributes.Model(), clientRpc.Model(), provision.Model(), connected, nextRequestId,
            lastCheckTimestamp, issued, now, lastTick)
    }

    constructor (at: nat)
      ensures Valid() && Model() == Init(at)
    {
      attributes := new RequestList(ById);
      clientRpc := new RequestList(ById);
      provision := new RequestList(Fifo);
      connected, nextRequestId, lastCheckTimestamp := false, 0, at;
      issued, now, lastTick := 0, at, at;
    }

    function List(w: Which): RequestList {
      match w
      case Attributes => attributes
      case ClientRpc => clientRpc
      case Provision => provision
    }

    method GetRequestId() returns (id: nat)
      requires Valid()
      modifies this
      ensures Valid() && Model() == Draw(old(Model())) && id == nextRequestId
      ensures old(nextRequestId) == IdAt(old(issued)) ==> id == IdAt(issued)
    {
      NextIdAt(issued);
      nextRequestId := (nextRequestId + 1) % UINT16;
      if nextRequestId <= 0 {
        nextRequestId := 1;
      }
      issued := issued + 1;
      id := nextRequestId;
    }

    method EnsureSubscribed(w: Which, ok: bool)
      requires Valid()
      modifies attributes, clientRpc, provision
      ensures Model() == old(Model()).Put(w, SubscribeIfEmpty(old(Model()).Get(w), ok))
    {
      List(w).EnsureSubscribed(ok);
    }

    method Add(w: Which, r: Trackers.Request)
      requires Valid()
      modifies attributes, clientRpc, provision
      ensures Model() == old(Model()).Put(w, Append(old(Model()).Get(w), r))
    {
      List(w).Add(r);
    }

    method Request(e: Event) returns (ok: bool)
      requires Valid() && e.Send? && CanHappen(Model(), e)
      modifies this, attributes, clientRpc, provision
      ensures Valid() && Model() == Step(old(Model()), e)
      ensures ok == (old(connected) && e.publishOk && e.hasResponse)
    {
      now := e.at;
      if !connected {
        return false;
      }
      EnsureSubscribed(e.which, e.subscribeOk);
      var id := GetRequestId();
      if !e.publishOk {
        return false;
      }
      if !e.hasResponse {
        return false;
      }
      Add(e.which, Trackers.Request(issued, id, e.at, e.onTimeout));
      return true;
    }

    method Deliver(w: Which, id: nat, parsed: bool, unsubscribeOk: bool)
      requires Valid() && CanReport(Model().Get(w), parsed)
      modifies attributes, clientRpc, provision
      ensures Model() == old(Model()).Put(w, Answer(old(Model()).Get(w), connected, id, parsed, unsubscribeOk))
    {
      hide Answer;
      List(w).OnData(connected, id, parsed, unsubscribeOk);
    }

    method OnData(e: Event)
      requires Valid() && e.Data? && CanHappen(Model(), e)
      modifies this, attributes, clientRpc, provision
      ensures Valid() && Model() == Step(old(Model()), e)
    {
      now := e.at;
      if !e.json {
        return;
      }
      hide Answer;
      Deliver(e.which, e.id, e.parsed, e.unsubscribeOk);
    }

    method OnCheckTimeout(e: Event)
      requires Valid() && e.CheckTimeout? && CanHappen(Model(), e)
      modifies this, attributes, clientRpc, provision
      ensures Valid() && Model() == Step(old(Model()), e)
    {
      now, lastTick := e.at, e.at;
      if e.at < lastCheckTimestamp + TIMEOUT + 2 {
        return;
      }
      lastCheckTimestamp := e.at;
      attributes.CheckTimeout(connected, e.at, e.unsubscribeOk);
      clientRpc.CheckTimeout(connected, e.at, e.unsubscribeOk);
      provision.CheckTimeout(connected, e.at, e.unsubscribeOk);
    }

    method OnConnected(e: Event)
      requires Valid() && e.Connected? && CanHappen(Model(), e)
      modifies this, attributes, clientRpc, provision
      ensures Valid() && Model() == Step(old(Model()), e)
    {
      now, lastTick := e.at, e.at;
      connected := true;
      attributes.subscribed, clientRpc.subscribed, provision.subscribed := false, false, false;
    }

    method OnDisconnected(e: Event)
      requires Valid() && e.Disconnected? && CanHappen(Model(), e)
      modifies this, attributes, clientRpc, provision
      ensures Valid() && Model() == Step(old(Model()), e)
    {
      now := e.at;
      connected := false;
      attributes.OnDisconnected(e.at);
      clientRpc.OnDisconnected(e.at);
      provision.OnDisconnected(e.at);
    }
  }
}
