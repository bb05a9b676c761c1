/**
 * A whole firmware download, from the attributes to the switch of the boot partition: the server answers each
 * chunk request with a slice of the image, MQTT cuts each answer into fragments, the buffer puts them together,
 * the router reads the numbers back from the topic, and the OTA entry writes the image to flash.
 */
module Download {
  import opened Basics
  import opened Sequences
  import opened Numerals
  import Topics
  import PayloadBuffers
  import PayloadStreams
  import opened Crc32
  import opened FwUpdate
  import opened OtaUpdates
  import opened OtaLaws

  /** What the device answers while one message is handled. */
  datatype World = World(write: WriteEnv, end: EndEnv, now: nat, publishOk: bool)

  /** ESP-IDF and the connection do their part. */
  predicate IsFavourable(w: World) {
    ValidEnv(w.write) && w.write.begin.Some? && w.write.writeOk && w.end.endOk && w.end.setBootOk && w.publishOk
  }

  /** A delivered message is routed by its topic; only firmware answers concern the OTA entry. */
  function Handle(o: Ota, config: Config, m: PayloadBuffers.Message, w: World): Ota {
    match Topics.Route(m.topic)
    case FwResponse(id, chunk) => Step(o, config, Chunk(id, chunk, m.payload, w.write, w.end, w.now, w.publishOk))
    case _ => o
  }

  function HandleAll(o: Ota, config: Config, messages: seq<PayloadBuffers.Message>, worlds: seq<World>): Ota
    requires |messages| <= |worlds|
  {
    if messages == [] then o
    else
      var n := |messages| - 1;
      Handle(HandleAll(o, config, messages[..n], worlds), config, messages[n], worlds[n])
  }

  function ChunkCount(image: seq<byte>): nat {
    (|image| + 16383) / 16384
  }

  /** The image up to the start of chunk k. */
  function Before(image: seq<byte>, k: nat): seq<byte> {
    if k * 16384 <= |image| then image[..k * 16384] else image
  }

  function Slice(image: seq<byte>, k: nat): seq<byte>
    requires k < ChunkCount(image)
  {
    if (k + 1) * 16384 <= |image| then image[k * 16384..(k + 1) * 16384] else image[k * 16384..]
  }

  lemma SliceExtends(image: seq<byte>, k: nat)
    requires k < ChunkCount(image)
    ensures Before(image, k) + Slice(image, k) == Before(image, k + 1)
    ensures 0 < |Slice(image, k)| <= 16384
    ensures k + 1 < ChunkCount(image) <==> |Before(image, k + 1)| < |image|
    ensures k + 1 == ChunkCount(image) ==> Before(image, k + 1) == image
    ensures k == 0 ==> Before(image, k) == []
    ensures k > 0 <==> |Before(image, k)| > 0
  {
    if (k + 1) * 16384 > |image| { assert image[..k * 16384] + image[k * 16384..] == image; }
  }

  /** The server's answers: answer k carries slice k under the topic of the request, in any fragmentation. */
  predicate Answers(ts: seq<PayloadStreams.Transfer>, image: seq<byte>, id: nat) {
    && |ts| == ChunkCount(image)
    && forall k :: 0 <= k < |ts| ==>
         && PayloadStreams.ValidTransfer(ts[k])
         && ts[k].topic == Topics.FwResponseTopic(id, k)
         && Flatten(ts[k].fragments) == Slice(image, k)
         && ts[k].total == |Slice(image, k)|
  }

  /** The requests for chunks 0 to n - 1. */
  function Requests(id: nat, image: seq<byte>, n: nat): seq<ChunkRequest> {
    if n == 0 then []
    else Requests(id, image, n - 1) + [ChunkRequest(id, n - 1, if |image| < 16384 then 0 else 16384)]
  }

  /** k chunks are in, and the request for chunk k is the last one sent. */
  predicate Progress(o: Ota, config: Config, base: Ota, image: seq<byte>, checksum: string, id: nat, k: nat) {
    && SessionInv(o, config) && o.session.requestId == id > 0
    && !o.history.found.headerChecked && |o.history.accepted| == k && Bytes(o) == Before(image, k)
    && o.session.size == |image| && o.session.expected == Some(checksum)
    && o.history.requests == base.history.requests + Requests(id, image, k + 1)
    && o.history.log == base.history.log + [Telemetry(DOWNLOADING)]
    && o.history.reports == base.history.reports
    && o.flash.boots == base.flash.boots
  }

  /** The firmware is installed and everything is as clean as before. */
  predicate Installed(o: Ota, base: Ota, image: seq<byte>, id: nat) {
    && o.session == IDLE && o.writer == CLEAN
    && o.flash == Flash(image, base.flash.boots + 1)
    && o.history.requests == base.history.requests + Requests(id, image, ChunkCount(image))
    && o.history.log == base.history.log
         + [Telemetry(DOWNLOADING), Telemetry(DOWNLOADED), Telemetry(VERIFIED), Telemetry(UPDATING), Telemetry(UPDATED),
            OnUpdated(true)]
  }

  predicate CanDownload(o: Ota, config: Config, a: Attributes, image: seq<byte>, id: nat) {
    && ValidConfig(config) && o.present && o.session == IDLE && o.writer == CLEAN && 0 < id < UINT32
    && a.title == config.title && a.version != config.version && IsCrc32(a.algorithm)
    && a.size == |image| && 288 <= |image| <= config.partition
    && Describes(Some(a.checksum), image)
  }

  lemma Negotiated(o: Ota, config: Config, a: Attributes, image: seq<byte>, id: nat, now: nat)
    requires CanDownload(o, config, a, image, id)
    ensures Progress(Step(o, config, SharedAttributes(a, id, now, true)), config, o, image, a.checksum, id, 0)
  {
    hide IsCrc32, Update, Describes;
    UpdateNothing(0);
    assert Flatten<byte>([]) == [] == Before(image, 0);
    assert Requests(id, image, 0) == [];
  }

  lemma WriteSucceeds(o: Ota, config: Config, data: seq<byte>, w: World)
    requires SessionInv(o, config) && IsActive(o) && !o.history.found.headerChecked && IsFavourable(w) && data != []
    requires o.session.received == 0 ==> AcceptableImage(data, w.write)
    ensures Write(o.writer, o.flash, data, w.write).ok
  {}

  /** The state after the writer took slice k. */
  lemma Accepted(o: Ota, config: Config, base: Ota, image: seq<byte>, checksum: string, id: nat, k: nat, w: World)
    requires Progress(o, config, base, image, checksum, id, k) && k < ChunkCount(image) && IsFavourable(w)
    requires ValidConfig(config) && (k == 0 ==> AcceptableImage(Slice(image, 0), w.write))
    ensures Write(o.writer, o.flash, Slice(image, k), w.write).ok
    ensures var o1 := Accept(o, Slice(image, k), Write(o.writer, o.flash, Slice(image, k), w.write));
            && Bytes(o1) == Before(image, k + 1)
            && o1.session.chunkId == |o1.history.accepted| == k + 1 <= o1.session.received
            && o1.session.received == |Bytes(o1)| && o1.session.checksum == Crc(Bytes(o1))
            && InStep(o1) && WriterInv(o1.writer) && o1.flash.boots == o.flash.boots
  {
    hide Write, Update, Crc, Flatten, InStep, Slice, Before, Requests;
    SliceExtends(image, k);
    WriteSucceeds(o, config, Slice(image, k), w);
    AcceptCounts(o, config, Slice(image, k), w.write);
  }

  lemma NextChunk(o: Ota, config: Config, base: Ota, image: seq<byte>, checksum: string, id: nat, k: nat, w: World)
    requires Progress(o, config, base, image, checksum, id, k) && k + 1 < ChunkCount(image) && IsFavourable(w)
    requires ValidConfig(config) && (k == 0 ==> AcceptableImage(Slice(image, 0), w.write))
    ensures Progress(OnChunk(o, id, k, Slice(image, k), w.write, w.end, w.now, w.publishOk),
                     config, base, image, checksum, id, k + 1)
  {
    hide Write, Update, Crc, Flatten, InStep, Slice, Before, Complete, Wrap;
    SliceExtends(image, k);
    Accepted(o, config, base, image, checksum, id, k, w);
    var o1 := Accept(o, Slice(image, k), Write(o.writer, o.flash, Slice(image, k), w.write));
    var o2 := RequestChunk(o1, id, w.now);
    InStepIgnores(o1, o2);
    assert o2.history.requests == base.history.requests + Requests(id, image, k + 2);
  }

  lemma LastChunk(o: Ota, config: Config, base: Ota, image: seq<byte>, checksum: string, id: nat, k: nat, w: World)
    requires Progress(o, config, base, image, checksum, id, k) && k + 1 == ChunkCount(image) && IsFavourable(w)
    requires ValidConfig(config) && (k == 0 ==> AcceptableImage(Slice(image, 0), w.write))
    requires Describes(Some(checksum), image)
    ensures Installed(OnChunk(o, id, k, Slice(image, k), w.write, w.end, w.now, w.publishOk), base, image, id)
  {
    hide Write, Update, Crc, Flatten, Slice, Before, Wrap, SwapBytes, Scan, AsNumber, Requests, Describes, Verified;
    SliceExtends(image, k);
    Accepted(o, config, base, image, checksum, id, k, w);
    var o1 := Accept(o, Slice(image, k), Write(o.writer, o.flash, Slice(image, k), w.write));
    assert o1.flash.written == image;
    VerifiedMeans(o1.session, image);
  }

  /** What the buffer delivers from the server's answers: one message per slice, in order. */
  lemma {:induction false} AnswersDeliver(ts: seq<PayloadStreams.Transfer>, image: seq<byte>, id: nat, n: nat)
    requires Answers(ts, image, id) && n <= |ts|
    ensures |PayloadStreams.Expected(ts[..n])| == n
    ensures forall k :: 0 <= k < n ==> IsSlice(PayloadStreams.Expected(ts[..n])[k], image, id, k)
  {
    hide Slice, Flatten, Topics.FwResponseTopic;
    if n > 0 {
      assert ts[..n][..n - 1] == ts[..n - 1];
      AnswersDeliver(ts, image, id, n - 1);
      SliceExtends(image, n - 1);
    }
  }

  /** messages are the slices of the image under the topics of their requests, and the device does its part for each. */
  predicate InOrder(messages: seq<PayloadBuffers.Message>, worlds: seq<World>, image: seq<byte>, id: nat) {
    && |messages| == ChunkCount(image) <= |worlds|
    && (forall k :: 0 <= k < |messages| ==> IsSlice(messages[k], image, id, k) && IsFavourable(worlds[k]))
    && (|messages| > 0 ==> AcceptableImage(Slice(image, 0), worlds[0].write))
  }

  predicate IsSlice(m: PayloadBuffers.Message, image: seq<byte>, id: nat, k: nat) {
    k < ChunkCount(image) && m == PayloadBuffers.Message(Topics.FwResponseTopic(id, k), Slice(image, k))
  }

  lemma SliceRouted(o: Ota, config: Config, m: PayloadBuffers.Message, image: seq<byte>, id: nat, k: nat, w: World)
    requires IsSlice(m, image, id, k) && id < UINT32 && |image| < UINT32
    ensures Handle(o, config, m, w) == OnChunk(o, id, k, Slice(image, k), w.write, w.end, w.now, w.publishOk)
  {
    hide OnChunk, Slice, Topics.Route, Topics.FwResponseTopic;
    Topics.RouteFwResponse(id, k);
  }

  /** The slices handled one after the other. */
  lemma {:induction false} SlicesHandled(
    o: Ota, config: Config, base: Ota, image: seq<byte>, checksum: string, id: nat,
    messages: seq<PayloadBuffers.Message>, worlds: seq<World>, n: nat)
    requires Progress(o, config, base, image, checksum, id, 0) && ValidConfig(config) && id < UINT32
    requires Describes(Some(checksum), image) && 0 < |image| <= config.partition
    requires InOrder(messages, worlds, image, id) && n <= |messages|
    ensures var after := HandleAll(o, config, messages[..n], worlds);
            if n < ChunkCount(image) then Progress(after, config, base, image, checksum, id, n)
            else Installed(after, base, image, id)
    decreases n
  {
    hide Slice, Progress, Installed, Describes, AcceptableImage, IsFavourable, OnChunk, ChunkCount, Handle, IsSlice;
    CountPositive(image);
    if n > 0 {
      var k := n - 1;
      assert messages[..n][..k] == messages[..k] && messages[..n][k] == messages[k];
      SlicesHandled(o, config, base, image, checksum, id, messages, worlds, k);
      var before := HandleAll(o, config, messages[..k], worlds);
      SliceRouted(before, config, messages[k], image, id, k, worlds[k]);
      if n < ChunkCount(image) {
        NextChunk(before, config, base, image, checksum, id, k, worlds[k]);
      } else {
        LastChunk(before, config, base, image, checksum, id, k, worlds[k]);
      }
    } else {
      assert messages[..0] == [];
    }
  }

  lemma CountPositive(image: seq<byte>)
    requires 0 < |image|
    ensures ChunkCount(image) > 0
  {}

  /** Before message n is handled, exactly the requests for chunks 0 to n have been sent. */
  predicate RequestedFirst(o: Ota, config: Config, messages: seq<PayloadBuffers.Message>, worlds: seq<World>,
                           base: Ota, image: seq<byte>, id: nat)
    requires |messages| <= |worlds|
  {
    forall n :: 0 <= n < |messages| ==>
      HandleAll(o, config, messages[..n], worlds).history.requests == base.history.requests + Requests(id, image, n + 1)
  }

  lemma AllHandled(o: Ota, config: Config, base: Ota, image: seq<byte>, checksum: string, id: nat,
                   messages: seq<PayloadBuffers.Message>, worlds: seq<World>)
    requires Progress(o, config, base, image, checksum, id, 0) && ValidConfig(config) && id < UINT32
    requires Describes(Some(checksum), image) && 0 < |image| <= config.partition
    requires InOrder(messages, worlds, image, id)
    ensures Installed(HandleAll(o, config, messages, worlds), base, image, id)
    ensures RequestedFirst(o, config, messages, worlds, base, image, id)
  {
    hide Installed, Describes, HandleAll, SessionInv;
    SlicesHandled(o, config, base, image, checksum, id, messages, worlds, |messages|);
    assert messages[..|messages|] == messages;
    forall n | 0 <= n < |messages|
      ensures Progress(HandleAll(o, config, messages[..n], worlds), config, base, image, checksum, id, n)
    {
      SlicesHandled(o, config, base, image, checksum, id, messages, worlds, n);
    }
  }

  /**
   * For every image that fits the partition and is at least a header long, a server that answers chunk k with slice k,
   * any fragmentation of its answers, any earlier content of the receive buffer, an acceptable version, the right
   * checksum and a device that does its part: flash holds exactly the image, exactly ceil(size / 16384) chunks
   * were requested, each before it was answered, the statuses are published in order, and success is reported once.
   */
  lemma EndToEnd(o: Ota, config: Config, a: Attributes, image: seq<byte>, id: nat, now: nat,
                 b: PayloadBuffers.Buffer, ts: seq<PayloadStreams.Transfer>, garbage: seq<seq<byte>>,
                 worlds: seq<World>)
    requires CanDownload(o, config, a, image, id)
    requires PayloadBuffers.Valid(b) && Answers(ts, image, id)
    requires PayloadStreams.GarbageFor(PayloadStreams.StreamEvents(ts), garbage)
    requires |ts| <= |worlds| && forall k :: 0 <= k < |ts| ==> IsFavourable(worlds[k])
    requires 0 < |ts| ==> AcceptableImage(Slice(image, 0), worlds[0].write)
    ensures PayloadStreams.CanRun(b, PayloadStreams.StreamEvents(ts), garbage)
    ensures var messages := PayloadStreams.Run(b, PayloadStreams.StreamEvents(ts), garbage).1;
            var started := Step(o, config, SharedAttributes(a, id, now, true));
            && |messages| == ChunkCount(image)
            && Installed(HandleAll(started, config, messages, worlds), o, image, id)
            && RequestedFirst(started, config, messages, worlds, o, image, id)
  {
    hide Slice, Installed, Describes, AcceptableImage, IsFavourable, RequestedFirst, Step, ChunkCount, HandleAll,
         Progress, PayloadStreams.Expected, PayloadStreams.Run, PayloadStreams.CanRun, PayloadStreams.ValidTransfer,
         PayloadStreams.StreamEvents, PayloadStreams.GarbageFor, Topics.FwResponseTopic;
    PayloadStreams.StreamDelivery(b, ts, garbage);
    AnswersDeliver(ts, image, id, |ts|);
    assert ts[..|ts|] == ts;
    Negotiated(o, config, a, image, id, now);
    CountPositive(image);
    AllHandled(Step(o, config, SharedAttributes(a, id, now, true)), config, o, image, a.checksum, id,
               PayloadStreams.Expected(ts), worlds);
  }

  // ---- The device in place -----------------------------------------------------------------------------

  lemma {:induction false} CanRunPrefix(b: PayloadBuffers.Buffer, es: seq<PayloadBuffers.Event>,
                                        garbage: seq<seq<byte>>, n: nat)
    requires PayloadStreams.CanRun(b, es, garbage) && n <= |es|
    ensures PayloadStreams.CanRun(b, es[..n], garbage[..n])
    decreases |es|
  {
    hide PayloadBuffers.CanStep, PayloadStreams.Run;
    if n < |es| {
      var m := |es| - 1;
      CanRunPrefix(b, es[..m], garbage[..m], n);
      assert es[..m][..n] == es[..n] && garbage[..m][..n] == garbage[..n];
    } else {
      assert es[..n] == es && garbage[..n] == garbage;
    }
  }

  /** The events can be taken one after the other, whatever memory the allocator returns. */
  ghost predicate AlwaysCanRun(b: PayloadBuffers.Buffer, es: seq<PayloadBuffers.Event>) {
    forall garbage :: PayloadStreams.GarbageFor(es, garbage) ==> PayloadStreams.CanRun(b, es, garbage)
  }

  function AnyGarbage(es: seq<PayloadBuffers.Event>): (r: seq<seq<byte>>)
    ensures PayloadStreams.GarbageFor(es, r)
  {
    seq(|es|, k requires 0 <= k < |es| => seq(es[k].total, _ => 0))
  }

  /** After n events with some garbage, the next one can be taken. */
  lemma NextCanStep(b: PayloadBuffers.Buffer, es: seq<PayloadBuffers.Event>, garbage: seq<seq<byte>>, n: nat,
                    g: seq<byte>)
    requires AlwaysCanRun(b, es) && n < |es| && PayloadStreams.GarbageFor(es[..n], garbage) && |g| == es[n].total
    ensures PayloadStreams.CanRun(b, es[..n], garbage)
    ensures PayloadBuffers.CanStep(PayloadStreams.Run(b, es[..n], garbage).0, es[n], g)
  {
    hide PayloadBuffers.CanStep, PayloadStreams.Run, PayloadStreams.CanRun;
    var all := garbage + [g] + AnyGarbage(es)[n + 1..];
    assert PayloadStreams.GarbageFor(es, all);
    CanRunPrefix(b, es, all, n + 1);
    PayloadStreams.RunLast(b, es[..n + 1], all[..n + 1]);
    assert es[..n + 1][..n] == es[..n] && es[..n + 1][n] == es[n];
    assert all[..n + 1][..n] == garbage && all[..n + 1][n] == g;
  }

  lemma GarbageGrows(es: seq<PayloadBuffers.Event>, garbage: seq<seq<byte>>, n: nat, g: seq<byte>)
    requires n < |es| && PayloadStreams.GarbageFor(es[..n], garbage) && |g| == es[n].total
    ensures PayloadStreams.GarbageFor(es[..n + 1], garbage + [g])
  {
    forall k | 0 <= k < n + 1 ensures |(garbage + [g])[k]| == es[..n + 1][k].total {
      if k < n { assert es[..n][k] == es[..n + 1][k]; }
    }
  }

  lemma HandleOneMore(o: Ota, config: Config, messages: seq<PayloadBuffers.Message>, m: PayloadBuffers.Message,
                      worlds: seq<World>)
    requires |messages| < |worlds|
    ensures HandleAll(o, config, messages + [m], worlds) ==
            Handle(HandleAll(o, config, messages, worlds), config, m, worlds[|messages|])
  {
    hide Handle;
    assert (messages + [m])[..|messages|] == messages;
  }

  class Device {
    const buffer: PayloadBuffers.PayloadBuffer
    const ota: OtaUpdate

    constructor (config: Config)
      ensures buffer.Contents() == PayloadBuffers.EMPTY && ota.Model() == Init() && ota.config == config
    {
      buffer := new PayloadBuffers.PayloadBuffer();
      ota := new OtaUpdate(config);
    }

    /** A delivered message goes to the handler its topic names. */
    method OnMessage(m: PayloadBuffers.Message, w: World)
      modifies ota, ota.fw
      ensures ota.Model() == Handle(old(ota.Model()), ota.config, m, w)
    {
      hide Topics.Route;
      var incoming := Topics.Route(m.topic);
      if incoming.FwResponse? {
        ota.HandleChunk(incoming.id, incoming.chunk, m.payload, w.write, w.end, w.now, w.publishOk);
      }
    }

    /** The data events of a connection, one after the other. */
    method ReceiveAll(es: seq<PayloadBuffers.Event>, worlds: seq<World>)
      returns (ghost garbage: seq<seq<byte>>, ghost messages: seq<PayloadBuffers.Message>)
      requires AlwaysCanRun(buffer.Contents(), es) && |es| <= |worlds|
      modifies buffer, buffer.payload, ota, ota.fw
      ensures PayloadStreams.GarbageFor(es, garbage) && PayloadStreams.CanRun(old(buffer.Contents()), es, garbage)
      ensures (buffer.Contents(), messages) == PayloadStreams.Run(old(buffer.Contents()), es, garbage)
      ensures |messages| <= |worlds| && ota.Model() == HandleAll(old(ota.Model()), ota.config, messages, worlds)
    {
      hide PayloadBuffers.CanStep, PayloadBuffers.Step, PayloadStreams.Run, PayloadStreams.CanRun, Handle, HandleAll,
           PayloadStreams.GarbageFor, AlwaysCanRun;
      ghost var b, o := buffer.Contents(), ota.Model();
      garbage, messages := [], [];
      var handled, i := 0, 0;
      Nothing(b, o, ota.config, es, worlds);
      while i < |es|
        invariant i <= |es| && handled == |messages| <= i == |garbage|
        invariant PayloadStreams.GarbageFor(es[..i], garbage) && PayloadStreams.CanRun(b, es[..i], garbage)
        invariant (buffer.Contents(), messages) == PayloadStreams.Run(b, es[..i], garbage)
        invariant ota.Model() == HandleAll(o, ota.config, messages, worlds)
        invariant buffer.payload == null || buffer.payload == old(buffer.payload) || fresh(buffer.payload)
      {
        NextFits(b, es, garbage, i);
        ghost var g, before := [], buffer.Contents();
        var delivered;
        delivered, g := buffer.Process(es[i]);
        StepGarbage(before, es[i], g);
        GarbageGrows(es, garbage, i, g);
        PayloadStreams.RunOneMore(b, es[..i], es[i], garbage + [g]);
        assert (garbage + [g])[..i] == garbage && es[..i] + [es[i]] == es[..i + 1];
        garbage := garbage + [g];
        assert delivered.None? ==> messages + PayloadStreams.AsSeq(delivered) == messages;
        if delivered.Some? {
          HandleOneMore(o, ota.config, messages, delivered.value, worlds);
          OnMessage(delivered.value, worlds[handled]);
          messages := messages + [delivered.value];
          handled := handled + 1;
        }
        i := i + 1;
      }
      assert es[..i] == es;
    }

    /**
     * EndToEnd on the device itself: the attributes arrive, then the server's answers in any fragmentation. The
     * messages put together are what the entry handled, each after it was asked for.
     */
    method InstallFirmware(a: Attributes, ghost image: seq<byte>, id: nat, now: nat,
                           ghost ts: seq<PayloadStreams.Transfer>, es: seq<PayloadBuffers.Event>, worlds: seq<World>)
      returns (ghost messages: seq<PayloadBuffers.Message>)
      requires CanDownload(ota.Model(), ota.config, a, image, id) && PayloadBuffers.Valid(buffer.Contents())
      requires Answers(ts, image, id) && es == PayloadStreams.StreamEvents(ts)
      requires |es| <= |worlds| && |ts| <= |worlds| && forall k :: 0 <= k < |ts| ==> IsFavourable(worlds[k])
      requires 0 < |ts| ==> AcceptableImage(Slice(image, 0), worlds[0].write)
      modifies buffer, buffer.payload, ota, ota.fw
      ensures Installed(ota.Model(), old(ota.Model()), image, id)
      ensures var started := Step(old(ota.Model()), ota.config, SharedAttributes(a, id, now, true));
              && |messages| == ChunkCount(image) <= |worlds|
              && ota.Model() == HandleAll(started, ota.config, messages, worlds)
              && RequestedFirst(started, ota.config, messages, worlds, old(ota.Model()), image, id)
    {
      hide CanDownload, Answers, Slice, IsFavourable, AcceptableImage, Installed, OnAttributes,
           PayloadStreams.StreamEvents, PayloadStreams.Run, PayloadStreams.CanRun, PayloadStreams.GarbageFor,
           HandleAll, RequestedFirst;
      ghost var o, b := ota.Model(), buffer.Contents();
      forall garbage | PayloadStreams.GarbageFor(es, garbage) ensures PayloadStreams.CanRun(b, es, garbage) {
        EndToEnd(o, ota.config, a, image, id, now, b, ts, garbage, worlds);
      }
      ota.HandleAttributes(a, id, now, true);
      ghost var garbage;
      garbage, messages := ReceiveAll(es, worlds);
      EndToEnd(o, ota.config, a, image, id, now, b, ts, garbage, worlds);
    }
  }

  lemma Nothing(b: PayloadBuffers.Buffer, o: Ota, config: Config, es: seq<PayloadBuffers.Event>, worlds: seq<World>)
    ensures PayloadStreams.GarbageFor(es[..0], []) && PayloadStreams.CanRun(b, es[..0], [])
    ensures PayloadStreams.Run(b, es[..0], []) == (b, []) && HandleAll(o, config, [], worlds) == o
  {}

  lemma StepGarbage(b: PayloadBuffers.Buffer, e: PayloadBuffers.Event, g: seq<byte>)
    requires PayloadBuffers.CanStep(b, e, g)
    ensures |g| == e.total
  {}

  /** What the buffer demands of the next event. */
  lemma NextFits(b: PayloadBuffers.Buffer, es: seq<PayloadBuffers.Event>, garbage: seq<seq<byte>>, n: nat)
    requires AlwaysCanRun(b, es) && n < |es| && PayloadStreams.GarbageFor(es[..n], garbage)
    ensures PayloadStreams.CanRun(b, es[..n], garbage)
    ensures var before := PayloadStreams.Run(b, es[..n], garbage).0;
            PayloadBuffers.Valid(before) && PayloadBuffers.StaysInside(before, es[n])
  {
    hide PayloadStreams.Run, PayloadStreams.CanRun;
    NextCanStep(b, es, garbage, n, seq(es[n].total, _ => 0));
  }
}
