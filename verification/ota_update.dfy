/**
 * One firmware OTA entry: negotiation, chunk by chunk download, verification, finalisation, abort.
 * Step is one event on values; OtaUpdate handles the events in place, driving the firmware writer.
 */
module OtaUpdates {
  import opened Basics
  import opened Sequences
  import opened Numerals
  import opened Crc32
  import opened FwUpdate

  const CHUNK_SIZE: nat := 16 * 1024

  datatype Status = DOWNLOADING | DOWNLOADED | VERIFIED | UPDATING | UPDATED | FAILED

  /** What the device announces and tells the application, in order. */
  datatype Entry = Telemetry(status: Status) | OnUpdated(success: bool)

  /** The current firmware and the size of the update partition. */
  datatype Config = Config(title: string, version: string, partition: nat)

  datatype Attributes = Attributes(title: string, version: string, size: nat, checksum: string, algorithm: string)

  /** otaupdate_state_t with the negotiated size and checksum; requestId 0 means that no download is going on. */
  datatype Session = Session(requestId: nat, chunkId: nat, received: nat, checksum: bv32, timestamp: nat,
                             size: nat, expected: Option<string>)

  const IDLE := Session(0, 0, 0, 0, 0, 0, None)

  /** A request for a chunk; size 0 asks for the whole image. */
  datatype ChunkRequest = ChunkRequest(id: nat, chunk: nat, size: nat)

  /**
   * What is known of a session when it ends with a call of on_ota_updated: leftover and written are what the partition
   * held of earlier sessions, and what it holds in the end.
   */
  datatype Report = Report(success: bool, trace: seq<Status>, bytes: seq<byte>, size: nat, expected: Option<string>,
                           leftover: seq<byte>, writer: Writer, written: seq<byte>)

  /**
   * History. Of the session going on: the writer and the flash it found, the chunks accepted, the statuses published.
   * Of all time: the log, the chunk requests, the sessions reported, and how many sessions were started, replaced by
   * another negotiation and dropped by unsubscribing.
   */
  datatype History = History(
    found: Writer, before: seq<byte>, accepted: seq<seq<byte>>, trace: seq<Status>,
    log: seq<Entry>, requests: seq<ChunkRequest>, reports: seq<Report>, started: nat, replaced: nat, dropped: nat)

  /** The bytes of earlier sessions a session writes behind: a writer that has checked a header opens nothing again. */
  function Leftover(h: History): seq<byte> {
    if h.found.headerChecked then h.before else []
  }

  datatype Ota = Ota(present: bool, session: Session, writer: Writer, flash: Flash, history: History)

  function Init(): Ota {
    Ota(false, IDLE, CLEAN, Flash([], 0), History(CLEAN, [], [], [], [], [], [], 0, 0, 0))
  }

  datatype Event =
    | Subscribe
    | Unsubscribe
    | SharedAttributes(a: Attributes, id: nat, now: nat, publishOk: bool)
    | Chunk(id: nat, chunk: nat, data: seq<byte>, write: WriteEnv, end: EndEnv, now: nat, publishOk: bool)
    | CheckTimeout(stamp: nat)

  // ---- Pieces of the handlers ----------------------------------------------------------------------

  function Announce(o: Ota, status: Status): Ota {
    o.(history := o.history.(log := o.history.log + [Telemetry(status)]))
  }

  /** A status of the session going on. */
  function Publish(o: Ota, status: Status): Ota {
    var o1 := Announce(o, status);
    o1.(history := o1.history.(trace := o1.history.trace + [status]))
  }

  function AbortWriter(o: Ota): Ota {
    if o.session.requestId > 0 && o.session.received > 0 then o.(writer := CLEAN) else o
  }

  /** Reset the session and tell the application. */
  function Finish(o: Ota, success: bool): Ota {
    var h := o.history;
    o.(session := IDLE,
       history := h.(log := h.log + [OnUpdated(success)],
                     reports := h.reports + [Report(success, h.trace, Flatten(h.accepted), o.session.size,
                                                    o.session.expected, Leftover(h), o.writer, o.flash.written)]))
  }

  function Fail(o: Ota): Ota {
    Finish(AbortWriter(Publish(o, FAILED)), false)
  }

  /** Ask for the next chunk; a download smaller than a chunk is asked for as a whole. */
  function RequestChunk(o: Ota, id: nat, now: nat): Ota {
    var s := o.session.(requestId := id, timestamp := now);
    o.(session := s,
       history := o.history.(requests := o.history.requests + [ChunkRequest(id, s.chunkId, Wanted(s.size))]))
  }

  /** How many bytes are asked for at a time. */
  function Wanted(size: nat): nat {
    if size < CHUNK_SIZE then 0 else CHUNK_SIZE
  }

  predicate IsCrc32(algorithm: string) {
    SameText(algorithm, "crc32")
  }

  /** The received checksum with its bytes swapped equals the number the checksum attribute reads as in hexadecimal. */
  predicate Verified(s: Session) {
    AsNumber(SwapBytes(s.checksum)) == (if s.expected.Some? then Scan(s.expected.value, 16) else 0)
  }

  /** The checksum attribute describes these bytes: it reads as their CRC-32 with its four bytes in reverse order. */
  predicate Describes(expected: Option<string>, bytes: seq<byte>) {
    expected.Some? && Reversed(AsNumber(Crc(bytes))) == Scan(expected.value, 16)
  }

  // ---- Handlers ------------------------------------------------------------------------------------

  /** Forget the session without a word; only the history knows that one was going on. */
  function Replace(o: Ota): Ota {
    o.(session := IDLE,
       history := o.history.(replaced := o.history.replaced + if o.session.requestId > 0 then 1 else 0))
  }

  function Start(o: Ota, a: Attributes): Ota {
    o.(session := IDLE.(size := a.size, expected := Some(a.checksum)),
       history := o.history.(found := o.writer, before := o.flash.written, accepted := [], trace := [],
                             started := o.history.started + 1))
  }

  function OnAttributes(o: Ota, config: Config, a: Attributes, id: nat, now: nat, publishOk: bool): Ota {
    if !o.present || a.title != config.title then Announce(o, FAILED)
    else if !IsCrc32(a.algorithm) then Announce(o, FAILED)
    else
      var o1 := Replace(o);
      match Negotiate(config.partition, config.title, config.version, a.title, a.version, a.size)
      case Refused => Announce(o1, FAILED)
      case UpToDate => o1
      case Accepted =>
        var o2 := RequestChunk(Publish(Start(o1, a), DOWNLOADING), id, now);
        if publishOk then o2 else Fail(o2)
  }

  /** uint32_t arithmetic. */
  function Wrap(n: nat): nat {
    n % UINT32
  }

  /** The chunk is the expected one, not empty, and the writer took it. */
  function Accept(o: Ota, data: seq<byte>, w: Written): Ota {
    var s := o.session;
    o.(session := s.(chunkId := Wrap(s.chunkId + 1), received := Wrap(s.received + |data|),
                     checksum := Update(s.checksum, data)),
       writer := w.writer, flash := w.flash,
       history := o.history.(accepted := o.history.accepted + [data]))
  }

  function Complete(o: Ota, end: EndEnv): Ota {
    var o1 := Publish(o, DOWNLOADED);
    if !Verified(o1.session) then Fail(o1)
    else
      var o2 := Publish(Publish(o1, VERIFIED), UPDATING);
      var ends := o2.session.requestId > 0 && o2.session.received > 0;
      var w := if ends then End(o2.writer, o2.flash, end) else Written(o2.writer, o2.flash, true);
      var o3 := o2.(writer := w.writer, flash := w.flash);
      if w.ok then Finish(Publish(o3, UPDATED), true) else Fail(o3)
  }

  function OnChunk(o: Ota, id: nat, chunk: nat, data: seq<byte>, write: WriteEnv, end: EndEnv, now: nat,
                   publishOk: bool): Ota
  {
    if !o.present || o.session.requestId != id then o
    else if chunk != o.session.chunkId || data == [] then Fail(o)
    else
      var w := Write(o.writer, o.flash, data, write);
      if !w.ok then Fail(o.(writer := w.writer, flash := w.flash))
      else
        var o1 := Accept(o, data, w);
        if o1.session.received >= o1.session.size then Complete(o1, end)
        else
          var o2 := RequestChunk(o1, o1.session.requestId, now);
          if publishOk then o2 else Fail(o2)
  }

  function OnTimeout(o: Ota, stamp: nat): Ota {
    if o.present && o.session.requestId > 0 && o.session.timestamp > 0 && o.session.timestamp + TIMEOUT <= stamp
    then Fail(o)
    else o
  }

  function Step(o: Ota, config: Config, e: Event): Ota {
    match e
    case Subscribe => o.(present := true, session := IDLE, writer := CLEAN)
    case Unsubscribe =>
      o.(present := false, session := IDLE,
         history := o.history.(dropped := o.history.dropped + if o.session.requestId > 0 then 1 else 0))
    case SharedAttributes(a, id, now, publishOk) => OnAttributes(o, config, a, id, now, publishOk)
    case Chunk(id, chunk, data, write, end, now, publishOk) => OnChunk(o, id, chunk, data, write, end, now, publishOk)
    case CheckTimeout(stamp) => OnTimeout(o, stamp)
  }

  // ---- The entry in place ----------------------------------------------------------------------------

  class OtaUpdate {
    const config: Config
    const fw: FwWriter
    var present: bool
    var requestId: nat
    var chunkId: nat
    var received: nat
    var checksum: bv32
    var timestamp: nat
    var size: nat
    var expected: Option<string>
    ghost var history: History

    ghost function TheSession(): Session
      reads this
    {
      Session(requestId, chunkId, received, checksum, timestamp, size, expected)
    }

    ghost function Model(): Ota
      reads this, fw
    {
      Ota(present, TheSession(), fw.Model(), fw.flash, history)
    }

    constructor (config: Config)
      ensures Model() == Init() && this.config == config
    {
      this.config := config;
      fw := new FwWriter();
      present := false;
      requestId, chunkId, received, checksum, timestamp, size, expected := 0, 0, 0, 0, 0, 0, None;
      history := Init().history;
    }

    method PublishStatus(status: Status)
      modifies this`history
      ensures Model() == Publish(old(Model()), status)
    {
      history := history.(log := history.log + [Telemetry(status)], trace := history.trace + [status]);
    }

    method AnnounceFailure()
      modifies this`history
      ensures Model() == Announce(old(Model()), FAILED)
    {
      history := history.(log := history.log + [Telemetry(FAILED)]);
    }

    method Reset()
      modifies this`requestId, this`chunkId, this`received, this`checksum, this`timestamp, this`size, this`expected
      ensures TheSession() == IDLE
    {
      size := 0;
      expected := None;
      requestId := 0;
      chunkId := 0;
      received := 0;
      checksum := 0;
      timestamp := 0;
    }

    method ResetAndReport(success: bool)
      modifies this
      ensures Model() == Finish(old(Model()), success)
    {
      history := history.(log := history.log + [OnUpdated(success)],
                          reports := history.reports + [Report(success, history.trace, Flatten(history.accepted), size,
                                                               expected, Leftover(history), fw.Model(),
                                                               fw.flash.written)]);
      Reset();
    }

    method FailSession()
      modifies this, fw
      ensures Model() == Fail(old(Model()))
    {
      PublishStatus(FAILED);
      if requestId > 0 && received > 0 {
        fw.Abort();
      }
      ResetAndReport(false);
    }

    method SendChunkRequest(id: nat, now: nat)
      modifies this
      ensures Model() == RequestChunk(old(Model()), id, now)
    {
      var wanted := CHUNK_SIZE;
      if size < CHUNK_SIZE {
        wanted := 0;
      }
      requestId := id;
      timestamp := now;
      history := history.(requests := history.requests + [ChunkRequest(id, chunkId, wanted)]);
    }

    method StartSession(a: Attributes)
      requires TheSession() == IDLE
      modifies this
      ensures Model() == Start(old(Model()), a)
    {
      size := a.size;
      expected := Some(a.checksum);
      history := history.(found := fw.Model(), before := fw.flash.written, accepted := [], trace := [],
                          started := history.started + 1);
    }

    method ForgetSession()
      modifies this
      ensures Model() == Replace(old(Model()))
    {
      history := history.(replaced := history.replaced + if requestId > 0 then 1 else 0);
      Reset();
    }

    /** tbcmh_otaupdate_subscribe: a new entry, whose creation initialises the writer. */
    method CreateEntry()
      modifies this, fw
      ensures Model() == Step(old(Model()), config, Subscribe)
    {
      fw.Reset();
      Reset();
      present := true;
    }

    /** tbcmh_otaupdate_unsubscribe: the entry is destroyed; the writer is left as it is. */
    method DestroyEntry()
      modifies this
      ensures Model() == Step(old(Model()), config, Unsubscribe)
    {
      history := history.(dropped := history.dropped + if requestId > 0 then 1 else 0);
      Reset();
      present := false;
    }

    method HandleAttributes(a: Attributes, id: nat, now: nat, publishOk: bool)
      modifies this, fw
      ensures Model() == OnAttributes(old(Model()), config, a, id, now, publishOk)
    {
      if !present || a.title != config.title {
        AnnounceFailure();
        return;
      }
      if !IsCrc32(a.algorithm) {
        AnnounceFailure();
        return;
      }
      ForgetSession();
      var decision := Negotiate(config.partition, config.title, config.version, a.title, a.version, a.size);
      if decision == Accepted {
        StartSession(a);
        PublishStatus(DOWNLOADING);
        SendChunkRequest(id, now);
        if !publishOk {
          FailSession();
        }
      } else if decision == Refused {
        AnnounceFailure();
      }
    }

    method DoWrite(chunk: nat, data: seq<byte>, write: WriteEnv) returns (ok: bool)
      modifies this, fw
      ensures var o := old(Model());
              var w := Write(o.writer, o.flash, data, write);
              if chunk != o.session.chunkId || data == [] then !ok && Model() == o
              else if !w.ok then !ok && Model() == o.(writer := w.writer, flash := w.flash)
              else ok && Model() == Accept(o, data, w)
    {
      if chunk != chunkId {
        return false;
      }
      if |data| == 0 {
        return false;
      }
      ok := fw.WriteData(data, write);
      if ok {
        chunkId := Wrap(chunkId + 1);
        received := Wrap(received + |data|);
        checksum := Update(checksum, data);
        history := history.(accepted := history.accepted + [data]);
      }
    }

    method DoComplete(end: EndEnv)
      modifies this, fw
      ensures Model() == Complete(old(Model()), end)
    {
      PublishStatus(DOWNLOADED);
      var verified := ChecksumVerification();
      if verified {
        PublishStatus(VERIFIED);
        PublishStatus(UPDATING);
        var ok := true;
        if requestId > 0 && received > 0 {
          ok := fw.Finish(end);
        }
        if ok {
          PublishStatus(UPDATED);
          ResetAndReport(true);
        } else {
          FailSession();
        }
      } else {
        FailSession();
      }
    }

    /** The number the attribute reads as is compared with the checksum, its bytes in reverse order. */
    method ChecksumVerification() returns (ok: bool)
      ensures ok == Verified(TheSession())
      ensures expected.Some? ==>
                var n := AsNumber(checksum);
                ok <==>
                Scan(expected.value, 16) ==
                n % 256 * 0x1000000 + n / 0x100 % 256 * 0x10000 + n / 0x10000 % 256 * 0x100 + n / 0x1000000
    {
      hide AsNumber, SwapBytes, Scan;
      SwapBytesValue(checksum);
      var value: nat := 0;
      if expected.Some? {
        value := Scan(expected.value, 16);
      }
      ok := AsNumber(SwapBytes(checksum)) == value;
    }

    method HandleChunk(id: nat, chunk: nat, data: seq<byte>, write: WriteEnv, end: EndEnv, now: nat, publishOk: bool)
      modifies this, fw
      ensures Model() == OnChunk(old(Model()), id, chunk, data, write, end, now, publishOk)
    {
      if !present || requestId != id {
        return;
      }
      var ok := DoWrite(chunk, data, write);
      if ok {
        if received >= size {
          DoComplete(end);
        } else {
          SendChunkRequest(requestId, now);
          if !publishOk {
            FailSession();
          }
        }
      } else {
        FailSession();
      }
    }

    method HandleTimeout(stamp: nat)
      modifies this, fw
      ensures Model() == OnTimeout(old(Model()), stamp)
    {
      if present && requestId > 0 && timestamp > 0 && timestamp + TIMEOUT <= stamp {
        FailSession();
      }
    }
  }
}
