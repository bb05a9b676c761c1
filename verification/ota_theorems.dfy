/** When exactly a download succeeds, cleans up, ends and reports; and where the code falls short of it. */
module OtaTheorems {
  import opened Basics
  import opened Sequences
  import opened Numerals
  import opened Crc32
  import opened FwUpdate
  import opened FwLaws
  import opened OtaUpdates
  import opened OtaLaws

  /** The event reports the end of a session to the application. */
  predicate Reports(o: Ota, config: Config, e: Event) {
    |Step(o, config, e).history.reports| == |o.history.reports| + 1
  }

  // ---- Success -----------------------------------------------------------------------------------------

  /** The expected chunk arrives, the writer takes it, and with it at least the announced size has been received. */
  predicate IsLastChunk(o: Ota, e: Event) {
    && e.Chunk? && IsActive(o) && e.id == o.session.requestId && e.chunk == o.session.chunkId && e.data != []
    && Write(o.writer, o.flash, e.data, e.write).ok
    && |Bytes(o)| + |e.data| >= o.session.size
  }

  /** ... and the checksum attribute describes exactly the bytes of this session, and ESP-IDF accepts the image. */
  predicate IsFinalSuccess(o: Ota, e: Event) {
    && IsLastChunk(o, e)
    && Describes(o.session.expected, Bytes(o) + e.data)
    && e.end.endOk && e.end.setBootOk
  }

  lemma FailExactly(o: Ota)
    ensures var after := Fail(o);
            && after.flash == o.flash && after.writer == AbortWriter(o).writer
            && |after.history.reports| == |o.history.reports| + 1
            && !after.history.reports[|o.history.reports|].success
  {}

  lemma CompleteExactly(o: Ota, end: EndEnv)
    requires IsActive(o) && o.session.received > 0
    ensures var after, ok := Complete(o, end), Verified(o.session) && end.endOk && end.setBootOk;
            && after.flash == o.flash.(boots := o.flash.boots + if ok then 1 else 0) && after.writer == CLEAN
            && |after.history.reports| == |o.history.reports| + 1
            && after.history.reports[|o.history.reports|].success == ok
  {
    hide Verified, Fail, Flatten;
    var o1 := Publish(o, DOWNLOADED);
    FailExactly(o1);
    var o2 := Publish(Publish(o1, VERIFIED), UPDATING);
    var w := End(o2.writer, o2.flash, end);
    FailExactly(o2.(writer := w.writer, flash := w.flash));
  }

  /**
   * The boot partition is switched, and success is reported, in exactly the steps whose chunk completes at least the
   * announced number of bytes, the byte-swapped CRC-32 of exactly the session's bytes being the announced checksum;
   * the partition then holds these bytes behind what the session found there.
   */
  lemma SuccessExactly(o: Ota, config: Config, e: Event)
    requires ValidConfig(config) && Inv(o, config) && CanHappen(o, e)
    ensures Step(o, config, e).flash.boots == o.flash.boots + (if IsFinalSuccess(o, e) then 1 else 0)
    ensures IsFinalSuccess(o, e) <==>
            Reports(o, config, e) && Step(o, config, e).history.reports[|o.history.reports|].success
    ensures IsFinalSuccess(o, e) ==>
              Step(o, config, e).flash.written == Leftover(o.history) + (Bytes(o) + e.data)
  {
    hide OnChunk, OnAttributes, Fail, Describes, Bytes, LedgerInv, Write;
    match e
    case Subscribe =>
    case Unsubscribe =>
    case SharedAttributes(a, id, now, publishOk) => AttributesNoSuccess(o, config, a, id, now, publishOk);
    case Chunk(_, _, _, _, _, _, _) => ChunkSuccess(o, config, e);
    case CheckTimeout(_) => FailExactly(o);
  }

  lemma AttributesNoSuccess(o: Ota, config: Config, a: Attributes, id: nat, now: nat, publishOk: bool)
    ensures var after := OnAttributes(o, config, a, id, now, publishOk);
            && after.flash == o.flash
            && (|after.history.reports| == |o.history.reports| ||
                (|after.history.reports| == |o.history.reports| + 1
                 && !after.history.reports[|o.history.reports|].success))
  {
    hide Fail, IsCrc32;
    FailExactly(RequestChunk(Publish(Start(Replace(o), a), DOWNLOADING), id, now));
  }

  lemma ChunkSuccess(o: Ota, config: Config, e: Event)
    requires ValidConfig(config) && SessionInv(o, config) && CanHappen(o, e) && e.Chunk?
    ensures var after := Step(o, config, e);
            && after.flash.boots == o.flash.boots + (if IsFinalSuccess(o, e) then 1 else 0)
            && (IsFinalSuccess(o, e) <==> Reports(o, config, e) && after.history.reports[|o.history.reports|].success)
            && (IsFinalSuccess(o, e) ==> after.flash.written == Leftover(o.history) + (Bytes(o) + e.data))
  {
    hide Update, Crc, Write, IsCrc32, Describes, Wrap, Bytes, Complete, Fail, Verified, InStep;
    if IsActive(o) && o.session.requestId == e.id {
      var w := Write(o.writer, o.flash, e.data, e.write);
      WriteKeepsBoots(o.writer, o.flash, e.data, e.write);
      if e.chunk != o.session.chunkId || e.data == [] {
        FailExactly(o);
      } else if !w.ok {
        FailExactly(o.(writer := w.writer, flash := w.flash));
      } else {
        AcceptCounts(o, config, e.data, e.write);
        var o1 := Accept(o, e.data, w);
        VerifiedMeans(o1.session, Bytes(o) + e.data);
        CompleteExactly(o1, e.end);
        InStepWritten(o1);
        FailExactly(RequestChunk(o1, o1.session.requestId, e.now));
      }
    }
  }

  lemma InStepWritten(o: Ota)
    requires InStep(o) && o.session.received > 0
    ensures o.flash.written == Leftover(o.history) + Bytes(o)
  {
    assert [] + Bytes(o) == Bytes(o);
  }

  /**
   * What is booted is what was verified if and only if the session found a writer that had not checked a header yet,
   * or an empty partition.
   */
  lemma BootedExactly(o: Ota, config: Config, e: Event)
    requires ValidConfig(config) && Inv(o, config) && CanHappen(o, e) && IsFinalSuccess(o, e)
    ensures Step(o, config, e).flash.written == Bytes(o) + e.data <==>
            !o.history.found.headerChecked || o.history.before == []
  {
    hide Step, Inv, Describes, Bytes;
    SuccessExactly(o, config, e);
    var written := Leftover(o.history) + (Bytes(o) + e.data);
    assert Leftover(o.history) == [] ==> written == Bytes(o) + e.data;
    assert |written| == |Leftover(o.history)| + |Bytes(o) + e.data|;
  }

  /**
   * On a partition that can be opened and written, the first chunk of a session is taken if and only if it is at least
   * a header long and its version is neither the running one nor the one that failed before, or the session found a
   * writer that had checked some header before.
   */
  lemma HeaderCheckedExactly(o: Ota, config: Config, data: seq<byte>, env: WriteEnv)
    requires SessionInv(o, config) && IsActive(o) && o.session.received == 0
    requires data != [] && env.begin.Some? && env.writeOk
    ensures Write(o.writer, o.flash, data, env).ok <==>
            || o.history.found.headerChecked
            || (|data| >= 288 && data[48..80] != env.running
                && (env.invalid.Some? ==> data[48..80] != env.invalid.value))
  {
    hide Update, Flatten, Write;
    if o.writer.headerChecked {
      LaterWriteExactly(o.writer, o.flash, data, env);
    } else {
      FirstWriteExactly(o.writer, o.flash, data, env);
    }
  }

  /** A server that publishes the reversed CRC-32 of its image in hexadecimal is understood: CRCs are compared. */
  lemma PublishedChecksum(image: seq<byte>, bytes: seq<byte>)
    ensures Describes(Some(Print(Reversed(AsNumber(Crc(image))), 16)), bytes) <==> Crc(bytes) == Crc(image)
  {
    hide Crc, SwapBytes, Print, Scan, AsNumber, Reversed;
    SwapBytesValue(Crc(image));
    SwapBytesValue(Crc(bytes));
    var printed := Print(Reversed(AsNumber(Crc(image))), 16);
    ScanPrinted(Reversed(AsNumber(Crc(image))), "", 16);
    assert printed + "" == printed;
    SwapBytesInvolution(Crc(image));
    SwapBytesInvolution(Crc(bytes));
    WordsAsNumbers(SwapBytes(Crc(bytes)), SwapBytes(Crc(image)));
  }

  lemma WordsAsNumbers(x: bv32, y: bv32)
    ensures AsNumber(x) == AsNumber(y) <==> x == y
  {
    WordRoundTrip(x);
    WordRoundTrip(y);
  }

  lemma WordRoundTrip(x: bv32)
    ensures AsNumber(x) as bv32 == x
  {}

  /** A download in which one byte of the image was changed is never reported as successful. */
  lemma CorruptedByteRejected(o: Ota, config: Config, e: Event,
                              before: seq<byte>, good: byte, bad: byte, after: seq<byte>)
    requires ValidConfig(config) && Inv(o, config) && CanHappen(o, e) && IsActive(o) && e.Chunk?
    requires Bytes(o) + e.data == before + [bad] + after && good != bad
    requires o.session.expected == Some(Print(Reversed(AsNumber(Crc(before + [good] + after))), 16))
    ensures Step(o, config, e).flash.boots == o.flash.boots
  {
    hide Update, Crc, Reversed, Scan, AsNumber, Print, Step, Describes, CanHappen, Inv;
    SuccessExactly(o, config, e);
    PublishedChecksum(before + [good] + after, before + [bad] + after);
    SingleByteErrorDetected(before, good, bad, after);
  }

  // ---- Cleaning up ---------------------------------------------------------------------------------------

  /** The first chunk passes the header check, but then the partition cannot be opened or written. */
  predicate IsSpoiledFirstWrite(o: Ota, e: Event) {
    && e.Chunk? && e.id == o.session.requestId && e.chunk == o.session.chunkId
    && o.session.received == 0 && !o.writer.headerChecked
    && AcceptableImage(e.data, e.write)
    && (e.write.begin.None? || !e.write.writeOk)
  }

  /** The session that ends, or that fails to ask for its first chunk, has not had a single chunk accepted. */
  predicate EndsEmpty(o: Ota, e: Event) {
    e.SharedAttributes? ||
    (o.session.received == 0 && !(e.Chunk? && e.chunk == o.session.chunkId && e.data != []
                                  && Write(o.writer, o.flash, e.data, e.write).ok))
  }

  /**
   * A session that is reported, in whatever way it ends, leaves a clean writer, except when no chunk of it was accepted
   * and either the writer had checked a header before or the first chunk passed the header check and ESP-IDF then
   * refused to open or write the partition: abort is skipped because nothing counts as received, and the writer
   * remembers a header that belongs to no image.
   */
  lemma CleanupExactly(o: Ota, config: Config, e: Event)
    requires ValidConfig(config) && Inv(o, config) && CanHappen(o, e) && Reports(o, config, e)
    ensures Step(o, config, e).writer == CLEAN <==>
            !(EndsEmpty(o, e) && (o.writer.headerChecked || IsSpoiledFirstWrite(o, e)))
    ensures Step(o, config, e).writer == CLEAN || Step(o, config, e).writer.headerChecked
  {
    hide Update, Crc, Verified, LedgerInv, Flatten, Wrap, IsCrc32, Complete, Fail;
    forall u ensures Fail(u).writer == AbortWriter(u).writer { FailExactly(u); }
    if e.Chunk? && e.chunk == o.session.chunkId && e.data != [] {
      var w := Write(o.writer, o.flash, e.data, e.write);
      if w.ok && IsActive(o) {
        AcceptCounts(o, config, e.data, e.write);
        CompleteExactly(Accept(o, e.data, w), e.end);
      }
    }
  }

  /** The attributes are not for this device, or name a checksum algorithm it does not know. */
  predicate IsForeign(config: Config, a: Attributes) {
    a.title != config.title || !IsCrc32(a.algorithm)
  }

  /** The event makes the writer remember a header although no session goes on with the image it belongs to. */
  predicate Spoils(o: Ota, config: Config, e: Event) {
    && IsActive(o)
    && (IsSpoiledFirstWrite(o, e) || (e.SharedAttributes? && !IsForeign(config, e.a) && o.session.received > 0))
  }

  /** No event of the run spoils the writer where it occurs. */
  predicate NeverSpoilt(o: Ota, config: Config, es: seq<Event>) {
    es == [] ||
    (NeverSpoilt(o, config, es[..|es| - 1]) && !Spoils(Run(o, config, es[..|es| - 1]), config, es[|es| - 1]))
  }

  predicate Unspoilt(o: Ota) {
    && (o.present && o.writer.headerChecked ==> IsActive(o) && o.session.received > 0)
    && (IsActive(o) ==> !o.history.found.headerChecked)
    && (forall k :: 0 <= k < |o.history.reports| ==> o.history.reports[k].leftover == [])
  }

  predicate NoLeftovers(h: History) {
    !h.found.headerChecked && forall k :: 0 <= k < |h.reports| ==> h.reports[k].leftover == []
  }

  lemma FailUnspoilt(o: Ota)
    requires IsActive(o) && NoLeftovers(o.history) && (o.session.received > 0 || !o.writer.headerChecked)
    ensures Unspoilt(Fail(o))
  {
    hide Flatten;
  }

  lemma CompleteUnspoilt(o: Ota, end: EndEnv)
    requires IsActive(o) && NoLeftovers(o.history) && o.session.received > 0
    ensures Unspoilt(Complete(o, end))
  {
    hide Flatten, Verified, Fail, Unspoilt;
    var o1 := Publish(o, DOWNLOADED);
    if !Verified(o1.session) {
      FailUnspoilt(o1);
    } else {
      var o2 := Publish(Publish(o1, VERIFIED), UPDATING);
      var w := End(o2.writer, o2.flash, end);
      var o3 := o2.(writer := w.writer, flash := w.flash);
      if w.ok { FinishUnspoilt(Publish(o3, UPDATED), true); } else { FailUnspoilt(o3); }
    }
  }

  lemma FinishUnspoilt(o: Ota, success: bool)
    requires NoLeftovers(o.history) && o.writer == CLEAN
    ensures Unspoilt(Finish(o, success))
  {
    hide Flatten;
  }

  lemma ChunkUnspoilt(o: Ota, config: Config, e: Event)
    requires ValidConfig(config) && SessionInv(o, config) && CanHappen(o, e) && Unspoilt(o) && !Spoils(o, config, e)
    requires e.Chunk?
    ensures Unspoilt(Step(o, config, e))
  {
    hide Update, Crc, Flatten, Wrap, AcceptableImage, Fail, Complete, InStep;
    if IsActive(o) && o.session.requestId == e.id {
      var w := Write(o.writer, o.flash, e.data, e.write);
      if e.chunk != o.session.chunkId || e.data == [] {
        FailUnspoilt(o);
      } else if !w.ok {
        FailUnspoilt(o.(writer := w.writer, flash := w.flash));
      } else {
        AcceptCounts(o, config, e.data, e.write);
        var o1 := Accept(o, e.data, w);
        if o1.session.received >= o1.session.size {
          CompleteUnspoilt(o1, e.end);
        } else if !e.publishOk {
          FailUnspoilt(RequestChunk(o1, o1.session.requestId, e.now));
        }
      }
    }
  }

  lemma StepUnspoilt(o: Ota, config: Config, e: Event)
    requires ValidConfig(config) && Inv(o, config) && CanHappen(o, e) && Unspoilt(o) && !Spoils(o, config, e)
    ensures Unspoilt(Step(o, config, e))
  {
    hide Update, Crc, LedgerInv, Flatten, OnChunk, IsCrc32, InStep;
    if e.Chunk? { ChunkUnspoilt(o, config, e); }
  }

  lemma {:induction false} RunUnspoilt(config: Config, es: seq<Event>)
    requires ValidConfig(config) && CanRun(Init(), config, es) && NeverSpoilt(Init(), config, es)
    ensures Unspoilt(Run(Init(), config, es))
  {
    hide Inv, CanHappen, Step, Spoils;
    if es != [] {
      var init := es[..|es| - 1];
      RunInv(config, init);
      RunUnspoilt(config, init);
      StepUnspoilt(Run(Init(), config, init), config, es[|es| - 1]);
    }
  }

  /**
   * Over a whole run in which no first write was spoiled and no download with accepted chunks was replaced by another
   * negotiation, every image that was booted is, byte for byte, the image whose checksum was verified.
   */
  lemma BootedIsVerified(config: Config, es: seq<Event>, k: nat)
    requires ValidConfig(config) && CanRun(Init(), config, es) && NeverSpoilt(Init(), config, es)
    requires var reports := Run(Init(), config, es).history.reports; k < |reports| && reports[k].success
    ensures var r := Run(Init(), config, es).history.reports[k];
            r.written == r.bytes && Describes(r.expected, r.bytes) && |r.bytes| >= r.size
  {
    hide Run, CanRun, NeverSpoilt, Describes, InLanguage, SessionInv;
    RunInv(config, es);
    RunUnspoilt(config, es);
    var o := Run(Init(), config, es);
    assert LedgerInv(o) && ReportOk(o.history.reports[k]);
    assert [] + o.history.reports[k].bytes == o.history.reports[k].bytes;
  }

  // ---- A writer without a handle ----------------------------------------------------------------------------

  /** The partition could not be opened after the header check: the writer has no handle, and will not ask for one. */
  predicate IsStuck(o: Ota) {
    o.writer.headerChecked && o.writer.handle == 0 && (IsActive(o) ==> o.session.received == 0)
  }

  /** ESP-IDF refuses a write without a handle. */
  predicate NeedsHandle(o: Ota, e: Event) {
    e.Chunk? && o.writer.headerChecked && o.writer.handle == 0 ==> !e.write.writeOk
  }

  predicate AlwaysNeedsHandle(o: Ota, config: Config, es: seq<Event>) {
    es == [] ||
    (AlwaysNeedsHandle(o, config, es[..|es| - 1]) && NeedsHandle(Run(o, config, es[..|es| - 1]), es[|es| - 1]))
  }

  lemma StepStuck(o: Ota, config: Config, e: Event)
    requires IsStuck(o) && CanHappen(o, e) && NeedsHandle(o, e) && !e.Subscribe?
    ensures var after := Step(o, config, e);
            && IsStuck(after) && after.writer == o.writer && after.flash == o.flash
            && Successes(after.history.reports) == Successes(o.history.reports)
            && (e.Chunk? && o.present && e.id == o.session.requestId ==>
                  !IsActive(after) && Outcomes(after.history.reports) == Outcomes(o.history.reports) + [false])
  {
    hide Flatten, IsCrc32, AcceptableImage, Complete, Outcomes, Successes, Fail;
    match e
    case SharedAttributes(a, id, now, publishOk) =>
      FailStuck(RequestChunk(Publish(Start(Replace(o), a), DOWNLOADING), id, now));
    case _ =>
      if o.session.received == 0 { FailStuck(o); }
  }

  /** A failing session without accepted chunks leaves the writer alone. */
  lemma FailStuck(o: Ota)
    requires o.session.received == 0
    ensures var after := Fail(o);
            && after.session == IDLE && after.present == o.present && after.writer == o.writer && after.flash == o.flash
            && Outcomes(after.history.reports) == Outcomes(o.history.reports) + [false]
            && Successes(after.history.reports) == Successes(o.history.reports)
  {
    hide Flatten, Outcomes, Successes;
    ReportsAppend(o.history.reports, Fail(o).history.reports[|o.history.reports|]);
  }

  /**
   * Once the writer is stuck it stays so, whatever is negotiated, answered or timed out, until the entry is created
   * anew: nothing is written, nothing booted, no download succeeds.
   */
  lemma {:induction false} StuckWriter(o: Ota, config: Config, es: seq<Event>)
    requires IsStuck(o) && CanRun(o, config, es) && AlwaysNeedsHandle(o, config, es)
    requires forall k :: 0 <= k < |es| ==> !es[k].Subscribe?
    ensures var after := Run(o, config, es);
            && IsStuck(after) && after.writer == o.writer && after.flash == o.flash
            && Successes(after.history.reports) == Successes(o.history.reports)
  {
    hide IsStuck, NeedsHandle, CanHappen, Step, Successes;
    if es != [] {
      var init := es[..|es| - 1];
      StuckWriter(o, config, init);
      StepStuck(Run(o, config, init), config, es[|es| - 1]);
    }
  }

  // ---- Ending --------------------------------------------------------------------------------------------

  /** A chunk that neither ends the session nor is ignored brings it strictly closer to its announced size. */
  lemma ChunksMakeProgress(o: Ota, config: Config, e: Event)
    requires ValidConfig(config) && Inv(o, config) && CanHappen(o, e)
    requires e.Chunk? && IsActive(o) && e.id == o.session.requestId && IsActive(Step(o, config, e))
    ensures var s := Step(o, config, e).session;
            && 0 <= s.size - s.received < o.session.size - o.session.received
            && s.chunkId == o.session.chunkId + 1 && s.requestId == o.session.requestId
  {
    hide Update, Crc, Verified, LedgerInv, Write, Wrap, Flatten;
    if e.chunk == o.session.chunkId && e.data != [] && Write(o.writer, o.flash, e.data, e.write).ok {
      AcceptCounts(o, config, e.data, e.write);
    }
  }

  /**
   * A timeout check reports an active session as failed if and only if 30 s have passed since its last request;
   * a request sent at second 0 of the clock is never timed out, because stamp 0 stands for no request.
   */
  lemma TimeoutExactly(o: Ota, config: Config, stamp: nat)
    requires ValidConfig(config) && Inv(o, config) && IsActive(o)
    ensures var after := Step(o, config, CheckTimeout(stamp));
            if o.session.timestamp > 0 && o.session.timestamp + 30 <= stamp then
              && !IsActive(after)
              && Outcomes(after.history.reports) == Outcomes(o.history.reports) + [false]
              && after.history.log == o.history.log + [Telemetry(FAILED), OnUpdated(false)]
            else after == o
  {
    hide Flatten, LedgerInv, SessionInv, Outcomes;
    ActiveIsPresent(o, config);
    var after := Step(o, config, CheckTimeout(stamp));
    if after != o {
      ReportsAppend(o.history.reports, after.history.reports[|o.history.reports|]);
      assert o.history.log + [Telemetry(FAILED)] + [OnUpdated(false)] ==
             o.history.log + [Telemetry(FAILED), OnUpdated(false)];
    }
  }

  lemma ActiveIsPresent(o: Ota, config: Config)
    requires SessionInv(o, config) && IsActive(o)
    ensures o.present
  {}

  /** Chunks with the id of a session that is over change nothing until a negotiation draws that id again. */
  lemma {:induction false} StaleChunksIgnored(o: Ota, config: Config, es: seq<Event>, late: Event)
    requires late.Chunk? && late.id > 0 && (o.session.requestId != late.id)
    requires forall k :: 0 <= k < |es| && es[k].SharedAttributes? ==> es[k].id != late.id
    ensures Run(o, config, es).session.requestId != late.id
    ensures Step(Run(o, config, es), config, late) == Run(o, config, es)
  {
    if es != [] {
      StaleChunksIgnored(o, config, es[..|es| - 1], late);
      StepId(Run(o, config, es[..|es| - 1]), config, es[|es| - 1]);
    }
  }

  lemma StepId(o: Ota, config: Config, e: Event)
    ensures var id := Step(o, config, e).session.requestId;
            id == o.session.requestId || id == 0 || (e.SharedAttributes? && id == e.id)
  {
    hide Update, Verified, Write, IsCrc32, Flatten, Wrap;
  }

  /** An idle entry matches ids by equality and its own id is 0: it ignores all chunks of an id other than 0 only. */
  lemma IdleIgnoresExactly(o: Ota, config: Config, id: nat)
    requires o.present && o.session == IDLE
    ensures (forall chunk, data, write, end, now, ok ::
               OnChunk(o, id, chunk, data, write, end, now, ok) == o) <==> id != 0
  {
    hide Write, Complete, Flatten;
    if id == 0 {
      var write, end := WriteEnv([], None, None, true), EndEnv(true, true);
      var after := OnChunk(o, id, 1, [], write, end, 0, true);
      assert |after.history.reports| == |o.history.reports| + 1;
      assert after != o;
    }
  }

  // ---- Negotiating again -----------------------------------------------------------------------------------

  /**
   * Attributes that arrive during a download either leave it as it is, publishing FAILED all the same, or end it
   * without a word to the application and without aborting the writer; which of the two is decided by title and
   * algorithm alone. What is started instead fails at once if its first chunk cannot be asked for.
   */
  lemma NegotiatingAgain(o: Ota, config: Config, e: Event)
    requires ValidConfig(config) && Inv(o, config) && CanHappen(o, e) && e.SharedAttributes? && IsActive(o)
    ensures var after := Step(o, config, e);
            var starts := e.a.version != config.version && e.a.size <= config.partition;
            && after.writer == o.writer && after.flash == o.flash
            && (if IsForeign(config, e.a) then
                  && after.session == o.session && after.history.trace == o.history.trace
                  && after.history.reports == o.history.reports
                  && after.history.log == o.history.log + [Telemetry(FAILED)]
                else
                  && after.history.replaced == o.history.replaced + 1
                  && (IsActive(after) <==> starts && e.publishOk)
                  && (IsActive(after) ==> Bytes(after) == [] && after.history.found == o.writer)
                  && Outcomes(after.history.reports) ==
                       Outcomes(o.history.reports) + if starts && !e.publishOk then [false] else [])
  {
    hide LedgerInv, IsCrc32, Update, Crc, Outcomes;
    assert Flatten<byte>([]) == [];
    var after := Step(o, config, e);
    if after.history.reports != o.history.reports {
      ReportsAppend(o.history.reports, after.history.reports[|o.history.reports|]);
    }
  }
}
