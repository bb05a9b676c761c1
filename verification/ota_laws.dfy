/** What every step of a firmware download keeps, and what follows for whole runs. */
module OtaLaws {
  import opened Basics
  import opened Sequences
  import opened Numerals
  import opened Crc32
  import opened FwUpdate
  import opened OtaUpdates

  predicate IsActive(o: Ota) {
    o.session.requestId > 0
  }

  function Bytes(o: Ota): seq<byte> {
    Flatten(o.history.accepted)
  }

  /** Counters and checksum of a download describe exactly the chunks accepted so far. */
  predicate Counted(o: Ota) {
    var s := o.session;
    && s.chunkId == |o.history.accepted| <= s.received
    && s.received == |Bytes(o)|
    && s.checksum == Crc(Bytes(o))
    && (s.received == 0 || s.received < s.size)
    && s.expected.Some?
  }

  /**
   * Writer and flash are in step with the session: a writer found clean is untouched before the first chunk, and then
   * the partition holds the session's bytes; one that had checked a header goes on behind what the partition held.
   */
  predicate InStep(o: Ota) {
    var found := o.history.found;
    if found.headerChecked then
      && o.writer == found.(size := found.size + o.session.received)
      && o.flash.written == o.history.before + Bytes(o)
    else if o.session.received == 0 then o.writer == CLEAN
    else
      && o.writer.handle > 0 && o.writer.headerChecked && o.writer.size == o.session.received
      && o.flash.written == Bytes(o)
  }

  /** The last request sent is the one the session waits to be answered. */
  predicate Awaited(o: Ota) {
    var requests := o.history.requests;
    && requests != []
    && requests[|requests| - 1] == ChunkRequest(o.session.requestId, o.session.chunkId, Wanted(o.session.size))
  }

  predicate WriterInv(w: Writer) {
    w.headerChecked || w == CLEAN
  }

  predicate SessionInv(o: Ota, config: Config) {
    && WriterInv(o.writer)
    && (!IsActive(o) ==> o.session == IDLE)
    && (IsActive(o) ==>
          && o.present && Counted(o) && o.session.size <= config.partition
          && o.history.trace == [DOWNLOADING] && InStep(o) && Awaited(o))
  }

  /** DOWNLOADING to UPDATED in order, or a beginning of it closed by FAILED, but not right after VERIFIED. */
  predicate InLanguage(trace: seq<Status>, success: bool) {
    if success then trace == [DOWNLOADING, DOWNLOADED, VERIFIED, UPDATING, UPDATED]
    else
      || trace == [DOWNLOADING, FAILED]
      || trace == [DOWNLOADING, DOWNLOADED, FAILED]
      || trace == [DOWNLOADING, DOWNLOADED, VERIFIED, UPDATING, FAILED]
  }

  predicate ReportOk(r: Report) {
    && InLanguage(r.trace, r.success)
    && (r.success ==>
          && |r.bytes| > 0 && |r.bytes| >= r.size && Describes(r.expected, r.bytes)
          && r.written == r.leftover + r.bytes)
    && (r.success || r.bytes != [] ==> r.writer == CLEAN)
  }

  function Successes(reports: seq<Report>): nat {
    if reports == [] then 0
    else Successes(reports[..|reports| - 1]) + if reports[|reports| - 1].success then 1 else 0
  }

  /** The application is told of success right after UPDATED was published and of failure right after FAILED. */
  predicate LogOk(log: seq<Entry>) {
    forall k :: 0 <= k < |log| && log[k].OnUpdated? ==>
      k > 0 && log[k - 1] == Telemetry(if log[k].success then UPDATED else FAILED)
  }

  /** The calls of on_ota_updated in the log. */
  function Calls(log: seq<Entry>): seq<bool> {
    if log == [] then []
    else Calls(log[..|log| - 1]) + if log[|log| - 1].OnUpdated? then [log[|log| - 1].success] else []
  }

  function Outcomes(reports: seq<Report>): seq<bool> {
    if reports == [] then [] else Outcomes(reports[..|reports| - 1]) + [reports[|reports| - 1].success]
  }

  /** Every session is reported once, replaced, dropped or still going on; the boot partition follows the successes. */
  predicate LedgerInv(o: Ota) {
    var h := o.history;
    && h.started == |h.reports| + h.replaced + h.dropped + (if IsActive(o) then 1 else 0)
    && Calls(h.log) == Outcomes(h.reports)
    && LogOk(h.log)
    && o.flash.boots == Successes(h.reports)
    && (forall k :: 0 <= k < |h.reports| ==> ReportOk(h.reports[k]))
  }

  predicate Inv(o: Ota, config: Config) {
    SessionInv(o, config) && LedgerInv(o)
  }

  predicate ValidConfig(config: Config) {
    config.partition + MAX_RX_MSG_LENGTH < UINT32
  }

  /** One entry; drawn ids are never 0, and chunks carry an id the client could have drawn; payloads fit the buffer. */
  predicate CanHappen(o: Ota, e: Event) {
    && (e.Subscribe? ==> !o.present)
    && (e.SharedAttributes? ==> e.id > 0 && e.a.size < UINT32)
    && (e.Chunk? ==> e.id > 0 && |e.data| <= MAX_RX_MSG_LENGTH && ValidEnv(e.write))
  }

  // ---- Sessions that end -----------------------------------------------------------------------------

  lemma CallsAppend(log: seq<Entry>, e: Entry)
    ensures Calls(log + [e]) == Calls(log) + if e.OnUpdated? then [e.success] else []
  {
    assert (log + [e])[..|log|] == log;
  }

  lemma ReportsAppend(reports: seq<Report>, r: Report)
    ensures Outcomes(reports + [r]) == Outcomes(reports) + [r.success]
    ensures Successes(reports + [r]) == Successes(reports) + if r.success then 1 else 0
  {
    assert (reports + [r])[..|reports|] == reports;
  }

  lemma AnnounceKeeps(o: Ota, status: Status)
    requires LedgerInv(o)
    ensures LedgerInv(Announce(o, status)) && LedgerInv(Publish(o, status))
  {
    hide ReportOk, Outcomes, Successes, Calls;
    CallsAppend(o.history.log, Telemetry(status));
    assert Calls(o.history.log) + [] == Calls(o.history.log);
  }

  /** Ending a session with a sound report, right after its last status, keeps the ledger. */
  lemma FinishKeeps(o: Ota, success: bool, boots: nat)
    requires LedgerInv(o.(flash := o.flash.(boots := boots))) && IsActive(o)
    requires o.flash.boots == boots + if success then 1 else 0
    requires |o.history.log| > 0
    requires o.history.log[|o.history.log| - 1] == Telemetry(if success then UPDATED else FAILED)
    requires ReportOk(Report(success, o.history.trace, Bytes(o), o.session.size, o.session.expected,
                             Leftover(o.history), o.writer, o.flash.written))
    ensures LedgerInv(Finish(o, success))
  {
    hide ReportOk, Outcomes, Successes, Calls;
    CallsAppend(o.history.log, OnUpdated(success));
    ReportsAppend(o.history.reports, Finish(o, success).history.reports[|o.history.reports|]);
  }

  /** A failing session leaves a clean writer if any chunk had been accepted. */
  lemma FailKeeps(o: Ota, config: Config)
    requires LedgerInv(o) && IsActive(o) && WriterInv(o.writer)
    requires InLanguage(o.history.trace + [FAILED], false)
    requires o.session.received == 0 <==> Bytes(o) == []
    ensures Inv(Fail(o), config)
  {
    hide InLanguage, Outcomes, Successes, Calls, LogOk;
    AnnounceKeeps(o, FAILED);
    var o1 := AbortWriter(Publish(o, FAILED));
    assert LedgerInv(o1);
    FinishKeeps(o1, false, o1.flash.boots);
  }

  // ---- Chunks ----------------------------------------------------------------------------------------

  lemma LedgerIgnores(o: Ota, u: Ota)
    requires LedgerInv(o)
    requires u.history.(accepted := o.history.accepted, requests := o.history.requests, trace := o.history.trace,
                        found := o.history.found, before := o.history.before) == o.history
    requires u.flash.boots == o.flash.boots && (IsActive(u) <==> IsActive(o))
    ensures LedgerInv(u)
  {
    hide ReportOk, Outcomes, Successes, Calls, LogOk;
  }

  /** An accepted chunk: counters, checksum, writer and flash move on together. */
  lemma AcceptCounts(o: Ota, config: Config, data: seq<byte>, env: WriteEnv)
    requires ValidConfig(config) && SessionInv(o, config) && IsActive(o) && ValidEnv(env)
    requires 0 < |data| <= MAX_RX_MSG_LENGTH && Write(o.writer, o.flash, data, env).ok
    ensures var o1 := Accept(o, data, Write(o.writer, o.flash, data, env));
            && Bytes(o1) == Bytes(o) + data
            && o1.session.chunkId == |o1.history.accepted| <= o1.session.received
            && o1.session.received == |Bytes(o1)| == o.session.received + |data|
            && o1.session.checksum == Crc(Bytes(o1))
            && InStep(o1) && WriterInv(o1.writer)
            && o1.flash.boots == o.flash.boots
  {
    hide Update, Crc, Write, InStep, Wrap, Flatten;
    NoWrap(o.session.received + |data|);
    NoWrap(o.session.chunkId + 1);
    FlattenAppend(o.history.accepted, data);
    CrcConcat(Bytes(o), data);
    WriteKeepsBoots(o.writer, o.flash, data, env);
    WriteInStep(o, data, env);
    WriteKeepsWriter(o.writer, o.flash, data, env);
  }

  lemma NoWrap(n: nat)
    ensures n < UINT32 ==> Wrap(n) == n
  {}

  lemma WriteKeepsWriter(w: Writer, f: Flash, data: seq<byte>, env: WriteEnv)
    requires WriterInv(w)
    ensures WriterInv(Write(w, f, data, env).writer)
  {
    hide AcceptableImage;
  }

  /** What a successful write does: append, and open the partition first unless a header was checked before. */
  lemma WriteAppends(w: Writer, f: Flash, data: seq<byte>, env: WriteEnv)
    requires data != [] && Write(w, f, data, env).ok && ValidEnv(env)
    ensures var r := Write(w, f, data, env);
            && r.writer.headerChecked && r.writer.size == w.size + |data|
            && r.flash.written == (if w.headerChecked then f.written else []) + data
            && (if w.headerChecked then r.writer.handle == w.handle else r.writer.handle > 0)
  {
    hide AcceptableImage;
  }

  /** A write that succeeds keeps writer and flash in step. */
  lemma WriteInStep(o: Ota, data: seq<byte>, env: WriteEnv)
    requires InStep(o) && ValidEnv(env) && data != [] && Write(o.writer, o.flash, data, env).ok
    requires o.session.received == |Bytes(o)| && o.session.received + |data| < UINT32
    ensures InStep(Accept(o, data, Write(o.writer, o.flash, data, env)))
  {
    hide Update, Wrap, Write, Flatten;
    NoWrap(o.session.received + |data|);
    FlattenAppend(o.history.accepted, data);
    WriteAppends(o.writer, o.flash, data, env);
    assert o.history.before + Bytes(o) + data == o.history.before + (Bytes(o) + data);
    assert Bytes(o) == [] ==> [] + data == Bytes(o) + data;
  }

  lemma CrcConcat(a: seq<byte>, b: seq<byte>)
    ensures Update(Crc(a), b) == Crc(a + b)
  {
    UpdateConcat(0, a, b);
  }

  lemma VerifiedMeans(s: Session, bytes: seq<byte>)
    requires s.checksum == Crc(bytes) && s.expected.Some?
    ensures Verified(s) <==> Describes(s.expected, bytes)
  {
    hide Crc, SwapBytes, Scan, AsNumber, Reversed;
    SwapBytesValue(s.checksum);
  }

  /** The whole image is there: it is installed only if the checksum attribute describes exactly its bytes. */
  lemma CompleteKeeps(o: Ota, config: Config, end: EndEnv)
    requires LedgerInv(o) && IsActive(o) && o.history.trace == [DOWNLOADING] && InStep(o) && WriterInv(o.writer)
    requires o.session.received == |Bytes(o)| > 0 && o.session.received >= o.session.size
    requires o.session.checksum == Crc(Bytes(o)) && o.session.expected.Some?
    ensures Inv(Complete(o, end), config)
  {
    hide Outcomes, Successes, Calls, LogOk, Verified, Describes;
    AnnounceKeeps(o, DOWNLOADED);
    var o1 := Publish(o, DOWNLOADED);
    VerifiedMeans(o1.session, Bytes(o));
    if !Verified(o1.session) {
      FailKeeps(o1, config);
    } else {
      AnnounceKeeps(o1, VERIFIED);
      AnnounceKeeps(Publish(o1, VERIFIED), UPDATING);
      var o2 := Publish(Publish(o1, VERIFIED), UPDATING);
      var w := End(o2.writer, o2.flash, end);
      var o3 := o2.(writer := w.writer, flash := w.flash);
      if w.ok {
        AnnounceKeeps(o2, UPDATED);
        FinishKeeps(Publish(o3, UPDATED), true, o2.flash.boots);
      } else {
        FailKeeps(o3, config);
      }
    }
  }

  lemma ChunkKeeps(o: Ota, config: Config, e: Event)
    requires ValidConfig(config) && Inv(o, config) && CanHappen(o, e) && e.Chunk?
    ensures Inv(Step(o, config, e), config)
  {
    hide LedgerInv, Complete, Write, Crc, Update, InStep, Wrap;
    if o.present && o.session.requestId == e.id {
      BytesEmpty(o);
      if e.chunk != o.session.chunkId || e.data == [] {
        FailKeeps(o, config);
      } else {
        var w := Write(o.writer, o.flash, e.data, e.write);
        WriteKeepsBoots(o.writer, o.flash, e.data, e.write);
        if !w.ok {
          var u := o.(writer := w.writer, flash := w.flash);
          LedgerIgnores(o, u);
          WriteKeepsWriter(o.writer, o.flash, e.data, e.write);
          FailKeeps(u, config);
        } else {
          var o1 := Accept(o, e.data, w);
          AcceptCounts(o, config, e.data, e.write);
          LedgerIgnores(o, o1);
          if o1.session.received >= o1.session.size {
            CompleteKeeps(o1, config, e.end);
          } else {
            var o2 := RequestChunk(o1, o1.session.requestId, e.now);
            LedgerIgnores(o1, o2);
            InStepIgnores(o1, o2);
            if !e.publishOk { FailKeeps(o2, config); }
          }
        }
      }
    }
  }

  lemma BytesEmpty(o: Ota)
    ensures |Bytes(o)| == 0 <==> Bytes(o) == []
  {}

  lemma WriteKeepsBoots(w: Writer, f: Flash, data: seq<byte>, env: WriteEnv)
    ensures Write(w, f, data, env).flash.boots == f.boots
  {}

  lemma InStepIgnores(o: Ota, u: Ota)
    requires o.writer == u.writer && o.flash == u.flash && o.session.received == u.session.received
    requires Bytes(o) == Bytes(u) && o.history.found == u.history.found && o.history.before == u.history.before
    ensures InStep(o) <==> InStep(u)
  {}

  // ---- Negotiation -----------------------------------------------------------------------------------

  lemma AttributesKeep(o: Ota, config: Config, e: Event)
    requires Inv(o, config) && CanHappen(o, e) && e.SharedAttributes?
    ensures Inv(Step(o, config, e), config)
  {
    hide ReportOk, Outcomes, Successes, Calls, LogOk, IsCrc32;
    AnnounceKeeps(o, FAILED);
    if o.present && e.a.title == config.title && IsCrc32(e.a.algorithm) {
      var o1 := Replace(o);
      assert LedgerInv(o1);
      AnnounceKeeps(o1, FAILED);
      var o2 := Start(o1, e.a);
      if Negotiate(config.partition, config.title, config.version, e.a.title, e.a.version, e.a.size).Accepted? {
        StartKeeps(o1, config, e.a, e.id, e.now);
        var o3 := RequestChunk(Publish(o2, DOWNLOADING), e.id, e.now);
        if !e.publishOk { FailKeeps(o3, config); }
      }
    }
  }

  lemma StartKeeps(o: Ota, config: Config, a: Attributes, id: nat, now: nat)
    requires LedgerInv(o) && WriterInv(o.writer) && o.session == IDLE && o.present
    requires id > 0 && a.size <= config.partition
    ensures Inv(RequestChunk(Publish(Start(o, a), DOWNLOADING), id, now), config)
  {
    hide ReportOk, Outcomes, Successes, LogOk, Update;
    AnnounceKeeps(o, DOWNLOADING);
    UpdateNothing(0);
    assert Flatten<byte>([]) == [];
    assert o.flash.written + [] == o.flash.written;
  }

  /** Every event keeps the invariant. */
  lemma StepKeeps(o: Ota, config: Config, e: Event)
    requires ValidConfig(config) && Inv(o, config) && CanHappen(o, e)
    ensures Inv(Step(o, config, e), config)
  {
    hide OnChunk, OnAttributes;
    match e
    case Subscribe => LedgerIgnores(o, Step(o, config, e));
    case Unsubscribe =>
    case SharedAttributes(_, _, _, _) => AttributesKeep(o, config, e);
    case Chunk(_, _, _, _, _, _, _) => ChunkKeeps(o, config, e);
    case CheckTimeout(_) => if IsActive(o) { BytesEmpty(o); FailKeeps(o, config); }
  }

  // ---- Runs ------------------------------------------------------------------------------------------

  predicate CanRun(o: Ota, config: Config, es: seq<Event>)
    decreases |es|, 0
  {
    es == [] || (CanRun(o, config, es[..|es| - 1]) && CanHappen(Run(o, config, es[..|es| - 1]), es[|es| - 1]))
  }

  function Run(o: Ota, config: Config, es: seq<Event>): Ota
    decreases |es|, 1
  {
    if es == [] then o else Step(Run(o, config, es[..|es| - 1]), config, es[|es| - 1])
  }

  /**
   * In every state a device can reach: an active session has counted and checksummed exactly what it accepted, writer
   * and flash are in step with it, it waits for the answer to the last request sent, and every session ever started
   * was reported exactly once, replaced, dropped, or is still going on, with a sound report in every case.
   */
  lemma {:induction false} RunInv(config: Config, es: seq<Event>)
    requires ValidConfig(config) && CanRun(Init(), config, es)
    ensures Inv(Run(Init(), config, es), config)
  {
    hide SessionInv, LedgerInv, Step, CanHappen;
    if es == [] {
      InitInv(config);
    } else {
      RunInv(config, es[..|es| - 1]);
      StepKeeps(Run(Init(), config, es[..|es| - 1]), config, es[|es| - 1]);
    }
  }

  lemma InitInv(config: Config)
    ensures Inv(Init(), config)
  {}
}
