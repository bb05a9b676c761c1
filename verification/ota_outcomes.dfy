/** What each event does to a download, case by case, in plain values: session, announcements, requests, writer. */
module OtaOutcomes {
  import opened Basics
  import opened Sequences
  import opened Crc32
  import opened FwUpdate
  import opened FwLaws
  import opened OtaUpdates
  import opened OtaLaws

  /** The algorithm is crc32, in upper or lower case. */
  lemma AlgorithmExactly(algorithm: string)
    ensures IsCrc32(algorithm) <==>
            |algorithm| == 5 && algorithm[0] in "cC" && algorithm[1] in "rR" && algorithm[2] in "cC"
            && algorithm[3] == '3' && algorithm[4] == '2'
  {
    if |algorithm| == 5 {
      SameLetter(algorithm[0], 'c');
      SameLetter(algorithm[1], 'r');
      SameLetter(algorithm[2], 'c');
      SameLetter(algorithm[3], '3');
      SameLetter(algorithm[4], '2');
    }
  }

  lemma SameLetter(c: char, d: char)
    requires 'a' <= d <= 'z' || '0' <= d <= '9'
    ensures LowerCase(c) == LowerCase(d) <==> c == d || ('a' <= d <= 'z' && c as nat + 32 == d as nat)
  {}

  /**
   * What an offer does: one for another device, or with an unknown checksum algorithm, is announced as FAILED and
   * changes nothing; any other ends the download going on; the running version is passed over in silence, an image that
   * does not fit the partition is announced as FAILED, and the rest starts a download, which fails at once if its first
   * request cannot be sent. Writer and flash are left alone in every case.
   */
  lemma OfferOutcome(o: Ota, config: Config, e: Event)
    requires e.SharedAttributes?
    ensures var after, a := Step(o, config, e), e.a;
            var h, log := after.history, o.history.log;
            var first := ChunkRequest(e.id, 0, if a.size < 16384 then 0 else 16384);
            && after.present == o.present && after.writer == o.writer && after.flash == o.flash
            && (if !o.present || a.title != config.title || !IsCrc32(a.algorithm) then
                  after.session == o.session && h == o.history.(log := log + [Telemetry(FAILED)])
                else if a.version == config.version then
                  && after.session == IDLE && h.log == log && h.requests == o.history.requests
                  && h.reports == o.history.reports
                else if a.size > config.partition then
                  && after.session == IDLE && h.log == log + [Telemetry(FAILED)] && h.requests == o.history.requests
                  && h.reports == o.history.reports
                else if e.publishOk then
                  && after.session == Session(e.id, 0, 0, 0, e.now, a.size, Some(a.checksum))
                  && h.log == log + [Telemetry(DOWNLOADING)] && h.requests == o.history.requests + [first]
                  && h.reports == o.history.reports
                else
                  && after.session == IDLE && h.requests == o.history.requests + [first]
                  && h.log == log + [Telemetry(DOWNLOADING), Telemetry(FAILED), OnUpdated(false)]
                  && |h.reports| == |o.history.reports| + 1)
  {
    hide IsCrc32, Flatten;
    assert o.history.log + [Telemetry(DOWNLOADING)] + [Telemetry(FAILED)] + [OnUpdated(false)] ==
           o.history.log + [Telemetry(DOWNLOADING), Telemetry(FAILED), OnUpdated(false)];
  }

  /** What is announced after the last byte: how far it got, and whether it succeeded. */
  function Finale(verified: bool, ended: bool): seq<Entry> {
    if !verified then [Telemetry(DOWNLOADED), Telemetry(FAILED), OnUpdated(false)]
    else if !ended then
      [Telemetry(DOWNLOADED), Telemetry(VERIFIED), Telemetry(UPDATING), Telemetry(FAILED), OnUpdated(false)]
    else
      [Telemetry(DOWNLOADED), Telemetry(VERIFIED), Telemetry(UPDATING), Telemetry(UPDATED), OnUpdated(true)]
  }

  /**
   * What an answer does to the download that waits for it: a wrong chunk number, an empty chunk and a chunk the writer
   * refuses fail it; a chunk that does not complete the announced size asks for the next one, and fails it if that
   * cannot be sent; the last one decides by checksum and by ESP-IDF.
   */
  lemma ChunkOutcome(o: Ota, config: Config, e: Event)
    requires ValidConfig(config) && Inv(o, config) && CanHappen(o, e)
    requires e.Chunk? && IsActive(o) && e.id == o.session.requestId
    ensures var after, s := Step(o, config, e), o.session;
            var h, log := after.history, o.history.log;
            var w, n := Write(o.writer, o.flash, e.data, e.write), s.received + |e.data|;
            var next := ChunkRequest(e.id, s.chunkId + 1, if s.size < 16384 then 0 else 16384);
            if e.chunk != s.chunkId || e.data == [] || !w.ok then
              && after.session == IDLE && h.log == log + [Telemetry(FAILED), OnUpdated(false)]
              && h.requests == o.history.requests
            else if n >= s.size then
              && after.session == IDLE && h.requests == o.history.requests
              && h.log == log + Finale(Describes(s.expected, Bytes(o) + e.data), e.end.endOk && e.end.setBootOk)
            else if e.publishOk then
              && after.session == Session(e.id, s.chunkId + 1, n, Crc(Bytes(o) + e.data), e.now, s.size, s.expected)
              && h.log == log && h.requests == o.history.requests + [next]
              && after.writer == w.writer && after.flash == w.flash
            else
              && after.session == IDLE && h.log == log + [Telemetry(FAILED), OnUpdated(false)]
              && h.requests == o.history.requests + [next]
  {
    hide Write, Update, Crc, Describes, Verified, Flatten, Wrap, InStep, Complete, Fail;
    var w := Write(o.writer, o.flash, e.data, e.write);
    if e.chunk != o.session.chunkId || e.data == [] {
      FailAnnounces(o);
    } else if !w.ok {
      FailAnnounces(o.(writer := w.writer, flash := w.flash));
    } else {
      AcceptCounts(o, config, e.data, e.write);
      ChunkNumber(o, e.data, w);
      var o1 := Accept(o, e.data, w);
      CompleteAnnounces(o1, e.end);
      VerifiedMeans(o1.session, Bytes(o1));
      FailAnnounces(RequestChunk(o1, e.id, e.now));
    }
  }

  lemma ChunkNumber(o: Ota, data: seq<byte>, w: Written)
    requires o.session.chunkId + 1 < UINT32
    ensures Accept(o, data, w).session.chunkId == o.session.chunkId + 1
  {}

  lemma FailAnnounces(o: Ota)
    ensures Fail(o).session == IDLE && Fail(o).history.requests == o.history.requests
    ensures Fail(o).history.log == o.history.log + [Telemetry(FAILED), OnUpdated(false)]
  {
    hide Flatten;
    assert o.history.log + [Telemetry(FAILED)] + [OnUpdated(false)] ==
           o.history.log + [Telemetry(FAILED), OnUpdated(false)];
  }

  lemma CompleteAnnounces(o: Ota, end: EndEnv)
    requires IsActive(o) && o.session.received > 0
    ensures var after := Complete(o, end);
            && after.session == IDLE && after.history.requests == o.history.requests
            && after.history.log == o.history.log + Finale(Verified(o.session), end.endOk && end.setBootOk)
  {
    hide Verified, Flatten, Fail;
    var o1 := Publish(o, DOWNLOADED);
    FailAnnounces(o1);
    var o2 := Publish(Publish(o1, VERIFIED), UPDATING);
    var w := End(o2.writer, o2.flash, end);
    FailAnnounces(o2.(writer := w.writer, flash := w.flash));
    EndExactly(o2.writer, o2.flash, end);
    assert Complete(o, end).history.log ==
           o.history.log + Finale(Verified(o.session), end.endOk && end.setBootOk);
  }

  /** Answers with another id, and all answers without an entry, change nothing. */
  lemma ForeignChunk(o: Ota, config: Config, e: Event)
    requires e.Chunk? && (!o.present || e.id != o.session.requestId)
    ensures Step(o, config, e) == o
  {}

  /** A new entry finds a writer as after power-on, and starts without a download. */
  lemma SubscribeOutcome(o: Ota, config: Config)
    ensures var after := Step(o, config, Subscribe);
            after == Ota(true, Session(0, 0, 0, 0, 0, 0, None), Writer(0, 0, false), o.flash, o.history)
  {}

  /** Unsubscribing drops the download without a word, and leaves the writer as it was: nothing is aborted. */
  lemma UnsubscribeOutcome(o: Ota, config: Config)
    ensures var after := Step(o, config, Unsubscribe);
            && !after.present && after.session == Session(0, 0, 0, 0, 0, 0, None)
            && after.writer == o.writer && after.flash == o.flash
            && after.history.log == o.history.log && after.history.reports == o.history.reports
  {}
}
