/** Short runs from power-on that reach the states in which a download goes wrong. */
module OtaRuns {
  import opened Basics
  import opened Sequences
  import opened Numerals
  import opened Crc32
  import opened FwUpdate
  import opened OtaUpdates
  import opened OtaLaws
  import opened OtaTheorems
  import Topics
  import PayloadStreams
  import Download

  const DEVICE := Config("firmware", "1.0", 1024 * 1024)
  const EAGER := WriteEnv([], None, Some(1), true)
  const BROKEN := WriteEnv([], None, None, true)
  const WILLING := EndEnv(true, true)

  function Offer(size: nat, checksum: string): Attributes {
    Attributes("firmware", "2.0", size, checksum, "crc32")
  }

  /** A chunk that is a header and nothing else. */
  function Header(): seq<byte> {
    seq(HEADER_LEN, _ => 0)
  }

  /** What a server publishes as the checksum of these bytes. */
  function Published(bytes: seq<byte>): string {
    Print(Reversed(AsNumber(Crc(bytes))), 16)
  }

  /** o is reached by the events. */
  predicate Reaches(es: seq<Event>, o: Ota) {
    CanRun(Init(), DEVICE, es) && Run(Init(), DEVICE, es) == o
  }

  lemma Next(es: seq<Event>, o: Ota, e: Event)
    requires Reaches(es, o) && CanHappen(o, e)
    ensures Reaches(es + [e], Step(o, DEVICE, e))
  {
    hide Step, CanHappen;
    assert (es + [e])[..|es|] == es;
  }

  /** A subscribed entry is offered a new firmware and asks for its first chunk. */
  lemma Offered(o: Ota, size: nat, checksum: string, id: nat, now: nat)
    requires o.present && size <= 1024 * 1024
    ensures var a := Offer(size, checksum);
            Step(o, DEVICE, SharedAttributes(a, id, now, true)) ==
            RequestChunk(Publish(Start(Replace(o), a), DOWNLOADING), id, now)
  {}

  /** Power-on, subscription, and an offer at the given time. */
  lemma OfferedFirst(size: nat, checksum: string, now: nat) returns (es: seq<Event>, o: Ota)
    requires size <= 1024 * 1024
    ensures Reaches(es, o) && IsActive(o) && o.present && o.writer == CLEAN && o.flash == Flash([], 0)
    ensures o.session == Session(1, 0, 0, 0, now, size, Some(checksum))
    ensures o.history.found == CLEAN && o.history.before == [] && o.history.accepted == []
    ensures o.history.reports == [] && o.history.log == [Telemetry(DOWNLOADING)]
    ensures o.history.trace == [DOWNLOADING] && o.history.started == 1 && o.history.replaced == 0
  {
    hide Step, Reaches;
    var offer := SharedAttributes(Offer(size, checksum), 1, now, true);
    var es1, o1 := Subscribed();
    Next(es1, o1, offer);
    Offered(o1, size, checksum, 1, now);
    es, o := es1 + [offer], Step(o1, DEVICE, offer);
  }

  lemma Subscribed() returns (es: seq<Event>, o: Ota)
    ensures Reaches(es, o) && o == Init().(present := true)
  {
    Next([], Init(), Subscribe);
    es, o := [] + [Subscribe], Step(Init(), DEVICE, Subscribe);
  }

  /** ... and the first chunk, a header, of an image one byte longer. */
  lemma HeaderAccepted() returns (es: seq<Event>, o: Ota)
    ensures Reaches(es, o) && IsActive(o) && o.present && o.session.received == HEADER_LEN
    ensures o.writer == Writer(1, HEADER_LEN, true) && o.flash == Flash(Header(), 0)
    ensures o.history.reports == [] && o.history.log == [Telemetry(DOWNLOADING)]
    ensures o.history.started == 1 && o.history.replaced == 0
  {
    hide Update;
    var es0, o0 := OfferedFirst(HEADER_LEN + 1, "", 1);
    var chunk := Chunk(1, 0, Header(), EAGER, WILLING, 1, true);
    Next(es0, o0, chunk);
    NoWrap(HEADER_LEN);
    assert [] + Header() == Header();
    es, o := es0 + [chunk], Step(o0, DEVICE, chunk);
  }

  /**
   * A download is replaced by another offer after its first chunk, whose header was checked; the one-byte image of the
   * second session is verified, but written behind that chunk and never checked itself. What is booted is neither.
   */
  lemma BootedUnverified()
    ensures exists es, o :: Reaches(es, o)
              && o.flash == Flash(Header() + [7], 1) && |o.history.reports| == 1
              && o.history.reports[0].success && o.history.reports[0].bytes == [7]
  {
    hide Update, SwapBytes, Print, Scan, AsNumber, Header, Reversed;
    var es0, o0 := HeaderAccepted();
    var offer := SharedAttributes(Offer(1, Published([7])), 2, 1, true);
    Offered(o0, 1, Published([7]), 2, 1);
    Next(es0, o0, offer);
    var o1 := Step(o0, DEVICE, offer);
    assert |Header()| == HEADER_LEN by { assert |seq(HEADER_LEN, _ => 0 as byte)| == HEADER_LEN; }
    var chunk := Chunk(2, 0, [7], EAGER, WILLING, 1, true);
    Next(es0 + [offer], o1, chunk);
    PublishedChecksum([7], [7]);
    var o2 := Step(o1, DEVICE, chunk);
    var w := Write(o1.writer, o1.flash, [7], EAGER);
    OneChunk(o1, [7]);
    VerifiedMeans(Accept(o1, [7], w).session, [7]);
    assert o2 == Complete(Accept(o1, [7], w), WILLING);
    assert Reaches(es0 + [offer] + [chunk], o2);
  }

  lemma OneChunk(o: Ota, data: seq<byte>)
    requires o.history.accepted == [] && data != [] && o.session.received == 0 && |data| < UINT32
    requires o.session.checksum == 0
    ensures var o1 := Accept(o, data, Write(o.writer, o.flash, data, EAGER));
            Bytes(o1) == data && o1.session.received == |data| && o1.session.checksum == Crc(data)
  {
    hide Update, Write;
    FlattenAppend<byte>([], data);
    assert [] + data == data && [] + [data] == [data];
    NoWrap(|data|);
  }

  /**
   * The partition cannot be opened for the first chunk: the session is over, but its header counts as checked, and the
   * writer is stuck without a handle.
   */
  lemma SpoiledByFirstWrite()
    ensures exists es, o :: Reaches(es, o) && o.session == IDLE && IsStuck(o) && |o.history.reports| == 1
  {
    hide Update;
    var es0, o0 := OfferedFirst(HEADER_LEN, "", 1);
    var chunk := Chunk(1, 0, Header(), BROKEN, WILLING, 1, true);
    Next(es0, o0, chunk);
    assert Reaches(es0 + [chunk], Step(o0, DEVICE, chunk));
  }

  /** The version that is running is offered during a download: the download is gone, nobody hears of it. */
  lemma ReplacedSilently()
    ensures exists es, o :: Reaches(es, o) && o.present && o.session == IDLE && o.writer.headerChecked
              && o.history.started == o.history.replaced == 1 && o.history.reports == []
              && o.history.log == [Telemetry(DOWNLOADING)]
  {
    var es0, o0 := HeaderAccepted();
    var offer := SharedAttributes(Offer(1, "").(version := "1.0"), 2, 1, true);
    Next(es0, o0, offer);
    assert Reaches(es0 + [offer], Step(o0, DEVICE, offer));
  }

  /** Firmware for another device is offered during a download: FAILED is published while the download goes on. */
  lemma FailedWhileGoingOn()
    ensures exists es, o :: Reaches(es, o) && IsActive(o)
              && o.history.log == [Telemetry(DOWNLOADING), Telemetry(FAILED)]
  {
    var es0, o0 := OfferedFirst(1, "", 1);
    var offer := SharedAttributes(Offer(1, "").(title := "other"), 2, 1, true);
    Next(es0, o0, offer);
    assert Reaches(es0 + [offer], Step(o0, DEVICE, offer));
  }

  /** A chunk asked for at second 0 of the clock is waited for forever. */
  lemma NeverTimesOut()
    ensures exists es, o :: Reaches(es, o) && IsActive(o) && forall stamp :: Step(o, DEVICE, CheckTimeout(stamp)) == o
  {
    var es, o := OfferedFirst(1, "", 0);
    assert Reaches(es, o);
  }

  /** The conditions of a whole installation can be met: an image that is a header, sent as one fragment. */
  lemma Installable()
    ensures exists o, a, id, ts, w ::
              && Download.CanDownload(o, DEVICE, a, Header(), id) && Download.Answers(ts, Header(), id)
              && |ts| == 1 && Download.IsFavourable(w) && AcceptableImage(Header(), w.write)
  {
    hide SwapBytes, Print, Scan, AsNumber, Reversed, Update, Topics.FwResponseTopic;
    var image, checksum := Header(), Published(Header());
    PublishedChecksum(image, image);
    var o, a := Step(Init(), DEVICE, Subscribe), Offer(|image|, checksum);
    assert Download.CanDownload(o, DEVICE, a, image, 1);
    var t := PayloadStreams.Transfer(Topics.FwResponseTopic(1, 0), [image], |image|);
    assert [image][..0] == [] && [] + image == image;
    assert Flatten(t.fragments) == image;
    assert Download.ChunkCount(image) == 1 && Download.Slice(image, 0) == image;
    NonEmptyTopic();
    assert Download.Answers([t], image, 1);
    var w := Download.World(EAGER, WILLING, 1, true);
    assert Download.IsFavourable(w) && AcceptableImage(image, w.write);
  }

  lemma NonEmptyTopic()
    ensures Topics.FwResponseTopic(1, 0) != ""
  {}
}
