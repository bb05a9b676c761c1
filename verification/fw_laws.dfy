/** What exactly the firmware writer takes, what it does to flash, and what it remembers. */
module FwLaws {
  import opened Basics
  import opened FwUpdate

  /**
   * A writer that has checked no header takes a first chunk, the partition being ready, if and only if the chunk is at
   * least a header long and the 32 bytes of its version are neither those of the running image nor those of the image
   * that failed before. Only then is the partition opened.
   */
  lemma FirstWriteExactly(w: Writer, f: Flash, data: seq<byte>, env: WriteEnv)
    requires !w.headerChecked && data != []
    ensures var fits := |data| >= 288 && data[48..80] != env.running
                        && (env.invalid.Some? ==> data[48..80] != env.invalid.value);
            var r := Write(w, f, data, env);
            && (r.ok <==> fits && env.begin.Some? && env.writeOk)
            && (!fits ==> r.writer == w && r.flash == f)
            && (fits ==> r.writer.headerChecked)
            && (fits && env.begin.None? ==> r.flash == f && r.writer == Writer(w.handle, w.size, true))
            && (fits && env.begin.Some? ==>
                  && r.writer == Writer(env.begin.value, if r.ok then w.size + |data| else w.size, true)
                  && r.flash == Flash(if r.ok then data else [], f.boots))
  {
    assert [] + data == data;
  }

  /** Once a header was checked every chunk is appended behind what is there, unchecked, if ESP-IDF writes it. */
  lemma LaterWriteExactly(w: Writer, f: Flash, data: seq<byte>, env: WriteEnv)
    requires w.headerChecked && data != []
    ensures var r := Write(w, f, data, env);
            && (r.ok <==> env.writeOk)
            && (r.ok ==>
                  r.writer == Writer(w.handle, w.size + |data|, true) && r.flash == Flash(f.written + data, f.boots))
            && (!r.ok ==> r.writer == w && r.flash == f)
  {}

  /** An empty chunk is taken without a look at it, and changes nothing. */
  lemma EmptyWrite(w: Writer, f: Flash, env: WriteEnv)
    ensures Write(w, f, [], env) == Written(w, f, true)
  {}

  /** The boot partition is switched, and the record cleaned, if and only if both calls of ESP-IDF succeed. */
  lemma EndExactly(w: Writer, f: Flash, env: EndEnv)
    ensures var r := End(w, f, env);
            && (r.ok <==> env.endOk && env.setBootOk)
            && r.flash == Flash(f.written, if r.ok then f.boots + 1 else f.boots)
            && r.writer == if r.ok then Writer(0, 0, false) else w
  {}

  /** An image is accepted if and only if it has the current title, another version, and fits the partition. */
  lemma NegotiateExactly(partition: nat, currentTitle: string, currentVersion: string,
                         title: string, version: string, size: nat)
    ensures var d := Negotiate(partition, currentTitle, currentVersion, title, version, size);
            && (d == Accepted <==> title == currentTitle && version != currentVersion && size <= partition)
            && (d == UpToDate <==> title == currentTitle && version == currentVersion)
  {}
}
