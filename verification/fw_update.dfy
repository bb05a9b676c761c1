/** The firmware writer behind a download: esp_ota_begin, _write, _end and _abort over one update partition. */
module FwUpdate {
  import opened Basics
  import opened Sequences

  /** sizeof(esp_image_header_t) + sizeof(esp_image_segment_header_t) + sizeof(esp_app_desc_t) of ESP-IDF. */
  const HEADER_LEN: nat := 24 + 8 + 256
  /** The version field inside that header. */
  const VERSION_OFFSET: nat := 24 + 8 + 16
  const VERSION_LEN: nat := 32

  /** The static record _fwupdate; handle 0 means that no update is open. */
  datatype Writer = Writer(handle: nat, size: nat, headerChecked: bool)

  const CLEAN := Writer(0, 0, false)

  /** What esp_ota_write was given since the partition was last opened; how often the boot partition was switched. */
  datatype Flash = Flash(written: seq<byte>, boots: nat)

  /** ESP-IDF during one write: versions of the running and the last invalid image, esp_ota_begin, esp_ota_write. */
  datatype WriteEnv = WriteEnv(running: seq<byte>, invalid: Option<seq<byte>>, begin: Option<nat>, writeOk: bool)

  predicate ValidEnv(env: WriteEnv) {
    env.begin.Some? ==> env.begin.value > 0
  }

  /** Answers of esp_ota_end and esp_ota_set_boot_partition. */
  datatype EndEnv = EndEnv(endOk: bool, setBootOk: bool)

  datatype Decision = Refused | UpToDate | Accepted

  function Negotiate(partition: nat, currentTitle: string, currentVersion: string,
                     title: string, version: string, size: nat): Decision
  {
    if title != currentTitle then Refused
    else if version == currentVersion then UpToDate
    else if size > partition then Refused
    else Accepted
  }

  function VersionOf(data: seq<byte>): seq<byte>
    requires |data| >= HEADER_LEN
  {
    data[VERSION_OFFSET..VERSION_OFFSET + VERSION_LEN]
  }

  /** The new image is neither the one that failed before nor the one that is running. */
  predicate AcceptableImage(data: seq<byte>, env: WriteEnv) {
    && |data| >= HEADER_LEN
    && (env.invalid.Some? ==> env.invalid.value != VersionOf(data))
    && env.running != VersionOf(data)
  }

  datatype Written = Written(writer: Writer, flash: Flash, ok: bool)

  function Program(w: Writer, f: Flash, data: seq<byte>, env: WriteEnv): Written {
    if env.writeOk then Written(w.(size := w.size + |data|), f.(written := f.written + data), true)
    else Written(w, f, false)
  }

  function Write(w: Writer, f: Flash, data: seq<byte>, env: WriteEnv): Written {
    if data == [] then Written(w, f, true)
    else if w.headerChecked then Program(w, f, data, env)
    else if !AcceptableImage(data, env) then Written(w, f, false)
    else
      var checked := w.(headerChecked := true);
      if env.begin.None? then Written(checked, f, false)
      else Program(checked.(handle := env.begin.value), f.(written := []), data, env)
  }

  function End(w: Writer, f: Flash, env: EndEnv): Written {
    if env.endOk && env.setBootOk then Written(CLEAN, f.(boots := f.boots + 1), true) else Written(w, f, false)
  }

  /** The writer in place. */
  class FwWriter {
    var updateHandle: nat
    var size: nat
    var imageHeaderWasChecked: bool
    ghost var flash: Flash

    ghost function Model(): Writer
      reads this
    {
      Writer(updateHandle, size, imageHeaderWasChecked)
    }

    constructor ()
      ensures Model() == CLEAN && flash == Flash([], 0)
    {
      updateHandle, size, imageHeaderWasChecked := 0, 0, false;
      flash := Flash([], 0);
    }

    /** Also what ota_fwupdate_init does to the record when an OTA entry is created. */
    method Reset()
      modifies this
      ensures Model() == CLEAN && flash == old(flash)
    {
      updateHandle := 0;
      size := 0;
      imageHeaderWasChecked := false;
    }

    method WriteData(data: seq<byte>, env: WriteEnv) returns (ok: bool)
      modifies this
      ensures Written(Model(), flash, ok) == Write(old(Model()), old(flash), data, env)
    {
      if |data| == 0 {
        return true;
      }
      if imageHeaderWasChecked == false {
        if |data| < HEADER_LEN {
          return false;
        }
        var version := data[VERSION_OFFSET..VERSION_OFFSET + VERSION_LEN];
        if env.invalid.Some? {
          if env.invalid.value == version {
            return false;
          }
        }
        if version == env.running {
          return false;
        }
        imageHeaderWasChecked := true;
        if env.begin.None? {
          return false;
        }
        updateHandle := env.begin.value;
        flash := flash.(written := []);
      }
      if !env.writeOk {
        return false;
      }
      flash := flash.(written := flash.written + data);
      size := size + |data|;
      return true;
    }

    method Finish(env: EndEnv) returns (ok: bool)
      modifies this
      ensures Written(Model(), flash, ok) == End(old(Model()), old(flash), env)
    {
      if !env.endOk {
        return false;
      }
      if !env.setBootOk {
        return false;
      }
      flash := flash.(boots := flash.boots + 1);
      Reset();
      return true;
    }

    method Abort()
      modifies this
      ensures Model() == CLEAN && flash == old(flash)
    {
      Reset();
    }
  }
}
