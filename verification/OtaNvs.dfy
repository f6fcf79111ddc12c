/** The OTA namespace of the non-volatile storage as ota_nvs.c writes it, key by key. */
module OtaNvs {
  import opened Wrappers
  import opened OtaTypes
  import Resume
  import Verdict

  const IS_CHECKED: bv16 := 1
  const IS_PASSED: bv16 := 2

  function U16ToFlags(value: bv16): Flags {
    Flags(value & IS_CHECKED != 0, value & IS_PASSED != 0)
  }

  function FlagsToU16(flags: Flags): bv16 {
    (if flags.isChecked then IS_CHECKED else 0) | (if flags.isPassed then IS_PASSED else 0)
  }

  /** Flags survive the conversion both ways; a stored value is read by its two lowest bits only. */
  lemma FlagsRoundTrip(flags: Flags, value: bv16)
    ensures U16ToFlags(FlagsToU16(flags)) == flags
    ensures FlagsToU16(U16ToFlags(value)) == value & 3
  {
    assert value & 3 == (value & IS_CHECKED) | (value & IS_PASSED);
    assert value & IS_CHECKED == 0 || value & IS_CHECKED == IS_CHECKED;
    assert value & IS_PASSED == 0 || value & IS_PASSED == IS_PASSED;
  }

  /** Which of the four writes of the record succeed. */
  datatype Writes = Writes(jobId: bool, filetype: bool, version: bool, flags: bool)

  class Namespace {
    var jobId: Option<string>
    var filetype: Option<string>
    var version: Option<int>
    var statusFlags: Option<bv16>
    var resumeDesc: Option<Resume.Desc>
    var resumeData: Option<Resume.Tracker>

    ghost function Record(): Verdict.Record
      reads this
    {
      Verdict.Record(jobId, version, filetype, if statusFlags.Some? then Some(U16ToFlags(statusFlags.value)) else None)
    }

    ghost function Store(): Resume.Store
      reads this
    {
      Resume.Store(resumeDesc, resumeData)
    }

    constructor ()
      ensures Record() == Verdict.NO_RECORD && Store() == Resume.Store(None, None)
    {
      jobId, filetype, version, statusFlags, resumeDesc, resumeData := None, None, None, None, None, None;
    }

    /** The keys are written in order and the first failure ends it, so what a crash or a failure leaves is a prefix
        of the new record over the old one. */
    method SetJobPendingVerification(id: Option<string>, newFiletype: Option<string>, nextVersion: int,
                                     openOk: bool, w: Writes)
      returns (ok: bool)
      modifies `jobId, `filetype, `version, `statusFlags
      ensures ok <==> id.Some? && nextVersion >= 0 && openOk && w.jobId && (newFiletype.Some? ==> w.filetype)
                      && w.version && w.flags
      ensures ok ==> Record() == Verdict.Record(id, Some(nextVersion),
                                                if newFiletype.Some? then newFiletype else old(Record()).filetype,
                                                Some(Flags(false, false)))
      ensures var n := if id.None? || nextVersion < 0 || !openOk || !w.jobId then 0
                       else if newFiletype.Some? && !w.filetype then 1
                       else if !w.version then 2
                       else if !w.flags then 3
                       else 4;
              Record() == RecordPrefix(old(Record()), id, newFiletype, nextVersion, n)
    {
      if id.None? || nextVersion < 0 {
        return false;
      }
      if !openOk {
        return false;
      }
      if !w.jobId {
        return false;
      }
      jobId := id;
      if newFiletype.Some? {
        if !w.filetype {
          return false;
        }
        filetype := newFiletype;
      }
      if !w.version {
        return false;
      }
      version := Some(nextVersion);
      if !w.flags {
        return false;
      }
      statusFlags := Some(FlagsToU16(Flags(false, false)));
      FlagsRoundTrip(Flags(false, false), 0);
      ok := true;
    }

    /** Only a record with a job, a version and readable flags gets a status, and an existing one only on demand. */
    method SetStatusIfPendingVerification(passed: bool, overrideExisting: bool, openOk: bool, readOk: bool,
                                          writeOk: bool)
      returns (ok: bool)
      modifies `statusFlags
      ensures Record() == if openOk && readOk && writeOk && Verdict.StatusMayBeSet(old(Record()), overrideExisting)
                          then Verdict.SetStatus(old(Record()), passed) else old(Record())
      ensures ok ==> Verdict.StatusMayBeSet(old(Record()), true) ==>
                Record().flags.value.isChecked && (overrideExisting ==> Record().flags.value.isPassed == passed)
    {
      if !openOk {
        return false;
      }
      if jobId.None? || jobId.value == "" {
        return true;
      }
      if version.None? || version.value < 0 {
        return true;
      }
      if statusFlags.None? || !readOk {
        return false;
      }
      var flags := U16ToFlags(statusFlags.value);
      if !overrideExisting && flags.isChecked {
        return true;
      }
      flags := flags.(isChecked := true, isPassed := passed);
      if !writeOk {
        return false;
      }
      statusFlags := Some(FlagsToU16(flags));
      FlagsRoundTrip(flags, 0);
      ok := true;
    }

    method GetStatus(readOk: bool) returns (flags: Option<Flags>)
      ensures flags == if readOk then Record().flags else None
    {
      if statusFlags.None? || !readOk {
        return None;
      }
      flags := Some(U16ToFlags(statusFlags.value));
    }

    /** The tracker is written before the descriptor that makes it visible. */
    method ResumeSave(desc: Resume.Desc, bytes: seq<bv8>, openOk: bool, dataOk: bool, descOk: bool) returns (ok: bool)
      modifies `resumeDesc, `resumeData
      ensures ok <==> openOk && dataOk && descOk
      ensures ok ==> Resume.Load(Store()) == Some((desc, Resume.Tracker(bytes, desc)))
      ensures !openOk || !dataOk ==> Store() == old(Store())
      ensures openOk && dataOk && !descOk ==>
                Store() == old(Store()).(data := Some(Resume.Tracker(bytes, desc)))
    {
      if !openOk || !dataOk {
        return false;
      }
      resumeData := Some(Resume.Tracker(bytes, desc));
      if !descOk {
        return false;
      }
      resumeDesc := Some(desc);
      ok := true;
    }

    method ResumeLoad(openOk: bool) returns (loaded: Option<(Resume.Desc, Resume.Tracker)>)
      ensures loaded == if openOk then Resume.Load(Store()) else None
    {
      if !openOk || resumeDesc.None? || resumeData.None? {
        return None;
      }
      loaded := Some((resumeDesc.value, resumeData.value));
    }

    /** Both erases are tried, whatever becomes of the first; the answer does not tell whether they worked. */
    method ResumeClear(openOk: bool, descOk: bool, dataOk: bool) returns (ok: bool)
      modifies `resumeDesc, `resumeData
      ensures ok == openOk
      ensures openOk && descOk ==> Resume.Load(Store()).None?
      ensures Store() == if !openOk then old(Store())
                         else Resume.Store(if descOk then None else old(Store()).desc,
                                           if dataOk then None else old(Store()).data)
    {
      if !openOk {
        return false;
      }
      if descOk {
        resumeDesc := None;
      }
      if dataOk {
        resumeData := None;
      }
      ok := true;
    }
  }

  /** The record after the first `n` of the writes of job id, filetype (if there is one), version and flags. */
  function RecordPrefix(r: Verdict.Record, id: Option<string>, filetype: Option<string>, version: int, n: nat)
    : Verdict.Record
  {
    Verdict.Record(if n >= 1 then id else r.jobId,
                   if n >= 3 then Some(version) else r.version,
                   if n >= 2 && filetype.Some? then filetype else r.filetype,
                   if n >= 4 then Some(Flags(false, false)) else r.flags)
  }

  /** The record steps of the state machine between which a crash may fall. */
  function RecordSteps(s: Verdict.World, version: nat, n: nat): Verdict.World
    decreases n
  {
    if n == 0 then s else Verdict.MoveRecord(RecordSteps(s, version, n - 1), true, version)
  }

  /** What is written next after `n` writes. */
  function StageAfter(custom: Option<string>, n: nat): Verdict.RecordPc {
    if n == 0 then Verdict.WriteId
    else if custom.Some? && n == 1 then Verdict.WriteFiletype
    else if n == if custom.Some? then 2 else 1 then Verdict.WriteVersion
    else if n == if custom.Some? then 3 else 2 then Verdict.WriteFlags
    else Verdict.NotRecording
  }

  /** The prefixes the method leaves are exactly the records between the steps of the crash model. */
  lemma {:induction false} PrefixesAreSteps(s: Verdict.World, version: nat, n: nat)
    requires s.recording == Verdict.WriteId && n <= if s.custom.Some? then 4 else 3
    ensures var m := if s.custom.None? && n >= 2 then n + 1 else n;
            var s' := RecordSteps(s, version, n);
            && s'.record == RecordPrefix(s.record, Some(s.about), s.custom, version, m)
            && s'.custom == s.custom && s'.about == s.about && s'.recording == StageAfter(s.custom, n)
    decreases n
  {
    if n > 0 {
      PrefixesAreSteps(s, version, n - 1);
    }
  }
}
