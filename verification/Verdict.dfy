/** The verdict on an updated image across reboots: the record in NVS, the state of the image, the writes of the
    state machine, of the reboot handler and of any number of mark-valid and mark-invalid calls, with a crash
    possible between any two writes. Rollback detection is exact, a VALID image is never rolled back, and no image
    is installed while the running one is pending verification. */
module Verdict {
  import opened Wrappers
  import opened OtaTypes
  import OtaSpec

  /** What has become of the image of the last update. */
  datatype Fate = NoUpdate | Installed | Pending | Valid | RolledBack

  /** The four keys of the pending-verification record. */
  datatype Record = Record(jobId: Option<string>, version: Option<int>, filetype: Option<string>, flags: Option<Flags>)

  /** Where a mark-valid or mark-invalid call is after its check that the image is pending. */
  datatype MarkPc =
    | ValidMark
    | ValidStatus(passed: bool)
    | ValidWrite(passed: bool)
    | InvalidStatus
    | InvalidWrite
    | InvalidRollback

  datatype BootPc = BootStart | BootStatus(passed: bool) | BootWrite(passed: bool) | Booted

  /** Where the state machine is in `esp_rmaker_ota_nvs_set_job_pending_verification`. */
  datatype RecordPc = NotRecording | WriteId | WriteFiletype | WriteVersion | WriteFlags

  datatype Loaded = Loaded(id: string, custom: bool)

  /** A published verdict, with the persisted flags and what had become of the job's image at that moment. */
  datatype Publication = Publication(id: string, passed: bool, persisted: Option<Flags>, fate: Fate)

  /** `about` is the job whose image was installed last and `fate` what has become of it; `outcomes` is history:
      what had become of the images of the jobs before it when they were replaced. */
  datatype World = World(
    rollbackEnabled: bool,
    record: Record,
    fate: Fate,
    about: string,
    custom: Option<string>,
    marks: map<nat, MarkPc>,
    boot: BootPc,
    recording: RecordPc,
    loaded: Option<Loaded>,
    published: seq<Publication>,
    outcomes: map<string, Fate>)

  const NO_RECORD := Record(None, None, None, None)

  function Initial(rollbackEnabled: bool): World {
    World(rollbackEnabled, NO_RECORD, NoUpdate, "", None, map[], BootStart, NotRecording, None, [], map[])
  }

  /** What has become of the image a job installed last. */
  function Outcome(s: World, id: string): Fate {
    if id == s.about then s.fate else if id in s.outcomes then s.outcomes[id] else NoUpdate
  }

  datatype Step =
    | Reboot
    | BootMoves(ok: bool)
    | MarkCalled(thread: nat, valid: bool)
    | MarkMoves(thread: nat, ok: bool)
    | Load
    | PublishVerdict(readOk: bool)
    | Clear(eraseId: bool, eraseVersion: bool, eraseFiletype: bool, eraseFlags: bool)
    | Install(id: string, custom: Option<string>)
    | RecordMoves(ok: bool, version: nat)

  predicate Resting(s: World) {
    s.boot == Booted && s.recording == NotRecording
  }

  predicate Enabled(s: World, step: Step) {
    match step
    case Reboot => true
    case BootMoves(_) => s.boot != Booted
    case MarkCalled(t, _) => t !in s.marks
    case MarkMoves(t, _) => t in s.marks
    case Load => Resting(s) && s.loaded.None? && RecordUsable(s.record)
    case PublishVerdict(_) => Resting(s) && s.loaded.Some? && !s.loaded.value.custom
    case Clear(_, _, _, _) => Resting(s)
    case Install(id, _) => Resting(s) && s.fate != Pending && id != ""
    case RecordMoves(_, _) => s.recording != NotRecording
  }

  predicate RecordUsable(r: Record) {
    r.jobId.Some? && r.jobId.value != "" && r.version.Some? && r.version.value >= 0
  }

  /** A reboot or a crash: the bootloader decides about an image that has not been confirmed. */
  function Restart(s: World): World {
    var fate :=
      match s.fate
      case Installed => if s.rollbackEnabled then Pending else Valid
      case Pending => RolledBack
      case f => f;
    s.(fate := fate, marks := map[], boot := BootStart, recording := NotRecording, loaded := None)
  }

  /** The guard of `esp_rmaker_ota_nvs_set_status_if_pending_verification`. */
  predicate StatusMayBeSet(r: Record, overrideExisting: bool) {
    RecordUsable(r) && r.flags.Some? && (overrideExisting || !r.flags.value.isChecked)
  }

  function SetStatus(r: Record, passed: bool): Record {
    r.(flags := Some(Flags(true, passed)))
  }

  /** `esp_rmaker_ota_handle_reboot`, the default-filetype path on an image that is not pending. */
  function MoveBoot(s: World, ok: bool): World {
    match s.boot
    case BootStart =>
      if s.record.filetype.Some? || s.fate == Pending then s.(boot := Booted)
      else s.(boot := BootStatus(s.fate != RolledBack))
    case BootStatus(passed) => s.(boot := if StatusMayBeSet(s.record, false) then BootWrite(passed) else Booted)
    case BootWrite(passed) => s.(boot := Booted, record := if ok then SetStatus(s.record, passed) else s.record)
    case Booted => s
  }

  /** `esp_rmaker_ota_mark_valid` and `esp_rmaker_ota_mark_invalid`. */
  function MoveMark(s: World, t: nat, ok: bool): World
    requires t in s.marks
  {
    var rest := s.(marks := s.marks - {t});
    match s.marks[t]
    case ValidMark =>
      s.(fate := if ok && s.fate == Pending then Valid else s.fate,
         marks := s.marks[t := ValidStatus(ok)])
    case ValidStatus(passed) =>
      if StatusMayBeSet(s.record, true) then s.(marks := s.marks[t := ValidWrite(passed)]) else rest
    case ValidWrite(passed) => if ok then rest.(record := SetStatus(s.record, passed)) else rest
    case InvalidStatus =>
      s.(marks := s.marks[t := if StatusMayBeSet(s.record, true) then InvalidWrite else InvalidRollback])
    case InvalidWrite =>
      s.(marks := s.marks[t := InvalidRollback], record := if ok then SetStatus(s.record, false) else s.record)
    case InvalidRollback => if ok && s.fate == Pending then Restart(s) else rest
  }

  /** The writes of the record, in order; the first that fails ends them. */
  function MoveRecord(s: World, ok: bool, version: nat): World {
    if !ok then s.(recording := NotRecording)
    else
      match s.recording
      case NotRecording => s
      case WriteId =>
        s.(record := s.record.(jobId := Some(s.about)),
           recording := if s.custom.Some? then WriteFiletype else WriteVersion)
      case WriteFiletype => s.(record := s.record.(filetype := s.custom), recording := WriteVersion)
      case WriteVersion => s.(record := s.record.(version := Some(version)), recording := WriteFlags)
      case WriteFlags => s.(record := s.record.(flags := Some(Flags(false, false))), recording := NotRecording)
  }

  /** The REBOOT_CHECK handler: flags that cannot be read count as a failed check. */
  function Publish(s: World, readOk: bool): World
    requires s.loaded.Some?
  {
    var flags := if readOk && s.record.flags.Some? then s.record.flags.value else Flags(true, false);
    if flags.isChecked then
      s.(published := s.published
                      + [Publication(s.loaded.value.id, flags.isPassed, s.record.flags, Outcome(s, s.loaded.value.id))])
    else s
  }

  /** `esp_rmaker_ota_clear_nvs`, any part of which may not take effect. */
  function Erase(r: Record, jobId: bool, version: bool, filetype: bool, flags: bool): Record {
    Record(if jobId then None else r.jobId, if version then None else r.version,
           if filetype then None else r.filetype, if flags then None else r.flags)
  }

  function Next(s: World, step: Step): World
    requires Enabled(s, step)
  {
    match step
    case Reboot => Restart(s)
    case BootMoves(ok) => MoveBoot(s, ok)
    case MarkCalled(t, valid) =>
      if s.fate == Pending then s.(marks := s.marks[t := if valid then ValidMark else InvalidStatus]) else s
    case MarkMoves(t, ok) => MoveMark(s, t, ok)
    case Load =>
      s.(loaded := Some(Loaded(s.record.jobId.value, s.record.filetype.Some? && s.record.filetype.value != "")))
    case PublishVerdict(readOk) => Publish(s, readOk)
    case Clear(i, v, f, g) => s.(record := Erase(s.record, i, v, f, g), loaded := None)
    case Install(id, custom) =>
      s.(fate := Installed, about := id, custom := custom, recording := WriteId, loaded := None,
         outcomes := s.outcomes[s.about := s.fate])
    case RecordMoves(ok, version) => MoveRecord(s, ok, version)
  }

  ghost predicate IsRun(ss: seq<World>, steps: seq<Step>) {
    && |ss| == |steps| + 1
    && (exists rollbackEnabled :: ss[0] == Initial(rollbackEnabled))
    && forall i | 0 <= i < |steps| :: Enabled(ss[i], steps[i]) && ss[i + 1] == Next(ss[i], steps[i])
  }

  /* ---------- What each operation does ---------- */

  /** A status is written only to a record with a job, a version and flags, and over a checked one only on demand. */
  lemma StatusGuard(r: Record, overrideExisting: bool)
    ensures StatusMayBeSet(r, overrideExisting) <==>
              && r.jobId.Some? && |r.jobId.value| > 0 && r.version.Some? && r.version.value >= 0
              && r.flags.Some? && (r.flags.value.isChecked ==> overrideExisting)
  {
  }

  /** The flags become checked, and passed as told; nothing else changes. */
  lemma StatusSet(r: Record, passed: bool)
    ensures SetStatus(r, passed).flags == Some(Flags(true, passed))
    ensures SetStatus(r, passed).(flags := r.flags) == r
  {
  }

  /** After a reboot the new image runs unconfirmed, if rollback is enabled, and a second reboot before it is confirmed
      rolls it back; nothing else changes what has become of it, and nothing stored is lost. */
  lemma RestartDecides(s: World)
    ensures var n := Restart(s);
            && (n.fate == Pending <==> s.fate == Installed && s.rollbackEnabled)
            && (n.fate == RolledBack <==> s.fate == Pending || s.fate == RolledBack)
            && (n.fate == Valid <==> s.fate == Valid || (s.fate == Installed && !s.rollbackEnabled))
            && n == s.(fate := n.fate, marks := map[], boot := BootStart, recording := NotRecording, loaded := None)
  {
  }

  /** A mark-valid call on a pending image, undisturbed: the image is confirmed if the bootloader takes it, and then the
      record says whether it did, if it can be written at all. */
  lemma MarkValidDecides(s: World, t: nat, ok: bool, written: bool)
    requires s.fate == Pending && t !in s.marks
    ensures var s1 := Next(s, MarkCalled(t, true));
            t in s1.marks
            && var s2 := MoveMark(s1, t, ok);
               && s2.fate == (if ok then Valid else Pending) && t in s2.marks
               && var s3 := MoveMark(s2, t, written);
                  && (t in s3.marks <==> StatusMayBeSet(s.record, true)) && s3.record == s.record
                  && (t in s3.marks ==>
                        var s4 := MoveMark(s3, t, written);
                        && s4.record == (if written then SetStatus(s.record, ok) else s.record)
                        && s4.fate == s2.fate && s4.marks == s.marks)
  {
  }

  /** A mark-invalid call on a pending image, undisturbed: the record says failed, if it can be written, and then the
      image is rolled back. */
  lemma MarkInvalidDecides(s: World, t: nat, written: bool)
    requires s.fate == Pending && t !in s.marks && StatusMayBeSet(s.record, true)
    ensures var s1 := Next(s, MarkCalled(t, false));
            t in s1.marks
            && var s2 := MoveMark(s1, t, true);
               t in s2.marks
               && var s3 := MoveMark(s2, t, written);
                  && s3.record == (if written then SetStatus(s.record, false) else s.record) && t in s3.marks
                  && MoveMark(s3, t, true) == Restart(s3) && MoveMark(s3, t, true).fate == RolledBack
                  && MoveMark(s3, t, false).marks == s.marks && MoveMark(s3, t, false).fate == Pending
  {
  }

  /** Without a record to write to a mark-invalid call goes straight to the rollback, and no call does anything to an
      image that is not pending. */
  lemma MarkWithoutRecord(s: World, t: nat, valid: bool)
    requires t !in s.marks
    ensures s.fate == Pending && !StatusMayBeSet(s.record, true) ==>
              var s1 := Next(s, MarkCalled(t, false));
              t in s1.marks
              && var s2 := MoveMark(s1, t, true);
                 t in s2.marks && s2.record == s.record && MoveMark(s2, t, true).fate == RolledBack
    ensures s.fate != Pending ==> Next(s, MarkCalled(t, valid)) == s
  {
  }

  /** The boot's pass over the record: nothing for a custom filetype or a pending image, else a status for an unchecked
      record. */
  lemma BootPasses(s: World, ok: bool)
    requires s.boot == BootStart
    ensures var n := MoveBoot(s, ok);
            && (n.boot == Booted <==> s.record.filetype.Some? || s.fate == Pending)
            && (n.boot != Booted ==> n.boot == BootStatus(s.fate != RolledBack))
            && n == s.(boot := n.boot)
            && (n.boot != Booted ==>
                  var m := MoveBoot(n, ok);
                  && (m.boot == BootWrite(s.fate != RolledBack) <==> StatusMayBeSet(s.record, false))
                  && (m.boot == Booted <==> !StatusMayBeSet(s.record, false)) && m == n.(boot := m.boot)
                  && (m.boot != Booted && !ok ==> MoveBoot(m, ok) == s.(boot := Booted)))
  {
  }

  /** The record of the last job is loaded as it is, for a custom filetype or not, and clearing removes each key whose
      erase takes effect. */
  lemma LoadAndClear(s: World, i: bool, v: bool, f: bool, g: bool)
    requires Resting(s)
    ensures Enabled(s, Load) <==> s.loaded.None? && RecordUsable(s.record)
    ensures Enabled(s, Load) ==>
              Next(s, Load) == s.(loaded := Some(Loaded(s.record.jobId.value,
                                                        s.record.filetype.Some? && |s.record.filetype.value| > 0)))
    ensures var n := Next(s, Clear(i, v, f, g));
            && n == s.(loaded := None, record := n.record)
            && n.record.jobId == (if i then None else s.record.jobId)
            && n.record.version == (if v then None else s.record.version)
            && n.record.filetype == (if f then None else s.record.filetype)
            && n.record.flags == (if g then None else s.record.flags)
  {
  }

  /** An install replaces the image and remembers what had become of the last one. */
  lemma InstallReplaces(s: World, id: string, custom: Option<string>)
    requires Enabled(s, Install(id, custom))
    ensures var n := Next(s, Install(id, custom));
            && n.fate == Installed && n.about == id && n.custom == custom && n.recording == WriteId && n.loaded == None
            && n.record == s.record && n.marks == s.marks && n.published == s.published
            && n.outcomes == s.outcomes[s.about := s.fate]
    ensures s.boot == Booted && s.recording == NotRecording && s.fate != Pending
  {
  }

  predicate Passed(r: Record) {
    r.flags.Some? && r.flags.value.isPassed
  }

  /** A passed flag belongs to a job whose image is confirmed for good. */
  predicate Truthful(s: World) {
    Passed(s.record) && s.record.jobId.Some? ==> Outcome(s, s.record.jobId.value) == Valid
  }

  /** A published success: the flag was persisted as passed and the job's image was confirmed for good. */
  predicate Honest(p: Publication) {
    p.passed ==> p.persisted == Some(Flags(true, true)) && p.fate == Valid
  }

  /* ---------- When an image may be installed ---------- */

  /** A mark call that can still write that the check was passed. */
  predicate MayPass(pc: MarkPc) {
    pc.ValidMark? || ((pc.ValidStatus? || pc.ValidWrite?) && pc.passed)
  }

  predicate Writing(pc: MarkPc) {
    pc.ValidWrite? || pc.InvalidWrite?
  }

  predicate MarkWriting(s: World) {
    exists t | t in s.marks :: Writing(s.marks[t])
  }

  /** A later boot or mark call can still write a verdict into the record as it is now. */
  predicate VerdictMayCome(s: World) {
    RecordUsable(s.record) && (StatusMayBeSet(s.record, s.rollbackEnabled) || MarkWriting(s))
  }

  /** The record at the install of an image for job `id`: no passed flag is left that the new job would inherit, and
      no verdict can still be written for another job whose image was not confirmed. */
  predicate CleanRecord(s: World, id: string) {
    && !Passed(s.record)
    && (VerdictMayCome(s) && s.record.jobId.value != id ==> Outcome(s, s.record.jobId.value) == Valid)
  }

  /** The mark calls at the install: none of them can still write a passed flag. */
  predicate CleanMarks(s: World) {
    forall t | t in s.marks :: !MayPass(s.marks[t])
  }

  predicate CleanInstall(s: World, step: Step) {
    step.Install? ==> CleanRecord(s, step.id) && CleanMarks(s)
  }

  /* ---------- The invariant ---------- */

  predicate RecordOk(s: World) {
    s.record.jobId.Some? ==> Outcome(s, s.record.jobId.value) == Valid
  }

  predicate MarkSound(s: World, pc: MarkPc) {
    && s.rollbackEnabled && (s.fate == Pending || s.fate == Valid || s.fate == Installed)
    && (MayPass(pc) ==> s.fate != Installed && s.recording == NotRecording)
    && (MayPass(pc) && !pc.ValidMark? ==> s.fate == Valid)
    && (MayPass(pc) && pc.ValidWrite? ==> RecordOk(s))
  }

  ghost predicate Inv(s: World) {
    && Truthful(s)
    && (VerdictMayCome(s) && s.record.jobId.value != s.about ==> Outcome(s, s.record.jobId.value) == Valid)
    && (s.fate == NoUpdate ==> s.record.jobId.None? && s.loaded.None?)
    && (s.fate == Pending || s.fate == RolledBack ==> s.rollbackEnabled)
    && (forall t | t in s.marks :: MarkSound(s, s.marks[t]))
    && (s.boot != Booted ==> s.fate != Installed && s.recording == NotRecording)
    && (s.boot.BootStatus? && s.boot.passed ==> s.fate == Valid || s.fate == NoUpdate)
    && (s.boot.BootWrite? && s.boot.passed ==> RecordOk(s))
    && (s.boot.BootWrite? && s.record.jobId.Some? && s.record.jobId.value != s.about ==> RecordOk(s))
    && (s.recording != NotRecording ==> s.fate == Installed && !Passed(s.record))
    && (s.recording != NotRecording && s.recording != WriteId ==> s.record.jobId == Some(s.about))
    && (s.loaded.Some? ==> s.record.jobId == Some(s.loaded.value.id) && s.recording == NotRecording)
    && (forall p | p in s.published :: Honest(p))
  }

  lemma ValidMarkKeeps(s: World, t: nat, ok: bool)
    requires Inv(s) && t in s.marks && (s.marks[t].ValidMark? || s.marks[t].ValidStatus?)
    ensures Inv(MoveMark(s, t, ok))
  {
  }

  lemma ValidWriteKeeps(s: World, t: nat, ok: bool)
    requires Inv(s) && t in s.marks && s.marks[t].ValidWrite?
    ensures Inv(MoveMark(s, t, ok))
  {
  }

  lemma InvalidKeeps(s: World, t: nat, ok: bool)
    requires Inv(s) && t in s.marks && (s.marks[t].InvalidStatus? || s.marks[t].InvalidWrite?)
    ensures Inv(MoveMark(s, t, ok))
  {
  }

  lemma RestartKeeps(s: World)
    requires Inv(s)
    ensures Inv(Restart(s))
  {
  }

  lemma MarkKeeps(s: World, t: nat, ok: bool)
    requires Inv(s) && t in s.marks
    ensures Inv(MoveMark(s, t, ok))
  {
    match s.marks[t]
    case ValidMark => ValidMarkKeeps(s, t, ok);
    case ValidStatus(_) => ValidMarkKeeps(s, t, ok);
    case ValidWrite(_) => ValidWriteKeeps(s, t, ok);
    case InvalidStatus => InvalidKeeps(s, t, ok);
    case InvalidWrite => InvalidKeeps(s, t, ok);
    case InvalidRollback => RestartKeeps(s);
  }

  lemma BootKeeps(s: World, ok: bool)
    requires Inv(s) && s.boot != Booted
    ensures Inv(MoveBoot(s, ok))
  {
  }

  lemma RecordKeeps(s: World, ok: bool, version: nat)
    requires Inv(s) && s.recording != NotRecording
    ensures Inv(MoveRecord(s, ok, version))
  {
  }

  lemma InstallKeeps(s: World, id: string, custom: Option<string>)
    requires Inv(s) && Enabled(s, Install(id, custom)) && CleanRecord(s, id) && CleanMarks(s)
    ensures Inv(Next(s, Install(id, custom)))
  {
  }

  lemma NextKeeps(s: World, step: Step)
    requires Inv(s) && Enabled(s, step) && CleanInstall(s, step)
    ensures Inv(Next(s, step))
  {
    hide Inv, MoveMark, MoveBoot, MoveRecord, Restart;
    match step
    case Reboot => RestartKeeps(s);
    case MarkMoves(t, ok) => MarkKeeps(s, t, ok);
    case BootMoves(ok) => BootKeeps(s, ok);
    case RecordMoves(ok, version) => RecordKeeps(s, ok, version);
    case Install(id, custom) => InstallKeeps(s, id, custom);
    case _ => OtherKeeps(s, step);
  }

  lemma OtherKeeps(s: World, step: Step)
    requires Inv(s) && Enabled(s, step) && (step.MarkCalled? || step.Load? || step.PublishVerdict? || step.Clear?)
    ensures Inv(Next(s, step))
  {
  }

  lemma {:induction false} InvOverRuns(ss: seq<World>, steps: seq<Step>, k: nat)
    requires IsRun(ss, steps) && k < |ss|
    requires forall i | 0 <= i < |steps| :: CleanInstall(ss[i], steps[i])
    ensures Inv(ss[k])
    decreases k
  {
    if k == 0 {
      var rollbackEnabled :| ss[0] == Initial(rollbackEnabled);
    } else {
      hide Inv, Next, Enabled, CleanInstall;
      InvOverRuns(ss, steps, k - 1);
      NextKeeps(ss[k - 1], steps[k - 1]);
    }
  }

  /** Crash-safe verdict: with a crash between any two writes and any number of mark calls, as long as every install
      is clean, a default-filetype job is published Succeeded only while its flag is persisted as passed and its
      image is VALID, and the flag is never passed for an image that is pending or was rolled back. */
  lemma CrashSafeVerdict(ss: seq<World>, steps: seq<Step>, k: nat)
    requires IsRun(ss, steps) && k < |ss|
    requires forall i | 0 <= i < |steps| :: CleanInstall(ss[i], steps[i])
    ensures forall p | p in ss[k].published && p.passed :: p.persisted == Some(Flags(true, true)) && p.fate == Valid
    ensures Passed(ss[k].record) && ss[k].record.jobId.Some? ==> Outcome(ss[k], ss[k].record.jobId.value) == Valid
  {
    InvOverRuns(ss, steps, k);
  }

  /** The next boot decides what was left undecided: an undisturbed pass of the reboot handler over an unchecked
      record of a default-filetype job leaves it checked, and passed exactly when the image was not rolled back,
      even if the new image never got to say anything. */
  lemma BootDecides(s: World)
    requires s.boot == BootStart && RecordUsable(s.record) && s.record.filetype.None?
    requires s.record.flags == Some(Flags(false, false)) && s.fate != Pending
    ensures var n := MoveBoot(MoveBoot(MoveBoot(s, true), true), true);
            n.boot == Booted && n.record.flags == Some(Flags(true, s.fate != RolledBack))
  {
  }

  /** The verdict published here is the one of the state machine's REBOOT_CHECK handler, when it reads its flags from
      this record and the publish succeeds. */
  lemma MachinePublishesVerdict(s: World, readOk: bool, m: Engine, c: Cell, e: Env)
    requires s.loaded.Some? && m.job.filetype == "" && m.job.jobId == s.loaded.value.id
    requires e.publish.Fine? && e.flags == if readOk then s.record.flags else None
    ensures var n, h := Publish(s, readOk), OtaSpec.OnRebootVerdict(m, c, e);
            if n.published == s.published then h == OtaSpec.Stay(m)
            else
              var p := n.published[|s.published|];
              && n.published == s.published + [p] && h.m.log == m.log + [TerminalStatus(p.id)]
              && h.m.job.status == (if p.passed then Succeeded else Failed)
              && h.m.job.details == (if p.passed then DetailsSucceeded else DetailsFailed)
  {
    var n := Publish(s, readOk);
    assert |n.published| == |s.published| || |n.published| == |s.published| + 1;
  }

  /* ---------- The condition is exact ---------- */

  /** The worlds `ss` follow from `s` by `steps` without another install. */
  ghost predicate Leads(s: World, ss: seq<World>, steps: seq<Step>) {
    && |ss| == |steps| + 1 && ss[0] == s
    && forall i | 0 <= i < |steps| ::
         Enabled(ss[i], steps[i]) && ss[i + 1] == Next(ss[i], steps[i]) && !steps[i].Install?
  }

  lemma Extend(s: World, ss: seq<World>, steps: seq<Step>, step: Step) returns (ss': seq<World>, steps': seq<Step>)
    requires Leads(s, ss, steps) && |ss| == |steps| + 1 && Enabled(ss[|steps|], step) && !step.Install?
    ensures ss' == ss + [Next(ss[|steps|], step)] && steps' == steps + [step]
    ensures Leads(s, ss', steps') && |ss'| == |steps'| + 1
  {
    ss', steps' := ss + [Next(ss[|steps|], step)], steps + [step];
  }

  /** The new job inherits a passed flag with its first write. */
  lemma FlagInherited(s: World, id: string, custom: Option<string>) returns (ss: seq<World>, steps: seq<Step>)
    requires Enabled(s, Install(id, custom)) && Passed(s.record)
    ensures Leads(Next(s, Install(id, custom)), ss, steps) && |ss| == |steps| + 1 && !Truthful(ss[|steps|])
  {
    var n := Next(s, Install(id, custom));
    ss, steps := Extend(n, [n], [], RecordMoves(true, 0));
  }

  lemma RecordWritten(s: World, id: string, custom: Option<string>) returns (ss: seq<World>, steps: seq<Step>)
    requires Enabled(s, Install(id, custom))
    ensures Leads(Next(s, Install(id, custom)), ss, steps) && |ss| == |steps| + 1
    ensures var m := ss[|steps|];
            && m.record.jobId == Some(id) && m.record.version == Some(0) && m.record.flags == Some(Flags(false, false))
            && m.fate == Installed && m.about == id && m.marks == s.marks
  {
    var n := Next(s, Install(id, custom));
    ss, steps := [n], [];
    hide Leads;
    assert Leads(n, ss, steps) by { LeadsHere(n); }
    ss, steps := Extend(n, ss, steps, RecordMoves(true, 0));
    if custom.Some? {
      ss, steps := Extend(n, ss, steps, RecordMoves(true, 0));
    }
    ss, steps := Extend(n, ss, steps, RecordMoves(true, 0));
    ss, steps := Extend(n, ss, steps, RecordMoves(true, 0));
  }

  lemma LeadsHere(s: World)
    ensures Leads(s, [s], [])
  {
  }

  /** A mark-valid call overtaken by the install writes its verdict over the new record. */
  lemma LateMark(s: World, id: string, custom: Option<string>, t: nat) returns (ss: seq<World>, steps: seq<Step>)
    requires Enabled(s, Install(id, custom)) && t in s.marks && MayPass(s.marks[t])
    ensures Leads(Next(s, Install(id, custom)), ss, steps) && |ss| == |steps| + 1 && !Truthful(ss[|steps|])
  {
    hide Leads;
    var n := Next(s, Install(id, custom));
    ss, steps := RecordWritten(s, id, custom);
    if s.marks[t].ValidMark? {
      ss, steps := Extend(n, ss, steps, MarkMoves(t, true));
    }
    if !s.marks[t].ValidWrite? {
      ss, steps := Extend(n, ss, steps, MarkMoves(t, true));
    }
    ss, steps := Extend(n, ss, steps, MarkMoves(t, true));
  }

  /** What the violating steps of `StaleVerdict` start from: a record of another, unconfirmed job. */
  ghost predicate Stale(s: World, a: string) {
    && RecordUsable(s.record) && s.record.jobId == Some(a) && a != s.about && Outcome(s, a) != Valid
    && s.fate == Installed
  }

  /** The verdict still under way has arrived, so the flags can be set. */
  lemma FlagsArrive(s: World, a: string) returns (ss: seq<World>, steps: seq<Step>)
    requires Stale(s, a) && s.rollbackEnabled && (StatusMayBeSet(s.record, true) || MarkWriting(s))
    ensures Leads(s, ss, steps) && |ss| == |steps| + 1
    ensures !Truthful(ss[|steps|])
            || (Stale(ss[|steps|], a) && ss[|steps|].rollbackEnabled && StatusMayBeSet(ss[|steps|].record, true))
  {
    ss, steps := [s], [];
    if !StatusMayBeSet(s.record, true) {
      var t :| t in s.marks && Writing(s.marks[t]);
      ss, steps := Extend(s, ss, steps, MarkMoves(t, true));
    }
  }

  /** After the next boot the new image is confirmed, and the verdict is written for the old job. */
  lemma MarkedForOther(s: World, a: string) returns (ss: seq<World>, steps: seq<Step>)
    requires Stale(s, a) && s.rollbackEnabled && StatusMayBeSet(s.record, true)
    ensures Leads(s, ss, steps) && |ss| == |steps| + 1 && !Truthful(ss[|steps|])
  {
    ss, steps := [s], [];
    assert Leads(s, ss, steps);
    hide Leads;
    ss, steps := Extend(s, ss, steps, Reboot);
    ss, steps := Extend(s, ss, steps, MarkCalled(0, true));
    ss, steps := Extend(s, ss, steps, MarkMoves(0, true));
    ss, steps := Extend(s, ss, steps, MarkMoves(0, true));
    ss, steps := Extend(s, ss, steps, MarkMoves(0, true));
  }

  /** Without rollback the reboot handler itself writes the verdict. */
  lemma BootedForOther(s: World, a: string) returns (ss: seq<World>, steps: seq<Step>)
    requires Stale(s, a) && !s.rollbackEnabled && StatusMayBeSet(s.record, false) && s.boot == Booted
    ensures Leads(s, ss, steps) && |ss| == |steps| + 1 && !Truthful(ss[|steps|])
  {
    ss, steps := [s], [];
    assert Leads(s, ss, steps);
    hide Leads;
    if s.recording != NotRecording {
      ss, steps := Extend(s, ss, steps, RecordMoves(false, 0));
    }
    ss, steps := Extend(s, ss, steps, Clear(false, false, true, false));
    ss, steps := Extend(s, ss, steps, Reboot);
    ss, steps := Extend(s, ss, steps, BootMoves(true));
    ss, steps := Extend(s, ss, steps, BootMoves(true));
    ss, steps := Extend(s, ss, steps, BootMoves(true));
  }

  lemma {:induction false} LeadsOn(s: World, ss: seq<World>, steps: seq<Step>, tt: seq<World>, more: seq<Step>)
    returns (uu: seq<World>, all: seq<Step>)
    requires Leads(s, ss, steps) && |ss| == |steps| + 1 && Leads(ss[|steps|], tt, more) && |tt| == |more| + 1
    ensures Leads(s, uu, all) && |uu| == |all| + 1 && uu[|all|] == tt[|more|]
  {
    uu, all := ss + tt[1..], steps + more;
    forall i | 0 <= i < |all| ensures Enabled(uu[i], all[i]) && uu[i + 1] == Next(uu[i], all[i]) && !all[i].Install? {
      if i < |steps| {
        assert uu[i] == ss[i] && uu[i + 1] == ss[i + 1] && all[i] == steps[i];
      } else {
        assert uu[i] == tt[i - |steps|] && uu[i + 1] == tt[i + 1 - |steps|] && all[i] == more[i - |steps|];
      }
    }
  }

  lemma StaleVerdict(s: World, id: string, custom: Option<string>) returns (ss: seq<World>, steps: seq<Step>)
    requires Inv(s) && Enabled(s, Install(id, custom)) && !CleanRecord(s, id) && !Passed(s.record)
    ensures Leads(Next(s, Install(id, custom)), ss, steps) && |ss| == |steps| + 1 && !Truthful(ss[|steps|])
  {
    var n, a := Next(s, Install(id, custom)), s.record.jobId.value;
    NoMarksWithoutRollback(s);
    assert Stale(n, a);
    if s.rollbackEnabled {
      hide Leads, Inv;
      ss, steps := FlagsArrive(n, a);
      if Truthful(ss[|steps|]) {
        var tt, more := MarkedForOther(ss[|steps|], a);
        ss, steps := LeadsOn(n, ss, steps, tt, more);
      }
    } else {
      hide Leads, Inv;
      ss, steps := BootedForOther(n, a);
    }
  }

  lemma NoMarksWithoutRollback(s: World)
    requires Inv(s)
    ensures s.rollbackEnabled || s.marks == map[]
  {
    if s.marks != map[] {
      var t :| t in s.marks;
      assert MarkSound(s, s.marks[t]);
    }
  }

  /** An install that is not clean can be followed, without another install, by a passed flag of a job whose image
      is not confirmed. */
  lemma UncleanInstallViolates(s: World, id: string, custom: Option<string>) returns (ss: seq<World>, steps: seq<Step>)
    requires Inv(s) && Enabled(s, Install(id, custom)) && !CleanInstall(s, Install(id, custom))
    ensures Leads(Next(s, Install(id, custom)), ss, steps) && |ss| == |steps| + 1 && !Truthful(ss[|steps|])
  {
    hide Inv, Leads;
    if Passed(s.record) {
      ss, steps := FlagInherited(s, id, custom);
    } else if !CleanRecord(s, id) {
      ss, steps := StaleVerdict(s, id, custom);
    } else {
      var t :| t in s.marks && MayPass(s.marks[t]);
      ss, steps := LateMark(s, id, custom, t);
    }
  }

  lemma {:induction false} CleanLeadsTruthful(s: World, ss: seq<World>, steps: seq<Step>, k: nat)
    requires Inv(s) && Leads(s, ss, steps) && k < |ss|
    ensures Inv(ss[k])
    decreases k
  {
    if k > 0 {
      hide Inv, Next, Enabled;
      CleanLeadsTruthful(s, ss, steps, k - 1);
      NextKeeps(ss[k - 1], steps[k - 1]);
    }
  }

  /** The condition is exact, for every install in a world that satisfies the invariant, which a run keeps as long as
      its installs are clean: the flag stays truthful until the next install, whatever crashes, boots and mark calls
      follow, if and only if the install is clean. */
  lemma InstallIsSafeExactlyWhenClean(s: World, id: string, custom: Option<string>)
    requires Inv(s) && Enabled(s, Install(id, custom))
    ensures CleanInstall(s, Install(id, custom)) <==>
              forall ss, steps | Leads(Next(s, Install(id, custom)), ss, steps) :: Truthful(ss[|steps|])
  {
    var n := Next(s, Install(id, custom));
    if CleanInstall(s, Install(id, custom)) {
      InstallKeeps(s, id, custom);
      forall ss, steps | Leads(n, ss, steps) ensures Truthful(ss[|steps|]) {
        CleanLeadsTruthful(n, ss, steps, |steps|);
      }
    } else {
      var ss, steps := UncleanInstallViolates(s, id, custom);
      assert Leads(n, ss, steps);
    }
  }

  /** What an inherited flag comes to: from any world with a passed record of the default filetype, an install, two
      writes and a crash publish success for an image that is still pending. */
  lemma InheritedFlagIsPublished(s: World, id: string, version: nat)
    requires s.rollbackEnabled && s.record.flags == Some(Flags(true, true)) && s.record.filetype.None?
    requires Enabled(s, Install(id, None))
    ensures var n := Restart(MoveRecord(MoveRecord(Next(s, Install(id, None)), true, version), true, version));
            var p := Next(Next(MoveBoot(n, true), Load), PublishVerdict(true));
            p.published == s.published + [Publication(id, true, Some(Flags(true, true)), Pending)]
  {
  }

  /* ---------- A run that gets there without a storage fault ---------- */

  lemma ExtendRun(ss: seq<World>, steps: seq<Step>, step: Step) returns (ss': seq<World>, steps': seq<Step>)
    requires IsRun(ss, steps) && Enabled(ss[|steps|], step)
    ensures ss' == ss + [Next(ss[|steps|], step)] && steps' == steps + [step] && IsRun(ss', steps')
  {
    ss', steps' := ss + [Next(ss[|steps|], step)], steps + [step];
    assert ss'[0] == ss[0];
  }

  lemma RunsToRecord() returns (ss: seq<World>, steps: seq<Step>)
    ensures IsRun(ss, steps)
    ensures var s := ss[|steps|];
            && s.rollbackEnabled && s.record == Record(Some("A"), Some(1), None, Some(Flags(false, false)))
            && s.fate == Installed && s.about == "A" && s.marks == map[] && s.boot == Booted && s.published == []
  {
    ss, steps := [Initial(true)], [];
    assert ss[0] == Initial(true);
    hide IsRun;
    ss, steps := ExtendRun(ss, steps, BootMoves(true));
    ss, steps := ExtendRun(ss, steps, BootMoves(true));
    ss, steps := ExtendRun(ss, steps, Install("A", None));
    ss, steps := ExtendRun(ss, steps, RecordMoves(true, 1));
    ss, steps := ExtendRun(ss, steps, RecordMoves(true, 1));
    ss, steps := ExtendRun(ss, steps, RecordMoves(true, 1));
  }

  const A_SUCCEEDED := Publication("A", true, Some(Flags(true, true)), Valid)

  lemma RunsToSuccess() returns (ss: seq<World>, steps: seq<Step>)
    ensures IsRun(ss, steps)
    ensures var s := ss[|steps|];
            && s.rollbackEnabled && s.record == Record(Some("A"), Some(1), None, Some(Flags(true, true)))
            && s.fate == Valid && s.about == "A" && Resting(s) && s.published == [A_SUCCEEDED]
  {
    ss, steps := RunsToRecord();
    hide IsRun;
    ss, steps := ExtendRun(ss, steps, Reboot);
    ss, steps := ExtendRun(ss, steps, BootMoves(true));
    ss, steps := ExtendRun(ss, steps, MarkCalled(0, true));
    ss, steps := ExtendRun(ss, steps, MarkMoves(0, true));
    ss, steps := ExtendRun(ss, steps, MarkMoves(0, true));
    ss, steps := ExtendRun(ss, steps, MarkMoves(0, true));
    ss, steps := ExtendRun(ss, steps, Load);
    ss, steps := ExtendRun(ss, steps, PublishVerdict(true));
  }

  /** The record of a confirmed job is still there when the next image is installed, every write and erase that is
      made succeeds, and a crash falls between two writes: the new image is rolled back and published as succeeded. */
  lemma StaleFlagPublishesSuccess() returns (ss: seq<World>, steps: seq<Step>)
    ensures IsRun(ss, steps) && ss[|steps|].fate == RolledBack && ss[|steps|].about == "B"
    ensures ss[|steps|].published == [A_SUCCEEDED, Publication("B", true, Some(Flags(true, true)), RolledBack)]
  {
    ss, steps := RunsToSuccess();
    hide IsRun;
    ss, steps := ExtendRun(ss, steps, Install("B", None));
    ss, steps := ExtendRun(ss, steps, RecordMoves(true, 1));
    ss, steps := ExtendRun(ss, steps, Reboot);
    ss, steps := ExtendRun(ss, steps, Reboot);
    ss, steps := ExtendRun(ss, steps, BootMoves(true));
    ss, steps := ExtendRun(ss, steps, BootMoves(true));
    ss, steps := ExtendRun(ss, steps, Load);
    ss, steps := ExtendRun(ss, steps, PublishVerdict(true));
  }
}
