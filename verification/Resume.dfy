/** The persisted progress of a partial download: two keys written one after the other, with a crash possible
    between any two writes and any write or erase able to fail. */
module Resume {
  import opened Wrappers
  import opened Bitmap

  datatype Transport = NoTransport | Mqtt | Other(tag: nat)

  /** Identifies the image a tracker was built for; `md5` is its digest in hex. */
  datatype Desc = Desc(md5: string, filesize: nat, transport: Transport, blockSize: nat)

  /** The progress blob; history: the descriptor it was saved for. */
  datatype Tracker = Tracker(bytes: seq<bv8>, owner: Desc)

  /** `esp_rmaker_ota_nvs_resume_matches`. */
  predicate Matches(loaded: Desc, current: Desc) {
    && loaded.transport != NoTransport && loaded.transport == current.transport
    && loaded.filesize == current.filesize
    && loaded.md5 == current.md5
    && (loaded.transport == Mqtt ==> loaded.blockSize == current.blockSize)
  }

  /** Matching does not care which of the two was stored, and is passed on along a chain. */
  lemma MatchesIsPartialEquivalence(a: Desc, b: Desc, c: Desc)
    ensures Matches(a, b) <==> Matches(b, a)
    ensures Matches(a, b) && Matches(b, c) ==> Matches(a, c)
    ensures Matches(a, a) <==> a.transport != NoTransport
  {
  }

  /** `total_blocks` of the downloader. */
  function Blocks(d: Desc): nat {
    if d.blockSize == 0 then 0 else (d.filesize + d.blockSize - 1) / d.blockSize
  }

  /** What `resume_attempt` demands of a tracker besides the descriptor: the length of the job's own bitmap, and
      some but not all blocks received. */
  predicate Usable(bytes: seq<bv8>, d: Desc) {
    |bytes| == CellCount(Blocks(d)) && 0 < PendingCount(bytes, Blocks(d)) < Blocks(d)
  }

  /** What a job of the MQTT downloader is described by. */
  predicate Downloadable(d: Desc) {
    d.transport == Mqtt && d.filesize > 0 && d.blockSize > 0
  }

  lemma DownloadableHasBlocks(d: Desc)
    requires Downloadable(d)
    ensures Blocks(d) > 0
  {
  }

  datatype Store = Store(desc: Option<Desc>, data: Option<Tracker>)

  /** `esp_rmaker_ota_nvs_resume_load`: both keys must be there. */
  function Load(s: Store): Option<(Desc, Tracker)> {
    if s.desc.Some? && s.data.Some? then Some((s.desc.value, s.data.value)) else None
  }

  /** The next write under way: of a save, of a clear of the two keys, or of the erase of the whole namespace, which
      takes them in either order (`last`: the other one is gone). */
  datatype Pc =
    | Quiet
    | SavingData
    | SavingDesc
    | ClearingDesc
    | ClearingData
    | WipingDesc(last: bool)
    | WipingData(last: bool)

  /** A download under way and its bitmap. */
  datatype Session = Session(desc: Desc, bitmap: seq<bv8>)

  /** History: the tracker the session was resumed from, if any. */
  datatype World = World(store: Store, session: Option<Session>, pc: Pc, resumed: Option<Tracker>)

  const EMPTY := World(Store(None, None), None, Quiet, None)

  datatype Step =
    | Crash
    | Begin(desc: Desc, loadOk: bool)
    | Receive(block: nat)
    | Save
    | Complete
    | Wipe(dataFirst: bool)
    | Move(ok: bool)

  /** One download at a time; progress is saved after a block that was not the last; a job without a digest does not
      take part. */
  predicate Enabled(s: World, step: Step) {
    match step
    case Crash => true
    case Begin(d, _) => s.pc == Quiet && s.session.None? && Downloadable(d)
    case Receive(b) =>
      && s.pc == Quiet && s.session.Some? && b < Blocks(s.session.value.desc) && b < 8 * |s.session.value.bitmap|
      && Pending(s.session.value.bitmap, b)
    case Save => s.pc == Quiet && s.session.Some? && s.session.value.desc.md5 != "" && Partial(s.session.value)
    case Complete => s.pc == Quiet && s.session.Some? && Done(s.session.value)
    case Wipe(_) => s.pc == Quiet
    case Move(_) => s.pc != Quiet
  }

  predicate Partial(n: Session) {
    Usable(n.bitmap, n.desc)
  }

  predicate Done(n: Session) {
    |n.bitmap| == CellCount(Blocks(n.desc)) && PendingCount(n.bitmap, Blocks(n.desc)) == 0
  }

  /** `resume_attempt`: a tracker that cannot be loaded is ignored; one that is loaded is taken if it matches and is
      usable, and cleared otherwise. */
  function Attempt(s: World, d: Desc, loadOk: bool): World {
    var loaded := Load(s.store);
    var n := s.(session := Some(Session(d, AllPending(Blocks(d)))), resumed := None);
    if d.md5 == "" || !loadOk || loaded.None? then n
    else if Matches(loaded.value.0, d) && Usable(loaded.value.1.bytes, d) then
      n.(session := Some(Session(d, loaded.value.1.bytes)), resumed := Some(loaded.value.1))
    else n.(pc := ClearingDesc)
  }

  /** One write or erase; a failure ends a save and a wipe, but not a clear. */
  function Written(s: World, ok: bool): World {
    match s.pc
    case Quiet => s
    case SavingData =>
      if ok && s.session.Some? then
        s.(store := s.store.(data := Some(Tracker(s.session.value.bitmap, s.session.value.desc))), pc := SavingDesc)
      else s.(pc := Quiet)
    case SavingDesc =>
      s.(store := if ok && s.session.Some? then s.store.(desc := Some(s.session.value.desc)) else s.store, pc := Quiet)
    case ClearingDesc => s.(store := if ok then s.store.(desc := None) else s.store, pc := ClearingData)
    case ClearingData => s.(store := if ok then s.store.(data := None) else s.store, pc := Quiet)
    case WipingDesc(last) =>
      if ok then s.(store := s.store.(desc := None), pc := if last then Quiet else WipingData(true))
      else s.(pc := Quiet)
    case WipingData(last) =>
      if ok then s.(store := s.store.(data := None), pc := if last then Quiet else WipingDesc(true))
      else s.(pc := Quiet)
  }

  function Next(s: World, step: Step): World
    requires Enabled(s, step)
  {
    match step
    case Crash => s.(session := None, pc := Quiet, resumed := None)
    case Begin(d, loadOk) => Attempt(s, d, loadOk)
    case Receive(b) =>
      var n := s.session.value;
      s.(session := Some(n.(bitmap := Processed(n.bitmap, b))))
    case Save => s.(pc := SavingData)
    case Complete => s.(session := None, resumed := None, pc := ClearingDesc)
    case Wipe(dataFirst) => s.(pc := if dataFirst then WipingData(false) else WipingDesc(false))
    case Move(ok) => Written(s, ok)
  }

  ghost predicate IsRun(ss: seq<World>, steps: seq<Step>) {
    && |ss| == |steps| + 1
    && ss[0] == EMPTY
    && forall i | 0 <= i < |steps| :: Enabled(ss[i], steps[i]) && ss[i + 1] == Next(ss[i], steps[i])
  }

  /* ---------- What each operation does ---------- */

  lemma {:induction false} CountMeans(bytes: seq<bv8>, n: nat)
    requires n <= 8 * |bytes|
    ensures 0 < PendingCount(bytes, n) <==> exists b: nat | b < n :: Pending(bytes, b)
    ensures PendingCount(bytes, n) < n <==> exists b: nat | b < n :: !Pending(bytes, b)
  {
    if n > 0 {
      CountMeans(bytes, n - 1);
    }
  }

  /** A tracker is usable exactly when it has one bit for every block, in whole bytes, and some block is received and
      some is not. */
  lemma UsableMeans(bytes: seq<bv8>, d: Desc)
    requires Downloadable(d)
    ensures Usable(bytes, d) <==>
              && |bytes| == (Blocks(d) + 7) / 8
              && (exists b: nat | b < Blocks(d) :: Pending(bytes, b))
              && (exists b: nat | b < Blocks(d) :: !Pending(bytes, b))
    ensures (Blocks(d) - 1) * d.blockSize < d.filesize <= Blocks(d) * d.blockSize
  {
    if |bytes| == CellCount(Blocks(d)) {
      CountMeans(bytes, Blocks(d));
    }
    var q, r := (d.filesize + d.blockSize - 1) / d.blockSize, (d.filesize + d.blockSize - 1) % d.blockSize;
    assert d.filesize + d.blockSize - 1 == q * d.blockSize + r;
  }

  /** A download goes on from a tracker exactly when its job has a digest and the tracker is found, matches and is
      usable; otherwise it begins with every block, and a tracker that was found is cleared. */
  lemma BeginContinues(s: World, d: Desc, loadOk: bool)
    requires Enabled(s, Begin(d, loadOk))
    ensures var n := Next(s, Begin(d, loadOk));
            var found := d.md5 != "" && loadOk && s.store.desc.Some? && s.store.data.Some?;
            var fits := found && Matches(s.store.desc.value, d) && Usable(s.store.data.value.bytes, d);
            && n.store == s.store && n.session.Some? && n.session.value.desc == d
            && (fits ==>
                  n.session.value.bitmap == s.store.data.value.bytes && n.resumed == s.store.data && n.pc == Quiet)
            && (!fits ==> n.session.value.bitmap == AllPending(Blocks(d)) && n.resumed == None)
            && (!fits ==> if found then n.pc == ClearingDesc else n.pc == Quiet)
  {
    hide Usable;
  }

  /** A download is complete exactly when no block is pending any more; then it is over and its tracker is cleared. A
      reset ends it too and leaves what is stored. */
  lemma DownloadEnds(s: World)
    requires s.session.Some? && |s.session.value.bitmap| == CellCount(Blocks(s.session.value.desc))
    ensures var n := s.session.value;
            Enabled(s, Complete) <==> s.pc == Quiet && forall b: nat | b < Blocks(n.desc) :: !Pending(n.bitmap, b)
    ensures Enabled(s, Complete) ==> Next(s, Complete) == World(s.store, None, ClearingDesc, None)
    ensures Next(s, Crash) == World(s.store, None, Quiet, None)
  {
    CountMeans(s.session.value.bitmap, Blocks(s.session.value.desc));
  }

  /** A clear tries both erases; a wipe stops at the first that fails. With nothing failing both leave nothing. */
  lemma Erased(s: World, first: bool, second: bool)
    requires s.pc == ClearingDesc || s.pc == WipingDesc(false) || s.pc == WipingData(false)
    ensures var n := Next(s, Move(first));
            && n.session == s.session && n.resumed == s.resumed
            && (s.pc == ClearingDesc ==>
                  n.pc != Quiet && Next(n, Move(second)) == n.(pc := Quiet,
                    store := Store(if first then None else s.store.desc, if second then None else s.store.data)))
            && (s.pc != ClearingDesc && !first ==> n == s.(pc := Quiet))
            && (s.pc != ClearingDesc && first ==>
                  && n.pc != Quiet
                  && (second ==> Next(n, Move(second)) == n.(pc := Quiet, store := Store(None, None)))
                  && (!second ==> Next(n, Move(second)) == n.(pc := Quiet)))
    ensures s.pc == WipingDesc(false) && first ==> Next(s, Move(first)).store == s.store.(desc := None)
    ensures s.pc == WipingData(false) && first ==> Next(s, Move(first)).store == s.store.(data := None)
  {
  }

  /** A wipe may take the keys in either order, and begins only at rest. */
  lemma WipeBegins(s: World, dataFirst: bool)
    ensures Enabled(s, Wipe(dataFirst)) <==> s.pc == Quiet
    ensures s.pc == Quiet ==>
              Next(s, Wipe(dataFirst)) == s.(pc := if dataFirst then WipingData(false) else WipingDesc(false))
  {
  }

  /** A save writes the tracker of the running download and then its descriptor; a failed write ends it. */
  lemma Saved(s: World, first: bool, second: bool)
    requires s.pc == SavingData && s.session.Some?
    ensures var n, d := Next(s, Move(first)), s.session.value;
            && (!first ==> n == s.(pc := Quiet))
            && (first ==>
                  && n == s.(pc := SavingDesc, store := s.store.(data := Some(Tracker(d.bitmap, d.desc))))
                  && Next(n, Move(second)).pc == Quiet
                  && Next(n, Move(second)).store.data == n.store.data
                  && Next(n, Move(second)).store.desc == if second then Some(d.desc) else s.store.desc)
  {
  }

  /* ---------- Soundness, exactly ---------- */

  /** When a tracker is written, the stored descriptor is not that of a different image that would accept it. */
  predicate CleanSave(s: World, step: Step) {
    s.pc == SavingData && s.session.Some? && step.Move? && step.ok ==>
      || s.store.desc.None? || Matches(s.store.desc.value, s.session.value.desc)
      || !Usable(s.session.value.bitmap, s.store.desc.value)
  }

  /** A tracker that could be resumed from now belongs to the image its descriptor names. */
  predicate LoadSound(s: Store) {
    var loaded := Load(s);
    loaded.Some? && Usable(loaded.value.1.bytes, loaded.value.0) ==> Matches(loaded.value.1.owner, loaded.value.0)
  }

  /** The tracker a session was resumed from was saved for the image of that session. */
  predicate ResumeSound(s: World) {
    s.session.Some? && s.resumed.Some? ==> Matches(s.resumed.value.owner, s.session.value.desc)
  }

  ghost predicate Inv(s: World) {
    && LoadSound(s.store) && ResumeSound(s)
    && (s.store.desc.Some? ==> Downloadable(s.store.desc.value) && s.store.desc.value.md5 != "")
    && (s.session.Some? ==>
          && Downloadable(s.session.value.desc)
          && |s.session.value.bitmap| == CellCount(Blocks(s.session.value.desc)))
    && (s.pc == SavingData || s.pc == SavingDesc ==>
          s.session.Some? && s.session.value.desc.md5 != "" && Partial(s.session.value))
    && (s.pc == SavingDesc ==> s.store.data == Some(Tracker(s.session.value.bitmap, s.session.value.desc)))
  }

  /** What makes a tracker usable does not depend on which of two matching descriptors is looked at. */
  lemma UsableAlike(bytes: seq<bv8>, d: Desc, e: Desc)
    requires Matches(d, e) && d.transport == Mqtt
    ensures Usable(bytes, d) == Usable(bytes, e)
  {
  }

  lemma NextKeeps(s: World, step: Step)
    requires Inv(s) && Enabled(s, step) && CleanSave(s, step)
    ensures Inv(Next(s, step))
  {
    hide Usable, Blocks, PendingCount, CellCount;
    if step.Begin? && s.store.desc.Some? && s.store.data.Some? && Matches(s.store.desc.value, step.desc) {
      UsableAlike(s.store.data.value.bytes, s.store.desc.value, step.desc);
      UsableLength(s.store.data.value.bytes, step.desc);
    }
  }

  lemma UsableLength(bytes: seq<bv8>, d: Desc)
    ensures Usable(bytes, d) ==> |bytes| == CellCount(Blocks(d))
  {
  }

  /** At every crash point of a run whose saves are clean, a session that was resumed was resumed from a tracker saved
      for the same digest, size and transport, and over MQTT for the same block size; and any load that a job would
      resume from now returns such a tracker. */
  lemma {:induction false} ResumesOwnImage(ss: seq<World>, steps: seq<Step>, k: nat)
    requires IsRun(ss, steps) && k < |ss|
    requires forall i | 0 <= i < |steps| :: CleanSave(ss[i], steps[i])
    ensures Inv(ss[k])
    ensures ResumeSound(ss[k])
    ensures forall d | Downloadable(d) && Attempt(ss[k], d, true).resumed.Some? ::
              Matches(Attempt(ss[k], d, true).resumed.value.owner, d)
    decreases k
  {
    hide Usable, Blocks;
    if k > 0 {
      ResumesOwnImage(ss, steps, k - 1);
      NextKeeps(ss[k - 1], steps[k - 1]);
    }
    forall d | Downloadable(d) && Attempt(ss[k], d, true).resumed.Some?
      ensures Matches(Attempt(ss[k], d, true).resumed.value.owner, d)
    {
      var loaded := Load(ss[k].store).value;
      UsableAlike(loaded.1.bytes, loaded.0, d);
    }
  }

  /** A continuation in which no other tracker is saved. */
  ghost predicate Leads(s: World, ss: seq<World>, steps: seq<Step>) {
    && |ss| == |steps| + 1 && ss[0] == s
    && forall i | 0 <= i < |steps| ::
         Enabled(ss[i], steps[i]) && ss[i + 1] == Next(ss[i], steps[i]) && !steps[i].Save?
  }

  lemma OnlySaveSaves(s: World, step: Step)
    requires Enabled(s, step) && !step.Save? && s.pc != SavingData
    ensures Next(s, step).pc != SavingData && CleanSave(s, step)
  {
  }

  lemma {:induction false} CleanLeads(s: World, ss: seq<World>, steps: seq<Step>, k: nat)
    requires Inv(s) && s.pc != SavingData && Leads(s, ss, steps) && k < |ss|
    ensures Inv(ss[k]) && ss[k].pc != SavingData
    decreases k
  {
    if k > 0 {
      CleanLeads(s, ss, steps, k - 1);
      hide Inv, Next, Enabled, CleanSave;
      OnlySaveSaves(ss[k - 1], steps[k - 1]);
      NextKeeps(ss[k - 1], steps[k - 1]);
    }
  }

  /** The condition is exact: whatever crashes, downloads, clears and wipes follow the write of a tracker, no session
      resumes from it for another image, if and only if the write was clean. */
  lemma SaveIsSafeExactlyWhenClean(s: World)
    requires Inv(s) && s.pc == SavingData
    ensures CleanSave(s, Move(true)) <==>
              forall ss, steps | Leads(Next(s, Move(true)), ss, steps) :: ResumeSound(ss[|steps|])
  {
    var n := Next(s, Move(true));
    if CleanSave(s, Move(true)) {
      NextKeeps(s, Move(true));
      forall ss, steps | Leads(n, ss, steps) ensures ResumeSound(ss[|steps|]) {
        CleanLeads(n, ss, steps, |steps|);
      }
    } else {
      var d := s.store.desc.value;
      UncleanSaveResumesForeign(s);
      var steps := [Crash, Begin(d, true)];
      var ss := [n, Next(n, Crash), Next(Next(n, Crash), Begin(d, true))];
      assert Leads(n, ss, steps);
      assert !ResumeSound(ss[|steps|]);
    }
  }

  /** After an unclean save, a crash and a job for the stored descriptor's image resume from the wrong tracker. */
  lemma UncleanSaveResumesForeign(s: World)
    requires Inv(s) && s.pc == SavingData && !CleanSave(s, Move(true))
    ensures var d := s.store.desc.value;
            && Enabled(Next(Next(s, Move(true)), Crash), Begin(d, true))
            && var n := Next(Next(Next(s, Move(true)), Crash), Begin(d, true));
               n.session.Some? && n.session.value.desc == d && n.resumed.Some? && !Matches(n.resumed.value.owner, d)
  {
    hide Usable, Blocks;
    MatchesIsPartialEquivalence(s.store.desc.value, s.session.value.desc, s.store.desc.value);
  }

  /* ---------- When the saves of this code are clean ---------- */

  /** Reads of a stored tracker and erases do not fail, and no crash cuts a wipe of the namespace short between the
      tracker and the descriptor. */
  predicate Reliable(s: World, step: Step) {
    && (step.Begin? ==> step.loadOk)
    && (step.Move? && s.pc != SavingData && s.pc != SavingDesc ==> step.ok)
    && (step.Crash? ==> s.pc != WipingDesc(true))
  }

  predicate Cleared(s: World) {
    && ((s.store.desc.Some? && s.pc != WipingDesc(true)) || s.pc == SavingDesc ==> s.store.data.Some?)
    && (s.pc == ClearingData || s.pc == WipingData(true) ==> s.store.desc.None?)
    && (s.session.Some? && s.session.value.desc.md5 != "" && s.pc != ClearingDesc ==>
          s.store.desc.None? || Matches(s.store.desc.value, s.session.value.desc))
    && (s.session.Some? ==> Downloadable(s.session.value.desc))
    && (s.pc == SavingData || s.pc == SavingDesc ==> s.session.Some? && s.session.value.desc.md5 != "")
  }

  lemma ReliableKeepsCleared(s: World, step: Step)
    requires Cleared(s) && Enabled(s, step) && Reliable(s, step)
    ensures Cleared(Next(s, step)) && CleanSave(s, step)
  {
    hide Usable, Blocks, PendingCount, CellCount;
  }

  /** As long as no read of a stored tracker and no erase fails, and no crash leaves a wiped tracker's descriptor
      behind, the code clears a different image's descriptor before its first save, so every resume is sound. */
  lemma {:induction false} ReliableRunsAreSound(ss: seq<World>, steps: seq<Step>, k: nat)
    requires IsRun(ss, steps) && k < |ss|
    requires forall i | 0 <= i < |steps| :: Reliable(ss[i], steps[i])
    ensures Cleared(ss[k]) && Inv(ss[k])
    decreases k
  {
    hide Usable, Blocks;
    if k > 0 {
      ReliableRunsAreSound(ss, steps, k - 1);
      ReliableKeepsCleared(ss[k - 1], steps[k - 1]);
      NextKeeps(ss[k - 1], steps[k - 1]);
    }
  }

  /* ---------- What happens otherwise ---------- */

  lemma Extend(ss: seq<World>, steps: seq<Step>, step: Step) returns (ss': seq<World>, steps': seq<Step>)
    requires IsRun(ss, steps) && Enabled(ss[|steps|], step)
    ensures ss' == ss + [Next(ss[|steps|], step)] && steps' == steps + [step] && IsRun(ss', steps')
  {
    ss', steps' := ss + [Next(ss[|steps|], step)], steps + [step];
    assert ss'[0] == ss[0];
  }

  /** The bitmap of a fresh download after its first block. */
  function FirstBlock(d: Desc): seq<bv8>
    requires Downloadable(d)
  {
    DownloadableHasBlocks(d);
    Processed(AllPending(Blocks(d)), 0)
  }

  /** Two images of more than one block whose bitmaps have the same number of cells accept each other's first block. */
  predicate Alike(a: Desc, b: Desc) {
    && Downloadable(a) && Downloadable(b) && a.md5 != "" && b.md5 != ""
    && Blocks(a) > 1 && Blocks(b) > 1 && CellCount(Blocks(a)) == CellCount(Blocks(b))
  }

  lemma FirstBlockUsable(a: Desc, b: Desc)
    requires Alike(a, b)
    ensures Usable(FirstBlock(b), a) && Pending(AllPending(Blocks(b)), 0)
  {
    var all := AllPending(Blocks(b));
    AllPendingCount(all, Blocks(a));
    ProcessedCount(all, 0, Blocks(a));
    assert Bit(all[0], 0);
  }

  /** From rest, a download of `b` is begun that finds nothing to resume from; one block later its progress is
      saved. */
  lemma RunsToSave(ss0: seq<World>, steps0: seq<Step>, b: Desc, loadOk: bool) returns (ss: seq<World>, steps: seq<Step>)
    requires IsRun(ss0, steps0) && Alike(b, b) && ss0[|steps0|].session.None? && ss0[|steps0|].pc == Quiet
    requires loadOk ==> Load(ss0[|steps0|].store).None?
    ensures IsRun(ss, steps)
    ensures ss[|steps|] == World(Store(ss0[|steps0|].store.desc, Some(Tracker(FirstBlock(b), b))),
                                 Some(Session(b, FirstBlock(b))), SavingDesc, None)
  {
    FirstBlockUsable(b, b);
    hide IsRun, Usable, Blocks, PendingCount, CellCount, AllPending, Pending, Processed;
    ss, steps := Extend(ss0, steps0, Begin(b, loadOk));
    ss, steps := Extend(ss, steps, Receive(0));
    ss, steps := Extend(ss, steps, Save);
    ss, steps := Extend(ss, steps, Move(true));
  }

  /** A stored descriptor that the next download does not see, because its tracker is gone or cannot be read, is
      paired with the progress of that download, and a later job for its image resumes from it. */
  lemma UnseenDescriptorIsUnsound(ss0: seq<World>, steps0: seq<Step>, a: Desc, b: Desc, loadOk: bool)
    returns (ss: seq<World>, steps: seq<Step>)
    requires IsRun(ss0, steps0) && Alike(a, b) && !Matches(b, a)
    requires var s := ss0[|steps0|];
             s.pc == Quiet && s.session.None? && s.store.desc == Some(a) && (loadOk ==> s.store.data.None?)
    ensures IsRun(ss, steps) && !ResumeSound(ss[|steps|])
    ensures ss[|steps|].session.Some? && ss[|steps|].session.value.desc == a
    ensures ss[|steps|].resumed == Some(Tracker(FirstBlock(b), b))
  {
    FirstBlockUsable(a, b);
    ss, steps := RunsToSave(ss0, steps0, b, loadOk);
    hide IsRun, Usable, Blocks;
    ss, steps := Extend(ss, steps, Crash);
    ss, steps := Extend(ss, steps, Begin(a, true));
  }

  /** The progress of `a` is saved completely, and a crash ends its download. */
  lemma RunsToSaved(a: Desc) returns (ss: seq<World>, steps: seq<Step>)
    requires Alike(a, a)
    ensures IsRun(ss, steps)
    ensures ss[|steps|] == World(Store(Some(a), Some(Tracker(FirstBlock(a), a))), None, Quiet, None)
  {
    assert IsRun([EMPTY], []);
    ss, steps := RunsToSave([EMPTY], [], a, true);
    hide IsRun, Usable, Blocks;
    ss, steps := Extend(ss, steps, Move(true));
    ss, steps := Extend(ss, steps, Crash);
  }

  /** A clear whose first erase fails: the job for `b` does find the tracker of `a` and clears it, but only half. */
  lemma HalfClearIsUnsound(a: Desc, b: Desc) returns (ss: seq<World>, steps: seq<Step>)
    requires Alike(a, b) && !Matches(a, b)
    ensures IsRun(ss, steps) && !ResumeSound(ss[|steps|])
  {
    ss, steps := RunsToSaved(a);
    hide IsRun, Usable, Blocks;
    ss, steps := Extend(ss, steps, Begin(b, true));
    ss, steps := Extend(ss, steps, Move(false));
    ss, steps := Extend(ss, steps, Move(true));
    ss, steps := Extend(ss, steps, Crash);
    ss, steps := UnseenDescriptorIsUnsound(ss, steps, a, b, true);
  }

  /** A wipe of the namespace that a crash cuts short after the tracker, with every erase successful. */
  lemma CutWipeIsUnsound(a: Desc, b: Desc) returns (ss: seq<World>, steps: seq<Step>)
    requires Alike(a, b) && !Matches(b, a)
    ensures IsRun(ss, steps) && !ResumeSound(ss[|steps|])
  {
    ss, steps := RunsToSaved(a);
    hide IsRun, Usable, Blocks;
    ss, steps := Extend(ss, steps, Wipe(true));
    ss, steps := Extend(ss, steps, Move(true));
    ss, steps := Extend(ss, steps, Crash);
    ss, steps := UnseenDescriptorIsUnsound(ss, steps, a, b, true);
  }
}
