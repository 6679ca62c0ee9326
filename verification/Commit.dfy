/** `store::atomic`: the commit protocol of a state file, with any operation failing and a crash at any point. */
module Commit {
  import opened Wrappers
  import opened Documents
  import opened FileSystem

  /** A disk, what will happen to the coming operations (`true`: it works), and the disks there have been. A
      script that has run out works. */
  datatype Machine = Machine(disk: Disk, faults: seq<bool>, seen: seq<Disk>)

  datatype Outcome = Saved | Failed | RollbackFailed

  function Works(m: Machine): bool
  {
    m.faults == [] || m.faults[0]
  }

  /** An operation that changed nothing. */
  function Idle(m: Machine): Machine
  {
    if m.faults == [] then m else m.(faults := m.faults[1..])
  }

  /** An operation that made the disk `d`. */
  function Go(m: Machine, d: Disk): Machine
  {
    Idle(m).(disk := d, seen := m.seen + [d])
  }

  /** Create the temporary file, write the document into it and sync it. */
  function WriteTemp(m: Machine, temp: Name, doc: Doc): (Machine, bool)
  {
    if !Works(m) || temp in m.disk.dir then (Idle(m), false)
    else
      var inode := |m.disk.files|;
      var a := Go(m, Create(m.disk, temp));
      if !Works(a) then (Idle(a), false)
      else
        var b := Go(a, Fill(a.disk, inode, Whole(doc)));
        if !Works(b) then (Idle(b), false)
        else (Go(b, SyncFile(b.disk, inode)), true)
  }

  /** Open the directory, hard-link the old file under the backup name and sync the directory. The answer says
      whether there was an old file. */
  function BackUp(m: Machine, path: Name, backup: Name): (Machine, Option<bool>)
  {
    if !Works(m) then (Idle(m), None)
    else
      var a := Idle(m);
      if !Works(a) then (Idle(a), None)
      else if path in a.disk.dir && backup in a.disk.dir then (Idle(a), None)
      else
        var had := path in a.disk.dir;
        var b := if had then Go(a, Link(a.disk, path, backup)) else Idle(a);
        if !Works(b) then (Idle(b), None) else (Go(b, SyncDir(b.disk)), Some(had))
  }

  /** Rename the temporary file over the target and sync; undo the rename when the sync fails. */
  function Swap(m: Machine, temp: Name, path: Name, backup: Name, had: bool): (Machine, Outcome)
  {
    if !Works(m) || temp !in m.disk.dir then (Idle(m), Failed)
    else
      var a := Go(m, Rename(m.disk, temp, path));
      if Works(a) then (Go(a, SyncDir(a.disk)), Saved)
      else
        Rollback(Idle(a), path, backup, had)
  }

  /** The old file is put back, or the new one removed where there was none. */
  function Rollback(m: Machine, path: Name, backup: Name, had: bool): (Machine, Outcome)
  {
    if !Works(m) || (had && backup !in m.disk.dir) then (Idle(m), RollbackFailed)
    else
      var a := Go(m, if had then Rename(m.disk, backup, path) else Remove(m.disk, path));
      (if Works(a) then Go(a, SyncDir(a.disk)) else Idle(a), Failed)
  }

  /** A removal whose result is ignored. */
  function Discard(m: Machine, n: Name): Machine
  {
    if Works(m) then Go(m, Remove(m.disk, n)) else Idle(m)
  }

  function Cleanup(m: Machine, temp: Name, backup: Name, outcome: Outcome): Machine
  {
    var a := if outcome == Saved then m else Discard(m, temp);
    if outcome == RollbackFailed then a else Discard(a, backup)
  }

  function Atomic(m: Machine, path: Name, temp: Name, backup: Name, doc: Doc): (Machine, Outcome)
  {
    var (a, written) := WriteTemp(m, temp, doc);
    if !written then (Cleanup(a, temp, backup, Failed), Failed)
    else
      var (b, had) := BackUp(a, path, backup);
      if had.None? then (Cleanup(b, temp, backup, Failed), Failed)
      else
        var (c, outcome) := Swap(b, temp, path, backup, had.value);
        (Cleanup(c, temp, backup, outcome), outcome)
  }

  // ---------------------------------------------------------------------------------------------
  // What every disk on the way satisfies

  ghost predicate FilesKept(d0: Disk, d: Disk)
  {
    |d0.files| <= |d.files| && forall i | 0 <= i < |d0.files| :: d.files[i] == d0.files[i]
  }

  /** Relative to the disk the commit began with: old files are untouched, other state files are exactly where
      they were, and what a crash can leave under the target is what it could leave before, or the complete
      and synced new document in the file the commit created. */
  ghost predicate Safe(d0: Disk, d: Disk, path: Name, doc: Doc)
  {
    && Formed(d) && FilesKept(d0, d)
    && (forall n: Name | n.Target? && n != path ::
          Possible(d, n) <= Possible(d0, n) && Find(d.dir, n) == Find(d0.dir, n))
    && Possible(d, path) <= Possible(d0, path) + {Some(|d0.files|)}
    && (Some(|d0.files|) in Possible(d, path) ==>
          |d0.files| < |d.files| && d.files[|d0.files|] == File(Whole(doc), true))
  }

  /** Every disk since `m0` was safe, and so is the current one. */
  ghost predicate History(m0: Machine, m: Machine, path: Name, doc: Doc)
  {
    && |m0.seen| <= |m.seen|
    && (forall k | |m0.seen| <= k < |m.seen| :: Safe(m0.disk, m.seen[k], path, doc))
    && Safe(m0.disk, m.disk, path, doc)
  }

  lemma StartHistory(m: Machine, path: Name, doc: Doc)
    requires Formed(m.disk)
    ensures History(m, m, path, doc)
  {
    NewInodeIsNew(m.disk, path);
  }

  /** A file that does not exist yet cannot be what a name refers to. */
  lemma NewInodeIsNew(d: Disk, n: Name)
    requires Formed(d)
    ensures Some(|d.files|) !in Possible(d, n)
  {
    EffectsAreFiles(d.pending, |d.files|, n);
  }

  lemma {:induction false} EffectsAreFiles(cs: seq<Change>, limit: nat, n: Name)
    requires forall i | 0 <= i < |cs| :: cs[i].Drop? || cs[i].inode < limit
    ensures Some(limit) !in Effects(cs, n)
  {
    if cs != [] {
      EffectsAreFiles(cs[..|cs| - 1], limit, n);
    }
  }

  /** A step keeps the history if it makes a safe disk. */
  lemma HistoryGo(m0: Machine, m: Machine, d: Disk, path: Name, doc: Doc)
    requires History(m0, m, path, doc) && Safe(m0.disk, d, path, doc)
    ensures History(m0, Go(m, d), path, doc)
  {
    hide Safe;
  }

  lemma HistoryIdle(m0: Machine, m: Machine, path: Name, doc: Doc)
    requires History(m0, m, path, doc)
    ensures History(m0, Idle(m), path, doc)
    ensures Idle(m).disk == m.disk && Idle(m).seen == m.seen
  {
    hide Safe;
  }

  // One lemma for each kind of step.

  lemma CreateSafe(d0: Disk, d: Disk, temp: Name, path: Name, doc: Doc)
    requires Safe(d0, d, path, doc) && temp.Temp? && path.Target?
    ensures Safe(d0, Create(d, temp), path, doc)
  {
    hide Effects, ApplyAll;
    Pushed(d.durable, d.pending, Put(temp, |d.files|));
  }

  /** Writing or syncing the new file is safe while no target can refer to it. */
  lemma FillSafe(d0: Disk, d: Disk, c: Content, path: Name, doc: Doc)
    requires Safe(d0, d, path, doc) && |d0.files| < |d.files|
    requires Some(|d0.files|) !in Possible(d, path)
    ensures Safe(d0, Fill(d, |d0.files|, c), path, doc)
    ensures Safe(d0, SyncFile(d, |d0.files|), path, doc)
  {
    hide Effects, ApplyAll;
  }

  lemma SyncDirSafe(d0: Disk, d: Disk, path: Name, doc: Doc)
    requires Safe(d0, d, path, doc)
    ensures Safe(d0, SyncDir(d), path, doc)
    ensures forall n :: Possible(SyncDir(d), n) == {Find(d.dir, n)} && {Find(d.dir, n)} <= Possible(d, n)
  {
    forall n
      ensures Possible(SyncDir(d), n) == {Find(d.dir, n)} && Find(d.dir, n) in Possible(d, n)
    {
      VisibleIsPossible(d.durable, d.pending, n);
      assert Effects([], n) == {};
    }
    assert ApplyAll(d.dir, []) == d.dir;
    hide Effects, ApplyAll;
  }

  lemma LinkSafe(d0: Disk, d: Disk, backup: Name, path: Name, doc: Doc)
    requires Safe(d0, d, path, doc) && path in d.dir && backup.Backup? && path.Target?
    ensures Safe(d0, Link(d, path, backup), path, doc)
  {
    hide Effects, ApplyAll;
    Pushed(d.durable, d.pending, Put(backup, d.dir[path]));
  }

  /** A rename onto the target is safe when the source is the finished new file or an old possibility. */
  lemma RenameSafe(d0: Disk, d: Disk, from: Name, path: Name, doc: Doc)
    requires Formed(d0) && Safe(d0, d, path, doc) && from in d.dir && !from.Target? && path.Target?
    requires || Some(d.dir[from]) in Possible(d0, path)
             || (d.dir[from] == |d0.files| && d.files[|d0.files|] == File(Whole(doc), true))
    ensures Safe(d0, Rename(d, from, path), path, doc)
    ensures Find(Rename(d, from, path).dir, path) == Some(d.dir[from])
  {
    hide Effects, ApplyAll;
    NewInodeIsNew(d0, path);
    if !(path in d.dir && d.dir[path] == d.dir[from]) {
      var c := Move(from, path, d.dir[from]);
      Pushed(d.durable, d.pending, c);
      RenamedPossible(d, Rename(d, from, path), c, from, path);
    }
    hide Possible;
  }

  lemma RenamedPossible(d: Disk, e: Disk, c: Change, from: Name, path: Name)
    requires !from.Target? && path.Target? && c.Move? && c == Move(from, path, c.inode)
    requires e.pending == d.pending + [c] && e.durable == d.durable
    ensures Possible(e, path) == Possible(d, path) + {Some(c.inode)}
    ensures forall n: Name | n.Target? && n != path :: Possible(e, n) == Possible(d, n)
  {
    Pushed(d.durable, d.pending, c);
    forall n: Name | n.Target? && n != path
      ensures Possible(e, n) == Possible(d, n)
    {
      PushedElsewhere(d.pending, c, n);
    }
    hide Effects, ApplyAll;
  }

  lemma RemoveSafe(d0: Disk, d: Disk, n: Name, path: Name, doc: Doc)
    requires Safe(d0, d, path, doc) && path.Target?
    requires !n.Target? || (n == path && None in Possible(d0, path))
    ensures Safe(d0, Remove(d, n), path, doc)
    ensures n !in Remove(d, n).dir
    ensures forall k | k != n :: Find(Remove(d, n).dir, k) == Find(d.dir, k)
  {
    Pushed(d.durable, d.pending, Drop(n));
    hide Effects, ApplyAll;
  }

  // ---------------------------------------------------------------------------------------------
  // The phases

  /** The new document is complete and synced under the temporary name, and the target is as it was. */
  ghost predicate Written(d0: Disk, d: Disk, temp: Name, path: Name, doc: Doc)
  {
    && |d0.files| < |d.files| && d.files[|d0.files|] == File(Whole(doc), true)
    && Find(d.dir, temp) == Some(|d0.files|)
    && Find(d.dir, path) == Find(d0.dir, path)
    && Possible(d, path) <= Possible(d0, path)
  }

  lemma WriteTempPhase(m: Machine, temp: Name, path: Name, doc: Doc)
    requires Formed(m.disk) && temp.Temp? && path.Target?
    ensures var (a, ok) := WriteTemp(m, temp, doc);
            && History(m, a, path, doc)
            && Find(a.disk.dir, path) == Find(m.disk.dir, path)
            && Possible(a.disk, path) <= Possible(m.disk, path)
            && (ok ==> Written(m.disk, a.disk, temp, path, doc))
  {
    StartHistory(m, path, doc);
    HistoryIdle(m, m, path, doc);
    NewInodeIsNew(m.disk, path);
    if Works(m) && temp !in m.disk.dir {
      var d1 := Create(m.disk, temp);
      CreateSafe(m.disk, m.disk, temp, path, doc);
      CreateElsewhere(m.disk, temp, path);
      var a := Go(m, d1);
      HistoryGo(m, m, d1, path, doc);
      HistoryIdle(m, a, path, doc);
      if Works(a) {
        var d2 := Fill(d1, |m.disk.files|, Whole(doc));
        FillSafe(m.disk, d1, Whole(doc), path, doc);
        var b := Go(a, d2);
        HistoryGo(m, a, d2, path, doc);
        HistoryIdle(m, b, path, doc);
        FillSafe(m.disk, d2, Whole(doc), path, doc);
        HistoryGo(m, b, SyncFile(d2, |m.disk.files|), path, doc);
      }
      hide History, Safe, Effects;
    }
  }

  lemma CreateElsewhere(d: Disk, temp: Name, path: Name)
    requires temp != path
    ensures Possible(Create(d, temp), path) == Possible(d, path)
    ensures Find(Create(d, temp).dir, path) == Find(d.dir, path)
  {
    hide Effects, ApplyAll;
    var e := Create(d, temp);
    PushedElsewhere(d.pending, Put(temp, |d.files|), path);
    assert e.durable == d.durable && e.pending == d.pending + [Put(temp, |d.files|)];
    assert Effects(e.pending, path) == Effects(d.pending, path);
    hide Effect, Create;
  }

  /** The backup name holds the old file if there was one, and the directory is synced. */
  ghost predicate BackedUp(d0: Disk, d: Disk, path: Name, backup: Name, had: bool)
  {
    && had == Find(d0.dir, path).Some?
    && (had ==> Find(d.dir, backup) == Find(d0.dir, path))
  }

  lemma BackUpPhase(m0: Machine, m: Machine, temp: Name, path: Name, backup: Name, doc: Doc)
    requires History(m0, m, path, doc) && Written(m0.disk, m.disk, temp, path, doc)
    requires temp.Temp? && path.Target? && backup.Backup?
    ensures var (b, had) := BackUp(m, path, backup);
            && History(m0, b, path, doc)
            && Written(m0.disk, b.disk, temp, path, doc)
            && (had.Some? ==> BackedUp(m0.disk, b.disk, path, backup, had.value))
  {
    HistoryIdle(m0, m, path, doc);
    var a := Idle(m);
    HistoryIdle(m0, a, path, doc);
    if Works(m) && Works(a) && !(path in a.disk.dir && backup in a.disk.dir) {
      var had := path in a.disk.dir;
      var b := if had then Go(a, Link(a.disk, path, backup)) else Idle(a);
      if had {
        LinkSafe(m0.disk, a.disk, backup, path, doc);
        PutElsewhere(a.disk, Link(a.disk, path, backup), Put(backup, a.disk.dir[path]), path);
        HistoryGo(m0, a, Link(a.disk, path, backup), path, doc);
      }
      assert Written(m0.disk, b.disk, temp, path, doc);
      HistoryIdle(m0, b, path, doc);
      SyncDirSafe(m0.disk, b.disk, path, doc);
      HistoryGo(m0, b, SyncDir(b.disk), path, doc);
      hide History, Safe, Effects, Possible;
    }
  }

  lemma PutElsewhere(d: Disk, e: Disk, c: Change, path: Name)
    requires c.Put? && c.name != path && e.pending == d.pending + [c] && e.durable == d.durable
    ensures Possible(e, path) == Possible(d, path)
  {
    PushedElsewhere(d.pending, c, path);
    hide Effects;
  }

  /** What the outcome says about the target. */
  ghost predicate Delivered(d0: Disk, d: Disk, path: Name, backup: Name, doc: Doc, o: Outcome)
  {
    match o
    case Saved =>
      && |d0.files| < |d.files| && d.files[|d0.files|] == File(Whole(doc), true)
      && Find(d.dir, path) == Some(|d0.files|) && Possible(d, path) == {Some(|d0.files|)}
    case Failed => Find(d.dir, path) == Find(d0.dir, path)
    case RollbackFailed =>
      && |d0.files| < |d.files| && d.files[|d0.files|] == File(Whole(doc), true)
      && Find(d.dir, path) == Some(|d0.files|)
      && (Find(d0.dir, path).Some? ==> Find(d.dir, backup) == Find(d0.dir, path))
  }

  lemma SwapPhase(m0: Machine, m: Machine, temp: Name, path: Name, backup: Name, had: bool, doc: Doc)
    requires Formed(m0.disk) && History(m0, m, path, doc) && Written(m0.disk, m.disk, temp, path, doc)
    requires BackedUp(m0.disk, m.disk, path, backup, had)
    requires temp.Temp? && path.Target? && backup.Backup?
    ensures var (c, o) := Swap(m, temp, path, backup, had);
            History(m0, c, path, doc) && Delivered(m0.disk, c.disk, path, backup, doc, o)
  {
    HistoryIdle(m0, m, path, doc);
    if Works(m) {
      RenameSafe(m0.disk, m.disk, temp, path, doc);
      RenamedElsewhere(m.disk, temp, path);
      var a := Go(m, Rename(m.disk, temp, path));
      HistoryGo(m0, m, a.disk, path, doc);
      if Works(a) {
        SyncDirSafe(m0.disk, a.disk, path, doc);
        HistoryGo(m0, a, SyncDir(a.disk), path, doc);
      } else {
        HistoryIdle(m0, a, path, doc);
        HistoryIdle(m0, Idle(a), path, doc);
        if Works(Idle(a)) {
          RollBackPhase(m0, Idle(a), path, backup, had, doc);
        }
      }
      hide History, Safe, Possible, Rename;
    }
  }

  lemma RenamedElsewhere(d: Disk, from: Name, to: Name)
    requires from in d.dir && from != to
    ensures forall n | n != from && n != to :: Find(Rename(d, from, to).dir, n) == Find(d.dir, n)
    ensures Rename(d, from, to).files == d.files
  {
  }

  lemma RollBackPhase(m0: Machine, b: Machine, path: Name, backup: Name, had: bool, doc: Doc)
    requires Formed(m0.disk) && History(m0, b, path, doc)
    requires BackedUp(m0.disk, b.disk, path, backup, had) && Works(b)
    requires path.Target? && backup.Backup?
    ensures had ==> backup in b.disk.dir
    ensures var c := Go(b, if had then Rename(b.disk, backup, path) else Remove(b.disk, path));
            var e := if Works(c) then Go(c, SyncDir(c.disk)) else Idle(c);
            History(m0, e, path, doc) && Find(e.disk.dir, path) == Find(m0.disk.dir, path)
  {
    VisibleIsPossible(m0.disk.durable, m0.disk.pending, path);
    if had {
      RenameSafe(m0.disk, b.disk, backup, path, doc);
    } else {
      RemoveSafe(m0.disk, b.disk, path, path, doc);
    }
    var d := if had then Rename(b.disk, backup, path) else Remove(b.disk, path);
    var c := Go(b, d);
    HistoryGo(m0, b, d, path, doc);
    HistoryIdle(m0, c, path, doc);
    SyncDirSafe(m0.disk, c.disk, path, doc);
    HistoryGo(m0, c, SyncDir(c.disk), path, doc);
    hide History, Safe, Possible;
  }

  lemma DiscardPhase(m0: Machine, m: Machine, n: Name, path: Name, doc: Doc)
    requires History(m0, m, path, doc) && !n.Target? && path.Target?
    ensures History(m0, Discard(m, n), path, doc)
    ensures Discard(m, n).disk.files == m.disk.files
    ensures forall k | k != n :: Find(Discard(m, n).disk.dir, k) == Find(m.disk.dir, k)
    ensures Possible(Discard(m, n).disk, path) == Possible(m.disk, path)
  {
    hide Effects, ApplyAll;
    HistoryIdle(m0, m, path, doc);
    RemoveSafe(m0.disk, m.disk, n, path, doc);
    assert Possible(Remove(m.disk, n), path) == Possible(m.disk, path) by {
      if n in m.disk.dir {
        PushedElsewhere(m.disk.pending, Drop(n), path);
      }
    }
    HistoryGo(m0, m, Remove(m.disk, n), path, doc);
    assert Remove(m.disk, n).files == m.disk.files;
    hide History, Safe, Possible, Remove;
  }

  /** The whole commit, whatever fails: every disk on the way is safe, and the outcome describes the last. */
  lemma AtomicKeeps(m: Machine, path: Name, temp: Name, backup: Name, doc: Doc)
    requires Formed(m.disk) && temp.Temp? && path.Target? && backup.Backup?
    ensures var (e, o) := Atomic(m, path, temp, backup, doc);
            History(m, e, path, doc) && Delivered(m.disk, e.disk, path, backup, doc, o)
  {
    hide History, WriteTemp, BackUp, Swap, Discard, Possible;
    WriteTempPhase(m, temp, path, doc);
    var (a, written) := WriteTemp(m, temp, doc);
    if !written {
      CleanupPhase(m, a, temp, path, backup, doc, Failed);
    } else {
      BackUpPhase(m, a, temp, path, backup, doc);
      var (b, had) := BackUp(a, path, backup);
      if had.None? {
        CleanupPhase(m, b, temp, path, backup, doc, Failed);
      } else {
        SwapPhase(m, b, temp, path, backup, had.value, doc);
        var (c, o) := Swap(b, temp, path, backup, had.value);
        CleanupPhase(m, c, temp, path, backup, doc, o);
      }
    }
  }

  lemma CleanupPhase(m0: Machine, m: Machine, temp: Name, path: Name, backup: Name, doc: Doc, o: Outcome)
    requires History(m0, m, path, doc) && Delivered(m0.disk, m.disk, path, backup, doc, o)
    requires temp.Temp? && path.Target? && backup.Backup?
    ensures History(m0, Cleanup(m, temp, backup, o), path, doc)
    ensures Delivered(m0.disk, Cleanup(m, temp, backup, o).disk, path, backup, doc, o)
  {
    hide History, Discard, Possible;
    DiscardPhase(m0, m, temp, path, doc);
    var a := if o == Saved then m else Discard(m, temp);
    DiscardPhase(m0, a, backup, path, doc);
  }

  // ---------------------------------------------------------------------------------------------
  // The promises of a commit

  /** What a reader finds under a name after a crash: unsynced files may be torn. */
  function FoundAfterCrash(d: Disk, keep: seq<bool>, n: Name): Option<Content>
    requires |keep| == |d.pending|
  {
    match AfterCrash(d, keep, n)
    case None => None
    case Some(inode) => if inode < |d.files| && d.files[inode].synced then Some(d.files[inode].content) else Some(Torn)
  }

  /** Everything a crash can leave under the state files is whole, on the disk, and fits the file. */
  ghost predicate Sound(d: Disk, fits: (Name, Doc) -> bool)
  {
    && Formed(d)
    && forall n: Name, p: Option<nat> | n.Target? && p in Possible(d, n) && p.Some? ::
         p.value < |d.files| && d.files[p.value].synced && d.files[p.value].content.Whole?
         && fits(n, d.files[p.value].content.doc)
  }

  /** If nothing can be found torn before a commit, nothing can be found torn at any point of it or after it,
      whichever operations fail and wherever a crash falls. */
  lemma AtomicKeepsSound(m: Machine, path: Name, temp: Name, backup: Name, doc: Doc, fits: (Name, Doc) -> bool)
    requires Sound(m.disk, fits) && fits(path, doc) && temp.Temp? && path.Target? && backup.Backup?
    ensures var e := Atomic(m, path, temp, backup, doc).0;
            && |m.seen| <= |e.seen| && Sound(e.disk, fits)
            && forall k | |m.seen| <= k < |e.seen| :: Sound(e.seen[k], fits)
  {
    AtomicKeeps(m, path, temp, backup, doc);
    var e := Atomic(m, path, temp, backup, doc).0;
    SafeIsSound(m.disk, e.disk, path, doc, fits);
    forall k | |m.seen| <= k < |e.seen|
      ensures Sound(e.seen[k], fits)
    {
      SafeIsSound(m.disk, e.seen[k], path, doc, fits);
    }
    hide Safe, Sound, Atomic;
  }

  lemma SafeIsSound(d0: Disk, d: Disk, path: Name, doc: Doc, fits: (Name, Doc) -> bool)
    requires Sound(d0, fits) && fits(path, doc) && path.Target?
    ensures Safe(d0, d, path, doc) ==> Sound(d, fits)
  {
    hide Possible, Formed;
    if Safe(d0, d, path, doc) {
      forall n: Name, p: Option<nat> | n.Target? && p in Possible(d, n) && p.Some?
        ensures p.value < |d.files| && d.files[p.value].synced && d.files[p.value].content.Whole?
                && fits(n, d.files[p.value].content.doc)
      {
        assert p in Possible(d0, n) || (n == path && p == Some(|d0.files|));
      }
    }
  }

  /** At every point of a commit, after any crash: the target holds the complete new document, or exactly what
      a crash before the commit could have left there. Other state files never change. */
  lemma CrashLeavesOldOrNew(m: Machine, path: Name, temp: Name, backup: Name, doc: Doc, k: nat, keep: seq<bool>)
    returns (before: seq<bool>)
    requires Formed(m.disk) && temp.Temp? && path.Target? && backup.Backup?
    requires var e := Atomic(m, path, temp, backup, doc).0;
             |m.seen| <= k < |e.seen| && |keep| == |e.seen[k].pending|
    ensures |before| == |m.disk.pending|
    ensures var e := Atomic(m, path, temp, backup, doc).0;
            || FoundAfterCrash(e.seen[k], keep, path) == Some(Whole(doc))
            || FoundAfterCrash(e.seen[k], keep, path) == FoundAfterCrash(m.disk, before, path)
  {
    AtomicKeeps(m, path, temp, backup, doc);
    var d := Atomic(m, path, temp, backup, doc).0.seen[k];
    assert Safe(m.disk, d, path, doc);
    before := OldOrNew(m.disk, d, path, doc, keep);
  }

  lemma OldOrNew(d0: Disk, d: Disk, path: Name, doc: Doc, keep: seq<bool>) returns (before: seq<bool>)
    requires Formed(d0) && Safe(d0, d, path, doc) && |keep| == |d.pending|
    ensures |before| == |d0.pending|
    ensures || FoundAfterCrash(d, keep, path) == Some(Whole(doc))
            || FoundAfterCrash(d, keep, path) == FoundAfterCrash(d0, before, path)
  {
    CrashIsPossible(d.durable, d.pending, keep, path);
    var p := AfterCrash(d, keep, path);
    assert p in Possible(d, path);
    if p in Possible(d0, path) {
      before := PossibleIsReached(d0.durable, d0.pending, path, p);
      EffectsBelow(d0, path, p);
    } else {
      before := KeepNone(d0.pending);
    }
    hide Effects, ApplyAll, Kept, Find;
  }

  lemma {:induction false} EffectsBelowList(cs: seq<Change>, limit: nat, n: Name)
    requires forall i | 0 <= i < |cs| :: cs[i].Drop? || cs[i].inode < limit
    ensures forall p | p in Effects(cs, n) && p.Some? :: p.value < limit
  {
    if cs != [] {
      EffectsBelowList(cs[..|cs| - 1], limit, n);
    }
  }

  lemma EffectsBelow(d: Disk, n: Name, p: Option<nat>)
    requires Formed(d) && p in Possible(d, n)
    ensures p.Some? ==> p.value < |d.files|
  {
    EffectsBelowList(d.pending, |d.files|, n);
  }

  /** What the three outcomes promise. Saved: the new document is visible and no crash can lose it. Failed: the
      old state of the target is visible, to the byte. Only a failed rollback leaves the new document visible
      without a promise, and then the old file is kept under the backup name. */
  lemma OutcomeDescribesTarget(m: Machine, path: Name, temp: Name, backup: Name, doc: Doc, keep: seq<bool>)
    requires Formed(m.disk) && temp.Temp? && path.Target? && backup.Backup?
    requires |keep| == |Atomic(m, path, temp, backup, doc).0.disk.pending|
    ensures var (e, o) := Atomic(m, path, temp, backup, doc);
            && Formed(e.disk)
            && (o == Saved ==> Visible(e.disk, path) == Some(Whole(doc)) == FoundAfterCrash(e.disk, keep, path))
            && (o == Failed ==> Visible(e.disk, path) == Visible(m.disk, path))
            && (o == RollbackFailed ==>
                  Visible(e.disk, path) == Some(Whole(doc))
                  && (path in m.disk.dir ==> Visible(e.disk, backup) == Visible(m.disk, path)))
            && (forall n: Name | n.Target? && n != path :: Visible(e.disk, n) == Visible(m.disk, n))
  {
    hide Atomic, Effects, ApplyAll, Kept;
    AtomicKeeps(m, path, temp, backup, doc);
    var (e, o) := Atomic(m, path, temp, backup, doc);
    CrashIsPossible(e.disk.durable, e.disk.pending, keep, path);
    assert Safe(m.disk, e.disk, path, doc);
    assert AfterCrash(e.disk, keep, path) in Possible(e.disk, path);
    assert forall n: Name | n.Target? && n != path :: Find(e.disk.dir, n) == Find(m.disk.dir, n);
  }

  // ---------------------------------------------------------------------------------------------
  // When nothing fails

  lemma CleanSwap(m: Machine, temp: Name, path: Name, backup: Name, had: bool)
    requires m.faults == [] && temp in m.disk.dir && path.Target? && temp.Temp? && backup.Backup?
    requires path in m.disk.dir ==> m.disk.dir[path] != m.disk.dir[temp]
    ensures var (n, o) := Swap(m, temp, path, backup, had);
            o == Saved && n.faults == [] && n.disk.dir.Keys == m.disk.dir.Keys - {temp} + {path}
  {
  }

  lemma CleanBackUp(m: Machine, path: Name, backup: Name)
    requires m.faults == [] && backup !in m.disk.dir
    ensures var (n, had) := BackUp(m, path, backup);
            && had.Some? && n.faults == []
            && (forall k | k in m.disk.dir :: k in n.disk.dir && n.disk.dir[k] == m.disk.dir[k])
            && n.disk.dir.Keys <= m.disk.dir.Keys + {backup}
  {
  }

  lemma CleanTemp(m: Machine, temp: Name, doc: Doc)
    requires m.faults == [] && temp !in m.disk.dir
    ensures var (n, ok) := WriteTemp(m, temp, doc);
            ok && n.faults == [] && n.disk.dir == m.disk.dir[temp := |m.disk.files|]
  {
  }

  lemma CleanDiscard(m: Machine, n: Name)
    requires m.faults == []
    ensures Discard(m, n).faults == [] && Discard(m, n).disk.dir.Keys == m.disk.dir.Keys - {n}
  {
  }

  /** A commit saves when no operation fails and the names of its hidden files are free; it leaves none of them. */
  lemma SavesWhenNothingFails(m: Machine, path: Name, temp: Name, backup: Name, doc: Doc)
    requires m.faults == [] && path.Target? && temp.Temp? && backup.Backup?
    requires temp !in m.disk.dir && backup !in m.disk.dir
    requires path in m.disk.dir ==> m.disk.dir[path] < |m.disk.files|
    ensures var (n, o) := Atomic(m, path, temp, backup, doc);
            o == Saved && n.faults == [] && n.disk.dir.Keys == m.disk.dir.Keys + {path}
  {
    hide WriteTemp, BackUp, Swap, Discard;
    CleanTemp(m, temp, doc);
    var a := WriteTemp(m, temp, doc).0;
    CleanBackUp(a, path, backup);
    var (b, had) := BackUp(a, path, backup);
    CleanSwap(b, temp, path, backup, had.value);
    CleanDiscard(Swap(b, temp, path, backup, had.value).0, backup);
  }

  // ---------------------------------------------------------------------------------------------
  // What a failure leaves behind

  /** A script in which operation `i` fails and no other. */
  function Only(i: nat): seq<bool>
  {
    if i == 0 then [false] else [true] + Only(i - 1)
  }

  lemma OnlyNext(m: Machine, i: nat)
    requires m.faults == Only(i)
    ensures Works(m) <==> i != 0
    ensures Idle(m).faults == if i == 0 then [] else Only(i - 1)
  {
  }

  /** The same names, apart from these. */
  ghost predicate SameNames(a: Disk, b: Disk, hidden: set<Name>)
  {
    a.dir.Keys - hidden == b.dir.Keys - hidden
  }

  lemma TempFails(m: Machine, temp: Name, doc: Doc, i: nat)
    requires m.faults == Only(i) && temp !in m.disk.dir
    ensures var (n, ok) := WriteTemp(m, temp, doc);
            && (ok <==> i >= 3) && n.faults == (if i >= 3 then Only(i - 3) else [])
            && SameNames(n.disk, m.disk, {temp}) && (ok ==> n.disk.dir == m.disk.dir[temp := |m.disk.files|])
  {
    hide Works, Idle, Only;
    OnlyNext(m, i);
    var a := Go(m, Create(m.disk, temp));
    GoShape(m, Create(m.disk, temp));
    if i > 0 {
      OnlyNext(a, i - 1);
      var b := Go(a, Fill(a.disk, |m.disk.files|, Whole(doc)));
      GoShape(a, Fill(a.disk, |m.disk.files|, Whole(doc)));
      if i > 1 {
        OnlyNext(b, i - 2);
        GoShape(b, SyncFile(b.disk, |m.disk.files|));
      }
    }
  }

  lemma GoShape(m: Machine, d: Disk)
    ensures Idle(m).disk == m.disk && Go(m, d).disk == d && Go(m, d).faults == Idle(m).faults
  {
  }

  lemma BackUpFails(m: Machine, path: Name, backup: Name, i: nat)
    requires m.faults == Only(i) && backup !in m.disk.dir
    ensures var (n, had) := BackUp(m, path, backup);
            && (had.Some? <==> i >= 3) && n.faults == (if i >= 3 then Only(i - 3) else [])
            && SameNames(n.disk, m.disk, {backup})
            && (had.Some? ==> (had.value <==> path in m.disk.dir) && (had.value <==> backup in n.disk.dir))
  {
    OnlyNext(m, i);
    if i > 0 {
      var a := Idle(m);
      OnlyNext(a, i - 1);
      if i > 1 {
        var b := if path in m.disk.dir then Go(a, Link(a.disk, path, backup)) else Idle(a);
        OnlyNext(b, i - 2);
      }
    }
  }

  lemma SwapFails(m: Machine, temp: Name, path: Name, backup: Name, had: bool, i: nat)
    requires m.faults == Only(i) && i < 2 && temp in m.disk.dir && temp.Temp? && path.Target? && backup.Backup?
    requires (had <==> path in m.disk.dir) && (had <==> backup in m.disk.dir)
    requires path in m.disk.dir ==> m.disk.dir[path] != m.disk.dir[temp] && m.disk.dir[backup] == m.disk.dir[path]
    ensures var (n, o) := Swap(m, temp, path, backup, had);
            && o == Failed && n.faults == []
            && SameNames(n.disk, m.disk, {temp, backup})
  {
    OnlyNext(m, i);
    if i > 0 {
      OnlyNext(Go(m, Rename(m.disk, temp, path)), i - 1);
    }
  }

  /** A commit one of whose operations fails, up to the sync after the rename, leaves no hidden file and no new name:
      what was made is taken away again. */
  lemma OneFailureLeavesNothing(m: Machine, path: Name, temp: Name, backup: Name, doc: Doc, i: nat)
    requires m.faults == Only(i) && i < 8 && path.Target? && temp.Temp? && backup.Backup?
    requires temp !in m.disk.dir && backup !in m.disk.dir
    requires path in m.disk.dir ==> m.disk.dir[path] < |m.disk.files|
    ensures var (n, o) := Atomic(m, path, temp, backup, doc); o == Failed && n.disk.dir.Keys == m.disk.dir.Keys
  {
    hide WriteTemp, BackUp, Swap, Discard;
    TempFails(m, temp, doc, i);
    var (a, written) := WriteTemp(m, temp, doc);
    WithoutBoth(a.disk, m.disk, temp, backup);
    assert m.disk.dir.Keys - {temp, backup} == m.disk.dir.Keys;
    if !written {
      Swept(a, temp, backup);
    } else {
      BackUpFails(a, path, backup, i - 3);
      BackUpLinks(a, path, backup);
      var (b, had) := BackUp(a, path, backup);
      WithoutBoth(b.disk, a.disk, temp, backup);
      if had.None? {
        Swept(b, temp, backup);
      } else {
        assert path in b.disk.dir <==> path in b.disk.dir.Keys - {temp, backup};
        SwapFails(b, temp, path, backup, had.value, i - 6);
        WithoutBoth(Swap(b, temp, path, backup, had.value).0.disk, b.disk, temp, backup);
        Swept(Swap(b, temp, path, backup, had.value).0, temp, backup);
      }
    }
  }

  lemma WithoutBoth(d: Disk, e: Disk, temp: Name, backup: Name)
    requires SameNames(d, e, {temp}) || SameNames(d, e, {backup}) || SameNames(d, e, {temp, backup})
    ensures d.dir.Keys - {temp, backup} == e.dir.Keys - {temp, backup}
  {
    assert forall x: set<Name> :: x - {temp, backup} == x - {temp} - {backup} == x - {backup} - {temp};
  }

  /** What backing up leaves of the names it found. */
  lemma BackUpLinks(m: Machine, path: Name, backup: Name)
    requires backup !in m.disk.dir
    ensures var (n, had) := BackUp(m, path, backup);
            && (forall k | k in m.disk.dir :: k in n.disk.dir && n.disk.dir[k] == m.disk.dir[k])
            && (had == Some(true) ==> path in m.disk.dir && backup in n.disk.dir
                                      && n.disk.dir[backup] == m.disk.dir[path])
  {
  }

  lemma Swept(m: Machine, temp: Name, backup: Name)
    requires m.faults == []
    ensures Cleanup(m, temp, backup, Failed).disk.dir.Keys == m.disk.dir.Keys - {temp, backup}
  {
    hide Discard;
    CleanDiscard(m, temp);
    CleanDiscard(Discard(m, temp), backup);
  }

  // ---------------------------------------------------------------------------------------------
  // What the outcome depends on, read off before the call

  /** Operation `i` of a script works. */
  predicate WorksAt(faults: seq<bool>, i: nat)
  {
    i >= |faults| || faults[i]
  }

  function Later(faults: seq<bool>, n: nat): seq<bool>
  {
    if n <= |faults| then faults[n..] else []
  }

  /** The seven operations up to the rename of the new file over the target work, and no hidden file is in the way. */
  predicate ReachesRename(m: Machine, path: Name, temp: Name, backup: Name)
  {
    && temp !in m.disk.dir && !(path in m.disk.dir && backup in m.disk.dir)
    && forall i | 0 <= i < 7 :: WorksAt(m.faults, i)
  }

  /** The rename happens, the directory cannot be synced, and the old state cannot be put back. */
  predicate CannotRollBack(m: Machine, path: Name, temp: Name, backup: Name)
  {
    ReachesRename(m, path, temp, backup) && !WorksAt(m.faults, 7) && !WorksAt(m.faults, 8)
  }

  lemma TempScript(m: Machine, temp: Name, doc: Doc)
    ensures var (n, ok) := WriteTemp(m, temp, doc);
            && (ok <==> temp !in m.disk.dir && forall i | 0 <= i < 3 :: WorksAt(m.faults, i))
            && (ok ==> n.faults == Later(m.faults, 3) && n.disk.dir == m.disk.dir[temp := |m.disk.files|])
  {
    if WriteTemp(m, temp, doc).1 {
      assert WorksAt(m.faults, 0) && WorksAt(m.faults, 1) && WorksAt(m.faults, 2);
    } else {
      assert temp in m.disk.dir || !WorksAt(m.faults, 0) || !WorksAt(m.faults, 1) || !WorksAt(m.faults, 2);
    }
  }

  lemma BackUpScript(m: Machine, path: Name, backup: Name)
    ensures var (n, had) := BackUp(m, path, backup);
            && (had.Some? <==>
                  !(path in m.disk.dir && backup in m.disk.dir) && forall i | 0 <= i < 3 :: WorksAt(m.faults, i))
            && (had.Some? ==> n.faults == Later(m.faults, 3))
  {
    if BackUp(m, path, backup).1.Some? {
      assert WorksAt(m.faults, 0) && WorksAt(m.faults, 1) && WorksAt(m.faults, 2);
    } else {
      assert (path in m.disk.dir && backup in m.disk.dir)
             || !WorksAt(m.faults, 0) || !WorksAt(m.faults, 1) || !WorksAt(m.faults, 2);
    }
  }

  lemma SwapScript(m: Machine, temp: Name, path: Name, backup: Name, had: bool)
    requires temp in m.disk.dir && temp.Temp? && path.Target? && backup.Backup? && (had ==> backup in m.disk.dir)
    ensures var o := Swap(m, temp, path, backup, had).1;
            && (o == Saved <==> WorksAt(m.faults, 0) && WorksAt(m.faults, 1))
            && (o == RollbackFailed <==> WorksAt(m.faults, 0) && !WorksAt(m.faults, 1) && !WorksAt(m.faults, 2))
  {
    hide Rename, Remove, SyncDir;
    RenamedElsewhere(m.disk, temp, path);
    assert had ==> Find(Rename(m.disk, temp, path).dir, backup) == Find(m.disk.dir, backup);
    var a := Go(m, Rename(m.disk, temp, path));
    assert Works(m) == WorksAt(m.faults, 0) && Works(a) == WorksAt(m.faults, 1);
    assert Works(Idle(a)) == WorksAt(m.faults, 2);
  }

  lemma SevenWork(faults: seq<bool>)
    ensures (forall i | 0 <= i < 7 :: WorksAt(faults, i)) <==>
            && (forall i | 0 <= i < 3 :: WorksAt(faults, i))
            && (forall i | 0 <= i < 3 :: WorksAt(Later(faults, 3), i))
            && WorksAt(Later(Later(faults, 3), 3), 0)
    ensures forall i: nat :: WorksAt(Later(Later(faults, 3), 3), i) == WorksAt(faults, 6 + i)
  {
    forall i: nat
      ensures WorksAt(Later(faults, 3), i) == WorksAt(faults, 3 + i)
      ensures WorksAt(Later(Later(faults, 3), 3), i) == WorksAt(faults, 6 + i)
    {
    }
    if (forall i | 0 <= i < 3 :: WorksAt(faults, i)) && (forall i | 0 <= i < 3 :: WorksAt(Later(faults, 3), i))
       && WorksAt(Later(Later(faults, 3), 3), 0) {
      forall i | 0 <= i < 7
        ensures WorksAt(faults, i)
      {
        assert i < 3 || WorksAt(Later(faults, 3), i - 3) || i == 6;
        assert i == 6 ==> WorksAt(faults, 6 + 0);
      }
    }
    if forall i | 0 <= i < 7 :: WorksAt(faults, i) {
      assert WorksAt(faults, 6 + 0);
      forall i | 0 <= i < 3
        ensures WorksAt(Later(faults, 3), i)
      {
        assert WorksAt(faults, 3 + i);
      }
    }
  }

  /** The outcome, decided before the call by the disk, the names and the script: the commit saves exactly when
      the eight operations up to the second directory sync work, and it leaves what it cannot roll back exactly
      when that sync and the rollback after it both fail. */
  lemma OutcomeIsDecidedByScript(m: Machine, path: Name, temp: Name, backup: Name, doc: Doc)
    requires temp.Temp? && path.Target? && backup.Backup?
    ensures var o := Atomic(m, path, temp, backup, doc).1;
            && (o == Saved <==> ReachesRename(m, path, temp, backup) && WorksAt(m.faults, 7))
            && (o == RollbackFailed <==> CannotRollBack(m, path, temp, backup))
  {
    hide WriteTemp, BackUp, Swap, Cleanup, Later, WorksAt;
    TempScript(m, temp, doc);
    SevenWork(m.faults);
    var (a, written) := WriteTemp(m, temp, doc);
    if written {
      BackUpScript(a, path, backup);
      var (b, had) := BackUp(a, path, backup);
      if had.Some? {
        BackedUpNames(a, path, backup);
        SwapScript(b, temp, path, backup, had.value);
        assert WorksAt(b.faults, 1) == WorksAt(m.faults, 6 + 1) && WorksAt(b.faults, 2) == WorksAt(m.faults, 6 + 2);
      }
    }
  }

  lemma BackedUpNames(m: Machine, path: Name, backup: Name)
    requires path.Target? && backup.Backup?
    ensures var (n, had) := BackUp(m, path, backup);
            had.Some? ==>
              && (had.value <==> path in m.disk.dir) && (had.value ==> backup in n.disk.dir)
              && (forall k | k in m.disk.dir :: k in n.disk.dir)
  {
  }

  /** Exactly when a crash after the call may find the new document under the target: when the rename happened and
      was not both undone and synced. A commit that reports failure may thus still come into force. */
  lemma NewMayBeFoundExactlyWhen(m: Machine, path: Name, temp: Name, backup: Name, doc: Doc)
    requires Formed(m.disk) && temp.Temp? && path.Target? && backup.Backup?
    ensures Some(|m.disk.files|) in Possible(Atomic(m, path, temp, backup, doc).0.disk, path) <==>
            && ReachesRename(m, path, temp, backup)
            && (WorksAt(m.faults, 7) || !WorksAt(m.faults, 8) || !WorksAt(m.faults, 9))
  {
    hide WriteTemp, BackUp, Swap, Discard, Later, WorksAt, History, Safe, Possible, Written;
    NewInodeIsNew(m.disk, path);
    TempScript(m, temp, doc);
    SevenWork(m.faults);
    WriteTempPhase(m, temp, path, doc);
    var (a, written) := WriteTemp(m, temp, doc);
    if !written {
      CleanupFinds(m, a, temp, backup, path, doc, Failed);
    } else {
      BackUpScript(a, path, backup);
      BackUpPhase(m, a, temp, path, backup, doc);
      var (b, had) := BackUp(a, path, backup);
      WrittenFindsOld(m.disk, b.disk, temp, path, doc);
      if had.None? {
        CleanupFinds(m, b, temp, backup, path, doc, Failed);
      } else {
        SwapPhase(m, b, temp, path, backup, had.value, doc);
        SwapFinds(m.disk, b, temp, path, backup, had.value, doc);
        var (c, o) := Swap(b, temp, path, backup, had.value);
        CleanupFinds(m, c, temp, backup, path, doc, o);
        assert WorksAt(b.faults, 1) == WorksAt(m.faults, 6 + 1) && WorksAt(b.faults, 2) == WorksAt(m.faults, 6 + 2)
            && WorksAt(b.faults, 3) == WorksAt(m.faults, 6 + 3);
      }
    }
  }

  lemma WrittenFindsOld(d0: Disk, d: Disk, temp: Name, path: Name, doc: Doc)
    requires Written(d0, d, temp, path, doc)
    ensures Possible(d, path) <= Possible(d0, path)
  {
  }

  lemma CleanupFinds(m0: Machine, m: Machine, temp: Name, backup: Name, path: Name, doc: Doc, o: Outcome)
    requires History(m0, m, path, doc) && temp.Temp? && backup.Backup? && path.Target?
    ensures Possible(Cleanup(m, temp, backup, o).disk, path) == Possible(m.disk, path)
  {
    hide History, Discard, Possible;
    DiscardPhase(m0, m, temp, path, doc);
    var a := if o == Saved then m else Discard(m, temp);
    DiscardPhase(m0, a, backup, path, doc);
  }

  lemma SwapFinds(d0: Disk, m: Machine, temp: Name, path: Name, backup: Name, had: bool, doc: Doc)
    requires Formed(d0) && Written(d0, m.disk, temp, path, doc) && BackedUp(d0, m.disk, path, backup, had)
    requires temp.Temp? && path.Target? && backup.Backup?
    ensures Some(|d0.files|) in Possible(Swap(m, temp, path, backup, had).0.disk, path) <==>
            WorksAt(m.faults, 0) && (WorksAt(m.faults, 1) || !WorksAt(m.faults, 2) || !WorksAt(m.faults, 3))
  {
    hide Effects, ApplyAll;
    NewInodeIsNew(d0, path);
    if Works(m) {
      OldIsNotNew(d0, path);
      var d := Rename(m.disk, temp, path);
      Pushed(m.disk.durable, m.disk.pending, Move(temp, path, |d0.files|));
      assert Some(|d0.files|) in Possible(d, path);
      SyncFinds(d, path);
      RollBackFinds(d0, d, path, backup, had);
      SyncFinds(if had then Rename(d, backup, path) else Remove(d, path), path);
    }
  }

  lemma OldIsNotNew(d: Disk, n: Name)
    requires Formed(d)
    ensures Find(d.dir, n) != Some(|d.files|)
  {
  }

  lemma SyncFinds(d: Disk, n: Name)
    ensures Possible(SyncDir(d), n) == {Find(d.dir, n)}
  {
    assert Effects([], n) == {};
  }

  /** Undoing the rename makes the old entry visible; the new one stays possible until the next sync. */
  lemma RollBackFinds(d0: Disk, d: Disk, path: Name, backup: Name, had: bool)
    requires Formed(d0) && Some(|d0.files|) in Possible(d, path) && Find(d.dir, path) == Some(|d0.files|)
    requires path.Target? && backup.Backup? && had == Find(d0.dir, path).Some?
    requires had ==> Find(d.dir, backup) == Find(d0.dir, path)
    ensures had ==> backup in d.dir
    ensures var e := if had then Rename(d, backup, path) else Remove(d, path);
            Some(|d0.files|) in Possible(e, path) && Find(e.dir, path) == Find(d0.dir, path)
  {
    hide Effects, ApplyAll;
    OldIsNotNew(d0, path);
    if had {
      Pushed(d.durable, d.pending, Move(backup, path, d.dir[backup]));
    } else {
      Pushed(d.durable, d.pending, Drop(path));
    }
  }
}
