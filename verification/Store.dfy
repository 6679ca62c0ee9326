/** `Store`: the configuration and host list in memory and on disk. */
module Store {
  import opened Wrappers
  import opened Documents
  import opened FileSystem
  import opened Commit

  const CONFIG: Name := Target("config.json")
  const IDENTITY: Name := Target("identity.json")
  const HOSTS: Name := Target("hosts.json")
  const DEFAULT := Config(true, Random, 5555, false, false)

  // ---------------------------------------------------------------------------------------------
  // The volume, operation by operation

  /** The directory of the state files, changed in place by one operation at a time. */
  class Volume {
    var disk: Disk
    var faults: seq<bool>
    ghost var seen: seq<Disk>

    ghost function View(): Machine
      reads this
    {
      Machine(disk, faults, seen)
    }

    constructor (disk: Disk, faults: seq<bool>)
      ensures View() == Machine(disk, faults, [])
    {
      this.disk, this.faults, seen := disk, faults, [];
    }

    /** Whether the next operation works. */
    method Attempt() returns (works: bool)
      modifies this`faults
      ensures works == Works(old(View())) && View() == Idle(old(View()))
    {
      works := faults == [] || faults[0];
      if faults != [] {
        faults := faults[1..];
      }
    }

    method Become(d: Disk)
      modifies this`disk, this`seen
      ensures View() == old(View()).(disk := d, seen := old(seen) + [d])
    {
      disk, seen := d, seen + [d];
    }

    method Remove(n: Name)
      modifies this
      ensures View() == Discard(old(View()), n)
    {
      var works := Attempt();
      if works {
        Become(FileSystem.Remove(disk, n));
      }
    }

    method WriteTemp(temp: Name, doc: Doc) returns (ok: bool)
      modifies this
      ensures (View(), ok) == Commit.WriteTemp(old(View()), temp, doc)
    {
      var works := Attempt();
      if !works || temp in disk.dir {
        return false;
      }
      var inode := |disk.files|;
      Become(Create(disk, temp));
      works := Attempt();
      if !works {
        return false;
      }
      Become(Fill(disk, inode, Whole(doc)));
      works := Attempt();
      if works {
        Become(SyncFile(disk, inode));
      }
      ok := works;
    }

    method BackUp(path: Name, backup: Name) returns (had: Option<bool>)
      modifies this
      ensures (View(), had) == Commit.BackUp(old(View()), path, backup)
    {
      hide Link, SyncDir;
      var works := Attempt();
      if !works {
        return None;
      }
      works := Attempt();
      if !works || (path in disk.dir && backup in disk.dir) {
        return None;
      }
      var found := path in disk.dir;
      if found {
        Become(Link(disk, path, backup));
      }
      works := Attempt();
      if !works {
        return None;
      }
      Become(SyncDir(disk));
      had := Some(found);
    }

    method Swap(temp: Name, path: Name, backup: Name, had: bool) returns (outcome: Outcome)
      modifies this
      ensures (View(), outcome) == Commit.Swap(old(View()), temp, path, backup, had)
    {
      hide Rename, SyncDir, Commit.Rollback;
      var works := Attempt();
      if !works || temp !in disk.dir {
        return Failed;
      }
      Become(Rename(disk, temp, path));
      works := Attempt();
      if works {
        Become(SyncDir(disk));
        return Saved;
      }
      outcome := PutBack(path, backup, had);
    }

    method PutBack(path: Name, backup: Name, had: bool) returns (outcome: Outcome)
      modifies this
      ensures (View(), outcome) == Commit.Rollback(old(View()), path, backup, had)
    {
      hide Rename, FileSystem.Remove, SyncDir;
      var works := Attempt();
      if !works || (had && backup !in disk.dir) {
        return RollbackFailed;
      }
      if had {
        Become(Rename(disk, backup, path));
      } else {
        Become(FileSystem.Remove(disk, path));
      }
      works := Attempt();
      if works {
        Become(SyncDir(disk));
      }
      outcome := Failed;
    }

    /** `store::atomic`. */
    method Atomic(path: Name, temp: Name, backup: Name, doc: Doc) returns (outcome: Outcome)
      modifies this
      ensures (View(), outcome) == Commit.Atomic(old(View()), path, temp, backup, doc)
    {
      hide Commit.WriteTemp, Commit.BackUp, Commit.Swap, Cleanup;
      var written := WriteTemp(temp, doc);
      if !written {
        outcome := Failed;
      } else {
        var had := BackUp(path, backup);
        if had.None? {
          outcome := Failed;
        } else {
          outcome := Swap(temp, path, backup, had.value);
        }
      }
      Clean(temp, backup, outcome);
    }

    method Clean(temp: Name, backup: Name, outcome: Outcome)
      modifies this
      ensures View() == Cleanup(old(View()), temp, backup, outcome)
    {
      hide Discard;
      if outcome != Saved {
        Remove(temp);
      }
      if outcome != RollbackFailed {
        Remove(backup);
      }
    }
  }

  // ---------------------------------------------------------------------------------------------
  // Specification of the store

  datatype StoreState = StoreState(machine: Machine, config: Config, hosts: seq<Host>)

  datatype Change = Configure(config: Config) | Pair(key: string, now: nat) | Revoke(fingerprint: string)
                  | Connected(fingerprint: string, now: nat)

  /** `Refused` is an error before anything was written. */
  datatype StoreResult = Done | Refused | NotSaved | Inconsistent

  /** The file a change writes and the document it writes there, or `None` when it refuses. */
  function Proposal(s: StoreState, c: Change, fp: Fingerprinter): Option<(Name, Doc)>
  {
    match c
    case Configure(config) => if config.Valid() then Some((CONFIG, ConfigDoc(config))) else None
    case Pair(key, now) =>
      (match PairHosts(s.hosts, key, now, fp)
       case None => None
       case Some(hosts) => Some((HOSTS, HostsDoc(hosts))))
    case Revoke(f) => Some((HOSTS, HostsDoc(RevokeHosts(s.hosts, f))))
    case Connected(f, now) =>
      (match ConnectHosts(s.hosts, f, now)
       case None => None
       case Some(hosts) => Some((HOSTS, HostsDoc(hosts))))
  }

  /** Memory follows the disk only after the commit succeeded. */
  function Adopt(s: StoreState, doc: Doc): StoreState
  {
    match doc
    case ConfigDoc(config) => s.(config := config)
    case HostsDoc(hosts) => s.(hosts := hosts)
    case IdentityDoc(_) => s
  }

  /** `Store::configure`, `pair`, `revoke` and `connected`; the tags name the temporary and backup files. */
  function Alter(s: StoreState, c: Change, temp: nat, backup: nat, fp: Fingerprinter): (StoreState, StoreResult)
  {
    match Proposal(s, c, fp)
    case None => (s, Refused)
    case Some((path, doc)) =>
      var (m, o) := Commit.Atomic(s.machine, path, Temp(temp), Backup(backup), doc);
      var t := s.(machine := m);
      match o
      case Saved => (Adopt(t, doc), Done)
      case Failed => (t, NotSaved)
      case RollbackFailed => (t, Inconsistent)
  }

  /** What the disk shows is what memory holds. A missing host file stands for no hosts. */
  ghost predicate Agrees(s: StoreState)
  {
    && Formed(s.machine.disk)
    && Visible(s.machine.disk, CONFIG) == Some(Whole(ConfigDoc(s.config)))
    && (Visible(s.machine.disk, HOSTS) == Some(Whole(HostsDoc(s.hosts)))
        || (Visible(s.machine.disk, HOSTS) == None && s.hosts == []))
  }

  /** The rules `open` applies to a document found under a state file's name. */
  ghost predicate Fits(n: Name, doc: Doc, fp: Fingerprinter)
  {
    if n == CONFIG then doc.ConfigDoc? && doc.config.Valid()
    else if n == HOSTS then doc.HostsDoc? && AcceptsHosts(doc.hosts, fp)
    else doc.IdentityDoc?
  }

  ghost function Fitting(fp: Fingerprinter): (Name, Doc) -> bool
  {
    (n, doc) => Fits(n, doc, fp)
  }

  ghost predicate Trusted(s: StoreState, fp: Fingerprinter)
  {
    && Sound(s.machine.disk, Fitting(fp))
    && s.config.Valid()
    && AcceptsHosts(s.hosts, fp)
  }

  lemma ProposalFits(s: StoreState, c: Change, fp: Fingerprinter)
    requires Trusted(s, fp) && Proposal(s, c, fp).Some?
    ensures var (n, doc) := Proposal(s, c, fp).value;
            (n == CONFIG || n == HOSTS) && Fits(n, doc, fp) && Trusted(Adopt(s, doc), fp)
  {
    hide Sound, AcceptsHosts;
    match c
    case Configure(_) =>
    case Pair(key, now) => PairingIsSound(s.hosts, key, now, fp);
    case Revoke(f) => RevokeAccepted(s.hosts, f, fp);
    case Connected(f, now) => ConnectAccepted(s.hosts, f, now, fp);
  }

  /** A change never makes the store or the disk something `open` would refuse: not in memory, not on the disk
      after it, and not after a crash at any point of it. */
  lemma AlterKeepsTrust(s: StoreState, c: Change, temp: nat, backup: nat, fp: Fingerprinter)
    requires Trusted(s, fp)
    ensures var t := Alter(s, c, temp, backup, fp).0;
            && Trusted(t, fp)
            && |s.machine.seen| <= |t.machine.seen|
            && forall k | |s.machine.seen| <= k < |t.machine.seen| :: Sound(t.machine.seen[k], Fitting(fp))
  {
    hide Commit.Atomic, Sound, AcceptsHosts, Proposal;
    if Proposal(s, c, fp).Some? {
      var (path, doc) := Proposal(s, c, fp).value;
      ProposalFits(s, c, fp);
      AtomicKeepsSound(s.machine, path, Temp(temp), Backup(backup), doc, Fitting(fp));
    }
  }

  /** This change will leave the disk ahead of memory: it writes something memory does not hold, everything works up
      to the rename, and then neither the directory can be synced nor the old file put back. */
  predicate Breaks(s: StoreState, c: Change, temp: nat, backup: nat, fp: Fingerprinter)
  {
    match Proposal(s, c, fp)
    case None => false
    case Some((path, doc)) =>
      doc != ConfigDoc(s.config) && doc != HostsDoc(s.hosts)
      && CannotRollBack(s.machine, path, Temp(temp), Backup(backup))
  }

  /** After a change memory and disk agree again, except exactly when the disk, the names and the script of
      operations before it say that it breaks. Memory changes only when the change is done. */
  lemma AgreementLostExactlyWhen(s: StoreState, c: Change, temp: nat, backup: nat, fp: Fingerprinter)
    requires Agrees(s)
    ensures var (t, r) := Alter(s, c, temp, backup, fp);
            && (Agrees(t) <==> !Breaks(s, c, temp, backup, fp))
            && (r != Done ==> t.config == s.config && t.hosts == s.hosts)
  {
    hide Commit.Atomic, Formed, CannotRollBack;
    if Proposal(s, c, fp).Some? {
      var (path, doc) := Proposal(s, c, fp).value;
      assert (path == CONFIG && doc.ConfigDoc?) || (path == HOSTS && doc.HostsDoc?);
      var m := Commit.Atomic(s.machine, path, Temp(temp), Backup(backup), doc).0;
      var keep := KeepNone(m.disk.pending);
      OutcomeDescribesTarget(s.machine, path, Temp(temp), Backup(backup), doc, keep);
      OutcomeIsDecidedByScript(s.machine, path, Temp(temp), Backup(backup), doc);
      hide Proposal, Visible;
      DistinctFiles();
    }
  }

  /** Seven operations that work and two that do not. */
  const SEVEN_THEN_TWO := [true, true, true, true, true, true, true, false, false]

  /** A store as the first start leaves it, before such a script. */
  function FirstStart(): StoreState
  {
    var dir := map[CONFIG := 0, IDENTITY := 1];
    var files := [File(Whole(ConfigDoc(DEFAULT)), true), File(Whole(IdentityDoc("altdb")), true)];
    StoreState(Machine(Disk(files, dir, dir, []), SEVEN_THEN_TWO, []), DEFAULT, [])
  }

  /** The input on which agreement is lost: the first change of a fresh store, with that script. */
  lemma AgreementIsLost(fp: Fingerprinter)
    ensures Trusted(FirstStart(), fp) && Agrees(FirstStart())
    ensures var change := Change.Configure(DEFAULT.(allowAdbRoot := true));
            var (t, r) := Alter(FirstStart(), change, 0, 0, fp);
            r == Inconsistent && !Agrees(t) && t.config == DEFAULT
  {
    hide Commit.Atomic;
    FirstStartHolds(fp);
    var s, config := FirstStart(), DEFAULT.(allowAdbRoot := true);
    assert Proposal(s, Change.Configure(config), fp) == Some((CONFIG, ConfigDoc(config)));
    assert CannotRollBack(s.machine, CONFIG, Temp(0), Backup(0));
    AgreementLostExactlyWhen(s, Change.Configure(config), 0, 0, fp);
    OutcomeIsDecidedByScript(s.machine, CONFIG, Temp(0), Backup(0), ConfigDoc(config));
  }

  lemma FirstStartHolds(fp: Fingerprinter)
    ensures Trusted(FirstStart(), fp) && Agrees(FirstStart())
  {
    var d := FirstStart().machine.disk;
    DistinctFiles();
    assert ApplyAll(d.durable, []) == d.dir;
    forall n
      ensures Possible(d, n) == {Find(d.dir, n)}
    {
      assert Effects([], n) == {};
    }
    hide ApplyAll, Effects, Possible;
  }

  lemma DistinctFiles()
    ensures CONFIG != HOSTS && CONFIG != IDENTITY && HOSTS != IDENTITY
  {
    assert CONFIG.file[0] == 'c' && HOSTS.file[0] == 'h' && IDENTITY.file[0] == 'i';
  }

  /** A change is done exactly when it has something to propose, if nothing fails on a disk whose hidden names are
      free. */
  lemma DoneWhenNothingFails(s: StoreState, c: Change, temp: nat, backup: nat, fp: Fingerprinter)
    requires s.machine.faults == [] && Formed(s.machine.disk)
    requires Temp(temp) !in s.machine.disk.dir && Backup(backup) !in s.machine.disk.dir
    ensures Alter(s, c, temp, backup, fp).1 == Done <==> Proposal(s, c, fp).Some?
    ensures var t := Alter(s, c, temp, backup, fp).0;
            && t.machine.faults == []
            && t.machine.disk.dir.Keys <= s.machine.disk.dir.Keys + {CONFIG, HOSTS}
  {
    hide Commit.Atomic, ApplyAll;
    if Proposal(s, c, fp).Some? {
      var (path, doc) := Proposal(s, c, fp).value;
      assert path == CONFIG || path == HOSTS;
      SavesWhenNothingFails(s.machine, path, Temp(temp), Backup(backup), doc);
    }
    hide Proposal;
  }

  /** What becomes of a change, decided before it by its own checks, the disk, the names and the operations. */
  lemma ResultIsDecidedBeforehand(s: StoreState, c: Change, temp: nat, backup: nat, fp: Fingerprinter)
    ensures var r := Alter(s, c, temp, backup, fp).1; var proposal := Proposal(s, c, fp);
            && (r == Refused <==> proposal.None?)
            && (proposal.Some? ==>
                  var reaches := ReachesRename(s.machine, proposal.value.0, Temp(temp), Backup(backup));
                  && (r == Done <==> reaches && WorksAt(s.machine.faults, 7))
                  && (r == Inconsistent <==>
                        reaches && !WorksAt(s.machine.faults, 7) && !WorksAt(s.machine.faults, 8)))
  {
    hide Commit.Atomic, ReachesRename, WorksAt;
    if Proposal(s, c, fp).Some? {
      var (path, doc) := Proposal(s, c, fp).value;
      OutcomeIsDecidedByScript(s.machine, path, Temp(temp), Backup(backup), doc);
    }
    hide Proposal;
  }

  /** A pairing that reports success is on the disk and survives any crash: the host's fingerprint is in the
      host file, and no host that was trusted before has been dropped. */
  lemma PairedHostIsDurable(s: StoreState, key: string, now: nat, temp: nat, backup: nat, fp: Fingerprinter,
                            keep: seq<bool>)
    requires Trusted(s, fp) && Alter(s, Pair(key, now), temp, backup, fp).1 == Done
    requires |keep| == |Alter(s, Pair(key, now), temp, backup, fp).0.machine.disk.pending|
    ensures var t := Alter(s, Pair(key, now), temp, backup, fp).0;
            && HostKey(key, fp).Some? && Knows(t.hosts, HostKey(key, fp).value.0) && s.hosts <= t.hosts
            && FoundAfterCrash(t.machine.disk, keep, HOSTS) == Some(Whole(HostsDoc(t.hosts)))
  {
    PairingIsSound(s.hosts, key, now, fp);
    var hosts := PairHosts(s.hosts, key, now, fp).value;
    OutcomeDescribesTarget(s.machine, HOSTS, Temp(temp), Backup(backup), HostsDoc(hosts), keep);
    hide Commit.Atomic, FoundAfterCrash, AcceptsHosts;
  }

  /** A revocation that reports success survives any crash: the fingerprint is in neither memory nor the file,
      and every other host is in both. */
  lemma RevokedHostIsGone(s: StoreState, f: string, temp: nat, backup: nat, fp: Fingerprinter, keep: seq<bool>)
    requires Trusted(s, fp) && Alter(s, Revoke(f), temp, backup, fp).1 == Done
    requires |keep| == |Alter(s, Revoke(f), temp, backup, fp).0.machine.disk.pending|
    ensures var t := Alter(s, Revoke(f), temp, backup, fp).0;
            && FoundAfterCrash(t.machine.disk, keep, HOSTS) == Some(Whole(HostsDoc(t.hosts)))
            && forall h :: h in t.hosts <==> h in s.hosts && h.fingerprint != f
  {
    RevokingIsExact(s.hosts, f);
    OutcomeDescribesTarget(s.machine, HOSTS, Temp(temp), Backup(backup), HostsDoc(RevokeHosts(s.hosts, f)), keep);
    hide Commit.Atomic, FoundAfterCrash, AcceptsHosts;
  }

  // ---------------------------------------------------------------------------------------------
  // Runs

  datatype Call = Call(change: Change, temp: nat, backup: nat)

  /** Any number of changes, each with whatever failures the machine's script has in store. The store stays
      trusted, and so does every disk there ever was. */
  ghost function RunStore(s: StoreState, calls: seq<Call>, fp: Fingerprinter): (t: StoreState)
    requires Trusted(s, fp)
    ensures Trusted(t, fp) && |s.machine.seen| <= |t.machine.seen|
    ensures forall k | |s.machine.seen| <= k < |t.machine.seen| :: Sound(t.machine.seen[k], Fitting(fp))
  {
    if calls == [] then s
    else
      var u := RunStore(s, calls[..|calls| - 1], fp);
      var c := calls[|calls| - 1];
      AlterKeepsTrust(u, c.change, c.temp, c.backup, fp);
      AlterExtends(u, c, fp);
      Alter(u, c.change, c.temp, c.backup, fp).0
  }

  lemma AlterExtends(s: StoreState, c: Call, fp: Fingerprinter)
    requires Formed(s.machine.disk)
    ensures s.machine.seen <= Alter(s, c.change, c.temp, c.backup, fp).0.machine.seen
  {
    hide Proposal, Formed;
    if Proposal(s, c.change, fp).Some? {
      var (path, doc) := Proposal(s, c.change, fp).value;
      AtomicExtends(s.machine, path, Temp(c.temp), Backup(c.backup), doc);
    }
  }

  lemma WriteTempExtends(m: Machine, temp: Name, doc: Doc)
    ensures m.seen <= WriteTemp(m, temp, doc).0.seen
  {
  }

  lemma BackUpExtends(m: Machine, path: Name, backup: Name)
    ensures m.seen <= BackUp(m, path, backup).0.seen
  {
  }

  lemma SwapExtends(m: Machine, temp: Name, path: Name, backup: Name, had: bool)
    ensures m.seen <= Swap(m, temp, path, backup, had).0.seen
  {
  }

  lemma CleanupExtends(m: Machine, temp: Name, backup: Name, o: Outcome)
    ensures m.seen <= Cleanup(m, temp, backup, o).seen
  {
  }

  lemma AtomicExtends(m: Machine, path: Name, temp: Name, backup: Name, doc: Doc)
    ensures m.seen <= Commit.Atomic(m, path, temp, backup, doc).0.seen
  {
    hide WriteTemp, BackUp, Swap, Cleanup;
    WriteTempExtends(m, temp, doc);
    var (a, written) := WriteTemp(m, temp, doc);
    BackUpExtends(a, path, backup);
    var (b, had) := BackUp(a, path, backup);
    CleanupExtends(a, temp, backup, Failed);
    CleanupExtends(b, temp, backup, Failed);
    if had.Some? {
      SwapExtends(b, temp, path, backup, had.value);
      var (c, o) := Swap(b, temp, path, backup, had.value);
      CleanupExtends(c, temp, backup, o);
    }
  }

  /** Memory and disk agree throughout a run that contains no breaking change. */
  lemma {:induction false} RunKeepsAgreement(s: StoreState, calls: seq<Call>, fp: Fingerprinter)
    requires Trusted(s, fp) && Agrees(s)
    requires forall i | 0 <= i < |calls| ::
               !Breaks(RunStore(s, calls[..i], fp), calls[i].change, calls[i].temp, calls[i].backup, fp)
    ensures Agrees(RunStore(s, calls, fp))
  {
    hide Trusted, Agrees, Breaks, Alter;
    if calls != [] {
      var init, c := calls[..|calls| - 1], calls[|calls| - 1];
      forall i | 0 <= i < |init|
        ensures init[..i] == calls[..i] && init[i] == calls[i]
      {
      }
      RunKeepsAgreement(s, init, fp);
      AgreementLostExactlyWhen(RunStore(s, init, fp), c.change, c.temp, c.backup, fp);
    }
  }

  /** No two operations fail one after the other. */
  predicate Sparse(faults: seq<bool>)
  {
    forall i | 0 <= i < |faults| - 1 :: faults[i] || faults[i + 1]
  }

  lemma TempStaysSparse(m: Machine, temp: Name, doc: Doc)
    requires Sparse(m.faults)
    ensures Sparse(WriteTemp(m, temp, doc).0.faults)
  {
    hide Create, Fill, SyncFile;
  }

  lemma BackUpStaysSparse(m: Machine, path: Name, backup: Name)
    requires Sparse(m.faults)
    ensures Sparse(BackUp(m, path, backup).0.faults)
  {
    hide Link, SyncDir;
  }

  lemma SwapStaysSparse(m: Machine, temp: Name, path: Name, backup: Name, had: bool)
    requires Sparse(m.faults)
    ensures Sparse(Swap(m, temp, path, backup, had).0.faults)
  {
    hide Rename, SyncDir, Sparse, Commit.Rollback;
    NextStaysSparse(m, m.disk);
    if Works(m) && temp in m.disk.dir {
      var a := Go(m, Rename(m.disk, temp, path));
      NextStaysSparse(m, Rename(m.disk, temp, path));
      NextStaysSparse(a, SyncDir(a.disk));
      RollbackStaysSparse(Idle(a), path, backup, had);
    }
  }

  lemma RollbackStaysSparse(m: Machine, path: Name, backup: Name, had: bool)
    requires Sparse(m.faults)
    ensures Sparse(Commit.Rollback(m, path, backup, had).0.faults)
  {
    hide Rename, FileSystem.Remove, SyncDir, Sparse;
    NextStaysSparse(m, m.disk);
    if Works(m) && (had ==> backup in m.disk.dir) {
      var d := if had then Rename(m.disk, backup, path) else FileSystem.Remove(m.disk, path);
      NextStaysSparse(m, d);
      NextStaysSparse(Go(m, d), SyncDir(d));
    }
  }

  lemma NextStaysSparse(m: Machine, d: Disk)
    requires Sparse(m.faults)
    ensures Sparse(Go(m, d).faults) && Sparse(Idle(m).faults)
  {
  }

  lemma CleanupStaysSparse(m: Machine, temp: Name, backup: Name, o: Outcome)
    requires Sparse(m.faults)
    ensures Sparse(Cleanup(m, temp, backup, o).faults)
  {
    hide FileSystem.Remove;
  }

  lemma AtomicStaysSparse(m: Machine, path: Name, temp: Name, backup: Name, doc: Doc)
    requires Sparse(m.faults)
    ensures Sparse(Commit.Atomic(m, path, temp, backup, doc).0.faults)
  {
    hide WriteTemp, BackUp, Swap, Cleanup, Sparse;
    TempStaysSparse(m, temp, doc);
    var (a, written) := WriteTemp(m, temp, doc);
    BackUpStaysSparse(a, path, backup);
    var (b, had) := BackUp(a, path, backup);
    if !written {
      CleanupStaysSparse(a, temp, backup, Failed);
    } else if had.None? {
      CleanupStaysSparse(b, temp, backup, Failed);
    } else {
      SwapStaysSparse(b, temp, path, backup, had.value);
      var (c, o) := Swap(b, temp, path, backup, had.value);
      CleanupStaysSparse(c, temp, backup, o);
    }
  }

  /** While no two operations fail in a row, memory and disk agree after every run of changes. */
  lemma {:induction false} SparseFailuresKeepAgreement(s: StoreState, calls: seq<Call>, fp: Fingerprinter)
    requires Trusted(s, fp) && Agrees(s) && Sparse(s.machine.faults)
    ensures Agrees(RunStore(s, calls, fp)) && Sparse(RunStore(s, calls, fp).machine.faults)
  {
    hide Trusted, Agrees, Sparse;
    if calls != [] {
      var init, c := calls[..|calls| - 1], calls[|calls| - 1];
      SparseFailuresKeepAgreement(s, init, fp);
      var u := RunStore(s, init, fp);
      AgreementLostExactlyWhen(u, c.change, c.temp, c.backup, fp);
      SparseNeverBreaks(u, c, fp);
      AlterStaysSparse(u, c, fp);
      hide Alter, Breaks;
    }
  }

  lemma SparseNeverBreaks(s: StoreState, c: Call, fp: Fingerprinter)
    requires Sparse(s.machine.faults)
    ensures !Breaks(s, c.change, c.temp, c.backup, fp)
  {
    hide Proposal;
  }

  lemma AlterStaysSparse(s: StoreState, c: Call, fp: Fingerprinter)
    requires Sparse(s.machine.faults)
    ensures Sparse(Alter(s, c.change, c.temp, c.backup, fp).0.machine.faults)
  {
    hide Commit.Atomic, Sparse, Proposal;
    if Proposal(s, c.change, fp).Some? {
      var (path, doc) := Proposal(s, c.change, fp).value;
      AtomicStaysSparse(s.machine, path, Temp(c.temp), Backup(c.backup), doc);
    }
  }

  /** After a crash at any point of any run, `open` finds only documents it accepts: a valid configuration and
      a host list within its limit whose fingerprints match its keys, never a torn file. */
  lemma ReopenAcceptsAfterAnyCrash(s: StoreState, calls: seq<Call>, fp: Fingerprinter, k: nat, keep: seq<bool>,
                                   n: Name)
    requires Trusted(s, fp) && n.Target?
    requires var t := RunStore(s, calls, fp);
             |s.machine.seen| <= k < |t.machine.seen| && |keep| == |t.machine.seen[k].pending|
    ensures var found := FoundAfterCrash(RunStore(s, calls, fp).machine.seen[k], keep, n);
            found == None || (found.value.Whole? && Fits(n, found.value.doc, fp))
  {
    var d := RunStore(s, calls, fp).machine.seen[k];
    CrashIsPossible(d.durable, d.pending, keep, n);
    assert AfterCrash(d, keep, n) in Possible(d, n);
    hide Effects, ApplyAll, Kept, Fits, RunStore;
    assert Sound(d, Fitting(fp));
  }

  // ---------------------------------------------------------------------------------------------
  // Opening

  /** The disk a restart finds: kept changes only, unsynced files torn. */
  function Restarted(d: Disk, keep: seq<bool>): Disk
    requires |keep| == |d.pending|
  {
    var dir := ApplyAll(d.durable, Kept(d.pending, keep));
    var files := seq(|d.files|, i requires 0 <= i < |d.files| =>
      File(if d.files[i].synced then d.files[i].content else Torn, true));
    Disk(files, dir, dir, [])
  }

  /** Reads a state file, or writes its first document when there is none. */
  function ReadOrCreate(m: Machine, n: Name, first: Doc, temp: nat, backup: nat): (Machine, Option<Doc>)
    requires n in m.disk.dir ==> m.disk.dir[n] < |m.disk.files|
  {
    if n in m.disk.dir then
      (m, match m.disk.files[m.disk.dir[n]].content case Whole(doc) => Some(doc) case Torn => None)
    else
      var (e, o) := Commit.Atomic(m, n, Temp(temp), Backup(backup), first);
      (e, if o == Saved then Some(first) else None)
  }

  /** `Store::open` once it holds the lock. `None` is any of its errors. */
  ghost function Open(m: Machine, guid: string, tags: (nat, nat, nat, nat), fp: Fingerprinter): Option<StoreState>
    requires Sound(m.disk, Fitting(fp))
  {
    ReadableFiles(m.disk, CONFIG, fp);
    var (a, config) := ReadOrCreate(m, CONFIG, ConfigDoc(DEFAULT), tags.0, tags.1);
    if config.None? || !config.value.ConfigDoc? || !config.value.config.Valid() then None
    else
      ReadOrCreateKeeps(m, CONFIG, ConfigDoc(DEFAULT), tags.0, tags.1, fp);
      ReadableFiles(a.disk, IDENTITY, fp);
      var (b, identity) := ReadOrCreate(a, IDENTITY, IdentityDoc(guid), tags.2, tags.3);
      if identity.None? || !identity.value.IdentityDoc? then None
      else
        ReadOrCreateKeeps(a, IDENTITY, IdentityDoc(guid), tags.2, tags.3, fp);
        ReadableFiles(b.disk, HOSTS, fp);
        if HOSTS !in b.disk.dir then Some(StoreState(b, config.value.config, []))
        else
          match Visible(b.disk, HOSTS).value
          case Torn => None
          case Whole(doc) =>
            if doc.HostsDoc? && AcceptsHosts(doc.hosts, fp) then Some(StoreState(b, config.value.config, doc.hosts))
            else None
  }

  lemma ReadableFiles(d: Disk, n: Name, fp: Fingerprinter)
    requires Sound(d, Fitting(fp)) && n.Target?
    ensures n in d.dir ==>
              && d.dir[n] < |d.files| && d.files[d.dir[n]].content.Whole?
              && Fits(n, d.files[d.dir[n]].content.doc, fp)
  {
    VisibleIsPossible(d.durable, d.pending, n);
    hide Effects, ApplyAll, Fits;
    if n in d.dir {
      assert Some(d.dir[n]) in Possible(d, n);
    }
  }

  lemma FirstDocumentsFit(guid: string, fp: Fingerprinter)
    ensures Fits(CONFIG, ConfigDoc(DEFAULT), fp) && Fits(IDENTITY, IdentityDoc(guid), fp)
  {
    DistinctFiles();
  }

  /** Reading or creating one state file leaves a sound disk with that document under the file's name, and the
      other state files as they were. */
  lemma ReadOrCreateKeeps(m: Machine, n: Name, first: Doc, temp: nat, backup: nat, fp: Fingerprinter)
    requires Sound(m.disk, Fitting(fp)) && n.Target? && Fits(n, first, fp)
    requires n in m.disk.dir ==> m.disk.dir[n] < |m.disk.files|
    ensures var (e, doc) := ReadOrCreate(m, n, first, temp, backup);
            && Sound(e.disk, Fitting(fp))
            && (doc.Some? ==> Visible(e.disk, n) == Some(Whole(doc.value)) && Fits(n, doc.value, fp))
            && (doc.None? ==> n !in m.disk.dir && Commit.Atomic(m, n, Temp(temp), Backup(backup), first).1 != Saved)
            && forall k: Name | k.Target? && k != n :: Visible(e.disk, k) == Visible(m.disk, k)
  {
    ReadableFiles(m.disk, n, fp);
    if n !in m.disk.dir {
      AtomicKeepsSound(m, n, Temp(temp), Backup(backup), first, Fitting(fp));
      var keep := KeepNone(Commit.Atomic(m, n, Temp(temp), Backup(backup), first).0.disk.pending);
      OutcomeDescribesTarget(m, n, Temp(temp), Backup(backup), first, keep);
    }
    hide Commit.Atomic, Fits, Possible;
  }

  /** What `open` returns agrees with the disk and may be trusted. From a sound disk it fails only because a
      first document could not be committed: a disk that already has its documents always opens. */
  lemma OpenEstablishes(m: Machine, guid: string, tags: (nat, nat, nat, nat), fp: Fingerprinter)
    requires Sound(m.disk, Fitting(fp))
    ensures var r := Open(m, guid, tags, fp);
            && (r.Some? ==> Agrees(r.value) && Trusted(r.value, fp))
            && (CONFIG in m.disk.dir && IDENTITY in m.disk.dir ==> r.Some?)
  {
    DistinctFiles();
    FirstDocumentsFit(guid, fp);
    ReadableFiles(m.disk, CONFIG, fp);
    ReadOrCreateKeeps(m, CONFIG, ConfigDoc(DEFAULT), tags.0, tags.1, fp);
    var (a, config) := ReadOrCreate(m, CONFIG, ConfigDoc(DEFAULT), tags.0, tags.1);
    ReadableFiles(a.disk, IDENTITY, fp);
    ReadOrCreateKeeps(a, IDENTITY, IdentityDoc(guid), tags.2, tags.3, fp);
    var b := ReadOrCreate(a, IDENTITY, IdentityDoc(guid), tags.2, tags.3).0;
    ReadableFiles(b.disk, HOSTS, fp);
    hide Commit.Atomic, Possible, AcceptsHosts;
  }

  /** A document can be read in its file. */
  ghost predicate Holds(d: Disk, n: Name, doc: Doc)
  {
    n in d.dir && d.dir[n] < |d.files| && d.files[d.dir[n]].content == Whole(doc)
  }

  lemma HoldsVisible(a: Disk, b: Disk, n: Name)
    requires n in a.dir ==> a.dir[n] < |a.files|
    requires n in b.dir ==> b.dir[n] < |b.files|
    ensures Visible(a, n) == Visible(b, n) ==> forall doc :: Holds(a, n, doc) <==> Holds(b, n, doc)
    ensures forall doc :: Holds(a, n, doc) <==> Visible(a, n) == Some(Whole(doc))
  {
  }

  /** What `open` returns is what it found: a configuration file is used as it is, and without one the first
      configuration is enabled, on a random port, and grants no root; the hosts are those of the host file, none
      without it; and an identity is kept, or becomes the new one. Either way the documents are then in their files. */
  lemma OpenReadsOrCreates(m: Machine, guid: string, tags: (nat, nat, nat, nat), fp: Fingerprinter)
    requires Sound(m.disk, Fitting(fp))
    ensures var r := Open(m, guid, tags, fp);
            r.Some? ==>
              && Holds(r.value.machine.disk, CONFIG, ConfigDoc(r.value.config))
              && (if CONFIG in m.disk.dir then Holds(m.disk, CONFIG, ConfigDoc(r.value.config))
                  else r.value.config == Config(true, Random, 5555, false, false))
              && (if HOSTS in m.disk.dir then Holds(m.disk, HOSTS, HostsDoc(r.value.hosts)) else r.value.hosts == [])
              && exists g ::
                   && Holds(r.value.machine.disk, IDENTITY, IdentityDoc(g))
                   && if IDENTITY in m.disk.dir then Holds(m.disk, IDENTITY, IdentityDoc(g)) else g == guid
  {
    hide Commit.Atomic, Possible, AcceptsHosts, Sound, ApplyAll, ReadOrCreate, Fits, Effects, Open, Fitting, Holds;
    DistinctFiles();
    FirstDocumentsFit(guid, fp);
    OpenUnfolds(m, guid, tags, fp);
    ReadableFiles(m.disk, CONFIG, fp);
    OneDocument(m, CONFIG, ConfigDoc(DEFAULT), tags.0, tags.1, fp);
    var a := ReadOrCreate(m, CONFIG, ConfigDoc(DEFAULT), tags.0, tags.1).0;
    ReadableFiles(a.disk, IDENTITY, fp);
    OneDocument(a, IDENTITY, IdentityDoc(guid), tags.2, tags.3, fp);
    if Open(m, guid, tags, fp).Some? {
      var identity := ReadOrCreate(a, IDENTITY, IdentityDoc(guid), tags.2, tags.3).1.value;
      assert identity == IdentityDoc(identity.guid);
    }
  }

  lemma OpenUnfolds(m: Machine, guid: string, tags: (nat, nat, nat, nat), fp: Fingerprinter)
    requires Sound(m.disk, Fitting(fp))
    ensures Open(m, guid, tags, fp).Some? ==>
              var r := Open(m, guid, tags, fp).value;
              && (CONFIG in m.disk.dir ==> m.disk.dir[CONFIG] < |m.disk.files|)
              && var (a, config) := ReadOrCreate(m, CONFIG, ConfigDoc(DEFAULT), tags.0, tags.1);
                 && config == Some(ConfigDoc(r.config))
                 && (IDENTITY in a.disk.dir ==> a.disk.dir[IDENTITY] < |a.disk.files|)
                 && var (b, identity) := ReadOrCreate(a, IDENTITY, IdentityDoc(guid), tags.2, tags.3);
                    && identity.Some? && identity.value.IdentityDoc? && r.machine == b
                    && if HOSTS in b.disk.dir then Holds(b.disk, HOSTS, HostsDoc(r.hosts)) else r.hosts == []
  {
    hide Commit.Atomic, Possible, AcceptsHosts, Sound, ApplyAll, ReadOrCreate, Fits, Effects, Fitting;
    FirstDocumentsFit(guid, fp);
    ReadableFiles(m.disk, CONFIG, fp);
    ReadOrCreateKeeps(m, CONFIG, ConfigDoc(DEFAULT), tags.0, tags.1, fp);
    var a := ReadOrCreate(m, CONFIG, ConfigDoc(DEFAULT), tags.0, tags.1).0;
    DistinctFiles();
    ReadableFiles(a.disk, IDENTITY, fp);
    ReadOrCreateKeeps(a, IDENTITY, IdentityDoc(guid), tags.2, tags.3, fp);
    var b := ReadOrCreate(a, IDENTITY, IdentityDoc(guid), tags.2, tags.3).0;
    ReadableFiles(b.disk, HOSTS, fp);
  }

  /** One document of a sound disk, read or created. */
  lemma OneDocument(m: Machine, n: Name, first: Doc, temp: nat, backup: nat, fp: Fingerprinter)
    requires Sound(m.disk, Fitting(fp)) && n.Target? && Fits(n, first, fp)
    requires n in m.disk.dir ==> m.disk.dir[n] < |m.disk.files|
    ensures var (e, doc) := ReadOrCreate(m, n, first, temp, backup);
            && Sound(e.disk, Fitting(fp))
            && (doc.Some? ==>
                  && Holds(e.disk, n, doc.value)
                  && if n in m.disk.dir then Holds(m.disk, n, doc.value) else doc.value == first)
            && forall k: Name | k.Target? && k != n ::
                 (k in e.disk.dir <==> k in m.disk.dir) && forall d :: Holds(e.disk, k, d) <==> Holds(m.disk, k, d)
  {
    hide Commit.Atomic, Possible, Sound, ApplyAll, Fits, Effects, Fitting;
    ReadOrCreateKeeps(m, n, first, temp, backup, fp);
    var e := ReadOrCreate(m, n, first, temp, backup).0;
    ReadableFiles(e.disk, n, fp);
    HoldsVisible(e.disk, e.disk, n);
    forall k: Name | k.Target? && k != n
      ensures (k in e.disk.dir <==> k in m.disk.dir) && forall d :: Holds(e.disk, k, d) <==> Holds(m.disk, k, d)
    {
      ReadableFiles(m.disk, k, fp);
      ReadableFiles(e.disk, k, fp);
      HoldsVisible(e.disk, m.disk, k);
    }
  }

  /** The first start of a new installation works if no operation fails. */
  lemma FirstStartWorks(m: Machine, guid: string, tags: (nat, nat, nat, nat), fp: Fingerprinter)
    requires Sound(m.disk, Fitting(fp)) && m.faults == []
    requires Temp(tags.0) !in m.disk.dir && Backup(tags.1) !in m.disk.dir
    requires Temp(tags.2) !in m.disk.dir && Backup(tags.3) !in m.disk.dir
    ensures Open(m, guid, tags, fp).Some?
  {
    hide Commit.Atomic, Possible, AcceptsHosts, Sound, ApplyAll, ReadOrCreate, Effects;
    DistinctFiles();
    FirstDocumentsFit(guid, fp);
    ReadableFiles(m.disk, CONFIG, fp);
    ReadOrCreateKeeps(m, CONFIG, ConfigDoc(DEFAULT), tags.0, tags.1, fp);
    ReadOrCreateWorks(m, CONFIG, ConfigDoc(DEFAULT), tags.0, tags.1);
    var a := ReadOrCreate(m, CONFIG, ConfigDoc(DEFAULT), tags.0, tags.1).0;
    ReadableFiles(a.disk, IDENTITY, fp);
    ReadOrCreateKeeps(a, IDENTITY, IdentityDoc(guid), tags.2, tags.3, fp);
    ReadOrCreateWorks(a, IDENTITY, IdentityDoc(guid), tags.2, tags.3);
    var b := ReadOrCreate(a, IDENTITY, IdentityDoc(guid), tags.2, tags.3).0;
    ReadableFiles(b.disk, HOSTS, fp);
  }

  lemma ReadOrCreateWorks(m: Machine, n: Name, first: Doc, temp: nat, backup: nat)
    requires m.faults == [] && n.Target? && Temp(temp) !in m.disk.dir && Backup(backup) !in m.disk.dir
    requires n in m.disk.dir ==> m.disk.dir[n] < |m.disk.files| && m.disk.files[m.disk.dir[n]].content.Whole?
    ensures var (e, doc) := ReadOrCreate(m, n, first, temp, backup);
            doc.Some? && e.faults == [] && e.disk.dir.Keys <= m.disk.dir.Keys + {n}
  {
    if n !in m.disk.dir {
      SavesWhenNothingFails(m, n, Temp(temp), Backup(backup), first);
    }
  }

  /** Every entry of a directory names one of the first `limit` files. */
  ghost predicate Below(dir: map<Name, nat>, limit: nat)
  {
    forall n | n in dir :: dir[n] < limit
  }

  lemma ApplyBelow(dir: map<Name, nat>, c: FileSystem.Change, limit: nat)
    requires Below(dir, limit) && (c.Drop? || c.inode < limit)
    ensures Below(Apply(dir, c), limit)
  {
  }

  lemma NothingKept(durable: map<Name, nat>, keep: seq<bool>)
    requires keep == []
    ensures Kept([], keep) == [] && ApplyAll(durable, []) == durable
  {
  }

  lemma {:induction false} KeptBelow(durable: map<Name, nat>, cs: seq<FileSystem.Change>, keep: seq<bool>, limit: nat)
    requires |keep| == |cs| && Below(durable, limit)
    requires forall i | 0 <= i < |cs| :: cs[i].Drop? || cs[i].inode < limit
    ensures Below(ApplyAll(durable, Kept(cs, keep)), limit)
  {
    hide ApplyAll, Kept, Below, Apply;
    if cs == [] {
      NothingKept(durable, keep);
    } else {
      var init, last := cs[..|cs| - 1], cs[|cs| - 1];
      var before := Kept(init, keep[..|init|]);
      KeptBelow(durable, init, keep[..|init|], limit);
      assert last.Drop? || last.inode < limit;
      KeptLast(cs, keep);
      Pushed(durable, before, last);
      ApplyBelow(ApplyAll(durable, before), last, limit);
    }
  }

  /** A crash turns a sound disk into a sound one. */
  lemma RestartKeepsSound(d: Disk, keep: seq<bool>, fp: Fingerprinter)
    requires Sound(d, Fitting(fp)) && |keep| == |d.pending|
    ensures Sound(Restarted(d, keep), Fitting(fp))
  {
    var r := Restarted(d, keep);
    KeptBelow(d.durable, d.pending, keep, |d.files|);
    assert ApplyAll(r.durable, []) == r.dir;
    forall n: Name, p: Option<nat> | n.Target? && p in Possible(r, n) && p.Some?
      ensures p.value < |r.files| && r.files[p.value].synced && r.files[p.value].content.Whole?
              && Fits(n, r.files[p.value].content.doc, fp)
    {
      assert Effects([], n) == {};
      CrashIsPossible(d.durable, d.pending, keep, n);
      assert p in Possible(d, n);
      assert Fitting(fp)(n, d.files[p.value].content.doc);
    }
    hide Effects, ApplyAll, Kept, Fits, Find;
  }

  /** A crash at any point of any run, and the store opens again: from the disk the crash left, `open` fails
      only for want of a first configuration or identity, and what it returns agrees with that disk. */
  lemma CrashThenOpen(s: StoreState, calls: seq<Call>, fp: Fingerprinter, k: nat, keep: seq<bool>, guid: string,
                      tags: (nat, nat, nat, nat), faults: seq<bool>)
    requires Trusted(s, fp)
    requires var t := RunStore(s, calls, fp);
             |s.machine.seen| <= k < |t.machine.seen| && |keep| == |t.machine.seen[k].pending|
    ensures var m := Machine(Restarted(RunStore(s, calls, fp).machine.seen[k], keep), faults, []);
            && Sound(m.disk, Fitting(fp))
            && var r := Open(m, guid, tags, fp);
               && (r.Some? ==> Agrees(r.value) && Trusted(r.value, fp))
               && (CONFIG in m.disk.dir && IDENTITY in m.disk.dir ==> r.Some?)
  {
    hide Sound, Restarted, Open, Agrees, Trusted;
    var d := RunStore(s, calls, fp).machine.seen[k];
    RestartKeepsSound(d, keep, fp);
    OpenEstablishes(Machine(Restarted(d, keep), faults, []), guid, tags, fp);
  }

  // ---------------------------------------------------------------------------------------------
  // Refused pairings

  /** A crash that keeps these changes leaves a host file that lists this fingerprint. */
  predicate FindsHost(d: Disk, keep: seq<bool>, f: string)
    requires |keep| == |d.pending|
  {
    var found := FoundAfterCrash(d, keep, HOSTS);
    found.Some? && found.value.Whole? && found.value.doc.HostsDoc? && Knows(found.value.doc.hosts, f)
  }

  /** Some crash does. */
  ghost predicate MayFindHost(d: Disk, f: string)
  {
    exists keep: seq<bool> :: |keep| == |d.pending| && FindsHost(d, keep, f)
  }

  /** The host file an entry stands for lists this fingerprint. */
  predicate Lists(d: Disk, p: Option<nat>, f: string)
  {
    && p.Some? && p.value < |d.files| && d.files[p.value].synced && d.files[p.value].content.Whole?
    && d.files[p.value].content.doc.HostsDoc? && Knows(d.files[p.value].content.doc.hosts, f)
  }

  lemma MayFindIsPossible(d: Disk, f: string)
    requires Formed(d)
    ensures MayFindHost(d, f) <==> exists p | p in Possible(d, HOSTS) :: Lists(d, p, f)
  {
    hide ApplyAll, Effects, Kept, Knows;
    if MayFindHost(d, f) {
      var keep: seq<bool> :| |keep| == |d.pending| && FindsHost(d, keep, f);
      CrashIsPossible(d.durable, d.pending, keep, HOSTS);
      assert Lists(d, AfterCrash(d, keep, HOSTS), f);
    }
    if p :| p in Possible(d, HOSTS) && Lists(d, p, f) {
      var keep := PossibleIsReached(d.durable, d.pending, HOSTS, p);
      assert FindsHost(d, keep, f);
    }
  }

  /** Whether a host comes into force although its pairing was not done: exactly when the new host file was renamed
      into place and the directory could not be synced, and then the rename was not undone, or its undoing not
      synced. In every other case no crash brings it back. */
  lemma RefusedPairingReturnsExactlyWhen(s: StoreState, key: string, now: nat, temp: nat, backup: nat,
                                         fp: Fingerprinter)
    requires Trusted(s, fp) && Proposal(s, Pair(key, now), fp).Some?
    requires !MayFindHost(s.machine.disk, HostKey(key, fp).value.0)
    ensures var (t, r) := Alter(s, Pair(key, now), temp, backup, fp);
            var faults := s.machine.faults;
            && (r == Done ==> MayFindHost(t.machine.disk, HostKey(key, fp).value.0))
            && (r != Done ==>
                  (MayFindHost(t.machine.disk, HostKey(key, fp).value.0) <==>
                     && ReachesRename(s.machine, HOSTS, Temp(temp), Backup(backup))
                     && !WorksAt(faults, 7) && (!WorksAt(faults, 8) || !WorksAt(faults, 9))))
  {
    hide Commit.Atomic, Possible, Knows, ReachesRename, WorksAt, HostKey, MayFindHost, Sound, Safe;
    var f, m := HostKey(key, fp).value.0, s.machine;
    var doc := Proposal(s, Pair(key, now), fp).value.1;
    var (e, o) := Commit.Atomic(m, HOSTS, Temp(temp), Backup(backup), doc);
    PairingIsSound(s.hosts, key, now, fp);
    assert Formed(m.disk) by { SoundIsFormed(m.disk, fp); }
    AtomicKeeps(m, HOSTS, Temp(temp), Backup(backup), doc);
    OutcomeIsDecidedByScript(m, HOSTS, Temp(temp), Backup(backup), doc);
    NewMayBeFoundExactlyWhen(m, HOSTS, Temp(temp), Backup(backup), doc);
    MayFindIsPossible(m.disk, f);
    assert Safe(m.disk, e.disk, HOSTS, doc);
    NewOrOldHost(m.disk, e.disk, doc, f);
  }

  lemma SoundIsFormed(d: Disk, fp: Fingerprinter)
    requires Sound(d, Fitting(fp))
    ensures Formed(d)
  {
  }

  /** After a commit of a host file that lists someone new, a crash may find them exactly when it may find that
      file. */
  lemma NewOrOldHost(d0: Disk, d: Disk, doc: Doc, f: string)
    requires Formed(d0) && Safe(d0, d, HOSTS, doc) && doc.HostsDoc? && Knows(doc.hosts, f)
    requires forall p | p in Possible(d0, HOSTS) :: !Lists(d0, p, f)
    ensures MayFindHost(d, f) <==> Some(|d0.files|) in Possible(d, HOSTS)
  {
    hide ApplyAll, Effects, Knows, MayFindHost;
    MayFindIsPossible(d, f);
    PossibleAreFiles(d0);
    forall p | p in Possible(d, HOSTS)
      ensures Lists(d, p, f) <==> p == Some(|d0.files|)
    {
      if p != Some(|d0.files|) {
        assert p in Possible(d0, HOSTS) && !Lists(d0, p, f);
      }
    }
  }

  lemma PossibleAreFiles(d: Disk)
    requires Formed(d)
    ensures forall p: Option<nat> | p in Possible(d, HOSTS) && p.Some? :: p.value < |d.files|
  {
    hide Possible, Formed;
    forall p: Option<nat> | p in Possible(d, HOSTS) && p.Some?
      ensures p.value < |d.files|
    {
      EffectsBelow(d, HOSTS, p);
    }
  }

  /** What `open` trusts after a crash is what the crash left: a host is in its list exactly when the host file
      found lists it. */
  lemma OpenTrustsWhatIsFound(d: Disk, keep: seq<bool>, guid: string, tags: (nat, nat, nat, nat), faults: seq<bool>,
                              fp: Fingerprinter, f: string)
    requires Sound(d, Fitting(fp)) && |keep| == |d.pending|
    ensures var m := Machine(Restarted(d, keep), faults, []);
            && Sound(m.disk, Fitting(fp))
            && var r := Open(m, guid, tags, fp); r.Some? ==> (Knows(r.value.hosts, f) <==> FindsHost(d, keep, f))
  {
    RestartKeepsSound(d, keep, fp);
    OpenLeavesHosts(Machine(Restarted(d, keep), faults, []), guid, tags, fp);
    RestartShowsHosts(d, keep);
    hide Sound, Open, ApplyAll, Kept, AcceptsHosts;
  }

  lemma RestartShowsHosts(d: Disk, keep: seq<bool>)
    requires |keep| == |d.pending| && Formed(Restarted(d, keep))
    ensures Visible(Restarted(d, keep), HOSTS) == FoundAfterCrash(d, keep, HOSTS)
  {
    hide ApplyAll, Kept;
  }

  lemma OpenLeavesHosts(m: Machine, guid: string, tags: (nat, nat, nat, nat), fp: Fingerprinter)
    requires Sound(m.disk, Fitting(fp)) && Formed(m.disk)
    ensures var r := Open(m, guid, tags, fp);
            r.Some? ==>
              match Visible(m.disk, HOSTS)
              case None => r.value.hosts == []
              case Some(c) => c.Whole? && c.doc.HostsDoc? && c.doc.hosts == r.value.hosts
  {
    hide Commit.Atomic, Possible, AcceptsHosts;
    DistinctFiles();
    FirstDocumentsFit(guid, fp);
    ReadableFiles(m.disk, CONFIG, fp);
    ReadOrCreateKeeps(m, CONFIG, ConfigDoc(DEFAULT), tags.0, tags.1, fp);
    var (a, config) := ReadOrCreate(m, CONFIG, ConfigDoc(DEFAULT), tags.0, tags.1);
    ReadableFiles(a.disk, IDENTITY, fp);
    ReadOrCreateKeeps(a, IDENTITY, IdentityDoc(guid), tags.2, tags.3, fp);
    var b := ReadOrCreate(a, IDENTITY, IdentityDoc(guid), tags.2, tags.3).0;
    ReadableFiles(b.disk, HOSTS, fp);
  }

  /** After a crash that keeps these changes, `open` succeeds and trusts this fingerprint. */
  ghost predicate TrustsAgain(d: Disk, keep: seq<bool>, f: string, fp: Fingerprinter)
    requires |keep| == |d.pending|
  {
    var m := Machine(Restarted(d, keep), [], []);
    Sound(m.disk, Fitting(fp)) && Open(m, "", (0, 0, 0, 0), fp).Some?
    && Knows(Open(m, "", (0, 0, 0, 0), fp).value.hosts, f)
  }

  lemma OpensAfterCrash(d: Disk, keep: seq<bool>, f: string, fp: Fingerprinter)
    requires Sound(d, Fitting(fp)) && |keep| == |d.pending|
    requires None !in Possible(d, CONFIG) && None !in Possible(d, IDENTITY)
    ensures TrustsAgain(d, keep, f, fp) <==> FindsHost(d, keep, f)
  {
    hide ApplyAll, Kept, Effects, Open, Agrees, Trusted, FindsHost;
    var m := Machine(Restarted(d, keep), [], []);
    CrashIsPossible(d.durable, d.pending, keep, CONFIG);
    CrashIsPossible(d.durable, d.pending, keep, IDENTITY);
    OpenTrustsWhatIsFound(d, keep, "", (0, 0, 0, 0), [], fp, f);
    OpenEstablishes(m, "", (0, 0, 0, 0), fp);
  }

  /** A host whose pairing was refused is trusted after some crash and restart exactly when the new host file had
      been renamed into place, the directory could not be synced, and the undoing failed or was not synced. */
  lemma RefusedHostIsTrustedAgainExactlyWhen(s: StoreState, key: string, now: nat, temp: nat, backup: nat,
                                             fp: Fingerprinter)
    requires Trusted(s, fp) && Proposal(s, Pair(key, now), fp).Some?
    requires !MayFindHost(s.machine.disk, HostKey(key, fp).value.0)
    requires None !in Possible(s.machine.disk, CONFIG) && None !in Possible(s.machine.disk, IDENTITY)
    requires Alter(s, Pair(key, now), temp, backup, fp).1 != Done
    ensures var d := Alter(s, Pair(key, now), temp, backup, fp).0.machine.disk;
            var faults := s.machine.faults;
            (exists keep: seq<bool> ::
               |keep| == |d.pending| && TrustsAgain(d, keep, HostKey(key, fp).value.0, fp)) <==>
            && ReachesRename(s.machine, HOSTS, Temp(temp), Backup(backup))
            && !WorksAt(faults, 7) && (!WorksAt(faults, 8) || !WorksAt(faults, 9))
  {
    hide Commit.Atomic, Possible, Sound, Knows, ReachesRename, WorksAt, HostKey, TrustsAgain, FindsHost, Safe;
    var f := HostKey(key, fp).value.0;
    var d := Alter(s, Pair(key, now), temp, backup, fp).0.machine.disk;
    var doc := Proposal(s, Pair(key, now), fp).value.1;
    RefusedPairingReturnsExactlyWhen(s, key, now, temp, backup, fp);
    AlterKeepsTrust(s, Pair(key, now), temp, backup, fp);
    assert Formed(s.machine.disk) by { SoundIsFormed(s.machine.disk, fp); }
    AtomicKeeps(s.machine, HOSTS, Temp(temp), Backup(backup), doc);
    assert Safe(s.machine.disk, d, HOSTS, doc);
    OthersStayPossible(s.machine.disk, d, doc);
    forall keep: seq<bool> | |keep| == |d.pending|
      ensures TrustsAgain(d, keep, f, fp) <==> FindsHost(d, keep, f)
    {
      OpensAfterCrash(d, keep, f, fp);
    }
  }

  lemma OthersStayPossible(d0: Disk, d: Disk, doc: Doc)
    requires Safe(d0, d, HOSTS, doc)
    ensures Possible(d, CONFIG) <= Possible(d0, CONFIG) && Possible(d, IDENTITY) <= Possible(d0, IDENTITY)
  {
    hide Possible;
    DistinctFiles();
  }

  /** The input on which it happens: the first pairing of a fresh store whose directory can neither be synced after
      the rename nor be put back. */
  lemma RefusedHostReturns(key: string, fp: Fingerprinter) returns (keep: seq<bool>)
    requires HostKey(key, fp).Some?
    ensures var (t, r) := Alter(FirstStart(), Pair(key, 0), 0, 0, fp);
            && r == Inconsistent && t.hosts == []
            && |keep| == |t.machine.disk.pending|
            && TrustsAgain(t.machine.disk, keep, HostKey(key, fp).value.0, fp)
  {
    hide Commit.Atomic, HostKey, TrustsAgain, Trusted, Agrees, Possible, Knows;
    var s, f := FirstStart(), HostKey(key, fp).value.0;
    FirstStartHolds(fp);
    FirstStartEntries(f);
    assert Proposal(s, Pair(key, 0), fp).Some? by { FirstPairing(key, fp); }
    var doc := Proposal(s, Pair(key, 0), fp).value.1;
    assert ReachesRename(s.machine, HOSTS, Temp(0), Backup(0));
    OutcomeIsDecidedByScript(s.machine, HOSTS, Temp(0), Backup(0), doc);
    RefusedHostIsTrustedAgainExactlyWhen(s, key, 0, 0, 0, fp);
    var d := Alter(s, Pair(key, 0), 0, 0, fp).0.machine.disk;
    keep :| |keep| == |d.pending| && TrustsAgain(d, keep, f, fp);
  }

  lemma FirstStartEntries(f: string)
    ensures var d := FirstStart().machine.disk;
            && None !in Possible(d, CONFIG) && None !in Possible(d, IDENTITY) && !MayFindHost(d, f)
  {
    hide MayFindHost, ApplyAll, Lists;
    DistinctFiles();
    var d := FirstStart().machine.disk;
    assert Effects([], CONFIG) == {} && Effects([], IDENTITY) == {} && Effects([], HOSTS) == {};
    assert ApplyAll(d.durable, []) == d.durable by { NothingKept(d.durable, []); }
    MayFindIsPossible(d, f);
    NoFileNoHost(d, f);
  }

  lemma NoFileNoHost(d: Disk, f: string)
    ensures !Lists(d, None, f)
  {
  }

  lemma FirstPairing(key: string, fp: Fingerprinter)
    requires HostKey(key, fp).Some?
    ensures Proposal(FirstStart(), Pair(key, 0), fp).Some?
  {
    hide HostKey;
    FirstStartHolds(fp);
    PairingIsSound([], key, 0, fp);
  }

  // ---------------------------------------------------------------------------------------------
  // The store as an object

  class Store {
    const volume: Volume
    const fp: Fingerprinter
    var config: Config
    var hosts: seq<Host>

    ghost function View(): StoreState
      reads this, volume
    {
      StoreState(volume.View(), config, hosts)
    }

    constructor (volume: Volume, fp: Fingerprinter, config: Config, hosts: seq<Host>)
      ensures View() == StoreState(volume.View(), config, hosts) && this.volume == volume && this.fp == fp
    {
      this.volume, this.fp, this.config, this.hosts := volume, fp, config, hosts;
    }

    /** The result of a commit, for the caller. */
    static function Report(o: Outcome): StoreResult
    {
      match o case Saved => Done case Failed => NotSaved case RollbackFailed => Inconsistent
    }

    method Configure(c: Config, temp: nat, backup: nat) returns (r: StoreResult)
      modifies this`config, volume
      ensures (View(), r) == Alter(old(View()), Change.Configure(c), temp, backup, fp)
    {
      hide Commit.Atomic;
      if !c.Valid() {
        return Refused;
      }
      var o := volume.Atomic(CONFIG, Temp(temp), Backup(backup), ConfigDoc(c));
      if o == Saved {
        config := c;
      }
      r := Report(o);
    }

    method Pair(key: string, now: nat, temp: nat, backup: nat) returns (r: StoreResult)
      modifies this`hosts, volume
      ensures (View(), r) == Alter(old(View()), Change.Pair(key, now), temp, backup, fp)
    {
      hide Commit.Atomic;
      var known := HostKey(key, fp);
      if known.None? {
        return Refused;
      }
      var (f, name) := known.value;
      var next := hosts;
      if !(exists i | 0 <= i < |hosts| :: hosts[i].fingerprint == f) {
        if |hosts| >= MAX_HOSTS {
          return Refused;
        }
        next := next + [Host(f, FirstWord(key), name, now, None)];
      }
      var o := volume.Atomic(HOSTS, Temp(temp), Backup(backup), HostsDoc(next));
      if o == Saved {
        hosts := next;
      }
      r := Report(o);
    }

    method Revoke(f: string, temp: nat, backup: nat) returns (r: StoreResult)
      modifies this`hosts, volume
      ensures (View(), r) == Alter(old(View()), Change.Revoke(f), temp, backup, fp)
    {
      hide Commit.Atomic;
      var next := [];
      for i := 0 to |hosts|
        invariant next == RevokeHosts(hosts[..i], f)
      {
        assert hosts[..i + 1][..i] == hosts[..i];
        if hosts[i].fingerprint != f {
          next := next + [hosts[i]];
        } else {
          assert next + [] == next;
        }
      }
      assert hosts[..|hosts|] == hosts;
      var o := volume.Atomic(HOSTS, Temp(temp), Backup(backup), HostsDoc(next));
      if o == Saved {
        hosts := next;
      }
      r := Report(o);
    }

    method Connected(f: string, now: nat, temp: nat, backup: nat) returns (r: StoreResult)
      modifies this`hosts, volume
      ensures (View(), r) == Alter(old(View()), Change.Connected(f, now), temp, backup, fp)
    {
      hide Commit.Atomic, Knows, ConnectHosts;
      var i := 0;
      while i < |hosts| && hosts[i].fingerprint != f
        invariant 0 <= i <= |hosts|
        invariant forall j | 0 <= j < i :: hosts[j].fingerprint != f
      {
        i := i + 1;
      }
      if i == |hosts| {
        NobodyConnects(hosts, f, now);
        return Refused;
      }
      var next := hosts[i := hosts[i].(lastConnected := Some(now))];
      FirstMatchIsUnique(hosts, f, now, i);
      var o := volume.Atomic(HOSTS, Temp(temp), Backup(backup), HostsDoc(next));
      if o == Saved {
        hosts := next;
      }
      r := Report(o);
    }
  }

  lemma NobodyConnects(hosts: seq<Host>, f: string, now: nat)
    requires forall j | 0 <= j < |hosts| :: hosts[j].fingerprint != f
    ensures ConnectHosts(hosts, f, now) == None
  {
    ConnectingTouchesOneTime(hosts, f, now);
    assert !Knows(hosts, f);
  }

  lemma FirstMatchIsUnique(hosts: seq<Host>, f: string, now: nat, i: nat)
    requires i < |hosts| && hosts[i].fingerprint == f && forall j | 0 <= j < i :: hosts[j].fingerprint != f
    ensures ConnectHosts(hosts, f, now) == Some(hosts[i := hosts[i].(lastConnected := Some(now))])
  {
    assert Knows(hosts, f);
    ConnectingTouchesOneTime(hosts, f, now);
    var k :| 0 <= k < |hosts| && hosts[k].fingerprint == f && (forall j | 0 <= j < k :: hosts[j].fingerprint != f)
             && ConnectHosts(hosts, f, now).value == hosts[k := hosts[k].(lastConnected := Some(now))];
    assert k == i;
  }
}
