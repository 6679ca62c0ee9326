/** The store over any number of processes: changes, crashes at any point of them, and restarts. */
module Restarts {
  import opened Wrappers
  import opened Documents
  import opened FileSystem
  import opened Commit
  import opened Store
  import S = Store

  // ---------------------------------------------------------------------------------------------
  // What a crash in the middle of a commit may find

  /** From disk number `from` on, no crash found this file under the name. */
  ghost predicate Quiet(from: nat, m: Machine, path: Name, inode: nat)
  {
    && from <= |m.seen| && Some(inode) !in Possible(m.disk, path) && Find(m.disk.dir, path) != Some(inode)
    && forall k | from <= k < |m.seen| :: Some(inode) !in Possible(m.seen[k], path)
  }

  lemma QuietIdle(from: nat, m: Machine, path: Name, inode: nat)
    requires Quiet(from, m, path, inode)
    ensures Quiet(from, Idle(m), path, inode) && Idle(m).disk == m.disk && Idle(m).seen == m.seen
  {
    hide Possible;
  }

  lemma QuietGo(from: nat, m: Machine, d: Disk, path: Name, inode: nat)
    requires Quiet(from, m, path, inode) && Find(d.dir, path) == Find(m.disk.dir, path)
    requires Possible(d, path) <= Possible(m.disk, path) + {Find(m.disk.dir, path)}
    ensures Quiet(from, Go(m, d), path, inode)
  {
    hide Possible;
  }

  lemma QuietTemp(from: nat, m: Machine, temp: Name, doc: Doc, path: Name, inode: nat)
    requires Quiet(from, m, path, inode) && temp != path
    ensures Quiet(from, WriteTemp(m, temp, doc).0, path, inode)
  {
    hide Quiet, Possible, Create;
    QuietIdle(from, m, path, inode);
    if Works(m) && temp !in m.disk.dir {
      var n := |m.disk.files|;
      var d := Create(m.disk, temp);
      assert n < |d.files| by { CreatedFile(m.disk, temp); }
      CreateElsewhere(m.disk, temp, path);
      QuietGo(from, m, d, path, inode);
      var a := Go(m, d);
      QuietIdle(from, a, path, inode);
      SameEntries(d, Fill(d, n, Whole(doc)), path);
      QuietGo(from, a, Fill(d, n, Whole(doc)), path, inode);
      var b := Go(a, Fill(d, n, Whole(doc)));
      QuietIdle(from, b, path, inode);
      SameEntries(b.disk, SyncFile(b.disk, n), path);
      QuietGo(from, b, SyncFile(b.disk, n), path, inode);
    }
  }

  lemma CreatedFile(d: Disk, n: Name)
    ensures |Create(d, n).files| == |d.files| + 1
  {
  }

  lemma SameEntries(d: Disk, e: Disk, path: Name)
    requires e.dir == d.dir && e.durable == d.durable && e.pending == d.pending
    ensures Possible(e, path) == Possible(d, path)
  {
  }

  lemma QuietBackUp(from: nat, m: Machine, path: Name, backup: Name, inode: nat)
    requires Quiet(from, m, path, inode) && backup != path
    ensures Quiet(from, BackUp(m, path, backup).0, path, inode)
  {
    hide Quiet, Possible;
    QuietIdle(from, m, path, inode);
    var a := Idle(m);
    QuietIdle(from, a, path, inode);
    if Works(m) && Works(a) && !(path in a.disk.dir && backup in a.disk.dir) {
      var had := path in a.disk.dir;
      if had {
        PutElsewhere(a.disk, Link(a.disk, path, backup), FileSystem.Put(backup, a.disk.dir[path]), path);
        QuietGo(from, a, Link(a.disk, path, backup), path, inode);
      }
      var b := if had then Go(a, Link(a.disk, path, backup)) else Idle(a);
      QuietIdle(from, b, path, inode);
      SyncFinds(b.disk, path);
      QuietGo(from, b, SyncDir(b.disk), path, inode);
    }
  }

  lemma QuietDiscard(from: nat, m: Machine, n: Name, path: Name, inode: nat)
    requires Quiet(from, m, path, inode) && n != path
    ensures Quiet(from, Discard(m, n), path, inode)
  {
    hide Quiet, Effects;
    QuietIdle(from, m, path, inode);
    if n in m.disk.dir {
      PushedElsewhere(m.disk.pending, Drop(n), path);
    }
    QuietGo(from, m, FileSystem.Remove(m.disk, n), path, inode);
  }

  lemma QuietCleanup(from: nat, m: Machine, temp: Name, backup: Name, o: Outcome, path: Name, inode: nat)
    requires Quiet(from, m, path, inode) && temp != path && backup != path
    ensures Quiet(from, Cleanup(m, temp, backup, o), path, inode)
  {
    hide Quiet, Discard;
    QuietDiscard(from, m, temp, path, inode);
    QuietDiscard(from, m, backup, path, inode);
    QuietDiscard(from, Discard(m, temp), backup, path, inode);
  }

  /** A commit that does not reach the rename never lets a crash find its document, not even on the way. */
  lemma NeverFoundWithoutRename(m: Machine, path: Name, temp: Name, backup: Name, doc: Doc)
    requires Formed(m.disk) && temp.Temp? && path.Target? && backup.Backup?
    requires !ReachesRename(m, path, temp, backup)
    ensures Quiet(|m.seen|, Commit.Atomic(m, path, temp, backup, doc).0, path, |m.disk.files|)
  {
    hide Quiet, WriteTemp, BackUp, Cleanup, Later, WorksAt;
    var from, inode := |m.seen|, |m.disk.files|;
    StartsQuiet(m, path);
    TempScript(m, temp, doc);
    SevenWork(m.faults);
    QuietTemp(from, m, temp, doc, path, inode);
    var (a, written) := WriteTemp(m, temp, doc);
    QuietCleanup(from, a, temp, backup, Failed, path, inode);
    if written {
      BackUpScript(a, path, backup);
      QuietBackUp(from, a, path, backup, inode);
      var (b, had) := BackUp(a, path, backup);
      QuietCleanup(from, b, temp, backup, Failed, path, inode);
      if had.Some? {
        FirstWorks(b);
        QuietIdle(from, b, path, inode);
        QuietCleanup(from, Idle(b), temp, backup, Failed, path, inode);
      }
    }
  }

  lemma StartsQuiet(m: Machine, path: Name)
    requires Formed(m.disk)
    ensures Quiet(|m.seen|, m, path, |m.disk.files|)
  {
    hide Possible;
    NewInodeIsNew(m.disk, path);
    OldIsNotNew(m.disk, path);
  }

  lemma FirstWorks(m: Machine)
    ensures Works(m) == WorksAt(m.faults, 0)
  {
  }

  /** A commit that reaches the rename passes through a disk where a crash may find its document. */
  lemma RenameMayBeFound(m: Machine, path: Name, temp: Name, backup: Name, doc: Doc) returns (k: nat)
    requires Formed(m.disk) && temp.Temp? && path.Target? && backup.Backup?
    requires ReachesRename(m, path, temp, backup)
    ensures var e := Commit.Atomic(m, path, temp, backup, doc).0;
            |m.seen| <= k < |e.seen| && Some(|m.disk.files|) in Possible(e.seen[k], path)
  {
    hide WriteTemp, BackUp, Swap, Cleanup, Later, WorksAt, History, Possible;
    TempScript(m, temp, doc);
    SevenWork(m.faults);
    WriteTempPhase(m, temp, path, doc);
    var a := WriteTemp(m, temp, doc).0;
    BackUpScript(a, path, backup);
    BackUpPhase(m, a, temp, path, backup, doc);
    var (b, had) := BackUp(a, path, backup);
    FirstWorks(b);
    RenamedIsPossible(m.disk, b.disk, temp, path, doc);
    SwapSees(b, temp, path, backup, had.value);
    var (c, o) := Swap(b, temp, path, backup, had.value);
    WriteTempExtends(m, temp, doc);
    BackUpExtends(a, path, backup);
    CleanupExtends(c, temp, backup, o);
    k := |b.seen|;
  }

  lemma SwapSees(m: Machine, temp: Name, path: Name, backup: Name, had: bool)
    requires Works(m) && temp in m.disk.dir
    ensures var e := Swap(m, temp, path, backup, had).0;
            |m.seen| < |e.seen| && e.seen[|m.seen|] == Rename(m.disk, temp, path)
  {
    hide Rename, FileSystem.Remove, SyncDir;
  }

  lemma RenamedIsPossible(d0: Disk, d: Disk, temp: Name, path: Name, doc: Doc)
    requires Formed(d0) && Written(d0, d, temp, path, doc) && temp != path
    ensures temp in d.dir && Some(|d0.files|) in Possible(Rename(d, temp, path), path)
  {
    hide Effects, ApplyAll;
    OldIsNotNew(d0, path);
    Pushed(d.durable, d.pending, Move(temp, path, |d0.files|));
  }

  // ---------------------------------------------------------------------------------------------
  // One change of the store

  /** A change that offers this fingerprint to the host file and gets as far as renaming it into place. */
  predicate Offers(s: StoreState, c: Call, f: string, fp: Fingerprinter)
  {
    && c.change.Pair? && Proposal(s, c.change, fp).Some?
    && HostKey(c.change.key, fp).Some? && HostKey(c.change.key, fp).value.0 == f
    && ReachesRename(s.machine, HOSTS, Temp(c.temp), Backup(c.backup))
  }

  /** Nothing on this disk, and nothing a crash would leave of it, lists this fingerprint. */
  ghost predicate Unlisted(d: Disk, f: string)
  {
    forall p | p in Possible(d, HOSTS) :: !Lists(d, p, f)
  }

  lemma UnlistedIsNotFound(d: Disk, f: string)
    requires Formed(d)
    ensures Unlisted(d, f) <==> !MayFindHost(d, f)
  {
    hide Possible, Lists, MayFindHost;
    MayFindIsPossible(d, f);
  }

  /** A disk on the way of a commit that adds nothing about this fingerprint. */
  lemma SafeStaysUnlisted(d0: Disk, d: Disk, path: Name, doc: Doc, f: string)
    requires Formed(d0) && Safe(d0, d, path, doc) && Unlisted(d0, f)
    requires path == HOSTS ==>
               (doc.HostsDoc? && Knows(doc.hosts, f) ==> Some(|d0.files|) !in Possible(d, HOSTS))
    ensures Unlisted(d, f)
  {
    hide Possible, Knows;
    PossibleAreFiles(d0);
    forall p | p in Possible(d, HOSTS)
      ensures !Lists(d, p, f)
    {
      if path == HOSTS && p == Some(|d0.files|) {
        assert d.files[|d0.files|].content == Whole(doc);
      } else {
        assert p in Possible(d0, HOSTS) && !Lists(d0, p, f);
      }
    }
  }

  /** What a change of a store that does not know a fingerprint proposes: a host file with it only for a pairing
      of its own key. */
  lemma ProposesNewHost(s: StoreState, c: S.Change, f: string, fp: Fingerprinter)
    requires Trusted(s, fp) && Proposal(s, c, fp).Some? && !Knows(s.hosts, f)
    ensures var (path, doc) := Proposal(s, c, fp).value;
            && (path == CONFIG || path == HOSTS) && (path == HOSTS <==> doc.HostsDoc?)
            && (path == CONFIG <==> doc.ConfigDoc?)
            && (doc.HostsDoc? && Knows(doc.hosts, f) <==>
                  c.Pair? && HostKey(c.key, fp).Some? && HostKey(c.key, fp).value.0 == f)
  {
    hide Knows, HostKey;
    DistinctFiles();
    match c
    case Configure(_) =>
    case Pair(key, now) => PairingIsSound(s.hosts, key, now, fp);
    case Revoke(g) => RevokingIsExact(s.hosts, g);
    case Connected(g, now) => ConnectKnows(s.hosts, g, now, f);
  }

  /** Every disk a change passes through lists nobody new, unless it offers them. */
  lemma OnlyOffersAreListed(s: StoreState, c: Call, f: string, fp: Fingerprinter)
    requires Trusted(s, fp) && !Knows(s.hosts, f) && Unlisted(s.machine.disk, f) && !Offers(s, c, f, fp)
    ensures var t := Alter(s, c.change, c.temp, c.backup, fp).0;
            && !Knows(t.hosts, f) && Unlisted(t.machine.disk, f) && |s.machine.seen| <= |t.machine.seen|
            && forall k | |s.machine.seen| <= k < |t.machine.seen| :: Unlisted(t.machine.seen[k], f)
  {
    hide Commit.Atomic, Proposal, Knows, HostKey, Unlisted, Safe, Sound, ReachesRename, Quiet;
    assert Formed(s.machine.disk) by { SoundIsFormed(s.machine.disk, fp); }
    if Proposal(s, c.change, fp).Some? {
      var (path, doc) := Proposal(s, c.change, fp).value;
      ProposesNewHost(s, c.change, f, fp);
      var (m, o) := Commit.Atomic(s.machine, path, Temp(c.temp), Backup(c.backup), doc);
      CommitStaysUnlisted(s.machine, path, Temp(c.temp), Backup(c.backup), doc, f);
      OutcomeIsDecidedByScript(s.machine, path, Temp(c.temp), Backup(c.backup), doc);
    }
  }

  lemma CommitStaysUnlisted(m: Machine, path: Name, temp: Name, backup: Name, doc: Doc, f: string)
    requires Formed(m.disk) && temp.Temp? && path.Target? && backup.Backup? && Unlisted(m.disk, f)
    requires path == HOSTS && doc.HostsDoc? && Knows(doc.hosts, f) ==> !ReachesRename(m, path, temp, backup)
    ensures var e := Commit.Atomic(m, path, temp, backup, doc).0;
            && Unlisted(e.disk, f) && |m.seen| <= |e.seen|
            && forall k | |m.seen| <= k < |e.seen| :: Unlisted(e.seen[k], f)
  {
    hide Commit.Atomic, Possible, Knows, Unlisted, Safe, ReachesRename;
    var e := Commit.Atomic(m, path, temp, backup, doc).0;
    AtomicKeeps(m, path, temp, backup, doc);
    if path == HOSTS && doc.HostsDoc? && Knows(doc.hosts, f) {
      NeverFoundWithoutRename(m, path, temp, backup, doc);
    }
    SafeStaysUnlisted(m.disk, e.disk, path, doc, f);
    forall k | |m.seen| <= k < |e.seen|
      ensures Unlisted(e.seen[k], f)
    {
      SafeStaysUnlisted(m.disk, e.seen[k], path, doc, f);
    }
  }

  // ---------------------------------------------------------------------------------------------
  // Lives

  /** The service is up with a store, or down with a disk. The disks `seen` are those since the last deed began. */
  datatype Life = Up(store: StoreState) | Down(machine: Machine)

  /** A change; a crash at one of the disks the last deed passed through, or after it; a start. */
  datatype Deed =
    | Changes(call: Call)
    | Crashes(at: nat, keep: seq<bool>)
    | Starts(guid: string, tags: (nat, nat, nat, nat), faults: seq<bool>)

  function MachineOf(l: Life): Machine
  {
    match l case Up(s) => s.machine case Down(m) => m
  }

  /** The disks a crash may happen at. */
  function Disks(l: Life): seq<Disk>
  {
    MachineOf(l).seen + [MachineOf(l).disk]
  }

  function Rested(s: StoreState): StoreState
  {
    s.(machine := s.machine.(seen := []))
  }

  ghost predicate Healthy(l: Life, fp: Fingerprinter)
  {
    && (l.Up? ==> Trusted(l.store, fp))
    && forall i | 0 <= i < |Disks(l)| :: Sound(Disks(l)[i], Fitting(fp))
  }

  /** What a start leaves of the machine, whether or not it succeeds. */
  ghost function Opening(m: Machine, guid: string, tags: (nat, nat, nat, nat), fp: Fingerprinter): Machine
    requires Sound(m.disk, Fitting(fp))
  {
    ReadableFiles(m.disk, CONFIG, fp);
    FirstDocumentsFit(guid, fp);
    var (a, config) := ReadOrCreate(m, CONFIG, ConfigDoc(DEFAULT), tags.0, tags.1);
    if config.None? || !config.value.ConfigDoc? || !config.value.config.Valid() then a
    else
      ReadOrCreateKeeps(m, CONFIG, ConfigDoc(DEFAULT), tags.0, tags.1, fp);
      ReadableFiles(a.disk, IDENTITY, fp);
      ReadOrCreate(a, IDENTITY, IdentityDoc(guid), tags.2, tags.3).0
  }

  /** One deed, if it can be done. */
  ghost function Do(l: Life, d: Deed, fp: Fingerprinter): Option<Life>
    requires Healthy(l, fp)
  {
    match d
    case Changes(c) =>
      if l.Up? then Some(Up(Alter(Rested(l.store), c.change, c.temp, c.backup, fp).0)) else None
    case Crashes(at, keep) =>
      if at < |Disks(l)| && |keep| == |Disks(l)[at].pending|
      then Some(Down(Machine(Restarted(Disks(l)[at], keep), [], []))) else None
    case Starts(guid, tags, faults) =>
      if l.Up? then None
      else
        assert Disks(l)[|Disks(l)| - 1] == l.machine.disk;
        var m := Machine(l.machine.disk, faults, []);
        match Open(m, guid, tags, fp)
        case Some(s) => Some(Up(s))
        case None => Some(Down(Opening(m, guid, tags, fp)))
  }

  // ---------------------------------------------------------------------------------------------
  // What a start does to the disk

  /** From one machine to a later one: every disk between them is sound, and lists a fingerprint only if the first
      did. */
  ghost predicate Along(m: Machine, e: Machine, f: string, fp: Fingerprinter)
  {
    && m.seen <= e.seen && Sound(e.disk, Fitting(fp)) && (Unlisted(m.disk, f) ==> Unlisted(e.disk, f))
    && forall k | |m.seen| <= k < |e.seen| ::
         Sound(e.seen[k], Fitting(fp)) && (Unlisted(m.disk, f) ==> Unlisted(e.seen[k], f))
  }

  lemma AlongTwice(m: Machine, a: Machine, e: Machine, f: string, fp: Fingerprinter)
    requires Along(m, a, f, fp) && Along(a, e, f, fp)
    ensures Along(m, e, f, fp)
  {
    hide Sound, Unlisted;
    forall k | |m.seen| <= k < |e.seen|
      ensures Sound(e.seen[k], Fitting(fp)) && (Unlisted(m.disk, f) ==> Unlisted(e.seen[k], f))
    {
      assert k < |a.seen| ==> e.seen[k] == a.seen[k];
    }
  }

  lemma CreatingIsAlong(m: Machine, n: Name, first: Doc, temp: nat, backup: nat, f: string, fp: Fingerprinter)
    requires Sound(m.disk, Fitting(fp)) && n.Target? && n != HOSTS && Fits(n, first, fp)
    requires n in m.disk.dir ==> m.disk.dir[n] < |m.disk.files|
    ensures Along(m, ReadOrCreate(m, n, first, temp, backup).0, f, fp)
  {
    hide Commit.Atomic, Sound, Unlisted, Fits;
    if n !in m.disk.dir {
      SoundIsFormed(m.disk, fp);
      AtomicKeepsSound(m, n, Temp(temp), Backup(backup), first, Fitting(fp));
      AtomicExtends(m, n, Temp(temp), Backup(backup), first);
      if Unlisted(m.disk, f) {
        CommitStaysUnlisted(m, n, Temp(temp), Backup(backup), first, f);
      }
    }
  }

  lemma OpeningIsAlong(m: Machine, guid: string, tags: (nat, nat, nat, nat), f: string, fp: Fingerprinter)
    requires Sound(m.disk, Fitting(fp))
    ensures Along(m, Opening(m, guid, tags, fp), f, fp)
    ensures Open(m, guid, tags, fp).Some? ==> Open(m, guid, tags, fp).value.machine == Opening(m, guid, tags, fp)
  {
    hide Commit.Atomic, Sound, Unlisted, Fits, Along, AcceptsHosts, ReadOrCreate;
    DistinctFiles();
    FirstDocumentsFit(guid, fp);
    ReadableFiles(m.disk, CONFIG, fp);
    CreatingIsAlong(m, CONFIG, ConfigDoc(DEFAULT), tags.0, tags.1, f, fp);
    ReadOrCreateKeeps(m, CONFIG, ConfigDoc(DEFAULT), tags.0, tags.1, fp);
    var a := ReadOrCreate(m, CONFIG, ConfigDoc(DEFAULT), tags.0, tags.1).0;
    ReadableFiles(a.disk, IDENTITY, fp);
    CreatingIsAlong(a, IDENTITY, IdentityDoc(guid), tags.2, tags.3, f, fp);
    AlongTwice(m, a, ReadOrCreate(a, IDENTITY, IdentityDoc(guid), tags.2, tags.3).0, f, fp);
  }

  lemma OpenTrustsOnlyListed(m: Machine, guid: string, tags: (nat, nat, nat, nat), f: string, fp: Fingerprinter)
    requires Sound(m.disk, Fitting(fp)) && Open(m, guid, tags, fp).Some? && Unlisted(m.disk, f)
    ensures !Knows(Open(m, guid, tags, fp).value.hosts, f)
  {
    hide Open, Knows, Fits, Effects, ApplyAll;
    OpenLeavesHosts(m, guid, tags, fp);
    VisibleIsPossible(m.disk.durable, m.disk.pending, HOSTS);
    if HOSTS in m.disk.dir {
      var p := Some(m.disk.dir[HOSTS]);
      assert p in Possible(m.disk, HOSTS) && HOSTS.Target?;
      assert m.disk.files[p.value].synced;
      assert !Lists(m.disk, p, f);
    } else {
      NobodyIsKnown(f);
    }
  }

  lemma NobodyIsKnown(f: string)
    ensures !Knows([], f)
  {
  }

  lemma CrashStaysUnlisted(d: Disk, keep: seq<bool>, f: string)
    requires |keep| == |d.pending| && Unlisted(d, f)
    ensures Unlisted(Restarted(d, keep), f)
  {
    hide ApplyAll, Kept, Knows;
    CrashIsPossible(d.durable, d.pending, keep, HOSTS);
    var p := AfterCrash(d, keep, HOSTS);
    assert p in Possible(d, HOSTS);
    assert Possible(Restarted(d, keep), HOSTS) == {p};
  }

  // ---------------------------------------------------------------------------------------------
  // Trust over lives

  lemma DoKeepsHealthy(l: Life, d: Deed, fp: Fingerprinter)
    requires Healthy(l, fp) && Do(l, d, fp).Some?
    ensures Healthy(Do(l, d, fp).value, fp)
  {
    hide Sound, Restarted, Open, Opening, Alter, Trusted;
    match d
    case Changes(c) =>
      RestedTrusted(l.store, fp);
      AlterKeepsTrust(Rested(l.store), c.change, c.temp, c.backup, fp);
      TrustedIsSound(Do(l, d, fp).value.store, fp);
    case Crashes(at, keep) => RestartKeepsSound(Disks(l)[at], keep, fp);
    case Starts(guid, tags, faults) =>
      assert Disks(l)[|Disks(l)| - 1] == l.machine.disk;
      var m := Machine(l.machine.disk, faults, []);
      OpenEstablishes(m, guid, tags, fp);
      OpeningIsAlong(m, guid, tags, "", fp);
      hide Agrees;
  }

  lemma RestedTrusted(s: StoreState, fp: Fingerprinter)
    requires Trusted(s, fp)
    ensures Trusted(Rested(s), fp) && Sound(s.machine.disk, Fitting(fp))
  {
    hide Sound;
  }

  lemma TrustedIsSound(s: StoreState, fp: Fingerprinter)
    requires Trusted(s, fp)
    ensures Sound(s.machine.disk, Fitting(fp))
  {
  }

  /** Deed after deed; `None` when one of them could not be done. */
  ghost function Lives(l: Life, deeds: seq<Deed>, fp: Fingerprinter): (r: Option<Life>)
    requires Healthy(l, fp)
    ensures r.Some? ==> Healthy(r.value, fp)
  {
    if deeds == [] then Some(l)
    else
      match Lives(l, deeds[..|deeds| - 1], fp)
      case None => None
      case Some(u) =>
        if Do(u, deeds[|deeds| - 1], fp).Some? then
          DoKeepsHealthy(u, deeds[|deeds| - 1], fp);
          Do(u, deeds[|deeds| - 1], fp)
        else None
  }

  predicate Trusts(l: Life, f: string)
  {
    l.Up? && Knows(l.store.hosts, f)
  }

  /** Neither memory nor any disk a crash may happen at lists this fingerprint. */
  ghost predicate Clean(l: Life, f: string)
  {
    !Trusts(l, f) && forall i | 0 <= i < |Disks(l)| :: Unlisted(Disks(l)[i], f)
  }

  /** Deed number `i` offers this fingerprint. */
  ghost predicate OffersAt(l: Life, deeds: seq<Deed>, i: nat, f: string, fp: Fingerprinter)
    requires Healthy(l, fp)
  {
    && i < |deeds| && Lives(l, deeds[..i], fp).Some? && Lives(l, deeds[..i], fp).value.Up?
    && deeds[i].Changes? && Offers(Rested(Lives(l, deeds[..i], fp).value.store), deeds[i].call, f, fp)
  }

  lemma DoKeepsClean(l: Life, d: Deed, f: string, fp: Fingerprinter)
    requires Healthy(l, fp) && Do(l, d, fp).Some? && Clean(l, f)
    requires !(d.Changes? && Offers(Rested(l.store), d.call, f, fp))
    ensures Clean(Do(l, d, fp).value, f)
  {
    hide Sound, Restarted, Open, Opening, Alter, Trusted, Unlisted, Offers, Knows;
    assert Disks(l)[|Disks(l)| - 1] == MachineOf(l).disk;
    match d
    case Changes(c) =>
      RestedTrusted(l.store, fp);
      OnlyOffersAreListed(Rested(l.store), c, f, fp);
    case Crashes(at, keep) => CrashStaysUnlisted(Disks(l)[at], keep, f);
    case Starts(guid, tags, faults) =>
      var m := Machine(l.machine.disk, faults, []);
      OpeningIsAlong(m, guid, tags, f, fp);
      if Open(m, guid, tags, fp).Some? {
        OpenTrustsOnlyListed(m, guid, tags, f, fp);
      }
  }

  /** Over changes, failing operations, crashes at any point and restarts, in any order: whoever is trusted at the
      end was listed at the start, in memory or on the disk, or was offered in a pairing whose commit reached the
      rename. */
  lemma {:induction false} TrustIsEarnedAcrossRestarts(l: Life, deeds: seq<Deed>, f: string, fp: Fingerprinter)
    requires Healthy(l, fp) && Lives(l, deeds, fp).Some?
    ensures !Clean(Lives(l, deeds, fp).value, f) ==> !Clean(l, f) || exists i: nat :: OffersAt(l, deeds, i, f, fp)
    ensures Trusts(Lives(l, deeds, fp).value, f) ==> !Clean(l, f) || exists i: nat :: OffersAt(l, deeds, i, f, fp)
  {
    hide Healthy, Do, Clean, Trusts;
    CleanIsUntrusting(Lives(l, deeds, fp).value, f);
    if deeds != [] {
      var init, d := deeds[..|deeds| - 1], deeds[|deeds| - 1];
      var u := Lives(l, init, fp).value;
      TrustIsEarnedAcrossRestarts(l, init, f, fp);
      if Clean(u, f) {
        DoesOffer(u, d, f, fp);
        if !Clean(Lives(l, deeds, fp).value, f) {
          assert OffersAt(l, deeds, |init|, f, fp);
        }
      } else if Clean(l, f) {
        var i: nat :| OffersAt(l, init, i, f, fp);
        assert init[..i] == deeds[..i];
        assert OffersAt(l, deeds, i, f, fp);
      }
    }
  }

  lemma CleanIsUntrusting(l: Life, f: string)
    ensures Clean(l, f) ==> !Trusts(l, f)
  {
  }

  lemma DoesOffer(l: Life, d: Deed, f: string, fp: Fingerprinter)
    requires Healthy(l, fp) && Do(l, d, fp).Some? && Clean(l, f)
    ensures Clean(Do(l, d, fp).value, f)
            || (l.Up? && d.Changes? && Offers(Rested(l.store), d.call, f, fp))
  {
    hide Clean, Offers, Healthy;
    if !(d.Changes? && l.Up? && Offers(Rested(l.store), d.call, f, fp)) {
      ChangesNeedsStore(l, d, fp);
      DoKeepsClean(l, d, f, fp);
    }
  }

  lemma ChangesNeedsStore(l: Life, d: Deed, fp: Fingerprinter)
    requires Healthy(l, fp) && Do(l, d, fp).Some?
    ensures d.Changes? ==> l.Up?
  {
    hide Healthy, Alter, Open, Opening, Restarted;
  }

  /** A store that has just been opened or saved, with nothing unsynced, is clean of exactly those it does not
      trust. */
  lemma CleanWhenSettled(s: StoreState, f: string, fp: Fingerprinter)
    requires Trusted(s, fp) && Agrees(s) && s.machine.seen == [] && s.machine.disk.pending == []
    ensures Clean(Up(s), f) <==> !Knows(s.hosts, f)
  {
    hide Knows, ApplyAll, Fits;
    var d := s.machine.disk;
    assert Possible(d, HOSTS) == {Find(d.dir, HOSTS)} by { SettledEntry(d); }
    assert Disks(Up(s)) == [d];
    NobodyIsKnown(f);
  }

  lemma SettledEntry(d: Disk)
    requires Formed(d) && d.pending == []
    ensures Possible(d, HOSTS) == {Find(d.dir, HOSTS)}
  {
    assert Effects([], HOSTS) == {};
  }

  /** Conversely, whatever becomes of a pairing that reaches the rename, a crash at some point of it and a start may
      trust the host. */
  lemma OfferedHostMayBeTrusted(s: StoreState, c: Call, f: string, fp: Fingerprinter)
    requires Healthy(Up(s), fp) && Offers(Rested(s), c, f, fp)
    requires None !in Possible(s.machine.disk, CONFIG) && None !in Possible(s.machine.disk, IDENTITY)
    ensures exists at: nat, keep: seq<bool> ::
              var deeds := [Changes(c), Crashes(at, keep), Starts("", (0, 0, 0, 0), [])];
              Lives(Up(s), deeds, fp).Some? && Trusts(Lives(Up(s), deeds, fp).value, f)
  {
    hide Healthy, Offers, Do, Lives, Trusts;
    var at, keep := RenamedHostIsFound(s, c, f, fp);
    ThreeDeeds(s, c, at, keep, f, fp);
    var deeds := [Changes(c), Crashes(at, keep), Starts("", (0, 0, 0, 0), [])];
    assert Lives(Up(s), deeds, fp).Some? && Trusts(Lives(Up(s), deeds, fp).value, f);
  }

  /** The disk and the crash that bring such a host into force. */
  lemma RenamedHostIsFound(s: StoreState, c: Call, f: string, fp: Fingerprinter) returns (at: nat, keep: seq<bool>)
    requires Healthy(Up(s), fp) && Offers(Rested(s), c, f, fp)
    requires None !in Possible(s.machine.disk, CONFIG) && None !in Possible(s.machine.disk, IDENTITY)
    ensures var t := Alter(Rested(s), c.change, c.temp, c.backup, fp).0;
            && at < |t.machine.seen| && |keep| == |t.machine.seen[at].pending|
            && TrustsAgain(t.machine.seen[at], keep, f, fp)
  {
    hide Commit.Atomic, Possible, Sound, Knows, ReachesRename, HostKey, TrustsAgain, Safe, Trusted, AcceptsHosts;
    var r := Rested(s);
    RestedTrusted(s, fp);
    TrustedAccepts(r, fp);
    assert Formed(r.machine.disk) by { SoundIsFormed(r.machine.disk, fp); }
    PairingIsSound(r.hosts, c.change.key, c.change.now, fp);
    var doc := Proposal(r, c.change, fp).value.1;
    AtomicKeeps(r.machine, HOSTS, Temp(c.temp), Backup(c.backup), doc);
    AlterKeepsTrust(r, c.change, c.temp, c.backup, fp);
    at := RenameMayBeFound(r.machine, HOSTS, Temp(c.temp), Backup(c.backup), doc);
    var d := Commit.Atomic(r.machine, HOSTS, Temp(c.temp), Backup(c.backup), doc).0.seen[at];
    assert Safe(r.machine.disk, d, HOSTS, doc);
    OthersStayPossible(r.machine.disk, d, doc);
    keep := NewHostIsFound(r.machine.disk, d, doc, f);
    OpensAfterCrash(d, keep, f, fp);
  }

  lemma TrustedAccepts(s: StoreState, fp: Fingerprinter)
    requires Trusted(s, fp)
    ensures AcceptsHosts(s.hosts, fp)
  {
  }

  lemma NewHostIsFound(d0: Disk, d: Disk, doc: Doc, f: string) returns (keep: seq<bool>)
    requires Safe(d0, d, HOSTS, doc) && Some(|d0.files|) in Possible(d, HOSTS) && doc.HostsDoc? && Knows(doc.hosts, f)
    ensures |keep| == |d.pending| && FindsHost(d, keep, f)
  {
    hide ApplyAll, Kept, Effects, Knows;
    keep := PossibleIsReached(d.durable, d.pending, HOSTS, Some(|d0.files|));
  }

  lemma LivesPush(l: Life, deeds: seq<Deed>, d: Deed, fp: Fingerprinter)
    requires Healthy(l, fp) && Lives(l, deeds, fp).Some?
    ensures Lives(l, deeds + [d], fp) == Do(Lives(l, deeds, fp).value, d, fp)
  {
    hide Do, Healthy;
    assert (deeds + [d])[..|deeds|] == deeds;
  }

  lemma ThreeDeeds(s: StoreState, c: Call, at: nat, keep: seq<bool>, f: string, fp: Fingerprinter)
    requires Healthy(Up(s), fp)
    requires var t := Alter(Rested(s), c.change, c.temp, c.backup, fp).0;
             && at < |t.machine.seen| && |keep| == |t.machine.seen[at].pending|
             && TrustsAgain(t.machine.seen[at], keep, f, fp)
    ensures var r := Lives(Up(s), [Changes(c), Crashes(at, keep), Starts("", (0, 0, 0, 0), [])], fp);
            r.Some? && Trusts(r.value, f)
  {
    hide Healthy, Lives, Alter, Restarted, Open, Opening, Knows;
    assert Lives(Up(s), [], fp) == Some(Up(s)) by { NoDeeds(Up(s), fp); }
    LivesPush(Up(s), [], Changes(c), fp);
    assert [] + [Changes(c)] == [Changes(c)];
    LivesPush(Up(s), [Changes(c)], Crashes(at, keep), fp);
    assert [Changes(c)] + [Crashes(at, keep)] == [Changes(c), Crashes(at, keep)];
    var start := Starts("", (0, 0, 0, 0), []);
    LivesPush(Up(s), [Changes(c), Crashes(at, keep)], start, fp);
    assert [Changes(c), Crashes(at, keep)] + [start] == [Changes(c), Crashes(at, keep), start];
  }

  lemma NoDeeds(l: Life, fp: Fingerprinter)
    requires Healthy(l, fp)
    ensures Lives(l, [], fp) == Some(l)
  {
  }
}
