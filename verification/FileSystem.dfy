/** A directory and its files, with what is visible kept apart from what would survive a crash. */
module FileSystem {
  import opened Wrappers
  import opened Documents

  /** The state files and the hidden names `atomic` makes beside them; the random part is the tag. */
  datatype Name = Target(file: string) | Temp(tag: nat) | Backup(tag: nat)

  /** A file holds a whole document or part of one. */
  datatype Content = Whole(doc: Doc) | Torn

  datatype File = File(content: Content, synced: bool)

  /** A directory change that is visible but not yet known to be on the disk. A crash may lose any of them. */
  datatype Change = Put(name: Name, inode: nat) | Drop(name: Name) | Move(from: Name, to: Name, inode: nat)

  datatype Disk = Disk(
    files: seq<File>,
    dir: map<Name, nat>,
    durable: map<Name, nat>,
    pending: seq<Change>)

  function Apply(dir: map<Name, nat>, c: Change): map<Name, nat>
  {
    match c
    case Put(name, inode) => dir[name := inode]
    case Drop(name) => dir - {name}
    case Move(from, to, inode) => (dir - {from})[to := inode]
  }

  function ApplyAll(dir: map<Name, nat>, cs: seq<Change>): map<Name, nat>
  {
    if cs == [] then dir else Apply(ApplyAll(dir, cs[..|cs| - 1]), cs[|cs| - 1])
  }

  function Find(dir: map<Name, nat>, n: Name): Option<nat>
  {
    if n in dir then Some(dir[n]) else None
  }

  /** Every entry refers to a file, and the visible directory is the durable one with the pending changes. */
  ghost predicate Formed(d: Disk)
  {
    && d.dir == ApplyAll(d.durable, d.pending)
    && (forall n | n in d.dir :: d.dir[n] < |d.files|)
    && (forall n | n in d.durable :: d.durable[n] < |d.files|)
    && (forall i | 0 <= i < |d.pending| :: d.pending[i].Drop? || d.pending[i].inode < |d.files|)
  }

  /** What a reader sees under a name. */
  function Visible(d: Disk, n: Name): Option<Content>
    requires n in d.dir ==> d.dir[n] < |d.files|
  {
    if n in d.dir then Some(d.files[d.dir[n]].content) else None
  }

  // ---------------------------------------------------------------------------------------------
  // Crashes

  /** The pending changes a crash happened to keep, in order. */
  function Kept(cs: seq<Change>, keep: seq<bool>): seq<Change>
    requires |keep| == |cs|
  {
    if cs == [] then []
    else Kept(cs[..|cs| - 1], keep[..|cs| - 1]) + if keep[|cs| - 1] then [cs[|cs| - 1]] else []
  }

  /** The directory entry found after a crash that kept those changes. */
  function AfterCrash(d: Disk, keep: seq<bool>, n: Name): Option<nat>
    requires |keep| == |d.pending|
  {
    Find(ApplyAll(d.durable, Kept(d.pending, keep)), n)
  }

  /** What the name may refer to after a crash, collected from the durable entry and every pending change. */
  function Possible(d: Disk, n: Name): set<Option<nat>>
  {
    {Find(d.durable, n)} + Effects(d.pending, n)
  }

  function Effects(cs: seq<Change>, n: Name): set<Option<nat>>
  {
    if cs == [] then {} else Effects(cs[..|cs| - 1], n) + Effect(cs[|cs| - 1], n)
  }

  function Effect(c: Change, n: Name): set<Option<nat>>
  {
    match c
    case Put(name, inode) => if name == n then {Some(inode)} else {}
    case Drop(name) => if name == n then {None} else {}
    case Move(from, to, inode) => if to == n then {Some(inode)} else if from == n then {None} else {}
  }

  lemma ApplyFinds(dir: map<Name, nat>, c: Change, n: Name)
    ensures Find(Apply(dir, c), n) == Find(dir, n) || Find(Apply(dir, c), n) in Effect(c, n)
  {
  }

  lemma KeptLast(cs: seq<Change>, keep: seq<bool>)
    requires |keep| == |cs| && cs != []
    ensures var before := Kept(cs[..|cs| - 1], keep[..|cs| - 1]);
            Kept(cs, keep) == if keep[|cs| - 1] then before + [cs[|cs| - 1]] else before
  {
    var before := Kept(cs[..|cs| - 1], keep[..|cs| - 1]);
    assert before + [] == before;
  }

  /** A crash leaves one of the possible entries. */
  lemma {:induction false} CrashIsPossible(durable: map<Name, nat>, cs: seq<Change>, keep: seq<bool>, n: Name)
    requires |keep| == |cs|
    ensures Find(ApplyAll(durable, Kept(cs, keep)), n) in {Find(durable, n)} + Effects(cs, n)
  {
    if cs != [] {
      var init, last := cs[..|cs| - 1], cs[|cs| - 1];
      var before := Kept(init, keep[..|init|]);
      CrashIsPossible(durable, init, keep[..|init|], n);
      KeptLast(cs, keep);
      Pushed(durable, before, last);
      ApplyFinds(ApplyAll(durable, before), last, n);
      hide Apply, ApplyAll, Kept, Effect, Find;
    }
  }

  /** Every possible entry is left by some crash. */
  lemma {:induction false} PossibleIsReached(durable: map<Name, nat>, cs: seq<Change>, n: Name, v: Option<nat>)
    returns (keep: seq<bool>)
    requires v in {Find(durable, n)} + Effects(cs, n)
    ensures |keep| == |cs| && Find(ApplyAll(durable, Kept(cs, keep)), n) == v
  {
    if cs == [] {
      keep := [];
    } else {
      var init, last := cs[..|cs| - 1], cs[|cs| - 1];
      if v in {Find(durable, n)} + Effects(init, n) {
        var k := PossibleIsReached(durable, init, n, v);
        keep := k + [false];
        assert keep[..|init|] == k;
        assert Kept(cs, keep) == Kept(init, k) + [] == Kept(init, k);
      } else {
        var k := KeepNone(init);
        keep := k + [true];
        assert keep[..|init|] == k;
        assert Kept(cs, keep) == [] + [last];
        assert [last][..0] == [];
        assert ApplyAll(durable, [last]) == Apply(durable, last);
      }
    }
  }

  lemma {:induction false} KeepNone(cs: seq<Change>) returns (keep: seq<bool>)
    ensures |keep| == |cs| && Kept(cs, keep) == []
  {
    if cs == [] {
      keep := [];
    } else {
      var k := KeepNone(cs[..|cs| - 1]);
      keep := k + [false];
      assert keep[..|cs| - 1] == k;
    }
  }

  /** What is visible is among what may be found after a crash: the crash that keeps everything. */
  lemma {:induction false} VisibleIsPossible(durable: map<Name, nat>, cs: seq<Change>, n: Name)
    ensures Find(ApplyAll(durable, cs), n) in {Find(durable, n)} + Effects(cs, n)
  {
    if cs != [] {
      VisibleIsPossible(durable, cs[..|cs| - 1], n);
    }
  }

  // ---------------------------------------------------------------------------------------------
  // Operations. Each either happens or leaves the disk as it was.

  function Create(d: Disk, n: Name): Disk
  {
    Disk(d.files + [File(Torn, false)], d.dir[n := |d.files|], d.durable, d.pending + [Put(n, |d.files|)])
  }

  function Fill(d: Disk, inode: nat, c: Content): Disk
    requires inode < |d.files|
  {
    d.(files := d.files[inode := File(c, false)])
  }

  function SyncFile(d: Disk, inode: nat): Disk
    requires inode < |d.files|
  {
    d.(files := d.files[inode := d.files[inode].(synced := true)])
  }

  function Link(d: Disk, from: Name, to: Name): Disk
    requires from in d.dir
  {
    d.(dir := d.dir[to := d.dir[from]], pending := d.pending + [Put(to, d.dir[from])])
  }

  function SyncDir(d: Disk): Disk
  {
    d.(durable := d.dir, pending := [])
  }

  /** POSIX `rename`: nothing happens when both names already are the same file. */
  function Rename(d: Disk, from: Name, to: Name): Disk
    requires from in d.dir
  {
    if to in d.dir && d.dir[to] == d.dir[from] then d
    else d.(dir := (d.dir - {from})[to := d.dir[from]], pending := d.pending + [Move(from, to, d.dir[from])])
  }

  function Remove(d: Disk, n: Name): Disk
  {
    if n in d.dir then d.(dir := d.dir - {n}, pending := d.pending + [Drop(n)]) else d
  }

  /** A change that does not concern a name. */
  lemma PushedElsewhere(cs: seq<Change>, c: Change, n: Name)
    requires Effect(c, n) == {}
    ensures Effects(cs + [c], n) == Effects(cs, n)
  {
    assert (cs + [c])[..|cs|] == cs;
    assert Effects(cs, n) + {} == Effects(cs, n);
  }

  lemma Pushed(durable: map<Name, nat>, cs: seq<Change>, c: Change)
    ensures ApplyAll(durable, cs + [c]) == Apply(ApplyAll(durable, cs), c)
    ensures forall n :: Effects(cs + [c], n) == Effects(cs, n) + Effect(c, n)
  {
    assert (cs + [c])[..|cs|] == cs;
  }
}
