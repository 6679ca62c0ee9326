/** SYNC file transfer: the frames a download writes, and the upload that reads such frames into a temporary file
    and renames it over its target. */
module Sync {
  import opened Wrappers
  import opened Bytes

  // "DATA" and "DONE" as little-endian words
  const DATA: uint32 := 0x41544144
  const DONE: uint32 := 0x454E4F44
  const MAX := 65536
  const MAX_LINK := 4096

  // ---------------------------------------------------------------------------------------------
  // Frames

  function DataFrame(chunk: seq<byte>): seq<byte>
    requires |chunk| <= MAX
  {
    Le32(DATA) + Le32(|chunk|) + chunk
  }

  function DoneFrame(mtime: uint32): seq<byte>
  {
    Le32(DONE) + Le32(mtime)
  }

  ghost predicate Bounded(chunks: seq<seq<byte>>)
  {
    forall i | 0 <= i < |chunks| :: |chunks[i]| <= MAX
  }

  function Frames(chunks: seq<seq<byte>>): seq<byte>
    requires Bounded(chunks)
  {
    if chunks == [] then [] else DataFrame(chunks[0]) + Frames(chunks[1..])
  }

  datatype Parsed = Parsed(chunks: seq<seq<byte>>, mtime: uint32, rest: seq<byte>)

  /** The frames at the head of a stream up to the first DONE, or `None` when it is cut short or holds anything
      else. */
  function Parse(s: seq<byte>): (r: Option<Parsed>)
    ensures r.Some? ==> Bounded(r.value.chunks)
    decreases |s|
  {
    if |s| < 8 then None
    else
      var kind, len := FromLe32(s[..4]), FromLe32(s[4..8]);
      if kind == DONE then Some(Parsed([], len, s[8..]))
      else if kind != DATA || len > MAX || 8 + len > |s| then None
      else
        match Parse(s[8 + len..])
        case None => None
        case Some(p) => Some(p.(chunks := [s[8..8 + len]] + p.chunks))
  }

  lemma ParseData(chunk: seq<byte>, rest: seq<byte>)
    requires |chunk| <= MAX
    ensures Parse(DataFrame(chunk) + rest) ==
            match Parse(rest)
            case None => None
            case Some(p) => Some(p.(chunks := [chunk] + p.chunks))
  {
    hide Le32, FromLe32;
    var s := DataFrame(chunk) + rest;
    Le32RoundTrip(DATA);
    Le32RoundTrip(|chunk|);
    assert s[..4] == Le32(DATA) && s[4..8] == Le32(|chunk|);
    assert s[8..8 + |chunk|] == chunk && s[8 + |chunk|..] == rest;
  }

  lemma ParseDone(mtime: uint32, rest: seq<byte>)
    ensures Parse(DoneFrame(mtime) + rest) == Some(Parsed([], mtime, rest))
  {
    hide Le32, FromLe32;
    var s := DoneFrame(mtime) + rest;
    Le32RoundTrip(DONE);
    Le32RoundTrip(mtime);
    assert s[..4] == Le32(DONE) && s[4..8] == Le32(mtime) && s[8..] == rest;
  }

  lemma {:induction false} FramesParse(chunks: seq<seq<byte>>, mtime: uint32, rest: seq<byte>)
    requires Bounded(chunks)
    ensures Parse(Frames(chunks) + DoneFrame(mtime) + rest) == Some(Parsed(chunks, mtime, rest))
  {
    hide Parse, DataFrame, DoneFrame;
    var done := DoneFrame(mtime);
    if chunks == [] {
      assert Frames(chunks) + done + rest == done + rest;
      ParseDone(mtime, rest);
    } else {
      var tail := Frames(chunks[1..]) + done + rest;
      FramesParse(chunks[1..], mtime, rest);
      ParseData(chunks[0], tail);
      assert Frames(chunks) + done + rest == DataFrame(chunks[0]) + tail;
      assert [chunks[0]] + chunks[1..] == chunks;
    }
  }

  lemma DataHead(s: seq<byte>)
    requires |s| >= 8 && FromLe32(s[..4]) == DATA && FromLe32(s[4..8]) <= MAX && 8 + FromLe32(s[4..8]) <= |s|
    ensures var len := FromLe32(s[4..8]); s == DataFrame(s[8..8 + len]) + s[8 + len..]
  {
    hide Le32, FromLe32;
    FromLe32RoundTrip(s[..4]);
    FromLe32RoundTrip(s[4..8]);
    var len := FromLe32(s[4..8]);
    assert s == s[..4] + s[4..8] + s[8..8 + len] + s[8 + len..];
  }

  lemma DoneHead(s: seq<byte>)
    requires |s| >= 8 && FromLe32(s[..4]) == DONE
    ensures s == DoneFrame(FromLe32(s[4..8])) + s[8..]
  {
    hide Le32, FromLe32;
    FromLe32RoundTrip(s[..4]);
    FromLe32RoundTrip(s[4..8]);
  }

  /** What parses was framed: no other stream is read as these chunks. */
  lemma {:induction false} ParsedWasFramed(s: seq<byte>)
    requires Parse(s).Some?
    ensures var p := Parse(s).value; Bounded(p.chunks) && s == Frames(p.chunks) + DoneFrame(p.mtime) + p.rest
    decreases |s|
  {
    hide FromLe32, DataFrame, DoneFrame;
    if FromLe32(s[..4]) == DONE {
      DoneHead(s);
      assert [] + s == s;
    } else {
      var len := FromLe32(s[4..8]);
      DataHead(s);
      ParsedWasFramed(s[8 + len..]);
      var p := Parse(s[8 + len..]).value;
      var head := DataFrame(s[8..8 + len]);
      assert Parse(s).value.chunks[1..] == p.chunks;
      assert head + (Frames(p.chunks) + DoneFrame(p.mtime) + p.rest)
          == head + Frames(p.chunks) + DoneFrame(p.mtime) + p.rest;
    }
  }

  /** A stream is read as these chunks exactly when it is their frames, one DONE, and anything after. */
  lemma ParseExactlyFrames(s: seq<byte>, chunks: seq<seq<byte>>, mtime: uint32, rest: seq<byte>)
    ensures Parse(s) == Some(Parsed(chunks, mtime, rest)) <==>
            Bounded(chunks) && s == Frames(chunks) + DoneFrame(mtime) + rest
  {
    hide Parse, Frames, DoneFrame;
    if Parse(s) == Some(Parsed(chunks, mtime, rest)) {
      ParsedWasFramed(s);
    }
    if Bounded(chunks) && s == Frames(chunks) + DoneFrame(mtime) + rest {
      FramesParse(chunks, mtime, rest);
    }
  }

  /** What follows a whole transfer is left for later. */
  lemma ParseExtends(s: seq<byte>, more: seq<byte>)
    requires Parse(s).Some?
    ensures Parse(s + more) == Some(Parse(s).value.(rest := Parse(s).value.rest + more))
  {
    hide Parse, Frames, DoneFrame;
    ParsedWasFramed(s);
    var p := Parse(s).value;
    FramesParse(p.chunks, p.mtime, p.rest + more);
    assert s + more == Frames(p.chunks) + DoneFrame(p.mtime) + (p.rest + more);
  }

  /** Frames without their DONE are never a whole transfer, wherever they are cut. */
  lemma CutFramesNeverParse(chunks: seq<seq<byte>>, mtime: uint32, n: nat)
    requires Bounded(chunks) && n < |Frames(chunks) + DoneFrame(mtime)|
    ensures Parse((Frames(chunks) + DoneFrame(mtime))[..n]) == None
  {
    hide Parse, Frames, DoneFrame;
    var whole := Frames(chunks) + DoneFrame(mtime);
    assert whole == whole[..n] + whole[n..] && whole == whole + [];
    FramesParse(chunks, mtime, []);
    if Parse(whole[..n]).Some? {
      ParseExtends(whole[..n], whole[n..]);
    }
  }

  // ---------------------------------------------------------------------------------------------
  // Download

  /** What one `read` of the file does: it fails, or it fills some of the buffer; at the end of the file it fills
      nothing. */
  datatype Read = Fill(upTo: nat) | Broken

  function Taken(left: nat, r: Read): nat
  {
    var most := if r.Fill? && 0 < r.upTo < MAX then r.upTo else MAX;
    if left < most then left else most
  }

  /** The pieces a file of these bytes is read in; `None` when a read fails before the end. Reads beyond the script
      fill the buffer. */
  function Pieces(bytes: seq<byte>, script: seq<Read>): (r: Option<seq<seq<byte>>>)
    ensures r.Some? ==> Bounded(r.value)
    decreases |bytes|
  {
    var next := if script == [] then Fill(MAX) else script[0];
    if next.Broken? then None
    else if bytes == [] then Some([])
    else
      var n := Taken(|bytes|, next);
      match Pieces(bytes[n..], if script == [] then [] else script[1..])
      case None => None
      case Some(rest) => Some([bytes[..n]] + rest)
  }

  /** Nothing is lost, added or reordered by reading in pieces. */
  lemma {:induction false} PiecesAreTheFile(bytes: seq<byte>, script: seq<Read>)
    requires Pieces(bytes, script).Some?
    ensures Concat(Pieces(bytes, script).value) == bytes
    ensures forall i | 0 <= i < |Pieces(bytes, script).value| :: Pieces(bytes, script).value[i] != []
    decreases |bytes|
  {
    if bytes != [] {
      var next := if script == [] then Fill(MAX) else script[0];
      var n := Taken(|bytes|, next);
      var rest := if script == [] then [] else script[1..];
      PiecesAreTheFile(bytes[n..], rest);
      var tail := Pieces(bytes[n..], rest).value;
      assert ([bytes[..n]] + tail)[1..] == tail;
      assert bytes == bytes[..n] + bytes[n..];
    }
  }

  /** Everything a download writes, if every read and every write works. */
  function Download(chunks: seq<seq<byte>>): seq<byte>
    requires Bounded(chunks)
  {
    Frames(chunks) + DoneFrame(0)
  }

  /** The RECV loop: the stream written so far and whether the whole file was sent. The stream may break after any
      number of bytes. */
  method Receive(bytes: seq<byte>, script: seq<Read>, room: Option<nat>) returns (out: seq<byte>, ok: bool)
    ensures ok <==> Pieces(bytes, script).Some? &&
                    (room.None? || |Download(Pieces(bytes, script).value)| <= room.value)
    ensures ok ==> out == Download(Pieces(bytes, script).value)
    ensures !ok ==> Parse(out) == None
  {
    hide Parse, Frames, DataFrame, DoneFrame, Pieces;
    var left, todo := bytes, script;
    ghost var sent: seq<seq<byte>> := [];
    out := [];
    NoFrames();
    while true
      invariant Bounded(sent) && out == Frames(sent) && (room.Some? ==> |out| <= room.value)
      invariant Pieces(bytes, script) == Prepend(sent, Pieces(left, todo))
      decreases |left|
    {
      PiecesNext(left, todo);
      var next := if todo == [] then Fill(MAX) else todo[0];
      todo := if todo == [] then [] else todo[1..];
      if next.Broken? {
        UnfinishedNeverParses(sent);
        return out, false;
      }
      var n := Taken(|left|, next);
      if n == 0 {
        break;
      }
      ghost var rest := Pieces(left[n..], todo);
      FramesPush(sent, left[..n]);
      PrependPush(sent, left[..n], rest);
      var frame := DataFrame(left[..n]);
      if room.Some? && room.value < |out| + |frame| {
        CutWriteNeverParses(sent, left[..n], room.value);
        DownloadContinues(sent + [left[..n]], rest);
        out := out + frame[..room.value - |out|];
        return out, false;
      }
      out := out + frame;
      sent := sent + [left[..n]];
      left := left[n..];
    }
    assert sent + [] == sent;
    assert Pieces(bytes, script) == Some(sent);
    var last := DoneFrame(0);
    if room.Some? && room.value < |out| + |last| {
      CutDoneNeverParses(sent, room.value);
      out := out + last[..room.value - |out|];
      return out, false;
    }
    out := out + last;
    ok := true;
  }

  lemma CutWriteNeverParses(sent: seq<seq<byte>>, c: seq<byte>, n: nat)
    requires Bounded(sent) && |c| <= MAX && |Frames(sent)| <= n < |Frames(sent)| + |DataFrame(c)|
    ensures Parse(Frames(sent) + DataFrame(c)[..n - |Frames(sent)|]) == None
  {
    hide Parse, Frames, DataFrame, DoneFrame;
    FramesPush(sent, c);
    CutFramesNeverParse(sent + [c], 0, n);
    assert (Frames(sent) + DataFrame(c) + DoneFrame(0))[..n] == Frames(sent) + DataFrame(c)[..n - |Frames(sent)|];
  }

  lemma CutDoneNeverParses(sent: seq<seq<byte>>, n: nat)
    requires Bounded(sent) && |Frames(sent)| <= n < |Frames(sent)| + |DoneFrame(0)|
    ensures Parse(Frames(sent) + DoneFrame(0)[..n - |Frames(sent)|]) == None
  {
    hide Parse, Frames, DoneFrame;
    CutFramesNeverParse(sent, 0, n);
    assert (Frames(sent) + DoneFrame(0))[..n] == Frames(sent) + DoneFrame(0)[..n - |Frames(sent)|];
  }

  /** A download is longer than what was sent of it. */
  lemma DownloadContinues(sent: seq<seq<byte>>, rest: Option<seq<seq<byte>>>)
    requires Bounded(sent) && (rest.Some? ==> Bounded(rest.value))
    ensures var all := Prepend(sent, rest);
            all.Some? ==> Bounded(all.value) && |Download(all.value)| > |Frames(sent)|
  {
    hide Frames, DoneFrame;
    if rest.Some? {
      FramesAppend(sent, rest.value);
      DoneLength();
    }
  }

  lemma DoneLength()
    ensures |DoneFrame(0)| == 8
  {
  }

  lemma {:induction false} FramesAppend(a: seq<seq<byte>>, b: seq<seq<byte>>)
    requires Bounded(a) && Bounded(b)
    ensures Bounded(a + b) && Frames(a + b) == Frames(a) + Frames(b)
  {
    hide DataFrame;
    if a == [] {
      assert a + b == b;
    } else {
      assert (a + b)[1..] == a[1..] + b;
      FramesAppend(a[1..], b);
    }
  }

  ghost function Prepend(a: seq<seq<byte>>, b: Option<seq<seq<byte>>>): Option<seq<seq<byte>>>
  {
    match b case None => None case Some(rest) => Some(a + rest)
  }

  lemma PrependPush(a: seq<seq<byte>>, c: seq<byte>, b: Option<seq<seq<byte>>>)
    ensures Prepend(a + [c], b) == Prepend(a, Prepend([c], b))
  {
    if b.Some? {
      assert a + [c] + b.value == a + ([c] + b.value);
    }
  }

  lemma PiecesNext(bytes: seq<byte>, script: seq<Read>)
    ensures var next := if script == [] then Fill(MAX) else script[0];
            var rest := if script == [] then [] else script[1..];
            var n := Taken(|bytes|, next);
            && (n == 0 <==> bytes == [])
            && Pieces(bytes, script) ==
               if next.Broken? then None
               else if n == 0 then Some([]) else Prepend([bytes[..n]], Pieces(bytes[n..], rest))
  {
  }

  lemma NoFrames()
    ensures Frames([]) == [] && forall b: Option<seq<seq<byte>>> :: Prepend([], b) == b
  {
    forall b: Option<seq<seq<byte>>>
      ensures Prepend([], b) == b
    {
      if b.Some? {
        assert [] + b.value == b.value;
      }
    }
  }

  lemma {:induction false} FramesPush(chunks: seq<seq<byte>>, c: seq<byte>)
    requires Bounded(chunks) && |c| <= MAX
    ensures Bounded(chunks + [c]) && Frames(chunks + [c]) == Frames(chunks) + DataFrame(c)
  {
    hide DataFrame;
    if chunks == [] {
      assert (chunks + [c])[1..] == [];
    } else {
      FramesPush(chunks[1..], c);
      assert (chunks + [c])[1..] == chunks[1..] + [c];
    }
  }

  lemma UnfinishedNeverParses(chunks: seq<seq<byte>>)
    requires Bounded(chunks)
    ensures Parse(Frames(chunks)) == None
  {
    hide Parse, Frames;
    var n := |Frames(chunks)|;
    CutFramesNeverParse(chunks, 0, n);
    assert (Frames(chunks) + DoneFrame(0))[..n] == Frames(chunks);
  }

  // ---------------------------------------------------------------------------------------------
  // Upload

  type Path = string

  datatype Node = File(data: seq<byte>, mode: nat, mtime: uint32) | Link(target: seq<byte>, mtime: uint32)

  /** Which operations on the file system and the stream work; a frame beyond the script is written. */
  datatype Ops = Ops(
    mkdir: bool,
    create: bool,
    writes: seq<bool>,
    chmod: bool,
    sync: bool,
    link: bool,
    times: bool,
    rename: bool,
    okay: bool,
    remove: bool)

  /** The file type bits of a mode. */
  function Kind(mode: nat): nat
  {
    mode / 0x1000 % 16
  }

  const REGULAR := 8
  const SYMLINK := 10

  /** How far a transfer got: all its data with the time it closes with, or what it had before it failed. */
  datatype Progress = Complete(data: seq<byte>, mtime: uint32, rest: seq<byte>) | Stuck(data: seq<byte>)

  /** The data loop on the stream `s` with `got` received before; a limit is that of a link's target, and without
      one every frame must be written. */
  function Collect(s: seq<byte>, got: seq<byte>, limit: Option<nat>, writes: seq<bool>): Progress
    decreases |s|
  {
    if |s| < 8 then Stuck(got)
    else
      var kind, len := FromLe32(s[..4]), FromLe32(s[4..8]);
      if kind == DONE then Complete(got, len, s[8..])
      else if kind != DATA || len > MAX || 8 + len > |s| then Stuck(got)
      else if limit.None? && writes != [] && !writes[0] then Stuck(got)
      else if limit.Some? && |got| + len > limit.value then Stuck(got)
      else Collect(s[8 + len..], got + s[8..8 + len], limit, if writes == [] then [] else writes[1..])
  }

  /** A link's target, one trailing NUL dropped. */
  function LinkTarget(data: seq<byte>): seq<byte>
  {
    if data != [] && data[|data| - 1] == 0 then data[..|data| - 1] else data
  }

  /** Every frame of the transfer can be written, or fits the link. */
  ghost predicate Fits(chunks: seq<seq<byte>>, got: seq<byte>, limit: Option<nat>, writes: seq<bool>)
  {
    if limit.Some? then |got| + |Concat(chunks)| <= limit.value || chunks == []
    else forall i | 0 <= i < |chunks| && i < |writes| :: writes[i]
  }

  /** The data loop completes exactly on whole transfers whose frames all fit, and then has their data in order. */
  lemma {:induction false} CollectExactly(s: seq<byte>, got: seq<byte>, limit: Option<nat>, writes: seq<bool>)
    ensures match Collect(s, got, limit, writes)
            case Complete(data, mtime, rest) =>
              && Parse(s).Some? && Fits(Parse(s).value.chunks, got, limit, writes)
              && data == got + Concat(Parse(s).value.chunks)
              && mtime == Parse(s).value.mtime && rest == Parse(s).value.rest
            case Stuck(_) => Parse(s).None? || !Fits(Parse(s).value.chunks, got, limit, writes)
    decreases |s|
  {
    hide FromLe32;
    if |s| >= 8 {
      var kind, len := FromLe32(s[..4]), FromLe32(s[4..8]);
      if kind == DONE {
        assert got + [] == got;
      } else if kind == DATA && len <= MAX && 8 + len <= |s| {
        var more, left := got + s[8..8 + len], if writes == [] then [] else writes[1..];
        CollectExactly(s[8 + len..], more, limit, left);
        if Parse(s[8 + len..]).Some? {
          var tail := Parse(s[8 + len..]).value.chunks;
          assert ([s[8..8 + len]] + tail)[1..] == tail;
          FitsNext(s[8..8 + len], tail, got, limit, writes);
          assert more + Concat(tail) == got + (s[8..8 + len] + Concat(tail));
        }
      }
    }
  }

  lemma FitsNext(c: seq<byte>, chunks: seq<seq<byte>>, got: seq<byte>, limit: Option<nat>, writes: seq<bool>)
    ensures Fits([c] + chunks, got, limit, writes) <==>
            && (limit.None? ==> writes == [] || writes[0])
            && (limit.Some? ==> |got| + |c| <= limit.value)
            && Fits(chunks, got + c, limit, if writes == [] then [] else writes[1..])
  {
    var all, left := [c] + chunks, if writes == [] then [] else writes[1..];
    assert all[1..] == chunks;
    if limit.None? {
      forall i | 0 <= i < |chunks|
        ensures all[i + 1] == chunks[i] && (i < |left| ==> left[i] == writes[i + 1])
      {
      }
      if Fits(all, got, limit, writes) {
        forall i | 0 <= i < |chunks| && i < |left|
          ensures left[i]
        {
          assert writes[i + 1];
        }
      }
      if (writes == [] || writes[0]) && Fits(chunks, got + c, limit, left) {
        forall i | 0 <= i < |all| && i < |writes|
          ensures writes[i]
        {
          if i > 0 {
            assert left[i - 1];
          }
        }
      }
    }
  }

  /** The file system and whether the upload succeeded. */
  datatype Outcome = Outcome(entries: map<Path, Node>, ok: bool)

  /** The clean-up of a failed upload. */
  function Abandon(entries: map<Path, Node>, temp: Path, o: Ops): Outcome
  {
    Outcome(if o.remove then entries - {temp} else entries, false)
  }

  /** The end of an upload: time stamp, rename, answer. */
  function Publish(entries: map<Path, Node>, node: Node, path: Path, temp: Path, o: Ops): Outcome
  {
    if !o.times then Abandon(entries[temp := node.(mtime := 0)], temp, o)
    else if !o.rename then Abandon(entries[temp := node], temp, o)
    else
      var renamed := (entries - {temp})[path := node];
      if o.okay then Outcome(renamed, true) else Abandon(renamed, temp, o)
  }

  /** `send_file` after its directory was made. */
  function Upload(entries: map<Path, Node>, s: seq<byte>, path: Path, temp: Path, mode: nat, o: Ops): Outcome
  {
    if Kind(mode) != 0 && Kind(mode) != REGULAR && Kind(mode) != SYMLINK then Abandon(entries, temp, o)
    else if Kind(mode) == SYMLINK then
      match Collect(s, [], Some(MAX_LINK), o.writes)
      case Stuck(_) => Abandon(entries, temp, o)
      case Complete(data, mtime, _) =>
        var target := LinkTarget(data);
        if target == [] || 0 in target || !o.link || temp in entries then Abandon(entries, temp, o)
        else Publish(entries, Link(target, mtime), path, temp, o)
    else if !o.create || temp in entries then Abandon(entries, temp, o)
    else
      match Collect(s, [], None, o.writes)
      case Stuck(data) => Abandon(entries[temp := File(data, 0x180, 0)], temp, o)
      case Complete(data, mtime, _) =>
        if !o.chmod then Abandon(entries[temp := File(data, 0x180, 0)], temp, o)
        else if !o.sync then Abandon(entries[temp := File(data, mode % 0x200, 0)], temp, o)
        else Publish(entries, File(data, mode % 0x200, mtime), path, temp, o)
  }

  /** The node a stream describes for a mode, if it is a whole transfer that every write accepts. */
  ghost function Described(s: seq<byte>, mode: nat, o: Ops): Option<Node>
  {
    match Parse(s)
    case None => None
    case Some(p) =>
      var data := Concat(p.chunks);
      if Kind(mode) == SYMLINK then
        var target := LinkTarget(data);
        if Fits(p.chunks, [], Some(MAX_LINK), o.writes) && target != [] && 0 !in target && o.link then
          Some(Link(target, p.mtime))
        else None
      else if Kind(mode) == 0 || Kind(mode) == REGULAR then
        if o.create && Fits(p.chunks, [], None, o.writes) && o.chmod && o.sync then
          Some(File(data, mode % 0x200, p.mtime))
        else None
      else None
  }

  /** The target is as it was. */
  ghost predicate SamePath(a: map<Path, Node>, b: map<Path, Node>, p: Path)
  {
    (p in b <==> p in a) && (p in a ==> b[p] == a[p])
  }

  /** What an upload that was accepted, or not, leaves behind. */
  ghost predicate Leaves(entries: map<Path, Node>, r: Outcome, path: Path, temp: Path, accepted: Option<Node>, o: Ops)
  {
    && (if accepted.Some? then path in r.entries && r.entries[path] == accepted.value
        else SamePath(entries, r.entries, path))
    && (r.ok <==> accepted.Some? && o.okay)
    && (forall p | p != path && p != temp :: SamePath(entries, r.entries, p))
    && (temp !in entries && o.remove ==> temp !in r.entries)
  }

  lemma AbandonLeaves(entries: map<Path, Node>, node: Node, path: Path, temp: Path, o: Ops)
    requires temp != path
    ensures Leaves(entries, Abandon(entries, temp, o), path, temp, None, o)
    ensures Leaves(entries, Abandon(entries[temp := node], temp, o), path, temp, None, o)
  {
  }

  lemma PublishLeaves(entries: map<Path, Node>, node: Node, path: Path, temp: Path, o: Ops)
    requires temp != path
    ensures Leaves(entries, Publish(entries, node, path, temp, o), path, temp,
                   if o.times && o.rename then Some(node) else None, o)
  {
  }

  lemma UploadLeaves(entries: map<Path, Node>, s: seq<byte>, path: Path, temp: Path, mode: nat, o: Ops)
    requires temp != path
    ensures Leaves(entries, Upload(entries, s, path, temp, mode, o), path, temp,
                   if temp !in entries && o.times && o.rename then Described(s, mode, o) else None, o)
  {
    hide Leaves, Abandon, Publish, Parse, Collect, Concat, Fits, LinkTarget;
    var none := File([], 0, 0);
    AbandonLeaves(entries, none, path, temp, o);
    if Kind(mode) == SYMLINK {
      LinkCollected(s, o);
      match Collect(s, [], Some(MAX_LINK), o.writes)
      case Stuck(_) =>
      case Complete(data, mtime, _) => PublishLeaves(entries, Link(LinkTarget(data), mtime), path, temp, o);
    } else {
      FileCollected(s, o);
      match Collect(s, [], None, o.writes)
      case Stuck(data) => AbandonLeaves(entries, File(data, 0x180, 0), path, temp, o);
      case Complete(data, mtime, _) =>
        AbandonLeaves(entries, File(data, 0x180, 0), path, temp, o);
        AbandonLeaves(entries, File(data, mode % 0x200, 0), path, temp, o);
        PublishLeaves(entries, File(data, mode % 0x200, mtime), path, temp, o);
    }
  }

  lemma LinkCollected(s: seq<byte>, o: Ops)
    ensures match Collect(s, [], Some(MAX_LINK), o.writes)
            case Complete(data, mtime, _) =>
              && Parse(s).Some? && Fits(Parse(s).value.chunks, [], Some(MAX_LINK), o.writes)
              && data == Concat(Parse(s).value.chunks) && mtime == Parse(s).value.mtime
            case Stuck(_) => Parse(s).None? || !Fits(Parse(s).value.chunks, [], Some(MAX_LINK), o.writes)
  {
    hide Parse, Collect, Concat, Fits;
    CollectExactly(s, [], Some(MAX_LINK), o.writes);
    if Parse(s).Some? {
      assert [] + Concat(Parse(s).value.chunks) == Concat(Parse(s).value.chunks);
    }
  }

  lemma FileCollected(s: seq<byte>, o: Ops)
    ensures match Collect(s, [], None, o.writes)
            case Complete(data, mtime, _) =>
              && Parse(s).Some? && Fits(Parse(s).value.chunks, [], None, o.writes)
              && data == Concat(Parse(s).value.chunks) && mtime == Parse(s).value.mtime
            case Stuck(_) => Parse(s).None? || !Fits(Parse(s).value.chunks, [], None, o.writes)
  {
    hide Parse, Collect, Concat, Fits;
    CollectExactly(s, [], None, o.writes);
    if Parse(s).Some? {
      assert [] + Concat(Parse(s).value.chunks) == Concat(Parse(s).value.chunks);
    }
  }

  /** The target changes exactly when the whole DATA ... DONE sequence was accepted and the rename worked; it then
      holds exactly the payloads in order. Otherwise it is as it was, and whatever happens no other path changes but
      the temporary one. The upload succeeds exactly when the target changed and the answer could be sent. */
  lemma TargetChangesExactlyWhen(entries: map<Path, Node>, s: seq<byte>, path: Path, temp: Path, mode: nat, o: Ops)
    requires temp != path
    ensures var r := Upload(entries, s, path, temp, mode, o);
            var accepted := Described(s, mode, o).Some? && temp !in entries && o.times && o.rename;
            && (accepted ==> path in r.entries && r.entries[path] == Described(s, mode, o).value)
            && (!accepted ==> SamePath(entries, r.entries, path))
            && (r.ok <==> accepted && o.okay)
            && (forall p | p != path && p != temp :: SamePath(entries, r.entries, p))
            && (temp !in entries && o.remove ==> temp !in r.entries)
  {
    hide Upload, Described;
    UploadLeaves(entries, s, path, temp, mode, o);
  }

  /** A link is made exactly of data that is a non-empty name without zeros, or such a name and one zero, of at most
      4096 octets in all; with nothing else in the way the target is then a link to that name. */
  lemma LinkIsMadeExactlyWhen(entries: map<Path, Node>, chunks: seq<seq<byte>>, mtime: uint32, rest: seq<byte>,
                              path: Path, temp: Path, mode: nat, o: Ops, name: seq<byte>)
    requires Bounded(chunks) && temp != path && temp !in entries && mode / 4096 % 16 == 10
    requires o.link && o.times && o.rename && o.okay
    ensures var r := Upload(entries, Frames(chunks) + DoneFrame(mtime) + rest, path, temp, mode, o);
            var data := Concat(chunks);
            (r.ok && path in r.entries && r.entries[path] == Link(name, mtime)) <==>
            |data| <= 4096 && name != [] && 0 !in name && (data == name || data == name + [0])
  {
    hide Parse, Upload, Frames, DoneFrame, Concat;
    FramesParse(chunks, mtime, rest);
    TargetChangesExactlyWhen(entries, Frames(chunks) + DoneFrame(mtime) + rest, path, temp, mode, o);
    NoChunks();
    if name != [] && 0 !in name {
      TrailingZero(Concat(chunks), name);
    }
  }

  lemma NoChunks()
    ensures Concat([]) == []
  {
  }

  lemma TrailingZero(data: seq<byte>, name: seq<byte>)
    requires name != [] && 0 !in name
    ensures LinkTarget(data) == name <==> data == name || data == name + [0]
  {
    assert (name + [0])[..|name|] == name;
    assert name[|name| - 1] in name;
    if data != [] {
      assert data == data[..|data| - 1] + [data[|data| - 1]];
    }
  }

  /** Everything else that is uploaded is a regular file with the data, the nine permission bits and the time stamp;
      a file type that is neither absent nor regular is refused. */
  lemma FileIsMadeExactlyWhen(entries: map<Path, Node>, chunks: seq<seq<byte>>, mtime: uint32, rest: seq<byte>,
                              path: Path, temp: Path, mode: nat, o: Ops, node: Node)
    requires Bounded(chunks) && temp != path && temp !in entries && mode / 4096 % 16 != 10
    requires o.create && o.chmod && o.sync && o.times && o.rename && o.okay
    requires forall i | 0 <= i < |o.writes| :: o.writes[i]
    ensures var r := Upload(entries, Frames(chunks) + DoneFrame(mtime) + rest, path, temp, mode, o);
            (r.ok && path in r.entries && r.entries[path] == node) <==>
            (mode / 4096 % 16 == 0 || mode / 4096 % 16 == 8) && node == File(Concat(chunks), mode % 512, mtime)
  {
    hide Parse, Upload, Frames, DoneFrame, Concat;
    FramesParse(chunks, mtime, rest);
    TargetChangesExactlyWhen(entries, Frames(chunks) + DoneFrame(mtime) + rest, path, temp, mode, o);
  }

  /** A temporary file that could not be removed is readable by its owner alone until its mode was set. */
  lemma LeftoverIsPrivate(entries: map<Path, Node>, s: seq<byte>, path: Path, temp: Path, mode: nat, o: Ops)
    requires temp != path && temp !in entries && !o.chmod
    ensures var r := Upload(entries, s, path, temp, mode, o);
            temp in r.entries && r.entries[temp].File? ==> r.entries[temp].mode == 384
  {
    hide Collect;
  }

  /** Frames and their end, octet by octet, and the answer. */
  lemma FramesOnTheWire(chunk: seq<byte>, mtime: uint32)
    requires |chunk| <= 65536
    ensures DataFrame(chunk) == ['D' as int, 'A' as int, 'T' as int, 'A' as int]
                                + [|chunk| % 256, |chunk| / 256 % 256, |chunk| / 65536, 0] + chunk
    ensures DoneFrame(mtime) == ['D' as int, 'O' as int, 'N' as int, 'E' as int]
                                + [mtime % 256, mtime / 256 % 256, mtime / 65536 % 256, mtime / 16777216]
  {
    assert Le32(DATA) == ['D' as int, 'A' as int, 'T' as int, 'A' as int];
    assert Le32(DONE) == ['D' as int, 'O' as int, 'N' as int, 'E' as int];
  }

  /** A transfer cut short anywhere leaves the target alone. */
  lemma CutTransferLeavesTarget(entries: map<Path, Node>, chunks: seq<seq<byte>>, mtime: uint32, n: nat, path: Path,
                                temp: Path, mode: nat, o: Ops)
    requires temp != path && Bounded(chunks) && n < |Frames(chunks) + DoneFrame(mtime)|
    ensures var r := Upload(entries, (Frames(chunks) + DoneFrame(mtime))[..n], path, temp, mode, o);
            !r.ok && SamePath(entries, r.entries, path)
  {
    hide Parse, Upload, Frames, DoneFrame;
    CutFramesNeverParse(chunks, mtime, n);
    TargetChangesExactlyWhen(entries, (Frames(chunks) + DoneFrame(mtime))[..n], path, temp, mode, o);
  }

  /** A file downloaded in any pieces and uploaded again is the same file, if no operation fails. */
  lemma RoundTrip(bytes: seq<byte>, script: seq<Read>, rest: seq<byte>, entries: map<Path, Node>, path: Path,
                  temp: Path, mode: nat, o: Ops)
    requires Pieces(bytes, script).Some? && (Kind(mode) == 0 || Kind(mode) == REGULAR)
    requires temp != path && temp !in entries
    requires o.create && o.chmod && o.sync && o.times && o.rename && o.okay
    requires forall i | 0 <= i < |o.writes| :: o.writes[i]
    ensures var s := Frames(Pieces(bytes, script).value) + DoneFrame(0) + rest;
            var r := Upload(entries, s, path, temp, mode, o);
            r.ok && path in r.entries && r.entries[path] == File(bytes, mode % 0x200, 0)
  {
    hide Parse, Upload, Frames, DoneFrame, Pieces, Concat;
    var chunks := Pieces(bytes, script).value;
    PiecesAreTheFile(bytes, script);
    FramesParse(chunks, 0, rest);
    TargetChangesExactlyWhen(entries, Frames(chunks) + DoneFrame(0) + rest, path, temp, mode, o);
  }

  /** The part of the file system the service sees. */
  class Directory {
    var entries: map<Path, Node>

    constructor (entries: map<Path, Node>)
      ensures this.entries == entries
    {
      this.entries := entries;
    }

    /** `send_file`. The temporary file grows frame by frame. */
    method Send(s: seq<byte>, path: Path, temp: Path, mode: nat, o: Ops) returns (ok: bool)
      modifies this
      ensures if !o.mkdir then entries == old(entries) && !ok
              else Outcome(entries, ok) == Upload(old(entries), s, path, temp, mode, o)
    {
      hide Collect;
      if !o.mkdir {
        return false;
      }
      ok := Fill(s, path, temp, mode, o);
      if !ok && o.remove {
        entries := entries - {temp};
      }
    }

    /** Everything between making the directory and the clean-up. */
    method Fill(s: seq<byte>, path: Path, temp: Path, mode: nat, o: Ops) returns (ok: bool)
      modifies this
      ensures (if ok then Outcome(entries, true) else Abandon(entries, temp, o))
              == Upload(old(entries), s, path, temp, mode, o)
    {
      hide Collect, Publish, Abandon, LinkTarget;
      var symlink := Kind(mode) == SYMLINK;
      if !(Kind(mode) == 0 || Kind(mode) == REGULAR || symlink) {
        return false;
      }
      if !symlink {
        if !o.create || temp in entries {
          return false;
        }
        entries := entries[temp := File([], 0x180, 0)];
      }
      var p := ReadFrames(s, temp, symlink, o.writes);
      assert !symlink ==> entries == old(entries)[temp := File(p.data, 0x180, 0)];
      if p.Stuck? {
        return false;
      }
      if symlink {
        ok := FinishLink(p.data, p.mtime, path, temp, o);
      } else {
        FinishAnyway(old(entries), entries, p, path, temp, mode, o);
        ok := FinishFile(p.data, p.mtime, path, temp, mode, o);
      }
    }

    /** The loop over the frames. */
    method ReadFrames(s: seq<byte>, temp: Path, symlink: bool, writes: seq<bool>) returns (p: Progress)
      requires !symlink ==> temp in entries && entries[temp] == File([], 0x180, 0)
      modifies this
      ensures p == Collect(s, [], if symlink then Some(MAX_LINK) else None, writes)
      ensures entries == if symlink then old(entries) else old(entries)[temp := File(p.data, 0x180, 0)]
    {
      hide Collect, FromLe32;
      var left, script, target, limit := s, writes, [], if symlink then Some(MAX_LINK) else None;
      ghost var got: seq<byte> := [];
      while true
        invariant symlink ==> target == got && entries == old(entries)
        invariant !symlink ==> entries == old(entries)[temp := File(got, 0x180, 0)]
        invariant Collect(s, [], limit, writes) == Collect(left, got, limit, script)
        decreases |left|
      {
        CollectNext(left, got, limit, script);
        var have := if symlink then target else entries[temp].data;
        if |left| < 8 {
          return Stuck(have);
        }
        var kind, len := FromLe32(left[..4]), FromLe32(left[4..8]);
        left := left[8..];
        if kind == DONE {
          return Complete(have, len, left);
        }
        if !(kind == DATA && len <= MAX) || len > |left| {
          return Stuck(have);
        }
        var buf := left[..len];
        left := left[len..];
        if !symlink {
          if script != [] && !script[0] {
            return Stuck(have);
          }
          entries := entries[temp := File(have + buf, 0x180, 0)];
        } else {
          if |target| + |buf| > MAX_LINK {
            return Stuck(have);
          }
          target := target + buf;
        }
        script := if script == [] then [] else script[1..];
        got := got + buf;
      }
    }

    /** After the frames of a file: permissions and contents. */
    method FinishFile(data: seq<byte>, mtime: uint32, path: Path, temp: Path, mode: nat, o: Ops) returns (ok: bool)
      requires temp in entries && entries[temp] == File(data, 0x180, 0)
      modifies this
      ensures (if ok then Outcome(entries, true) else Abandon(entries, temp, o)) ==
              if !o.chmod then Abandon(old(entries), temp, o)
              else if !o.sync then Abandon(old(entries)[temp := File(data, mode % 0x200, 0)], temp, o)
              else Publish(old(entries), File(data, mode % 0x200, mtime), path, temp, o)
    {
      hide Publish, Abandon;
      if !o.chmod {
        return false;
      }
      entries := entries[temp := File(data, mode % 0x200, 0)];
      if !o.sync {
        return false;
      }
      PublishAnyway(old(entries), File(data, mode % 0x200, mtime), path, temp, o);
      ok := Place(File(data, mode % 0x200, mtime), path, temp, o);
    }

    /** After the frames of a link: the link itself. */
    method FinishLink(data: seq<byte>, mtime: uint32, path: Path, temp: Path, o: Ops) returns (ok: bool)
      modifies this
      ensures var target := LinkTarget(data);
              (if ok then Outcome(entries, true) else Abandon(entries, temp, o)) ==
              if target == [] || 0 in target || !o.link || temp in old(entries) then Abandon(old(entries), temp, o)
              else Publish(old(entries), Link(target, mtime), path, temp, o)
    {
      hide Publish, Abandon;
      var target := data;
      if target != [] && target[|target| - 1] == 0 {
        target := target[..|target| - 1];
      }
      if target == [] || 0 in target || !o.link || temp in entries {
        return false;
      }
      entries := entries[temp := Link(target, 0)];
      PublishAnyway(old(entries), Link(target, mtime), path, temp, o);
      ok := Place(Link(target, mtime), path, temp, o);
    }

    /** Time stamp, rename and answer. */
    method Place(node: Node, path: Path, temp: Path, o: Ops) returns (ok: bool)
      requires temp in entries && entries[temp] == node.(mtime := 0)
      modifies this
      ensures (if ok then Outcome(entries, true) else Abandon(entries, temp, o))
              == Publish(old(entries), node, path, temp, o)
    {
      assert old(entries)[temp := node.(mtime := 0)] == old(entries);
      if !o.times {
        return false;
      }
      entries := entries[temp := node];
      if !o.rename {
        return false;
      }
      assert entries - {temp} == old(entries) - {temp};
      entries := (entries - {temp})[path := node];
      ok := o.okay;
    }
  }

  /** The file that grew under the temporary name is the one the end of the upload works on. */
  lemma FinishAnyway(entries: map<Path, Node>, grown: map<Path, Node>, p: Progress, path: Path, temp: Path, mode: nat,
                     o: Ops)
    requires p.Complete? && grown == entries[temp := File(p.data, 0x180, 0)]
    ensures var node := File(p.data, mode % 0x200, p.mtime);
            && Publish(grown, node, path, temp, o) == Publish(entries, node, path, temp, o)
            && grown[temp := File(p.data, mode % 0x200, 0)] == entries[temp := File(p.data, mode % 0x200, 0)]
  {
    var node := File(p.data, mode % 0x200, p.mtime);
    assert grown[temp := node] == entries[temp := node] && grown - {temp} == entries - {temp};
    assert grown[temp := File(p.data, mode % 0x200, 0)] == entries[temp := File(p.data, mode % 0x200, 0)];
  }

  /** What stands under the temporary name does not matter. */
  lemma PublishAnyway(entries: map<Path, Node>, node: Node, path: Path, temp: Path, o: Ops)
    ensures Publish(entries[temp := node.(mtime := 0)], node, path, temp, o) == Publish(entries, node, path, temp, o)
  {
    var e := entries[temp := node.(mtime := 0)];
    assert e[temp := node] == entries[temp := node] && e[temp := node.(mtime := 0)] == e;
    assert e - {temp} == entries - {temp};
  }

  lemma CollectNext(s: seq<byte>, got: seq<byte>, limit: Option<nat>, writes: seq<bool>)
    ensures Collect(s, got, limit, writes) ==
      if |s| < 8 then Stuck(got)
      else
        var kind, len := FromLe32(s[..4]), FromLe32(s[4..8]);
        if kind == DONE then Complete(got, len, s[8..])
        else if kind != DATA || len > MAX || 8 + len > |s| then Stuck(got)
        else if limit.None? && writes != [] && !writes[0] then Stuck(got)
        else if limit.Some? && |got| + len > limit.value then Stuck(got)
        else Collect(s[8..][len..], got + s[8..][..len], limit, if writes == [] then [] else writes[1..])
  {
    if |s| >= 8 {
      var len := FromLe32(s[4..8]);
      if 8 + len <= |s| {
        assert s[8..][len..] == s[8 + len..] && s[8..][..len] == s[8..8 + len];
      }
    }
  }
}
