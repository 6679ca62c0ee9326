/** The mDNS name codec and message builder. Names are kept as their UTF-8 bytes. */
module Mdns {
  import opened Wrappers
  import opened Bytes

  const DOT: byte := 46
  const MAX_STEPS := 64
  const MAX_LABEL := 63
  const MAX_TOTAL := 255

  const PTR: uint16 := 12
  const SRV: uint16 := 33
  const TXT: uint16 := 16
  const A: uint16 := 1

  // `_adb-tls-connect`, `_adb-tls-pairing`, `_tcp` and `local`
  const L_CONNECT: seq<byte> := [95, 97, 100, 98, 45, 116, 108, 115, 45, 99, 111, 110, 110, 101, 99, 116]
  const L_PAIRING: seq<byte> := [95, 97, 100, 98, 45, 116, 108, 115, 45, 112, 97, 105, 114, 105, 110, 103]
  const L_TCP: seq<byte> := [95, 116, 99, 112]
  const L_LOCAL: seq<byte> := [108, 111, 99, 97, 108]

  type Label = seq<byte>

  // ---------------------------------------------------------------------------------------------
  // Text

  predicate Continuation(b: byte)
  {
    0x80 <= b <= 0xBF
  }

  /** The byte strings `std::str::from_utf8` accepts: section 4 of RFC 3629. */
  predicate ValidUtf8(s: seq<byte>)
  {
    if s == [] then true
    else if s[0] < 0x80 then ValidUtf8(s[1..])
    else if 0xC2 <= s[0] <= 0xDF then |s| >= 2 && Continuation(s[1]) && ValidUtf8(s[2..])
    else if 0xE0 <= s[0] <= 0xEF then
      && |s| >= 3 && Continuation(s[1]) && Continuation(s[2])
      && (s[0] == 0xE0 ==> s[1] >= 0xA0) && (s[0] == 0xED ==> s[1] <= 0x9F)
      && ValidUtf8(s[3..])
    else
      && 0xF0 <= s[0] <= 0xF4
      && |s| >= 4 && Continuation(s[1]) && Continuation(s[2]) && Continuation(s[3])
      && (s[0] == 0xF0 ==> s[1] >= 0x90) && (s[0] == 0xF4 ==> s[1] <= 0x8F)
      && ValidUtf8(s[4..])
  }

  /** `to_ascii_lowercase`. */
  function Lower(b: byte): byte
  {
    if 65 <= b <= 90 then b + 32 else b
  }

  function LowerAll(s: seq<byte>): (r: seq<byte>)
    ensures |r| == |s| && forall i | 0 <= i < |s| :: r[i] == Lower(s[i])
  {
    seq(|s|, i requires 0 <= i < |s| => Lower(s[i]))
  }

  function LowerLabels(ls: seq<Label>): (r: seq<Label>)
    ensures |r| == |ls|
  {
    if ls == [] then [] else [LowerAll(ls[0])] + LowerLabels(ls[1..])
  }

  /** `labels.join(".")`. */
  function Join(ls: seq<Label>): seq<byte>
  {
    if ls == [] then [] else if |ls| == 1 then ls[0] else ls[0] + [DOT] + Join(ls[1..])
  }

  /** `n.split('.')`; there is always at least one piece. */
  function Split(n: seq<byte>): (ls: seq<Label>)
    ensures ls != []
  {
    if n == [] then [[]]
    else
      var rest := Split(n[1..]);
      if n[0] == DOT then [[]] + rest else [[n[0]] + rest[0]] + rest[1..]
  }

  lemma {:induction false} JoinSplit(n: seq<byte>)
    ensures Join(Split(n)) == n
    ensures forall i | 0 <= i < |Split(n)| :: DOT !in Split(n)[i]
  {
    if n != [] {
      JoinSplit(n[1..]);
      var rest := Split(n[1..]);
      var all := Split(n);
      assert n == [n[0]] + n[1..];
      if n[0] == DOT {
        assert all[1..] == rest;
      } else {
        assert all[1..] == rest[1..];
        if |rest| > 1 {
          assert Join(all) == ([n[0]] + rest[0]) + [DOT] + Join(rest[1..]);
          assert Join(all) == [n[0]] + (rest[0] + [DOT] + Join(rest[1..]));
        }
      }
    }
  }

  lemma {:induction false} SplitLabel(l: Label)
    requires DOT !in l
    ensures Split(l) == [l]
  {
    if l != [] {
      SplitLabel(l[1..]);
      assert [l[0]] + l[1..] == l;
    }
  }

  lemma {:induction false} SplitPrepend(l: Label, n: seq<byte>)
    requires DOT !in l
    ensures Split(l + [DOT] + n) == [l] + Split(n)
  {
    var s := l + [DOT] + n;
    if l == [] {
      assert s[1..] == n;
    } else {
      assert s[1..] == l[1..] + [DOT] + n;
      SplitPrepend(l[1..], n);
      assert [l[0]] + l[1..] == l;
    }
  }

  /** Labels without dots are what their joined name splits into. */
  lemma {:induction false} SplitJoin(ls: seq<Label>)
    requires ls != [] && forall i | 0 <= i < |ls| :: DOT !in ls[i]
    ensures Split(Join(ls)) == ls
  {
    if |ls| == 1 {
      SplitLabel(ls[0]);
    } else {
      SplitJoin(ls[1..]);
      SplitPrepend(ls[0], Join(ls[1..]));
      assert [ls[0]] + ls[1..] == ls;
    }
  }

  lemma {:induction false} LowerJoin(ls: seq<Label>)
    ensures LowerAll(Join(ls)) == Join(LowerLabels(ls))
  {
    if |ls| == 1 {
      assert LowerLabels(ls) == [LowerAll(ls[0])];
    } else if |ls| > 1 {
      LowerJoin(ls[1..]);
      var a, b := ls[0], Join(ls[1..]);
      assert LowerAll(a + [DOT] + b) == LowerAll(a) + [DOT] + LowerAll(b);
      assert LowerLabels(ls)[1..] == LowerLabels(ls[1..]);
    }
  }

  // ---------------------------------------------------------------------------------------------
  // Reading names

  /** Bytes a list of labels takes, length octets included. */
  function Total(ls: seq<Label>): nat
  {
    if ls == [] then 0 else Total(ls[..|ls| - 1]) + |ls[|ls| - 1]| + 1
  }

  datatype NameEnd = NameEnd(labels: seq<Label>, end: nat)

  /** The name at `p`, by recursion on its octets: a zero ends it, a pointer continues it elsewhere and ends it
      here, a length octet contributes one label. At most `fuel` octets are looked at (section 4.1.4 of
      RFC 1035). */
  function NameAt(data: seq<byte>, p: nat, fuel: nat): Option<NameEnd>
    decreases fuel
  {
    if fuel == 0 || p >= |data| then None
    else
      var len := data[p] as int;
      if len == 0 then Some(NameEnd([], p + 1))
      else if len >= 0xC0 then
        if p + 1 >= |data| then None
        else
          match NameAt(data, (len - 0xC0) * 0x100 + data[p + 1] as int, fuel - 1)
          case None => None
          case Some(n) => Some(NameEnd(n.labels, p + 2))
      else if len > MAX_LABEL || p + 1 + len > |data| || !ValidUtf8(data[p + 1..p + 1 + len]) then None
      else
        match NameAt(data, p + 1 + len, fuel - 1)
        case None => None
        case Some(n) => Some(NameEnd([LowerAll(data[p + 1..p + 1 + len])] + n.labels, n.end))
  }

  /** What `query_name` decides: the joined name and the offset after it. */
  function Resolve(data: seq<byte>, offset: nat): Option<(seq<byte>, nat)>
  {
    match NameAt(data, offset, MAX_STEPS)
    case None => None
    case Some(n) => if Total(n.labels) <= MAX_TOTAL then Some((Join(n.labels), n.end)) else None
  }

  lemma {:induction false} TotalAppend(a: seq<Label>, b: seq<Label>)
    ensures Total(a + b) == Total(a) + Total(b)
  {
    if b == [] {
      assert a + b == a;
    } else {
      assert (a + b)[..|a + b| - 1] == a + b[..|b| - 1];
      TotalAppend(a, b[..|b| - 1]);
    }
  }

  /** What is left of a name after some of it was read: the labels so far and, once a pointer was followed, the
      offset to return to. */
  ghost function Resume(labels: seq<Label>, next: Option<nat>, rest: Option<NameEnd>): Option<NameEnd>
  {
    match rest
    case None => None
    case Some(n) => Some(NameEnd(labels + n.labels, if next.Some? then next.value else n.end))
  }

  lemma {:induction false} EndMovesForward(data: seq<byte>, p: nat, fuel: nat)
    ensures NameAt(data, p, fuel).Some? ==> p < NameAt(data, p, fuel).value.end <= |data|
    decreases fuel
  {
    if fuel != 0 && p < |data| {
      var len := data[p] as int;
      if 0 < len <= MAX_LABEL && p + 1 + len <= |data| {
        EndMovesForward(data, p + 1 + len, fuel - 1);
      }
    }
  }

  /** The reading of the name at `offset` has come to `p`. */
  ghost predicate Reading(data: seq<byte>, offset: nat, labels: seq<Label>, next: Option<nat>, p: nat, fuel: nat)
  {
    NameAt(data, offset, MAX_STEPS) == Resume(labels, next, NameAt(data, p, fuel))
  }

  lemma ReadingStarts(data: seq<byte>, offset: nat)
    ensures Reading(data, offset, [], None, offset, MAX_STEPS)
  {
    var n := NameAt(data, offset, MAX_STEPS);
    if n.Some? {
      assert [] + n.value.labels == n.value.labels;
    }
  }

  /** A length octet followed by a readable label. */
  ghost predicate LabelAt(data: seq<byte>, p: nat)
  {
    && p < |data| && 0 < data[p] as int <= MAX_LABEL && p + 1 + data[p] as int <= |data|
    && ValidUtf8(data[p + 1..p + 1 + data[p] as int])
  }

  lemma NameAtLabel(data: seq<byte>, p: nat, fuel: nat)
    requires fuel != 0 && LabelAt(data, p)
    ensures var len := data[p] as int;
            var rest := NameAt(data, p + 1 + len, fuel - 1);
            NameAt(data, p, fuel) ==
            if rest.None? then None
            else Some(NameEnd([LowerAll(data[p + 1..p + 1 + len])] + rest.value.labels, rest.value.end))
  {
    hide ValidUtf8, LowerAll;
  }

  lemma NameAtPointer(data: seq<byte>, p: nat, fuel: nat)
    requires fuel != 0 && p + 1 < |data| && data[p] >= 0xC0
    ensures var rest := NameAt(data, (data[p] as int - 0xC0) * 0x100 + data[p + 1] as int, fuel - 1);
            NameAt(data, p, fuel) == if rest.None? then None else Some(NameEnd(rest.value.labels, p + 2))
  {
    hide ValidUtf8, LowerAll;
  }

  lemma NameAtZero(data: seq<byte>, p: nat, fuel: nat)
    requires fuel != 0 && p < |data| && data[p] == 0
    ensures NameAt(data, p, fuel) == Some(NameEnd([], p + 1))
  {
  }

  lemma NameAtFails(data: seq<byte>, p: nat, fuel: nat)
    requires || fuel == 0 || p >= |data|
             || (data[p] >= 0xC0 && p + 1 >= |data|)
             || (0 < data[p] < 0xC0 && !LabelAt(data, p))
    ensures NameAt(data, p, fuel) == None
  {
    hide LowerAll;
  }

  /** A reading that cannot go on has found no name. */
  lemma ReadingFails(data: seq<byte>, offset: nat, labels: seq<Label>, next: Option<nat>, p: nat, fuel: nat)
    requires Reading(data, offset, labels, next, p, fuel)
    requires || fuel == 0 || p >= |data|
             || (data[p] >= 0xC0 && p + 1 >= |data|)
             || (0 < data[p] < 0xC0 && (!LabelAt(data, p) || Total(labels) + data[p] as int + 1 > MAX_TOTAL))
    ensures Resolve(data, offset) == None
  {
    hide Join, ValidUtf8, NameAt, LowerAll, Total;
    if fuel != 0 && LabelAt(data, p) {
      NameAtLabel(data, p, fuel);
      var l := LowerAll(data[p + 1..p + 1 + data[p] as int]);
      var rest := NameAt(data, p + 1 + data[p] as int, fuel - 1);
      if rest.Some? {
        TotalAppend([l], rest.value.labels);
        TotalAppend(labels, [l] + rest.value.labels);
        OneLabel(l);
      }
    } else {
      NameAtFails(data, p, fuel);
    }
  }

  lemma OneLabel(l: Label)
    ensures Total([l]) == |l| + 1
  {
    assert [l][..0] == [];
  }

  lemma ReadingEnds(data: seq<byte>, offset: nat, labels: seq<Label>, next: Option<nat>, p: nat, fuel: nat)
    requires Reading(data, offset, labels, next, p, fuel)
    requires fuel != 0 && p < |data| && data[p] == 0 && Total(labels) <= MAX_TOTAL
    ensures Resolve(data, offset) == Some((Join(labels), if next.Some? then next.value else p + 1))
  {
    assert labels + [] == labels;
    NameAtZero(data, p, fuel);
    hide Join, NameAt;
  }

  lemma ReadingJumps(data: seq<byte>, offset: nat, labels: seq<Label>, next: Option<nat>, p: nat, fuel: nat)
    requires Reading(data, offset, labels, next, p, fuel)
    requires fuel != 0 && p + 1 < |data| && data[p] >= 0xC0
    ensures Reading(data, offset, labels, if next.Some? then next else Some(p + 2),
                    (data[p] as int - 0xC0) * 0x100 + data[p + 1] as int, fuel - 1)
  {
    NameAtPointer(data, p, fuel);
    hide NameAt;
  }

  lemma ReadingAddsLabel(data: seq<byte>, offset: nat, labels: seq<Label>, next: Option<nat>, p: nat, fuel: nat)
    requires Reading(data, offset, labels, next, p, fuel)
    requires fuel != 0 && LabelAt(data, p)
    ensures var l := LowerAll(data[p + 1..p + 1 + data[p] as int]);
            && Reading(data, offset, labels + [l], next, p + 1 + data[p] as int, fuel - 1)
            && Total(labels + [l]) == Total(labels) + data[p] as int + 1
  {
    hide ValidUtf8, NameAt, LowerAll, Total;
    NameAtLabel(data, p, fuel);
    var l := LowerAll(data[p + 1..p + 1 + data[p] as int]);
    var rest := NameAt(data, p + 1 + data[p] as int, fuel - 1);
    TotalAppend(labels, [l]);
    OneLabel(l);
    if rest.Some? {
      assert (labels + [l]) + rest.value.labels == labels + ([l] + rest.value.labels);
    }
  }

  /** `query_name`: the loop agrees with the recursive reading on every byte string, pointer cycles included.
      The offset moves strictly forward within the buffer, or not at all when there is no name. */
  method QueryName(data: seq<byte>, offset: nat) returns (name: Option<seq<byte>>, after: nat)
    ensures match Resolve(data, offset)
            case Some(r) => name == Some(r.0) && after == r.1
            case None => name == None && after == offset
    ensures name.Some? ==> offset < after <= |data|
  {
    hide NameAt, Reading, Total, ValidUtf8, Join;
    EndMovesForward(data, offset, MAX_STEPS);
    ReadingStarts(data, offset);
    var p: nat, steps: nat, total: nat := offset, 0, 0;
    var next: Option<nat>, labels: seq<Label> := None, [];
    assert total == Total(labels) by { NoLabels(); }
    while true
      invariant 0 <= steps <= MAX_STEPS
      invariant Reading(data, offset, labels, next, p, MAX_STEPS - steps)
      invariant total == Total(labels) <= MAX_TOTAL
      decreases MAX_STEPS - steps
    {
      ghost var at, fuel := p, MAX_STEPS - steps;
      steps := steps + 1;
      if !(steps <= MAX_STEPS && p < |data|) {
        ReadingFails(data, offset, labels, next, at, fuel);
        return None, offset;
      }
      var len := data[p] as int;
      p := p + 1;
      if len == 0 {
        ReadingEnds(data, offset, labels, next, at, fuel);
        break;
      }
      if len >= 0xC0 {
        if p >= |data| {
          ReadingFails(data, offset, labels, next, at, fuel);
          return None, offset;
        }
        ReadingJumps(data, offset, labels, next, at, fuel);
        if next.None? {
          next := Some(p + 1);
        }
        p := (len - 0xC0) * 0x100 + data[p] as int;
        continue;
      }
      if !(len <= MAX_LABEL && p + len <= |data|) || total + len + 1 > MAX_TOTAL || !ValidUtf8(data[p..p + len]) {
        ReadingFails(data, offset, labels, next, at, fuel);
        return None, offset;
      }
      ReadingAddsLabel(data, offset, labels, next, at, fuel);
      total := total + len + 1;
      labels := labels + [LowerAll(data[p..p + len])];
      p := p + len;
    }
    name, after := Some(Join(labels)), if next.Some? then next.value else p;
  }

  lemma NoLabels()
    ensures Total([]) == 0
  {
  }

  // ---------------------------------------------------------------------------------------------
  // Writing names

  /** `name`: each label with its length as one octet, then a zero. */
  function EncodeLabels(ls: seq<Label>): seq<byte>
  {
    if ls == [] then [0] else [Octet(|ls[0]|)] + ls[0] + EncodeLabels(ls[1..])
  }

  function EncodeName(n: seq<byte>): seq<byte>
  {
    EncodeLabels(Split(n))
  }

  method Name(out: seq<byte>, n: seq<byte>) returns (r: seq<byte>)
    ensures r == out + EncodeName(n)
  {
    var ls := Split(n);
    r := out;
    for i := 0 to |ls|
      invariant r + EncodeLabels(ls[i..]) == out + EncodeLabels(ls)
    {
      assert ls[i..][1..] == ls[i + 1..];
      var tail := EncodeLabels(ls[i + 1..]);
      assert r + ([Octet(|ls[i]|)] + ls[i] + tail) == (r + [Octet(|ls[i]|)] + ls[i]) + tail;
      r := r + [Octet(|ls[i]|)] + ls[i];
    }
    r := r + [0];
  }

  /** Names the codec carries: 1 to 63 octets a label, at most 63 labels and 255 octets with the lengths. */
  ghost predicate ValidLabels(ls: seq<Label>)
  {
    && |ls| < MAX_STEPS && Total(ls) <= MAX_TOTAL
    && forall i | 0 <= i < |ls| :: 1 <= |ls[i]| <= MAX_LABEL && ValidUtf8(ls[i])
  }

  ghost predicate ValidName(n: seq<byte>)
  {
    ValidLabels(Split(n))
  }

  /** Encoded labels are read back where they stand, lower-cased, whatever surrounds them. */
  lemma {:induction false} LabelsReadBack(before: seq<byte>, ls: seq<Label>, after: seq<byte>, fuel: nat)
    requires |ls| < fuel
    requires forall i | 0 <= i < |ls| :: 1 <= |ls[i]| <= MAX_LABEL && ValidUtf8(ls[i])
    ensures NameAt(before + EncodeLabels(ls) + after, |before|, fuel)
         == Some(NameEnd(LowerLabels(ls), |before| + |EncodeLabels(ls)|))
    decreases |ls|
  {
    hide NameAt, ValidUtf8, LowerAll, Octet;
    if ls == [] {
      NameAtZero(before + [0] + after, |before|, fuel);
    } else {
      LabelsReadBack(before + [Octet(|ls[0]|)] + ls[0], ls[1..], after, fuel - 1);
      OneMoreLabel(before, ls[0], EncodeLabels(ls[1..]), after, fuel, LowerLabels(ls[1..]));
    }
  }

  lemma OneMoreLabel(before: seq<byte>, l: Label, rest: seq<byte>, after: seq<byte>, fuel: nat, lower: seq<Label>)
    requires 1 <= |l| <= MAX_LABEL && ValidUtf8(l) && fuel != 0
    requires var b := before + [Octet(|l|)] + l;
             NameAt(b + rest + after, |b|, fuel - 1) == Some(NameEnd(lower, |b| + |rest|))
    ensures var e := [Octet(|l|)] + l + rest;
            NameAt(before + e + after, |before|, fuel) == Some(NameEnd([LowerAll(l)] + lower, |before| + |e|))
  {
    hide NameAt, ValidUtf8, LowerAll, Octet;
    LabelReadsBack(before, l, rest, after, fuel);
  }

  lemma LabelReadsBack(before: seq<byte>, l: Label, rest: seq<byte>, after: seq<byte>, fuel: nat)
    requires 1 <= |l| <= MAX_LABEL && ValidUtf8(l) && fuel != 0
    ensures var n := NameAt((before + [Octet(|l|)] + l) + rest + after, |before| + 1 + |l|, fuel - 1);
            NameAt(before + ([Octet(|l|)] + l + rest) + after, |before|, fuel) ==
            if n.None? then None else Some(NameEnd([LowerAll(l)] + n.value.labels, n.value.end))
  {
    hide ValidUtf8, NameAt, LowerAll, Octet;
    SmallOctet(|l|);
    LabelLayout(before, Octet(|l|), l, rest, after);
    NameAtLabel(before + ([Octet(|l|)] + l + rest) + after, |before|, fuel);
  }

  lemma SmallOctet(n: nat)
    requires n < 0x100
    ensures Octet(n) == n
  {
  }

  lemma LabelLayout(before: seq<byte>, len: byte, l: Label, rest: seq<byte>, after: seq<byte>)
    requires len as int == |l|
    ensures var data := before + ([len] + l + rest) + after;
            && data == (before + [len] + l) + rest + after
            && |before| < |data| && data[|before|] == len
            && |before| + 1 + |l| <= |data| && data[|before| + 1..|before| + 1 + |l|] == l
  {
  }

  lemma {:induction false} LowerTotal(ls: seq<Label>)
    ensures Total(LowerLabels(ls)) == Total(ls)
  {
    if ls != [] {
      LowerTotal(ls[1..]);
      assert ls == [ls[0]] + ls[1..];
      TotalAppend([ls[0]], ls[1..]);
      TotalAppend([LowerAll(ls[0])], LowerLabels(ls[1..]));
      OneLabel(ls[0]);
      OneLabel(LowerAll(ls[0]));
    }
  }

  /** A valid name written anywhere in a message is read back there in lower case, up to its last octet. */
  lemma NameReadsBack(before: seq<byte>, n: seq<byte>, after: seq<byte>)
    requires ValidName(n)
    ensures Resolve(before + EncodeName(n) + after, |before|) == Some((LowerAll(n), |before| + |EncodeName(n)|))
  {
    hide NameAt, Total, Join, ValidUtf8, Split, LowerAll, LowerLabels, EncodeLabels;
    var ls := Split(n);
    LabelsReadBack(before, ls, after, MAX_STEPS);
    LowerTotal(ls);
    LowerJoin(ls);
    JoinSplit(n);
  }

  /** What an encoded first label must look like for its reading to reach the end of the buffer. */
  lemma FirstLabelIsShort(before: seq<byte>, l: Label, rest: seq<byte>, fuel: nat)
    requires rest != []
    requires var data := before + ([Octet(|l|)] + l + rest);
             NameAt(data, |before|, fuel).Some? && NameAt(data, |before|, fuel).value.end == |data|
    ensures fuel != 0 && 1 <= |l| % 0x100 <= MAX_LABEL
    ensures var data := before + ([Octet(|l|)] + l + rest);
            var len := |l| % 0x100;
            && LabelAt(data, |before|) && data[|before|] == len
            && data[|before| + 1..|before| + 1 + len] == l[..len]
  {
    hide ValidUtf8, LowerAll, NameAt;
    var data := before + ([Octet(|l|)] + l + rest);
    var len := |l| % 0x100;
    assert data[|before|] == len;
    if fuel != 0 && len == 0 {
      NameAtZero(data, |before|, fuel);
    } else if fuel != 0 && len >= 0xC0 {
      NameAtPointer(data, |before|, fuel);
    }
    if fuel == 0 || (0 < len < 0xC0 && !LabelAt(data, |before|)) {
      NameAtFails(data, |before|, fuel);
    }
    assert data[|before| + 1..|before| + 1 + len] == l[..len];
  }

  lemma JoinCons(l: Label, ls: seq<Label>)
    ensures Join([l] + ls) == if ls == [] then l else l + [DOT] + Join(ls)
  {
    assert ([l] + ls)[1..] == ls;
  }

  lemma EncodeCons(l: Label, ls: seq<Label>)
    ensures EncodeLabels([l] + ls) == [Octet(|l|)] + l + EncodeLabels(ls)
    ensures EncodeLabels(ls) != []
  {
    assert ([l] + ls)[1..] == ls;
  }

  /** When the written labels are read back as their lower-cased join, the first label was whole. */
  lemma FirstLabelIsWhole(before: seq<byte>, l: Label, ls: seq<Label>, fuel: nat)
    requires DOT !in l
    requires var data := before + ([Octet(|l|)] + l + EncodeLabels(ls));
             var n := NameAt(data, |before|, fuel);
             n.Some? && n.value.end == |data| && Join(n.value.labels) == LowerAll(Join([l] + ls))
    ensures fuel != 0 && 1 <= |l| <= MAX_LABEL && ValidUtf8(l)
    ensures var data := before + ([Octet(|l|)] + l + EncodeLabels(ls));
            var n := NameAt(data, |before| + 1 + |l|, fuel - 1);
            n.Some? && n.value.end == |data| && Join(n.value.labels) == LowerAll(Join(ls))
  {
    hide ValidUtf8, NameAt, EncodeLabels, LowerAll, Join, Octet, LabelAt;
    var data := before + ([Octet(|l|)] + l + EncodeLabels(ls));
    EncodeCons(l, ls);
    FirstLabelIsShort(before, l, EncodeLabels(ls), fuel);
    var len := |l| % 0x100;
    NameAtSplits(data, |before|, fuel);
    WholeLabelJoins(l, len, NameAt(data, |before| + 1 + len, fuel - 1).value.labels, ls);
    assert l[..len] == l;
  }

  /** A name that begins with a label goes on with the rest of the name. */
  lemma NameAtSplits(data: seq<byte>, p: nat, fuel: nat)
    requires fuel != 0 && LabelAt(data, p) && NameAt(data, p, fuel).Some?
    ensures var len := data[p] as int;
            var rest := NameAt(data, p + 1 + len, fuel - 1);
            && rest.Some? && NameAt(data, p, fuel).value.end == rest.value.end
            && NameAt(data, p, fuel).value.labels == [LowerAll(data[p + 1..p + 1 + len])] + rest.value.labels
            && ValidUtf8(data[p + 1..p + 1 + len])
  {
    hide ValidUtf8, NameAt, LowerAll;
    NameAtLabel(data, p, fuel);
  }

  lemma WholeLabelJoins(l: Label, len: nat, tail: seq<Label>, ls: seq<Label>)
    requires len <= |l| && DOT !in l && Join([LowerAll(l[..len])] + tail) == LowerAll(Join([l] + ls))
    ensures len == |l| && Join(tail) == LowerAll(Join(ls))
  {
    hide Join, LowerAll;
    JoinCons(LowerAll(l[..len]), tail);
    JoinCons(l, ls);
    LabelIsWhole(l, len, tail, ls);
  }

  lemma FirstLabelReadsBack(before: seq<byte>, l: Label, ls: seq<Label>, fuel: nat)
    requires DOT !in l
    requires var data := before + EncodeLabels([l] + ls);
             var n := NameAt(data, |before|, fuel);
             n.Some? && n.value.end == |data| && Join(n.value.labels) == LowerAll(Join([l] + ls))
    ensures fuel != 0 && 1 <= |l| <= MAX_LABEL && ValidUtf8(l)
    ensures var before' := before + [Octet(|l|)] + l;
            var data := before' + EncodeLabels(ls);
            var n := NameAt(data, |before'|, fuel - 1);
            n.Some? && n.value.end == |data| && Join(n.value.labels) == LowerAll(Join(ls))
  {
    hide ValidUtf8, NameAt, EncodeLabels, LowerAll, Join, Octet;
    EncodeCons(l, ls);
    FirstLabelIsWhole(before, l, ls, fuel);
    assert before + ([Octet(|l|)] + l + EncodeLabels(ls)) == (before + [Octet(|l|)] + l) + EncodeLabels(ls);
  }

  /** Labels whose encoding is read back as their lower-cased join, to the end of the buffer, are valid ones. */
  lemma {:induction false} ReadBackMeansValid(before: seq<byte>, ls: seq<Label>, fuel: nat)
    requires forall i | 0 <= i < |ls| :: DOT !in ls[i]
    requires var data := before + EncodeLabels(ls);
             var n := NameAt(data, |before|, fuel);
             n.Some? && n.value.end == |data| && Join(n.value.labels) == LowerAll(Join(ls))
    ensures |ls| < fuel
    ensures forall i | 0 <= i < |ls| :: 1 <= |ls[i]| <= MAX_LABEL && ValidUtf8(ls[i])
    decreases |ls|
  {
    hide ValidUtf8, NameAt, EncodeLabels, LowerAll, Join, Octet;
    if ls == [] {
      if fuel == 0 {
        NameAtFails(before + EncodeLabels(ls), |before|, fuel);
      }
    } else {
      assert ls == [ls[0]] + ls[1..];
      FirstLabelReadsBack(before, ls[0], ls[1..], fuel);
      ReadBackMeansValid(before + [Octet(|ls[0]|)] + ls[0], ls[1..], fuel - 1);
    }
  }

  /** A truncated length octet would put a dot, or the end of the name, inside the label. */
  lemma LabelIsWhole(l: Label, len: nat, tail: seq<Label>, ls: seq<Label>)
    requires len <= |l| && DOT !in l
    requires var read := if tail == [] then LowerAll(l[..len]) else LowerAll(l[..len]) + [DOT] + Join(tail);
             var whole := if ls == [] then l else l + [DOT] + Join(ls);
             read == LowerAll(whole)
    ensures len == |l|
    ensures Join(tail) == LowerAll(Join(ls))
  {
    hide Join, LowerAll, Lower;
    var whole := if ls == [] then l else l + [DOT] + Join(ls);
    var read := if tail == [] then LowerAll(l[..len]) else LowerAll(l[..len]) + [DOT] + Join(tail);
    assert |read| == |whole|;
    if len < |l| {
      LoweredLabelHasNoDot(l, len);
      assert false;
    }
    assert l[..len] == l;
    NoJoin();
    if ls != [] {
      LoweredRest(l, Join(tail), Join(ls));
    }
  }

  lemma LoweredRest(l: Label, tail: seq<byte>, rest: seq<byte>)
    requires LowerAll(l) + [DOT] + tail == LowerAll(l + [DOT] + rest)
    ensures tail == LowerAll(rest)
  {
    hide LowerAll, Lower;
    var whole := l + [DOT] + rest;
    assert |tail| == |rest|;
    forall i | 0 <= i < |rest|
      ensures tail[i] == LowerAll(rest)[i]
    {
      assert (LowerAll(l) + [DOT] + tail)[|l| + 1 + i] == tail[i];
      assert whole[|l| + 1 + i] == rest[i];
    }
  }

  lemma LoweredLabelHasNoDot(l: Label, i: nat)
    requires i < |l| && DOT !in l
    ensures LowerAll(l)[i] != DOT
  {
  }

  lemma NoJoin()
    ensures Join([]) == [] && LowerAll([]) == []
  {
  }

  lemma RoundTripOfInvalid(n: seq<byte>)
    requires Resolve(EncodeName(n), 0) == Some((LowerAll(n), |EncodeName(n)|))
    ensures ValidName(n)
  {
    hide NameAt, ValidUtf8, Join, Total, LowerAll, LowerLabels, EncodeLabels, Split;
    var ls := Split(n);
    JoinSplit(n);
    assert [] + EncodeLabels(ls) == EncodeLabels(ls) == [] + EncodeLabels(ls) + [];
    ReadBackMeansValid([], ls, MAX_STEPS);
    LabelsReadBack([], ls, [], MAX_STEPS);
    LowerTotal(ls);
  }

  /** The round trip of a name through the codec, to its last octet, holds exactly for names of at most 63 labels of 1
      to 63 octets of UTF-8, which with one octet each make at most 255. */
  lemma NameRoundTripExactlyWhen(n: seq<byte>)
    ensures Resolve(EncodeName(n), 0) == Some((LowerAll(n), |EncodeName(n)|)) <==>
            var ls := Split(n);
            && |ls| <= 63 && Total(ls) <= 255
            && forall i | 0 <= i < |ls| :: 1 <= |ls[i]| <= 63 && ValidUtf8(ls[i])
  {
    hide Resolve, EncodeName, LowerAll, Split, Total, ValidUtf8;
    if ValidName(n) {
      NameReadsBack([], n, []);
      assert [] + EncodeName(n) + [] == EncodeName(n);
    }
    if Resolve(EncodeName(n), 0) == Some((LowerAll(n), |EncodeName(n)|)) {
      RoundTripOfInvalid(n);
    }
  }

  // ---------------------------------------------------------------------------------------------
  // Records

  datatype Record = Record(name: seq<byte>, kind: uint16, ttl: uint32, data: seq<byte>)

  /** A record as a reader sees it. */
  datatype Parsed = Parsed(name: seq<byte>, kind: uint16, rrClass: uint16, ttl: uint32, data: seq<byte>)

  /** PTR records are shared; the others carry the cache-flush bit (section 10.2 of RFC 6762). */
  function Class(kind: uint16): uint16
  {
    if kind == PTR then 1 else 0x8001
  }

  function Fixed(r: Record): (f: seq<byte>)
    ensures |f| == 10
  {
    Be16(r.kind) + Be16(Class(r.kind)) + Be32(r.ttl) + Be16(|r.data| % 0x1_0000)
  }

  function EncodeRecord(r: Record): seq<byte>
  {
    EncodeName(r.name) + Fixed(r) + r.data
  }

  method WriteRecord(out: seq<byte>, n: seq<byte>, kind: uint16, ttl: uint32, data: seq<byte>) returns (r: seq<byte>)
    ensures r == out + EncodeRecord(Record(n, kind, ttl, data))
  {
    hide EncodeName;
    r := Name(out, n);
    r := r + Be16(kind);
    r := r + Be16(if kind == 12 then 1 else 0x8001);
    r := r + Be32(ttl);
    r := r + Be16(|data| % 0x1_0000);
    r := r + data;
    var f := Fixed(Record(n, kind, ttl, data));
    assert r == out + (EncodeName(n) + f + data);
  }

  /** Reads the record at `p`: its name, the ten fixed octets and as much data as they declare. */
  function ReadRecord(buf: seq<byte>, p: nat): Option<(Parsed, nat)>
  {
    match Resolve(buf, p)
    case None => None
    case Some((name, q)) =>
      if q + 10 > |buf| then None
      else
        var size := FromBe16(buf[q + 8..q + 10]);
        if q + 10 + size > |buf| then None
        else
          Some((Parsed(name, FromBe16(buf[q..q + 2]), FromBe16(buf[q + 2..q + 4]), FromBe32(buf[q + 4..q + 8]),
                       buf[q + 10..q + 10 + size]),
                q + 10 + size))
  }

  function ReadRecords(buf: seq<byte>, p: nat, count: nat): Option<(seq<Parsed>, nat)>
    decreases count
  {
    if count == 0 then Some(([], p))
    else
      match ReadRecord(buf, p)
      case None => None
      case Some((r, q)) =>
        match ReadRecords(buf, q, count - 1)
        case None => None
        case Some((rs, end)) => Some(([r] + rs, end))
  }

  function Readable(r: Record): Parsed
  {
    Parsed(LowerAll(r.name), r.kind, Class(r.kind), r.ttl, r.data)
  }

  function ReadableAll(rs: seq<Record>): seq<Parsed>
  {
    if rs == [] then [] else [Readable(rs[0])] + ReadableAll(rs[1..])
  }

  ghost predicate ValidRecord(r: Record)
  {
    ValidName(r.name) && |r.data| < 0x1_0000
  }

  lemma Be16RoundTrip(n: uint16)
    ensures FromBe16(Be16(n)) == n
  {
  }

  lemma Be32RoundTrip(n: uint32)
    ensures FromBe32(Be32(n)) == n
  {
    var q: int := n;
    assert q == q % 0x100 + 0x100 * (q / 0x100);
    assert q / 0x1_0000 == q / 0x100 / 0x100;
    assert q / 0x100_0000 == q / 0x1_0000 / 0x100;
  }

  lemma FixedFields(r: Record, a: seq<byte>, b: seq<byte>)
    requires |r.data| < 0x1_0000
    ensures var buf := a + Fixed(r) + b; var q := |a|;
            && FromBe16(buf[q..q + 2]) == r.kind && FromBe16(buf[q + 2..q + 4]) == Class(r.kind)
            && FromBe32(buf[q + 4..q + 8]) == r.ttl && FromBe16(buf[q + 8..q + 10]) == |r.data|
  {
    hide FromBe16, FromBe32, Be16, Be32, Class;
    var buf, q := a + Fixed(r) + b, |a|;
    assert buf[q..q + 2] == Be16(r.kind);
    assert buf[q + 2..q + 4] == Be16(Class(r.kind));
    assert buf[q + 4..q + 8] == Be32(r.ttl);
    assert buf[q + 8..q + 10] == Be16(|r.data|);
    Be16RoundTrip(r.kind);
    Be16RoundTrip(Class(r.kind));
    Be16RoundTrip(|r.data|);
    Be32RoundTrip(r.ttl);
  }

  /** A written record is read back where it stands. */
  lemma RecordReadsBack(before: seq<byte>, r: Record, after: seq<byte>)
    requires ValidRecord(r)
    ensures ReadRecord(before + EncodeRecord(r) + after, |before|) == Some((Readable(r), |before| + |EncodeRecord(r)|))
  {
    hide Resolve, EncodeName, Fixed, LowerAll, ValidName, FromBe16, FromBe32;
    var n, f := EncodeName(r.name), Fixed(r);
    var buf := before + EncodeRecord(r) + after;
    NameReadsBack(before, r.name, f + r.data + after);
    assert buf == before + n + (f + r.data + after);
    FixedFields(r, before + n, r.data + after);
    assert buf == (before + n) + f + (r.data + after);
    var q := |before + n|;
    assert buf[q + 10..q + 10 + |r.data|] == r.data;
  }

  function EncodeRecords(rs: seq<Record>): seq<byte>
  {
    if rs == [] then [] else EncodeRecord(rs[0]) + EncodeRecords(rs[1..])
  }

  lemma {:induction false} EncodeRecordsPush(rs: seq<Record>, r: Record)
    ensures EncodeRecords(rs + [r]) == EncodeRecords(rs) + EncodeRecord(r)
  {
    hide EncodeRecord;
    if rs == [] {
      assert (rs + [r])[1..] == [];
    } else {
      assert (rs + [r])[1..] == rs[1..] + [r];
      EncodeRecordsPush(rs[1..], r);
    }
  }

  /** Walking written records reads exactly them, in order, and ends exactly where they end. */
  lemma {:induction false} RecordsReadBack(before: seq<byte>, rs: seq<Record>, after: seq<byte>)
    requires forall i | 0 <= i < |rs| :: ValidRecord(rs[i])
    ensures ReadRecords(before + EncodeRecords(rs) + after, |before|, |rs|)
         == Some((ReadableAll(rs), |before| + |EncodeRecords(rs)|))
    decreases |rs|
  {
    hide EncodeRecord, ReadRecord, ValidRecord, Readable;
    if rs != [] {
      var e, rest := EncodeRecord(rs[0]), EncodeRecords(rs[1..]);
      var buf := before + EncodeRecords(rs) + after;
      RecordReadsBack(before, rs[0], rest + after);
      assert buf == before + e + (rest + after);
      RecordsReadBack(before + e, rs[1..], after);
      assert buf == (before + e) + rest + after;
    }
  }

  // ---------------------------------------------------------------------------------------------
  // The announcement

  datatype Endpoint = Endpoint(address: seq<byte>, port: uint16)

  function ServiceName(kind: Label): seq<byte>
  {
    Join([kind, L_TCP, L_LOCAL])
  }

  function Instance(guid: seq<byte>, kind: Label): seq<byte>
  {
    guid + [DOT] + ServiceName(kind)
  }

  function HostName(guid: seq<byte>): seq<byte>
  {
    guid + [DOT] + L_LOCAL
  }

  function SrvData(guid: seq<byte>, port: uint16): seq<byte>
  {
    [0, 0, 0, 0] + Be16(port) + EncodeName(HostName(guid))
  }

  /** PTR, SRV and TXT of one service. */
  function ServiceRecords(guid: seq<byte>, kind: Label, port: Option<uint16>, ttl: uint32): seq<Record>
  {
    if port.None? then []
    else [Record(ServiceName(kind), PTR, ttl, EncodeName(Instance(guid, kind))),
          Record(Instance(guid, kind), SRV, ttl, SrvData(guid, port.value)),
          Record(Instance(guid, kind), TXT, ttl, [0])]
  }

  function AddressRecords(guid: seq<byte>, endpoints: seq<Endpoint>, ttl: uint32): seq<Record>
  {
    if endpoints == [] then []
    else AddressRecords(guid, endpoints[..|endpoints| - 1], ttl)
         + [Record(HostName(guid), A, ttl, endpoints[|endpoints| - 1].address)]
  }

  /** The records of an announcement: the services of the first endpoint, then every address. */
  function Announcement(guid: seq<byte>, endpoints: seq<Endpoint>, pair: Option<uint16>, ttl: uint32): seq<Record>
  {
    (if endpoints == [] then []
     else ServiceRecords(guid, L_CONNECT, Some(endpoints[0].port), ttl) + ServiceRecords(guid, L_PAIRING, pair, ttl))
    + AddressRecords(guid, endpoints, ttl)
  }

  /** Twelve octets: an authoritative answer and the number of records. */
  function MessageHeader(count: uint16): (h: seq<byte>)
    ensures |h| == 12
  {
    [0, 0, 0x84, 0, 0, 0] + Be16(count) + [0, 0, 0, 0]
  }

  lemma {:induction false} AddressCount(guid: seq<byte>, endpoints: seq<Endpoint>, ttl: uint32)
    ensures |AddressRecords(guid, endpoints, ttl)| == |endpoints|
  {
    if endpoints != [] {
      AddressCount(guid, endpoints[..|endpoints| - 1], ttl);
    }
  }

  /** `response`. The record count is a 16-bit counter. */
  method Response(guid: seq<byte>, endpoints: seq<Endpoint>, pair: Option<uint16>, ttl: uint32) returns (out: seq<byte>)
    ensures var rs := Announcement(guid, endpoints, pair, ttl);
            out == MessageHeader(|rs| % 0x1_0000) + EncodeRecords(rs)
    ensures ValidGuid(guid) && (forall i | 0 <= i < |endpoints| :: |endpoints[i].address| == 4) ==>
              Announced(out, guid, endpoints, pair, ttl)
  {
    hide EncodeRecord, ServiceName, Instance, HostName, EncodeName, Announced, ValidGuid;
    ghost var rs: seq<Record> := [];
    var head: seq<byte> := [0, 0, 0x84, 0, 0, 0, 0, 0, 0, 0, 0, 0];
    var body: seq<byte> := [];
    var count: uint16 := 0;
    if endpoints != [] {
      body, count := WriteService(body, count, guid, L_CONNECT, Some(endpoints[0].port), ttl, rs);
      rs := rs + ServiceRecords(guid, L_CONNECT, Some(endpoints[0].port), ttl);
      body, count := WriteService(body, count, guid, L_PAIRING, pair, ttl, rs);
      rs := rs + ServiceRecords(guid, L_PAIRING, pair, ttl);
    }
    body, count := WriteAddresses(body, count, guid, endpoints, ttl, rs);
    assert [] + ServiceRecords(guid, L_CONNECT, if endpoints == [] then None else Some(endpoints[0].port), ttl)
        == ServiceRecords(guid, L_CONNECT, if endpoints == [] then None else Some(endpoints[0].port), ttl);
    out := head[..6] + Be16(count) + head[8..] + body;
    assert head[..6] + Be16(count) + head[8..] == MessageHeader(count);
    if ValidGuid(guid) && forall i | 0 <= i < |endpoints| :: |endpoints[i].address| == 4 {
      ResponseAnnounces(guid, endpoints, pair, ttl);
    }
  }

  /** The second loop of `response`. */
  method WriteAddresses(body: seq<byte>, count: uint16, guid: seq<byte>, endpoints: seq<Endpoint>, ttl: uint32,
                        ghost rs: seq<Record>) returns (body': seq<byte>, count': uint16)
    requires body == EncodeRecords(rs) && count == |rs| % 0x1_0000
    ensures var all := rs + AddressRecords(guid, endpoints, ttl);
            body' == EncodeRecords(all) && count' == |all| % 0x1_0000
  {
    hide EncodeRecord, HostName, EncodeName, EncodeRecords;
    body', count' := body, count;
    assert rs + [] == rs;
    for i := 0 to |endpoints|
      invariant body' == EncodeRecords(rs + AddressRecords(guid, endpoints[..i], ttl))
      invariant count' == |rs + AddressRecords(guid, endpoints[..i], ttl)| % 0x1_0000
    {
      assert endpoints[..i + 1][..i] == endpoints[..i];
      ghost var sofar := rs + AddressRecords(guid, endpoints[..i], ttl);
      ghost var r := Record(HostName(guid), A, ttl, endpoints[i].address);
      body' := WriteRecord(body', HostName(guid), A, ttl, endpoints[i].address);
      EncodeRecordsPush(sofar, r);
      assert sofar + [r] == rs + AddressRecords(guid, endpoints[..i + 1], ttl);
      count' := (count' + 1) % 0x1_0000;
    }
    assert endpoints[..|endpoints|] == endpoints;
  }

  method WriteService(body: seq<byte>, count: uint16, guid: seq<byte>, kind: Label, port: Option<uint16>, ttl: uint32,
                      ghost rs: seq<Record>) returns (body': seq<byte>, count': uint16)
    requires body == EncodeRecords(rs) && count == |rs| % 0x1_0000
    ensures var all := rs + ServiceRecords(guid, kind, port, ttl);
            body' == EncodeRecords(all) && count' == |all| % 0x1_0000
  {
    hide EncodeRecord, ServiceName, Instance, HostName, EncodeName;
    body', count' := body, count;
    assert rs + [] == rs;
    if port.Some? {
      var instance := Instance(guid, kind);
      var target := Name([], instance);
      assert [] + EncodeName(instance) == EncodeName(instance);
      ghost var r0 := Record(ServiceName(kind), PTR, ttl, target);
      body' := WriteRecord(body', ServiceName(kind), PTR, ttl, target);
      EncodeRecordsPush(rs, r0);
      var srv := [0, 0, 0, 0];
      srv := srv + Be16(port.value);
      srv := Name(srv, HostName(guid));
      ghost var r1 := Record(instance, SRV, ttl, srv);
      body' := WriteRecord(body', instance, SRV, ttl, srv);
      EncodeRecordsPush(rs + [r0], r1);
      ghost var r2 := Record(instance, TXT, ttl, [0]);
      body' := WriteRecord(body', instance, TXT, ttl, [0]);
      EncodeRecordsPush(rs + [r0] + [r1], r2);
      assert rs + [r0] + [r1] + [r2] == rs + ServiceRecords(guid, kind, port, ttl);
      count' := (count' + 3) % 0x1_0000;
    }
  }

  /** A device name the announcement can carry: one label. */
  ghost predicate ValidGuid(guid: seq<byte>)
  {
    1 <= |guid| <= MAX_LABEL && DOT !in guid && ValidUtf8(guid)
  }

  lemma {:induction false} AsciiIsUtf8(s: seq<byte>)
    requires forall i | 0 <= i < |s| :: s[i] < 0x80
    ensures ValidUtf8(s)
  {
    if s != [] {
      AsciiIsUtf8(s[1..]);
    }
  }

  lemma PlainLabel(l: Label)
    requires 1 <= |l| <= MAX_LABEL && forall i | 0 <= i < |l| :: l[i] < 0x80 && l[i] != DOT
    ensures ValidGuid(l)
  {
    AsciiIsUtf8(l);
    hide ValidUtf8;
  }

  lemma ConstantLabels()
    ensures ValidGuid(L_CONNECT) && ValidGuid(L_PAIRING) && ValidGuid(L_TCP) && ValidGuid(L_LOCAL)
  {
    hide ValidUtf8, ValidGuid;
    PlainLabel(L_CONNECT);
    PlainLabel(L_PAIRING);
    PlainLabel(L_TCP);
    PlainLabel(L_LOCAL);
  }

  lemma TotalCons(l: Label, ls: seq<Label>)
    ensures Total([l] + ls) == |l| + 1 + Total(ls)
  {
    TotalAppend([l], ls);
    OneLabel(l);
  }

  lemma AnnouncedNames(guid: seq<byte>, kind: Label)
    requires ValidGuid(guid) && ValidGuid(kind) && |kind| <= 17
    ensures ValidName(ServiceName(kind)) && ValidName(Instance(guid, kind)) && ValidName(HostName(guid))
  {
    hide ValidUtf8, Split, Join, Total;
    ConstantLabels();
    var service := [kind, L_TCP, L_LOCAL];
    SplitJoin(service);
    SplitPrepend(guid, ServiceName(kind));
    SplitPrepend(guid, L_LOCAL);
    SplitLabel(L_LOCAL);
    OneLabel(L_LOCAL);
    TotalCons(L_TCP, [L_LOCAL]);
    TotalCons(kind, [L_TCP] + [L_LOCAL]);
    assert [kind] + ([L_TCP] + [L_LOCAL]) == service;
    TotalCons(guid, service);
    TotalCons(guid, [L_LOCAL]);
    assert ([guid] + service)[0] == guid && ([guid] + service)[1..] == service;
  }

  lemma {:induction false} EncodedLength(ls: seq<Label>)
    ensures |EncodeLabels(ls)| == Total(ls) + 1
  {
    if ls != [] {
      EncodedLength(ls[1..]);
      assert ls == [ls[0]] + ls[1..];
      TotalCons(ls[0], ls[1..]);
    }
  }

  lemma ServiceRecordsValid(guid: seq<byte>, kind: Label, port: Option<uint16>, ttl: uint32)
    requires ValidGuid(guid) && ValidGuid(kind) && |kind| <= 17
    ensures forall r | r in ServiceRecords(guid, kind, port, ttl) :: ValidRecord(r)
  {
    AnnouncedNames(guid, kind);
    EncodedLength(Split(Instance(guid, kind)));
    EncodedLength(Split(HostName(guid)));
    hide Split, Total, EncodeLabels, ServiceName, Instance, HostName, ValidGuid;
  }

  lemma {:induction false} AddressRecordsValid(guid: seq<byte>, endpoints: seq<Endpoint>, ttl: uint32)
    requires ValidGuid(guid) && forall i | 0 <= i < |endpoints| :: |endpoints[i].address| == 4
    ensures forall r | r in AddressRecords(guid, endpoints, ttl) :: ValidRecord(r)
  {
    hide ValidName, HostName;
    if endpoints != [] {
      ConstantLabels();
      AnnouncedNames(guid, L_CONNECT);
      AddressRecordsValid(guid, endpoints[..|endpoints| - 1], ttl);
    }
  }

  lemma AnnouncementValid(guid: seq<byte>, endpoints: seq<Endpoint>, pair: Option<uint16>, ttl: uint32)
    requires ValidGuid(guid)
    requires forall i | 0 <= i < |endpoints| :: |endpoints[i].address| == 4
    ensures forall r | r in Announcement(guid, endpoints, pair, ttl) :: ValidRecord(r)
  {
    hide ValidRecord, ServiceRecords, AddressRecords, ValidGuid;
    AddressRecordsValid(guid, endpoints, ttl);
    ConstantLabels();
    if endpoints != [] {
      ServiceRecordsValid(guid, L_CONNECT, Some(endpoints[0].port), ttl);
      ServiceRecordsValid(guid, L_PAIRING, pair, ttl);
    }
  }

  /** Between one and two services of three records, and one record an address. */
  lemma AnnouncementCount(guid: seq<byte>, endpoints: seq<Endpoint>, pair: Option<uint16>, ttl: uint32)
    ensures |Announcement(guid, endpoints, pair, ttl)|
         == |endpoints| + (if endpoints == [] then 0 else if pair.None? then 3 else 6)
  {
    hide AddressRecords, Instance, ServiceName, HostName, EncodeName;
    AddressCount(guid, endpoints, ttl);
  }

  /** Walking a message from its header reads its records, to its end; the header counts them exactly when there
      are fewer than 65536. */
  lemma MessageReadsBack(rs: seq<Record>)
    requires forall i | 0 <= i < |rs| :: ValidRecord(rs[i])
    ensures var message := MessageHeader(|rs| % 0x1_0000) + EncodeRecords(rs);
            && FromBe16(message[6..8]) == |rs| % 0x1_0000
            && ReadRecords(message, 12, |rs|) == Some((ReadableAll(rs), |message|))
  {
    hide ValidRecord, EncodeRecords, ReadRecords, ReadableAll, FromBe16, Be16;
    var message := MessageHeader(|rs| % 0x1_0000) + EncodeRecords(rs);
    assert message[6..8] == Be16(|rs| % 0x1_0000);
    Be16RoundTrip(|rs| % 0x1_0000);
    RecordsReadBack(MessageHeader(|rs| % 0x1_0000), rs, []);
    assert message + [] == message;
  }

  /** Whatever is announced can be read by the codec itself: walking the message from its header reads every record,
      each as it was meant, and ends exactly at the end of the buffer. The header's answer count is that number of
      records exactly when they fit its 16 bits. */
  lemma AnnouncementReadsBack(guid: seq<byte>, endpoints: seq<Endpoint>, pair: Option<uint16>, ttl: uint32)
    requires ValidGuid(guid) && forall i | 0 <= i < |endpoints| :: |endpoints[i].address| == 4
    ensures var rs := Announcement(guid, endpoints, pair, ttl);
            var message := MessageHeader(|rs| % 0x1_0000) + EncodeRecords(rs);
            && ReadRecords(message, 12, |rs|) == Some((ReadableAll(rs), |message|))
            && (FromBe16(message[6..8]) == |rs| <==> |rs| < 0x1_0000)
            && |rs| == |endpoints| + (if endpoints == [] then 0 else if pair.None? then 3 else 6)
  {
    hide ValidRecord, EncodeRecords, ReadRecords, ReadableAll, FromBe16, Announcement, ValidGuid;
    AnnouncementValid(guid, endpoints, pair, ttl);
    AnnouncementCount(guid, endpoints, pair, ttl);
    MessageReadsBack(Announcement(guid, endpoints, pair, ttl));
  }

  // ---------------------------------------------------------------------------------------------
  // What a reader finds in an announcement

  /** The octets of ASCII text. */
  function Text(s: string): (r: seq<byte>)
    ensures |r| == |s|
  {
    seq(|s|, i requires 0 <= i < |s| => if s[i] < 128 as char then s[i] as int else 0)
  }

  const CONNECT: string := "_adb-tls-connect._tcp.local"
  const PAIR: string := "_adb-tls-pairing._tcp.local"

  lemma ServiceTexts()
    ensures ServiceName(L_CONNECT) == Text(CONNECT) && ServiceName(L_PAIRING) == Text(PAIR)
    ensures [DOT] + L_LOCAL == Text(".local") && [DOT] == Text(".")
  {
    ThreeLabels(L_CONNECT);
    ThreeLabels(L_PAIRING);
    assert L_CONNECT + [DOT] + L_TCP + [DOT] + L_LOCAL == Text(CONNECT) by { ConnectText(); }
    assert L_PAIRING + [DOT] + L_TCP + [DOT] + L_LOCAL == Text(PAIR) by { PairText(); }
    hide ServiceName;
  }

  lemma ThreeLabels(kind: Label)
    ensures ServiceName(kind) == kind + [DOT] + L_TCP + [DOT] + L_LOCAL
  {
    assert Join([L_TCP, L_LOCAL]) == L_TCP + [DOT] + Join([L_LOCAL]);
    assert Join([kind, L_TCP, L_LOCAL]) == kind + [DOT] + Join([L_TCP, L_LOCAL]);
    hide Join;
  }

  lemma ConnectText()
    ensures L_CONNECT + [DOT] + L_TCP + [DOT] + L_LOCAL == Text(CONNECT)
  {
  }

  lemma PairText()
    ensures L_PAIRING + [DOT] + L_TCP + [DOT] + L_LOCAL == Text(PAIR)
  {
  }

  lemma ServiceTextsAreLow()
    ensures LowerAll(Text(CONNECT)) == Text(CONNECT) && LowerAll(Text(PAIR)) == Text(PAIR)
    ensures Text(CONNECT) != Text(PAIR)
  {
    LowText(CONNECT);
    LowText(PAIR);
    assert Text(CONNECT)[9] != Text(PAIR)[9];
  }

  lemma LowText(s: string)
    requires forall i | 0 <= i < |s| :: !('A' <= s[i] <= 'Z') && s[i] < 128 as char
    ensures LowerAll(Text(s)) == Text(s)
  {
  }

  /** Three records that offer a service at a port: a pointer from the service's name to the device's instance of it,
      the instance's port and host, and an empty text. */
  ghost predicate Offers(rs: seq<Parsed>, i: nat, guid: seq<byte>, service: string, port: uint16, ttl: uint32)
  {
    var instance := LowerAll(guid + Text(".") + Text(service));
    && i + 3 <= |rs|
    && rs[i].name == Text(service) && rs[i].kind == 12 && rs[i].rrClass == 1 && rs[i].ttl == ttl
    && Resolve(rs[i].data, 0) == Some((instance, |rs[i].data|))
    && rs[i + 1].name == instance && rs[i + 1].kind == 33 && rs[i + 1].rrClass == 0x8001 && rs[i + 1].ttl == ttl
    && |rs[i + 1].data| > 6 && rs[i + 1].data[..4] == [0, 0, 0, 0] && FromBe16(rs[i + 1].data[4..6]) == port
    && Resolve(rs[i + 1].data, 6) == Some((LowerAll(guid + Text(".local")), |rs[i + 1].data|))
    && rs[i + 2] == Parsed(instance, 16, 0x8001, ttl, [0])
  }

  /** The records a reader is meant to find: the connect service at the first endpoint's port, the pairing service
      exactly while a pairing port is given, then the address of every endpoint in order, and nothing else. */
  ghost predicate Announces(rs: seq<Parsed>, guid: seq<byte>, endpoints: seq<Endpoint>, pair: Option<uint16>,
                            ttl: uint32)
  {
    var services := if endpoints == [] then 0 else if pair.None? then 3 else 6;
    && |rs| == services + |endpoints|
    && (endpoints != [] ==> Offers(rs, 0, guid, CONNECT, endpoints[0].port, ttl))
    && (endpoints != [] && pair.Some? ==> Offers(rs, 3, guid, PAIR, pair.value, ttl))
    && forall k | 0 <= k < |endpoints| ::
         rs[services + k] == Parsed(LowerAll(guid + Text(".local")), 1, 0x8001, ttl, endpoints[k].address)
  }

  /** A message of authority, without questions, whose records announce the device to whoever walks it. */
  ghost predicate Announced(message: seq<byte>, guid: seq<byte>, endpoints: seq<Endpoint>, pair: Option<uint16>,
                            ttl: uint32)
  {
    var count := |endpoints| + if endpoints == [] then 0 else if pair.None? then 3 else 6;
    && |message| >= 12 && message[..6] == [0, 0, 0x84, 0, 0, 0] && message[8..12] == [0, 0, 0, 0]
    && FromBe16(message[6..8]) == count % 0x1_0000
    && match ReadRecords(message, 12, count)
       case None => false
       case Some((rs, end)) => end == |message| && Announces(rs, guid, endpoints, pair, ttl)
  }

  lemma {:induction false} ReadableAt(rs: seq<Record>)
    ensures |ReadableAll(rs)| == |rs| && forall i | 0 <= i < |rs| :: ReadableAll(rs)[i] == Readable(rs[i])
  {
    hide Readable;
    if rs != [] {
      ReadableAt(rs[1..]);
      assert ReadableAll(rs) == [Readable(rs[0])] + ReadableAll(rs[1..]);
      forall i | 0 < i < |rs| ensures ReadableAll(rs)[i] == Readable(rs[i]) {
        assert rs[1..][i - 1] == rs[i];
      }
    }
  }

  lemma {:induction false} AddressAt(guid: seq<byte>, endpoints: seq<Endpoint>, ttl: uint32)
    ensures |AddressRecords(guid, endpoints, ttl)| == |endpoints|
    ensures forall k | 0 <= k < |endpoints| ::
              AddressRecords(guid, endpoints, ttl)[k] == Record(HostName(guid), A, ttl, endpoints[k].address)
  {
    hide HostName;
    if endpoints != [] {
      AddressAt(guid, endpoints[..|endpoints| - 1], ttl);
    }
  }

  /** A name alone is read back to its end. */
  lemma NameAlone(n: seq<byte>)
    requires ValidName(n)
    ensures Resolve(EncodeName(n), 0) == Some((LowerAll(n), |EncodeName(n)|))
  {
    hide Resolve, EncodeName, LowerAll, ValidName;
    NameReadsBack([], n, []);
    assert [] + EncodeName(n) + [] == EncodeName(n);
  }

  lemma SrvReadsBack(guid: seq<byte>, port: uint16)
    requires ValidName(HostName(guid))
    ensures var data := SrvData(guid, port);
            && |data| > 6 && data[..4] == [0, 0, 0, 0] && FromBe16(data[4..6]) == port
            && Resolve(data, 6) == Some((LowerAll(HostName(guid)), |data|))
  {
    hide Resolve, EncodeName, LowerAll, ValidName, HostName, Be16, FromBe16;
    var host := HostName(guid);
    NameReadsBack([0, 0, 0, 0] + Be16(port), host, []);
    var data := SrvData(guid, port);
    assert data == ([0, 0, 0, 0] + Be16(port)) + EncodeName(host) + [];
    assert data[4..6] == Be16(port);
    Be16RoundTrip(port);
    NameIsThere(host);
  }

  lemma NameIsThere(n: seq<byte>)
    ensures |EncodeName(n)| > 0
  {
    EncodedLength(Split(n));
  }

  /** The three records of a service, wherever they stand among the records read. */
  lemma ServiceIsOffered(rs: seq<Record>, i: nat, guid: seq<byte>, kind: Label, service: string, port: uint16,
                         ttl: uint32)
    requires ValidGuid(guid) && ValidGuid(kind) && |kind| <= 17
    requires ServiceName(kind) == Text(service) && LowerAll(Text(service)) == Text(service)
    requires [DOT] + L_LOCAL == Text(".local") && [DOT] == Text(".")
    requires i + 3 <= |rs| && rs[i..i + 3] == ServiceRecords(guid, kind, Some(port), ttl)
    ensures Offers(ReadableAll(rs), i, guid, service, port, ttl)
  {
    AnnouncedNames(guid, kind);
    ReadableAt(rs);
    NameAlone(Instance(guid, kind));
    SrvReadsBack(guid, port);
    var three := ServiceRecords(guid, kind, Some(port), ttl);
    assert rs[i] == three[0] && rs[i + 1] == three[1] && rs[i + 2] == three[2];
    assert guid + Text(".") + Text(service) == Instance(guid, kind);
    assert guid + Text(".local") == HostName(guid) by { Dotted(guid, L_LOCAL); }
    hide Resolve, EncodeName, LowerAll, ValidName, Text, ServiceName, Instance, HostName, SrvData, ReadableAll,
      FromBe16, ValidGuid;
  }

  lemma Dotted(a: seq<byte>, b: seq<byte>)
    ensures a + [DOT] + b == a + ([DOT] + b)
  {
  }

  lemma AnnouncementAnnounces(guid: seq<byte>, endpoints: seq<Endpoint>, pair: Option<uint16>, ttl: uint32)
    requires ValidGuid(guid)
    ensures Announces(ReadableAll(Announcement(guid, endpoints, pair, ttl)), guid, endpoints, pair, ttl)
  {
    hide ValidGuid, ReadableAll, Offers, ServiceRecords, AddressRecords, Text, LowerAll, HostName, ServiceName;
    ServiceTexts();
    ServiceTextsAreLow();
    ConstantLabels();
    var rs := Announcement(guid, endpoints, pair, ttl);
    var addresses := AddressRecords(guid, endpoints, ttl);
    AddressAt(guid, endpoints, ttl);
    ReadableAt(rs);
    HostText(guid);
    if endpoints != [] {
      var first := ServiceRecords(guid, L_CONNECT, Some(endpoints[0].port), ttl);
      var second := ServiceRecords(guid, L_PAIRING, pair, ttl);
      ThreeRecords(guid, L_CONNECT, Some(endpoints[0].port), ttl);
      ThreeRecords(guid, L_PAIRING, pair, ttl);
      assert rs == first + second + addresses;
      assert rs[0..3] == first;
      ServiceIsOffered(rs, 0, guid, L_CONNECT, CONNECT, endpoints[0].port, ttl);
      if pair.Some? {
        assert rs[3..6] == second;
        ServiceIsOffered(rs, 3, guid, L_PAIRING, PAIR, pair.value, ttl);
      }
    } else {
      assert rs == addresses;
    }
  }

  lemma HostText(guid: seq<byte>)
    ensures guid + Text(".local") == HostName(guid)
  {
    ServiceTexts();
    Dotted(guid, L_LOCAL);
    hide Text;
  }

  lemma ThreeRecords(guid: seq<byte>, kind: Label, port: Option<uint16>, ttl: uint32)
    ensures |ServiceRecords(guid, kind, port, ttl)| == if port.None? then 0 else 3
  {
  }

  /** A reader finds a pointer for pairing exactly while a pairing port is announced, and one for connecting whenever
      there is an endpoint. */
  lemma PointersExactlyWhen(rs: seq<Parsed>, guid: seq<byte>, endpoints: seq<Endpoint>, pair: Option<uint16>,
                            ttl: uint32)
    requires Announces(rs, guid, endpoints, pair, ttl)
    ensures (exists i | 0 <= i < |rs| :: rs[i].kind == 12 && rs[i].name == Text(CONNECT)) <==> endpoints != []
    ensures (exists i | 0 <= i < |rs| :: rs[i].kind == 12 && rs[i].name == Text(PAIR)) <==>
            endpoints != [] && pair.Some?
  {
    ServiceTextsAreLow();
    hide Text, LowerAll, Resolve, FromBe16;
    var services := if endpoints == [] then 0 else if pair.None? then 3 else 6;
    forall i | services <= i < |rs|
      ensures rs[i].kind == 1
    {
      var k := i - services;
      assert rs[services + k] == Parsed(LowerAll(guid + Text(".local")), 1, 0x8001, ttl, endpoints[k].address);
    }
    if endpoints != [] {
      assert rs[0].kind == 12 && rs[0].name == Text(CONNECT);
      if pair.Some? {
        assert rs[3].kind == 12 && rs[3].name == Text(PAIR);
      }
    }
  }

  /** What `Response` writes announces the device. */
  lemma ResponseAnnounces(guid: seq<byte>, endpoints: seq<Endpoint>, pair: Option<uint16>, ttl: uint32)
    requires ValidGuid(guid) && forall i | 0 <= i < |endpoints| :: |endpoints[i].address| == 4
    ensures var rs := Announcement(guid, endpoints, pair, ttl);
            Announced(MessageHeader(|rs| % 0x1_0000) + EncodeRecords(rs), guid, endpoints, pair, ttl)
  {
    hide ValidGuid, EncodeRecords, ReadRecords, ReadableAll, FromBe16, Announcement, Announces, ValidRecord, Be16;
    var rs := Announcement(guid, endpoints, pair, ttl);
    AnnouncementReadsBack(guid, endpoints, pair, ttl);
    AnnouncementValid(guid, endpoints, pair, ttl);
    MessageReadsBack(rs);
    AnnouncementAnnounces(guid, endpoints, pair, ttl);
    var message := MessageHeader(|rs| % 0x1_0000) + EncodeRecords(rs);
    assert message[..6] == [0, 0, 0x84, 0, 0, 0] && message[8..12] == [0, 0, 0, 0];
  }

  /** The target inside a PTR record's data is itself a readable name that ends with the record. */
  lemma PointerTargetReadsBack(before: seq<byte>, r: Record, target: seq<byte>, after: seq<byte>)
    requires ValidName(target) && r.data == EncodeName(target)
    ensures var buf := before + EncodeRecord(r) + after;
            var p := |before| + |EncodeName(r.name)| + 10;
            Resolve(buf, p) == Some((LowerAll(target), |before| + |EncodeRecord(r)|))
  {
    hide Resolve, EncodeName, Fixed, LowerAll, ValidName;
    var n, f := EncodeName(r.name), Fixed(r);
    NameReadsBack(before + n + f, target, after);
    assert before + EncodeRecord(r) + after == (before + n + f) + EncodeName(target) + after;
  }

  // ---------------------------------------------------------------------------------------------
  // Queries

  predicate Ours(q: seq<byte>, guid: seq<byte>)
  {
    || q == ServiceName(L_CONNECT) || q == ServiceName(L_PAIRING) || q == HostName(guid)
    || q == Instance(guid, L_CONNECT) || q == Instance(guid, L_PAIRING)
  }

  /** The questions of a message from `p` on: is one of the first `count` about us, before anything malformed? */
  function Asked(data: seq<byte>, guid: seq<byte>, p: nat, count: nat): bool
    decreases count
  {
    if count == 0 then false
    else
      match Resolve(data, p)
      case None => false
      case Some((q, end)) => end + 4 <= |data| && (Ours(q, guid) || Asked(data, guid, end + 4, count - 1))
  }

  lemma AskedNext(data: seq<byte>, guid: seq<byte>, p: nat, count: nat)
    requires count > 0
    ensures Asked(data, guid, p, count) ==
            match Resolve(data, p)
            case None => false
            case Some(r) => r.1 + 4 <= |data| && (Ours(r.0, guid) || Asked(data, guid, r.1 + 4, count - 1))
    ensures !Asked(data, guid, p, 0)
  {
  }

  /** The guards of `relevant`: a query, with at most 64 questions, one of them about us. */
  predicate Concerns(data: seq<byte>, guid: seq<byte>)
  {
    && |data| >= 12 && data[2] < 0x80
    && var count := FromBe16(data[4..6]); count <= 64 && Asked(data, guid, 12, count)
  }

  /** `relevant`. */
  method Relevant(data: seq<byte>, guid: seq<byte>) returns (yes: bool)
    ensures yes == Concerns(data, guid)
  {
    hide Asked, Ours, FromBe16, Resolve;
    if |data| < 12 || data[2] >= 0x80 {
      return false;
    }
    var count := FromBe16(data[4..6]);
    if count > 64 {
      return false;
    }
    yes := AnyQuestion(data, guid, count);
  }

  /** The loop of `relevant`. */
  method AnyQuestion(data: seq<byte>, guid: seq<byte>, count: nat) returns (yes: bool)
    ensures yes == Asked(data, guid, 12, count)
  {
    hide Resolve, Ours, FromBe16, Asked;
    var p: nat := 12;
    for i := 0 to count
      invariant Asked(data, guid, 12, count) == Asked(data, guid, p, count - i)
    {
      AskedNext(data, guid, p, count - i);
      var q, end := QueryName(data, p);
      if q.None? {
        return false;
      }
      p := end;
      if p + 4 > |data| {
        return false;
      }
      p := p + 4;
      if Ours(q.value, guid) {
        return true;
      }
    }
    AskedNext(data, guid, p, 1);
    yes := false;
  }

  /** Our own announcements are never answered: they carry the response bit. */
  lemma AnnouncementIsNotAQuestion(count: uint16, rest: seq<byte>)
    ensures (MessageHeader(count) + rest)[2] >= 0x80
  {
  }

  /** Questions, one after the other, each a name and four octets of type and class. */
  function EncodeQuestions(names: seq<seq<byte>>, tail: seq<byte>): seq<byte>
    requires |tail| == 4
  {
    if names == [] then [] else EncodeName(names[0]) + tail + EncodeQuestions(names[1..], tail)
  }

  lemma FirstQuestion(before: seq<byte>, n: seq<byte>, tail: seq<byte>, rest: seq<byte>, guid: seq<byte>, count: nat)
    requires |tail| == 4 && ValidName(n) && count > 0
    ensures var data := before + (EncodeName(n) + tail + rest);
            var p := |before + EncodeName(n) + tail|;
            && data == (before + EncodeName(n) + tail) + rest
            && Asked(data, guid, |before|, count) == (Ours(LowerAll(n), guid) || Asked(data, guid, p, count - 1))
  {
    hide Resolve, Ours, EncodeName, ValidName, LowerAll, Asked;
    var data := before + (EncodeName(n) + tail + rest);
    NameReadsBack(before, n, tail + rest);
    assert data == before + EncodeName(n) + (tail + rest);
    AskedNext(data, guid, |before|, count);
  }

  ghost predicate AnyOurs(names: seq<seq<byte>>, guid: seq<byte>)
  {
    exists i | 0 <= i < |names| :: Ours(LowerAll(names[i]), guid)
  }

  lemma AnyOursFirst(names: seq<seq<byte>>, guid: seq<byte>)
    requires names != []
    ensures AnyOurs(names, guid) <==> Ours(LowerAll(names[0]), guid) || AnyOurs(names[1..], guid)
  {
    hide Ours, LowerAll;
    forall i | 0 < i < |names|
      ensures names[1..][i - 1] == names[i]
    {
    }
  }

  /** A well-formed query is relevant exactly when one of its names, in lower case, is one of ours. */
  lemma {:induction false} QuestionsAsked(before: seq<byte>, names: seq<seq<byte>>, tail: seq<byte>, guid: seq<byte>)
    requires |tail| == 4 && forall i | 0 <= i < |names| :: ValidName(names[i])
    ensures Asked(before + EncodeQuestions(names, tail), guid, |before|, |names|) <==> AnyOurs(names, guid)
    decreases |names|
  {
    hide Resolve, Ours, EncodeName, ValidName, LowerAll, Asked, AnyOurs;
    if names == [] {
      AskedNext(before + EncodeQuestions(names, tail), guid, |before|, 1);
      assert !AnyOurs(names, guid) by { NoneOurs(guid); }
    } else {
      var rest := EncodeQuestions(names[1..], tail);
      FirstQuestion(before, names[0], tail, rest, guid, |names|);
      QuestionsAsked(before + EncodeName(names[0]) + tail, names[1..], tail, guid);
      AnyOursFirst(names, guid);
    }
  }

  lemma NoneOurs(guid: seq<byte>)
    ensures !AnyOurs([], guid)
  {
  }

  /** One of the names a device answers for, spelled out. */
  predicate Answers(q: seq<byte>, guid: seq<byte>)
  {
    || q == Text(CONNECT) || q == Text(PAIR) || q == guid + Text(".local")
    || q == guid + Text(".") + Text(CONNECT) || q == guid + Text(".") + Text(PAIR)
  }

  lemma OursAreAnswered(q: seq<byte>, guid: seq<byte>)
    ensures Ours(q, guid) <==> Answers(q, guid)
  {
    hide Text, ServiceName;
    ServiceTexts();
    HostText(guid);
  }

  /** A datagram is answered exactly when it is a query of at most 64 questions, one of which, in lower case, is for one
      of the device's five names; for well-formed questions nothing else matters. */
  lemma QueryIsAnsweredExactlyWhen(head: seq<byte>, names: seq<seq<byte>>, tail: seq<byte>, guid: seq<byte>)
    requires |head| == 12 && FromBe16(head[4..6]) == |names| && |tail| == 4
    requires forall i | 0 <= i < |names| :: ValidName(names[i])
    ensures Concerns(head + EncodeQuestions(names, tail), guid) <==>
            head[2] < 0x80 && |names| <= 64 && exists i | 0 <= i < |names| :: Answers(LowerAll(names[i]), guid)
  {
    hide Asked, Ours, FromBe16, EncodeQuestions, ValidName, LowerAll, Answers;
    var data := head + EncodeQuestions(names, tail);
    assert data[4..6] == head[4..6];
    QuestionsAsked(head, names, tail, guid);
    forall i | 0 <= i < |names| ensures Ours(LowerAll(names[i]), guid) <==> Answers(LowerAll(names[i]), guid) {
      OursAreAnswered(LowerAll(names[i]), guid);
    }
  }

  predicate HasUpper(s: seq<byte>)
  {
    exists i | 0 <= i < |s| :: 65 <= s[i] <= 90
  }

  lemma LowerHostName(guid: seq<byte>)
    ensures LowerAll(HostName(guid)) == HostName(LowerAll(guid))
    ensures LowerAll(guid) == guid <==> !HasUpper(guid)
    ensures DOT !in guid ==> DOT !in LowerAll(guid)
  {
    assert LowerAll(L_LOCAL) == L_LOCAL;
    assert LowerAll(HostName(guid)) == LowerAll(guid) + [DOT] + LowerAll(L_LOCAL);
    if !HasUpper(guid) {
      forall i | 0 <= i < |guid|
        ensures LowerAll(guid)[i] == guid[i]
      {
      }
    } else {
      var i :| 0 <= i < |guid| && 65 <= guid[i] <= 90;
      assert LowerAll(guid)[i] != guid[i];
    }
  }

  lemma LabelCounts(guid: seq<byte>, kind: Label)
    requires DOT !in guid && DOT !in kind
    ensures Split(HostName(guid)) == [guid, L_LOCAL]
    ensures |Split(ServiceName(kind))| == 3 && |Split(Instance(guid, kind))| == 4
  {
    hide Split, Join, ValidUtf8;
    assert DOT !in L_LOCAL && DOT !in L_TCP by { ConstantLabels(); }
    SplitPrepend(guid, L_LOCAL);
    SplitLabel(L_LOCAL);
    var service := [kind, L_TCP, L_LOCAL];
    SplitJoin(service);
    SplitPrepend(guid, ServiceName(kind));
  }

  /** A query for the device's own host name is recognised exactly when the name has no upper-case letter: the
      question is lower-cased and the device's name is not. */
  lemma OwnNameIsRecognisedExactlyWhen(guid: seq<byte>)
    requires ValidGuid(guid)
    ensures Ours(LowerAll(HostName(guid)), guid) <==> !HasUpper(guid)
  {
    hide Split, HostName, ServiceName, Instance, ValidUtf8, HasUpper;
    ConstantLabels();
    LowerHostName(guid);
    var low := LowerAll(guid);
    LabelCounts(low, L_CONNECT);
    LabelCounts(guid, L_CONNECT);
    LabelCounts(guid, L_PAIRING);
    assert [low, L_LOCAL][0] == low && [guid, L_LOCAL][0] == guid;
  }

  /** For instance under the name `A`. */
  lemma CapitalNameIsNotRecognised()
    ensures var guid: seq<byte> := [65]; ValidGuid(guid) && !Ours(LowerAll(HostName(guid)), guid)
  {
    var guid: seq<byte> := [65];
    assert HasUpper(guid) by { assert guid[0] == 65; }
    OwnNameIsRecognisedExactlyWhen(guid);
  }
}
