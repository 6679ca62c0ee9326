/** The ADB packet codec: `Packet::write`, `Packet::read` and the incremental framing loop of
    `Connection::parse`. */
module Protocol {
  import opened Wrappers
  import opened Bytes

  const MAX_PAYLOAD := 0x10_0000
  const CHUNK := 0x1_0000
  const HEADER := 24

  const CNXN: uint32 := 0x4E58_4E43
  const STLS: uint32 := 0x534C_5453
  const OPEN: uint32 := 0x4E45_504F
  const OKAY: uint32 := 0x5941_4B4F
  const WRTE: uint32 := 0x4554_5257
  const CLSE: uint32 := 0x4553_4C43

  datatype Packet = Packet(command: uint32, arg0: uint32, arg1: uint32, data: seq<byte>)

  datatype CodecError = Truncated | BadMagic | TooLong | BadChecksum

  /** Exclusive or with `u32::MAX`, written as arithmetic; `ComplementIsXor` justifies it. */
  function Complement(n: uint32): uint32
  {
    U32_MAX - n
  }

  lemma ComplementIsXor(a: bv32, b: bv32)
    ensures a ^ 0xFFFF_FFFF == 0xFFFF_FFFF - a
    ensures a ^ b == 0xFFFF_FFFF ==> b == a ^ 0xFFFF_FFFF
  {
    assert a ^ (a ^ b) == b;
  }

  /** Wrapping 32-bit sum of the payload bytes. */
  function Checksum(data: seq<byte>): uint32
  {
    if data == [] then 0 else (Checksum(data[..|data| - 1]) + data[|data| - 1]) % 0x1_0000_0000
  }

  method Sum(data: seq<byte>) returns (sum: uint32)
    ensures sum == Checksum(data)
  {
    sum := 0;
    for i := 0 to |data|
      invariant sum == Checksum(data[..i])
    {
      assert data[..i + 1][..i] == data[..i];
      sum := (sum + data[i]) % 0x1_0000_0000;
    }
    assert data[..|data|] == data;
  }

  /** The 24-byte header: command, two arguments, length, checksum and the complemented command. */
  function Header(p: Packet, sum: uint32): (h: seq<byte>)
    requires |p.data| <= MAX_PAYLOAD
    ensures |h| == HEADER
  {
    Le32(p.command) + Le32(p.arg0) + Le32(p.arg1) + Le32(|p.data|) + Le32(sum) + Le32(Complement(p.command))
  }

  /** The bytes `Packet::write` hands to its writer in one piece. */
  function Write(p: Packet, checksum: bool): Result<seq<byte>, CodecError>
  {
    if |p.data| > MAX_PAYLOAD then Err(TooLong)
    else Ok(Header(p, if checksum then Checksum(p.data) else 0) + p.data)
  }

  method WritePacket(p: Packet, checksum: bool) returns (r: Result<seq<byte>, CodecError>)
    ensures r == Write(p, checksum)
  {
    if |p.data| > MAX_PAYLOAD {
      return Err(TooLong);
    }
    var sum := 0;
    if checksum {
      sum := Sum(p.data);
    }
    var fields: seq<uint32> := [p.command, p.arg0, p.arg1, |p.data|, sum, Complement(p.command)];
    var packet := [];
    for i := 0 to |fields|
      invariant packet == Words(fields[..i])
    {
      assert fields[..i + 1][..i] == fields[..i];
      packet := packet + Le32(fields[i]);
    }
    assert fields[..6] == fields;
    WordsOfSix(fields);
    packet := packet + p.data;
    r := Ok(packet);
  }

  /** Little-endian words, end to end. */
  function Words(fields: seq<uint32>): seq<byte>
  {
    if fields == [] then [] else Words(fields[..|fields| - 1]) + Le32(fields[|fields| - 1])
  }

  lemma WordsOfSix(f: seq<uint32>)
    requires |f| == 6
    ensures Words(f) == Le32(f[0]) + Le32(f[1]) + Le32(f[2]) + Le32(f[3]) + Le32(f[4]) + Le32(f[5])
  {
    assert f[..5][..4] == f[..4] && f[..4][..3] == f[..3] && f[..3][..2] == f[..2] && f[..2][..1] == f[..1];
    assert f[..1][..0] == [];
    assert Words(f[..1]) == Le32(f[0]);
    assert Words(f[..2]) == Words(f[..1]) + Le32(f[1]);
    assert Words(f[..3]) == Words(f[..2]) + Le32(f[2]);
    assert Words(f[..4]) == Words(f[..3]) + Le32(f[3]);
    assert Words(f[..5]) == Words(f[..4]) + Le32(f[4]);
  }

  function Field(h: seq<byte>, i: nat): uint32
    requires i < 6 && HEADER <= |h|
  {
    FromLe32(h[4 * i..4 * i + 4])
  }

  function Min(a: nat, b: nat): nat
  {
    if a < b then a else b
  }

  /** `Packet::read`: the packet and what is left in the reader, with the source's order of checks. */
  function Read(r: seq<byte>, max: nat, checksum: bool): Result<(Packet, seq<byte>), CodecError>
  {
    if |r| < HEADER then Err(Truncated)
    else if Field(r, 5) != Complement(Field(r, 0)) then Err(BadMagic)
    else
      var len := Field(r, 3);
      if len > Min(max, MAX_PAYLOAD) then Err(TooLong)
      else if |r| < HEADER + len then Err(Truncated)
      else
        var data := r[HEADER..HEADER + len];
        if checksum && Checksum(data) != Field(r, 4) then Err(BadChecksum)
        else Ok((Packet(Field(r, 0), Field(r, 1), Field(r, 2), data), r[HEADER + len..]))
  }

  lemma HeaderFields(p: Packet, sum: uint32, tail: seq<byte>)
    requires |p.data| <= MAX_PAYLOAD
    ensures var h := Header(p, sum) + tail;
            && Field(h, 0) == p.command && Field(h, 1) == p.arg0 && Field(h, 2) == p.arg1
            && Field(h, 3) == |p.data| && Field(h, 4) == sum && Field(h, 5) == Complement(p.command)
  {
    var h := Header(p, sum) + tail;
    assert h[0..4] == Le32(p.command);
    assert h[4..8] == Le32(p.arg0);
    assert h[8..12] == Le32(p.arg1);
    assert h[12..16] == Le32(|p.data|);
    assert h[16..20] == Le32(sum);
    assert h[20..24] == Le32(Complement(p.command));
    Le32RoundTrip(p.command);
    Le32RoundTrip(p.arg0);
    Le32RoundTrip(p.arg1);
    Le32RoundTrip(|p.data|);
    Le32RoundTrip(sum);
    Le32RoundTrip(Complement(p.command));
  }

  /** A written packet is read back whole, and nothing after it is consumed. */
  lemma WriteThenRead(p: Packet, tail: seq<byte>, max: nat, wsum: bool, rsum: bool)
    requires |p.data| <= Min(max, MAX_PAYLOAD)
    requires rsum ==> wsum
    ensures Write(p, wsum).Ok?
    ensures Read(Write(p, wsum).value + tail, max, rsum) == Ok((p, tail))
  {
    var sum := if wsum then Checksum(p.data) else 0;
    var h := Header(p, sum);
    assert Write(p, wsum).value + tail == h + (p.data + tail);
    HeaderFields(p, sum, p.data + tail);
    var r := h + (p.data + tail);
    assert r[HEADER..HEADER + |p.data|] == p.data;
    assert r[HEADER + |p.data|..] == tail;
  }

  lemma HeaderIsItsFields(r: seq<byte>)
    requires HEADER <= |r|
    ensures r[..HEADER] == Le32(Field(r, 0)) + Le32(Field(r, 1)) + Le32(Field(r, 2)) + Le32(Field(r, 3))
                           + Le32(Field(r, 4)) + Le32(Field(r, 5))
  {
    FromLe32RoundTrip(r[0..4]);
    FromLe32RoundTrip(r[4..8]);
    FromLe32RoundTrip(r[8..12]);
    FromLe32RoundTrip(r[12..16]);
    FromLe32RoundTrip(r[16..20]);
    FromLe32RoundTrip(r[20..24]);
    assert r[..HEADER] == r[0..4] + r[4..8] + r[8..12] + r[12..16] + r[16..20] + r[20..24];
  }

  /** A checksummed read accepts a byte string exactly when it starts with a written packet. */
  lemma ReadAcceptsExactlyWrites(r: seq<byte>, max: nat, p: Packet, tail: seq<byte>)
    ensures Read(r, max, true) == Ok((p, tail)) <==>
            |p.data| <= Min(max, MAX_PAYLOAD) && r == Write(p, true).value + tail
  {
    hide Read, Header;
    if |p.data| <= Min(max, MAX_PAYLOAD) && r == Write(p, true).value + tail {
      WriteThenRead(p, tail, max, true, true);
    }
    if Read(r, max, true) == Ok((p, tail)) {
      ReadWasWritten(r, max, p, tail);
    }
  }

  lemma ReadWasWritten(r: seq<byte>, max: nat, p: Packet, tail: seq<byte>)
    requires Read(r, max, true) == Ok((p, tail))
    ensures |p.data| <= Min(max, MAX_PAYLOAD) && r == Write(p, true).value + tail
  {
    hide Header, Field, Checksum;
    FieldsMakeHeader(r, p);
    assert r == r[..HEADER] + r[HEADER..HEADER + |p.data|] + r[HEADER + |p.data|..];
  }

  /** Every proper prefix of a written packet is refused as truncated. */
  lemma PrefixIsTruncated(p: Packet, n: nat, max: nat, wsum: bool, rsum: bool)
    requires |p.data| <= Min(max, MAX_PAYLOAD)
    requires n < HEADER + |p.data|
    ensures n < |Write(p, wsum).value| && Read(Write(p, wsum).value[..n], max, rsum) == Err(Truncated)
  {
    var sum := if wsum then Checksum(p.data) else 0;
    var b := Write(p, wsum).value;
    if HEADER <= n {
      var t := b[HEADER..n];
      assert b[..n] == Header(p, sum) + t;
      HeaderFields(p, sum, t);
    }
  }

  /** The unbounded sum of the octets. */
  ghost function Total(data: seq<byte>): nat
  {
    if data == [] then 0 else data[0] as int + Total(data[1..])
  }

  lemma {:induction false} TotalPush(data: seq<byte>, b: byte)
    ensures Total(data + [b]) == Total(data) + b as int
  {
    if data == [] {
      assert (data + [b])[1..] == [];
    } else {
      assert (data + [b])[1..] == data[1..] + [b];
      TotalPush(data[1..], b);
    }
  }

  lemma Wrapping(a: nat, b: nat)
    ensures (a % 0x1_0000_0000 + b) % 0x1_0000_0000 == (a + b) % 0x1_0000_0000
  {
  }

  lemma {:induction false} ChecksumIsTotal(data: seq<byte>)
    ensures Checksum(data) == Total(data) % 0x1_0000_0000
  {
    if data != [] {
      var init, last := data[..|data| - 1], data[|data| - 1];
      ChecksumIsTotal(init);
      TotalPush(init, last);
      assert data == init + [last];
      Wrapping(Total(init), last as int);
    }
  }

  /** Four octets at a place in a string, least significant first, are a number. */
  ghost predicate LittleEndianAt(s: seq<byte>, at: nat, n: nat)
  {
    at + 4 <= |s| && n == s[at] as int + 256 * s[at + 1] as int + 65536 * s[at + 2] as int + 16777216 * s[at + 3] as int
  }

  lemma WordAt(s: seq<byte>, at: nat, n: uint32)
    requires at + 4 <= |s| && s[at..at + 4] == Le32(n)
    ensures LittleEndianAt(s, at, n)
  {
    hide Le32;
    Le32RoundTrip(n);
    var w := s[at..at + 4];
    assert w[0] == s[at] && w[1] == s[at + 1] && w[2] == s[at + 2] && w[3] == s[at + 3];
  }

  lemma HeaderWords(p: Packet, sum: uint32, tail: seq<byte>)
    requires |p.data| <= MAX_PAYLOAD
    ensures var h := Header(p, sum) + tail;
            && |h| == 24 + |tail| && h[24..] == tail
            && h[0..4] == Le32(p.command) && h[4..8] == Le32(p.arg0) && h[8..12] == Le32(p.arg1)
            && h[12..16] == Le32(|p.data|) && h[16..20] == Le32(sum) && h[20..24] == Le32(Complement(p.command))
  {
    hide Le32, Complement;
  }

  lemma ComplementedOctets(n: uint32, k: nat)
    requires k < 4
    ensures Le32(Complement(n))[k] as int == 255 - Le32(n)[k] as int
  {
    hide Le32, FromLe32;
    var w := Le32(n);
    var flipped: seq<byte> := [255 - w[0] as int, 255 - w[1] as int, 255 - w[2] as int, 255 - w[3] as int];
    Le32RoundTrip(n);
    FlippedIsComplement(Le32(n), flipped);
    FromLe32RoundTrip(flipped);
  }

  lemma FlippedIsComplement(s: seq<byte>, f: seq<byte>)
    requires |s| == 4 && |f| == 4 && forall i | 0 <= i < 4 :: f[i] as int == 255 - s[i] as int
    ensures FromLe32(f) == Complement(FromLe32(s))
  {
  }

  /** A packet on the wire, octet by octet. It can be written exactly when its payload has at most a mebibyte. */
  lemma PacketOnTheWire(p: Packet, checksum: bool)
    ensures Write(p, checksum).Ok? <==> |p.data| <= 1048576
    ensures Write(p, checksum).Ok? ==>
              var b := Write(p, checksum).value;
              && |b| == 24 + |p.data| && b[24..] == p.data
              && LittleEndianAt(b, 0, p.command) && LittleEndianAt(b, 4, p.arg0) && LittleEndianAt(b, 8, p.arg1)
              && LittleEndianAt(b, 12, |p.data|)
              && LittleEndianAt(b, 16, if checksum then Total(p.data) % 4294967296 else 0)
              && forall k | 0 <= k < 4 :: b[20 + k] as int == 255 - b[k] as int
  {
    hide Le32, FromLe32, Complement, LittleEndianAt, Checksum, Header;
    if |p.data| <= MAX_PAYLOAD {
      var sum := if checksum then Checksum(p.data) else 0;
      var b := Write(p, checksum).value;
      ChecksumIsTotal(p.data);
      HeaderWords(p, sum, p.data);
      WordAt(b, 0, p.command);
      WordAt(b, 4, p.arg0);
      WordAt(b, 8, p.arg1);
      WordAt(b, 12, |p.data|);
      WordAt(b, 16, sum);
      forall k | 0 <= k < 4
        ensures b[20 + k] as int == 255 - b[k] as int
      {
        ComplementedOctets(p.command, k);
        assert b[20 + k] == b[20..24][k] && b[k] == b[0..4][k];
      }
    }
  }

  ghost function Letters(s: string): seq<byte>
    requires forall i | 0 <= i < |s| :: s[i] < 256 as char
  {
    seq(|s|, i requires 0 <= i < |s| => s[i] as int)
  }

  /** Commands are four letters on the wire. */
  lemma CommandsAreLetters()
    ensures Le32(CNXN) == Letters("CNXN") && Le32(STLS) == Letters("STLS") && Le32(OPEN) == Letters("OPEN")
    ensures Le32(OKAY) == Letters("OKAY") && Le32(WRTE) == Letters("WRTE") && Le32(CLSE) == Letters("CLSE")
  {
    assert Le32(CNXN) == ['C' as int, 'N' as int, 'X' as int, 'N' as int];
    assert Le32(STLS) == ['S' as int, 'T' as int, 'L' as int, 'S' as int];
    assert Le32(OPEN) == ['O' as int, 'P' as int, 'E' as int, 'N' as int];
    assert Le32(OKAY) == ['O' as int, 'K' as int, 'A' as int, 'Y' as int];
    assert Le32(WRTE) == ['W' as int, 'R' as int, 'T' as int, 'E' as int];
    assert Le32(CLSE) == ['C' as int, 'L' as int, 'S' as int, 'E' as int];
  }

  /** A read that does not check sums, as the connection loop's, accepts a byte string exactly when it starts with
      a packet under some sum. */
  lemma UncheckedReadAcceptsExactly(r: seq<byte>, max: nat, p: Packet, tail: seq<byte>)
    ensures Read(r, max, false) == Ok((p, tail)) <==>
            |p.data| <= Min(max, MAX_PAYLOAD) && exists sum: uint32 :: r == Header(p, sum) + (p.data + tail)
  {
    hide Header, Read, Field;
    if |p.data| <= Min(max, MAX_PAYLOAD) && exists sum: uint32 :: r == Header(p, sum) + (p.data + tail) {
      var sum: uint32 :| r == Header(p, sum) + (p.data + tail);
      HeaderIsRead(p, sum, tail, max);
    }
    if Read(r, max, false) == Ok((p, tail)) {
      ReadIsHeader(r, max, p, tail);
    }
  }

  lemma HeaderIsRead(p: Packet, sum: uint32, tail: seq<byte>, max: nat)
    requires |p.data| <= Min(max, MAX_PAYLOAD)
    ensures Read(Header(p, sum) + (p.data + tail), max, false) == Ok((p, tail))
  {
    hide Header, Field, Checksum;
    HeaderFields(p, sum, p.data + tail);
    var r := Header(p, sum) + (p.data + tail);
    assert r[HEADER..HEADER + |p.data|] == p.data;
    assert r[HEADER + |p.data|..] == tail;
  }

  lemma ReadIsHeader(r: seq<byte>, max: nat, p: Packet, tail: seq<byte>)
    requires Read(r, max, false) == Ok((p, tail))
    ensures |p.data| <= Min(max, MAX_PAYLOAD) && r == Header(p, Field(r, 4)) + (p.data + tail)
  {
    hide Header, Field, Checksum;
    FieldsMakeHeader(r, p);
    assert r == r[..HEADER] + (r[HEADER..HEADER + |p.data|] + r[HEADER + |p.data|..]);
  }

  lemma FieldsMakeHeader(r: seq<byte>, p: Packet)
    requires HEADER <= |r| && |p.data| <= MAX_PAYLOAD
    requires Field(r, 0) == p.command && Field(r, 1) == p.arg0 && Field(r, 2) == p.arg1 && Field(r, 3) == |p.data|
    requires Field(r, 5) == Complement(p.command)
    ensures r[..HEADER] == Header(p, Field(r, 4))
  {
    hide Field;
    HeaderIsItsFields(r);
  }

  // ---------------------------------------------------------------------------------------------
  // Framing

  /** Packets cut from a byte string, what is left over, and the error that stopped the cutting. */
  datatype Frames = Frames(packets: seq<Packet>, rest: seq<byte>, error: Option<CodecError>)

  /** One turn of the loop in `Connection::parse`: wait for more, stop, or yield one packet. */
  datatype Cut = Wait | Stop(error: CodecError) | Yield(packet: Packet, rest: seq<byte>)

  function CutOne(input: seq<byte>, max: nat): (r: Cut)
    ensures r.Yield? ==> |r.rest| + HEADER <= |input| && |r.packet.data| <= max
  {
    if |input| < HEADER then Wait
    else
      var len := Field(input, 3);
      if len > max then Stop(TooLong)
      else if |input| < HEADER + len then Wait
      else
        match Read(input[..HEADER + len], max, false)
        case Err(e) => Stop(e)
        case Ok(v) => FieldOfPrefix(input, HEADER + len, 3); Yield(v.0, input[HEADER + len..])
  }

  /** The cases of `CutOne`, in the order the source tries them. */
  lemma CutCases(input: seq<byte>, max: nat)
    ensures |input| < HEADER ==> CutOne(input, max) == Wait
    ensures HEADER <= |input| && Field(input, 3) > max ==> CutOne(input, max) == Stop(TooLong)
    ensures HEADER <= |input| < HEADER + Field(input, 3) && Field(input, 3) <= max ==> CutOne(input, max) == Wait
    ensures HEADER <= |input| && Field(input, 3) <= max && HEADER + Field(input, 3) <= |input| ==>
              CutOne(input, max) ==
              match Read(input[..HEADER + Field(input, 3)], max, false)
              case Err(e) => Stop(e)
              case Ok(v) => Yield(v.0, input[HEADER + Field(input, 3)..])
  {
    hide Read;
  }

  lemma FieldOfPrefix(r: seq<byte>, n: nat, i: nat)
    requires HEADER <= n <= |r| && i < 6
    ensures Field(r[..n], i) == Field(r, i)
  {
    assert r[..n][4 * i..4 * i + 4] == r[4 * i..4 * i + 4];
  }

  function Split(input: seq<byte>, max: nat): Frames
    decreases |input|
  {
    match CutOne(input, max)
    case Wait => Frames([], input, None)
    case Stop(e) => Frames([], input, Some(e))
    case Yield(p, rest) =>
      var f := Split(rest, max);
      Frames([p] + f.packets, f.rest, f.error)
  }

  /** Once a turn of the loop has decided anything, more input does not change the decision. */
  lemma CutOneStable(a: seq<byte>, b: seq<byte>, max: nat)
    ensures CutOne(a, max).Stop? ==> CutOne(a + b, max) == CutOne(a, max)
    ensures CutOne(a, max).Yield? ==>
              CutOne(a + b, max) == Yield(CutOne(a, max).packet, CutOne(a, max).rest + b)
  {
    if HEADER <= |a| {
      assert (a + b)[..|a|] == a;
      FieldOfPrefix(a + b, |a|, 3);
      var len := Field(a, 3);
      if HEADER + len <= |a| {
        TakeOfSum(a, b, HEADER + len);
      }
    }
  }

  lemma SplitUnfolds(input: seq<byte>, p: Packet, rest: seq<byte>, max: nat)
    requires CutOne(input, max) == Yield(p, rest)
    ensures var f := Split(rest, max); Split(input, max) == Frames([p] + f.packets, f.rest, f.error)
  {
  }

  /** Feeding more bytes continues from the residue, or changes nothing after an error. */
  lemma {:induction false} SplitAppend(a: seq<byte>, b: seq<byte>, max: nat)
    ensures var f := Split(a, max);
            Split(a + b, max) ==
            if f.error.Some? then Frames(f.packets, f.rest + b, f.error)
            else var g := Split(f.rest + b, max); Frames(f.packets + g.packets, g.rest, g.error)
    decreases |a|
  {
    CutOneStable(a, b, max);
    var cut := CutOne(a, max);
    if cut.Wait? {
      SplitOfWait(a, b, max);
    } else if cut.Yield? {
      SplitAppend(cut.rest, b, max);
      SplitUnfolds(a, cut.packet, cut.rest, max);
      SplitUnfolds(a + b, cut.packet, cut.rest + b, max);
      var f := Split(cut.rest, max);
      FramesPrepend(cut.packet, f.packets, Split(f.rest + b, max).packets);
    }
  }

  lemma SplitOfWait(a: seq<byte>, b: seq<byte>, max: nat)
    requires CutOne(a, max).Wait?
    ensures Split(a, max) == Frames([], a, None)
    ensures var g := Split(a + b, max); g == Frames([] + g.packets, g.rest, g.error)
  {
    var g := Split(a + b, max);
    assert [] + g.packets == g.packets;
  }

  lemma FramesPrepend(p: Packet, f: seq<Packet>, g: seq<Packet>)
    ensures [p] + (f + g) == ([p] + f) + g
  {
  }

  /** What the read loop has after any list of reads: it stops reading at the first error. */
  function Feed(chunks: seq<seq<byte>>, max: nat): Frames
  {
    if chunks == [] then Frames([], [], None)
    else
      var f := Feed(chunks[..|chunks| - 1], max);
      if f.error.Some? then f
      else
        var g := Split(f.rest + chunks[|chunks| - 1], max);
        Frames(f.packets + g.packets, g.rest, g.error)
  }

  /** Packets, framing error and residue depend on the bytes received, not on how reads cut them. */
  lemma {:induction false} ChunkingIrrelevant(chunks: seq<seq<byte>>, max: nat)
    ensures Feed(chunks, max).packets == Split(Concat(chunks), max).packets
    ensures Feed(chunks, max).error == Split(Concat(chunks), max).error
    ensures Feed(chunks, max).error.None? ==> Feed(chunks, max).rest == Split(Concat(chunks), max).rest
  {
    if chunks != [] {
      var init, last := chunks[..|chunks| - 1], chunks[|chunks| - 1];
      assert chunks == init + [last];
      ConcatPush(init, last);
      ChunkingIrrelevant(init, max);
      SplitAppend(Concat(init), last, max);
    }
  }

  /** The residue of a cut is always shorter than one maximal packet. */
  lemma {:induction false} ResidueIsShort(input: seq<byte>, max: nat)
    ensures Split(input, max).error.None? ==> |Split(input, max).rest| < HEADER + max
    ensures CutOne(Split(input, max).rest, max).Wait? <==> Split(input, max).error.None?
    decreases |input|
  {
    match CutOne(input, max)
    case Wait =>
    case Stop(_) =>
    case Yield(_, rest) => ResidueIsShort(rest, max);
  }

  ghost predicate Fit(ps: seq<Packet>, max: nat)
  {
    forall i | 0 <= i < |ps| :: |ps[i].data| <= max
  }

  /** The bytes of packets written one after the other. */
  function WriteAll(ps: seq<Packet>, checksum: bool): seq<byte>
    requires Fit(ps, MAX_PAYLOAD)
  {
    if ps == [] then [] else Write(ps[0], checksum).value + WriteAll(ps[1..], checksum)
  }

  lemma WrittenPacketIsCut(p: Packet, tail: seq<byte>, max: nat, checksum: bool)
    requires |p.data| <= Min(max, MAX_PAYLOAD)
    ensures Write(p, checksum).Ok?
    ensures CutOne(Write(p, checksum).value + tail, max) == Yield(p, tail)
  {
    var sum := if checksum then Checksum(p.data) else 0;
    var b := Write(p, checksum).value;
    assert b + tail == Header(p, sum) + (p.data + tail);
    HeaderFields(p, sum, p.data + tail);
    WriteThenRead(p, [], max, checksum, false);
    assert (b + tail)[..|b|] == b && b + [] == b;
    assert (b + tail)[|b|..] == tail;
  }

  /** Written packets within the negotiated limit are cut out again, in order, with nothing left. */
  lemma {:induction false} WritesAreFramed(ps: seq<Packet>, max: nat, checksum: bool)
    requires Fit(ps, max) && max <= MAX_PAYLOAD
    ensures Split(WriteAll(ps, checksum), max) == Frames(ps, [], None)
  {
    if ps == [] {
      assert CutOne([], max) == Wait;
    } else {
      var tail := WriteAll(ps[1..], checksum);
      WrittenPacketIsCut(ps[0], tail, max, checksum);
      SplitUnfolds(Write(ps[0], checksum).value + tail, ps[0], tail, max);
      WritesAreFramed(ps[1..], max, checksum);
      assert ps == [ps[0]] + ps[1..];
    }
  }
}
