/** One multiplexed stream: its service source, its queue of partly written packets and the specification of
    `Stream::enqueue` and `Stream::flush_pending`. */
module Streams {
  import opened Wrappers
  import opened Bytes

  const MAX_PENDING := 64

  /** What the service socket answers to a write: it takes a prefix, would block, or fails. Taking nothing is
      the `WriteZero` error. */
  datatype WriteOutcome = Took(count: nat) | WriteBlocked | WriteFailed

  /** What the service socket answers to a read. An empty gift is the end of the stream. */
  datatype ReadOutcome = Gave(data: seq<byte>) | ReadBlocked | ReadFailed

  /** A service socket answers from a script the environment chose; any behaviour of a real peer up to some
      moment is such a script. A `Bytes` source is the read-only reply to `root:` and `reverse:`. */
  datatype Source =
    | Socket(writes: seq<WriteOutcome>, gifts: seq<ReadOutcome>)
    | Reply(rest: seq<byte>)

  /** `Source::write`. A socket never takes more than it is offered; a finished script blocks. */
  function WriteTo(s: Source, data: seq<byte>): (r: (Source, WriteOutcome))
    ensures r.1.Took? ==> r.1.count <= |data| && s.Socket? && r.0.Socket? && |r.0.writes| < |s.writes|
  {
    match s
    case Reply(_) => (s, WriteFailed)
    case Socket(writes, gifts) =>
      if writes == [] then (s, WriteBlocked)
      else
        (Socket(writes[1..], gifts),
         match writes[0]
         case Took(n) => Took(if n <= |data| then n else |data|)
         case other => other)
  }

  /** `Source::read` into a buffer of `cap` bytes; what does not fit stays for the next read. */
  function ReadFrom(s: Source, cap: nat): (r: (Source, ReadOutcome))
    requires 0 < cap
    ensures r.1.Gave? ==> |r.1.data| <= cap
  {
    match s
    case Reply(rest) =>
      var n := if |rest| <= cap then |rest| else cap;
      (Reply(rest[n..]), Gave(rest[..n]))
    case Socket(writes, gifts) =>
      if gifts == [] then (s, ReadBlocked)
      else
        match gifts[0]
        case Gave(data) =>
          if |data| <= cap then (Socket(writes, gifts[1..]), Gave(data))
          else (Socket(writes, [Gave(data[cap..])] + gifts[1..]), Gave(data[..cap]))
        case other => (Socket(writes, gifts[1..]), other)
  }

  datatype StreamState = StreamState(
    remote: uint32,
    source: Source,
    pending: seq<seq<byte>>,
    offset: nat,
    waiting: bool,
    opening: Option<nat>,
    closing: Option<nat>)
  {
    /** What holds of every stream between operations. */
    ghost predicate Valid()
    {
      && |pending| <= MAX_PENDING
      && (forall i | 0 <= i < |pending| :: pending[i] != [])
      && (if pending == [] then offset == 0 else offset < |pending[0]|)
      && (remote == 0 <==> opening.Some?)
      && (opening.Some? ==> pending == [] && !waiting)
    }

    /** The queue from the write offset on: what the service has still to be given. */
    ghost function Undelivered(): seq<byte>
      requires pending != [] ==> offset <= |pending[0]|
    {
      if pending == [] then [] else pending[0][offset..] + Concat(pending[1..])
    }
  }

  /** `Stream::enqueue`. */
  function Enqueue(s: StreamState, data: seq<byte>): Option<StreamState>
  {
    if |s.pending| < MAX_PENDING then Some(s.(pending := s.pending + [data])) else None
  }

  lemma EnqueueAppends(s: StreamState, data: seq<byte>)
    requires s.Valid() && s.opening.None? && data != [] && Enqueue(s, data).Some?
    ensures var t := Enqueue(s, data).value;
            && t.Valid()
            && t.Undelivered() == s.Undelivered() + data
            && Size(t.pending) == Size(s.pending) + |data|
  {
    SizePush(s.pending, data);
    var t := Enqueue(s, data).value;
    if s.pending == [] {
      assert t.pending[1..] == [];
    } else {
      assert t.pending[1..] == s.pending[1..] + [data];
      ConcatPush(s.pending[1..], data);
    }
  }

  /** The result of draining the queue: the stream after, what the service took, whether anything moved, and
      whether the socket stayed usable. */
  datatype Flushed = Flushed(stream: StreamState, delivered: seq<byte>, progress: bool, ok: bool)

  /** `Stream::flush_pending`: offer the rest of the front packet until the queue is empty, the socket would
      block, or it fails. */
  function Flush(s: StreamState): Flushed
    requires s.pending != [] ==> s.offset <= |s.pending[0]|
    decreases Script(s)
  {
    if s.pending == [] then Flushed(s, [], false, true)
    else
      var front := s.pending[0];
      var (source, outcome) := WriteTo(s.source, front[s.offset..]);
      match outcome
      case WriteBlocked => Flushed(s.(source := source), [], false, true)
      case WriteFailed => Flushed(s.(source := source), [], false, false)
      case Took(n) =>
        if n == 0 then Flushed(s.(source := source), [], false, false)
        else
          var r := Flush(Advance(s.(source := source), n));
          r.(delivered := front[s.offset..s.offset + n] + r.delivered, progress := true)
  }

  lemma {:induction false} FlushInBounds(s: StreamState)
    requires s.pending != [] ==> s.offset <= |s.pending[0]|
    ensures var t := Flush(s).stream; t.pending != [] ==> t.offset <= |t.pending[0]|
    decreases Script(s)
  {
    if s.pending != [] {
      var (source, outcome) := WriteTo(s.source, s.pending[0][s.offset..]);
      if outcome.Took? && outcome.count != 0 {
        FlushInBounds(Advance(s.(source := source), outcome.count));
      }
    }
  }

  /** Answers left in the socket's script. */
  function Script(s: StreamState): nat
  {
    if s.source.Socket? then |s.source.writes| else 0
  }

  /** Moves the offset past `n` written bytes and frees the front packet when it is finished. */
  function Advance(s: StreamState, n: nat): (t: StreamState)
    requires s.pending != [] && s.offset + n <= |s.pending[0]|
    ensures t.pending != [] ==> t.offset <= |t.pending[0]|
  {
    if s.offset + n == |s.pending[0]| then s.(pending := s.pending[1..], offset := 0)
    else s.(offset := s.offset + n)
  }

  /** Draining touches the queue and the socket only. */
  ghost predicate SameRole(s: StreamState, t: StreamState)
  {
    && t.remote == s.remote && t.waiting == s.waiting && t.opening == s.opening && t.closing == s.closing
  }

  lemma AdvanceConserves(s: StreamState, n: nat)
    requires s.Valid() && s.pending != [] && s.offset + n <= |s.pending[0]|
    ensures Advance(s, n).Valid()
    ensures s.pending[0][s.offset..s.offset + n] + Advance(s, n).Undelivered() == s.Undelivered()
    ensures Size(Advance(s, n).pending) <= Size(s.pending)
    ensures |Advance(s, n).pending| <= |s.pending|
    ensures Advance(s, n).pending == [] ==> s.offset + n == |s.pending[0]|
  {
    var front := s.pending[0];
    var t := Advance(s, n);
    if s.offset + n == |front| {
      assert front[s.offset..s.offset + n] == front[s.offset..];
      assert t.Undelivered() == Concat(s.pending[1..]) by {
        if t.pending != [] {
          assert t.pending[0][0..] == t.pending[0];
        }
      }
    } else {
      assert front[s.offset..] == front[s.offset..s.offset + n] + front[s.offset + n..];
      assert front[s.offset..s.offset + n] + (front[s.offset + n..] + Concat(s.pending[1..]))
          == front[s.offset..] + Concat(s.pending[1..]);
    }
  }

  /** The conservation law of a drain from `s` with result `r`. */
  ghost predicate Conserved(s: StreamState, r: Flushed)
    requires s.Valid()
  {
    && r.stream.Valid() && SameRole(s, r.stream)
    && r.delivered + r.stream.Undelivered() == s.Undelivered()
    && Size(r.stream.pending) <= Size(s.pending)
    && |r.stream.pending| <= |s.pending|
    && (r.progress <==> r.delivered != [])
  }

  lemma FlushTakes(s: StreamState, source: Source, n: nat)
    requires s.pending != [] && s.offset <= |s.pending[0]| && 0 < n <= |s.pending[0]| - s.offset
    requires WriteTo(s.source, s.pending[0][s.offset..]) == (source, Took(n))
    ensures var t := Advance(s.(source := source), n);
            var piece := s.pending[0][s.offset..s.offset + n];
            Flush(s) == Flush(t).(delivered := piece + Flush(t).delivered, progress := true)
  {
    hide WriteTo, Advance;
  }

  lemma AdvanceTakes(s: StreamState, source: Source, n: nat)
    requires s.Valid() && s.pending != [] && 0 < n
    requires WriteTo(s.source, s.pending[0][s.offset..]) == (source, Took(n))
    ensures var t := Advance(s.(source := source), n);
            var piece := s.pending[0][s.offset..s.offset + n];
            && t.Valid() && SameRole(s, t) && Script(t) < Script(s)
            && piece + t.Undelivered() == s.Undelivered()
            && Size(t.pending) <= Size(s.pending) && |t.pending| <= |s.pending|
  {
    var moved := s.(source := source);
    AdvanceConserves(moved, n);
    assert moved.Undelivered() == s.Undelivered();
  }

  /** One turn of the drain: either it is over and conserved everything, or the service took `piece` and the
      drain goes on from `t` with a shorter script. */
  lemma FlushTurn(s: StreamState) returns (over: bool, piece: seq<byte>, t: StreamState)
    requires s.Valid()
    ensures over ==> Conserved(s, Flush(s))
    ensures !over ==>
              && t.Valid() && SameRole(s, t) && Script(t) < Script(s)
              && piece != [] && piece + t.Undelivered() == s.Undelivered()
              && Size(t.pending) <= Size(s.pending) && |t.pending| <= |s.pending|
              && Flush(s) == Flush(t).(delivered := piece + Flush(t).delivered, progress := true)
  {
    hide Advance, Flush, Conserved, StreamState.Undelivered, WriteTo, Size;
    if s.pending == [] {
      FlushNothing(s);
      over, piece, t := true, [], s;
    } else {
      var (source, outcome) := WriteTo(s.source, s.pending[0][s.offset..]);
      if outcome.Took? && outcome.count != 0 {
        over, piece := false, s.pending[0][s.offset..s.offset + outcome.count];
        t := Advance(s.(source := source), outcome.count);
        FlushTakes(s, source, outcome.count);
        AdvanceTakes(s, source, outcome.count);
      } else {
        FlushHolds(s);
        over, piece, t := true, [], s;
      }
    }
  }

  /** Nothing is lost, repeated or reordered by draining: what the service took, followed by what is still
      queued, is what was queued. The queue never grows. */
  lemma {:induction false} FlushConserves(s: StreamState)
    requires s.Valid()
    ensures Conserved(s, Flush(s))
    decreases Script(s)
  {
    var over, piece, t := FlushTurn(s);
    if !over {
      FlushConserves(t);
      TakenConserves(s, piece, t, Flush(t));
    }
  }

  lemma TakenConserves(s: StreamState, piece: seq<byte>, t: StreamState, r: Flushed)
    requires s.Valid() && piece != []
    requires t.Valid() && SameRole(s, t) && Size(t.pending) <= Size(s.pending) && |t.pending| <= |s.pending|
    requires piece + t.Undelivered() == s.Undelivered()
    requires Conserved(t, r)
    ensures Conserved(s, r.(delivered := piece + r.delivered, progress := true))
  {
    Associate(piece, r.delivered, r.stream.Undelivered());
  }

  lemma FlushNothing(s: StreamState)
    requires s.Valid() && s.pending == []
    ensures Conserved(s, Flush(s))
  {
    assert [] + s.Undelivered() == s.Undelivered();
  }

  /** A write that moved nothing ends the drain with the queue as it was. */
  lemma FlushHolds(s: StreamState)
    requires s.Valid() && s.pending != []
    requires var o := WriteTo(s.source, s.pending[0][s.offset..]).1; !o.Took? || o.count == 0
    ensures Conserved(s, Flush(s))
  {
    assert [] + s.Undelivered() == s.Undelivered();
  }

  lemma Associate(a: seq<byte>, b: seq<byte>, c: seq<byte>)
    ensures (a + b) + c == a + (b + c)
  {
  }

  /** A socket that only takes bytes ends up with the whole queue: the drain has no other way to stop. */
  lemma {:induction false} FlushStopsForAReason(s: StreamState)
    requires s.Valid() && s.source.Socket?
    requires forall i | 0 <= i < |s.source.writes| :: s.source.writes[i].Took? && s.source.writes[i].count > 0
    requires |s.Undelivered()| <= |s.source.writes|
    ensures var r := Flush(s); r.ok && r.stream.pending == [] && r.delivered == s.Undelivered()
    decreases |s.source.writes|
  {
    if s.pending != [] {
      var front := s.pending[0];
      assert s.Undelivered() == front[s.offset..] + Concat(s.pending[1..]);
      var (source, outcome) := WriteTo(s.source, front[s.offset..]);
      var moved := s.(source := source);
      AdvanceConserves(moved, outcome.count);
      var t := Advance(moved, outcome.count);
      assert moved.Undelivered() == s.Undelivered();
      assert |t.Undelivered()| + outcome.count == |s.Undelivered()|;
      FlushStopsForAReason(t);
      FlushConserves(s);
      assert Flush(s).stream.pending == [];
      assert Flush(s).delivered + [] == Flush(s).delivered;
    }
  }
}
