/** `Stream` and `Connection` in the form of the source: objects whose methods update their fields in place,
    each proved to do what its function in `Streams` and `Mux` says. */
module Transport {
  import opened Wrappers
  import opened Bytes
  import opened Protocol
  import S = Streams
  import opened Mux

  class Stream {
    var remote: uint32
    var source: S.Source
    var pending: seq<seq<byte>>
    var offset: nat
    var waiting: bool
    var opening: Option<nat>
    var closing: Option<nat>

    ghost function View(): S.StreamState
      reads this
    {
      S.StreamState(remote, source, pending, offset, waiting, opening, closing)
    }

    constructor (remote: uint32, source: S.Source, opening: Option<nat>)
      ensures View() == NewStream(remote, source, opening)
    {
      this.remote, this.source, this.opening := remote, source, opening;
      pending, offset, waiting, closing := [], 0, false, None;
    }

    method Enqueue(data: seq<byte>) returns (ok: bool)
      modifies this
      ensures ok <==> S.Enqueue(old(View()), data).Some?
      ensures View() == if ok then S.Enqueue(old(View()), data).value else old(View())
    {
      ok := |pending| < S.MAX_PENDING;
      if ok {
        pending := pending + [data];
      }
    }

    method FlushPending() returns (ok: bool, work: bool, ghost delivered: seq<byte>)
      requires InBounds(View())
      modifies this
      ensures InBounds(View())
      ensures var f := S.Flush(old(View()));
              View() == f.stream && ok == f.ok && work == f.progress && delivered == f.delivered
    {
      hide S.Flush, Drains, S.WriteTo, S.Advance;
      work, delivered := false, [];
      DrainStarts(View());
      while pending != []
        invariant InBounds(View())
        invariant Drains(old(View()), View(), delivered, work)
        decreases S.Script(View())
      {
        ghost var before := View();
        var (next, outcome) := S.WriteTo(source, pending[0][offset..]);
        source := next;
        if !outcome.Took? || outcome.count == 0 {
          DrainStops(old(View()), before, next, outcome, delivered, work);
          ok := outcome.WriteBlocked?;
          return;
        }
        DrainGoesOn(old(View()), before, next, outcome.count, delivered, work);
        delivered := delivered + pending[0][offset..offset + outcome.count];
        Move(before, next, outcome.count);
        work := true;
      }
      DrainIsOver(old(View()), View(), delivered, work);
      ok := true;
    }

    /** Moves the write offset, freeing a finished front packet. */
    method Move(ghost before: S.StreamState, next: S.Source, n: nat)
      requires pending != [] && offset + n <= |pending[0]|
      requires InBounds(before) && View() == before.(source := next)
      modifies this
      ensures View() == S.Advance(before.(source := next), n)
    {
      offset := offset + n;
      if offset == |pending[0]| {
        pending := pending[1..];
        offset := 0;
      }
    }
  }

  /** A drain that began in `s` has delivered `delivered` so far and goes on from `t`. */
  ghost predicate Drains(s: S.StreamState, t: S.StreamState, delivered: seq<byte>, work: bool)
    requires InBounds(s) && InBounds(t)
  {
    var f := S.Flush(t);
    S.Flush(s) == f.(delivered := delivered + f.delivered, progress := work || f.progress)
  }

  lemma DrainStarts(s: S.StreamState)
    requires InBounds(s)
    ensures Drains(s, s, [], false)
  {
    assert [] + S.Flush(s).delivered == S.Flush(s).delivered;
  }

  lemma DrainIsOver(s: S.StreamState, t: S.StreamState, delivered: seq<byte>, work: bool)
    requires InBounds(s) && InBounds(t) && Drains(s, t, delivered, work)
    requires t.pending == []
    ensures S.Flush(s) == S.Flushed(t, delivered, work, true)
  {
    assert delivered + [] == delivered;
  }

  lemma DrainStops(s: S.StreamState, t: S.StreamState, source: S.Source, o: S.WriteOutcome, delivered: seq<byte>,
                   work: bool)
    requires InBounds(s) && InBounds(t) && Drains(s, t, delivered, work)
    requires t.pending != [] && S.WriteTo(t.source, t.pending[0][t.offset..]) == (source, o)
    requires !o.Took? || o.count == 0
    ensures S.Flush(s) == S.Flushed(t.(source := source), delivered, work, o.WriteBlocked?)
    ensures InBounds(t.(source := source))
  {
    assert delivered + [] == delivered;
    hide S.WriteTo;
  }

  lemma DrainGoesOn(s: S.StreamState, t: S.StreamState, source: S.Source, n: nat, delivered: seq<byte>, work: bool)
    requires InBounds(s) && InBounds(t) && Drains(s, t, delivered, work)
    requires t.pending != [] && 0 < n <= |t.pending[0]| - t.offset
    requires S.WriteTo(t.source, t.pending[0][t.offset..]) == (source, S.Took(n))
    ensures t.offset + n <= |t.pending[0]|
    ensures var u := S.Advance(t.(source := source), n);
            && InBounds(u) && S.Script(u) < S.Script(t)
            && Drains(s, u, delivered + t.pending[0][t.offset..t.offset + n], true)
  {
    S.FlushTakes(t, source, n);
    var u := S.Advance(t.(source := source), n);
    var piece := t.pending[0][t.offset..t.offset + n];
    assert S.Script(u) < S.Script(t);
    hide S.Flush, S.Advance, S.WriteTo;
    S.Associate(delivered, piece, S.Flush(u).delivered);
  }

  /** The fields of the source's `Connection`. `out` is what was written to the TLS stream; `log` and `handled`
      are the history the specification keeps. */
  class Connection {
    var max: nat
    var streams: map<uint32, Stream>
    var next: uint32
    var input: seq<byte>
    var out: seq<Output>
    ghost var log: seq<Event>
    var handled: nat

    /** No stream object is in the table twice. */
    ghost predicate Valid()
      reads this`streams
    {
      forall i, j | i in streams && j in streams && i != j :: streams[i] != streams[j]
    }

    ghost function Table(): map<uint32, S.StreamState>
      reads this`streams, streams.Values
    {
      map id | id in streams :: streams[id].View()
    }

    ghost function View(): Conn
      reads this, streams.Values
    {
      Conn(max, Table(), next, input, out, log, handled)
    }

    constructor (max: nat)
      ensures Valid() && View() == Start(max)
    {
      this.max, streams, next, input, out, log, handled := max, map[], 1, [], [], [], 0;
    }

    method Packet(command: uint32, a: uint32, b: uint32, data: seq<byte>, tlsOk: bool) returns (fault: Option<Fault>)
      modifies this`out
      ensures tlsOk ==> fault == None && out == old(out) + [Sent(Protocol.Packet(command, a, b, data))]
      ensures !tlsOk ==> fault == Some(TlsFailed)
    {
      if !tlsOk {
        return Some(TlsFailed);
      }
      out := out + [Sent(Protocol.Packet(command, a, b, data))];
      fault := None;
    }

    method Allocate() returns (r: Result<uint32, Fault>)
      modifies this`next
      ensures match Mux.Allocate(old(View()))
              case Err(f) => r == Err(f)
              case Ok((c, id)) => r == Ok(id) && next == c.next
    {
      if next == U32_MAX {
        return Err(IdsExhausted);
      }
      r := Ok(next);
      next := next + 1;
    }

    /** A reply without data. */
    method Answer(command: uint32, a: uint32, b: uint32, e: Env) returns (fault: Option<Fault>)
      modifies this`out
      ensures Follows(Reply(old(View()), command, a, b, e), fault)
    {
      fault := Packet(command, a, b, [], e.tlsOk);
    }

    /** Puts a new stream into the table. */
    method Insert(id: uint32, s: Stream)
      requires Valid() && s !in streams.Values
      modifies this`streams
      ensures Valid() && streams == old(streams)[id := s]
      ensures Table() == old(Table())[id := s.View()]
    {
      streams := streams[id := s];
    }

    /** The specified outcome `r` of an operation that began in `c`. */
    ghost predicate Follows(r: Result<Conn, Fault>, fault: Option<Fault>)
      reads this, streams.Values
    {
      match r
      case Ok(d) => fault == None && View() == d
      case Err(f) => fault == Some(f)
    }

    method RemoteInUse(remote: uint32) returns (inUse: bool)
      ensures inUse <==> InUse(Table(), remote)
    {
      inUse := exists id | id in streams :: streams[id].remote == remote;
      assert forall id | id in streams :: Table()[id].remote == streams[id].remote;
    }

    method HandleOpen(p: Protocol.Packet, e: Env) returns (fault: Option<Fault>)
      requires Valid()
      modifies this`streams, this`next, this`out, this`log
      ensures Valid() && fresh(streams.Values - old(streams.Values))
      ensures Follows(Mux.HandleOpen(old(View()), p, e), fault)
    {
      hide InUse, ServiceName, NewStream, Mux.HandleOpen, Reply;
      OpenCases(View(), p, e);
      if p.arg0 == 0 || p.arg1 != 0 {
        return Some(InvalidOpen);
      }
      var inUse := RemoteInUse(p.arg0);
      if inUse {
        return Some(DuplicateRemote);
      }
      assert Table().Keys == streams.Keys;
      if |streams| >= MAX_STREAMS || !ServiceName(p.data) || e.service.None? {
        fault := Answer(CLSE, 0, p.arg0, e);
        return;
      }
      fault := Admit(p.arg0, e.service.value, None, OKAY, p.arg0, [], e.tlsOk, [Named(next, p)]);
    }

    /** Allocates an ID, puts a new stream under it and announces it to the peer. */
    method Admit(remote: uint32, source: S.Source, opening: Option<nat>, command: uint32, arg1: uint32,
                 data: seq<byte>, tlsOk: bool, ghost es: seq<Event>) returns (fault: Option<Fault>)
      requires Valid()
      modifies this`streams, this`next, this`out, this`log
      ensures Valid() && fresh(streams.Values - old(streams.Values))
      ensures if old(next) == U32_MAX then fault == Some(IdsExhausted)
              else if !tlsOk then fault == Some(TlsFailed)
              else var c := old(View());
                && fault == None
                && View() == c.(next := c.next + 1, streams := c.streams[c.next := NewStream(remote, source, opening)],
                                log := c.log + es, out := c.out + [Sent(Protocol.Packet(command, c.next, arg1, data))])
    {
      hide NewStream;
      log := log + es;
      ghost var before := Table();
      var id := Allocate();
      if id.Err? {
        return Some(id.error);
      }
      var s := new Stream(remote, source, opening);
      assert Table() == before;
      Insert(id.value, s);
      fault := Packet(command, id.value, arg1, data, tlsOk);
      assert Table() == before[id.value := NewStream(remote, source, opening)];
    }

    method HandleOkay(p: Protocol.Packet) returns (fault: Option<Fault>)
      requires Valid()
      modifies this`log, streams.Values
      ensures Valid()
      ensures Follows(Mux.HandleOkay(old(View()), p), fault)
    {
      if p.arg1 !in streams {
        return None;
      }
      var s := streams[p.arg1];
      if p.data != [] || p.arg0 == 0 {
        return Some(InvalidAcknowledgement);
      }
      if s.opening.Some? {
        s.opening := None;
        if s.remote != 0 {
          return Some(UnexpectedAcknowledgement);
        }
        s.remote := p.arg0;
        log := log + [Named(p.arg1, p)];
        assert Table() == old(Table())[p.arg1 := s.View()];
      } else {
        if !(s.remote == p.arg0 && s.waiting) {
          return Some(UnexpectedAcknowledgement);
        }
        s.waiting := false;
        log := log + [Acked(p.arg1)];
        assert Table() == old(Table())[p.arg1 := s.View()];
      }
      fault := None;
    }

    /** Bytes in the pending queues of all streams. */
    method QueuedBytes() returns (queued: nat)
      requires Valid()
      ensures queued == Queued(Table(), next)
    {
      queued := 0;
      var id: nat := 0;
      while id < next
        invariant 0 <= id <= next
        invariant queued == Queued(Table(), id)
      {
        if id in streams {
          assert Table()[id].pending == streams[id].pending;
          queued := queued + Size(streams[id].pending);
        }
        id := id + 1;
      }
    }

    method HandleWrte(p: Protocol.Packet, e: Env) returns (fault: Option<Fault>)
      requires Valid()
      modifies this`log, this`out, streams.Values
      ensures Valid()
      ensures Follows(Mux.HandleWrte(old(View()), p, e), fault)
    {
      hide Queued, Reply, S.Enqueue;
      var queued := QueuedBytes();
      if queued + |p.data| > INPUT_BUDGET {
        return Some(InputBudget);
      }
      if p.arg1 !in streams {
        fault := Answer(CLSE, p.arg1, p.arg0, e);
        return;
      }
      var s := streams[p.arg1];
      if !(s.remote == p.arg0 && s.opening.None? && s.closing.None?) {
        return Some(WriteOrdering);
      }
      log := log + [Accepted(p.arg1, p.data)];
      if p.data == [] {
        fault := Answer(OKAY, p.arg1, p.arg0, e);
      } else {
        fault := Hold(p.arg1, p.data);
      }
    }

    /** The data waits for its service. */
    method Hold(id: uint32, data: seq<byte>) returns (fault: Option<Fault>)
      requires Valid() && id in streams
      modifies streams[id]
      ensures Valid()
      ensures match S.Enqueue(old(Table())[id], data)
              case None => fault == Some(PendingLimit)
              case Some(t) => fault == None && Table() == old(Table())[id := t]
    {
      hide S.Enqueue;
      var s := streams[id];
      var ok := s.Enqueue(data);
      if !ok {
        return Some(PendingLimit);
      }
      assert Table() == old(Table())[id := s.View()];
      fault := None;
    }

    method HandleClse(p: Protocol.Packet, e: Env) returns (fault: Option<Fault>)
      requires Valid()
      modifies this`log, streams.Values
      ensures Valid()
      ensures Follows(Mux.HandleClse(old(View()), p, e), fault)
    {
      if p.arg1 !in streams {
        return None;
      }
      var s := streams[p.arg1];
      if !(p.arg0 == s.remote || (s.opening.Some? && p.arg0 == 0)) {
        return Some(InvalidClose);
      }
      s.closing := Some(e.now);
      log := log + [Shutting(p.arg1, e.now)];
      assert Table() == old(Table())[p.arg1 := s.View()];
      fault := None;
    }

    method Handle(p: Protocol.Packet, e: Env) returns (fault: Option<Fault>)
      requires Valid()
      modifies this, streams.Values
      ensures Valid() && fresh(streams.Values - old(streams.Values))
      ensures Follows(Mux.Handle(old(View()), p, e), fault)
    {
      if p.command == OPEN {
        fault := HandleOpen(p, e);
      } else if p.command == OKAY {
        fault := HandleOkay(p);
      } else if p.command == WRTE {
        fault := HandleWrte(p, e);
      } else if p.command == CLSE {
        fault := HandleClse(p, e);
      } else {
        fault := Some(Unsupported);
      }
    }

    method Parse(world: nat -> Env) returns (fault: Option<Fault>)
      requires Valid()
      modifies this, streams.Values
      ensures Valid() && fresh(streams.Values - old(streams.Values))
      ensures Follows(Mux.Parse(old(View()), world), fault)
    {
      hide Mux.Handle, Mux.Parse, CutOne, Protocol.Read;
      while true
        invariant Valid() && fresh(streams.Values - old(streams.Values))
        invariant Mux.Parse(View(), world) == Mux.Parse(old(View()), world)
        decreases |input|
      {
        ghost var before := View();
        CutCases(input, max);
        ParseEnds(before, world);
        if |input| < HEADER {
          return None;
        }
        var len := Field(input, 3);
        if len > max {
          return Some(BadFrame(TooLong));
        }
        if |input| < HEADER + len {
          return None;
        }
        var packet := Protocol.Read(input[..HEADER + len], max, false);
        if packet.Err? {
          return Some(BadFrame(packet.error));
        }
        ParseUnfolds(before, world, packet.value.0, input[HEADER + len..]);
        var k := handled;
        input, handled := input[HEADER + len..], handled + 1;
        fault := Handle(packet.value.0, world(k));
        if fault.Some? {
          return;
        }
      }
    }

    /** The read step of `run`. */
    method Receive(bytes: seq<byte>, world: nat -> Env) returns (fault: Option<Fault>)
      requires Valid()
      modifies this, streams.Values
      ensures Valid() && fresh(streams.Values - old(streams.Values))
      ensures Follows(Mux.Receive(old(View()), bytes, world), fault)
    {
      input := input + bytes;
      if |input| > MAX_PAYLOAD + HEADER + CHUNK {
        return Some(InputLimit);
      }
      hide Mux.Parse;
      fault := Parse(world);
    }

    /** One stream's turn in the service pass. */
    method Turn(id: uint32, pass: Pass) returns (output: seq<Output>, closed: Option<Reason>, work: bool)
      requires Valid() && id in streams && Shaped(View())
      modifies this`log, streams[id]
      ensures Valid() && Shaped(View())
      ensures var t := TakeTurn(id, old(View()).streams[id], pass, max);
              && Table() == old(Table())[id := t.stream] && log == old(log) + t.events
              && output == t.output && closed == t.closed && work == t.work
    {
      hide S.Flush, AfterFlush, Shaped, TakeTurn;
      var s := streams[id];
      ghost var before := Table();
      assert before[id] == s.View();
      ShapedStream(View(), id);
      TurnCases(id, s.View(), pass, max);
      output, closed, work := [], None, false;
      if s.opening.Some? && Elapsed(pass.openClock(id), s.opening.value) > OPEN_TIMEOUT_MS {
        closed := Some(OpenTimeout);
        assert before == before[id := s.View()];
        assert log == log + [];
        ShapedUpdate(old(View()), View(), id, s.View());
        return;
      }
      output, closed, work := Drain(id, pass);
      ShapedUpdate(old(View()), View(), id, TakeTurn(id, before[id], pass, max).stream);
    }

    /** A turn that is not cut short by the opening deadline. */
    method Drain(id: uint32, pass: Pass) returns (output: seq<Output>, closed: Option<Reason>, work: bool)
      requires Valid() && id in streams && 0 < max && InBounds(streams[id].View())
      modifies this`log, streams[id]
      ensures Valid()
      ensures var f := S.Flush(old(streams[id].View()));
              && InBounds(f.stream)
              && var t := if !f.ok then Mux.Turn(f.stream, [Delivered(id, f.delivered)], [], Some(WriteError), false)
                          else AfterFlush(id, old(streams[id].pending) != [], f, pass, max);
                 && Table() == old(Table())[id := t.stream] && log == old(log) + t.events
                 && output == t.output && closed == t.closed && work == t.work
    {
      hide S.Flush, AfterFlush;
      var s := streams[id];
      ghost var before := Table();
      assert before[id] == s.View();
      output, closed, work := [], None, false;
      var hadPending := s.pending != [];
      var ok, progress, delivered := s.FlushPending();
      ghost var f := S.Flush(before[id]);
      ghost var flushed := View();
      assert flushed.streams == before[id := f.stream];
      if !ok {
        log := log + [Delivered(id, delivered)];
        closed := Some(WriteError);
        return;
      }
      output, closed, work := Settle(id, hadPending, f, delivered, progress, pass);
      UpdateTwice(before, id, f.stream, streams[id].View());
    }

    /** The rest of a turn after the queue was drained. */
    method Settle(id: uint32, hadPending: bool, ghost f: S.Flushed, ghost delivered: seq<byte>, progress: bool,
                  pass: Pass) returns (output: seq<Output>, closed: Option<Reason>, work: bool)
      requires Valid() && id in streams && 0 < max && InBounds(f.stream)
      requires f.stream == View().streams[id] && f.delivered == delivered && f.progress == progress
      modifies this`log, streams[id]
      ensures Valid()
      ensures var t := AfterFlush(id, hadPending, f, pass, max);
              && Table() == old(Table())[id := t.stream] && log == old(log) + t.events
              && output == t.output && closed == t.closed && work == t.work
    {
      hide Fetch, AfterFlush;
      AfterFlushCases(id, hadPending, f, pass, max);
      var s := streams[id];
      assert s.View() == f.stream;
      log := log + [Delivered(id, delivered)];
      output, closed, work := [], None, progress;
      if hadPending && s.pending == [] && s.closing.None? {
        output := [Drained(Protocol.Packet(OKAY, id, s.remote, []))];
      }
      if s.closing.Some? {
        var used := Elapsed(pass.closeClock(id), s.closing.value);
        if s.pending == [] || used > CLOSE_GRACE_MS {
          closed := Some(Shut(used));
        }
        assert Table() == old(Table())[id := f.stream];
      } else if s.opening.None? && !s.waiting && pass.gate {
        ghost var os := output;
        output, closed, work := FetchOne(id, output, progress);
        AssociateEvents(old(log), [Delivered(id, delivered)], Fetch(id, f.stream, [], os, progress, max).events);
      } else {
        assert Table() == old(Table())[id := f.stream];
      }
    }

    /** One read from the stream's service, turned into a WRTE. */
    method FetchOne(id: uint32, sofar: seq<Output>, progress: bool)
      returns (output: seq<Output>, closed: Option<Reason>, work: bool)
      requires Valid() && id in streams && 0 < max && InBounds(streams[id].View())
      modifies this`log, streams[id]
      ensures Valid()
      ensures var t := Fetch(id, old(streams[id].View()), [], sofar, progress, max);
              && Table() == old(Table())[id := t.stream] && log == old(log) + t.events
              && output == t.output && closed == t.closed && work == t.work
    {
      output, closed, work := sofar, None, progress;
      var s := streams[id];
      ghost var before := Table();
      assert before[id] == s.View();
      var (source, outcome) := S.ReadFrom(s.source, Min(max, CHUNK));
      s.source := source;
      assert log == log + [];
      match outcome {
        case ReadBlocked =>
        case ReadFailed => closed := Some(ReadError);
        case Gave(data) =>
          if data == [] {
            closed := Some(Eof);
          } else {
            output := output + [Sent(Protocol.Packet(WRTE, id, s.remote, data))];
            log := log + ([] + [Fetched(id, data)]);
            s.waiting := true;
            work := true;
          }
      }
      assert Table() == before[id := s.View()];
    }

    /** Every stream's turn, with the packets collected and the table untouched. */
    method ScanStreams(pass: Pass) returns (events: seq<Output>, closed: seq<(uint32, Reason)>, work: bool)
      requires Valid() && Shaped(View())
      modifies this`log, streams.Values
      ensures Valid()
      ensures var ids := Ids(old(View()).streams.Keys, next);
              && (forall i | 0 <= i < |ids| :: ids[i] in old(View()).streams)
              && var r := Scan(old(View()), ids, pass);
                 View().(out := out + events) == r.conn && closed == r.closed && work == r.work
    {
      hide Ids, TakeTurn, Shaped, Scan, ScanOne;
      assert View().streams.Keys == streams.Keys;
      ghost var c := View();
      TableOrder(c);
      var ids := Ids(streams.Keys, next);
      assert ids == Ids(c.streams.Keys, c.next);
      forall k | 0 <= k < |ids| ensures ids[k] in c.streams {
        var all := Ids(c.streams.Keys, c.next);
        assert all[k] in c.streams;
      }
      events, closed, work := ScanOrder(ids, pass);
    }

    method ScanOrder(ids: seq<uint32>, pass: Pass)
      returns (events: seq<Output>, closed: seq<(uint32, Reason)>, work: bool)
      requires Valid() && Shaped(View())
      requires forall i | 0 <= i < |ids| :: ids[i] in View().streams
      modifies this`log, streams.Values
      ensures Valid()
      ensures Scan(old(View()), ids, pass) == Scanned(View().(out := out + events), closed, work)
    {
      hide TakeTurn, Shaped, Scan, ScanOne;
      ghost var c := View();
      events, closed, work := [], [], false;
      NothingScanned(c, pass);
      assert ids[..0] == [] && out + [] == out;
      assert c.streams.Keys == streams.Keys;
      for i := 0 to |ids|
        invariant Valid() && Shaped(View())
        invariant Scan(c, ids[..i], pass) == Scanned(View().(out := out + events), closed, work)
      {
        ScanUnfolds(c, ids, i, pass);
        assert ids[i] in c.streams.Keys;
        events, closed, work := ScanStream(ids[i], pass, events, closed, work, Scan(c, ids[..i], pass));
      }
      assert ids[..|ids|] == ids;
    }

    /** One turn, added to what the pass has collected. */
    method ScanStream(id: uint32, pass: Pass, events: seq<Output>, closed: seq<(uint32, Reason)>, work: bool,
                      ghost r: Scanned)
      returns (events': seq<Output>, closed': seq<(uint32, Reason)>, work': bool)
      requires Valid() && Shaped(View()) && id in streams
      requires r == Scanned(View().(out := out + events), closed, work) && Shaped(r.conn)
      modifies this`log, streams[id]
      ensures Valid() && Shaped(View())
      ensures ScanOne(r, id, pass) == Scanned(View().(out := out + events'), closed', work')
    {
      hide TakeTurn, Shaped;
      var output, why, moved := Turn(id, pass);
      AssociateOutput(old(out), events, output);
      events' := events + output;
      closed' := if why.Some? then closed + [(id, why.value)] else closed;
      work' := work || moved;
    }

    /** The packets of the scan go out, and its streams are removed. */
    method Finish(events: seq<Output>, closed: seq<(uint32, Reason)>)
      requires Valid()
      modifies this`streams, this`out, this`log
      ensures Valid() && streams.Values <= old(streams.Values)
      ensures View() == CloseAll(old(View()).(out := old(out) + events), closed)
    {
      hide CloseAll;
      out := out + events;
      CloseStreams(closed);
    }

    method Services(pass: Pass) returns (work: bool, fault: Option<Fault>)
      requires Valid() && Shaped(View())
      modifies this, streams.Values
      ensures Valid() && streams.Values <= old(streams.Values)
      ensures match Serve(old(View()), pass)
              case Ok((d, w)) => fault == None && View() == d && work == w
              case Err(f) => fault == Some(f)
    {
      hide Scan, Ids, CloseAll, Shaped, Serve;
      var events, closed;
      TableOrder(View());
      events, closed, work := ScanStreams(pass);
      ServeCases(old(View()), pass, Scanned(View().(out := out + events), closed, work), events);
      if (events != [] || closed != []) && !pass.tlsOk {
        fault := Some(TlsFailed);
        return;
      }
      Finish(events, closed);
      work := work || closed != [];
      fault := None;
    }

    /** Takes the finished streams out of the table, each with its CLSE. */
    method CloseStreams(closed: seq<(uint32, Reason)>)
      requires Valid()
      modifies this`streams, this`out, this`log
      ensures Valid() && streams.Values <= old(streams.Values)
      ensures View() == CloseAll(old(View()), closed)
    {
      ghost var c := View();
      for i := 0 to |closed|
        invariant Valid() && streams.Values <= old(streams.Values)
        invariant View() == CloseAll(c, closed[..i])
      {
        assert closed[..i + 1][..i] == closed[..i];
        CloseStream(closed[i].0, closed[i].1);
        hide CloseOne;
      }
      assert closed[..|closed|] == closed;
    }

    method CloseStream(id: uint32, why: Reason)
      requires Valid()
      modifies this`streams, this`out, this`log
      ensures Valid() && streams.Values <= old(streams.Values)
      ensures View() == CloseOne(old(View()), id, why)
    {
      if id in streams {
        var remote := streams[id].remote;
        ghost var table := Table();
        streams := streams - {id};
        assert Table() == table - {id};
        out := out + [Final(Protocol.Packet(CLSE, id, remote, []))];
        log := log + [Removed(id, why)];
      }
    }

    /** The first accepted socket becomes a stream; the rest is still to come. */
    method AcceptFirst(incoming: seq<Incoming>, now: nat, tlsOk: bool) returns (fault: Option<Fault>)
      requires Valid() && incoming != [] && |streams| < MAX_STREAMS
      modifies this`streams, this`next, this`out, this`log
      ensures Valid() && fresh(streams.Values - old(streams.Values))
      ensures AcceptAll(old(View()), incoming, now, tlsOk) ==
              match fault
              case None => AcceptAll(View(), incoming[1..], now, tlsOk)
              case Some(f) => Err(f)
    {
      hide AcceptAll, NewStream;
      assert Table().Keys == streams.Keys;
      AcceptUnfolds(View(), incoming, now, tlsOk);
      assert log + [] == log;
      fault := Admit(0, incoming[0].source, Some(now), OPEN, 0, incoming[0].target + [0], tlsOk, []);
    }

    method ReverseAccept(incoming: seq<Incoming>, now: nat, tlsOk: bool) returns (fault: Option<Fault>)
      requires Valid()
      modifies this`streams, this`next, this`out, this`log
      ensures Valid() && fresh(streams.Values - old(streams.Values))
      ensures Follows(AcceptAll(old(View()), incoming, now, tlsOk), fault)
    {
      hide AcceptAll, NewStream;
      var i := 0;
      fault := None;
      assert incoming[0..] == incoming;
      ghost var r := AcceptAll(View(), incoming, now, tlsOk);
      while i < |incoming|
        invariant 0 <= i <= |incoming| && fault == None
        invariant Valid() && fresh(streams.Values - old(streams.Values))
        invariant AcceptAll(View(), incoming[i..], now, tlsOk) == r
      {
        assert Table().Keys == streams.Keys;
        if |streams| >= MAX_STREAMS {
          break;
        }
        fault := AcceptFirst(incoming[i..], now, tlsOk);
        if fault.Some? {
          return;
        }
        assert incoming[i..][1..] == incoming[i + 1..];
        i := i + 1;
      }
      AcceptStops(View(), incoming[i..], now, tlsOk);
    }
  }

  lemma NothingScanned(c: Conn, pass: Pass)
    requires Shaped(c)
    ensures Scan(c, [], pass) == Scanned(c, [], false)
  {
  }

  /** A pass after its scan: `events` are the packets the scan has put out. */
  lemma ServeCases(c: Conn, pass: Pass, r: Scanned, events: seq<Output>)
    requires Shaped(c)
    requires var order := Ids(c.streams.Keys, c.next);
             (forall i | 0 <= i < |order| :: order[i] in c.streams) && r == Scan(c, order, pass)
    requires r.conn.out == c.out + events
    ensures Serve(c, pass) == if (events != [] || r.closed != []) && !pass.tlsOk then Err(TlsFailed)
                              else Ok((CloseAll(r.conn, r.closed), r.work || r.closed != []))
  {
    hide Scan, Ids, CloseAll, Shaped;
  }

  lemma TableOrder(c: Conn)
    requires Shaped(c)
    ensures var ids := Ids(c.streams.Keys, c.next); forall i | 0 <= i < |ids| :: ids[i] in c.streams
  {
    IdsAreKeys(c.streams.Keys, c.next);
    var ids := Ids(c.streams.Keys, c.next);
    assert forall i | 0 <= i < |ids| :: ids[i] in c.streams.Keys;
  }

  lemma UpdateTwice(table: map<uint32, S.StreamState>, id: uint32, s: S.StreamState, t: S.StreamState)
    ensures table[id := s][id := t] == table[id := t]
  {
  }

  lemma ShapedStream(c: Conn, id: uint32)
    requires Shaped(c) && id in c.streams
    ensures InBounds(c.streams[id]) && 0 < c.max
  {
  }

  lemma ShapedUpdate(c: Conn, d: Conn, id: uint32, s: S.StreamState)
    requires Shaped(c) && d.max == c.max && InBounds(s) && id in c.streams && d.streams == c.streams[id := s]
    ensures Shaped(d)
  {
  }

  /** A turn is cut short by the opening deadline or goes through the drain. */
  lemma TurnCases(id: uint32, s: S.StreamState, pass: Pass, max: nat)
    requires 0 < max && InBounds(s)
    ensures InBounds(s)
    ensures s.opening.Some? && Elapsed(pass.openClock(id), s.opening.value) > OPEN_TIMEOUT_MS ==>
              TakeTurn(id, s, pass, max) == Mux.Turn(s, [], [], Some(OpenTimeout), false)
    ensures !(s.opening.Some? && Elapsed(pass.openClock(id), s.opening.value) > OPEN_TIMEOUT_MS) ==>
              var f := S.Flush(s);
              && InBounds(f.stream)
              && TakeTurn(id, s, pass, max) ==
                 if !f.ok then Mux.Turn(f.stream, [Delivered(id, f.delivered)], [], Some(WriteError), false)
                 else AfterFlush(id, s.pending != [], f, pass, max)
  {
    S.FlushInBounds(s);
    hide S.Flush, AfterFlush;
  }

  /** The outcomes of the rest of a turn. */
  lemma AfterFlushCases(id: uint32, had: bool, f: S.Flushed, pass: Pass, max: nat)
    requires 0 < max && InBounds(f.stream)
    ensures var t := f.stream;
            var os := if had && t.pending == [] && t.closing.None?
                      then [Drained(Protocol.Packet(OKAY, id, t.remote, []))] else [];
            var es := [Delivered(id, f.delivered)];
            AfterFlush(id, had, f, pass, max) ==
            if t.closing.Some? then
              var used := Elapsed(pass.closeClock(id), t.closing.value);
              Mux.Turn(t, es, os, if t.pending == [] || used > CLOSE_GRACE_MS then Some(Shut(used)) else None,
                       f.progress)
            else if t.opening.None? && !t.waiting && pass.gate then
              var r := Fetch(id, t, [], os, f.progress, max);
              r.(events := es + r.events)
            else Mux.Turn(t, es, os, None, f.progress)
  {
    var t := f.stream;
    var os := if had && t.pending == [] && t.closing.None?
              then [Drained(Protocol.Packet(OKAY, id, t.remote, []))] else [];
    FetchEvents(id, t, [Delivered(id, f.delivered)], os, f.progress, max);
    hide Fetch;
  }

  /** The outcomes of an OPEN, in the order the source tries them. */
  lemma OpenCases(c: Conn, p: Protocol.Packet, e: Env)
    ensures var invalid := p.arg0 == 0 || p.arg1 != 0;
            var full := |c.streams| >= MAX_STREAMS || !ServiceName(p.data) || e.service.None?;
            && (invalid ==> Mux.HandleOpen(c, p, e) == Err(InvalidOpen))
            && (!invalid && InUse(c.streams, p.arg0) ==> Mux.HandleOpen(c, p, e) == Err(DuplicateRemote))
            && (!invalid && !InUse(c.streams, p.arg0) && full ==>
                  Mux.HandleOpen(c, p, e) == Reply(c, CLSE, 0, p.arg0, e))
            && (!invalid && !InUse(c.streams, p.arg0) && !full ==>
                  Mux.HandleOpen(c, p, e) == if c.next == U32_MAX then Err(IdsExhausted)
                    else if !e.tlsOk then Err(TlsFailed)
                    else Ok(c.(next := c.next + 1,
                               streams := c.streams[c.next := NewStream(p.arg0, e.service.value, None)],
                               log := c.log + [Named(c.next, p)],
                               out := c.out + [Sent(Protocol.Packet(OKAY, c.next, p.arg0, []))])))
  {
    hide InUse, ServiceName, NewStream;
  }

  lemma ParseEnds(c: Conn, world: nat -> Env)
    ensures CutOne(c.input, c.max).Wait? ==> Mux.Parse(c, world) == Ok(c)
    ensures CutOne(c.input, c.max).Stop? ==> Mux.Parse(c, world) == Err(BadFrame(CutOne(c.input, c.max).error))
  {
    hide CutOne, Mux.Handle;
  }

  lemma FetchEvents(id: uint32, t: S.StreamState, es: seq<Event>, os: seq<Output>, work: bool, max: nat)
    requires 0 < max && InBounds(t)
    ensures var r := Fetch(id, t, [], os, work, max);
            Fetch(id, t, es, os, work, max) == r.(events := es + r.events)
  {
    assert es + [] == es;
    assert forall e: Event :: es + ([] + [e]) == es + [e];
  }

  lemma AssociateOutput(a: seq<Output>, b: seq<Output>, c: seq<Output>)
    ensures (a + b) + c == a + (b + c)
  {
  }

  lemma AssociateEvents(a: seq<Event>, b: seq<Event>, c: seq<Event>)
    ensures (a + b) + c == a + (b + c)
  {
  }

  lemma AcceptStops(c: Conn, incoming: seq<Incoming>, now: nat, tlsOk: bool)
    requires incoming == [] || |c.streams| >= MAX_STREAMS
    ensures AcceptAll(c, incoming, now, tlsOk) == Ok(c)
  {
  }

  lemma AcceptUnfolds(c: Conn, incoming: seq<Incoming>, now: nat, tlsOk: bool)
    requires incoming != [] && |c.streams| < MAX_STREAMS
    ensures AcceptAll(c, incoming, now, tlsOk) ==
            if c.next == U32_MAX then Err(IdsExhausted)
            else if !tlsOk then Err(TlsFailed)
            else AcceptAll(c.(next := c.next + 1,
                              streams := c.streams[c.next := NewStream(0, incoming[0].source, Some(now))],
                              out := c.out + [Sent(Protocol.Packet(OPEN, c.next, 0, incoming[0].target + [0]))]),
                           incoming[1..], now, tlsOk)
  {
  }
}
