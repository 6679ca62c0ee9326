/** Specification of one authenticated connection: the stream table, the packet handler, the service pass and the
    reverse acceptor, as functions from state to state. `Transport` proves its classes against these functions;
    `MuxInvariant` proves what every run of them keeps. */
module Mux {
  import opened Wrappers
  import opened Bytes
  import opened Protocol
  import opened Streams

  const MAX_STREAMS := 64
  const INPUT_BUDGET := 8 * 1024 * 1024
  const OPEN_TIMEOUT_MS := 10_000
  const CLOSE_GRACE_MS := 1_000

  datatype Fault =
    | BadFrame(error: CodecError)
    | InputLimit
    | InvalidOpen
    | DuplicateRemote
    | IdsExhausted
    | InvalidAcknowledgement
    | UnexpectedAcknowledgement
    | InputBudget
    | WriteOrdering
    | PendingLimit
    | InvalidClose
    | Unsupported
    | TlsFailed

  /** Why the service pass removed a stream. `Shut` is the end of a peer's CLSE, with the grace time used. */
  datatype Reason = OpenTimeout | WriteError | ReadError | Eof | Shut(elapsed: nat)

  /** What happened to the stream with a local ID, in order. `Named` is the packet by which the peer told its own ID for
      the stream: its OPEN, or its OKAY to ours. */
  datatype Event =
    | Accepted(id: uint32, data: seq<byte>)
    | Acked(id: uint32)
    | Delivered(id: uint32, data: seq<byte>)
    | Fetched(id: uint32, data: seq<byte>)
    | Shutting(id: uint32, at: nat)
    | Named(id: uint32, told: Packet)
    | Removed(id: uint32, reason: Reason)

  /** What was written to the peer, in order. `Drained` is the OKAY for a queue that has been emptied, `Final` the
      CLSE of a stream the service pass removed. */
  datatype Output = Sent(packet: Packet) | Drained(packet: Packet) | Final(packet: Packet)

  /** `log` and `out` are the connection's history; `handled` counts the packets handled so far. */
  datatype Conn = Conn(
    max: nat,
    streams: map<uint32, StreamState>,
    next: uint32,
    input: seq<byte>,
    out: seq<Output>,
    log: seq<Event>,
    handled: nat)

  /** The state `run` starts its loop with, for a negotiated packet limit. */
  function Start(max: nat): Conn
  {
    Conn(max, map[], 1, [], [], [], 0)
  }

  /** The environment while one packet is handled: the supervisor's answer to an OPEN, the clock, and whether
      the TLS layer accepts a write. */
  datatype Env = Env(service: Option<Source>, now: nat, tlsOk: bool)

  /** The environment during one service pass: clock readings per stream, whether the TLS queue is below its
      read gate, and whether the TLS layer accepts the writes. */
  datatype Pass = Pass(openClock: uint32 -> nat, closeClock: uint32 -> nat, gate: bool, tlsOk: bool)

  /** `Instant::elapsed`, which is never negative. */
  function Elapsed(now: nat, since: nat): nat
  {
    if now <= since then 0 else now - since
  }

  function Send(c: Conn, o: Output, tlsOk: bool): Result<Conn, Fault>
  {
    if tlsOk then Ok(c.(out := c.out + [o])) else Err(TlsFailed)
  }

  function Reply(c: Conn, command: uint32, a: uint32, b: uint32, e: Env): Result<Conn, Fault>
  {
    Send(c, Sent(Packet(command, a, b, [])), e.tlsOk)
  }

  // ---------------------------------------------------------------------------------------------
  // Handling packets

  function Allocate(c: Conn): Result<(Conn, uint32), Fault>
  {
    if c.next == U32_MAX then Err(IdsExhausted) else Ok((c.(next := c.next + 1), c.next))
  }

  function NewStream(remote: uint32, source: Source, opening: Option<nat>): StreamState
  {
    StreamState(remote, source, [], 0, false, opening, None)
  }

  /** The structural part of the service-name check in `open`: non-empty, bounded, one NUL at the end. */
  predicate ServiceName(data: seq<byte>)
  {
    && 0 < |data| <= 4096
    && data[|data| - 1] == 0
    && 0 !in data[..|data| - 1]
  }

  predicate InUse(streams: map<uint32, StreamState>, remote: uint32)
  {
    exists id | id in streams :: streams[id].remote == remote
  }

  /** Handling a packet never touches the unparsed input, the limit or the packet count. */
  ghost predicate SameInput(c: Conn, d: Conn)
  {
    d.input == c.input && d.max == c.max && d.handled == c.handled
  }

  function HandleOpen(c: Conn, p: Packet, e: Env): (r: Result<Conn, Fault>)
    ensures r.Ok? ==> SameInput(c, r.value)
  {
    if p.arg0 == 0 || p.arg1 != 0 then Err(InvalidOpen)
    else if InUse(c.streams, p.arg0) then Err(DuplicateRemote)
    else if |c.streams| >= MAX_STREAMS || !ServiceName(p.data) || e.service.None? then Reply(c, CLSE, 0, p.arg0, e)
    else
      match Allocate(c)
      case Err(f) => Err(f)
      case Ok((d, id)) =>
        Reply(d.(streams := d.streams[id := NewStream(p.arg0, e.service.value, None)], log := d.log + [Named(id, p)]),
              OKAY, id, p.arg0, e)
  }

  function HandleOkay(c: Conn, p: Packet): (r: Result<Conn, Fault>)
    ensures r.Ok? ==> SameInput(c, r.value)
  {
    if p.arg1 !in c.streams then Ok(c)
    else
      var s := c.streams[p.arg1];
      if p.data != [] || p.arg0 == 0 then Err(InvalidAcknowledgement)
      else if s.opening.Some? then
        if s.remote != 0 then Err(UnexpectedAcknowledgement)
        else
          Ok(c.(streams := c.streams[p.arg1 := s.(opening := None, remote := p.arg0)],
                log := c.log + [Named(p.arg1, p)]))
      else if s.remote == p.arg0 && s.waiting then
        Ok(c.(streams := c.streams[p.arg1 := s.(waiting := false)], log := c.log + [Acked(p.arg1)]))
      else Err(UnexpectedAcknowledgement)
  }

  function HandleWrte(c: Conn, p: Packet, e: Env): (r: Result<Conn, Fault>)
    ensures r.Ok? ==> SameInput(c, r.value)
  {
    if Queued(c.streams, c.next) + |p.data| > INPUT_BUDGET then Err(InputBudget)
    else if p.arg1 !in c.streams then Reply(c, CLSE, p.arg1, p.arg0, e)
    else
      var s := c.streams[p.arg1];
      if s.remote != p.arg0 || s.opening.Some? || s.closing.Some? then Err(WriteOrdering)
      else
        var d := c.(log := c.log + [Accepted(p.arg1, p.data)]);
        if p.data == [] then Reply(d, OKAY, p.arg1, p.arg0, e)
        else
          match Enqueue(s, p.data)
          case None => Err(PendingLimit)
          case Some(t) => Ok(d.(streams := d.streams[p.arg1 := t]))
  }

  function HandleClse(c: Conn, p: Packet, e: Env): (r: Result<Conn, Fault>)
    ensures r.Ok? ==> SameInput(c, r.value)
  {
    if p.arg1 !in c.streams then Ok(c)
    else
      var s := c.streams[p.arg1];
      if p.arg0 == s.remote || (s.opening.Some? && p.arg0 == 0)
      then Ok(c.(streams := c.streams[p.arg1 := s.(closing := Some(e.now))], log := c.log + [Shutting(p.arg1, e.now)]))
      else Err(InvalidClose)
  }

  /** `Connection::handle`. */
  function Handle(c: Conn, p: Packet, e: Env): (r: Result<Conn, Fault>)
    ensures r.Ok? ==> SameInput(c, r.value)
  {
    if p.command == OPEN then HandleOpen(c, p, e)
    else if p.command == OKAY then HandleOkay(c, p)
    else if p.command == WRTE then HandleWrte(c, p, e)
    else if p.command == CLSE then HandleClse(c, p, e)
    else Err(Unsupported)
  }

  /** `Connection::parse`; packet number `k` of the connection is handled in environment `world(k)`. */
  function Parse(c: Conn, world: nat -> Env): Result<Conn, Fault>
    decreases |c.input|
  {
    match CutOne(c.input, c.max)
    case Wait => Ok(c)
    case Stop(e) => Err(BadFrame(e))
    case Yield(p, rest) =>
      match Handle(c.(input := rest, handled := c.handled + 1), p, world(c.handled))
      case Err(f) => Err(f)
      case Ok(d) => Parse(d, world)
  }

  lemma ParseUnfolds(c: Conn, world: nat -> Env, p: Packet, rest: seq<byte>)
    requires CutOne(c.input, c.max) == Yield(p, rest)
    ensures var h := Handle(c.(input := rest, handled := c.handled + 1), p, world(c.handled));
            Parse(c, world) == if h.Err? then h else Parse(h.value, world)
  {
    hide Handle, CutOne;
  }

  /** Bytes held in the pending queues of the streams below `n`, consumed prefixes included. */
  function Queued(streams: map<uint32, StreamState>, n: nat): nat
  {
    if n == 0 then 0 else Queued(streams, n - 1) + Weight(streams, n - 1)
  }

  function Weight(streams: map<uint32, StreamState>, id: nat): nat
  {
    if id in streams then Size(streams[id].pending) else 0
  }

  /** The read step of `run`: append the bytes read, check the input limit, parse. */
  function Receive(c: Conn, bytes: seq<byte>, world: nat -> Env): Result<Conn, Fault>
  {
    var input := c.input + bytes;
    if |input| > MAX_PAYLOAD + HEADER + CHUNK then Err(InputLimit) else Parse(c.(input := input), world)
  }

  // ---------------------------------------------------------------------------------------------
  // The service pass

  /** The IDs of a table below `n`, in ascending order. */
  function Ids(keys: set<uint32>, n: nat): seq<uint32>
    requires n <= U32_MAX + 1
  {
    if n == 0 then [] else Ids(keys, n - 1) + if n - 1 in keys then [n - 1] else []
  }

  /** The list holds exactly the keys below the bound, in ascending order and so without repetition. */
  lemma {:induction false} IdsAreKeys(keys: set<uint32>, n: nat)
    requires n <= U32_MAX + 1
    ensures forall i | 0 <= i < |Ids(keys, n)| :: Ids(keys, n)[i] in keys && Ids(keys, n)[i] < n
    ensures forall i, j | 0 <= i < j < |Ids(keys, n)| :: Ids(keys, n)[i] < Ids(keys, n)[j]
    ensures forall k | k in keys && k < n :: k in Ids(keys, n)
  {
    if n != 0 {
      IdsAreKeys(keys, n - 1);
      var tail: seq<uint32> := if n - 1 in keys then [n - 1] else [];
      assert Ids(keys, n) == Ids(keys, n - 1) + tail;
      forall k | k in keys && k < n ensures k in Ids(keys, n) {
        assert k in Ids(keys, n - 1) || k in tail;
      }
    }
  }

  /** What one stream's turn does: the stream after, its events, what is to be sent, whether and why it is to be
      removed, and whether anything moved. */
  datatype Turn = Turn(
    stream: StreamState,
    events: seq<Event>,
    output: seq<Output>,
    closed: Option<Reason>,
    work: bool)

  function TakeTurn(id: uint32, s: StreamState, pass: Pass, max: nat): (t: Turn)
    requires 0 < max && InBounds(s)
    ensures InBounds(t.stream)
  {
    if s.opening.Some? && Elapsed(pass.openClock(id), s.opening.value) > OPEN_TIMEOUT_MS then
      Turn(s, [], [], Some(OpenTimeout), false)
    else
      FlushInBounds(s);
      var f := Flush(s);
      if !f.ok then Turn(f.stream, [Delivered(id, f.delivered)], [], Some(WriteError), false)
      else AfterFlush(id, s.pending != [], f, pass, max)
  }

  /** The rest of the turn once the queue has been drained as far as the socket allows. */
  function AfterFlush(id: uint32, hadPending: bool, f: Flushed, pass: Pass, max: nat): (t: Turn)
    requires 0 < max && InBounds(f.stream)
    ensures InBounds(t.stream)
  {
    var t := f.stream;
    var events := [Delivered(id, f.delivered)];
    var output := if hadPending && t.pending == [] && t.closing.None?
                  then [Drained(Packet(OKAY, id, t.remote, []))] else [];
    if t.closing.Some? then
      var used := Elapsed(pass.closeClock(id), t.closing.value);
      Turn(t, events, output, if t.pending == [] || used > CLOSE_GRACE_MS then Some(Shut(used)) else None, f.progress)
    else if t.opening.None? && !t.waiting && pass.gate then
      Fetch(id, t, events, output, f.progress, max)
    else Turn(t, events, output, None, f.progress)
  }

  /** One read from the service, sent on as a WRTE. */
  function Fetch(id: uint32, t: StreamState, events: seq<Event>, output: seq<Output>, work: bool, max: nat): (r: Turn)
    requires 0 < max && InBounds(t)
    ensures InBounds(r.stream)
  {
    var (source, outcome) := ReadFrom(t.source, Min(max, CHUNK));
    var u := t.(source := source);
    match outcome
    case ReadBlocked => Turn(u, events, output, None, work)
    case ReadFailed => Turn(u, events, output, Some(ReadError), work)
    case Gave(data) =>
      if data == [] then Turn(u, events, output, Some(Eof), work)
      else Turn(u.(waiting := true), events + [Fetched(id, data)],
                output + [Sent(Packet(WRTE, id, t.remote, data))], None, true)
  }

  datatype Scanned = Scanned(conn: Conn, closed: seq<(uint32, Reason)>, work: bool)

  /** A write offset stays within its packet; without this the source's slice would panic. */
  ghost predicate Shaped(c: Conn)
  {
    && 0 < c.max
    && forall id | id in c.streams :: InBounds(c.streams[id])
  }

  ghost predicate InBounds(s: StreamState)
  {
    s.pending != [] ==> s.offset <= |s.pending[0]|
  }

  /** One stream's turn, as a change of the connection. */
  function ScanOne(r: Scanned, id: uint32, pass: Pass): (q: Scanned)
    requires Shaped(r.conn) && id in r.conn.streams
    ensures Shaped(q.conn) && q.conn.streams.Keys == r.conn.streams.Keys
  {
    var c := r.conn;
    var t := TakeTurn(id, c.streams[id], pass, c.max);
    Scanned(c.(streams := c.streams[id := t.stream], log := c.log + t.events, out := c.out + t.output),
            match t.closed case None => r.closed case Some(why) => r.closed + [(id, why)],
            r.work || t.work)
  }

  /** The turns of the streams in `order`. */
  function Scan(c: Conn, order: seq<uint32>, pass: Pass): (r: Scanned)
    requires Shaped(c) && forall i | 0 <= i < |order| :: order[i] in c.streams
    ensures Shaped(r.conn) && r.conn.streams.Keys == c.streams.Keys
  {
    if order == [] then Scanned(c, [], false)
    else ScanOne(Scan(c, order[..|order| - 1], pass), order[|order| - 1], pass)
  }

  /** Removal of one stream, with its CLSE. */
  function CloseOne(c: Conn, id: uint32, why: Reason): Conn
  {
    if id !in c.streams then c
    else c.(streams := c.streams - {id},
            log := c.log + [Removed(id, why)],
            out := c.out + [Final(Packet(CLSE, id, c.streams[id].remote, []))])
  }

  function CloseAll(c: Conn, closed: seq<(uint32, Reason)>): Conn
  {
    if closed == [] then c
    else CloseOne(CloseAll(c, closed[..|closed| - 1]), closed[|closed| - 1].0, closed[|closed| - 1].1)
  }

  lemma ScanUnfolds(c: Conn, order: seq<uint32>, i: nat, pass: Pass)
    requires Shaped(c) && (forall k | 0 <= k < |order| :: order[k] in c.streams) && i < |order|
    ensures Scan(c, order[..i + 1], pass) == ScanOne(Scan(c, order[..i], pass), order[i], pass)
  {
    assert order[..i + 1][..i] == order[..i];
  }

  /** `Connection::services`: every stream takes its turn, the packets go out, then the finished streams go. */
  function Serve(c: Conn, pass: Pass): Result<(Conn, bool), Fault>
    requires Shaped(c)
  {
    IdsAreKeys(c.streams.Keys, c.next);
    var order := Ids(c.streams.Keys, c.next);
    assert forall i | 0 <= i < |order| :: order[i] in c.streams.Keys;
    var r := Scan(c, order, pass);
    if (|r.conn.out| > |c.out| || r.closed != []) && !pass.tlsOk then Err(TlsFailed)
    else Ok((CloseAll(r.conn, r.closed), r.work || r.closed != []))
  }

  // ---------------------------------------------------------------------------------------------
  // Reverse streams

  /** One accepted connection of a reverse listener: its socket and the listener's target. */
  datatype Incoming = Incoming(source: Source, target: seq<byte>)

  function AcceptOne(c: Conn, i: Incoming, now: nat, tlsOk: bool): Result<Conn, Fault>
  {
    match Allocate(c)
    case Err(f) => Err(f)
    case Ok((d, id)) =>
      Send(d.(streams := d.streams[id := NewStream(0, i.source, Some(now))]),
           Sent(Packet(OPEN, id, 0, i.target + [0])), tlsOk)
  }

  /** The loop of `Connection::reverse_accept` over the sockets accepted in this turn. */
  function AcceptAll(c: Conn, incoming: seq<Incoming>, now: nat, tlsOk: bool): Result<Conn, Fault>
    decreases |incoming|
  {
    if incoming == [] || |c.streams| >= MAX_STREAMS then Ok(c)
    else
      match AcceptOne(c, incoming[0], now, tlsOk)
      case Err(f) => Err(f)
      case Ok(d) => AcceptAll(d, incoming[1..], now, tlsOk)
  }

  // ---------------------------------------------------------------------------------------------
  // Runs

  /** One thing `run` does in its loop. */
  datatype Action =
    | ReadBytes(bytes: seq<byte>, world: nat -> Env)
    | ServicePass(pass: Pass)
    | AcceptReverse(incoming: seq<Incoming>, now: nat, tlsOk: bool)

  function Step(c: Conn, a: Action): Result<Conn, Fault>
    requires Shaped(c)
  {
    match a
    case ReadBytes(bytes, world) => Receive(c, bytes, world)
    case ServicePass(pass) => (match Serve(c, pass) case Ok((d, _)) => Ok(d) case Err(f) => Err(f))
    case AcceptReverse(incoming, now, tlsOk) => AcceptAll(c, incoming, now, tlsOk)
  }

  // ---------------------------------------------------------------------------------------------
  // Ledgers: what the history says about one local ID, computed without looking at the state

  datatype Ledger = Ledger(
    accepted: seq<byte>,
    delivered: seq<byte>,
    fetched: seq<byte>,
    acks: nat,
    writes: nat,
    empties: nat,
    closes: seq<nat>,
    names: seq<uint32>,
    removed: seq<Reason>)

  const BLANK := Ledger([], [], [], 0, 0, 0, [], [], [])

  function Post(l: Ledger, e: Event, id: uint32): Ledger
  {
    if e.id != id then l
    else
      match e
      case Accepted(_, data) =>
        if data == [] then l.(empties := l.empties + 1)
        else l.(accepted := l.accepted + data, writes := l.writes + 1)
      case Acked(_) => l.(acks := l.acks + 1)
      case Delivered(_, data) => l.(delivered := l.delivered + data)
      case Fetched(_, data) => l.(fetched := l.fetched + data)
      case Shutting(_, at) => l.(closes := l.closes + [at])
      case Named(_, p) => l.(names := l.names + [p.arg0])
      case Removed(_, why) => l.(removed := l.removed + [why])
  }

  function Books(log: seq<Event>, id: uint32): Ledger
  {
    if log == [] then BLANK else Post(Books(log[..|log| - 1], id), log[|log| - 1], id)
  }

  /** The ID the peer gave its end of the stream, once it has. */
  function PeerName(l: Ledger): uint32
  {
    if l.names == [] then 0 else l.names[0]
  }

  datatype Wire = Wire(
    sent: seq<byte>,
    wrtes: nat,
    okays: nat,
    drains: nat,
    opens: nat,
    finals: nat,
    longest: nat,
    addressed: seq<uint32>,
    dialed: seq<uint32>)

  const SILENT := Wire([], 0, 0, 0, 0, 0, 0, [], [])

  /** Drain acknowledgements are counted apart from the others. A plain CLSE is not counted: it may echo any ID a
      peer wrote to. `dialed` collects the peer's IDs in our OPENs, `addressed` those in everything else. */
  function Note(w: Wire, o: Output, id: uint32): Wire
  {
    var p := o.packet;
    var to := w.(addressed := w.addressed + [p.arg1]);
    if p.arg0 != id then w
    else if o.Final? then to.(finals := w.finals + 1)
    else if o.Drained? then to.(drains := w.drains + 1)
    else if p.command == WRTE then
      to.(sent := w.sent + p.data, wrtes := w.wrtes + 1,
          longest := if |p.data| > w.longest then |p.data| else w.longest)
    else if p.command == OKAY then to.(okays := w.okays + 1)
    else if p.command == OPEN then w.(opens := w.opens + 1, dialed := w.dialed + [p.arg1])
    else w
  }

  function Tab(out: seq<Output>, id: uint32): Wire
  {
    if out == [] then SILENT else Note(Tab(out[..|out| - 1], id), out[|out| - 1], id)
  }
}
