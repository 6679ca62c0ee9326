/** The promises of the multiplexer, for every run: any bytes from the peer cut in any way, any service
    behaviour, any clock, any order of reads, service passes and reverse accepts. */
module MuxTheorems {
  import opened Wrappers
  import opened Bytes
  import opened Protocol
  import opened Streams
  import opened Mux
  import opened MuxInvariant

  /** The state after a list of actions, unless one of them ended the connection. Every reachable state keeps
      the invariant and has no whole packet left in its input. */
  ghost function Run(max: nat, actions: seq<Action>): (r: Result<Conn, Fault>)
    requires 4096 <= max <= MAX_PAYLOAD
    ensures r.Ok? ==> Inv(r.value) && Settled(r.value) && r.value.max == max
  {
    if actions == [] then StartInv(max); Ok(Start(max))
    else
      match Run(max, actions[..|actions| - 1])
      case Err(f) => Err(f)
      case Ok(c) =>
        InvShaped(c);
        StepKeeps(c, actions[|actions| - 1]);
        Step(c, actions[|actions| - 1])
  }

  /** Every action that does not end the connection keeps the invariant. */
  lemma StepKeeps(c: Conn, a: Action)
    requires Inv(c) && Settled(c) && Shaped(c)
    ensures Step(c, a).Ok? ==> Inv(Step(c, a).value) && Settled(Step(c, a).value) && Step(c, a).value.max == c.max
  {
    hide Inv, Settled, Shaped, Parse, Serve, AcceptAll;
    if Step(c, a).Ok? {
      match a
      case ReadBytes(bytes, world) =>
        InvIgnoresInput(c, c.input + bytes, c.handled);
        ParseKeeps(c.(input := c.input + bytes), world);
        ParseLimit(c.(input := c.input + bytes), world);
      case ServicePass(pass) =>
        ServeKeeps(c, pass);
        ServeInput(c, pass);
        SettledSame(c, Serve(c, pass).value.0);
      case AcceptReverse(incoming, now, tlsOk) =>
        AcceptKeeps(c, incoming, now, tlsOk);
        AcceptInput(c, incoming, now, tlsOk);
        SettledSame(c, AcceptAll(c, incoming, now, tlsOk).value);
    }
  }

  lemma SettledSame(c: Conn, d: Conn)
    requires Settled(c) && SameInput(c, d)
    ensures Settled(d)
  {
  }

  lemma {:induction false} ParseLimit(c: Conn, world: nat -> Env)
    ensures Parse(c, world).Ok? ==> Parse(c, world).value.max == c.max
    decreases |c.input|
  {
    hide Handle, CutOne;
    var cut := CutOne(c.input, c.max);
    if cut.Yield? {
      ParseUnfolds(c, world, cut.packet, cut.rest);
      var h := Handle(c.(input := cut.rest, handled := c.handled + 1), cut.packet, world(c.handled));
      if h.Ok? {
        ParseLimit(h.value, world);
      }
    }
  }

  lemma {:induction false} ScanInput(c: Conn, order: seq<uint32>, pass: Pass)
    requires Shaped(c) && forall i | 0 <= i < |order| :: order[i] in c.streams
    ensures SameInput(c, Scan(c, order, pass).conn) && Scan(c, order, pass).conn.next == c.next
  {
    if order != [] {
      ScanInput(c, order[..|order| - 1], pass);
    }
  }

  lemma {:induction false} CloseInput(c: Conn, closed: seq<(uint32, Reason)>)
    ensures SameInput(c, CloseAll(c, closed)) && CloseAll(c, closed).next == c.next
  {
    if closed != [] {
      CloseInput(c, closed[..|closed| - 1]);
    }
  }

  lemma ServeInput(c: Conn, pass: Pass)
    requires Shaped(c) && Serve(c, pass).Ok?
    ensures SameInput(c, Serve(c, pass).value.0) && Serve(c, pass).value.0.next == c.next
  {
    hide Shaped, Scan, CloseAll, Ids;
    IdsAreKeys(c.streams.Keys, c.next);
    var order := Ids(c.streams.Keys, c.next);
    assert forall i | 0 <= i < |order| :: order[i] in c.streams.Keys;
    ScanInput(c, order, pass);
    var r := Scan(c, order, pass);
    CloseInput(r.conn, r.closed);
  }

  lemma {:induction false} AcceptInput(c: Conn, incoming: seq<Incoming>, now: nat, tlsOk: bool)
    requires AcceptAll(c, incoming, now, tlsOk).Ok?
    ensures SameInput(c, AcceptAll(c, incoming, now, tlsOk).value)
    decreases |incoming|
  {
    if incoming != [] && |c.streams| < MAX_STREAMS {
      AcceptInput(AcceptOne(c, incoming[0], now, tlsOk).value, incoming[1..], now, tlsOk);
    }
  }

  // ---------------------------------------------------------------------------------------------
  // Delivery

  /** For a stream in the table: what the service was given, followed by what is queued for it, is what the
      peer's accepted WRTEs carried, in order. */
  lemma DeliveryIsFifo(max: nat, actions: seq<Action>, id: uint32)
    requires 4096 <= max <= MAX_PAYLOAD && Run(max, actions).Ok?
    ensures var c := Run(max, actions).value;
            id in c.streams ==>
              && c.streams[id].Valid()
              && Books(c.log, id).delivered + c.streams[id].Undelivered() == Books(c.log, id).accepted
  {
    var c := Run(max, actions).value;
    if id in c.streams {
      LiveAccount(c, id);
    }
  }

  /** For a removed stream: it was removed once and announced by one final CLSE. What its service was given is
      a prefix of what was accepted, and all of it when the removal followed a CLSE within its grace time. An
      end of file is announced only when every WRTE had been acknowledged. */
  lemma RemovalIsOrderly(max: nat, actions: seq<Action>, id: uint32)
    requires 4096 <= max <= MAX_PAYLOAD && Run(max, actions).Ok?
    ensures var c := Run(max, actions).value; var l := Books(c.log, id); var w := Tab(c.out, id);
            l.removed != [] ==>
              && id !in c.streams && |l.removed| == 1 && w.finals == 1
              && l.delivered <= l.accepted
              && (l.removed[0].Shut? && l.removed[0].elapsed <= 1000 ==> l.delivered == l.accepted)
              && (l.removed[0] == Eof ==> w.wrtes == l.acks)
  {
    var c := Run(max, actions).value;
    if id in c.streams {
      LiveAccount(c, id);
    }
  }

  /** The only way to delete a peer's bytes after an orderly close is to outlive the grace time: a stream with
      `closing` set leaves the table exactly when its queue is empty or more than a second has passed. */
  lemma ClosingLeavesWhenDrainedOrLate(max: nat, id: uint32, s: StreamState, pass: Pass)
    requires s.Valid() && s.closing.Some? && s.opening.None? && Flush(s).ok && 0 < max
    ensures InBounds(s) && SameRole(s, Flush(s).stream)
    ensures TakeTurn(id, s, pass, max).closed.Some? <==>
            Flush(s).stream.pending == [] || Elapsed(pass.closeClock(id), s.closing.value) > 1000
  {
    FlushConserves(s);
  }

  // ---------------------------------------------------------------------------------------------
  // Flow control

  /** One WRTE per stream is unacknowledged exactly while `waiting`, the WRTEs carry exactly the bytes read
      from the service, and none is longer than a chunk or the negotiated limit. */
  lemma OneWriteInFlight(max: nat, actions: seq<Action>, id: uint32)
    requires 4096 <= max <= MAX_PAYLOAD && Run(max, actions).Ok?
    ensures var c := Run(max, actions).value; var l := Books(c.log, id); var w := Tab(c.out, id);
            && w.sent == l.fetched
            && w.longest <= Min(max, 65536)
            && l.acks <= w.wrtes <= l.acks + 1
            && (id in c.streams ==> (w.wrtes == l.acks + 1 <==> c.streams[id].waiting))
  {
    var c := Run(max, actions).value;
    if id in c.streams {
      LiveAccount(c, id);
    }
  }

  /** Acknowledgements to the peer: exactly one for an OPEN it made and one for each empty WRTE; those for drained
      queues, together with the packets still queued, never exceed the non-empty WRTEs accepted. */
  lemma DrainAcknowledgementsAreEarned(max: nat, actions: seq<Action>, id: uint32)
    requires 4096 <= max <= MAX_PAYLOAD && Run(max, actions).Ok?
    ensures var c := Run(max, actions).value; var l := Books(c.log, id); var w := Tab(c.out, id);
            var queued := if id in c.streams then |c.streams[id].pending| else 0;
            && w.drains + queued <= l.writes
            && w.opens <= 1
            && (1 <= id < c.next ==> w.okays + w.opens == l.empties + 1)
  {
    var c := Run(max, actions).value;
    if id in c.streams {
      LiveAccount(c, id);
    }
  }

  // ---------------------------------------------------------------------------------------------
  // The stream table

  /** After the final CLSE of a stream its local ID names no later OPEN, OKAY, WRTE or final CLSE. */
  lemma RemovedIdsStaySilent(max: nat, actions: seq<Action>, i: nat, j: nat)
    requires 4096 <= max <= MAX_PAYLOAD && Run(max, actions).Ok?
    ensures var out := Run(max, actions).value.out;
            i < j < |out| && out[i].Final? ==> !Uses(out[j], out[i].packet.arg0)
  {
  }

  /** The shape of the table: at most 64 streams under IDs below the next one, which is below `u32::MAX`
      for every ID given out; a stream has no remote ID exactly while it is opening; an opening stream has
      nothing queued and waits for nothing; streams the peer opened have distinct remote IDs. */
  lemma TableShape(max: nat, actions: seq<Action>)
    requires 4096 <= max <= MAX_PAYLOAD && Run(max, actions).Ok?
    ensures var c := Run(max, actions).value;
            && |c.streams| <= 64
            && (forall id | id in c.streams ::
                  && 1 <= id < c.next <= U32_MAX
                  && (c.streams[id].remote == 0 <==> c.streams[id].opening.Some?)
                  && (c.streams[id].opening.Some? ==> c.streams[id].pending == [] && !c.streams[id].waiting))
            && DistinctPeers(c)
  {
    var c := Run(max, actions).value;
    forall id | id in c.streams
      ensures 1 <= id < c.next && c.streams[id].Valid()
    {
      LiveAccount(c, id);
    }
  }

  /** Local IDs are fresh: whatever an action adds to the table has an ID the connection never used before, in
      the table or in its history, and the next ID never goes back. */
  lemma NewIdsAreFresh(max: nat, actions: seq<Action>, a: Action, id: uint32)
    requires 4096 <= max <= MAX_PAYLOAD && Run(max, actions + [a]).Ok?
    ensures Run(max, actions).Ok?
    ensures var c := Run(max, actions).value; var d := Run(max, actions + [a]).value;
            && c.next <= d.next
            && (id in d.streams && id !in c.streams ==>
                  c.next <= id && Books(c.log, id) == BLANK && Tab(c.out, id) == SILENT)
  {
    assert (actions + [a])[..|actions|] == actions;
    var c := Run(max, actions).value;
    InvShaped(c);
    StepGrows(c, a, id);
  }

  /** An action only adds IDs at or above the next one. */
  ghost predicate Grows(c: Conn, d: Conn, id: uint32)
  {
    c.next <= d.next && (id in d.streams && id !in c.streams ==> c.next <= id)
  }

  lemma StepGrows(c: Conn, a: Action, id: uint32)
    requires Inv(c) && Shaped(c) && Step(c, a).Ok?
    ensures Grows(c, Step(c, a).value, id)
  {
    hide Inv, Shaped, Parse, Serve, AcceptAll;
    match a
    case ReadBytes(bytes, world) => ParseGrows(c.(input := c.input + bytes), world, id);
    case ServicePass(pass) => ServeGrows(c, pass, id);
    case AcceptReverse(incoming, now, tlsOk) => AcceptGrows(c, incoming, now, tlsOk, id);
  }

  lemma {:induction false} ParseGrows(c: Conn, world: nat -> Env, id: uint32)
    requires Parse(c, world).Ok?
    ensures Grows(c, Parse(c, world).value, id)
    decreases |c.input|
  {
    hide CutOne, Handle;
    var cut := CutOne(c.input, c.max);
    if cut.Yield? {
      ParseUnfolds(c, world, cut.packet, cut.rest);
      var b := c.(input := cut.rest, handled := c.handled + 1);
      HandleGrows(b, cut.packet, world(c.handled), id);
      ParseGrows(Handle(b, cut.packet, world(c.handled)).value, world, id);
    }
  }

  lemma HandleGrows(c: Conn, p: Packet, e: Env, id: uint32)
    requires Handle(c, p, e).Ok?
    ensures Grows(c, Handle(c, p, e).value, id)
  {
    hide Queued;
  }

  lemma {:induction false} CloseGrows(c: Conn, closed: seq<(uint32, Reason)>)
    ensures CloseAll(c, closed).streams.Keys <= c.streams.Keys && CloseAll(c, closed).next == c.next
  {
    if closed != [] {
      CloseGrows(c, closed[..|closed| - 1]);
    }
  }

  lemma ServeGrows(c: Conn, pass: Pass, id: uint32)
    requires Shaped(c) && Serve(c, pass).Ok?
    ensures Grows(c, Serve(c, pass).value.0, id)
  {
    hide Shaped, Scan, CloseAll, Ids;
    IdsAreKeys(c.streams.Keys, c.next);
    var order := Ids(c.streams.Keys, c.next);
    assert forall i | 0 <= i < |order| :: order[i] in c.streams.Keys;
    var r := Scan(c, order, pass);
    ScanInput(c, order, pass);
    CloseGrows(r.conn, r.closed);
  }

  lemma {:induction false} AcceptGrows(c: Conn, incoming: seq<Incoming>, now: nat, tlsOk: bool, id: uint32)
    requires AcceptAll(c, incoming, now, tlsOk).Ok?
    ensures Grows(c, AcceptAll(c, incoming, now, tlsOk).value, id)
    decreases |incoming|
  {
    if incoming != [] && |c.streams| < MAX_STREAMS {
      AcceptGrows(AcceptOne(c, incoming[0], now, tlsOk).value, incoming[1..], now, tlsOk, id);
    }
  }

  /** In a reachable state the acknowledgement of an OPEN we sent is never refused as unexpected: the check
      that its stream has no remote ID yet cannot fail. */
  lemma OpenAcknowledgementIsExpected(max: nat, actions: seq<Action>, p: Packet, e: Env)
    requires 4096 <= max <= MAX_PAYLOAD && Run(max, actions).Ok?
    requires var c := Run(max, actions).value; p.arg1 in c.streams && c.streams[p.arg1].opening.Some?
    requires p.command == OKAY && p.data == [] && p.arg0 != 0
    ensures var c := Run(max, actions).value;
            Handle(c, p, e).Ok? && Handle(c, p, e).value.streams[p.arg1].remote == p.arg0
  {
    hide Run, Books, Tab, Queued, Ordered, DistinctPeers, Bounds, Accounts;
    LiveAccount(Run(max, actions).value, p.arg1);
  }

  ghost predicate DistinctRemotes(streams: map<uint32, StreamState>)
  {
    forall a, b | a in streams && b in streams && a != b && streams[a].remote != 0 ::
      streams[a].remote != streams[b].remote
  }

  /** Distinctness over all streams is not kept by every acknowledgement of a reverse OPEN. It survives one
      exactly when the peer's ID is not in use. */
  lemma AcknowledgementKeepsRemotesDistinctExactlyWhen(c: Conn, p: Packet)
    requires DistinctRemotes(c.streams) && p.arg1 in c.streams
    requires c.streams[p.arg1].opening.Some? && c.streams[p.arg1].remote == 0
    requires p.command == OKAY && p.data == [] && p.arg0 != 0
    ensures HandleOkay(c, p).Ok?
    ensures DistinctRemotes(HandleOkay(c, p).value.streams) <==>
            forall id | id in c.streams :: c.streams[id].remote != p.arg0
  {
    var d := HandleOkay(c, p).value;
    assert d.streams[p.arg1].remote == p.arg0;
    if id :| id in c.streams && c.streams[id].remote == p.arg0 {
      assert id != p.arg1 && d.streams[id] == c.streams[id];
    }
  }

  /** The connection of `RemotesMayCollide` after one, two and three actions. */
  ghost function Opened(): Conn
  {
    Conn(4096, map[1 := NewStream(7, Socket([], []), None)], 2, [], [Sent(Packet(OKAY, 1, 7, []))],
         [Named(1, Packet(OPEN, 7, 0, [1, 0]))], 1)
  }

  ghost function Reversed(): Conn
  {
    Opened().(streams := Opened().streams[2 := NewStream(0, Socket([], []), Some(0))], next := 3,
              out := Opened().out + [Sent(Packet(OPEN, 2, 0, [1, 0]))])
  }

  ghost function Collided(): Conn
  {
    Reversed().(streams := Reversed().streams[2 := NewStream(7, Socket([], []), None)],
                log := Reversed().log + [Named(2, Packet(OKAY, 7, 2, []))], handled := 2)
  }

  lemma RunPush(max: nat, actions: seq<Action>, a: Action)
    requires 4096 <= max <= MAX_PAYLOAD && Run(max, actions).Ok?
    ensures Shaped(Run(max, actions).value)
    ensures Run(max, actions + [a]) == Step(Run(max, actions).value, a)
  {
    assert (actions + [a])[..|actions|] == actions;
    InvShaped(Run(max, actions).value);
  }

  lemma CollisionSteps(world: nat -> Env)
    requires forall k: nat :: world(k) == Env(Some(Socket([], [])), 0, true)
    ensures Handle(Start(4096).(handled := 1), Packet(OPEN, 7, 0, [1, 0]), world(0)) == Ok(Opened())
    ensures Handle(Reversed().(handled := 2), Packet(OKAY, 7, 2, []), world(1)) == Ok(Collided())
    ensures !DistinctRemotes(Collided().streams)
  {
    var c := Collided();
    assert 1 in c.streams && 2 in c.streams && c.streams[1].remote == 7 && c.streams[2].remote == 7;
    var open: seq<byte> := [1, 0];
    assert open[..1] == [1] && ServiceName(open);
    var none: map<uint32, StreamState> := map[];
    assert none[1 := NewStream(7, Socket([], []), None)] == Opened().streams;
    assert [] + [Sent(Packet(OKAY, 1, 7, []))] == Opened().out;
    assert [] + [Named(1, Packet(OPEN, 7, 0, [1, 0]))] == Opened().log;
    assert HandleOkay(Reversed().(handled := 2), Packet(OKAY, 7, 2, [])) == Ok(Collided()) by {
      var r := Reversed().(handled := 2);
      assert 2 in r.streams && r.streams[2].opening == Some(0);
      assert r.streams[2].(opening := None, remote := 7) == NewStream(7, Socket([], []), None);
      assert r.(streams := r.streams[2 := NewStream(7, Socket([], []), None)],
                log := r.log + [Named(2, Packet(OKAY, 7, 2, []))]) == Collided();
    }
  }

  /** A run in which two streams share a remote ID: the peer opens a stream with ID 7, then acknowledges a
      reverse stream with the same 7. */
  lemma RemotesMayCollide() returns (actions: seq<Action>)
    ensures Run(4096, actions).Ok? && !DistinctRemotes(Run(4096, actions).value.streams)
  {
    hide Handle, Opened, Reversed, Collided, DistinctRemotes, Run, Receive, Write, AcceptAll;
    var env := Env(Some(Socket([], [])), 0, true);
    var world := (k: nat) => env;
    var open, ack := Packet(OPEN, 7, 0, [1, 0]), Packet(OKAY, 7, 2, []);
    var i := Incoming(Socket([], []), [1]);
    CollisionSteps(world);
    ReversedFollows(i);
    assert Run(4096, []) == Ok(Start(4096)) by { EmptyRun(4096); }
    OnePacket(Start(4096), open, world, Opened());
    actions := Reading([], Start(4096), open, world, Opened());
    actions := Accepting(actions, Opened(), i, Reversed());
    OnePacket(Reversed(), ack, world, Collided());
    actions := Reading(actions, Reversed(), ack, world, Collided());
  }

  /** A run followed by the read of one packet. */
  lemma Reading(actions: seq<Action>, c: Conn, p: Packet, world: nat -> Env, d: Conn) returns (more: seq<Action>)
    requires Run(4096, actions) == Ok(c) && Write(p, false).Ok? && Receive(c, Write(p, false).value, world) == Ok(d)
    ensures Run(4096, more) == Ok(d)
  {
    hide Run, Receive, Write, Shaped;
    more := actions + [ReadBytes(Write(p, false).value, world)];
    RunPush(4096, actions, ReadBytes(Write(p, false).value, world));
  }

  /** A run followed by one reverse connection. */
  lemma Accepting(actions: seq<Action>, c: Conn, i: Incoming, d: Conn) returns (more: seq<Action>)
    requires Run(4096, actions) == Ok(c) && AcceptAll(c, [i], 0, true) == Ok(d)
    ensures Run(4096, more) == Ok(d)
  {
    hide Run, AcceptAll, Shaped;
    more := actions + [AcceptReverse([i], 0, true)];
    RunPush(4096, actions, AcceptReverse([i], 0, true));
  }

  lemma EmptyRun(max: nat)
    requires 4096 <= max <= MAX_PAYLOAD
    ensures Run(max, []) == Ok(Start(max))
  {
  }

  lemma ReversedFollows(i: Incoming)
    requires i == Incoming(Socket([], []), [1])
    ensures AcceptAll(Opened(), [i], 0, true) == Ok(Reversed())
    ensures Opened().input == [] && Opened().max == 4096 && Reversed().input == [] && Reversed().max == 4096
    ensures Opened().handled == 1 && Reversed().handled == 1
  {
    assert i.target + [0] == [1, 0];
    AcceptsOne(Opened(), i, Reversed());
  }

  lemma AcceptsOne(c: Conn, i: Incoming, d: Conn)
    requires |c.streams| < MAX_STREAMS && c.next < U32_MAX
    requires d == c.(streams := c.streams[c.next := NewStream(0, i.source, Some(0))], next := c.next + 1,
                     out := c.out + [Sent(Packet(OPEN, c.next, 0, i.target + [0]))])
    ensures AcceptAll(c, [i], 0, true) == Ok(d)
  {
    assert [i][1..] == [];
    assert AcceptAll(d, [], 0, true) == Ok(d);
  }

  lemma OnePacket(c: Conn, p: Packet, world: nat -> Env, d: Conn)
    requires c.input == [] && c.max == 4096 && |p.data| <= 4096
    requires Handle(c.(handled := c.handled + 1), p, world(c.handled)) == Ok(d)
    ensures Write(p, false).Ok? && Receive(c, Write(p, false).value, world) == Ok(d)
  {
    hide Handle, CutOne, Write, Parse;
    WrittenPacketIsCut(p, [], 4096, false);
    var bytes := Write(p, false).value;
    WrittenLength(p);
    assert bytes + [] == bytes && [] + bytes == bytes;
    ParseUnfolds(c.(input := bytes), world, p, []);
    assert c.(input := bytes).(input := [], handled := c.handled + 1) == c.(handled := c.handled + 1);
    ParsedOut(d, world);
  }

  lemma WrittenLength(p: Packet)
    requires |p.data| <= 4096
    ensures Write(p, false).Ok? && |Write(p, false).value| == HEADER + |p.data|
  {
  }

  lemma ParsedOut(d: Conn, world: nat -> Env)
    requires d.input == []
    ensures Parse(d, world) == Ok(d)
  {
  }

  // ---------------------------------------------------------------------------------------------
  // Memory

  /** The packets queued over all streams stay within 8 MiB and each stream queues at most 64. */
  lemma QueuesAreBounded(max: nat, actions: seq<Action>, id: uint32)
    requires 4096 <= max <= MAX_PAYLOAD && Run(max, actions).Ok?
    ensures var c := Run(max, actions).value;
            Queued(c.streams, c.next) <= 8 * 1024 * 1024 && (id in c.streams ==> |c.streams[id].pending| <= 64)
  {
    var c := Run(max, actions).value;
    if id in c.streams {
      LiveAccount(c, id);
    }
  }

  /** Between reads fewer than one maximal packet of input is kept, so a read of at most one chunk never
      reaches the input limit: that error cannot happen. */
  lemma InputLimitNeverFires(max: nat, actions: seq<Action>, bytes: seq<byte>, world: nat -> Env)
    requires 4096 <= max <= MAX_PAYLOAD && Run(max, actions).Ok? && |bytes| <= CHUNK
    ensures var c := Run(max, actions).value;
            && |c.input| < HEADER + max
            && Receive(c, bytes, world) == Parse(c.(input := c.input + bytes), world)
  {
    hide Run, Inv, Settled, Parse;
    SettledIsShort(Run(max, actions).value);
  }

  // ---------------------------------------------------------------------------------------------
  // Chunking

  lemma HandleOkayIgnoresInput(c: Conn, p: Packet, input: seq<byte>)
    ensures HandleOkay(c.(input := input), p) ==
            match HandleOkay(c, p) case Ok(d) => Ok(d.(input := input)) case Err(f) => Err(f)
  {
  }

  /** Handling a packet does not look at the unparsed input. */
  lemma HandleIgnoresInput(c: Conn, p: Packet, e: Env, input: seq<byte>)
    ensures Handle(c.(input := input), p, e) ==
            match Handle(c, p, e) case Ok(d) => Ok(d.(input := input)) case Err(f) => Err(f)
  {
    HandleOkayIgnoresInput(c, p, input);
    hide Queued, Enqueue, HandleOkay, ServiceName;
  }

  /** Parsing `a` and then `b` is parsing `a` followed by `b`, for everything handling does to the state. */
  lemma {:induction false} ParseAppend(c: Conn, b: seq<byte>, world: nat -> Env)
    ensures Parse(c.(input := c.input + b), world) ==
            match Parse(c, world)
            case Err(f) => Err(f)
            case Ok(d) => Parse(d.(input := d.input + b), world)
    decreases |c.input|
  {
    hide Handle, CutOne;
    CutOneStable(c.input, b, c.max);
    var cut := CutOne(c.input, c.max);
    if cut.Yield? {
      ParseUnfolds(c, world, cut.packet, cut.rest);
      ParseUnfolds(c.(input := c.input + b), world, cut.packet, cut.rest + b);
      var next := c.(input := cut.rest, handled := c.handled + 1);
      HandleIgnoresInput(next, cut.packet, world(c.handled), cut.rest + b);
      var h := Handle(next, cut.packet, world(c.handled));
      assert c.(input := c.input + b).(input := cut.rest + b, handled := c.handled + 1)
          == next.(input := cut.rest + b);
      if h.Ok? {
        ParseAppend(h.value, b, world);
      }
    }
  }

  /** The state after reading chunk after chunk. */
  ghost function ReceiveAll(c: Conn, chunks: seq<seq<byte>>, world: nat -> Env): Result<Conn, Fault>
  {
    if chunks == [] then Ok(c)
    else
      match ReceiveAll(c, chunks[..|chunks| - 1], world)
      case Err(f) => Err(f)
      case Ok(d) => Receive(d, chunks[|chunks| - 1], world)
  }

  /** One read of a connection that has parsed what it could. */
  lemma OneRead(c: Conn, bytes: seq<byte>, world: nat -> Env)
    requires Inv(c) && Settled(c) && |bytes| <= CHUNK
    ensures Receive(c, bytes, world) == Parse(c.(input := c.input + bytes), world)
    ensures Receive(c, bytes, world).Ok? ==>
              var d := Receive(c, bytes, world).value; Inv(d) && Settled(d) && d.max == c.max
  {
    hide Inv, Settled, Parse;
    SettledIsShort(c);
    InvIgnoresInput(c, c.input + bytes, c.handled);
    ParseLimit(c.(input := c.input + bytes), world);
    if Parse(c.(input := c.input + bytes), world).Ok? {
      ParseKeeps(c.(input := c.input + bytes), world);
    }
  }

  lemma NothingToParse(c: Conn, world: nat -> Env)
    requires Settled(c)
    ensures Parse(c.(input := c.input + []), world) == Ok(c)
  {
    hide CutOne, Handle;
    assert c.(input := c.input + []) == c;
  }

  /** However the peer's bytes are cut into reads of at most one chunk, the connection ends in the same state,
      with the same streams, history and answers, or the same error. */
  lemma {:induction false} ReadsMayBeCutAnywhere(c: Conn, chunks: seq<seq<byte>>, world: nat -> Env)
    requires Inv(c) && Settled(c)
    requires forall i | 0 <= i < |chunks| :: |chunks[i]| <= CHUNK
    ensures ReceiveAll(c, chunks, world) == Parse(c.(input := c.input + Concat(chunks)), world)
    ensures ReceiveAll(c, chunks, world).Ok? ==>
              var d := ReceiveAll(c, chunks, world).value; Inv(d) && Settled(d) && d.max == c.max
  {
    hide Inv, Settled, Parse, Receive;
    if chunks == [] {
      NothingToParse(c, world);
    } else {
      var init, last := chunks[..|chunks| - 1], chunks[|chunks| - 1];
      assert chunks == init + [last];
      ConcatPush(init, last);
      ReadsMayBeCutAnywhere(c, init, world);
      assert c.input + Concat(chunks) == (c.input + Concat(init)) + last;
      ParseAppend(c.(input := c.input + Concat(init)), last, world);
      if ReceiveAll(c, init, world).Ok? {
        OneRead(ReceiveAll(c, init, world).value, last, world);
      }
    }
  }

  lemma SettledIsShort(c: Conn)
    requires Inv(c) && Settled(c)
    ensures |c.input| < HEADER + c.max && c.max <= MAX_PAYLOAD
  {
  }

  /** Packets handled one after the other, each under its number. */
  function HandleAll(c: Conn, ps: seq<Packet>, world: nat -> Env): Result<Conn, Fault>
    decreases |ps|
  {
    if ps == [] then Ok(c)
    else
      match Handle(c.(handled := c.handled + 1), ps[0], world(c.handled))
      case Err(f) => Err(f)
      case Ok(d) => HandleAll(d, ps[1..], world)
  }

  /** What the writer put out is handled as exactly those packets, in order, up to the first that is refused. */
  lemma {:induction false} WrittenPacketsAreHandled(c: Conn, ps: seq<Packet>, checksum: bool, world: nat -> Env)
    requires c.input == [] && c.max <= MAX_PAYLOAD && Fit(ps, c.max)
    ensures Parse(c.(input := WriteAll(ps, checksum)), world) == HandleAll(c, ps, world)
    ensures HandleAll(c, ps, world).Ok? ==> HandleAll(c, ps, world).value.input == []
    decreases |ps|
  {
    hide Handle, CutOne, Write, Parse;
    if ps == [] {
      assert c.(input := []) == c;
      ParsedOut(c, world);
    } else {
      var tail := WriteAll(ps[1..], checksum);
      var next := c.(handled := c.handled + 1);
      WrittenPacketIsCut(ps[0], tail, c.max, checksum);
      ParseUnfolds(c.(input := WriteAll(ps, checksum)), world, ps[0], tail);
      HandleIgnoresInput(next, ps[0], world(c.handled), tail);
      assert c.(input := WriteAll(ps, checksum)).(input := tail, handled := c.handled + 1) == next.(input := tail);
      var h := Handle(next, ps[0], world(c.handled));
      if h.Ok? {
        WrittenPacketsAreHandled(h.value, ps[1..], checksum, world);
      }
    }
  }
}
