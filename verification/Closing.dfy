/** How long a stream that the peer has closed stays in the table. */
module Closing {
  import opened Wrappers
  import opened Bytes
  import opened Protocol
  import opened Streams
  import opened Mux
  import opened MuxInvariant
  import opened MuxTheorems

  /** The service pass wants this stream removed. */
  ghost predicate InClosed(closed: seq<(uint32, Reason)>, id: uint32)
  {
    exists k | 0 <= k < |closed| :: closed[k].0 == id
  }

  lemma InClosedPush(closed: seq<(uint32, Reason)>, x: (uint32, Reason), id: uint32)
    ensures InClosed(closed + [x], id) <==> InClosed(closed, id) || x.0 == id
  {
    var all := closed + [x];
    if InClosed(closed, id) {
      var k :| 0 <= k < |closed| && closed[k].0 == id;
      assert all[k].0 == id;
    }
    if x.0 == id {
      assert all[|closed|].0 == id;
    }
  }

  /** The turns of other streams do not touch this one. */
  lemma {:induction false} ScanPassesBy(c: Conn, order: seq<uint32>, pass: Pass, id: uint32)
    requires Shaped(c) && id in c.streams && forall i | 0 <= i < |order| :: order[i] in c.streams && order[i] != id
    ensures var r := Scan(c, order, pass);
            r.conn.max == c.max && r.conn.streams[id] == c.streams[id] && !InClosed(r.closed, id)
  {
    hide TakeTurn, InClosed;
    if order == [] {
      assert !InClosed([], id) by { NoneClosed(id); }
    } else {
      var init, last := order[..|order| - 1], order[|order| - 1];
      ScanPassesBy(c, init, pass, id);
      var r := Scan(c, init, pass);
      var t := TakeTurn(last, r.conn.streams[last], pass, r.conn.max);
      if t.closed.Some? {
        InClosedPush(r.closed, (last, t.closed.value), id);
      }
    }
  }

  lemma NoneClosed(id: uint32)
    ensures !InClosed([], id)
  {
  }

  /** A pass wants a stream removed exactly when its own turn says so. */
  lemma {:induction false} ScanClosesExactly(c: Conn, order: seq<uint32>, pass: Pass, id: uint32)
    requires Shaped(c) && id in c.streams && id in order
    requires forall i | 0 <= i < |order| :: order[i] in c.streams
    requires forall i, j | 0 <= i < j < |order| :: order[i] < order[j]
    ensures InBounds(c.streams[id]) && 0 < c.max
    ensures Scan(c, order, pass).conn.max == c.max
    ensures InClosed(Scan(c, order, pass).closed, id) <==> TakeTurn(id, c.streams[id], pass, c.max).closed.Some?
  {
    hide TakeTurn, InClosed;
    var init, last := order[..|order| - 1], order[|order| - 1];
    var r := Scan(c, init, pass);
    if last == id {
      ScanPassesBy(c, init, pass, id);
    } else {
      assert id in init;
      ScanClosesExactly(c, init, pass, id);
    }
    var t := TakeTurn(last, r.conn.streams[last], pass, r.conn.max);
    if t.closed.Some? {
      InClosedPush(r.closed, (last, t.closed.value), id);
    }
  }

  lemma {:induction false} CloseAllRemoves(c: Conn, closed: seq<(uint32, Reason)>, id: uint32)
    ensures id in CloseAll(c, closed).streams <==> id in c.streams && !InClosed(closed, id)
  {
    hide InClosed;
    if closed == [] {
      NoneClosed(id);
    } else {
      var init, last := closed[..|closed| - 1], closed[|closed| - 1];
      CloseAllRemoves(c, init, id);
      InClosedPush(init, last, id);
      assert init + [last] == closed;
    }
  }

  /** A service pass removes exactly the streams whose own turn asks for it. */
  lemma ServeRemovesExactly(c: Conn, pass: Pass, id: uint32)
    requires Inv(c) && Shaped(c) && id in c.streams && Serve(c, pass).Ok?
    ensures InBounds(c.streams[id]) && 0 < c.max
    ensures id in Serve(c, pass).value.0.streams <==> TakeTurn(id, c.streams[id], pass, c.max).closed.None?
  {
    hide Inv, TakeTurn, InClosed, Scan, Ids, CloseAll;
    LiveAccount(c, id);
    IdsAreKeys(c.streams.Keys, c.next);
    var order := Ids(c.streams.Keys, c.next);
    assert forall i | 0 <= i < |order| :: order[i] in c.streams.Keys;
    assert id in c.streams.Keys;
    ScanClosesExactly(c, order, pass, id);
    var r := Scan(c, order, pass);
    CloseAllRemoves(r.conn, r.closed, id);
  }

  /** After this pass could write, the stream is closed and still has data queued. */
  ghost predicate Lingers(c: Conn, id: uint32)
  {
    && id in c.streams && Books(c.log, id).closes != [] && InBounds(c.streams[id])
    && Flush(c.streams[id]).ok && Flush(c.streams[id]).stream.pending != []
  }

  /** The time since the last CLSE alone decides whether a lingering stream is still there after a pass. */
  ghost predicate Timed(c: Conn, d: Conn, pass: Pass, id: uint32)
  {
    var closes := Books(c.log, id).closes;
    Lingers(c, id) ==>
      var age := Elapsed(pass.closeClock(id), closes[|closes| - 1]);
      && (id in d.streams <==> age <= 1000)
      && (Elapsed(pass.closeClock(id), closes[0]) > 1000 ==>
            (id in d.streams <==> |closes| > 1 && age <= 1000))
  }

  lemma LingeringTurn(c: Conn, pass: Pass, id: uint32)
    requires Inv(c) && Shaped(c) && Serve(c, pass).Ok?
    ensures Timed(c, Serve(c, pass).value.0, pass, id)
  {
    hide Inv, Flush, Serve, TakeTurn, Books, Tab, Shaped, Size;
    if Lingers(c, id) {
      ServeRemovesExactly(c, pass, id);
      LiveAccount(c, id);
      ClosingTurn(c.max, id, c.streams[id], pass);
    }
  }

  /** A closed stream with data still queued after its turn stays exactly as long as its last CLSE is at most a
      second old. It outlives a second after its first CLSE exactly when a later one came within a second before
      the pass. */
  lemma ClosingIsTimedFromLastClose(max: nat, actions: seq<Action>, pass: Pass, id: uint32)
    requires 4096 <= max <= MAX_PAYLOAD && Run(max, actions + [ServicePass(pass)]).Ok?
    ensures Run(max, actions).Ok?
    ensures Timed(Run(max, actions).value, Run(max, actions + [ServicePass(pass)]).value, pass, id)
  {
    hide Inv, Shaped, Serve, Run, Timed;
    PassFollows(max, actions, pass);
    LingeringTurn(Run(max, actions).value, pass, id);
  }

  lemma PassFollows(max: nat, actions: seq<Action>, pass: Pass)
    requires 4096 <= max <= MAX_PAYLOAD && Run(max, actions + [ServicePass(pass)]).Ok?
    ensures Run(max, actions).Ok? && Inv(Run(max, actions).value) && Shaped(Run(max, actions).value)
    ensures Serve(Run(max, actions).value, pass).Ok?
    ensures Run(max, actions + [ServicePass(pass)]).value == Serve(Run(max, actions).value, pass).value.0
  {
    hide Serve, Inv, Shaped;
    assert (actions + [ServicePass(pass)])[..|actions|] == actions;
    RunPush(max, actions, ServicePass(pass));
  }

  lemma ClosingTurn(max: nat, id: uint32, s: StreamState, pass: Pass)
    requires s.Valid() && s.closing.Some? && Flush(s).ok && Flush(s).stream.pending != [] && 0 < max
    ensures InBounds(s)
    ensures TakeTurn(id, s, pass, max).closed.Some? <==>
            Elapsed(pass.closeClock(id), s.closing.value) > 1000
  {
    FlushConserves(s);
  }

  // ---------------------------------------------------------------------------------------------
  // A second that is counted again

  /** The connection of `CloseMayBeRenewed`: one stream to a service that takes nothing, with one packet queued, after
      the CLSEs at these times. */
  function Stuck(closes: seq<nat>): Conn
  {
    var s := NewStream(7, Socket([], []), None)
             .(pending := [[9]], closing := if closes == [] then None else Some(closes[|closes| - 1]));
    Conn(4096, map[1 := s], 2, [], [Sent(Packet(OKAY, 1, 7, []))], StuckLog(closes), 2 + |closes|)
  }

  function StuckLog(closes: seq<nat>): seq<Event>
  {
    [Named(1, Packet(OPEN, 7, 0, [1, 0])), Accepted(1, [9])] + Shuts(closes)
  }

  function Shuts(closes: seq<nat>): (r: seq<Event>)
    ensures |r| == |closes| && forall i | 0 <= i < |closes| :: r[i] == Shutting(1, closes[i])
  {
    seq(|closes|, i requires 0 <= i < |closes| => Shutting(1, closes[i]))
  }

  lemma StuckCloses(world: nat -> Env, closes: seq<nat>, at: nat)
    requires forall k: nat :: world(k).now == at
    ensures var c := Stuck(closes);
            Handle(c.(handled := c.handled + 1), Packet(CLSE, 7, 1, []), world(c.handled)) == Ok(Stuck(closes + [at]))
  {
    var c, d := Stuck(closes), Stuck(closes + [at]);
    var s := c.streams[1];
    assert map[1 := s][1 := s.(closing := Some(at))] == d.streams;
    assert StuckLog(closes) + [Shutting(1, at)] == StuckLog(closes + [at]);
  }

  lemma StuckWrites(world: nat -> Env)
    ensures var c := Opened();
            Handle(c.(handled := c.handled + 1), Packet(WRTE, 7, 1, [9]), world(c.handled)) == Ok(Stuck([]))
  {
    var c := Opened();
    var s := c.streams[1];
    assert Queued(c.streams, 2) == 0 by {
      assert Queued(c.streams, 1) == Queued(c.streams, 0) + Weight(c.streams, 0);
      assert Queued(c.streams, 2) == Queued(c.streams, 1) + Weight(c.streams, 1);
    }
    assert s.pending + [[9]] == [[9]];
    assert Stuck([]).streams[1] == s.(pending := s.pending + [[9]]);
    assert Enqueue(s, [9]) == Some(Stuck([]).streams[1]);
    assert map[1 := s][1 := Stuck([]).streams[1]] == Stuck([]).streams;
    assert c.log + [Accepted(1, [9])] == Stuck([]).log;
  }

  lemma StuckLingers()
    ensures Lingers(Stuck([0, 1000]), 1) && Books(Stuck([0, 1000]).log, 1).closes == [0, 1000]
  {
    var log := Stuck([0, 1000]).log;
    var named := Named(1, Packet(OPEN, 7, 0, [1, 0]));
    assert log == [named, Accepted(1, [9]), Shutting(1, 0), Shutting(1, 1000)];
    assert log[..3] == [named, Accepted(1, [9]), Shutting(1, 0)];
    assert log[..3][..2] == [named, Accepted(1, [9])];
    assert log[..3][..2][..1] == [named];
    assert log[..3][..2][..1][..0] == [];
    assert Books(log[..3][..2][..1], 1).closes == [];
    assert Books(log[..3][..2], 1).closes == [];
    assert Books(log[..3], 1).closes == [0];
  }

  /** A run in which a stream is still in the table two seconds after its first CLSE: the peer opens it, writes to
      it, closes it at time 0 and closes it again a second later, while its service takes nothing. */
  lemma CloseMayBeRenewed() returns (actions: seq<Action>, pass: Pass)
    ensures Run(4096, actions).Ok? && Run(4096, actions + [ServicePass(pass)]).Ok?
    ensures Books(Run(4096, actions).value.log, 1).closes == [0, 1000] && pass.closeClock(1) == 2000
    ensures 1 in Run(4096, actions + [ServicePass(pass)]).value.streams
  {
    hide *;
    actions := StuckRun();
    pass := Pass(_ => 2000, _ => 2000, true, true);
    StuckLingers();
    StillThere(actions, Stuck([0, 1000]), pass);
  }

  lemma StillThere(actions: seq<Action>, c: Conn, pass: Pass)
    requires Run(4096, actions) == Ok(c) && Lingers(c, 1) && Books(c.log, 1).closes == [0, 1000]
    requires pass.closeClock(1) == 2000 && pass.tlsOk
    ensures Run(4096, actions + [ServicePass(pass)]).Ok?
    ensures 1 in Run(4096, actions + [ServicePass(pass)]).value.streams
  {
    hide Run, Books, Lingers, Serve, Shaped;
    RunPush(4096, actions, ServicePass(pass));
    ServeWorks(c, pass);
    ClosingIsTimedFromLastClose(4096, actions, pass, 1);
  }

  /** The run up to the queued packet. */
  lemma QueuedRun() returns (actions: seq<Action>)
    ensures Run(4096, actions) == Ok(Stuck([]))
  {
    hide Handle, Opened, Stuck, Run, Write, Receive;
    var world := (k: nat) => Env(Some(Socket([], [])), 0, true);
    var open, write := Packet(OPEN, 7, 0, [1, 0]), Packet(WRTE, 7, 1, [9]);
    CollisionSteps(world);
    StuckWrites(world);
    StuckShape([]);
    assert Run(4096, []) == Ok(Start(4096)) by { EmptyRun(4096); }
    OnePacket(Start(4096), open, world, Opened());
    actions := Reading([], Start(4096), open, world, Opened());
    OnePacket(Opened(), write, world, Stuck([]));
    actions := Reading(actions, Opened(), write, world, Stuck([]));
  }

  /** One more CLSE. */
  lemma ClosedRun(actions: seq<Action>, closes: seq<nat>, at: nat, all: seq<nat>) returns (more: seq<Action>)
    requires Run(4096, actions) == Ok(Stuck(closes)) && all == closes + [at]
    ensures Run(4096, more) == Ok(Stuck(all))
  {
    var world := (k: nat) => Env(Some(Socket([], [])), at, true);
    var close := Packet(CLSE, 7, 1, []);
    StuckCloses(world, closes, at);
    StuckShape(closes);
    hide Handle, Stuck, Run, Write, Receive;
    OnePacket(Stuck(closes), close, world, Stuck(closes + [at]));
    more := Reading(actions, Stuck(closes), close, world, Stuck(closes + [at]));
  }

  lemma StuckRun() returns (actions: seq<Action>)
    ensures Run(4096, actions) == Ok(Stuck([0, 1000]))
  {
    hide *;
    actions := QueuedRun();
    actions := ClosedRun(actions, [], 0, [0]);
    actions := ClosedRun(actions, [0], 1000, [0, 1000]);
  }

  lemma StuckShape(closes: seq<nat>)
    ensures Stuck(closes).input == [] && Stuck(closes).max == 4096
    ensures Opened().input == [] && Opened().max == 4096
  {
  }

  lemma ServeWorks(c: Conn, pass: Pass)
    requires Shaped(c) && pass.tlsOk
    ensures Serve(c, pass).Ok?
  {
    hide Scan, CloseAll, Ids, Shaped;
  }
}
