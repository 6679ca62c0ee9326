/** What a connection says to its peer, and to whom: every packet names the stream by the ID the peer gave it, every
    packet of the peer is accepted and answered under exact conditions, and so is every turn of a service. */
module Dialogue {
  import opened Wrappers
  import opened Bytes
  import opened Protocol
  import opened Streams
  import opened Mux
  import opened MuxInvariant
  import opened MuxTheorems
  import opened Closing

  // ---------------------------------------------------------------------------------------------
  // Addresses

  /** A packet of the stream with this local ID other than our OPEN. */
  predicate Speaks(o: Output, id: uint32)
  {
    Uses(o, id) && !(o.Sent? && o.packet.command == OPEN)
  }

  lemma {:induction false} AddressIsNoted(out: seq<Output>, id: uint32, i: nat)
    requires i < |out|
    ensures Speaks(out[i], id) ==> out[i].packet.arg1 in Tab(out, id).addressed
    ensures Uses(out[i], id) && !Speaks(out[i], id) ==> out[i].packet.arg1 in Tab(out, id).dialed
  {
    if i + 1 < |out| {
      AddressIsNoted(out[..|out| - 1], id, i);
    }
  }

  /** The peer told its ID for the stream in this packet: its OPEN, or its OKAY to our OPEN of that stream. */
  ghost predicate Tells(e: Event, id: uint32, remote: uint32)
  {
    e.Named? && e.id == id && e.told.arg0 == remote
  }

  lemma {:induction false} NamesAreTold(log: seq<Event>, id: uint32)
    ensures forall n | n in Books(log, id).names :: exists k | 0 <= k < |log| :: Tells(log[k], id, n)
    ensures forall k | 0 <= k < |log| && log[k].Named? && log[k].id == id :: log[k].told.arg0 in Books(log, id).names
  {
    if log != [] {
      var init := log[..|log| - 1];
      NamesAreTold(init, id);
      forall n | n in Books(log, id).names ensures exists k | 0 <= k < |log| :: Tells(log[k], id, n) {
        if n in Books(init, id).names {
          var k :| 0 <= k < |init| && Tells(init[k], id, n);
          assert Tells(log[k], id, n);
        } else {
          assert Tells(log[|log| - 1], id, n);
        }
      }
    }
  }

  /** In every run, every packet of a stream carries the ID the peer told for that stream; our OPEN carries none. The
      peer tells it once. Only the CLSE of a stream it never told one for carries none, and nothing else was said
      about such a stream. */
  lemma PacketsReachThePeersStream(max: nat, actions: seq<Action>, id: uint32, i: nat)
    requires 4096 <= max <= MAX_PAYLOAD && Run(max, actions).Ok?
    requires i < |Run(max, actions).value.out| && Uses(Run(max, actions).value.out[i], id)
    ensures var c := Run(max, actions).value; var o := c.out[i]; var names := Books(c.log, id).names;
            && |names| <= 1
            && (!Speaks(o, id) ==> o.packet.arg1 == 0)
            && (Speaks(o, id) && names != [] ==>
                  && o.packet.arg1 == names[0]
                  && exists k | 0 <= k < |c.log| :: Tells(c.log[k], id, o.packet.arg1))
            && (Speaks(o, id) && names == [] ==> o.Final? && o.packet.arg1 == 0 && |Tab(c.out, id).addressed| == 1)
  {
    hide Run, Books, Tab, Ordered, DistinctPeers, Bounds;
    var c := Run(max, actions).value;
    var o := c.out[i];
    AddressIsNoted(c.out, id, i);
    NamesAreTold(c.log, id);
    AccountAddresses(c, id, i);
    if Speaks(o, id) {
      if Books(c.log, id).names == [] {
        NothingSaid(c, id, i);
      } else {
        assert Books(c.log, id).names[0] in Books(c.log, id).names;
      }
    }
  }

  lemma AccountAddresses(c: Conn, id: uint32, i: nat)
    requires Inv(c) && i < |c.out| && Uses(c.out[i], id)
    ensures WellAddressed(Books(c.log, id), Tab(c.out, id))
    ensures 1 <= id < c.next
  {
    hide Books, Tab, Ordered, DistinctPeers, Bounds, WellAddressed;
    AddressIsNoted(c.out, id, i);
    if id in c.streams {
      LiveAccount(c, id);
    }
  }

  lemma {:induction false} FinalsAreFinal(out: seq<Output>, id: uint32)
    requires |Tab(out, id).addressed| == Tab(out, id).finals
    ensures forall i | 0 <= i < |out| && Speaks(out[i], id) :: out[i].Final?
    ensures Tab(out, id).wrtes + Tab(out, id).okays + Tab(out, id).drains == 0
  {
    if out != [] {
      AddressedCount(out[..|out| - 1], id);
      FinalsAreFinal(out[..|out| - 1], id);
    }
  }

  lemma {:induction false} AddressedCount(out: seq<Output>, id: uint32)
    ensures var w := Tab(out, id); |w.addressed| == w.wrtes + w.okays + w.drains + w.finals
  {
    if out != [] {
      AddressedCount(out[..|out| - 1], id);
    }
  }

  lemma NothingSaid(c: Conn, id: uint32, i: nat)
    requires Inv(c) && i < |c.out| && Speaks(c.out[i], id) && Books(c.log, id).names == []
    ensures c.out[i].Final? && c.out[i].packet.arg1 == 0 && |Tab(c.out, id).addressed| == 1
  {
    hide Books, Tab, Ordered, DistinctPeers, Bounds;
    AccountAddresses(c, id, i);
    AddressIsNoted(c.out, id, i);
    FinalsAreFinal(c.out, id);
    if id in c.streams {
      LiveAccount(c, id);
    }
  }

  // ---------------------------------------------------------------------------------------------
  // Packets of the peer

  /** When a packet is accepted. About a stream in the table only that stream's peer may speak: it acknowledges what
      was sent and not yet acknowledged, writes while the stream is open to it and within the budget, and may close
      it at any time. Packets about streams that are not there are harmless. */
  lemma PacketAcceptedExactlyWhen(c: Conn, p: Packet, e: Env)
    requires Inv(c)
    ensures p.command == OPEN ==>
              (Handle(c, p, e).Ok? <==>
                 && p.arg0 != 0 && p.arg1 == 0 && e.tlsOk
                 && (forall id | id in c.streams :: c.streams[id].remote != p.arg0)
                 && !(c.next == U32_MAX && Opens(c, p, e)))
    ensures p.command == OKAY ==>
              (Handle(c, p, e).Ok? <==>
                 p.arg1 in c.streams ==>
                   && p.data == [] && p.arg0 != 0
                   && var s := c.streams[p.arg1]; (s.opening.Some? || (s.waiting && p.arg0 == s.remote)))
    ensures p.command == WRTE ==>
              (Handle(c, p, e).Ok? <==>
                 && Queued(c.streams, c.next) + |p.data| <= 8 * 1024 * 1024
                 && if p.arg1 in c.streams then
                      var s := c.streams[p.arg1];
                      && p.arg0 == s.remote && s.opening.None? && s.closing.None?
                      && if p.data == [] then e.tlsOk else |s.pending| < 64
                    else e.tlsOk)
    ensures p.command == CLSE ==>
              (Handle(c, p, e).Ok? <==> p.arg1 in c.streams ==> p.arg0 == c.streams[p.arg1].remote)
    ensures p.command != OPEN && p.command != OKAY && p.command != WRTE && p.command != CLSE ==> Handle(c, p, e).Err?
  {
    hide Queued, ServiceName, Opens, Books, Tab, Ordered, DistinctPeers, Bounds, Accounts;
    OpensForm(c, p, e);
    if p.arg1 in c.streams {
      LiveAccount(c, p.arg1);
    }
  }

  /** What an accepted packet is answered with: nothing, or one packet without data addressed to its sender's ID. An
      OPEN opens a stream under the next ID exactly when there is room, the name is well formed and there is a service
      for it, and is refused with a CLSE from no stream otherwise. A WRTE to a stream that is not there is refused from
      the ID it was sent to, an empty one is acknowledged; nothing else is answered at once. */
  lemma PacketIsAnswered(c: Conn, p: Packet, e: Env)
    requires Inv(c) && Handle(c, p, e).Ok?
    ensures var d := Handle(c, p, e).value;
            && d.out == c.out + Answer(c, p, e)
            && d.log == c.log + News(c, p, e)
            && d.streams.Keys == c.streams.Keys + (if p.command == OPEN && Opens(c, p, e) then {c.next} else {})
            && (forall id | id in c.streams && id != p.arg1 :: d.streams[id] == c.streams[id])
  {
    hide Enqueue, Min, NewStream, Note, PeerName, Post, SameInput, StreamState.Undelivered, StreamState.Valid, Uses,
      Weight, WellAddressed, Concat;
    hide Queued, ServiceName, Opens, Books, Tab, Ordered, DistinctPeers, Bounds, Accounts, InUse;
    UnusedNext(c);
    OpensForm(c, p, e);
    if p.arg1 in c.streams {
      LiveAccount(c, p.arg1);
    }
    assert c.out + [] == c.out && c.log + [] == c.log && c.streams.Keys + {} == c.streams.Keys;
    hide LiveOk, Inv;
    if p.command == OPEN {
      hide HandleOkay, HandleWrte, HandleClse, Enqueue;
    } else if p.command == OKAY {
      hide HandleOpen, HandleWrte, HandleClse, Enqueue;
    } else if p.command == WRTE {
      hide HandleOkay, HandleOpen, HandleClse;
    } else {
      hide HandleOkay, HandleOpen, HandleWrte, Enqueue;
    }
  }

  /** This OPEN opens a stream. */
  predicate Opens(c: Conn, p: Packet, e: Env)
  {
    && |c.streams| < 64 && e.service.Some?
    && 0 < |p.data| <= 4096 && forall k | 0 <= k < |p.data| :: p.data[k] == 0 <==> k == |p.data| - 1
  }

  lemma OpensForm(c: Conn, p: Packet, e: Env)
    ensures Opens(c, p, e) <==> |c.streams| < 64 && ServiceName(p.data) && e.service.Some?
  {
    if p.data != [] {
      var init := p.data[..|p.data| - 1];
      assert forall k | 0 <= k < |init| :: init[k] == p.data[k];
    }
  }

  /** What goes out when a packet was accepted. */
  function Answer(c: Conn, p: Packet, e: Env): seq<Output>
  {
    if p.command == OPEN then
      [Sent(if Opens(c, p, e) then Packet(OKAY, c.next, p.arg0, []) else Packet(CLSE, 0, p.arg0, []))]
    else if p.command == WRTE && p.arg1 !in c.streams then [Sent(Packet(CLSE, p.arg1, p.arg0, []))]
    else if p.command == WRTE && p.data == [] then [Sent(Packet(OKAY, p.arg1, p.arg0, []))]
    else []
  }

  /** What an accepted packet adds to the history. */
  function News(c: Conn, p: Packet, e: Env): seq<Event>
  {
    if p.command == OPEN then if Opens(c, p, e) then [Named(c.next, p)] else []
    else if p.arg1 !in c.streams then []
    else if p.command == WRTE then [Accepted(p.arg1, p.data)]
    else if p.command == CLSE then [Shutting(p.arg1, e.now)]
    else if c.streams[p.arg1].opening.Some? then [Named(p.arg1, p)]
    else [Acked(p.arg1)]
  }

  /** The reverse sockets that fit the table, in order, become streams under the next IDs, each announced by an OPEN
      with its listener's target; the rest is dropped. */
  lemma {:induction false} SocketsAreAnnounced(c: Conn, incoming: seq<Incoming>, now: nat, tlsOk: bool)
    requires Inv(c) && AcceptAll(c, incoming, now, tlsOk).Ok?
    ensures var d := AcceptAll(c, incoming, now, tlsOk).value;
            var n := Min(|incoming|, 64 - |c.streams|);
            && d.next == c.next + n && |d.out| == |c.out| + n && c.out <= d.out && d.log == c.log
            && (forall k | 0 <= k < n :: Announced(c, d, incoming[k], k, now))
            && (forall id | id in c.streams :: id in d.streams && d.streams[id] == c.streams[id])
            && (forall id | id in d.streams && id !in c.streams :: c.next <= id < c.next + n)
    decreases |incoming|
  {
    hide Inv, Announced, NewStream;
    if incoming != [] && |c.streams| < MAX_STREAMS {
      var i := incoming[0];
      OneAnnounced(c, incoming, now, tlsOk);
      var b := AcceptOne(c, i, now, tlsOk).value;
      SocketsAreAnnounced(b, incoming[1..], now, tlsOk);
      var d := AcceptAll(c, incoming, now, tlsOk).value;
      var n := Min(|incoming|, 64 - |c.streams|);
      forall k | 0 <= k < n ensures Announced(c, d, incoming[k], k, now) {
        if k > 0 {
          assert incoming[1..][k - 1] == incoming[k];
          AnnouncedLater(c, b, d, incoming[k], k, now);
        } else {
          FirstAnnounced(c, b, d, i, now);
        }
      }
    } else {
      UnusedNext(c);
    }
  }

  lemma UnusedNext(c: Conn)
    requires Inv(c)
    ensures 1 <= c.next && c.next !in c.streams && |c.streams| <= MAX_STREAMS
  {
    UnusedId(c);
  }

  lemma OneAnnounced(c: Conn, incoming: seq<Incoming>, now: nat, tlsOk: bool)
    requires Inv(c) && incoming != [] && |c.streams| < MAX_STREAMS && AcceptAll(c, incoming, now, tlsOk).Ok?
    ensures c.next < U32_MAX && c.next !in c.streams && AcceptOne(c, incoming[0], now, tlsOk).Ok?
    ensures var b := AcceptOne(c, incoming[0], now, tlsOk).value;
            && Inv(b) && AcceptAll(c, incoming, now, tlsOk) == AcceptAll(b, incoming[1..], now, tlsOk)
            && b.next == c.next + 1 && |b.streams| == |c.streams| + 1 && b.log == c.log
            && b.streams == c.streams[c.next := StreamState(0, incoming[0].source, [], 0, false, Some(now), None)]
            && b.out == c.out + [Sent(Packet(OPEN, c.next, 0, incoming[0].target + [0]))]
  {
    hide Inv;
    var i := incoming[0];
    UnusedNext(c);
    assert c.log + [] == c.log;
    NewStreamKeeps(c, NewStream(0, i.source, Some(now)), [], Sent(Packet(OPEN, c.next, 0, i.target + [0])));
  }

  lemma FirstAnnounced(c: Conn, b: Conn, d: Conn, i: Incoming, now: nat)
    requires c.next < U32_MAX && c.next !in c.streams
    requires b.streams == c.streams[c.next := StreamState(0, i.source, [], 0, false, Some(now), None)]
    requires b.out == c.out + [Sent(Packet(OPEN, c.next, 0, i.target + [0]))] && b.out <= d.out
    requires forall id | id in b.streams :: id in d.streams && d.streams[id] == b.streams[id]
    ensures Announced(c, d, i, 0, now)
  {
    assert c.next in b.streams;
    assert b.out[|c.out|] == d.out[|c.out|];
  }

  lemma AnnouncedLater(c: Conn, b: Conn, d: Conn, i: Incoming, k: nat, now: nat)
    requires 0 < k && b.next == c.next + 1 && |b.out| == |c.out| + 1 && c.streams.Keys <= b.streams.Keys
    requires Announced(b, d, i, k - 1, now)
    ensures Announced(c, d, i, k, now)
  {
  }

  /** The `k`-th socket's stream and OPEN. */
  ghost predicate Announced(c: Conn, d: Conn, i: Incoming, k: nat, now: nat)
  {
    && c.next + k < U32_MAX && c.next + k !in c.streams && c.next + k in d.streams && |c.out| + k < |d.out|
    && d.streams[c.next + k] == StreamState(0, i.source, [], 0, false, Some(now), None)
    && d.out[|c.out| + k] == Sent(Packet(OPEN, c.next + k, 0, i.target + [0]))
  }

  // ---------------------------------------------------------------------------------------------
  // The service pass

  /** The opening deadline of this stream has passed. */
  predicate Late(id: uint32, s: StreamState, pass: Pass)
  {
    s.opening.Some? && Elapsed(pass.openClock(id), s.opening.value) > 10_000
  }

  /** The service of this stream is read in this pass: its queue could be written, it is open to both sides, nothing
      is unacknowledged and the connection is not congested. */
  predicate Reads(id: uint32, s: StreamState, pass: Pass)
    requires InBounds(s)
  {
    !Late(id, s, pass) && Flush(s).ok && s.opening.None? && s.closing.None? && !s.waiting && pass.gate
  }

  /** What its service gives when it is read. */
  function Gift(s: StreamState, max: nat): ReadOutcome
    requires InBounds(s) && 0 < max
  {
    ReadFrom(Flush(s).stream.source, Min(max, 65536)).1
  }

  predicate Given(id: uint32, s: StreamState, pass: Pass, max: nat)
    requires InBounds(s) && 0 < max
  {
    Reads(id, s, pass) && Gift(s, max).Gave? && Gift(s, max).data != []
  }

  /** Why a turn asks for removal, each reason exactly when it is true. */
  lemma TurnEndsExactlyWhen(id: uint32, s: StreamState, pass: Pass, max: nat)
    requires s.Valid() && 0 < max
    ensures InBounds(s)
    ensures var t := TakeTurn(id, s, pass, max); var f := Flush(s);
            && (t.closed == Some(OpenTimeout) <==> Late(id, s, pass))
            && (t.closed == Some(WriteError) <==> !Late(id, s, pass) && !f.ok)
            && (t.closed.Some? && t.closed.value.Shut? <==>
                  && !Late(id, s, pass) && f.ok && s.closing.Some?
                  && (f.stream.pending == [] || Elapsed(pass.closeClock(id), s.closing.value) > 1000))
            && (t.closed.Some? && t.closed.value.Shut? ==>
                  t.closed.value.elapsed == Elapsed(pass.closeClock(id), s.closing.value))
            && (t.closed == Some(Eof) <==> Reads(id, s, pass) && Gift(s, max) == Gave([]))
            && (t.closed == Some(ReadError) <==> Reads(id, s, pass) && Gift(s, max) == ReadFailed)
  {
    ValidShape(s);
    hide Flush, ReadFrom, StreamState.Valid, StreamState.Undelivered, TakeTurn;
    TurnSteps(id, s, pass, max);
    if !Late(id, s, pass) && Flush(s).ok {
      RestEnds(id, s, pass, max);
    }
  }

  lemma RestEnds(id: uint32, s: StreamState, pass: Pass, max: nat)
    requires InBounds(s) && InBounds(Flush(s).stream) && SameRole(s, Flush(s).stream) && 0 < max
    requires !Late(id, s, pass) && Flush(s).ok
    ensures var f := Flush(s); var closed := AfterFlush(id, s.pending != [], f, pass, max).closed;
            var used := if s.closing.Some? then Elapsed(pass.closeClock(id), s.closing.value) else 0;
            closed == if s.closing.Some? then
                        if f.stream.pending == [] || used > 1000 then Some(Shut(used)) else None
                      else if Reads(id, s, pass) && Gift(s, max) == Gave([]) then Some(Eof)
                      else if Reads(id, s, pass) && Gift(s, max) == ReadFailed then Some(ReadError)
                      else None
  {
    hide Flush, ReadFrom, Late, Elapsed;
  }

  lemma ValidShape(s: StreamState)
    requires s.Valid()
    ensures InBounds(s) && InBounds(Flush(s).stream) && SameRole(s, Flush(s).stream)
  {
    FlushConserves(s);
  }

  /** The turn empties the queue, and the peer has not closed the stream. */
  predicate Drains(id: uint32, s: StreamState, pass: Pass)
    requires InBounds(s)
  {
    !Late(id, s, pass) && Flush(s).ok && s.pending != [] && Flush(s).stream.pending == [] && s.closing.None?
  }

  /** What a turn adds to the history. */
  function TurnNews(id: uint32, s: StreamState, pass: Pass, max: nat): seq<Event>
    requires InBounds(s) && 0 < max
  {
    if Late(id, s, pass) then []
    else if Given(id, s, pass, max) then [Delivered(id, Flush(s).delivered), Fetched(id, Gift(s, max).data)]
    else [Delivered(id, Flush(s).delivered)]
  }

  /** What a turn sends. */
  function TurnOutput(id: uint32, s: StreamState, pass: Pass, max: nat): seq<Output>
    requires InBounds(s) && 0 < max
  {
    (if Drains(id, s, pass) then [Drained(Packet(OKAY, id, s.remote, []))] else [])
    + if Given(id, s, pass, max) then [Sent(Packet(WRTE, id, s.remote, Gift(s, max).data))] else []
  }

  /** What a turn does otherwise: it takes what the service accepts, acknowledges a queue exactly when it has just been
      emptied and the peer has not closed, sends on exactly what the service gives, and reports work exactly when
      something moved. */
  lemma TurnSaysExactly(id: uint32, s: StreamState, pass: Pass, max: nat)
    requires s.Valid() && 0 < max
    ensures InBounds(s)
    ensures var t := TakeTurn(id, s, pass, max); var f := Flush(s);
            && t.stream.remote == s.remote && t.stream.opening == s.opening && t.stream.closing == s.closing
            && t.stream.pending == (if Late(id, s, pass) then s.pending else f.stream.pending)
            && t.stream.waiting == (s.waiting || Given(id, s, pass, max))
            && t.events == TurnNews(id, s, pass, max) && t.output == TurnOutput(id, s, pass, max)
            && (t.work <==> Given(id, s, pass, max) || (!Late(id, s, pass) && f.ok && f.delivered != []))
  {
    ValidShape(s);
    ProgressIsDelivery(s);
    hide Flush, ReadFrom, StreamState.Valid, StreamState.Undelivered, TakeTurn;
    TurnSteps(id, s, pass, max);
    if !Late(id, s, pass) && Flush(s).ok {
      RestSays(id, s, pass, max);
    }
  }

  lemma TurnSteps(id: uint32, s: StreamState, pass: Pass, max: nat)
    requires InBounds(s) && InBounds(Flush(s).stream) && 0 < max
    ensures var f := Flush(s);
            TakeTurn(id, s, pass, max) ==
            if Late(id, s, pass) then Turn(s, [], [], Some(OpenTimeout), false)
            else if !f.ok then Turn(f.stream, [Delivered(id, f.delivered)], [], Some(WriteError), false)
            else AfterFlush(id, s.pending != [], f, pass, max)
  {
    hide Flush, AfterFlush;
  }

  lemma RestSays(id: uint32, s: StreamState, pass: Pass, max: nat)
    requires InBounds(s) && InBounds(Flush(s).stream) && SameRole(s, Flush(s).stream) && 0 < max
    requires !Late(id, s, pass) && Flush(s).ok
    ensures var f := Flush(s); var t := AfterFlush(id, s.pending != [], f, pass, max);
            && t.stream.remote == s.remote && t.stream.opening == s.opening && t.stream.closing == s.closing
            && t.stream.pending == f.stream.pending && t.stream.waiting == (s.waiting || Given(id, s, pass, max))
            && t.events == TurnNews(id, s, pass, max) && t.output == TurnOutput(id, s, pass, max)
            && (t.work <==> Given(id, s, pass, max) || f.progress)
  {
    hide Advance, Elapsed, Min, Script, WriteTo, Moves, Send;
    hide Flush, ReadFrom, Late;
    var none: seq<Output> := [];
    var drained := [Drained(Packet(OKAY, id, s.remote, []))];
    assert drained + none == drained && none + none == none;
    var e := [Delivered(id, Flush(s).delivered)];
    if Given(id, s, pass, max) {
      assert e + [Fetched(id, Gift(s, max).data)] == TurnNews(id, s, pass, max);
    }
  }

  lemma ProgressIsDelivery(s: StreamState)
    requires s.Valid()
    ensures InBounds(s) && (Flush(s).progress <==> Flush(s).delivered != [])
  {
    FlushConserves(s);
  }

  lemma TurnIsOwn(id: uint32, s: StreamState, pass: Pass, max: nat)
    requires InBounds(s) && 0 < max
    ensures var t := TakeTurn(id, s, pass, max);
            && (forall i | 0 <= i < |t.events| :: t.events[i].id == id)
            && (forall i | 0 <= i < |t.output| :: t.output[i].packet.arg0 == id)
  {
    hide Advance, Script, WriteTo, Moves;
    FlushInBounds(s);
    hide Flush, ReadFrom;
  }

  /** The account of `id` after more of what concerns `other` only. */
  lemma OthersPass(log: seq<Event>, out: seq<Output>, es: seq<Event>, os: seq<Output>, other: uint32, id: uint32)
    requires other != id
    requires forall i | 0 <= i < |es| :: es[i].id == other
    requires forall i | 0 <= i < |os| :: os[i].packet.arg0 == other
    ensures Books(log + es, id) == Books(log, id) && Tab(out + os, id) == Tab(out, id)
  {
    hide Books, Tab, PostAll, NoteAll;
    BooksConcat(log, es, id);
    TabConcat(out, os, id);
    OtherAccounts(Books(log, id), Tab(out, id), es, os, id);
  }

  lemma {:induction false} ScanLeavesAccount(c: Conn, order: seq<uint32>, pass: Pass, id: uint32)
    requires Shaped(c) && forall i | 0 <= i < |order| :: order[i] in c.streams && order[i] != id
    ensures var r := Scan(c, order, pass);
            Books(r.conn.log, id) == Books(c.log, id) && Tab(r.conn.out, id) == Tab(c.out, id)
  {
    hide TakeTurn, Books, Tab;
    if order != [] {
      var init, last := order[..|order| - 1], order[|order| - 1];
      ScanLeavesAccount(c, init, pass, id);
      var r := Scan(c, init, pass).conn;
      TurnIsOwn(last, r.streams[last], pass, r.max);
      var t := TakeTurn(last, r.streams[last], pass, r.max);
      OthersPass(r.log, r.out, t.events, t.output, last, id);
    }
  }

  /** What a scan has done with one stream: exactly its own turn. */
  ghost predicate Turned(c: Conn, r: Scanned, id: uint32, t: Turn)
  {
    && id in r.conn.streams && r.conn.streams[id] == t.stream
    && Books(r.conn.log, id) == PostAll(Books(c.log, id), t.events, id)
    && Tab(r.conn.out, id) == NoteAll(Tab(c.out, id), t.output, id)
    && (InClosed(r.closed, id) <==> t.closed.Some?)
    && (forall k | 0 <= k < |r.closed| && r.closed[k].0 == id :: t.closed == Some(r.closed[k].1))
  }

  lemma {:induction false} ScanTakesTurn(c: Conn, order: seq<uint32>, pass: Pass, id: uint32)
    requires Shaped(c) && id in c.streams && id in order
    requires forall i | 0 <= i < |order| :: order[i] in c.streams
    requires forall i, j | 0 <= i < j < |order| :: order[i] < order[j]
    ensures InBounds(c.streams[id]) && 0 < c.max && Scan(c, order, pass).conn.max == c.max
    ensures Turned(c, Scan(c, order, pass), id, TakeTurn(id, c.streams[id], pass, c.max))
  {
    hide TakeTurn, Books, Tab, PostAll, NoteAll, Turned, InClosed;
    var init, last := order[..|order| - 1], order[|order| - 1];
    var r := Scan(c, init, pass);
    if last == id {
      ScanPassesBy(c, init, pass, id);
      ScanLeavesAccount(c, init, pass, id);
      OwnTurn(c, r, id, pass);
    } else {
      assert id in init;
      ScanTakesTurn(c, init, pass, id);
      OtherTurn(c, r, last, id, pass, TakeTurn(id, c.streams[id], pass, c.max));
    }
  }

  lemma OwnTurn(c: Conn, r: Scanned, id: uint32, pass: Pass)
    requires Shaped(c) && Shaped(r.conn) && id in c.streams && id in r.conn.streams
    requires r.conn.max == c.max && r.conn.streams[id] == c.streams[id] && !InClosed(r.closed, id)
    requires Books(r.conn.log, id) == Books(c.log, id) && Tab(r.conn.out, id) == Tab(c.out, id)
    ensures Turned(c, ScanOne(r, id, pass), id, TakeTurn(id, c.streams[id], pass, c.max))
  {
    hide TakeTurn, Books, Tab, PostAll, NoteAll;
    var t := TakeTurn(id, c.streams[id], pass, c.max);
    BooksConcat(r.conn.log, t.events, id);
    TabConcat(r.conn.out, t.output, id);
    if t.closed.Some? {
      InClosedPush(r.closed, (id, t.closed.value), id);
    }
  }

  lemma OtherTurn(c: Conn, r: Scanned, other: uint32, id: uint32, pass: Pass, t: Turn)
    requires Shaped(r.conn) && other in r.conn.streams && other != id && Turned(c, r, id, t)
    ensures Turned(c, ScanOne(r, other, pass), id, t)
  {
    hide TakeTurn, Books, Tab, PostAll, NoteAll, InClosed;
    TurnIsOwn(other, r.conn.streams[other], pass, r.conn.max);
    var u := TakeTurn(other, r.conn.streams[other], pass, r.conn.max);
    OthersPass(r.conn.log, r.conn.out, u.events, u.output, other, id);
    if u.closed.Some? {
      InClosedPush(r.closed, (other, u.closed.value), id);
    }
  }

  /** One removal concerns no other stream. */
  lemma RemovalPasses(c: Conn, other: uint32, why: Reason, id: uint32)
    requires other != id
    ensures var d := CloseOne(c, other, why);
            && Books(d.log, id) == Books(c.log, id) && Tab(d.out, id) == Tab(c.out, id)
            && (id in d.streams <==> id in c.streams) && (id in c.streams ==> d.streams[id] == c.streams[id])
  {
    hide Books, Tab;
    if other in c.streams {
      OthersPass(c.log, c.out, [Removed(other, why)], [Final(Packet(CLSE, other, c.streams[other].remote, []))], other,
                 id);
    }
  }

  lemma {:induction false} RemovalsPass(c: Conn, closed: seq<(uint32, Reason)>, id: uint32)
    requires forall k | 0 <= k < |closed| :: closed[k].0 != id
    ensures var d := CloseAll(c, closed);
            && Books(d.log, id) == Books(c.log, id) && Tab(d.out, id) == Tab(c.out, id)
            && (id in d.streams <==> id in c.streams) && (id in c.streams ==> d.streams[id] == c.streams[id])
  {
    hide Books, Tab, CloseOne;
    if closed != [] {
      var init, last := closed[..|closed| - 1], closed[|closed| - 1];
      RemovalsPass(c, init, id);
      RemovalPasses(CloseAll(c, init), last.0, last.1, id);
    }
  }

  /** A stream noted for removal is removed once, for the reason noted, with one CLSE to its peer's ID. */
  lemma {:induction false} RemovalHappens(c: Conn, closed: seq<(uint32, Reason)>, k: nat, id: uint32)
    requires k < |closed| && closed[k].0 == id && id in c.streams
    requires forall i, j | 0 <= i < j < |closed| :: closed[i].0 != closed[j].0
    ensures var d := CloseAll(c, closed);
            && id !in d.streams
            && Books(d.log, id) == Post(Books(c.log, id), Removed(id, closed[k].1), id)
            && Tab(d.out, id) == Note(Tab(c.out, id), Final(Packet(CLSE, id, c.streams[id].remote, [])), id)
  {
    hide Books, Tab, Post, Note;
    var init, last := closed[..|closed| - 1], closed[|closed| - 1];
    if k == |closed| - 1 {
      RemovalsPass(c, init, id);
      var b := CloseAll(c, init);
      var es, os := [Removed(id, last.1)], [Final(Packet(CLSE, id, c.streams[id].remote, []))];
      BooksConcat(b.log, es, id);
      TabConcat(b.out, os, id);
      PostOne(Books(b.log, id), es[0], id);
      assert [] + os == os;
      NoteMore(Tab(b.out, id), [], os[0], id);
    } else {
      RemovalHappens(c, init, k, id);
      RemovalPasses(CloseAll(c, init), last.0, last.1, id);
    }
  }

  /** A service pass gives every stream its own turn and nothing else: what its turn adds to its account is added, its
      stream is what the turn leaves, or is removed when the turn asks for it, for the turn's reason and with one CLSE
      to the peer's ID. */
  lemma PassIsEveryTurn(c: Conn, pass: Pass, id: uint32)
    requires Inv(c) && Shaped(c) && id in c.streams && Serve(c, pass).Ok?
    ensures InBounds(c.streams[id]) && 0 < c.max
    ensures var d := Serve(c, pass).value.0; var t := TakeTurn(id, c.streams[id], pass, c.max);
            var l := PostAll(Books(c.log, id), t.events, id); var w := NoteAll(Tab(c.out, id), t.output, id);
            match t.closed
            case None =>
              id in d.streams && d.streams[id] == t.stream && Books(d.log, id) == l && Tab(d.out, id) == w
            case Some(why) =>
              && id !in d.streams && Books(d.log, id) == Post(l, Removed(id, why), id)
              && Tab(d.out, id) == Note(w, Final(Packet(CLSE, id, t.stream.remote, [])), id)
  {
    hide Inv, TakeTurn, Scan, Ids, CloseAll, Books, Tab, PostAll, NoteAll, Post, Note, InClosed, Shaped;
    IdsAreKeys(c.streams.Keys, c.next);
    LiveAccount(c, id);
    assert id in c.streams.Keys;
    var r := FullScanKeeps(c, pass);
    ScanTakesTurn(c, Ids(c.streams.Keys, c.next), pass, id);
    var t := TakeTurn(id, c.streams[id], pass, c.max);
    if t.closed.Some? {
      var k := WhereClosed(r.closed, id);
      RemovalHappens(r.conn, r.closed, k, id);
    } else {
      NotClosed(r.closed, id);
      RemovalsPass(r.conn, r.closed, id);
    }
  }

  lemma WhereClosed(closed: seq<(uint32, Reason)>, id: uint32) returns (k: nat)
    requires InClosed(closed, id)
    ensures k < |closed| && closed[k].0 == id
  {
    k :| 0 <= k < |closed| && closed[k].0 == id;
  }

  lemma NotClosed(closed: seq<(uint32, Reason)>, id: uint32)
    requires !InClosed(closed, id)
    ensures forall k | 0 <= k < |closed| :: closed[k].0 != id
  {
  }

  /** The turn of this stream moves something, or ends the stream. */
  predicate Moves(c: Conn, pass: Pass, id: uint32)
    requires Shaped(c) && id in c.streams
  {
    TakeTurn(id, c.streams[id], pass, c.max).work || TakeTurn(id, c.streams[id], pass, c.max).closed.Some?
  }

  /** The turn of this stream has something to write to the peer. */
  predicate Writes(c: Conn, pass: Pass, id: uint32)
    requires Shaped(c) && id in c.streams
  {
    TakeTurn(id, c.streams[id], pass, c.max).output != [] || TakeTurn(id, c.streams[id], pass, c.max).closed.Some?
  }

  /** The flags of a scan are those of its turns. */
  lemma {:induction false} ScanSums(c: Conn, order: seq<uint32>, pass: Pass)
    requires Shaped(c)
    requires forall i | 0 <= i < |order| :: order[i] in c.streams
    requires forall i, j | 0 <= i < j < |order| :: order[i] < order[j]
    ensures var r := Scan(c, order, pass);
            && c.out <= r.conn.out
            && (r.work || r.closed != [] <==> exists i | 0 <= i < |order| :: Moves(c, pass, order[i]))
            && (r.conn.out != c.out || r.closed != [] <==> exists i | 0 <= i < |order| :: Writes(c, pass, order[i]))
  {
    hide TakeTurn, Moves, Writes, Shaped, InBounds;
    if order != [] {
      var init, last := order[..|order| - 1], order[|order| - 1];
      ScanSums(c, init, pass);
      var r := Scan(c, init, pass);
      ScanPassesBy(c, init, pass, last);
      LastSums(c, r, last, pass);
      assert forall i | 0 <= i < |init| :: order[i] == init[i];
    }
  }

  lemma LastSums(c: Conn, r: Scanned, id: uint32, pass: Pass)
    requires Shaped(c) && Shaped(r.conn) && id in c.streams && id in r.conn.streams
    requires r.conn.max == c.max && r.conn.streams[id] == c.streams[id] && c.out <= r.conn.out
    ensures var q := ScanOne(r, id, pass);
            && c.out <= q.conn.out
            && (q.work || q.closed != [] <==> r.work || r.closed != [] || Moves(c, pass, id))
            && (q.conn.out != c.out || q.closed != [] <==> r.conn.out != c.out || r.closed != [] || Writes(c, pass, id))
  {
    hide TakeTurn;
  }

  /** A pass fails exactly when there is something to write and the TLS layer does not take it; it reports work exactly
      when a stream's turn moved something or ended, so a connection that sleeps has nothing left to do. */
  lemma PassFailsAndWorksExactlyWhen(c: Conn, pass: Pass)
    requires Inv(c) && Shaped(c)
    ensures Serve(c, pass).Err? <==> !pass.tlsOk && exists id | id in c.streams :: Writes(c, pass, id)
    ensures Serve(c, pass).Ok? ==> (Serve(c, pass).value.1 <==> exists id | id in c.streams :: Moves(c, pass, id))
  {
    hide Inv, TakeTurn, Scan, Ids, CloseAll, Shaped, Moves, Writes;
    IdsAreKeys(c.streams.Keys, c.next);
    var order := Ids(c.streams.Keys, c.next);
    assert forall i | 0 <= i < |order| :: order[i] in c.streams.Keys;
    ScanSums(c, order, pass);
    var r := Scan(c, order, pass);
    assert |r.conn.out| > |c.out| <==> r.conn.out != c.out by { assert c.out <= r.conn.out; }
    forall id | id in c.streams ensures id in order {
      LiveAccount(c, id);
      assert id in c.streams.Keys;
    }
    if id :| id in c.streams && Writes(c, pass, id) {
      var i :| 0 <= i < |order| && order[i] == id;
    }
    if id :| id in c.streams && Moves(c, pass, id) {
      var i :| 0 <= i < |order| && order[i] == id;
    }
  }
}
