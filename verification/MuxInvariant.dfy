/** What every run of the multiplexer keeps, stated by comparing the stream table with the history. */
module MuxInvariant {
  import opened Wrappers
  import opened Bytes
  import opened Protocol
  import opened Streams
  import opened Mux

  // ---------------------------------------------------------------------------------------------
  // Ledger bookkeeping

  function PostAll(l: Ledger, es: seq<Event>, id: uint32): Ledger
  {
    if es == [] then l else Post(PostAll(l, es[..|es| - 1], id), es[|es| - 1], id)
  }

  function NoteAll(w: Wire, os: seq<Output>, id: uint32): Wire
  {
    if os == [] then w else Note(NoteAll(w, os[..|os| - 1], id), os[|os| - 1], id)
  }

  lemma {:induction false} BooksConcat(log: seq<Event>, es: seq<Event>, id: uint32)
    ensures Books(log + es, id) == PostAll(Books(log, id), es, id)
  {
    if es == [] {
      assert log + es == log;
    } else {
      var init, last := es[..|es| - 1], es[|es| - 1];
      assert (log + es)[..|log + es| - 1] == log + init;
      BooksConcat(log, init, id);
    }
  }

  lemma {:induction false} TabConcat(out: seq<Output>, os: seq<Output>, id: uint32)
    ensures Tab(out + os, id) == NoteAll(Tab(out, id), os, id)
  {
    if os == [] {
      assert out + os == out;
    } else {
      assert (out + os)[..|out + os| - 1] == out + os[..|os| - 1];
      TabConcat(out, os[..|os| - 1], id);
    }
  }

  /** Events of other streams and packets naming other streams leave an account alone. */
  lemma {:induction false} OtherAccounts(l: Ledger, w: Wire, es: seq<Event>, os: seq<Output>, id: uint32)
    requires forall i | 0 <= i < |es| :: es[i].id != id
    requires forall i | 0 <= i < |os| :: !Uses(os[i], id)
    ensures PostAll(l, es, id) == l && NoteAll(w, os, id) == w
    decreases |es| + |os|
  {
    if es != [] {
      OtherAccounts(l, w, es[..|es| - 1], os, id);
    } else if os != [] {
      OtherAccounts(l, w, es, os[..|os| - 1], id);
    }
  }

  /** An output that belongs to the stream with this local ID. A plain CLSE belongs to none. */
  predicate Uses(o: Output, id: uint32)
  {
    && o.packet.arg0 == id
    && (o.Final? || o.Drained? || o.packet.command == OPEN || o.packet.command == OKAY || o.packet.command == WRTE)
  }

  /** After the CLSE of a removed stream, its local ID is never used again. */
  ghost predicate Ordered(out: seq<Output>)
  {
    forall i, j | 0 <= i < j < |out| && out[i].Final? :: !Uses(out[j], out[i].packet.arg0)
  }

  lemma {:induction false} NoFinal(out: seq<Output>, id: uint32)
    requires Tab(out, id).finals == 0
    ensures forall i | 0 <= i < |out| && out[i].Final? :: out[i].packet.arg0 != id
  {
    if out != [] {
      NoFinal(out[..|out| - 1], id);
    }
  }

  lemma OrderedAppend(out: seq<Output>, os: seq<Output>, id: uint32)
    requires Ordered(out) && Tab(out, id).finals == 0
    requires forall i | 0 <= i < |os| :: (Uses(os[i], id) || forall j: uint32 :: !Uses(os[i], j))
    requires forall i | 0 <= i < |os| && os[i].Final? :: i == |os| - 1
    ensures Ordered(out + os)
  {
    NoFinal(out, id);
    forall i, j | 0 <= i < j < |out + os| && (out + os)[i].Final?
      ensures !Uses((out + os)[j], (out + os)[i].packet.arg0)
    {
      if j >= |out| && i < |out| {
        assert Uses(os[j - |out|], id) || !Uses(os[j - |out|], out[i].packet.arg0);
      }
    }
  }

  // ---------------------------------------------------------------------------------------------
  // Sums over the table

  lemma {:induction false} QueuedChange(a: map<uint32, StreamState>, b: map<uint32, StreamState>, id: uint32, n: nat)
    requires forall j: nat | j < n && j != id :: Weight(a, j) == Weight(b, j)
    ensures Queued(b, n) == Queued(a, n) + if id < n then Weight(b, id) - Weight(a, id) else 0
  {
    if n != 0 {
      QueuedChange(a, b, id, n - 1);
    }
  }

  // ---------------------------------------------------------------------------------------------
  // The invariant

  /** A stream in the table against its account. FIFO: what the service was given, then what is queued, is what
      was accepted. Credit: one WRTE is unacknowledged exactly while `waiting`. What the peer was sent is what
      was read from the service, in pieces of at most one chunk. Drain acknowledgements never outnumber the
      packets that left the queue; of the others there is one for every empty WRTE and for an OPEN of the peer.
      The time of the last CLSE is the one the stream waits from. Once the peer has named its end, and not before,
      packets go out, all of them to that name. */
  ghost predicate LiveOk(s: StreamState, l: Ledger, w: Wire, max: nat)
  {
    && s.Valid()
    && l.delivered + s.Undelivered() == l.accepted
    && w.wrtes == l.acks + (if s.waiting then 1 else 0)
    && w.sent == l.fetched && w.longest <= Min(max, CHUNK)
    && w.opens <= 1 && (s.opening.Some? ==> w.opens == 1)
    && w.drains + |s.pending| <= l.writes && w.okays + w.opens == l.empties + 1
    && s.closing == (if l.closes == [] then None else Some(l.closes[|l.closes| - 1]))
    && WellAddressed(l, w) && s.remote == PeerName(l) && (l.names == [] <==> s.opening.Some?)
    && w.finals == 0 && l.removed == []
  }

  /** The peer names its end at most once. Our OPEN goes to no ID, every other packet to that name, and before there
      is one nothing but the final CLSE goes out. */
  ghost predicate WellAddressed(l: Ledger, w: Wire)
  {
    && |l.names| <= 1
    && (forall i | 0 <= i < |w.dialed| :: w.dialed[i] == 0)
    && (forall i | 0 <= i < |w.addressed| :: w.addressed[i] == PeerName(l))
    && |w.dialed| == w.opens && |w.addressed| == w.wrtes + w.okays + w.drains + w.finals
    && (l.names == [] ==> |w.addressed| == w.finals)
  }

  /** The account of a removed stream: one removal, one final CLSE, nothing lost on an orderly close, nothing
      unacknowledged on an end of file. */
  ghost predicate DeadOk(l: Ledger, w: Wire, max: nat)
  {
    && |l.removed| == 1 && w.finals == 1 && WellAddressed(l, w)
    && l.delivered <= l.accepted
    && l.acks <= w.wrtes <= l.acks + 1
    && w.sent == l.fetched && w.longest <= Min(max, CHUNK)
    && w.opens <= 1 && w.drains <= l.writes && w.okays + w.opens == l.empties + 1
    && (l.removed[0] == Eof ==> w.wrtes == l.acks)
    && (l.removed[0].Shut? && l.removed[0].elapsed <= CLOSE_GRACE_MS ==> l.delivered == l.accepted)
  }

  /** Streams the peer opened have distinct remote IDs; a stream we opened is told by the OPEN we sent. */
  ghost predicate DistinctPeers(c: Conn)
  {
    forall a, b | a in c.streams && b in c.streams && a != b && Tab(c.out, a).opens == 0 && Tab(c.out, b).opens == 0 ::
      c.streams[a].remote != c.streams[b].remote
  }

  ghost predicate Bounds(c: Conn)
  {
    && 4096 <= c.max <= MAX_PAYLOAD
    && 1 <= c.next
    && |c.streams| <= MAX_STREAMS
    && Queued(c.streams, c.next) <= INPUT_BUDGET
  }

  ghost predicate Accounts(c: Conn)
  {
    && (forall id | id in c.streams ::
          1 <= id < c.next && LiveOk(c.streams[id], Books(c.log, id), Tab(c.out, id), c.max))
    && (forall id: uint32 | 1 <= id < c.next && id !in c.streams :: DeadOk(Books(c.log, id), Tab(c.out, id), c.max))
    && (forall id: uint32 | id == 0 || c.next <= id :: Books(c.log, id) == BLANK && Tab(c.out, id) == SILENT)
  }

  ghost predicate Inv(c: Conn)
  {
    Bounds(c) && Accounts(c) && DistinctPeers(c) && Ordered(c.out)
  }

  /** Nothing more can be cut from the input. */
  ghost predicate Settled(c: Conn)
  {
    CutOne(c.input, c.max).Wait?
  }

  lemma InvShaped(c: Conn)
    requires Inv(c)
    ensures Shaped(c)
  {
  }

  lemma StartInv(max: nat)
    requires 4096 <= max <= MAX_PAYLOAD
    ensures Inv(Start(max)) && Settled(Start(max))
  {
  }

  lemma InvIgnoresInput(c: Conn, input: seq<byte>, handled: nat)
    requires Inv(c)
    ensures Inv(c.(input := input, handled := handled))
  {
  }

  /** Accounts after appending to the history what concerns one ID only. */
  lemma AccountsAfter(c: Conn, id: uint32, es: seq<Event>, os: seq<Output>)
    requires forall i | 0 <= i < |es| :: es[i].id == id
    requires forall i | 0 <= i < |os| :: os[i].packet.arg0 == id
    ensures forall j: uint32 | j != id ::
              Books(c.log + es, j) == Books(c.log, j) && Tab(c.out + os, j) == Tab(c.out, j)
    ensures Books(c.log + es, id) == PostAll(Books(c.log, id), es, id)
    ensures Tab(c.out + os, id) == NoteAll(Tab(c.out, id), os, id)
  {
    forall j: uint32
      ensures Books(c.log + es, j) == PostAll(Books(c.log, j), es, j)
      ensures Tab(c.out + os, j) == NoteAll(Tab(c.out, j), os, j)
      ensures j != id ==> Books(c.log + es, j) == Books(c.log, j) && Tab(c.out + os, j) == Tab(c.out, j)
    {
      BooksConcat(c.log, es, j);
      TabConcat(c.out, os, j);
      if j != id {
        OtherAccounts(Books(c.log, j), Tab(c.out, j), es, os, j);
      }
    }
  }

  /** A change that concerns one stream in the table keeps the invariant if that stream's account still agrees. */
  lemma OneStream(c: Conn, d: Conn, id: uint32, s: StreamState, es: seq<Event>, os: seq<Output>)
    requires Inv(c) && id in c.streams
    requires d == c.(streams := c.streams[id := s], log := c.log + es, out := c.out + os)
    requires forall i | 0 <= i < |es| :: es[i].id == id
    requires forall i | 0 <= i < |os| :: !os[i].Final? && Uses(os[i], id) && os[i].packet.command != OPEN
    requires LiveOk(s, PostAll(Books(c.log, id), es, id), NoteAll(Tab(c.out, id), os, id), c.max)
    requires s.remote == c.streams[id].remote || Tab(c.out, id).opens == 1
    requires Queued(c.streams, c.next) - Size(c.streams[id].pending) + Size(s.pending) <= INPUT_BUDGET
    ensures Inv(d)
  {
    hide LiveOk, PostAll, NoteAll, Books, Tab, Queued, Ordered, Accounts, DistinctPeers, Bounds, Size;
    assert Bounds(c) && Accounts(c) && DistinctPeers(c) && Ordered(c.out);
    AccountsAfter(c, id, es, os);
    OneAccount(c, d, id, s);
    LiveAccount(c, id);
    OneBounds(c, d, id, s);
    OpensKept(Tab(c.out, id), os, id);
    OnePeer(c, d, id, s);
    OrderedOne(c, id, os);
  }

  lemma OneAccount(c: Conn, d: Conn, id: uint32, s: StreamState)
    requires Accounts(c) && id in c.streams
    requires d.streams == c.streams[id := s] && d.next == c.next && d.max == c.max
    requires forall j: uint32 | j != id :: Books(d.log, j) == Books(c.log, j) && Tab(d.out, j) == Tab(c.out, j)
    requires LiveOk(s, Books(d.log, id), Tab(d.out, id), c.max)
    ensures Accounts(d)
  {
    hide LiveOk, DeadOk, Books, Tab;
  }

  lemma OneBounds(c: Conn, d: Conn, id: uint32, s: StreamState)
    requires Bounds(c) && id in c.streams && id < c.next
    requires d.streams == c.streams[id := s] && d.next == c.next && d.max == c.max
    requires Queued(c.streams, c.next) - Size(c.streams[id].pending) + Size(s.pending) <= INPUT_BUDGET
    ensures Bounds(d)
  {
    hide Queued, Size;
    assert d.streams.Keys == c.streams.Keys;
    QueuedChange(c.streams, d.streams, id, c.next);
  }

  lemma OnePeer(c: Conn, d: Conn, id: uint32, s: StreamState)
    requires DistinctPeers(c) && id in c.streams
    requires d.streams == c.streams[id := s]
    requires forall j: uint32 | j != id :: Tab(d.out, j) == Tab(c.out, j)
    requires Tab(d.out, id).opens == Tab(c.out, id).opens
    requires s.remote == c.streams[id].remote || Tab(c.out, id).opens == 1
    ensures DistinctPeers(d)
  {
    hide Tab;
  }

  lemma OrderedOne(c: Conn, id: uint32, os: seq<Output>)
    requires Accounts(c) && Ordered(c.out) && id in c.streams
    requires forall i | 0 <= i < |os| :: !os[i].Final? && Uses(os[i], id)
    ensures Ordered(c.out + os)
  {
    hide Tab, Books;
    OrderedAppend(c.out, os, id);
  }

  lemma {:induction false} OpensKept(w: Wire, os: seq<Output>, id: uint32)
    requires forall i | 0 <= i < |os| :: !os[i].Final? && os[i].packet.command != OPEN
    ensures NoteAll(w, os, id).opens == w.opens
  {
    if os != [] {
      OpensKept(w, os[..|os| - 1], id);
    }
  }

  /** A plain CLSE changes no account. */
  lemma EchoKeeps(c: Conn, a: uint32, b: uint32)
    requires Inv(c)
    ensures Inv(c.(out := c.out + [Sent(Packet(CLSE, a, b, []))]))
  {
    hide LiveOk, Queued;
    var os := [Sent(Packet(CLSE, a, b, []))];
    forall j: uint32
      ensures Tab(c.out + os, j) == Tab(c.out, j)
    {
      TabConcat(c.out, os, j);
      OtherAccounts(BLANK, Tab(c.out, j), [], os, j);
    }
    OrderedAppend(c.out, os, 0);
  }

  /** The history of a new stream: the peer's OPEN, answered, or our own. */
  ghost predicate Announces(id: uint32, s: StreamState, es: seq<Event>, o: Output)
  {
    && o.Sent? && o.packet.arg0 == id && o.packet.arg1 == s.remote
    && (if s.opening.Some? then o.packet.command == OPEN && es == []
        else o.packet.command == OKAY && |es| == 1 && es[0].Named? && es[0].id == id && es[0].told.arg0 == s.remote)
  }

  ghost predicate Unused(s: StreamState)
  {
    s.pending == [] && s.offset == 0 && !s.waiting && (s.remote == 0 <==> s.opening.Some?) && s.closing.None?
  }

  lemma FirstEntry(id: uint32, s: StreamState, es: seq<Event>, o: Output)
    requires Announces(id, s, es, o)
    ensures PostAll(BLANK, es, id) == if es == [] then BLANK else Post(BLANK, es[0], id)
    ensures NoteAll(SILENT, [o], id) == Note(SILENT, o, id)
  {
    hide Note, Post;
    assert [] + [o] == [o];
    NoteMore(SILENT, [], o, id);
    if es != [] {
      PostOne(BLANK, es[0], id);
      assert es == [es[0]];
    }
  }

  lemma FirstAccount(id: uint32, s: StreamState, es: seq<Event>, o: Output, max: nat)
    requires Unused(s) && Announces(id, s, es, o)
    ensures LiveOk(s, PostAll(BLANK, es, id), NoteAll(SILENT, [o], id), max) && Uses(o, id)
    ensures NoteAll(SILENT, [o], id).opens == if s.opening.Some? then 1 else 0
  {
    hide PostAll, NoteAll, StreamState.Undelivered, StreamState.Valid;
    FirstEntry(id, s, es, o);
    NothingQueued(s);
    var none: seq<byte> := [];
    assert none + s.Undelivered() == none;
  }

  lemma NothingQueued(s: StreamState)
    requires Unused(s)
    ensures s.Valid() && s.Undelivered() == []
  {
  }

  lemma NewAccount(c: Conn, s: StreamState, es: seq<Event>, o: Output)
    requires Inv(c) && Unused(s) && Announces(c.next, s, es, o)
    ensures forall j: uint32 | j != c.next ::
              Books(c.log + es, j) == Books(c.log, j) && Tab(c.out + [o], j) == Tab(c.out, j)
    ensures LiveOk(s, Books(c.log + es, c.next), Tab(c.out + [o], c.next), c.max)
    ensures Uses(o, c.next) && Tab(c.out, c.next).finals == 0
    ensures Tab(c.out + [o], c.next).opens == if s.opening.Some? then 1 else 0
  {
    hide Ordered, DistinctPeers, Bounds, LiveOk, WellAddressed, NoteAll, PostAll, Uses;
    AccountsAfter(c, c.next, es, [o]);
    assert Books(c.log, c.next) == BLANK && Tab(c.out, c.next) == SILENT by {
      hide Books, Tab;
    }
    FirstAccount(c.next, s, es, o, c.max);
  }

  /** A new stream under the next local ID, announced by `o`. */
  lemma NewStreamKeeps(c: Conn, s: StreamState, es: seq<Event>, o: Output)
    requires Inv(c) && |c.streams| < MAX_STREAMS && c.next < U32_MAX
    requires Unused(s) && Announces(c.next, s, es, o)
    requires s.opening.None? ==> forall id | id in c.streams :: c.streams[id].remote != s.remote
    ensures Inv(c.(next := c.next + 1, streams := c.streams[c.next := s], log := c.log + es, out := c.out + [o]))
  {
    hide LiveOk, DeadOk, Books, Tab, Ordered, Accounts, DistinctPeers, Uses, Bounds, Announces;
    var id := c.next;
    var d := c.(next := c.next + 1, streams := c.streams[id := s], log := c.log + es, out := c.out + [o]);
    UnusedId(c);
    NewAccount(c, s, es, o);
    NewAccounts(c, d, s);
    NewBounds(c, d, s);
    NewPeer(c, d, s);
    OrderedAppend(c.out, [o], id);
  }

  lemma NewBounds(c: Conn, d: Conn, s: StreamState)
    requires Bounds(c) && c.next !in c.streams && c.next < U32_MAX && |c.streams| < MAX_STREAMS
    requires d.streams == c.streams[c.next := s] && d.next == c.next + 1 && d.max == c.max
    requires s.pending == []
    ensures Bounds(d)
  {
    assert d.streams.Keys == c.streams.Keys + {c.next};
    QueuedChange(c.streams, d.streams, c.next, c.next);
    assert Queued(d.streams, d.next) == Queued(d.streams, c.next) + Weight(d.streams, c.next);
  }

  lemma UnusedId(c: Conn)
    requires Accounts(c) && Bounds(c)
    ensures 1 <= c.next && c.next !in c.streams
  {
    hide LiveOk, DeadOk, Books, Tab;
  }

  lemma NewAccounts(c: Conn, d: Conn, s: StreamState)
    requires Accounts(c) && c.next < U32_MAX
    requires d.streams == c.streams[c.next := s] && d.next == c.next + 1 && d.max == c.max
    requires forall j: uint32 | j != c.next :: Books(d.log, j) == Books(c.log, j) && Tab(d.out, j) == Tab(c.out, j)
    requires LiveOk(s, Books(d.log, c.next), Tab(d.out, c.next), c.max)
    requires 1 <= c.next
    ensures Accounts(d)
  {
    hide LiveOk, DeadOk, Books, Tab;
  }

  lemma NewPeer(c: Conn, d: Conn, s: StreamState)
    requires Accounts(c) && DistinctPeers(c)
    requires d.streams == c.streams[c.next := s]
    requires forall j: uint32 | j != c.next :: Tab(d.out, j) == Tab(c.out, j)
    requires Tab(d.out, c.next).opens == 0 ==> forall id | id in c.streams :: c.streams[id].remote != s.remote
    ensures DistinctPeers(d)
  {
    hide Tab, LiveOk, DeadOk;
  }

  // ---------------------------------------------------------------------------------------------
  // Handling a packet

  lemma OpenKeeps(c: Conn, p: Packet, e: Env)
    requires Inv(c) && HandleOpen(c, p, e).Ok?
    ensures Inv(HandleOpen(c, p, e).value)
  {
    hide Inv, ServiceName, Accounts, Bounds, DistinctPeers, Ordered, SameInput, Books, DeadOk, Tab, Uses;
    if |c.streams| >= MAX_STREAMS || !ServiceName(p.data) || e.service.None? {
      EchoKeeps(c, 0, p.arg0);
    } else {
      NewStreamKeeps(c, NewStream(p.arg0, e.service.value, None), [Named(c.next, p)],
                     Sent(Packet(OKAY, c.next, p.arg0, [])));
    }
  }

  lemma LiveAccount(c: Conn, id: uint32)
    requires Inv(c) && id in c.streams
    ensures 1 <= id < c.next && LiveOk(c.streams[id], Books(c.log, id), Tab(c.out, id), c.max)
    ensures Queued(c.streams, c.next) <= INPUT_BUDGET
  {
    hide LiveOk, DeadOk, Books, Tab;
  }

  lemma OkayKeeps(c: Conn, p: Packet)
    requires Inv(c) && HandleOkay(c, p).Ok?
    ensures Inv(HandleOkay(c, p).value)
  {
    if p.arg1 in c.streams {
      OkayAnswers(c, p);
    }
  }

  /** What an accepted OKAY changes. */
  lemma OkayShape(c: Conn, p: Packet)
    requires p.arg1 in c.streams && HandleOkay(c, p).Ok?
    ensures var s := c.streams[p.arg1];
            var t := if s.opening.Some? then s.(opening := None, remote := p.arg0) else s.(waiting := false);
            var es := if s.opening.Some? then [Named(p.arg1, p)] else [Acked(p.arg1)];
            && p.arg0 != 0 && (s.opening.None? ==> s.waiting)
            && HandleOkay(c, p).value ==
               c.(streams := c.streams[p.arg1 := t], log := c.log + es, out := c.out + [])
  {
    assert c.log + [] == c.log && c.out + [] == c.out;
  }

  lemma OkayAnswers(c: Conn, p: Packet)
    requires Inv(c) && p.arg1 in c.streams && HandleOkay(c, p).Ok?
    ensures Inv(HandleOkay(c, p).value)
  {
    hide Inv, LiveOk, HandleOkay, Books, Tab, Queued, Size;
    OkayShape(c, p);
    LiveAccount(c, p.arg1);
    var s, l, w := c.streams[p.arg1], Books(c.log, p.arg1), Tab(c.out, p.arg1);
    var t := if s.opening.Some? then s.(opening := None, remote := p.arg0) else s.(waiting := false);
    var es := if s.opening.Some? then [Named(p.arg1, p)] else [Acked(p.arg1)];
    OkayLive(c.max, s, t, p, l, w);
    PostOne(l, es[0], p.arg1);
    OneStream(c, HandleOkay(c, p).value, p.arg1, t, es, []);
  }

  lemma OkayLive(max: nat, s: StreamState, t: StreamState, p: Packet, l: Ledger, w: Wire)
    requires LiveOk(s, l, w, max) && p.arg0 != 0
    requires if s.opening.Some? then t == s.(opening := None, remote := p.arg0)
             else s.waiting && t == s.(waiting := false)
    ensures s.opening.Some? ==> LiveOk(t, l.(names := l.names + [p.arg0]), w, max) && w.opens == 1
    ensures s.opening.None? ==> LiveOk(t, l.(acks := l.acks + 1), w, max) && t.remote == s.remote
  {
    assert t.Undelivered() == s.Undelivered();
  }

  lemma WrteKeeps(c: Conn, p: Packet, e: Env)
    requires Inv(c) && HandleWrte(c, p, e).Ok?
    ensures Inv(HandleWrte(c, p, e).value)
  {
    if p.arg1 !in c.streams {
      EchoKeeps(c, p.arg1, p.arg0);
    } else if p.data == [] {
      WrteAnswered(c, p, e);
    } else {
      WrteQueues(c, p, e);
    }
    hide Inv;
  }

  /** What an accepted empty WRTE changes. */
  lemma AnswerShape(c: Conn, p: Packet, e: Env)
    requires p.arg1 in c.streams && p.data == [] && HandleWrte(c, p, e).Ok?
    ensures c.streams[p.arg1].opening.None? && c.streams[p.arg1].remote == p.arg0
    ensures HandleWrte(c, p, e).value ==
            c.(streams := c.streams[p.arg1 := c.streams[p.arg1]], log := c.log + [Accepted(p.arg1, p.data)],
               out := c.out + [Sent(Packet(OKAY, p.arg1, p.arg0, []))])
  {
    hide Queued;
    assert c.streams[p.arg1 := c.streams[p.arg1]] == c.streams;
  }

  /** An empty WRTE is acknowledged at once. */
  lemma WrteAnswered(c: Conn, p: Packet, e: Env)
    requires Inv(c) && p.arg1 in c.streams && p.data == [] && HandleWrte(c, p, e).Ok?
    ensures Inv(HandleWrte(c, p, e).value)
  {
    hide Inv, LiveOk, HandleWrte, Queued, Size, Books, Tab;
    var id, s := p.arg1, c.streams[p.arg1];
    var es, os := [Accepted(id, p.data)], [Sent(Packet(OKAY, id, p.arg0, []))];
    var d := HandleWrte(c, p, e).value;
    AnswerShape(c, p, e);
    LiveAccount(c, id);
    PostOne(Books(c.log, id), es[0], id);
    NoteMore(Tab(c.out, id), [], os[0], id);
    assert [] + os == os;
    EmptyLive(c.max, id, s, os[0].packet, Books(c.log, id), Tab(c.out, id));
    OneStream(c, d, id, s, es, os);
  }

  lemma EmptyLive(max: nat, id: uint32, s: StreamState, p: Packet, l: Ledger, w: Wire)
    requires LiveOk(s, l, w, max) && p.command == OKAY && p.arg0 == id && p.arg1 == s.remote && s.opening.None?
    ensures LiveOk(s, Post(l, Accepted(id, []), id), Note(w, Sent(p), id), max)
  {
  }

  lemma WrteQueues(c: Conn, p: Packet, e: Env)
    requires Inv(c) && p.arg1 in c.streams && p.data != [] && HandleWrte(c, p, e).Ok?
    ensures Inv(HandleWrte(c, p, e).value)
  {
    hide Inv, LiveOk, Enqueue, HandleWrte, Queued, Size, Books, Tab;
    var id, s := p.arg1, c.streams[p.arg1];
    WrteShape(c, p, e);
    LiveAccount(c, id);
    EnqueueLive(c.max, s, p.data, Books(c.log, id), Tab(c.out, id));
    PostOne(Books(c.log, id), Accepted(id, p.data), id);
    OneStream(c, HandleWrte(c, p, e).value, id, Enqueue(s, p.data).value, [Accepted(id, p.data)], []);
  }

  /** What an accepted non-empty WRTE changes. */
  lemma WrteShape(c: Conn, p: Packet, e: Env)
    requires p.arg1 in c.streams && p.data != [] && HandleWrte(c, p, e).Ok?
    ensures var s := c.streams[p.arg1];
            && s.opening.None? && Enqueue(s, p.data).Some? && Enqueue(s, p.data).value.remote == s.remote
            && Queued(c.streams, c.next) + |p.data| <= INPUT_BUDGET
            && HandleWrte(c, p, e).value ==
               c.(streams := c.streams[p.arg1 := Enqueue(s, p.data).value],
                  log := c.log + [Accepted(p.arg1, p.data)], out := c.out + [])
  {
    hide Queued;
    assert c.out + [] == c.out;
  }

  lemma EnqueueLive(max: nat, s: StreamState, data: seq<byte>, l: Ledger, w: Wire)
    requires LiveOk(s, l, w, max) && s.opening.None? && data != [] && Enqueue(s, data).Some?
    ensures LiveOk(Enqueue(s, data).value, l.(accepted := l.accepted + data, writes := l.writes + 1), w, max)
    ensures Size(Enqueue(s, data).value.pending) == Size(s.pending) + |data|
  {
    EnqueueAppends(s, data);
    Associate(l.delivered, s.Undelivered(), data);
  }

  lemma ClseKeeps(c: Conn, p: Packet, e: Env)
    requires Inv(c) && HandleClse(c, p, e).Ok?
    ensures Inv(HandleClse(c, p, e).value)
  {
    if p.arg1 in c.streams {
      var d := HandleClse(c, p, e).value;
      var t, es := c.streams[p.arg1].(closing := Some(e.now)), [Shutting(p.arg1, e.now)];
      assert c.out + [] == c.out;
      assert d == c.(streams := c.streams[p.arg1 := t], log := c.log + es, out := c.out + []);
      LiveAccount(c, p.arg1);
      PostOne(Books(c.log, p.arg1), es[0], p.arg1);
      ClosingLive(c.max, p.arg1, c.streams[p.arg1], e.now, Books(c.log, p.arg1), Tab(c.out, p.arg1));
      hide Inv, LiveOk, HandleClse, Queued, Size, Books, Tab;
      OneStream(c, d, p.arg1, t, es, []);
    }
  }

  lemma ClosingLive(max: nat, id: uint32, s: StreamState, now: nat, l: Ledger, w: Wire)
    requires LiveOk(s, l, w, max)
    ensures LiveOk(s.(closing := Some(now)), Post(l, Shutting(id, now), id), w, max)
  {
    assert s.(closing := Some(now)).Undelivered() == s.Undelivered();
  }

  /** Every packet that is not refused keeps the invariant. */
  lemma HandleKeeps(c: Conn, p: Packet, e: Env)
    requires Inv(c) && Handle(c, p, e).Ok?
    ensures Inv(Handle(c, p, e).value)
  {
    if p.command == OPEN {
      OpenKeeps(c, p, e);
    } else if p.command == OKAY {
      OkayKeeps(c, p);
    } else if p.command == WRTE {
      WrteKeeps(c, p, e);
    } else {
      ClseKeeps(c, p, e);
    }
  }

  lemma {:induction false} ParseKeeps(c: Conn, world: nat -> Env)
    requires Inv(c) && Parse(c, world).Ok?
    ensures Inv(Parse(c, world).value) && Settled(Parse(c, world).value)
    decreases |c.input|
  {
    var cut := CutOne(c.input, c.max);
    if cut.Yield? {
      ParseUnfolds(c, world, cut.packet, cut.rest);
      var b := c.(input := cut.rest, handled := c.handled + 1);
      InvIgnoresInput(c, cut.rest, c.handled + 1);
      HandleKeeps(b, cut.packet, world(c.handled));
      ParseKeeps(Handle(b, cut.packet, world(c.handled)).value, world);
    }
  }

  // ---------------------------------------------------------------------------------------------
  // The service pass

  /** What must hold of a stream that is about to be removed for a reason. */
  ghost predicate Justified(why: Reason, s: StreamState)
  {
    && (why == Eof ==> !s.waiting)
    && (why.Shut? && why.elapsed <= CLOSE_GRACE_MS ==> s.pending == [])
  }

  lemma FlushLive(max: nat, id: uint32, s: StreamState, l: Ledger, w: Wire)
    requires LiveOk(s, l, w, max)
    ensures var f := Flush(s);
            && f.stream.Valid() && SameRole(s, f.stream)
            && Size(f.stream.pending) <= Size(s.pending) && |f.stream.pending| <= |s.pending|
            && LiveOk(f.stream, l.(delivered := l.delivered + f.delivered), w, max)
  {
    FlushConserves(s);
    var f := Flush(s);
    Associate(l.delivered, f.delivered, f.stream.Undelivered());
  }

  /** A turn of a stream with account `l`, `w` leaves an account that agrees, and asks for removal only for a
      reason that holds. */
  ghost predicate TurnOk(id: uint32, s: StreamState, t: Turn, l: Ledger, w: Wire, max: nat)
  {
    && LiveOk(t.stream, PostAll(l, t.events, id), NoteAll(w, t.output, id), max)
    && t.stream.remote == s.remote
    && Size(t.stream.pending) <= Size(s.pending)
    && (forall i | 0 <= i < |t.events| :: t.events[i].id == id)
    && (forall i | 0 <= i < |t.output| :: Own(t.output[i], id))
    && (t.closed.Some? ==> Justified(t.closed.value, t.stream))
  }

  /** A packet a pass sends for the stream itself. */
  predicate Own(o: Output, id: uint32)
  {
    !o.Final? && o.packet.arg0 == id && (o.packet.command == OKAY || o.packet.command == WRTE)
  }

  lemma TurnKeeps(max: nat, id: uint32, s: StreamState, pass: Pass, l: Ledger, w: Wire)
    requires LiveOk(s, l, w, max) && 0 < max
    ensures InBounds(s) && TurnOk(id, s, TakeTurn(id, s, pass, max), l, w, max)
  {
    if !(s.opening.Some? && Elapsed(pass.openClock(id), s.opening.value) > OPEN_TIMEOUT_MS) {
      FlushLive(max, id, s, l, w);
      var f := Flush(s);
      PostOne(l, Delivered(id, f.delivered), id);
      if f.ok {
        AfterFlushKeeps(max, id, s, f, pass, l, w);
      }
      hide LiveOk, AfterFlush, Flush, PostAll, Size;
    }
  }

  lemma AfterFlushKeeps(max: nat, id: uint32, s: StreamState, f: Flushed, pass: Pass, l: Ledger, w: Wire)
    requires LiveOk(s, l, w, max) && 0 < max
    requires f.stream.Valid() && SameRole(s, f.stream)
    requires Size(f.stream.pending) <= Size(s.pending) && |f.stream.pending| <= |s.pending|
    requires LiveOk(f.stream, l.(delivered := l.delivered + f.delivered), w, max)
    ensures InBounds(f.stream) && TurnOk(id, s, AfterFlush(id, s.pending != [], f, pass, max), l, w, max)
  {
    hide LiveOk, Fetch, PostAll, NoteAll, Size;
    var t := f.stream;
    var es := [Delivered(id, f.delivered)];
    PostOne(l, es[0], id);
    var drained := s.pending != [] && t.pending == [] && t.closing.None?;
    var os := if drained then [Drained(Packet(OKAY, id, t.remote, []))] else [];
    DrainedNote(w, os, id);
    DrainedLive(max, id, s, f, os, l, w);
    assert |os| <= 1;
    assert forall i | 0 <= i < |os| :: Own(os[i], id);
    if t.closing.None? && t.opening.None? && !t.waiting && pass.gate {
      FetchKeeps(max, id, t, es, os, f.progress, l, w);
    }
  }

  /** A queue that has been emptied may be acknowledged. */
  lemma DrainedLive(max: nat, id: uint32, s: StreamState, f: Flushed, os: seq<Output>, l: Ledger, w: Wire)
    requires LiveOk(s, l, w, max) && |f.stream.pending| <= |s.pending|
    requires LiveOk(f.stream, l.(delivered := l.delivered + f.delivered), w, max)
    requires || os == []
             || (&& |os| == 1 && os[0].Drained? && os[0].packet.arg0 == id && os[0].packet.arg1 == f.stream.remote
                 && s.pending != [] && f.stream.pending == [])
    ensures InBounds(f.stream)
    ensures LiveOk(f.stream, PostAll(l, [Delivered(id, f.delivered)], id), NoteAll(w, os, id), max)
  {
    PostOne(l, Delivered(id, f.delivered), id);
    DrainedNote(w, os, id);
  }

  lemma FetchKeeps(max: nat, id: uint32, t: StreamState, es: seq<Event>, os: seq<Output>, work: bool, l: Ledger,
                   w: Wire)
    requires LiveOk(t, PostAll(l, es, id), NoteAll(w, os, id), max) && 0 < max
    requires !t.waiting && t.opening.None?
    requires forall i | 0 <= i < |es| :: es[i].id == id
    requires forall i | 0 <= i < |os| :: Own(os[i], id)
    ensures InBounds(t) && TurnOk(id, t, Fetch(id, t, es, os, work, max), l, w, max)
  {
    hide LiveOk, PostAll, NoteAll, Size;
    var (source, outcome) := ReadFrom(t.source, Min(max, CHUNK));
    var l1, w1 := PostAll(l, es, id), NoteAll(w, os, id);
    ReadLive(max, id, t, source, l1, w1);
    if outcome.Gave? && outcome.data != [] {
      var e, o := Fetched(id, outcome.data), Sent(Packet(WRTE, id, t.remote, outcome.data));
      PostMore(l, es, e, id);
      NoteMore(w, os, o, id);
      SentLive(max, id, t, source, o.packet, l1, w1);
    }
  }

  lemma PostOne(l: Ledger, e: Event, id: uint32)
    ensures PostAll(l, [e], id) == Post(l, e, id)
  {
    assert [e][..0] == [];
  }

  lemma PostMore(l: Ledger, es: seq<Event>, e: Event, id: uint32)
    ensures PostAll(l, es + [e], id) == Post(PostAll(l, es, id), e, id)
  {
    assert (es + [e])[..|es|] == es;
  }

  lemma NoteMore(w: Wire, os: seq<Output>, o: Output, id: uint32)
    ensures NoteAll(w, os + [o], id) == Note(NoteAll(w, os, id), o, id)
  {
    assert (os + [o])[..|os|] == os;
  }

  lemma DrainedNote(w: Wire, os: seq<Output>, id: uint32)
    requires os == [] || (|os| == 1 && os[0].Drained? && os[0].packet.arg0 == id)
    ensures NoteAll(w, os, id) ==
            if os == [] then w else w.(drains := w.drains + 1, addressed := w.addressed + [os[0].packet.arg1])
  {
    if os != [] {
      assert os[..0] == [];
    }
  }

  lemma ReadLive(max: nat, id: uint32, t: StreamState, source: Source, l: Ledger, w: Wire)
    requires LiveOk(t, l, w, max)
    ensures InBounds(t) && LiveOk(t.(source := source), l, w, max)
  {
    assert t.(source := source).Undelivered() == t.Undelivered();
  }

  lemma SentLive(max: nat, id: uint32, t: StreamState, source: Source, p: Packet, l: Ledger, w: Wire)
    requires LiveOk(t, l, w, max) && !t.waiting && t.opening.None?
    requires p.command == WRTE && p.arg0 == id && p.arg1 == t.remote && |p.data| <= Min(max, CHUNK)
    ensures LiveOk(t.(source := source, waiting := true), Post(l, Fetched(id, p.data), id), Note(w, Sent(p), id), max)
  {
    assert t.(source := source, waiting := true).Undelivered() == t.Undelivered();
  }

  /** The streams noted for removal are in the table, once each, and for a reason that holds. */
  ghost predicate ClosedOk(r: Scanned)
  {
    && (forall i | 0 <= i < |r.closed| ::
          r.closed[i].0 in r.conn.streams && Justified(r.closed[i].1, r.conn.streams[r.closed[i].0]))
    && (forall i, j | 0 <= i < j < |r.closed| :: r.closed[i].0 != r.closed[j].0)
  }

  lemma ScanOneKeeps(r: Scanned, id: uint32, pass: Pass)
    requires Inv(r.conn) && Shaped(r.conn) && ClosedOk(r) && id in r.conn.streams
    requires forall i | 0 <= i < |r.closed| :: r.closed[i].0 != id
    ensures var q := ScanOne(r, id, pass);
            && Inv(q.conn) && ClosedOk(q)
            && |r.closed| <= |q.closed|
            && forall i | 0 <= i < |q.closed| :: q.closed[i].0 == id || (i < |r.closed| && q.closed[i] == r.closed[i])
  {
    hide TakeTurn, Inv, LiveOk, Queued, Size, Books, Tab, PostAll, NoteAll, Justified, ClosedOk;
    var c := r.conn;
    var s := c.streams[id];
    var t := TakeTurn(id, s, pass, c.max);
    LiveAccount(c, id);
    TurnKeeps(c.max, id, s, pass, Books(c.log, id), Tab(c.out, id));
    var q := ScanOne(r, id, pass);
    assert q.conn == c.(streams := c.streams[id := t.stream], log := c.log + t.events, out := c.out + t.output);
    OneStream(c, q.conn, id, t.stream, t.events, t.output);
    ScanOneCloses(r, q, id, t);
  }

  lemma ScanOneCloses(r: Scanned, q: Scanned, id: uint32, t: Turn)
    requires ClosedOk(r) && id in r.conn.streams && q.conn.streams == r.conn.streams[id := t.stream]
    requires forall i | 0 <= i < |r.closed| :: r.closed[i].0 != id
    requires t.closed.Some? ==> Justified(t.closed.value, t.stream)
    requires q.closed == match t.closed case None => r.closed case Some(why) => r.closed + [(id, why)]
    ensures ClosedOk(q) && |r.closed| <= |q.closed|
    ensures forall i | 0 <= i < |q.closed| :: q.closed[i].0 == id || (i < |r.closed| && q.closed[i] == r.closed[i])
  {
    hide Justified;
  }

  lemma {:induction false} ScanKeeps(c: Conn, order: seq<uint32>, pass: Pass)
    requires Inv(c) && Shaped(c)
    requires forall i | 0 <= i < |order| :: order[i] in c.streams
    requires forall i, j | 0 <= i < j < |order| :: order[i] < order[j]
    ensures var r := Scan(c, order, pass);
            && Inv(r.conn) && ClosedOk(r)
            && forall i | 0 <= i < |r.closed| :: Listed(order, r.closed[i].0)
  {
    hide Inv, ScanOne;
    if order != [] {
      hide ClosedOk, Listed;
      var init, last := order[..|order| - 1], order[|order| - 1];
      ScanKeeps(c, init, pass);
      var r := Scan(c, init, pass);
      assert Scan(c, order, pass) == ScanOne(r, last, pass);
      forall i | 0 <= i < |r.closed| ensures r.closed[i].0 != last && Listed(order, r.closed[i].0) {
        ListedBefore(order, r.closed[i].0);
      }
      ListedLast(order);
      ScanOneKeeps(r, last, pass);
    }
  }

  lemma ListedBefore(order: seq<uint32>, id: uint32)
    requires order != [] && Listed(order[..|order| - 1], id)
    requires forall i, j | 0 <= i < j < |order| :: order[i] < order[j]
    ensures Listed(order, id) && id != order[|order| - 1]
  {
    var k :| 0 <= k < |order| - 1 && order[..|order| - 1][k] == id;
    assert order[k] == id;
  }

  lemma ListedLast(order: seq<uint32>)
    requires order != []
    ensures Listed(order, order[|order| - 1])
  {
  }

  ghost predicate Listed(order: seq<uint32>, id: uint32)
  {
    exists k | 0 <= k < |order| :: order[k] == id
  }

  /** Removing a stream for a reason that holds keeps the invariant. */
  lemma CloseOneKeeps(c: Conn, id: uint32, why: Reason)
    requires Inv(c) && id in c.streams && Justified(why, c.streams[id])
    ensures Inv(CloseOne(c, id, why))
  {
    hide LiveOk, DeadOk, Books, Tab, PostAll, NoteAll, Queued, Size, Accounts, Ordered, DistinctPeers, Bounds;
    var d := CloseOne(c, id, why);
    var es, os := [Removed(id, why)], [Final(Packet(CLSE, id, c.streams[id].remote, []))];
    LiveAccount(c, id);
    RemovedDead(c.max, id, why, c.streams[id], Books(c.log, id), Tab(c.out, id), es, os);
    AccountsAfter(c, id, es, os);
    GoneAccount(c, d, id);
    GoneBounds(c, d, id);
    GonePeer(c, d, id);
    FinalsZero(c, id);
    OrderedAppend(c.out, os, id);
  }

  lemma GoneAccount(c: Conn, d: Conn, id: uint32)
    requires Accounts(c) && id in c.streams
    requires d.streams == c.streams - {id} && d.next == c.next && d.max == c.max
    requires forall j: uint32 | j != id :: Books(d.log, j) == Books(c.log, j) && Tab(d.out, j) == Tab(c.out, j)
    requires DeadOk(Books(d.log, id), Tab(d.out, id), c.max)
    ensures Accounts(d)
  {
    hide LiveOk, DeadOk, Books, Tab;
  }

  lemma GoneBounds(c: Conn, d: Conn, id: uint32)
    requires Bounds(c) && id in c.streams && id < c.next
    requires d.streams == c.streams - {id} && d.next == c.next && d.max == c.max
    ensures Bounds(d)
  {
    hide Queued, Size;
    assert d.streams.Keys == c.streams.Keys - {id};
    QueuedChange(c.streams, d.streams, id, c.next);
  }

  lemma GonePeer(c: Conn, d: Conn, id: uint32)
    requires DistinctPeers(c) && id in c.streams
    requires d.streams == c.streams - {id}
    requires forall j: uint32 | j != id :: Tab(d.out, j) == Tab(c.out, j)
    ensures DistinctPeers(d)
  {
    hide Tab;
  }

  lemma FinalsZero(c: Conn, id: uint32)
    requires Inv(c) && id in c.streams
    ensures Tab(c.out, id).finals == 0
  {
    LiveAccount(c, id);
  }

  lemma RemovedDead(max: nat, id: uint32, why: Reason, s: StreamState, l: Ledger, w: Wire, es: seq<Event>,
                    os: seq<Output>)
    requires LiveOk(s, l, w, max) && Justified(why, s)
    requires es == [Removed(id, why)] && |os| == 1 && os[0].Final?
    requires os[0].packet.arg0 == id && os[0].packet.arg1 == s.remote
    ensures DeadOk(PostAll(l, es, id), NoteAll(w, os, id), max)
  {
    PostOne(l, es[0], id);
    assert os == [] + [os[0]];
    NoteMore(w, [], os[0], id);
    if s.pending == [] {
      assert l.delivered + [] == l.delivered;
    }
  }

  lemma {:induction false} CloseAllKeeps(r: Scanned, n: nat)
    requires Inv(r.conn) && ClosedOk(r) && n <= |r.closed|
    ensures var d := CloseAll(r.conn, r.closed[..n]);
            && Inv(d)
            && forall k | n <= k < |r.closed| ::
                 r.closed[k].0 in d.streams && d.streams[r.closed[k].0] == r.conn.streams[r.closed[k].0]
  {
    hide Inv, Justified;
    if n != 0 {
      CloseAllKeeps(r, n - 1);
      assert r.closed[..n][..n - 1] == r.closed[..n - 1];
      var d := CloseAll(r.conn, r.closed[..n - 1]);
      CloseOneKeeps(d, r.closed[n - 1].0, r.closed[n - 1].1);
    }
  }

  /** A scan of the whole table, in the order of the table. */
  lemma FullScanKeeps(c: Conn, pass: Pass) returns (r: Scanned)
    requires Inv(c) && Shaped(c)
    ensures var order := Ids(c.streams.Keys, c.next);
            && (forall i | 0 <= i < |order| :: order[i] in c.streams)
            && r == Scan(c, order, pass)
    ensures Inv(r.conn) && ClosedOk(r)
  {
    hide Inv, ClosedOk, Scan, Ids;
    IdsAreKeys(c.streams.Keys, c.next);
    var order := Ids(c.streams.Keys, c.next);
    assert forall i | 0 <= i < |order| :: order[i] in c.streams.Keys;
    ScanKeeps(c, order, pass);
    r := Scan(c, order, pass);
  }

  lemma ServeKeeps(c: Conn, pass: Pass)
    requires Inv(c) && Shaped(c) && Serve(c, pass).Ok?
    ensures Inv(Serve(c, pass).value.0)
  {
    hide Inv, ClosedOk, Scan, Ids, CloseAll, Shaped;
    var r := FullScanKeeps(c, pass);
    CloseAllKeeps(r, |r.closed|);
    assert r.closed[..|r.closed|] == r.closed;
  }

  lemma {:induction false} AcceptKeeps(c: Conn, incoming: seq<Incoming>, now: nat, tlsOk: bool)
    requires Inv(c) && AcceptAll(c, incoming, now, tlsOk).Ok?
    ensures Inv(AcceptAll(c, incoming, now, tlsOk).value)
    decreases |incoming|
  {
    hide Inv, Uses, Books, Tab;
    if incoming != [] && |c.streams| < MAX_STREAMS {
      var i := incoming[0];
      assert c.log + [] == c.log;
      NewStreamKeeps(c, NewStream(0, i.source, Some(now)), [], Sent(Packet(OPEN, c.next, 0, i.target + [0])));
      AcceptKeeps(AcceptOne(c, i, now, tlsOk).value, incoming[1..], now, tlsOk);
    }
  }
}
