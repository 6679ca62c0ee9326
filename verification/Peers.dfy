/** Which connections the worker lists, and under which host, told from the calls they made; and what the main loop does
    with connections. */
module Peers {
  import opened Wrappers
  import opened Documents
  import Store
  import opened Supervisor
  import opened Worker
  import opened System
  import opened SystemInvariant
  import opened SystemTheorems
  import opened Stranded
  import Reading

  // ---------------------------------------------------------------------------------------------
  // The peer table

  /** The connection's authentication has entered its host, and has not failed. */
  ghost predicate Entered(calls: map<nat, Call>, t: nat, f: string)
  {
    exists k: nat ::
      && k in calls && calls[k].request == Authenticated(t, f)
      && calls[k].phase != Begun && calls[k].phase != Returned(None)
  }

  /** The connection has begun to say that it is gone. */
  ghost predicate Parted(calls: map<nat, Call>, t: nat)
  {
    exists k: nat :: k in calls && calls[k].request == Disconnected(t) && calls[k].phase != Begun
  }

  ghost predicate Exact(n: Net)
  {
    forall t, f :: (t in n.peers && n.peers[t] == f) <==> Entered(n.calls, t, f) && !Parted(n.calls, t)
  }

  /** The same requests, and the same of them begun and failed. */
  ghost predicate SameStanding(a: map<nat, Call>, b: map<nat, Call>)
  {
    && a.Keys <= b.Keys
    && (forall k | k in a ::
          && b[k].request == a[k].request && (b[k].phase == Begun <==> a[k].phase == Begun)
          && (b[k].phase == Returned(None) <==> a[k].phase == Returned(None)))
    && forall k | k in b && k !in a :: b[k].phase == Begun
  }

  lemma StandingKeeps(n: Net, m: Net)
    requires Exact(n) && SameStanding(n.calls, m.calls) && m.peers == n.peers
    ensures Exact(m)
  {
    forall t, f
      ensures Entered(m.calls, t, f) <==> Entered(n.calls, t, f)
      ensures Parted(m.calls, t) <==> Parted(n.calls, t)
    {
      SameEntries(n.calls, m.calls, t, f);
    }
    hide Entered, Parted, SameStanding;
  }

  lemma SameEntries(a: map<nat, Call>, b: map<nat, Call>, t: nat, f: string)
    requires SameStanding(a, b)
    ensures Entered(b, t, f) <==> Entered(a, t, f)
    ensures Parted(b, t) <==> Parted(a, t)
  {
    if Entered(a, t, f) {
      var k: nat :| k in a && a[k].request == Authenticated(t, f) && a[k].phase != Begun
                    && a[k].phase != Returned(None);
      assert k in b;
    }
    if Parted(a, t) {
      var k: nat :| k in a && a[k].request == Disconnected(t) && a[k].phase != Begun;
      assert k in b;
    }
  }

  /** What changes when one call takes a step that enters or leaves the table. */
  lemma EntryMoves(a: map<nat, Call>, b: map<nat, Call>, k: nat, q: Phase, t: nat, f: string)
    requires k in a && b == a[k := a[k].(phase := q)]
    requires forall j: nat | Admits(a, j, t) && Admits(a, k, t) :: j == k
    ensures Entered(b, t, f) <==>
            if a[k].request == Authenticated(t, f) then q != Begun && q != Returned(None) else Entered(a, t, f)
  {
    if a[k].request == Authenticated(t, f) {
      assert b[k].phase == q && b[k].request == Authenticated(t, f);
      assert Admits(a, k, t);
      forall j: nat | j in a && a[j].request == Authenticated(t, f)
        ensures j == k
      {
        assert Admits(a, j, t);
      }
    } else if Entered(a, t, f) {
      var j: nat :| j in a && a[j].request == Authenticated(t, f) && a[j].phase != Begun
                    && a[j].phase != Returned(None);
      assert b[j] == a[j];
    }
  }

  lemma PartMoves(a: map<nat, Call>, b: map<nat, Call>, k: nat, q: Phase, t: nat)
    requires k in a && b == a[k := a[k].(phase := q)]
    requires forall j: nat | Leaves(a, j, t) && Leaves(a, k, t) :: j == k
    ensures Parted(b, t) <==> if a[k].request == Disconnected(t) then q != Begun else Parted(a, t)
  {
    if a[k].request == Disconnected(t) {
      assert b[k].phase == q && b[k].request == Disconnected(t);
      assert Leaves(a, k, t);
      forall j: nat | j in a && a[j].request == Disconnected(t)
        ensures j == k
      {
        assert Leaves(a, j, t);
      }
    } else if Parted(a, t) {
      var j: nat :| j in a && a[j].request == Disconnected(t) && a[j].phase != Begun;
      assert b[j] == a[j];
    }
  }

  /** What the step of one call makes of the table, given how its request stands before and after. */
  ghost predicate Follows(peers: map<nat, string>, now: map<nat, string>, r: Request, p: Phase, q: Phase)
  {
    match r
    case Authenticated(t, f) =>
      now == if p == Begun && q != Begun then peers[t := f]
             else if p != Returned(None) && q == Returned(None) then peers - {t} else peers
    case Disconnected(t) => now == if p == Begun && q != Begun then peers - {t} else peers
    case _ => now == peers
  }

  lemma StepFollows(n: Net, c: CallStep)
    requires Proceed(n, c).Some?
    ensures var m := Proceed(n, c).value.0;
            && c.k in n.calls && m.calls == n.calls[c.k := n.calls[c.k].(phase := m.calls[c.k].phase)]
            && Follows(n.peers, m.peers, n.calls[c.k].request, n.calls[c.k].phase, m.calls[c.k].phase)
            && m.calls[c.k].phase != Begun
            && (n.calls[c.k].phase == Begun ==> m.calls[c.k].phase == Listed)
            && !n.calls[c.k].phase.Returned?
  {
  }

  lemma MoveKeepsExact(n: Net, m: Net, k: nat, q: Phase)
    requires Exact(n) && PresenceOk(n.calls, n.connections, n.next) && k in n.calls
    requires m.calls == n.calls[k := n.calls[k].(phase := q)]
    requires Follows(n.peers, m.peers, n.calls[k].request, n.calls[k].phase, q)
    requires q != Begun && !n.calls[k].phase.Returned? && (n.calls[k].phase == Begun ==> q == Listed)
    ensures Exact(m)
  {
    forall t, f
      ensures (t in m.peers && m.peers[t] == f) <==> Entered(m.calls, t, f) && !Parted(m.calls, t)
    {
      MoveKeepsEntry(n, m, k, q, t, f);
    }
  }

  lemma MoveKeepsEntry(n: Net, m: Net, k: nat, q: Phase, t: nat, f: string)
    requires Exact(n) && PresenceOk(n.calls, n.connections, n.next) && k in n.calls
    requires m.calls == n.calls[k := n.calls[k].(phase := q)]
    requires Follows(n.peers, m.peers, n.calls[k].request, n.calls[k].phase, q)
    requires q != Begun && !n.calls[k].phase.Returned? && (n.calls[k].phase == Begun ==> q == Listed)
    ensures (t in m.peers && m.peers[t] == f) <==> Entered(m.calls, t, f) && !Parted(m.calls, t)
  {
    hide ThreadOk, Parted, Entered;
    EntryMoves(n.calls, m.calls, k, q, t, f);
    PartMoves(n.calls, m.calls, k, q, t);
    assert (t in n.peers && n.peers[t] == f) <==> Entered(n.calls, t, f) && !Parted(n.calls, t);
    var r := n.calls[k].request;
    match r
    case Authenticated(u, g) =>
      if u == t {
        AskedOnce(n, k, t, g, f);
      }
    case Disconnected(u) =>
      if u == t && n.calls[k].phase != Begun {
        PartsAt(n.calls, k, t);
      }
    case _ =>
  }

  lemma PartsBy(calls: map<nat, Call>, t: nat)
    requires Parted(calls, t)
    ensures exists j: nat :: Leaves(calls, j, t)
  {
    var j: nat :| j in calls && calls[j].request == Disconnected(t) && calls[j].phase != Begun;
    assert Leaves(calls, j, t);
  }

  lemma PartsAt(calls: map<nat, Call>, k: nat, t: nat)
    requires k in calls && calls[k].request == Disconnected(t) && calls[k].phase != Begun
    ensures Parted(calls, t)
  {
  }

  /** While its authentication has not returned, a connection has not parted, and is entered under no other host. */
  lemma AskedOnce(n: Net, k: nat, t: nat, g: string, f: string)
    requires Exact(n) && PresenceOk(n.calls, n.connections, n.next) && k in n.calls
    requires n.calls[k].request == Authenticated(t, g) && !n.calls[k].phase.Returned?
    ensures !Parted(n.calls, t) && (Entered(n.calls, t, f) ==> f == g)
    ensures Entered(n.calls, t, g) <==> n.calls[k].phase != Begun
  {
    hide ThreadOk;
    assert Admits(n.calls, k, t);
    if Parted(n.calls, t) {
      PartsBy(n.calls, t);
    }
    if Entered(n.calls, t, f) {
      var j: nat :| j in n.calls && n.calls[j].request == Authenticated(t, f) && n.calls[j].phase != Begun
                    && n.calls[j].phase != Returned(None);
      assert Admits(n.calls, j, t);
    }
    if Entered(n.calls, t, g) {
      var j: nat :| j in n.calls && n.calls[j].request == Authenticated(t, g) && n.calls[j].phase != Begun
                    && n.calls[j].phase != Returned(None);
      assert Admits(n.calls, j, t);
    }
  }

  lemma CallExact(n: Net, c: CallStep)
    requires Exact(n) && PresenceOk(n.calls, n.connections, n.next) && Proceed(n, c).Some?
    ensures Exact(Proceed(n, c).value.0)
  {
    hide Exact, PresenceOk, Proceed, Follows;
    StepFollows(n, c);
    MoveKeepsExact(n, Proceed(n, c).value.0, c.k, Proceed(n, c).value.0.calls[c.k].phase);
  }

  lemma ReceiveExact(n: Net, m: Message)
    requires Exact(n)
    ensures Exact(Receive(n, m))
  {
    hide Exact, SameStanding;
    ReceiveStanding(n, m);
    StandingKeeps(n, Receive(n, m));
  }

  lemma ReceiveStanding(n: Net, m: Message)
    ensures SameStanding(n.calls, Receive(n, m).calls) && Receive(n, m).peers == n.peers
  {
    hide Receive;
    Reading.MailboxChanges(n, m);
  }

  lemma BeginStanding(n: Net, r: Request, o: Owner)
    requires Numbered(n)
    ensures SameStanding(n.calls, Begin(n, r, o).calls) && SameStanding(n.calls, n.calls)
  {
  }

  lemma LoopExact(n: Net, l: LoopStep)
    requires Exact(n) && LoopProceeds(n, l).Some?
    ensures Exact(LoopProceeds(n, l).value)
  {
    hide Exact;
    StandingKeeps(n, LoopProceeds(n, l).value);
  }

  lemma ConnExact(n: Net, id: nat, c: ConnStep)
    requires Exact(n) && Numbered(n) && ConnProceeds(n, id, c).Some?
    ensures Exact(ConnProceeds(n, id, c).value)
  {
    hide Exact, Knows, Got, Askable;
    StandingKeeps(n, ConnProceeds(n, id, c).value);
  }

  lemma BeginPeers(n: Net)
    ensures forall r, o :: Begin(n, r, o).peers == n.peers
  {
  }

  lemma PairExact(n: Net, id: nat, c: PairStep, fp: Fingerprinter)
    requires Exact(n) && Numbered(n) && PairProceeds(n, id, c, fp).Some?
    ensures Exact(PairProceeds(n, id, c, fp).value)
  {
    hide Exact, HostKey, Got, SameStanding, Begin, Numbered;
    var epoch := n.clients[id].epoch;
    BeginStanding(n, PairResult(epoch, None), Pairing(id));
    if c.Read? {
      BeginStanding(n, PairResult(epoch, Some(c.key)), Pairing(id));
    }
    BeginPeers(n);
    StandingKeeps(n, PairProceeds(n, id, c, fp).value);
  }

  lemma NewExact()
    ensures Exact(NewNet())
  {
  }

  lemma NextExact(s: System, a: Action, fp: Fingerprinter)
    requires Next(s, a, fp).Some? && (s.net.Some? ==> Exact(s.net.value))
    requires s.net.Some? ==> Numbered(s.net.value)
                             && PresenceOk(s.net.value.calls, s.net.value.connections, s.net.value.next)
    ensures var u := Next(s, a, fp).value; u.net.Some? ==> Exact(u.net.value)
  {
    hide Exact, Numbered, PresenceOk, Advance, Receive, LoopProceeds, Proceed, ConnProceeds, PairProceeds, StillMissed;
    NewExact();
    if !a.Super? {
      var n := s.net.value;
      match a
      case Receives => ReceiveExact(n, s.sup.worker.value.inbox[0]);
      case Loops(l) => LoopExact(n, l);
      case Calls(c) => CallExact(n, c);
      case Connects(id, c) => ConnExact(n, id, c);
      case Pairs(id, c) => PairExact(n, id, c, fp);
    }
  }

  /** In every run, the worker lists a connection under a host exactly while its authentication as that host has begun
      and not failed, and it has not begun to say that it is gone. */
  lemma {:induction false} ListedExactlyWhen(store: Store.StoreState, actions: seq<Action>, fp: Fingerprinter)
    requires Store.Trusted(store, fp) && Run(Start(store), actions, fp).Some?
    ensures var s := Run(Start(store), actions, fp).value; s.net.Some? ==> Exact(s.net.value)
  {
    hide Start, Exact, Next, Numbered, PresenceOk, Store.Trusted;
    if actions == [] {
      Reading.NoWorker(store);
    } else {
      var init := actions[..|actions| - 1];
      ListedExactlyWhen(store, init, fp);
      assert var s := Run(Start(store), init, fp).value;
        s.net.Some? ==> Numbered(s.net.value)
                        && PresenceOk(s.net.value.calls, s.net.value.connections, s.net.value.next) by {
        hide Run;
        ReachedKept(store, init, fp);
        if Run(Start(store), init, fp).value.net.Some? {
          SoundNumbers(Run(Start(store), init, fp).value, fp);
        }
      }
      NextExact(Run(Start(store), init, fp).value, actions[|actions| - 1], fp);
    }
  }

  lemma SoundNumbers(s: System, fp: Fingerprinter)
    requires Sound(s, fp) && s.net.Some?
    ensures Numbered(s.net.value)
  {
  }

  // ---------------------------------------------------------------------------------------------
  // The main loop

  lemma NextIsUnused(n: Net)
    requires Numbered(n) && PresenceOk(n.calls, n.connections, n.next)
    ensures n.next !in n.connections
    ensures forall k: nat :: !Admits(n.calls, k, n.next) && !Leaves(n.calls, k, n.next)
  {
    hide ThreadOk, Admits, Leaves;
  }

  lemma KeptPresence(s: System)
    requires Kept(s) && s.net.Some?
    ensures PresenceOk(s.net.value.calls, s.net.value.connections, s.net.value.next)
  {
    hide PresenceOk, Explained, HeardOut;
  }

  /** A connection is accepted exactly while the worker is in its loop with fewer than eight; it is one more, and its
      number was not used before. */
  lemma AcceptedExactlyWhen(store: Store.StoreState, actions: seq<Action>, fp: Fingerprinter)
    requires Store.Trusted(store, fp) && Run(Start(store), actions, fp).Some?
    requires CanAct(Run(Start(store), actions, fp).value, Loops(Accept))
    ensures var s := Run(Start(store), actions, fp).value; var next := Next(s, Loops(Accept), fp);
            && (next.Some? <==> |s.net.value.connections| < 8)
            && (next.Some? ==>
                  var n := s.net.value; var m := next.value.net.value;
                  && n.next !in n.connections && m.connections.Keys == n.connections.Keys + {n.next}
                  && (forall t | t in n.connections :: m.connections[t] == n.connections[t])
                  && forall k: nat :: !Admits(n.calls, k, n.next) && !Leaves(n.calls, k, n.next))
  {
    hide Run, Start, Store.Trusted, Sound, Kept, PresenceOk, Numbered, Admits, Leaves;
    ReachedKept(store, actions, fp);
    var s := Run(Start(store), actions, fp).value;
    SoundNumbers(s, fp);
    KeptPresence(s);
    NextIsUnused(s.net.value);
  }

  /** The loop forgets exactly the connections whose threads have ended, and stops, one at a time, only such as are not
      listed. */
  lemma FinishedAreForgottenUnlistedStopped(n: Net, id: nat)
    ensures LoopProceeds(n, Reap).Some?
    ensures LoopProceeds(n, GiveUp(id)).Some? <==> id in n.connections && id !in n.peers
    ensures var m := LoopProceeds(n, Reap).value;
            && m == n.(connections := m.connections)
            && forall t :: (t in m.connections <==> t in n.connections && n.connections[t].thread != Finished)
                           && (t in m.connections ==> m.connections[t] == n.connections[t])
    ensures LoopProceeds(n, GiveUp(id)).Some? ==>
              var m := LoopProceeds(n, GiveUp(id)).value;
              && m == n.(connections := m.connections) && m.connections.Keys == n.connections.Keys
              && forall t | t in n.connections ::
                   m.connections[t] == if t == id then n.connections[t].(cancelled := true) else n.connections[t]
  {
  }

  // ---------------------------------------------------------------------------------------------
  // Pairing clients

  /** The clients of the present worker that were sent the device's information whole. */
  ghost function Confirmed(s: System, actions: seq<Action>, fp: Fingerprinter): set<nat>
  {
    if actions == [] then {}
    else
      var init, a := actions[..|actions| - 1], actions[|actions| - 1];
      match Run(s, init, fp)
      case None => {}
      case Some(b) =>
        match Next(b, a, fp)
        case None => {}
        case Some(u) =>
          if Child(u.sup) != Child(b.sup) then {}
          else Confirmed(s, init, fp) + if a.Pairs? && a.pair == Confirm(true) then {a.id} else {}
  }

  /** This call reports a failure of this client. */
  predicate Reports(calls: map<nat, Call>, k: nat, p: nat, epoch: nat)
  {
    k in calls && calls[k].request == PairResult(epoch, None) && calls[k].owner == Pairing(p)
  }

  /** A client whose exchange is over was confirmed, or its failure was reported and the report has returned. */
  ghost predicate Accounted(client: Client, p: nat, calls: map<nat, Call>, confirmed: bool)
  {
    match client.thread
    case Reporting(k) => Reports(calls, k, p, client.epoch)
    case Over => confirmed || exists k: nat :: Reports(calls, k, p, client.epoch) && calls[k].phase.Returned?
    case _ => true
  }

  ghost predicate AllAccounted(clients: map<nat, Client>, calls: map<nat, Call>, confirmed: set<nat>)
  {
    forall p | p in clients :: Accounted(clients[p], p, calls, p in confirmed)
  }

  /** Calls keep their request and owner, and what has returned stays returned. */
  ghost predicate Lasting(a: map<nat, Call>, b: map<nat, Call>)
  {
    forall k | k in a ::
      && k in b && b[k].request == a[k].request && b[k].owner == a[k].owner
      && (a[k].phase.Returned? ==> b[k].phase.Returned?)
  }

  lemma LastingAccounts(client: Client, p: nat, a: map<nat, Call>, b: map<nat, Call>, before: bool, after: bool)
    requires Accounted(client, p, a, before) && Lasting(a, b) && (before ==> after)
    ensures Accounted(client, p, b, after)
  {
    if client.thread.Over? && !before {
      var k: nat :| Reports(a, k, p, client.epoch) && a[k].phase.Returned?;
      assert Reports(b, k, p, client.epoch);
    }
  }

  lemma LastingKeeps(clients: map<nat, Client>, a: map<nat, Call>, b: map<nat, Call>, before: set<nat>,
                     after: set<nat>)
    requires AllAccounted(clients, a, before) && Lasting(a, b) && before <= after
    ensures AllAccounted(clients, b, after)
  {
    forall p | p in clients
      ensures Accounted(clients[p], p, b, p in after)
    {
      LastingAccounts(clients[p], p, a, b, p in before, p in after);
    }
  }

  lemma OneKeeps(clients: map<nat, Client>, p: nat, client: Client, calls: map<nat, Call>, confirmed: set<nat>)
    requires AllAccounted(clients, calls, confirmed) && Accounted(client, p, calls, p in confirmed)
    ensures AllAccounted(clients[p := client], calls, confirmed)
  {
    hide Accounted;
  }

  lemma CallLasts(n: Net, c: CallStep)
    requires Proceed(n, c).Some?
    ensures var m := Proceed(n, c).value.0; Lasting(n.calls, m.calls) && m.clients == n.clients
  {
    StepFollows(n, c);
  }

  lemma ReceiveLasts(n: Net, m: Message)
    ensures Lasting(n.calls, Receive(n, m).calls) && Receive(n, m).clients == n.clients
  {
    hide Receive;
    Reading.MailboxChanges(n, m);
    Reading.ReceiveKeepsClients(n, m);
  }

  lemma ConnLasts(n: Net, id: nat, c: ConnStep)
    requires Numbered(n) && ConnProceeds(n, id, c).Some?
    ensures var m := ConnProceeds(n, id, c).value; Lasting(n.calls, m.calls) && m.clients == n.clients
  {
    hide Knows, Got, Askable;
  }

  lemma BeginLasts(n: Net, r: Request, o: Owner)
    requires Numbered(n)
    ensures var m := Begin(n, r, o);
            && Lasting(n.calls, m.calls) && m.clients == n.clients
            && n.nextCall in m.calls && m.calls[n.nextCall].request == r && m.calls[n.nextCall].owner == o
    ensures Lasting(n.calls, n.calls)
  {
  }

  lemma LoopAccounts(n: Net, l: LoopStep, confirmed: set<nat>)
    requires AllAccounted(n.clients, n.calls, confirmed) && LoopProceeds(n, l).Some?
    ensures AllAccounted(LoopProceeds(n, l).value.clients, n.calls, confirmed)
    ensures LoopProceeds(n, l).value.calls == n.calls
  {
  }

  lemma PairAccounts(n: Net, id: nat, c: PairStep, confirmed: set<nat>, fp: Fingerprinter)
    requires AllAccounted(n.clients, n.calls, confirmed) && Numbered(n) && PairProceeds(n, id, c, fp).Some?
    ensures var m := PairProceeds(n, id, c, fp).value;
            AllAccounted(m.clients, m.calls, confirmed + if c == Confirm(true) then {id} else {})
  {
    hide HostKey, Begin, AllAccounted, Lasting, Numbered;
    var client := n.clients[id];
    var m := PairProceeds(n, id, c, fp).value;
    var after := confirmed + if c == Confirm(true) then {id} else {};
    BeginLasts(n, PairResult(client.epoch, None), Pairing(id));
    if c.Read? {
      BeginLasts(n, PairResult(client.epoch, Some(c.key)), Pairing(id));
    }
    LastingKeeps(n.clients, n.calls, m.calls, confirmed, after);
    assert Accounted(client, id, n.calls, id in confirmed) by { AccountOf(n.clients, n.calls, confirmed, id); }
    if c.Close? {
      ClosedAccounts(n, id, client.thread.call);
    }
    OneKeeps(n.clients, id, m.clients[id], m.calls, after);
  }

  lemma AccountOf(clients: map<nat, Client>, calls: map<nat, Call>, confirmed: set<nat>, p: nat)
    requires AllAccounted(clients, calls, confirmed) && p in clients
    ensures Accounted(clients[p], p, calls, p in confirmed)
  {
  }

  lemma ClosedAccounts(n: Net, id: nat, k: nat)
    requires id in n.clients && n.clients[id].thread == Reporting(k)
    requires Reports(n.calls, k, id, n.clients[id].epoch) && n.calls[k].phase.Returned?
    ensures Accounted(n.clients[id].(thread := Over), id, n.calls, false)
  {
  }

  lemma NextAccounts(s: System, a: Action, confirmed: set<nat>, fp: Fingerprinter)
    requires Next(s, a, fp).Some? && s.net.Some? && Numbered(s.net.value)
    requires AllAccounted(s.net.value.clients, s.net.value.calls, confirmed)
    requires Child(Next(s, a, fp).value.sup) == Child(s.sup)
    ensures var u := Next(s, a, fp).value;
            u.net.Some? ==>
              AllAccounted(u.net.value.clients, u.net.value.calls,
                           confirmed + if a.Pairs? && a.pair == Confirm(true) then {a.id} else {})
  {
    hide Numbered, Advance, Receive, LoopProceeds, Proceed, ConnProceeds, PairProceeds, StillMissed, AllAccounted,
      Lasting;
    var n := s.net.value;
    assert confirmed + {} == confirmed;
    match a
    case Super(_) =>
    case Receives =>
      var m := s.sup.worker.value.inbox[0];
      ReceiveLasts(n, m);
      LastingKeeps(n.clients, n.calls, Receive(n, m).calls, confirmed, confirmed);
    case Loops(l) => LoopAccounts(n, l, confirmed);
    case Calls(c) =>
      CallLasts(n, c);
      LastingKeeps(n.clients, n.calls, Proceed(n, c).value.0.calls, confirmed, confirmed);
    case Connects(id, c) =>
      ConnLasts(n, id, c);
      LastingKeeps(n.clients, n.calls, ConnProceeds(n, id, c).value.calls, confirmed, confirmed);
    case Pairs(id, c) => PairAccounts(n, id, c, confirmed, fp);
  }

  /** In every run, a pairing client whose exchange is over was sent the device's information whole, or its failure was
      reported to the supervisor under its epoch: no attempt goes uncounted. */
  lemma {:induction false} FailuresAreReported(store: Store.StoreState, actions: seq<Action>, fp: Fingerprinter)
    requires Store.Trusted(store, fp) && Run(Start(store), actions, fp).Some?
    ensures var s := Run(Start(store), actions, fp).value;
            s.net.Some? ==>
              AllAccounted(s.net.value.clients, s.net.value.calls, Confirmed(Start(store), actions, fp))
  {
    hide Start, Next, AllAccounted, Store.Trusted, Numbered, Sound, Kept;
    if actions == [] {
      Reading.NoWorker(store);
    } else {
      var init, a := actions[..|actions| - 1], actions[|actions| - 1];
      FailuresAreReported(store, init, fp);
      var b := Run(Start(store), init, fp).value;
      assert Sound(b, fp) by {
        hide Run;
        ReachedKept(store, init, fp);
      }
      if Child(Next(b, a, fp).value.sup) != Child(b.sup) {
        NobodyYet(b, a, fp);
      } else {
        SameNet(b, a, fp);
        if b.net.Some? {
          SoundNumbers(b, fp);
          NextAccounts(b, a, Confirmed(Start(store), init, fp), fp);
        }
      }
    }
  }

  /** Another worker begins without clients. */
  lemma NobodyYet(b: System, a: Action, fp: Fingerprinter)
    requires Next(b, a, fp).Some? && Child(Next(b, a, fp).value.sup) != Child(b.sup)
    ensures var u := Next(b, a, fp).value;
            u.net.Some? ==> forall confirmed :: AllAccounted(u.net.value.clients, u.net.value.calls, confirmed)
  {
    hide Advance, Receive, LoopProceeds, Proceed, ConnProceeds, PairProceeds, StillMissed;
  }

  lemma SameNet(b: System, a: Action, fp: Fingerprinter)
    requires Next(b, a, fp).Some? && Child(Next(b, a, fp).value.sup) == Child(b.sup)
    ensures Next(b, a, fp).value.net.Some? ==> b.net.Some?
  {
    hide Advance, Receive, LoopProceeds, Proceed, ConnProceeds, PairProceeds, StillMissed;
  }
}
