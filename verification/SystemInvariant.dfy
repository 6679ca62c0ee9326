/** Every step of supervisor and worker keeps the invariant of the whole. */
module SystemInvariant {
  import opened Wrappers
  import opened Documents
  import Store
  import opened Supervisor
  import opened Worker
  import opened System
  import opened SupervisorInvariant
  import SupervisorTheorems

  // ---------------------------------------------------------------------------------------------
  // Calls

  /** A step a call may take: it never becomes unsent, and a result is the ruling's. */
  ghost predicate Moves(k: nat, c: Call, p: Phase, rulings: map<nat, Ruling>, fp: Fingerprinter)
  {
    && !c.phase.Returned? && (WasSent(c.phase) ==> WasSent(p))
    && (ResultOf(p).Some? ==>
          k in rulings && ResultOf(p).value == Verdict(rulings[k], fp) && ResultOf(p).value != Rejected)
  }

  lemma MoveCalls(n: Net, k: nat, p: Phase, pending: set<nat>, rulings: map<nat, Ruling>, fp: Fingerprinter)
    requires CallsOk(n.calls, n.nextCall, n.pending, rulings, fp)
    requires k in n.calls && Moves(k, n.calls[k], p, rulings, fp)
    requires (forall j | j in pending :: j in n.pending || j == k) && (k in pending ==> Outstanding(p))
    ensures CallsOk(Move(n, k, p).calls, n.nextCall, pending, rulings, fp)
  {
    hide Verdict;
  }

  lemma MoveQueues(n: Net, k: nat, p: Phase, upstream: seq<Message>, inbox: seq<Message>, rulings: map<nat, Ruling>,
                   fp: Fingerprinter)
    requires k in n.calls && Moves(k, n.calls[k], p, rulings, fp)
    requires UpstreamOk(upstream, n.calls, rulings) && InboxOk(inbox, n.calls, rulings, fp)
    ensures UpstreamOk(upstream, Move(n, k, p).calls, rulings) && InboxOk(inbox, Move(n, k, p).calls, rulings, fp)
  {
    hide Verdict;
  }

  lemma MoveOwners(n: Net, k: nat, p: Phase)
    requires k in n.calls && !n.calls[k].phase.Returned? && OwnersOk(n.calls, n.connections, n.next)
    ensures OwnersOk(Move(n, k, p).calls, n.connections, n.next)
  {
  }

  lemma MoveGuarded(n: Net, k: nat, p: Phase, hosts: seq<Host>, inbox: seq<Message>, rulings: map<nat, Ruling>,
                    missed: set<string>, fp: Fingerprinter)
    requires k in n.calls && Moves(k, n.calls[k], p, rulings, fp) && CallOk(k, n.calls[k], rulings, fp)
    requires p.Sent? ==> !WasSent(n.calls[k].phase)
    requires ResultOf(p).Some? ==> n.calls[k].phase.Sent? || ResultOf(n.calls[k].phase).Some?
    requires Guarded(n.calls, n.connections, rulings, hosts, inbox, missed, fp)
    ensures Guarded(Move(n, k, p).calls, n.connections, rulings, hosts, inbox, missed, fp)
  {
    hide Verdict, Covered;
    var calls := Move(n, k, p).calls;
    forall t | t in n.connections && AdmittedAs(n.connections[t].thread, calls, rulings, fp).Some?
      ensures AdmittedAs(n.connections[t].thread, n.calls, rulings, fp)
           == AdmittedAs(n.connections[t].thread, calls, rulings, fp)
    {
    }
  }

  lemma MoveClients(n: Net, k: nat, p: Phase, rulings: map<nat, Ruling>, fp: Fingerprinter)
    requires k in n.calls && ClientsOk(n.clients, n.calls, rulings, fp)
    ensures ClientsOk(n.clients, Move(n, k, p).calls, rulings, fp)
  {
    hide PairingGranted;
  }

  /** A call that stays where it was listed keeps the peer table right. */
  lemma MovePeers(n: Net, k: nat, p: Phase)
    requires k in n.calls && PeersOk(n.calls, n.connections, n.peers)
    requires (n.calls[k].phase == Begun ==> p == Begun) && n.calls[k].phase != Returned(None)
    ensures PeersOk(Move(n, k, p).calls, n.connections, n.peers)
  {
    var calls := Move(n, k, p).calls;
    forall t | t in n.connections && HostOf(n.connections[t].thread, calls).Some?
      ensures HostOf(n.connections[t].thread, n.calls) == HostOf(n.connections[t].thread, calls)
    {
    }
  }

  lemma ListingPeers(n: Net, k: nat)
    requires k in n.calls && n.calls[k].phase == Begun
    requires OwnersOk(n.calls, n.connections, n.next) && PeersOk(n.calls, n.connections, n.peers)
    ensures PeersOk(Move(n, k, Listed).calls, n.connections, ListPeer(n.peers, n.calls[k].request))
  {
    var calls, r := Move(n, k, Listed).calls, n.calls[k].request;
    var peers := ListPeer(n.peers, r);
    forall t | t in n.connections && HostOf(n.connections[t].thread, calls).Some?
      ensures t in peers && peers[t] == HostOf(n.connections[t].thread, calls).value
    {
      var thread := n.connections[t].thread;
      if Current(thread) != Some(k) {
        assert HostOf(thread, n.calls) == HostOf(thread, calls);
      }
    }
  }

  lemma ReturningPeers(n: Net, k: nat)
    requires k in n.calls && n.calls[k].phase.Cleared?
    requires OwnersOk(n.calls, n.connections, n.next) && PeersOk(n.calls, n.connections, n.peers)
    ensures var result := n.calls[k].phase.result;
            PeersOk(Move(n, k, Returned(result)).calls, n.connections, UnlistPeer(n.peers, n.calls[k].request, result))
  {
    var result, r := n.calls[k].phase.result, n.calls[k].request;
    var calls, peers := Move(n, k, Returned(result)).calls, UnlistPeer(n.peers, r, result);
    forall t | t in n.connections && HostOf(n.connections[t].thread, calls).Some?
      ensures t in peers && peers[t] == HostOf(n.connections[t].thread, calls).value
    {
      var thread := n.connections[t].thread;
      assert HostOf(thread, n.calls) == HostOf(thread, calls);
      if r.Authenticated? && t == r.transport {
        assert Current(thread) == Some(k);
      }
    }
  }

  /** The request of a call is sent once, and before anything is ruled. */
  lemma PostingUpstream(n: Net, k: nat, upstream: seq<Message>, rulings: map<nat, Ruling>, fp: Fingerprinter)
    requires k in n.calls && n.calls[k].phase.Pended? && CallOk(k, n.calls[k], rulings, fp)
    requires UpstreamOk(upstream, n.calls, rulings)
    ensures UpstreamOk(upstream + [Message.Call(k, n.calls[k].request)], Move(n, k, Sent).calls, rulings)
  {
    hide Verdict;
    var after := upstream + [Message.Call(k, n.calls[k].request)];
    forall i | 0 <= i < |upstream| && upstream[i].Call?
      ensures after[i] == upstream[i] && upstream[i].id != k
    {
    }
  }

  /** One step of a call. */
  lemma CallStepKeeps(n: Net, c: CallStep, upstream: seq<Message>, inbox: seq<Message>, rulings: map<nat, Ruling>,
                      hosts: seq<Host>, missed: set<string>, fp: Fingerprinter)
    requires NetOk(n, upstream, inbox, rulings, hosts, missed, fp) && Proceed(n, c).Some?
    ensures var (m, sent) := Proceed(n, c).value;
            NetOk(m, upstream + sent, inbox, rulings, hosts, missed, fp)
  {
    hide Verdict, CallsOk, UpstreamOk, InboxOk, OwnersOk, PeersOk, Guarded, ClientsOk, ListPeer, UnlistPeer;
    var k := c.k;
    var (m, sent) := Proceed(n, c).value;
    var p := NextPhase(n.calls[k], c).value;
    CallAt(n, k, rulings, fp);
    StepMoves(k, n.calls[k], c, rulings, fp);
    assert upstream + [] == upstream;
    MoveCalls(n, k, p, m.pending, rulings, fp);
    MoveQueues(n, k, p, upstream, inbox, rulings, fp);
    MoveOwners(n, k, p);
    MoveGuarded(n, k, p, hosts, inbox, rulings, missed, fp);
    MoveClients(n, k, p, rulings, fp);
    match c
    case List(_) => ListingPeers(n, k);
    case Pend(_) => MovePeers(n, k, p);
    case Post(_, works) =>
      MovePeers(n, k, p);
      if works {
        PostingUpstream(n, k, upstream, rulings, fp);
      }
    case Take(_) => MovePeers(n, k, p);
    case TimeOut(_) => MovePeers(n, k, p);
    case Clear(_) => MovePeers(n, k, p);
    case Return(_) => ReturningPeers(n, k);
  }

  lemma CallAt(n: Net, k: nat, rulings: map<nat, Ruling>, fp: Fingerprinter)
    requires CallsOk(n.calls, n.nextCall, n.pending, rulings, fp) && k in n.calls
    ensures CallOk(k, n.calls[k], rulings, fp)
    ensures k in n.pending ==> Outstanding(n.calls[k].phase)
  {
    hide Verdict;
  }

  lemma StepMoves(k: nat, call: Call, c: CallStep, rulings: map<nat, Ruling>, fp: Fingerprinter)
    requires CallOk(k, call, rulings, fp) && NextPhase(call, c).Some?
    ensures var p := NextPhase(call, c).value;
            && Moves(k, call, p, rulings, fp)
            && (p.Sent? ==> !WasSent(call.phase))
            && (ResultOf(p).Some? ==> call.phase.Sent? || ResultOf(call.phase).Some?)
  {
    hide Verdict;
  }

  // ---------------------------------------------------------------------------------------------
  // New calls

  lemma BeginCalls(n: Net, r: Request, o: Owner, upstream: seq<Message>, inbox: seq<Message>,
                   rulings: map<nat, Ruling>, fp: Fingerprinter)
    requires CallsOk(n.calls, n.nextCall, n.pending, rulings, fp)
    requires UpstreamOk(upstream, n.calls, rulings) && InboxOk(inbox, n.calls, rulings, fp)
    ensures var m := Begin(n, r, o);
            && n.nextCall !in n.calls && n.nextCall !in rulings
            && CallsOk(m.calls, m.nextCall, m.pending, rulings, fp)
            && UpstreamOk(upstream, m.calls, rulings) && InboxOk(inbox, m.calls, rulings, fp)
  {
    hide Verdict;
  }

  lemma BeginClients(n: Net, r: Request, o: Owner, rulings: map<nat, Ruling>, fp: Fingerprinter)
    requires ClientsOk(n.clients, n.calls, rulings, fp) && n.nextCall !in n.calls
    ensures ClientsOk(n.clients, Begin(n, r, o).calls, rulings, fp)
  {
    hide PairingGranted;
  }

  /** The facts a connection's new thread must bring. */
  ghost predicate ThreadFits(id: nat, t: Thread, calls: map<nat, Call>)
  {
    && (t.Authenticating? ==> t.call in calls && calls[t.call].request == Authenticated(id, t.fingerprint))
    && (t.Serving? && t.busy.Some? ==>
          t.busy.value in calls && !calls[t.busy.value].request.Authenticated?
          && !calls[t.busy.value].request.Disconnected?)
    && (t.Leaving? ==> t.call in calls && calls[t.call].request == Disconnected(id))
  }

  /** A thread may stop waiting only for a call that has returned. */
  ghost predicate Free(t: Thread, calls: map<nat, Call>)
  {
    Current(t).Some? && Current(t).value in calls ==> calls[Current(t).value].phase.Returned?
  }

  lemma ThreadOwners(n: Net, id: nat, t: Thread)
    requires id in n.connections && OwnersOk(n.calls, n.connections, n.next)
    requires Free(n.connections[id].thread, n.calls) && ThreadFits(id, t, n.calls)
    ensures OwnersOk(n.calls, SetThread(n, id, t).connections, n.next)
  {
  }

  lemma BeginOwners(n: Net, id: nat, r: Request, t: Thread)
    requires id in n.connections && OwnersOk(n.calls, n.connections, n.next) && n.nextCall !in n.calls
    requires Free(n.connections[id].thread, n.calls) && Current(t) == Some(n.nextCall)
    requires r.Authenticated? || r.Disconnected? ==> r.transport == id
    requires ThreadFits(id, t, Begin(n, r, Connection(id)).calls)
    ensures OwnersOk(Begin(n, r, Connection(id)).calls, SetThread(n, id, t).connections, n.next)
  {
  }

  lemma BeginFreely(n: Net, r: Request, o: Owner)
    requires OwnersOk(n.calls, n.connections, n.next) && n.nextCall !in n.calls
    requires !r.Authenticated? && !r.Disconnected?
    ensures OwnersOk(Begin(n, r, o).calls, n.connections, n.next)
  {
  }

  /** A new call changes nobody's host. */
  lemma BeginHosts(n: Net, r: Request, o: Owner, rulings: map<nat, Ruling>, hosts: seq<Host>, inbox: seq<Message>,
                   missed: set<string>, fp: Fingerprinter)
    requires OwnersOk(n.calls, n.connections, n.next) && n.nextCall !in n.calls && n.nextCall !in rulings
    requires PeersOk(n.calls, n.connections, n.peers)
    requires Guarded(n.calls, n.connections, rulings, hosts, inbox, missed, fp)
    ensures var calls := Begin(n, r, o).calls;
            && PeersOk(calls, n.connections, n.peers)
            && Guarded(calls, n.connections, rulings, hosts, inbox, missed, fp)
  {
    hide Verdict, Covered;
    var calls := Begin(n, r, o).calls;
    forall t | t in n.connections
      ensures HostOf(n.connections[t].thread, calls) == HostOf(n.connections[t].thread, n.calls)
      ensures AdmittedAs(n.connections[t].thread, calls, rulings, fp)
           == AdmittedAs(n.connections[t].thread, n.calls, rulings, fp)
    {
    }
  }

  /** A thread that counts as nobody new keeps table and guard. */
  lemma ThreadHosts(n: Net, id: nat, t: Thread, rulings: map<nat, Ruling>, hosts: seq<Host>, inbox: seq<Message>,
                    missed: set<string>, fp: Fingerprinter)
    requires id in n.connections
    requires PeersOk(n.calls, n.connections, n.peers)
    requires Guarded(n.calls, n.connections, rulings, hosts, inbox, missed, fp)
    requires HostOf(t, n.calls).Some? ==> HostOf(t, n.calls) == HostOf(n.connections[id].thread, n.calls)
    requires AdmittedAs(t, n.calls, rulings, fp).Some? ==>
               AdmittedAs(t, n.calls, rulings, fp) == AdmittedAs(n.connections[id].thread, n.calls, rulings, fp)
    ensures var connections := SetThread(n, id, t).connections;
            && PeersOk(n.calls, connections, n.peers)
            && Guarded(n.calls, connections, rulings, hosts, inbox, missed, fp)
  {
    hide Verdict, Covered, HostOf, AdmittedAs;
  }

  // ---------------------------------------------------------------------------------------------
  // Connection threads

  lemma ThreadStep(n: Net, id: nat, t: Thread, upstream: seq<Message>, inbox: seq<Message>,
                   rulings: map<nat, Ruling>, hosts: seq<Host>, missed: set<string>, fp: Fingerprinter)
    requires NetOk(n, upstream, inbox, rulings, hosts, missed, fp) && id in n.connections
    requires Free(n.connections[id].thread, n.calls) && ThreadFits(id, t, n.calls)
    requires HostOf(t, n.calls).Some? ==> HostOf(t, n.calls) == HostOf(n.connections[id].thread, n.calls)
    requires AdmittedAs(t, n.calls, rulings, fp).Some? ==>
               AdmittedAs(t, n.calls, rulings, fp) == AdmittedAs(n.connections[id].thread, n.calls, rulings, fp)
    ensures NetOk(SetThread(n, id, t), upstream, inbox, rulings, hosts, missed, fp)
  {
    hide Verdict, CallsOk, UpstreamOk, InboxOk, OwnersOk, PeersOk, Guarded, ClientsOk, HostOf, AdmittedAs;
    ThreadOwners(n, id, t);
    ThreadHosts(n, id, t, rulings, hosts, inbox, missed, fp);
  }

  lemma ThreadCall(n: Net, id: nat, r: Request, t: Thread, upstream: seq<Message>, inbox: seq<Message>,
                   rulings: map<nat, Ruling>, hosts: seq<Host>, missed: set<string>, fp: Fingerprinter)
    requires NetOk(n, upstream, inbox, rulings, hosts, missed, fp) && id in n.connections
    requires Free(n.connections[id].thread, n.calls) && Current(t) == Some(n.nextCall)
    requires r.Authenticated? || r.Disconnected? ==> r.transport == id
    requires ThreadFits(id, t, Begin(n, r, Connection(id)).calls)
    requires var calls := Begin(n, r, Connection(id)).calls;
             && (HostOf(t, calls).Some? ==> HostOf(t, calls) == HostOf(n.connections[id].thread, calls))
             && (AdmittedAs(t, calls, rulings, fp).Some? ==>
                   AdmittedAs(t, calls, rulings, fp) == AdmittedAs(n.connections[id].thread, calls, rulings, fp))
    ensures NetOk(SetThread(Begin(n, r, Connection(id)), id, t), upstream, inbox, rulings, hosts, missed, fp)
  {
    hide Verdict, CallsOk, UpstreamOk, InboxOk, OwnersOk, PeersOk, Guarded, ClientsOk, HostOf, AdmittedAs, ThreadFits,
      Free;
    BeginCalls(n, r, Connection(id), upstream, inbox, rulings, fp);
    BeginClients(n, r, Connection(id), rulings, fp);
    BeginOwners(n, id, r, t);
    BeginHosts(n, r, Connection(id), rulings, hosts, inbox, missed, fp);
    ThreadHosts(Begin(n, r, Connection(id)), id, t, rulings, hosts, inbox, missed, fp);
  }

  lemma ConnStepKeeps(n: Net, id: nat, c: ConnStep, upstream: seq<Message>, inbox: seq<Message>,
                      rulings: map<nat, Ruling>, hosts: seq<Host>, missed: set<string>, fp: Fingerprinter)
    requires NetOk(n, upstream, inbox, rulings, hosts, missed, fp) && ConnProceeds(n, id, c).Some?
    ensures NetOk(ConnProceeds(n, id, c).value, upstream, inbox, rulings, hosts, missed, fp)
  {
    hide Verdict, CallsOk, UpstreamOk, InboxOk, OwnersOk, PeersOk, Guarded, ClientsOk, Knows, NetOk;
    var thread := n.connections[id].thread;
    match c
    case Fail => ThreadStep(n, id, Finished, upstream, inbox, rulings, hosts, missed, fp);
    case Authenticate(f) =>
      ThreadCall(n, id, Authenticated(id, f), Authenticating(f, n.nextCall), upstream, inbox, rulings, hosts, missed,
                 fp);
    case Admitted =>
      AdmissionWasGranted(n, thread.call, upstream, inbox, rulings, hosts, missed, fp);
      ThreadStep(n, id, Serving(thread.fingerprint, None), upstream, inbox, rulings, hosts, missed, fp);
    case Refused => ThreadStep(n, id, Finished, upstream, inbox, rulings, hosts, missed, fp);
    case Ask(r) =>
      ThreadCall(n, id, r, thread.(busy := Some(n.nextCall)), upstream, inbox, rulings, hosts, missed, fp);
    case Resume => ThreadStep(n, id, thread.(busy := None), upstream, inbox, rulings, hosts, missed, fp);
    case Leave =>
      ThreadCall(n, id, Disconnected(id), Leaving(n.nextCall), upstream, inbox, rulings, hosts, missed, fp);
    case End => ThreadStep(n, id, Finished, upstream, inbox, rulings, hosts, missed, fp);
  }

  /** A call that returned an answer was granted. */
  lemma AdmissionWasGranted(n: Net, k: nat, upstream: seq<Message>, inbox: seq<Message>, rulings: map<nat, Ruling>,
                            hosts: seq<Host>, missed: set<string>, fp: Fingerprinter)
    requires NetOk(n, upstream, inbox, rulings, hosts, missed, fp) && Got(n, k, true)
    ensures k in rulings && rulings[k].request == n.calls[k].request && Verdict(rulings[k], fp) != Rejected
    ensures n.calls[k].phase.result == Some(Verdict(rulings[k], fp))
  {
    hide Verdict, UpstreamOk, InboxOk, OwnersOk, PeersOk, Guarded, ClientsOk;
  }

  // ---------------------------------------------------------------------------------------------
  // Pairing threads

  lemma ClientStep(n: Net, id: nat, c: Client, upstream: seq<Message>, inbox: seq<Message>,
                   rulings: map<nat, Ruling>, hosts: seq<Host>, missed: set<string>, fp: Fingerprinter)
    requires NetOk(n, upstream, inbox, rulings, hosts, missed, fp) && ClientOk(c, n.calls, rulings, fp)
    ensures NetOk(SetClient(n, id, c), upstream, inbox, rulings, hosts, missed, fp)
  {
    hide Verdict, CallsOk, UpstreamOk, InboxOk, OwnersOk, PeersOk, Guarded, ClientOk;
  }

  lemma ClientCall(n: Net, id: nat, r: Request, c: Client, upstream: seq<Message>, inbox: seq<Message>,
                   rulings: map<nat, Ruling>, hosts: seq<Host>, missed: set<string>, fp: Fingerprinter)
    requires NetOk(n, upstream, inbox, rulings, hosts, missed, fp) && r.PairResult?
    requires ClientOk(c, Begin(n, r, Pairing(id)).calls, rulings, fp)
    ensures NetOk(SetClient(Begin(n, r, Pairing(id)), id, c), upstream, inbox, rulings, hosts, missed, fp)
  {
    hide Verdict, CallsOk, UpstreamOk, InboxOk, OwnersOk, PeersOk, Guarded, ClientsOk, ClientOk;
    BeginCalls(n, r, Pairing(id), upstream, inbox, rulings, fp);
    BeginClients(n, r, Pairing(id), rulings, fp);
    BeginFreely(n, r, Pairing(id));
    BeginHosts(n, r, Pairing(id), rulings, hosts, inbox, missed, fp);
    ClientStep(Begin(n, r, Pairing(id)), id, c, upstream, inbox, rulings, hosts, missed, fp);
  }

  lemma PairStepKeeps(n: Net, id: nat, c: PairStep, upstream: seq<Message>, inbox: seq<Message>,
                      rulings: map<nat, Ruling>, hosts: seq<Host>, missed: set<string>, fp: Fingerprinter)
    requires NetOk(n, upstream, inbox, rulings, hosts, missed, fp) && PairProceeds(n, id, c, fp).Some?
    ensures NetOk(PairProceeds(n, id, c, fp).value, upstream, inbox, rulings, hosts, missed, fp)
  {
    hide Verdict, CallsOk, UpstreamOk, InboxOk, OwnersOk, PeersOk, Guarded, HostKey, NetOk;
    assert ClientOk(n.clients[id], n.calls, rulings, fp) by {
      ClientAt(n, id, upstream, inbox, rulings, hosts, missed, fp);
    }
    var client, k := n.clients[id], n.nextCall;
    var epoch, thread := client.epoch, client.thread;
    var report := PairResult(epoch, None);
    match c
    case Read(key) =>
      ClientCall(n, id, PairResult(epoch, Some(key)), client.(thread := Committing(key, k)), upstream, inbox, rulings,
                 hosts, missed, fp);
    case Break =>
      ClientCall(n, id, report, client.(thread := Reporting(k)), upstream, inbox, rulings, hosts, missed, fp);
    case Granted =>
      AdmissionWasGranted(n, thread.call, upstream, inbox, rulings, hosts, missed, fp);
      ClientStep(n, id, client.(thread := Confirming(thread.key, thread.call)), upstream, inbox, rulings, hosts, missed,
                 fp);
    case Denied =>
      ClientCall(n, id, report, client.(thread := Reporting(k)), upstream, inbox, rulings, hosts, missed, fp);
    case Confirm(works) =>
      var told := Some((thread.key, thread.call));
      if works {
        ClientStep(n, id, client.(thread := Over, confirmed := told), upstream, inbox, rulings, hosts, missed, fp);
      } else {
        ClientCall(n, id, report, client.(thread := Reporting(k), confirmed := told), upstream, inbox, rulings, hosts,
                   missed, fp);
      }
    case Close => ClientStep(n, id, client.(thread := Over), upstream, inbox, rulings, hosts, missed, fp);
  }

  lemma ClientAt(n: Net, id: nat, upstream: seq<Message>, inbox: seq<Message>, rulings: map<nat, Ruling>,
                 hosts: seq<Host>, missed: set<string>, fp: Fingerprinter)
    requires NetOk(n, upstream, inbox, rulings, hosts, missed, fp) && id in n.clients
    ensures ClientOk(n.clients[id], n.calls, rulings, fp)
  {
    hide Verdict, CallsOk, UpstreamOk, InboxOk, OwnersOk, PeersOk, Guarded, ClientOk;
  }

  // ---------------------------------------------------------------------------------------------
  // The worker's main loop

  /** The same connections at the same points, some cancelled, some finished ones gone. */
  ghost predicate Thinner(a: map<nat, Conn>, b: map<nat, Conn>)
  {
    && (forall t | t in b :: t in a && b[t].thread == a[t].thread && (a[t].cancelled ==> b[t].cancelled))
    && forall t | t in a && t !in b :: a[t].thread == Finished
  }

  lemma ThinnerKeeps(calls: map<nat, Call>, a: map<nat, Conn>, b: map<nat, Conn>, next: nat, peers: map<nat, string>,
                     rulings: map<nat, Ruling>, hosts: seq<Host>, inbox: seq<Message>, missed: set<string>,
                     fp: Fingerprinter)
    requires Thinner(a, b)
    requires OwnersOk(calls, a, next) && PeersOk(calls, a, peers)
    requires Guarded(calls, a, rulings, hosts, inbox, missed, fp)
    ensures OwnersOk(calls, b, next) && PeersOk(calls, b, peers)
    ensures Guarded(calls, b, rulings, hosts, inbox, missed, fp)
  {
    hide Verdict, Covered;
  }

  lemma ThinnerStep(n: Net, m: Net, upstream: seq<Message>, inbox: seq<Message>, rulings: map<nat, Ruling>,
                    hosts: seq<Host>, missed: set<string>, fp: Fingerprinter)
    requires NetOk(n, upstream, inbox, rulings, hosts, missed, fp) && Thinner(n.connections, m.connections)
    requires m.calls == n.calls && m.nextCall == n.nextCall && m.next == n.next && m.peers == n.peers
    requires m.clients == n.clients && m.pending <= n.pending
    ensures NetOk(m, upstream, inbox, rulings, hosts, missed, fp)
  {
    hide Verdict, UpstreamOk, InboxOk, OwnersOk, PeersOk, Guarded, ClientsOk;
    ThinnerKeeps(n.calls, n.connections, m.connections, n.next, n.peers, rulings, hosts, inbox, missed, fp);
  }

  lemma AcceptKeeps(n: Net, c: Conn, upstream: seq<Message>, inbox: seq<Message>, rulings: map<nat, Ruling>,
                    hosts: seq<Host>, missed: set<string>, fp: Fingerprinter)
    requires NetOk(n, upstream, inbox, rulings, hosts, missed, fp) && c.thread == Handshake
    ensures NetOk(n.(connections := n.connections[n.next := c], next := n.next + 1), upstream, inbox, rulings, hosts,
                  missed, fp)
  {
    hide Verdict, UpstreamOk, InboxOk, CallsOk, ClientsOk, Covered;
    assert n.next !in n.connections;
  }

  lemma LoopStepKeeps(n: Net, l: LoopStep, upstream: seq<Message>, inbox: seq<Message>, rulings: map<nat, Ruling>,
                      hosts: seq<Host>, missed: set<string>, fp: Fingerprinter)
    requires NetOk(n, upstream, inbox, rulings, hosts, missed, fp) && LoopProceeds(n, l).Some?
    ensures NetOk(LoopProceeds(n, l).value, upstream, inbox, rulings, hosts, missed, fp)
  {
    hide NetOk;
    var m := LoopProceeds(n, l).value;
    match l
    case Reap => ThinnerStep(n, m, upstream, inbox, rulings, hosts, missed, fp);
    case GiveUp(_) => ThinnerStep(n, m, upstream, inbox, rulings, hosts, missed, fp);
    case Accept => AcceptKeeps(n, Conn(Handshake, false, n.hosts), upstream, inbox, rulings, hosts, missed, fp);
    case AcceptPairing =>
      var c := Client(n.pair.value.epoch, Exchanging, None);
      ClientStep(n, n.nextClient, c, upstream, inbox, rulings, hosts, missed, fp);
      ThinnerStep(SetClient(n, n.nextClient, c), m, upstream, inbox, rulings, hosts, missed, fp);
    case ReapPairing => ThinnerStep(n, m, upstream, inbox, rulings, hosts, missed, fp);
    case Exit => ThinnerStep(n, m, upstream, inbox, rulings, hosts, missed, fp);
    case Die => ThinnerStep(n, m, upstream, inbox, rulings, hosts, missed, fp);
  }

  // ---------------------------------------------------------------------------------------------
  // The worker's inbox

  lemma ShorterInbox(inbox: seq<Message>, calls: map<nat, Call>, rulings: map<nat, Ruling>, fp: Fingerprinter)
    requires inbox != [] && InboxOk(inbox, calls, rulings, fp)
    ensures InboxOk(inbox[1..], calls, rulings, fp)
  {
    hide Verdict;
    var rest := inbox[1..];
    forall i | 0 <= i < |rest|
      ensures rest[i] == inbox[i + 1]
    {
    }
  }

  /** Anything but a host list may be read without anybody losing cover. */
  lemma ReadingCovers(f: string, hosts: seq<Host>, inbox: seq<Message>, missed: set<string>)
    requires inbox != [] && Covered(f, hosts, inbox, missed) && !(inbox[0].Hosts? && !Knows(inbox[0].hosts, f))
    ensures Covered(f, hosts, inbox[1..], missed)
  {
    hide Knows;
    if Noticed(inbox, f) {
      var i :| 0 <= i < |inbox| && inbox[i].Hosts? && !Knows(inbox[i].hosts, f);
      assert inbox[1..][i - 1] == inbox[i];
    }
  }

  lemma ReadingGuards(calls: map<nat, Call>, connections: map<nat, Conn>, rulings: map<nat, Ruling>, hosts: seq<Host>,
                      inbox: seq<Message>, missed: set<string>, fp: Fingerprinter)
    requires inbox != [] && !inbox[0].Hosts? && Guarded(calls, connections, rulings, hosts, inbox, missed, fp)
    ensures Guarded(calls, connections, rulings, hosts, inbox[1..], missed, fp)
  {
    hide Verdict, Covered, AdmittedAs;
    forall t | t in connections && !connections[t].cancelled
               && AdmittedAs(connections[t].thread, calls, rulings, fp).Some?
      ensures Covered(AdmittedAs(connections[t].thread, calls, rulings, fp).value, hosts, inbox[1..], missed)
    {
      ReadingCovers(AdmittedAs(connections[t].thread, calls, rulings, fp).value, hosts, inbox, missed);
    }
  }

  /** Whoever is admitted is in the peer table under the same host. */
  lemma AdmittedIsPeer(n: Net, t: nat, rulings: map<nat, Ruling>, fp: Fingerprinter)
    requires PeersOk(n.calls, n.connections, n.peers) && t in n.connections
    requires AdmittedAs(n.connections[t].thread, n.calls, rulings, fp).Some?
    ensures t in n.peers && n.peers[t] == AdmittedAs(n.connections[t].thread, n.calls, rulings, fp).value
  {
    hide Verdict;
    assert HostOf(n.connections[t].thread, n.calls) == AdmittedAs(n.connections[t].thread, n.calls, rulings, fp);
  }

  /** Reading a host list cuts exactly those it does not cover, so the rest loses nothing with it. */
  lemma CuttingGuards(n: Net, rulings: map<nat, Ruling>, hosts: seq<Host>, inbox: seq<Message>, missed: set<string>,
                      fp: Fingerprinter)
    requires inbox != [] && inbox[0].Hosts? && PeersOk(n.calls, n.connections, n.peers)
    requires Guarded(n.calls, n.connections, rulings, hosts, inbox, missed, fp)
    ensures var connections := CutStrangers(n.connections, n.peers, inbox[0].hosts);
            && Thinner(n.connections, connections)
            && Guarded(n.calls, connections, rulings, hosts, inbox[1..], missed, fp)
  {
    hide Verdict, Covered, AdmittedAs, Knows, PeersOk;
    var connections := CutStrangers(n.connections, n.peers, inbox[0].hosts);
    forall t | t in connections && !connections[t].cancelled
               && AdmittedAs(connections[t].thread, n.calls, rulings, fp).Some?
      ensures Covered(AdmittedAs(connections[t].thread, n.calls, rulings, fp).value, hosts, inbox[1..], missed)
    {
      AdmittedIsPeer(n, t, rulings, fp);
      ReadingCovers(n.peers[t], hosts, inbox, missed);
    }
  }

  /** A reply reaches the mailbox of its own call, which was empty, and no second one is on its way. */
  lemma DeliveringKeeps(n: Net, upstream: seq<Message>, inbox: seq<Message>, rulings: map<nat, Ruling>,
                        fp: Fingerprinter)
    requires inbox != [] && inbox[0].Reply? && inbox[0].id in n.calls
    requires CallsOk(n.calls, n.nextCall, n.pending, rulings, fp) && UpstreamOk(upstream, n.calls, rulings)
    requires InboxOk(inbox, n.calls, rulings, fp) && ClientsOk(n.clients, n.calls, rulings, fp)
    ensures var k := inbox[0].id;
            var calls := n.calls[k := n.calls[k].(mailbox := Some(inbox[0].answer))];
            && n.calls[k].mailbox.None?
            && CallsOk(calls, n.nextCall, n.pending - {k}, rulings, fp) && UpstreamOk(upstream, calls, rulings)
            && InboxOk(inbox[1..], calls, rulings, fp) && ClientsOk(n.clients, calls, rulings, fp)
  {
    hide Verdict, PairingGranted;
    var k, rest := inbox[0].id, inbox[1..];
    forall i | 0 <= i < |rest|
      ensures rest[i] == inbox[i + 1] && (rest[i].Reply? ==> rest[i].id != k)
    {
    }
  }

  lemma MailHosts(n: Net, k: nat, mail: Option<Answer>, rulings: map<nat, Ruling>, hosts: seq<Host>,
                  inbox: seq<Message>, missed: set<string>, fp: Fingerprinter)
    requires k in n.calls && OwnersOk(n.calls, n.connections, n.next) && PeersOk(n.calls, n.connections, n.peers)
    requires Guarded(n.calls, n.connections, rulings, hosts, inbox, missed, fp)
    ensures var calls := n.calls[k := n.calls[k].(mailbox := mail)];
            && OwnersOk(calls, n.connections, n.next) && PeersOk(calls, n.connections, n.peers)
            && Guarded(calls, n.connections, rulings, hosts, inbox, missed, fp)
  {
    hide Verdict, Covered;
    var calls := n.calls[k := n.calls[k].(mailbox := mail)];
    forall t | t in n.connections
      ensures HostOf(n.connections[t].thread, calls) == HostOf(n.connections[t].thread, n.calls)
      ensures AdmittedAs(n.connections[t].thread, calls, rulings, fp)
           == AdmittedAs(n.connections[t].thread, n.calls, rulings, fp)
    {
    }
  }

  lemma ReplyKeeps(n: Net, upstream: seq<Message>, inbox: seq<Message>, rulings: map<nat, Ruling>, hosts: seq<Host>,
                   missed: set<string>, fp: Fingerprinter)
    requires NetOk(n, upstream, inbox, rulings, hosts, missed, fp) && inbox != [] && inbox[0].Reply?
    requires n.booted && inbox[0].id in n.pending && inbox[0].id in n.calls
    ensures NetOk(Receive(n, inbox[0]), upstream, inbox[1..], rulings, hosts, missed, fp)
  {
    hide Verdict, CallsOk, UpstreamOk, InboxOk, OwnersOk, PeersOk, Guarded, ClientsOk;
    DeliveringKeeps(n, upstream, inbox, rulings, fp);
    MailHosts(n, inbox[0].id, Some(inbox[0].answer), rulings, hosts, inbox, missed, fp);
    ReadingGuards(Receive(n, inbox[0]).calls, n.connections, rulings, hosts, inbox, missed, fp);
  }

  /** Any other message read: the inbox is shorter and nobody loses cover. */
  lemma ShorterKeeps(n: Net, upstream: seq<Message>, inbox: seq<Message>, rulings: map<nat, Ruling>, hosts: seq<Host>,
                     missed: set<string>, fp: Fingerprinter)
    requires NetOk(n, upstream, inbox, rulings, hosts, missed, fp) && inbox != [] && !inbox[0].Hosts?
    ensures NetOk(n, upstream, inbox[1..], rulings, hosts, missed, fp)
  {
    hide Verdict, CallsOk, UpstreamOk, InboxOk, OwnersOk, PeersOk, Guarded, ClientsOk;
    ShorterInbox(inbox, n.calls, rulings, fp);
    ReadingGuards(n.calls, n.connections, rulings, hosts, inbox, missed, fp);
  }

  lemma HostsKeeps(n: Net, upstream: seq<Message>, inbox: seq<Message>, rulings: map<nat, Ruling>, hosts: seq<Host>,
                   missed: set<string>, fp: Fingerprinter)
    requires NetOk(n, upstream, inbox, rulings, hosts, missed, fp) && inbox != [] && inbox[0].Hosts? && n.booted
    ensures NetOk(Receive(n, inbox[0]), upstream, inbox[1..], rulings, hosts, missed, fp)
  {
    hide Verdict, CallsOk, UpstreamOk, InboxOk, OwnersOk, PeersOk, Guarded, ClientsOk, CutStrangers, Thinner;
    ShorterInbox(inbox, n.calls, rulings, fp);
    CuttingGuards(n, rulings, hosts, inbox, missed, fp);
    ThinnerKeeps(n.calls, n.connections, Receive(n, inbox[0]).connections, n.next, n.peers, rulings, hosts, inbox,
                 missed, fp);
  }

  lemma EmptyGuards(calls: map<nat, Call>, rulings: map<nat, Ruling>, hosts: seq<Host>, inbox: seq<Message>,
                    missed: set<string>, fp: Fingerprinter)
    ensures Guarded(calls, map[], rulings, hosts, inbox, missed, fp)
  {
  }

  lemma UnbootedKeeps(n: Net, upstream: seq<Message>, inbox: seq<Message>, rulings: map<nat, Ruling>, hosts: seq<Host>,
                      missed: set<string>, fp: Fingerprinter)
    requires NetOk(n, upstream, inbox, rulings, hosts, missed, fp) && inbox != [] && n.connections == map[]
    ensures NetOk(n, upstream, inbox[1..], rulings, hosts, missed, fp)
  {
    hide Verdict, CallsOk, UpstreamOk, InboxOk, OwnersOk, PeersOk, Guarded, ClientsOk;
    ShorterInbox(inbox, n.calls, rulings, fp);
    EmptyGuards(n.calls, rulings, hosts, inbox[1..], missed, fp);
  }

  /** Messages that are neither host lists nor replies to deliver leave calls and peers alone. */
  lemma ReceiveFrame(n: Net, m: Message)
    requires !n.booted || (!m.Hosts? && !(m.Reply? && m.id in n.pending && m.id in n.calls))
    ensures var r := Receive(n, m);
            && (n.booted ==> Thinner(n.connections, r.connections)) && (!n.booted ==> r.connections == n.connections)
            && r.calls == n.calls && r.nextCall == n.nextCall && r.next == n.next && r.peers == n.peers
            && r.clients == n.clients && r.pending <= n.pending
            && (m.Boot? || r.booted == n.booted) && (n.booted ==> r.booted)
  {
  }

  lemma ReceiveKeeps(n: Net, upstream: seq<Message>, inbox: seq<Message>, rulings: map<nat, Ruling>, hosts: seq<Host>,
                     missed: set<string>, fp: Fingerprinter)
    requires NetOk(n, upstream, inbox, rulings, hosts, missed, fp) && Idle(n) && inbox != []
    ensures NetOk(Receive(n, inbox[0]), upstream, inbox[1..], rulings, hosts, missed, fp) && Idle(Receive(n, inbox[0]))
  {
    hide NetOk, Receive, Thinner;
    var m, msg := Receive(n, inbox[0]), inbox[0];
    BootedStays(n, msg);
    if !n.booted {
      UnbootedKeeps(n, upstream, inbox, rulings, hosts, missed, fp);
      ReceiveFrame(n, msg);
      SameIsThinner(n.connections);
      ThinnerStep(n, m, upstream, inbox[1..], rulings, hosts, missed, fp);
    } else if msg.Hosts? {
      HostsKeeps(n, upstream, inbox, rulings, hosts, missed, fp);
    } else if msg.Reply? && msg.id in n.pending && msg.id in n.calls {
      ReplyKeeps(n, upstream, inbox, rulings, hosts, missed, fp);
    } else {
      ShorterKeeps(n, upstream, inbox, rulings, hosts, missed, fp);
      ReceiveFrame(n, msg);
      ThinnerStep(n, m, upstream, inbox[1..], rulings, hosts, missed, fp);
    }
  }

  lemma SameIsThinner(a: map<nat, Conn>)
    ensures Thinner(a, a)
  {
  }

  lemma BootedStays(n: Net, m: Message)
    ensures n.booted ==> Receive(n, m).booted
  {
  }

  lemma ReadySent(upstream: seq<Message>, calls: map<nat, Call>, rulings: map<nat, Ruling>)
    requires UpstreamOk(upstream, calls, rulings)
    ensures UpstreamOk(upstream + [Ready], calls, rulings)
  {
    var after := upstream + [Ready];
    forall i | 0 <= i < |after| && after[i].Call?
      ensures i < |upstream| && after[i] == upstream[i]
    {
    }
  }

  // ---------------------------------------------------------------------------------------------
  // What supervisor steps send

  /** Messages are only added, and replies are none of them. */
  ghost predicate Adds(a: seq<Message>, b: seq<Message>)
  {
    a <= b && forall i | |a| <= i < |b| :: !b[i].Reply?
  }

  lemma SendAdds(s: Sup, m: Message, works: bool)
    requires !m.Reply?
    ensures Adds(Inbox(s), Inbox(Send(s, m, works).0)) && Child(Send(s, m, works).0) == Child(s)
  {
  }

  lemma AddsTwice(a: seq<Message>, b: seq<Message>, c: seq<Message>)
    requires Adds(a, b) && Adds(b, c)
    ensures Adds(a, c)
  {
  }

  lemma CloseAdds(s: Sup, works: bool)
    ensures Adds(Inbox(s), Inbox(ClosePairing(s, works))) && Child(ClosePairing(s, works)) == Child(s)
  {
    hide Send, Adds;
    SendAdds(s.(window := None), PairStop, works);
  }

  lemma AnnounceAdds(s: Sup, e: Env)
    ensures Adds(Inbox(s), Inbox(AnnouncePairing(s, e).0)) && Child(AnnouncePairing(s, e).0) == Child(s)
  {
    hide Send, Adds;
    var a := Send(s, PairCommitted, e.firstSend).0;
    SendAdds(s, PairCommitted, e.firstSend);
    SendAdds(a, Hosts(a.store.hosts), e.secondSend);
    AddsTwice(Inbox(s), Inbox(a), Inbox(Send(a, Hosts(a.store.hosts), e.secondSend).0));
  }

  lemma ServeAdds(s: Sup, r: Request, e: Env, fp: Fingerprinter)
    ensures var u := Serve(s, r, e, fp).0; Adds(Inbox(s), Inbox(u)) && Child(u) == Child(s)
  {
    hide Store.Alter, Launch, CountOf, Disconnect, Paired, PairingFailed, CloseSoon, StopBinder;
    match r
    case Authenticated(t, f) =>
    case Disconnected(t) => DisconnectAdds(s, {t});
    case Spawn(t, name) => LaunchShape(s, t, name, false, e);
    case CloseService(t, id) =>
    case BindReverse(t, spec) => LaunchShape(s, t, spec, true, e);
    case CloseReverse(t, spec) =>
    case Root(t, enable) =>
    case PairResult(epoch, key) =>
      if WindowFits(s.window, epoch, e.now) {
        ResultAdds(s, key, e, fp);
      }
  }

  lemma DisconnectAdds(s: Sup, ts: set<nat>)
    ensures Disconnect(s, ts).worker == s.worker
  {
  }

  lemma ResultAdds(s: Sup, key: Option<string>, e: Env, fp: Fingerprinter)
    requires s.window.Some?
    ensures var u := if key.Some? then Paired(s, key.value, e, fp).0 else PairingFailed(s, e);
            Adds(Inbox(s), Inbox(u)) && Child(u) == Child(s)
  {
    hide Store.Alter, HostKey, AnnouncePairing, ClosePairing;
    if key.Some? {
      var f := match HostKey(key.value, fp) case Some(k) => k.0 case None => "";
      var store := Store.Alter(s.store, Store.Change.Pair(key.value, e.wall), e.temp, e.backup, fp).0;
      AnnounceAdds(s.(store := store, window := None, events := s.events + [Committed(s.window.value.epoch, f)]), e);
    } else {
      var w := s.window.value.(failures := s.window.value.failures + 1);
      CloseAdds(s.(window := Some(w), events := s.events + [Failed(w.epoch)]), e.firstSend);
    }
  }

  /** A worker that is started is a new one. */
  lemma StartIsNew(s: Sup, works: bool)
    requires s.worker.None?
    ensures var u := StartWorker(s, works).0;
            u.worker.Some? ==> Child(u) == Some(s.spawned) && Inbox(u) == [Boot(s.store.hosts)]
  {
  }

  lemma StoppedHasNone(s: Sup, state: State, now: nat)
    ensures Stop(s, state, now).worker.None? && Stop(s, state, now).spawned == s.spawned
    ensures Stop(s, state, now).store == s.store
  {
    hide Backoff;
  }

  lemma OpenAdds(s: Sup, e: Env)
    ensures var u := OpenPairing(s, e).0; Adds(Inbox(s), Inbox(u)) && Child(u) == Child(s)
  {
    hide Send, Adds, ClosePairing;
    var a := ClosePairing(s, e.firstSend);
    CloseAdds(s, e.firstSend);
    var b := a.(epoch := a.epoch + 1);
    SendAdds(b, PairStart(a.epoch + 1), e.secondSend);
    AddsTwice(Inbox(s), Inbox(a), Inbox(Send(b, PairStart(a.epoch + 1), e.secondSend).0));
    AddsNothing(Inbox(s));
  }

  lemma AddsNothing(a: seq<Message>)
    ensures Adds(a, a)
  {
  }

  lemma RevokedAdds(s: Sup, f: string, e: Env)
    ensures var u := Revoked(s, f, e).0; Adds(Inbox(s), Inbox(u)) && Child(u) == Child(s)
  {
    hide Send, Adds, StopAll, OfHost;
    var a := Disconnect(s, OfHost(s.transports, f));
    SendAdds(a, Hosts(a.store.hosts), e.firstSend);
    AddsNothing(Inbox(s));
  }

  ghost predicate Restarts(s: Sup, u: Sup)
  {
    Child(u) != Child(s) && (u.worker.Some? ==> Inbox(u) == [Boot(u.store.hosts)])
  }

  /** A step keeps the worker and only adds to its inbox, or replaces it. */
  ghost predicate Continues(s: Sup, u: Sup)
  {
    (Child(u) == Child(s) && Adds(Inbox(s), Inbox(u))) || Restarts(s, u)
  }

  lemma StopContinues(s: Sup, state: State, now: nat)
    ensures Continues(s, Stop(s, state, now))
  {
    hide Stop, Adds;
    StoppedHasNone(s, state, now);
    AddsNothing([]);
  }

  lemma StartContinues(s: Sup, a: Sup, works: bool)
    requires a.worker.None? && (s.worker.Some? ==> s.worker.value.child < a.spawned)
    ensures Continues(s, StartWorker(a, works).0)
  {
    hide Adds;
    AddsNothing([]);
  }

  lemma OrderContinues(s: Sup, c: Control, e: Env, fp: Fingerprinter)
    requires s.worker.Some? ==> s.worker.value.child < s.spawned
    ensures Continues(s, Order(s, c, e, fp).0)
  {
    hide Store.Alter, Adds, Stop, StartWorker, OpenPairing, ClosePairing, Revoked;
    AddsNothing(Inbox(s));
    match c
    case Status =>
    case Logs =>
    case StartPairing => OpenAdds(s, e);
    case StopPairing => CloseAdds(s, e.firstSend);
    case Configure(config) =>
      var t := s.(store := Store.Alter(s.store, Store.Change.Configure(config), e.temp, e.backup, fp).0);
      StopContinues(t, Disabled, e.now);
      StartContinues(t, StopWorker(t).(root := false), e.start);
    case Revoke(f) =>
      RevokedAdds(s.(store := Store.Alter(s.store, Store.Change.Revoke(f), e.temp, e.backup, fp).0), f, e);
    case Quit => StopContinues(s.(quit := true), Disabled, e.now);
  }

  lemma RotateContinues(s: Sup, e: Env)
    requires s.worker.Some? ==> s.worker.value.child < s.spawned
    ensures Continues(s, Rotate(s, e))
  {
    hide Adds, Stop, StartWorker;
    AddsNothing(Inbox(s));
    var a := StopWorker(s.(rotate := None));
    StartContinues(s, a, e.start);
    StoppedHasNone(StartWorker(a, e.start).0, Error, e.now);
  }

  lemma RestartContinues(s: Sup, e: Env)
    requires s.worker.Some? ==> s.worker.value.child < s.spawned
    ensures Continues(s, Restart(s, e))
  {
    hide Adds, Stop, StartWorker;
    AddsNothing(Inbox(s));
    StoppedHasNone(s, Starting, e.now);
    var a := Stop(s, Starting, e.now);
    StartContinues(s, a.(bundle := true), e.start);
    StoppedHasNone(a, Error, e.now);
    StoppedHasNone(StartWorker(a.(bundle := true), e.start).0, Error, e.now);
  }

  /** Every step but the answer to a request. */
  lemma StepContinues(s: Sup, t: Step, fp: Fingerprinter)
    requires Inv(s, fp) && !(t.Heard? && t.message.Call?)
    ensures Continues(s, Advance(s, t, fp))
  {
    hide Adds, Stop, StartWorker, Order, Rotate, Restart, ClosePairing, Inv, Reaped;
    ChildrenAreOld(s, fp);
    AddsNothing(Inbox(s));
    match t
    case Ordered(c, e) => OrderContinues(s, c, e, fp);
    case Heard(m, e, replied) => StopContinues(s, Error, e.now);
    case Hangup(e) => StopContinues(s, Error, e.now);
    case Expiry(e) => CloseAdds(s, e.firstSend);
    case Rotation(e) => RotateContinues(s, e);
    case Reaping(_, _) =>
    case Pausing(state, now) => StopContinues(s, state, now);
    case Restarting(e) => RestartContinues(s, e);
  }

  lemma ChildrenAreOld(s: Sup, fp: Fingerprinter)
    requires Inv(s, fp)
    ensures s.worker.Some? ==> s.worker.value.child < s.spawned
  {
  }

  // ---------------------------------------------------------------------------------------------
  // Cover

  lemma NoticedLater(a: seq<Message>, b: seq<Message>, f: string)
    requires a <= b && Noticed(a, f)
    ensures Noticed(b, f)
  {
    hide Knows;
    var i :| 0 <= i < |a| && a[i].Hosts? && !Knows(a[i].hosts, f);
    assert b[i] == a[i];
  }

  /** The heart of the revocation protocol: a step of the supervisor may take a host out of the list, but then it
      puts the new list on its way, unless that list could not be sent. */
  lemma StepCovers(s: Sup, t: Step, f: string, missed: set<string>, fp: Fingerprinter)
    requires Inv(s, fp) && s.worker.Some? && Covered(f, s.store.hosts, Inbox(s), missed)
    requires var u := Advance(s, t, fp); Child(u) == Child(s) && Inbox(s) <= Inbox(u)
    ensures var u := Advance(s, t, fp);
            Covered(f, u.store.hosts, Inbox(u), StillMissed(missed, s, t, fp))
  {
    hide Inv, Knows, Advance, Store.Alter, Noticed;
    var u := Advance(s, t, fp);
    if Noticed(Inbox(s), f) {
      NoticedLater(Inbox(s), Inbox(u), f);
    } else if Knows(s.store.hosts, f) && !Knows(u.store.hosts, f) {
      SupervisorTheorems.TrustChangesOnlyByRuling(s, t, f, fp);
      RevokingCovers(s, f, t.env, fp);
    }
  }

  lemma RevokingCovers(s: Sup, f: string, e: Env, fp: Fingerprinter)
    requires s.worker.Some?
    requires Inv(s, fp) && Knows(s.store.hosts, f)
    ensures var t := Ordered(Control.Revoke(f), e); var u := Advance(s, t, fp);
            Knows(u.store.hosts, f) || Noticed(Inbox(u), f) || Misses(s, t, fp)
  {
    hide Inv, Knows, Store.Alter, Noticed;
    var t := Ordered(Control.Revoke(f), e);
    var u := Advance(s, t, fp);
    if Store.Alter(s.store, Store.Change.Revoke(f), e.temp, e.backup, fp).1 == Store.StoreResult.Done {
      SupervisorTheorems.RevocationIsImmediate(s, f, e, fp);
      SupervisorTheorems.RevocationIsAnnounced(s, f, e, fp);
      if e.firstSend {
        LastNoticed(Inbox(s), u.store.hosts, f);
      }
    } else {
      InvAuthorised(s, fp);
      AlterEffects(s.store, Store.Change.Revoke(f), e.temp, e.backup, fp);
    }
  }

  lemma LastNoticed(a: seq<Message>, hosts: seq<Host>, f: string)
    requires !Knows(hosts, f)
    ensures Noticed(a + [Hosts(hosts)], f)
  {
    hide Knows;
    assert (a + [Hosts(hosts)])[|a|] == Hosts(hosts);
  }

  lemma StepGuards(s: Sup, t: Step, calls: map<nat, Call>, connections: map<nat, Conn>, rulings: map<nat, Ruling>,
                   missed: set<string>, fp: Fingerprinter)
    requires Inv(s, fp) && s.worker.Some?
    requires Guarded(calls, connections, rulings, s.store.hosts, Inbox(s), missed, fp)
    requires var u := Advance(s, t, fp); Child(u) == Child(s) && Inbox(s) <= Inbox(u)
    ensures var u := Advance(s, t, fp);
            Guarded(calls, connections, rulings, u.store.hosts, Inbox(u), StillMissed(missed, s, t, fp), fp)
  {
    hide Inv, Advance, Covered, Misses, AdmittedAs;
    forall c | c in connections && !connections[c].cancelled
               && AdmittedAs(connections[c].thread, calls, rulings, fp).Some?
      ensures Covered(AdmittedAs(connections[c].thread, calls, rulings, fp).value, Advance(s, t, fp).store.hosts,
                      Inbox(Advance(s, t, fp)), StillMissed(missed, s, t, fp))
    {
      StepCovers(s, t, AdmittedAs(connections[c].thread, calls, rulings, fp).value, missed, fp);
    }
  }

  lemma InboxGrows(a: seq<Message>, b: seq<Message>, calls: map<nat, Call>, rulings: map<nat, Ruling>,
                   fp: Fingerprinter)
    requires InboxOk(a, calls, rulings, fp) && Adds(a, b)
    ensures InboxOk(b, calls, rulings, fp)
  {
    hide Verdict;
    forall i | 0 <= i < |b| && b[i].Reply?
      ensures i < |a| && b[i] == a[i]
    {
    }
  }

  // ---------------------------------------------------------------------------------------------
  // Rulings

  /** A ruling on the oldest request of the queue. */
  lemma RulingKeeps(n: Net, upstream: seq<Message>, a: seq<Message>, b: seq<Message>, rulings: map<nat, Ruling>,
                    r: Ruling, fp: Fingerprinter)
    requires CallsOk(n.calls, n.nextCall, n.pending, rulings, fp) && UpstreamOk(upstream, n.calls, rulings)
    requires InboxOk(a, n.calls, rulings, fp) && ClientsOk(n.clients, n.calls, rulings, fp)
    requires upstream != [] && upstream[0].Call? && r.request == upstream[0].request && Adds(a, b)
    ensures var k := upstream[0].id; var after := rulings[k := r];
            && k !in rulings
            && CallsOk(n.calls, n.nextCall, n.pending, after, fp) && UpstreamOk(upstream[1..], n.calls, after)
            && InboxOk(b, n.calls, after, fp) && InboxOk(b + [Reply(k, Verdict(r, fp))], n.calls, after, fp)
            && ClientsOk(n.clients, n.calls, after, fp)
  {
    var k := upstream[0].id;
    var after := rulings[k := r];
    assert k in n.calls && k !in rulings;
    CallAt(n, k, rulings, fp);
    RulingCalls(n, k, r, rulings, fp);
    RulingUpstream(upstream, n.calls, rulings, r);
    InboxGrows(a, b, n.calls, rulings, fp);
    RulingInbox(b, n.calls, rulings, k, r, fp);
    RulingClients(n, k, r, rulings, fp);
    hide CallsOk, UpstreamOk, InboxOk, ClientsOk, Verdict;
  }

  lemma RulingCalls(n: Net, k: nat, r: Ruling, rulings: map<nat, Ruling>, fp: Fingerprinter)
    requires CallsOk(n.calls, n.nextCall, n.pending, rulings, fp) && k in n.calls && k !in rulings
    requires r.request == n.calls[k].request && WasSent(n.calls[k].phase)
    ensures CallsOk(n.calls, n.nextCall, n.pending, rulings[k := r], fp)
  {
    hide Verdict;
  }

  lemma RulingUpstream(upstream: seq<Message>, calls: map<nat, Call>, rulings: map<nat, Ruling>, r: Ruling)
    requires UpstreamOk(upstream, calls, rulings) && upstream != [] && upstream[0].Call?
    ensures UpstreamOk(upstream[1..], calls, rulings[upstream[0].id := r])
  {
    var rest := upstream[1..];
    forall i | 0 <= i < |rest| && rest[i].Call?
      ensures rest[i] == upstream[i + 1] && rest[i].id != upstream[0].id
    {
    }
  }

  lemma RulingInbox(b: seq<Message>, calls: map<nat, Call>, rulings: map<nat, Ruling>, k: nat, r: Ruling,
                    fp: Fingerprinter)
    requires InboxOk(b, calls, rulings, fp) && k !in rulings && k in calls && calls[k].mailbox.None?
    ensures var after := rulings[k := r];
            InboxOk(b, calls, after, fp) && InboxOk(b + [Reply(k, Verdict(r, fp))], calls, after, fp)
  {
    hide Verdict;
    var all := b + [Reply(k, Verdict(r, fp))];
    forall i | 0 <= i < |b|
      ensures all[i] == b[i]
    {
    }
  }

  lemma RulingClients(n: Net, k: nat, r: Ruling, rulings: map<nat, Ruling>, fp: Fingerprinter)
    requires ClientsOk(n.clients, n.calls, rulings, fp) && k !in rulings
    ensures ClientsOk(n.clients, n.calls, rulings[k := r], fp)
  {
    hide Verdict;
  }

  /** A ruling that admits a connection finds its host in the list it leaves. */
  lemma RulingGuards(n: Net, k: nat, r: Ruling, rulings: map<nat, Ruling>, hosts: seq<Host>, inbox: seq<Message>,
                     missed: set<string>, fp: Fingerprinter)
    requires OwnersOk(n.calls, n.connections, n.next) && k !in rulings && k in n.calls
    requires r.request == n.calls[k].request
    requires r.request.Authenticated? && Verdict(r, fp) != Rejected ==> Knows(hosts, r.request.fingerprint)
    requires Guarded(n.calls, n.connections, rulings, hosts, inbox, missed, fp)
    ensures Guarded(n.calls, n.connections, rulings[k := r], hosts, inbox, missed, fp)
  {
    hide Verdict, Knows, Noticed;
    var after := rulings[k := r];
    forall t | t in n.connections && !n.connections[t].cancelled
               && AdmittedAs(n.connections[t].thread, n.calls, after, fp).Some?
      ensures Covered(AdmittedAs(n.connections[t].thread, n.calls, after, fp).value, hosts, inbox, missed)
    {
      var thread := n.connections[t].thread;
      if !(thread.Authenticating? && thread.call == k) {
        assert AdmittedAs(thread, n.calls, after, fp) == AdmittedAs(thread, n.calls, rulings, fp);
      }
    }
  }

  lemma AdmissionKnows(s: Sup, r: Request, e: Env, fp: Fingerprinter)
    requires Inv(s, fp) && s.worker.Some? && r.Authenticated? && Serve(s, r, e, fp).1 != Rejected
    ensures Knows(Serve(s, r, e, fp).0.store.hosts, r.fingerprint)
  {
    hide Store.Alter, Store.Trusted, Knows, Privileged, Limited, Counted;
    ServeKeeps(s, r, e, fp);
    var u := Serve(s, r, e, fp).0;
    assert r.transport in u.transports && u.transports[r.transport] == r.fingerprint;
  }

  // ---------------------------------------------------------------------------------------------
  // Supervisor steps of the whole system

  lemma FreshNetHolds(inbox: seq<Message>, hosts: seq<Host>, fp: Fingerprinter)
    requires |inbox| == 1 && inbox[0].Boot?
    ensures NetOk(NewNet(), [], inbox, map[], hosts, {}, fp) && Idle(NewNet())
  {
  }

  lemma ShorterUpstream(upstream: seq<Message>, calls: map<nat, Call>, rulings: map<nat, Ruling>)
    requires UpstreamOk(upstream, calls, rulings) && upstream != []
    ensures UpstreamOk(upstream[1..], calls, rulings)
  {
    var rest := upstream[1..];
    forall i | 0 <= i < |rest|
      ensures rest[i] == upstream[i + 1]
    {
    }
  }

  /** What the answer to a request adds to the inbox. */
  lemma HearAdds(s: Sup, m: Message, e: Env, replied: bool, fp: Fingerprinter)
    requires m.Call? && s.worker.Some?
    ensures var (a, answer) := Serve(s, m.request, e, fp); var u := Hear(s, m, e, replied, fp);
            && Child(u) == Child(s) && u.store == a.store && Adds(Inbox(s), Inbox(a)) && Inbox(s) <= Inbox(u)
            && Inbox(u) == if replied then Inbox(a) + [Reply(m.id, answer)] else Inbox(a)
  {
    hide Serve, Send;
    var (a, answer) := Serve(s, m.request, e, fp);
    ServeAdds(s, m.request, e, fp);
    SendFrame(a, Reply(m.id, answer), replied);
    assert Inbox(a) + [] == Inbox(a);
  }

  lemma AnswerKeeps(s: System, t: Step, fp: Fingerprinter)
    requires Sound(s, fp) && CanStep(s, t) && t.Heard? && t.message.Call?
    ensures Sound(Supervise(s, t, fp), fp)
  {
    hide Inv, RulingsOk, CallsOk, UpstreamOk, InboxOk, OwnersOk, PeersOk, Guarded, ClientsOk, Serve, Send, Misses, Idle;
    var n, u := s.net.value, Advance(s.sup, t, fp);
    var k, r := t.message.id, Ruling(s.sup, t.message.request, t.env);
    var a := Serve(s.sup, t.message.request, t.env, fp).0;
    StepKeeps(s.sup, t, fp);
    HearAdds(s.sup, t.message, t.env, t.replied, fp);
    QueueHead(s.upstream, n.calls, s.rulings);
    StepGuards(s.sup, t, n.calls, n.connections, s.rulings, s.missed, fp);
    RulingKeeps(n, s.upstream, Inbox(s.sup), Inbox(a), s.rulings, r, fp);
    if r.request.Authenticated? && Verdict(r, fp) != Rejected {
      AdmissionKnows(s.sup, r.request, t.env, fp);
    }
    RulingGuards(n, k, r, s.rulings, u.store.hosts, Inbox(u), StillMissed(s.missed, s.sup, t, fp), fp);
    RulingsGrow(s.rulings, k, r, fp);
  }

  lemma QueueHead(upstream: seq<Message>, calls: map<nat, Call>, rulings: map<nat, Ruling>)
    requires UpstreamOk(upstream, calls, rulings) && upstream != [] && upstream[0].Call?
    ensures upstream[0].id in calls && upstream[0].id !in rulings
    ensures calls[upstream[0].id].request == upstream[0].request
  {
  }

  lemma RulingsGrow(rulings: map<nat, Ruling>, k: nat, r: Ruling, fp: Fingerprinter)
    requires RulingsOk(rulings, fp) && Inv(r.before, fp)
    ensures RulingsOk(rulings[k := r], fp)
  {
    hide Inv;
  }

  lemma OtherStepKeeps(s: System, t: Step, fp: Fingerprinter)
    requires Sound(s, fp) && CanStep(s, t) && !(t.Heard? && t.message.Call?)
    ensures Sound(Supervise(s, t, fp), fp)
  {
    hide Inv, RulingsOk, CallsOk, UpstreamOk, InboxOk, OwnersOk, PeersOk, Guarded, ClientsOk, Advance, Misses, Idle,
      Adds;
    var u := Advance(s.sup, t, fp);
    StepKeeps(s.sup, t, fp);
    StepContinues(s.sup, t, fp);
    if Child(u) != Child(s.sup) {
      if u.worker.Some? {
        FreshNetHolds(Inbox(u), u.store.hosts, fp);
      }
      NoRulings(fp);
    } else if u.worker.Some? {
      KeptWorkerKeeps(s, t, fp);
    }
  }

  lemma NoRulings(fp: Fingerprinter)
    ensures RulingsOk(map[], fp)
  {
  }

  lemma KeptWorkerKeeps(s: System, t: Step, fp: Fingerprinter)
    requires Sound(s, fp) && CanStep(s, t) && !(t.Heard? && t.message.Call?) && s.sup.worker.Some?
    requires var u := Advance(s.sup, t, fp); Child(u) == Child(s.sup) && Adds(Inbox(s.sup), Inbox(u))
    ensures var v := Supervise(s, t, fp);
            v.net == s.net && v.rulings == s.rulings
            && NetOk(s.net.value, v.upstream, Inbox(v.sup), s.rulings, v.sup.store.hosts, v.missed, fp)
  {
    hide Inv, RulingsOk, CallsOk, UpstreamOk, InboxOk, OwnersOk, PeersOk, Guarded, ClientsOk, Advance, Misses, Idle;
    var n, u := s.net.value, Advance(s.sup, t, fp);
    StepGuards(s.sup, t, n.calls, n.connections, s.rulings, s.missed, fp);
    InboxGrows(Inbox(s.sup), Inbox(u), n.calls, s.rulings, fp);
    if t.Heard? {
      ShorterUpstream(s.upstream, n.calls, s.rulings);
    }
  }

  // ---------------------------------------------------------------------------------------------
  // Worker actions of the whole system

  lemma ReceivesKeeps(s: System, fp: Fingerprinter)
    requires Sound(s, fp) && CanAct(s, Receives)
    ensures Sound(Next(s, Receives, fp).value, fp)
  {
    hide Inv, RulingsOk, NetOk, Receive, Idle;
    var n, inbox := s.net.value, Inbox(s.sup);
    ReceiveKeeps(n, s.upstream, inbox, s.rulings, s.sup.store.hosts, s.missed, fp);
    var m := Receive(n, inbox[0]);
    NetWithReady(m, s.upstream, inbox[1..], s.rulings, s.sup.store.hosts, s.missed, fp);
    assert s.upstream + [] == s.upstream;
    InboxIsFree(s.sup, inbox[1..], fp);
  }

  lemma NetWithReady(n: Net, upstream: seq<Message>, inbox: seq<Message>, rulings: map<nat, Ruling>, hosts: seq<Host>,
                     missed: set<string>, fp: Fingerprinter)
    requires NetOk(n, upstream, inbox, rulings, hosts, missed, fp)
    ensures NetOk(n, upstream + [Ready], inbox, rulings, hosts, missed, fp)
  {
    hide CallsOk, UpstreamOk, InboxOk, OwnersOk, PeersOk, Guarded, ClientsOk;
    ReadySent(upstream, n.calls, rulings);
  }

  /** The supervisor's own invariant does not look into the inbox. */
  lemma InboxIsFree(s: Sup, inbox: seq<Message>, fp: Fingerprinter)
    requires Inv(s, fp) && s.worker.Some?
    ensures Inv(s.(worker := Some(s.worker.value.(inbox := inbox))), fp)
  {
    hide Store.Trusted, Commits, Failures, CountOf, Knows;
  }

  lemma ActKeeps(s: System, a: Action, fp: Fingerprinter)
    requires Sound(s, fp) && !a.Super? && Next(s, a, fp).Some?
    ensures Sound(Next(s, a, fp).value, fp)
  {
    hide Inv, RulingsOk, NetOk, Receive, LoopProceeds, Proceed, ConnProceeds, PairProceeds, Idle;
    var n, inbox, hosts := s.net.value, Inbox(s.sup), s.sup.store.hosts;
    match a
    case Receives => ReceivesKeeps(s, fp);
    case Loops(l) =>
      LoopStepKeeps(n, l, s.upstream, inbox, s.rulings, hosts, s.missed, fp);
      BootedLoop(n, l);
    case Calls(c) =>
      CallStepKeeps(n, c, s.upstream, inbox, s.rulings, hosts, s.missed, fp);
      BootedCall(n, c);
    case Connects(id, c) =>
      ConnStepKeeps(n, id, c, s.upstream, inbox, s.rulings, hosts, s.missed, fp);
      BootedConn(n, id, c);
    case Pairs(id, c) =>
      PairStepKeeps(n, id, c, s.upstream, inbox, s.rulings, hosts, s.missed, fp);
      BootedPair(n, id, c, fp);
  }

  lemma BootedLoop(n: Net, l: LoopStep)
    requires LoopProceeds(n, l).Some? && Idle(n) && (n.booted || l.Die?)
    ensures Idle(LoopProceeds(n, l).value)
  {
  }

  lemma BootedCall(n: Net, c: CallStep)
    requires Proceed(n, c).Some? && n.booted
    ensures Idle(Proceed(n, c).value.0)
  {
    hide NextPhase;
  }

  lemma BootedConn(n: Net, id: nat, c: ConnStep)
    requires ConnProceeds(n, id, c).Some? && n.booted
    ensures Idle(ConnProceeds(n, id, c).value)
  {
    hide Knows;
  }

  lemma BootedPair(n: Net, id: nat, c: PairStep, fp: Fingerprinter)
    requires PairProceeds(n, id, c, fp).Some? && n.booted
    ensures Idle(PairProceeds(n, id, c, fp).value)
  {
    hide HostKey;
  }

  /** Every action of the system. */
  lemma NextKeeps(s: System, a: Action, fp: Fingerprinter)
    requires Sound(s, fp) && Next(s, a, fp).Some?
    ensures Sound(Next(s, a, fp).value, fp)
  {
    hide Sound, Supervise;
    if a.Super? {
      if a.step.Heard? && a.step.message.Call? {
        AnswerKeeps(s, a.step, fp);
      } else {
        OtherStepKeeps(s, a.step, fp);
      }
    } else {
      ActKeeps(s, a, fp);
    }
  }
}
