/** What the worker goes by is what it has read: its host list, the list each connection was accepted with, and its
    pairing window, told from the messages this worker has received. */
module Reading {
  import opened Wrappers
  import opened Documents
  import Store
  import opened Supervisor
  import opened Worker
  import opened System
  import opened SupervisorInvariant
  import opened SystemTheorems
  import SupervisorTheorems

  // ---------------------------------------------------------------------------------------------
  // Messages read

  /** The messages the present worker has read, in order. */
  ghost function Reads(s: System, actions: seq<Action>, fp: Fingerprinter): seq<Message>
  {
    if actions == [] then []
    else
      var init, a := actions[..|actions| - 1], actions[|actions| - 1];
      match Run(s, init, fp)
      case None => []
      case Some(t) =>
        match Next(t, a, fp)
        case None => []
        case Some(u) =>
          if Child(u.sup) != Child(t.sup) then []
          else if a.Receives? then Reads(s, init, fp) + Inbox(t.sup)[..1]
          else Reads(s, init, fp)
  }

  /** The last host list among them. */
  function LastHosts(read: seq<Message>): seq<Host>
  {
    if read == [] then []
    else
      match read[|read| - 1]
      case Boot(hosts) => hosts
      case Hosts(hosts) => hosts
      case _ => LastHosts(read[..|read| - 1])
  }

  /** The pairing window they leave: its epoch, and whether it still takes clients. */
  function LastWindow(read: seq<Message>): Option<(nat, bool)>
  {
    if read == [] then None
    else
      var before := LastWindow(read[..|read| - 1]);
      match read[|read| - 1]
      case PairStart(epoch) => Some((epoch, true))
      case PairStop => None
      case PairCommitted => if before.Some? then Some((before.value.0, false)) else None
      case Shutdown => None
      case _ => before
  }

  /** A living worker holds what it has read: a boot message first and only first, the last host list, and the last
      window while it is in its loop. One that has left its loop has no window and has told everybody to stop. */
  ghost predicate Follows(n: Net, read: seq<Message>)
  {
    n.alive ==>
      && (n.booted <==> read != []) && (n.booted ==> read[0].Boot?)
      && n.hosts == LastHosts(read)
      && (n.looping ==>
            match n.pair
            case None => LastWindow(read) == None
            case Some(w) => LastWindow(read) == Some((w.epoch, w.listening)))
      && (!n.looping ==> n.pair.None? && forall t | t in n.connections :: n.connections[t].cancelled)
  }

  lemma ReadingFollows(n: Net, read: seq<Message>, m: Message)
    requires Follows(n, read) && n.alive && n.looping
    ensures Follows(Receive(n, m), read + [m])
  {
    hide CutStrangers, LastHosts, LastWindow;
    ReadPush(read, m);
    if read != [] {
      assert (read + [m])[0] == read[0];
    }
  }

  lemma ReadPush(read: seq<Message>, m: Message)
    ensures LastHosts(read + [m]) == match m case Boot(h) => h case Hosts(h) => h case _ => LastHosts(read)
    ensures LastWindow(read + [m]) ==
            match m
            case PairStart(epoch) => Some((epoch, true))
            case PairStop => None
            case PairCommitted => (var w := LastWindow(read); if w.Some? then Some((w.value.0, false)) else None)
            case Shutdown => None
            case _ => LastWindow(read)
    ensures read == [] ==> LastHosts(read) == [] && LastWindow(read) == None
  {
    assert (read + [m])[..|read|] == read;
  }

  lemma LoopFollows(n: Net, read: seq<Message>, l: LoopStep)
    requires Follows(n, read) && (n.looping || l.Die?) && LoopProceeds(n, l).Some?
    ensures Follows(LoopProceeds(n, l).value, read)
  {
    hide LastHosts, LastWindow;
  }

  /** What threads and calls leave alone. */
  ghost predicate SameLoop(n: Net, m: Net)
  {
    && m.alive == n.alive && m.booted == n.booted && m.looping == n.looping && m.hosts == n.hosts && m.pair == n.pair
    && m.connections.Keys == n.connections.Keys
    && forall t | t in n.connections ::
         && m.connections[t].cancelled == n.connections[t].cancelled
         && m.connections[t].allowed == n.connections[t].allowed
  }

  lemma SameFollows(n: Net, m: Net, read: seq<Message>)
    requires Follows(n, read) && SameLoop(n, m)
    ensures Follows(m, read)
  {
    hide LastHosts, LastWindow;
  }

  lemma CallLoop(n: Net, c: CallStep)
    requires Proceed(n, c).Some?
    ensures SameLoop(n, Proceed(n, c).value.0)
  {
  }

  lemma ConnLoop(n: Net, id: nat, c: ConnStep)
    requires ConnProceeds(n, id, c).Some?
    ensures SameLoop(n, ConnProceeds(n, id, c).value)
  {
    hide Knows, Got;
  }

  lemma PairLoop(n: Net, id: nat, c: PairStep, fp: Fingerprinter)
    requires PairProceeds(n, id, c, fp).Some?
    ensures SameLoop(n, PairProceeds(n, id, c, fp).value)
  {
    hide HostKey, Got, Begin, SetClient, SameLoop;
    ClientQuiet(n);
    BeginQuiet(n);
  }

  lemma ClientQuiet(n: Net)
    ensures forall id, c :: SameLoop(n, SetClient(n, id, c))
  {
  }

  lemma BeginQuiet(n: Net)
    ensures forall r, o, id, c :: SameLoop(n, SetClient(Begin(n, r, o), id, c))
  {
  }

  /** What an action of the present worker reads. */
  ghost function Read(s: System, a: Action): seq<Message>
  {
    if a.Receives? && Inbox(s.sup) != [] then Inbox(s.sup)[..1] else []
  }

  lemma NextFollows(s: System, a: Action, read: seq<Message>, fp: Fingerprinter)
    requires Next(s, a, fp).Some? && (s.net.Some? <==> s.sup.worker.Some?)
    requires s.net.Some? ==> Follows(s.net.value, read)
    ensures var u := Next(s, a, fp).value;
            u.net.Some? ==>
              Follows(u.net.value, if Child(u.sup) != Child(s.sup) then [] else read + Read(s, a))
  {
    hide Follows, Advance, Receive, LoopProceeds, Proceed, ConnProceeds, PairProceeds, StillMissed, Misses;
    assert read + [] == read;
    if a.Super? {
      NewFollows();
    } else {
      var n := s.net.value;
      match a
      case Receives =>
        ReadingFollows(n, read, s.sup.worker.value.inbox[0]);
        assert Inbox(s.sup)[..1] == [s.sup.worker.value.inbox[0]];
      case Loops(l) => LoopFollows(n, read, l);
      case Calls(c) =>
        CallLoop(n, c);
        SameFollows(n, Proceed(n, c).value.0, read);
      case Connects(id, c) =>
        ConnLoop(n, id, c);
        SameFollows(n, ConnProceeds(n, id, c).value, read);
      case Pairs(id, c) =>
        PairLoop(n, id, c, fp);
        SameFollows(n, PairProceeds(n, id, c, fp).value, read);
    }
  }

  lemma NewFollows()
    ensures Follows(NewNet(), [])
  {
  }

  /** In every run the living worker's host list is the last one it read, and its pairing window the one its messages
      leave: opened by the last start it read, closed to new clients once a host was committed, gone after a stop. */
  lemma {:induction false} WorkerFollowsWhatItRead(store: Store.StoreState, actions: seq<Action>, fp: Fingerprinter)
    requires Store.Trusted(store, fp) && Run(Start(store), actions, fp).Some?
    ensures var s := Run(Start(store), actions, fp).value;
            s.net.Some? ==> Follows(s.net.value, Reads(Start(store), actions, fp))
  {
    hide Start, Next, Follows, Store.Trusted;
    if actions == [] {
      assert Start(store).net.None? by { NoWorker(store); }
    } else {
      var init, a := actions[..|actions| - 1], actions[|actions| - 1];
      WorkerFollowsWhatItRead(store, init, fp);
      Together(store, init, fp);
      var read := Reads(Start(store), init, fp);
      NextFollows(Run(Start(store), init, fp).value, a, read, fp);
      SomethingRead(Run(Start(store), init, fp).value, a, fp);
      assert read + [] == read;
    }
  }

  lemma SomethingRead(s: System, a: Action, fp: Fingerprinter)
    requires Next(s, a, fp).Some?
    ensures Read(s, a) == if a.Receives? then Inbox(s.sup)[..1] else []
  {
    hide Advance, Proceed, ConnProceeds, PairProceeds, LoopProceeds, Receive, StillMissed;
  }

  lemma NoWorker(store: Store.StoreState)
    ensures Start(store).net.None?
  {
  }

  lemma Together(store: Store.StoreState, actions: seq<Action>, fp: Fingerprinter)
    requires Store.Trusted(store, fp) && Run(Start(store), actions, fp).Some?
    ensures var s := Run(Start(store), actions, fp).value; s.net.Some? <==> s.sup.worker.Some?
  {
    hide Run, Start;
    SupervisorHoldsThroughout(store, actions, fp);
  }

  // ---------------------------------------------------------------------------------------------
  // Who may connect

  /** The host list read when the connection with this number was accepted. */
  ghost function ListAtAccept(s: System, actions: seq<Action>, id: nat, fp: Fingerprinter): seq<Host>
  {
    if actions == [] then []
    else
      var init, a := actions[..|actions| - 1], actions[|actions| - 1];
      match Run(s, init, fp)
      case Some(t) =>
        if a == Loops(Accept) && t.net.Some? && t.net.value.next == id then LastHosts(Reads(s, init, fp))
        else ListAtAccept(s, init, id, fp)
      case None => []
  }

  /** Every connection has the list of its acceptance. */
  ghost predicate Given(n: Net, s: System, actions: seq<Action>, fp: Fingerprinter)
  {
    forall t | t in n.connections :: n.connections[t].allowed == ListAtAccept(s, actions, t, fp)
  }

  /** No new connection, and each with the list it had. */
  ghost predicate NoneNew(n: Net, m: Net)
  {
    forall t | t in m.connections :: t in n.connections && m.connections[t].allowed == n.connections[t].allowed
  }

  lemma QuietNoneNew(n: Net, m: Net)
    requires SameLoop(n, m)
    ensures NoneNew(n, m)
  {
  }

  lemma ReceiveNoneNew(n: Net, m: Message)
    ensures NoneNew(n, Receive(n, m))
  {
    hide Knows;
  }

  lemma LoopNoneNew(n: Net, l: LoopStep)
    requires l != Accept && LoopProceeds(n, l).Some?
    ensures NoneNew(n, LoopProceeds(n, l).value)
  {
  }

  /** An action of the worker other than accepting a connection brings no new one and changes no list. */
  lemma NoNewList(s: System, a: Action, fp: Fingerprinter)
    requires Next(s, a, fp).Some? && a != Loops(Accept) && s.net.Some?
    ensures var u := Next(s, a, fp).value; u.net.Some? && u.net.value.connections != map[] ==>
              NoneNew(s.net.value, u.net.value)
  {
    hide Advance, Receive, LoopProceeds, Proceed, ConnProceeds, PairProceeds, StillMissed, Misses, NoneNew, SameLoop;
    var n := s.net.value;
    match a
    case Super(_) => SelfNoneNew(n);
    case Receives => ReceiveNoneNew(n, s.sup.worker.value.inbox[0]);
    case Loops(l) => LoopNoneNew(n, l);
    case Calls(c) =>
      CallLoop(n, c);
      QuietNoneNew(n, Proceed(n, c).value.0);
    case Connects(id, c) =>
      ConnLoop(n, id, c);
      QuietNoneNew(n, ConnProceeds(n, id, c).value);
    case Pairs(id, c) =>
      PairLoop(n, id, c, fp);
      QuietNoneNew(n, PairProceeds(n, id, c, fp).value);
  }

  lemma SelfNoneNew(n: Net)
    ensures NoneNew(n, n)
  {
  }

  /** In every run the list a living worker's connection was accepted with is the last one read before that. */
  lemma {:induction false} ConnectionsHaveTheListOfTheirAcceptance(store: Store.StoreState, actions: seq<Action>,
                                                                   fp: Fingerprinter)
    requires Store.Trusted(store, fp) && Run(Start(store), actions, fp).Some?
    ensures var s := Run(Start(store), actions, fp).value;
            s.net.Some? ==> Given(s.net.value, Start(store), actions, fp)
  {
    hide Start, Follows, Store.Trusted, LastHosts, Reads;
    if actions == [] {
      NoWorker(store);
    } else {
      var init, a := actions[..|actions| - 1], actions[|actions| - 1];
      ConnectionsHaveTheListOfTheirAcceptance(store, init, fp);
      var s := Run(Start(store), init, fp).value;
      if a == Loops(Accept) {
        hide Run;
        WorkerFollowsWhatItRead(store, init, fp);
        FollowsList(s.net.value, Reads(Start(store), init, fp));
      } else if s.net.Some? {
        NoNewList(s, a, fp);
        hide Next;
      } else {
        NewIsEmpty(s, a, fp);
        hide Next;
      }
    }
  }

  lemma FollowsList(n: Net, read: seq<Message>)
    requires Follows(n, read) && n.alive
    ensures n.hosts == LastHosts(read)
  {
  }

  lemma NewIsEmpty(s: System, a: Action, fp: Fingerprinter)
    requires Next(s, a, fp).Some? && s.net.None?
    ensures var u := Next(s, a, fp).value; u.net.Some? ==> u.net.value.connections == map[]
  {
    hide Advance, StillMissed, Misses;
  }

  /** A connection that has not shaken hands can authenticate as a host exactly when the last list read before its
      acceptance holds it. So whoever was paired before can connect as soon as the worker has read the list, and whoever
      was revoked cannot from then on. */
  lemma HandshakeAcceptsExactly(store: Store.StoreState, actions: seq<Action>, fp: Fingerprinter, id: nat, f: string)
    requires Store.Trusted(store, fp) && Run(Start(store), actions, fp).Some?
    requires var s := Run(Start(store), actions, fp).value;
             && CanAct(s, Connects(id, Authenticate(f))) && id in s.net.value.connections
             && s.net.value.connections[id].thread == Handshake
    ensures var s := Run(Start(store), actions, fp).value;
            Next(s, Connects(id, Authenticate(f)), fp).Some? <==>
            Knows(ListAtAccept(Start(store), actions, id, fp), f)
  {
    hide Run, Start, Knows, Store.Trusted, ListAtAccept;
    ConnectionsHaveTheListOfTheirAcceptance(store, actions, fp);
  }

  /** A connection accepted now goes by the last list read, whatever was read before it. */
  lemma AcceptingUsesTheLastList(store: Store.StoreState, actions: seq<Action>, fp: Fingerprinter, hosts: seq<Host>)
    requires Store.Trusted(store, fp) && Run(Start(store), actions + [Loops(Accept)], fp).Some?
    requires Run(Start(store), actions, fp).Some? && Reads(Start(store), actions, fp) != []
    requires var read := Reads(Start(store), actions, fp); read[|read| - 1] == Hosts(hosts)
    ensures var s := Run(Start(store), actions, fp).value;
            var u := Run(Start(store), actions + [Loops(Accept)], fp).value;
            && s.net.Some? && u.net.Some? && s.net.value.next in u.net.value.connections
            && u.net.value.connections[s.net.value.next] == Conn(Handshake, false, hosts)
  {
    hide Start, Store.Trusted, Reads;
    assert (actions + [Loops(Accept)])[..|actions|] == actions;
    WorkerFollowsWhatItRead(store, actions, fp);
    hide Run;
  }

  // ---------------------------------------------------------------------------------------------
  // Pairing clients

  /** A pairing client is accepted exactly while the last window the messages leave still takes clients and none is
      active in it, and belongs to that window's epoch. */
  lemma ClientsNeedAListeningWindow(store: Store.StoreState, actions: seq<Action>, fp: Fingerprinter)
    requires Store.Trusted(store, fp) && Run(Start(store), actions, fp).Some?
    requires CanAct(Run(Start(store), actions, fp).value, Loops(AcceptPairing))
    ensures var s := Run(Start(store), actions, fp).value; var window := LastWindow(Reads(Start(store), actions, fp));
            var next := Next(s, Loops(AcceptPairing), fp);
            && (next.Some? <==>
                  window.Some? && window.value.1 && s.net.value.pair.Some? && s.net.value.pair.value.active.None?)
            && (next.Some? ==>
                  var id := s.net.value.nextClient; var n := next.value.net.value;
                  && n.clients == s.net.value.clients[id := Client(window.value.0, Exchanging, None)]
                  && n.pair.Some? && n.pair.value.active == Some(id))
  {
    hide Run, Start, Store.Trusted, Reads, LastWindow, LastHosts;
    WorkerFollowsWhatItRead(store, actions, fp);
  }

  /** Once a living worker has left its loop, everybody has been told to stop, and nobody new is accepted. */
  lemma LeavingStopsEverybody(store: Store.StoreState, actions: seq<Action>, fp: Fingerprinter, t: nat)
    requires Store.Trusted(store, fp) && Run(Start(store), actions, fp).Some?
    requires var s := Run(Start(store), actions, fp).value;
             s.net.Some? && s.net.value.alive && !s.net.value.looping
    ensures var s := Run(Start(store), actions, fp).value;
            && (t in s.net.value.connections ==> s.net.value.connections[t].cancelled)
            && s.net.value.pair.None? && Next(s, Loops(Accept), fp).None? && Next(s, Loops(AcceptPairing), fp).None?
  {
    hide Run, Start, Store.Trusted, Reads, LastWindow, LastHosts;
    WorkerFollowsWhatItRead(store, actions, fp);
  }

  // ---------------------------------------------------------------------------------------------
  // Who asks for what

  /** Every call of a connection is about that connection, every call of a pairing client is a result for the epoch it
      was accepted in, and there are at most eight connections. */
  ghost predicate Own(n: Net)
  {
    && (forall k | k in n.calls ::
          match n.calls[k].owner
          case Connection(id) => SupervisorTheorems.About(n.calls[k].request) == Some(id)
          case Pairing(p) =>
            && n.calls[k].request.PairResult?
            && p in n.clients && n.clients[p].epoch == n.calls[k].request.epoch)
    && (forall p | p in n.clients :: p < n.nextClient)
    && |n.connections| <= 8
  }

  lemma ReceiveOwn(n: Net, m: Message)
    requires Own(n)
    ensures Own(Receive(n, m))
  {
    hide Own;
    ReceiveShape(n, m);
    CallsOwn(n, Receive(n, m));
  }

  /** The same clients, connections and calls, whatever became of the calls. */
  ghost predicate SameOwners(n: Net, m: Net)
  {
    && m.clients == n.clients && m.nextClient == n.nextClient && m.connections.Keys == n.connections.Keys
    && m.calls.Keys == n.calls.Keys
    && forall k | k in n.calls :: m.calls[k].owner == n.calls[k].owner && m.calls[k].request == n.calls[k].request
  }

  lemma CallsOwn(n: Net, m: Net)
    requires Own(n) && SameOwners(n, m)
    ensures Own(m)
  {
    SameSize(n.connections, m.connections);
  }

  lemma ReceiveShape(n: Net, m: Message)
    ensures SameOwners(n, Receive(n, m))
  {
    hide Receive;
    MailboxChanges(n, m);
    ReceiveKeepsClients(n, m);
  }

  /** Reading a message changes at most the mailbox of one call, and not the peer table. */
  lemma MailboxChanges(n: Net, m: Message)
    ensures var u := Receive(n, m);
            && u.peers == n.peers
            && (u.calls == n.calls
                || (m.Reply? && m.id in n.calls
                    && u.calls == n.calls[m.id := n.calls[m.id].(mailbox := Some(m.answer))]))
  {
    hide CutStrangers, CutAll;
  }

  lemma ReceiveKeepsClients(n: Net, m: Message)
    ensures var u := Receive(n, m);
            u.clients == n.clients && u.nextClient == n.nextClient && u.connections.Keys == n.connections.Keys
  {
    hide Knows;
  }

  lemma SameSize(a: map<nat, Conn>, b: map<nat, Conn>)
    requires b.Keys <= a.Keys
    ensures |b| <= |a|
  {
    SmallerSet(b.Keys, a.Keys);
    assert |b| == |b.Keys| && |a| == |a.Keys|;
  }

  lemma LoopOwn(n: Net, l: LoopStep)
    requires Own(n) && LoopProceeds(n, l).Some?
    ensures Own(LoopProceeds(n, l).value)
  {
    var m := LoopProceeds(n, l).value;
    if !l.Accept? {
      assert m.connections.Keys <= n.connections.Keys;
      SameSize(n.connections, m.connections);
    }
  }

  lemma CallOwn(n: Net, c: CallStep)
    requires Own(n) && Proceed(n, c).Some?
    ensures Own(Proceed(n, c).value.0)
  {
    hide Own;
    CallsOwn(n, Proceed(n, c).value.0);
  }

  lemma ConnOwn(n: Net, id: nat, c: ConnStep)
    requires Own(n) && ConnProceeds(n, id, c).Some?
    ensures Own(ConnProceeds(n, id, c).value)
  {
    hide Knows, Got, Own, SetThread, Begin, Askable;
    var thread := n.connections[id].thread;
    match c
    case Fail => ThreadOwn(n, id, Finished);
    case Authenticate(f) =>
      AskOwn(n, id, Authenticated(id, f), Authenticating(f, n.nextCall));
    case Admitted => ThreadOwn(n, id, Serving(thread.fingerprint, None));
    case Refused => ThreadOwn(n, id, Finished);
    case Ask(r) =>
      AskableAbout(r, id);
      AskOwn(n, id, r, thread.(busy := Some(n.nextCall)));
    case Resume => ThreadOwn(n, id, thread.(busy := None));
    case Leave => AskOwn(n, id, Disconnected(id), Leaving(n.nextCall));
    case End => ThreadOwn(n, id, Finished);
  }

  lemma ThreadOwn(n: Net, id: nat, t: Thread)
    requires Own(n) && id in n.connections
    ensures Own(SetThread(n, id, t))
  {
    SameSize(n.connections, SetThread(n, id, t).connections);
  }

  lemma AskOwn(n: Net, id: nat, r: Request, t: Thread)
    requires Own(n) && id in n.connections && SupervisorTheorems.About(r) == Some(id)
    ensures Own(SetThread(Begin(n, r, Connection(id)), id, t))
  {
    SameSize(n.connections, SetThread(Begin(n, r, Connection(id)), id, t).connections);
  }

  lemma AskableAbout(r: Request, id: nat)
    requires Askable(r, id)
    ensures SupervisorTheorems.About(r) == Some(id)
  {
  }

  lemma PairOwn(n: Net, id: nat, c: PairStep, fp: Fingerprinter)
    requires Own(n) && PairProceeds(n, id, c, fp).Some?
    ensures Own(PairProceeds(n, id, c, fp).value)
  {
    hide HostKey, Got, Own, Begin, SetClient;
    var client := n.clients[id];
    var told := if client.thread.Confirming? then Some((client.thread.key, client.thread.call)) else None;
    match c
    case Read(key) => ReportOwn(n, id, client.(thread := Committing(key, n.nextCall)), Some(key));
    case Break => ReportOwn(n, id, client.(thread := Reporting(n.nextCall)), None);
    case Granted => ClientOwn(n, id, client.(thread := Confirming(client.thread.key, client.thread.call)));
    case Denied => ReportOwn(n, id, client.(thread := Reporting(n.nextCall)), None);
    case Confirm(works) =>
      if works {
        ClientOwn(n, id, client.(thread := Over, confirmed := told));
      } else {
        ReportOwn(n, id, client.(thread := Reporting(n.nextCall), confirmed := told), None);
      }
    case Close => ClientOwn(n, id, client.(thread := Over));
  }

  lemma ClientOwn(n: Net, id: nat, client: Client)
    requires Own(n) && id in n.clients && client.epoch == n.clients[id].epoch
    ensures Own(SetClient(n, id, client))
  {
  }

  lemma ReportOwn(n: Net, id: nat, client: Client, key: Option<string>)
    requires Own(n) && id in n.clients && client.epoch == n.clients[id].epoch
    ensures Own(SetClient(Begin(n, PairResult(client.epoch, key), Pairing(id)), id, client))
  {
  }

  /** In every run, each connection asks only about itself, each pairing client reports only on its own epoch, and at
      most eight connections are open. */
  lemma {:induction false} ThreadsSpeakForThemselves(store: Store.StoreState, actions: seq<Action>, fp: Fingerprinter)
    requires Store.Trusted(store, fp) && Run(Start(store), actions, fp).Some?
    ensures var s := Run(Start(store), actions, fp).value; s.net.Some? ==> Own(s.net.value)
  {
    hide Start, Own, Store.Trusted, Advance, Receive, LoopProceeds, Proceed, ConnProceeds, PairProceeds, StillMissed,
      Misses;
    if actions == [] {
      NoWorker(store);
    } else {
      var init, a := actions[..|actions| - 1], actions[|actions| - 1];
      ThreadsSpeakForThemselves(store, init, fp);
      var s := Run(Start(store), init, fp).value;
      NewOwn();
      if !a.Super? {
        var n := s.net.value;
        match a
        case Receives => ReceiveOwn(n, s.sup.worker.value.inbox[0]);
        case Loops(l) => LoopOwn(n, l);
        case Calls(c) => CallOwn(n, c);
        case Connects(id, c) => ConnOwn(n, id, c);
        case Pairs(id, c) => PairOwn(n, id, c, fp);
      }
    }
  }

  lemma NewOwn()
    ensures Own(NewNet())
  {
  }

  /** What the reply `answer` to call `k` does. */
  ghost predicate Delivers(n: Net, k: nat, answer: Answer, m: Net)
  {
    && (k !in n.pending ==> m == n)
    && (k in n.pending ==>
          && k in n.calls && k in m.calls && k !in m.pending
          && m.calls == n.calls[k := n.calls[k].(mailbox := Some(answer))]
          && (n.calls[k].phase.Sent? ==>
                var u := Proceed(m, Take(k));
                && u.Some? && Proceed(m, TimeOut(k)).None? && k in u.value.0.calls
                && u.value.0.calls[k].phase == Decided(if answer == Rejected then None else Some(answer))))
  }

  /** A reply is given to the call that waits for it, whose thread then returns with it; a reply nobody waits for is
      dropped. An answer that rejects the request is an error for the caller. */
  lemma ReplyReachesItsCall(s: System, k: nat, answer: Answer, fp: Fingerprinter)
    requires Sound(s, fp) && CanAct(s, Receives) && s.net.value.booted
    requires s.sup.worker.value.inbox[0] == Reply(k, answer)
    ensures Next(s, Receives, fp).Some? && Next(s, Receives, fp).value.net.Some?
    ensures Delivers(s.net.value, k, answer, Next(s, Receives, fp).value.net.value)
  {
    hide Inv, RulingsOk, UpstreamOk, InboxOk, OwnersOk, PeersOk, Guarded, ClientsOk, Verdict;
  }
}
