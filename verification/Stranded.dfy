/** The transports a supervisor keeps although their connection has ended: when that happens, and until when. */
module Stranded {
  import opened Wrappers
  import opened Documents
  import Store
  import opened Supervisor
  import opened SupervisorInvariant
  import opened SupervisorTheorems
  import opened Worker
  import opened System
  import opened SystemInvariant
  import opened SystemTheorems

  // ---------------------------------------------------------------------------------------------
  // The supervisor's side

  /** Transports are only lost, and only to an order to revoke their own host. */
  ghost predicate Shrinks(s: Sup, u: Sup, t: Step)
  {
    && (forall x | x in u.transports :: x in s.transports && u.transports[x] == s.transports[x])
    && forall x | x in s.transports && x !in u.transports ::
         t.Ordered? && t.control == Control.Revoke(s.transports[x])
  }

  ghost predicate Moves(s: Sup, u: Sup, t: Step)
  {
    (Child(u) != Child(s) && u.transports == map[]) || (Child(u) == Child(s) && Shrinks(s, u, t))
  }

  lemma StopMoves(s: Sup, a: Sup, state: State, now: nat, t: Step)
    requires s.worker.None? ==> s.transports == map[]
    requires a.worker.None? ==> a.transports == map[] && a.services == [] && a.window.None?
    ensures Moves(s, Stop(a, state, now), t)
  {
    hide Stop;
    StoppedShape(a, state, now);
  }

  lemma StartMoves(s: Sup, a: Sup, works: bool, t: Step)
    requires s.worker.None? ==> s.transports == map[]
    requires a.worker.None? && a.transports == map[] && (s.worker.Some? ==> s.worker.value.child < a.spawned)
    ensures Moves(s, StartWorker(a, works).0, t)
  {
  }

  lemma ReconfiguringMoves(s: Sup, store: Store.StoreState, e: Env, t: Step)
    requires s.worker.None? ==> s.transports == map[] && s.services == [] && s.window.None?
    requires s.worker.Some? ==> s.worker.value.child < s.spawned
    ensures Moves(s, Reconfigured(s.(store := store), s.store.config, e).0, t)
  {
    hide Stop, StartWorker, EndpointChanged;
    var a := s.(store := store);
    StopMoves(s, a, Disabled, e.now, t);
    StartMoves(s, StopWorker(a).(root := false), e.start, t);
  }

  lemma RevokingMoves(s: Sup, f: string, e: Env, t: Step)
    requires t.Ordered? && t.control == Control.Revoke(f)
    ensures Moves(s, Revoked(s, f, e).0, t)
  {
    hide Send, StopAll;
    var a := Disconnect(s, OfHost(s.transports, f));
    SupervisorInvariant.SendFrame(a, Hosts(a.store.hosts), e.firstSend);
  }

  lemma OrderMoves(s: Sup, c: Control, e: Env, t: Step, fp: Fingerprinter)
    requires s.worker.None? ==> s.transports == map[] && s.services == [] && s.window.None?
    requires s.worker.Some? ==> s.worker.value.child < s.spawned
    requires t.Ordered? && t.control == c
    ensures Moves(s, Order(s, c, e, fp).0, t)
  {
    hide Store.Alter, Stop, OpenPairing, ClosePairing, Reconfigured, Revoked;
    match c
    case Status =>
    case Logs =>
    case StartPairing => OpeningMoves(s, e, t);
    case StopPairing => ClosingMoves(s, e.firstSend, t);
    case Configure(config) =>
      ReconfiguringMoves(s, Store.Alter(s.store, Store.Change.Configure(config), e.temp, e.backup, fp).0, e, t);
    case Revoke(f) =>
      RevokingMoves(s.(store := Store.Alter(s.store, Store.Change.Revoke(f), e.temp, e.backup, fp).0), f, e, t);
    case Quit => StopMoves(s, s.(quit := true), Disabled, e.now, t);
  }

  lemma ClosingMoves(s: Sup, works: bool, t: Step)
    ensures Moves(s, ClosePairing(s, works), t)
  {
    hide Send;
    SupervisorInvariant.SendFrame(s.(window := None), PairStop, works);
  }

  lemma OpeningMoves(s: Sup, e: Env, t: Step)
    ensures Moves(s, OpenPairing(s, e).0, t)
  {
    hide OpenPairing, Adds;
    OpenAdds(s, e);
    OpeningTransports(s, e);
  }

  lemma OpeningTransports(s: Sup, e: Env)
    ensures OpenPairing(s, e).0.transports == s.transports
  {
    hide Send, ClosePairing;
    var a := ClosePairing(s, e.firstSend);
    ClosePairingFrame(s, e.firstSend);
    SupervisorInvariant.SendFrame(a.(epoch := a.epoch + 1), PairStart(a.epoch + 1), e.secondSend);
  }

  lemma RotatingMoves(s: Sup, e: Env, t: Step)
    requires s.worker.None? ==> s.transports == map[]
    requires s.worker.Some? ==> s.worker.value.child < s.spawned
    ensures Moves(s, Rotate(s, e), t)
  {
    hide Stop, StartWorker;
    var a := StopWorker(s.(rotate := None));
    StartMoves(s, a, e.start, t);
    StartFrame(a, e.start);
    if !StartWorker(a, e.start).1 {
      NotStarted(a, e.start);
      StopMoves(s, StartWorker(a, e.start).0, Error, e.now, t);
    }
  }

  lemma NotStarted(s: Sup, works: bool)
    requires !StartWorker(s, works).1
    ensures StartWorker(s, works).0 == s
  {
  }

  lemma RestartingMoves(s: Sup, e: Env, t: Step)
    requires s.worker.None? ==> s.transports == map[] && s.services == [] && s.window.None?
    requires s.worker.Some? ==> s.worker.value.child < s.spawned
    ensures Moves(s, Restart(s, e), t)
  {
    hide Stop, StartWorker;
    StoppedShape(s, Starting, e.now);
    var a := Stop(s, Starting, e.now);
    StopMoves(s, a, Error, e.now, t);
    var b := a.(bundle := true);
    StartMoves(s, b, e.start, t);
    if !StartWorker(b, e.start).1 {
      NotStarted(b, e.start);
      StopMoves(s, b, Error, e.now, t);
    }
  }

  /** Every step but the answer to a request. */
  lemma StepMoves(s: Sup, t: Step, fp: Fingerprinter)
    requires Inv(s, fp) && !(t.Heard? && t.message.Call?)
    ensures Moves(s, Advance(s, t, fp), t)
  {
    hide Stop, Order, Rotate, Restart, ClosePairing, Inv, Reaped;
    ChildrenAreOld(s, fp);
    InvAuthorised(s, fp);
    match t
    case Ordered(c, e) => OrderMoves(s, c, e, t, fp);
    case Heard(m, e, replied) => StopMoves(s, s, Error, e.now, t);
    case Hangup(e) => StopMoves(s, s, Error, e.now, t);
    case Expiry(e) => ClosingMoves(s, e.firstSend, t);
    case Rotation(e) => RotatingMoves(s, e, t);
    case Reaping(_, _) =>
    case Pausing(state, now) => StopMoves(s, s, state, now, t);
    case Restarting(e) => RestartingMoves(s, e, t);
  }

  /** The transports after a request. */
  function Admitting(transports: map<nat, string>, r: Request, answer: Answer): map<nat, string>
  {
    match r
    case Authenticated(t, f) => if answer == Rejected then transports else transports[t := f]
    case Disconnected(t) => transports - {t}
    case _ => transports
  }

  lemma ServeMoves(s: Sup, r: Request, e: Env, fp: Fingerprinter)
    ensures var (u, answer) := Serve(s, r, e, fp); u.transports == Admitting(s.transports, r, answer)
  {
    hide Store.Alter, Launch, CountOf, StopAll, CloseSoon, StopBinder, Paired, PairingFailed, WindowFits;
    match r
    case Authenticated(t, f) =>
    case Disconnected(t) =>
    case Spawn(t, name) => LaunchShape(s, t, name, false, e);
    case CloseService(t, id) =>
    case BindReverse(t, spec) => LaunchShape(s, t, spec, true, e);
    case CloseReverse(t, spec) =>
    case Root(t, enable) =>
    case PairResult(epoch, key) =>
      if WindowFits(s.window, epoch, e.now) {
        WindowIsOpen(s.window, epoch, e.now);
        PairingFrame(s, key, e, fp);
      }
  }

  lemma HearMoves(s: Sup, m: Message, e: Env, replied: bool, fp: Fingerprinter)
    requires m.Call? && s.worker.Some?
    ensures var u := Hear(s, m, e, replied, fp);
            && Child(u) == Child(s)
            && u.transports == Admitting(s.transports, m.request, Serve(s, m.request, e, fp).1)
  {
    hide Serve, Send;
    HearAdds(s, m, e, replied, fp);
    ServeMoves(s, m.request, e, fp);
    var (a, answer) := Serve(s, m.request, e, fp);
    SupervisorInvariant.SendFrame(a, Reply(m.id, answer), replied);
  }

  // ---------------------------------------------------------------------------------------------
  // The worker's side: what its calls say about a connection

  predicate Presence(r: Request)
  {
    r.Authenticated? || r.Disconnected?
  }

  /** This call asks to admit this transport. */
  predicate Admits(calls: map<nat, Call>, k: nat, t: nat)
  {
    k in calls && calls[k].request.Authenticated? && calls[k].request.transport == t
  }

  /** This call says that this transport is gone. */
  predicate Leaves(calls: map<nat, Call>, k: nat, t: nat)
  {
    k in calls && calls[k].request == Disconnected(t)
  }

  predicate Granted(c: Call)
  {
    c.phase.Returned? && c.phase.result.Some?
  }

  /** A connection asks once to be admitted, and says once that it is gone, after it was told that it is in. */
  ghost predicate PresenceOk(calls: map<nat, Call>, connections: map<nat, Conn>, next: nat)
  {
    && (forall k: nat, t: nat | Admits(calls, k, t) || Leaves(calls, k, t) :: t < next)
    && (forall j: nat, k: nat, t: nat | Admits(calls, j, t) && Admits(calls, k, t) :: j == k)
    && (forall j: nat, k: nat, t: nat | Leaves(calls, j, t) && Leaves(calls, k, t) :: j == k)
    && (forall j: nat, k: nat, t: nat | Leaves(calls, j, t) && Admits(calls, k, t) :: Granted(calls[k]))
    && forall t | t in connections :: ThreadOk(calls, connections[t].thread, t)
  }

  ghost predicate ThreadOk(calls: map<nat, Call>, thread: Thread, t: nat)
  {
    match thread
    case Handshake => forall k: nat :: !Admits(calls, k, t) && !Leaves(calls, k, t)
    case Authenticating(_, c) => Admits(calls, c, t) && forall k: nat :: !Leaves(calls, k, t)
    case Serving(_, _) => forall k: nat :: !Leaves(calls, k, t) && (Admits(calls, k, t) ==> Granted(calls[k]))
    case Leaving(c) => Leaves(calls, c, t)
    case Finished => true
  }

  /** The same requests, and what has returned stays. */
  ghost predicate Evolves(a: map<nat, Call>, b: map<nat, Call>)
  {
    a.Keys == b.Keys
    && forall k | k in a :: b[k].request == a[k].request && (a[k].phase.Returned? ==> b[k].phase == a[k].phase)
  }

  lemma EvolvingKeeps(a: map<nat, Call>, b: map<nat, Call>, connections: map<nat, Conn>, next: nat)
    requires PresenceOk(a, connections, next) && Evolves(a, b)
    ensures PresenceOk(b, connections, next)
  {
    assert forall k: nat, t: nat :: (Admits(b, k, t) <==> Admits(a, k, t)) && (Leaves(b, k, t) <==> Leaves(a, k, t));
    assert forall k | k in a && Granted(a[k]) :: Granted(b[k]);
    hide Granted, Admits, Leaves;
  }

  /** Some of the connections, with their threads. */
  ghost predicate Fewer(a: map<nat, Conn>, b: map<nat, Conn>)
  {
    forall t | t in b :: t in a && b[t].thread == a[t].thread
  }

  lemma FewerKeeps(calls: map<nat, Call>, a: map<nat, Conn>, b: map<nat, Conn>, next: nat)
    requires PresenceOk(calls, a, next) && Fewer(a, b)
    ensures PresenceOk(calls, b, next)
  {
    hide Granted, Admits, Leaves, ThreadOk;
  }

  lemma ThreadKeeps(calls: map<nat, Call>, a: map<nat, Conn>, b: map<nat, Conn>, id: nat, next: nat)
    requires PresenceOk(calls, a, next) && id in b && ThreadOk(calls, b[id].thread, id)
    requires forall t | t in b && t != id :: t in a && b[t].thread == a[t].thread
    ensures PresenceOk(calls, b, next)
  {
    hide Granted, Admits, Leaves, ThreadOk;
  }

  lemma MoreIds(calls: map<nat, Call>, connections: map<nat, Conn>, next: nat)
    requires PresenceOk(calls, connections, next)
    ensures PresenceOk(calls, connections, next + 1)
    ensures ThreadOk(calls, Handshake, next)
  {
    hide Granted, Admits, Leaves;
  }

  /** A new call that says nothing about the presence of a connection. */
  lemma OtherCallKeeps(a: map<nat, Call>, connections: map<nat, Conn>, next: nat, k: nat, c: Call)
    requires PresenceOk(a, connections, next) && k !in a && !Presence(c.request)
    ensures PresenceOk(a[k := c], connections, next)
  {
    var b := a[k := c];
    assert forall j: nat, t: nat :: (Admits(b, j, t) <==> Admits(a, j, t)) && (Leaves(b, j, t) <==> Leaves(a, j, t));
    assert forall j | j in a :: b[j] == a[j];
    hide Granted, Admits, Leaves;
  }

  /** A call that asks to admit a connection, made in its handshake. */
  lemma AskingKeeps(a: map<nat, Call>, connections: map<nat, Conn>, next: nat, id: nat, f: string, k: nat, c: Call)
    requires PresenceOk(a, connections, next) && k !in a && id in connections && connections[id].thread.Handshake?
    requires c.request == Authenticated(id, f) && id < next
    ensures PresenceOk(a[k := c], connections - {id}, next) && ThreadOk(a[k := c], Authenticating(f, k), id)
  {
    var b := a[k := c];
    assert ThreadOk(a, connections[id].thread, id);
    assert forall j: nat, t: nat :: Leaves(b, j, t) <==> Leaves(a, j, t);
    assert forall j: nat, t: nat :: Admits(b, j, t) <==> Admits(a, j, t) || (j == k && t == id);
    assert forall j | j in a :: b[j] == a[j];
    hide Granted, Admits, Leaves;
  }

  /** A call that says that a connection is gone, made while it serves. */
  lemma PartingKeeps(a: map<nat, Call>, connections: map<nat, Conn>, next: nat, id: nat, k: nat, c: Call)
    requires PresenceOk(a, connections, next) && k !in a && id in connections && connections[id].thread.Serving?
    requires c.request == Disconnected(id) && id < next
    ensures PresenceOk(a[k := c], connections - {id}, next) && ThreadOk(a[k := c], Leaving(k), id)
  {
    var b := a[k := c];
    assert ThreadOk(a, connections[id].thread, id);
    assert forall j: nat, t: nat :: Admits(b, j, t) <==> Admits(a, j, t);
    assert forall j: nat, t: nat :: Leaves(b, j, t) <==> Leaves(a, j, t) || (j == k && t == id);
    assert forall j | j in a :: b[j] == a[j];
    hide Granted, Admits, Leaves;
  }

  lemma AdmittedThread(calls: map<nat, Call>, connections: map<nat, Conn>, next: nat, id: nat, f: string, k: nat)
    requires PresenceOk(calls, connections, next) && id in connections
    requires connections[id].thread == Authenticating(f, k) && k in calls && Granted(calls[k])
    ensures ThreadOk(calls, Serving(f, None), id)
  {
    assert ThreadOk(calls, connections[id].thread, id);
    hide Granted, Admits, Leaves;
  }

  /** The calls have numbers below the next one, and connections below theirs. */
  ghost predicate Numbered(n: Net)
  {
    (forall k | k in n.calls :: k < n.nextCall) && forall t | t in n.connections :: t < n.next
  }

  ghost predicate Present(n: Net)
  {
    PresenceOk(n.calls, n.connections, n.next)
  }

  /** A connection goes on without a call. */
  lemma SetKeeps(n: Net, id: nat, thread: Thread)
    requires Present(n) && id in n.connections && ThreadOk(n.calls, thread, id)
    ensures Present(SetThread(n, id, thread))
  {
    hide PresenceOk, ThreadOk;
    ThreadKeeps(n.calls, n.connections, SetThread(n, id, thread).connections, id, n.next);
  }

  lemma AskKeeps(n: Net, id: nat, r: Request, thread: Thread)
    requires Present(n) && Numbered(n) && id in n.connections && !Presence(r)
    requires n.connections[id].thread.Serving? && thread.Serving?
    ensures Present(SetThread(Begin(n, r, Connection(id)), id, thread))
  {
    hide PresenceOk, ThreadOk, Presence;
    var b := Begin(n, r, Connection(id));
    OtherCallKeeps(n.calls, n.connections, n.next, n.nextCall, b.calls[n.nextCall]);
    ServingStays(b.calls, b.connections, n.next, id, thread);
    SetKeeps(b, id, thread);
  }

  lemma AuthenticateKeeps(n: Net, id: nat, f: string)
    requires Present(n) && Numbered(n) && id in n.connections && n.connections[id].thread.Handshake?
    ensures Present(SetThread(Begin(n, Authenticated(id, f), Connection(id)), id, Authenticating(f, n.nextCall)))
  {
    hide PresenceOk, ThreadOk;
    var m := SetThread(Begin(n, Authenticated(id, f), Connection(id)), id, Authenticating(f, n.nextCall));
    AskingKeeps(n.calls, n.connections, n.next, id, f, n.nextCall, m.calls[n.nextCall]);
    Rejoins(m.calls, n.connections, m.connections, id, n.next);
  }

  lemma LeaveKeeps(n: Net, id: nat)
    requires Present(n) && Numbered(n) && id in n.connections && n.connections[id].thread.Serving?
    ensures Present(SetThread(Begin(n, Disconnected(id), Connection(id)), id, Leaving(n.nextCall)))
  {
    hide PresenceOk, ThreadOk;
    var m := SetThread(Begin(n, Disconnected(id), Connection(id)), id, Leaving(n.nextCall));
    PartingKeeps(n.calls, n.connections, n.next, id, n.nextCall, m.calls[n.nextCall]);
    Rejoins(m.calls, n.connections, m.connections, id, n.next);
  }

  lemma ConnKeeps(n: Net, id: nat, c: ConnStep)
    requires Present(n) && Numbered(n) && ConnProceeds(n, id, c).Some?
    ensures Present(ConnProceeds(n, id, c).value)
  {
    hide Present, Numbered, SetThread, Begin, ThreadOk, Knows;
    var thread := n.connections[id].thread;
    match c
    case Fail => EndedThread(n, id);
    case Authenticate(f) => AuthenticateKeeps(n, id, f);
    case Admitted =>
      AdmittedKeeps(n, id, thread.fingerprint, thread.call);
    case Refused => EndedThread(n, id);
    case Ask(r) => AskKeeps(n, id, r, thread.(busy := Some(n.nextCall)));
    case Resume => ResumeKeeps(n, id, thread.(busy := None));
    case Leave => LeaveKeeps(n, id);
    case End => EndedThread(n, id);
  }

  lemma EndedThread(n: Net, id: nat)
    requires Present(n) && id in n.connections
    ensures Present(SetThread(n, id, Finished))
  {
    hide PresenceOk;
    SetKeeps(n, id, Finished);
  }

  lemma AdmittedKeeps(n: Net, id: nat, f: string, k: nat)
    requires Present(n) && id in n.connections && n.connections[id].thread == Authenticating(f, k) && Got(n, k, true)
    ensures Present(SetThread(n, id, Serving(f, None)))
  {
    hide PresenceOk, ThreadOk;
    AdmittedThread(n.calls, n.connections, n.next, id, f, k);
    SetKeeps(n, id, Serving(f, None));
  }

  lemma ResumeKeeps(n: Net, id: nat, thread: Thread)
    requires Present(n) && id in n.connections && n.connections[id].thread.Serving? && thread.Serving?
    ensures Present(SetThread(n, id, thread))
  {
    hide PresenceOk, ThreadOk;
    ServingStays(n.calls, n.connections, n.next, id, thread);
    SetKeeps(n, id, thread);
  }

  lemma ServingStays(calls: map<nat, Call>, connections: map<nat, Conn>, next: nat, id: nat, thread: Thread)
    requires PresenceOk(calls, connections, next) && id in connections
    requires connections[id].thread.Serving? && thread.Serving?
    ensures ThreadOk(calls, thread, id)
  {
    assert ThreadOk(calls, connections[id].thread, id);
    hide Granted, Admits, Leaves;
  }

  /** One thread has changed, the others have not. */
  lemma Rejoins(calls: map<nat, Call>, a: map<nat, Conn>, b: map<nat, Conn>, id: nat, next: nat)
    requires PresenceOk(calls, a - {id}, next) && id in b && ThreadOk(calls, b[id].thread, id)
    requires forall t | t in b && t != id :: t in a && b[t].thread == a[t].thread
    ensures PresenceOk(calls, b, next)
  {
    hide PresenceOk;
    ThreadKeeps(calls, a - {id}, b, id, next);
  }

  /** A step of a pairing thread makes at most one call, about its pairing. */
  lemma PairShape(n: Net, id: nat, c: PairStep, fp: Fingerprinter)
    requires PairProceeds(n, id, c, fp).Some?
    ensures var m := PairProceeds(n, id, c, fp).value;
            && m.connections == n.connections && m.next == n.next
            && (m.calls == n.calls || Calling(n, m, Pairing(id)))
  {
    hide HostKey, SetClient;
    SetClientCalls();
  }

  lemma SetClientCalls()
    ensures forall n: Net, id: nat, c: Client ::
              var m := SetClient(n, id, c);
              m.calls == n.calls && m.connections == n.connections && m.next == n.next && m.nextCall == n.nextCall
  {
  }

  /** One more call, not about presence. */
  ghost predicate Calling(n: Net, m: Net, o: Owner)
  {
    exists r: Request :: !Presence(r) && m.calls == Begin(n, r, o).calls
  }

  lemma PairKeeps(n: Net, id: nat, c: PairStep, fp: Fingerprinter)
    requires Present(n) && Numbered(n) && PairProceeds(n, id, c, fp).Some?
    ensures Present(PairProceeds(n, id, c, fp).value)
  {
    hide PresenceOk, PairProceeds, Presence;
    PairShape(n, id, c, fp);
    var m := PairProceeds(n, id, c, fp).value;
    if m.calls != n.calls {
      var r: Request :| !Presence(r) && m.calls == Begin(n, r, Pairing(id)).calls;
      OtherCallKeeps(n.calls, n.connections, n.next, n.nextCall, m.calls[n.nextCall]);
    }
  }

  lemma LoopKeeps(n: Net, l: LoopStep)
    requires PresenceOk(n.calls, n.connections, n.next) && LoopProceeds(n, l).Some?
    ensures var m := LoopProceeds(n, l).value; PresenceOk(m.calls, m.connections, m.next)
  {
    hide PresenceOk;
    var m := LoopProceeds(n, l).value;
    if l.Accept? {
      MoreIds(n.calls, n.connections, n.next);
      ThreadKeeps(n.calls, n.connections, m.connections, n.next, n.next + 1);
    } else {
      FewerKeeps(n.calls, n.connections, m.connections, n.next);
    }
  }

  lemma MoveEvolves(n: Net, k: nat, p: Phase)
    requires k in n.calls && !n.calls[k].phase.Returned?
    ensures Evolves(n.calls, Move(n, k, p).calls)
    ensures Move(n, k, p).connections == n.connections && Move(n, k, p).next == n.next
  {
  }

  lemma CallShape(n: Net, c: CallStep)
    requires Proceed(n, c).Some?
    ensures var m := Proceed(n, c).value.0;
            Evolves(n.calls, m.calls) && m.connections == n.connections && m.next == n.next
  {
    hide Evolves, Move;
    MoveEvolves(n, c.k, NextPhase(n.calls[c.k], c).value);
  }

  lemma CallKeeps(n: Net, c: CallStep)
    requires Present(n) && Proceed(n, c).Some?
    ensures Present(Proceed(n, c).value.0)
  {
    hide PresenceOk, Evolves, Proceed;
    CallShape(n, c);
    EvolvingKeeps(n.calls, Proceed(n, c).value.0.calls, n.connections, n.next);
  }

  lemma ReadKeeps(n: Net, m: Message)
    requires PresenceOk(n.calls, n.connections, n.next)
    ensures var r := Receive(n, m);
            && PresenceOk(r.calls, r.connections, r.next) && Evolves(n.calls, r.calls)
            && Fewer(n.connections, r.connections) && r.connections.Keys == n.connections.Keys
  {
    hide PresenceOk, Receive, Evolves, Fewer;
    var r := Receive(n, m);
    ReadShape(n, m);
    EvolvingKeeps(n.calls, r.calls, n.connections, n.next);
    FewerKeeps(r.calls, n.connections, r.connections, n.next);
  }

  lemma ReadShape(n: Net, m: Message)
    ensures var r := Receive(n, m);
            && Evolves(n.calls, r.calls) && Fewer(n.connections, r.connections)
            && r.connections.Keys == n.connections.Keys && r.next == n.next
  {
    hide CutStrangers, CutAll, Evolves, Fewer;
    SameShape(n.calls, n.connections);
    CutAllShape(n.connections);
    if m.Hosts? {
      CutShape(n.connections, n.peers, m.hosts);
    } else if m.Reply? && m.id in n.calls {
      MailShape(n.calls, m.id, m.answer);
    }
  }

  lemma SameShape(calls: map<nat, Call>, connections: map<nat, Conn>)
    ensures Evolves(calls, calls) && Fewer(connections, connections)
  {
  }

  lemma CutAllShape(connections: map<nat, Conn>)
    ensures CutAll(connections).Keys == connections.Keys && Fewer(connections, CutAll(connections))
  {
  }

  lemma MailShape(calls: map<nat, Call>, k: nat, answer: Answer)
    requires k in calls
    ensures Evolves(calls, calls[k := calls[k].(mailbox := Some(answer))])
  {
  }

  lemma CutShape(connections: map<nat, Conn>, peers: map<nat, string>, hosts: seq<Host>)
    ensures var cut := CutStrangers(connections, peers, hosts);
            cut.Keys == connections.Keys && Fewer(connections, cut)
  {
    hide Knows;
  }

  // ---------------------------------------------------------------------------------------------
  // Both sides

  /** The connection has ended, whether or not the loop has noticed. */
  predicate Gone(connections: map<nat, Conn>, t: nat)
  {
    t in connections ==> connections[t].thread == Finished
  }

  /** The request of this call has left the worker: it was answered or is on its way. */
  ghost predicate Posted(upstream: seq<Message>, rulings: map<nat, Ruling>, k: nat)
  {
    k in rulings || exists i | 0 <= i < |upstream| :: upstream[i].Call? && upstream[i].id == k
  }

  /** The supervisor will read that this transport is gone. */
  ghost predicate Farewell(upstream: seq<Message>, t: nat)
  {
    exists i | 0 <= i < |upstream| :: upstream[i].Call? && upstream[i].request == Disconnected(t)
  }

  /** The connection gave up waiting to be admitted, or was refused. */
  ghost predicate GivenUp(calls: map<nat, Call>, t: nat)
  {
    exists k: nat :: Admits(calls, k, t) && calls[k].phase == Returned(None)
  }

  /** The connection could not send that it is gone. */
  ghost predicate Unsaid(calls: map<nat, Call>, upstream: seq<Message>, rulings: map<nat, Ruling>, t: nat)
  {
    exists k: nat :: Leaves(calls, k, t) && calls[k].phase.Returned? && !Posted(upstream, rulings, k)
  }

  ghost predicate Asked(calls: map<nat, Call>, t: nat)
  {
    exists k: nat :: Admits(calls, k, t)
  }

  /** A transport without a connection is on its way out, or one of the two reasons is on record. */
  ghost predicate Explained(calls: map<nat, Call>, connections: map<nat, Conn>, upstream: seq<Message>,
                            rulings: map<nat, Ruling>, t: nat)
  {
    && Asked(calls, t)
    && (Gone(connections, t) ==>
          Farewell(upstream, t) || GivenUp(calls, t) || Unsaid(calls, upstream, rulings, t))
  }

  /** Who has been heard to be gone is not a transport. */
  ghost predicate HeardOut(calls: map<nat, Call>, rulings: map<nat, Ruling>, transports: map<nat, string>)
  {
    forall k: nat, t: nat | k in rulings && Leaves(calls, k, t) :: t !in transports
  }

  ghost predicate Kept(s: System)
  {
    s.net.Some? ==>
      var n := s.net.value;
      && PresenceOk(n.calls, n.connections, n.next)
      && (forall t | t in s.sup.transports :: Explained(n.calls, n.connections, s.upstream, s.rulings, t))
      && HeardOut(n.calls, s.rulings, s.sup.transports)
  }

  /** Requests stay, what has returned stays, and only calls that have not returned send anything. */
  ghost predicate Extends(a: map<nat, Call>, b: map<nat, Call>, up: seq<Message>, more: seq<Message>)
  {
    && (forall k | k in a ::
          k in b && b[k].request == a[k].request && (a[k].phase.Returned? ==> b[k].phase == a[k].phase))
    && up <= more
    && forall i | |up| <= i < |more| && more[i].Call? :: more[i].id in a && !a[more[i].id].phase.Returned?
  }

  lemma ExtendingExplains(a: map<nat, Call>, b: map<nat, Call>, c: map<nat, Conn>, d: map<nat, Conn>,
                          up: seq<Message>, more: seq<Message>, rulings: map<nat, Ruling>, t: nat)
    requires Explained(a, c, up, rulings, t) && Extends(a, b, up, more)
    requires Gone(d, t) && !Gone(c, t) ==> Farewell(more, t) || GivenUp(b, t) || Unsaid(b, more, rulings, t)
    ensures Explained(b, d, more, rulings, t)
  {
    hide Gone;
    var j: nat :| Admits(a, j, t);
    assert Admits(b, j, t);
    if Gone(c, t) {
      if Farewell(up, t) {
        var i :| 0 <= i < |up| && up[i].Call? && up[i].request == Disconnected(t);
        assert more[i] == up[i];
      } else if GivenUp(a, t) {
        var k: nat :| Admits(a, k, t) && a[k].phase == Returned(None);
        assert Admits(b, k, t) && b[k].phase == Returned(None);
      } else {
        var k: nat :| Leaves(a, k, t) && a[k].phase.Returned? && !Posted(up, rulings, k);
        StaysUnposted(a, b, up, more, rulings, k);
        assert Leaves(b, k, t) && b[k].phase.Returned?;
      }
    }
  }

  lemma StaysUnposted(a: map<nat, Call>, b: map<nat, Call>, up: seq<Message>, more: seq<Message>,
                      rulings: map<nat, Ruling>, k: nat)
    requires Extends(a, b, up, more) && k in a && a[k].phase.Returned? && !Posted(up, rulings, k)
    ensures !Posted(more, rulings, k)
  {
    forall i | 0 <= i < |more| && more[i].Call?
      ensures more[i].id != k
    {
      assert i < |up| ==> more[i] == up[i];
    }
  }

  lemma ExtendingHears(a: map<nat, Call>, b: map<nat, Call>, rulings: map<nat, Ruling>, transports: map<nat, string>)
    requires HeardOut(a, rulings, transports) && forall k | k in rulings :: k in a
    requires forall k | k in a :: k in b && b[k].request == a[k].request
    ensures HeardOut(b, rulings, transports)
  {
    forall k: nat, t: nat | k in rulings && Leaves(b, k, t)
      ensures t !in transports
    {
      assert Leaves(a, k, t);
    }
  }

  lemma HandshakeIsFirst(calls: map<nat, Call>, t: nat)
    ensures ThreadOk(calls, Handshake, t) ==> !Asked(calls, t)
  {
  }

  /** A connection ends only when it was refused or given up, or has said that it is gone or could not. */
  lemma EndingIsExplained(s: System, id: nat, c: ConnStep, fp: Fingerprinter)
    requires Sound(s, fp) && Kept(s) && s.net.Some? && ConnProceeds(s.net.value, id, c).Some?
    requires var n := s.net.value; var m := ConnProceeds(n, id, c).value;
             id in s.sup.transports && Gone(m.connections, id)
    ensures var n := s.net.value; var m := ConnProceeds(n, id, c).value;
            || Farewell(s.upstream, id) || GivenUp(m.calls, id) || Unsaid(m.calls, s.upstream, s.rulings, id)
  {
    hide Inv, RulingsOk, CallsOk, InboxOk, OwnersOk, PeersOk, Guarded, ClientsOk, Knows, Idle, Unnoticed, UpstreamOk;
    var n := s.net.value;
    assert ThreadOk(n.calls, n.connections[id].thread, id);
    match c
    case Fail => HandshakeIsFirst(n.calls, id);
    case Refused =>
      var k := n.connections[id].thread.call;
      assert Admits(n.calls, k, id) && n.calls[k].phase == Returned(None);
    case End =>
      var k := n.connections[id].thread.call;
      assert Leaves(n.calls, k, id) && n.calls[k].phase.Returned?;
      if Posted(s.upstream, s.rulings, k) {
        var i :| 0 <= i < |s.upstream| && s.upstream[i].Call? && s.upstream[i].id == k;
        SentAsAsked(s.upstream, n.calls, s.rulings, i);
      }
    case _ =>
  }

  lemma SentAsAsked(upstream: seq<Message>, calls: map<nat, Call>, rulings: map<nat, Ruling>, i: nat)
    requires UpstreamOk(upstream, calls, rulings) && i < |upstream| && upstream[i].Call?
    ensures upstream[i].id in calls && calls[upstream[i].id].request == upstream[i].request
    ensures WasSent(calls[upstream[i].id].phase) && upstream[i].id !in rulings
  {
  }

  /** An action of the worker that leaves the supervisor's tables alone. */
  lemma WorkerKeeps(s: System, u: System, fp: Fingerprinter)
    requires Sound(s, fp) && Kept(s) && s.net.Some? && u.net.Some?
    requires u.sup.transports == s.sup.transports && u.rulings == s.rulings
    requires var n, m := s.net.value, u.net.value;
             && PresenceOk(m.calls, m.connections, m.next) && Extends(n.calls, m.calls, s.upstream, u.upstream)
             && forall t | t in s.sup.transports && Gone(m.connections, t) && !Gone(n.connections, t) ::
                  || Farewell(u.upstream, t) || GivenUp(m.calls, t)
                  || Unsaid(m.calls, u.upstream, s.rulings, t)
    ensures Kept(u)
  {
    hide PresenceOk, Extends, Gone, Explained, HeardOut, Farewell, GivenUp, Unsaid;
    var n, m := s.net.value, u.net.value;
    forall t | t in u.sup.transports
      ensures Explained(m.calls, m.connections, u.upstream, u.rulings, t)
    {
      ExtendingExplains(n.calls, m.calls, n.connections, m.connections, s.upstream, u.upstream, s.rulings, t);
    }
    RulingsAreCalls(s, fp);
    assert forall k | k in n.calls :: k in m.calls && m.calls[k].request == n.calls[k].request by {
      ExtendingRequests(n.calls, m.calls, s.upstream, u.upstream);
    }
    ExtendingHears(n.calls, m.calls, s.rulings, s.sup.transports);
  }

  lemma ExtendingRequests(a: map<nat, Call>, b: map<nat, Call>, up: seq<Message>, more: seq<Message>)
    requires Extends(a, b, up, more)
    ensures forall k | k in a :: k in b && b[k].request == a[k].request
  {
  }

  lemma RulingsAreCalls(s: System, fp: Fingerprinter)
    requires Sound(s, fp) && s.net.Some?
    ensures forall k | k in s.rulings :: k in s.net.value.calls
    ensures Numbered(s.net.value)
  {
    hide Inv, RulingsOk, CallOk, UpstreamOk, InboxOk, PeersOk, Guarded, ClientsOk, Idle, Unnoticed;
  }

  lemma EvolvingExtends(a: map<nat, Call>, b: map<nat, Call>, up: seq<Message>)
    requires Evolves(a, b)
    ensures Extends(a, b, up, up)
  {
  }

  lemma ReceivesKept(s: System, fp: Fingerprinter)
    requires Sound(s, fp) && Kept(s) && CanAct(s, Receives)
    ensures Kept(Next(s, Receives, fp).value)
  {
    hide Sound, Kept, PresenceOk, Evolves, Fewer, Receive, Extends, Farewell, GivenUp, Unsaid;
    var u, n := Next(s, Receives, fp).value, s.net.value;
    KeptPresence(s);
    ReadKeeps(n, s.sup.worker.value.inbox[0]);
    ReadyExtends(n.calls, u.net.value.calls, s.upstream, u.upstream);
    forall t | Gone(u.net.value.connections, t)
      ensures Gone(n.connections, t)
    {
      FewerGone(n.connections, u.net.value.connections, t);
    }
    WorkerKeeps(s, u, fp);
  }

  lemma KeptPresence(s: System)
    requires Kept(s) && s.net.Some?
    ensures PresenceOk(s.net.value.calls, s.net.value.connections, s.net.value.next)
  {
    hide PresenceOk;
  }

  lemma ReadyExtends(a: map<nat, Call>, b: map<nat, Call>, up: seq<Message>, more: seq<Message>)
    requires Evolves(a, b) && (more == up || more == up + [Ready])
    ensures Extends(a, b, up, more)
  {
  }

  lemma FewerGone(a: map<nat, Conn>, b: map<nat, Conn>, t: nat)
    requires Fewer(a, b) && b.Keys == a.Keys && Gone(b, t)
    ensures Gone(a, t)
  {
  }

  lemma LoopsKept(s: System, l: LoopStep, fp: Fingerprinter)
    requires Sound(s, fp) && Kept(s) && CanAct(s, Loops(l)) && Next(s, Loops(l), fp).Some?
    ensures Kept(Next(s, Loops(l), fp).value)
  {
    hide Sound, Kept, PresenceOk, Extends, Farewell, GivenUp, Unsaid;
    var u, n := Next(s, Loops(l), fp).value, s.net.value;
    KeptPresence(s);
    LoopKeeps(n, l);
    EvolvingExtends(n.calls, u.net.value.calls, s.upstream);
    WorkerKeeps(s, u, fp);
  }

  lemma CallsKept(s: System, c: CallStep, fp: Fingerprinter)
    requires Sound(s, fp) && Kept(s) && CanAct(s, Calls(c)) && Next(s, Calls(c), fp).Some?
    ensures Kept(Next(s, Calls(c), fp).value)
  {
    hide Sound, Kept, PresenceOk, Extends, Farewell, GivenUp, Unsaid, Proceed, Evolves, Gone;
    var u, n := Next(s, Calls(c), fp).value, s.net.value;
    KeptPresence(s);
    CallKeeps(n, c);
    CallShape(n, c);
    PostingExtends(n, c, s.upstream);
    WorkerKeeps(s, u, fp);
  }

  lemma PostingExtends(n: Net, c: CallStep, up: seq<Message>)
    requires Proceed(n, c).Some?
    ensures var (m, sent) := Proceed(n, c).value; Extends(n.calls, m.calls, up, up + sent)
  {
  }

  lemma ConnectsKept(s: System, id: nat, c: ConnStep, fp: Fingerprinter)
    requires Sound(s, fp) && Kept(s) && CanAct(s, Connects(id, c)) && Next(s, Connects(id, c), fp).Some?
    ensures Kept(Next(s, Connects(id, c), fp).value)
  {
    hide Sound, Kept, PresenceOk, Extends, Farewell, GivenUp, Unsaid, ConnProceeds;
    var u, n := Next(s, Connects(id, c), fp).value, s.net.value;
    KeptPresence(s);
    RulingsAreCalls(s, fp);
    ConnKeeps(n, id, c);
    ConnExtends(n, id, c, s.upstream);
    if id in s.sup.transports && Gone(u.net.value.connections, id) {
      EndingIsExplained(s, id, c, fp);
    }
    WorkerKeeps(s, u, fp);
  }

  lemma ConnExtends(n: Net, id: nat, c: ConnStep, up: seq<Message>)
    requires ConnProceeds(n, id, c).Some? && Numbered(n)
    ensures var m := ConnProceeds(n, id, c).value;
            && Extends(n.calls, m.calls, up, up) && m.connections.Keys == n.connections.Keys
            && forall t | t in n.connections && t != id :: m.connections[t] == n.connections[t]
  {
    hide Knows;
  }

  lemma PairsKept(s: System, id: nat, c: PairStep, fp: Fingerprinter)
    requires Sound(s, fp) && Kept(s) && CanAct(s, Pairs(id, c)) && Next(s, Pairs(id, c), fp).Some?
    ensures Kept(Next(s, Pairs(id, c), fp).value)
  {
    hide Sound, Kept, PresenceOk, Extends, Farewell, GivenUp, Unsaid, PairProceeds;
    var u, n := Next(s, Pairs(id, c), fp).value, s.net.value;
    KeptPresence(s);
    RulingsAreCalls(s, fp);
    PairKeeps(n, id, c, fp);
    PairExtends(n, id, c, s.upstream, fp);
    WorkerKeeps(s, u, fp);
  }

  lemma PairExtends(n: Net, id: nat, c: PairStep, up: seq<Message>, fp: Fingerprinter)
    requires PairProceeds(n, id, c, fp).Some? && Numbered(n)
    ensures var m := PairProceeds(n, id, c, fp).value;
            Extends(n.calls, m.calls, up, up) && m.connections == n.connections
  {
    hide PairProceeds, Presence;
    PairShape(n, id, c, fp);
  }

  /** The supervisor reads a request. */
  lemma TailExplains(calls: map<nat, Call>, connections: map<nat, Conn>, up: seq<Message>, rulings: map<nat, Ruling>,
                     r: Ruling, t: nat)
    requires Explained(calls, connections, up, rulings, t) && up != [] && up[0].Call?
    requires up[0].request != Disconnected(t)
    ensures Explained(calls, connections, up[1..], rulings[up[0].id := r], t)
  {
    hide Gone, Asked;
    if Farewell(up, t) {
      var i :| 0 <= i < |up| && up[i].Call? && up[i].request == Disconnected(t);
      assert up[1..][i - 1] == up[i];
    } else if Unsaid(calls, up, rulings, t) {
      var k: nat :| Leaves(calls, k, t) && calls[k].phase.Returned? && !Posted(up, rulings, k);
      TailUnposted(up, rulings, r, k);
    }
  }

  lemma TailUnposted(up: seq<Message>, rulings: map<nat, Ruling>, r: Ruling, k: nat)
    requires up != [] && up[0].Call? && !Posted(up, rulings, k)
    ensures !Posted(up[1..], rulings[up[0].id := r], k)
  {
    forall i | 0 <= i < |up[1..]| && up[1..][i].Call?
      ensures up[1..][i].id != k
    {
      assert up[i + 1] == up[1..][i];
    }
  }

  /** A message that is no request changes nothing here. */
  lemma SkippingExplains(calls: map<nat, Call>, connections: map<nat, Conn>, up: seq<Message>,
                         rulings: map<nat, Ruling>, t: nat)
    requires Explained(calls, connections, up, rulings, t) && up != [] && !up[0].Call?
    ensures Explained(calls, connections, up[1..], rulings, t)
  {
    hide Gone, Asked;
    if Farewell(up, t) {
      var i :| 0 <= i < |up| && up[i].Call? && up[i].request == Disconnected(t);
      assert up[1..][i - 1] == up[i];
    } else if Unsaid(calls, up, rulings, t) {
      var k: nat :| Leaves(calls, k, t) && calls[k].phase.Returned? && !Posted(up, rulings, k);
      forall i | 0 <= i < |up[1..]| && up[1..][i].Call?
        ensures up[1..][i].id != k
      {
        assert up[i + 1] == up[1..][i];
      }
    }
  }

  /** A request to admit a connection that is read when the connection has ended: it was given up. */
  lemma LateIsGivenUp(s: System, t: nat, f: string, fp: Fingerprinter)
    requires Sound(s, fp) && s.net.Some? && s.upstream != [] && s.upstream[0].Call?
    requires s.upstream[0].request == Authenticated(t, f) && Gone(s.net.value.connections, t)
    ensures GivenUp(s.net.value.calls, t)
  {
    hide Inv, RulingsOk, CallsOk, InboxOk, PeersOk, Guarded, ClientsOk, Knows, Idle, Unnoticed, UpstreamOk, Covered;
    var n, k := s.net.value, s.upstream[0].id;
    SentAsAsked(s.upstream, n.calls, s.rulings, 0);
    ResultIsRuled(n, s.rulings, k, fp);
    assert Admits(n.calls, k, t);
    EndedHasReturned(n, k, t);
  }

  lemma ResultIsRuled(n: Net, rulings: map<nat, Ruling>, k: nat, fp: Fingerprinter)
    requires CallsOk(n.calls, n.nextCall, n.pending, rulings, fp) && k in n.calls
    ensures ResultOf(n.calls[k].phase).Some? ==> k in rulings
  {
  }

  lemma EndedHasReturned(n: Net, k: nat, t: nat)
    requires OwnersOk(n.calls, n.connections, n.next) && Admits(n.calls, k, t) && Gone(n.connections, t)
    ensures n.calls[k].phase.Returned?
  {
  }

  lemma AnswerKept(s: System, t: Step, fp: Fingerprinter)
    requires Sound(s, fp) && Kept(s) && CanStep(s, t) && t.Heard? && t.message.Call?
    ensures Kept(Supervise(s, t, fp))
  {
    hide Sound, Serve, Hear, PresenceOk, Gone, Explained, HeardOut, Misses, Inv, StillMissed;
    HeadIsAsked(s, fp);
    var n, u := s.net.value, Supervise(s, t, fp);
    var k, r := t.message.id, Ruling(s.sup, t.message.request, t.env);
    HearMoves(s.sup, t.message, t.env, t.replied, fp);
    forall x | x in u.sup.transports
      ensures Explained(n.calls, n.connections, u.upstream, u.rulings, x)
    {
      if x in s.sup.transports {
        TailExplains(n.calls, n.connections, s.upstream, s.rulings, r, x);
      } else {
        NewcomerIsExplained(s, r, x, fp);
      }
    }
    AnswerHears(s, t, fp);
  }

  lemma HeadIsAsked(s: System, fp: Fingerprinter)
    requires Sound(s, fp) && s.upstream != [] && s.upstream[0].Call?
    ensures s.net.Some? && s.sup.worker.Some? && s.upstream[0].id in s.net.value.calls
    ensures s.upstream[0].id !in s.rulings
    ensures s.net.value.calls[s.upstream[0].id].request == s.upstream[0].request
  {
    hide Inv, RulingsOk, CallsOk, InboxOk, OwnersOk, PeersOk, Guarded, ClientsOk, Idle, Unnoticed, UpstreamOk;
    SentAsAsked(s.upstream, s.net.value.calls, s.rulings, 0);
  }

  lemma NewcomerIsExplained(s: System, r: Ruling, t: nat, fp: Fingerprinter)
    requires Sound(s, fp) && s.net.Some? && s.upstream != [] && s.upstream[0].Call?
    requires s.upstream[0].request.Authenticated? && s.upstream[0].request.transport == t
    ensures var n := s.net.value;
            Explained(n.calls, n.connections, s.upstream[1..], s.rulings[s.upstream[0].id := r], t)
  {
    hide Sound, Gone, Farewell, GivenUp, Unsaid;
    HeadIsAsked(s, fp);
    assert Admits(s.net.value.calls, s.upstream[0].id, t);
    if Gone(s.net.value.connections, t) {
      LateIsGivenUp(s, t, s.upstream[0].request.fingerprint, fp);
    }
  }

  lemma AnswerHears(s: System, t: Step, fp: Fingerprinter)
    requires Sound(s, fp) && Kept(s) && CanStep(s, t) && t.Heard? && t.message.Call?
    ensures var r := Ruling(s.sup, t.message.request, t.env);
            s.net.Some? && s.sup.worker.Some?
            && HeardOut(s.net.value.calls, s.rulings[t.message.id := r], Advance(s.sup, t, fp).transports)
  {
    hide Sound, Serve, Hear, Explained, PresenceOk, Inv;
    HeadIsAsked(s, fp);
    HearMoves(s.sup, t.message, t.env, t.replied, fp);
    var calls, k, r := s.net.value.calls, t.message.id, Ruling(s.sup, t.message.request, t.env);
    var after := Advance(s.sup, t, fp).transports;
    forall j: nat, x: nat | j in s.rulings[k := r] && Leaves(calls, j, x)
      ensures x !in after
    {
      if j != k && x in after {
        assert x !in s.sup.transports;
        assert Admits(calls, k, x);
        NotBoth(s, j, k, x, fp);
      }
    }
  }

  /** A connection that was heard to be gone has no request to be admitted on its way. */
  lemma NotBoth(s: System, j: nat, k: nat, t: nat, fp: Fingerprinter)
    requires Sound(s, fp) && Kept(s) && s.net.Some? && Admits(s.net.value.calls, k, t) && k !in s.rulings
    ensures !Leaves(s.net.value.calls, j, t)
  {
    hide Inv, RulingsOk, CallsOk, InboxOk, PeersOk, Guarded, ClientsOk, Knows, Idle, Unnoticed, UpstreamOk, OwnersOk,
      Explained, HeardOut, Admits, Leaves, ThreadOk;
    AdmitsIsCall(s.net.value.calls, k, t);
    ResultIsRuled(s.net.value, s.rulings, k, fp);
  }

  lemma AdmitsIsCall(calls: map<nat, Call>, k: nat, t: nat)
    requires Admits(calls, k, t)
    ensures k in calls
  {
  }

  lemma OtherKept(s: System, t: Step, fp: Fingerprinter)
    requires Sound(s, fp) && Kept(s) && CanStep(s, t) && !(t.Heard? && t.message.Call?)
    ensures Kept(Supervise(s, t, fp))
  {
    hide Sound, Advance, PresenceOk, Gone, Explained, HeardOut, Misses, Inv, StillMissed;
    var u := Supervise(s, t, fp);
    SupHolds(s, fp);
    StepMoves(s.sup, t, fp);
    if Child(u.sup) != Child(s.sup) {
      NothingKept(u);
    } else if s.net.Some? {
      var n := s.net.value;
      forall x | x in u.sup.transports
        ensures Explained(n.calls, n.connections, u.upstream, u.rulings, x)
      {
        if t.Heard? && s.upstream != [] {
          SkippingExplains(n.calls, n.connections, s.upstream, s.rulings, x);
        }
      }
      FewerHears(n.calls, s.rulings, s.sup.transports, u.sup.transports);
    }
  }

  lemma SupHolds(s: System, fp: Fingerprinter)
    requires Sound(s, fp)
    ensures Inv(s.sup, fp) && (s.net.Some? <==> s.sup.worker.Some?)
  {
    hide Inv, NetOk;
  }

  lemma FewerHears(calls: map<nat, Call>, rulings: map<nat, Ruling>, a: map<nat, string>, b: map<nat, string>)
    requires HeardOut(calls, rulings, a) && forall x | x in b :: x in a
    ensures HeardOut(calls, rulings, b)
  {
    hide Leaves;
  }

  lemma NothingKept(s: System)
    requires s.sup.transports == map[] && (s.net.Some? ==> s.net.value == NewNet())
    ensures Kept(s)
  {
  }

  lemma NextKept(s: System, a: Action, fp: Fingerprinter)
    requires Sound(s, fp) && Kept(s) && Next(s, a, fp).Some?
    ensures Kept(Next(s, a, fp).value)
  {
    hide Sound, Kept, Supervise, Receive, LoopProceeds, Proceed, ConnProceeds, PairProceeds;
    match a
    case Super(t) =>
      if t.Heard? && t.message.Call? {
        AnswerKept(s, t, fp);
      } else {
        OtherKept(s, t, fp);
      }
    case Receives => ReceivesKept(s, fp);
    case Loops(l) => LoopsKept(s, l, fp);
    case Calls(c) => CallsKept(s, c, fp);
    case Connects(id, c) => ConnectsKept(s, id, c, fp);
    case Pairs(id, c) => PairsKept(s, id, c, fp);
  }

  lemma {:induction false} RunKept(s: System, actions: seq<Action>, fp: Fingerprinter)
    requires Sound(s, fp) && Kept(s)
    ensures Run(s, actions, fp).Some? ==> Sound(Run(s, actions, fp).value, fp) && Kept(Run(s, actions, fp).value)
  {
    hide Sound, Next, Kept;
    if actions != [] {
      RunKept(s, actions[..|actions| - 1], fp);
      var before, a := Run(s, actions[..|actions| - 1], fp), actions[|actions| - 1];
      if before.Some? && Next(before.value, a, fp).Some? {
        NextKeeps(before.value, a, fp);
        NextKept(before.value, a, fp);
      }
    }
  }

  lemma ReachedKept(store: Store.StoreState, actions: seq<Action>, fp: Fingerprinter)
    requires Store.Trusted(store, fp) && Run(Start(store), actions, fp).Some?
    ensures var s := Run(Start(store), actions, fp).value; Sound(s, fp) && Kept(s)
  {
    hide Run, Inv, Store.Trusted, PresenceOk, Explained, HeardOut;
    FreshHolds(store, fp);
    NoRulings(fp);
    RunKept(Start(store), actions, fp);
  }

  // ---------------------------------------------------------------------------------------------
  // Stranded transports

  /** The supervisor keeps a transport whose connection has ended, and nothing on its way says so. */
  ghost predicate Stranded(s: System, t: nat)
  {
    && s.net.Some? && t in s.sup.transports
    && Gone(s.net.value.connections, t) && !Farewell(s.upstream, t)
  }

  /** In every run: a transport is stranded exactly when its connection has ended and either gave up waiting to be
      admitted, although the supervisor has admitted it, or could not send that it is gone. */
  lemma StrandedExactlyWhen(store: Store.StoreState, actions: seq<Action>, t: nat, fp: Fingerprinter)
    requires Store.Trusted(store, fp) && Run(Start(store), actions, fp).Some?
    requires Run(Start(store), actions, fp).value.net.Some?
    ensures var s := Run(Start(store), actions, fp).value; var n := s.net.value;
            Stranded(s, t) <==>
            && t in s.sup.transports && Gone(n.connections, t)
            && (GivenUp(n.calls, t) || Unsaid(n.calls, s.upstream, s.rulings, t))
  {
    hide Run, Start, Sound, Kept, Store.Trusted, Gone, Farewell, GivenUp, Unsaid;
    ReachedKept(store, actions, fp);
    NoFarewell(Run(Start(store), actions, fp).value, t, fp);
  }

  lemma NoFarewell(s: System, t: nat, fp: Fingerprinter)
    requires Sound(s, fp) && Kept(s) && s.net.Some?
    ensures t in s.sup.transports && Gone(s.net.value.connections, t) ==>
              (!Farewell(s.upstream, t) <==>
                 GivenUp(s.net.value.calls, t) || Unsaid(s.net.value.calls, s.upstream, s.rulings, t))
  {
    hide Inv, RulingsOk, CallsOk, InboxOk, PeersOk, Guarded, ClientsOk, Knows, Idle, Unnoticed, UpstreamOk, OwnersOk,
      Gone, ThreadOk, HeardOut;
    var n := s.net.value;
    if Farewell(s.upstream, t) {
      var i :| 0 <= i < |s.upstream| && s.upstream[i].Call? && s.upstream[i].request == Disconnected(t);
      SentAsAsked(s.upstream, n.calls, s.rulings, i);
      assert Leaves(n.calls, s.upstream[i].id, t) && Posted(s.upstream, s.rulings, s.upstream[i].id);
    }
  }

  // ---------------------------------------------------------------------------------------------
  // How long they stay

  /** What an action of the worker leaves of both tables: what ended stays ended. */
  ghost predicate Lasts(s: System, u: System)
  {
    && s.net.Some? && u.net.Some? && u.sup.transports == s.sup.transports && u.rulings == s.rulings
    && Extends(s.net.value.calls, u.net.value.calls, s.upstream, u.upstream)
    && forall t: nat | t < s.net.value.next && Gone(s.net.value.connections, t) :: Gone(u.net.value.connections, t)
  }

  lemma EndedHasNoStep(n: Net, id: nat, c: ConnStep)
    requires id in n.connections && n.connections[id].thread == Finished
    ensures ConnProceeds(n, id, c).None?
  {
    hide Knows;
  }

  lemma ReceivesLasts(s: System, fp: Fingerprinter)
    requires Sound(s, fp) && Kept(s) && CanAct(s, Receives)
    ensures Lasts(s, Next(s, Receives, fp).value)
  {
    hide Sound, Kept, Receive, Extends, Evolves, Fewer, Gone;
    var u, n := Next(s, Receives, fp).value, s.net.value;
    ReadShape(n, s.sup.worker.value.inbox[0]);
    ReadyExtends(n.calls, u.net.value.calls, s.upstream, u.upstream);
    FewerLasts(n.connections, u.net.value.connections);
  }

  lemma LoopsLasts(s: System, l: LoopStep, fp: Fingerprinter)
    requires CanAct(s, Loops(l)) && Next(s, Loops(l), fp).Some?
    ensures Lasts(s, Next(s, Loops(l), fp).value)
  {
    hide Extends;
    EvolvingExtends(s.net.value.calls, s.net.value.calls, s.upstream);
  }

  lemma CallsLasts(s: System, c: CallStep, fp: Fingerprinter)
    requires CanAct(s, Calls(c)) && Next(s, Calls(c), fp).Some?
    ensures Lasts(s, Next(s, Calls(c), fp).value)
  {
    hide Proceed, Extends, Gone;
    CallShape(s.net.value, c);
    PostingExtends(s.net.value, c, s.upstream);
  }

  lemma ConnectsLasts(s: System, id: nat, c: ConnStep, fp: Fingerprinter)
    requires CanAct(s, Connects(id, c)) && Next(s, Connects(id, c), fp).Some? && Numbered(s.net.value)
    ensures Lasts(s, Next(s, Connects(id, c), fp).value)
  {
    hide ConnProceeds, Extends;
    var n := s.net.value;
    ConnExtends(n, id, c, s.upstream);
    if id in n.connections && n.connections[id].thread == Finished {
      EndedHasNoStep(n, id, c);
    }
  }

  lemma PairsLasts(s: System, id: nat, c: PairStep, fp: Fingerprinter)
    requires CanAct(s, Pairs(id, c)) && Next(s, Pairs(id, c), fp).Some? && Numbered(s.net.value)
    ensures Lasts(s, Next(s, Pairs(id, c), fp).value)
  {
    hide PairProceeds, Extends, Gone;
    PairExtends(s.net.value, id, c, s.upstream, fp);
  }

  lemma WorkerLasts(s: System, a: Action, fp: Fingerprinter)
    requires Sound(s, fp) && Kept(s) && !a.Super? && Next(s, a, fp).Some?
    ensures Lasts(s, Next(s, a, fp).value)
  {
    hide Sound, Kept, Receive, LoopProceeds, Proceed, ConnProceeds, PairProceeds, Lasts;
    RulingsAreCalls(s, fp);
    match a
    case Receives => ReceivesLasts(s, fp);
    case Loops(l) => LoopsLasts(s, l, fp);
    case Calls(c) => CallsLasts(s, c, fp);
    case Connects(id, c) => ConnectsLasts(s, id, c, fp);
    case Pairs(id, c) => PairsLasts(s, id, c, fp);
  }

  lemma FewerLasts(a: map<nat, Conn>, b: map<nat, Conn>)
    requires Fewer(a, b)
    ensures forall t: nat | Gone(a, t) :: Gone(b, t)
  {
  }

  lemma ReasonLasts(a: map<nat, Call>, b: map<nat, Call>, up: seq<Message>, more: seq<Message>,
                    rulings: map<nat, Ruling>, t: nat)
    requires Extends(a, b, up, more) && (GivenUp(a, t) || Unsaid(a, up, rulings, t))
    ensures GivenUp(b, t) || Unsaid(b, more, rulings, t)
  {
    if GivenUp(a, t) {
      var k: nat :| Admits(a, k, t) && a[k].phase == Returned(None);
      assert Admits(b, k, t) && b[k].phase == Returned(None);
    } else {
      var k: nat :| Leaves(a, k, t) && a[k].phase.Returned? && !Posted(up, rulings, k);
      StaysUnposted(a, b, up, more, rulings, k);
      assert Leaves(b, k, t) && b[k].phase.Returned?;
    }
  }

  lemma TransportIsOld(s: System, t: nat)
    requires Kept(s) && s.net.Some? && t in s.sup.transports
    ensures t < s.net.value.next
  {
    hide Gone, ThreadOk, Farewell, GivenUp, Unsaid;
    assert Explained(s.net.value.calls, s.net.value.connections, s.upstream, s.rulings, t);
  }

  /** No action of the worker frees a stranded transport. */
  lemma WorkerStrands(s: System, a: Action, t: nat, fp: Fingerprinter)
    requires Sound(s, fp) && Kept(s) && Stranded(s, t) && !a.Super? && Next(s, a, fp).Some?
    ensures Stranded(Next(s, a, fp).value, t)
  {
    hide Sound, Kept, Next, Extends, Gone, Farewell, GivenUp, Unsaid;
    var u := Next(s, a, fp).value;
    WorkerLasts(s, a, fp);
    TransportIsOld(s, t);
    NoFarewell(s, t, fp);
    ReasonLasts(s.net.value.calls, u.net.value.calls, s.upstream, u.upstream, s.rulings, t);
    NextKeeps(s, a, fp);
    NextKept(s, a, fp);
    NoFarewell(u, t, fp);
  }

  /** A step of the supervisor that keeps its worker takes a message from the queue, and gives up no transport but to
      an order to revoke its host. */
  lemma SupervisorStrands(s: System, t: Step, x: nat, fp: Fingerprinter)
    requires Sound(s, fp) && Kept(s) && Stranded(s, x) && CanStep(s, t)
    requires Child(Supervise(s, t, fp).sup) == Child(s.sup)
    ensures var u := Supervise(s, t, fp);
            if x in u.sup.transports then Stranded(u, x) && u.sup.transports[x] == s.sup.transports[x]
            else t.Ordered? && t.control == Control.Revoke(s.sup.transports[x])
  {
    hide Sound, Kept, Advance, Gone, Misses, Inv, StillMissed;
    var u := Supervise(s, t, fp);
    QueueShortens(s.upstream, x);
    SupHolds(s, fp);
    if t.Heard? && t.message.Call? {
      HeadIsAsked(s, fp);
      assert s.upstream[0].request != Disconnected(x);
      AnswerSpares(s, t, x, fp);
    } else {
      StepMoves(s.sup, t, fp);
      InvAuthorised(s.sup, fp);
    }
  }

  lemma QueueShortens(up: seq<Message>, t: nat)
    ensures up != [] && Farewell(up[1..], t) ==> Farewell(up, t)
  {
    if up != [] && Farewell(up[1..], t) {
      var i :| 0 <= i < |up[1..]| && up[1..][i].Call? && up[1..][i].request == Disconnected(t);
      assert up[i + 1] == up[1..][i];
    }
  }

  lemma AnswerSpares(s: System, t: Step, x: nat, fp: Fingerprinter)
    requires s.sup.worker.Some? && CanStep(s, t) && t.Heard? && t.message.Call? && x in s.sup.transports
    requires t.message.request != Disconnected(x)
    ensures var u := Advance(s.sup, t, fp);
            x in u.transports && (u.transports[x] == s.sup.transports[x])
  {
    hide Serve, Hear;
    HearMoves(s.sup, t.message, t.env, t.replied, fp);
    NeverTwice(s.sup, t.message.request, t.env, fp);
  }

  /** A transport in the table is not admitted again. */
  lemma NeverTwice(s: Sup, r: Request, e: Env, fp: Fingerprinter)
    ensures r.Authenticated? && r.transport in s.transports ==> Serve(s, r, e, fp).1 == Rejected
  {
    hide Store.Alter;
  }

  /** In every run: as long as the worker is not replaced, a stranded transport keeps its place in the table, and is
      freed by nothing but an order to revoke its own host. */
  lemma StrandedUntilRevoked(store: Store.StoreState, actions: seq<Action>, a: Action, t: nat, fp: Fingerprinter)
    requires Store.Trusted(store, fp) && Run(Start(store), actions, fp).Some?
    requires var s := Run(Start(store), actions, fp).value;
             && Stranded(s, t) && Next(s, a, fp).Some? && Child(Next(s, a, fp).value.sup) == Child(s.sup)
    ensures var s := Run(Start(store), actions, fp).value; var u := Next(s, a, fp).value;
            if t in u.sup.transports then Stranded(u, t)
            else a.Super? && a.step.Ordered? && a.step.control == Control.Revoke(s.sup.transports[t])
  {
    hide Run, Start, Sound, Kept, Store.Trusted, Stranded;
    ReachedKept(store, actions, fp);
    var s := Run(Start(store), actions, fp).value;
    StrandedIsTransport(s, t);
    if a.Super? {
      SupervisorStrands(s, a.step, t, fp);
    } else {
      WorkerStrands(s, a, t, fp);
    }
  }

  lemma StrandedIsTransport(s: System, t: nat)
    requires Stranded(s, t)
    ensures t in s.sup.transports
  {
  }
}
