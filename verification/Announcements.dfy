/** What the supervisor tells its worker: the messages of every step, and what all of them together leave the worker to
    go by. */
module Announcements {
  import opened Wrappers
  import opened Documents
  import opened Store
  import opened Supervisor
  import opened SupervisorInvariant
  import opened SupervisorTheorems
  import opened Histories

  // ---------------------------------------------------------------------------------------------
  // One step

  /** The change of the store a step asks for. */
  ghost function Asked(b: Sup, t: Step): Option<Change>
  {
    match t
    case Ordered(control, _) =>
      (match control
       case Configure(config) => Some(Change.Configure(config))
       case Revoke(f) => Some(Change.Revoke(f))
       case _ => None)
    case Heard(m, e, _) =>
      if !m.Call? then None
      else
        (match m.request
         case Authenticated(k, f) =>
           if |b.transports| < 8 && k !in b.transports then Some(Change.Connected(f, e.wall)) else None
         case PairResult(_, key) => if Concerns(b, t, true) then Some(Change.Pair(key.value, e.wall)) else None
         case _ => None)
    case _ => None
  }

  /** The store after the change a step asks for, and whether it was made. */
  ghost function Changed(b: Sup, t: Step, fp: Fingerprinter): (StoreState, bool)
  {
    if Asked(b, t).None? then (b.store, false)
    else
      var (store, r) := Alter(b.store, Asked(b, t).value, t.env.temp, t.env.backup, fp);
      (store, r == StoreResult.Done)
  }

  function When(said: bool, m: Message): seq<Message>
  {
    if said then [m] else []
  }

  /** The service runs and has room for another host. */
  predicate Pairable(b: Sup)
  {
    b.state == Running && |b.store.hosts| < 32
  }

  /** What a step tells a worker that goes on. A window is closed before another opens. Hosts are listed after a
      revocation and after a pairing, and a window that expires or fails for the tenth time is closed. */
  ghost function Told(b: Sup, t: Step, fp: Fingerprinter): seq<Message>
  {
    match t
    case Ordered(control, e) =>
      (match control
       case StartPairing =>
         if !Pairable(b) then []
         else When(e.firstSend, PairStop) + When(e.listeners && e.secondSend, PairStart(b.epoch + 1))
       case StopPairing => When(e.firstSend, PairStop)
       case Revoke(_) => When(Changed(b, t, fp).1 && e.firstSend, Hosts(Changed(b, t, fp).0.hosts))
       case _ => [])
    case Heard(m, e, replied) =>
      if m.Call? then Ruled(b, t, fp) + When(replied, Reply(m.id, Serve(b, m.request, e, fp).1)) else []
    case Expiry(e) => When(b.window.Some? && e.now >= b.window.value.expires && e.firstSend, PairStop)
    case _ => []
  }

  /** What it is told because of a pairing result. */
  ghost function Ruled(b: Sup, t: Step, fp: Fingerprinter): seq<Message>
    requires t.Heard?
  {
    if Concerns(b, t, false) then When(b.window.value.failures + 1 == 10 && t.env.firstSend, PairStop)
    else if Concerns(b, t, true) && Changed(b, t, fp).1 && t.env.firstSend then
      [PairCommitted] + When(t.env.secondSend, Hosts(Changed(b, t, fp).0.hosts))
    else []
  }

  /** A new worker starts in this step. */
  ghost predicate Launches(b: Sup, t: Step, fp: Fingerprinter)
  {
    || (t.Restarting? && t.env.listeners && t.env.start)
    || (Due(b, t) && b.bundle && t.env.start)
    || (Saves(b, t, fp) && !Relocates(b, t) && b.bundle && t.env.start)
  }

  /** What one step leaves of the store, the worker and its messages, and the rest of the supervisor's standing. */
  ghost predicate Settled(b: Sup, t: Step, u: Sup, fp: Fingerprinter)
  {
    && u.store == Changed(b, t, fp).0
    && u.epoch == b.epoch + (if t.Ordered? && t.control.StartPairing? && Pairable(b) && t.env.listeners then 1 else 0)
    && u.quit == (b.quit || (t.Ordered? && t.control.Quit?))
    && u.bundle == (if t.Restarting? then t.env.listeners && t.env.start else b.bundle && !Halts(b, t, fp))
    && u.worker == (if Launches(b, t, fp) then Some(Worker(b.spawned, [Boot(u.store.hosts)]))
                    else if Halts(b, t, fp) || Saves(b, t, fp) || Due(b, t) || b.worker.None? then None
                    else Some(b.worker.value.(inbox := b.worker.value.inbox + Told(b, t, fp))))
    && u.state == (if Errs(b, t) then State.Error
                   else if t.Pausing? then t.state
                   else if Launches(b, t, fp) then Starting
                   else if Halts(b, t, fp) then Disabled
                   else if t.Heard? && t.message.Ready? then Running
                   else b.state)
  }

  /** A worker that is told something more, and nothing else that counts here. */
  ghost predicate Adds(s: Sup, u: Sup, ms: seq<Message>)
  {
    && u.store == s.store && u.epoch == s.epoch && u.quit == s.quit && u.bundle == s.bundle && u.state == s.state
    && u.worker == if s.worker.None? then None
                   else Some(s.worker.value.(inbox := s.worker.value.inbox + ms))
  }

  lemma NothingAdded(s: Sup, u: Sup)
    requires u.store == s.store && u.epoch == s.epoch && u.quit == s.quit && u.bundle == s.bundle
    requires u.state == s.state && u.worker == s.worker
    ensures Adds(s, u, [])
  {
    if s.worker.Some? {
      assert s.worker.value.inbox + [] == s.worker.value.inbox;
    }
  }

  lemma SendAdds(s: Sup, m: Message, works: bool)
    ensures Adds(s, Send(s, m, works).0, When(works, m))
  {
    if s.worker.Some? {
      assert s.worker.value.inbox + [] == s.worker.value.inbox;
    }
  }

  lemma AddsBoth(s: Sup, a: Sup, u: Sup, ms: seq<Message>, more: seq<Message>)
    requires Adds(s, a, ms) && Adds(a, u, more)
    ensures Adds(s, u, ms + more)
  {
    if s.worker.Some? {
      assert s.worker.value.inbox + ms + more == s.worker.value.inbox + (ms + more);
    }
  }

  lemma ClosePairingAdds(s: Sup, works: bool)
    ensures Adds(s, ClosePairing(s, works), When(works, PairStop))
  {
    SendAdds(s.(window := None), PairStop, works);
  }

  lemma StopSettles(s: Sup, state: State, now: nat)
    ensures var u := Stop(s, state, now);
            && u.store == s.store && u.epoch == s.epoch && u.quit == s.quit && !u.bundle && u.state == state
            && u.worker == None && u.spawned == s.spawned
  {
    hide Backoff;
  }

  lemma StartSettles(s: Sup, works: bool)
    ensures var (u, ok) := StartWorker(s, works);
            && (ok <==> s.bundle && works)
            && u == if !ok then s
                    else s.(worker := Some(Worker(s.spawned, [Boot(s.store.hosts)])), spawned := s.spawned + 1,
                            state := Starting)
  {
  }

  lemma OpenSettles(b: Sup, t: Step, fp: Fingerprinter)
    requires t.Ordered? && t.control.StartPairing?
    ensures Settled(b, t, OpenPairing(b, t.env).0, fp)
  {
    hide ClosePairing, Send, Alter;
    var e := t.env;
    NothingAdded(b, b);
    if Pairable(b) {
      ClosePairingAdds(b, e.firstSend);
      ClosePairingFrame(b, e.firstSend);
      var a := ClosePairing(b, e.firstSend);
      var c := a.(epoch := a.epoch + 1);
      SendFrame(c, PairStart(c.epoch), e.secondSend);
      NothingAdded(a, a);
      assert When(e.firstSend, PairStop) + [] == When(e.firstSend, PairStop);
      if b.worker.Some? && e.listeners && e.secondSend {
        assert b.worker.value.inbox + When(e.firstSend, PairStop) + [PairStart(b.epoch + 1)]
            == b.worker.value.inbox + (When(e.firstSend, PairStop) + [PairStart(b.epoch + 1)]);
      } else if b.worker.Some? {
        assert a.worker.value.inbox + [] == a.worker.value.inbox;
      }
    }
  }

  lemma ConfigureSettles(b: Sup, t: Step, fp: Fingerprinter)
    requires Inv(b, fp) && t.Ordered? && t.control.Configure?
    ensures Settled(b, t, Order(b, t.control, t.env, fp).0, fp)
  {
    hide Inv, Alter, Stop, StartWorker;
    InvBasics(b, fp);
    var config, e := t.control.config, t.env;
    AlterEffects(b.store, Change.Configure(config), e.temp, e.backup, fp);
    var (store, r) := Alter(b.store, Change.Configure(config), e.temp, e.backup, fp);
    var s := b.(store := store);
    NothingAdded(s, s);
    StopSettles(s, Disabled, e.now);
    StartSettles(StopWorker(s).(root := false), e.start);
  }

  lemma RevokeSettles(b: Sup, t: Step, fp: Fingerprinter)
    requires t.Ordered? && t.control.Revoke?
    ensures Settled(b, t, Order(b, t.control, t.env, fp).0, fp)
  {
    hide Alter, Send, Disconnect;
    var f, e := t.control.fingerprint, t.env;
    var (store, r) := Alter(b.store, Change.Revoke(f), e.temp, e.backup, fp);
    var s := b.(store := store);
    NothingAdded(s, s);
    DisconnectFrame(s, OfHost(s.transports, f));
    var a := Disconnect(s, OfHost(s.transports, f));
    SendAdds(a, Hosts(a.store.hosts), e.firstSend);
  }

  lemma OrderSettles(b: Sup, t: Step, fp: Fingerprinter)
    requires Inv(b, fp) && t.Ordered?
    ensures Settled(b, t, Order(b, t.control, t.env, fp).0, fp)
  {
    hide Inv, Alter, Stop, ClosePairing, Reconfigured, Revoked, OpenPairing;
    NothingAdded(b, b);
    match t.control
    case Status =>
    case Logs =>
    case StartPairing => OpenSettles(b, t, fp);
    case StopPairing => ClosePairingAdds(b, t.env.firstSend);
    case Configure(_) => ConfigureSettles(b, t, fp);
    case Revoke(_) => RevokeSettles(b, t, fp);
    case Quit => StopSettles(b.(quit := true), Disabled, t.env.now);
  }

  /** A request that is no pairing result has nothing said but its reply; only an admission asks for a change. */
  lemma NothingRuled(b: Sup, t: Step, fp: Fingerprinter)
    requires t.Heard? && t.message.Call? && !t.message.request.PairResult?
    ensures Ruled(b, t, fp) == []
    ensures !t.message.request.Authenticated? ==> Changed(b, t, fp).0 == b.store
  {
  }

  lemma AdmitSettles(b: Sup, t: Step, fp: Fingerprinter)
    requires t.Heard? && t.message.Call? && t.message.request.Authenticated?
    ensures var r := t.message.request;
            Adds(b.(store := Changed(b, t, fp).0), Admit(b, r.transport, r.fingerprint, t.env, fp).0, [])
  {
    hide Alter, Adds;
    var r := t.message.request;
    NothingAdded(b.(store := Changed(b, t, fp).0), Admit(b, r.transport, r.fingerprint, t.env, fp).0);
  }

  lemma ResultSettles(b: Sup, t: Step, fp: Fingerprinter)
    requires t.Heard? && t.message.Call? && t.message.request.PairResult?
    ensures Adds(b.(store := Changed(b, t, fp).0), Serve(b, t.message.request, t.env, fp).0, Ruled(b, t, fp))
  {
    hide Alter, Paired, PairingFailed, Adds;
    if !WindowFits(b.window, t.message.request.epoch, t.env.now) {
      NothingAdded(b, b);
    } else if t.message.request.key.Some? {
      PairedSettles(b, t, fp);
    } else {
      FailedSettles(b, t, fp);
    }
  }

  /** What a request does to the store, and what it has the worker told before its reply. */
  lemma ServeSettles(b: Sup, t: Step, fp: Fingerprinter)
    requires t.Heard? && t.message.Call?
    ensures Adds(b.(store := Changed(b, t, fp).0), Serve(b, t.message.request, t.env, fp).0, Ruled(b, t, fp))
  {
    hide Alter, Admit, Launch, Disconnect, CloseSoon, StopBinder, Paired, PairingFailed, WindowFits, Ruled, Changed,
      Adds;
    var e, r := t.env, t.message.request;
    if !r.PairResult? {
      NothingRuled(b, t, fp);
    }
    var u := Serve(b, r, e, fp).0;
    match r
    case Authenticated(_, _) => AdmitSettles(b, t, fp);
    case Disconnected(k) => DisconnectFrame(b, {k}); NothingAdded(b, u);
    case Spawn(k, name) => LaunchShape(b, k, name, false, e); NothingAdded(b, u);
    case CloseService(_, _) => NothingAdded(b, u);
    case BindReverse(k, spec) => LaunchShape(b, k, spec, true, e); NothingAdded(b, u);
    case CloseReverse(_, _) => NothingAdded(b, u);
    case Root(_, _) => NothingAdded(b, u);
    case PairResult(_, key) => ResultSettles(b, t, fp);
  }

  lemma PairedSettles(b: Sup, t: Step, fp: Fingerprinter)
    requires t.Heard? && t.message.Call? && Concerns(b, t, true)
    ensures Adds(b.(store := Changed(b, t, fp).0), Paired(b, t.message.request.key.value, t.env, fp).0, Ruled(b, t, fp))
  {
    hide Alter, HostKey, Adds, Paired;
    HostAnnounced(b, t.message.request.key.value, t.env, fp);
  }

  /** A committed host is announced, as far as that can be sent. */
  lemma HostAnnounced(b: Sup, key: string, e: Env, fp: Fingerprinter)
    requires b.window.Some?
    ensures var (store, r) := Alter(b.store, Change.Pair(key, e.wall), e.temp, e.backup, fp);
            Adds(b.(store := store), Paired(b, key, e, fp).0,
                 if r == StoreResult.Done && e.firstSend then [PairCommitted] + When(e.secondSend, Hosts(store.hosts))
                 else [])
  {
    hide Alter, HostKey, Send, Adds;
    var (store, r) := Alter(b.store, Change.Pair(key, e.wall), e.temp, e.backup, fp);
    var s := b.(store := store);
    NothingAdded(s, s);
    if r == StoreResult.Done {
      var f := match HostKey(key, fp) case Some(k) => k.0 case None => "";
      var a := s.(window := None, events := s.events + [Committed(b.window.value.epoch, f)]);
      CommitAnnounced(a, e);
      AddsFrom(s, a, AnnouncePairing(a, e).0,
               if e.firstSend then [PairCommitted] + When(e.secondSend, Hosts(store.hosts)) else []);
    }
  }

  lemma CommitAnnounced(a: Sup, e: Env)
    ensures Adds(a, AnnouncePairing(a, e).0,
                 if e.firstSend then [PairCommitted] + When(e.secondSend, Hosts(a.store.hosts)) else [])
  {
    hide Send, Adds;
    SendAdds(a, PairCommitted, e.firstSend);
    SendFrame(a, PairCommitted, e.firstSend);
    var c := Send(a, PairCommitted, e.firstSend).0;
    SendAdds(c, Hosts(c.store.hosts), e.secondSend);
    AddsBoth(a, c, Send(c, Hosts(c.store.hosts), e.secondSend).0, When(e.firstSend, PairCommitted),
             When(e.secondSend, Hosts(c.store.hosts)));
    NobodyTold(a, c, [PairCommitted] + When(e.secondSend, Hosts(a.store.hosts)));
  }

  /** Without a worker it does not matter what would be told. */
  lemma NobodyTold(s: Sup, u: Sup, ms: seq<Message>)
    ensures s.worker.None? && Adds(s, u, When(true, PairCommitted)) ==> Adds(s, u, ms)
  {
  }

  lemma AddsFrom(s: Sup, a: Sup, u: Sup, ms: seq<Message>)
    requires Adds(a, u, ms) && a.store == s.store && a.worker == s.worker && a.epoch == s.epoch && a.quit == s.quit
    requires a.bundle == s.bundle && a.state == s.state
    ensures Adds(s, u, ms)
  {
  }

  lemma FailedSettles(b: Sup, t: Step, fp: Fingerprinter)
    requires t.Heard? && t.message.Call? && Concerns(b, t, false)
    ensures Adds(b, PairingFailed(b, t.env), Ruled(b, t, fp))
  {
    hide ClosePairing;
    var w := b.window.value.(failures := b.window.value.failures + 1);
    var a := b.(window := Some(w), events := b.events + [Event.Failed(w.epoch)]);
    ClosePairingAdds(a, t.env.firstSend);
    NothingAdded(b, a);
  }

  lemma HeardSettles(b: Sup, t: Step, fp: Fingerprinter)
    requires t.Heard? && b.worker.Some?
    ensures Settled(b, t, Hear(b, t.message, t.env, t.replied, fp), fp)
  {
    hide Alter, Serve, Send, Stop, Ruled;
    var m, e := t.message, t.env;
    if m.Call? {
      ServeSettles(b, t, fp);
      var (a, answer) := Serve(b, m.request, e, fp);
      SendAdds(a, Reply(m.id, answer), t.replied);
      AddsBoth(b.(store := Changed(b, t, fp).0), a, Send(a, Reply(m.id, answer), t.replied).0, Ruled(b, t, fp),
               When(t.replied, Reply(m.id, answer)));
    } else if m.Ready? {
      NothingAdded(b, b);
    } else {
      StopSettles(b, State.Error, e.now);
    }
  }

  lemma RotateSettles(b: Sup, t: Step, fp: Fingerprinter)
    requires t.Rotation?
    ensures Settled(b, t, Rotate(b, t.env), fp)
  {
    hide Stop, StartWorker;
    NothingAdded(b, b);
    var a := StopWorker(b.(rotate := None));
    StartSettles(a, t.env.start);
    StopSettles(StartWorker(a, t.env.start).0, State.Error, t.env.now);
  }

  lemma RestartSettles(b: Sup, t: Step, fp: Fingerprinter)
    requires t.Restarting?
    ensures Settled(b, t, Restart(b, t.env), fp)
  {
    hide Stop, StartWorker;
    var e := t.env;
    StopSettles(b, Starting, e.now);
    var a := Stop(b, Starting, e.now);
    StopSettles(a, State.Error, e.now);
    StartSettles(a.(bundle := true), e.start);
    StopSettles(StartWorker(a.(bundle := true), e.start).0, State.Error, e.now);
  }

  /** Every step changes the store by what it asks for, and tells its worker, or a new one, exactly what its kind says,
      in order. */
  lemma StepSettles(b: Sup, t: Step, fp: Fingerprinter)
    requires Inv(b, fp) && Enabled(b, t)
    ensures Settled(b, t, Advance(b, t, fp), fp)
  {
    hide Inv, Alter, Order, Hear, Stop, ClosePairing, Rotate, Restart, Reaped;
    NothingAdded(b, b);
    match t
    case Ordered(_, _) => OrderSettles(b, t, fp);
    case Heard(_, _, _) => HeardSettles(b, t, fp);
    case Hangup(e) => StopSettles(b, State.Error, e.now);
    case Expiry(e) => ClosePairingAdds(b, e.firstSend);
    case Rotation(_) => RotateSettles(b, t, fp);
    case Reaping(_, _) =>
    case Pausing(state, now) => StopSettles(b, state, now);
    case Restarting(_) => RestartSettles(b, t, fp);
  }

  /** Which orders are answered without an error. A window opens while the service runs with room for a host and its
      worker can be told; a configuration must be saved, and a worker started if one is needed under it; a revocation
      must be saved, and the worker told if there is one. */
  lemma OrderIsConfirmedExactlyWhen(b: Sup, t: Step, fp: Fingerprinter)
    requires Inv(b, fp) && t.Ordered?
    ensures Order(b, t.control, t.env, fp).1 <==>
            match t.control
            case StartPairing => Pairable(b) && b.worker.Some? && t.env.listeners && t.env.secondSend
            case Configure(config) =>
              && Changed(b, t, fp).1
              && (config == b.store.config || Relocates(b, t) || !b.bundle || t.env.start)
            case Revoke(_) => Changed(b, t, fp).1 && (b.worker.None? || t.env.firstSend)
            case _ => true
  {
    hide Inv, Alter, Reconfigured, Revoked, OpenPairing, ClosePairing, Pairable, Relocates;
    match t.control
    case StartPairing => OpeningConfirmed(b, t.env);
    case Configure(config) =>
      InvBasics(b, fp);
      AlterEffects(b.store, Change.Configure(config), t.env.temp, t.env.backup, fp);
      var (store, r) := Alter(b.store, Change.Configure(config), t.env.temp, t.env.backup, fp);
      if r == StoreResult.Done {
        ReconfiguringConfirmed(b.(store := store), b, t);
      }
    case Revoke(f) =>
      RevokingConfirmed(b.(store := Alter(b.store, Change.Revoke(f), t.env.temp, t.env.backup, fp).0), f, t.env);
    case _ =>
  }

  lemma OpeningConfirmed(b: Sup, e: Env)
    ensures OpenPairing(b, e).1 <==> Pairable(b) && b.worker.Some? && e.listeners && e.secondSend
  {
    hide ClosePairing, Send;
    ClosePairingFrame(b, e.firstSend);
    var a := ClosePairing(b, e.firstSend);
    SendFrame(a.(epoch := a.epoch + 1), PairStart(a.epoch + 1), e.secondSend);
  }

  lemma ReconfiguringConfirmed(s: Sup, b: Sup, t: Step)
    requires s == b.(store := s.store) && t.Ordered? && t.control.Configure? && s.store.config == t.control.config
    ensures Reconfigured(s, b.store.config, t.env).1 <==>
            t.control.config == b.store.config || Relocates(b, t) || !b.bundle || t.env.start
  {
    hide Stop;
  }

  lemma RevokingConfirmed(s: Sup, f: string, e: Env)
    ensures Revoked(s, f, e).1 <==> s.worker.None? || e.firstSend
  {
    hide Disconnect, Send;
    DisconnectFrame(s, OfHost(s.transports, f));
    var a := Disconnect(s, OfHost(s.transports, f));
    SendFrame(a, Hosts(a.store.hosts), e.firstSend);
  }

  // ---------------------------------------------------------------------------------------------
  // A service without a worker

  /** The last change of the worker was a new configuration under which no worker could be started; the state the
      service was in then. */
  ghost function Orphaned(s: Sup, steps: seq<Step>, fp: Fingerprinter): Option<State>
  {
    if steps == [] then None
    else
      var init, t := steps[..|steps| - 1], steps[|steps| - 1];
      match After(s, init, fp)
      case None => None
      case Some(b) =>
        if Saves(b, t, fp) && !Relocates(b, t) && b.bundle then if t.env.start then None else Some(b.state)
        else if Halts(b, t, fp) || Due(b, t) then None
        else Orphaned(s, init, fp)
  }

  /** After any run, a service that has its listening sockets is without a worker exactly when none could be started
      under the last configuration saved and nothing stopped or restarted since; it is then still in the state it was in
      before that, even if that is running, and no pairing window can be opened. */
  lemma {:induction false} WorkerlessExactlyWhen(s: Sup, steps: seq<Step>, fp: Fingerprinter)
    requires Inv(s, fp) && (s.bundle ==> s.worker.Some?) && After(s, steps, fp).Some?
    ensures var u := After(s, steps, fp).value; var was := Orphaned(s, steps, fp);
            && (u.bundle && u.worker.None? <==> was.Some?)
            && (was.Some? ==> u.state == was.value && forall e :: !OpenPairing(u, e).1)
            && (u.state == Running && u.worker.None? <==> was == Some(Running))
  {
    hide Inv, Advance, Enabled, Halts, Saves, Due, Relocates, Told, Changed, Asked, OpenPairing;
    if steps != [] {
      var init, t := steps[..|steps| - 1], steps[|steps| - 1];
      WorkerlessExactlyWhen(s, init, fp);
      RunKeeps(s, init, fp);
      var b := After(s, init, fp).value;
      StepSettles(b, t, fp);
      KindsOfStep(b, t, fp);
      NothingHeardAlone(b, t);
    }
    NobodyToTell(After(s, steps, fp).value);
    RunKeeps(s, steps, fp);
    RunningIsHoused(After(s, steps, fp).value, fp);
  }

  lemma RunningIsHoused(s: Sup, fp: Fingerprinter)
    requires Inv(s, fp)
    ensures s.state == Running ==> s.bundle
  {
    hide Trusted, Knows, CountOf, Commits, Failures;
  }

  lemma KindsOfStep(b: Sup, t: Step, fp: Fingerprinter)
    ensures Saves(b, t, fp) && Relocates(b, t) ==> Halts(b, t, fp)
    ensures Saves(b, t, fp) ==> !t.Restarting? && !t.Rotation? && !Errs(b, t) && !t.Pausing? && !t.Heard?
    ensures Saves(b, t, fp) && !Relocates(b, t) ==> !Halts(b, t, fp)
    ensures Errs(b, t) || t.Pausing? || t.Restarting? ==> Halts(b, t, fp)
    ensures Due(b, t) ==> t.Rotation? && !t.Heard?
    ensures Due(b, t) && !Errs(b, t) ==> b.bundle && t.env.start && !Halts(b, t, fp)
  {
    hide Alter;
  }

  lemma NothingHeardAlone(b: Sup, t: Step)
    ensures Enabled(b, t) && b.worker.None? ==> !t.Heard?
  {
  }

  lemma NobodyToTell(s: Sup)
    ensures s.worker.None? ==> forall e :: !OpenPairing(s, e).1
  {
  }
}
