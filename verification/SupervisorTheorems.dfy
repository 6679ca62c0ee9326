/** What holds after every run of the supervisor, and what single steps of it may change. */
module SupervisorTheorems {
  import opened Wrappers
  import opened Documents
  import FileSystem
  import opened Commit
  import opened Store
  import opened Supervisor
  import opened SupervisorInvariant

  /** The supervisor as `run` sets it up over an opened store. */
  function Fresh(store: StoreState): Sup
  {
    Sup(store, None, false, [], map[], None, false, Starting, 0, false, None, 0, 0, 0, [])
  }

  /** Any sequence of steps; `None` when one of them could not be taken. */
  function After(s: Sup, steps: seq<Step>, fp: Fingerprinter): Option<Sup>
  {
    if steps == [] then Some(s)
    else
      match After(s, steps[..|steps| - 1], fp)
      case None => None
      case Some(t) =>
        var step := steps[|steps| - 1];
        if Enabled(t, step) then Some(Advance(t, step, fp)) else None
  }

  lemma FreshHolds(store: StoreState, fp: Fingerprinter)
    requires Trusted(store, fp)
    ensures Inv(Fresh(store), fp)
  {
    hide Trusted;
    IdleKeeps(Fresh(store), fp);
  }

  lemma {:induction false} RunKeeps(s: Sup, steps: seq<Step>, fp: Fingerprinter)
    requires Inv(s, fp)
    ensures After(s, steps, fp).Some? ==> Inv(After(s, steps, fp).value, fp)
  {
    hide Inv, Advance, Enabled;
    if steps != [] {
      RunKeeps(s, steps[..|steps| - 1], fp);
      var before := After(s, steps[..|steps| - 1], fp);
      var step := steps[|steps| - 1];
      if before.Some? && Enabled(before.value, step) {
        StepKeeps(before.value, step, fp);
      }
    }
  }

  /** Authorisation after any run: everyone connected is a stored host; a process that was not told to stop
      belongs to someone connected, hence to a stored host; without a worker there is nobody and nothing. */
  lemma EveryRunIsAuthorised(store: StoreState, steps: seq<Step>, fp: Fingerprinter)
    requires Trusted(store, fp) && After(Fresh(store), steps, fp).Some?
    ensures var s := After(Fresh(store), steps, fp).value;
            && (forall t | t in s.transports :: Knows(s.store.hosts, s.transports[t]))
            && (forall c | c in s.services && !c.stopped ::
                  c.transport in s.transports && Knows(s.store.hosts, s.transports[c.transport]))
            && (s.worker.None? ==> s.transports == map[] && s.services == [] && s.window.None?)
            && |s.transports| <= 8 && |s.store.hosts| <= 32
            && forall t :: CountOf(s.services, t) <= 80
  {
    hide After, Trusted, Knows, CountOf, Counted;
    FreshHolds(store, fp);
    RunKeeps(Fresh(store), steps, fp);
  }

  /** Privilege after any run: root only while the settings allow it, and no process in the table was started
      under settings that have been changed since, whichever way they changed. */
  lemma EveryRunIsPrivileged(store: StoreState, steps: seq<Step>, fp: Fingerprinter)
    requires Trusted(store, fp) && After(Fresh(store), steps, fp).Some?
    ensures var s := After(Fresh(store), steps, fp).value;
            && (s.root ==> s.store.config.allowAdbRoot)
            && forall c | c in s.services ::
                 c.allowSu == s.store.config.allowShellRoot && (c.root ==> s.store.config.allowAdbRoot)
  {
    hide After, Trusted, Knows, CountOf, Counted, Authorised, Limited;
    FreshHolds(store, fp);
    RunKeeps(Fresh(store), steps, fp);
  }

  /** Pairing after any run: an epoch commits at most one host and counts at most ten failures, and an open window
      is the latest one, has committed nothing and has failures to spare. */
  lemma EveryRunCountsPairings(store: StoreState, steps: seq<Step>, fp: Fingerprinter)
    requires Trusted(store, fp) && After(Fresh(store), steps, fp).Some?
    ensures var s := After(Fresh(store), steps, fp).value;
            && (forall k :: Commits(s.events, k) <= 1 && Failures(s.events, k) <= 10)
            && (s.window.Some? ==>
                  && s.window.value.epoch == s.epoch && s.window.value.failures < 10
                  && s.window.value.failures == Failures(s.events, s.epoch) && Commits(s.events, s.epoch) == 0)
  {
    hide After, Trusted, Authorised, Limited, Privileged, Commits, Failures;
    FreshHolds(store, fp);
    RunKeeps(Fresh(store), steps, fp);
  }

  /** Opening a pairing window unwraps the listening sockets; they are there whenever the service says it runs,
      and whenever there is a worker. */
  lemma RunningHasSockets(store: StoreState, steps: seq<Step>, fp: Fingerprinter)
    requires Trusted(store, fp) && After(Fresh(store), steps, fp).Some?
    ensures var s := After(Fresh(store), steps, fp).value;
            (s.state == Running ==> s.bundle) && (s.worker.Some? ==> s.bundle)
  {
    hide After, Trusted, Authorised, Limited, Privileged, Counted;
    FreshHolds(store, fp);
    RunKeeps(Fresh(store), steps, fp);
  }

  // ---------------------------------------------------------------------------------------------
  // Pairing

  /** A result for any window but the open one changes nothing at all. */
  lemma OldEpochsChangeNothing(s: Sup, epoch: nat, key: Option<string>, e: Env, fp: Fingerprinter)
    requires Inv(s, fp) && (epoch != s.epoch || s.window.None?)
    ensures Serve(s, PairResult(epoch, key), e, fp) == (s, Rejected)
  {
    hide Trusted, Authorised, Limited, Privileged, Commits, Failures, Paired, PairingFailed;
  }

  /** A pairing is confirmed exactly when its window was open, the store committed the host, and both messages to
      the worker went out. */
  lemma PairingConfirmedExactlyWhen(s: Sup, epoch: nat, key: string, e: Env, fp: Fingerprinter)
    requires Inv(s, fp)
    ensures Serve(s, PairResult(epoch, Some(key)), e, fp).1 == Answer.Done <==>
            && WindowFits(s.window, epoch, e.now)
            && Alter(s.store, Change.Pair(key, e.wall), e.temp, e.backup, fp).1 == StoreResult.Done
            && e.firstSend && e.secondSend
  {
    hide Alter, Trusted, Limited, Privileged, Counted, HostKey;
  }

  /** A confirmed host is durable: it is in memory, and in the host file after a crash at any later moment before
      the next change. Its window is closed and every host of before is still there. */
  lemma ConfirmedHostIsCommitted(s: Sup, epoch: nat, key: string, e: Env, fp: Fingerprinter, keep: seq<bool>)
    requires Inv(s, fp) && Serve(s, PairResult(epoch, Some(key)), e, fp).1 == Answer.Done
    requires |keep| == |Serve(s, PairResult(epoch, Some(key)), e, fp).0.store.machine.disk.pending|
    ensures WindowFits(s.window, epoch, e.now) && epoch == s.epoch
    ensures var t := Serve(s, PairResult(epoch, Some(key)), e, fp).0;
            && HostKey(key, fp).Some? && Knows(t.store.hosts, HostKey(key, fp).value.0)
            && s.store.hosts <= t.store.hosts
            && FoundAfterCrash(t.store.machine.disk, keep, HOSTS) == Some(FileSystem.Whole(HostsDoc(t.store.hosts)))
            && t.window.None?
  {
    hide Alter, Trusted, Limited, Privileged, Commits, Failures, HostKey, FoundAfterCrash, Knows, Send;
    InvAuthorised(s, fp);
    PairedStore(s, key, e, fp);
    PairedHostIsDurable(s.store, key, e.wall, e.temp, e.backup, fp, keep);
  }

  lemma PairedStore(s: Sup, key: string, e: Env, fp: Fingerprinter)
    requires s.window.Some?
    ensures var (t, answer) := Paired(s, key, e, fp);
            var (store, r) := Alter(s.store, Change.Pair(key, e.wall), e.temp, e.backup, fp);
            && t.store == store && t.transports == s.transports && t.services == s.services
            && (answer == Answer.Done ==> r == StoreResult.Done && t.window.None?)
  {
    hide Alter, HostKey;
  }

  // ---------------------------------------------------------------------------------------------
  // Revocation and reconfiguration

  /** A saved revocation acts at once: no transport of the host is left, every process of those transports was
      told to stop, and everybody else keeps transport and processes. */
  lemma RevocationIsImmediate(s: Sup, f: string, e: Env, fp: Fingerprinter)
    requires Inv(s, fp)
    requires Alter(s.store, Change.Revoke(f), e.temp, e.backup, fp).1 == StoreResult.Done
    ensures var t := Order(s, Control.Revoke(f), e, fp).0;
            && !Knows(t.store.hosts, f)
            && (forall k :: k in t.transports <==> k in s.transports && s.transports[k] != f)
            && (forall k | k in t.transports :: t.transports[k] == s.transports[k])
            && |t.services| == |s.services|
            && forall i | 0 <= i < |s.services| ::
                 && t.services[i].id == s.services[i].id
                 && if s.services[i].transport in s.transports && s.transports[s.services[i].transport] == f
                    then t.services[i].stopped else t.services[i] == s.services[i]
  {
    hide Alter, Trusted, Limited, Privileged, Counted, Knows, RevokeHosts, Send;
    InvAuthorised(s, fp);
    var store := Alter(s.store, Change.Revoke(f), e.temp, e.backup, fp).0;
    AlterEffects(s.store, Change.Revoke(f), e.temp, e.backup, fp);
    RevokingIsExact(s.store.hosts, f);
    var a := Disconnect(s.(store := store), OfHost(s.transports, f));
    SendFrame(a, Hosts(a.store.hosts), e.firstSend);
    assert Order(s, Control.Revoke(f), e, fp).0 == a.(worker := Order(s, Control.Revoke(f), e, fp).0.worker);
  }

  /** The worker, if there is one, is told the hosts that are left, unless the message cannot be sent; then the
      caller gets an error. */
  lemma RevocationIsAnnounced(s: Sup, f: string, e: Env, fp: Fingerprinter)
    requires Alter(s.store, Change.Revoke(f), e.temp, e.backup, fp).1 == StoreResult.Done
    ensures var (t, ok) := Order(s, Control.Revoke(f), e, fp);
            && (t.worker.Some? <==> s.worker.Some?)
            && (ok <==> s.worker.None? || e.firstSend)
            && (s.worker.Some? ==>
                  && t.worker.value.child == s.worker.value.child
                  && t.worker.value.inbox == s.worker.value.inbox + if ok then [Hosts(t.store.hosts)] else [])
  {
    hide Alter, Send;
    var store := Alter(s.store, Change.Revoke(f), e.temp, e.backup, fp).0;
    var a := Disconnect(s.(store := store), OfHost(s.transports, f));
    SendFrame(a, Hosts(a.store.hosts), e.firstSend);
  }

  /** A configuration that changes anything ends every session of before: no process, transport or window
      survives, root is off, and what runs afterwards is a new worker. */
  lemma ReconfigurationEndsSessions(s: Sup, config: Config, e: Env, fp: Fingerprinter)
    requires Inv(s, fp) && config != s.store.config
    requires Alter(s.store, Change.Configure(config), e.temp, e.backup, fp).1 == StoreResult.Done
    ensures var t := Order(s, Control.Configure(config), e, fp).0;
            && t.store.config == config && !t.root && t.services == [] && t.transports == map[] && t.window.None?
            && (t.worker.Some? ==> t.worker.value.child == s.spawned && t.state == Starting)
            && (EndpointChanged(s.store.config, config) ==> t.worker.None? && !t.bundle)
  {
    hide Alter, Trusted, Limited, Privileged, Counted, Knows, Stop;
    InvAuthorised(s, fp);
    AlterEffects(s.store, Change.Configure(config), e.temp, e.backup, fp);
    var store := Alter(s.store, Change.Configure(config), e.temp, e.backup, fp).0;
    StoppedShape(s.(store := store), Disabled, e.now);
  }

  lemma StoppedShape(s: Sup, state: State, now: nat)
    requires s.worker.None? ==> s.transports == map[] && s.services == [] && s.window.None?
    ensures var t := Stop(s, state, now);
            && t.worker.None? && !t.root && t.transports == map[] && t.services == [] && t.window.None?
            && t.store == s.store && !t.bundle && t.spawned == s.spawned && t.events == s.events
  {
    hide Backoff;
  }

  // ---------------------------------------------------------------------------------------------
  // Who may change what

  /** The trusted hosts and the configuration belong to the owner: a host is gained only by a pairing result for
      the open window and is then the host of that key; a host is lost only by an order to revoke it; the
      configuration changes only by an order. */
  lemma TrustChangesOnlyByRuling(s: Sup, t: Step, f: string, fp: Fingerprinter)
    requires Inv(s, fp)
    ensures var u := Advance(s, t, fp);
            && (Knows(u.store.hosts, f) && !Knows(s.store.hosts, f) ==>
                  && t.Heard? && t.message.Call? && t.message.request.PairResult? && t.message.request.key.Some?
                  && WindowFits(s.window, t.message.request.epoch, t.env.now)
                  && HostKey(t.message.request.key.value, fp).Some?
                  && f == HostKey(t.message.request.key.value, fp).value.0
                  && u.events == s.events + [Committed(s.epoch, f)])
            && (Knows(s.store.hosts, f) && !Knows(u.store.hosts, f) ==> t.Ordered? && t.control == Control.Revoke(f))
            && (u.store.config != s.store.config ==> t.Ordered? && t.control == Control.Configure(u.store.config))
  {
    hide Inv, Trusted, Knows, Order, Serve, Send, Stop, Rotate, Restart, HostKey, WindowFits, ClosePairing;
    InvAuthorised(s, fp);
    match t
    case Ordered(c, e) => OrderChanges(s, c, e, f, fp);
    case Heard(m, e, replied) =>
      if m.Call? {
        ServeChanges(s, m.request, e, f, fp);
        var (a, answer) := Serve(s, m.request, e, fp);
        SendFrame(a, Reply(m.id, answer), replied);
      } else {
        StoppedShape(s, Error, e.now);
      }
    case Hangup(e) => StoppedShape(s, Error, e.now);
    case Expiry(e) => ClosePairingFrame(s, e.firstSend);
    case Rotation(e) => RotateFrame(s, e);
    case Reaping(_, _) =>
    case Pausing(state, now) => StoppedShape(s, state, now);
    case Restarting(e) => RestartFrame(s, e);
  }

  lemma StartFrame(s: Sup, works: bool)
    ensures var t := StartWorker(s, works).0;
            && t.store == s.store && t.events == s.events && t.services == s.services && t.transports == s.transports
            && t.window == s.window && (t.worker.None? ==> s.worker.None?)
  {
  }

  lemma RotateFrame(s: Sup, e: Env)
    ensures Rotate(s, e).store == s.store && Rotate(s, e).events == s.events
  {
    hide Stop, StartWorker;
    var a := StopWorker(s.(rotate := None));
    StartFrame(a, e.start);
    StoppedShape(StartWorker(a, e.start).0, Error, e.now);
  }

  lemma RestartFrame(s: Sup, e: Env)
    requires s.worker.None? ==> s.transports == map[] && s.services == [] && s.window.None?
    ensures Restart(s, e).store == s.store && Restart(s, e).events == s.events
  {
    hide Stop, StartWorker;
    StoppedShape(s, Starting, e.now);
    var a := Stop(s, Starting, e.now);
    StoppedShape(a, Error, e.now);
    StartFrame(a.(bundle := true), e.start);
    StoppedShape(StartWorker(a.(bundle := true), e.start).0, Error, e.now);
  }

  lemma OrderChanges(s: Sup, c: Control, e: Env, f: string, fp: Fingerprinter)
    requires Trusted(s.store, fp) && Authorised(s)
    ensures var u := Order(s, c, e, fp).0;
            && (Knows(u.store.hosts, f) ==> Knows(s.store.hosts, f))
            && (Knows(s.store.hosts, f) && !Knows(u.store.hosts, f) ==> c == Control.Revoke(f))
            && (u.store.config != s.store.config ==> c == Control.Configure(u.store.config))
  {
    hide Trusted, Knows, Stop, ClosePairing, Alter, RevokeHosts, Reconfigured, Revoked, OpenPairing;
    match c
    case Status =>
    case Logs =>
    case StartPairing => OpenFrame(s, e);
    case StopPairing => ClosePairingFrame(s, e.firstSend);
    case Configure(config) =>
      AlterEffects(s.store, Change.Configure(config), e.temp, e.backup, fp);
      ReconfiguredFrame(s, Alter(s.store, Change.Configure(config), e.temp, e.backup, fp).0, e);
    case Revoke(g) =>
      AlterEffects(s.store, Change.Revoke(g), e.temp, e.backup, fp);
      RevokingIsExact(s.store.hosts, g);
      RevokedFrame(s.(store := Alter(s.store, Change.Revoke(g), e.temp, e.backup, fp).0), g, e);
    case Quit => StoppedShape(s.(quit := true), Disabled, e.now);
  }

  lemma ReconfiguredFrame(s: Sup, store: StoreState, e: Env)
    requires s.worker.None? ==> s.transports == map[] && s.services == [] && s.window.None?
    ensures Reconfigured(s.(store := store), s.store.config, e).0.store == store
    ensures Reconfigured(s.(store := store), s.store.config, e).0.events == s.events
  {
    hide Stop, StartWorker, EndpointChanged;
    var t := s.(store := store);
    StoppedShape(t, Disabled, e.now);
    StartFrame(StopWorker(t).(root := false), e.start);
  }

  lemma RevokedFrame(s: Sup, g: string, e: Env)
    ensures Revoked(s, g, e).0.store == s.store && Revoked(s, g, e).0.events == s.events
  {
    hide Send, Disconnect;
    DisconnectFrame(s, OfHost(s.transports, g));
    DisconnectEvents(s, OfHost(s.transports, g));
    SendFrame(Disconnect(s, OfHost(s.transports, g)), Hosts(s.store.hosts), e.firstSend);
  }

  lemma OpenFrame(s: Sup, e: Env)
    ensures OpenPairing(s, e).0.store == s.store && OpenPairing(s, e).0.events == s.events
  {
    hide ClosePairing, Send;
    ClosePairingFrame(s, e.firstSend);
    var a := ClosePairing(s, e.firstSend);
    SendFrame(a.(epoch := a.epoch + 1), PairStart(a.epoch + 1), e.secondSend);
  }

  lemma ServeChanges(s: Sup, r: Request, e: Env, f: string, fp: Fingerprinter)
    requires Inv(s, fp)
    ensures var u := Serve(s, r, e, fp).0;
            && u.store.config == s.store.config
            && (Knows(s.store.hosts, f) ==> Knows(u.store.hosts, f))
            && (Knows(u.store.hosts, f) && !Knows(s.store.hosts, f) ==>
                  && r.PairResult? && r.key.Some? && WindowFits(s.window, r.epoch, e.now)
                  && HostKey(r.key.value, fp).Some? && f == HostKey(r.key.value, fp).value.0
                  && u.events == s.events + [Committed(s.epoch, f)])
  {
    hide Inv, Trusted, Knows, Alter, Launch, Disconnect, SwitchRoot, Paired, ConnectHosts, HostKey;
    InvAuthorised(s, fp);
    match r
    case Authenticated(t, g) =>
      AlterEffects(s.store, Change.Connected(g, e.wall), e.temp, e.backup, fp);
      if ConnectHosts(s.store.hosts, g, e.wall).Some? {
        ConnectKnows(s.store.hosts, g, e.wall, f);
      }
    case Disconnected(t) => DisconnectFrame(s, {t});
    case Spawn(t, name) => LaunchFrame(s, t, name, false, e);
    case CloseService(t, id) =>
    case BindReverse(t, spec) => LaunchFrame(s, t, spec, true, e);
    case CloseReverse(t, spec) =>
    case Root(t, enable) => SwitchFrame(s, t, enable, e);
    case PairResult(epoch, key) =>
      if WindowFits(s.window, epoch, e.now) {
        if key.Some? {
          PairedChanges(s, key.value, e, f, fp);
          WindowIsCurrent(s, fp);
        } else {
          FailedFrame(s, e);
        }
      }
  }

  lemma WindowIsCurrent(s: Sup, fp: Fingerprinter)
    requires Inv(s, fp) && s.window.Some?
    ensures s.window.value.epoch == s.epoch
  {
  }

  lemma LaunchFrame(s: Sup, t: nat, name: string, bind: bool, e: Env)
    ensures var u := Launch(s, t, name, bind, e).0;
            u.store == s.store && u.events == s.events && u.root == s.root
  {
    hide CountOf, Utf8Length;
  }

  lemma SwitchFrame(s: Sup, t: nat, enable: bool, e: Env)
    ensures SwitchRoot(s, t, enable, e).0.store == s.store && SwitchRoot(s, t, enable, e).0.events == s.events
  {
  }

  lemma FailedFrame(s: Sup, e: Env)
    requires s.window.Some?
    ensures PairingFailed(s, e).store == s.store
  {
  }

  lemma PairedChanges(s: Sup, key: string, e: Env, f: string, fp: Fingerprinter)
    requires Trusted(s.store, fp) && s.window.Some?
    ensures var u := Paired(s, key, e, fp).0;
            && u.store.config == s.store.config
            && (Knows(s.store.hosts, f) ==> Knows(u.store.hosts, f))
            && (Knows(u.store.hosts, f) && !Knows(s.store.hosts, f) ==>
                  && HostKey(key, fp).Some? && f == HostKey(key, fp).value.0
                  && u.events == s.events + [Committed(s.window.value.epoch, f)])
  {
    hide Trusted, Knows, Alter, HostKey, PairHosts, Send;
    AlterEffects(s.store, Change.Pair(key, e.wall), e.temp, e.backup, fp);
    TrustedHosts(s.store, fp);
    PairingIsSound(s.store.hosts, key, e.wall, fp);
    PairedStore(s, key, e, fp);
    PairedEvents(s, key, e, fp);
  }

  lemma PairedEvents(s: Sup, key: string, e: Env, fp: Fingerprinter)
    requires s.window.Some?
    ensures Alter(s.store, Change.Pair(key, e.wall), e.temp, e.backup, fp).1 == StoreResult.Done
            && HostKey(key, fp).Some? ==>
            Paired(s, key, e, fp).0.events
            == s.events + [Committed(s.window.value.epoch, HostKey(key, fp).value.0)]
  {
    hide Alter, HostKey;
  }

  /** Over a whole run, whoever is trusted at the end was trusted at the start or was committed by a pairing. */
  lemma {:induction false} TrustIsEarned(s: Sup, steps: seq<Step>, f: string, fp: Fingerprinter)
    requires Inv(s, fp) && After(s, steps, fp).Some?
    ensures s.events <= After(s, steps, fp).value.events
    ensures Knows(After(s, steps, fp).value.store.hosts, f) ==>
            || Knows(s.store.hosts, f)
            || exists i, k | |s.events| <= i < |After(s, steps, fp).value.events| ::
                 After(s, steps, fp).value.events[i] == Committed(k, f)
  {
    hide Inv, Knows, Advance, Enabled;
    if steps != [] {
      var init, step := steps[..|steps| - 1], steps[|steps| - 1];
      TrustIsEarned(s, init, f, fp);
      RunKeeps(s, init, fp);
      var t := After(s, init, fp).value;
      var u := After(s, steps, fp).value;
      TrustChangesOnlyByRuling(t, step, f, fp);
      EventsGrow(t, step, fp);
      if Knows(u.store.hosts, f) && !Knows(t.store.hosts, f) {
        assert u.events[|t.events|] == Committed(t.epoch, f);
      } else if Knows(t.store.hosts, f) && !Knows(s.store.hosts, f) {
        var i, k :| |s.events| <= i < |t.events| && t.events[i] == Committed(k, f);
        assert u.events[i] == Committed(k, f);
      }
    }
  }

  lemma EventsGrow(s: Sup, t: Step, fp: Fingerprinter)
    requires Inv(s, fp)
    ensures s.events <= Advance(s, t, fp).events
  {
    hide Inv, Order, Serve, Send, Stop, Rotate, Restart, ClosePairing;
    InvAuthorised(s, fp);
    match t
    case Ordered(c, e) => OrderEvents(s, c, e, fp);
    case Heard(m, e, replied) =>
      if m.Call? {
        ServeEvents(s, m.request, e, fp);
        var (a, answer) := Serve(s, m.request, e, fp);
        SendFrame(a, Reply(m.id, answer), replied);
      } else {
        StoppedShape(s, Error, e.now);
      }
    case Hangup(e) => StoppedShape(s, Error, e.now);
    case Expiry(e) => ClosePairingFrame(s, e.firstSend);
    case Rotation(e) => RotateFrame(s, e);
    case Reaping(_, _) =>
    case Pausing(state, now) => StoppedShape(s, state, now);
    case Restarting(e) => RestartFrame(s, e);
  }

  lemma OrderEvents(s: Sup, c: Control, e: Env, fp: Fingerprinter)
    requires Authorised(s)
    ensures Order(s, c, e, fp).0.events == s.events
  {
    hide Alter, Stop, ClosePairing, Reconfigured, Revoked, OpenPairing, Knows;
    match c
    case Status =>
    case Logs =>
    case StartPairing => OpenFrame(s, e);
    case StopPairing => ClosePairingFrame(s, e.firstSend);
    case Configure(config) =>
      ReconfiguredFrame(s, Alter(s.store, Change.Configure(config), e.temp, e.backup, fp).0, e);
    case Revoke(g) =>
      RevokedFrame(s.(store := Alter(s.store, Change.Revoke(g), e.temp, e.backup, fp).0), g, e);
    case Quit => StoppedShape(s.(quit := true), Disabled, e.now);
  }

  lemma ServeEvents(s: Sup, r: Request, e: Env, fp: Fingerprinter)
    ensures s.events <= Serve(s, r, e, fp).0.events
  {
    hide Alter, Launch, Disconnect, SwitchRoot, Paired, PairingFailed, WindowFits;
    match r
    case Authenticated(t, g) =>
    case Disconnected(t) => DisconnectEvents(s, {t});
    case Spawn(t, name) => LaunchFrame(s, t, name, false, e);
    case CloseService(t, id) =>
    case BindReverse(t, spec) => LaunchFrame(s, t, spec, true, e);
    case CloseReverse(t, spec) =>
    case Root(t, enable) => SwitchFrame(s, t, enable, e);
    case PairResult(epoch, key) =>
      if WindowFits(s.window, epoch, e.now) {
        WindowIsOpen(s.window, epoch, e.now);
        PairingEvents(s, key, e, fp);
      }
  }

  lemma DisconnectEvents(s: Sup, ts: set<nat>)
    ensures Disconnect(s, ts).events == s.events && Disconnect(s, ts).root == s.root
  {
  }

  lemma WindowIsOpen(w: Option<Window>, epoch: nat, now: nat)
    requires WindowFits(w, epoch, now)
    ensures w.Some?
  {
  }

  lemma PairingEvents(s: Sup, key: Option<string>, e: Env, fp: Fingerprinter)
    requires s.window.Some?
    ensures s.events <= (if key.Some? then Paired(s, key.value, e, fp).0 else PairingFailed(s, e)).events
  {
    hide Alter, HostKey;
  }

  // ---------------------------------------------------------------------------------------------
  // Requests

  /** Whose transport a request is about. */
  function About(r: Request): Option<nat>
  {
    match r
    case Authenticated(t, _) => Some(t)
    case Disconnected(t) => Some(t)
    case Spawn(t, _) => Some(t)
    case CloseService(t, _) => Some(t)
    case Root(t, _) => Some(t)
    case PairResult(_, _) => None
    case BindReverse(t, _) => Some(t)
    case CloseReverse(t, _) => Some(t)
  }

  /** The other transport and its services are as before. */
  predicate Untouched(s: Sup, u: Sup, other: nat)
  {
    && (other in u.transports <==> other in s.transports)
    && (other in s.transports ==> u.transports[other] == s.transports[other])
    && |s.services| <= |u.services|
    && (forall i | 0 <= i < |s.services| && s.services[i].transport == other :: u.services[i] == s.services[i])
    && forall i | |s.services| <= i < |u.services| :: u.services[i].transport != other
  }

  /** A request never touches another transport or its services; what it adds to the table is its own. */
  lemma RequestsTouchOnlyTheirTransport(s: Sup, r: Request, e: Env, fp: Fingerprinter, other: nat)
    requires About(r) != Some(other)
    ensures Untouched(s, Serve(s, r, e, fp).0, other)
  {
    hide Alter, Launch, Disconnect, Paired, PairingFailed, WindowFits, CloseSoon, StopBinder;
    match r
    case Authenticated(t, g) =>
    case Disconnected(t) => DisconnectLeaves(s, t, other);
    case Spawn(t, name) => LaunchLeaves(s, t, name, false, e, other);
    case CloseService(t, id) =>
    case BindReverse(t, spec) => LaunchLeaves(s, t, spec, true, e, other);
    case CloseReverse(t, spec) =>
    case Root(t, enable) =>
    case PairResult(epoch, key) =>
      if WindowFits(s.window, epoch, e.now) {
        WindowIsOpen(s.window, epoch, e.now);
        PairingFrame(s, key, e, fp);
      }
  }

  lemma LaunchLeaves(s: Sup, t: nat, name: string, bind: bool, e: Env, other: nat)
    requires t != other
    ensures Untouched(s, Launch(s, t, name, bind, e).0, other)
  {
    hide Launch, CountOf;
    LaunchShape(s, t, name, bind, e);
  }

  lemma DisconnectLeaves(s: Sup, t: nat, other: nat)
    requires t != other
    ensures Untouched(s, Disconnect(s, {t}), other)
  {
    hide StopAll;
  }

  lemma AnnounceFrame(s: Sup, e: Env)
    ensures var u := AnnouncePairing(s, e).0;
            u.transports == s.transports && u.services == s.services && u.root == s.root
  {
    hide Send;
    var a := Send(s, PairCommitted, e.firstSend).0;
    SendFrame(s, PairCommitted, e.firstSend);
    SendFrame(a, Hosts(a.store.hosts), e.secondSend);
  }

  /** A pairing result changes neither transports nor services. */
  lemma PairingFrame(s: Sup, key: Option<string>, e: Env, fp: Fingerprinter)
    requires s.window.Some?
    ensures var u := if key.Some? then Paired(s, key.value, e, fp).0 else PairingFailed(s, e);
            u.transports == s.transports && u.services == s.services && u.root == s.root
  {
    hide Alter, HostKey, AnnouncePairing, ClosePairing;
    if key.Some? {
      var f := match HostKey(key.value, fp) case Some(k) => k.0 case None => "";
      var store := Alter(s.store, Change.Pair(key.value, e.wall), e.temp, e.backup, fp).0;
      var a := s.(store := store, window := None, events := s.events + [Committed(s.window.value.epoch, f)]);
      AnnounceFrame(a, e);
    } else {
      var w := s.window.value.(failures := s.window.value.failures + 1);
      ClosePairingFrame(s.(window := Some(w), events := s.events + [Event.Failed(w.epoch)]), e.firstSend);
    }
  }

  /** A service starts only for a registered transport with room, under a new number and with exactly the
      privileges in force; a refused one leaves nothing behind that may run. */
  lemma ServicesStartAsAllowed(s: Sup, t: nat, name: string, bind: bool, e: Env, fp: Fingerprinter)
    ensures var r := if bind then BindReverse(t, name) else Spawn(t, name);
            var (u, answer) := Serve(s, r, e, fp);
            && s.services <= u.services && |u.services| <= |s.services| + 1
            && (answer != Rejected ==>
                  && t in s.transports && CountOf(s.services, t) < 80
                  && |u.services| == |s.services| + 1 && u.spawned == s.spawned + 1
                  && var c := u.services[|s.services|];
                     && c.id == s.spawned && c.transport == t && !c.stopped
                     && c.root == s.root && c.allowSu == s.store.config.allowShellRoot
                     && (c.binder.Some? <==> bind)
                     && answer == if bind then Bound(c.binder.value) else Process(c.id))
            && (answer == Rejected ==> forall i | |s.services| <= i < |u.services| :: u.services[i].stopped)
            && u.(services := s.services, spawned := s.spawned) == s
  {
    hide CountOf, Launch;
    LaunchShape(s, t, name, bind, e);
  }

  /** On a disk that does not fail, a connection is admitted exactly when its host is trusted, its number is new and
      there is room; then it alone joins the table. */
  lemma AdmissionExactlyWhen(s: Sup, t: nat, f: string, e: Env, fp: Fingerprinter)
    requires Inv(s, fp) && s.store.machine.faults == []
    requires FileSystem.Temp(e.temp) !in s.store.machine.disk.dir
    requires FileSystem.Backup(e.backup) !in s.store.machine.disk.dir
    ensures var (u, answer) := Serve(s, Authenticated(t, f), e, fp);
            && (answer == Answer.Done <==>
                  |s.transports| < 8 && t !in s.transports && Knows(s.store.hosts, f))
            && u.transports == (if answer == Answer.Done then s.transports[t := f] else s.transports)
            && u.services == s.services
  {
    hide Admit, Launch, Disconnect, CloseSoon, StopBinder, SwitchRoot, Paired, PairingFailed, WindowFits, Inv, Knows;
    InvAuthorised(s, fp);
    AdmitsExactly(s, t, f, e, fp);
  }

  lemma AdmitsExactly(s: Sup, t: nat, f: string, e: Env, fp: Fingerprinter)
    requires Trusted(s.store, fp) && s.store.machine.faults == []
    requires FileSystem.Temp(e.temp) !in s.store.machine.disk.dir
    requires FileSystem.Backup(e.backup) !in s.store.machine.disk.dir
    ensures var (u, answer) := Admit(s, t, f, e, fp);
            && (answer == Answer.Done <==> |s.transports| < 8 && t !in s.transports && Knows(s.store.hosts, f))
            && u.transports == (if answer == Answer.Done then s.transports[t := f] else s.transports)
            && u.services == s.services
  {
    hide Alter, Proposal, Trusted, Knows, FileSystem.Formed;
    DiskFormed(s.store, fp);
    ConnectionIsProposed(s.store, f, e.wall, fp);
    DoneWhenNothingFails(s.store, Change.Connected(f, e.wall), e.temp, e.backup, fp);
  }

  lemma ConnectionIsProposed(s: StoreState, f: string, now: nat, fp: Fingerprinter)
    ensures Proposal(s, Change.Connected(f, now), fp).Some? <==> Knows(s.hosts, f)
  {
    hide Knows, ConnectHosts;
    ConnectingTouchesOneTime(s.hosts, f, now);
  }

  lemma DiskFormed(s: StoreState, fp: Fingerprinter)
    requires Trusted(s, fp)
    ensures FileSystem.Formed(s.machine.disk)
  {
  }

  /** Root is gained only at the request of a registered transport while the settings allow it, and everything
      running is then due to restart half a second later. It is given up by any stop. */
  lemma RootIsGainedOnlyOnRequest(s: Sup, t: Step, fp: Fingerprinter)
    requires Inv(s, fp) && Advance(s, t, fp).root && !s.root
    ensures t.Heard? && t.message.Call? && t.message.request.Root? && t.message.request.enable
    ensures t.message.request.transport in s.transports && s.store.config.allowAdbRoot
    ensures Advance(s, t, fp).rotate == Some(t.env.now + ROTATE_DELAY)
  {
    hide Inv, Alter, HostKey, CountOf, Utf8Length, AnnouncePairing, ClosePairing, StopAll, CloseSoon, StopBinder,
      Backoff, Reaped;
    match t
    case Ordered(c, e) => OrderRoot(s, c, e, fp);
    case Heard(m, e, replied) =>
      if m.Call? {
        ServeRoot(s, m.request, e, fp);
        var (a, answer) := Serve(s, m.request, e, fp);
        SendFrame(a, Reply(m.id, answer), replied);
      }
    case Hangup(e) =>
    case Expiry(e) => ClosePairingFrame(s, e.firstSend);
    case Rotation(e) =>
    case Reaping(_, _) =>
    case Pausing(_, _) =>
    case Restarting(_) =>
  }

  lemma OrderRoot(s: Sup, c: Control, e: Env, fp: Fingerprinter)
    requires !s.root
    ensures !Order(s, c, e, fp).0.root
  {
    hide Alter, Send, ClosePairing, StopAll, Backoff;
    match c
    case Status =>
    case Logs =>
    case StartPairing => OpenRoot(s, e);
    case StopPairing => ClosePairingFrame(s, e.firstSend);
    case Configure(_) =>
    case Revoke(f) =>
      var store := Alter(s.store, Change.Revoke(f), e.temp, e.backup, fp).0;
      var a := Disconnect(s.(store := store), OfHost(s.transports, f));
      SendFrame(a, Hosts(a.store.hosts), e.firstSend);
    case Quit =>
  }

  lemma OpenRoot(s: Sup, e: Env)
    ensures OpenPairing(s, e).0.root == s.root
  {
    hide ClosePairing, Send;
    ClosePairingFrame(s, e.firstSend);
    var a := ClosePairing(s, e.firstSend);
    SendFrame(a.(epoch := a.epoch + 1), PairStart(a.epoch + 1), e.secondSend);
  }

  lemma ServeRoot(s: Sup, r: Request, e: Env, fp: Fingerprinter)
    requires Serve(s, r, e, fp).0.root != s.root
    ensures r.Root? && r.transport in s.transports && (r.enable ==> s.store.config.allowAdbRoot)
    ensures Serve(s, r, e, fp).0.root == r.enable
    ensures Serve(s, r, e, fp).0.rotate == Some(e.now + ROTATE_DELAY)
  {
    hide Alter, Launch, Disconnect, CloseSoon, StopBinder, Paired, PairingFailed, WindowFits;
    match r
    case Authenticated(t, g) =>
    case Disconnected(t) => DisconnectEvents(s, {t});
    case Spawn(t, name) => LaunchFrame(s, t, name, false, e);
    case CloseService(t, id) =>
    case BindReverse(t, spec) => LaunchFrame(s, t, spec, true, e);
    case CloseReverse(t, spec) =>
    case Root(t, enable) =>
    case PairResult(epoch, key) =>
      if WindowFits(s.window, epoch, e.now) {
        WindowIsOpen(s.window, epoch, e.now);
        PairingFrame(s, key, e, fp);
      }
  }

  /** When its time has come, a rotation ends every session and every process, so that nothing keeps the privileges
      of before; root itself stays as it was asked for, unless the worker cannot be started. */
  lemma RotationRenewsEverything(s: Sup, e: Env, fp: Fingerprinter)
    requires Inv(s, fp) && s.rotate.Some? && e.now >= s.rotate.value
    ensures var u := Advance(s, Rotation(e), fp);
            && u.services == [] && u.transports == map[] && u.window.None? && u.rotate.None?
            && (u.worker.Some? <==> s.bundle && e.start)
            && (u.worker.Some? ==> u.worker.value.child == s.spawned && u.root == s.root && u.bundle)
            && (u.worker.None? ==> !u.root && u.state == Error)
  {
    hide Inv, Backoff;
  }

  /** After reaping nothing that exited is in the table and nothing overdue may still run; the others are as
      they were. */
  lemma {:induction false} ReapingIsExact(ss: seq<Service>, now: nat, exited: set<nat>, c: Service)
    ensures c in Reaped(ss, now, exited) <==> exists i | 0 <= i < |ss| :: Survives(ss[i], now, exited, c)
  {
    if ss != [] {
      var init, last := ss[..|ss| - 1], ss[|ss| - 1];
      ReapingIsExact(init, now, exited, c);
      assert c in Reaped(ss, now, exited) <==> c in Reaped(init, now, exited) || Survives(last, now, exited, c);
      hide Reaped, Survives;
      assert ss == init + [last];
      assert forall i | 0 <= i < |init| :: ss[i] == init[i];
    }
  }

  /** This service has not exited, and this is what is kept of it. */
  predicate Survives(s: Service, now: nat, exited: set<nat>, kept: Service)
  {
    && s.id !in exited
    && kept == if s.closeAt.Some? && now >= s.closeAt.value then Stopped(s) else s
  }
}
