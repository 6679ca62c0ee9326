/** What the supervisor holds after a run, told from the steps of the run: who asked for root last, which pairing window
    is open since when, how long it waits after an error, and what becomes of a service that is asked to close. */
module Histories {
  import opened Wrappers
  import opened Documents
  import opened Store
  import opened Supervisor
  import opened SupervisorInvariant
  import opened SupervisorTheorems

  // ---------------------------------------------------------------------------------------------
  // Steps, seen from the state before them

  /** A new configuration is saved in this step. */
  ghost predicate Saves(b: Sup, t: Step, fp: Fingerprinter)
  {
    && t.Ordered? && t.control.Configure? && t.control.config != b.store.config
    && Alter(b.store, Change.Configure(t.control.config), t.env.temp, t.env.backup, fp).1 == StoreResult.Done
  }

  /** The new configuration concerns the listening sockets. */
  ghost predicate Relocates(b: Sup, t: Step)
    requires t.Ordered? && t.control.Configure?
  {
    var was := b.store.config;
    var config := t.control.config;
    was.portMode != config.portMode || was.fixedPort != config.fixedPort || was.enabled != config.enabled
  }

  /** The time for a restart has come. */
  predicate Due(b: Sup, t: Step)
  {
    t.Rotation? && b.rotate.Some? && t.env.now >= b.rotate.value
  }

  /** The step ends in an error: a message that makes no sense, a worker that died or cannot be started. */
  predicate Errs(b: Sup, t: Step)
  {
    match t
    case Ordered(_, _) => false
    case Heard(m, _, _) => !m.Ready? && !m.Call?
    case Hangup(_) => true
    case Expiry(_) => false
    case Rotation(e) => Due(b, t) && !(b.bundle && e.start)
    case Reaping(_, _) => false
    case Pausing(state, _) => state == State.Error
    case Restarting(e) => !(e.listeners && e.start)
  }

  /** Everything stops in this step, though it may start again in the same. */
  ghost predicate Halts(b: Sup, t: Step, fp: Fingerprinter)
  {
    Errs(b, t) || t.Pausing? || t.Restarting? || (t.Ordered? && t.control.Quit?) || (Saves(b, t, fp) && Relocates(b, t))
  }

  /** A registered transport asks for root, or to give it up, and the settings allow it. */
  predicate Grants(b: Sup, t: Step, enable: bool)
  {
    && t.Heard? && t.message.Call? && t.message.request.Root? && t.message.request.enable == enable
    && t.message.request.transport in b.transports && (enable ==> b.store.config.allowAdbRoot)
  }

  /** An order to pair opens a window: the service runs with room for a host, and the worker can be told. */
  predicate Opens(b: Sup, t: Step)
  {
    && t.Ordered? && t.control.StartPairing? && b.state == Running && |b.store.hosts| < 32
    && b.worker.Some? && t.env.listeners && t.env.secondSend
  }

  /** A result of the open window, in time. */
  predicate Concerns(b: Sup, t: Step, ok: bool)
  {
    && t.Heard? && t.message.Call? && t.message.request.PairResult? && t.message.request.key.Some? == ok
    && b.window.Some? && b.window.value.epoch == t.message.request.epoch
    && t.env.now < b.window.value.expires && b.window.value.failures < 10
  }

  /** Whatever window was open is closed by this step: by an order, by a host committed or by the tenth failure in it,
      by its time, or with the worker. */
  ghost predicate Shuts(b: Sup, t: Step, fp: Fingerprinter)
  {
    || Halts(b, t, fp) || Saves(b, t, fp) || Due(b, t)
    || (t.Ordered? && t.control.StopPairing?)
    || (t.Ordered? && t.control.StartPairing? && b.state == Running && |b.store.hosts| < 32)
    || (t.Expiry? && b.window.Some? && t.env.now >= b.window.value.expires)
    || (Concerns(b, t, false) && b.window.value.failures + 1 == 10)
    || (Concerns(b, t, true)
        && Alter(b.store, Change.Pair(t.message.request.key.value, t.env.wall), t.env.temp, t.env.backup, fp).1
           == StoreResult.Done)
  }

  /** What one step leaves of root, the due restart, the pairing window and the delay after errors. */
  ghost predicate Moved(b: Sup, t: Step, u: Sup, fp: Fingerprinter)
  {
    && u.root == (if Halts(b, t, fp) || Saves(b, t, fp) then false
                  else if Grants(b, t, true) then true
                  else if Grants(b, t, false) then false
                  else b.root)
    && u.rotate == (if Halts(b, t, fp) || Due(b, t) then None
                    else if Grants(b, t, !b.root) then Some(t.env.now + 500)
                    else b.rotate)
    && u.window == (if Opens(b, t) then Some(Window(b.epoch + 1, t.env.now + 300_000, 0))
                    else if Shuts(b, t, fp) then None
                    else if Concerns(b, t, false) then
                      Some(b.window.value.(failures := b.window.value.failures + 1))
                    else b.window)
    && u.failures == (if Errs(b, t) then Min(b.failures + 1, 6) else b.failures)
    && u.retryAt == (if Errs(b, t) then TimeOf(t) + Delay(u.failures) else b.retryAt)
  }

  function Min(a: nat, b: nat): nat
  {
    if a <= b then a else b
  }

  function TimeOf(t: Step): nat
  {
    match t
    case Reaping(now, _) => now
    case Pausing(_, now) => now
    case _ => t.env.now
  }

  /** The delay after this many errors in a row, in milliseconds. */
  function Delay(errors: nat): nat
  {
    if errors == 0 then 1000 else if errors == 1 then 2000 else if errors == 2 then 4000
    else if errors == 3 then 8000 else if errors == 4 then 16000 else if errors == 5 then 32000 else 64000
  }

  lemma DelayIsBackoff(errors: nat)
    requires errors <= 6
    ensures Backoff(errors) == Delay(errors)
  {
    if errors > 0 {
      DelayIsBackoff(errors - 1);
    }
  }

  // ---------------------------------------------------------------------------------------------
  // One step

  lemma StopMoves(s: Sup, state: State, now: nat)
    requires s.failures <= 6 && (s.worker.None? ==> s.window.None?)
    ensures var t := Stop(s, state, now);
            && !t.root && t.rotate.None? && t.window.None? && t.worker.None?
            && t.failures == (if state == State.Error then Min(s.failures + 1, 6) else s.failures)
            && t.retryAt == (if state == State.Error then now + Delay(t.failures) else s.retryAt)
  {
    hide Backoff;
    DelayIsBackoff(Min(s.failures + 1, 6));
  }

  lemma StartMoves(s: Sup, works: bool)
    ensures var (t, ok) := StartWorker(s, works);
            && (ok <==> s.bundle && works)
            && t.root == s.root && t.rotate == s.rotate && t.window == s.window
            && t.failures == s.failures && t.retryAt == s.retryAt
            && (t.worker.None? ==> s.worker.None?)
  {
  }

  lemma OrderMoves(b: Sup, t: Step, fp: Fingerprinter)
    requires Inv(b, fp) && t.Ordered?
    ensures Moved(b, t, Order(b, t.control, t.env, fp).0, fp)
  {
    hide Inv, Alter, Stop, ClosePairing, Reconfigured, Revoked, OpenPairing, Moved, RevokeHosts;
    InvBasics(b, fp);
    var u := Order(b, t.control, t.env, fp).0;
    match t.control
    case Status => PlainMoved(b, t, u, fp);
    case Logs => PlainMoved(b, t, u, fp);
    case StartPairing =>
      OpenMoves(b, t.env);
      OpenMoved(b, t, u, fp);
    case StopPairing =>
      ClosePairingFrame(b, t.env.firstSend);
      OpenMoved(b, t, u, fp);
    case Configure(_) => ConfigureMoved(b, t, fp);
    case Revoke(f) =>
      RevokeMoves(b.(store := Alter(b.store, Change.Revoke(f), t.env.temp, t.env.backup, fp).0), f, t.env);
      PlainMoved(b, t, u, fp);
    case Quit =>
      StopMoves(b.(quit := true), Disabled, t.env.now);
      QuitMoved(b, t, u, fp);
  }

  /** An order that has nothing to do with root or the window. */
  lemma PlainMoved(b: Sup, t: Step, u: Sup, fp: Fingerprinter)
    requires t.Ordered? && (t.control.Status? || t.control.Logs? || t.control.Revoke?)
    requires u.root == b.root && u.rotate == b.rotate && u.window == b.window
    requires u.failures == b.failures && u.retryAt == b.retryAt
    ensures Moved(b, t, u, fp)
  {
    hide Alter;
  }

  lemma OpenMoved(b: Sup, t: Step, u: Sup, fp: Fingerprinter)
    requires t.Ordered? && (t.control.StartPairing? || t.control.StopPairing?)
    requires u.root == b.root && u.rotate == b.rotate && u.failures == b.failures && u.retryAt == b.retryAt
    requires t.control.StopPairing? ==> u.window.None?
    requires t.control.StartPairing? ==>
               var tries := b.state == Running && |b.store.hosts| < 32;
               u.window == if tries && b.worker.Some? && t.env.listeners && t.env.secondSend
                           then Some(Window(b.epoch + 1, t.env.now + 300_000, 0)) else if tries then None else b.window
    ensures Moved(b, t, u, fp)
  {
    hide Alter;
  }

  lemma ConfigureMoved(b: Sup, t: Step, fp: Fingerprinter)
    requires Trusted(b.store, fp) && b.failures <= 6 && (b.worker.None? ==> b.window.None?)
    requires t.Ordered? && t.control.Configure?
    ensures Moved(b, t, Order(b, t.control, t.env, fp).0, fp)
  {
    hide Alter, Stop, Reconfigured, Trusted;
    var change := Change.Configure(t.control.config);
    AlterEffects(b.store, change, t.env.temp, t.env.backup, fp);
    var (store, r) := Alter(b.store, change, t.env.temp, t.env.backup, fp);
    if r == StoreResult.Done {
      ReconfigureMoves(b.(store := store), b.store.config, t.env);
    }
  }

  lemma QuitMoved(b: Sup, t: Step, u: Sup, fp: Fingerprinter)
    requires t.Ordered? && t.control.Quit? && !u.root && u.rotate.None? && u.window.None?
    requires u.failures == b.failures && u.retryAt == b.retryAt
    ensures Moved(b, t, u, fp)
  {
    hide Alter;
  }

  lemma InvBasics(b: Sup, fp: Fingerprinter)
    requires Inv(b, fp)
    ensures Trusted(b.store, fp) && b.failures <= 6 && (b.worker.None? ==> b.window.None?)
    ensures b.window.Some? ==> b.window.value.failures < 10
  {
    hide Trusted, Commits, Failures, CountOf, Knows;
  }

  lemma OpenMoves(b: Sup, e: Env)
    ensures var u := OpenPairing(b, e).0;
            var tries := b.state == Running && |b.store.hosts| < 32;
            && u.root == b.root && u.rotate == b.rotate && u.failures == b.failures && u.retryAt == b.retryAt
            && u.window == if tries && b.worker.Some? && e.listeners && e.secondSend
                           then Some(Window(b.epoch + 1, e.now + 300_000, 0)) else if tries then None else b.window
  {
    hide ClosePairing, Send;
    ClosePairingFrame(b, e.firstSend);
    var a := ClosePairing(b, e.firstSend);
    SendFrame(a.(epoch := a.epoch + 1), PairStart(a.epoch + 1), e.secondSend);
  }

  lemma ReconfigureMoves(s: Sup, was: Config, e: Env)
    requires s.failures <= 6 && (s.worker.None? ==> s.window.None?)
    ensures var u := Reconfigured(s, was, e).0; var config := s.store.config;
            var moves := was.portMode != config.portMode || was.fixedPort != config.fixedPort
                         || was.enabled != config.enabled;
            && u.failures == s.failures && u.retryAt == s.retryAt
            && u.root == (if was == config then s.root else false)
            && u.window == (if was == config then s.window else None)
            && u.rotate == (if was != config && moves then None else s.rotate)
  {
    hide Stop, StartWorker;
    StopMoves(s, Disabled, e.now);
    StartMoves(StopWorker(s).(root := false), e.start);
  }

  lemma RevokeMoves(s: Sup, f: string, e: Env)
    ensures var u := Revoked(s, f, e).0;
            && u.root == s.root && u.rotate == s.rotate && u.window == s.window
            && u.failures == s.failures && u.retryAt == s.retryAt
  {
    hide Send, Disconnect;
    DisconnectFrame(s, OfHost(s.transports, f));
    SendFrame(Disconnect(s, OfHost(s.transports, f)), Hosts(s.store.hosts), e.firstSend);
  }

  lemma HeardMoves(b: Sup, t: Step, fp: Fingerprinter)
    requires Inv(b, fp) && t.Heard?
    ensures Moved(b, t, Hear(b, t.message, t.env, t.replied, fp), fp)
  {
    hide Inv, Serve, Send, Stop, Alter;
    InvBasics(b, fp);
    var m, e := t.message, t.env;
    if m.Call? {
      ServeMoves(b, t, fp);
      var (a, answer) := Serve(b, m.request, e, fp);
      SendFrame(a, Reply(m.id, answer), t.replied);
    } else {
      StopMoves(b, State.Error, e.now);
    }
  }

  lemma ServeMoves(b: Sup, t: Step, fp: Fingerprinter)
    requires Inv(b, fp) && t.Heard? && t.message.Call?
    ensures Moved(b, t, Serve(b, t.message.request, t.env, fp).0, fp)
  {
    hide Inv, Moved, Alter, Launch, Disconnect, CloseSoon, StopBinder, Paired, PairingFailed, SwitchRoot, WindowFits;
    var e, r := t.env, t.message.request;
    var u := Serve(b, r, e, fp).0;
    match r
    case Authenticated(_, _) => StillMoved(b, t, u, fp);
    case Disconnected(k) => DisconnectFrame(b, {k}); StillMoved(b, t, u, fp);
    case Spawn(k, name) => LaunchMoves(b, k, name, false, e); StillMoved(b, t, u, fp);
    case CloseService(_, _) => StillMoved(b, t, u, fp);
    case BindReverse(k, spec) => LaunchMoves(b, k, spec, true, e); StillMoved(b, t, u, fp);
    case CloseReverse(_, _) => StillMoved(b, t, u, fp);
    case Root(_, _) => SwitchMoves(b, t, fp);
    case PairResult(epoch, key) => ResultMoves(b, t, fp);
  }

  /** A request that is neither about root nor a pairing result. */
  lemma StillMoved(b: Sup, t: Step, u: Sup, fp: Fingerprinter)
    requires t.Heard? && t.message.Call? && !t.message.request.Root? && !t.message.request.PairResult?
    requires u.root == b.root && u.rotate == b.rotate && u.window == b.window
    requires u.failures == b.failures && u.retryAt == b.retryAt
    ensures Moved(b, t, u, fp)
  {
    hide Alter;
  }

  lemma SwitchMoves(b: Sup, t: Step, fp: Fingerprinter)
    requires t.Heard? && t.message.Call? && t.message.request.Root?
    ensures Moved(b, t, SwitchRoot(b, t.message.request.transport, t.message.request.enable, t.env).0, fp)
  {
    hide Alter;
  }

  lemma ResultMoves(b: Sup, t: Step, fp: Fingerprinter)
    requires Inv(b, fp) && t.Heard? && t.message.Call? && t.message.request.PairResult?
    ensures Moved(b, t, Serve(b, t.message.request, t.env, fp).0, fp)
  {
    hide Inv, Alter, Paired, PairingFailed;
    InvBasics(b, fp);
    var key := t.message.request.key;
    if WindowFits(b.window, t.message.request.epoch, t.env.now) {
      if key.Some? {
        PairedMoves(b, key.value, t.env, fp);
      } else {
        FailedMoves(b, t.env);
      }
    }
  }

  lemma LaunchMoves(s: Sup, k: nat, name: string, bind: bool, e: Env)
    ensures var u := Launch(s, k, name, bind, e).0;
            && u.root == s.root && u.rotate == s.rotate && u.window == s.window
            && u.failures == s.failures && u.retryAt == s.retryAt
  {
    hide CountOf, Launch;
    LaunchShape(s, k, name, bind, e);
  }

  lemma PairedMoves(s: Sup, key: string, e: Env, fp: Fingerprinter)
    requires s.window.Some?
    ensures var u := Paired(s, key, e, fp).0;
            && u.root == s.root && u.rotate == s.rotate && u.failures == s.failures && u.retryAt == s.retryAt
            && u.window == if Alter(s.store, Change.Pair(key, e.wall), e.temp, e.backup, fp).1 == StoreResult.Done
                           then None else s.window
  {
    hide Alter, HostKey, AnnouncePairing;
    var f := match HostKey(key, fp) case Some(k) => k.0 case None => "";
    var store := Alter(s.store, Change.Pair(key, e.wall), e.temp, e.backup, fp).0;
    AnnounceMoves(s.(store := store, window := None, events := s.events + [Committed(s.window.value.epoch, f)]), e);
  }

  lemma AnnounceMoves(s: Sup, e: Env)
    ensures var u := AnnouncePairing(s, e).0; u == s.(worker := u.worker)
  {
    hide Send;
    SendFrame(s, PairCommitted, e.firstSend);
    var a := Send(s, PairCommitted, e.firstSend).0;
    SendFrame(a, Hosts(a.store.hosts), e.secondSend);
  }

  lemma FailedMoves(s: Sup, e: Env)
    requires s.window.Some? && s.window.value.failures < 10
    ensures var u := PairingFailed(s, e); var w := s.window.value.(failures := s.window.value.failures + 1);
            && u.root == s.root && u.rotate == s.rotate && u.failures == s.failures && u.retryAt == s.retryAt
            && u.window == if w.failures == 10 then None else Some(w)
  {
    hide ClosePairing;
    var w := s.window.value.(failures := s.window.value.failures + 1);
    ClosePairingFrame(s.(window := Some(w), events := s.events + [Event.Failed(w.epoch)]), e.firstSend);
  }

  /** Every step does to root, the due restart, the window and the delay exactly what its kind says. */
  lemma StepMoves(b: Sup, t: Step, fp: Fingerprinter)
    requires Inv(b, fp) && Enabled(b, t)
    ensures Moved(b, t, Advance(b, t, fp), fp)
  {
    hide Inv, Alter, Order, Hear, Stop, StartWorker, ClosePairing, Reaped;
    InvBasics(b, fp);
    match t
    case Ordered(_, _) => OrderMoves(b, t, fp);
    case Heard(_, _, _) => HeardMoves(b, t, fp);
    case Hangup(e) => StopMoves(b, State.Error, e.now);
    case Expiry(e) => ClosePairingFrame(b, e.firstSend);
    case Rotation(e) => RotationMoves(b, e);
    case Reaping(_, _) =>
    case Pausing(state, now) => StopMoves(b, state, now);
    case Restarting(e) => RestartMoves(b, e);
  }

  lemma RotationMoves(b: Sup, e: Env)
    requires b.failures <= 6
    ensures var u := Rotate(b, e);
            var due := b.rotate.Some? && e.now >= b.rotate.value; var fails := due && !(b.bundle && e.start);
            && u.root == (b.root && !fails) && u.rotate == (if due then None else b.rotate)
            && u.window == (if due then None else b.window)
            && u.failures == (if fails then Min(b.failures + 1, 6) else b.failures)
            && u.retryAt == (if fails then e.now + Delay(u.failures) else b.retryAt)
  {
    hide Stop, StartWorker;
    var a := StopWorker(b.(rotate := None));
    StartMoves(a, e.start);
    if b.rotate.Some? && e.now >= b.rotate.value && !(b.bundle && e.start) {
      StopMoves(StartWorker(a, e.start).0, State.Error, e.now);
    }
  }

  lemma RestartMoves(b: Sup, e: Env)
    requires b.failures <= 6 && (b.worker.None? ==> b.window.None?)
    ensures var u := Restart(b, e); var fails := !(e.listeners && e.start);
            && !u.root && u.rotate.None? && u.window.None?
            && u.failures == (if fails then Min(b.failures + 1, 6) else b.failures)
            && u.retryAt == (if fails then e.now + Delay(u.failures) else b.retryAt)
  {
    hide Stop, StartWorker;
    StopMoves(b, Starting, e.now);
    var a := Stop(b, Starting, e.now);
    StopMoves(a, State.Error, e.now);
    StartMoves(a.(bundle := true), e.start);
    StopMoves(StartWorker(a.(bundle := true), e.start).0, State.Error, e.now);
  }

  // ---------------------------------------------------------------------------------------------
  // Root

  /** A request to become root, or to give it up, is granted exactly when its transport is registered and the settings
      allow what it asks for. Root is then as asked. If it was so already nothing else changes; otherwise everything is
      due to restart half a second later. */
  lemma RootIsAsAsked(s: Sup, t: nat, enable: bool, e: Env, fp: Fingerprinter)
    ensures var (u, answer) := Serve(s, Root(t, enable), e, fp);
            && (answer != Rejected <==> t in s.transports && (enable ==> s.store.config.allowAdbRoot))
            && (answer == Rejected ==> u == s)
            && (answer != Rejected ==>
                  && u.root == enable
                  && u == (if s.root == enable then s else s.(root := enable, rotate := Some(e.now + 500)))
                  && answer == Text(if s.root == enable then
                                      if enable then "adbd is already running as root\n"
                                      else "adbd not running as root\n"
                                    else if enable then "restarting adbd as root\n"
                                    else "restarting adbd as non root\n"))
  {
  }

  // ---------------------------------------------------------------------------------------------
  // Runs

  /** What a run may have left standing: root, a due restart, a pairing window. */
  datatype Mark = RootMark | RestartMark | WindowMark

  /** The step at this point of the run sets the mark. */
  ghost predicate SetAt(k: Mark, s: Sup, steps: seq<Step>, i: nat, fp: Fingerprinter)
    requires i < |steps|
  {
    match After(s, steps[..i], fp)
    case None => false
    case Some(b) =>
      match k
      case RootMark => Grants(b, steps[i], true)
      case RestartMark => Grants(b, steps[i], !b.root)
      case WindowMark => Opens(b, steps[i])
  }

  /** The step at this point of the run clears the mark, whether or not it sets it again. */
  ghost predicate ClearedAt(k: Mark, s: Sup, steps: seq<Step>, i: nat, fp: Fingerprinter)
    requires i < |steps|
  {
    match After(s, steps[..i], fp)
    case None => false
    case Some(b) =>
      match k
      case RootMark => Halts(b, steps[i], fp) || Saves(b, steps[i], fp) || Grants(b, steps[i], false)
      case RestartMark => Halts(b, steps[i], fp) || Due(b, steps[i]) || Grants(b, steps[i], !b.root)
      case WindowMark => Shuts(b, steps[i], fp)
  }

  /** The mark stands since this point of the run. */
  ghost predicate Since(k: Mark, s: Sup, steps: seq<Step>, i: nat, fp: Fingerprinter)
    requires i < |steps|
  {
    SetAt(k, s, steps, i, fp) && forall j | i < j < |steps| :: !ClearedAt(k, s, steps, j, fp)
  }

  ghost predicate Stands(k: Mark, s: Sup, steps: seq<Step>, fp: Fingerprinter)
  {
    exists i | 0 <= i < |steps| :: Since(k, s, steps, i, fp)
  }

  lemma SincePush(k: Mark, s: Sup, steps: seq<Step>, i: nat, fp: Fingerprinter)
    requires i + 1 < |steps|
    ensures Since(k, s, steps, i, fp) <==>
            Since(k, s, steps[..|steps| - 1], i, fp) && !ClearedAt(k, s, steps, |steps| - 1, fp)
  {
    hide After, Halts, Saves, Grants, Due, Opens, Shuts;
    var init := steps[..|steps| - 1];
    forall j | 0 <= j < |init|
      ensures SetAt(k, s, init, j, fp) <==> SetAt(k, s, steps, j, fp)
      ensures ClearedAt(k, s, init, j, fp) <==> ClearedAt(k, s, steps, j, fp)
    {
      assert init[..j] == steps[..j];
    }
    hide SetAt, ClearedAt;
    if Since(k, s, init, i, fp) && !ClearedAt(k, s, steps, |steps| - 1, fp) {
      forall j | i < j < |steps| ensures !ClearedAt(k, s, steps, j, fp) {
        if j < |init| {
          assert !ClearedAt(k, s, init, j, fp);
        }
      }
    }
    if Since(k, s, steps, i, fp) {
      assert forall j | i < j < |init| :: !ClearedAt(k, s, steps, j, fp);
    }
  }

  lemma StandsPush(k: Mark, s: Sup, steps: seq<Step>, fp: Fingerprinter)
    requires steps != []
    ensures Stands(k, s, steps, fp) <==>
            || SetAt(k, s, steps, |steps| - 1, fp)
            || (Stands(k, s, steps[..|steps| - 1], fp) && !ClearedAt(k, s, steps, |steps| - 1, fp))
  {
    hide SetAt, ClearedAt;
    var init := steps[..|steps| - 1];
    if Stands(k, s, steps, fp) {
      var i :| 0 <= i < |steps| && Since(k, s, steps, i, fp);
      if i < |init| {
        SincePush(k, s, steps, i, fp);
      }
    }
    if SetAt(k, s, steps, |steps| - 1, fp) {
      assert Since(k, s, steps, |steps| - 1, fp);
    }
    if Stands(k, s, init, fp) && !ClearedAt(k, s, steps, |steps| - 1, fp) {
      var i :| 0 <= i < |init| && Since(k, s, init, i, fp);
      SincePush(k, s, steps, i, fp);
    }
  }

  /** The last step of a run. */
  lemma LastMoves(s: Sup, steps: seq<Step>, fp: Fingerprinter)
    requires Inv(s, fp) && steps != [] && After(s, steps, fp).Some?
    ensures var init := steps[..|steps| - 1];
            && After(s, init, fp).Some? && Inv(After(s, init, fp).value, fp)
            && Moved(After(s, init, fp).value, steps[|steps| - 1], After(s, steps, fp).value, fp)
  {
    hide Inv, Advance, Enabled, Moved;
    RunKeeps(s, steps[..|steps| - 1], fp);
    StepMoves(After(s, steps[..|steps| - 1], fp).value, steps[|steps| - 1], fp);
  }

  /** After any run root is on exactly when a registered transport asked for it while the settings allowed it, and
      since then nobody gave it up, no configuration was saved and nothing stopped. */
  lemma {:induction false} RootIsWhatWasLastAsked(s: Sup, steps: seq<Step>, fp: Fingerprinter)
    requires Inv(s, fp) && !s.root && After(s, steps, fp).Some?
    ensures After(s, steps, fp).value.root <==> Stands(RootMark, s, steps, fp)
  {
    hide Inv, Advance, Enabled, Stands, Halts, Saves, Shuts, Opens, Concerns;
    if steps == [] {
      NothingStands(RootMark, s, fp);
    } else {
      LastMoves(s, steps, fp);
      RootIsWhatWasLastAsked(s, steps[..|steps| - 1], fp);
      StepKinds(After(s, steps[..|steps| - 1], fp).value, steps[|steps| - 1], fp);
      StandsPush(RootMark, s, steps, fp);
    }
  }

  /** What the kinds of step have to do with each other. */
  lemma StepKinds(b: Sup, t: Step, fp: Fingerprinter)
    ensures forall on :: Grants(b, t, on) ==> !Halts(b, t, fp) && !Saves(b, t, fp) && TimeOf(t) == t.env.now
    ensures Opens(b, t) ==> Shuts(b, t, fp) && TimeOf(t) == t.env.now
    ensures Concerns(b, t, false) ==> b.window.Some?
  {
  }

  lemma NothingStands(k: Mark, s: Sup, fp: Fingerprinter)
    ensures !Stands(k, s, [], fp)
  {
  }

  /** A restart is due after a run exactly when root was switched and nothing restarted or stopped since, half a second
      after the switch. */
  lemma {:induction false} RestartIsDueSince(s: Sup, steps: seq<Step>, fp: Fingerprinter)
    requires Inv(s, fp) && s.rotate.None? && After(s, steps, fp).Some?
    ensures var u := After(s, steps, fp).value;
            && (u.rotate.Some? <==> Stands(RestartMark, s, steps, fp))
            && forall i | 0 <= i < |steps| && Since(RestartMark, s, steps, i, fp) ::
                 u.rotate == Some(TimeOf(steps[i]) + 500)
  {
    hide Inv, Advance, Enabled, Stands, Halts, Saves, Shuts, Opens, Concerns;
    if steps == [] {
      NothingStands(RestartMark, s, fp);
    } else {
      var init := steps[..|steps| - 1];
      LastMoves(s, steps, fp);
      RestartIsDueSince(s, init, fp);
      StepKinds(After(s, init, fp).value, steps[|steps| - 1], fp);
      StandsPush(RestartMark, s, steps, fp);
      forall i | 0 <= i < |steps| && Since(RestartMark, s, steps, i, fp)
        ensures After(s, steps, fp).value.rotate == Some(TimeOf(steps[i]) + 500)
      {
        if i < |init| {
          SincePush(RestartMark, s, steps, i, fp);
        }
      }
    }
  }

  /** A pairing window is open after a run exactly when an order opened it and nothing shut it since. It carries the
      epoch its order began and ends five minutes after that order. */
  lemma {:induction false} WindowIsOpenSince(s: Sup, steps: seq<Step>, fp: Fingerprinter)
    requires Inv(s, fp) && s.window.None? && After(s, steps, fp).Some?
    ensures var u := After(s, steps, fp).value;
            && (u.window.Some? <==> Stands(WindowMark, s, steps, fp))
            && forall i | 0 <= i < |steps| && Since(WindowMark, s, steps, i, fp) ::
                 && u.window.Some? && u.window.value.expires == TimeOf(steps[i]) + 300_000
                 && After(s, steps[..i], fp).Some?
                 && u.window.value.epoch == After(s, steps[..i], fp).value.epoch + 1
  {
    hide Inv, Advance, Enabled, Stands, Halts, Saves, Shuts, Opens, Concerns;
    if steps == [] {
      NothingStands(WindowMark, s, fp);
    } else {
      var init := steps[..|steps| - 1];
      LastMoves(s, steps, fp);
      WindowIsOpenSince(s, init, fp);
      StandsPush(WindowMark, s, steps, fp);
      StepKinds(After(s, init, fp).value, steps[|steps| - 1], fp);
      forall i | 0 <= i < |steps| && Since(WindowMark, s, steps, i, fp)
        ensures var u := After(s, steps, fp).value;
                && u.window.Some? && u.window.value.expires == TimeOf(steps[i]) + 300_000
                && After(s, steps[..i], fp).Some?
                && u.window.value.epoch == After(s, steps[..i], fp).value.epoch + 1
      {
        assert init[..i] == steps[..i] by { assert i <= |init|; }
        if i < |init| {
          SincePush(WindowMark, s, steps, i, fp);
        }
      }
    }
  }

  /** A pairing result is granted only within five minutes of the order that opened the window it belongs to. */
  lemma PairingNeedsAWindow(s: Sup, steps: seq<Step>, e: Env, epoch: nat, key: Option<string>, fp: Fingerprinter)
    requires Inv(s, fp) && s.window.None? && After(s, steps, fp).Some?
    requires Serve(After(s, steps, fp).value, PairResult(epoch, key), e, fp).1 != Rejected
    ensures exists i | 0 <= i < |steps| ::
              && Since(WindowMark, s, steps, i, fp) && After(s, steps[..i], fp).Some?
              && epoch == After(s, steps[..i], fp).value.epoch + 1 && e.now < TimeOf(steps[i]) + 300_000
  {
    hide Inv, After, Since, Paired, PairingFailed;
    WindowIsOpenSince(s, steps, fp);
    var i :| 0 <= i < |steps| && Since(WindowMark, s, steps, i, fp);
  }

  // ---------------------------------------------------------------------------------------------
  // Errors

  /** How many steps of a run ended in an error. */
  ghost function ErrorsIn(s: Sup, steps: seq<Step>, fp: Fingerprinter): nat
  {
    if steps == [] then 0
    else
      var init, last := steps[..|steps| - 1], steps[|steps| - 1];
      ErrorsIn(s, init, fp) + match After(s, init, fp) case Some(b) => (if Errs(b, last) then 1 else 0) case None => 0
  }

  /** When the last of them happened. */
  ghost function LastError(s: Sup, steps: seq<Step>, fp: Fingerprinter): nat
  {
    if steps == [] then 0
    else
      var init, last := steps[..|steps| - 1], steps[|steps| - 1];
      match After(s, init, fp)
      case Some(b) => if Errs(b, last) then TimeOf(last) else LastError(s, init, fp)
      case None => 0
  }

  /** Errors delay the next start on new addresses: two seconds after the first, twice as long after each further one,
      up to 64. The count is never set back. */
  lemma {:induction false} ErrorsDelayTheNextStart(s: Sup, steps: seq<Step>, fp: Fingerprinter)
    requires Inv(s, fp) && s.failures == 0 && s.retryAt == 0 && After(s, steps, fp).Some?
    ensures var u := After(s, steps, fp).value; var n := ErrorsIn(s, steps, fp);
            && u.failures == Min(n, 6)
            && u.retryAt == (if n == 0 then 0 else LastError(s, steps, fp) + Delay(Min(n, 6)))
            && forall e | Enabled(u, Restarting(e)) :: n == 0 || e.now >= LastError(s, steps, fp) + Delay(Min(n, 6))
  {
    hide Inv, Advance, Halts, Saves, Shuts, Opens, Concerns;
    if steps != [] {
      LastMoves(s, steps, fp);
      ErrorsDelayTheNextStart(s, steps[..|steps| - 1], fp);
    }
  }

  // ---------------------------------------------------------------------------------------------
  // Services

  /** A service starts exactly for a registered transport with fewer than 80, under a name of at most 4096 bytes without
      zeros that parses, when a process can be started and, for a reverse listener, it could bind. A process that could
      not bind is in the table like any other, until it is reaped. */
  lemma ServiceStartsExactlyWhen(s: Sup, t: nat, name: string, bind: bool, e: Env, fp: Fingerprinter)
    ensures Serve(s, if bind then BindReverse(t, name) else Spawn(t, name), e, fp).1 != Rejected <==>
            && t in s.transports && CountOf(s.services, t) < 80
            && Utf8Length(name) <= 4096 && '\0' !in name && e.parses && e.process && (bind ==> e.bound.Some?)
    ensures |Serve(s, if bind then BindReverse(t, name) else Spawn(t, name), e, fp).0.services| == |s.services| + 1 <==>
            && t in s.transports && CountOf(s.services, t) < 80
            && Utf8Length(name) <= 4096 && '\0' !in name && e.parses && e.process
  {
    hide CountOf, Utf8Length;
  }

  /** What a service looks like to a reaping after an order to close this one. */
  predicate Ends(c: Service, t: nat, id: nat, at: nat, later: nat)
  {
    || c.stopped
    || (if c.transport == t && c.id == id && c.binder.None? then later >= at + 1000
        else c.closeAt.Some? && later >= c.closeAt.value)
  }

  /** A service that was asked to close is stopped by the first reaping a second later or more, if it has not exited by
      itself; the request changes nothing about any other service, and nothing for listeners. */
  lemma ClosedServiceEndsInASecond(s: Sup, t: nat, id: nat, e: Env, fp: Fingerprinter, later: nat, exited: set<nat>,
                                   c: Service)
    requires Inv(s, fp) && c in s.services && c.id !in exited
    ensures var (u, answer) := Serve(s, CloseService(t, id), e, fp); var r := Reaped(u.services, later, exited);
            && answer == Answer.Done && u == s.(services := u.services)
            && (exists d :: d in r && d.id == c.id)
            && forall d | d in r && d.id == c.id ::
                 && d.transport == c.transport && d.root == c.root && d.allowSu == c.allowSu
                 && (d.stopped <==> Ends(c, t, id, e.now, later))
  {
    hide Reaped, Inv;
    ClosedStep(s, t, id, e, later, exited, c, fp);
  }

  lemma ClosedStep(s: Sup, t: nat, id: nat, e: Env, later: nat, exited: set<nat>, c: Service, fp: Fingerprinter)
    requires Inv(s, fp) && c in s.services && c.id !in exited
    ensures var r := Reaped(CloseSoon(s.services, t, id, e.now + CLOSE_DELAY), later, exited);
            && (exists d :: d in r && d.id == c.id)
            && forall d | d in r && d.id == c.id ::
                 && d.transport == c.transport && d.root == c.root && d.allowSu == c.allowSu
                 && (d.stopped <==> Ends(c, t, id, e.now, later))
  {
    hide Reaped, Ends, CloseSoon, Trusted, Counted, Knows, CountOf;
    var ss := CloseSoon(s.services, t, id, e.now + CLOSE_DELAY);
    var i :| 0 <= i < |s.services| && s.services[i] == c;
    assert forall j | 0 <= j < |s.services| && j != i :: s.services[j].id != c.id;
    ReapedKeepsOne(ss, i, later, exited);
    hide Inv;
    ClosedEnds(s.services, i, t, id, e.now, later);
  }

  /** What reaping keeps of the service at a place, if its number is nobody else's. */
  lemma ReapedKeepsOne(ss: seq<Service>, i: nat, later: nat, exited: set<nat>)
    requires i < |ss| && ss[i].id !in exited && forall j | 0 <= j < |ss| && j != i :: ss[j].id != ss[i].id
    ensures var r := Reaped(ss, later, exited); var kept := Overdue(ss[i], later);
            kept in r && kept.id == ss[i].id && forall d | d in r && d.id == ss[i].id :: d == kept
  {
    hide Reaped;
    var kept := Overdue(ss[i], later);
    assert Survives(ss[i], later, exited, kept);
    ReapingIsExact(ss, later, exited, kept);
    forall d | d in Reaped(ss, later, exited) && d.id == ss[i].id
      ensures d == kept
    {
      ReapingIsExact(ss, later, exited, d);
      var j :| 0 <= j < |ss| && Survives(ss[j], later, exited, d);
      assert j == i;
    }
  }

  ghost function Overdue(c: Service, later: nat): Service
  {
    if c.closeAt.Some? && later >= c.closeAt.value then Stopped(c) else c
  }

  lemma ClosedEnds(ss: seq<Service>, i: nat, t: nat, id: nat, now: nat, later: nat)
    requires i < |ss|
    ensures var a := CloseSoon(ss, t, id, now + CLOSE_DELAY)[i]; var d := Overdue(a, later);
            && a.id == ss[i].id
            && (forall j | 0 <= j < |ss| :: CloseSoon(ss, t, id, now + CLOSE_DELAY)[j].id == ss[j].id)
            && d.transport == ss[i].transport && d.root == ss[i].root && d.allowSu == ss[i].allowSu
            && (d.stopped <==> Ends(ss[i], t, id, now, later))
  {
  }

  /** A reverse listener that is taken back is stopped, and nothing else changes. */
  lemma ReverseIsTakenBack(s: Sup, t: nat, spec: string, e: Env, fp: Fingerprinter)
    ensures var (u, answer) := Serve(s, CloseReverse(t, spec), e, fp);
            && answer == Answer.Done && u == s.(services := u.services) && |u.services| == |s.services|
            && forall i | 0 <= i < |s.services| ::
                 if s.services[i].transport == t && s.services[i].binder == Some(spec)
                 then u.services[i].stopped && u.services[i].id == s.services[i].id
                 else u.services[i] == s.services[i]
  {
  }

  /** No service that was stopped holds its listener. */
  ghost predicate Released(ss: seq<Service>)
  {
    forall c | c in ss :: c.stopped ==> c.binder.None?
  }

  lemma MappedReleased(ss: seq<Service>, ts: set<nat>, t: nat, id: nat, at: nat, spec: string)
    requires Released(ss)
    ensures Released(StopAll(ss, ts)) && Released(CloseSoon(ss, t, id, at)) && Released(StopBinder(ss, t, spec))
  {
    forall i | 0 <= i < |ss|
      ensures ss[i].stopped ==> ss[i].binder.None?
    {
      assert ss[i] in ss;
    }
  }

  lemma ReapedReleased(ss: seq<Service>, now: nat, exited: set<nat>)
    requires Released(ss)
    ensures Released(Reaped(ss, now, exited))
  {
    hide Reaped;
    forall c | c in Reaped(ss, now, exited)
      ensures c.stopped ==> c.binder.None?
    {
      ReapingIsExact(ss, now, exited, c);
      var i :| 0 <= i < |ss| && Survives(ss[i], now, exited, c);
      assert ss[i] in ss;
    }
  }

  lemma LaunchReleased(s: Sup, t: nat, name: string, bind: bool, e: Env)
    requires Released(s.services)
    ensures Released(Launch(s, t, name, bind, e).0.services)
  {
    hide Launch, CountOf;
    LaunchShape(s, t, name, bind, e);
  }

  lemma ServeReleased(s: Sup, r: Request, e: Env, fp: Fingerprinter)
    requires Released(s.services)
    ensures Released(Serve(s, r, e, fp).0.services)
  {
    hide Released, Alter, Launch, CloseSoon, StopAll, StopBinder, WindowFits, ClosePairing, Send, HostKey;
    match r
    case Authenticated(_, _) =>
    case Disconnected(k) => MappedReleased(s.services, {k}, 0, 0, 0, "");
    case Spawn(k, name) => LaunchReleased(s, k, name, false, e);
    case CloseService(k, id) => MappedReleased(s.services, {}, k, id, e.now + CLOSE_DELAY, "");
    case BindReverse(k, spec) => LaunchReleased(s, k, spec, true, e);
    case CloseReverse(k, spec) => MappedReleased(s.services, {}, k, 0, 0, spec);
    case Root(_, _) =>
    case PairResult(epoch, key) =>
      if WindowFits(s.window, epoch, e.now) {
        WindowIsOpen(s.window, epoch, e.now);
        PairingFrame(s, key, e, fp);
      }
  }

  lemma StepReleased(s: Sup, t: Step, fp: Fingerprinter)
    requires Inv(s, fp) && Released(s.services)
    ensures Released(Advance(s, t, fp).services)
  {
    hide Inv, Serve, Alter, Send, StopAll, ClosePairing, Reaped, OpenPairing, HostKey, Stop, StartWorker;
    NobodyWithoutWorker(s, fp);
    match t
    case Ordered(c, e) => OrderReleased(s, c, e, fp);
    case Heard(m, e, replied) =>
      if m.Call? {
        ServeReleased(s, m.request, e, fp);
        var (a, answer) := Serve(s, m.request, e, fp);
        SendFrame(a, Reply(m.id, answer), replied);
      } else {
        StoppedShape(s, State.Error, e.now);
      }
    case Hangup(e) => StoppedShape(s, State.Error, e.now);
    case Expiry(e) => ClosePairingFrame(s, e.firstSend);
    case Rotation(e) =>
      var a := StopWorker(s.(rotate := None));
      StartLeavesServices(a, e.start);
      StoppedShape(StartWorker(a, e.start).0, State.Error, e.now);
    case Reaping(now, exited) => ReapedReleased(s.services, now, exited);
    case Pausing(state, now) => StoppedShape(s, state, now);
    case Restarting(e) =>
      StoppedShape(s, Starting, e.now);
      var a := Stop(s, Starting, e.now);
      StoppedShape(a, State.Error, e.now);
      StartLeavesServices(a.(bundle := true), e.start);
      StoppedShape(StartWorker(a.(bundle := true), e.start).0, State.Error, e.now);
  }

  lemma NobodyWithoutWorker(s: Sup, fp: Fingerprinter)
    requires Inv(s, fp)
    ensures s.worker.None? ==> s.transports == map[] && s.services == [] && s.window.None?
  {
    hide Trusted, Commits, Failures, CountOf, Knows;
  }

  lemma StartLeavesServices(s: Sup, works: bool)
    ensures var t := StartWorker(s, works).0;
            t == s.(worker := t.worker, spawned := t.spawned, state := t.state)
            && (t.worker.None? ==> s.worker.None?)
  {
  }

  lemma OrderReleased(s: Sup, c: Control, e: Env, fp: Fingerprinter)
    requires Inv(s, fp) && Released(s.services)
    ensures Released(Order(s, c, e, fp).0.services)
  {
    hide Inv, Released, Alter, Send, StopAll, ClosePairing, HostKey, Stop, StartWorker;
    NobodyWithoutWorker(s, fp);
    match c
    case Status =>
    case Logs =>
    case StartPairing =>
      ClosePairingFrame(s, e.firstSend);
      var a := ClosePairing(s, e.firstSend);
      SendFrame(a.(epoch := a.epoch + 1), PairStart(a.epoch + 1), e.secondSend);
    case StopPairing => ClosePairingFrame(s, e.firstSend);
    case Configure(config) =>
      var store := Alter(s.store, Change.Configure(config), e.temp, e.backup, fp).0;
      StoppedShape(s.(store := store), Disabled, e.now);
      StartLeavesServices(StopWorker(s.(store := store)).(root := false), e.start);
      NoneReleased();
    case Revoke(f) =>
      MappedReleased(s.services, OfHost(s.transports, f), 0, 0, 0, "");
      var store := Alter(s.store, Change.Revoke(f), e.temp, e.backup, fp).0;
      var a := Disconnect(s.(store := store), OfHost(s.transports, f));
      SendFrame(a, Hosts(a.store.hosts), e.firstSend);
    case Quit =>
      StoppedShape(s.(quit := true), Disabled, e.now);
      NoneReleased();
  }

  lemma NoneReleased()
    ensures Released([])
  {
  }

  /** In every run, a stopped service has let go of its reverse listener. */
  lemma {:induction false} StoppedServicesHoldNothing(s: Sup, steps: seq<Step>, fp: Fingerprinter)
    requires Inv(s, fp) && Released(s.services) && After(s, steps, fp).Some?
    ensures Released(After(s, steps, fp).value.services)
  {
    hide Inv, Released, Advance, Enabled;
    if steps != [] {
      var init, last := steps[..|steps| - 1], steps[|steps| - 1];
      StoppedServicesHoldNothing(s, init, fp);
      RunKeeps(s, init, fp);
      StepReleased(After(s, init, fp).value, last, fp);
    }
  }

  // ---------------------------------------------------------------------------------------------
  // Privileges

  /** After a run the configuration is the one of the start or one that was ordered in it. */
  lemma {:induction false} ConfigurationIsOrdered(s: Sup, steps: seq<Step>, fp: Fingerprinter)
    requires Inv(s, fp) && After(s, steps, fp).Some?
    ensures var config := After(s, steps, fp).value.store.config;
            || config == s.store.config
            || exists i | 0 <= i < |steps| :: steps[i].Ordered? && steps[i].control == Control.Configure(config)
  {
    hide Inv, Advance, Enabled, Knows;
    if steps != [] {
      var init, last := steps[..|steps| - 1], steps[|steps| - 1];
      ConfigurationIsOrdered(s, init, fp);
      RunKeeps(s, init, fp);
      var b := After(s, init, fp).value;
      TrustChangesOnlyByRuling(b, last, "", fp);
      var config := After(s, steps, fp).value.store.config;
      if config == b.store.config && config != s.store.config {
        var i :| 0 <= i < |init| && init[i].Ordered? && init[i].control == Control.Configure(config);
        assert steps[i] == init[i];
      }
    }
  }

  /** With the settings of a fresh installation nobody gets root: unless an order allowed it, root is never on and no
      service runs with it or may ask for it. */
  lemma PrivilegeMustBeOrdered(s: Sup, steps: seq<Step>, fp: Fingerprinter)
    requires Inv(s, fp) && s.store.config == DEFAULT && After(s, steps, fp).Some?
    ensures var u := After(s, steps, fp).value;
            && (u.root || (exists c :: c in u.services && c.root) ==>
                  exists i | 0 <= i < |steps| ::
                    steps[i].Ordered? && steps[i].control.Configure? && steps[i].control.config.allowAdbRoot)
            && ((exists c :: c in u.services && c.allowSu) ==>
                  exists i | 0 <= i < |steps| ::
                    steps[i].Ordered? && steps[i].control.Configure? && steps[i].control.config.allowShellRoot)
  {
    hide After, Trusted, Knows, CountOf, Counted, Authorised, Limited;
    RunKeeps(s, steps, fp);
    ConfigurationIsOrdered(s, steps, fp);
  }
}
