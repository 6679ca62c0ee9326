/** The supervisor as the program keeps it: one object whose methods change its fields. Each method is proved to
    do what its specification in `Supervisor` says. */
module Daemon {
  import opened Wrappers
  import opened Documents
  import opened Supervisor
  import Store

  class Daemon {
    const store: Store.Store
    var worker: Option<Worker>
    var bundle: bool
    var services: seq<Service>
    var transports: map<nat, string>
    var window: Option<Window>
    var root: bool
    var state: State
    var epoch: nat
    var quit: bool
    var rotate: Option<nat>
    var failures: nat
    var retryAt: nat
    var spawned: nat
    ghost var events: seq<Event>

    ghost function View(): Sup
      reads this, store, store.volume
    {
      Sup(store.View(), worker, bundle, services, transports, window, root, state, epoch, quit, rotate, failures,
          retryAt, spawned, events)
    }

    constructor (store: Store.Store)
      ensures this.store == store
      ensures View() == Sup(store.View(), None, false, [], map[], None, false, Starting, 0, false, None, 0, 0, 0, [])
    {
      this.store := store;
      worker, bundle, services, transports, window := None, false, [], map[], None;
      root, state, epoch, quit, rotate := false, Starting, 0, false, None;
      failures, retryAt, spawned, events := 0, 0, 0, [];
    }

    /** `Daemon::send`. */
    method Transmit(m: Message, works: bool) returns (sent: bool)
      modifies this`worker
      ensures (View(), sent) == Send(old(View()), m, works)
    {
      if worker.None? || !works {
        return false;
      }
      worker := Some(worker.value.(inbox := worker.value.inbox + [m]));
      sent := true;
    }

    method EndWorker()
      modifies this`window, this`worker, this`services, this`transports
      ensures View() == StopWorker(old(View()))
    {
      window := None;
      worker := None;
      services := [];
      transports := map[];
    }

    /** One more failure in a row, and a longer wait before the next start. */
    method BackOff(now: nat)
      modifies this`failures, this`retryAt
      ensures var n := if old(failures) + 1 <= 6 then old(failures) + 1 else 6;
              View() == old(View()).(failures := n, retryAt := now + Backoff(n))
    {
      failures := if failures + 1 <= 6 then failures + 1 else 6;
      retryAt := now + Backoff(failures);
    }

    method Halt(to: State, now: nat)
      modifies this
      ensures View() == Stop(old(View()), to, now)
    {
      hide Backoff;
      if to == Error {
        BackOff(now);
      }
      if worker.Some? {
        EndWorker();
      }
      Release(to);
    }

    /** Nothing is kept for a next worker. */
    method Release(to: State)
      modifies this`bundle, this`root, this`rotate, this`state
      ensures View() == old(View()).(bundle := false, root := false, rotate := None, state := to)
    {
      bundle := false;
      root := false;
      rotate := None;
      state := to;
    }

    method Launching(works: bool) returns (started: bool)
      modifies this`worker, this`spawned, this`state
      ensures (View(), started) == StartWorker(old(View()), works)
    {
      if !bundle || !works {
        return false;
      }
      worker := Some(Worker(spawned, [Boot(store.hosts)]));
      spawned := spawned + 1;
      state := Starting;
      started := true;
    }

    /** `Daemon::pair_stop`. */
    method EndPairing(works: bool)
      modifies this`window, this`worker
      ensures View() == ClosePairing(old(View()), works)
    {
      hide Send;
      window := None;
      var _ := Transmit(PairStop, works);
    }

    /** `Daemon::disconnect`. */
    method Drop(t: nat)
      modifies this`transports, this`services
      ensures View() == Disconnect(old(View()), {t})
    {
      transports := transports - {t};
      var next: seq<Service> := [];
      for i := 0 to |services|
        invariant |next| == i
        invariant forall k | 0 <= k < i ::
                    next[k] == if services[k].transport in {t} then Stopped(services[k]) else services[k]
      {
        next := next + [if services[i].transport == t then Stopped(services[i]) else services[i]];
      }
      assert next == StopAll(services, {t});
      services := next;
    }

    method BeginPairing(e: Env) returns (ok: bool)
      modifies this
      ensures (View(), ok) == OpenPairing(old(View()), e)
    {
      hide OpenWindow, ClosePairing;
      if state != Running || |store.hosts| >= MAX_HOSTS {
        return false;
      }
      EndPairing(e.firstSend);
      if !e.listeners {
        return false;
      }
      ok := NewWindow(e);
    }

    method NewWindow(e: Env) returns (ok: bool)
      modifies this`epoch, this`worker, this`window
      ensures (View(), ok) == OpenWindow(old(View()), e)
    {
      hide Send;
      epoch := epoch + 1;
      var sent := Transmit(PairStart(epoch), e.secondSend);
      if !sent {
        return false;
      }
      window := Some(Window(epoch, e.now + PAIR_SECONDS, 0));
      ok := true;
    }

    method Reconfigure(config: Config, e: Env) returns (ok: bool)
      modifies this, store, store.volume
      ensures (View(), ok) == Order(old(View()), Control.Configure(config), e, store.fp)
    {
      hide Store.Alter, Stop, StartWorker, StopWorker;
      var previous := store.config;
      var r := store.Configure(config, e.temp, e.backup);
      if r != Store.StoreResult.Done {
        return false;
      }
      ok := Follow(previous, e);
    }

    method Follow(previous: Config, e: Env) returns (ok: bool)
      modifies this
      ensures (View(), ok) == Reconfigured(old(View()), previous, e)
    {
      hide Stop, StartWorker;
      ok := true;
      if previous != store.config {
        if EndpointChanged(previous, store.config) {
          Halt(Disabled, e.now);
        } else {
          EndWorker();
          root := false;
          if bundle {
            ok := Launching(e.start);
          }
        }
      }
    }

    /** The transports of a host are cut one by one, in no particular order. */
    method DropHost(f: string)
      modifies this`transports, this`services
      ensures View() == Disconnect(old(View()), OfHost(old(transports), f))
    {
      hide StopAll;
      var left := OfHost(transports, f);
      ghost var done: set<nat> := {};
      DisconnectNone(View());
      while left != {}
        invariant done + left == OfHost(old(transports), f) && done !! left
        invariant View() == Disconnect(old(View()), done)
        decreases |left|
      {
        var t :| t in left;
        DisconnectMore(old(View()), done, t);
        Drop(t);
        left := left - {t};
        done := done + {t};
      }
      assert done == OfHost(old(transports), f);
    }

    method Expel(f: string, e: Env) returns (ok: bool)
      modifies this, store, store.volume
      ensures (View(), ok) == Order(old(View()), Control.Revoke(f), e, store.fp)
    {
      hide Store.Alter, Disconnect, OfHost, Send;
      var r := store.Revoke(f, e.temp, e.backup);
      if r != Store.StoreResult.Done {
        return false;
      }
      DisconnectFrame(View(), OfHost(transports, f));
      DropHost(f);
      ok := true;
      if worker.Some? {
        ok := Transmit(Hosts(store.hosts), e.firstSend);
      }
    }

    /** `Daemon::control`. */
    method Obey(c: Control, e: Env) returns (ok: bool)
      modifies this, store, store.volume
      ensures (View(), ok) == Order(old(View()), c, e, store.fp)
    {
      hide Store.Alter, Reconfigured, Revoked, OpenPairing, ClosePairing, Stop;
      ok := true;
      match c {
        case Status =>
        case Logs =>
        case StartPairing => ok := BeginPairing(e);
        case StopPairing => EndPairing(e.firstSend);
        case Configure(config) => ok := Reconfigure(config, e);
        case Revoke(f) => ok := Expel(f, e);
        case Quit =>
          quit := true;
          Halt(Disabled, e.now);
      }
    }

    /** How many processes a transport has in the table. */
    method Count(t: nat) returns (n: nat)
      ensures n == CountOf(services, t)
    {
      n := 0;
      for i := 0 to |services|
        invariant n == CountOf(services[..i], t)
      {
        assert services[..i + 1][..i] == services[..i];
        if services[i].transport == t {
          n := n + 1;
        }
      }
      assert services[..|services|] == services;
    }

    /** `Daemon::spawn_service`. */
    method SpawnService(t: nat, name: string, bind: bool, e: Env) returns (a: Answer)
      modifies this`services, this`spawned
      ensures (View(), a) == Launch(old(View()), t, name, bind, e)
    {
      hide CountOf, Utf8Length;
      if t !in transports {
        return Rejected;
      }
      var n := Count(t);
      if n >= MAX_SERVICES || Utf8Length(name) > MAX_NAME_BYTES || '\0' in name || !e.parses || !e.process {
        return Rejected;
      }
      var started := Service(spawned, t, root, store.config.allowShellRoot, None, false, None);
      spawned := spawned + 1;
      if !bind {
        a := Process(started.id);
      } else if e.bound.None? {
        started := Stopped(started);
        a := Rejected;
      } else {
        started := started.(binder := e.bound);
        a := Bound(e.bound.value);
      }
      services := services + [started];
    }

    method Authenticate(t: nat, f: string, e: Env) returns (a: Answer)
      modifies this`transports, store, store.volume
      ensures (View(), a) == Admit(old(View()), t, f, e, store.fp)
    {
      hide Store.Alter;
      if |transports| >= MAX_TRANSPORTS || t in transports {
        return Rejected;
      }
      var r := store.Connected(f, e.wall, e.temp, e.backup);
      if r != Store.StoreResult.Done {
        return Rejected;
      }
      transports := transports[t := f];
      a := Answer.Done;
    }

    method Conclude(epoch: nat, key: Option<string>, e: Env) returns (a: Answer)
      modifies this, store, store.volume
      ensures (View(), a) == Serve(old(View()), PairResult(epoch, key), e, store.fp)
    {
      hide Paired, PairingFailed;
      if window.None? || !(&& window.value.epoch == epoch && e.now < window.value.expires
                           && window.value.failures < MAX_PAIR_FAILURES) {
        return Rejected;
      }
      if key.Some? {
        a := Commit(key.value, e);
      } else {
        CountFailure(e);
        a := Answer.Done;
      }
    }

    method Announce(e: Env) returns (a: Answer)
      modifies this`worker
      ensures (View(), a) == AnnouncePairing(old(View()), e)
    {
      hide Send;
      var told := Transmit(PairCommitted, e.firstSend);
      if !told {
        return Rejected;
      }
      var listed := Transmit(Hosts(store.hosts), e.secondSend);
      a := if listed then Answer.Done else Rejected;
    }

    method Commit(key: string, e: Env) returns (a: Answer)
      requires window.Some?
      modifies this, store, store.volume
      ensures (View(), a) == Paired(old(View()), key, e, store.fp)
    {
      hide Store.Alter, AnnouncePairing, HostKey;
      var r := store.Pair(key, e.wall, e.temp, e.backup);
      if r != Store.StoreResult.Done {
        return Rejected;
      }
      var f := match HostKey(key, store.fp) case Some(k) => k.0 case None => "";
      events := events + [Committed(window.value.epoch, f)];
      window := None;
      a := Announce(e);
    }

    method CountFailure(e: Env)
      requires window.Some?
      modifies this
      ensures View() == PairingFailed(old(View()), e)
    {
      hide ClosePairing;
      window := Some(window.value.(failures := window.value.failures + 1));
      events := events + [Failed(window.value.epoch)];
      if window.value.failures >= MAX_PAIR_FAILURES {
        EndPairing(e.firstSend);
      }
    }

    method SetRoot(t: nat, enable: bool, e: Env) returns (a: Answer)
      modifies this`root, this`rotate
      ensures (View(), a) == SwitchRoot(old(View()), t, enable, e)
    {
      if t !in transports || (enable && !store.config.allowAdbRoot) {
        return Rejected;
      }
      if root == enable {
        return Text(if enable then "adbd is already running as root\n" else "adbd not running as root\n");
      }
      root := enable;
      rotate := Some(e.now + ROTATE_DELAY);
      a := Text(if enable then "restarting adbd as root\n" else "restarting adbd as non root\n");
    }

    method EndService(t: nat, id: nat, at: nat)
      modifies this`services
      ensures View() == old(View()).(services := CloseSoon(old(services), t, id, at))
    {
      var next: seq<Service> := [];
      for i := 0 to |services|
        invariant |next| == i
        invariant forall k | 0 <= k < i :: next[k] == CloseSoon(services, t, id, at)[k]
      {
        var s := services[i];
        if s.transport == t && s.id == id && s.binder.None? {
          s := s.(closeAt := Some(at));
        }
        next := next + [s];
      }
      assert next == CloseSoon(services, t, id, at);
      services := next;
    }

    method EndBinder(t: nat, spec: string)
      modifies this`services
      ensures View() == old(View()).(services := StopBinder(old(services), t, spec))
    {
      var next: seq<Service> := [];
      for i := 0 to |services|
        invariant |next| == i
        invariant forall k | 0 <= k < i :: next[k] == StopBinder(services, t, spec)[k]
      {
        var s := services[i];
        if s.transport == t && s.binder == Some(spec) {
          s := Stopped(s);
        }
        next := next + [s];
      }
      assert next == StopBinder(services, t, spec);
      services := next;
    }

    /** `Daemon::request`. */
    method Grant(r: Request, e: Env) returns (a: Answer)
      modifies this, store, store.volume
      ensures (View(), a) == Serve(old(View()), r, e, store.fp)
    {
      hide Admit, Disconnect, Launch, CloseSoon, StopBinder, SwitchRoot, WindowFits, Paired, PairingFailed;
      match r {
        case Authenticated(t, f) => a := Authenticate(t, f, e);
        case Disconnected(t) =>
          Drop(t);
          a := Answer.Done;
        case Spawn(t, name) => a := SpawnService(t, name, false, e);
        case CloseService(t, id) =>
          EndService(t, id, e.now + CLOSE_DELAY);
          a := Answer.Done;
        case BindReverse(t, spec) => a := SpawnService(t, spec, true, e);
        case CloseReverse(t, spec) =>
          EndBinder(t, spec);
          a := Answer.Done;
        case Root(t, enable) => a := SetRoot(t, enable, e);
        case PairResult(epoch, key) => a := Conclude(epoch, key, e);
      }
    }

    // The steps of the loop in `run`

    method Receive(m: Message, e: Env, replied: bool)
      modifies this, store, store.volume
      ensures View() == Hear(old(View()), m, e, replied, store.fp)
    {
      hide Serve, Send, Stop;
      match m {
        case Ready => state := Running;
        case Call(id, r) =>
          var a := Grant(r, e);
          var _ := Transmit(Reply(id, a), replied);
        case _ => Halt(Error, e.now);
      }
    }

    method CheckWindow(e: Env)
      modifies this
      ensures View() == Expire(old(View()), e)
    {
      hide ClosePairing;
      if window.Some? && e.now >= window.value.expires {
        EndPairing(e.firstSend);
      }
    }

    method CheckRotation(e: Env)
      modifies this
      ensures View() == Rotate(old(View()), e)
    {
      hide Stop, StartWorker;
      if rotate.Some? && e.now >= rotate.value {
        rotate := None;
        EndWorker();
        var started := Launching(e.start);
        if !started {
          Halt(Error, e.now);
        }
      }
    }

    method Reap(now: nat, exited: set<nat>)
      modifies this`services
      ensures View() == old(View()).(services := Reaped(old(services), now, exited))
    {
      var kept: seq<Service> := [];
      for i := 0 to |services|
        invariant kept == Reaped(services[..i], now, exited)
      {
        assert services[..i + 1][..i] == services[..i];
        var s := services[i];
        if s.closeAt.Some? && now >= s.closeAt.value {
          s := Stopped(s);
        }
        if s.id !in exited {
          kept := kept + [s];
        } else {
          assert kept + [] == kept;
        }
      }
      assert services[..|services|] == services;
      services := kept;
    }

    method Begin(e: Env)
      modifies this
      ensures View() == Supervisor.Restart(old(View()), e)
    {
      hide Stop, StartWorker;
      Halt(Starting, e.now);
      if !e.listeners {
        Halt(Error, e.now);
        return;
      }
      bundle := true;
      var started := Launching(e.start);
      if !started {
        Halt(Error, e.now);
      }
    }

    /** One step of the loop, whichever it is: what is proved of every run of steps holds of this object. */
    method Take(t: Step)
      requires Enabled(View(), t)
      modifies this, store, store.volume
      ensures View() == Advance(old(View()), t, store.fp)
    {
      hide Order, Hear, Stop, Expire, Rotate, Reaped, Supervisor.Restart;
      match t {
        case Ordered(c, e) => var _ := Obey(c, e);
        case Heard(m, e, replied) => Receive(m, e, replied);
        case Hangup(e) => Halt(Error, e.now);
        case Expiry(e) => CheckWindow(e);
        case Rotation(e) => CheckRotation(e);
        case Reaping(now, exited) => Reap(now, exited);
        case Pausing(to, now) => Halt(to, now);
        case Restarting(e) => Begin(e);
      }
    }
  }

  lemma DisconnectFrame(s: Sup, ts: set<nat>)
    ensures Disconnect(s, ts).worker == s.worker && Disconnect(s, ts).store == s.store
  {
  }

  lemma DisconnectNone(s: Sup)
    ensures Disconnect(s, {}) == s
  {
    assert StopAll(s.services, {}) == s.services;
    assert s.transports - {} == s.transports;
  }

  /** Cutting transports one after the other is cutting them together. */
  lemma DisconnectMore(s: Sup, ts: set<nat>, t: nat)
    ensures Disconnect(Disconnect(s, ts), {t}) == Disconnect(s, ts + {t})
  {
    assert StopAll(StopAll(s.services, ts), {t}) == StopAll(s.services, ts + {t});
    assert (s.transports - ts) - {t} == s.transports - (ts + {t});
  }
}
