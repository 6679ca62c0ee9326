/** The supervisor: what it holds, what it answers to the control socket and to the network worker, and what
    every step of it keeps. */
module Supervisor {
  import opened Wrappers
  import opened Documents
  import opened Store

  const MAX_TRANSPORTS := 8
  const MAX_SERVICES := 80
  const MAX_PAIR_FAILURES := 10
  const PAIR_SECONDS := 300_000
  const ROTATE_DELAY := 500
  const CLOSE_DELAY := 1000
  const MAX_NAME_BYTES := 4096

  // ---------------------------------------------------------------------------------------------
  // Messages

  datatype Request =
    | Authenticated(transport: nat, fingerprint: string)
    | Disconnected(transport: nat)
    | Spawn(transport: nat, name: string)
    | CloseService(transport: nat, service: nat)
    | Root(transport: nat, enable: bool)
    | PairResult(epoch: nat, key: Option<string>)
    | BindReverse(transport: nat, spec: string)
    | CloseReverse(transport: nat, spec: string)

  datatype Answer = Done | Process(id: nat) | Bound(spec: string) | Text(message: string) | Rejected

  datatype Message =
    | Ready
    | Boot(hosts: seq<Host>)
    | Call(id: nat, request: Request)
    | Reply(id: nat, answer: Answer)
    | Hosts(hosts: seq<Host>)
    | PairStart(epoch: nat)
    | PairStop
    | PairCommitted
    | Shutdown

  datatype Control =
    | Status
    | Logs
    | StartPairing
    | StopPairing
    | Configure(config: Config)
    | Revoke(fingerprint: string)
    | Quit

  // ---------------------------------------------------------------------------------------------
  // State

  /** The worker process and the messages sent to it that it has not received. */
  datatype Worker = Worker(child: nat, inbox: seq<Message>)

  datatype Service = Service(
    id: nat,
    transport: nat,
    root: bool,
    allowSu: bool,
    binder: Option<string>,
    stopped: bool,
    closeAt: Option<nat>)

  datatype Window = Window(epoch: nat, expires: nat, failures: nat)

  datatype State = Starting | Running | Disabled | Error | PausedNative | WaitingNetwork

  /** What happened to a pairing window: a host was committed, or an attempt failed. */
  datatype Event = Committed(epoch: nat, fingerprint: string) | Failed(epoch: nat)

  datatype Sup = Sup(
    store: StoreState,
    worker: Option<Worker>,
    bundle: bool,
    services: seq<Service>,
    transports: map<nat, string>,
    window: Option<Window>,
    root: bool,
    state: State,
    epoch: nat,
    quit: bool,
    rotate: Option<nat>,
    failures: nat,
    retryAt: nat,
    spawned: nat,
    events: seq<Event>)

  /** What the world does during one step: the clock in milliseconds, the names of temporary files, and which of
      the operations outside the supervisor work. */
  datatype Env = Env(
    now: nat,
    wall: nat,
    temp: nat,
    backup: nat,
    firstSend: bool,
    secondSend: bool,
    listeners: bool,
    start: bool,
    parses: bool,
    process: bool,
    bound: Option<string>)

  // ---------------------------------------------------------------------------------------------
  // Operations

  /** `Service::stop`. */
  function Stopped(s: Service): Service
  {
    if s.stopped then s else s.(stopped := true, binder := None)
  }

  function StopAll(ss: seq<Service>, ts: set<nat>): (r: seq<Service>)
    ensures |r| == |ss|
    ensures forall i | 0 <= i < |ss| :: r[i] == if ss[i].transport in ts then Stopped(ss[i]) else ss[i]
  {
    seq(|ss|, i requires 0 <= i < |ss| => if ss[i].transport in ts then Stopped(ss[i]) else ss[i])
  }

  /** How many entries of the service table belong to a transport. */
  function CountOf(ss: seq<Service>, t: nat): nat
  {
    if ss == [] then 0
    else CountOf(ss[..|ss| - 1], t) + if ss[|ss| - 1].transport == t then 1 else 0
  }

  function Send(s: Sup, m: Message, works: bool): (Sup, bool)
  {
    if s.worker.None? || !works then (s, false)
    else (s.(worker := Some(s.worker.value.(inbox := s.worker.value.inbox + [m]))), true)
  }

  function StopWorker(s: Sup): Sup
  {
    s.(window := None, worker := None, services := [], transports := map[])
  }

  /** Seconds before the next start, as milliseconds: two to the number of failures in a row. */
  function Backoff(failures: nat): nat
  {
    if failures == 0 then 1000 else 2 * Backoff(failures - 1)
  }

  function Stop(s: Sup, state: State, now: nat): Sup
  {
    var failures := if state != Error then s.failures else if s.failures + 1 <= 6 then s.failures + 1 else 6;
    var a := s.(failures := failures, retryAt := if state == Error then now + Backoff(failures) else s.retryAt);
    var b := if s.worker.Some? then StopWorker(a) else a;
    b.(bundle := false, root := false, rotate := None, state := state)
  }

  function StartWorker(s: Sup, works: bool): (Sup, bool)
  {
    if !s.bundle || !works then (s, false)
    else
      (s.(worker := Some(Worker(s.spawned, [Boot(s.store.hosts)])), spawned := s.spawned + 1, state := Starting),
       true)
  }

  function ClosePairing(s: Sup, works: bool): Sup
  {
    Send(s.(window := None), PairStop, works).0
  }

  function Disconnect(s: Sup, ts: set<nat>): Sup
  {
    s.(transports := s.transports - ts, services := StopAll(s.services, ts))
  }

  function OpenPairing(s: Sup, e: Env): (Sup, bool)
  {
    if s.state != Running || |s.store.hosts| >= MAX_HOSTS then (s, false)
    else
      var a := ClosePairing(s, e.firstSend);
      if !e.listeners then (a, false) else OpenWindow(a, e)
  }

  /** The next epoch begins, and its window opens if the worker could be told. */
  function OpenWindow(s: Sup, e: Env): (Sup, bool)
  {
    var (a, sent) := Send(s.(epoch := s.epoch + 1), PairStart(s.epoch + 1), e.secondSend);
    if !sent then (a, false) else (a.(window := Some(Window(a.epoch, e.now + PAIR_SECONDS, 0))), true)
  }

  /** Settings the listening sockets depend on. */
  predicate EndpointChanged(a: Config, b: Config)
  {
    a.portMode != b.portMode || a.fixedPort != b.fixedPort || a.enabled != b.enabled
  }

  /** A saved configuration that differs restarts whatever ran under the old one. */
  function Reconfigured(s: Sup, previous: Config, e: Env): (Sup, bool)
  {
    if previous == s.store.config then (s, true)
    else if EndpointChanged(previous, s.store.config) then (Stop(s, Disabled, e.now), true)
    else
      var a := StopWorker(s).(root := false);
      if a.bundle then StartWorker(a, e.start) else (a, true)
  }

  /** The transports of a fingerprint. */
  function OfHost(transports: map<nat, string>, f: string): set<nat>
  {
    set t | t in transports && transports[t] == f
  }

  /** A saved revocation cuts the host's transports and tells the worker the hosts that are left. */
  function Revoked(s: Sup, f: string, e: Env): (Sup, bool)
  {
    var a := Disconnect(s, OfHost(s.transports, f));
    if a.worker.Some? then Send(a, Hosts(a.store.hosts), e.firstSend) else (a, true)
  }

  /** `Daemon::control`; the flag tells whether the caller gets an error. */
  function Order(s: Sup, c: Control, e: Env, fp: Fingerprinter): (Sup, bool)
  {
    match c
    case Status => (s, true)
    case Logs => (s, true)
    case StartPairing => OpenPairing(s, e)
    case StopPairing => (ClosePairing(s, e.firstSend), true)
    case Configure(config) =>
      (var (store, r) := Alter(s.store, Change.Configure(config), e.temp, e.backup, fp);
       if r != StoreResult.Done then (s.(store := store), false)
       else Reconfigured(s.(store := store), s.store.config, e))
    case Revoke(f) =>
      (var (store, r) := Alter(s.store, Change.Revoke(f), e.temp, e.backup, fp);
       if r != StoreResult.Done then (s.(store := store), false)
       else Revoked(s.(store := store), f, e))
    case Quit => (Stop(s.(quit := true), Disabled, e.now), true)
  }

  /** `Daemon::spawn_service`. */
  function Launch(s: Sup, t: nat, name: string, bind: bool, e: Env): (Sup, Answer)
  {
    if || t !in s.transports || CountOf(s.services, t) >= MAX_SERVICES
       || Utf8Length(name) > MAX_NAME_BYTES || '\0' in name || !e.parses || !e.process
    then (s, Rejected)
    else
      var started := Service(s.spawned, t, s.root, s.store.config.allowShellRoot, None, false, None);
      var a := s.(spawned := s.spawned + 1);
      if !bind then (a.(services := s.services + [started]), Process(s.spawned))
      else if e.bound.None? then (a.(services := s.services + [Stopped(started)]), Rejected)
      else (a.(services := s.services + [started.(binder := e.bound)]), Bound(e.bound.value))
  }

  function CloseSoon(ss: seq<Service>, t: nat, id: nat, at: nat): (r: seq<Service>)
    ensures |r| == |ss|
    ensures forall i | 0 <= i < |ss| ::
              r[i] == if ss[i].transport == t && ss[i].id == id && ss[i].binder.None? then ss[i].(closeAt := Some(at))
                      else ss[i]
  {
    seq(|ss|, i requires 0 <= i < |ss| =>
      if ss[i].transport == t && ss[i].id == id && ss[i].binder.None? then ss[i].(closeAt := Some(at)) else ss[i])
  }

  function StopBinder(ss: seq<Service>, t: nat, spec: string): (r: seq<Service>)
    ensures |r| == |ss|
    ensures forall i | 0 <= i < |ss| ::
              r[i] == if ss[i].transport == t && ss[i].binder == Some(spec) then Stopped(ss[i]) else ss[i]
  {
    seq(|ss|, i requires 0 <= i < |ss| =>
      if ss[i].transport == t && ss[i].binder == Some(spec) then Stopped(ss[i]) else ss[i])
  }

  function Admit(s: Sup, t: nat, f: string, e: Env, fp: Fingerprinter): (Sup, Answer)
  {
    if |s.transports| >= MAX_TRANSPORTS || t in s.transports then (s, Rejected)
    else
      var (store, r) := Alter(s.store, Change.Connected(f, e.wall), e.temp, e.backup, fp);
      if r != StoreResult.Done then (s.(store := store), Rejected)
      else (s.(store := store, transports := s.transports[t := f]), Answer.Done)
  }

  function SwitchRoot(s: Sup, t: nat, enable: bool, e: Env): (Sup, Answer)
  {
    if t !in s.transports || (enable && !s.store.config.allowAdbRoot) then (s, Rejected)
    else if s.root == enable then
      (s, Text(if enable then "adbd is already running as root\n" else "adbd not running as root\n"))
    else
      (s.(root := enable, rotate := Some(e.now + ROTATE_DELAY)),
       Text(if enable then "restarting adbd as root\n" else "restarting adbd as non root\n"))
  }

  /** The window a pairing result must find. */
  predicate WindowFits(w: Option<Window>, epoch: nat, now: nat)
  {
    w.Some? && w.value.epoch == epoch && now < w.value.expires && w.value.failures < MAX_PAIR_FAILURES
  }

  /** The worker hears that the pairing is over and who is trusted now. */
  function AnnouncePairing(s: Sup, e: Env): (Sup, Answer)
  {
    var (a, told) := Send(s, PairCommitted, e.firstSend);
    if !told then (a, Rejected)
    else
      var (b, listed) := Send(a, Hosts(a.store.hosts), e.secondSend);
      (b, if listed then Answer.Done else Rejected)
  }

  function Paired(s: Sup, key: string, e: Env, fp: Fingerprinter): (Sup, Answer)
    requires s.window.Some?
  {
    var (store, r) := Alter(s.store, Change.Pair(key, e.wall), e.temp, e.backup, fp);
    var a := s.(store := store);
    if r != StoreResult.Done then (a, Rejected)
    else
      var f := match HostKey(key, fp) case Some(k) => k.0 case None => "";
      AnnouncePairing(a.(window := None, events := a.events + [Committed(s.window.value.epoch, f)]), e)
  }

  function PairingFailed(s: Sup, e: Env): Sup
    requires s.window.Some?
  {
    var w := s.window.value.(failures := s.window.value.failures + 1);
    var a := s.(window := Some(w), events := s.events + [Failed(w.epoch)]);
    if w.failures >= MAX_PAIR_FAILURES then ClosePairing(a, e.firstSend) else a
  }

  /** `Daemon::request`. */
  function Serve(s: Sup, r: Request, e: Env, fp: Fingerprinter): (Sup, Answer)
  {
    match r
    case Authenticated(t, f) => Admit(s, t, f, e, fp)
    case Disconnected(t) => (Disconnect(s, {t}), Answer.Done)
    case Spawn(t, name) => Launch(s, t, name, false, e)
    case CloseService(t, id) =>
      (s.(services := CloseSoon(s.services, t, id, e.now + CLOSE_DELAY)), Answer.Done)
    case BindReverse(t, spec) => Launch(s, t, spec, true, e)
    case CloseReverse(t, spec) => (s.(services := StopBinder(s.services, t, spec)), Answer.Done)
    case Root(t, enable) => SwitchRoot(s, t, enable, e)
    case PairResult(epoch, key) =>
      if !WindowFits(s.window, epoch, e.now) then (s, Rejected)
      else if key.Some? then Paired(s, key.value, e, fp)
      else (PairingFailed(s, e), Answer.Done)
  }

  // ---------------------------------------------------------------------------------------------
  // The loop of `run`

  /** A message of the worker; anything but a request or its greeting ends the worker. The reply to a request
      may itself fail to be sent. */
  function Hear(s: Sup, m: Message, e: Env, replied: bool, fp: Fingerprinter): Sup
  {
    match m
    case Ready => s.(state := Running)
    case Call(id, r) => (var (a, answer) := Serve(s, r, e, fp); Send(a, Reply(id, answer), replied).0)
    case _ => Stop(s, Error, e.now)
  }

  function Expire(s: Sup, e: Env): Sup
  {
    if s.window.Some? && e.now >= s.window.value.expires then ClosePairing(s, e.firstSend) else s
  }

  function Rotate(s: Sup, e: Env): Sup
  {
    if s.rotate.Some? && e.now >= s.rotate.value then
      var (a, ok) := StartWorker(StopWorker(s.(rotate := None)), e.start);
      if ok then a else Stop(a, Error, e.now)
    else s
  }

  /** `services.retain_mut`: services whose time has come are stopped and those that exited are dropped. */
  function Reaped(ss: seq<Service>, now: nat, exited: set<nat>): seq<Service>
  {
    if ss == [] then []
    else
      var last := ss[|ss| - 1];
      var kept := if last.closeAt.Some? && now >= last.closeAt.value then Stopped(last) else last;
      Reaped(ss[..|ss| - 1], now, exited) + if last.id in exited then [] else [kept]
  }

  /** The addresses changed: everything stops and starts again on the new ones. */
  function Restart(s: Sup, e: Env): Sup
  {
    var a := Stop(s, Starting, e.now);
    if !e.listeners then Stop(a, Error, e.now)
    else
      var (b, ok) := StartWorker(a.(bundle := true), e.start);
      if ok then b else Stop(b, Error, e.now)
  }

  /** One step of the supervisor. `Heard` carries what the worker sent. */
  datatype Step =
    | Ordered(control: Control, env: Env)
    | Heard(message: Message, env: Env, replied: bool)
    | Hangup(env: Env)
    | Expiry(env: Env)
    | Rotation(env: Env)
    | Reaping(now: nat, exited: set<nat>)
    | Pausing(state: State, now: nat)
    | Restarting(env: Env)

  /** When the loop takes a step: it listens to a worker only while it has one, pauses for the four reasons it
      knows, starts on new addresses only after the delay of the last error, and leaves the loop once told to quit. */
  predicate Enabled(s: Sup, t: Step)
  {
    && !s.quit
    && ((t.Heard? || t.Hangup?) ==> s.worker.Some?)
    && (t.Pausing? ==> t.state != Running && t.state != Starting)
    && (t.Restarting? ==> t.env.now >= s.retryAt)
  }

  function Advance(s: Sup, t: Step, fp: Fingerprinter): Sup
  {
    match t
    case Ordered(c, e) => Order(s, c, e, fp).0
    case Heard(m, e, replied) => Hear(s, m, e, replied, fp)
    case Hangup(e) => Stop(s, Error, e.now)
    case Expiry(e) => Expire(s, e)
    case Rotation(e) => Rotate(s, e)
    case Reaping(now, exited) => s.(services := Reaped(s.services, now, exited))
    case Pausing(state, now) => Stop(s, state, now)
    case Restarting(e) => Restart(s, e)
  }

  // ---------------------------------------------------------------------------------------------
  // What every step keeps

  /** Everyone connected is a stored host, and every process that may still run belongs to someone connected. */
  ghost predicate Authorised(s: Sup)
  {
    && (forall t | t in s.transports :: Knows(s.store.hosts, s.transports[t]))
    && (forall i | 0 <= i < |s.services| :: !s.services[i].stopped ==> s.services[i].transport in s.transports)
    && (s.worker.None? ==> s.transports == map[] && s.services == [] && s.window.None?)
  }

  /** Nothing runs with more privilege than the current settings allow. */
  ghost predicate Privileged(s: Sup)
  {
    && (s.root ==> s.store.config.allowAdbRoot)
    && forall i | 0 <= i < |s.services| ::
         && s.services[i].allowSu == s.store.config.allowShellRoot
         && (s.services[i].root ==> s.store.config.allowAdbRoot)
  }

  ghost predicate Limited(s: Sup)
  {
    && |s.transports| <= MAX_TRANSPORTS && |s.store.hosts| <= MAX_HOSTS && s.failures <= 6
    && (forall t :: CountOf(s.services, t) <= MAX_SERVICES)
    && (forall i | 0 <= i < |s.services| :: s.services[i].id < s.spawned)
    && (s.worker.Some? ==> s.worker.value.child < s.spawned)
    && forall i, j | 0 <= i < j < |s.services| :: s.services[i].id != s.services[j].id
  }

  /** A worker, and a service that claims to run, have listening sockets to restart on. */
  ghost predicate Housed(s: Sup)
  {
    && (s.worker.Some? ==> s.bundle)
    && (s.state == Running ==> s.bundle)
  }

  function Commits(es: seq<Event>, epoch: nat): nat
  {
    if es == [] then 0
    else
      Commits(es[..|es| - 1], epoch)
      + if es[|es| - 1].Committed? && es[|es| - 1].epoch == epoch then 1 else 0
  }

  function Failures(es: seq<Event>, epoch: nat): nat
  {
    if es == [] then 0
    else
      Failures(es[..|es| - 1], epoch)
      + if es[|es| - 1].Failed? && es[|es| - 1].epoch == epoch then 1 else 0
  }

  /** One commit and ten failures an epoch; the open window is the latest one, uncommitted, and its counter is
      the number of failures in it. */
  ghost predicate Counted(s: Sup)
  {
    && (forall i | 0 <= i < |s.events| :: 0 < s.events[i].epoch <= s.epoch)
    && (forall k :: Commits(s.events, k) <= 1 && Failures(s.events, k) <= MAX_PAIR_FAILURES)
    && (s.window.Some? ==>
          && 0 < s.window.value.epoch == s.epoch && s.window.value.failures < MAX_PAIR_FAILURES
          && s.window.value.failures == Failures(s.events, s.epoch) && Commits(s.events, s.epoch) == 0)
  }

  ghost predicate Inv(s: Sup, fp: Fingerprinter)
  {
    Trusted(s.store, fp) && Authorised(s) && Privileged(s) && Limited(s) && Housed(s) && Counted(s)
  }
}
