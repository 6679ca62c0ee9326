/** Supervisor and worker together: two processes, two ordered queues, any interleaving. */
module System {
  import opened Wrappers
  import opened Documents
  import Store
  import opened Supervisor
  import opened Worker
  import opened SupervisorInvariant

  /** The moment the supervisor answered a request. */
  datatype Ruling = Ruling(before: Sup, request: Request, env: Env)

  /** `net` is the worker process of the supervisor's current worker. `upstream` holds what it sent and the
      supervisor has not read; the other queue is the worker's inbox. `rulings` remembers every request answered,
      and `missed` the hosts whose last revocation could not be sent to this worker: neither was a list without
      the host on its way at that moment, nor has one been sent since. */
  datatype System = System(
    sup: Sup,
    net: Option<Net>,
    upstream: seq<Message>,
    rulings: map<nat, Ruling>,
    missed: set<string>)

  datatype Action =
    | Super(step: Step)
    | Receives
    | Loops(loop: LoopStep)
    | Calls(call: CallStep)
    | Connects(id: nat, conn: ConnStep)
    | Pairs(id: nat, pair: PairStep)

  // ---------------------------------------------------------------------------------------------
  // Steps

  /** The answer a ruling gave. */
  function Verdict(r: Ruling, fp: Fingerprinter): Answer
  {
    Serve(r.before, r.request, r.env, fp).1
  }

  /** A saved revocation whose host list could not be sent to the worker. */
  predicate Misses(s: Sup, t: Step, fp: Fingerprinter)
  {
    && t.Ordered? && t.control.Revoke? && s.worker.Some? && !t.env.firstSend
    && Store.Alter(s.store, Store.Change.Revoke(t.control.fingerprint), t.env.temp, t.env.backup, fp).1
       == Store.StoreResult.Done
  }

  function Inbox(s: Sup): seq<Message>
  {
    if s.worker.Some? then s.worker.value.inbox else []
  }

  /** A host list without this host is on its way to the worker. */
  predicate Noticed(inbox: seq<Message>, f: string)
  {
    exists i | 0 <= i < |inbox| :: inbox[i].Hosts? && !Knows(inbox[i].hosts, f)
  }

  /** The hosts whose revocation is missed after a step: one is added when its own list cannot be sent, and any is
      dropped once a list without it is on its way. */
  function StillMissed(missed: set<string>, s: Sup, t: Step, fp: Fingerprinter): set<string>
  {
    set f | f in missed + (if Misses(s, t, fp) then {t.control.fingerprint} else {})
            && !Noticed(Inbox(Advance(s, t, fp)), f)
  }

  /** Supervisor steps that hear something hear the oldest message; hanging up needs a dead worker. */
  predicate CanStep(s: System, t: Step)
  {
    && Enabled(s.sup, t)
    && (t.Heard? ==> s.upstream != [] && t.message == s.upstream[0])
    && (t.Hangup? ==> s.net.Some? && !s.net.value.alive)
  }

  function Child(s: Sup): Option<nat>
  {
    if s.worker.Some? then Some(s.worker.value.child) else None
  }

  /** A supervisor step. When it ends the worker, everything of that worker is gone; when it starts another, that
      one begins from nothing. */
  function Supervise(s: System, t: Step, fp: Fingerprinter): System
  {
    var u := Advance(s.sup, t, fp);
    if Child(u) != Child(s.sup) then
      System(u, if u.worker.None? then None else Some(NewNet()), [], map[], {})
    else
      System(u, s.net,
             if t.Heard? && s.upstream != [] then s.upstream[1..] else s.upstream,
             if t.Heard? && t.message.Call? then s.rulings[t.message.id := Ruling(s.sup, t.message.request, t.env)]
             else s.rulings,
             StillMissed(s.missed, s.sup, t, fp))
  }

  /** What an action of the worker needs: a living process, which has its boot message, and for the main loop one
      that has not left it. */
  predicate CanAct(s: System, a: Action)
  {
    && s.net.Some? && s.sup.worker.Some? && s.net.value.alive
    && (a.Receives? ==> s.net.value.looping && s.sup.worker.value.inbox != [])
    && (!a.Receives? ==> s.net.value.booted || (a.Loops? && a.loop.Die?))
    && (a.Loops? ==> s.net.value.looping || a.loop.Die?)
  }

  function Next(s: System, a: Action, fp: Fingerprinter): Option<System>
  {
    if a.Super? then if CanStep(s, a.step) then Some(Supervise(s, a.step, fp)) else None
    else if !CanAct(s, a) then None
    else
      var n := s.net.value;
      match a
      case Receives =>
        var w := s.sup.worker.value;
        Some(s.(net := Some(Receive(n, w.inbox[0])),
                sup := s.sup.(worker := Some(w.(inbox := w.inbox[1..]))),
                upstream := s.upstream + if w.inbox[0].Boot? && !n.booted then [Ready] else []))
      case Loops(l) => (match LoopProceeds(n, l) case None => None case Some(m) => Some(s.(net := Some(m))))
      case Calls(c) =>
        (match Proceed(n, c)
         case None => None
         case Some(m) => Some(s.(net := Some(m.0), upstream := s.upstream + m.1)))
      case Connects(id, c) => (match ConnProceeds(n, id, c) case None => None case Some(m) => Some(s.(net := Some(m))))
      case Pairs(id, c) => (match PairProceeds(n, id, c, fp) case None => None case Some(m) => Some(s.(net := Some(m))))
  }

  // ---------------------------------------------------------------------------------------------
  // What every step keeps

  predicate Outstanding(p: Phase)
  {
    p.Pended? || p.Sent? || p.Decided?
  }

  /** Past the point where the request is sent. */
  predicate WasSent(p: Phase)
  {
    !p.Begun? && !p.Listed? && !p.Pended?
  }

  function ResultOf(p: Phase): Option<Answer>
  {
    if p.Decided? || p.Cleared? || p.Returned? then p.result else None
  }

  /** What a call has received is the ruling on its own request. */
  ghost predicate CallOk(k: nat, c: Call, rulings: map<nat, Ruling>, fp: Fingerprinter)
  {
    && (k in rulings ==> rulings[k].request == c.request && WasSent(c.phase))
    && (c.mailbox.Some? ==> k in rulings && c.mailbox.value == Verdict(rulings[k], fp))
    && (ResultOf(c.phase).Some? ==>
          k in rulings && ResultOf(c.phase).value == Verdict(rulings[k], fp) && ResultOf(c.phase).value != Rejected)
  }

  ghost predicate CallsOk(calls: map<nat, Call>, next: nat, pending: set<nat>, rulings: map<nat, Ruling>,
                          fp: Fingerprinter)
  {
    && (forall k | k in calls :: k < next && CallOk(k, calls[k], rulings, fp))
    && (forall k | k in rulings :: k in calls)
    && forall k | k in pending :: k in calls && Outstanding(calls[k].phase)
  }

  /** A request in the queue is that of a call which sent it and has no answer yet, and it is there once. */
  ghost predicate UpstreamOk(upstream: seq<Message>, calls: map<nat, Call>, rulings: map<nat, Ruling>)
  {
    && (forall i | 0 <= i < |upstream| && upstream[i].Call? ::
          && upstream[i].id in calls && calls[upstream[i].id].request == upstream[i].request
          && WasSent(calls[upstream[i].id].phase) && upstream[i].id !in rulings)
    && forall i, j | 0 <= i < j < |upstream| && upstream[i].Call? && upstream[j].Call? ::
         upstream[i].id != upstream[j].id
  }

  /** A reply in the queue carries the ruling on its call, is there once, and its call has received none. */
  ghost predicate InboxOk(inbox: seq<Message>, calls: map<nat, Call>, rulings: map<nat, Ruling>, fp: Fingerprinter)
  {
    && (forall i | 0 <= i < |inbox| && inbox[i].Reply? ::
          && inbox[i].id in rulings && inbox[i].answer == Verdict(rulings[inbox[i].id], fp)
          && (inbox[i].id in calls ==> calls[inbox[i].id].mailbox.None?))
    && forall i, j | 0 <= i < j < |inbox| && inbox[i].Reply? && inbox[j].Reply? :: inbox[i].id != inbox[j].id
  }

  function Current(t: Thread): Option<nat>
  {
    match t
    case Authenticating(_, k) => Some(k)
    case Serving(_, busy) => busy
    case Leaving(k) => Some(k)
    case _ => None
  }

  /** A call about the presence of a connection is its own, and until it returns the connection waits for it. */
  ghost predicate OwnersOk(calls: map<nat, Call>, connections: map<nat, Conn>, next: nat)
  {
    && (forall t | t in connections :: t < next)
    && (forall k | k in calls && (calls[k].request.Authenticated? || calls[k].request.Disconnected?) ::
          && calls[k].owner == Connection(calls[k].request.transport)
          && (!calls[k].phase.Returned? ==>
                var t := calls[k].request.transport;
                t in connections && Current(connections[t].thread) == Some(k)))
    && (forall t | t in connections && connections[t].thread.Authenticating? ::
          && connections[t].thread.call in calls
          && calls[connections[t].thread.call].request == Authenticated(t, connections[t].thread.fingerprint))
    && (forall t | t in connections && connections[t].thread.Serving? && connections[t].thread.busy.Some? ::
          && connections[t].thread.busy.value in calls
          && !calls[connections[t].thread.busy.value].request.Authenticated?
          && !calls[connections[t].thread.busy.value].request.Disconnected?)
    && forall t | t in connections && connections[t].thread.Leaving? ::
         && connections[t].thread.call in calls
         && calls[connections[t].thread.call].request == Disconnected(t)
  }

  /** The host a connection counts as: from listing it until its authentication fails or it leaves. */
  function HostOf(t: Thread, calls: map<nat, Call>): Option<string>
  {
    match t
    case Authenticating(f, k) =>
      if k in calls && calls[k].phase != Begun && calls[k].phase != Returned(None) then Some(f) else None
    case Serving(f, _) => Some(f)
    case _ => None
  }

  ghost predicate PeersOk(calls: map<nat, Call>, connections: map<nat, Conn>, peers: map<nat, string>)
  {
    forall t | t in connections && HostOf(connections[t].thread, calls).Some? ::
      t in peers && peers[t] == HostOf(connections[t].thread, calls).value
  }

  /** The host a connection has been admitted as: the supervisor granted its authentication and the call has not
      failed on the way back. */
  function AdmittedAs(t: Thread, calls: map<nat, Call>, rulings: map<nat, Ruling>, fp: Fingerprinter): Option<string>
  {
    match t
    case Authenticating(f, k) =>
      if && k in calls && k in rulings && Verdict(rulings[k], fp) != Rejected
         && (calls[k].phase.Sent? || ResultOf(calls[k].phase).Some?)
      then Some(f) else None
    case Serving(f, _) => Some(f)
    case _ => None
  }

  ghost predicate Covered(f: string, hosts: seq<Host>, inbox: seq<Message>, missed: set<string>)
  {
    Knows(hosts, f) || Noticed(inbox, f) || f in missed
  }

  ghost predicate Guarded(calls: map<nat, Call>, connections: map<nat, Conn>, rulings: map<nat, Ruling>,
                          hosts: seq<Host>, inbox: seq<Message>, missed: set<string>, fp: Fingerprinter)
  {
    forall t | t in connections && !connections[t].cancelled
               && AdmittedAs(connections[t].thread, calls, rulings, fp).Some? ::
      Covered(AdmittedAs(connections[t].thread, calls, rulings, fp).value, hosts, inbox, missed)
  }

  /** This call was granted a pairing of this key in this epoch. */
  ghost predicate PairingGranted(k: nat, epoch: nat, key: string, rulings: map<nat, Ruling>, fp: Fingerprinter)
  {
    k in rulings && rulings[k].request == PairResult(epoch, Some(key)) && Verdict(rulings[k], fp) != Rejected
  }

  ghost predicate ClientOk(c: Client, calls: map<nat, Call>, rulings: map<nat, Ruling>, fp: Fingerprinter)
  {
    && (c.thread.Committing? ==>
          c.thread.call in calls && calls[c.thread.call].request == PairResult(c.epoch, Some(c.thread.key)))
    && (c.thread.Confirming? ==> PairingGranted(c.thread.call, c.epoch, c.thread.key, rulings, fp))
    && (c.confirmed.Some? ==> PairingGranted(c.confirmed.value.1, c.epoch, c.confirmed.value.0, rulings, fp))
  }

  ghost predicate ClientsOk(clients: map<nat, Client>, calls: map<nat, Call>, rulings: map<nat, Ruling>,
                            fp: Fingerprinter)
  {
    forall p | p in clients :: ClientOk(clients[p], calls, rulings, fp)
  }

  ghost predicate RulingsOk(rulings: map<nat, Ruling>, fp: Fingerprinter)
  {
    forall k | k in rulings :: Inv(rulings[k].before, fp)
  }

  ghost predicate NetOk(n: Net, upstream: seq<Message>, inbox: seq<Message>, rulings: map<nat, Ruling>,
                        hosts: seq<Host>, missed: set<string>, fp: Fingerprinter)
  {
    && CallsOk(n.calls, n.nextCall, n.pending, rulings, fp)
    && UpstreamOk(upstream, n.calls, rulings)
    && InboxOk(inbox, n.calls, rulings, fp)
    && OwnersOk(n.calls, n.connections, n.next)
    && PeersOk(n.calls, n.connections, n.peers)
    && Guarded(n.calls, n.connections, rulings, hosts, inbox, missed, fp)
    && ClientsOk(n.clients, n.calls, rulings, fp)
  }

  /** A worker that has not read its boot message has no connections. */
  ghost predicate Idle(n: Net)
  {
    !n.booted ==> n.connections == map[]
  }

  /** Nothing on its way makes up for a missed revocation. */
  ghost predicate Unnoticed(missed: set<string>, inbox: seq<Message>)
  {
    forall f | f in missed :: !Noticed(inbox, f)
  }

  ghost predicate Sound(s: System, fp: Fingerprinter)
  {
    && Inv(s.sup, fp)
    && (s.net.Some? <==> s.sup.worker.Some?)
    && RulingsOk(s.rulings, fp)
    && (s.net.Some? ==>
          && Idle(s.net.value)
          && NetOk(s.net.value, s.upstream, s.sup.worker.value.inbox, s.rulings, s.sup.store.hosts, s.missed, fp))
    && (s.net.None? ==> s.upstream == [])
    && Unnoticed(s.missed, Inbox(s.sup))
  }
}
