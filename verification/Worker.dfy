/** The network worker: its main loop, its connection and pairing threads and the calls they make, as steps that
    may be interleaved in any order. */
module Worker {
  import opened Wrappers
  import opened Documents
  import opened Supervisor

  // ---------------------------------------------------------------------------------------------
  // State

  /** Where a `Broker::call` stands. From `Decided` on it has its result: an answer, or `None` for an error. */
  datatype Phase =
    | Begun
    | Listed
    | Pended
    | Sent
    | Decided(result: Option<Answer>)
    | Cleared(result: Option<Answer>)
    | Returned(result: Option<Answer>)

  datatype Owner = Connection(id: nat) | Pairing(id: nat)

  /** A call: its request, who waits for it, and the channel its reply arrives in. */
  datatype Call = Call(request: Request, owner: Owner, phase: Phase, mailbox: Option<Answer>)

  datatype Thread =
    | Handshake
    | Authenticating(fingerprint: string, call: nat)
    | Serving(fingerprint: string, busy: Option<nat>)
    | Leaving(call: nat)
    | Finished

  /** A connection and the hosts its TLS handshake accepts. */
  datatype Conn = Conn(thread: Thread, cancelled: bool, allowed: seq<Host>)

  datatype PairThread =
    | Exchanging
    | Committing(key: string, call: nat)
    | Confirming(key: string, call: nat)
    | Reporting(call: nat)
    | Over

  /** A pairing client; `confirmed` once the device's own information was sent to it. */
  datatype Client = Client(epoch: nat, thread: PairThread, confirmed: Option<(string, nat)>)

  datatype PairWindow = PairWindow(epoch: nat, listening: bool, active: Option<nat>)

  datatype Net = Net(
    booted: bool,
    looping: bool,
    alive: bool,
    hosts: seq<Host>,
    peers: map<nat, string>,
    pending: set<nat>,
    calls: map<nat, Call>,
    nextCall: nat,
    connections: map<nat, Conn>,
    next: nat,
    pair: Option<PairWindow>,
    clients: map<nat, Client>,
    nextClient: nat)

  function NewNet(): Net
  {
    Net(false, true, true, [], map[], {}, map[], 1, map[], 1, None, map[], 1)
  }

  // ---------------------------------------------------------------------------------------------
  // `Broker::call`

  datatype CallStep =
    | List(k: nat)
    | Pend(k: nat)
    | Post(k: nat, works: bool)
    | Take(k: nat)
    | TimeOut(k: nat)
    | Clear(k: nat)
    | Return(k: nat)

  function Begin(n: Net, r: Request, o: Owner): Net
  {
    n.(calls := n.calls[n.nextCall := Call.Call(r, o, Begun, None)], nextCall := n.nextCall + 1)
  }

  function Move(n: Net, k: nat, p: Phase): Net
    requires k in n.calls
  {
    n.(calls := n.calls[k := n.calls[k].(phase := p)])
  }

  /** The peer table while a call starts: authentication enters its host, disconnection removes it. */
  function ListPeer(peers: map<nat, string>, r: Request): map<nat, string>
  {
    match r
    case Authenticated(t, f) => peers[t := f]
    case Disconnected(t) => peers - {t}
    case _ => peers
  }

  /** The peer table when a call ends: an authentication that failed removes its host. */
  function UnlistPeer(peers: map<nat, string>, r: Request, result: Option<Answer>): map<nat, string>
  {
    if result.None? && r.Authenticated? then peers - {r.transport} else peers
  }

  /** Where a step takes a call, if the call can take it. An answer that rejects the request is an error. */
  function NextPhase(call: Call, c: CallStep): Option<Phase>
  {
    match c
    case List(_) => if call.phase == Begun then Some(Listed) else None
    case Pend(_) => if call.phase == Listed then Some(Pended) else None
    case Post(_, works) => if call.phase == Pended then Some(if works then Sent else Decided(None)) else None
    case Take(_) =>
      if call.phase != Sent || call.mailbox.None? then None
      else Some(Decided(if call.mailbox.value == Rejected then None else call.mailbox))
    case TimeOut(_) => if call.phase != Sent || call.mailbox.Some? then None else Some(Decided(None))
    case Clear(_) => if call.phase.Decided? then Some(Cleared(call.phase.result)) else None
    case Return(_) => if call.phase.Cleared? then Some(Returned(call.phase.result)) else None
  }

  /** One step of a call, and the message it sends, if any. */
  function Proceed(n: Net, c: CallStep): Option<(Net, seq<Message>)>
  {
    var k := c.k;
    if k !in n.calls || NextPhase(n.calls[k], c).None? then None
    else
      var r, p := n.calls[k].request, NextPhase(n.calls[k], c).value;
      var m := Move(n, k, p);
      match c
      case List(_) => Some((m.(peers := ListPeer(n.peers, r)), []))
      case Pend(_) => Some((m.(pending := n.pending + {k}), []))
      case Post(_, works) => Some((m, if works then [Message.Call(k, r)] else []))
      case Clear(_) => Some((m.(pending := n.pending - {k}), []))
      case Return(_) => Some((m.(peers := UnlistPeer(n.peers, r, p.result)), []))
      case _ => Some((m, []))
  }

  /** The result of a call that has returned. */
  predicate Got(n: Net, k: nat, ok: bool)
  {
    k in n.calls && n.calls[k].phase.Returned? && (n.calls[k].phase.result.Some? <==> ok)
  }

  // ---------------------------------------------------------------------------------------------
  // Connection threads

  datatype ConnStep =
    | Fail
    | Authenticate(fingerprint: string)
    | Admitted
    | Refused
    | Ask(request: Request)
    | Resume
    | Leave
    | End

  function SetThread(n: Net, id: nat, t: Thread): Net
    requires id in n.connections
  {
    n.(connections := n.connections[id := n.connections[id].(thread := t)])
  }

  /** What a connection may ask for itself while it serves. */
  predicate Askable(r: Request, id: nat)
  {
    match r
    case Spawn(t, _) => t == id
    case CloseService(t, _) => t == id
    case Root(t, _) => t == id
    case BindReverse(t, _) => t == id
    case CloseReverse(t, _) => t == id
    case _ => false
  }

  /** One step of `transport::run`. The handshake only succeeds for a host that was allowed when the connection
      was accepted. */
  function ConnProceeds(n: Net, id: nat, c: ConnStep): Option<Net>
  {
    if id !in n.connections then None
    else
      var thread := n.connections[id].thread;
      match c
      case Fail => if thread != Handshake then None else Some(SetThread(n, id, Finished))
      case Authenticate(f) =>
        if thread != Handshake || !Knows(n.connections[id].allowed, f) then None
        else
          Some(SetThread(Begin(n, Authenticated(id, f), Connection(id)), id, Authenticating(f, n.nextCall)))
      case Admitted =>
        if !thread.Authenticating? || !Got(n, thread.call, true) then None
        else Some(SetThread(n, id, Serving(thread.fingerprint, None)))
      case Refused =>
        if !thread.Authenticating? || !Got(n, thread.call, false) then None else Some(SetThread(n, id, Finished))
      case Ask(r) =>
        if !thread.Serving? || thread.busy.Some? || !Askable(r, id) then None
        else Some(SetThread(Begin(n, r, Connection(id)), id, thread.(busy := Some(n.nextCall))))
      case Resume =>
        if || !thread.Serving? || thread.busy.None?
           || !(Got(n, thread.busy.value, true) || Got(n, thread.busy.value, false))
        then None
        else Some(SetThread(n, id, thread.(busy := None)))
      case Leave =>
        if !thread.Serving? || thread.busy.Some? then None
        else Some(SetThread(Begin(n, Disconnected(id), Connection(id)), id, Leaving(n.nextCall)))
      case End =>
        if !thread.Leaving? || !(Got(n, thread.call, true) || Got(n, thread.call, false)) then None
        else Some(SetThread(n, id, Finished))
  }

  // ---------------------------------------------------------------------------------------------
  // Pairing threads

  datatype PairStep = Read(key: string) | Break | Granted | Denied | Confirm(works: bool) | Close

  function SetClient(n: Net, id: nat, c: Client): Net
  {
    n.(clients := n.clients[id := c])
  }

  /** One step of a pairing thread: the exchange yields a key or breaks, the key is committed by a call, and only
      then is the device's information sent; whatever fails is reported. */
  function PairProceeds(n: Net, id: nat, c: PairStep, fp: Fingerprinter): Option<Net>
  {
    if id !in n.clients then None
    else
      var client := n.clients[id];
      var epoch, thread := client.epoch, client.thread;
      var failed := client.(thread := Reporting(n.nextCall));
      var report := SetClient(Begin(n, PairResult(epoch, None), Pairing(id)), id, failed);
      match c
      case Read(key) =>
        if thread != Exchanging || HostKey(key, fp).None? then None
        else
          Some(SetClient(Begin(n, PairResult(epoch, Some(key)), Pairing(id)), id,
                         client.(thread := Committing(key, n.nextCall))))
      case Break => if thread != Exchanging then None else Some(report)
      case Granted =>
        if !thread.Committing? || !Got(n, thread.call, true) then None
        else Some(SetClient(n, id, client.(thread := Confirming(thread.key, thread.call))))
      case Denied => if !thread.Committing? || !Got(n, thread.call, false) then None else Some(report)
      case Confirm(works) =>
        if !thread.Confirming? then None
        else
          var told := Some((thread.key, thread.call));
          if works then Some(SetClient(n, id, client.(thread := Over, confirmed := told)))
          else
            Some(SetClient(Begin(n, PairResult(epoch, None), Pairing(id)), id,
                           client.(thread := Reporting(n.nextCall), confirmed := told)))
      case Close =>
        if !thread.Reporting? || !(Got(n, thread.call, true) || Got(n, thread.call, false)) then None
        else Some(SetClient(n, id, client.(thread := Over)))
  }

  // ---------------------------------------------------------------------------------------------
  // The main loop

  datatype LoopStep =
    | Reap
    | GiveUp(id: nat)
    | Accept
    | AcceptPairing
    | ReapPairing
    | Exit
    | Die

  /** A host list cuts every connection whose host it does not contain. */
  function CutStrangers(connections: map<nat, Conn>, peers: map<nat, string>, hosts: seq<Host>): map<nat, Conn>
  {
    map t | t in connections ::
      if t in peers && !Knows(hosts, peers[t]) then connections[t].(cancelled := true) else connections[t]
  }

  function CutAll(connections: map<nat, Conn>): map<nat, Conn>
  {
    map t | t in connections :: connections[t].(cancelled := true)
  }

  function Unfinished(connections: map<nat, Conn>): map<nat, Conn>
  {
    map t | t in connections && connections[t].thread != Finished :: connections[t]
  }

  /** The loop has ended: connections are told to stop and waiting calls lose their channels. */
  function LeaveLoop(n: Net): Net
  {
    n.(looping := false, pair := None, connections := CutAll(n.connections), pending := {})
  }

  /** A message of the supervisor. Anything unexpected ends the process. */
  function Receive(n: Net, m: Message): Net
  {
    match m
    case Boot(hosts) => if n.booted then n.(alive := false) else n.(booted := true, hosts := hosts)
    case Reply(id, answer) =>
      if !n.booted then n.(alive := false)
      else if id in n.pending && id in n.calls then
        n.(pending := n.pending - {id}, calls := n.calls[id := n.calls[id].(mailbox := Some(answer))])
      else n
    case Hosts(hosts) =>
      if !n.booted then n.(alive := false)
      else n.(hosts := hosts, connections := CutStrangers(n.connections, n.peers, hosts))
    case PairStart(epoch) =>
      if !n.booted then n.(alive := false) else n.(pair := Some(PairWindow(epoch, true, None)))
    case PairStop => if !n.booted then n.(alive := false) else n.(pair := None)
    case PairCommitted =>
      if !n.booted then n.(alive := false)
      else if n.pair.None? then n
      else n.(pair := Some(n.pair.value.(listening := false)))
    case Shutdown => if !n.booted then n.(alive := false) else LeaveLoop(n)
    case _ => n.(alive := false)
  }

  function LoopProceeds(n: Net, l: LoopStep): Option<Net>
  {
    match l
    case Reap =>
      Some(n.(connections := Unfinished(n.connections)))
    case GiveUp(id) =>
      if id !in n.connections || id in n.peers then None
      else Some(n.(connections := n.connections[id := n.connections[id].(cancelled := true)]))
    case Accept =>
      if |n.connections| >= MAX_TRANSPORTS then None
      else Some(n.(connections := n.connections[n.next := Conn(Handshake, false, n.hosts)], next := n.next + 1))
    case AcceptPairing =>
      if n.pair.None? || n.pair.value.active.Some? || !n.pair.value.listening then None
      else
        Some(n.(clients := n.clients[n.nextClient := Client(n.pair.value.epoch, Exchanging, None)],
                pair := Some(n.pair.value.(active := Some(n.nextClient))), nextClient := n.nextClient + 1))
    case ReapPairing =>
      if n.pair.None? || n.pair.value.active.None? then None
      else
        var id := n.pair.value.active.value;
        if id !in n.clients || n.clients[id].thread != Over then None
        else Some(n.(pair := Some(n.pair.value.(active := None))))
    case Exit => Some(LeaveLoop(n))
    case Die => Some(n.(alive := false))
  }

  /** Steps of the loop one after the other; `None` when one of them could not be taken. */
  function LoopRun(n: Net, ls: seq<LoopStep>): Option<Net>
  {
    if ls == [] then Some(n)
    else
      match LoopRun(n, ls[..|ls| - 1])
      case None => None
      case Some(m) => LoopProceeds(m, ls[|ls| - 1])
  }

  /** The process is up and in its loop. */
  predicate Looping(n: Net)
  {
    n.booted && n.looping && n.alive
  }

  /** Steps that neither leave the loop nor end the process. */
  predicate Staying(ls: seq<LoopStep>)
  {
    forall i | 0 <= i < |ls| :: !ls[i].Exit? && !ls[i].Die?
  }

  lemma LoopRunPush(n: Net, ls: seq<LoopStep>, l: LoopStep)
    requires LoopRun(n, ls).Some?
    ensures LoopRun(n, ls + [l]) == LoopProceeds(LoopRun(n, ls).value, l)
  {
    assert (ls + [l])[..|ls|] == ls;
  }

  lemma {:induction false} LoopRunStays(n: Net, ls: seq<LoopStep>)
    requires Looping(n) && Staying(ls) && LoopRun(n, ls).Some?
    ensures Looping(LoopRun(n, ls).value)
  {
    if ls != [] {
      LoopRunStays(n, ls[..|ls| - 1]);
    }
  }
}
