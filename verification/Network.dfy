/** The worker process as the program keeps it: the tables its main loop and its broker share, changed in place.
    Each method is one critical section and does what its step in `Worker` says. */
module Network {
  import opened Wrappers
  import opened Documents
  import opened Supervisor
  import opened Worker

  class Network {
    var booted: bool
    var looping: bool
    var alive: bool
    var hosts: seq<Host>
    var peers: map<nat, string>
    var pending: set<nat>
    var calls: map<nat, Call>
    var nextCall: nat
    var connections: map<nat, Conn>
    var next: nat
    var pair: Option<PairWindow>
    var clients: map<nat, Client>
    var nextClient: nat

    ghost function View(): Net
      reads this
    {
      Net(booted, looping, alive, hosts, peers, pending, calls, nextCall, connections, next, pair, clients, nextClient)
    }

    constructor ()
      ensures View() == NewNet()
    {
      booted, looping, alive, hosts := false, true, true, [];
      peers, pending, calls, nextCall := map[], {}, map[], 1;
      connections, next, pair, clients, nextClient := map[], 1, None, map[], 1;
    }

    // The main loop

    /** A new host list stops, one after the other, the connections whose peer is not on it. */
    method Cut(list: seq<Host>)
      modifies this`hosts, this`connections
      ensures View() == old(View()).(hosts := list, connections := CutStrangers(old(connections), peers, list))
    {
      hosts := list;
      ghost var all := connections;
      var left := connections.Keys;
      while left != {}
        invariant hosts == list && left <= all.Keys == connections.Keys
        invariant forall t | t in all :: connections[t] ==
                    if t in left then all[t] else CutStrangers(all, peers, list)[t]
        decreases |left|
      {
        var t :| t in left;
        if t in peers && !Knows(list, peers[t]) {
          connections := connections[t := connections[t].(cancelled := true)];
        }
        left := left - {t};
      }
      assert connections == CutStrangers(all, peers, list);
    }

    /** Every connection is told to stop. */
    method CutEverything()
      modifies this`connections
      ensures View() == old(View()).(connections := CutAll(old(connections)))
    {
      ghost var all := connections;
      var left := connections.Keys;
      while left != {}
        invariant left <= all.Keys == connections.Keys
        invariant forall t | t in all :: connections[t] == if t in left then all[t] else all[t].(cancelled := true)
        decreases |left|
      {
        var t :| t in left;
        connections := connections[t := connections[t].(cancelled := true)];
        left := left - {t};
      }
      assert connections == CutAll(all);
    }

    /** What comes after the loop. */
    method Leave()
      modifies this
      ensures View() == LeaveLoop(old(View()))
    {
      looping := false;
      pair := None;
      CutEverything();
      pending := {};
    }

    /** A reply goes to the call that waits for it, once. */
    method Deliver(id: nat, answer: Answer)
      requires booted
      modifies this`pending, this`calls
      ensures View() == Receive(old(View()), Reply(id, answer))
    {
      if id in pending && id in calls {
        pending := pending - {id};
        calls := calls[id := calls[id].(mailbox := Some(answer))];
      }
    }

    /** The message branch of the loop. */
    method Hear(m: Message)
      modifies this
      ensures View() == Receive(old(View()), m)
    {
      hide CutStrangers, LeaveLoop;
      if !booted {
        if m.Boot? {
          hosts := m.hosts;
          booted := true;
        } else {
          alive := false;
        }
        return;
      }
      match m {
        case Reply(id, answer) => Deliver(id, answer);
        case Hosts(list) => Cut(list);
        case PairStart(epoch) => pair := Some(PairWindow(epoch, true, None));
        case PairStop => pair := None;
        case PairCommitted =>
          if pair.Some? {
            pair := Some(pair.value.(listening := false));
          }
        case Shutdown => Leave();
        case _ => alive := false;
      }
    }

    /** `connections.retain`: finished threads are dropped. */
    method Retain()
      modifies this`connections
      ensures Some(View()) == LoopProceeds(old(View()), Reap)
    {
      ghost var all := connections;
      var left := connections.Keys;
      while left != {}
        invariant left <= connections.Keys <= all.Keys
        invariant forall t | t in connections :: connections[t] == all[t] && (t in left || all[t].thread != Finished)
        invariant forall t | t in all && t !in connections :: all[t].thread == Finished
        decreases |left|
      {
        var t :| t in left;
        if connections[t].thread == Finished {
          connections := connections - {t};
        }
        left := left - {t};
      }
      assert connections == Unfinished(all);
    }

    /** A connection that is not listed in time is stopped. */
    method Overdue(id: nat)
      requires id in connections && id !in peers
      modifies this`connections
      ensures Some(View()) == LoopProceeds(old(View()), GiveUp(id))
    {
      connections := connections[id := connections[id].(cancelled := true)];
    }

    /** A connection is accepted with the hosts known at that moment, unless there are too many. */
    method AcceptConnection() returns (ok: bool)
      modifies this`connections, this`next
      ensures ok <==> LoopProceeds(old(View()), Accept).Some?
      ensures View() == if ok then LoopProceeds(old(View()), Accept).value else old(View())
    {
      if |connections| >= MAX_TRANSPORTS {
        return false;
      }
      connections := connections[next := Conn(Handshake, false, hosts)];
      next := next + 1;
      ok := true;
    }

    /** A pairing client is accepted while the window listens and none is active. */
    method AcceptClient() returns (ok: bool)
      modifies this`clients, this`nextClient, this`pair
      ensures ok <==> LoopProceeds(old(View()), AcceptPairing).Some?
      ensures View() == if ok then LoopProceeds(old(View()), AcceptPairing).value else old(View())
    {
      if pair.None? || pair.value.active.Some? || !pair.value.listening {
        return false;
      }
      clients := clients[nextClient := Client(pair.value.epoch, Exchanging, None)];
      pair := Some(pair.value.(active := Some(nextClient)));
      nextClient := nextClient + 1;
      ok := true;
    }

    /** A finished pairing thread makes room for the next. */
    method DropClient() returns (ok: bool)
      modifies this`pair
      ensures ok <==> LoopProceeds(old(View()), ReapPairing).Some?
      ensures View() == if ok then LoopProceeds(old(View()), ReapPairing).value else old(View())
    {
      if pair.None? || pair.value.active.None? {
        return false;
      }
      var id := pair.value.active.value;
      if id !in clients || clients[id].thread != Over {
        return false;
      }
      pair := Some(pair.value.(active := None));
      ok := true;
    }

    /** A whole turn of the loop: a message if there is one, then the finished connections go, the overdue ones are
        stopped, new ones are accepted while there is room, and the pairing window is served. Whatever it does is a
        run of the steps the rest is proved about. */
    method Turn(m: Option<Message>, overdue: set<nat>, arrivals: nat, client: bool) returns (ghost steps: seq<LoopStep>)
      requires Looping(View())
      modifies this
      ensures var n := if m.Some? then Receive(old(View()), m.value) else old(View());
              LoopRun(n, steps) == Some(View()) && Staying(steps) && (steps != [] ==> Looping(n))
    {
      hide Receive, LoopProceeds, LoopRun;
      if m.Some? {
        StaysBooted(View(), m.value);
        Hear(m.value);
      }
      ghost var start := View();
      steps := [];
      LoopRunNothing(start);
      if !looping || !alive {
        return;
      }
      Retain();
      LoopRunPush(start, steps, Reap);
      steps := steps + [Reap];
      steps := StopOverdue(overdue, start, steps);
      steps := AcceptAll(arrivals, start, steps);
      var dropped := DropClient();
      if dropped {
        LoopRunPush(start, steps, ReapPairing);
        steps := steps + [ReapPairing];
      }
      if client {
        var accepted := AcceptClient();
        if accepted {
          LoopRunPush(start, steps, AcceptPairing);
          steps := steps + [AcceptPairing];
        }
      }
    }

    method StopOverdue(overdue: set<nat>, ghost start: Net, ghost steps: seq<LoopStep>)
      returns (ghost steps': seq<LoopStep>)
      requires LoopRun(start, steps) == Some(View()) && Staying(steps)
      modifies this`connections
      ensures LoopRun(start, steps') == Some(View()) && Staying(steps')
    {
      hide LoopProceeds, LoopRun;
      steps' := steps;
      var left := overdue;
      while left != {}
        invariant LoopRun(start, steps') == Some(View()) && Staying(steps')
        decreases |left|
      {
        var id :| id in left;
        left := left - {id};
        if id in connections && id !in peers {
          Overdue(id);
          LoopRunPush(start, steps', GiveUp(id));
          steps' := steps' + [GiveUp(id)];
        }
      }
    }

    method AcceptAll(arrivals: nat, ghost start: Net, ghost steps: seq<LoopStep>)
      returns (ghost steps': seq<LoopStep>)
      requires LoopRun(start, steps) == Some(View()) && Staying(steps)
      modifies this`connections, this`next
      ensures LoopRun(start, steps') == Some(View()) && Staying(steps')
    {
      hide LoopProceeds, LoopRun;
      steps' := steps;
      for i := 0 to arrivals
        invariant LoopRun(start, steps') == Some(View()) && Staying(steps')
      {
        var accepted := AcceptConnection();
        if !accepted {
          break;
        }
        LoopRunPush(start, steps', Accept);
        steps' := steps' + [Accept];
      }
    }

    // The broker

    /** A call takes its number and makes its channel. */
    method BeginCall(r: Request, o: Owner) returns (k: nat)
      modifies this`calls, this`nextCall
      ensures View() == Begin(old(View()), r, o) && k == old(nextCall)
    {
      k := nextCall;
      nextCall := nextCall + 1;
      calls := calls[k := Call.Call(r, o, Begun, None)];
    }

    method SetPhase(k: nat, p: Phase)
      requires k in calls
      modifies this`calls
      ensures View() == Move(old(View()), k, p)
    {
      calls := calls[k := calls[k].(phase := p)];
    }

    /** The peer table is entered before the request is sent, and left before it says goodbye. */
    method ListCall(k: nat)
      requires k in calls && calls[k].phase == Begun
      modifies this`calls, this`peers
      ensures Proceed(old(View()), List(k)) == Some((View(), []))
    {
      match calls[k].request {
        case Authenticated(t, f) => peers := peers[t := f];
        case Disconnected(t) => peers := peers - {t};
        case _ =>
      }
      SetPhase(k, Listed);
    }

    method PendCall(k: nat)
      requires k in calls && calls[k].phase == Listed
      modifies this`calls, this`pending
      ensures Proceed(old(View()), Pend(k)) == Some((View(), []))
    {
      pending := pending + {k};
      SetPhase(k, Pended);
    }

    method PostCall(k: nat, works: bool) returns (sent: seq<Message>)
      requires k in calls && calls[k].phase == Pended
      modifies this`calls
      ensures Proceed(old(View()), Post(k, works)) == Some((View(), sent))
    {
      sent := if works then [Message.Call(k, calls[k].request)] else [];
      SetPhase(k, if works then Sent else Decided(None));
    }

    /** The caller takes its answer, or gives up. */
    method AwaitCall(k: nat)
      requires k in calls && calls[k].phase == Sent
      modifies this`calls
      ensures Proceed(old(View()), if old(calls[k].mailbox).Some? then Take(k) else TimeOut(k)) == Some((View(), []))
    {
      var mail := calls[k].mailbox;
      SetPhase(k, Decided(if mail == Some(Rejected) then None else mail));
    }

    method ClearCall(k: nat)
      requires k in calls && calls[k].phase.Decided?
      modifies this`calls, this`pending
      ensures Proceed(old(View()), Clear(k)) == Some((View(), []))
    {
      pending := pending - {k};
      SetPhase(k, Cleared(calls[k].phase.result));
    }

    /** A failed authentication leaves the peer table again. */
    method ReturnCall(k: nat) returns (result: Option<Answer>)
      requires k in calls && calls[k].phase.Cleared?
      modifies this`calls, this`peers
      ensures Proceed(old(View()), Return(k)) == Some((View(), [])) && result == old(calls[k].phase.result)
    {
      result := calls[k].phase.result;
      if result.None? && calls[k].request.Authenticated? {
        peers := peers - {calls[k].request.transport};
      }
      SetPhase(k, Returned(result));
    }
  }

  lemma StaysBooted(n: Net, m: Message)
    ensures n.booted ==> Receive(n, m).booted
  {
  }

  lemma LoopRunNothing(n: Net)
    ensures LoopRun(n, []) == Some(n)
  {
  }
}
