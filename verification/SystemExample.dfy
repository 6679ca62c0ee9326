/** Runs with concrete states. A revoked host keeps being served: its revocation was saved, but the message that
    would have told the worker could not be sent. A transport is kept whose connection has given up. */
module SystemExample {
  import opened Wrappers
  import opened Documents
  import Store
  import FileSystem
  import Commit
  import opened Supervisor
  import opened Worker
  import opened System
  import opened SystemTheorems
  import opened SupervisorInvariant
  import SupervisorTheorems
  import Stranded

  /** The hosts, in what the store holds before and after the connection was recorded. */
  datatype Scene = Scene(before: Store.StoreState, after: Store.StoreState, f: string, e: Env)

  function Request(x: Scene): Supervisor.Request
  {
    Authenticated(1, x.f)
  }

  function Booting(x: Scene): Sup
  {
    SupervisorTheorems.Fresh(x.before)
    .(worker := Some(Supervisor.Worker(0, [Boot(x.before.hosts)])), bundle := true, spawned := 1)
  }

  function Listening(x: Scene): Sup
  {
    Booting(x).(worker := Some(Supervisor.Worker(0, [])), state := Running)
  }

  function Booted(x: Scene): Net
  {
    NewNet().(booted := true, hosts := x.before.hosts)
  }

  /** One connection, whose call stands at this point. */
  function Connected(x: Scene, thread: Thread, phase: Phase, mailbox: Option<Answer>): Net
  {
    Booted(x).(connections := map[1 := Conn(thread, false, x.before.hosts)], next := 2,
               calls := map[1 := Call.Call(Request(x), Connection(1), phase, mailbox)], nextCall := 2)
  }

  function Calling(x: Scene, phase: Phase, mailbox: Option<Answer>): Net
  {
    Connected(x, Authenticating(x.f, 1), phase, mailbox)
  }

  /** The supervisor once it has admitted the host. */
  function Admitting(x: Scene, inbox: seq<Message>): Sup
  {
    Listening(x).(store := x.after, transports := map[1 := x.f], worker := Some(Supervisor.Worker(0, inbox)))
  }

  function Rulings(x: Scene): map<nat, Ruling>
  {
    map[1 := Ruling(Listening(x), Request(x), x.e)]
  }

  function Admitted(x: Scene, n: Net): System
  {
    System(Admitting(x, []), Some(n), [], Rulings(x), {})
  }

  ghost predicate Ready(x: Scene, fp: Fingerprinter)
  {
    && x.e.listeners && x.e.start
    && Knows(x.before.hosts, x.f)
    && Store.Alter(x.before, Store.Change.Connected(x.f, x.e.wall), x.e.temp, x.e.backup, fp)
       == (x.after, Store.StoreResult.Done)
  }

  /** The worker listens; the supervisor has read everything it sent. */
  function Idling(x: Scene, n: Net): System
  {
    System(Listening(x), Some(n), [], map[], {})
  }

  /** The authentication call of the only connection, after it was listed. */
  function Waiting(x: Scene, phase: Phase, pending: set<nat>): Net
  {
    Calling(x, phase, None).(peers := map[1 := x.f], pending := pending)
  }

  function Answered(x: Scene, phase: Phase): Net
  {
    Calling(x, phase, Some(Answer.Done)).(peers := map[1 := x.f])
  }

  lemma Starts(x: Scene, fp: Fingerprinter)
    requires Ready(x, fp)
    ensures Next(Start(x.before), Super(Restarting(x.e)), fp) == Some(System(Booting(x), Some(NewNet()), [], map[], {}))
  {
    hide Store.Alter, Knows;
    StartsAt(x, fp);
  }

  lemma StartsAt(x: Scene, fp: Fingerprinter)
    requires x.e.listeners && x.e.start
    ensures Next(Start(x.before), Super(Restarting(x.e)), fp) == Some(System(Booting(x), Some(NewNet()), [], map[], {}))
  {
    hide Store.Alter, Knows;
  }

  lemma Boots(x: Scene, fp: Fingerprinter)
    ensures Next(System(Booting(x), Some(NewNet()), [], map[], {}), Receives, fp)
         == Some(System(Listening(x).(state := Starting), Some(Booted(x)), [Message.Ready], map[], {}))
  {
    assert [] + [Message.Ready] == [Message.Ready];
    assert Booting(x).worker.value.inbox[1..] == [];
  }

  lemma Greets(x: Scene, fp: Fingerprinter)
    ensures Next(System(Listening(x).(state := Starting), Some(Booted(x)), [Message.Ready], map[], {}),
                 Super(Heard(Message.Ready, x.e, false)), fp)
         == Some(Idling(x, Booted(x)))
  {
    assert [Message.Ready][1..] == [];
    NothingMissed(Listening(x).(state := Starting), Heard(Message.Ready, x.e, false), fp);
  }

  lemma NothingMissed(s: Sup, t: Step, fp: Fingerprinter)
    requires !t.Ordered?
    ensures StillMissed({}, s, t, fp) == {}
  {
    hide Advance, Noticed;
  }

  lemma Accepts(x: Scene, fp: Fingerprinter)
    ensures Next(Idling(x, Booted(x)), Loops(Accept), fp)
         == Some(Idling(x, Booted(x).(connections := map[1 := Conn(Handshake, false, x.before.hosts)], next := 2)))
  {
    var none: map<nat, Conn> := map[];
    var c := Conn(Handshake, false, x.before.hosts);
    assert none[1 := c] == map[1 := c];
  }

  lemma Authenticates(x: Scene, fp: Fingerprinter)
    requires Ready(x, fp)
    ensures var n := Booted(x).(connections := map[1 := Conn(Handshake, false, x.before.hosts)], next := 2);
            Next(Idling(x, n), Connects(1, Authenticate(x.f)), fp) == Some(Idling(x, Calling(x, Begun, None)))
  {
    hide Store.Alter, Knows;
    var calls: map<nat, Call> := map[];
    var c := Conn(Handshake, false, x.before.hosts);
    assert map[1 := c][1 := c.(thread := Authenticating(x.f, 1))] == map[1 := c.(thread := Authenticating(x.f, 1))];
    var k := Call.Call(Request(x), Connection(1), Begun, None);
    assert calls[1 := k] == map[1 := k];
  }

  lemma NothingSent()
    ensures var none: seq<Message> := []; none + none == none
  {
  }

  lemma MovesOn(x: Scene, c: Call, p: Phase)
    ensures map[1 := c][1 := c.(phase := p)] == map[1 := c.(phase := p)]
  {
  }

  lemma Lists(x: Scene, fp: Fingerprinter)
    ensures Next(Idling(x, Calling(x, Begun, None)), Calls(List(1)), fp) == Some(Idling(x, Waiting(x, Listed, {})))
  {
    MovesOn(x, Calling(x, Begun, None).calls[1], Listed);
    var none: map<nat, string> := map[];
    assert none[1 := x.f] == map[1 := x.f];
    NothingSent();
  }

  lemma Pends(x: Scene, fp: Fingerprinter)
    ensures Next(Idling(x, Waiting(x, Listed, {})), Calls(Pend(1)), fp) == Some(Idling(x, Waiting(x, Pended, {1})))
  {
    MovesOn(x, Waiting(x, Listed, {}).calls[1], Pended);
    NothingSent();
    assert {} + {1} == {1};
  }

  lemma Posts(x: Scene, fp: Fingerprinter)
    ensures Next(Idling(x, Waiting(x, Pended, {1})), Calls(Post(1, true)), fp)
         == Some(Idling(x, Waiting(x, Sent, {1})).(upstream := [Message.Call(1, Request(x))]))
  {
    MovesOn(x, Waiting(x, Pended, {1}).calls[1], Sent);
    assert [] + [Message.Call(1, Request(x))] == [Message.Call(1, Request(x))];
  }

  lemma Rules(x: Scene, fp: Fingerprinter)
    requires Ready(x, fp)
    ensures Serve(Listening(x), Request(x), x.e, fp) == (Admitting(x, []), Answer.Done)
  {
    hide Store.Alter, Knows;
    var none: map<nat, string> := map[];
    assert none[1 := x.f] == map[1 := x.f];
  }

  lemma Admits(x: Scene, fp: Fingerprinter)
    requires Ready(x, fp)
    ensures var s := Idling(x, Waiting(x, Sent, {1})).(upstream := [Message.Call(1, Request(x))]);
            Next(s, Super(Heard(Message.Call(1, Request(x)), x.e, true)), fp)
            == Some(System(Admitting(x, [Reply(1, Answer.Done)]), Some(Waiting(x, Sent, {1})), [], Rulings(x), {}))
  {
    hide Store.Alter, Knows, Serve;
    Rules(x, fp);
    NothingMissed(Listening(x), Heard(Message.Call(1, Request(x)), x.e, true), fp);
    var none: map<nat, Ruling> := map[];
    var r := Ruling(Listening(x), Request(x), x.e);
    assert none[1 := r] == map[1 := r];
    assert [] + [Reply(1, Answer.Done)] == [Reply(1, Answer.Done)];
    assert [Message.Call(1, Request(x))][1..] == [];
  }

  lemma Delivers(x: Scene, fp: Fingerprinter)
    ensures Next(System(Admitting(x, [Reply(1, Answer.Done)]), Some(Waiting(x, Sent, {1})), [], Rulings(x), {}),
                 Receives, fp)
         == Some(Admitted(x, Answered(x, Sent)))
  {
    assert [Reply(1, Answer.Done)][1..] == [];
    assert {1} - {1} == {};
    var c := Waiting(x, Sent, {1}).calls[1];
    assert map[1 := c][1 := c.(mailbox := Some(Answer.Done))] == map[1 := c.(mailbox := Some(Answer.Done))];
    NothingSent();
  }

  lemma Takes(x: Scene, fp: Fingerprinter)
    ensures Next(Admitted(x, Answered(x, Sent)), Calls(Take(1)), fp)
         == Some(Admitted(x, Answered(x, Decided(Some(Answer.Done)))))
  {
    MovesOn(x, Answered(x, Sent).calls[1], Decided(Some(Answer.Done)));
    NothingSent();
  }

  lemma Clears(x: Scene, fp: Fingerprinter)
    ensures Next(Admitted(x, Answered(x, Decided(Some(Answer.Done)))), Calls(Clear(1)), fp)
         == Some(Admitted(x, Answered(x, Cleared(Some(Answer.Done)))))
  {
    MovesOn(x, Answered(x, Decided(Some(Answer.Done))).calls[1], Cleared(Some(Answer.Done)));
    NothingSent();
    assert {} - {1} == {};
  }

  lemma Returns(x: Scene, fp: Fingerprinter)
    ensures Next(Admitted(x, Answered(x, Cleared(Some(Answer.Done)))), Calls(Return(1)), fp)
         == Some(Admitted(x, Answered(x, Returned(Some(Answer.Done)))))
  {
    MovesOn(x, Answered(x, Cleared(Some(Answer.Done))).calls[1], Returned(Some(Answer.Done)));
    NothingSent();
  }

  function Served(x: Scene): Net
  {
    Connected(x, Serving(x.f, None), Returned(Some(Answer.Done)), Some(Answer.Done)).(peers := map[1 := x.f])
  }

  lemma Serves(x: Scene, fp: Fingerprinter)
    ensures Next(Admitted(x, Answered(x, Returned(Some(Answer.Done)))), Connects(1, ConnStep.Admitted), fp)
         == Some(Admitted(x, Served(x)))
  {
    var c := Conn(Authenticating(x.f, 1), false, x.before.hosts);
    assert map[1 := c][1 := c.(thread := Serving(x.f, None))] == map[1 := c.(thread := Serving(x.f, None))];
  }

  /** The last step: the revocation is saved, the message is not sent, and the host is served on. */
  lemma Misses(x: Scene, e: Env, fp: Fingerprinter)
    requires !e.firstSend
    requires Store.Alter(x.after, Store.Change.Revoke(x.f), e.temp, e.backup, fp).1 == Store.StoreResult.Done
    requires Store.Trusted(x.after, fp)
    ensures var r := Next(Admitted(x, Served(x)), Super(Ordered(Control.Revoke(x.f), e)), fp);
            && r.Some? && r.value.net == Some(Served(x)) && r.value.sup.worker.Some?
            && r.value.sup.worker.value.inbox == [] && !Knows(r.value.sup.store.hosts, x.f) && r.value.missed == {x.f}
  {
    hide Store.Alter, Store.Trusted, Knows, RevokeHosts;
    AlterEffects(x.after, Store.Change.Revoke(x.f), e.temp, e.backup, fp);
    RevokingIsExact(x.after.hosts, x.f);
  }

  lemma Then(store: Store.StoreState, actions: seq<Action>, a: Action, s: System, t: System, fp: Fingerprinter)
    returns (more: seq<Action>)
    requires Run(Start(store), actions, fp) == Some(s) && Next(s, a, fp) == Some(t)
    ensures more == actions + [a] && Run(Start(store), more, fp) == Some(t)
  {
    hide Next;
    more := actions + [a];
    assert more[..|actions|] == actions;
  }

  lemma Begins(x: Scene, fp: Fingerprinter) returns (actions: seq<Action>)
    requires Ready(x, fp)
    ensures Run(Start(x.before), actions, fp) == Some(Idling(x, Calling(x, Begun, None)))
  {
    hide Next, Ready, Calling, Listening, Booting, Booted, Start;
    var store := x.before;
    var listening := System(Listening(x).(state := Starting), Some(Booted(x)), [Message.Ready], map[], {});
    var booting := System(Booting(x), Some(NewNet()), [], map[], {});
    var n := Booted(x).(connections := map[1 := Conn(Handshake, false, x.before.hosts)], next := 2);
    Starts(x, fp);
    actions := Then(store, [], Super(Restarting(x.e)), Start(store), booting, fp);
    Boots(x, fp);
    actions := Then(store, actions, Receives, booting, listening, fp);
    Greets(x, fp);
    actions := Then(store, actions, Super(Heard(Message.Ready, x.e, false)), listening, Idling(x, Booted(x)), fp);
    Accepts(x, fp);
    actions := Then(store, actions, Loops(Accept), Idling(x, Booted(x)), Idling(x, n), fp);
    Authenticates(x, fp);
    actions := Then(store, actions, Connects(1, Authenticate(x.f)), Idling(x, n), Idling(x, Calling(x, Begun, None)),
                    fp);
  }

  lemma Asks(x: Scene, fp: Fingerprinter) returns (actions: seq<Action>)
    requires Ready(x, fp)
    ensures Run(Start(x.before), actions, fp)
         == Some(System(Admitting(x, [Reply(1, Answer.Done)]), Some(Waiting(x, Sent, {1})), [], Rulings(x), {}))
  {
    hide Next, Ready, Calling, Idling, Waiting, Admitting, Rulings, Start;
    var store := x.before;
    var sent := Idling(x, Waiting(x, Sent, {1})).(upstream := [Message.Call(1, Request(x))]);
    actions := Begins(x, fp);
    Lists(x, fp);
    actions := Then(store, actions, Calls(List(1)), Idling(x, Calling(x, Begun, None)),
                    Idling(x, Waiting(x, Listed, {})), fp);
    Pends(x, fp);
    actions := Then(store, actions, Calls(Pend(1)), Idling(x, Waiting(x, Listed, {})),
                    Idling(x, Waiting(x, Pended, {1})), fp);
    Posts(x, fp);
    actions := Then(store, actions, Calls(Post(1, true)), Idling(x, Waiting(x, Pended, {1})), sent, fp);
    Admits(x, fp);
    actions := Then(store, actions, Super(Heard(Message.Call(1, Request(x)), x.e, true)), sent,
                    System(Admitting(x, [Reply(1, Answer.Done)]), Some(Waiting(x, Sent, {1})), [], Rulings(x), {}), fp);
  }

  lemma Enters(x: Scene, fp: Fingerprinter) returns (actions: seq<Action>)
    requires Ready(x, fp)
    ensures Run(Start(x.before), actions, fp) == Some(Admitted(x, Served(x)))
  {
    hide Next, Ready, Answered, Admitted, Served, Start, Admitting, Waiting, Rulings;
    var store, done := x.before, Some(Answer.Done);
    actions := Asks(x, fp);
    Delivers(x, fp);
    actions := Then(store, actions, Receives,
                    System(Admitting(x, [Reply(1, Answer.Done)]), Some(Waiting(x, Sent, {1})), [], Rulings(x), {}),
                    Admitted(x, Answered(x, Sent)), fp);
    Takes(x, fp);
    actions := Then(store, actions, Calls(Take(1)), Admitted(x, Answered(x, Sent)),
                    Admitted(x, Answered(x, Decided(done))), fp);
    Clears(x, fp);
    actions := Then(store, actions, Calls(Clear(1)), Admitted(x, Answered(x, Decided(done))),
                    Admitted(x, Answered(x, Cleared(done))), fp);
    Returns(x, fp);
    actions := Then(store, actions, Calls(Return(1)), Admitted(x, Answered(x, Cleared(done))),
                    Admitted(x, Answered(x, Returned(done))), fp);
    Serves(x, fp);
    actions := Then(store, actions, Connects(1, ConnStep.Admitted), Admitted(x, Answered(x, Returned(done))),
                    Admitted(x, Served(x)), fp);
  }

  /** From any trusted store whose connection record and revocation can be saved there is a run that ends with a
      connection serving a revoked host, uncancelled, and nothing on its way that would stop it. */
  lemma RevokedHostMayBeServed(x: Scene, e: Env, fp: Fingerprinter) returns (actions: seq<Action>)
    requires Store.Trusted(x.before, fp) && Ready(x, fp) && !e.firstSend
    requires Store.Alter(x.after, Store.Change.Revoke(x.f), e.temp, e.backup, fp).1 == Store.StoreResult.Done
    ensures Run(Start(x.before), actions, fp).Some?
    ensures var s := Run(Start(x.before), actions, fp).value;
            && s.net.Some? && ServesAs(s.net.value, 1, x.f)
            && s.sup.worker.Some? && s.sup.worker.value.inbox == [] && !Knows(s.sup.store.hosts, x.f)
  {
    hide Next, Ready, Run, Start, Knows, Store.Trusted, Store.Alter;
    ReadyTrusted(x, fp);
    actions := Enters(x, fp);
    Misses(x, e, fp);
    actions := Then(x.before, actions, Super(Ordered(Control.Revoke(x.f), e)), Admitted(x, Served(x)),
                    Next(Admitted(x, Served(x)), Super(Ordered(Control.Revoke(x.f), e)), fp).value, fp);
  }

  /** In particular on a disk that never fails: whoever is trusted at the start can end up revoked and served. */
  lemma ServedAfterUnsentRevocation(store: Store.StoreState, f: string, fp: Fingerprinter)
    returns (actions: seq<Action>)
    requires Store.Trusted(store, fp) && Knows(store.hosts, f) && store.machine.faults == []
    requires forall n | n in store.machine.disk.dir :: n.Target?
    ensures Run(Start(store), actions, fp).Some?
    ensures var s := Run(Start(store), actions, fp).value;
            && s.net.Some? && ServesAs(s.net.value, 1, f)
            && s.sup.worker.Some? && s.sup.worker.value.inbox == [] && !Knows(s.sup.store.hosts, f)
  {
    hide Run, Start, Knows, Store.Trusted, Store.Alter, ConnectHosts, FileSystem.Formed, ServesAs;
    var e := Env(0, 0, 1, 1, true, true, true, true, true, true, None);
    var unsent := e.(firstSend := false, temp := 2, backup := 2);
    TrustedDisk(store, fp);
    var connect := Store.Change.Connected(f, 0);
    ConnectingTouchesOneTime(store.hosts, f, 0);
    Store.DoneWhenNothingFails(store, connect, 1, 1, fp);
    AlterEffects(store, connect, 1, 1, fp);
    var after := Store.Alter(store, connect, 1, 1, fp).0;
    TrustedDisk(after, fp);
    Store.DoneWhenNothingFails(after, Store.Change.Revoke(f), 2, 2, fp);
    actions := RevokedHostMayBeServed(Scene(store, after, f, e), unsent, fp);
  }

  // ---------------------------------------------------------------------------------------------
  // A transport without a connection

  /** The connection gives up waiting just after it was admitted. */
  function GivingUp(x: Scene, phase: Phase, pending: set<nat>): System
  {
    System(Admitting(x, [Reply(1, Answer.Done)]), Some(Waiting(x, phase, pending)), [], Rulings(x), {})
  }

  lemma TimesOut(x: Scene, fp: Fingerprinter)
    ensures Next(GivingUp(x, Sent, {1}), Calls(TimeOut(1)), fp) == Some(GivingUp(x, Decided(None), {1}))
  {
    MovesOn(x, Waiting(x, Sent, {1}).calls[1], Decided(None));
    NothingSent();
  }

  lemma ForgetsReply(x: Scene, fp: Fingerprinter)
    ensures Next(GivingUp(x, Decided(None), {1}), Calls(Clear(1)), fp) == Some(GivingUp(x, Cleared(None), {}))
  {
    MovesOn(x, Waiting(x, Decided(None), {1}).calls[1], Cleared(None));
    NothingSent();
    assert {1} - {1} == {};
  }

  function Unlisted(x: Scene): System
  {
    GivingUp(x, Returned(None), {}).(net := Some(Waiting(x, Returned(None), {}).(peers := map[])))
  }

  lemma ReturnsFailed(x: Scene, fp: Fingerprinter)
    ensures Next(GivingUp(x, Cleared(None), {}), Calls(Return(1)), fp) == Some(Unlisted(x))
  {
    MovesOn(x, Waiting(x, Cleared(None), {}).calls[1], Returned(None));
    NothingSent();
    assert map[1 := x.f] - {1} == map[];
  }

  lemma Ends(x: Scene, fp: Fingerprinter)
    ensures var r := Next(Unlisted(x), Connects(1, Refused), fp);
            r.Some? && Stranded.Stranded(r.value, 1) && r.value.sup.transports == map[1 := x.f]
  {
    var c := Conn(Authenticating(x.f, 1), false, x.before.hosts);
    assert map[1 := c][1 := c.(thread := Finished)] == map[1 := c.(thread := Finished)];
  }

  /** From any trusted store on a disk that never fails: the supervisor admits a connection whose thread then gives
      up waiting for the answer, and keeps its transport. */
  lemma TransportMayBeStranded(store: Store.StoreState, f: string, fp: Fingerprinter) returns (actions: seq<Action>)
    requires Store.Trusted(store, fp) && Knows(store.hosts, f) && store.machine.faults == []
    requires forall n | n in store.machine.disk.dir :: n.Target?
    ensures Run(Start(store), actions, fp).Some?
    ensures var s := Run(Start(store), actions, fp).value;
            Stranded.Stranded(s, 1) && s.sup.transports == map[1 := f]
  {
    hide Store.Trusted, Ready, Knows, Run, Start, Stranded.Stranded;
    var x := ReadyScene(store, f, fp);
    actions := GivesUpTooLate(x, fp);
  }

  // ---------------------------------------------------------------------------------------------
  // A service that runs without a worker

  /** From any trusted store on a disk that never fails: the service runs, its settings are changed, no worker can be
      started under the new ones, and it still says that it runs. */
  lemma RunningWithoutWorker(store: Store.StoreState, fp: Fingerprinter) returns (actions: seq<Action>)
    requires Store.Trusted(store, fp) && store.machine.faults == []
    requires forall n | n in store.machine.disk.dir :: n.Target?
    ensures Run(Start(store), actions, fp).Some?
    ensures var s := Run(Start(store), actions, fp).value; s.sup.state == Running && s.sup.worker.None? && s.net.None?
  {
    hide Next, Store.Trusted, Start, Run, Idling;
    var e := Env(0, 0, 1, 1, true, true, true, true, true, true, None);
    var x := Scene(store, store, "", e);
    var listening := System(Listening(x).(state := Starting), Some(Booted(x)), [Message.Ready], map[], {});
    var booting := System(Booting(x), Some(NewNet()), [], map[], {});
    NothingDone(store, fp);
    StartsAt(x, fp);
    actions := Then(store, [], Super(Restarting(e)), Start(store), booting, fp);
    Boots(x, fp);
    actions := Then(store, actions, Receives, booting, listening, fp);
    Greets(x, fp);
    actions := Then(store, actions, Super(Heard(Message.Ready, e, false)), listening, Idling(x, Booted(x)), fp);
    var config := store.config.(allowAdbRoot := !store.config.allowAdbRoot);
    var order := Super(Ordered(Control.Configure(config), e.(start := false)));
    LosesWorker(x, config, fp);
    actions := Then(store, actions, order, Idling(x, Booted(x)), Next(Idling(x, Booted(x)), order, fp).value, fp);
  }

  lemma NothingDone(store: Store.StoreState, fp: Fingerprinter)
    ensures Run(Start(store), [], fp) == Some(Start(store))
  {
  }

  lemma LosesWorker(x: Scene, config: Config, fp: Fingerprinter)
    requires Store.Trusted(x.before, fp) && x.before.machine.faults == []
    requires forall n | n in x.before.machine.disk.dir :: n.Target?
    requires config == x.before.config.(allowAdbRoot := !x.before.config.allowAdbRoot)
    ensures var r := Next(Idling(x, Booted(x)),
                          Super(Ordered(Control.Configure(config), x.e.(start := false))), fp);
            r.Some? && r.value.sup.state == Running && r.value.sup.worker.None? && r.value.net.None?
  {
    hide Store.Alter, FileSystem.Formed, StillMissed, Stop;
    assert FileSystem.Formed(x.before.machine.disk) && x.before.config.Valid() by { TrustedDisk(x.before, fp); }
    hide Store.Trusted;
    var change := Store.Change.Configure(config);
    Store.DoneWhenNothingFails(x.before, change, x.e.temp, x.e.backup, fp);
    AlterEffects(x.before, change, x.e.temp, x.e.backup, fp);
  }

  /** On a disk that never fails the connection of a host that is trusted can be recorded. */
  lemma ReadyScene(store: Store.StoreState, f: string, fp: Fingerprinter) returns (x: Scene)
    requires Store.Trusted(store, fp) && Knows(store.hosts, f) && store.machine.faults == []
    requires forall n | n in store.machine.disk.dir :: n.Target?
    ensures Ready(x, fp) && x.before == store && x.f == f
  {
    hide Store.Trusted, Store.Alter, Knows, ConnectHosts, FileSystem.Formed;
    var e := Env(0, 0, 1, 1, true, true, true, true, true, true, None);
    TrustedDisk(store, fp);
    ConnectingTouchesOneTime(store.hosts, f, 0);
    Store.DoneWhenNothingFails(store, Store.Change.Connected(f, 0), 1, 1, fp);
    x := Scene(store, Store.Alter(store, Store.Change.Connected(f, 0), 1, 1, fp).0, f, e);
  }

  lemma GivesUpTooLate(x: Scene, fp: Fingerprinter) returns (actions: seq<Action>)
    requires Store.Trusted(x.before, fp) && Ready(x, fp)
    ensures Run(Start(x.before), actions, fp).Some?
    ensures var s := Run(Start(x.before), actions, fp).value;
            Stranded.Stranded(s, 1) && s.sup.transports == map[1 := x.f]
  {
    hide Next, Ready, Waiting, Admitting, Rulings, Start, Stranded.Stranded, Unlisted;
    var store := x.before;
    actions := Asks(x, fp);
    TimesOut(x, fp);
    actions := Then(store, actions, Calls(TimeOut(1)), GivingUp(x, Sent, {1}), GivingUp(x, Decided(None), {1}), fp);
    ForgetsReply(x, fp);
    actions := Then(store, actions, Calls(Clear(1)), GivingUp(x, Decided(None), {1}), GivingUp(x, Cleared(None), {}),
                    fp);
    ReturnsFailed(x, fp);
    actions := Then(store, actions, Calls(Return(1)), GivingUp(x, Cleared(None), {}), Unlisted(x), fp);
    Ends(x, fp);
    actions := Then(store, actions, Connects(1, Refused), Unlisted(x),
                    Next(Unlisted(x), Connects(1, Refused), fp).value, fp);
  }

  lemma ReadyTrusted(x: Scene, fp: Fingerprinter)
    requires Store.Trusted(x.before, fp) && Ready(x, fp)
    ensures Store.Trusted(x.after, fp)
  {
    hide Store.Trusted, Store.Alter, Knows;
    AlterEffects(x.before, Store.Change.Connected(x.f, x.e.wall), x.e.temp, x.e.backup, fp);
  }

  lemma TrustedDisk(s: Store.StoreState, fp: Fingerprinter)
    requires Store.Trusted(s, fp)
    ensures FileSystem.Formed(s.machine.disk)
  {
  }
}
