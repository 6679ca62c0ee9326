/** What the worker was sent, read or still on its way, against what the supervisor holds: the trusted hosts and the
    open pairing window. */
module Delivery {
  import opened Wrappers
  import opened Documents
  import Store
  import opened Supervisor
  import opened Worker
  import opened System
  import opened SupervisorInvariant
  import opened SystemTheorems
  import opened Reading
  import Histories
  import Announcements

  // ---------------------------------------------------------------------------------------------
  // The messages of a worker

  /** Everything the present worker was sent: what it read and what is on its way. */
  ghost function Sent(s: System, actions: seq<Action>, fp: Fingerprinter): seq<Message>
  {
    Reads(s, actions, fp) + match Run(s, actions, fp) case Some(u) => Inbox(u.sup) case None => []
  }

  /** The worker goes on, and is told this by a step. */
  ghost function Adding(s: System, a: Action, fp: Fingerprinter): seq<Message>
  {
    if a.Super? then Announcements.Told(s.sup, a.step, fp) else []
  }

  lemma NextSup(s: System, a: Action, fp: Fingerprinter)
    requires Next(s, a, fp).Some? && !a.Super?
    ensures var u := Next(s, a, fp).value;
            && s.sup.worker.Some?
            && (a.Receives? ==> Inbox(s.sup) != [])
            && u.sup == if a.Receives? then s.sup.(worker := Some(s.sup.worker.value.(inbox := Inbox(s.sup)[1..])))
                        else s.sup
  {
    hide Proceed, ConnProceeds, PairProceeds, LoopProceeds, Receive;
  }

  lemma SuperSup(s: System, t: Step, fp: Fingerprinter)
    requires Next(s, Super(t), fp).Some?
    ensures Enabled(s.sup, t) && Next(s, Super(t), fp).value.sup == Advance(s.sup, t, fp)
  {
    hide Advance, StillMissed;
  }

  /** A supervisor step that keeps the worker adds its messages; any other worker is new, and told who is trusted. */
  lemma SuperAdds(b: Sup, t: Step, fp: Fingerprinter)
    requires Inv(b, fp) && Enabled(b, t)
    ensures var u := Advance(b, t, fp);
            && u.store == Announcements.Changed(b, t, fp).0
            && (u.worker.Some? && Child(u) != Child(b) ==> Inbox(u) == [Boot(u.store.hosts)])
            && (u.worker.Some? && Child(u) == Child(b) ==>
                  && Inbox(u) == Inbox(b) + Announcements.Told(b, t, fp)
                  && !Histories.Halts(b, t, fp) && !Histories.Saves(b, t, fp) && !Histories.Due(b, t))
  {
    hide Advance, Announcements.Told, Announcements.Changed, Histories.Saves, Histories.Relocates, Histories.Due,
      Histories.Halts, Enabled;
    Announcements.StepSettles(b, t, fp);
    WorkerIsEarlier(b, fp);
    HaltsOrDue(b, t, fp);
    hide Inv;
  }

  lemma WorkerIsEarlier(b: Sup, fp: Fingerprinter)
    requires Inv(b, fp)
    ensures b.worker.Some? ==> b.worker.value.child < b.spawned
  {
    hide Store.Trusted, Knows, CountOf, Commits, Failures;
  }

  lemma HaltsOrDue(b: Sup, t: Step, fp: Fingerprinter)
    ensures Announcements.Launches(b, t, fp) ==>
              Histories.Halts(b, t, fp) || Histories.Saves(b, t, fp) || Histories.Due(b, t)
  {
    hide Histories.Saves;
  }

  /** How the messages of the present worker grow. */
  lemma SentPush(s: System, actions: seq<Action>, fp: Fingerprinter)
    requires actions != [] && Run(s, actions, fp).Some?
    requires Inv(Run(s, actions[..|actions| - 1], fp).value.sup, fp)
    requires Run(s, actions, fp).value.sup.worker.Some?
    ensures var b := Run(s, actions[..|actions| - 1], fp).value; var u := Run(s, actions, fp).value;
            Sent(s, actions, fp) == if Child(u.sup) != Child(b.sup) then [Boot(u.sup.store.hosts)]
                                    else Sent(s, actions[..|actions| - 1], fp) + Adding(b, actions[|actions| - 1], fp)
  {
    hide Inv, Advance, Next, Announcements.Told, Announcements.Changed, Histories.Saves, Histories.Due, Histories.Halts;
    var init, a := actions[..|actions| - 1], actions[|actions| - 1];
    var b, u := Run(s, init, fp).value, Run(s, actions, fp).value;
    var read, inbox := Reads(s, init, fp), Inbox(b.sup);
    if a.Super? {
      SuperSup(b, a.step, fp);
      SuperAdds(b.sup, a.step, fp);
      if Child(u.sup) == Child(b.sup) {
        assert (read + inbox) + Adding(b, a, fp) == read + (inbox + Adding(b, a, fp));
      }
    } else {
      NextSup(b, a, fp);
      if a.Receives? {
        assert read + inbox == (read + inbox[..1]) + inbox[1..];
      }
      assert read + inbox + [] == read + inbox;
    }
  }

  // ---------------------------------------------------------------------------------------------
  // The trusted hosts

  /** The last host list in some messages. */
  function Listed(ms: seq<Message>): Option<seq<Host>>
  {
    if ms == [] then None
    else
      match ms[|ms| - 1]
      case Boot(hosts) => Some(hosts)
      case Hosts(hosts) => Some(hosts)
      case _ => Listed(ms[..|ms| - 1])
  }

  lemma {:induction false} LastHostsAppend(read: seq<Message>, ms: seq<Message>)
    ensures LastHosts(read + ms) == match Listed(ms) case Some(hosts) => hosts case None => LastHosts(read)
  {
    if ms == [] {
      assert read + ms == read;
    } else {
      assert (read + ms)[..|read + ms| - 1] == read + ms[..|ms| - 1];
      LastHostsAppend(read, ms[..|ms| - 1]);
    }
  }

  lemma ListedPush(ms: seq<Message>, m: Message)
    ensures Listed(ms + [m]) == match m case Boot(h) => Some(h) case Hosts(h) => Some(h) case _ => Listed(ms)
    ensures ms + [] == ms
  {
    assert (ms + [m])[..|ms|] == ms;
  }

  /** The step revokes or pairs a host, and its change is made. */
  ghost predicate Rules(b: Sup, t: Step, fp: Fingerprinter)
  {
    && Announcements.Asked(b, t).Some? && Announcements.Changed(b, t, fp).1
    && (Announcements.Asked(b, t).value.Revoke? || Announcements.Asked(b, t).value.Pair?)
  }

  /** What a step tells about hosts is who is trusted after it, and only a ruling on a host is told. */
  lemma ToldHosts(b: Sup, t: Step, fp: Fingerprinter)
    ensures var hosts := Listed(Announcements.Told(b, t, fp));
            hosts.Some? ==> Rules(b, t, fp) && hosts.value == Announcements.Changed(b, t, fp).0.hosts
  {
    hide Serve, Announcements.Changed;
    ListedPush([], PairStop);
    ListedPush([], PairCommitted);
    ListedPush([], PairStart(b.epoch + 1));
    ListedPush([PairStop], PairStart(b.epoch + 1));
    ListedPush([], Hosts(Announcements.Changed(b, t, fp).0.hosts));
    ListedPush([PairCommitted], Hosts(Announcements.Changed(b, t, fp).0.hosts));
    if t.Heard? && t.message.Call? {
      ListedPush(Announcements.Ruled(b, t, fp), Reply(t.message.id, Serve(b, t.message.request, t.env, fp).1));
    }
  }

  /** Apart from rulings nothing changes who is trusted. */
  lemma TrustStays(b: Sup, t: Step, fp: Fingerprinter, f: string)
    requires Inv(b, fp) && !Rules(b, t, fp)
    ensures Knows(Announcements.Changed(b, t, fp).0.hosts, f) <==> Knows(b.store.hosts, f)
  {
    hide Inv, Store.Alter, Histories.Concerns, Knows;
    var asked := Announcements.Asked(b, t);
    if asked.Some? {
      Histories.InvBasics(b, fp);
      AlterEffects(b.store, asked.value, t.env.temp, t.env.backup, fp);
      if Announcements.Changed(b, t, fp).1 && asked.value.Connected? {
        ConnectingKeepsTrust(b.store.hosts, asked.value.fingerprint, asked.value.now, f);
      }
    }
  }

  lemma ConnectingKeepsTrust(hosts: seq<Host>, g: string, now: nat, f: string)
    requires ConnectHosts(hosts, g, now).Some?
    ensures Knows(ConnectHosts(hosts, g, now).value, f) <==> Knows(hosts, f)
  {
    hide ConnectHosts;
    ConnectingTouchesOneTime(hosts, g, now);
    var after := ConnectHosts(hosts, g, now).value;
    if Knows(hosts, f) {
      var i :| 0 <= i < |hosts| && hosts[i].fingerprint == f;
      assert after[i].fingerprint == f;
    }
    if Knows(after, f) {
      var i :| 0 <= i < |after| && after[i].fingerprint == f;
      assert hosts[i].fingerprint == f;
    }
  }

  /** The last time a host was paired or revoked while this worker was there, it was told. */
  ghost predicate ListCurrent(s: System, actions: seq<Action>, fp: Fingerprinter)
  {
    actions == [] ||
    var init, a := actions[..|actions| - 1], actions[|actions| - 1];
    match Run(s, init, fp)
    case None => true
    case Some(b) =>
      match Next(b, a, fp)
      case None => true
      case Some(u) =>
        if Child(u.sup) != Child(b.sup) || Listed(Adding(b, a, fp)).Some? then true
        else if a.Super? && Rules(b.sup, a.step, fp) then false
        else ListCurrent(s, init, fp)
  }

  /** In every run, what a worker was sent leaves it with exactly the hosts the supervisor trusts, unless the list after
      the last pairing or revocation could not be sent. */
  lemma {:induction false} SentListIsTheTrusted(store: Store.StoreState, actions: seq<Action>, fp: Fingerprinter,
                                                f: string)
    requires Store.Trusted(store, fp) && Run(Start(store), actions, fp).Some?
    requires Run(Start(store), actions, fp).value.sup.worker.Some? && ListCurrent(Start(store), actions, fp)
    ensures var u := Run(Start(store), actions, fp).value;
            Knows(LastHosts(Sent(Start(store), actions, fp)), f) <==> Knows(u.sup.store.hosts, f)
  {
    hide Start, Inv, Store.Trusted, Advance, Next, Adding, Sent, Rules, Knows, Listed, LastHosts;
    if actions == [] {
      NoWorkerYet(store);
    } else {
      var init, a := actions[..|actions| - 1], actions[|actions| - 1];
      var b, u := Run(Start(store), init, fp).value, Run(Start(store), actions, fp).value;
      SupervisorHoldsThroughout(store, init, fp);
      SentPush(Start(store), actions, fp);
      if Child(u.sup) != Child(b.sup) {
        BootListed(u.sup.store.hosts);
      } else {
        LastHostsAppend(Sent(Start(store), init, fp), Adding(b, a, fp));
        NextTrust(b, a, fp, f);
        if Listed(Adding(b, a, fp)).None? {
          SentListIsTheTrusted(store, init, fp, f);
        }
      }
    }
  }

  lemma NextTrust(b: System, a: Action, fp: Fingerprinter, f: string)
    requires Next(b, a, fp).Some? && Inv(b.sup, fp)
    ensures var u := Next(b, a, fp).value; var told := Listed(Adding(b, a, fp));
            && (told.Some? ==> told.value == u.sup.store.hosts)
            && (told.None? && !(a.Super? && Rules(b.sup, a.step, fp)) ==>
                  (Knows(u.sup.store.hosts, f) <==> Knows(b.sup.store.hosts, f)))
  {
    hide Next, Advance, Inv, Rules, Knows, Announcements.Told, Announcements.Changed;
    if a.Super? {
      SuperSup(b, a.step, fp);
      SuperAdds(b.sup, a.step, fp);
      ToldHosts(b.sup, a.step, fp);
      if !Rules(b.sup, a.step, fp) {
        TrustStays(b.sup, a.step, fp, f);
      }
    } else {
      NextSup(b, a, fp);
    }
  }

  lemma NoWorkerYet(store: Store.StoreState)
    ensures Start(store).sup.worker.None?
  {
  }

  lemma BootListed(hosts: seq<Host>)
    ensures LastHosts([Boot(hosts)]) == hosts
  {
  }

  /** A worker that has read everything accepts a new connection's handshake exactly for the hosts that are trusted, if
      the list after the last pairing or revocation could be sent. */
  lemma UpToDateWorkerTrustsTheTrusted(store: Store.StoreState, actions: seq<Action>, fp: Fingerprinter, f: string)
    requires Store.Trusted(store, fp) && Run(Start(store), actions, fp).Some? && ListCurrent(Start(store), actions, fp)
    requires var u := Run(Start(store), actions, fp).value;
             u.net.Some? && u.net.value.alive && u.sup.worker.Some? && Inbox(u.sup) == []
    ensures var u := Run(Start(store), actions, fp).value; Knows(u.net.value.hosts, f) <==> Knows(u.sup.store.hosts, f)
  {
    hide Start, Run, Store.Trusted, Reads, LastHosts, LastWindow, Knows, ListCurrent;
    SentListIsTheTrusted(store, actions, fp, f);
    WorkerFollowsWhatItRead(store, actions, fp);
    assert Reads(Start(store), actions, fp) + [] == Reads(Start(store), actions, fp);
  }

  // ---------------------------------------------------------------------------------------------
  // The pairing window

  /** What some messages make of a window. */
  function Windowed(w: Option<(nat, bool)>, ms: seq<Message>): Option<(nat, bool)>
  {
    if ms == [] then w
    else
      var before := Windowed(w, ms[..|ms| - 1]);
      match ms[|ms| - 1]
      case PairStart(epoch) => Some((epoch, true))
      case PairStop => None
      case PairCommitted => if before.Some? then Some((before.value.0, false)) else None
      case Shutdown => None
      case _ => before
  }

  lemma {:induction false} LastWindowAppend(read: seq<Message>, ms: seq<Message>)
    ensures LastWindow(read + ms) == Windowed(LastWindow(read), ms)
  {
    if ms == [] {
      assert read + ms == read;
    } else {
      assert (read + ms)[..|read + ms| - 1] == read + ms[..|ms| - 1];
      LastWindowAppend(read, ms[..|ms| - 1]);
    }
  }

  /** Something is said about the window. */
  predicate Speaks(ms: seq<Message>)
  {
    exists i | 0 <= i < |ms| :: ms[i].PairStart? || ms[i].PairStop? || ms[i].PairCommitted?
  }

  lemma WindowedPush(w: Option<(nat, bool)>, ms: seq<Message>, m: Message)
    ensures Windowed(w, ms + [m]) ==
            match m
            case PairStart(epoch) => Some((epoch, true))
            case PairStop => None
            case PairCommitted => (var v := Windowed(w, ms); if v.Some? then Some((v.value.0, false)) else None)
            case Shutdown => None
            case _ => Windowed(w, ms)
    ensures Speaks(ms + [m]) <==> Speaks(ms) || m.PairStart? || m.PairStop? || m.PairCommitted?
    ensures ms + [] == ms
  {
    assert (ms + [m])[..|ms|] == ms;
    assert (ms + [m])[|ms|] == m;
    if Speaks(ms) {
      var i :| 0 <= i < |ms| && (ms[i].PairStart? || ms[i].PairStop? || ms[i].PairCommitted?);
      assert (ms + [m])[i] == ms[i];
    }
  }

  lemma NothingSaid(w: Option<(nat, bool)>)
    ensures !Speaks([]) && Windowed(w, []) == w
  {
  }

  /** The epoch of the window that takes clients. */
  function Listening(w: Option<(nat, bool)>): Option<nat>
  {
    if w.Some? && w.value.1 then Some(w.value.0) else None
  }

  function Epoch(w: Option<Window>): Option<nat>
  {
    if w.Some? then Some(w.value.epoch) else None
  }

  /** What is told about the window is what becomes of it; with nothing told it stays, or was closed unsaid. */
  ghost predicate Tells(was: Option<Window>, ms: seq<Message>, now: Option<Window>)
  {
    forall w :: TellsAt(was, ms, now, w)
  }

  /** The same for one window that earlier messages left. */
  ghost predicate TellsAt(was: Option<Window>, ms: seq<Message>, now: Option<Window>, w: Option<(nat, bool)>)
  {
    && (Speaks(ms) ==> Listening(Windowed(w, ms)) == Epoch(now))
    && (!Speaks(ms) ==> Windowed(w, ms) == w && (Epoch(now) == Epoch(was) || now.None?))
  }

  lemma TellsNothing(was: Option<Window>, now: Option<Window>)
    requires Epoch(now) == Epoch(was) || now.None?
    ensures Tells(was, [], now)
  {
  }

  /** A closed window, announced as stopped or committed if it can be, whatever else is told of hosts. */
  lemma TellsClosed(was: Option<Window>, m: Message, said: bool)
    requires m.PairStop? || m.PairCommitted?
    ensures Tells(was, Announcements.When(said, m), None)
  {
    hide TellsAt;
    TellsNothing(was, None);
    assert [] + [m] == [m];
    forall w ensures TellsAt(was, [m], None, w) { ClosedAt(was, m, w); }
  }

  lemma ClosedAt(was: Option<Window>, m: Message, w: Option<(nat, bool)>)
    requires m.PairStop? || m.PairCommitted?
    ensures TellsAt(was, [m], None, w)
  {
    hide Windowed, Speaks;
    WindowedPush(w, [], m);
    assert [] + [m] == [m];
  }

  lemma TellsOther(was: Option<Window>, ms: seq<Message>, now: Option<Window>, m: Message, said: bool)
    requires Tells(was, ms, now) && (m.Hosts? || m.Reply?)
    ensures Tells(was, ms + Announcements.When(said, m), now)
  {
    hide TellsAt;
    assert ms + [] == ms;
    forall w ensures TellsAt(was, ms + [m], now, w) { OtherAt(was, ms, now, m, w); }
  }

  lemma OtherAt(was: Option<Window>, ms: seq<Message>, now: Option<Window>, m: Message, w: Option<(nat, bool)>)
    requires Tells(was, ms, now) && (m.Hosts? || m.Reply?)
    ensures TellsAt(was, ms + [m], now, w)
  {
    hide Windowed, Speaks;
    assert TellsAt(was, ms, now, w);
    WindowedPush(w, ms, m);
  }

  lemma TellsOpened(was: Option<Window>, ms: seq<Message>, now: Window)
    ensures Tells(was, ms + [PairStart(now.epoch)], Some(now))
  {
    hide TellsAt;
    forall w ensures TellsAt(was, ms + [PairStart(now.epoch)], Some(now), w) { OpenedAt(was, ms, now, w); }
  }

  lemma OpenedAt(was: Option<Window>, ms: seq<Message>, now: Window, w: Option<(nat, bool)>)
    ensures TellsAt(was, ms + [PairStart(now.epoch)], Some(now), w)
  {
    hide Windowed, Speaks;
    WindowedPush(w, ms, PairStart(now.epoch));
  }

  lemma ResultTells(b: Sup, t: Step, u: Sup, fp: Fingerprinter)
    requires t.Heard? && t.message.Call? && Histories.Moved(b, t, u, fp)
    requires b.window.Some? ==> b.window.value.failures < MAX_PAIR_FAILURES
    ensures Tells(b.window, Announcements.Ruled(b, t, fp), u.window)
  {
    hide Store.Alter, Tells;
    if Histories.Concerns(b, t, false) {
      if b.window.value.failures + 1 == 10 {
        TellsClosed(b.window, PairStop, t.env.firstSend);
      } else {
        TellsNothing(b.window, u.window);
      }
    } else if Histories.Concerns(b, t, true) && Announcements.Changed(b, t, fp).1 {
      if t.env.firstSend {
        TellsClosed(b.window, PairCommitted, true);
        TellsOther(b.window, [PairCommitted], None, Hosts(Announcements.Changed(b, t, fp).0.hosts), t.env.secondSend);
      } else {
        TellsNothing(b.window, u.window);
      }
    } else {
      TellsNothing(b.window, u.window);
    }
  }

  lemma OrderTells(b: Sup, t: Step, u: Sup, fp: Fingerprinter)
    requires t.Ordered? && Histories.Moved(b, t, u, fp) && b.worker.Some?
    requires !Histories.Halts(b, t, fp) && !Histories.Saves(b, t, fp)
    ensures Tells(b.window, Announcements.Told(b, t, fp), u.window)
  {
    hide Store.Alter, Tells, Histories.Saves, Histories.Halts;
    var e := t.env;
    match t.control
    case StartPairing =>
      if Announcements.Pairable(b) {
        var stop := Announcements.When(e.firstSend, PairStop);
        if e.listeners && e.secondSend {
          TellsOpened(b.window, stop, u.window.value);
        } else {
          TellsClosed(b.window, PairStop, e.firstSend);
          assert stop + [] == stop;
        }
      } else {
        TellsNothing(b.window, u.window);
      }
    case StopPairing => TellsClosed(b.window, PairStop, e.firstSend);
    case Revoke(_) =>
      TellsNothing(b.window, u.window);
      var said := Announcements.Changed(b, t, fp).1 && e.firstSend;
      var list := Hosts(Announcements.Changed(b, t, fp).0.hosts);
      TellsOther(b.window, [], u.window, list, said);
      assert [] + Announcements.When(said, list) == Announcements.When(said, list);
    case Status => TellsNothing(b.window, u.window);
    case Logs => TellsNothing(b.window, u.window);
    case Configure(_) => TellsNothing(b.window, u.window);
    case Quit => TellsNothing(b.window, u.window);
  }

  /** What a step that keeps the worker tells it about the window is what becomes of the window. */
  lemma StepTells(b: Sup, t: Step, fp: Fingerprinter)
    requires Inv(b, fp) && Enabled(b, t) && b.worker.Some?
    requires !Histories.Halts(b, t, fp) && !Histories.Saves(b, t, fp) && !Histories.Due(b, t)
    ensures Tells(b.window, Announcements.Told(b, t, fp), Advance(b, t, fp).window)
  {
    hide Inv, Advance, Serve, Store.Alter, Tells;
    Histories.StepMoves(b, t, fp);
    Histories.InvBasics(b, fp);
    var u := Advance(b, t, fp);
    match t
    case Ordered(_, _) => OrderTells(b, t, u, fp);
    case Heard(m, e, replied) =>
      if m.Call? {
        ResultTells(b, t, u, fp);
        var reply := Reply(m.id, Serve(b, m.request, e, fp).1);
        TellsOther(b.window, Announcements.Ruled(b, t, fp), u.window, reply, replied);
      } else {
        TellsNothing(b.window, u.window);
      }
    case Expiry(e) =>
      if b.window.Some? && e.now >= b.window.value.expires {
        TellsClosed(b.window, PairStop, e.firstSend);
      } else {
        TellsNothing(b.window, u.window);
      }
    case _ => TellsNothing(b.window, u.window);
  }

  /** The last time the window changed while this worker was there, it was told. */
  ghost predicate WindowCurrent(s: System, actions: seq<Action>, fp: Fingerprinter)
  {
    actions == [] ||
    var init, a := actions[..|actions| - 1], actions[|actions| - 1];
    match Run(s, init, fp)
    case None => true
    case Some(b) =>
      match Next(b, a, fp)
      case None => true
      case Some(u) =>
        if Child(u.sup) != Child(b.sup) || Speaks(Adding(b, a, fp)) then true
        else if b.sup.window.Some? && u.sup.window.None? then false
        else WindowCurrent(s, init, fp)
  }

  /** In every run, a worker that was told the last change of the window was left by its messages to take clients
      exactly for the open one; and of an open window it was told. */
  lemma {:induction false} SentWindowIsTheOpenOne(store: Store.StoreState, actions: seq<Action>, fp: Fingerprinter)
    requires Store.Trusted(store, fp) && Run(Start(store), actions, fp).Some?
    requires Run(Start(store), actions, fp).value.sup.worker.Some?
    ensures var u := Run(Start(store), actions, fp).value; var sent := LastWindow(Sent(Start(store), actions, fp));
            && (WindowCurrent(Start(store), actions, fp) ==> Listening(sent) == Epoch(u.sup.window))
            && (u.sup.window.Some? ==> WindowCurrent(Start(store), actions, fp))
  {
    hide Start, Inv, Store.Trusted, Advance, Next, Adding, Sent, Speaks, LastWindow, Windowed;
    if actions == [] {
      NoWorkerYet(store);
    } else {
      var init, a := actions[..|actions| - 1], actions[|actions| - 1];
      var b, u := Run(Start(store), init, fp).value, Run(Start(store), actions, fp).value;
      SupervisorHoldsThroughout(store, init, fp);
      SupervisorHoldsThroughout(store, actions, fp);
      SentPush(Start(store), actions, fp);
      if Child(u.sup) != Child(b.sup) {
        NewWindow(b, a, fp);
      } else {
        LastWindowAppend(Sent(Start(store), init, fp), Adding(b, a, fp));
        SentWindowIsTheOpenOne(store, init, fp);
        NextTells(b, a, fp);
        assert TellsAt(b.sup.window, Adding(b, a, fp), u.sup.window, LastWindow(Sent(Start(store), init, fp)));
      }
    }
  }

  lemma NextTells(b: System, a: Action, fp: Fingerprinter)
    requires Next(b, a, fp).Some? && Inv(b.sup, fp) && b.sup.worker.Some?
    requires Child(Next(b, a, fp).value.sup) == Child(b.sup)
    ensures Tells(b.sup.window, Adding(b, a, fp), Next(b, a, fp).value.sup.window)
  {
    hide Next, Advance, Inv, Announcements.Told, Tells, Histories.Halts, Histories.Saves, Histories.Due;
    if a.Super? {
      SuperSup(b, a.step, fp);
      SuperAdds(b.sup, a.step, fp);
      StepTells(b.sup, a.step, fp);
    } else {
      NextSup(b, a, fp);
      TellsNothing(b.sup.window, b.sup.window);
    }
  }

  /** A new worker starts without a window, on either side. */
  lemma NewWindow(b: System, a: Action, fp: Fingerprinter)
    requires Next(b, a, fp).Some? && Inv(b.sup, fp) && Child(Next(b, a, fp).value.sup) != Child(b.sup)
    ensures Next(b, a, fp).value.sup.window.None?
    ensures forall hosts :: LastWindow([Boot(hosts)]) == None
  {
    hide Next, Advance, Inv, Store.Alter, Announcements.Changed, Announcements.Told;
    if a.Super? {
      SuperSup(b, a.step, fp);
      Histories.StepMoves(b.sup, a.step, fp);
      Announcements.StepSettles(b.sup, a.step, fp);
    } else {
      NextSup(b, a, fp);
    }
  }

  /** While a window is open, a worker in its loop that has read everything takes its clients, and no others. */
  lemma OpenWindowIsServed(store: Store.StoreState, actions: seq<Action>, fp: Fingerprinter)
    requires Store.Trusted(store, fp) && Run(Start(store), actions, fp).Some?
    requires var u := Run(Start(store), actions, fp).value;
             && u.net.Some? && u.net.value.alive && u.net.value.looping && u.sup.worker.Some? && Inbox(u.sup) == []
             && WindowCurrent(Start(store), actions, fp)
    ensures var u := Run(Start(store), actions, fp).value; var pair := u.net.value.pair;
            if u.sup.window.Some? then
              pair.Some? && pair.value.listening && pair.value.epoch == u.sup.window.value.epoch
            else pair.Some? ==> !pair.value.listening
  {
    hide Start, Run, Store.Trusted, Reads, LastHosts, LastWindow, WindowCurrent;
    SentWindowIsTheOpenOne(store, actions, fp);
    WorkerFollowsWhatItRead(store, actions, fp);
    assert Reads(Start(store), actions, fp) + [] == Reads(Start(store), actions, fp);
  }

  // ---------------------------------------------------------------------------------------------
  // The greeting

  /** A worker greets once it has booted, and only then is the service said to run. */
  ghost predicate Greeted(s: System)
  {
    s.net.Some? && (Message.Ready in s.upstream || s.sup.state == Running) ==> s.net.value.booted
  }

  lemma SuperGreeted(s: System, t: Step, fp: Fingerprinter)
    requires Next(s, Super(t), fp).Some? && Greeted(s) && Inv(s.sup, fp)
    ensures Greeted(Next(s, Super(t), fp).value)
  {
    hide Inv, Advance, StillMissed, Announcements.Changed, Announcements.Told, Histories.Saves, Histories.Relocates,
      Histories.Halts, Histories.Due, Histories.Errs;
    SuperSup(s, t, fp);
    Announcements.StepSettles(s.sup, t, fp);
    Announcements.KindsOfStep(s.sup, t, fp);
    WorkerIsEarlier(s.sup, fp);
  }

  lemma WorkerGreeted(s: System, a: Action, fp: Fingerprinter)
    requires Next(s, a, fp).Some? && Greeted(s) && !a.Super?
    ensures Greeted(Next(s, a, fp).value)
  {
    hide Receive, LoopProceeds, ConnProceeds, PairProceeds, Proceed;
    var n := s.net.value;
    match a
    case Receives => StaysBooted(n, s.sup.worker.value.inbox[0]);
    case Loops(l) => LoopStaysBooted(n, l);
    case Calls(c) => CallSendsNoGreeting(n, c);
    case Connects(id, c) => ConnLoop(n, id, c);
    case Pairs(id, c) => PairLoop(n, id, c, fp);
  }

  lemma StaysBooted(n: Net, m: Message)
    ensures n.booted ==> Receive(n, m).booted
    ensures m.Boot? ==> Receive(n, m).booted
  {
  }

  lemma LoopStaysBooted(n: Net, l: LoopStep)
    requires LoopProceeds(n, l).Some?
    ensures LoopProceeds(n, l).value.booted == n.booted
  {
  }

  lemma CallSendsNoGreeting(n: Net, c: CallStep)
    requires Proceed(n, c).Some?
    ensures Message.Ready !in Proceed(n, c).value.1 && Proceed(n, c).value.0.booted == n.booted
  {
  }

  /** In every run, a service that is said to run and has a worker has one that read its boot message, and so has the
      hosts to let in. */
  lemma {:induction false} RunningWorkerHasBooted(store: Store.StoreState, actions: seq<Action>, fp: Fingerprinter)
    requires Store.Trusted(store, fp) && Run(Start(store), actions, fp).Some?
    ensures Greeted(Run(Start(store), actions, fp).value)
  {
    hide Start, Next, Inv, Greeted, Store.Trusted;
    if actions == [] {
      NobodyGreeted(store);
    } else {
      var init, a := actions[..|actions| - 1], actions[|actions| - 1];
      RunningWorkerHasBooted(store, init, fp);
      var b := Run(Start(store), init, fp).value;
      if a.Super? {
        SupervisorHoldsThroughout(store, init, fp);
        SuperGreeted(b, a.step, fp);
      } else {
        WorkerGreeted(b, a, fp);
      }
    }
  }

  lemma NobodyGreeted(store: Store.StoreState)
    ensures Greeted(Start(store))
  {
  }
}
