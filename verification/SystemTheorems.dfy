/** What holds after every run of supervisor and worker, whatever the interleaving. */
module SystemTheorems {
  import opened Wrappers
  import opened Documents
  import FileSystem
  import Commit
  import Store
  import opened Supervisor
  import opened Worker
  import opened System
  import opened SupervisorInvariant
  import opened SystemInvariant
  import SupervisorTheorems

  /** The device has just started: a supervisor over its store, and no worker. */
  function Start(store: Store.StoreState): System
  {
    System(SupervisorTheorems.Fresh(store), None, [], map[], {})
  }

  /** Any sequence of actions; `None` when one of them could not be taken. */
  function Run(s: System, actions: seq<Action>, fp: Fingerprinter): Option<System>
  {
    if actions == [] then Some(s)
    else
      match Run(s, actions[..|actions| - 1], fp)
      case None => None
      case Some(t) => Next(t, actions[|actions| - 1], fp)
  }

  lemma {:induction false} RunKeeps(s: System, actions: seq<Action>, fp: Fingerprinter)
    requires Sound(s, fp)
    ensures Run(s, actions, fp).Some? ==> Sound(Run(s, actions, fp).value, fp)
  {
    hide Sound, Next;
    if actions != [] {
      RunKeeps(s, actions[..|actions| - 1], fp);
      var before, a := Run(s, actions[..|actions| - 1], fp), actions[|actions| - 1];
      if before.Some? && Next(before.value, a, fp).Some? {
        NextKeeps(before.value, a, fp);
      }
    }
  }

  lemma Reached(store: Store.StoreState, actions: seq<Action>, fp: Fingerprinter)
    requires Store.Trusted(store, fp) && Run(Start(store), actions, fp).Some?
    ensures Sound(Run(Start(store), actions, fp).value, fp)
  {
    hide Run, Inv, Store.Trusted;
    SupervisorTheorems.FreshHolds(store, fp);
    NoRulings(fp);
    RunKeeps(Start(store), actions, fp);
  }

  // ---------------------------------------------------------------------------------------------
  // Revocation

  /** The connection's authentication has returned as granted for this host, it has not begun to leave, and it has
      not been told to stop. */
  predicate ServesAs(n: Net, t: nat, f: string)
  {
    && t in n.connections && !n.connections[t].cancelled
    && match n.connections[t].thread
       case Authenticating(g, k) => g == f && Got(n, k, true)
       case Serving(g, _) => g == f
       case _ => false
  }

  lemma ServingIsAdmitted(s: System, t: nat, f: string, fp: Fingerprinter)
    requires Sound(s, fp) && s.net.Some? && ServesAs(s.net.value, t, f)
    ensures AdmittedAs(s.net.value.connections[t].thread, s.net.value.calls, s.rulings, fp) == Some(f)
    ensures HostOf(s.net.value.connections[t].thread, s.net.value.calls) == Some(f)
  {
    hide Inv, RulingsOk, UpstreamOk, InboxOk, OwnersOk, PeersOk, Guarded, ClientsOk, Knows, Verdict;
    var n := s.net.value;
    if n.connections[t].thread.Authenticating? {
      AdmissionWasGranted(n, n.connections[t].thread.call, s.upstream, s.sup.worker.value.inbox, s.rulings,
                          s.sup.store.hosts, s.missed, fp);
    }
  }

  /** The headline. However authentication, revocation and pairing interleave, a connection that serves a host
      and has not been told to stop serves a host the supervisor trusts, or the message that will stop it is on
      its way. The only exception is this very host when the list after its own last revocation could not be sent;
      what happens to the lists of other hosts does not matter. */
  lemma RevocationReachesEveryConnection(store: Store.StoreState, actions: seq<Action>, fp: Fingerprinter, t: nat,
                                         f: string)
    requires Store.Trusted(store, fp) && Run(Start(store), actions, fp).Some?
    requires var s := Run(Start(store), actions, fp).value; s.net.Some? && ServesAs(s.net.value, t, f)
    ensures var s := Run(Start(store), actions, fp).value;
            && s.sup.worker.Some?
            && (Knows(s.sup.store.hosts, f) || Noticed(s.sup.worker.value.inbox, f) || f in s.missed)
  {
    hide Run, Inv, RulingsOk, NetOk, Knows, Noticed;
    Reached(store, actions, fp);
    var s := Run(Start(store), actions, fp).value;
    ServedIsCovered(s, t, f, fp);
  }

  lemma ServedIsCovered(s: System, t: nat, f: string, fp: Fingerprinter)
    requires Sound(s, fp) && s.net.Some? && ServesAs(s.net.value, t, f)
    ensures s.sup.worker.Some? && Covered(f, s.sup.store.hosts, s.sup.worker.value.inbox, s.missed)
  {
    hide Inv, RulingsOk, CallsOk, UpstreamOk, InboxOk, OwnersOk, PeersOk, ClientsOk, Knows, Noticed, Verdict, Covered,
      Unnoticed;
    ServingIsAdmitted(s, t, f, fp);
  }

  /** Exactly when a served host is neither trusted nor about to be stopped: its own revocation was missed and it
      has not been paired again. */
  lemma UncoveredExactlyWhen(store: Store.StoreState, actions: seq<Action>, fp: Fingerprinter, t: nat, f: string)
    requires Store.Trusted(store, fp) && Run(Start(store), actions, fp).Some?
    requires var s := Run(Start(store), actions, fp).value; s.net.Some? && ServesAs(s.net.value, t, f)
    ensures var s := Run(Start(store), actions, fp).value;
            && s.sup.worker.Some?
            && (!Knows(s.sup.store.hosts, f) && !Noticed(s.sup.worker.value.inbox, f) <==>
                f in s.missed && !Knows(s.sup.store.hosts, f))
  {
    hide Run, Inv, RulingsOk, NetOk, Knows, Noticed;
    Reached(store, actions, fp);
    var s := Run(Start(store), actions, fp).value;
    ServedIsCovered(s, t, f, fp);
  }

  /** The supervisor after the first `k` actions of a run. */
  function SupAt(s: System, actions: seq<Action>, k: nat, fp: Fingerprinter): Option<Sup>
    requires k <= |actions|
  {
    match Run(s, actions[..k], fp) case None => None case Some(t) => Some(t.sup)
  }

  /** This action orders the revocation of this host, which is saved and whose list cannot be sent. */
  predicate MissesHost(s: Sup, a: Action, f: string, fp: Fingerprinter)
  {
    a.Super? && Misses(s, a.step, fp) && a.step.control.fingerprint == f
  }

  /** From action `i` on the worker stayed the same and no list without this host was on its way. */
  ghost predicate StaysMissed(s: System, actions: seq<Action>, i: nat, f: string, fp: Fingerprinter)
  {
    forall j: nat | i < j <= |actions| ::
      && SupAt(s, actions, j, fp).Some? && SupAt(s, actions, i, fp).Some?
      && Child(SupAt(s, actions, j, fp).value) == Child(SupAt(s, actions, i, fp).value)
      && !Noticed(Inbox(SupAt(s, actions, j, fp).value), f)
  }

  /** In this run, action `i` missed the revocation of this host for good. */
  ghost predicate MissedAt(s: System, actions: seq<Action>, i: nat, f: string, fp: Fingerprinter)
  {
    && i < |actions| && SupAt(s, actions, i, fp).Some?
    && MissesHost(SupAt(s, actions, i, fp).value, actions[i], f, fp)
    && StaysMissed(s, actions, i, f, fp)
  }

  lemma PrefixStates(s: System, actions: seq<Action>, a: Action, fp: Fingerprinter)
    requires Run(s, actions, fp).Some? && Run(s, actions + [a], fp).Some?
    ensures forall j: nat | j <= |actions| :: SupAt(s, actions + [a], j, fp) == SupAt(s, actions, j, fp)
    ensures SupAt(s, actions, |actions|, fp) == Some(Run(s, actions, fp).value.sup)
    ensures SupAt(s, actions + [a], |actions| + 1, fp) == Some(Run(s, actions + [a], fp).value.sup)
  {
    hide Run;
    var all := actions + [a];
    assert all[..|all|] == all && actions[..|actions|] == actions;
    forall j: nat | j <= |actions|
      ensures SupAt(s, all, j, fp) == SupAt(s, actions, j, fp)
    {
      assert all[..j] == actions[..j];
    }
  }

  lemma StaysFurther(s: System, actions: seq<Action>, a: Action, i: nat, f: string, fp: Fingerprinter)
    requires Run(s, actions, fp).Some? && Run(s, actions + [a], fp).Some? && i <= |actions|
    ensures StaysMissed(s, actions + [a], i, f, fp) <==>
            var t, u := Run(s, actions, fp).value, Run(s, actions + [a], fp).value;
            && Child(u.sup) == Child(t.sup) && !Noticed(Inbox(u.sup), f) && StaysMissed(s, actions, i, f, fp)
  {
    hide Run, Noticed, SupAt;
    PrefixStates(s, actions, a, fp);
    var n := |actions|;
    if StaysMissed(s, actions + [a], i, f, fp) {
      assert SupAt(s, actions + [a], n + 1, fp).Some?;
      forall j: nat | i < j <= n
        ensures SupAt(s, actions, j, fp) == SupAt(s, actions + [a], j, fp)
      {
      }
    }
  }

  lemma MissedSooner(s: System, actions: seq<Action>, a: Action, i: nat, f: string, fp: Fingerprinter)
    requires Run(s, actions, fp).Some? && Run(s, actions + [a], fp).Some?
    ensures MissedAt(s, actions + [a], i, f, fp) <==>
            var t, u := Run(s, actions, fp).value, Run(s, actions + [a], fp).value;
            && Child(u.sup) == Child(t.sup) && !Noticed(Inbox(u.sup), f)
            && (MissedAt(s, actions, i, f, fp) || (i == |actions| && MissesHost(t.sup, a, f, fp)))
  {
    hide Run, MissesHost, Noticed, SupAt, StaysMissed;
    PrefixStates(s, actions, a, fp);
    if i < |actions| {
      assert (actions + [a])[i] == actions[i];
      StaysFurther(s, actions, a, i, f, fp);
    } else if i == |actions| {
      StaysFurther(s, actions, a, i, f, fp);
      StaysNow(s, actions, f, fp);
    }
  }

  lemma StaysNow(s: System, actions: seq<Action>, f: string, fp: Fingerprinter)
    ensures StaysMissed(s, actions, |actions|, f, fp)
  {
  }

  /** Only supervisor steps change the missed hosts, by dropping and adding as they say. */
  lemma MissedNext(s: System, a: Action, f: string, fp: Fingerprinter)
    requires Sound(s, fp) && Next(s, a, fp).Some?
    ensures var u := Next(s, a, fp).value;
            f in u.missed <==>
            && Child(u.sup) == Child(s.sup) && !Noticed(Inbox(u.sup), f)
            && (f in s.missed || MissesHost(s.sup, a, f, fp))
  {
    hide Sound, Noticed, MissesHost, Misses, Supervise, Receive, LoopProceeds, Proceed, ConnProceeds, PairProceeds;
    if a.Super? {
      MissedStep(s, a.step, f, fp);
      SuperMisses(s.sup, a, f, fp);
    } else {
      NextKeeps(s, a, fp);
      OnlySuper(s.sup, a, f, fp);
      StillUnnoticed(Next(s, a, fp).value, f, fp);
    }
  }

  lemma StillUnnoticed(s: System, f: string, fp: Fingerprinter)
    requires Sound(s, fp)
    ensures f in s.missed ==> !Noticed(Inbox(s.sup), f)
  {
    hide Inv, RulingsOk, NetOk, Noticed;
  }

  lemma SuperMisses(s: Sup, a: Action, f: string, fp: Fingerprinter)
    requires a.Super?
    ensures MissesHost(s, a, f, fp) <==> Misses(s, a.step, fp) && a.step.control.fingerprint == f
  {
  }

  lemma OnlySuper(s: Sup, a: Action, f: string, fp: Fingerprinter)
    requires !a.Super?
    ensures !MissesHost(s, a, f, fp)
  {
  }

  lemma MissedStep(s: System, t: Step, f: string, fp: Fingerprinter)
    ensures var u := Supervise(s, t, fp);
            f in u.missed <==>
            && Child(u.sup) == Child(s.sup) && !Noticed(Inbox(u.sup), f)
            && (f in s.missed || (Misses(s.sup, t, fp) && t.control.fingerprint == f))
  {
    hide Noticed, Advance, Misses;
    var u := Supervise(s, t, fp);
    if Child(u.sup) == Child(s.sup) {
      assert u.missed == StillMissed(s.missed, s.sup, t, fp);
    } else {
      assert u.missed == {};
    }
  }

  /** The action that missed a revocation is the order to revoke that host, with a send that failed. */
  lemma MissedAtOrder(s: System, actions: seq<Action>, i: nat, f: string, fp: Fingerprinter)
    requires MissedAt(s, actions, i, f, fp)
    ensures i < |actions| && actions[i].Super? && actions[i].step.Ordered?
    ensures actions[i].step.control == Control.Revoke(f) && !actions[i].step.env.firstSend
  {
    hide Run, Store.Alter, StaysMissed, SupAt;
  }

  /** The missed hosts are a matter of history alone: a host is among them exactly when some action of the run
      missed its revocation for good. */
  lemma {:induction false} MissedIsHistory(store: Store.StoreState, actions: seq<Action>, fp: Fingerprinter, f: string)
    requires Store.Trusted(store, fp) && Run(Start(store), actions, fp).Some?
    ensures f in Run(Start(store), actions, fp).value.missed <==>
            exists i: nat :: MissedAt(Start(store), actions, i, f, fp)
  {
    hide Start, Next, Sound, MissedAt, Run, Store.Trusted, MissesHost, Noticed;
    if actions == [] {
      EmptyMisses(store, f, fp);
    } else {
      var init, a := actions[..|actions| - 1], actions[|actions| - 1];
      assert actions == init + [a];
      RunUnfolds(Start(store), init, a, fp);
      Reached(store, init, fp);
      MissedIsHistory(store, init, fp, f);
      MissedNext(Run(Start(store), init, fp).value, a, f, fp);
      forall i: nat
        ensures MissedAt(Start(store), actions, i, f, fp) <==>
                var t, u := Run(Start(store), init, fp).value, Run(Start(store), actions, fp).value;
                && Child(u.sup) == Child(t.sup) && !Noticed(Inbox(u.sup), f)
                && (MissedAt(Start(store), init, i, f, fp) || (i == |init| && MissesHost(t.sup, a, f, fp)))
      {
        MissedSooner(Start(store), init, a, i, f, fp);
      }
      var t, u := Run(Start(store), init, fp).value, Run(Start(store), actions, fp).value;
      if f in u.missed {
        if f in t.missed {
          var i: nat :| MissedAt(Start(store), init, i, f, fp);
          assert MissedAt(Start(store), actions, i, f, fp);
        } else {
          assert MissedAt(Start(store), actions, |init|, f, fp);
        }
      }
    }
  }

  lemma RunUnfolds(s: System, init: seq<Action>, a: Action, fp: Fingerprinter)
    requires Run(s, init + [a], fp).Some?
    ensures Run(s, init, fp).Some? && Run(s, init + [a], fp) == Next(Run(s, init, fp).value, a, fp)
  {
    hide Next;
    assert (init + [a])[..|init|] == init;
  }

  lemma EmptyMisses(store: Store.StoreState, f: string, fp: Fingerprinter)
    ensures Run(Start(store), [], fp) == Some(Start(store)) && f !in Start(store).missed
    ensures forall i: nat :: !MissedAt(Start(store), [], i, f, fp)
  {
  }

  /** A host that was never revoked without its list being sent is covered in every run: if it is served, it is
      trusted or about to be stopped. */
  lemma SentRevocationsReachEveryConnection(store: Store.StoreState, actions: seq<Action>, fp: Fingerprinter, t: nat,
                                            f: string)
    requires Store.Trusted(store, fp) && Run(Start(store), actions, fp).Some?
    requires var s := Run(Start(store), actions, fp).value; s.net.Some? && ServesAs(s.net.value, t, f)
    requires forall i | 0 <= i < |actions| && actions[i].Super? && actions[i].step.Ordered? ::
               actions[i].step.control == Control.Revoke(f) ==> actions[i].step.env.firstSend
    ensures var s := Run(Start(store), actions, fp).value;
            s.sup.worker.Some? && (Knows(s.sup.store.hosts, f) || Noticed(s.sup.worker.value.inbox, f))
  {
    hide Run, Start, Store.Trusted, Knows, Noticed, MissedAt;
    MissedIsHistory(store, actions, fp, f);
    RevocationReachesEveryConnection(store, actions, fp, t, f);
    forall i: nat
      ensures !MissedAt(Start(store), actions, i, f, fp)
    {
      if MissedAt(Start(store), actions, i, f, fp) {
        MissedAtOrder(Start(store), actions, i, f, fp);
      }
    }
  }

  /** Once the worker has read every host list sent to it, whoever still serves is trusted, but for a host whose own
      revocation was missed. */
  lemma ReadListsLeaveOnlyTrusted(store: Store.StoreState, actions: seq<Action>, fp: Fingerprinter, t: nat, f: string)
    requires Store.Trusted(store, fp) && Run(Start(store), actions, fp).Some?
    requires var s := Run(Start(store), actions, fp).value;
             && s.net.Some? && ServesAs(s.net.value, t, f)
             && (s.sup.worker.Some? ==> forall m | m in s.sup.worker.value.inbox :: !m.Hosts?)
    ensures var s := Run(Start(store), actions, fp).value;
            Knows(s.sup.store.hosts, f) || f in s.missed
  {
    hide Run, Knows;
    RevocationReachesEveryConnection(store, actions, fp, t, f);
  }

  /** An announced list stops exactly the connections of hosts that are not on it. */
  lemma HostListCutsExactly(store: Store.StoreState, actions: seq<Action>, fp: Fingerprinter, t: nat, f: string)
    requires Store.Trusted(store, fp) && Run(Start(store), actions, fp).Some?
    requires var s := Run(Start(store), actions, fp).value;
             && CanAct(s, Receives) && s.net.value.booted && s.sup.worker.value.inbox[0].Hosts?
             && ServesAs(s.net.value, t, f)
    ensures var s := Run(Start(store), actions, fp).value;
            var after := Next(s, Receives, fp).value.net.value;
            ServesAs(after, t, f) <==> Knows(s.sup.worker.value.inbox[0].hosts, f)
  {
    hide Run, Start, Sound, Store.Trusted, Knows, AdmittedAs;
    Reached(store, actions, fp);
    var s := Run(Start(store), actions, fp).value;
    ServingIsListed(s, t, f, fp);
    ReadingCuts(s.net.value, s.sup.worker.value.inbox[0].hosts, t, f);
  }

  /** The peer table names the host of a serving connection. */
  lemma ServingIsListed(s: System, t: nat, f: string, fp: Fingerprinter)
    requires Sound(s, fp) && s.net.Some? && ServesAs(s.net.value, t, f)
    ensures t in s.net.value.peers && s.net.value.peers[t] == f
  {
    hide Inv, RulingsOk, CallsOk, UpstreamOk, InboxOk, OwnersOk, Guarded, ClientsOk, Knows, Verdict;
    ServingIsAdmitted(s, t, f, fp);
  }

  lemma ReadingCuts(n: Net, hosts: seq<Host>, t: nat, f: string)
    requires n.booted && ServesAs(n, t, f) && t in n.peers && n.peers[t] == f
    ensures ServesAs(Receive(n, Hosts(hosts)), t, f) <==> Knows(hosts, f)
  {
    hide Knows;
  }

  /** What an order to revoke a host does for its cover, in any state, missed revocations included: afterwards the
      host is uncovered exactly when no list without it was on its way already and either the revocation was saved
      for a worker that could not be told, or it was not saved and the host was not trusted before. */
  lemma RevocationUncoversExactlyWhen(s: Sup, f: string, e: Env, fp: Fingerprinter)
    requires Inv(s, fp) && s.worker.Some?
    ensures var t := Ordered(Control.Revoke(f), e); var u := Advance(s, t, fp);
            && u.worker.Some?
            && (!Knows(u.store.hosts, f) && !Noticed(u.worker.value.inbox, f) <==>
                && !Noticed(s.worker.value.inbox, f)
                && (Misses(s, t, fp) || (!Saves(s, f, e, fp) && !Knows(s.store.hosts, f))))
  {
    hide Inv, Knows, Store.Alter, Noticed;
    var inbox, u := s.worker.value.inbox, Advance(s, Ordered(Control.Revoke(f), e), fp);
    assert inbox + [] == inbox;
    if Saves(s, f, e, fp) {
      SupervisorTheorems.RevocationIsImmediate(s, f, e, fp);
      SupervisorTheorems.RevocationIsAnnounced(s, f, e, fp);
      if e.firstSend {
        LastNoticed(inbox, u.store.hosts, f);
      }
    } else {
      InvAuthorised(s, fp);
      AlterEffects(s.store, Store.Change.Revoke(f), e.temp, e.backup, fp);
    }
  }

  /** The revocation of this host is saved. */
  predicate Saves(s: Sup, f: string, e: Env, fp: Fingerprinter)
  {
    Store.Alter(s.store, Store.Change.Revoke(f), e.temp, e.backup, fp).1 == Store.StoreResult.Done
  }

  // ---------------------------------------------------------------------------------------------
  // Calls and replies

  /** Every call that returns an answer returns the ruling on its own request, and what waits in the pending table
      is an outstanding call. */
  lemma AnswersMatchRequests(store: Store.StoreState, actions: seq<Action>, fp: Fingerprinter, k: nat)
    requires Store.Trusted(store, fp) && Run(Start(store), actions, fp).Some?
    requires Run(Start(store), actions, fp).value.net.Some?
    ensures var s := Run(Start(store), actions, fp).value; var n := s.net.value;
            && (k in n.calls && n.calls[k].phase.Returned? && n.calls[k].phase.result.Some? ==>
                  && k in s.rulings && s.rulings[k].request == n.calls[k].request
                  && n.calls[k].phase.result.value == Verdict(s.rulings[k], fp)
                  && n.calls[k].phase.result.value != Rejected)
            && (k in n.pending ==> k in n.calls && Outstanding(n.calls[k].phase))
  {
    hide Run, Inv, RulingsOk, UpstreamOk, InboxOk, OwnersOk, PeersOk, Guarded, ClientsOk, Verdict;
    Reached(store, actions, fp);
  }

  /** A reply finds its call's channel empty and is the only one for it; a request is answered once. */
  lemma RepliesComeOnce(store: Store.StoreState, actions: seq<Action>, fp: Fingerprinter)
    requires Store.Trusted(store, fp) && Run(Start(store), actions, fp).Some?
    requires Run(Start(store), actions, fp).value.net.Some?
    ensures var s := Run(Start(store), actions, fp).value; var n := s.net.value;
            && s.sup.worker.Some?
            && (forall i | 0 <= i < |s.sup.worker.value.inbox| && s.sup.worker.value.inbox[i].Reply? ::
                  var m := s.sup.worker.value.inbox[i];
                  && m.id in s.rulings && m.answer == Verdict(s.rulings[m.id], fp)
                  && m.id in n.calls && n.calls[m.id].mailbox.None?)
            && (forall i, j | 0 <= i < j < |s.sup.worker.value.inbox| && s.sup.worker.value.inbox[i].Reply?
                              && s.sup.worker.value.inbox[j].Reply? ::
                  s.sup.worker.value.inbox[i].id != s.sup.worker.value.inbox[j].id)
            && (forall i | 0 <= i < |s.upstream| && s.upstream[i].Call? :: s.upstream[i].id !in s.rulings)
  {
    hide Run, Inv, RulingsOk, OwnersOk, PeersOk, Guarded, ClientsOk, Verdict;
    Reached(store, actions, fp);
  }

  // ---------------------------------------------------------------------------------------------
  // Pairing

  lemma PairVerdict(s: Sup, epoch: nat, key: string, e: Env, fp: Fingerprinter)
    ensures Serve(s, PairResult(epoch, Some(key)), e, fp).1 in {Answer.Done, Rejected}
  {
    hide Store.Alter, HostKey, Send;
  }

  /** A pairing client is shown the device's own information only in runs in which its own result was granted:
      at that moment the window of its epoch was open and in time, and the ruling left its host in memory and, for
      any crash, in the host file. */
  lemma ConfirmedClientsAreCommitted(store: Store.StoreState, actions: seq<Action>, fp: Fingerprinter, p: nat,
                                     keep: seq<bool>)
    requires Store.Trusted(store, fp) && Run(Start(store), actions, fp).Some?
    requires var s := Run(Start(store), actions, fp).value;
             s.net.Some? && p in s.net.value.clients && s.net.value.clients[p].confirmed.Some?
    ensures var s := Run(Start(store), actions, fp).value;
            var client := s.net.value.clients[p];
            var (key, k) := client.confirmed.value;
            && k in s.rulings && s.rulings[k].request == PairResult(client.epoch, Some(key))
            && var r := s.rulings[k];
               && WindowFits(r.before.window, client.epoch, r.env.now) && client.epoch == r.before.epoch
               && var after := Serve(r.before, r.request, r.env, fp).0;
                  && HostKey(key, fp).Some? && Knows(after.store.hosts, HostKey(key, fp).value.0)
                  && (|keep| == |after.store.machine.disk.pending| ==>
                        Commit.FoundAfterCrash(after.store.machine.disk, keep, Store.HOSTS)
                        == Some(FileSystem.Whole(HostsDoc(after.store.hosts))))
  {
    Reached(store, actions, fp);
    hide Run, Inv, CallsOk, UpstreamOk, InboxOk, OwnersOk, PeersOk, Guarded, Knows, Serve, HostKey, WindowFits,
      Commit.FoundAfterCrash;
    var s := Run(Start(store), actions, fp).value;
    var client := s.net.value.clients[p];
    var (key, k) := client.confirmed.value;
    assert PairingGranted(k, client.epoch, key, s.rulings, fp);
    GrantedIsCommitted(s.rulings[k], client.epoch, key, fp, keep);
  }

  lemma GrantedIsCommitted(r: Ruling, epoch: nat, key: string, fp: Fingerprinter, keep: seq<bool>)
    requires Inv(r.before, fp) && r.request == PairResult(epoch, Some(key)) && Verdict(r, fp) != Rejected
    ensures WindowFits(r.before.window, epoch, r.env.now) && epoch == r.before.epoch
    ensures var after := Serve(r.before, r.request, r.env, fp).0;
            && HostKey(key, fp).Some? && Knows(after.store.hosts, HostKey(key, fp).value.0)
            && (|keep| == |after.store.machine.disk.pending| ==>
                  Commit.FoundAfterCrash(after.store.machine.disk, keep, Store.HOSTS)
                  == Some(FileSystem.Whole(HostsDoc(after.store.hosts))))
  {
    hide Inv, Knows, Serve, HostKey, WindowFits, Commit.FoundAfterCrash;
    PairVerdict(r.before, epoch, key, r.env, fp);
    var after := Serve(r.before, r.request, r.env, fp).0;
    var any := seq(|after.store.machine.disk.pending|, _ => true);
    SupervisorTheorems.ConfirmedHostIsCommitted(r.before, epoch, key, r.env, fp, any);
    if |keep| == |after.store.machine.disk.pending| {
      SupervisorTheorems.ConfirmedHostIsCommitted(r.before, epoch, key, r.env, fp, keep);
    }
  }

  /** Whatever the worker does, the supervisor's guarantees hold throughout. */
  lemma SupervisorHoldsThroughout(store: Store.StoreState, actions: seq<Action>, fp: Fingerprinter)
    requires Store.Trusted(store, fp) && Run(Start(store), actions, fp).Some?
    ensures var s := Run(Start(store), actions, fp).value;
            Inv(s.sup, fp) && (s.net.Some? <==> s.sup.worker.Some?)
  {
    hide Run, Inv, RulingsOk, NetOk;
    Reached(store, actions, fp);
  }

  // ---------------------------------------------------------------------------------------------
  // The worker's object

  function LoopActions(ls: seq<LoopStep>): (r: seq<Action>)
    ensures |r| == |ls|
  {
    if ls == [] then [] else LoopActions(ls[..|ls| - 1]) + [Loops(ls[|ls| - 1])]
  }

  lemma RunMore(s: System, actions: seq<Action>, a: Action, fp: Fingerprinter)
    ensures Run(s, actions + [a], fp) ==
            match Run(s, actions, fp) case None => None case Some(t) => Next(t, a, fp)
  {
    hide Next;
    assert (actions + [a])[..|actions|] == actions;
  }

  /** Steps of the worker's loop are a run of the system. */
  lemma {:induction false} LoopStepsAreRun(s: System, ls: seq<LoopStep>, fp: Fingerprinter)
    requires s.net.Some? && s.sup.worker.Some? && Looping(s.net.value) && Staying(ls)
    requires LoopRun(s.net.value, ls).Some?
    ensures Run(s, LoopActions(ls), fp) == Some(s.(net := LoopRun(s.net.value, ls)))
  {
    hide LoopProceeds;
    if ls == [] {
      assert s.(net := Some(s.net.value)) == s;
    } else {
      var init, l := ls[..|ls| - 1], ls[|ls| - 1];
      LoopStepsAreRun(s, init, fp);
      LoopRunStays(s.net.value, init);
      RunMore(s, LoopActions(init), Loops(l), fp);
    }
  }

  lemma {:induction false} RunAppend(s: System, a: seq<Action>, b: seq<Action>, fp: Fingerprinter)
    ensures Run(s, a + b, fp) == match Run(s, a, fp) case None => None case Some(t) => Run(t, b, fp)
  {
    hide Next;
    if b == [] {
      assert a + b == a;
    } else {
      var init, last := b[..|b| - 1], b[|b| - 1];
      assert a + b == (a + init) + [last];
      RunAppend(s, a, init, fp);
      RunMore(s, a + init, last, fp);
    }
  }

  /** What `Network.Turn` promises of the worker's object is a run of the system: reading a message and any steps of
      the loop after it. Everything proved of runs therefore holds while that object does its turns. */
  lemma TurnIsRun(s: System, ls: seq<LoopStep>, fp: Fingerprinter)
    requires CanAct(s, Receives) && Looping(s.net.value) && Staying(ls)
    requires var n := Receive(s.net.value, s.sup.worker.value.inbox[0]);
             LoopRun(n, ls).Some? && (ls != [] ==> Looping(n))
    ensures var n := Receive(s.net.value, s.sup.worker.value.inbox[0]);
            var t := Next(s, Receives, fp);
            t.Some? && Run(s, [Receives] + LoopActions(ls), fp) == Some(t.value.(net := LoopRun(n, ls)))
  {
    hide Receive, LoopProceeds;
    var t := Next(s, Receives, fp).value;
    RunMore(s, [], Receives, fp);
    assert [] + [Receives] == [Receives];
    RunAppend(s, [Receives], LoopActions(ls), fp);
    if ls == [] {
      assert LoopActions(ls) == [];
      assert t.(net := LoopRun(t.net.value, ls)) == t;
    } else {
      LoopStepsAreRun(t, ls, fp);
    }
  }
}
