/** Every step of the supervisor keeps its invariant. */
module SupervisorInvariant {
  import opened Wrappers
  import opened Documents
  import opened Store
  import opened Supervisor

  // ---------------------------------------------------------------------------------------------
  // The store below

  /** What a change of the store leaves in memory. */
  lemma AlterEffects(s: StoreState, c: Change, temp: nat, backup: nat, fp: Fingerprinter)
    requires Trusted(s, fp)
    ensures var (t, r) := Alter(s, c, temp, backup, fp);
            && Trusted(t, fp)
            && (r != StoreResult.Done ==> t.config == s.config && t.hosts == s.hosts)
            && (r == StoreResult.Done ==>
                  match c
                  case Configure(config) => t.config == config && t.hosts == s.hosts
                  case Pair(key, now) => t.config == s.config && PairHosts(s.hosts, key, now, fp) == Some(t.hosts)
                  case Revoke(f) => t.config == s.config && t.hosts == RevokeHosts(s.hosts, f)
                  case Connected(f, now) => t.config == s.config && ConnectHosts(s.hosts, f, now) == Some(t.hosts))
  {
    hide Commit.Atomic, Trusted, PairHosts, RevokeHosts, ConnectHosts;
    AlterKeepsTrust(s, c, temp, backup, fp);
  }

  lemma TrustedHosts(s: StoreState, fp: Fingerprinter)
    requires Trusted(s, fp)
    ensures |s.hosts| <= MAX_HOSTS && AcceptsHosts(s.hosts, fp)
  {
  }

  // ---------------------------------------------------------------------------------------------
  // Tables

  lemma {:induction false} CountSame(a: seq<Service>, b: seq<Service>, t: nat)
    requires |a| == |b| && forall i | 0 <= i < |a| :: a[i].transport == b[i].transport
    ensures CountOf(a, t) == CountOf(b, t)
  {
    if a != [] {
      CountSame(a[..|a| - 1], b[..|b| - 1], t);
    }
  }

  lemma CountPush(ss: seq<Service>, s: Service, t: nat)
    ensures CountOf(ss + [s], t) == CountOf(ss, t) + if s.transport == t then 1 else 0
  {
    assert (ss + [s])[..|ss|] == ss;
  }

  /** The same process, which may have been told to stop. */
  predicate Softened(a: Service, b: Service)
  {
    a.id == b.id && a.transport == b.transport && a.root == b.root && a.allowSu == b.allowSu
    && (a.stopped ==> b.stopped)
  }

  predicate AllSoftened(a: seq<Service>, b: seq<Service>)
  {
    |a| == |b| && forall i | 0 <= i < |a| :: Softened(a[i], b[i])
  }

  lemma CountedFrame(s: Sup, t: Sup)
    requires Counted(s) && t.events == s.events && t.epoch == s.epoch && t.window == s.window
    ensures Counted(t)
  {
    hide Commits, Failures;
  }

  lemma SoftenedKeeps(s: Sup, ss: seq<Service>, fp: Fingerprinter)
    requires Inv(s, fp) && AllSoftened(s.services, ss)
    ensures Inv(s.(services := ss), fp)
  {
    hide Trusted, Knows, CountOf, Counted, Limited;
    TrustedHosts(s.store, fp);
    CountedFrame(s, s.(services := ss));
    SoftenedLimited(s, s.(services := ss));
  }

  /** A service of the table, or the same one told to stop. */
  ghost predicate Descends(ss: seq<Service>, s: Service)
  {
    exists i | 0 <= i < |ss| :: Softened(ss[i], s)
  }

  ghost predicate AllDescend(ss: seq<Service>, r: seq<Service>)
  {
    forall k | 0 <= k < |r| :: Descends(ss, r[k])
  }

  lemma {:induction false} ReapedIsPart(ss: seq<Service>, now: nat, exited: set<nat>)
    requires forall i, j | 0 <= i < j < |ss| :: ss[i].id != ss[j].id
    ensures var r := Reaped(ss, now, exited);
            && AllDescend(ss, r)
            && (forall i, j | 0 <= i < j < |r| :: r[i].id != r[j].id)
            && forall t :: CountOf(r, t) <= CountOf(ss, t)
  {
    hide CountOf, Descends;
    if ss == [] {
      CountNothing();
    } else {
      var init, last := ss[..|ss| - 1], ss[|ss| - 1];
      assert init + [last] == ss;
      ReapedIsPart(init, now, exited);
      var before, r := Reaped(init, now, exited), Reaped(ss, now, exited);
      assert before + [] == before;
      forall k | 0 <= k < |before|
        ensures Descends(ss, before[k]) && before[k].id != last.id
      {
        DescendsFurther(init, last, before[k]);
      }
      forall t
        ensures CountOf(r, t) <= CountOf(ss, t)
      {
        CountPush(init, last, t);
        if last.id !in exited {
          CountPush(before, r[|before|], t);
        }
      }
      if last.id !in exited {
        LastDescends(ss, r[|before|]);
      }
    }
  }

  lemma CountNothing()
    ensures forall t :: CountOf([], t) == 0
  {
    forall t
      ensures CountOf([], t) == 0
    {
      assert CountOf([], t) == 0;
    }
  }

  lemma DescendsFurther(init: seq<Service>, last: Service, s: Service)
    requires Descends(init, s) && forall i | 0 <= i < |init| :: init[i].id != last.id
    ensures Descends(init + [last], s) && s.id != last.id
  {
    var i :| 0 <= i < |init| && Softened(init[i], s);
    assert Softened((init + [last])[i], s);
  }

  lemma LastDescends(ss: seq<Service>, s: Service)
    requires ss != [] && Softened(ss[|ss| - 1], s)
    ensures Descends(ss, s)
  {
  }

  lemma ReapingKeeps(s: Sup, now: nat, exited: set<nat>, fp: Fingerprinter)
    requires Inv(s, fp)
    ensures Inv(s.(services := Reaped(s.services, now, exited)), fp)
  {
    hide Trusted, Knows, CountOf, Counted, Reaped, Descends;
    ReapedIsPart(s.services, now, exited);
    ReapedNothing(now, exited);
    var r := Reaped(s.services, now, exited);
    forall k | 0 <= k < |r|
      ensures r[k].id < s.spawned && r[k].allowSu == s.store.config.allowShellRoot
      ensures (r[k].root ==> s.store.config.allowAdbRoot) && (!r[k].stopped ==> r[k].transport in s.transports)
    {
      DescendantOf(s, r[k]);
    }
    CountedFrame(s, s.(services := r));
  }

  lemma DescendantOf(s: Sup, c: Service)
    requires Authorised(s) && Privileged(s) && Limited(s) && Descends(s.services, c)
    ensures c.id < s.spawned && c.allowSu == s.store.config.allowShellRoot
    ensures (c.root ==> s.store.config.allowAdbRoot) && (!c.stopped ==> c.transport in s.transports)
  {
    hide Knows, CountOf;
    var i :| 0 <= i < |s.services| && Softened(s.services[i], c);
  }

  lemma ReapedNothing(now: nat, exited: set<nat>)
    ensures Reaped([], now, exited) == []
  {
  }

  lemma TallyPush(es: seq<Event>, e: Event, k: nat)
    ensures Commits(es + [e], k) == Commits(es, k) + if e.Committed? && e.epoch == k then 1 else 0
    ensures Failures(es + [e], k) == Failures(es, k) + if e.Failed? && e.epoch == k then 1 else 0
  {
    assert (es + [e])[..|es|] == es;
  }

  lemma {:induction false} NothingLater(es: seq<Event>, epoch: nat, k: nat)
    requires (forall i | 0 <= i < |es| :: es[i].epoch <= epoch) && k > epoch
    ensures Commits(es, k) == 0 && Failures(es, k) == 0
  {
    if es != [] {
      NothingLater(es[..|es| - 1], epoch, k);
    }
  }

  // ---------------------------------------------------------------------------------------------
  // Stopping and starting

  /** Everything about the counts that does not depend on the window. */
  ghost predicate Tallied(s: Sup)
  {
    && (forall i | 0 <= i < |s.events| :: 0 < s.events[i].epoch <= s.epoch)
    && (forall k :: Commits(s.events, k) <= 1 && Failures(s.events, k) <= MAX_PAIR_FAILURES)
  }

  /** With nobody connected and nothing running, little is left to hold. */
  lemma IdleKeeps(s: Sup, fp: Fingerprinter)
    requires Trusted(s.store, fp) && Tallied(s) && s.failures <= 6
    requires s.worker.None? && s.transports == map[] && s.services == [] && s.window.None?
    requires (s.root ==> s.store.config.allowAdbRoot) && (s.state == Running ==> s.bundle)
    ensures Inv(s, fp)
  {
    TrustedHosts(s.store, fp);
    hide Trusted, Commits, Failures;
  }

  /** Stopping leaves nothing that could violate the settings in force. */
  lemma StopKeeps(s: Sup, state: State, now: nat, fp: Fingerprinter)
    requires Trusted(s.store, fp) && Tallied(s) && s.failures <= 6 && state != Running
    requires s.worker.None? ==> s.transports == map[] && s.services == [] && s.window.None?
    ensures Inv(Stop(s, state, now), fp)
    ensures var t := Stop(s, state, now);
            && t.worker.None? && !t.root && t.transports == map[] && t.services == [] && t.window.None?
            && t.store == s.store && t.epoch == s.epoch && t.events == s.events && !t.bundle
  {
    hide Trusted, Commits, Failures, Inv, Backoff;
    IdleKeeps(Stop(s, state, now), fp);
  }

  lemma StartWorkerKeeps(s: Sup, works: bool, fp: Fingerprinter)
    requires Inv(s, fp) && s.worker.None?
    ensures var t := StartWorker(s, works).0;
            Inv(t, fp) && t.store == s.store && t.epoch == s.epoch && t.events == s.events
    ensures StartWorker(s, works).1 <==> StartWorker(s, works).0.worker.Some?
  {
    hide Trusted, Commits, Failures, CountOf, Knows;
  }

  lemma SendKeeps(s: Sup, m: Message, works: bool, fp: Fingerprinter)
    requires Inv(s, fp)
    ensures Inv(Send(s, m, works).0, fp)
  {
    hide Trusted, Commits, Failures, CountOf, Knows;
  }

  lemma ClosePairingKeeps(s: Sup, works: bool, fp: Fingerprinter)
    requires Inv(s, fp)
    ensures Inv(ClosePairing(s, works), fp)
  {
    hide Trusted, Commits, Failures, CountOf, Knows, Send;
    assert Inv(s.(window := None), fp);
    hide Inv;
    SendKeeps(s.(window := None), PairStop, works, fp);
  }

  lemma NextEpochKeeps(s: Sup, fp: Fingerprinter)
    requires Inv(s, fp) && s.window.None?
    ensures Inv(s.(epoch := s.epoch + 1), fp)
    ensures Commits(s.events, s.epoch + 1) == 0 && Failures(s.events, s.epoch + 1) == 0
  {
    hide Trusted, Commits, Failures, CountOf, Knows;
    NothingLater(s.events, s.epoch, s.epoch + 1);
  }

  lemma NewWindowKeeps(s: Sup, expires: nat, fp: Fingerprinter)
    requires Inv(s, fp) && s.worker.Some? && s.epoch > 0
    requires Commits(s.events, s.epoch) == 0 && Failures(s.events, s.epoch) == 0
    ensures Inv(s.(window := Some(Window(s.epoch, expires, 0))), fp)
  {
    hide Trusted, Commits, Failures, CountOf, Knows;
  }

  lemma OpenPairingKeeps(s: Sup, e: Env, fp: Fingerprinter)
    requires Inv(s, fp)
    ensures Inv(OpenPairing(s, e).0, fp)
  {
    hide Inv, Send, ClosePairing, Commits, Failures;
    var a := ClosePairing(s, e.firstSend);
    ClosePairingKeeps(s, e.firstSend, fp);
    ClosePairingFrame(s, e.firstSend);
    NextEpochKeeps(a, fp);
    var b := a.(epoch := a.epoch + 1);
    var (c, sent) := Send(b, PairStart(a.epoch + 1), e.secondSend);
    SendKeeps(b, PairStart(a.epoch + 1), e.secondSend, fp);
    SendFrame(b, PairStart(a.epoch + 1), e.secondSend);
    if sent {
      NewWindowKeeps(c, e.now + PAIR_SECONDS, fp);
    }
  }

  /** A send changes nothing but the worker's inbox. */
  lemma SendFrame(s: Sup, m: Message, works: bool)
    ensures var (t, sent) := Send(s, m, works);
            && t == s.(worker := t.worker) && (t.worker.Some? <==> s.worker.Some?)
            && (sent <==> s.worker.Some? && works)
            && (s.worker.Some? ==>
                  t.worker.value.child == s.worker.value.child
                  && t.worker.value.inbox == s.worker.value.inbox + if sent then [m] else [])
  {
  }

  lemma ClosePairingFrame(s: Sup, works: bool)
    ensures var t := ClosePairing(s, works);
            && t == s.(worker := t.worker, window := None) && (t.worker.Some? <==> s.worker.Some?)
  {
  }

  // ---------------------------------------------------------------------------------------------
  // Orders

  /** The same supervisor over a changed store, and what must be told apart about the change. */
  ghost predicate Restored(s: Sup, t: Sup, fp: Fingerprinter)
  {
    Inv(s, fp) && t == s.(store := t.store) && Trusted(t.store, fp)
  }

  lemma ReconfiguredKeeps(s: Sup, t: Sup, e: Env, fp: Fingerprinter)
    requires Restored(s, t, fp) && t.store.hosts == s.store.hosts
    ensures Inv(Reconfigured(t, s.store.config, e).0, fp)
  {
    hide Trusted, Commits, Failures, CountOf, Knows, Stop;
    if s.store.config != t.store.config {
      if EndpointChanged(s.store.config, t.store.config) {
        StopKeeps(t, Disabled, e.now, fp);
      } else {
        var a := StopWorker(t).(root := false);
        IdleKeeps(a, fp);
        StartWorkerKeeps(a, e.start, fp);
      }
    }
  }

  /** A store that still knows everyone it knew may take the old one's place. */
  lemma RestoredKeeps(s: Sup, t: Sup, fp: Fingerprinter)
    requires Restored(s, t, fp) && t.store.config == s.store.config
    requires forall f :: Knows(s.store.hosts, f) ==> Knows(t.store.hosts, f)
    ensures Inv(t, fp)
  {
    hide Commits, Failures, CountOf, Knows;
    TrustedHosts(t.store, fp);
  }

  lemma DisconnectKeeps(s: Sup, t: Sup, ts: set<nat>, fp: Fingerprinter)
    requires Restored(s, t, fp) && t.store.config == s.store.config
    requires forall k | k in s.transports && k !in ts :: Knows(t.store.hosts, s.transports[k])
    ensures Inv(Disconnect(t, ts), fp)
  {
    hide CountOf, Knows, Trusted, Counted, StopAll, Authorised, Privileged, Limited;
    var ss := StopAll(s.services, ts);
    var r := Disconnect(t, ts);
    DisconnectAuthorised(s, t, ts);
    CountedFrame(s, r);
    assert Privileged(r) by { SoftenedPrivileged(s, r); }
    assert Limited(r) by {
      TrustedHosts(t.store, fp);
      SmallerMap(s.transports, r.transports);
      SoftenedLimited(s, r);
    }
  }

  lemma DisconnectAuthorised(s: Sup, t: Sup, ts: set<nat>)
    requires Authorised(s) && t == s.(store := t.store)
    requires forall k | k in s.transports && k !in ts :: Knows(t.store.hosts, s.transports[k])
    ensures Authorised(Disconnect(t, ts)) && AllSoftened(s.services, Disconnect(t, ts).services)
  {
    hide Knows;
  }

  lemma SoftenedPrivileged(s: Sup, t: Sup)
    requires Privileged(s) && AllSoftened(s.services, t.services) && t.root == s.root
    requires t.store.config == s.store.config
    ensures Privileged(t)
  {
  }

  lemma SoftenedLimited(s: Sup, t: Sup)
    requires Limited(s) && AllSoftened(s.services, t.services)
    requires |t.transports| <= |s.transports| && |t.store.hosts| <= MAX_HOSTS
    requires t.failures == s.failures && t.spawned == s.spawned && t.worker == s.worker
    ensures Limited(t)
  {
    hide CountOf;
    forall k
      ensures CountOf(t.services, k) == CountOf(s.services, k)
    {
      CountSame(s.services, t.services, k);
    }
  }

  lemma SmallerMap(a: map<nat, string>, b: map<nat, string>)
    requires b.Keys <= a.Keys
    ensures |b| <= |a|
  {
    SmallerSet(b.Keys, a.Keys);
    assert |b| == |b.Keys| && |a| == |a.Keys|;
  }

  lemma {:induction false} SmallerSet(b: set<nat>, a: set<nat>)
    requires b <= a
    ensures |b| <= |a|
  {
    if b != {} {
      var x :| x in b;
      SmallerSet(b - {x}, a - {x});
    }
  }

  lemma RevokedKeeps(s: Sup, t: Sup, f: string, e: Env, fp: Fingerprinter)
    requires Restored(s, t, fp) && t.store.config == s.store.config && t.store.hosts == RevokeHosts(s.store.hosts, f)
    ensures Inv(Revoked(t, f, e).0, fp)
  {
    hide Trusted, Inv, Send, Disconnect, Knows, RevokeHosts;
    RevokingIsExact(s.store.hosts, f);
    var ts := OfHost(s.transports, f);
    assert forall k | k in s.transports :: Knows(s.store.hosts, s.transports[k]) by { InvAuthorised(s, fp); }
    DisconnectKeeps(s, t, ts, fp);
    SendKeeps(Disconnect(t, ts), Hosts(t.store.hosts), e.firstSend, fp);
    DisconnectFrame(t, ts);
  }

  lemma InvAuthorised(s: Sup, fp: Fingerprinter)
    requires Inv(s, fp)
    ensures Authorised(s) && Trusted(s.store, fp)
  {
  }

  lemma DisconnectFrame(s: Sup, ts: set<nat>)
    ensures var t := Disconnect(s, ts);
            t == s.(transports := t.transports, services := t.services) && t.transports.Keys == s.transports.Keys - ts
  {
  }

  lemma OrderKeeps(s: Sup, c: Control, e: Env, fp: Fingerprinter)
    requires Inv(s, fp)
    ensures Inv(Order(s, c, e, fp).0, fp)
  {
    hide Trusted, Alter, Reconfigured, Revoked, OpenPairing, ClosePairing, Stop, RevokeHosts, Knows;
    InvAuthorised(s, fp);
    match c
    case Status =>
    case Logs =>
    case StartPairing => OpenPairingKeeps(s, e, fp);
    case StopPairing => ClosePairingKeeps(s, e.firstSend, fp);
    case Configure(config) =>
      var (store, r) := Alter(s.store, Change.Configure(config), e.temp, e.backup, fp);
      AlterEffects(s.store, Change.Configure(config), e.temp, e.backup, fp);
      if r != StoreResult.Done {
        RestoredKeeps(s, s.(store := store), fp);
      } else {
        ReconfiguredKeeps(s, s.(store := store), e, fp);
      }
    case Revoke(f) =>
      var (store, r) := Alter(s.store, Change.Revoke(f), e.temp, e.backup, fp);
      AlterEffects(s.store, Change.Revoke(f), e.temp, e.backup, fp);
      if r != StoreResult.Done {
        RestoredKeeps(s, s.(store := store), fp);
      } else {
        RevokedKeeps(s, s.(store := store), f, e, fp);
      }
    case Quit => StopKeeps(s.(quit := true), Disabled, e.now, fp);
  }

  // ---------------------------------------------------------------------------------------------
  // Requests

  lemma AdmitKeeps(s: Sup, t: nat, f: string, e: Env, fp: Fingerprinter)
    requires Inv(s, fp) && s.worker.Some?
    ensures Inv(Admit(s, t, f, e, fp).0, fp)
  {
    hide Trusted, Alter, Knows, ConnectHosts, CountOf, Commits, Failures;
    InvAuthorised(s, fp);
    if |s.transports| < MAX_TRANSPORTS && t !in s.transports {
      var (store, r) := Alter(s.store, Change.Connected(f, e.wall), e.temp, e.backup, fp);
      AlterEffects(s.store, Change.Connected(f, e.wall), e.temp, e.backup, fp);
      var a := s.(store := store);
      if r == StoreResult.Done {
        forall g
          ensures Knows(store.hosts, g) <==> Knows(s.store.hosts, g)
          ensures Knows(s.store.hosts, f)
        {
          ConnectKnows(s.store.hosts, f, e.wall, g);
        }
        assert Knows(store.hosts, f);
      }
      RestoredKeeps(s, a, fp);
      assert |s.transports[t := f]| == |s.transports| + 1;
    }
  }

  /** What `spawn_service` leaves: nothing new, or one service under the next number. */
  lemma LaunchShape(s: Sup, t: nat, name: string, bind: bool, e: Env)
    ensures var (u, answer) := Launch(s, t, name, bind, e);
            var c := Service(s.spawned, t, s.root, s.store.config.allowShellRoot, None, false, None);
            var d := if !bind then c else if e.bound.None? then Stopped(c) else c.(binder := e.bound);
            || (u == s && answer == Rejected)
            || (&& t in s.transports && CountOf(s.services, t) < MAX_SERVICES
                && u == s.(spawned := s.spawned + 1, services := s.services + [d])
                && answer == if !bind then Process(c.id) else if e.bound.None? then Rejected else Bound(e.bound.value))
  {
    hide CountOf, Utf8Length;
  }

  lemma LaunchKeeps(s: Sup, t: nat, name: string, bind: bool, e: Env, fp: Fingerprinter)
    requires Inv(s, fp) && s.worker.Some?
    ensures Inv(Launch(s, t, name, bind, e).0, fp)
  {
    hide Inv, CountOf, Launch;
    LaunchShape(s, t, name, bind, e);
    var r := Launch(s, t, name, bind, e).0;
    if r != s {
      AddedKeeps(s, r, r.services[|s.services|], fp);
    }
  }

  /** A service is added under the next number for a transport with room, with the privileges in force. */
  lemma AddedKeeps(s: Sup, r: Sup, added: Service, fp: Fingerprinter)
    requires Inv(s, fp) && s.worker.Some?
    requires r == s.(spawned := s.spawned + 1, services := s.services + [added])
    requires added.id == s.spawned && added.transport in s.transports
    requires added.root == s.root && added.allowSu == s.store.config.allowShellRoot
    requires CountOf(s.services, added.transport) < MAX_SERVICES
    ensures Inv(r, fp)
  {
    hide Trusted, Knows, CountOf, Counted, Limited;
    AddedLimited(s, r, added);
    CountedFrame(s, r);
  }

  lemma AddedLimited(s: Sup, r: Sup, added: Service)
    requires Limited(s)
    requires r == s.(spawned := s.spawned + 1, services := s.services + [added])
    requires added.id == s.spawned && CountOf(s.services, added.transport) < MAX_SERVICES
    ensures Limited(r)
  {
    hide CountOf;
    forall k
      ensures CountOf(r.services, k) <= MAX_SERVICES
    {
      CountPush(s.services, added, k);
    }
  }

  lemma PairedKeeps(s: Sup, key: string, e: Env, fp: Fingerprinter)
    requires Inv(s, fp) && s.window.Some?
    ensures Inv(Paired(s, key, e, fp).0, fp)
  {
    hide Trusted, Alter, Knows, PairHosts, CountOf, Commits, Failures, HostKey, Send;
    InvAuthorised(s, fp);
    var (store, r) := Alter(s.store, Change.Pair(key, e.wall), e.temp, e.backup, fp);
    AlterEffects(s.store, Change.Pair(key, e.wall), e.temp, e.backup, fp);
    TrustedHosts(s.store, fp);
    PairingIsSound(s.store.hosts, key, e.wall, fp);
    var a := s.(store := store);
    RestoredKeeps(s, a, fp);
    if r == StoreResult.Done {
      var f := match HostKey(key, fp) case Some(k) => k.0 case None => "";
      var event := Committed(s.window.value.epoch, f);
      forall k
        ensures Commits(s.events + [event], k) <= 1
        ensures Failures(s.events + [event], k) <= MAX_PAIR_FAILURES
      {
        TallyPush(s.events, event, k);
      }
      var b := a.(window := None, events := s.events + [event]);
      assert Inv(b, fp);
      SendKeeps(b, PairCommitted, e.firstSend, fp);
      var c := Send(b, PairCommitted, e.firstSend).0;
      SendKeeps(c, Hosts(c.store.hosts), e.secondSend, fp);
    }
  }

  lemma PairingFailedKeeps(s: Sup, e: Env, fp: Fingerprinter)
    requires Inv(s, fp) && s.window.Some?
    ensures Inv(PairingFailed(s, e), fp)
  {
    hide Inv, Counted, Send;
    assert Counted(s) by { InvCounted(s, fp); }
    var w := s.window.value.(failures := s.window.value.failures + 1);
    var es := s.events + [Failed(w.epoch)];
    var open, shut := s.(window := Some(w), events := es), s.(window := None, events := es);
    FailureCounted(s, es);
    TalliesKeep(s, shut, fp);
    ClosePairingKeeps(shut, e.firstSend, fp);
    assert ClosePairing(shut, e.firstSend) == ClosePairing(open, e.firstSend);
    if w.failures < MAX_PAIR_FAILURES {
      TalliesKeep(s, open, fp);
    }
  }

  lemma InvCounted(s: Sup, fp: Fingerprinter)
    requires Inv(s, fp)
    ensures Counted(s)
  {
  }

  /** One more failure in the open window. */
  lemma FailureCounted(s: Sup, es: seq<Event>)
    requires Counted(s) && s.window.Some? && es == s.events + [Failed(s.window.value.epoch)]
    ensures Counted(s.(window := None, events := es))
    ensures var w := s.window.value.(failures := s.window.value.failures + 1);
            w.failures < MAX_PAIR_FAILURES ==> Counted(s.(window := Some(w), events := es))
  {
    hide Commits, Failures;
    forall k
      ensures Commits(es, k) == Commits(s.events, k)
      ensures Failures(es, k) == Failures(s.events, k) + if k == s.epoch then 1 else 0
    {
      TallyPush(s.events, Failed(s.window.value.epoch), k);
    }
  }

  /** Only the window and the history change, and the counts still agree. */
  lemma TalliesKeep(s: Sup, t: Sup, fp: Fingerprinter)
    requires Inv(s, fp) && t == s.(window := t.window, events := t.events) && Counted(t)
    requires t.window.Some? ==> s.window.Some?
    ensures Inv(t, fp)
  {
    hide Trusted, Knows, Counted, CountOf;
  }

  lemma ServeKeeps(s: Sup, r: Request, e: Env, fp: Fingerprinter)
    requires Inv(s, fp) && s.worker.Some?
    ensures Inv(Serve(s, r, e, fp).0, fp)
  {
    hide Inv, Admit, Disconnect, Launch, SwitchRoot, Paired, PairingFailed;
    match r
    case Authenticated(t, f) => AdmitKeeps(s, t, f, e, fp);
    case Disconnected(t) =>
      InvAuthorised(s, fp);
      assert s == s.(store := s.store);
      DisconnectKeeps(s, s, {t}, fp);
    case Spawn(t, name) => LaunchKeeps(s, t, name, false, e, fp);
    case CloseService(t, id) => SoftenedKeeps(s, CloseSoon(s.services, t, id, e.now + CLOSE_DELAY), fp);
    case BindReverse(t, spec) => LaunchKeeps(s, t, spec, true, e, fp);
    case CloseReverse(t, spec) => SoftenedKeeps(s, StopBinder(s.services, t, spec), fp);
    case Root(t, enable) => SwitchRootKeeps(s, t, enable, e, fp);
    case PairResult(epoch, key) =>
      if WindowFits(s.window, epoch, e.now) {
        if key.Some? {
          PairedKeeps(s, key.value, e, fp);
        } else {
          PairingFailedKeeps(s, e, fp);
        }
      }
  }

  lemma SwitchRootKeeps(s: Sup, t: nat, enable: bool, e: Env, fp: Fingerprinter)
    requires Inv(s, fp)
    ensures Inv(SwitchRoot(s, t, enable, e).0, fp)
  {
    hide Trusted, Knows, CountOf, Commits, Failures;
  }

  // ---------------------------------------------------------------------------------------------
  // Steps and runs

  lemma HearKeeps(s: Sup, m: Message, e: Env, replied: bool, fp: Fingerprinter)
    requires Inv(s, fp) && s.worker.Some?
    ensures Inv(Hear(s, m, e, replied, fp), fp)
  {
    hide Trusted, Knows, CountOf, Commits, Failures, Serve, Send, Stop;
    if m.Ready? {
    } else if m.Call? {
      var (a, answer) := Serve(s, m.request, e, fp);
      ServeKeeps(s, m.request, e, fp);
      SendKeeps(a, Reply(m.id, answer), replied, fp);
    } else {
      StopKeeps(s, Error, e.now, fp);
    }
  }

  lemma RotateKeeps(s: Sup, e: Env, fp: Fingerprinter)
    requires Inv(s, fp)
    ensures Inv(Rotate(s, e), fp)
  {
    hide Trusted, Knows, CountOf, Commits, Failures, StartWorker, Stop;
    var a := StopWorker(s.(rotate := None));
    IdleKeeps(a, fp);
    StartWorkerKeeps(a, e.start, fp);
    StopKeeps(StartWorker(a, e.start).0, Error, e.now, fp);
  }

  lemma RestartKeeps(s: Sup, e: Env, fp: Fingerprinter)
    requires Inv(s, fp)
    ensures Inv(Restart(s, e), fp)
  {
    hide Trusted, Knows, CountOf, Commits, Failures, StartWorker, Stop;
    StopKeeps(s, Starting, e.now, fp);
    var a := Stop(s, Starting, e.now);
    StopKeeps(a, Error, e.now, fp);
    IdleKeeps(a.(bundle := true), fp);
    StartWorkerKeeps(a.(bundle := true), e.start, fp);
    StopKeeps(StartWorker(a.(bundle := true), e.start).0, Error, e.now, fp);
  }

  lemma StepKeeps(s: Sup, t: Step, fp: Fingerprinter)
    requires Inv(s, fp) && Enabled(s, t)
    ensures Inv(Advance(s, t, fp), fp)
  {
    hide Inv, Order, Hear, Expire, Rotate, Restart, Stop, Reaped;
    match t
    case Ordered(c, e) => OrderKeeps(s, c, e, fp);
    case Heard(m, e, replied) => HearKeeps(s, m, e, replied, fp);
    case Hangup(e) => StopStepKeeps(s, Error, e.now, fp);
    case Expiry(e) => ExpireKeeps(s, e, fp);
    case Rotation(e) => RotateKeeps(s, e, fp);
    case Reaping(now, exited) => ReapingKeeps(s, now, exited, fp);
    case Pausing(state, now) => StopStepKeeps(s, state, now, fp);
    case Restarting(e) => RestartKeeps(s, e, fp);
  }

  lemma StopStepKeeps(s: Sup, state: State, now: nat, fp: Fingerprinter)
    requires Inv(s, fp) && state != Running
    ensures Inv(Stop(s, state, now), fp)
  {
    hide Trusted, Knows, CountOf, Commits, Failures, Stop;
    StopKeeps(s, state, now, fp);
  }

  lemma ExpireKeeps(s: Sup, e: Env, fp: Fingerprinter)
    requires Inv(s, fp)
    ensures Inv(Expire(s, e), fp)
  {
    hide Inv, ClosePairing;
    ClosePairingKeeps(s, e.firstSend, fp);
  }
}
