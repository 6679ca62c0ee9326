/** The monitor of the native debugging settings and its two-minute grace. Times are milliseconds. */
module Monitor {
  import opened Wrappers

  const GRACE := 120_000
  const FRESH := 6_000
  const CHECKING := "Checking native debugging settings and processes"
  const STALE := "Native debugging check is stale; service paused"
  const UNREADABLE := "Cannot read native debugging settings or processes; service paused: "

  /** What a look at processes or settings yields: a reason to pause, none, or an error. */
  type Look = Result<Option<string>, string>

  datatype NativeState = Clear | Paused(reason: string) | Grace

  /** One check: what was seen, when it was judged, and when the judgement was published. */
  datatype Check = Check(processes: Look, settings: Look, now: nat, published: nat)

  /** Only the settings could not be read; the processes were seen and give no reason to pause. */
  predicate OnlySettingsFail(c: Check)
  {
    c.processes == Ok(None) && c.settings.Err?
  }

  /** Both were read and neither gives a reason to pause. */
  predicate AllClear(c: Check)
  {
    c.processes == Ok(None) && c.settings == Ok(None)
  }

  /** The reason a check pauses for when there is no grace. */
  function PauseReason(c: Check): string
  {
    match c.processes
    case Err(e) => UNREADABLE + e
    case Ok(Some(reason)) => reason
    case Ok(None) =>
      match c.settings
      case Err(e) => UNREADABLE + e
      case Ok(Some(reason)) => reason
      case Ok(None) => ""
  }

  /** The judgement of a check after the last clear one, and the last clear one after it. */
  function Judge(lastClear: Option<nat>, c: Check): (Option<nat>, NativeState)
  {
    if AllClear(c) then (Some(c.now), Clear)
    else if OnlySettingsFail(c) && lastClear.Some? && c.now - lastClear.value < GRACE then (lastClear, Grace)
    else (None, Paused(PauseReason(c)))
  }

  // ---------------------------------------------------------------------------------------------
  // Runs

  /** Checks one after the other. */
  ghost predicate Ordered(cs: seq<Check>)
  {
    && (forall i | 0 <= i < |cs| :: cs[i].now <= cs[i].published)
    && forall i, j | 0 <= i < j < |cs| :: cs[i].published <= cs[j].now
  }

  /** The last clear time after some checks. */
  function LastClear(cs: seq<Check>): Option<nat>
  {
    if cs == [] then None else Judge(LastClear(cs[..|cs| - 1]), cs[|cs| - 1]).0
  }

  /** The judgement of the i-th check. */
  function StateAt(cs: seq<Check>, i: nat): NativeState
    requires i < |cs|
  {
    Judge(LastClear(cs[..i]), cs[i]).1
  }

  /** Check `j` was clear, and from there up to `n` there was only grace. */
  ghost predicate GraceSince(cs: seq<Check>, j: nat, n: nat)
  {
    && j < n <= |cs| && StateAt(cs, j) == Clear
    && forall m | j < m < n :: StateAt(cs, m) == Grace
  }

  /** What one more check does to the remembered time. */
  lemma LastClearNext(cs: seq<Check>, n: nat)
    requires n < |cs|
    ensures LastClear(cs[..n + 1]) ==
            match StateAt(cs, n)
            case Clear => Some(cs[n].now)
            case Grace => LastClear(cs[..n])
            case Paused(_) => None
  {
    assert cs[..n + 1][..n] == cs[..n];
  }

  lemma GraceSinceNext(cs: seq<Check>, j: nat, n: nat)
    requires n < |cs|
    ensures GraceSince(cs, j, n + 1) <==>
            (j == n && StateAt(cs, n) == Clear) || (GraceSince(cs, j, n) && StateAt(cs, n) == Grace)
  {
    hide StateAt;
  }

  /** The remembered time is that of the one clear check since which there was only grace; nothing is remembered
      when there is no such check. */
  lemma {:induction false} RememberedIsLastClear(cs: seq<Check>, n: nat)
    requires n <= |cs|
    ensures LastClear(cs[..n]).Some? ==> exists j: nat :: GraceSince(cs, j, n) && cs[j].now == LastClear(cs[..n]).value
    ensures forall j: nat | GraceSince(cs, j, n) :: LastClear(cs[..n]) == Some(cs[j].now)
  {
    hide StateAt, LastClear, GraceSince;
    if n == 0 {
      NothingChecked(cs);
    } else {
      var m := n - 1;
      RememberedIsLastClear(cs, m);
      LastClearNext(cs, m);
      forall j: nat
        ensures GraceSince(cs, j, n) <==>
                (j == m && StateAt(cs, m) == Clear) || (GraceSince(cs, j, m) && StateAt(cs, m) == Grace)
      {
        GraceSinceNext(cs, j, m);
      }
      if StateAt(cs, m) == Clear {
        assert GraceSince(cs, m, n);
      }
    }
  }

  lemma NothingChecked(cs: seq<Check>)
    ensures LastClear(cs[..0]) == None && forall j: nat :: !GraceSince(cs, j, 0)
  {
  }

  /** Grace is given exactly to a check in which only the settings fail and which comes less than two minutes after
      a clear check with only grace in between. Grace does not extend itself. */
  lemma GraceExactlyWhen(cs: seq<Check>, i: nat)
    requires Ordered(cs) && i < |cs|
    ensures StateAt(cs, i) == Grace <==>
            && OnlySettingsFail(cs[i])
            && exists j: nat :: GraceSince(cs, j, i) && cs[i].now - cs[j].now < 120_000
  {
    RememberedIsLastClear(cs, i);
    if StateAt(cs, i) == Grace {
      var j: nat :| GraceSince(cs, j, i) && cs[j].now == LastClear(cs[..i]).value;
    }
  }

  /** Nothing pauses the service unless something was seen or could not be read, and any reason seen does. */
  lemma PausedExactlyWhen(cs: seq<Check>, i: nat)
    requires Ordered(cs) && i < |cs|
    ensures StateAt(cs, i) == Clear <==> AllClear(cs[i])
    ensures cs[i].processes.Err? ==> StateAt(cs, i).Paused?
    ensures cs[i].processes.Ok? && cs[i].processes.value.Some? ==> StateAt(cs, i).Paused?
    ensures cs[i].settings.Ok? && cs[i].settings.value.Some? ==> StateAt(cs, i).Paused?
  {
    hide LastClear;
  }

  // ---------------------------------------------------------------------------------------------
  // The monitor

  datatype Snapshot = Snapshot(checkedAt: nat, state: NativeState)

  /** What the supervisor is told: a reason to stop, and whether to wait without starting anything. */
  function Verdict(s: Option<Snapshot>, running: bool, now: nat): (Option<string>, bool)
  {
    match s
    case None => (Some(CHECKING), false)
    case Some(latest) =>
      if now - latest.checkedAt > FRESH then (Some(STALE), false)
      else
        match latest.state
        case Clear => (None, false)
        case Paused(reason) => (Some(reason), false)
        case Grace => if running then (None, true) else (Some(CHECKING), false)
  }

  /** The snapshot after some checks. */
  function Latest(cs: seq<Check>): Option<Snapshot>
  {
    if cs == [] then None else Some(Snapshot(cs[|cs| - 1].published, StateAt(cs, |cs| - 1)))
  }

  /** Starting is allowed exactly on a fresh clear check, and keeping a running service exactly on a fresh clear
      check or fresh grace. */
  lemma StatusExactlyWhen(cs: seq<Check>, running: bool, now: nat)
    requires Ordered(cs) && (cs != [] ==> cs[|cs| - 1].published <= now)
    ensures var recent := cs != [] && now - cs[|cs| - 1].published <= 6_000;
            var v := Verdict(Latest(cs), running, now);
            && (v == (None, false) <==> recent && AllClear(cs[|cs| - 1]))
            && (v == (None, true) <==> recent && running && StateAt(cs, |cs| - 1) == Grace)
            && (v.0.Some? ==> !v.1)
  {
    hide LastClear;
  }

  /** A service is never kept longer than the grace after the last clear check, plus the age of the verdict. */
  lemma KeptServiceWasClearRecently(cs: seq<Check>, running: bool, now: nat)
    requires Ordered(cs) && (cs != [] ==> cs[|cs| - 1].published <= now)
    requires Verdict(Latest(cs), running, now).0.None?
    ensures cs != []
    ensures var last := cs[|cs| - 1];
            exists j: nat | j < |cs| ::
              && AllClear(cs[j]) && now - cs[j].now < GRACE + FRESH + (last.published - last.now)
              && forall m | j < m < |cs| :: OnlySettingsFail(cs[m])
  {
    StatusExactlyWhen(cs, running, now);
    var n := |cs| - 1;
    if AllClear(cs[n]) {
    } else {
      GraceExactlyWhen(cs, n);
      var j: nat :| GraceSince(cs, j, n) && cs[n].now - cs[j].now < GRACE;
      PausedExactlyWhen(cs, j);
      forall m | j < m < |cs|
        ensures OnlySettingsFail(cs[m])
      {
        GraceExactlyWhen(cs, m);
      }
    }
    hide LastClear;
  }

  /** A pause says what was seen, or what could not be read; what was seen of the processes comes first. */
  lemma PauseSaysWhy(cs: seq<Check>, i: nat)
    requires i < |cs| && StateAt(cs, i).Paused?
    ensures var c := cs[i];
            var decisive := if c.processes == Ok(None) then c.settings else c.processes;
            && decisive != Ok(None)
            && StateAt(cs, i).reason ==
               if decisive.Ok? then decisive.value.value
               else "Cannot read native debugging settings or processes; service paused: " + decisive.error
  {
    hide LastClear;
  }

  /** The reason the supervisor is given, if it is given one: nothing known yet, nothing known lately, what the last
      check saw, or grace without a service to keep. */
  lemma StatusSaysWhy(cs: seq<Check>, running: bool, now: nat)
    requires Ordered(cs) && (cs != [] ==> cs[|cs| - 1].published <= now)
    requires Verdict(Latest(cs), running, now).0.Some?
    ensures var reason := Verdict(Latest(cs), running, now).0.value;
            var n := |cs| - 1;
            if cs == [] then reason == "Checking native debugging settings and processes"
            else if now > cs[n].published + 6_000 then reason == "Native debugging check is stale; service paused"
            else if StateAt(cs, n).Paused? then reason == StateAt(cs, n).reason
            else StateAt(cs, n) == Grace && !running && reason == "Checking native debugging settings and processes"
  {
    hide LastClear, Judge;
  }

  class NativeMonitor {
    var lastClear: Option<nat>
    var snapshot: Option<Snapshot>
    ghost var checks: seq<Check>

    /** The fields hold what the checks made so far leave. */
    ghost predicate Valid()
      reads this
    {
      lastClear == LastClear(checks) && snapshot == Latest(checks)
    }

    constructor ()
      ensures Valid() && checks == []
    {
      lastClear, snapshot, checks := None, None, [];
    }

    /** `native_state`. */
    method Assess(c: Check) returns (state: NativeState)
      modifies this`lastClear
      ensures (lastClear, state) == Judge(old(lastClear), c)
    {
      var settingsFailed := c.processes == Ok(None) && c.settings.Err?;
      var seen := if c.processes == Ok(None) then c.settings else c.processes;
      if seen == Ok(None) {
        lastClear := Some(c.now);
        return Clear;
      }
      if seen.Ok? {
        lastClear := None;
        return Paused(seen.value.value);
      }
      if settingsFailed && lastClear.Some? && c.now - lastClear.value < GRACE {
        return Grace;
      }
      lastClear := None;
      state := Paused(UNREADABLE + seen.error);
    }

    /** One turn of the monitor thread. */
    method Turn(c: Check)
      requires Valid()
      modifies this
      ensures Valid() && checks == old(checks) + [c]
    {
      var state := Assess(c);
      snapshot := Some(Snapshot(c.published, state));
      checks := checks + [c];
      assert checks[..|checks| - 1] == old(checks);
    }

    /** `NativeMonitor::status`. */
    method Status(running: bool, now: nat) returns (reason: Option<string>, waiting: bool)
      ensures (reason, waiting) == Verdict(snapshot, running, now)
    {
      if snapshot.None? {
        return Some(CHECKING), false;
      }
      var s := snapshot.value;
      if now - s.checkedAt > FRESH {
        return Some(STALE), false;
      }
      match s.state {
        case Clear => reason, waiting := None, false;
        case Paused(r) => reason, waiting := Some(r), false;
        case Grace =>
          reason := if running then None else Some(CHECKING);
          waiting := running;
      }
    }
  }
}
