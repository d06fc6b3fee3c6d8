/** The Steam process controller (core/steam_manager.py): finding Steam's processes, the
    two-phase terminate-then-kill, waiting for closure with capped exponential backoff, and the
    composite shutdown decision. */
module Steam {
  import opened Common
  import opened Host
  import Constants

  // ---------------------------------------------------------------- finding Steam's processes

  /** The per-process exceptions that are skipped: `NoSuchProcess` (with its subclass
      `ZombieProcess`) and `AccessDenied`. Any other exception propagates. */
  predicate Tolerated(e: ProcError)
  {
    !e.OtherProcError?
  }

  function LowerAll(names: seq<string>): (r: seq<string>)
    ensures |r| == |names| && forall i :: 0 <= i < |names| ==> r[i] == Lower(names[i])
  {
    seq(|names|, i requires 0 <= i < |names| => Lower(names[i]))
  }

  /** A process name matches when its lower-cased form is one of the lower-cased Steam names. */
  predicate IsSteamName(name: string)
  {
    Lower(name) in LowerAll(Constants.SteamProcesses)
  }

  /** The process is kept by the enumeration. */
  predicate Keeps(p: Proc)
  {
    p.name.Name? && IsSteamName(p.name.name)
  }

  /** Reading the process's name raises an exception that is not skipped. */
  predicate Escapes(p: Proc)
  {
    p.name.NameRaises? && !Tolerated(p.name.error)
  }

  /** `_get_steam_processes` over one snapshot: the Steam processes in iteration order, or the
      message of the first exception that escapes the loop. */
  function SteamProcessesOf(scan: Scan): Result<seq<Proc>, string>
  {
    if scan == [] then Ok([])
    else if Escapes(scan[0]) then Err(scan[0].name.error.message)
    else Then(if Keeps(scan[0]) then [scan[0]] else [], SteamProcessesOf(scan[1..]))
  }

  /** `found` followed by what a later part of the loop finds, unless that part raised. */
  function Then(found: seq<Proc>, r: Result<seq<Proc>, string>): Result<seq<Proc>, string>
  {
    match r
    case Ok(rest) => Ok(found + rest)
    case Err(e) => Err(e)
  }

  lemma ThenEmpty(r: Result<seq<Proc>, string>)
    ensures Then([], r) == r
  {
    if r.Ok? { assert [] + r.value == r.value; }
  }

  lemma ThenThen(a: seq<Proc>, b: seq<Proc>, r: Result<seq<Proc>, string>)
    ensures Then(a, Then(b, r)) == Then(a + b, r)
  {
    if r.Ok? { assert a + (b + r.value) == (a + b) + r.value; }
  }

  /** The enumeration fails exactly when some name read raises an exception that is not
      skipped, and then it reports the first such exception. */
  lemma {:induction false} SteamProcessesFailure(scan: Scan)
    ensures SteamProcessesOf(scan).Ok? <==> forall i :: 0 <= i < |scan| ==> !Escapes(scan[i])
    ensures SteamProcessesOf(scan).Err? ==>
              exists i :: 0 <= i < |scan| && Escapes(scan[i])
                          && SteamProcessesOf(scan).error == scan[i].name.error.message
                          && forall j :: 0 <= j < i ==> !Escapes(scan[j])
  {
    if scan != [] && !Escapes(scan[0]) {
      SteamProcessesFailure(scan[1..]);
      var r := SteamProcessesOf(scan[1..]);
      if r.Err? {
        var i :| 0 <= i < |scan[1..]| && Escapes(scan[1..][i]) && r.error == scan[1..][i].name.error.message
                 && forall j :: 0 <= j < i ==> !Escapes(scan[1..][j]);
        assert Escapes(scan[i + 1]);
        forall j | 0 <= j < i + 1
          ensures !Escapes(scan[j])
        {
          if j > 0 { assert scan[j] == scan[1..][j - 1]; }
        }
      } else {
        forall i | 0 <= i < |scan|
          ensures !Escapes(scan[i])
        {
          if i > 0 { assert scan[i] == scan[1..][i - 1]; }
        }
      }
    }
  }

  /** The enumeration keeps exactly the Steam processes: each one as often as it occurs in the
      snapshot, and no other process. */
  lemma {:induction false} SteamProcessesExact(scan: Scan)
    requires SteamProcessesOf(scan).Ok?
    ensures forall p :: multiset(SteamProcessesOf(scan).value)[p] == if Keeps(p) then multiset(scan)[p] else 0
  {
    if scan != [] {
      SteamProcessesExact(scan[1..]);
      assert scan == [scan[0]] + scan[1..];
    }
  }

  /** The enumeration of two consecutive stretches of the table is the enumeration of the first
      followed by that of the second: it keeps iteration order, and stops at the first
      exception. */
  lemma {:induction false} SteamProcessesConcat(a: Scan, b: Scan)
    ensures SteamProcessesOf(a + b) ==
              match SteamProcessesOf(a)
              case Err(e) => Err(e)
              case Ok(found) => Then(found, SteamProcessesOf(b))
  {
    if a == [] {
      assert a + b == b;
      match SteamProcessesOf(b)
      case Ok(x) => assert [] + x == x;
      case Err(_) =>
    } else {
      assert (a + b)[0] == a[0];
      assert (a + b)[1..] == a[1..] + b;
      SteamProcessesConcat(a[1..], b);
      if !Escapes(a[0]) {
        var keep := if Keeps(a[0]) then [a[0]] else [];
        match SteamProcessesOf(a[1..])
        case Err(e) =>
        case Ok(found) => ThenThen(keep, found, SteamProcessesOf(b));
      }
    }
  }

  /** `is_running` over one snapshot: at least one Steam process, and no exception. */
  predicate RunningIn(scan: Scan)
  {
    var r := SteamProcessesOf(scan);
    r.Ok? && |r.value| > 0
  }

  /** Steam counts as running exactly when the snapshot lists a Steam process and no name read
      raises an exception that is not skipped (such an exception makes `is_running` false). */
  lemma RunningInIff(scan: Scan)
    ensures RunningIn(scan) <==>
              (forall i :: 0 <= i < |scan| ==> !Escapes(scan[i]))
              && exists i :: 0 <= i < |scan| && Keeps(scan[i])
  {
    SteamProcessesFailure(scan);
    var r := SteamProcessesOf(scan);
    if r.Ok? {
      SteamProcessesExact(scan);
      if |r.value| > 0 {
        var p := r.value[0];
        assert multiset(r.value)[p] > 0;
        assert p in multiset(scan);
        var i :| 0 <= i < |scan| && scan[i] == p;
        assert Keeps(scan[i]);
      }
      if i :| 0 <= i < |scan| && Keeps(scan[i]) {
        assert multiset(scan)[scan[i]] > 0;
        assert multiset(r.value)[scan[i]] > 0;
      }
    }
  }

  // ---------------------------------------------------------------- terminate, then kill

  function OutcomeOf(p: Proc, kind: SignalKind): SignalOutcome
  {
    if kind == Terminate then p.onTerminate else p.onKill
  }

  /** Sending the signal raised an exception other than `NoSuchProcess` or `AccessDenied`. */
  predicate Fatal(o: SignalOutcome)
  {
    o.SignalRaises? && !Tolerated(o.error)
  }

  /** No signal of one phase raised an unexpected exception. */
  predicate PhaseOk(ps: seq<Proc>, kind: SignalKind)
  {
    forall i :: 0 <= i < |ps| ==> !Fatal(OutcomeOf(ps[i], kind))
  }

  /** The signals one phase sends: one per process, in order. */
  function SignalsTo(ps: seq<Proc>, kind: SignalKind): (r: seq<Signal>)
    ensures |r| == |ps| && forall i :: 0 <= i < |ps| ==> r[i] == Signal(kind, ps[i].pid)
  {
    seq(|ps|, i requires 0 <= i < |ps| => Signal(kind, ps[i].pid))
  }

  lemma SignalsToSnoc(ps: seq<Proc>, i: nat, kind: SignalKind)
    requires i < |ps|
    ensures SignalsTo(ps[..i + 1], kind) == SignalsTo(ps[..i], kind) + [Signal(kind, ps[i].pid)]
  {
  }

  /** The value `kill_processes` returns, given the snapshot it terminates from and the fresh
      snapshot it kills from: the exception of either enumeration, `true` when nothing matched,
      and otherwise whether every signal of both phases was delivered or only raised a
      tolerated exception. */
  function KillVerdict(first: Scan, second: Scan): Result<bool, string>
  {
    match SteamProcessesOf(first)
    case Err(e) => Err(e)
    case Ok(targets) =>
      if targets == [] then Ok(true)
      else
        match SteamProcessesOf(second)
        case Err(e) => Err(e)
        case Ok(remaining) => Ok(PhaseOk(targets, Terminate) && PhaseOk(remaining, Kill))
  }

  /** The verdict reports only unexpected exceptions: when every signal is delivered it is
      `true`, however many processes the second snapshot still lists. */
  lemma KillVerdictIgnoresSurvivors(first: Scan, second: Scan)
    requires SteamProcessesOf(first).Ok? && SteamProcessesOf(second).Ok?
    requires forall i :: 0 <= i < |first| ==> first[i].onTerminate == Delivered
    requires forall i :: 0 <= i < |second| ==> second[i].onKill == Delivered
    ensures KillVerdict(first, second) == Ok(true)
  {
    var targets := SteamProcessesOf(first).value;
    var remaining := SteamProcessesOf(second).value;
    SteamProcessesExact(first);
    SteamProcessesExact(second);
    forall i | 0 <= i < |targets|
      ensures !Fatal(OutcomeOf(targets[i], Terminate))
    {
      assert multiset(targets)[targets[i]] > 0;
      assert targets[i] in multiset(first);
    }
    forall i | 0 <= i < |remaining|
      ensures !Fatal(OutcomeOf(remaining[i], Kill))
    {
      assert multiset(remaining)[remaining[i]] > 0;
      assert remaining[i] in multiset(second);
    }
  }

  // ---------------------------------------------------------------- backoff

  function Min(a: real, b: real): real
  {
    if a <= b then a else b
  }

  /** The k-th sleep of `wait_for_closure`: 0.5 s, then 1.5 times the previous one, at most 3 s. */
  function Interval(k: nat): (w: real)
    ensures 0.5 <= w <= 3.0
  {
    if k == 0 then 0.5 else Min(Interval(k - 1) * 1.5, 3.0)
  }

  /** The time waited after k sleeps. */
  function Elapsed(k: nat): (t: real)
    ensures t >= 0.5 * k as real
  {
    if k == 0 then 0.0 else Elapsed(k - 1) + Interval(k - 1)
  }

  /** The schedule is 0.5, 0.75, 1.125, 1.6875, 2.53125, and 3 from the sixth sleep on. */
  lemma {:induction false} IntervalSchedule(k: nat)
    ensures Interval(0) == 0.5 && Interval(1) == 0.75 && Interval(2) == 1.125
    ensures Interval(3) == 1.6875 && Interval(4) == 2.53125
    ensures k >= 5 ==> Interval(k) == 3.0
  {
    if k > 5 {
      IntervalSchedule(k - 1);
    }
  }

  /** After the first five sleeps (6.59375 s in all) every further sleep adds 3 s. */
  lemma {:induction false} ElapsedClosedForm(k: nat)
    requires k >= 5
    ensures Elapsed(k) == 6.59375 + 3.0 * (k - 5) as real
  {
    IntervalSchedule(k);
    if k > 5 {
      ElapsedClosedForm(k - 1);
      IntervalSchedule(k - 1);
    }
  }

  /** When the wait gives up, it has overshot its limit by less than one capped interval. */
  lemma WaitOvershoot(limit: int, n: nat)
    requires n > 0 && Elapsed(n - 1) < limit as real <= Elapsed(n)
    ensures Elapsed(n) < limit as real + 3.0
  {
  }

  /** With the default 30-second timeout, a Steam that never closes is polled 13 times and the
      wait ends after 30.59375 seconds. */
  lemma DefaultTimeoutSchedule()
    ensures Elapsed(12) < Constants.SteamKillTimeout as real <= Elapsed(13)
    ensures Elapsed(13) == 30.59375
  {
    ElapsedClosedForm(12);
    ElapsedClosedForm(13);
  }

  /** The limit `wait_for_closure` uses: a falsy `max_wait` (None or 0) falls back to the
      manager's timeout. */
  function EffectiveLimit(maxWait: Option<int>, timeout: int): int
  {
    if maxWait.None? || maxWait.value == 0 then timeout else maxWait.value
  }

  // ---------------------------------------------------------------- shutdown messages

  const NotRunningMessage: string := "Steam not running"
  const TerminateFailedMessage: string := "Failed to terminate Steam processes"
  const ClosedMessage: string := "Steam closed successfully"

  const StillRunningLead: string := "Steam still running after "

  /** The timeout message names the timeout in seconds, right after its lead. */
  function StillRunningMessage(timeout: int): (m: string)
    ensures OccursAt(m, IntToString(timeout), |StillRunningLead|)
  {
    OccursAtConcat(StillRunningLead, IntToString(timeout), "s timeout");
    StillRunningLead + IntToString(timeout) + "s timeout"
  }

  /** The timeout message begins with "Steam s", which tells it from the other three. */
  lemma StillRunningPrefix(timeout: int)
    ensures var m := StillRunningMessage(timeout);
            |m| > 6 && m[0] == 'S' && m[6] == 's'
  {
    assert StillRunningMessage(timeout) == StillRunningLead + IntToString(timeout) + "s timeout";
  }

  /** The three fixed shutdown messages are pairwise distinct. */
  lemma FixedMessagesDistinct()
    ensures NotRunningMessage != TerminateFailedMessage && NotRunningMessage != ClosedMessage
    ensures TerminateFailedMessage != ClosedMessage
  {
    DifferAt(NotRunningMessage, TerminateFailedMessage, 0);
    DifferAt(NotRunningMessage, ClosedMessage, 6);
    DifferAt(TerminateFailedMessage, ClosedMessage, 0);
  }

  /** The timeout message differs from the three fixed ones, whatever the timeout, so a caller
      can tell every outcome of the shutdown apart by its message. */
  lemma StillRunningDistinct(timeout: int)
    ensures var m := StillRunningMessage(timeout);
            m != NotRunningMessage && m != TerminateFailedMessage && m != ClosedMessage
  {
    var m := StillRunningMessage(timeout);
    StillRunningPrefix(timeout);
    DifferAt(m, NotRunningMessage, 6);
    DifferAt(m, TerminateFailedMessage, 0);
    DifferAt(m, ClosedMessage, 6);
  }

  // ---------------------------------------------------------------- effects on the machine

  /** The machine's counters at one moment: the enumerations made so far, the signals sent and
      the time slept. */
  datatype Mark = Mark(scans: nat, signals: seq<Signal>, clock: real)

  /** The counters after `kill_processes` started at `s`: one enumeration and nothing more when
      it raises or finds no Steam process; otherwise the terminate signals to its matches, one
      second of sleep, a second enumeration and, unless that raises, the kill signals to its
      matches. */
  function AfterKill(scanAt: nat -> Scan, s: Mark): Mark
  {
    var first := SteamProcessesOf(scanAt(s.scans));
    if first.Err? || first.value == [] then s.(scans := s.scans + 1)
    else
      var second := SteamProcessesOf(scanAt(s.scans + 1));
      Mark(s.scans + 2,
           s.signals + SignalsTo(first.value, Terminate) + (if second.Ok? then SignalsTo(second.value, Kill) else []),
           s.clock + 1.0)
  }

  /** One `wait_for_closure` with the limit `limit`, from the counters `s` to `t`, answering
      `closed`: no poll at all for a limit of at most 0; every poll but the last found Steam
      running; the answer is whether the last poll found it gone; the time slept is the
      schedule's, stopping before the limit when Steam closed, and at the first sleep that
      reaches the limit otherwise. No signal is sent. */
  ghost predicate Waited(scanAt: nat -> Scan, limit: int, s: Mark, t: Mark, closed: bool)
  {
    var n := t.scans - s.scans;
    && s.scans <= t.scans && t.signals == s.signals
    && (limit <= 0 ==> !closed && n == 0 && t.clock == s.clock)
    && (forall j :: s.scans <= j < t.scans - 1 ==> RunningIn(scanAt(j)))
    && (closed <==> n > 0 && !RunningIn(scanAt(t.scans - 1)))
    && (closed ==> t.clock == s.clock + Elapsed(n - 1) && Elapsed(n - 1) < limit as real)
    && (!closed ==> t.clock == s.clock + Elapsed(n) && limit as real <= Elapsed(n))
    && (!closed && limit > 0 ==> n > 0 && Elapsed(n - 1) < limit as real && Elapsed(n) < limit as real + 3.0)
  }

  /** One `graceful_shutdown` with the manager's timeout `timeout`, from the counters `s` to `t`,
      answering `r`: one enumeration when Steam is not running; otherwise `kill_processes`, whose
      exception passes through and whose false verdict ends the shutdown, and then a wait for
      closure with the timeout (`wait_for_closure()` is called without a limit). */
  ghost predicate ShutDown(scanAt: nat -> Scan, timeout: int, s: Mark, t: Mark, r: Result<(bool, string), string>)
  {
    if !RunningIn(scanAt(s.scans)) then
      r == Ok((true, NotRunningMessage)) && t == s.(scans := s.scans + 1)
    else
      var k := AfterKill(scanAt, s.(scans := s.scans + 1));
      match KillVerdict(scanAt(s.scans + 1), scanAt(s.scans + 2))
      case Err(e) => r == Err(e) && t == k
      case Ok(false) => r == Ok((false, TerminateFailedMessage)) && t == k
      case Ok(true) =>
        var closed := t.scans > k.scans && !RunningIn(scanAt(t.scans - 1));
        && Waited(scanAt, timeout, k, t, closed)
        && r == if closed then Ok((true, ClosedMessage)) else Ok((false, StillRunningMessage(timeout)))
  }

  /** What a shutdown's answer means: success means the last enumeration found no Steam
      process; the timeout message means at least the timeout was slept and, for a positive
      timeout, the last enumeration still found Steam; and only an exception or the
      terminate failure leaves no wait behind. */
  lemma ShutDownMeaning(scanAt: nat -> Scan, timeout: int, s: Mark, t: Mark, r: Result<(bool, string), string>)
    requires ShutDown(scanAt, timeout, s, t, r)
    ensures r.Ok? && r.value.0 ==> t.scans > 0 && !RunningIn(scanAt(t.scans - 1))
    ensures r == Ok((false, StillRunningMessage(timeout))) ==> t.clock >= s.clock + timeout as real
    ensures r == Ok((false, StillRunningMessage(timeout))) && timeout > 0 ==>
              t.scans > 0 && RunningIn(scanAt(t.scans - 1))
    ensures s.scans < t.scans
  {
    StillRunningDistinct(timeout);
    FixedMessagesDistinct();
    if RunningIn(scanAt(s.scans)) && KillVerdict(scanAt(s.scans + 1), scanAt(s.scans + 2)) == Ok(true) {
      var k := AfterKill(scanAt, s.(scans := s.scans + 1));
      var closed := t.scans > k.scans && !RunningIn(scanAt(t.scans - 1));
      if !closed {
        assert t.clock >= k.clock + timeout as real;
      }
    }
  }

  // ---------------------------------------------------------------- the controller

  class SteamManager {
    /** Seconds to wait for Steam to close. */
    const timeout: int

    constructor (timeout: int)
      ensures this.timeout == timeout
    {
      this.timeout := timeout;
    }

    /** `_get_steam_processes`: one enumeration, filtered by name. */
    method GetSteamProcesses(m: Machine) returns (r: Result<seq<Proc>, string>)
      modifies m`scans
      ensures m.scans == old(m.scans) + 1
      ensures r == SteamProcessesOf(m.scanAt(old(m.scans)))
    {
      var scan := m.ProcessIter();
      var found: seq<Proc> := [];
      var i := 0;
      ThenEmpty(SteamProcessesOf(scan));
      while i < |scan|
        invariant 0 <= i <= |scan|
        invariant m.scans == old(m.scans) + 1
        invariant SteamProcessesOf(scan) == Then(found, SteamProcessesOf(scan[i..]))
      {
        var p := scan[i];
        assert scan[i..][1..] == scan[i + 1..];
        ThenThen(found, if Keeps(p) then [p] else [], SteamProcessesOf(scan[i + 1..]));
        assert Keeps(p) ==> found + [p] == found + (if Keeps(p) then [p] else []);
        assert !Keeps(p) ==> found == found + (if Keeps(p) then [p] else []);
        match p.name {
          case Name(n) =>
            if IsSteamName(n) {
              found := found + [p];
            }
          case NameRaises(e) =>
            if !Tolerated(e) {
              return Err(e.message);
            }
        }
        i := i + 1;
      }
      assert scan[i..] == [];
      assert found + [] == found;
      return Ok(found);
    }

    /** `is_running`: an exception during enumeration counts as "not running". */
    method IsRunning(m: Machine) returns (running: bool)
      modifies m`scans
      ensures m.scans == old(m.scans) + 1
      ensures running == RunningIn(m.scanAt(old(m.scans)))
    {
      var r := GetSteamProcesses(m);
      running := r.Ok? && |r.value| > 0;
    }

    /** `kill_processes`: terminate every Steam process, sleep one second, then kill every Steam
        process a fresh enumeration still finds. An exception of either enumeration propagates. */
    method KillProcesses(m: Machine) returns (r: Result<bool, string>)
      modifies m`scans, m`signals, m`clock
      ensures r == KillVerdict(m.scanAt(old(m.scans)), m.scanAt(old(m.scans) + 1))
      ensures Mark(m.scans, m.signals, m.clock) == AfterKill(m.scanAt, Mark(old(m.scans), old(m.signals), old(m.clock)))
    {
      var found := GetSteamProcesses(m);
      if found.Err? {
        return Err(found.error);
      }
      var targets := found.value;
      if targets == [] {
        return Ok(true);
      }
      var success := SignalAll(m, targets, Terminate);
      m.Sleep(1.0);
      var again := GetSteamProcesses(m);
      if again.Err? {
        return Err(again.error);
      }
      var killOk := SignalAll(m, again.value, Kill);
      return Ok(success && killOk);
    }

    /** One phase of `kill_processes`: signal every process in order; `NoSuchProcess` and
        `AccessDenied` are ignored, any other exception makes the phase fail but does not stop
        the loop. */
    method SignalAll(m: Machine, procs: seq<Proc>, kind: SignalKind) returns (ok: bool)
      modifies m`signals
      ensures ok == PhaseOk(procs, kind)
      ensures m.signals == old(m.signals) + SignalsTo(procs, kind)
    {
      ok := true;
      var i := 0;
      while i < |procs|
        invariant 0 <= i <= |procs|
        invariant ok == PhaseOk(procs[..i], kind)
        invariant m.signals == old(m.signals) + SignalsTo(procs[..i], kind)
      {
        SignalsToSnoc(procs, i, kind);
        var outcome := m.Send(kind, procs[i]);
        if outcome.SignalRaises? && !Tolerated(outcome.error) {
          ok := false;
        }
        assert procs[..i + 1][i] == procs[i];
        assert forall j :: 0 <= j < i ==> procs[..i + 1][j] == procs[..i][j];
        i := i + 1;
      }
      assert procs[..i] == procs;
    }

    /** `wait_for_closure`: poll until Steam is gone or the time slept reaches the limit. */
    method WaitForClosure(m: Machine, maxWait: Option<int>) returns (closed: bool)
      modifies m`scans, m`clock
      ensures Waited(m.scanAt, EffectiveLimit(maxWait, timeout), Mark(old(m.scans), old(m.signals), old(m.clock)),
                     Mark(m.scans, m.signals, m.clock), closed)
    {
      var limit := EffectiveLimit(maxWait, timeout);
      var waitTime := 0.5;
      var totalWaited := 0.0;
      ghost var k: nat := 0;
      while totalWaited < limit as real
        invariant m.scans == old(m.scans) + k
        invariant waitTime == Interval(k) && totalWaited == Elapsed(k)
        invariant m.clock == old(m.clock) + totalWaited
        invariant forall j :: old(m.scans) <= j < m.scans ==> RunningIn(m.scanAt(j))
        invariant k > 0 ==> Elapsed(k - 1) < limit as real
        decreases 2 * limit - k
      {
        var running := IsRunning(m);
        if !running {
          return true;
        }
        m.Sleep(waitTime);
        totalWaited := totalWaited + waitTime;
        waitTime := Min(waitTime * 1.5, 3.0);
        k := k + 1;
      }
      if k > 0 {
        WaitOvershoot(limit, k);
      }
      return false;
    }

    /** `graceful_shutdown`: nothing to do when Steam is not running; otherwise kill its
        processes and wait for closure with the manager's own timeout. */
    method GracefulShutdown(m: Machine) returns (r: Result<(bool, string), string>)
      modifies m`scans, m`signals, m`clock
      ensures ShutDown(m.scanAt, timeout, Mark(old(m.scans), old(m.signals), old(m.clock)), Mark(m.scans, m.signals, m.clock), r)
    {
      var running := IsRunning(m);
      if !running {
        return Ok((true, NotRunningMessage));
      }
      var killed := KillProcesses(m);
      if killed.Err? {
        return Err(killed.error);
      }
      if !killed.value {
        return Ok((false, TerminateFailedMessage));
      }
      var closed := WaitForClosure(m, None);
      if !closed {
        return Ok((false, StillRunningMessage(timeout)));
      }
      return Ok((true, ClosedMessage));
    }
  }
}
