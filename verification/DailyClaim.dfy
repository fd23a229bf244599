/** The once-per-day claim of the fee sync: any number of processes, one session-level lock per
    day, and in each process one loop that runs the claim step by step. */
module DailyClaim {

  import opened Common

  /** Where a process is inside `maybeRunDaily`; each stage remembers the day it started with. */
  datatype Stage = Idle | Checked(day: nat) | Refused(day: nat) | Locked(day: nat)

  /** `held` is the day whose lock the process will release when it claims again. */
  datatype Process = Process(lastDaily: Option<nat>, held: Option<nat>, stage: Stage)

  const NEW_PROCESS := Process(None, None, Idle)

  /** `locks` maps each locked day to the process whose session holds the lock;
      `queued` logs each queueing of the daily sync as (process, day). */
  datatype State = State(today: nat, locks: map<nat, nat>, processes: map<nat, Process>, queued: seq<(nat, nat)>) {
    function At(p: nat): Process {
      if p in processes then processes[p] else NEW_PROCESS
    }
  }

  datatype Event =
    | NextDay
    | Start(p: nat)
    | TryLock(p: nat)
    | LockFails(p: nat)
    | MarkRefused(p: nat)
    | Claim(p: nat)

  function Enter(process: Process, day: nat): Process {
    if process.lastDaily == Some(day) then process else process.(stage := Checked(day))
  }

  predicate Claims(process: Process) {
    process.stage.Locked? && process.lastDaily != Some(process.stage.day)
  }

  function AfterClaim(process: Process): Process
    requires process.stage.Locked?
  {
    if Claims(process) then Process(Some(process.stage.day), Some(process.stage.day), Idle)
    else process.(stage := Idle)
  }

  /** The lock released while a process finishes its claim, if any. */
  function Released(process: Process): set<nat>
    requires process.stage.Locked?
  {
    if !Claims(process) then {process.stage.day}
    else if process.held.Some? then {process.held.value}
    else {}
  }

  /** One atomic step. An event whose process is at another stage changes nothing. */
  function Next(s: State, e: Event): State {
    match e
    case NextDay => s.(today := s.today + 1)
    case Start(p) =>
      if s.At(p).stage.Idle? then s.(processes := s.processes[p := Enter(s.At(p), s.today)]) else s
    case TryLock(p) =>
      if !s.At(p).stage.Checked? then s
      else
        var day := s.At(p).stage.day;
        if day in s.locks then s.(processes := s.processes[p := s.At(p).(stage := Refused(day))])
        else s.(locks := s.locks[day := p], processes := s.processes[p := s.At(p).(stage := Locked(day))])
    case LockFails(p) =>
      if s.At(p).stage.Checked? then s.(processes := s.processes[p := s.At(p).(stage := Idle)]) else s
    case MarkRefused(p) =>
      if !s.At(p).stage.Refused? then s
      else s.(processes := s.processes[p := s.At(p).(lastDaily := Some(s.At(p).stage.day), stage := Idle)])
    case Claim(p) =>
      if !s.At(p).stage.Locked? then s
      else
        State(s.today, s.locks - Released(s.At(p)), s.processes[p := AfterClaim(s.At(p))],
              if Claims(s.At(p)) then s.queued + [(p, s.At(p).stage.day)] else s.queued)
  }

  datatype Run = Boot(today: nat) | Then(before: Run, event: Event)

  function After(run: Run): State {
    match run
    case Boot(today) => State(today, map[], map[], [])
    case Then(before, e) => Next(After(before), e)
  }

  /** A process owns a day's lock from a successful attempt until it releases it. */
  predicate Owns(process: Process, day: nat) {
    process.held == Some(day) || process.stage == Locked(day)
  }

  ghost predicate LocksMatchOwners(s: State) {
    && (forall d: nat :: d in s.locks ==> Owns(s.At(s.locks[d]), d))
    && (forall p: nat, d: nat :: Owns(s.At(p), d) ==> d in s.locks && s.locks[d] == p)
    && (forall p: nat :: s.At(p).stage.Locked? ==> s.At(p).held != Some(s.At(p).stage.day))
  }

  /** Days only grow inside one process. */
  predicate Grows(process: Process, today: nat) {
    && (!process.stage.Idle? ==> process.stage.day <= today)
    && (process.held.Some? ==> process.held.value <= today)
    && (!process.stage.Idle? && process.held.Some? ==> process.held.value <= process.stage.day)
  }

  ghost predicate DaysGrow(s: State) {
    forall p: nat :: Grows(s.At(p), s.today)
  }

  /** The lock a process holds belongs to the newest day it queued. */
  ghost predicate HoldsNewestQueued(s: State) {
    && (forall e :: e in s.queued ==> s.At(e.0).held.Some? && e.1 <= s.At(e.0).held.value)
    && (forall p: nat :: s.At(p).held.Some? ==> (p, s.At(p).held.value) in s.queued)
  }

  ghost predicate Invariant(s: State) {
    LocksMatchOwners(s) && DaysGrow(s) && HoldsNewestQueued(s)
  }

  /** Finishing a claim gives up exactly the released lock. */
  lemma ClaimOwns(s: State, p: nat, d: nat)
    requires LocksMatchOwners(s) && s.At(p).stage.Locked?
    ensures Owns(Next(s, Claim(p)).At(p), d) <==> Owns(s.At(p), d) && d !in Released(s.At(p))
  {
  }

  lemma ReleasedIsOwned(s: State, p: nat, d: nat)
    requires LocksMatchOwners(s) && s.At(p).stage.Locked? && d in Released(s.At(p))
    ensures d in s.locks && s.locks[d] == p
  {
    assert Owns(s.At(p), d);
  }

  lemma ClaimKeepsLocks(s: State, p: nat)
    requires LocksMatchOwners(s) && s.At(p).stage.Locked?
    ensures LocksMatchOwners(Next(s, Claim(p)))
  {
    var t := Next(s, Claim(p));
    assert forall q: nat :: q != p ==> t.At(q) == s.At(q);
    forall d: nat | d in t.locks ensures Owns(t.At(t.locks[d]), d) {
      ClaimOwns(s, p, d);
      assert Owns(s.At(s.locks[d]), d);
    }
    forall q: nat, d: nat | Owns(t.At(q), d) ensures d in t.locks && t.locks[d] == q {
      ClaimOwns(s, p, d);
      assert Owns(s.At(q), d);
      if d in Released(s.At(p)) {
        ReleasedIsOwned(s, p, d);
      }
    }
  }

  lemma TryLockKeepsLocks(s: State, p: nat)
    requires LocksMatchOwners(s)
    ensures LocksMatchOwners(Next(s, TryLock(p)))
  {
    var t := Next(s, TryLock(p));
    assert forall q: nat :: q != p ==> t.At(q) == s.At(q);
    forall d: nat | d in t.locks ensures Owns(t.At(t.locks[d]), d) {
      assert d in s.locks ==> Owns(s.At(s.locks[d]), d);
    }
    forall q: nat, d: nat | Owns(t.At(q), d) ensures d in t.locks && t.locks[d] == q {
      assert Owns(s.At(q), d) || (q == p && t.At(q).stage == Locked(d));
    }
  }

  lemma OtherKeepsLocks(s: State, e: Event)
    requires LocksMatchOwners(s) && !e.Claim? && !e.TryLock?
    ensures LocksMatchOwners(Next(s, e))
  {
    var t := Next(s, e);
    assert t.locks == s.locks;
    forall p: nat
      ensures t.At(p).held == s.At(p).held
      ensures t.At(p).stage.Locked? || s.At(p).stage.Locked? ==> t.At(p).stage == s.At(p).stage
    {
    }
    assert forall p: nat, d: nat :: Owns(t.At(p), d) <==> Owns(s.At(p), d);
  }

  lemma StepKeepsDays(s: State, e: Event)
    requires Invariant(s)
    ensures DaysGrow(Next(s, e))
  {
    var t := Next(s, e);
    forall p: nat ensures Grows(t.At(p), t.today) {
      assert Grows(s.At(p), s.today);
    }
  }

  lemma ClaimKeepsNewest(s: State, p: nat)
    requires Invariant(s) && s.At(p).stage.Locked?
    ensures HoldsNewestQueued(Next(s, Claim(p)))
  {
    var t := Next(s, Claim(p));
    assert Grows(s.At(p), s.today);
    assert forall q: nat :: q != p ==> t.At(q) == s.At(q);
    forall e | e in t.queued ensures t.At(e.0).held.Some? && e.1 <= t.At(e.0).held.value {
      assert e in s.queued || e == (p, s.At(p).stage.day);
    }
    forall q: nat | t.At(q).held.Some? ensures (q, t.At(q).held.value) in t.queued {
      if q == p && Claims(s.At(p)) {
        assert t.queued[|s.queued|] == (p, s.At(p).stage.day);
      } else {
        assert (q, s.At(q).held.value) in s.queued;
      }
    }
  }

  lemma OtherKeepsNewest(s: State, e: Event)
    requires Invariant(s) && (e.Claim? ==> !s.At(e.p).stage.Locked?)
    ensures HoldsNewestQueued(Next(s, e))
  {
    var t := Next(s, e);
    assert forall q: nat :: t.At(q).held == s.At(q).held;
  }

  /** Every reachable state keeps locks, holders and days in step. */
  lemma {:induction false} Reachable(run: Run)
    ensures Invariant(After(run))
  {
    if run.Then? {
      var s := After(run.before);
      Reachable(run.before);
      StepKeepsDays(s, run.event);
      match run.event
      case Claim(p) =>
        if s.At(p).stage.Locked? {
          ClaimKeepsLocks(s, p);
          ClaimKeepsNewest(s, p);
        }
      case TryLock(p) =>
        TryLockKeepsLocks(s, p);
        OtherKeepsNewest(s, run.event);
      case _ =>
        OtherKeepsLocks(s, run.event);
        OtherKeepsNewest(s, run.event);
    }
  }

  /** The process has queued a day after `day`. */
  ghost predicate QueuedLater(s: State, p: nat, day: nat) {
    exists later: nat :: day < later && (p, later) in s.queued
  }

  /** A day that was queued once can be locked again exactly when the process that queued it has
      meanwhile queued a later day. */
  lemma LockReopensExactlyWhenHolderMovedOn(run: Run, p: nat, day: nat)
    requires (p, day) in After(run).queued
    requires forall q: nat :: (q, day) in After(run).queued ==> q == p
    requires forall q: nat :: After(run).At(q).stage != Locked(day)
    ensures day !in After(run).locks <==> QueuedLater(After(run), p, day)
  {
    var s := After(run);
    Reachable(run);
    assert s.At(p).held.Some? && day <= s.At(p).held.value;
    assert forall d: nat :: d in s.locks ==> Owns(s.At(s.locks[d]), d);
    if s.At(p).held.value == day {
      assert Owns(s.At(p), day);
    } else {
      assert (p, s.At(p).held.value) in s.queued;
    }
  }

  predicate OncePerDay(queued: seq<(nat, nat)>) {
    forall i, j :: 0 <= i < j < |queued| ==> queued[i].1 != queued[j].1
  }

  /** A process between its lock and its claim is the first to queue that day. */
  ghost predicate LockedIsFirst(s: State) {
    forall p: nat, e :: e in s.queued && s.At(p).stage.Locked? ==> e.1 != s.At(p).stage.day
  }

  lemma OtherLocksDiffer(s: State, p: nat, q: nat)
    requires LocksMatchOwners(s) && p != q && s.At(p).stage.Locked? && s.At(q).stage.Locked?
    ensures s.At(q).stage.day != s.At(p).stage.day
  {
    assert Owns(s.At(p), s.At(p).stage.day) && Owns(s.At(q), s.At(q).stage.day);
    assert s.locks[s.At(p).stage.day] == p && s.locks[s.At(q).stage.day] == q;
  }

  lemma AppendOnce(queued: seq<(nat, nat)>, e: (nat, nat))
    requires OncePerDay(queued) && forall f :: f in queued ==> f.1 != e.1
    ensures OncePerDay(queued + [e])
  {
    var next := queued + [e];
    forall i, j | 0 <= i < j < |next| ensures next[i].1 != next[j].1 {
      assert next[i] == queued[i] && queued[i] in queued;
    }
  }

  lemma ClaimIsFirst(s: State, p: nat)
    requires LocksMatchOwners(s) && LockedIsFirst(s) && OncePerDay(s.queued) && s.At(p).stage.Locked?
    ensures LockedIsFirst(Next(s, Claim(p))) && OncePerDay(Next(s, Claim(p)).queued)
  {
    var t := Next(s, Claim(p));
    var claim := (p, s.At(p).stage.day);
    AppendOnce(s.queued, claim);
    forall q: nat, e | e in t.queued && t.At(q).stage.Locked? ensures e.1 != t.At(q).stage.day {
      assert q != p && t.At(q) == s.At(q);
      OtherLocksDiffer(s, p, q);
      assert e in s.queued || e == claim;
    }
  }

  predicate Open(process: Process) {
    process.stage.Checked? || process.stage.Locked? ==> process.lastDaily != Some(process.stage.day)
  }

  /** A process still inside its call has not settled the day it works on. */
  ghost predicate Unsettled(s: State) {
    forall p: nat :: Open(s.At(p))
  }

  lemma {:induction false} StaysUnsettled(run: Run)
    ensures Unsettled(After(run))
  {
    if run.Then? {
      StaysUnsettled(run.before);
      var s, t := After(run.before), After(run);
      forall p: nat ensures Open(t.At(p)) {
        assert Open(s.At(p));
      }
    }
  }

  ghost predicate AllFirst(s: State) {
    OncePerDay(s.queued) && LockedIsFirst(s)
  }

  ghost predicate MovedOn(s: State, p: nat, day: nat) {
    (p, day) in s.queued && QueuedLater(s, p, day)
  }

  /** The step takes the free lock of a day whose queuer has gone on to a later day. */
  ghost predicate Reopens(s: State, e: Event) {
    && e.TryLock? && s.At(e.p).stage.Checked? && s.At(e.p).stage.day !in s.locks
    && exists q: nat :: MovedOn(s, q, s.At(e.p).stage.day)
  }

  ghost predicate NeverReopens(run: Run) {
    run.Then? ==> NeverReopens(run.before) && !Reopens(After(run.before), run.event)
  }

  /** A queued day whose lock is free was queued by a process that has gone on. */
  lemma FreeMeansMovedOn(s: State, e: (nat, nat))
    requires Invariant(s) && e in s.queued && e.1 !in s.locks
    ensures MovedOn(s, e.0, e.1)
  {
    var held := s.At(e.0).held;
    assert held.Some? && e.1 <= held.value;
    assert (e.0, held.value) in s.queued;
    assert held.value == e.1 ==> Owns(s.At(e.0), e.1);
  }

  lemma LockIsFirstUnlessReopened(s: State, p: nat)
    requires Invariant(s) && LockedIsFirst(s)
    ensures LockedIsFirst(Next(s, TryLock(p))) <==> !Reopens(s, TryLock(p))
  {
    var t := Next(s, TryLock(p));
    assert forall q: nat :: q != p ==> t.At(q) == s.At(q);
    if s.At(p).stage.Checked? && s.At(p).stage.day !in s.locks {
      var day := s.At(p).stage.day;
      assert t.At(p).stage == Locked(day);
      forall e | e in s.queued && e.1 == day ensures MovedOn(s, e.0, day) {
        FreeMeansMovedOn(s, e);
      }
    }
  }

  lemma OtherStaysFirst(s: State, e: Event)
    requires !e.Claim? && !e.TryLock?
    ensures AllFirst(Next(s, e)) <==> AllFirst(s)
  {
    var t := Next(s, e);
    assert t.queued == s.queued;
    forall q: nat
      ensures t.At(q).stage.Locked? || s.At(q).stage.Locked? ==> t.At(q).stage == s.At(q).stage
    {
    }
  }

  lemma LaterStaysTwice(queued: seq<(nat, nat)>, e: (nat, nat))
    requires !OncePerDay(queued) || exists f :: f in queued && f.1 == e.1
    ensures !OncePerDay(queued + [e])
  {
    var next := queued + [e];
    if !OncePerDay(queued) {
      var i, j :| 0 <= i < j < |queued| && queued[i].1 == queued[j].1;
      assert next[i].1 == next[j].1;
    } else {
      var i :| 0 <= i < |queued| && queued[i].1 == e.1;
      assert next[i].1 == next[|queued|].1;
    }
  }

  /** A process that has locked a queued day queues it again. */
  lemma ClaimStaysTwice(s: State, p: nat)
    requires Unsettled(s) && !AllFirst(s) && s.At(p).stage.Locked?
    ensures !AllFirst(Next(s, Claim(p)))
  {
    var t := Next(s, Claim(p));
    var claim := (p, s.At(p).stage.day);
    assert t.queued == s.queued + [claim];
    if OncePerDay(s.queued) {
      var q: nat, e :| e in s.queued && s.At(q).stage.Locked? && e.1 == s.At(q).stage.day;
      if q != p {
        assert t.At(q) == s.At(q) && e in t.queued;
      } else {
        LaterStaysTwice(s.queued, claim);
      }
    } else {
      LaterStaysTwice(s.queued, claim);
    }
  }

  lemma LockStaysTwice(s: State, p: nat)
    requires !AllFirst(s)
    ensures !AllFirst(Next(s, TryLock(p)))
  {
    var t := Next(s, TryLock(p));
    if OncePerDay(s.queued) {
      var q: nat, e :| e in s.queued && s.At(q).stage.Locked? && e.1 == s.At(q).stage.day;
      assert t.At(q) == s.At(q) && e in t.queued;
    }
  }

  lemma StepStaysFirst(s: State, e: Event)
    requires Invariant(s) && Unsettled(s)
    ensures AllFirst(Next(s, e)) <==> AllFirst(s) && !Reopens(s, e)
  {
    match e
    case Claim(p) =>
      if s.At(p).stage.Locked? {
        if AllFirst(s) { ClaimIsFirst(s, p); } else { ClaimStaysTwice(s, p); }
      }
    case TryLock(p) =>
      if AllFirst(s) { LockIsFirstUnlessReopened(s, p); } else { LockStaysTwice(s, p); }
    case _ => OtherStaysFirst(s, e);
  }

  /** Any number of processes together queue the daily sync at most once per day, and stay able to, if and
      only if no step of the run reopens a day. With no claim pending, the queue alone decides. */
  lemma {:induction false} OncePerDayExactlyWhenNeverReopened(run: Run)
    ensures OncePerDay(After(run).queued) && LockedIsFirst(After(run)) <==> NeverReopens(run)
    ensures (forall p: nat :: !After(run).At(p).stage.Locked?) ==> (OncePerDay(After(run).queued) <==> NeverReopens(run))
  {
    if run.Then? {
      var s := After(run.before);
      Reachable(run.before);
      StaysUnsettled(run.before);
      OncePerDayExactlyWhenNeverReopened(run.before);
      StepStaysFirst(s, run.event);
    }
  }

  /** Every lock attempt of the run happens on the day its call started. */
  predicate Prompt(run: Run) {
    run.Then? ==>
      && Prompt(run.before)
      && (run.event.TryLock? && After(run.before).At(run.event.p).stage.Checked? ==>
            After(run.before).At(run.event.p).stage.day == After(run.before).today)
  }

  lemma {:induction false} PromptNeverReopens(run: Run)
    requires Prompt(run)
    ensures NeverReopens(run)
  {
    if run.Then? {
      PromptNeverReopens(run.before);
      var s := After(run.before);
      Reachable(run.before);
      forall e | e in s.queued ensures e.1 <= s.today {
        assert Grows(s.At(e.0), s.today);
      }
    }
  }

  /** In every run whose lock attempts are prompt, any number of processes together queue the
      daily sync at most once per day. */
  lemma {:induction false} QueuedAtMostOncePerDay(run: Run)
    requires Prompt(run)
    ensures OncePerDay(After(run).queued) && LockedIsFirst(After(run))
  {
    PromptNeverReopens(run);
    OncePerDayExactlyWhenNeverReopened(run);
  }

  /** One process checks day 0 and stalls while another claims it. */
  lemma OneStalls() returns (run: Run)
    ensures After(run) == State(0, map[0 := 1],
              map[0 := Process(None, None, Checked(0)), 1 := Process(Some(0), Some(0), Idle)], [(1, 0)])
  {
    run := Then(Then(Then(Then(Boot(0), Start(0)), Start(1)), TryLock(1)), Claim(1));
  }

  lemma OtherGoesOn() returns (run: Run)
    ensures After(run) == State(1, map[1 := 1],
              map[0 := Process(None, None, Checked(0)), 1 := Process(Some(1), Some(1), Idle)], [(1, 0), (1, 1)])
  {
    var stalled := OneStalls();
    var checked := Then(Then(stalled, NextDay), Start(1));
    assert After(checked) == State(1, map[0 := 1],
             map[0 := Process(None, None, Checked(0)), 1 := Process(Some(0), Some(0), Checked(1))], [(1, 0)]);
    run := Then(Then(checked, TryLock(1)), Claim(1));
  }

  /** Without that condition the claim fails: a call that stalls past the next day's claim
      queues its own day a second time. */
  lemma StalledCallQueuesTwice() returns (run: Run)
    ensures !OncePerDay(After(run).queued) && !NeverReopens(run)
  {
    var stalled := OtherGoesOn();
    run := Then(Then(stalled, TryLock(0)), Claim(0));
    assert After(run).queued == [(1, 0), (1, 1), (0, 0)];
    assert After(run).queued[0].1 == After(run).queued[2].1;
    OncePerDayExactlyWhenNeverReopened(run);
  }

  /** The session-level advisory locks, one per day. */
  class LockTable {
    var holders: map<nat, nat>

    constructor ()
      ensures holders == map[]
    {
      holders := map[];
    }

    method TryLock(day: nat, p: nat) returns (locked: bool)
      modifies this
      ensures locked == (day !in old(holders))
      ensures holders == if locked then old(holders)[day := p] else old(holders)
    {
      locked := day !in holders;
      if locked {
        holders := holders[day := p];
      }
    }

    method Unlock(day: nat)
      modifies this
      ensures holders == old(holders) - {day}
    {
      holders := holders - {day};
    }
  }

  /** One process's side of the claim; each method is one section under its mutex. */
  class FeeSync {
    var lastDaily: Option<nat>
    var unlock: Option<nat>
    const table: LockTable

    constructor (table: LockTable)
      ensures this.table == table && AtStage(Idle) == NEW_PROCESS
    {
      this.table, lastDaily, unlock := table, None, None;
    }

    ghost function AtStage(stage: Stage): Process
      reads this
    {
      Process(lastDaily, unlock, stage)
    }

    method Check(hour: int, day: nat) returns (proceed: bool)
      ensures hour == 8 ==> Enter(AtStage(Idle), day) == AtStage(if proceed then Checked(day) else Idle)
      ensures hour != 8 ==> !proceed
    {
      proceed := hour == 8 && lastDaily != Some(day);
    }

    method MarkRefused(day: nat)
      modifies this`lastDaily
      ensures AtStage(Idle) == old(AtStage(Refused(day))).(lastDaily := Some(day), stage := Idle)
    {
      lastDaily := Some(day);
    }

    method Claim(day: nat) returns (queued: bool)
      modifies this, table
      ensures queued == Claims(old(AtStage(Locked(day))))
      ensures AtStage(Idle) == AfterClaim(old(AtStage(Locked(day))))
      ensures table.holders == old(table.holders) - Released(old(AtStage(Locked(day))))
    {
      if lastDaily == Some(day) {
        table.Unlock(day);
        return false;
      }
      if unlock.Some? {
        table.Unlock(unlock.value);
      }
      unlock, lastDaily := Some(day), Some(day);
      return true;
    }
  }
}
