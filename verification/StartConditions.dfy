/**
 Exactly when a schedule can still be executed.

 Cancelling does not always prevent an execution and a crash can repeat one; `StartIff` says for every
 reachable state and every schedule whether some continuation starts it.
 */
module StartConditions {
  import opened Wrappers
  import opened Schedules
  import opened SchedulerProtocol
  import opened ExecutorProperties

  predicate Schedulable(m: Registry, id: Id, now: Time) {
    && id in m && m[id].status.Pending?
    && m[id].request.scheduledAt.Some?
    && IsWithinMaintenanceWindow(m[id].request, now)
  }

  /** The executor has already fetched the schedule and would still find it inside its window. */
  predicate FetchedInTime(s: State, id: Id) {
    || ((s.executor.Admitted? || s.executor.Marked?) && s.executor.job.id == id)
    || (exists i | 0 <= i < |s.executor.rest| ::
          s.executor.rest[i].id == id && IsWithinMaintenanceWindow(s.executor.rest[i].request, s.clock))
  }

  predicate CanStart(s: State, id: Id) {
    FetchedInTime(s, id) || Schedulable(s.live, id, s.clock) || Schedulable(s.file, id, s.clock)
  }

  /** The next thing the executor may do is start executing this schedule. */
  predicate StartsNext(s: State, id: Id) {
    Enabled(s, Start) && s.executor.job.id == id
  }

  ghost predicate StartReachable(s: State, id: Id) {
    exists run :: Legal(s, run) && StartsNext(Final(s, run), id)
  }

  // ----- Only if: a schedule that cannot start stays so -----

  lemma MutationsScheduleNothing(m: Registry, u: Mutation, id: Id, now: Time)
    requires SoundMutation(m, u) && !Schedulable(m, id, now) && (u.Insert? ==> u.id != id)
    ensures !Schedulable(Apply(m, u), id, now)
  {
  }

  lemma BlockedOneStep(s: State, l: Label, id: Id)
    requires Inv(s) && Enabled(s, l) && id in s.issued && !CanStart(s, id)
    ensures !CanStart(Do(s, l), id) && id in Do(s, l).issued
  {
    var s' := Do(s, l);
    if !l.Crash? {
      StepsAreSound(s, l);
      if MutationOf(s, l).Some? {
        MutationsScheduleNothing(s.live, MutationOf(s, l).value, id, s.clock);
      }
    }
    if l.Check? {
      var q := s.executor.rest;
      assert forall i | 0 <= i < |q| - 1 :: q[1..][i] == q[i + 1];
    }
    assert !Schedulable(s'.live, id, s'.clock) && !Schedulable(s'.file, id, s'.clock);
  }

  lemma {:induction false} Blocked(s: State, run: seq<Label>, id: Id)
    requires Inv(s) && Legal(s, run) && id in s.issued && !CanStart(s, id)
    ensures !CanStart(Final(s, run), id)
    decreases run
  {
    if run != [] {
      DurabilityKept(s, run[0]);
      ProtocolKept(s, run[0]);
      BlockedOneStep(s, run[0], id);
      Blocked(Do(s, run[0]), run[1..], id);
    }
  }

  // ----- If: a continuation that starts the schedule -----

  lemma Chain(s: State, a: seq<Label>, l: Label, b: seq<Label>)
    requires Legal(s, a) && Enabled(Final(s, a), l) && Legal(Do(Final(s, a), l), b)
    ensures Legal(s, a + [l] + b) && Final(s, a + [l] + b) == Final(Do(Final(s, a), l), b)
  {
    Extend(s, a, l);
    Concat(s, a + [l], b);
  }

  /** A call in flight may end, with a failed write and no other effect. */
  lemma EndCall(s: State, t: Task) returns (run: seq<Label>)
    requires t in s.calls
    ensures Legal(s, run) && Final(s, run) == s.(calls := s.calls - {t}) && NoCrash(run)
  {
    run := [];
    var s1 := s;
    if s.calls[t].Dirty? {
      Extend(s, run, Guard(t));
      run := run + [Guard(t)];
      s1 := Do(s, Guard(t));
      assert s1.calls - {t} == s.calls - {t};
    }
    Extend(s, run, Write(t, false));
    run := run + [Write(t, false)];
  }

  /** So may all of them. */
  lemma {:induction false} Settle(s: State) returns (run: seq<Label>)
    ensures Legal(s, run) && Final(s, run) == s.(calls := map[]) && NoCrash(run)
    decreases |s.calls|
  {
    run := [];
    if s.calls != map[] {
      var t :| t in s.calls;
      var s1 := s.(calls := s.calls - {t});
      assert s.calls.Keys == s1.calls.Keys + {t};
      var a := EndCall(s, t);
      var b := Settle(s1);
      Concat(s, a, b);
      run := a + b;
    }
  }

  function Stage(e: Executor): nat {
    match e
    case Admitted(_, _) => 3
    case Marked(_, _) => 2
    case Flashing(_, _) | Expired(_, _) => 1
    case Ready(_) => 0
  }

  function NextLabel(e: Executor): Label
    requires HasJob(e)
  {
    match e
    case Admitted(_, _) => Mark
    case Marked(_, _) => Start
    case Flashing(_, _) => Finish(None)
    case Expired(_, _) => Expire
  }

  predicate Spares(s: State, s': State, id: Id) {
    && s'.file == s.file && s'.clock == s.clock && s'.calls == map[]
    && (id in s.live ==> id in s'.live && s'.live[id] == s.live[id])
  }

  /** The executor may finish the job it has, touching no other schedule. */
  lemma {:induction false} FinishJob(s: State, id: Id) returns (run: seq<Label>)
    requires HasJob(s.executor) ==> s.executor.job.id != id
    ensures Legal(s, run)
    ensures var s' := Final(s, run); Spares(s, s', id) && s'.executor == Ready(s.executor.rest)
    decreases Stage(s.executor)
  {
    var a := Settle(s);
    run := a;
    if HasJob(s.executor) {
      var l := NextLabel(s.executor);
      NextStage(Final(s, a), id);
      var b := FinishJob(Do(Final(s, a), l), id);
      Chain(s, a, l, b);
      run := a + [l] + b;
    }
  }

  lemma NextStage(s: State, id: Id)
    requires s.calls == map[] && HasJob(s.executor) && s.executor.job.id != id
    ensures Enabled(s, NextLabel(s.executor))
    ensures var s' := Do(s, NextLabel(s.executor));
      && Stage(s'.executor) < Stage(s.executor) && s'.executor.rest == s.executor.rest
      && (HasJob(s'.executor) ==> s'.executor.job == s.executor.job)
      && s'.file == s.file && s'.clock == s.clock
      && (id in s.live ==> id in s'.live && s'.live[id] == s.live[id])
  {
  }

  /** The executor may work through its batch up to the given schedule, or to the end if that is not in it. */
  lemma {:induction false} WorkUpTo(s: State, id: Id) returns (run: seq<Label>)
    requires HasJob(s.executor) ==> s.executor.job.id != id
    ensures Legal(s, run)
    ensures var s' := Final(s, run);
      && Spares(s, s', id) && s'.executor.Ready?
      && if HasId(s.executor.rest, id)
         then s'.executor.rest != [] && s'.executor.rest[0].id == id && s'.executor.rest[0] in s.executor.rest
         else s'.executor.rest == []
    decreases |s.executor.rest|
  {
    var a := FinishJob(s, id);
    run := a;
    var q := s.executor.rest;
    if q != [] && q[0].id != id {
      assert forall i | 0 <= i < |q| - 1 :: q[1..][i] == q[i + 1];
      assert HasId(q, id) <==> HasId(q[1..], id) by {
        if HasId(q, id) {
          var i :| 0 <= i < |q| && q[i].id == id;
          assert q[1..][i - 1].id == id;
        }
      }
      var b := WorkUpTo(Do(Final(s, a), Check), id);
      Chain(s, a, Check, b);
      run := a + [Check] + b;
    }
  }

  lemma StartAdmitted(s: State, id: Id) returns (run: seq<Label>)
    requires s.executor.Admitted? && s.executor.job.id == id
    ensures Legal(s, run) && StartsNext(Final(s, run), id)
  {
    var a := Settle(s);
    var b := Settle(Do(Final(s, a), Mark));
    Chain(s, a, Mark, b);
    run := a + [Mark] + b;
  }

  lemma StartWaiting(s: State, id: Id, i: nat) returns (run: seq<Label>)
    requires HasJob(s.executor) ==> s.executor.job.id != id
    requires DistinctIds(s.executor.rest) && i < |s.executor.rest| && s.executor.rest[i].id == id
    requires IsWithinMaintenanceWindow(s.executor.rest[i].request, s.clock)
    ensures Legal(s, run) && StartsNext(Final(s, run), id)
  {
    var a := WorkUpTo(s, id);
    var s1 := Final(s, a);
    assert s1.executor.rest[0] == s.executor.rest[i];
    var b := StartAdmitted(Do(s1, Check), id);
    Chain(s, a, Check, b);
    run := a + [Check] + b;
  }

  /** Any finite set of ids can be listed without repetition. */
  lemma {:induction false} ListIds(ids: set<Id>) returns (q: seq<Id>)
    ensures NoDuplicates(q) && (forall id :: id in q <==> id in ids)
  {
    if ids == {} {
      q := [];
    } else {
      var id :| id in ids;
      var rest := ListIds(ids - {id});
      q := [id] + rest;
    }
  }

  lemma ListDue(m: Registry, now: Time) returns (due: seq<UpdateSchedule>)
    requires forall id | id in m :: m[id].id == id
    ensures ListsDue(due, m, now)
  {
    var q := ListIds(set id | id in m && Due(m[id], now));
    assert forall i | 0 <= i < |q| :: q[i] in q;
    due := seq(|q|, i requires 0 <= i < |q| => m[q[i]]);
    forall id | id in m && Due(m[id], now) ensures HasId(due, id) {
      assert id in q;
      var i :| 0 <= i < |q| && q[i] == id;
      assert due[i].id == id;
    }
  }

  lemma StartUnfetched(s: State, id: Id) returns (run: seq<Label>)
    requires WellKeyed(s.live, s.issued) && s.executor == Ready([]) && s.calls == map[]
    requires Schedulable(s.live, id, s.clock)
    ensures Legal(s, run) && StartsNext(Final(s, run), id)
  {
    var at := s.live[id].request.scheduledAt.value;
    var wait := Tick(if s.clock < at then at - s.clock else 0);
    Extend(s, [], wait);
    var s1 := Do(s, wait);
    assert [] + [wait] == [wait];
    var due := ListDue(s1.live, s1.clock);
    var i :| 0 <= i < |due| && due[i].id == id;
    var b := StartWaiting(Do(s1, Fetch(due, s1.clock)), id, i);
    Chain(s, [wait], Fetch(due, s1.clock), b);
    run := [wait] + [Fetch(due, s1.clock)] + b;
  }

  lemma StartPending(s: State, id: Id) returns (run: seq<Label>)
    requires Inv(s) && Schedulable(s.live, id, s.clock)
    ensures Legal(s, run) && StartsNext(Final(s, run), id)
  {
    if HasId(s.executor.rest, id) {
      var i :| 0 <= i < |s.executor.rest| && s.executor.rest[i].id == id;
      run := StartWaiting(s, id, i);
    } else if s.executor.Admitted? && s.executor.job.id == id {
      run := StartAdmitted(s, id);
    } else {
      var a := WorkUpTo(s, id);
      InvHolds(s, a);
      var b := StartUnfetched(Final(s, a), id);
      Concat(s, a, b);
      run := a + b;
    }
  }

  lemma StartFromFile(s: State, id: Id) returns (run: seq<Label>)
    requires Inv(s) && Schedulable(s.file, id, s.clock)
    ensures Legal(s, run) && StartsNext(Final(s, run), id)
  {
    DurabilityKept(s, Crash(true));
    ProtocolKept(s, Crash(true));
    var b := StartPending(Do(s, Crash(true)), id);
    Chain(s, [], Crash(true), b);
    run := [] + [Crash(true)] + b;
  }

  lemma StartExists(s: State, id: Id)
    requires Inv(s) && CanStart(s, id)
    ensures StartReachable(s, id)
  {
    var run: seq<Label>;
    if s.executor.Marked? && s.executor.job.id == id {
      run := Settle(s);
    } else if s.executor.Admitted? && s.executor.job.id == id {
      run := StartAdmitted(s, id);
    } else if FetchedInTime(s, id) {
      var i :| 0 <= i < |s.executor.rest| && s.executor.rest[i].id == id
               && IsWithinMaintenanceWindow(s.executor.rest[i].request, s.clock);
      run := StartWaiting(s, id, i);
    } else if Schedulable(s.live, id, s.clock) {
      run := StartPending(s, id);
    } else {
      run := StartFromFile(s, id);
    }
    assert Legal(s, run) && StartsNext(Final(s, run), id);
  }

  /**
   From any reachable state an issued schedule can be executed by some continuation, crashes included, if and
   only if the executor has fetched it in time or it is Pending, with a time and an open window, in memory or
   on file.
   */
  lemma StartIff(past: seq<Label>, id: Id)
    requires Legal(INIT, past) && id in Final(INIT, past).issued
    ensures StartReachable(Final(INIT, past), id) <==> CanStart(Final(INIT, past), id)
  {
    InvHolds(INIT, past);
    var s := Final(INIT, past);
    if CanStart(s, id) {
      StartExists(s, id);
    } else {
      forall run | Legal(s, run) ensures !StartsNext(Final(s, run), id) {
        Blocked(s, run, id);
      }
    }
  }

  /** A cancellation that is on file is honoured unless the executor had already fetched the schedule. */
  lemma CancelHonouredIff(past: seq<Label>, id: Id)
    requires Legal(INIT, past)
    requires var s := Final(INIT, past);
      id in s.live && id in s.file && s.live[id].status.Cancelled? && s.file[id].status.Cancelled?
    ensures StartReachable(Final(INIT, past), id) <==> FetchedInTime(Final(INIT, past), id)
  {
    InvHolds(INIT, past);
    StartIff(past, id);
  }

  /**
   While a schedule is being flashed, a crash can make it be flashed again if and only if the file still has
   it Pending and its window is still open. For that the write of its Running mark must have failed, and no
   other task have written the file since.
   */
  lemma RepeatIff(past: seq<Label>, id: Id)
    requires Legal(INIT, past)
    requires Final(INIT, past).executor.Flashing? && Final(INIT, past).executor.job.id == id
    ensures var s := Final(INIT, past);
      StartReachable(s, id) <==>
        id in s.file && s.file[id].status.Pending? && IsWithinMaintenanceWindow(s.executor.job.request, s.clock)
  {
    InvHolds(INIT, past);
    StartIff(past, id);
  }

  /** A schedule without a time never runs, whatever happens: being due needs a time. */
  lemma NoTimeNeverStarts(past: seq<Label>, id: Id)
    requires Legal(INIT, past)
    requires id in Final(INIT, past).live && Final(INIT, past).live[id].request.scheduledAt.None?
    ensures !StartReachable(Final(INIT, past), id)
  {
    InvHolds(INIT, past);
    StartIff(past, id);
  }

  /** Once its window has closed on a schedule the executor has not admitted, it never runs. */
  lemma ClosedWindowNeverStarts(past: seq<Label>, id: Id)
    requires Legal(INIT, past)
    requires var s := Final(INIT, past);
      && id in s.live && !IsWithinMaintenanceWindow(s.live[id].request, s.clock)
      && !((s.executor.Admitted? || s.executor.Marked?) && s.executor.job.id == id)
    ensures !StartReachable(Final(INIT, past), id)
  {
    InvHolds(INIT, past);
    StartIff(past, id);
  }

  // ----- Not before its time, and not after its window -----

  predicate TimeHasCome(job: UpdateSchedule, now: Time) {
    job.request.scheduledAt.Some? && job.request.scheduledAt.value <= now
  }

  /** The time of whatever the executor has fetched has come. */
  predicate OnTime(s: State) {
    && (forall i | 0 <= i < |s.executor.rest| :: TimeHasCome(s.executor.rest[i], s.clock))
    && (HasJob(s.executor) ==> TimeHasCome(s.executor.job, s.clock))
  }

  lemma OnTimeKept(s: State, l: Label)
    requires OnTime(s) && Enabled(s, l)
    ensures OnTime(Do(s, l))
  {
    if l.Check? {
      var q := s.executor.rest;
      assert forall i | 0 <= i < |q| - 1 :: q[1..][i] == q[i + 1];
    }
  }

  lemma {:induction false} OnTimeHolds(s: State, run: seq<Label>)
    requires OnTime(s) && Legal(s, run)
    ensures OnTime(Final(s, run))
    decreases run
  {
    if run != [] {
      OnTimeKept(s, run[0]);
      OnTimeHolds(Do(s, run[0]), run[1..]);
    }
  }

  /** No schedule is marked, started or failed by the executor before its time has come. */
  lemma NeverBeforeItsTime(run: seq<Label>, l: Label)
    requires Legal(INIT, run) && Enabled(Final(INIT, run), l)
    requires l.Mark? || l.Start? || l.Expire? || l.Finish?
    ensures var s := Final(INIT, run);
      s.executor.job.request.scheduledAt.Some? && s.executor.job.request.scheduledAt.value <= s.clock
  {
    OnTimeHolds(INIT, run);
  }

  /** A fetch takes every schedule that is Pending and whose time had come when the executor looked at the clock. */
  lemma FetchTakesAll(s: State, due: seq<UpdateSchedule>, asOf: Time, id: Id)
    requires Enabled(s, Fetch(due, asOf)) && id in s.live
    ensures s.live[id] in Do(s, Fetch(due, asOf)).executor.rest <==>
              && s.live[id].status == Pending
              && s.live[id].request.scheduledAt.Some? && s.live[id].request.scheduledAt.value <= asOf
  {
    if Due(s.live[id], asOf) {
      assert HasId(due, id);
    }
  }

  /**
   The check turns a schedule away exactly when it has a time and a window of more than zero seconds, and that
   many seconds after its time have gone by.
   */
  lemma TurnedAwayIff(s: State)
    requires Enabled(s, Check)
    ensures var r := s.executor.rest[0].request;
      Do(s, Check).executor.Expired? <==>
        && r.scheduledAt.Some? && r.maintenanceWindowSecs.Some? && r.maintenanceWindowSecs.value > 0
        && s.clock > r.scheduledAt.value + r.maintenanceWindowSecs.value
    ensures Do(s, Check).executor.Expired? || Do(s, Check).executor.Admitted?
    ensures Do(s, Check).executor.job == s.executor.rest[0] && Do(s, Check).executor.rest == s.executor.rest[1..]
  {
  }

  // ----- The batch is worked off -----

  lemma QueuedOneStep(s: State, l: Label, id: Id)
    requires Inv(s) && Enabled(s, l) && !l.Crash? && Queued(s, id)
    ensures id in s.live && id in Do(s, l).live
    ensures Queued(Do(s, l), id) || Launched(Do(s, l).live[id])
  {
    if l.Check? {
      var q := s.executor.rest;
      assert forall i | 0 < i < |q| :: q[1..][i - 1] == q[i];
    }
  }

  /**
   Whatever the other tasks do, and even if they cancel it, a schedule the executor has fetched stays with it
   until it has been marked Running or Failed.
   */
  lemma {:induction false} FetchedIsWorkedOff(s: State, run: seq<Label>, id: Id)
    requires Inv(s) && Legal(s, run) && NoCrash(run) && Queued(s, id)
    ensures Queued(Final(s, run), id) || (id in Final(s, run).live && Launched(Final(s, run).live[id]))
    decreases run
  {
    if run != [] {
      assert !run[0].Crash?;
      assert forall i | 0 <= i < |run| - 1 :: run[1..][i] == run[i + 1];
      QueuedOneStep(s, run[0], id);
      DurabilityKept(s, run[0]);
      ProtocolKept(s, run[0]);
      if Queued(Do(s, run[0]), id) {
        FetchedIsWorkedOff(Do(s, run[0]), run[1..], id);
      } else {
        LiveEvolvesAlong(Do(s, run[0]), run[1..]);
      }
    }
  }

  // ----- At most one execution -----

  /** No write of a Running mark fails along the run. */
  predicate MarksPersist(s: State, run: seq<Label>)
    requires Legal(s, run)
    decreases run
  {
    run == [] ||
    (!(s.executor.Marked? && run[0] == Write(EXECUTOR, false)) && MarksPersist(Do(s, run[0]), run[1..]))
  }

  predicate StartedOnce(s: State) {
    && NoDuplicates(s.starts)
    && (forall id | id in s.starts :: id in s.issued && !CanStart(s, id))
    && (s.executor.Marked? && EXECUTOR !in s.calls ==>
          s.executor.job.id in s.file && !s.file[s.executor.job.id].status.Pending?)
  }

  lemma StartedOnceKept(s: State, l: Label)
    requires Inv(s) && StartedOnce(s) && Enabled(s, l)
    requires !(s.executor.Marked? && l == Write(EXECUTOR, false))
    ensures StartedOnce(Do(s, l))
  {
    forall id | id in s.starts ensures id in Do(s, l).issued && !CanStart(Do(s, l), id) {
      BlockedOneStep(s, l, id);
    }
    DurabilityKept(s, l);
    ProtocolKept(s, l);
  }

  lemma {:induction false} StartedOnceHolds(s: State, run: seq<Label>)
    requires Inv(s) && StartedOnce(s) && Legal(s, run) && MarksPersist(s, run)
    ensures StartedOnce(Final(s, run))
    decreases run
  {
    if run != [] {
      StartedOnceKept(s, run[0]);
      DurabilityKept(s, run[0]);
      ProtocolKept(s, run[0]);
      StartedOnceHolds(Do(s, run[0]), run[1..]);
    }
  }

  /**
   At most once: over any run with any number of crashes in which no write of a Running mark fails, no
   schedule begins to execute twice.
   */
  lemma AtMostOnce(run: seq<Label>)
    requires Legal(INIT, run) && MarksPersist(INIT, run)
    ensures NoDuplicates(Final(INIT, run).starts)
  {
    StartedOnceHolds(INIT, run);
  }
}
