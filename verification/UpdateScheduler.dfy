/**
 The scheduler object, with its registry and file updated in place. Every method is a run of the protocol:
 `past` is the sequence of protocol steps taken so far and each method states exactly which steps it appends.
 */
module UpdateScheduler {
  import opened Wrappers
  import opened Schedules
  import opened SchedulerProtocol
  import opened ExecutorProperties
  import opened RollbackOrder

  lemma FreshIsUnused(past: seq<Label>, id: Id)
    requires Legal(INIT, past) && id !in Final(INIT, past).issued
    ensures id !in Final(INIT, past).live
  {
    InvHolds(INIT, past);
  }

  class Scheduler {
    var schedules: Registry
    var file: Registry
    var clock: Time
    ghost var past: seq<Label>

    ghost predicate Tracks()
      reads this
    {
      && Legal(INIT, past)
      && Now().live == schedules && Now().file == file && Now().clock == clock
    }

    ghost function Now(): State
      reads this
      requires Legal(INIT, past)
    {
      Final(INIT, past)
    }

    /** Between calls no mutating call is in flight. */
    ghost predicate Valid()
      reads this
    {
      Tracks() && Now().calls == map[]
    }

    ghost method Record(l: Label)
      requires Legal(INIT, past) && Enabled(Now(), l)
      modifies `past
      ensures past == old(past) + [l] && Legal(INIT, past) && Now() == Do(old(Now()), l)
    {
      Extend(INIT, past, l);
      past := past + [l];
    }

    /** Starting the agent loads what the file holds, or nothing if it cannot be read or parsed; the file stays. */
    constructor (stored: Registry, readOk: bool, now: Time, ghost earlier: seq<Label>)
      requires Legal(INIT, earlier) && Final(INIT, earlier).file == stored && Final(INIT, earlier).clock == now
      ensures Valid() && past == earlier + [Crash(readOk)] && !Now().spent
      ensures schedules == (if readOk then stored else map[]) && file == stored && clock == now
    {
      schedules, file, clock := if readOk then stored else map[], stored, now;
      new;
      past := earlier;
      Record(Crash(readOk));
    }

    method Elapse(secs: nat)
      requires Valid()
      modifies `clock, `past
      ensures Valid() && past == old(past) + [Tick(secs)] && Now().executor == old(Now().executor)
      ensures clock == old(clock) + secs
    {
      clock := clock + secs;
      Record(Tick(secs));
    }

    /** `t` is the task whose mutation this completes; None for a change that is not a step of the protocol. */
    method PersistSchedules(writeOk: bool, ghost t: Option<Task>) returns (r: Result<(), string>)
      requires t.Some? ==> Tracks() && exists at :: Now().calls == map[t.value := Dirty(at)]
      modifies `file, `past
      ensures t.Some? ==> Valid() && past == old(past) + [Guard(t.value), Write(t.value, writeOk)]
      ensures t.Some? ==> Now().executor == old(Now().executor) && Now().spent == old(Now().spent)
      ensures t.None? ==> past == old(past)
      ensures file == if writeOk then schedules else old(file)
      ensures r.Ok? <==> writeOk
    {
      if t.Some? {
        Record(Guard(t.value));
      }
      if writeOk {
        file := schedules;
        r := Ok(());
      } else {
        r := Err("Failed to write schedules");
      }
      if t.Some? {
        Record(Write(t.value, writeOk));
        assert Now().calls == map[];
      }
    }

    method ScheduleUpdate(id: Id, request: UpdateRequest, writeOk: bool, ghost t: Task)
      returns (r: Result<UpdateSchedule, string>)
      requires Valid() && t != EXECUTOR && id !in Now().issued
      modifies this
      ensures Valid() && past == old(past) + [CallInsert(t, id, request, clock), Guard(t), Write(t, writeOk)]
      ensures id !in old(schedules) && id in schedules
      ensures schedules[id].id == id && schedules[id].status == Pending
      ensures schedules[id].request == request && schedules[id].createdAt == clock
      ensures !schedules[id].rollbackTriggered && schedules[id].rollbackReason == None
      ensures schedules[id].startedAt == None && schedules[id].completedAt == None && schedules[id].errorMessage == None
      ensures schedules - {id} == old(schedules) && clock == old(clock)
      ensures if writeOk then r == Ok(schedules[id]) && file == schedules else r.Err? && file == old(file)
    {
      ghost var s := Now();
      FreshIsUnused(past, id);
      var schedule := NewSchedule(id, request, clock);
      schedules := schedules[id := schedule];
      Record(CallInsert(t, id, request, clock));
      assert Now().calls == map[t := Dirty(|s.log|)];
      var persisted := PersistSchedules(writeOk, Some(t));
      r := if persisted.Ok? then Ok(schedule) else Err(persisted.error);
      assert schedules - {id} == old(schedules);
    }

    method CancelSchedule(id: Id, writeOk: bool, ghost t: Task) returns (r: Result<(), string>)
      requires Valid() && t != EXECUTOR
      modifies this
      ensures Valid() && clock == old(clock)
      ensures if id in old(schedules) && old(schedules)[id].status.Pending? then
                && past == old(past) + [CallCancel(t, id), Guard(t), Write(t, writeOk)]
                && schedules == old(schedules)[id := old(schedules)[id].(status := Cancelled)]
                && (r.Ok? <==> writeOk)
                && file == (if writeOk then schedules else old(file))
              else
                r.Err? && past == old(past) && schedules == old(schedules) && file == old(file)
    {
      if id in schedules {
        var schedule := schedules[id];
        if schedule.status.Pending? {
          ghost var s := Now();
          schedules := schedules[id := schedule.(status := Cancelled)];
          Record(CallCancel(t, id));
          assert Now().calls == map[t := Dirty(|s.log|)];
          r := PersistSchedules(writeOk, Some(t));
        } else {
          r := Err("Cannot cancel schedule in this status");
        }
      } else {
        r := Err("Schedule not found");
      }
    }

    /**
     `values` is the iteration order of the hash map at the call. `t` is the rollback supervisor's task, which calls
     once; None for any other call.
     */
    method RegisterRollback(values: seq<UpdateSchedule>, reason: string, writeOk: bool, ghost t: Option<Task>)
      returns (r: Result<(), string>)
      requires t.Some? ==> Valid() && t.value != EXECUTOR && !Now().spent
      requires Iterates(values, schedules)
      modifies this
      ensures clock == old(clock)
      ensures match LatestActive(values)
        case None =>
          && r.Ok? && (forall id | id in schedules :: !Active(schedules[id]))
          && schedules == old(schedules) && file == old(file)
        case Some(target) =>
          && IsLatestActive(old(schedules), target.id)
          && schedules == old(schedules)[target.id := AsRolledBack(target, reason, clock)]
          && ActiveIds(schedules) == ActiveIds(old(schedules)) - {target.id}
          && (r.Ok? <==> writeOk)
          && file == (if writeOk then schedules else old(file))
      ensures t.Some? ==> Valid() && Now().spent
      ensures t.Some? ==> past == old(past) + match LatestActive(values)
        case None => [CallRollBackInVain(t.value)]
        case Some(target) =>
          [CallRollBack(t.value, target.id, reason), Guard(t.value), Write(t.value, writeOk)]
    {
      LatestActivePicks(values, schedules);
      var target := LatestActive(values);
      if target.Some? {
        RollbackChangesOne(schedules, target.value.id, reason, clock);
        r := MarkRolledBack(target.value.id, reason, writeOk, t);
      } else {
        assert forall id | id in schedules && Active(schedules[id]) :: id in ActiveIds(schedules);
        if t.Some? {
          Record(CallRollBackInVain(t.value));
        }
        r := Ok(());
      }
    }

    method MarkRolledBack(id: Id, reason: string, writeOk: bool, ghost t: Option<Task>) returns (r: Result<(), string>)
      requires t.Some? ==> Valid() && Enabled(Now(), CallRollBack(t.value, id, reason))
      requires id in schedules
      modifies this
      ensures clock == old(clock)
      ensures schedules == old(schedules)[id := AsRolledBack(old(schedules)[id], reason, clock)]
      ensures (r.Ok? <==> writeOk) && file == (if writeOk then schedules else old(file))
      ensures t.Some? ==> Valid() && Now().spent
      ensures t.Some? ==>
                past == old(past) + [CallRollBack(t.value, id, reason), Guard(t.value), Write(t.value, writeOk)]
    {
      schedules := schedules[id := AsRolledBack(schedules[id], reason, clock)];
      if t.Some? {
        ghost var s := Now();
        Record(CallRollBack(t.value, id, reason));
        assert Now().calls == map[t.value := Dirty(|s.log|)];
      }
      r := PersistSchedules(writeOk, t);
    }

    /** The status change `step` consists of, if it is one of the executor's. */
    ghost predicate IsStatusStep(step: Label, id: Id, status: Status, error: Option<string>)
      reads this
    {
      && Valid() && (step.Expire? || step.Mark? || step.Finish?)
      && (id in schedules ==>
            Enabled(Now(), step) && Do(Now(), step).live == Apply(schedules, SetStatus(id, status, error, clock)))
    }

    /** Any status may be set for any id. `step` is the executor's step that this is, if it is one. */
    method UpdateStatus(id: Id, status: Status, error: Option<string>, writeOk: bool, ghost step: Option<Label>)
      returns (r: Result<(), string>)
      requires step.Some? ==> IsStatusStep(step.value, id, status, error)
      modifies this
      ensures clock == old(clock)
      ensures if id in old(schedules) then
                && id in schedules && schedules == old(schedules)[id := schedules[id]]
                && schedules[id].status == status && schedules[id].errorMessage == error
                && schedules[id].startedAt == (if status.Running? then Some(clock) else old(schedules)[id].startedAt)
                && schedules[id].completedAt ==
                     (if status.Completed? || status.Failed? || status.Cancelled? then Some(clock)
                      else old(schedules)[id].completedAt)
                && schedules[id] == WithStatus(old(schedules)[id], status, error, clock)
                && file == (if writeOk then schedules else old(file))
                && (r.Ok? <==> writeOk)
              else r.Err? && schedules == old(schedules) && file == old(file) && past == old(past)
      ensures step.Some? ==> Valid()
      ensures step.Some? && id in old(schedules) ==>
                && past == old(past) + [step.value, Guard(EXECUTOR), Write(EXECUTOR, writeOk)]
                && Now().executor == Do(old(Now()), step.value).executor
    {
      if id !in schedules {
        return Err("Schedule not found");
      }
      var schedule := schedules[id].(status := status, errorMessage := error);
      match status {
        case Running => schedule := schedule.(startedAt := Some(clock));
        case Completed | Failed | Cancelled => schedule := schedule.(completedAt := Some(clock));
        case _ =>
      }
      schedules := schedules[id := schedule];
      if step.Some? {
        ghost var s := Now();
        Record(step.value);
        assert Now().calls == map[EXECUTOR := Dirty(|s.log|)];
      }
      r := PersistSchedules(writeOk, if step.Some? then Some(EXECUTOR) else None);
    }

    /** The window check, and the time until the executor acts on it. */
    method CheckWindow(job: UpdateSchedule, delay: nat) returns (open: bool)
      requires Valid() && Now().executor.Ready? && Now().executor.rest != [] && Now().executor.rest[0] == job
      modifies `clock, `past
      ensures Valid() && clock == old(clock) + delay
      ensures open <==> IsWithinMaintenanceWindow(job.request, old(clock))
      ensures Now().executor == var rest := old(Now().executor.rest)[1..];
                if open then Admitted(job, rest) else Expired(job, rest)
    {
      open := IsWithinMaintenanceWindow(job.request, clock);
      Record(Check);
      Elapse(delay);
    }

    method ExpireJob(job: UpdateSchedule, writeOk: bool)
      requires Valid() && Now().executor.Expired? && Now().executor.job == job && job.id in schedules
      modifies this
      ensures Valid() && clock == old(clock) && Now().executor == Ready(old(Now().executor.rest))
      ensures schedules ==
                old(schedules)[job.id := WithStatus(old(schedules)[job.id], Failed, Some(WINDOW_EXPIRED), clock)]
    {
      var _ := UpdateStatus(job.id, Failed, Some(WINDOW_EXPIRED), writeOk, Some(Expire));
    }

    method MarkJob(job: UpdateSchedule, writeOk: bool)
      requires Valid() && Now().executor.Admitted? && Now().executor.job == job && job.id in schedules
      modifies this
      ensures Valid() && clock == old(clock) && Now().executor == Flashing(job, old(Now().executor.rest))
      ensures schedules == old(schedules)[job.id := WithStatus(old(schedules)[job.id], Running, None, clock)]
    {
      var _ := UpdateStatus(job.id, Running, None, writeOk, Some(Mark));
      Record(Start);
    }

    method FinishJob(job: UpdateSchedule, error: Option<string>, writeOk: bool)
      requires Valid() && Now().executor.Flashing? && Now().executor.job == job && job.id in schedules
      modifies this
      ensures Valid() && clock == old(clock) && Now().executor == Ready(old(Now().executor.rest))
      ensures schedules == old(schedules)[job.id :=
                WithStatus(old(schedules)[job.id], if error.Some? then Failed else Completed, error, clock)]
    {
      var outcome := if error.Some? then Failed else Completed;
      var _ := UpdateStatus(job.id, outcome, error, writeOk, Some(Finish(error)));
    }
  }

  /** The filter of `get_due_schedules` over the hash map's iteration. */
  function GetDueSchedules(values: seq<UpdateSchedule>, now: Time): seq<UpdateSchedule> {
    if values == [] then []
    else
      var s, before := values[|values| - 1], GetDueSchedules(values[..|values| - 1], now);
      if Due(s, now) then before + [s] else before
  }

  /** A schedule is fetched exactly when it is Pending, has a time, and that time has come. */
  lemma {:induction false} FetchedWhenItsTimeHasCome(values: seq<UpdateSchedule>, now: Time, s: UpdateSchedule)
    ensures s in GetDueSchedules(values, now) <==>
              && s in values && s.status == Pending
              && s.request.scheduledAt.Some? && s.request.scheduledAt.value <= now
  {
    if values != [] {
      var n := |values| - 1;
      FetchedWhenItsTimeHasCome(values[..n], now, s);
      assert values == values[..n] + [values[n]];
    }
  }

  lemma {:induction false} DueSchedulesAre(values: seq<UpdateSchedule>, now: Time)
    requires DistinctIds(values)
    ensures DistinctIds(GetDueSchedules(values, now))
    ensures forall s :: s in GetDueSchedules(values, now) <==> s in values && Due(s, now)
  {
    if values != [] {
      var n := |values| - 1;
      DueSchedulesAre(values[..n], now);
      assert values == values[..n] + [values[n]];
      var before := GetDueSchedules(values[..n], now);
      forall i | 0 <= i < |before| ensures before[i].id != values[n].id {
        assert before[i] in values[..n];
      }
    }
  }

  /** What the executor fetches is a listing of the due schedules, as the protocol requires of a batch. */
  lemma FetchedBatchListsDue(values: seq<UpdateSchedule>, m: Registry, now: Time)
    requires Iterates(values, m)
    ensures ListsDue(GetDueSchedules(values, now), m, now)
  {
    DueSchedulesAre(values, now);
    var due := GetDueSchedules(values, now);
    forall i | 0 <= i < |due| ensures due[i].id in m && m[due[i].id] == due[i] && Due(due[i], now) {
      assert due[i] in due;
    }
    forall id | id in m && Due(m[id], now) ensures HasId(due, id) {
      var k :| 0 <= k < |values| && values[k].id == id;
      assert values[k] in due;
    }
  }
}
