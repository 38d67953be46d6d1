/** The agent's background tasks over the scheduler and the disk: the executor loop and the rollback supervisor. */
module AgentTasks {
  import opened Wrappers
  import opened Schedules
  import opened SchedulerProtocol
  import opened ExecutorProperties
  import opened StartConditions
  import opened RollbackOrder
  import opened UpdateScheduler
  import opened Flash
  import opened Slots
  import opened Machine

  const UPDATE_FAILED := "Scheduled update failed"

  /** What the environment does during one due schedule: time passing, the update's outcomes, the two writes. */
  datatype Turn = Turn(beforeMark: nat, duration: nat, plan: UpdatePlan, firstWriteOk: bool, lastWriteOk: bool)

  /**
   What the executor leaves of the live record `before` of a due schedule that it comes to at `now` holding the
   copy `job`; `ok` is the update's outcome. The window and the update go by the copy.
   */
  predicate Processed(job: UpdateSchedule, before: UpdateSchedule, after: UpdateSchedule, turn: Turn, now: Time,
                      ok: bool)
  {
    && after.request == before.request && after.rollbackTriggered == before.rollbackTriggered
    && if IsWithinMaintenanceWindow(job.request, now) then
         && after.startedAt == Some(now + turn.beforeMark)
         && after.completedAt == Some(now + turn.beforeMark + turn.duration)
         && after.errorMessage == (if ok then None else Some(UPDATE_FAILED))
         && after.status == (if ok then Completed else Failed)
       else
         && after.startedAt == before.startedAt
         && after.completedAt == Some(now + turn.beforeMark)
         && after.errorMessage == Some(WINDOW_EXPIRED)
         && after.status == Failed
  }

  // ----- A round of the executor -----

  /** How far a round has got: the time, and the disk. */
  datatype Progress = Progress(clock: Time, node: Node)

  /** One schedule: executed if its window is open when the executor comes to it, passed over if not. */
  function AfterJob(c: Codec, p: Progress, job: UpdateSchedule, turn: Turn): Progress {
    if IsWithinMaintenanceWindow(job.request, p.clock)
    then Progress(p.clock + turn.beforeMark + turn.duration, AfterUpdate(c, p.node, job.request, turn.plan))
    else Progress(p.clock + turn.beforeMark, p.node)
  }

  function AfterJobs(c: Codec, p: Progress, due: seq<UpdateSchedule>, turns: Id -> Turn): Progress {
    if due == [] then p
    else
      var job := due[|due| - 1];
      AfterJob(c, AfterJobs(c, p, due[..|due| - 1], turns), job, turns(job.id))
  }

  /** The `k`-th due schedule has been processed, from where the ones before it had left the clock and the disk. */
  predicate DoneWith(c: Codec, due: seq<UpdateSchedule>, k: nat, m: Registry, turns: Id -> Turn, start: Progress)
    requires k < |due|
  {
    var job, p := due[k], AfterJobs(c, start, due[..k], turns);
    && job.id in m
    && Processed(job, job, m[job.id], turns(job.id), p.clock,
                 UpdateOk(c, p.node, job.request, turns(job.id).plan))
  }

  /** No update of the round takes slot A to be active while slot B runs. */
  predicate WellDetected(due: seq<UpdateSchedule>, turns: Id -> Turn, running: nat) {
    forall i | 0 <= i < |due| :: !Misdetects(running, turns(due[i].id).plan.active)
  }

  predicate SameRunningSlot(n: Node, n': Node) {
    n'.running == n.running && n'.Slot(n.running) == n.Slot(n.running)
  }

  lemma {:induction false} RoundKeepsRunningSlot(c: Codec, p: Progress, due: seq<UpdateSchedule>, turns: Id -> Turn)
    requires p.node.Valid()
    ensures AfterJobs(c, p, due, turns).node.Valid() && AfterJobs(c, p, due, turns).node.running == p.node.running
    ensures WellDetected(due, turns, p.node.running) ==>
              SameRunningSlot(p.node, AfterJobs(c, p, due, turns).node)
  {
    if due != [] {
      var n := |due| - 1;
      RoundKeepsRunningSlot(c, p, due[..n], turns);
      UpdateIsSafe(c, AfterJobs(c, p, due[..n], turns).node, due[n].request, turns(due[n].id).plan);
      if WellDetected(due, turns, p.node.running) {
        assert !Misdetects(p.node.running, turns(due[n].id).plan.active);
        assert forall i | 0 <= i < n :: due[..n][i] == due[i];
      }
    }
  }

  /** Mark, execute, record the outcome: the schedule is Completed exactly when the update switched the boot flag. */
  method Execute(c: Codec, scheduler: Scheduler, disk: Disk, job: UpdateSchedule, turn: Turn)
    requires scheduler.Valid() && disk.Valid()
    requires scheduler.Now().executor.Admitted? && scheduler.Now().executor.job == job && job.id in scheduler.schedules
    modifies scheduler, disk, disk.slotA, disk.slotB
    ensures scheduler.Valid() && disk.Valid() && scheduler.clock == old(scheduler.clock) + turn.duration
    ensures scheduler.Now().executor == Ready(old(scheduler.Now().executor.rest))
    ensures disk.AsNode() == AfterUpdate(c, old(disk.AsNode()), job.request, turn.plan)
    ensures var ok := UpdateOk(c, old(disk.AsNode()), job.request, turn.plan);
            var marked := WithStatus(old(scheduler.schedules)[job.id], Running, None, old(scheduler.clock));
      scheduler.schedules == old(scheduler.schedules)[job.id :=
        WithStatus(marked, if ok then Completed else Failed, if ok then None else Some(UPDATE_FAILED), scheduler.clock)]
  {
    scheduler.MarkJob(job, turn.firstWriteOk);
    var ok := disk.ExecuteScheduledUpdate(c, job.request, turn.plan);
    scheduler.Elapse(turn.duration);
    scheduler.FinishJob(job, if ok then None else Some(UPDATE_FAILED), turn.lastWriteOk);
  }

  /** A schedule of the batch is still in the registry: nothing ever removes one. */
  lemma HeadIsLive(past: seq<Label>)
    requires Legal(INIT, past) && Final(INIT, past).executor.rest != []
    ensures Final(INIT, past).executor.rest[0].id in Final(INIT, past).live
  {
    InvHolds(INIT, past);
    assert FaithfulCopy(Final(INIT, past).executor.rest[0], Final(INIT, past).live);
  }

  /**
   The loop body for one schedule of the batch, whatever has become of its live record since the fetch. Inside
   the window the update is executed and the schedule is Completed exactly when the disk was switched to a
   verified image; outside it the disk is not touched.
   */
  method RunOne(c: Codec, scheduler: Scheduler, disk: Disk, job: UpdateSchedule, turn: Turn)
    requires scheduler.Valid() && disk.Valid() && scheduler.Now().executor.Ready?
    requires scheduler.Now().executor.rest != [] && scheduler.Now().executor.rest[0] == job
    modifies scheduler, disk, disk.slotA, disk.slotB
    ensures scheduler.Valid() && disk.Valid()
    ensures scheduler.Now().executor == Ready(old(scheduler.Now().executor.rest)[1..])
    ensures job.id in old(scheduler.schedules) && job.id in scheduler.schedules
    ensures scheduler.schedules == old(scheduler.schedules)[job.id := scheduler.schedules[job.id]]
    ensures Processed(job, old(scheduler.schedules)[job.id], scheduler.schedules[job.id], turn, old(scheduler.clock),
                      UpdateOk(c, old(disk.AsNode()), job.request, turn.plan))
    ensures Progress(scheduler.clock, disk.AsNode())
            == AfterJob(c, Progress(old(scheduler.clock), old(disk.AsNode())), job, turn)
  {
    HeadIsLive(scheduler.past);
    var open := scheduler.CheckWindow(job, turn.beforeMark);
    if open {
      Execute(c, scheduler, disk, job, turn);
    } else {
      scheduler.ExpireJob(job, turn.firstWriteOk);
    }
  }

  /**
   One round of the executor loop with no other task interfering: each due schedule is executed, or failed for
   having missed its window, at the time and on the disk the ones before it in the batch have left; no other
   schedule changes; and the running slot is not written unless slot A is assumed active while slot B runs.
   */
  method ExecutorRound(c: Codec, scheduler: Scheduler, disk: Disk, values: seq<UpdateSchedule>, turns: Id -> Turn)
    requires scheduler.Valid() && scheduler.Now().executor == Ready([]) && disk.Valid()
    requires Iterates(values, scheduler.schedules)
    modifies scheduler, disk, disk.slotA, disk.slotB
    ensures scheduler.Valid() && scheduler.Now().executor == Ready([]) && disk.Valid()
    ensures var due, start := GetDueSchedules(values, old(scheduler.clock)),
                              Progress(old(scheduler.clock), old(disk.AsNode()));
      && ListsDue(due, old(scheduler.schedules), old(scheduler.clock))
      && scheduler.schedules.Keys == old(scheduler.schedules).Keys
      && (forall k | 0 <= k < |due| :: DoneWith(c, due, k, scheduler.schedules, turns, start))
      && (forall k | 0 <= k < |due| ::
            due[k].status == Pending && due[k].request.scheduledAt.Some?
            && due[k].request.scheduledAt.value <= old(scheduler.clock))
      && (forall id | id in scheduler.schedules && !IsDueAt(old(scheduler.schedules)[id], old(scheduler.clock)) ::
            scheduler.schedules[id] == old(scheduler.schedules)[id])
      && Progress(scheduler.clock, disk.AsNode()) == AfterJobs(c, start, due, turns)
      && (WellDetected(due, turns, start.node.running) ==> SameRunningSlot(start.node, disk.AsNode()))
  {
    FetchedBatchListsDue(values, scheduler.schedules, scheduler.clock);
    var due := GetDueSchedules(values, scheduler.clock);
    scheduler.Record(Fetch(due, scheduler.clock));
    RoundKeepsRunningSlot(c, Progress(scheduler.clock, disk.AsNode()), due, turns);
    RunBatch(c, scheduler, disk, due, turns);
    ghost var before := old(scheduler.schedules);
    assert forall k | 0 <= k < |due| :: due[k] in due;
    forall id | id in before && !IsDueAt(before[id], old(scheduler.clock)) ensures Untouched(due, |due|, id) {
    }
  }

  /** Pending, and its time has come. */
  predicate IsDueAt(s: UpdateSchedule, now: Time) {
    s.status == Pending && TimeHasCome(s, now)
  }

  /** The loop over the batch. */
  method RunBatch(c: Codec, scheduler: Scheduler, disk: Disk, due: seq<UpdateSchedule>, turns: Id -> Turn)
    requires scheduler.Valid() && scheduler.Now().executor == Ready(due) && disk.Valid()
    requires Batch(due, scheduler.schedules)
    modifies scheduler, disk, disk.slotA, disk.slotB
    ensures scheduler.Valid() && scheduler.Now().executor == Ready([]) && disk.Valid()
    ensures var start := Progress(old(scheduler.clock), old(disk.AsNode()));
      && RoundSoFar(c, due, |due|, old(scheduler.schedules), scheduler.schedules, turns, start)
      && Progress(scheduler.clock, disk.AsNode()) == AfterJobs(c, start, due, turns)
  {
    ghost var before, start := scheduler.schedules, Progress(scheduler.clock, disk.AsNode());
    var i := 0;
    assert due[0..] == due && due[..0] == [];
    while i < |due|
      invariant 0 <= i <= |due|
      invariant scheduler.Valid() && scheduler.Now().executor == Ready(due[i..]) && disk.Valid()
      invariant RoundSoFar(c, due, i, before, scheduler.schedules, turns, start)
      invariant Progress(scheduler.clock, disk.AsNode()) == AfterJobs(c, start, due[..i], turns)
    {
      assert due[i..][0] == due[i] && due[i..][1..] == due[i + 1..] && due[..i + 1][..i] == due[..i];
      ghost var m := scheduler.schedules;
      NextIsUntouched(c, due, i, before, m, turns, start);
      RunOne(c, scheduler, disk, due[i], turns(due[i].id));
      OneMore(c, due, i, before, m, scheduler.schedules, turns, start);
      i := i + 1;
    }
    assert due[..i] == due;
  }

  predicate Batch(due: seq<UpdateSchedule>, before: Registry) {
    DistinctIds(due) && forall k | 0 <= k < |due| :: due[k].id in before && before[due[k].id] == due[k]
  }

  /** The first `i` due schedules are processed and nothing else has changed. */
  predicate RoundSoFar(c: Codec, due: seq<UpdateSchedule>, i: nat, before: Registry, m: Registry,
                       turns: Id -> Turn, start: Progress)
    requires i <= |due|
  {
    && m.Keys == before.Keys && Batch(due, before)
    && (forall k | 0 <= k < i :: DoneWith(c, due, k, m, turns, start))
    && (forall id | id in m && Untouched(due, i, id) :: m[id] == before[id])
  }

  predicate Untouched(due: seq<UpdateSchedule>, i: nat, id: Id)
    requires i <= |due|
  {
    forall k | 0 <= k < i :: due[k].id != id
  }

  lemma NextIsUntouched(c: Codec, due: seq<UpdateSchedule>, i: nat, before: Registry, m: Registry,
                        turns: Id -> Turn, start: Progress)
    requires i < |due| && RoundSoFar(c, due, i, before, m, turns, start)
    ensures due[i].id in m && m[due[i].id] == due[i]
  {
    assert Untouched(due, i, due[i].id);
  }

  lemma OneMore(c: Codec, due: seq<UpdateSchedule>, i: nat, before: Registry, m: Registry, m': Registry,
                turns: Id -> Turn, start: Progress)
    requires i < |due| && RoundSoFar(c, due, i, before, m, turns, start)
    requires due[i].id in m' && m' == m[due[i].id := m'[due[i].id]]
    requires DoneWith(c, due, i, m', turns, start)
    ensures RoundSoFar(c, due, i + 1, before, m', turns, start)
  {
    forall k | 0 <= k < i ensures DoneWith(c, due, k, m', turns, start) {
      assert due[k].id != due[i].id;
      assert DoneWith(c, due, k, m, turns, start);
      assert m'[due[k].id] == m[due[k].id];
    }
    forall id | id in m' && Untouched(due, i + 1, id) ensures m'[id] == before[id] {
      assert id != due[i].id && Untouched(due, i, id);
    }
    assert m'.Keys == m.Keys;
  }

  // ----- The rollback supervisor -----

  /** Its decision: Unhealthy, and the schedule that is then the latest active one asked for automatic rollback. */
  method ShouldRollBack(values: seq<UpdateSchedule>, unhealthy: bool) returns (decided: bool)
    ensures decided <==>
              unhealthy && LatestActive(values).Some? && LatestActive(values).value.request.enableAutoRollback
  {
    decided := false;
    if unhealthy {
      var latest := LatestActive(values);
      decided := latest.Some? && latest.value.request.enableAutoRollback;
    }
  }

  /**
   What follows the decision, any number of steps of other tasks later: the schedule that is the latest active
   one by now is marked, whether or not it asked for it, and the disk is rolled back even if the mark could not
   be written or nothing is active any more.
   */
  method RollBackNow(scheduler: Scheduler, disk: Disk, values: seq<UpdateSchedule>, writeOk: bool, plan: RollbackPlan,
                     ghost t: Task)
    requires scheduler.Valid() && disk.Valid() && t != EXECUTOR && Iterates(values, scheduler.schedules)
    requires !scheduler.Now().spent // it is started once, and calls once
    modifies scheduler, disk`flags, disk`record
    ensures scheduler.Valid() && disk.Valid()
    ensures disk.AsNode() == AfterRollback(old(disk.AsNode()), plan)
    ensures match LatestActive(values)
      case None => scheduler.schedules == old(scheduler.schedules) && scheduler.file == old(scheduler.file)
      case Some(target) =>
        && IsLatestActive(old(scheduler.schedules), target.id)
        && target.id in scheduler.schedules && scheduler.schedules[target.id].status.RolledBack?
        && scheduler.schedules == old(scheduler.schedules)[target.id := scheduler.schedules[target.id]]
  {
    LatestActivePicks(values, scheduler.schedules);
    var _ := scheduler.RegisterRollback(values, REASON, writeOk, Some(t));
    var _ := disk.RollbackToPreviousPartition(plan);
  }

  /** Both without another task moving in between: what is marked is what was asked. */
  method RollbackSupervisor(scheduler: Scheduler, disk: Disk, values: seq<UpdateSchedule>, unhealthy: bool,
                            writeOk: bool, plan: RollbackPlan, ghost t: Task) returns (acted: bool)
    requires scheduler.Valid() && disk.Valid() && t != EXECUTOR && Iterates(values, scheduler.schedules)
    requires !scheduler.Now().spent // it is started once, and calls once
    modifies scheduler, disk`flags, disk`record
    ensures scheduler.Valid() && disk.Valid()
    ensures acted <==> unhealthy && LatestActive(values).Some? && LatestActive(values).value.request.enableAutoRollback
    ensures disk.AsNode() == if acted then AfterRollback(old(disk.AsNode()), plan) else old(disk.AsNode())
    ensures if acted
            then
              var target := LatestActive(values).value;
              && IsLatestActive(old(scheduler.schedules), target.id)
              && target.id in scheduler.schedules && scheduler.schedules[target.id].status.RolledBack?
              && scheduler.schedules == old(scheduler.schedules)[target.id := scheduler.schedules[target.id]]
            else scheduler.schedules == old(scheduler.schedules) && scheduler.file == old(scheduler.file)
  {
    acted := ShouldRollBack(values, unhealthy);
    if acted {
      RollBackNow(scheduler, disk, values, writeOk, plan, t);
    }
  }
}
