/**
 The rollback history: one event per schedule that `register_rollback` ever marked, read from its live record. A
 manual rollback marks none. The record may still change, so an event can be lost; the lemmas here say exactly when.
 */
module RollbackHistory {
  import opened Wrappers
  import opened Schedules
  import opened SchedulerProtocol
  import opened ExecutorProperties
  import opened StartConditions
  import opened RollbackOrder

  datatype RollbackEvent = RollbackEvent(timestamp: Option<Time>, reason: string, automatic: bool)

  function AsEvent(s: UpdateSchedule): RollbackEvent {
    RollbackEvent(s.completedAt, s.rollbackReason.UnwrapOr("Unknown"), s.request.enableAutoRollback)
  }

  function RollbackHistory(values: seq<UpdateSchedule>): seq<RollbackEvent> {
    if values == [] then []
    else
      var s, before := values[|values| - 1], RollbackHistory(values[..|values| - 1]);
      if s.rollbackTriggered then before + [AsEvent(s)] else before
  }

  function TriggeredIn(values: seq<UpdateSchedule>): set<Id> {
    set i | 0 <= i < |values| && values[i].rollbackTriggered :: values[i].id
  }

  lemma {:induction false} HistoryListsTriggered(values: seq<UpdateSchedule>)
    requires DistinctIds(values)
    ensures |RollbackHistory(values)| == |TriggeredIn(values)|
  {
    if values != [] {
      var n := |values| - 1;
      assert forall i | 0 <= i < n :: values[..n][i] == values[i];
      HistoryListsTriggered(values[..n]);
      TriggeredInLast(values);
    }
  }

  lemma {:induction false} HistoryHasEvent(values: seq<UpdateSchedule>, i: nat)
    requires i < |values| && values[i].rollbackTriggered
    ensures AsEvent(values[i]) in RollbackHistory(values)
  {
    if i < |values| - 1 {
      HistoryHasEvent(values[..|values| - 1], i);
    }
  }

  lemma TriggeredInLast(values: seq<UpdateSchedule>)
    requires DistinctIds(values) && values != []
    ensures var last, before := values[|values| - 1], TriggeredIn(values[..|values| - 1]);
      && last.id !in before
      && TriggeredIn(values) == if last.rollbackTriggered then before + {last.id} else before
  {
    var n := |values| - 1;
    assert forall i | 0 <= i < n :: values[..n][i] == values[i];
  }

  /**
   What the history says of the last schedule it lists: when its record says it ended, the reason if there is one,
   and whether the schedule had asked for automatic rollback, which is not whether the rollback was one.
   */
  lemma EventOf(before: seq<UpdateSchedule>, s: UpdateSchedule)
    ensures RollbackHistory(before + [s]) == if !s.rollbackTriggered then RollbackHistory(before) else
              RollbackHistory(before) + [RollbackEvent(s.completedAt,
                                                       if s.rollbackReason.Some? then s.rollbackReason.value
                                                       else "Unknown",
                                                       s.request.enableAutoRollback)]
  {
    assert (before + [s])[..|before|] == before;
  }

  /** The history has exactly one event per schedule whose record is marked. */
  lemma HistoryCount(values: seq<UpdateSchedule>, m: Registry)
    requires Iterates(values, m)
    ensures |RollbackHistory(values)| == |TriggeredIds(m)|
    ensures forall id | id in TriggeredIds(m) :: AsEvent(m[id]) in RollbackHistory(values)
  {
    HistoryListsTriggered(values);
    forall id | id in m
      ensures exists i :: 0 <= i < |values| && values[i] == m[id]
      ensures id in TriggeredIds(m) ==> AsEvent(m[id]) in RollbackHistory(values)
    {
      var i :| 0 <= i < |values| && values[i].id == id;
      if values[i].rollbackTriggered {
        HistoryHasEvent(values, i);
      }
    }
    assert TriggeredIn(values) == TriggeredIds(m);
  }

  lemma TriggeredEvolve(m: Registry, m': Registry)
    requires RegistryEvolves(m, m')
    ensures TriggeredIds(m) <= TriggeredIds(m')
  {
  }

  lemma TriggeredOnFileOneStep(s: State, l: Label)
    requires Inv(s) && Enabled(s, l) && !Destroys(s, l)
    ensures TriggeredIds(s.file) <= TriggeredIds(Do(s, l).file)
  {
    if s.stored <= s.log {
      FileIsInMemory(s);
    }
  }

  lemma {:induction false} TriggeredOnFileStay(s: State, run: seq<Label>)
    requires Inv(s) && Legal(s, run) && NothingDestroyed(s, run)
    ensures TriggeredIds(s.file) <= TriggeredIds(Final(s, run).file)
    decreases run
  {
    if run != [] {
      TriggeredOnFileOneStep(s, run[0]);
      DurabilityKept(s, run[0]);
      ProtocolKept(s, run[0]);
      TriggeredOnFileStay(Do(s, run[0]), run[1..]);
    }
  }

  /**
   A schedule once in the history stays in it: without a crash all that were there still are; over any run that
   overwrites no unread file all that were on file still are, and are in memory too if that file could be read.
   */
  lemma HistoryKeepsSchedules(past: seq<Label>, run: seq<Label>)
    requires Legal(INIT, past) && Legal(Final(INIT, past), run)
    ensures var s, s' := Final(INIT, past), Final(Final(INIT, past), run);
      && (NoCrash(run) ==> TriggeredIds(s.live) <= TriggeredIds(s'.live))
      && (NothingDestroyed(s, run) ==> TriggeredIds(s.file) <= TriggeredIds(s'.file))
      && (s'.stored <= s'.log ==> TriggeredIds(s'.file) <= TriggeredIds(s'.live))
  {
    InvHolds(INIT, past);
    var s := Final(INIT, past);
    InvHolds(s, run);
    var s' := Final(s, run);
    if NothingDestroyed(s, run) {
      TriggeredOnFileStay(s, run);
    }
    if s'.stored <= s'.log {
      FileIsInMemory(s');
    }
    if NoCrash(run) {
      LiveEvolvesAlong(s, run);
      TriggeredEvolve(s.live, s'.live);
    }
  }

  // ----- When an event can still be lost -----

  /** One step, short of a crash, loses the event if and only if it finishes or rolls back that very schedule anew. */
  lemma EventChangesIff(past: seq<Label>, l: Label, id: Id)
    requires Legal(INIT, past) && Enabled(Final(INIT, past), l) && !l.Crash?
    requires id in Final(INIT, past).live && Final(INIT, past).live[id].rollbackTriggered
    ensures var s := Final(INIT, past); var r := s.live[id];
      && id in Do(s, l).live
      && (AsEvent(Do(s, l).live[id]) != AsEvent(r) <==>
            || (l.Finish? && s.executor.job.id == id && r.completedAt != Some(s.clock))
            || (l.CallRollBack? && l.id == id
                && (r.completedAt != Some(s.clock) || AsEvent(r).reason != l.reason)))
  {
    InvHolds(INIT, past);
    RecordsConsistent(past);
    EventStep(Final(INIT, past), l, id);
  }

  lemma EventStep(s: State, l: Label, id: Id)
    requires Inv(s) && Enabled(s, l) && !l.Crash?
    requires id in s.live && s.live[id].rollbackTriggered && Consistent(s.live[id], s.clock)
    ensures id in Do(s, l).live
    ensures AsEvent(Do(s, l).live[id]) != AsEvent(s.live[id]) <==>
              || (l.Finish? && s.executor.job.id == id && s.live[id].completedAt != Some(s.clock))
              || (l.CallRollBack? && l.id == id
                  && (s.live[id].completedAt != Some(s.clock) || AsEvent(s.live[id]).reason != l.reason))
  {
    if l.Mark? || l.Expire? || l.Finish? {
      assert l.Mark? || l.Expire? ==> s.executor.job.id != id;
    } else if !l.CallRollBack? {
      LiveEvolves(s, l);
      assert Do(s, l).live[id] == s.live[id];
    }
  }

  /** Some continuation without a crash changes the event. */
  ghost predicate EventLosable(s: State, id: Id)
    requires id in s.live
  {
    exists run :: Legal(s, run) && NoCrash(run) && id in Final(s, run).live
                  && AsEvent(Final(s, run).live[id]) != AsEvent(s.live[id])
  }

  /** Some continuation without a crash lets `register_rollback` pick the schedule. */
  ghost predicate RollBackReachable(s: State, id: Id) {
    exists run :: Legal(s, run) && NoCrash(run) && CanBeRolledBack(Final(s, run), id)
  }

  /** A call of `register_rollback` would now find the lock free and pick the schedule. */
  predicate CanBeRolledBack(s: State, id: Id) {
    NoReaders(s) && !s.spent && IsLatestActive(s.live, id)
  }

  /** Nothing is left that could touch the record. */
  predicate Settled(s: State, id: Id) {
    id in s.live && (s.live[id].status.RolledBack? || s.live[id].status.Failed?) && !InHand(s, id)
  }

  lemma SettledOneStep(s: State, l: Label, id: Id)
    requires Inv(s) && Enabled(s, l) && !l.Crash? && Settled(s, id)
    ensures Settled(Do(s, l), id) && Do(s, l).live[id] == s.live[id]
  {
  }

  lemma {:induction false} SettledStays(s: State, run: seq<Label>, id: Id)
    requires Inv(s) && Legal(s, run) && NoCrash(run) && Settled(s, id)
    ensures Settled(Final(s, run), id) && Final(s, run).live[id] == s.live[id]
    decreases run
  {
    if run != [] {
      assert !run[0].Crash?;
      assert forall i | 0 <= i < |run| - 1 :: run[1..][i] == run[i + 1];
      SettledOneStep(s, run[0], id);
      DurabilityKept(s, run[0]);
      ProtocolKept(s, run[0]);
      SettledStays(Do(s, run[0]), run[1..], id);
    }
  }

  // ----- The schedule in hand -----

  /** What is in hand was marked Running by this process, so if it is rolled back, this process has done it. */
  predicate HandInv(s: State) {
    forall id | id in s.live && InHand(s, id) && s.live[id].status.RolledBack? :: s.spent
  }

  lemma HandKept(s: State, l: Label)
    requires Inv(s) && HandInv(s) && Enabled(s, l)
    ensures HandInv(Do(s, l))
  {
  }

  lemma {:induction false} HandHolds(s: State, run: seq<Label>)
    requires Inv(s) && HandInv(s) && Legal(s, run)
    ensures HandInv(Final(s, run))
    decreases run
  {
    if run != [] {
      HandKept(s, run[0]);
      DurabilityKept(s, run[0]);
      ProtocolKept(s, run[0]);
      HandHolds(Do(s, run[0]), run[1..]);
    }
  }

  /** What is in hand may be brought to where it is being flashed, with no call in flight. */
  lemma ReachFlashing(s: State, id: Id) returns (run: seq<Label>)
    requires Inv(s) && InHand(s, id)
    ensures Legal(s, run) && NoCrash(run)
    ensures Final(s, run).executor == Flashing(s.executor.job, s.executor.rest) && Final(s, run).calls == map[]
    ensures Final(s, run).live == s.live && Final(s, run).clock == s.clock && Final(s, run).spent == s.spent
  {
    run := Settle(s);
    if s.executor.Marked? {
      Extend(s, run, Start);
      run := run + [Start];
    }
  }

  /** The executor may finish what it has in hand, a second from now, well or badly. */
  lemma ReachFinish(s: State, id: Id, error: Option<string>) returns (run: seq<Label>)
    requires Inv(s) && InHand(s, id)
    ensures Legal(s, run) && NoCrash(run) && Final(s, run).clock == s.clock + 1 && Final(s, run).spent == s.spent
    ensures Final(s, run).live
            == Apply(s.live, SetStatus(id, if error.Some? then Failed else Completed, error, s.clock + 1))
  {
    run := ReachFlashing(s, id);
    var s1 := Final(s, run);
    Extend(s, run, Tick(1));
    Extend(s, run + [Tick(1)], Finish(error));
    run := run + [Tick(1)] + [Finish(error)];
    assert Final(s, run) == Do(Do(s1, Tick(1)), Finish(error));
  }

  // ----- The second rollback of a schedule -----

  /** Another active schedule started later, and the executor is not about to end it. */
  predicate Blocks(s: State, id: Id, other: Id)
    requires id in s.live
  {
    && other in s.live && Active(s.live[other]) && !InHand(s, other)
    && !NoLaterThan(s.live[other].startedAt, s.live[id].startedAt)
  }

  /** The process has its call left, and no schedule that started later is there to stay. */
  predicate OpenToRollBack(s: State, id: Id) {
    && id in s.live && s.live[id].status.Completed? && !s.spent
    && forall other | other in s.live :: !Blocks(s, id, other)
  }

  predicate Closed(s: State, id: Id, other: Id) {
    id in s.live && s.live[id].status.Completed? && (s.spent || Blocks(s, id, other))
  }

  lemma ClosedOneStep(s: State, l: Label, id: Id, other: Id)
    requires Inv(s) && Enabled(s, l) && !l.Crash? && Closed(s, id, other)
    ensures Closed(Do(s, l), id, other) && Do(s, l).live[id] == s.live[id]
  {
  }

  lemma {:induction false} ClosedStays(s: State, run: seq<Label>, id: Id, other: Id)
    requires Inv(s) && Legal(s, run) && NoCrash(run) && Closed(s, id, other)
    ensures Closed(Final(s, run), id, other) && Final(s, run).live[id] == s.live[id]
    decreases run
  {
    if run != [] {
      assert !run[0].Crash?;
      assert forall i | 0 <= i < |run| - 1 :: run[1..][i] == run[i + 1];
      ClosedOneStep(s, run[0], id, other);
      DurabilityKept(s, run[0]);
      ProtocolKept(s, run[0]);
      ClosedStays(Do(s, run[0]), run[1..], id, other);
    }
  }

  lemma ClosedIsSafe(s: State, id: Id, other: Id)
    requires Inv(s) && Closed(s, id, other)
    ensures !EventLosable(s, id) && !RollBackReachable(s, id)
  {
    forall run | Legal(s, run) && NoCrash(run)
      ensures id in Final(s, run).live && Final(s, run).live[id] == s.live[id] && !CanBeRolledBack(Final(s, run), id)
    {
      ClosedStays(s, run, id, other);
    }
  }

  lemma {:induction false} SpentStays(s: State, run: seq<Label>)
    requires Legal(s, run) && NoCrash(run) && s.spent
    ensures Final(s, run).spent
    decreases run
  {
    if run != [] {
      assert !run[0].Crash?;
      assert forall i | 0 <= i < |run| - 1 :: run[1..][i] == run[i + 1];
      SpentStays(Do(s, run[0]), run[1..]);
    }
  }

  lemma FailingOpens(s: State, id: Id, m: Registry, at: Time)
    requires Inv(s) && OpenToRollBack(s, id) && (s.executor.Marked? || s.executor.Flashing?)
    requires m == Apply(s.live, SetStatus(s.executor.job.id, Failed, Some(""), at))
    ensures IsLatestActive(m, id) && m[id] == s.live[id]
  {
    assert forall other | other in m && Active(m[other]) :: m[other] == s.live[other] && !InHand(s, other);
  }

  /** A later-started schedule in hand fails first; then the call finds this one the latest. */
  lemma ReachRollBack(s: State, id: Id) returns (run: seq<Label>)
    requires Inv(s) && OpenToRollBack(s, id)
    ensures Legal(s, run) && NoCrash(run) && CanBeRolledBack(Final(s, run), id) && Final(s, run).calls == map[]
    ensures id in Final(s, run).live && Final(s, run).live[id] == s.live[id]
  {
    if s.executor.Marked? || s.executor.Flashing? {
      var a := ReachFinish(s, s.executor.job.id, Some(""));
      FailingOpens(s, id, Final(s, a).live, s.clock + 1);
      var b := Settle(Final(s, a));
      Concat(s, a, b);
      run := a + b;
    } else {
      run := Settle(s);
    }
  }

  lemma OpenIsLosable(s: State, id: Id)
    requires Inv(s) && OpenToRollBack(s, id) && Consistent(s.live[id], s.clock)
    ensures EventLosable(s, id) && RollBackReachable(s, id)
  {
    var a := ReachRollBack(s, id);
    ClockAdvances(s, a);
    Extend(s, a, Tick(1));
    var s1 := Do(Final(s, a), Tick(1));
    Extend(s, a + [Tick(1)], CallRollBack(1, id, REASON));
    var run := a + [Tick(1)] + [CallRollBack(1, id, REASON)];
    assert Final(s, run).live[id].completedAt == Some(s1.clock);
    assert NoCrash(run) && AsEvent(Final(s, run).live[id]) != AsEvent(s.live[id]);
  }

  lemma {:induction false} ClockAdvances(s: State, run: seq<Label>)
    requires Legal(s, run)
    ensures s.clock <= Final(s, run).clock
    decreases run
  {
    if run != [] {
      ClockAdvances(Do(s, run[0]), run[1..]);
    }
  }

  lemma InHandIsLosable(s: State, id: Id)
    requires Inv(s) && HandInv(s) && InHand(s, id) && Consistent(s.live[id], s.clock) && s.live[id].rollbackTriggered
    ensures EventLosable(s, id) && !RollBackReachable(s, id)
  {
    var a := ReachFinish(s, id, None);
    assert AsEvent(Final(s, a).live[id]) != AsEvent(s.live[id]);
    forall run | Legal(s, run) && NoCrash(run) ensures !CanBeRolledBack(Final(s, run), id) {
      SpentStays(s, run);
    }
  }

  /**
   Without a crash, the event of a marked schedule can still change if and only if the executor has the schedule
   in hand, or it can be marked again; and that it can if and only if it is Completed, this process has not made
   its `register_rollback` call, and every active schedule that started later is in the executor's hand.
   */
  lemma EventLosableIff(past: seq<Label>, id: Id)
    requires Legal(INIT, past)
    requires id in Final(INIT, past).live && Final(INIT, past).live[id].rollbackTriggered
    ensures var s := Final(INIT, past);
      && (EventLosable(s, id) <==> InHand(s, id) || OpenToRollBack(s, id))
      && (RollBackReachable(s, id) <==> OpenToRollBack(s, id))
  {
    InvHolds(INIT, past);
    RecordsConsistent(past);
    HandHolds(INIT, past);
    var s := Final(INIT, past);
    assert Consistent(s.live[id], s.clock);
    if InHand(s, id) {
      InHandIsLosable(s, id);
    } else if OpenToRollBack(s, id) {
      OpenIsLosable(s, id);
    } else if s.live[id].status.Completed? {
      var other :| s.spent || (other in s.live && Blocks(s, id, other));
      ClosedIsSafe(s, id, other);
    } else {
      SettledIsSafe(s, id);
    }
  }

  lemma SettledIsSafe(s: State, id: Id)
    requires Inv(s) && Settled(s, id)
    ensures !EventLosable(s, id) && !RollBackReachable(s, id)
  {
    forall run | Legal(s, run) && NoCrash(run)
      ensures id in Final(s, run).live && Final(s, run).live[id] == s.live[id]
    {
      SettledStays(s, run, id);
    }
  }

  /**
   Once a settled event is on file it is there, unchanged, after any run with any crashes in which no unread file
   is overwritten; and so it is in memory, if the schedule is there at all.
   */
  lemma {:induction false} SettledOnFileIsFinal(s: State, run: seq<Label>, id: Id, r: UpdateSchedule)
    requires Inv(s) && Legal(s, run) && NothingDestroyed(s, run) && SettledOnFile(s, id, r)
    ensures SettledOnFile(Final(s, run), id, r)
    decreases run
  {
    if run != [] {
      SettledOnFileOneStep(s, run[0], id, r);
      DurabilityKept(s, run[0]);
      ProtocolKept(s, run[0]);
      SettledOnFileIsFinal(Do(s, run[0]), run[1..], id, r);
    }
  }

  predicate SettledOnFile(s: State, id: Id, r: UpdateSchedule) {
    && id in s.file && s.file[id] == r && (r.status.RolledBack? || r.status.Failed?)
    && (id in s.live ==> s.live[id] == r && Settled(s, id))
  }

  lemma SettledOnFileOneStep(s: State, l: Label, id: Id, r: UpdateSchedule)
    requires Inv(s) && Enabled(s, l) && !Destroys(s, l) && SettledOnFile(s, id, r)
    ensures SettledOnFile(Do(s, l), id, r)
  {
    if s.stored <= s.log {
      FileIsInMemory(s);
    }
    if !l.Crash? && id in s.live {
      SettledOneStep(s, l, id);
    }
  }
}
