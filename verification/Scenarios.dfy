/** Concrete runs that show what the scheduler does not promise, each from the initial state. */
module Scenarios {
  import opened Wrappers
  import opened Schedules
  import opened SchedulerProtocol
  import opened ExecutorProperties
  import opened StartConditions
  import opened RollbackOrder
  import opened RollbackHistory

  function Request(autoRollback: bool): UpdateRequest {
    UpdateRequest("", None, Some(0), None, autoRollback, None, None, None, false, false, None)
  }

  const FIRST := NewSchedule("a", Request(true), 0)
  const SECOND := NewSchedule("b", Request(false), 0)

  /** The run leads from the initial state to `s`. */
  predicate Reaches(run: seq<Label>, s: State) {
    Legal(INIT, run) && Final(INIT, run) == s
  }

  predicate Prolongs(run: seq<Label>, longer: seq<Label>) {
    run <= longer
  }

  predicate IsCancelled(id: Id, m: Registry) {
    id in m && m[id].status.Cancelled?
  }

  predicate AskedForRollback(id: Id, m: Registry) {
    id in m && m[id].request.enableAutoRollback
  }

  /** A whole mutating call, with no other task moving during it. */
  lemma Call(run: seq<Label>, s: State, l: Label, t: Task, ok: bool) returns (longer: seq<Label>, next: State)
    requires Reaches(run, s) && s.calls == map[]
    requires Enabled(s, l) && Do(s, l).calls == map[t := Dirty(|s.log|)]
    ensures Reaches(longer, next)
    ensures next.live == Do(s, l).live && next.file == (if ok then next.live else s.file)
    ensures next.calls == map[] && next.executor == Do(s, l).executor
    ensures next.clock == Do(s, l).clock && next.issued == Do(s, l).issued && next.starts == Do(s, l).starts
    ensures next.spent == Do(s, l).spent
    ensures Prolongs(run, longer) && (NoCrash(run) && !l.Crash? ==> NoCrash(longer))
  {
    longer, next := Then(run, s, l);
    longer, next := Then(longer, next, Guard(t));
    longer, next := Then(longer, next, Write(t, ok));
    assert next.calls == map[];
  }

  /** One schedule, due at once, fetched and admitted by the executor. */
  lemma Admit() returns (run: seq<Label>, s: State)
    ensures Reaches(run, s) && NoCrash(run)
    ensures s.live == s.file == map["a" := FIRST] && s.calls == map[] && s.clock == 0
    ensures s.executor == Admitted(FIRST, []) && s.issued == {"a"} && s.starts == [] && !s.spent
  {
    run, s := Call([], INIT, CallInsert(1, "a", Request(true), 0), 1, true);
    run, s := FetchFirst(run, s);
  }

  lemma FetchFirst(run: seq<Label>, s: State) returns (longer: seq<Label>, next: State)
    requires Reaches(run, s)
    requires s.live == map["a" := FIRST] && s.calls == map[] && s.executor == Ready([])
    ensures Reaches(longer, next)
    ensures next == s.(executor := Admitted(FIRST, []))
    ensures Prolongs(run, longer) && (NoCrash(run) ==> NoCrash(longer))
  {
    var due := [FIRST];
    assert due[0] == FIRST && HasId(due, "a");
    longer, next := Then(run, s, Fetch(due, 0));
    longer, next := Then(longer, next, Check);
    assert due[1..] == [];
  }

  /** Marked, and started whether or not the mark was written. */
  lemma MarkAndStart(run: seq<Label>, s: State, job: UpdateSchedule, ok: bool) returns (longer: seq<Label>, next: State)
    requires Reaches(run, s) && s.calls == map[] && job.id in s.live
    requires s.executor.Admitted? && s.executor.job == job
    ensures Reaches(longer, next)
    ensures next.live == s.live[job.id := WithStatus(s.live[job.id], Running, None, s.clock)]
    ensures next.file == (if ok then next.live else s.file)
    ensures next.calls == map[] && next.executor == Flashing(job, s.executor.rest)
    ensures next.clock == s.clock && next.issued == s.issued && next.starts == s.starts + [job.id]
    ensures next.spent == s.spent
    ensures Prolongs(run, longer) && (NoCrash(run) ==> NoCrash(longer))
  {
    longer, next := Call(run, s, Mark, EXECUTOR, ok);
    longer, next := Then(longer, next, Start);
  }

  /** A cancellation that returned Ok and is on file is not honoured: the executor had fetched the schedule. */
  lemma CancelledButStarted() returns (past: seq<Label>, s: State, longer: seq<Label>, s': State)
    ensures Reaches(past, s) && Reaches(longer, s') && Prolongs(past, longer)
    ensures IsCancelled("a", s.live) && IsCancelled("a", s.file) && FetchedInTime(s, "a")
    ensures s.calls == map[] && s.starts == [] && s'.starts == ["a"]
  {
    past, s := Admit();
    past, s := Call(past, s, CallCancel(1, "a"), 1, true);
    longer, s' := MarkAndStart(past, s, FIRST, true);
  }

  /** A schedule is started twice: the write of its Running mark failed and the agent crashed while flashing. */
  lemma StartedTwice() returns (run: seq<Label>, s: State)
    ensures Reaches(run, s) && s.starts == ["a", "a"]
  {
    run, s := Admit();
    run, s := MarkAndStart(run, s, FIRST, false);
    assert s.starts == ["a"];
    run, s := Then(run, s, Crash(true));
    run, s := FetchFirst(run, s);
    run, s := MarkAndStart(run, s, FIRST, true);
    assert s.starts == ["a", "a"];
  }

  /** Rolled back while the executor is still flashing it. */
  lemma RollBackInHand() returns (run: seq<Label>, s: State)
    ensures Reaches(run, s) && NoCrash(run)
    ensures s.calls == map[] && s.clock == 0 && s.executor == Flashing(FIRST, [])
    ensures s.live == map["a" := AsRolledBack(WithStatus(FIRST, Running, None, 0), REASON, 0)]
  {
    run, s := Admit();
    run, s := MarkAndStart(run, s, FIRST, true);
    run, s := Call(run, s, CallRollBack(1, "a", REASON), 1, true);
  }

  /**
   The history loses an event without a crash: the executor finishes a schedule that was rolled back while it was
   being flashed, and the time of the rollback is gone.
   */
  lemma HistoryLosesAnEvent() returns (past: seq<Label>, s: State, longer: seq<Label>, s': State)
    ensures Reaches(past, s) && Reaches(longer, s') && Prolongs(past, longer) && NoCrash(longer)
    ensures RolledBackAt(s.live, 0) && RolledBackAt(s'.live, 1)
  {
    past, s := RollBackInHand();
    longer, s' := Then(past, s, Tick(1));
    longer, s' := Call(longer, s', Finish(None), EXECUTOR, true);
  }

  /** One schedule, rolled back at this time as the history has it. */
  predicate RolledBackAt(m: Registry, at: Time) {
    && m.Keys == TriggeredIds(m) == {"a"}
    && AsEvent(m["a"]) == RollbackEvent(Some(at), REASON, true)
  }

  /** A schedule rolled back while it was being flashed, as the next process finds it. */
  lemma RestartCompleted() returns (run: seq<Label>, s: State)
    ensures Reaches(run, s) && s.calls == map[] && s.clock == 0 && s.executor == Ready([]) && !s.spent
    ensures s.live
            == map["a" := WithStatus(AsRolledBack(WithStatus(FIRST, Running, None, 0), REASON, 0), Completed, None, 0)]
  {
    run, s := RollBackInHand();
    run, s := Call(run, s, Finish(None), EXECUTOR, true);
    run, s := Then(run, s, Crash(true));
  }

  /** The next process can mark it a second time: the schedule is Completed, and the call has not been made. */
  lemma MarkedAgain() returns (past: seq<Label>, s: State, longer: seq<Label>, s': State)
    ensures Reaches(past, s) && Reaches(longer, s') && Prolongs(past, longer)
    ensures RolledBackAt(s.live, 0) && OpenToRollBack(s, "a") && RolledBackAt(s'.live, 1)
  {
    past, s := RestartCompleted();
    longer, s' := Then(past, s, Tick(1));
    longer, s' := Call(longer, s', CallRollBack(1, "a", REASON), 1, true);
  }

  /** An acknowledged schedule is lost for good: the next process cannot read the file, and writes its own. */
  lemma UnreadFileIsLost() returns (past: seq<Label>, s: State, longer: seq<Label>, s': State)
    ensures Reaches(past, s) && Reaches(longer, s') && Prolongs(past, longer)
    ensures s.calls == map[] && s.file == map["a" := FIRST] && s'.file == map["b" := SECOND]
  {
    past, s := Call([], INIT, CallInsert(1, "a", Request(true), 0), 1, true);
    longer, s' := Then(past, s, Crash(false));
    longer, s' := Call(longer, s', CallInsert(1, "b", Request(false), 0), 1, true);
  }

  /** Two schedules; the first asked for automatic rollback and is completed, the second waits in the batch. */
  lemma CompleteFirst() returns (run: seq<Label>, s: State)
    ensures Reaches(run, s) && NoCrash(run)
    ensures s.live.Keys == {"a", "b"} && s.live["a"].status.Completed? && s.live["a"].startedAt == Some(0)
    ensures s.live["a"].request.enableAutoRollback && s.live["b"] == SECOND
    ensures s.calls == map[] && s.clock == 0 && s.executor == Ready([SECOND]) && !s.spent
  {
    run, s := InsertBoth();
    run, s := FetchBoth(run, s);
    run, s := MarkAndStart(run, s, FIRST, true);
    run, s := Call(run, s, Finish(None), EXECUTOR, true);
  }

  lemma InsertBoth() returns (run: seq<Label>, s: State)
    ensures Reaches(run, s) && NoCrash(run)
    ensures s.live == map["a" := FIRST, "b" := SECOND] && s.calls == map[] && s.clock == 0
    ensures s.executor == Ready([]) && !s.spent
  {
    run, s := Call([], INIT, CallInsert(1, "a", Request(true), 0), 1, true);
    run, s := Call(run, s, CallInsert(1, "b", Request(false), 0), 1, true);
  }

  lemma FetchBoth(run: seq<Label>, s: State) returns (longer: seq<Label>, next: State)
    requires Reaches(run, s) && NoCrash(run)
    requires s.live == map["a" := FIRST, "b" := SECOND] && s.calls == map[] && s.executor == Ready([])
    ensures Reaches(longer, next) && NoCrash(longer)
    ensures next == s.(executor := Admitted(FIRST, [SECOND]))
  {
    var due := [FIRST, SECOND];
    assert due[0] == FIRST && due[1] == SECOND && HasId(due, "a") && HasId(due, "b");
    longer, next := Then(run, s, Fetch(due, 0));
    longer, next := Then(longer, next, Check);
    assert due[1..] == [SECOND];
  }

  /**
   The rollback supervisor marks a schedule that did not ask for it: when it looks, the latest active schedule
   did ask; before its `register_rollback` call the executor starts the next one, which did not.
   */
  lemma WrongScheduleMarked() returns (look: seq<Label>, s: State, call: seq<Label>, s': State)
    ensures Reaches(look, s) && Reaches(call, s') && Prolongs(look, call) && NoCrash(call)
    ensures IsLatestActive(s.live, "a") && AskedForRollback("a", s.live)
    ensures Enabled(s', CallRollBack(1, "b", REASON))
    ensures !AskedForRollback("b", s'.live) && !IsLatestActive(s'.live, "a")
  {
    look, s := CompleteFirst();
    call, s' := Then(look, s, Tick(1));
    call, s' := Then(call, s', Check);
    assert [SECOND][1..] == [];
    call, s' := MarkAndStart(call, s', SECOND, true);
    assert s'.live["b"].startedAt == Some(1);
  }
}
