/**
 The update scheduler as a protocol: handler tasks, the rollback supervisor and the executor share one
 registry behind a read-write lock and one file.

 A mutating call is three atomic steps: change the registry under the write lock; take the lock again as a
 reader and serialise the registry; write the file and drop the read guard. Any other task may move between
 two steps, and the process may crash and restart between any two.
 */
module SchedulerProtocol {
  import opened Wrappers
  import opened Schedules

  type Task = nat
  const EXECUTOR: Task := 0

  /** Where a mutating call is. `at` is the index of its mutation in the log. */
  datatype Phase =
    | Dirty(at: nat)
    | Guarded(at: nat, upTo: nat, snapshot: Registry)

  /** Where the executor loop is; `rest` is what remains of the batch of due schedules it fetched. */
  datatype Executor =
    | Ready(rest: seq<UpdateSchedule>)
    | Admitted(job: UpdateSchedule, rest: seq<UpdateSchedule>) // the window check passed
    | Expired(job: UpdateSchedule, rest: seq<UpdateSchedule>)  // the window check failed
    | Marked(job: UpdateSchedule, rest: seq<UpdateSchedule>)   // status set to Running
    | Flashing(job: UpdateSchedule, rest: seq<UpdateSchedule>) // inside execute_scheduled_update

  datatype State = State(
    live: Registry,           // the registry in memory
    file: Registry,           // what loading the file would give
    calls: map<Task, Phase>,  // the mutating calls in flight
    executor: Executor,
    clock: Time,
    spent: bool,              // this process has made its one `register_rollback` call
    // history: the mutations in force in memory, those the file holds, which of the latter belong to calls
    // that returned Ok, every id ever issued, and every execution started
    log: seq<Mutation>,
    stored: seq<Mutation>,
    acked: set<nat>,
    issued: set<Id>,
    starts: seq<Id>)

  /** The steps. The clock is read before the lock is taken in two places: for a new schedule's creation time, and
      for what is due; everywhere else it is read inside the step. */
  datatype Label =
    | Tick(secs: nat)
    | CallInsert(task: Task, id: Id, request: UpdateRequest, createdAt: Time)
    | CallCancel(task: Task, id: Id)
    | CallRollBack(task: Task, id: Id, reason: string)
    | CallRollBackInVain(task: Task) // nothing is active
    | Guard(task: Task)
    | Write(task: Task, ok: bool)
    | Fetch(due: seq<UpdateSchedule>, asOf: Time)
    | Check
    | Expire
    | Mark
    | Start
    | Finish(error: Option<string>)
    | Crash(readOk: bool) // the process ends and a new one loads the file, or starts empty if it cannot read it

  const INIT := State(map[], map[], map[], Ready([]), 0, false, [], [], {}, {}, [])

  /** The write lock can be taken: nobody holds the lock as a reader. */
  predicate NoReaders(s: State) {
    forall t | t in s.calls :: !s.calls[t].Guarded?
  }

  predicate CanMutate(s: State, t: Task) {
    t !in s.calls && NoReaders(s)
  }

  predicate Enabled(s: State, l: Label) {
    match l
    case Tick(_) => true
    case CallInsert(t, id, _, createdAt) =>
      t != EXECUTOR && CanMutate(s, t) && id !in s.issued && createdAt <= s.clock
    case CallCancel(t, id) => t != EXECUTOR && CanMutate(s, t) && id in s.live && s.live[id].status.Pending?
    case CallRollBack(t, id, _) => t != EXECUTOR && CanMutate(s, t) && !s.spent && IsLatestActive(s.live, id)
    case CallRollBackInVain(t) =>
      t != EXECUTOR && CanMutate(s, t) && !s.spent && forall id | id in s.live :: !Active(s.live[id])
    case Guard(t) => t in s.calls && s.calls[t].Dirty?
    case Write(t, _) => t in s.calls && s.calls[t].Guarded?
    case Fetch(due, asOf) =>
      s.executor == Ready([]) && EXECUTOR !in s.calls && asOf <= s.clock && ListsDue(due, s.live, asOf)
    case Check => s.executor.Ready? && s.executor.rest != [] && EXECUTOR !in s.calls
    case Expire => s.executor.Expired? && CanMutate(s, EXECUTOR)
    case Mark => s.executor.Admitted? && CanMutate(s, EXECUTOR)
    case Start => s.executor.Marked? && EXECUTOR !in s.calls
    case Finish(_) => s.executor.Flashing? && CanMutate(s, EXECUTOR)
    case Crash(_) => true
  }

  /**
   A task with a call in flight takes the next step of that call and no other: it serialises, then writes. So the
   executor, whose calls all end before it goes on, waits for its own writes.
   */
  lemma CallsAreSequential(s: State, l: Label, t: Task)
    requires Enabled(s, l) && t in s.calls
    ensures l == Guard(t) ==> s.calls[t].Dirty?
    ensures l.Write? && l.task == t ==> s.calls[t].Guarded?
    ensures l.CallInsert? || l.CallCancel? || l.CallRollBack? || l.CallRollBackInVain? ==> l.task != t
    ensures t == EXECUTOR ==> !l.Fetch? && !l.Check? && !l.Expire? && !l.Mark? && !l.Start? && !l.Finish?
  {
  }

  /** The executor's own task makes no other call, and what a handler may do depends on what it finds. */
  lemma HandlersFind(s: State, l: Label)
    requires Enabled(s, l)
    ensures l.CallInsert? || l.CallCancel? || l.CallRollBack? || l.CallRollBackInVain? ==> l.task != EXECUTOR
    ensures l.CallCancel? ==> l.id in s.live && s.live[l.id].status == Pending
    ensures l.CallRollBack? ==>
              !s.spent && l.id in s.live && (s.live[l.id].status == Running || s.live[l.id].status == Completed)
    ensures l.CallRollBackInVain? ==>
              && !s.spent
              && forall id | id in s.live :: s.live[id].status != Running && s.live[id].status != Completed
    ensures l.CallRollBack? || l.CallRollBackInVain? ==> Do(s, l).spent
    ensures l.Crash? ==> !Do(s, l).spent
  {
  }

  function Mutate(s: State, t: Task, u: Mutation): State {
    s.(live := Apply(s.live, u), log := s.log + [u], calls := s.calls[t := Dirty(|s.log|)])
  }

  /** The only reason the agent gives for a rollback. */
  const REASON := "Critical health failure at boot"

  const WINDOW_EXPIRED := "Maintenance window expired"

  function Do(s: State, l: Label): State
    requires Enabled(s, l)
  {
    match l
    case Tick(secs) => s.(clock := s.clock + secs)
    case CallInsert(t, id, request, createdAt) =>
      Mutate(s, t, Insert(id, request, createdAt)).(issued := s.issued + {id})
    case CallCancel(t, id) => Mutate(s, t, Cancel(id))
    case CallRollBack(t, id, reason) => Mutate(s, t, RollBack(id, reason, s.clock)).(spent := true)
    case CallRollBackInVain(t) => s.(spent := true)
    case Guard(t) => s.(calls := s.calls[t := Guarded(s.calls[t].at, |s.log|, s.live)])
    case Write(t, ok) =>
      var done := s.(calls := s.calls - {t});
      var c := s.calls[t];
      if ok
      then done.(file := c.snapshot, stored := s.log[..Min(c.upTo, |s.log|)],
                 acked := if s.stored <= s.log then s.acked + {c.at} else {c.at})
      else done
    case Fetch(due, _) => s.(executor := Ready(due))
    case Check =>
      var job, rest := s.executor.rest[0], s.executor.rest[1..];
      s.(executor :=
        if IsWithinMaintenanceWindow(job.request, s.clock) then Admitted(job, rest) else Expired(job, rest))
    case Expire =>
      Mutate(s, EXECUTOR, SetStatus(s.executor.job.id, Failed, Some(WINDOW_EXPIRED), s.clock))
      .(executor := Ready(s.executor.rest))
    case Mark =>
      Mutate(s, EXECUTOR, SetStatus(s.executor.job.id, Running, None, s.clock))
      .(executor := Marked(s.executor.job, s.executor.rest))
    case Start =>
      s.(executor := Flashing(s.executor.job, s.executor.rest), starts := s.starts + [s.executor.job.id])
    case Finish(error) =>
      var outcome := if error.Some? then Failed else Completed;
      Mutate(s, EXECUTOR, SetStatus(s.executor.job.id, outcome, error, s.clock))
      .(executor := Ready(s.executor.rest))
    case Crash(readOk) =>
      s.(live := if readOk then s.file else map[], log := if readOk then s.stored else [],
         calls := map[], executor := Ready([]), spent := false)
  }

  // ----- Runs -----

  predicate Legal(s: State, run: seq<Label>)
    decreases run
  {
    run == [] || (Enabled(s, run[0]) && Legal(Do(s, run[0]), run[1..]))
  }

  function Final(s: State, run: seq<Label>): State
    requires Legal(s, run)
    decreases run
  {
    if run == [] then s else Final(Do(s, run[0]), run[1..])
  }

  lemma {:induction false} Concat(s: State, a: seq<Label>, b: seq<Label>)
    requires Legal(s, a) && Legal(Final(s, a), b)
    ensures Legal(s, a + b) && Final(s, a + b) == Final(Final(s, a), b)
    decreases a
  {
    if a == [] {
      assert a + b == b;
    } else {
      Concat(Do(s, a[0]), a[1..], b);
      assert (a + b)[1..] == a[1..] + b;
    }
  }

  lemma Extend(s: State, run: seq<Label>, l: Label)
    requires Legal(s, run) && Enabled(Final(s, run), l)
    ensures Legal(s, run + [l]) && Final(s, run + [l]) == Do(Final(s, run), l)
  {
    var last := [l];
    assert last[1..] == [];
    assert Legal(Do(Final(s, run), l), last[1..]);
    Concat(s, run, last);
  }

  /** One more step of a run whose state is known. */
  lemma Then(run: seq<Label>, s: State, l: Label) returns (longer: seq<Label>, next: State)
    requires Legal(INIT, run) && Final(INIT, run) == s && Enabled(s, l)
    ensures longer == run + [l] && Legal(INIT, longer) && next == Do(s, l) == Final(INIT, longer)
  {
    Extend(INIT, run, l);
    longer, next := run + [l], Do(s, l);
  }

  predicate NoCrash(run: seq<Label>) {
    forall i | 0 <= i < |run| :: !run[i].Crash?
  }

  // ----- Durability -----

  /** Memory and file are replays of the mutations they hold; every open snapshot is current. */
  predicate Durability(s: State) {
    && s.live == Replay(s.log)
    && s.file == Replay(s.stored)
    && (forall t | t in s.calls :: s.calls[t].at < |s.log|)
    && (forall t | t in s.calls && s.calls[t].Guarded? :: s.calls[t].upTo == |s.log| && s.calls[t].snapshot == s.live)
    && (forall i | i in s.acked :: i < |s.stored|)
  }

  /** A write that puts a registry over a file whose mutations it does not contain: the file was not read. */
  predicate Destroys(s: State, l: Label) {
    l.Write? && l.ok && !(s.stored <= s.log)
  }

  predicate NothingDestroyed(s: State, run: seq<Label>)
    requires Legal(s, run)
    decreases run
  {
    run == [] || (!Destroys(s, run[0]) && NothingDestroyed(Do(s, run[0]), run[1..]))
  }

  /** Every process that starts along the run can read the file. */
  predicate AllReads(run: seq<Label>) {
    forall i | 0 <= i < |run| && run[i].Crash? :: run[i].readOk
  }

  /** What the file holds at `s`, it holds at `s'` too, and every acknowledged mutation is in it. */
  predicate NothingDurableLost(s: State, s': State) {
    s.stored <= s'.stored && s.acked <= s'.acked
  }

  lemma MutateKeepsDurability(s: State, t: Task, u: Mutation)
    requires Durability(s) && CanMutate(s, t)
    ensures Durability(Mutate(s, t, u))
  {
    var s' := Mutate(s, t, u);
    assert s'.log[..|s.log|] == s.log;
  }

  lemma DurabilityKept(s: State, l: Label)
    requires Durability(s) && Enabled(s, l)
    ensures Durability(Do(s, l)) && (!Destroys(s, l) ==> NothingDurableLost(s, Do(s, l)))
  {
    match l
    case CallInsert(t, id, request, createdAt) => MutateKeepsDurability(s, t, Insert(id, request, createdAt));
    case CallCancel(t, id) => MutateKeepsDurability(s, t, Cancel(id));
    case CallRollBack(t, id, reason) => MutateKeepsDurability(s, t, RollBack(id, reason, s.clock));
    case Expire =>
      MutateKeepsDurability(s, EXECUTOR, SetStatus(s.executor.job.id, Failed, Some(WINDOW_EXPIRED), s.clock));
    case Mark => MutateKeepsDurability(s, EXECUTOR, SetStatus(s.executor.job.id, Running, None, s.clock));
    case Finish(error) =>
      var outcome := if error.Some? then Failed else Completed;
      MutateKeepsDurability(s, EXECUTOR, SetStatus(s.executor.job.id, outcome, error, s.clock));
    case _ => assert s.log[..|s.log|] == s.log;
  }

  lemma {:induction false} DurabilityHolds(s: State, run: seq<Label>)
    requires Durability(s) && Legal(s, run)
    ensures Durability(Final(s, run))
    ensures NothingDestroyed(s, run) ==> NothingDurableLost(s, Final(s, run))
    decreases run
  {
    if run != [] {
      DurabilityKept(s, run[0]);
      DurabilityHolds(Do(s, run[0]), run[1..]);
    }
  }

  lemma ReadKeepsUp(s: State, l: Label)
    requires Durability(s) && Enabled(s, l) && (l.Crash? ==> l.readOk) && s.stored <= s.log
    ensures !Destroys(s, l) && Do(s, l).stored <= Do(s, l).log
  {
  }

  /** Memory holds what the file holds, and more, from the start on and for as long as every reload reads. */
  lemma {:induction false} ReadsKeepUp(s: State, run: seq<Label>)
    requires Durability(s) && Legal(s, run) && AllReads(run) && s.stored <= s.log
    ensures NothingDestroyed(s, run) && Final(s, run).stored <= Final(s, run).log
    decreases run
  {
    if run != [] {
      DurabilityKept(s, run[0]);
      ReadKeepsUp(s, run[0]);
      assert forall i | 0 <= i < |run| - 1 :: run[1..][i] == run[i + 1];
      ReadsKeepUp(Do(s, run[0]), run[1..]);
    }
  }

  lemma {:induction false} ReplayKeepsKeys(log: seq<Mutation>, n: nat)
    requires n <= |log|
    ensures Replay(log[..n]).Keys <= Replay(log).Keys
    decreases |log|
  {
    if n < |log| {
      ReplayKeepsKeys(log[..|log| - 1], n);
      assert log[..|log| - 1][..n] == log[..n];
    } else {
      assert log[..n] == log;
    }
  }

  /** As long as memory holds what the file holds, no schedule on file is missing from it. */
  lemma FileIsInMemory(s: State)
    requires Durability(s) && s.stored <= s.log
    ensures s.file.Keys <= s.live.Keys
  {
    ReplayKeepsKeys(s.log, |s.stored|);
    assert s.log[..|s.stored|] == s.stored;
  }

  predicate Undisturbed(run: seq<Label>, t: Task) {
    forall i | 0 <= i < |run| :: !run[i].Crash? && !(run[i].Write? && run[i].task == t)
  }

  lemma CallWaitsOneStep(s: State, l: Label, t: Task)
    requires Durability(s) && Enabled(s, l) && t in s.calls && Undisturbed([l], t)
    ensures var s' := Do(s, l);
      t in s'.calls && s'.calls[t].at == s.calls[t].at && s'.log[s.calls[t].at] == s.log[s.calls[t].at]
  {
    assert [l][0] == l;
  }

  /** A call in flight stays in flight, with its mutation in place, until its own write or a crash. */
  lemma {:induction false} CallWaits(s: State, run: seq<Label>, t: Task)
    requires Durability(s) && Legal(s, run) && t in s.calls && Undisturbed(run, t)
    ensures var s' := Final(s, run);
      && Durability(s') && t in s'.calls && s'.calls[t].at == s.calls[t].at
      && s'.log[s.calls[t].at] == s.log[s.calls[t].at]
    decreases run
  {
    if run != [] {
      DurabilityKept(s, run[0]);
      CallWaitsOneStep(s, run[0], t);
      assert forall i | 0 <= i < |run[1..]| :: run[1..][i] == run[i + 1];
      CallWaits(Do(s, run[0]), run[1..], t);
    }
  }

  /**
   A call that returns Ok is on file: whatever the other tasks do between its mutation and its successful
   write, the file then is the replay of mutations among which is exactly that one, at its own place.
   */
  lemma OkMeansOnFile(s: State, run: seq<Label>, t: Task)
    requires Durability(s) && Legal(s, run) && t in s.calls && Undisturbed(run, t)
    requires Enabled(Final(s, run), Write(t, true))
    ensures var n, s' := s.calls[t].at, Do(Final(s, run), Write(t, true));
      && n in s'.acked && n < |s'.stored|
      && s'.stored[n] == s.log[n]
      && s'.file == Replay(s'.stored)
  {
    CallWaits(s, run, t);
    DurabilityKept(Final(s, run), Write(t, true));
  }
}
