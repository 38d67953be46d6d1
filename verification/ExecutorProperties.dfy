/** What every run of the scheduler protocol keeps: the status protocol and consistent records. */
module ExecutorProperties {
  import opened Wrappers
  import opened Schedules
  import opened SchedulerProtocol

  // ----- The executor's batch -----

  predicate HasJob(e: Executor) { !e.Ready? }

  /** The executor holds a copy of this schedule that it has still to mark Running or Failed. */
  predicate Queued(s: State, id: Id) {
    || HasId(s.executor.rest, id)
    || ((s.executor.Admitted? || s.executor.Expired?) && s.executor.job.id == id)
  }

  predicate InHand(s: State, id: Id) {
    (s.executor.Marked? || s.executor.Flashing?) && s.executor.job.id == id
  }

  /** A queued copy still describes the live record it was taken from, except that that may be cancelled. */
  predicate FaithfulCopy(job: UpdateSchedule, live: Registry) {
    && job.id in live
    && job.request == live[job.id].request
    && !Launched(live[job.id])
    && job.request.scheduledAt.Some?
  }

  predicate BatchInv(s: State) {
    && DistinctIds(s.executor.rest)
    && (forall i | 0 <= i < |s.executor.rest| :: FaithfulCopy(s.executor.rest[i], s.live))
    && (HasJob(s.executor) ==> !HasId(s.executor.rest, s.executor.job.id))
    && (s.executor.Admitted? || s.executor.Expired? ==> FaithfulCopy(s.executor.job, s.live))
    && (s.executor.Expired? ==> !IsWithinMaintenanceWindow(s.executor.job.request, s.clock))
    && (s.executor.Marked? || s.executor.Flashing? ==>
          && s.executor.job.id in s.live
          && s.executor.job.request == s.live[s.executor.job.id].request
          && s.executor.job.request.scheduledAt.Some?
          && (s.live[s.executor.job.id].status.Running? || s.live[s.executor.job.id].status.RolledBack?))
  }

  /** How a later copy of a record may differ from an earlier one. */
  predicate Evolves(before: UpdateSchedule, after: UpdateSchedule) {
    && after.id == before.id
    && after.request == before.request
    && after.createdAt == before.createdAt
    && (!before.status.Pending? ==> !after.status.Pending?)
    && (Launched(before) ==> Launched(after) && after.startedAt == before.startedAt)
    && (before.status.Failed? ==> after == before)
    && (before.rollbackTriggered ==> after.rollbackTriggered)
  }

  predicate RegistryEvolves(m: Registry, m': Registry) {
    forall id | id in m :: id in m' && Evolves(m[id], m'[id])
  }

  /** A schedule both have is in `m'` a later copy. */
  predicate Compatible(m: Registry, m': Registry) {
    forall id | id in m && id in m' :: Evolves(m[id], m'[id])
  }

  predicate WellKeyed(m: Registry, issued: set<Id>) {
    forall id | id in m :: m[id].id == id && id in issued
  }

  predicate Protocol(s: State) {
    && WellKeyed(s.live, s.issued) && WellKeyed(s.file, s.issued)
    && Compatible(s.file, s.live)
    && BatchInv(s)
  }

  /** The mutations the callers make: inserts are new, rollbacks hit active records, executor marks are in sequence. */
  predicate SoundMutation(m: Registry, u: Mutation) {
    match u
    case Insert(id, _, _) => id !in m
    case Cancel(_) => true
    case RollBack(id, _, _) => id in m && Active(m[id])
    case SetStatus(id, to, error, _) =>
      id in m && match to
      case Running => !Launched(m[id]) && error.None?
      case Completed => (m[id].status.Running? || m[id].status.RolledBack?) && error.None?
      case Failed => !m[id].status.Completed? && !m[id].status.Failed? && error.Some?
      case _ => false
  }

  lemma MutationEvolves(m: Registry, u: Mutation)
    requires SoundMutation(m, u)
    ensures RegistryEvolves(m, Apply(m, u))
  {
  }

  /** The mutation a step makes, if it makes one. */
  function MutationOf(s: State, l: Label): Option<Mutation>
    requires Enabled(s, l)
  {
    match l
    case CallInsert(_, id, request, createdAt) => Some(Insert(id, request, createdAt))
    case CallCancel(_, id) => Some(Cancel(id))
    case CallRollBack(_, id, reason) => Some(RollBack(id, reason, s.clock))
    case Expire => Some(SetStatus(s.executor.job.id, Failed, Some(WINDOW_EXPIRED), s.clock))
    case Mark => Some(SetStatus(s.executor.job.id, Running, None, s.clock))
    case Finish(error) => Some(SetStatus(s.executor.job.id, if error.Some? then Failed else Completed, error, s.clock))
    case _ => None
  }

  predicate TimedAt(u: Mutation, now: Time) {
    (u.Insert? ==> u.at <= now) && (u.SetStatus? || u.RollBack? ==> u.at == now)
  }

  lemma StepsAreSound(s: State, l: Label)
    requires Protocol(s) && Enabled(s, l) && !l.Crash?
    ensures match MutationOf(s, l)
      case None => Do(s, l).live == s.live
      case Some(u) => SoundMutation(s.live, u) && Do(s, l).live == Apply(s.live, u)
                      && TimedAt(u, s.clock) && Do(s, l).clock == s.clock && Do(s, l).file == s.file
  {
  }

  lemma LiveEvolves(s: State, l: Label)
    requires Protocol(s) && Enabled(s, l) && !l.Crash?
    ensures RegistryEvolves(s.live, Do(s, l).live)
    ensures WellKeyed(Do(s, l).live, Do(s, l).issued)
  {
    StepsAreSound(s, l);
    if MutationOf(s, l).Some? {
      MutationEvolves(s.live, MutationOf(s, l).value);
    }
  }

  /** A queued copy stays faithful under every mutation but the executor's own marking of that schedule. */
  lemma CopyKept(job: UpdateSchedule, m: Registry, u: Mutation)
    requires FaithfulCopy(job, m)
    requires u.Insert? ==> u.id !in m
    requires u.RollBack? ==> u.id in m && Active(m[u.id])
    requires u.SetStatus? ==> u.id != job.id
    ensures FaithfulCopy(job, Apply(m, u))
  {
  }

  lemma RestKept(q: seq<UpdateSchedule>, m: Registry, u: Mutation)
    requires forall i | 0 <= i < |q| :: FaithfulCopy(q[i], m)
    requires u.Insert? ==> u.id !in m
    requires u.RollBack? ==> u.id in m && Active(m[u.id])
    requires u.SetStatus? ==> !HasId(q, u.id)
    ensures forall i | 0 <= i < |q| :: FaithfulCopy(q[i], Apply(m, u))
  {
    forall i | 0 <= i < |q| ensures FaithfulCopy(q[i], Apply(m, u)) {
      assert u.SetStatus? ==> q[i].id != u.id;
      CopyKept(q[i], m, u);
    }
  }

  lemma HandlerKeepsBatch(s: State, t: Task, u: Mutation)
    requires BatchInv(s)
    requires u.Insert? ==> u.id !in s.live
    requires u.RollBack? ==> u.id in s.live && Active(s.live[u.id])
    requires !u.SetStatus?
    ensures BatchInv(Mutate(s, t, u))
  {
    RestKept(s.executor.rest, s.live, u);
    if s.executor.Admitted? || s.executor.Expired? {
      CopyKept(s.executor.job, s.live, u);
    }
  }

  lemma CheckKeepsBatch(s: State)
    requires BatchInv(s) && Enabled(s, Check)
    ensures BatchInv(Do(s, Check))
  {
    var q := s.executor.rest;
    assert forall i | 0 <= i < |q| - 1 :: q[1..][i] == q[i + 1];
  }

  lemma BatchKept(s: State, l: Label)
    requires Protocol(s) && Enabled(s, l)
    ensures BatchInv(Do(s, l))
  {
    match l
    case CallInsert(t, id, request, createdAt) => HandlerKeepsBatch(s, t, Insert(id, request, createdAt));
    case CallCancel(t, id) => HandlerKeepsBatch(s, t, Cancel(id));
    case CallRollBack(t, id, reason) => HandlerKeepsBatch(s, t, RollBack(id, reason, s.clock));
    case Check => CheckKeepsBatch(s);
    case Expire =>
      RestKept(s.executor.rest, s.live, SetStatus(s.executor.job.id, Failed, Some(WINDOW_EXPIRED), s.clock));
    case Mark => RestKept(s.executor.rest, s.live, SetStatus(s.executor.job.id, Running, None, s.clock));
    case Finish(error) =>
      RestKept(s.executor.rest, s.live,
               SetStatus(s.executor.job.id, if error.Some? then Failed else Completed, error, s.clock));
    case _ =>
  }

  lemma FileStaysCompatible(s: State, l: Label)
    requires Durability(s) && Protocol(s) && Enabled(s, l)
    ensures Compatible(Do(s, l).file, Do(s, l).live) && WellKeyed(Do(s, l).file, Do(s, l).issued)
  {
    if !l.Crash? {
      OnlyWritesTouchFile(s, l);
      LiveEvolves(s, l);
    }
  }

  lemma OnlyWritesTouchFile(s: State, l: Label)
    requires Durability(s) && WellKeyed(s.file, s.issued) && Enabled(s, l) && !l.Crash?
    ensures var s' := Do(s, l);
      && s.issued <= s'.issued
      && if l.Write? then s'.live == s.live && (s'.file == s.file || s'.file == s.live)
         else s'.file == s.file && forall id | id in s.file && id in s'.live :: id in s.live
  {
  }

  lemma ProtocolKept(s: State, l: Label)
    requires Durability(s) && Protocol(s) && Enabled(s, l)
    ensures Protocol(Do(s, l))
  {
    BatchKept(s, l);
    FileStaysCompatible(s, l);
    if !l.Crash? {
      LiveEvolves(s, l);
    }
  }

  predicate Inv(s: State) {
    Durability(s) && Protocol(s)
  }

  lemma {:induction false} InvHolds(s: State, run: seq<Label>)
    requires Inv(s) && Legal(s, run)
    ensures Inv(Final(s, run))
    decreases run
  {
    if run != [] {
      DurabilityKept(s, run[0]);
      ProtocolKept(s, run[0]);
      InvHolds(Do(s, run[0]), run[1..]);
    }
  }

  /** Without a crash, records only ever evolve. */
  lemma {:induction false} LiveEvolvesAlong(s: State, run: seq<Label>)
    requires Inv(s) && Legal(s, run) && NoCrash(run)
    ensures RegistryEvolves(s.live, Final(s, run).live)
    decreases run
  {
    if run != [] {
      assert !run[0].Crash?;
      assert forall i | 0 <= i < |run| - 1 :: run[1..][i] == run[i + 1];
      DurabilityKept(s, run[0]);
      ProtocolKept(s, run[0]);
      LiveEvolves(s, run[0]);
      LiveEvolvesAlong(Do(s, run[0]), run[1..]);
    }
  }

  // ----- The status protocol -----

  /** The only ways a status may change in memory while the process stays up. */
  predicate AllowedChange(s: State, l: Label, id: Id, to: Status)
    requires id in s.live
  {
    match s.live[id].status
    case Pending => (to.Cancelled? && l.CallCancel?) || (to.Running? && l.Mark?) || (to.Failed? && l.Expire?)
    case Cancelled => Queued(s, id) && ((to.Running? && l.Mark?) || (to.Failed? && l.Expire?))
    case Running => (to.RolledBack? && l.CallRollBack?) || ((to.Completed? || to.Failed?) && InHand(s, id) && l.Finish?)
    case Completed => to.RolledBack? && l.CallRollBack?
    case RolledBack => (to.Completed? || to.Failed?) && InHand(s, id) && l.Finish?
    case Failed => false
  }

  /**
   In every reachable state, a step other than a crash changes at most one status and only as allowed:
   Failed is final, Completed leaves only to RolledBack, a Cancelled schedule moves only if the executor had
   already fetched it, and RolledBack moves only while the executor is still running that schedule. A crash
   puts back exactly what is on file, or nothing if that cannot be read.
   */
  lemma StatusProtocol(run: seq<Label>, l: Label, id: Id)
    requires Legal(INIT, run) && Enabled(Final(INIT, run), l)
    requires id in Final(INIT, run).live
    ensures var s, s' := Final(INIT, run), Do(Final(INIT, run), l);
      && (l.Crash? ==> s'.live == if l.readOk then s.file else map[])
      && (!l.Crash? ==> id in s'.live)
      && (!l.Crash? && s'.live[id].status != s.live[id].status ==>
            AllowedChange(s, l, id, s'.live[id].status) && (s'.live == s.live[id := s'.live[id]]))
  {
    InvHolds(INIT, run);
    if !l.Crash? {
      StatusProtocolStep(Final(INIT, run), l, id);
    }
  }

  lemma StatusProtocolStep(s: State, l: Label, id: Id)
    requires Inv(s) && Enabled(s, l) && id in s.live && !l.Crash?
    ensures id in Do(s, l).live
    ensures Do(s, l).live[id].status != s.live[id].status ==>
              AllowedChange(s, l, id, Do(s, l).live[id].status) && Do(s, l).live == s.live[id := Do(s, l).live[id]]
  {
  }

  /**
   Once Failed is on file it is there, unchanged, after any run with any crashes in which no unread file is
   overwritten; and so it is in memory, if the schedule is there at all.
   */
  lemma {:induction false} FailedOnFileIsFinal(s: State, run: seq<Label>, id: Id)
    requires Inv(s) && Legal(s, run) && NothingDestroyed(s, run) && id in s.file && s.file[id].status.Failed?
    ensures var s' := Final(s, run);
      && id in s'.file && s'.file[id] == s.file[id]
      && (id in s'.live ==> s'.live[id] == s.file[id])
      && (s'.stored <= s'.log ==> id in s'.live)
    decreases run
  {
    if run != [] {
      DurabilityKept(s, run[0]);
      ProtocolKept(s, run[0]);
      if s.stored <= s.log {
        FileIsInMemory(s);
      }
      FailedOnFileIsFinal(Do(s, run[0]), run[1..], id);
    } else if s.stored <= s.log {
      FileIsInMemory(s);
    }
  }

  // ----- Consistent records -----

  predicate Before(a: Option<Time>, b: Option<Time>) {
    a.Some? && b.Some? ==> a.value <= b.value
  }

  predicate Consistent(r: UpdateSchedule, now: Time) {
    && r.createdAt <= now
    && (r.startedAt.Some? ==> r.createdAt <= r.startedAt.value <= now)
    && (r.completedAt.Some? ==> r.createdAt <= r.completedAt.value <= now)
    && Before(r.startedAt, r.completedAt)
    && (r.rollbackTriggered ==> r.rollbackReason.Some?)
    && match r.status
       case Pending | Cancelled =>
         r.startedAt.None? && r.completedAt.None? && r.errorMessage.None? && !r.rollbackTriggered
       case Running => r.startedAt.Some? && r.completedAt.None? && r.errorMessage.None? && !r.rollbackTriggered
       case Completed => r.startedAt.Some? && r.completedAt.Some? && r.errorMessage.None?
       case Failed => r.completedAt.Some? && r.errorMessage.Some?
       case RolledBack =>
         r.rollbackTriggered && r.startedAt.Some? && r.completedAt.Some? && r.errorMessage.None?
  }

  predicate AllConsistent(m: Registry, now: Time) {
    forall id | id in m :: Consistent(m[id], now)
  }

  lemma MutationKeepsConsistent(m: Registry, u: Mutation, now: Time)
    requires AllConsistent(m, now) && SoundMutation(m, u)
    requires TimedAt(u, now)
    ensures AllConsistent(Apply(m, u), now)
  {
    match u
    case Insert(_, _, _) =>
    case Cancel(_) =>
    case SetStatus(_, _, _, _) =>
    case RollBack(_, _, _) =>
  }

  lemma RecordsKept(s: State, l: Label)
    requires Inv(s) && Enabled(s, l) && AllConsistent(s.live, s.clock) && AllConsistent(s.file, s.clock)
    ensures AllConsistent(Do(s, l).live, Do(s, l).clock) && AllConsistent(Do(s, l).file, Do(s, l).clock)
  {
    if !l.Crash? {
      StepsAreSound(s, l);
      if MutationOf(s, l).Some? {
        MutationKeepsConsistent(s.live, MutationOf(s, l).value, s.clock);
      }
    }
  }

  lemma {:induction false} RecordsKeptByRun(s: State, run: seq<Label>)
    requires Inv(s) && Legal(s, run) && AllConsistent(s.live, s.clock) && AllConsistent(s.file, s.clock)
    ensures var s' := Final(s, run); AllConsistent(s'.live, s'.clock) && AllConsistent(s'.file, s'.clock)
    decreases run
  {
    if run != [] {
      DurabilityKept(s, run[0]);
      ProtocolKept(s, run[0]);
      RecordsKept(s, run[0]);
      RecordsKeptByRun(Do(s, run[0]), run[1..]);
    }
  }

  /** Every record of every reachable state, in memory and on file, is consistent. */
  lemma RecordsConsistent(run: seq<Label>)
    requires Legal(INIT, run)
    ensures var s := Final(INIT, run); AllConsistent(s.live, s.clock) && AllConsistent(s.file, s.clock)
  {
    RecordsKeptByRun(INIT, run);
  }
}
