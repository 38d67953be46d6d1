/** Update schedules: the record, and what each scheduler call does to the registry of records. */
module Schedules {
  import opened Wrappers

  type Id = string
  type Time = nat // seconds; the clock never goes backwards

  datatype Status = Pending | Running | Completed | Failed | Cancelled | RolledBack

  /** The caller-supplied half of a schedule. No scheduler call ever changes it. */
  datatype UpdateRequest = UpdateRequest(
    sourceUrl: string,
    expectedSha256: Option<string>,
    scheduledAt: Option<Time>,
    maintenanceWindowSecs: Option<nat>,
    enableAutoRollback: bool,
    healthCheckTimeoutSecs: Option<nat>,
    preUpdateHook: Option<string>,
    postUpdateHook: Option<string>,
    isDelta: bool,
    fallbackToFull: bool,
    fullImageUrl: Option<string>)

  datatype UpdateSchedule = UpdateSchedule(
    id: Id,
    request: UpdateRequest,
    rollbackTriggered: bool,
    rollbackReason: Option<string>,
    status: Status,
    createdAt: Time,
    startedAt: Option<Time>,
    completedAt: Option<Time>,
    errorMessage: Option<string>)

  type Registry = map<Id, UpdateSchedule>

  /** One write-locked section of the scheduler. */
  datatype Mutation =
    | Insert(id: Id, request: UpdateRequest, at: Time)
    | Cancel(id: Id)
    | SetStatus(id: Id, status: Status, error: Option<string>, at: Time)
    | RollBack(id: Id, reason: string, at: Time)

  function NewSchedule(id: Id, request: UpdateRequest, now: Time): UpdateSchedule {
    UpdateSchedule(id, request, false, None, Pending, now, None, None, None)
  }

  function WithStatus(s: UpdateSchedule, status: Status, error: Option<string>, now: Time): UpdateSchedule {
    var t := s.(status := status, errorMessage := error);
    match status
    case Running => t.(startedAt := Some(now))
    case Completed | Failed | Cancelled => t.(completedAt := Some(now))
    case _ => t
  }

  function AsRolledBack(s: UpdateSchedule, reason: string, now: Time): UpdateSchedule {
    s.(rollbackTriggered := true, rollbackReason := Some(reason), status := RolledBack, completedAt := Some(now))
  }

  function Apply(m: Registry, u: Mutation): Registry {
    match u
    case Insert(id, request, at) => m[id := NewSchedule(id, request, at)]
    case Cancel(id) =>
      if id in m && m[id].status.Pending? then m[id := m[id].(status := Cancelled)] else m
    case SetStatus(id, status, error, at) =>
      if id in m then m[id := WithStatus(m[id], status, error, at)] else m
    case RollBack(id, reason, at) =>
      if id in m then m[id := AsRolledBack(m[id], reason, at)] else m
  }

  /** The registry after a sequence of mutations, starting from an empty one. */
  function Replay(log: seq<Mutation>): Registry {
    if log == [] then map[] else Apply(Replay(log[..|log| - 1]), log[|log| - 1])
  }

  // ----- Selections -----

  predicate Active(s: UpdateSchedule) {
    s.status.Completed? || s.status.Running?
  }

  /** The order of `Option<DateTime>`: an absent time comes before every present one. */
  predicate NoLaterThan(a: Option<Time>, b: Option<Time>) {
    a.None? || (b.Some? && a.value <= b.value)
  }

  predicate IsLatestActive(m: Registry, id: Id) {
    && id in m && Active(m[id])
    && forall other | other in m && Active(m[other]) :: NoLaterThan(m[other].startedAt, m[id].startedAt)
  }

  predicate Due(s: UpdateSchedule, now: Time) {
    s.status.Pending? && s.request.scheduledAt.Some? && s.request.scheduledAt.value <= now
  }

  predicate IsWithinMaintenanceWindow(r: UpdateRequest, now: Time) {
    match (r.scheduledAt, r.maintenanceWindowSecs)
    case (Some(start), Some(window)) => window == 0 || now <= start + window
    case _ => true
  }

  /** Has begun to execute at some point: the statuses that are never left for Pending or Cancelled. */
  predicate Launched(s: UpdateSchedule) {
    !s.status.Pending? && !s.status.Cancelled?
  }

  predicate NoDuplicates<T(==)>(q: seq<T>) {
    forall i, j | 0 <= i < j < |q| :: q[i] != q[j]
  }

  predicate DistinctIds(q: seq<UpdateSchedule>) {
    forall i, j | 0 <= i < j < |q| :: q[i].id != q[j].id
  }

  predicate HasId(q: seq<UpdateSchedule>, id: Id) {
    exists i | 0 <= i < |q| :: q[i].id == id
  }

  /** `q` lists each schedule of `m` that is due exactly once, in some order. */
  predicate ListsDue(q: seq<UpdateSchedule>, m: Registry, now: Time) {
    && DistinctIds(q)
    && (forall i | 0 <= i < |q| :: q[i].id in m && m[q[i].id] == q[i] && Due(q[i], now))
    && (forall id | id in m && Due(m[id], now) :: HasId(q, id))
  }
}
