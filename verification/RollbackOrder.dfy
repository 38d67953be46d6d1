/** Which schedule a rollback is charged to, and in which order repeated rollbacks proceed. */
module RollbackOrder {
  import opened Wrappers
  import opened Schedules
  import opened SchedulerProtocol
  import opened ExecutorProperties

  /** `values` are the registry's records in the order the hash map happens to iterate them. */
  predicate Iterates(values: seq<UpdateSchedule>, m: Registry) {
    && DistinctIds(values)
    && (forall i | 0 <= i < |values| :: values[i].id in m && m[values[i].id] == values[i])
    && (forall id | id in m :: HasId(values, id))
  }

  /** The last of the active schedules with the greatest start time. */
  function LatestActive(values: seq<UpdateSchedule>): Option<UpdateSchedule> {
    if values == [] then None
    else
      var s, best := values[|values| - 1], LatestActive(values[..|values| - 1]);
      if !Active(s) then best
      else if best.None? || NoLaterThan(best.value.startedAt, s.startedAt) then Some(s)
      else best
  }

  lemma {:induction false} LatestActiveIsMaximal(values: seq<UpdateSchedule>)
    ensures LatestActive(values).None? <==> forall i | 0 <= i < |values| :: !Active(values[i])
    ensures LatestActive(values).Some? ==>
              var best := LatestActive(values).value;
              && Active(best)
              && (exists p | 0 <= p < |values| :: values[p] == best && NoneAsLateAfter(values, p))
              && forall i | 0 <= i < |values| && Active(values[i]) :: NoLaterThan(values[i].startedAt, best.startedAt)
  {
    if values != [] {
      var n := |values| - 1;
      var before := values[..n];
      LatestActiveIsMaximal(before);
      assert forall i | 0 <= i < n :: before[i] == values[i];
      if LatestActive(values).Some? {
        if LatestActive(values) == LatestActive(before) && LatestActive(before) != Some(values[n]) {
          var p :| 0 <= p < n && before[p] == LatestActive(before).value && NoneAsLateAfter(before, p);
          assert NoneAsLateAfter(values, p);
        } else {
          assert NoneAsLateAfter(values, n);
        }
      }
    }
  }

  /** Ties go to the last: every active schedule after position `p` started strictly earlier. */
  predicate NoneAsLateAfter(values: seq<UpdateSchedule>, p: nat)
    requires p < |values|
  {
    forall k | p < k < |values| && Active(values[k]) :: !NoLaterThan(values[p].startedAt, values[k].startedAt)
  }

  /** The pick is a latest active schedule of the registry, and there is one whenever anything is active. */
  lemma LatestActivePicks(values: seq<UpdateSchedule>, m: Registry)
    requires Iterates(values, m)
    ensures LatestActive(values).None? <==> ActiveIds(m) == {}
    ensures LatestActive(values).Some? ==>
              var best := LatestActive(values).value;
              IsLatestActive(m, best.id) && m[best.id] == best
  {
    LatestActiveIsMaximal(values);
    forall id | id in m ensures exists i :: 0 <= i < |values| && values[i] == m[id] {
      var i :| 0 <= i < |values| && values[i].id == id;
    }
    match LatestActive(values)
    case Some(best) =>
      var i :| 0 <= i < |values| && values[i] == best;
      assert best.id in ActiveIds(m);
    case None =>
      assert forall id | id in m :: !Active(m[id]);
      assert ActiveIds(m) == {};
  }

  /** The pick on raw fields: Running or Completed, and no other such schedule started after it. */
  lemma LatestStarted(values: seq<UpdateSchedule>)
    ensures LatestActive(values) == None <==>
              forall i | 0 <= i < |values| :: values[i].status != Running && values[i].status != Completed
    ensures LatestActive(values).Some? ==>
              var best := LatestActive(values).value;
              && best in values && (best.status == Running || best.status == Completed)
              && forall i | 0 <= i < |values| && (values[i].status == Running || values[i].status == Completed) ::
                   values[i].startedAt.Some? ==>
                     best.startedAt.Some? && values[i].startedAt.value <= best.startedAt.value
  {
    LatestActiveIsMaximal(values);
  }

  function ActiveIds(m: Registry): set<Id> { set id | id in m && Active(m[id]) }

  function TriggeredIds(m: Registry): set<Id> { set id | id in m && m[id].rollbackTriggered }

  /** One rollback moves exactly its target out of the active set and changes no other record. */
  lemma RollbackChangesOne(m: Registry, id: Id, reason: string, now: Time)
    requires id in m && Active(m[id])
    ensures var m' := Apply(m, RollBack(id, reason, now));
      && ActiveIds(m') == ActiveIds(m) - {id}
      && TriggeredIds(m') == TriggeredIds(m) + {id}
      && m'.Keys == m.Keys
      && m'[id].status == RolledBack && m'[id].rollbackTriggered
      && m'[id].rollbackReason == Some(reason) && m'[id].completedAt == Some(now)
      && m'[id].id == m[id].id && m'[id].request == m[id].request && m'[id].createdAt == m[id].createdAt
      && m'[id].startedAt == m[id].startedAt && m'[id].errorMessage == m[id].errorMessage
      && forall other | other in m && other != id :: m'[other] == m[other]
  {
  }

  // ----- A look at the latest active schedule, and a rollback some time later -----

  /** Between the two, `id` has become active, and it started later than `a`. */
  predicate Overtakes(m: Registry, m': Registry, a: Id, id: Id)
    requires a in m'
  {
    && id in m' && Active(m'[id]) && !(id in m && Active(m[id]))
    && !NoLaterThan(m'[id].startedAt, m'[a].startedAt)
  }

  predicate Ties(m: Registry, a: Id, id: Id)
    requires a in m
  {
    id in m && id != a && Active(m[id]) && m[id].startedAt == m[a].startedAt
  }

  /**
   The rollback supervisor looks at the latest active schedule `a`, which asked for automatic rollback, and calls
   `register_rollback` later, which picks `b`. Ties apart, it picks another one if and only if `a` has stopped
   being active or another has become active that started later; only another one can be one that did not ask.
   */
  lemma PicksAnotherIff(past: seq<Label>, run: seq<Label>, a: Id, b: Id)
    requires Legal(INIT, past) && Legal(Final(INIT, past), run) && NoCrash(run)
    requires IsLatestActive(Final(INIT, past).live, a)
    requires IsLatestActive(Final(Final(INIT, past), run).live, b)
    ensures var m, m' := Final(INIT, past).live, Final(Final(INIT, past), run).live;
      && a in m' && m'[a].request == m[a].request
      && (m[a].request.enableAutoRollback && !m'[b].request.enableAutoRollback ==> b != a)
      && (!Ties(m', a, b) ==> (b != a <==> !Active(m'[a]) || exists id :: Overtakes(m, m', a, id)))
  {
    InvHolds(INIT, past);
    LiveEvolvesAlong(Final(INIT, past), run);
    var m, m' := Final(INIT, past).live, Final(Final(INIT, past), run).live;
    if b != a && Active(m'[a]) && !Ties(m', a, b) {
      assert Overtakes(m, m', a, b);
    }
  }

  // ----- Successive rollbacks -----

  /** One call of `register_rollback`: what it picks, and the reason and the time it writes down. */
  datatype RollbackCall = RollbackCall(target: Id, reason: string, at: Time)

  function AfterCall(m: Registry, c: RollbackCall): Registry {
    Apply(m, RollBack(c.target, c.reason, c.at))
  }

  function AfterRollbacks(m: Registry, calls: seq<RollbackCall>): Registry
    decreases calls
  {
    if calls == [] then m else AfterRollbacks(AfterCall(m, calls[0]), calls[1..])
  }

  /** Each target is a latest active schedule at the time of its call. */
  predicate VisitsLatest(m: Registry, calls: seq<RollbackCall>)
    decreases calls
  {
    calls == [] || (IsLatestActive(m, calls[0].target) && VisitsLatest(AfterCall(m, calls[0]), calls[1..]))
  }

  function TargetsOf(calls: seq<RollbackCall>): seq<Id> {
    seq(|calls|, i requires 0 <= i < |calls| => calls[i].target)
  }

  function IdsOf(targets: seq<Id>): set<Id> { set id | id in targets }

  lemma Prepend(first: Id, rest: seq<Id>, left: set<Id>)
    requires first !in left && NoDuplicates(rest) && IdsOf(rest) <= left
    ensures NoDuplicates([first] + rest)
    ensures IdsOf([first] + rest) == {first} + IdsOf(rest)
    ensures IdsOf([first] + rest) <= {first} + left
    ensures left - IdsOf(rest) == ({first} + left) - IdsOf([first] + rest)
    ensures |{first} + left| == |left| + 1
  {
    assert forall i | 0 <= i < |rest| :: rest[i] in IdsOf(rest);
  }

  lemma ActiveAfter(m: Registry, id: Id, reason: string, now: Time)
    requires IsLatestActive(m, id)
    ensures var m' := Apply(m, RollBack(id, reason, now));
      id !in ActiveIds(m') && ActiveIds(m) == {id} + ActiveIds(m')
  {
    RollbackChangesOne(m, id, reason, now);
    assert id in ActiveIds(m);
  }

  /**
   Successive rollbacks, each for its own reason and at its own time, visit distinct active schedules, and what
   is left active is exactly what they have not visited: k calls leave |active| - k, and |active| calls exhaust
   them.
   */
  lemma {:induction false} RollbacksExhaust(m: Registry, calls: seq<RollbackCall>)
    requires VisitsLatest(m, calls)
    ensures NoDuplicates(TargetsOf(calls))
    ensures IdsOf(TargetsOf(calls)) <= ActiveIds(m)
    ensures ActiveIds(AfterRollbacks(m, calls)) == ActiveIds(m) - IdsOf(TargetsOf(calls))
    ensures |ActiveIds(AfterRollbacks(m, calls))| == |ActiveIds(m)| - |calls|
    decreases calls
  {
    if calls != [] {
      var first, rest := calls[0], calls[1..];
      var m' := AfterCall(m, first);
      ActiveAfter(m, first.target, first.reason, first.at);
      RollbacksExhaust(m', rest);
      Prepend(first.target, TargetsOf(rest), ActiveIds(m'));
      TargetsFront(calls);
    }
  }

  lemma TargetsFront(calls: seq<RollbackCall>)
    requires calls != []
    ensures TargetsOf(calls) == [calls[0].target] + TargetsOf(calls[1..])
  {
  }

  /** They visit them in non-increasing order of start time. */
  lemma {:induction false} RollbacksInOrder(m: Registry, calls: seq<RollbackCall>)
    requires VisitsLatest(m, calls)
    ensures forall i | 0 <= i < |calls| :: calls[i].target in m
    ensures forall i, j | 0 <= i < j < |calls| ::
              NoLaterThan(m[calls[j].target].startedAt, m[calls[i].target].startedAt)
    decreases calls
  {
    if calls != [] {
      var first, rest := calls[0], calls[1..];
      var m' := AfterCall(m, first);
      RollbackChangesOne(m, first.target, first.reason, first.at);
      RollbacksExhaust(m', rest);
      RollbacksInOrder(m', rest);
      forall j | 0 < j < |calls|
        ensures calls[j].target in m && m'[calls[j].target] == m[calls[j].target]
        ensures NoLaterThan(m[calls[j].target].startedAt, m[first.target].startedAt)
      {
        LaterTarget(m, m', first.target, rest, j - 1);
      }
      forall i, j | 0 < i < j < |calls|
        ensures NoLaterThan(m[calls[j].target].startedAt, m[calls[i].target].startedAt)
      {
        assert calls[i] == rest[i - 1] && calls[j] == rest[j - 1];
      }
    }
  }

  lemma LaterTarget(m: Registry, m': Registry, first: Id, rest: seq<RollbackCall>, j: nat)
    requires IsLatestActive(m, first) && ActiveIds(m') == ActiveIds(m) - {first}
    requires forall other | other in m && other != first :: other in m' && m'[other] == m[other]
    requires j < |rest| && IdsOf(TargetsOf(rest)) <= ActiveIds(m')
    ensures var id := rest[j].target;
      id in m && id in m' && m'[id] == m[id] && NoLaterThan(m[id].startedAt, m[first].startedAt)
  {
    assert TargetsOf(rest)[j] in IdsOf(TargetsOf(rest));
  }
}
