/** Whole runs of updates, installs, rollbacks and reboots, one operation at a time. */
module SlotRuns {
  import opened Wrappers
  import opened Schedules
  import opened DevicePath
  import opened Flash
  import opened Slots

  datatype Event =
    | Update(req: UpdateRequest, plan: UpdatePlan)
    | Install(req: UpdateRequest, plan: UpdatePlan)
    | Rollback(rollback: RollbackPlan)
    | Reboot(slot: nat) // the boot loader's choice is left open

  /** The slot that the last recorded update named, with its bytes as that update left them. */
  datatype Commit = Commit(slot: nat, bytes: seq<byte>)

  datatype Tracked = Tracked(node: Node, commit: Option<Commit>, records: nat, rollbacks: nat)

  function Step(c: Codec, t: Tracked, e: Event): Tracked {
    var n := t.node;
    match e
    case Update(req, plan) =>
      var kept := if ReachesFlash(req, plan) then None else t.commit;
      if Slots.Records(c, n, req, plan)
      then
        var n', named := AfterUpdate(c, n, req, plan), RecordedIndex(n, plan);
        Tracked(n', Some(Commit(named, n'.Slot(named))), t.records + 1, t.rollbacks)
      else Tracked(AfterUpdate(c, n, req, plan), kept, t.records, t.rollbacks)
    case Install(req, plan) =>
      Tracked(AfterInstall(c, n, req, plan), if plan.active.Undetected? then t.commit else None, t.records, t.rollbacks)
    case Rollback(plan) =>
      Tracked(AfterRollback(n, plan), t.commit, t.records, t.rollbacks + if RollbackOk(n, plan) then 1 else 0)
    case Reboot(slot) => t.(node := n.(running := if IsSlot(slot) then slot else n.running))
  }

  function Run(c: Codec, t: Tracked, events: seq<Event>): Tracked
    decreases events
  {
    if events == [] then t else Run(c, Step(c, t, events[0]), events[1..])
  }

  /** What is counted: record steps that worked, and rollbacks that switched and took their record back. */
  lemma Counted(c: Codec, t: Tracked, req: UpdateRequest, plan: UpdatePlan, p: RollbackPlan, slot: nat)
    ensures Slots.Records(c, t.node, req, plan) ==> Step(c, t, Update(req, plan)).records == t.records + 1
    ensures !Slots.Records(c, t.node, req, plan) ==> Step(c, t, Update(req, plan)).records == t.records
    ensures Step(c, t, Rollback(p)).rollbacks
            == if t.node.record.Some? && SwitchOk(p.switch) && p.saveOk then t.rollbacks + 1 else t.rollbacks
    ensures IsSlot(slot) ==> Step(c, t, Reboot(slot)).node == t.node.(running := slot)
  {
  }

  predicate CommitHeld(t: Tracked) {
    && t.node.Valid()
    && (t.commit.Some? ==>
          && IsSlot(t.commit.value.slot)
          && t.node.Slot(t.commit.value.slot) == t.commit.value.bytes
          && (t.node.record.Some? ==> t.node.record.value == t.commit.value.slot))
  }

  lemma CommitKept(c: Codec, t: Tracked, e: Event)
    requires CommitHeld(t)
    ensures CommitHeld(Step(c, t, e))
  {
    match e
    case Update(req, plan) => UpdateIsSafe(c, t.node, req, plan);
    case Install(req, plan) =>
      UpdateIsSafe(c, t.node, req.(preUpdateHook := None, postUpdateHook := None), plan.(record := NotRecorded));
    case Rollback(plan) =>
      if t.node.record.Some? {
        SwitchFlags(t.node.flags, t.node.record.value, plan.switch);
      }
    case Reboot(_) =>
  }

  lemma {:induction false} CommitHeldAlong(c: Codec, t: Tracked, events: seq<Event>)
    requires CommitHeld(t)
    ensures CommitHeld(Run(c, t, events))
    decreases events
  {
    if events != [] {
      CommitKept(c, t, events[0]);
      CommitHeldAlong(c, Step(c, t, events[0]), events[1..]);
    }
  }

  /** None of these events starts a flash. */
  predicate NoFlash(events: seq<Event>) {
    forall i | 0 <= i < |events| ::
      && (events[i].Update? ==> !ReachesFlash(events[i].req, events[i].plan))
      && (events[i].Install? ==> events[i].plan.active.Undetected?)
  }

  lemma {:induction false} CommitSurvives(c: Codec, t: Tracked, events: seq<Event>)
    requires NoFlash(events)
    ensures Run(c, t, events).commit == t.commit
    decreases events
  {
    if events != [] {
      assert forall i | 0 <= i < |events| - 1 :: events[1..][i] == events[i + 1];
      CommitSurvives(c, Step(c, t, events[0]), events[1..]);
    }
  }

  /**
   Rollback goes home. Take any history, an update whose record step succeeded, and then any events, reboots
   and crashed operations included, that start no flash. A rollback that switches then flags the slot the
   record names, alone if the clear call worked. That is the slot that was running at the update if and only if
   the record step did not assume slot A while slot B ran; and the slot that was running holds, byte for byte,
   what it held when the update began, if the update itself had not assumed that.
   */
  lemma RollbackGoesHome(c: Codec, start: Node, history: seq<Event>, req: UpdateRequest, plan: UpdatePlan,
                         since: seq<Event>, rollback: RollbackPlan)
    requires start.Valid() && NoFlash(since)
    requires Slots.Records(c, Run(c, Tracked(start, None, 0, 0), history).node, req, plan)
    requires var t := Run(c, Step(c, Run(c, Tracked(start, None, 0, 0), history), Update(req, plan)), since);
      RollbackSwitches(t.node, rollback)
    ensures var atUpdate := Run(c, Tracked(start, None, 0, 0), history).node;
            var t := Run(c, Step(c, Run(c, Tracked(start, None, 0, 0), history), Update(req, plan)), since);
            var after, named := AfterRollback(t.node, rollback), RecordedIndex(atUpdate, plan);
      && named in after.flags
      && (rollback.switch.clear.Cleared? ==> after.flags == {named})
      && (named == atUpdate.running <==> !Misdetects(atUpdate.running, plan.record.active))
      && (named != Target(atUpdate, plan) ==> after.Slot(named) == atUpdate.Slot(named))
      && (!Misdetects(atUpdate.running, plan.record.active) && !Misdetects(atUpdate.running, plan.active) ==>
            atUpdate.running in after.flags && after.Slot(atUpdate.running) == atUpdate.Slot(atUpdate.running))
  {
    var before := Run(c, Tracked(start, None, 0, 0), history);
    CommitHeldAlong(c, Tracked(start, None, 0, 0), history);
    var updated := Step(c, before, Update(req, plan));
    CommitKept(c, before, Update(req, plan));
    UpdateIsSafe(c, before.node, req, plan);
    CommitHeldAlong(c, updated, since);
    CommitSurvives(c, updated, since);
    var t := Run(c, updated, since);
    SwitchFlags(t.node.flags, t.node.record.value, rollback.switch);
  }

  /** Successful rollbacks never outnumber successful records, over any run that starts with nothing recorded. */
  lemma {:induction false} RollbacksArePaidFor(c: Codec, t: Tracked, events: seq<Event>)
    requires t.node.Valid() && t.rollbacks + (if t.node.record.Some? then 1 else 0) <= t.records
    ensures var t' := Run(c, t, events);
      t'.node.Valid() && t'.rollbacks + (if t'.node.record.Some? then 1 else 0) <= t'.records
    decreases events
  {
    if events != [] {
      var unbound := t.(commit := None);
      CommitKept(c, unbound, events[0]);
      assert Step(c, t, events[0]).node == Step(c, unbound, events[0]).node;
      RollbacksArePaidFor(c, Step(c, t, events[0]), events[1..]);
    }
  }

  /** Every set call of the event that is reached after its clear call succeeds. */
  predicate SetsSucceed(e: Event) {
    match e
    case Update(_, plan) => !plan.switch.sgdiskInstalled || plan.switch.clear.ClearStops? || plan.switch.setOk
    case Install(_, plan) => !plan.switch.sgdiskInstalled || plan.switch.clear.ClearStops? || plan.switch.setOk
    case Rollback(plan) => !plan.switch.sgdiskInstalled || plan.switch.clear.ClearStops? || plan.switch.setOk
    case Reboot(_) => true
  }

  /** As long as no set call fails, or is lost to a crash after the clear, some slot stays flagged. */
  lemma {:induction false} SomeSlotStaysFlagged(c: Codec, t: Tracked, events: seq<Event>)
    requires t.node.Valid() && t.node.flags != {}
    requires forall i | 0 <= i < |events| :: SetsSucceed(events[i])
    ensures Run(c, t, events).node.flags != {}
    decreases events
  {
    if events != [] {
      var unbound := t.(commit := None);
      CommitKept(c, unbound, events[0]);
      assert Step(c, t, events[0]).node == Step(c, unbound, events[0]).node;
      match events[0] {
        case Update(req, plan) => SwitchFlags(t.node.flags, Target(t.node, plan), plan.switch);
        case Install(req, plan) => SwitchFlags(t.node.flags, Target(t.node, plan), plan.switch);
        case Rollback(plan) =>
          if t.node.record.Some? {
            SwitchFlags(t.node.flags, t.node.record.value, plan.switch);
          }
        case Reboot(_) =>
      }
      SomeSlotStaysFlagged(c, Step(c, t, events[0]), events[1..]);
    }
  }
}
