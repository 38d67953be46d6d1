/** The update and rollback operations in place, on two slot arrays, a set of boot flags and a rollback record. */
module Machine {
  import opened Wrappers
  import opened Schedules
  import opened DevicePath
  import opened Flash
  import opened Slots

  /** `base` is the slot taken to be active; it may turn out to be the target itself. */
  method ApplyDeltaUpdate(c: Codec, base: array<byte>, target: array<byte>, feed: DeltaFeed, expected: Option<string>)
    returns (ok: bool)
    modifies target
    ensures target[..] == AfterDelta(c, old(base[..]), old(target[..]), feed, expected)
    ensures ok <==> DeltaOk(c, old(base[..]), target.Length, feed, expected)
  {
    ok := false;
    if feed.delta.None? || feed.base.Undetected? {
      return;
    }
    var patched := c.patch(base[..], feed.delta.value);
    if patched.None? || !Matches(c, expected, patched.value) || !feed.openOk {
      return;
    }
    var write := Data(patched.value, feed.landed);
    WriteNext(target, target[..], [], PartOf(write, target.Length));
    assert [] + PartOf(write, target.Length) == PartOf(write, target.Length);
    ok := Fits(write, target.Length) && feed.syncOk && !feed.crashes;
  }

  method FlashImage(c: Codec, base: array<byte>, target: array<byte>, req: UpdateRequest, plan: FlashPlan)
    returns (ok: bool)
    modifies target
    ensures target[..] == AfterFlash(c, old(base[..]), old(target[..]), req, plan)
    ensures ok <==> FlashOk(c, old(base[..]), target.Length, req, plan)
  {
    if req.isDelta {
      ok := ApplyDeltaUpdate(c, base, target, plan.delta, req.expectedSha256);
      if !ok && !plan.delta.crashes && FallbackUrl(req).Some? {
        var reports;
        ok, reports := FlashFullImage(c, target, plan.fallback, req.expectedSha256);
      }
    } else {
      var reports;
      ok, reports := FlashFullImage(c, target, plan.source, req.expectedSha256);
    }
  }

  class Disk {
    const slotA: array<byte>
    const slotB: array<byte>
    var flags: set<nat>
    var running: nat
    var record: Option<nat>

    ghost predicate Valid()
      reads this, slotA, slotB
    {
      slotA != slotB && AsNode().Valid()
    }

    ghost function AsNode(): Node
      reads this, slotA, slotB
    {
      Node(slotA[..], slotB[..], flags, running, record)
    }

    /** The disk as a boot finds it. */
    constructor (slotA: array<byte>, slotB: array<byte>, flags: set<nat>, running: nat, record: Option<nat>)
      requires slotA != slotB && Node(slotA[..], slotB[..], flags, running, record).Valid()
      ensures this.slotA == slotA && this.slotB == slotB
      ensures Valid() && AsNode() == Node(slotA[..], slotB[..], flags, running, record)
    {
      this.slotA, this.slotB := slotA, slotB;
      this.flags, this.running, this.record := flags, running, record;
    }

    /** The slot the system is taken to run from: `get_active_partition` with its assumption as a last resort. */
    method GetActivePartition(d: Detection) returns (index: Option<nat>)
      requires Valid()
      ensures index == if d.Undetected? then None else Some(ActiveIndex(running, d))
    {
      match d {
        case Detected => index := Some(running);
        case AssumedSlotA => index := Some(SLOT_A_INDEX);
        case Undetected => index := None;
      }
    }

    method GetInactivePartition(d: Detection) returns (index: Option<nat>)
      requires Valid()
      ensures index == if d.Undetected? then None else Some(OtherIndex(ActiveIndex(running, d)))
    {
      var active := GetActivePartition(d);
      if active.None? {
        return None;
      }
      index := Some(if active.value == SLOT_A_INDEX then SLOT_B_INDEX else SLOT_A_INDEX);
    }

    method FlashSlot(c: Codec, target: nat, req: UpdateRequest, plan: FlashPlan) returns (ok: bool)
      requires Valid() && IsSlot(target)
      modifies slotA, slotB
      ensures var base, device := old(AsNode()).Slot(ActiveIndex(running, plan.delta.base)), old(AsNode()).Slot(target);
        && AsNode() == old(AsNode()).WithSlot(target, AfterFlash(c, base, device, req, plan))
        && (ok <==> FlashOk(c, base, |device|, req, plan))
    {
      var active := GetActivePartition(plan.delta.base);
      // with no active slot the delta attempt ends before it reads anything
      var base := if active.None? then running else active.value;
      ok := FlashImage(c, if base == SLOT_A_INDEX then slotA else slotB,
                       if target == SLOT_A_INDEX then slotA else slotB, req, plan);
    }

    method SwitchBootPartition(target: nat, plan: SwitchPlan) returns (ok: bool)
      modifies `flags
      ensures flags == AfterSwitch(old(flags), target, plan)
      ensures ok <==> SwitchOk(plan)
    {
      ok := false;
      if !plan.sgdiskInstalled {
        return;
      }
      var other := if target == SLOT_A_INDEX then SLOT_B_INDEX else SLOT_A_INDEX;
      match plan.clear {
        case Cleared => flags := flags - {other};
        case Refused =>
        case ClearStops => return;
      }
      if plan.setOk {
        flags := flags + {target};
        ok := true;
      }
    }

    method RecordActivePartition(outcome: RecordOutcome) returns (stopped: bool)
      requires Valid()
      modifies `record
      ensures stopped <==> outcome.RecordStops?
      ensures record == if outcome.Recorded? && !outcome.active.Undetected?
                        then Some(ActiveIndex(running, outcome.active)) else old(record)
    {
      if outcome.Recorded? {
        var active := GetActivePartition(outcome.active);
        if active.Some? {
          record := active;
        }
      }
      stopped := outcome.RecordStops?;
    }

    method ExecuteScheduledUpdate(c: Codec, req: UpdateRequest, plan: UpdatePlan) returns (ok: bool)
      requires Valid()
      modifies this, slotA, slotB
      ensures Valid() && AsNode() == AfterUpdate(c, old(AsNode()), req, plan)
      ensures ok <==> UpdateOk(c, old(AsNode()), req, plan)
    {
      ghost var n := AsNode();
      UpdateIsSafe(c, n, req, plan);
      ok := false;
      var inactive := GetInactivePartition(plan.active);
      if inactive.None? {
        return;
      }
      var target := inactive.value;
      if HookRuns(req.preUpdateHook) && plan.preHook.HookStops? {
        return;
      }
      var flashed := FlashSlot(c, target, req, plan.flash);
      if !flashed || (HookRuns(req.postUpdateHook) && plan.postHook.HookStops?) {
        return;
      }
      var stopped := RecordActivePartition(plan.record);
      if stopped {
        return;
      }
      ok := SwitchBootPartition(target, plan.switch);
    }

    method RollbackToPreviousPartition(plan: RollbackPlan) returns (ok: bool)
      requires Valid()
      modifies `flags, `record
      ensures Valid() && AsNode() == AfterRollback(old(AsNode()), plan)
      ensures ok <==> RollbackOk(old(AsNode()), plan)
    {
      ok := false;
      if record.None? {
        return;
      }
      var previous := record.value;
      SwitchFlags(flags, previous, plan.switch);
      var switched := SwitchBootPartition(previous, plan.switch);
      if switched && plan.saveOk {
        record := None;
        ok := true;
      }
    }
  }
}
