/**
 The A/B slots: flashing the inactive one, moving the boot flag, recording where to go back to, and rolling
 back. Each external call of an operation has an outcome in a plan; `Stops` stands both for an error that ends
 the operation and for a crash at that point, so quantifying over plans covers every crash point.
 */
module Slots {
  import opened Wrappers
  import opened Schedules
  import opened DevicePath
  import opened Flash

  predicate IsSlot(i: nat) { i == SLOT_A_INDEX || i == SLOT_B_INDEX }

  /** What survives a crash or a reboot, and the slot the system was booted from. */
  datatype Node = Node(slotA: seq<byte>, slotB: seq<byte>, flags: set<nat>, running: nat, record: Option<nat>) {
    function Slot(i: nat): seq<byte> { if i == SLOT_A_INDEX then slotA else slotB }

    function WithSlot(i: nat, s: seq<byte>): Node {
      if i == SLOT_A_INDEX then this.(slotA := s) else this.(slotB := s)
    }

    predicate Valid() {
      && IsSlot(running)
      && (forall i | i in flags :: IsSlot(i))
      && (record.Some? ==> IsSlot(record.value))
    }
  }

  // ----- Which slot is taken to be active -----

  /**
   One call of `get_active_partition`. It names the slot the system runs from, or fails, or, when the link of a
   PARTUUID cannot be read or no root is found, assumes slot A. An update makes this call up to three times.
   */
  datatype Detection = Detected | AssumedSlotA | Undetected

  function ActiveIndex(running: nat, d: Detection): nat {
    if d.AssumedSlotA? then SLOT_A_INDEX else running
  }

  /** The slot assumed is not the one that runs. */
  predicate Misdetects(running: nat, d: Detection) {
    d.AssumedSlotA? && running != SLOT_A_INDEX
  }

  // ----- Flashing -----

  /**
   The delta attempt: download, read of the slot `base` names, patching, and the write to the target. `base` is
   Undetected also when the read itself fails.
   */
  datatype DeltaFeed = DeltaFeed(delta: Option<seq<byte>>, base: Detection, openOk: bool, landed: Option<nat>,
                                 syncOk: bool, crashes: bool)

  datatype FlashPlan = FlashPlan(source: Feed, delta: DeltaFeed, fallback: Feed)

  function Patched(c: Codec, oldImage: seq<byte>, f: DeltaFeed): Option<seq<byte>> {
    if f.delta.Some? && !f.base.Undetected? then c.patch(oldImage, f.delta.value) else None
  }

  /** The patched image, if it was produced and verified: only then is the target opened. */
  function Verified(c: Codec, oldImage: seq<byte>, f: DeltaFeed, expected: Option<string>): Option<seq<byte>> {
    var p := Patched(c, oldImage, f);
    if p.Some? && Matches(c, expected, p.value) && f.openOk then p else None
  }

  function AfterDelta(c: Codec, oldImage: seq<byte>, device: seq<byte>, f: DeltaFeed, expected: Option<string>)
    : seq<byte>
  {
    match Verified(c, oldImage, f, expected)
    case None => device
    case Some(image) => Overwrite(device, PartOf(Data(image, f.landed), |device|))
  }

  predicate DeltaOk(c: Codec, oldImage: seq<byte>, capacity: nat, f: DeltaFeed, expected: Option<string>) {
    var image := Verified(c, oldImage, f, expected);
    image.Some? && Fits(Data(image.value, f.landed), capacity) && f.syncOk && !f.crashes
  }

  function FallbackUrl(req: UpdateRequest): Option<string> {
    if req.fallbackToFull then req.fullImageUrl else None
  }

  function AfterFlash(c: Codec, oldImage: seq<byte>, device: seq<byte>, req: UpdateRequest, plan: FlashPlan)
    : seq<byte>
  {
    if !req.isDelta then AfterFull(device, plan.source)
    else
      var tried := AfterDelta(c, oldImage, device, plan.delta, req.expectedSha256);
      if DeltaOk(c, oldImage, |device|, plan.delta, req.expectedSha256) || plan.delta.crashes || FallbackUrl(req).None?
      then tried
      else AfterFull(tried, plan.fallback)
  }

  predicate FlashOk(c: Codec, oldImage: seq<byte>, capacity: nat, req: UpdateRequest, plan: FlashPlan) {
    if !req.isDelta then FullOk(c, capacity, plan.source, req.expectedSha256)
    else
      || DeltaOk(c, oldImage, capacity, plan.delta, req.expectedSha256)
      || (!plan.delta.crashes && FallbackUrl(req).Some? && FullOk(c, capacity, plan.fallback, req.expectedSha256))
  }

  /** The route by which an image reaches the slot: the fallback is tried only after a delta that failed. */
  datatype Route = ByDelta | ByFallback | BySource

  function RouteTaken(c: Codec, oldImage: seq<byte>, capacity: nat, req: UpdateRequest, plan: FlashPlan): Route {
    if !req.isDelta then BySource
    else if DeltaOk(c, oldImage, capacity, plan.delta, req.expectedSha256) then ByDelta
    else ByFallback
  }

  /** What was received by a route: the patched old image, or everything the route's download carried. */
  function ReceivedImage(c: Codec, oldImage: seq<byte>, plan: FlashPlan, route: Route): Option<seq<byte>> {
    match route
    case ByDelta => Patched(c, oldImage, plan.delta)
    case ByFallback => if plan.fallback.connected then Some(Stream(plan.fallback.items)) else None
    case BySource => if plan.source.connected then Some(Stream(plan.source.items)) else None
  }

  /** The device begins with the image received by the route taken, and that image has the expected digest. */
  predicate HoldsReceived(c: Codec, oldImage: seq<byte>, device: seq<byte>, req: UpdateRequest, plan: FlashPlan) {
    var image := ReceivedImage(c, oldImage, plan, RouteTaken(c, oldImage, |device|, req, plan));
    image.Some? && image.value <= device && Matches(c, req.expectedSha256, image.value)
  }

  lemma FlashKeepsSize(c: Codec, oldImage: seq<byte>, device: seq<byte>, req: UpdateRequest, plan: FlashPlan)
    ensures |AfterFlash(c, oldImage, device, req, plan)| == |device|
  {
  }

  /** A full flash that succeeds leaves the whole stream at the start of the device, over whatever was there. */
  lemma FullInstalls(c: Codec, device: seq<byte>, feed: Feed, expected: Option<string>)
    requires FullOk(c, |device|, feed, expected)
    ensures Stream(feed.items) <= AfterFull(device, feed) && Matches(c, expected, Stream(feed.items))
  {
    LandedIsPrefix(feed.items, |device|);
  }

  /** A successful flash leaves the image received by the route taken, verified, at the start of the device. */
  lemma FlashInstalls(c: Codec, oldImage: seq<byte>, device: seq<byte>, req: UpdateRequest, plan: FlashPlan)
    requires FlashOk(c, oldImage, |device|, req, plan)
    ensures HoldsReceived(c, oldImage, AfterFlash(c, oldImage, device, req, plan), req, plan)
  {
    FlashKeepsSize(c, oldImage, device, req, plan);
    match RouteTaken(c, oldImage, |device|, req, plan)
    case BySource => FullInstalls(c, device, plan.source, req.expectedSha256);
    case ByDelta =>
      var image := Patched(c, oldImage, plan.delta).value;
      assert image[..Min(|image|, |device|)] == image;
    case ByFallback =>
      var tried := AfterDelta(c, oldImage, device, plan.delta, req.expectedSha256);
      FullInstalls(c, tried, plan.fallback, req.expectedSha256);
  }

  /**
   A delta update succeeds exactly when the delta is there, the base can be read, the patch applies, there is no
   expected digest, or an empty one, or the patched image has it, and all of that image is written and synced. The
   target is not touched before the patched image has passed.
   */
  lemma DeltaSucceedsIff(c: Codec, oldImage: seq<byte>, device: seq<byte>, f: DeltaFeed, expected: Option<string>)
    ensures DeltaOk(c, oldImage, |device|, f, expected) <==>
              && f.delta.Some? && f.base != Undetected && c.patch(oldImage, f.delta.value).Some?
              && var image := c.patch(oldImage, f.delta.value).value;
              && (expected == None || expected == Some("") || c.sha(image) == c.lower(expected.value))
              && f.openOk && f.landed == None && |image| <= |device| && f.syncOk && !f.crashes
    ensures AfterDelta(c, oldImage, device, f, expected) != device ==>
              && f.delta.Some? && f.base != Undetected && c.patch(oldImage, f.delta.value).Some? && f.openOk
              && var image := c.patch(oldImage, f.delta.value).value;
              && (expected == None || expected == Some("") || c.sha(image) == c.lower(expected.value))
    ensures DeltaOk(c, oldImage, |device|, f, expected) ==>
              var image := c.patch(oldImage, f.delta.value).value;
              AfterDelta(c, oldImage, device, f, expected) == image + device[|image|..]
  {
  }

  /**
   A delta update falls back to a full image if it failed short of a crash, fallback was asked for and there is a
   URL for it; otherwise the fallback download has no effect.
   */
  lemma FallsBackIff(c: Codec, oldImage: seq<byte>, device: seq<byte>, req: UpdateRequest, plan: FlashPlan, other: Feed)
    ensures !req.isDelta ==>
              && (FlashOk(c, oldImage, |device|, req, plan) <==> FullOk(c, |device|, plan.source, req.expectedSha256))
              && AfterFlash(c, oldImage, device, req, plan) == AfterFull(device, plan.source)
    ensures req.isDelta ==>
              var tried := AfterDelta(c, oldImage, device, plan.delta, req.expectedSha256);
              var deltaOk := DeltaOk(c, oldImage, |device|, plan.delta, req.expectedSha256);
              if !deltaOk && !plan.delta.crashes && req.fallbackToFull && req.fullImageUrl.Some?
              then
                && AfterFlash(c, oldImage, device, req, plan) == AfterFull(tried, plan.fallback)
                && (FlashOk(c, oldImage, |device|, req, plan) <==>
                      FullOk(c, |device|, plan.fallback, req.expectedSha256))
              else
                && AfterFlash(c, oldImage, device, req, plan) == tried
                && (FlashOk(c, oldImage, |device|, req, plan) <==> deltaOk)
  {
  }

  // ----- Moving the boot flag -----

  datatype ClearOutcome = Cleared | Refused | ClearStops
  datatype SwitchPlan = SwitchPlan(sgdiskInstalled: bool, clear: ClearOutcome, setOk: bool)

  /** The set call is reached and succeeds; nothing after it can fail the switch. */
  predicate SwitchOk(plan: SwitchPlan) {
    plan.sgdiskInstalled && !plan.clear.ClearStops? && plan.setOk
  }

  function AfterSwitch(flags: set<nat>, target: nat, plan: SwitchPlan): set<nat> {
    if !plan.sgdiskInstalled then flags
    else
      var cleared := if plan.clear.Cleared? then flags - {OtherIndex(target)} else flags;
      if SwitchOk(plan) then cleared + {target} else cleared
  }

  /**
   A switch that succeeds flags its target, and it alone exactly when the clear took effect or there was
   nothing to clear. A switch leaves no slot flagged exactly when its set call did not happen and the clear
   removed the only flag there was, or there was none.
   */
  lemma SwitchFlags(flags: set<nat>, target: nat, plan: SwitchPlan)
    requires IsSlot(target) && forall i | i in flags :: IsSlot(i)
    ensures var after := AfterSwitch(flags, target, plan);
      && (forall i | i in after :: IsSlot(i))
      && (SwitchOk(plan) ==> target in after)
      && (SwitchOk(plan) ==> (after == {target} <==> plan.clear.Cleared? || OtherIndex(target) !in flags))
      && (after == {} <==> !SwitchOk(plan) && target !in flags
                           && (OtherIndex(target) !in flags || (plan.sgdiskInstalled && plan.clear.Cleared?)))
  {
    var after := AfterSwitch(flags, target, plan);
    var other := OtherIndex(target);
    assert forall i | i in flags :: i == target || i == other;
    if target in flags {
      assert target in after;
    }
    if other in flags && !(plan.sgdiskInstalled && plan.clear.Cleared?) {
      assert other in after;
    }
  }

  /**
   A switch succeeds exactly when sgdisk is there, the clear call does not end it and the set call works; a refused
   clear call does not. A switch that fails flags nothing.
   */
  lemma SwitchSucceedsIff(flags: set<nat>, target: nat, plan: SwitchPlan)
    requires IsSlot(target)
    ensures SwitchOk(plan) <==> plan.sgdiskInstalled && plan.clear != ClearStops && plan.setOk
    ensures !SwitchOk(plan) ==> AfterSwitch(flags, target, plan) <= flags
    ensures !plan.sgdiskInstalled || plan.clear == ClearStops ==> AfterSwitch(flags, target, plan) == flags
    ensures SwitchOk(plan) ==>
              AfterSwitch(flags, target, plan)
              == (if plan.clear == Cleared then flags - {2, 3} + {target} else flags + {target})
                 + (flags - {2, 3})
  {
  }

  // ----- The operations -----

  datatype HookOutcome = HookOk | HookStops

  /** NotRecorded stands for any failure of the record step, which the update then ignores. */
  datatype RecordOutcome = Recorded(active: Detection) | NotRecorded | RecordStops

  datatype UpdatePlan = UpdatePlan(active: Detection, preHook: HookOutcome, flash: FlashPlan, postHook: HookOutcome,
                                   record: RecordOutcome, switch: SwitchPlan)

  /** The slot the update writes. */
  function Target(n: Node, plan: UpdatePlan): nat {
    OtherIndex(ActiveIndex(n.running, plan.active))
  }

  /** The old image a delta is applied to. */
  function Base(n: Node, plan: UpdatePlan): seq<byte> {
    n.Slot(ActiveIndex(n.running, plan.flash.delta.base))
  }

  /** A blank command is not executed at all. */
  predicate HookRuns(hook: Option<string>) {
    hook.Some? && exists i | 0 <= i < |hook.value| :: hook.value[i] !in {' ', '\t', '\n', '\r'}
  }

  predicate HookPasses(hook: Option<string>, outcome: HookOutcome) {
    HookRuns(hook) ==> outcome.HookOk?
  }

  /** How far an update gets. */
  predicate ReachesFlash(req: UpdateRequest, plan: UpdatePlan) {
    !plan.active.Undetected? && HookPasses(req.preUpdateHook, plan.preHook)
  }

  predicate ReachesRecord(c: Codec, n: Node, req: UpdateRequest, plan: UpdatePlan) {
    && ReachesFlash(req, plan)
    && FlashOk(c, Base(n, plan), |n.Slot(Target(n, plan))|, req, plan.flash)
    && HookPasses(req.postUpdateHook, plan.postHook)
  }

  predicate ReachesSwitch(c: Codec, n: Node, req: UpdateRequest, plan: UpdatePlan) {
    ReachesRecord(c, n, req, plan) && !plan.record.RecordStops?
  }

  predicate UpdateOk(c: Codec, n: Node, req: UpdateRequest, plan: UpdatePlan) {
    ReachesSwitch(c, n, req, plan) && SwitchOk(plan.switch)
  }

  predicate Records(c: Codec, n: Node, req: UpdateRequest, plan: UpdatePlan) {
    ReachesRecord(c, n, req, plan) && plan.record.Recorded? && !plan.record.active.Undetected?
  }

  /** The slot a rollback of this update would go back to. */
  function RecordedIndex(n: Node, plan: UpdatePlan): nat
    requires plan.record.Recorded?
  {
    ActiveIndex(n.running, plan.record.active)
  }

  function AfterUpdate(c: Codec, n: Node, req: UpdateRequest, plan: UpdatePlan): Node {
    var target := Target(n, plan);
    var flashed :=
      if ReachesFlash(req, plan)
      then n.WithSlot(target, AfterFlash(c, Base(n, plan), n.Slot(target), req, plan.flash))
      else n;
    var recorded :=
      if Records(c, n, req, plan) then flashed.(record := Some(RecordedIndex(n, plan))) else flashed;
    if ReachesSwitch(c, n, req, plan) then recorded.(flags := AfterSwitch(n.flags, target, plan.switch)) else recorded
  }

  /**
   Over every outcome of every external call and every crash point: only the target slot is written, and it is
   not the running one unless slot A was assumed while slot B runs; the flags move only if the target slot then
   begins with the image received by the route taken, which has the expected digest; any failure before the
   switch leaves them alone; and the record names the slot that was taken to be running when it was made.
   */
  lemma UpdateIsSafe(c: Codec, n: Node, req: UpdateRequest, plan: UpdatePlan)
    requires n.Valid()
    ensures var n', target := AfterUpdate(c, n, req, plan), Target(n, plan);
      && n'.Valid() && n'.running == n.running && IsSlot(target)
      && n'.Slot(OtherIndex(target)) == n.Slot(OtherIndex(target))
      && |n'.Slot(target)| == |n.Slot(target)|
      && (target == n.running <==> Misdetects(n.running, plan.active))
      && (!Misdetects(n.running, plan.active) ==> n'.Slot(n.running) == n.Slot(n.running))
      && (n'.flags != n.flags || UpdateOk(c, n, req, plan) ==>
            ReachesSwitch(c, n, req, plan) && HoldsReceived(c, Base(n, plan), n'.Slot(target), req, plan.flash))
      && (UpdateOk(c, n, req, plan) ==> target in n'.flags)
      && (!ReachesSwitch(c, n, req, plan) ==> n'.flags == n.flags)
      && n'.record == (if Records(c, n, req, plan) then Some(RecordedIndex(n, plan)) else n.record)
  {
    var target := Target(n, plan);
    SwitchFlags(n.flags, target, plan.switch);
    FlashKeepsSize(c, Base(n, plan), n.Slot(target), req, plan.flash);
    if ReachesSwitch(c, n, req, plan) {
      FlashInstalls(c, Base(n, plan), n.Slot(target), req, plan.flash);
    }
  }

  /** A hook is left out exactly when there is none or all of it is blank. */
  lemma BlankHooksDoNotRun(hook: Option<string>)
    ensures !HookRuns(hook) <==>
              hook == None || forall i | 0 <= i < |hook.value| ::
                hook.value[i] == ' ' || hook.value[i] == '\t' || hook.value[i] == '\n' || hook.value[i] == '\r'
  {
  }

  /** A failing pre-update hook, or one in which the process dies, ends the update before anything is touched. */
  lemma PreHookStopsUpdate(c: Codec, n: Node, req: UpdateRequest, plan: UpdatePlan, i: nat)
    requires req.preUpdateHook.Some? && i < |req.preUpdateHook.value| && plan.preHook == HookStops
    requires req.preUpdateHook.value[i] !in [' ', '\t', '\n', '\r']
    ensures AfterUpdate(c, n, req, plan) == n && !UpdateOk(c, n, req, plan)
  {
    BlankHooksDoNotRun(req.preUpdateHook);
  }

  /** A failing post-update hook ends it with the flags and the record as they were. */
  lemma PostHookStopsUpdate(c: Codec, n: Node, req: UpdateRequest, plan: UpdatePlan, i: nat)
    requires req.postUpdateHook.Some? && i < |req.postUpdateHook.value| && plan.postHook == HookStops
    requires req.postUpdateHook.value[i] !in [' ', '\t', '\n', '\r']
    ensures var n' := AfterUpdate(c, n, req, plan);
      n'.flags == n.flags && n'.record == n.record && !UpdateOk(c, n, req, plan)
  {
    BlankHooksDoNotRun(req.postUpdateHook);
  }

  /**
   An update that succeeds, or only moves a flag, has left at the start of its target an image with the expected
   digest, if one was asked for. A full image with another digest moves nothing.
   */
  lemma DigestIsChecked(c: Codec, n: Node, req: UpdateRequest, plan: UpdatePlan)
    requires n.Valid() && req.expectedSha256.Some? && req.expectedSha256.value != ""
    ensures var n' := AfterUpdate(c, n, req, plan);
      UpdateOk(c, n, req, plan) || n'.flags != n.flags ==>
        exists image | image <= n'.Slot(Target(n, plan)) :: c.sha(image) == c.lower(req.expectedSha256.value)
    ensures !req.isDelta && c.sha(Stream(plan.flash.source.items)) != c.lower(req.expectedSha256.value) ==>
              !UpdateOk(c, n, req, plan) && AfterUpdate(c, n, req, plan).flags == n.flags
  {
    UpdateIsSafe(c, n, req, plan);
    FullSucceedsIff(c, n.Slot(Target(n, plan)), plan.flash.source, req.expectedSha256);
  }

  /**
   Short of that, an update succeeds exactly when the slot to write is known, the hooks that run pass, the
   flash works, the record step is not cut short and the switch works. A record step that fails is ignored.
   */
  lemma UpdateSucceedsIff(c: Codec, n: Node, req: UpdateRequest, plan: UpdatePlan)
    ensures UpdateOk(c, n, req, plan) <==>
              && plan.active != Undetected
              && (HookRuns(req.preUpdateHook) ==> plan.preHook == HookOk)
              && FlashOk(c, n.Slot(if plan.flash.delta.base == AssumedSlotA then 2 else n.running),
                         |n.Slot(Target(n, plan))|, req, plan.flash)
              && (HookRuns(req.postUpdateHook) ==> plan.postHook == HookOk)
              && plan.record != RecordStops
              && SwitchOk(plan.switch)
    ensures Target(n, plan) == if plan.active == AssumedSlotA || n.running == 2 then 3 else 2
    ensures UpdateOk(c, n, req, plan) ==>
              var n', base := AfterUpdate(c, n, req, plan),
                  n.Slot(if plan.flash.delta.base == AssumedSlotA then 2 else n.running);
              && n'.Slot(Target(n, plan)) == AfterFlash(c, base, n.Slot(Target(n, plan)), req, plan.flash)
              && n'.flags == AfterSwitch(n.flags, Target(n, plan), plan.switch)
              && n'.record == match plan.record
                 case Recorded(Detected) => Some(n.running)
                 case Recorded(AssumedSlotA) => Some(2)
                 case _ => n.record
    ensures plan.active == Undetected ==> AfterUpdate(c, n, req, plan) == n
  {
  }

  /** A download that breaks off after its first byte, and an update that uses it. */
  function TornPlan(d: Detection, b: byte): UpdatePlan {
    var torn := Feed(true, [Data([b], None), StreamError], 0, true);
    UpdatePlan(d, HookOk, FlashPlan(torn, DeltaFeed(None, Undetected, false, None, false, false), torn), HookOk,
               NotRecorded, SwitchPlan(true, Cleared, true))
  }

  const PLAIN := UpdateRequest("", None, None, None, false, None, None, None, false, false, None)

  lemma TornWrites(c: Codec, n: Node, d: Detection) returns (b: byte)
    requires n.Valid() && |n.slotA| > 0 && |n.slotB| > 0 && !d.Undetected?
    ensures var n' := AfterUpdate(c, n, PLAIN, TornPlan(d, b)); var target := Target(n, TornPlan(d, b));
      n'.Slot(target) != n.Slot(target) && !UpdateOk(c, n, PLAIN, TornPlan(d, b))
  {
    var target := OtherIndex(ActiveIndex(n.running, d));
    b := if n.Slot(target)[0] == 0 then 1 else 0;
    var items, room := TornPlan(d, b).flash.source.items, |n.Slot(target)|;
    assert items[1..] == [StreamError];
    assert !AllLanded(items[1..], room - 1);
    assert Landed(items[1..], room - 1) == [];
    assert Landed(items, room) == [b];
    assert AfterUpdate(c, n, PLAIN, TornPlan(d, b)).Slot(target)[0] == b;
  }

  /** The slot the system runs from is at risk exactly when slot A is assumed while slot B runs. */
  lemma RunningSlotAtRiskIff(c: Codec, n: Node, d: Detection)
    requires n.Valid() && |n.slotA| > 0 && |n.slotB| > 0
    ensures (exists req, plan: UpdatePlan ::
               plan.active == d && AfterUpdate(c, n, req, plan).Slot(n.running) != n.Slot(n.running))
            <==> Misdetects(n.running, d)
  {
    forall req, plan: UpdatePlan | plan.active == d && !Misdetects(n.running, d)
      ensures AfterUpdate(c, n, req, plan).Slot(n.running) == n.Slot(n.running)
    {
      UpdateIsSafe(c, n, req, plan);
    }
    if Misdetects(n.running, d) {
      var b := TornWrites(c, n, d);
      assert TornPlan(d, b).active == d;
    }
  }

  /** The bytes of a flagged slot are at risk exactly when the slot to be flashed is itself flagged. */
  lemma FlaggedSlotAtRiskIff(c: Codec, n: Node, d: Detection)
    requires n.Valid() && |n.slotA| > 0 && |n.slotB| > 0
    ensures (exists req, plan: UpdatePlan, i ::
               plan.active == d && i in n.flags && AfterUpdate(c, n, req, plan).Slot(i) != n.Slot(i)
               && !UpdateOk(c, n, req, plan))
            <==> !d.Undetected? && OtherIndex(ActiveIndex(n.running, d)) in n.flags
  {
    var target := OtherIndex(ActiveIndex(n.running, d));
    if !d.Undetected? && target in n.flags {
      var b := TornWrites(c, n, d);
      assert TornPlan(d, b).active == d && target in n.flags;
    }
  }

  /** `InstallUpdate`: flash and switch, with no hooks and nothing recorded. */
  function AfterInstall(c: Codec, n: Node, req: UpdateRequest, plan: UpdatePlan): Node {
    AfterUpdate(c, n, req.(preUpdateHook := None, postUpdateHook := None), plan.(record := NotRecorded))
  }

  datatype RollbackPlan = RollbackPlan(switch: SwitchPlan, saveOk: bool)

  predicate RollbackSwitches(n: Node, plan: RollbackPlan) {
    n.record.Some? && SwitchOk(plan.switch)
  }

  predicate RollbackOk(n: Node, plan: RollbackPlan) {
    RollbackSwitches(n, plan) && plan.saveOk
  }

  function AfterRollback(n: Node, plan: RollbackPlan): Node {
    match n.record
    case None => n
    case Some(previous) =>
      var switched := n.(flags := AfterSwitch(n.flags, previous, plan.switch));
      if RollbackOk(n, plan) then switched.(record := None) else switched
  }

  /** An install runs no hook, and records nothing. */
  lemma InstallEffects(c: Codec, n: Node, req: UpdateRequest, plan: UpdatePlan)
    ensures AfterInstall(c, n, req, plan).record == n.record
    ensures AfterInstall(c, n, req, plan)
            == AfterInstall(c, n, req.(preUpdateHook := None, postUpdateHook := None),
                            plan.(preHook := HookStops, postHook := HookStops, record := RecordStops))
  {
  }

  /**
   A rollback with nothing recorded does nothing and fails. Otherwise it switches to the recorded slot; the record
   is taken back exactly when that works and can be saved, and only then has the rollback succeeded.
   */
  lemma RollbackEffects(n: Node, plan: RollbackPlan)
    ensures n.record == None ==> AfterRollback(n, plan) == n && !RollbackOk(n, plan)
    ensures n.record.Some? ==>
              var n' := AfterRollback(n, plan);
              && n'.flags == AfterSwitch(n.flags, n.record.value, plan.switch)
              && n'.slotA == n.slotA && n'.slotB == n.slotB && n'.running == n.running
              && (RollbackOk(n, plan) <==> SwitchOk(plan.switch) && plan.saveOk)
              && n'.record == if SwitchOk(plan.switch) && plan.saveOk then None else n.record
    ensures RollbackSwitches(n, plan) <==> n.record.Some? && SwitchOk(plan.switch)
  {
  }
}
