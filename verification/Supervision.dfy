/**
 keel-init's supervision loop and the agent's bootstrap handler, as two interleaved processes over shared
 files. Init polls the two kubeconfigs and the restart signal; the agent writes a kubeconfig, then its state
 file, then the signal; the kubelet and the agent may exit at any moment.
 */
module Supervision {
  import opened Wrappers

  datatype Mode = Standalone | JoinWithToken | Permanent

  datatype Kubelet = Kubelet(pid: nat, mode: Mode)

  /** The agent process as its parent sees it. `Gone` is an exit that `reap_zombies` collected. */
  datatype Process = Alive | Zombie | Gone | Unstarted

  /** A bootstrap request in progress; `version` counts the kubeconfig writes up to its own. */
  datatype Handler = Preparing | Wrote(version: nat) | Saved(version: nat)

  /** Why init spawns a kubelet: once before its loop, when there is none, or to replace the one it has stopped. */
  datatype Cause = AtBoot | Missing | Restart

  /** Where init is; `b` and `p` are this iteration's readings of the two kubeconfigs. */
  datatype Pc =
    | Reaping
    | CheckingAgent
    | PollingKubelet
    | ReadingBootstrap
    | ReadingPermanent(b: bool)
    | Starting(b: bool, p: bool)
    | Spawning(b: bool, p: bool, cause: Cause, sawB: Option<bool>, sawP: Option<bool>)
    | Deciding(b: bool, p: bool)
    | Stopping(b: bool, p: bool)
    | Removing(b: bool, p: bool)
    | Sleeping(b: bool, p: bool)

  datatype State = State(
    pc: Pc,
    kubelet: Option<Kubelet>,  // init's handle
    switched: bool,            // the static SWITCHED
    agentRestarts: nat,
    agent: Process,
    alive: set<nat>,           // kubelet processes
    zombies: set<nat>,         // those that exited and nobody has waited for
    nextPid: nat,
    kubeconfig: nat,           // how often the bootstrap kubeconfig was written; 0 while it does not exist
    permanent: bool,           // whether the permanent kubeconfig exists
    signal: bool,              // whether the restart signal exists
    handlers: map<nat, Handler>,
    // history: the newest kubeconfig a signal announced, the newest one the latest spawn attempt could see,
    // the automatic restarts, and the agents respawned
    announced: nat,
    seen: nat,
    autoRestarts: nat,
    respawns: nat)

  datatype Label =
    // the environment
    | KubeletExits(pid: nat)
    | AgentExits
    | PermanentAppears
    // the agent's handlers
    | Begin(h: nat)
    | WriteKubeconfig(h: nat, ok: bool)
    | SaveState(h: nat, ok: bool)
    | Announce(h: nat, ok: bool)
    // init
    | Reap
    | CheckAgent(spawnOk: bool)
    | PollKubelet
    | ReadBootstrap
    | ReadPermanent
    | StartKubelet
    | SpawnSeesBootstrap
    | SpawnSeesPermanent
    | Spawn(ok: bool)
    | Decide
    | Stop
    | RemoveSignal(ok: bool)
    | Sleep

  /**
   Where init begins: the agent has been spawned, or failed to be, and the kubelet is about to be. Whatever
   kubeconfigs and signal an earlier boot left behind are there.
   */
  function BootState(kubeconfig: nat, permanent: bool, signal: bool, agentOk: bool): State {
    State(Spawning(false, false, AtBoot, None, None), None, false, 0, if agentOk then Alive else Unstarted,
          {}, {}, 0, kubeconfig, permanent, signal, map[], 0, 0, 0, 0)
  }

  predicate Boot(s: State) {
    s == BootState(s.kubeconfig, s.permanent, s.signal, s.agent.Alive?)
  }

  /** A new node: nothing on file, and the agent up. */
  const FRESH := BootState(0, false, false, true)

  function AfterSpawning(pc: Pc): Pc
    requires pc.Spawning?
  {
    match pc.cause
    case AtBoot => Reaping
    case Missing => Deciding(pc.b, pc.p)
    case Restart => Sleeping(pc.b, pc.p)
  }

  function ModeFor(bootstrap: bool, permanent: bool): Mode {
    if permanent then Permanent else if bootstrap then JoinWithToken else Standalone
  }

  predicate Enabled(s: State, l: Label) {
    match l
    case KubeletExits(pid) => pid in s.alive
    case AgentExits => s.agent.Alive?
    case PermanentAppears => true
    case Begin(h) => s.agent.Alive? && h !in s.handlers
    case WriteKubeconfig(h, _) => s.agent.Alive? && h in s.handlers && s.handlers[h].Preparing?
    case SaveState(h, _) => s.agent.Alive? && h in s.handlers && s.handlers[h].Wrote?
    case Announce(h, _) => s.agent.Alive? && h in s.handlers && s.handlers[h].Saved?
    case Reap => s.pc.Reaping?
    case CheckAgent(_) => s.pc.CheckingAgent?
    case PollKubelet => s.pc.PollingKubelet?
    case ReadBootstrap => s.pc.ReadingBootstrap?
    case ReadPermanent => s.pc.ReadingPermanent?
    case StartKubelet => s.pc.Starting?
    case SpawnSeesBootstrap => s.pc.Spawning? && s.pc.sawB.None?
    case SpawnSeesPermanent => s.pc.Spawning? && s.pc.sawB.Some? && s.pc.sawP.None?
    case Spawn(_) => s.pc.Spawning? && s.pc.sawB.Some? && s.pc.sawP.Some?
    case Decide => s.pc.Deciding?
    case Stop => s.pc.Stopping?
    case RemoveSignal(_) => s.pc.Removing?
    case Sleep => s.pc.Sleeping?
  }

  /** Steps that are not init's own. */
  predicate OfEnvironment(l: Label) {
    || l.KubeletExits? || l.AgentExits? || l.PermanentAppears?
    || l.Begin? || l.WriteKubeconfig? || l.SaveState? || l.Announce?
  }

  function Max(a: nat, b: nat): nat { if a < b then b else a }

  function Do(s: State, l: Label): State
    requires Enabled(s, l)
  {
    match l
    case KubeletExits(pid) => s.(alive := s.alive - {pid}, zombies := s.zombies + {pid})
    case AgentExits => s.(agent := Zombie, handlers := map[])
    case PermanentAppears => s.(permanent := true)
    case Begin(h) => s.(handlers := s.handlers[h := Preparing])
    case WriteKubeconfig(h, ok) =>
      if ok then s.(kubeconfig := s.kubeconfig + 1, handlers := s.handlers[h := Wrote(s.kubeconfig + 1)])
      else s.(handlers := s.handlers - {h})
    case SaveState(h, ok) =>
      if ok then s.(handlers := s.handlers[h := Saved(s.handlers[h].version)]) else s.(handlers := s.handlers - {h})
    case Announce(h, ok) =>
      var ended := s.(handlers := s.handlers - {h});
      if ok then ended.(signal := true, announced := Max(s.announced, s.handlers[h].version)) else ended
    case Reap => s.(zombies := {}, agent := if s.agent.Zombie? then Gone else s.agent, pc := CheckingAgent)
    case CheckAgent(spawnOk) =>
      var checked := s.(pc := PollingKubelet);
      if !s.agent.Zombie? then checked
      else if spawnOk then checked.(agent := Alive, agentRestarts := s.agentRestarts + 1, respawns := s.respawns + 1)
      else checked.(agent := Unstarted)
    case PollKubelet =>
      var polled := s.(pc := ReadingBootstrap);
      if s.kubelet.Some? && s.kubelet.value.pid in s.zombies
      then polled.(kubelet := None, zombies := s.zombies - {s.kubelet.value.pid})
      else polled
    case ReadBootstrap => s.(pc := ReadingPermanent(s.kubeconfig > 0))
    case ReadPermanent => s.(pc := Starting(s.pc.b, s.permanent))
    case StartKubelet =>
      s.(pc := if s.pc.b && s.kubelet.None? then Spawning(s.pc.b, s.pc.p, Missing, None, None)
                else Deciding(s.pc.b, s.pc.p))
    case SpawnSeesBootstrap => s.(pc := s.pc.(sawB := Some(s.kubeconfig > 0)), seen := s.kubeconfig)
    case SpawnSeesPermanent => s.(pc := s.pc.(sawP := Some(s.permanent)))
    case Spawn(ok) =>
      var next := AfterSpawning(s.pc);
      if ok
      then s.(pc := next, kubelet := Some(Kubelet(s.nextPid, ModeFor(s.pc.sawB.value, s.pc.sawP.value))),
              alive := s.alive + {s.nextPid}, nextPid := s.nextPid + 1)
      else s.(pc := next, kubelet := None)
    case Decide =>
      if s.signal then s.(pc := Stopping(s.pc.b, s.pc.p))
      else if s.pc.b && s.pc.p && s.kubelet.Some? && !s.switched
      then s.(pc := Stopping(s.pc.b, s.pc.p), switched := true, autoRestarts := s.autoRestarts + 1)
      else s.(pc := Sleeping(s.pc.b, s.pc.p))
    case Stop =>
      var pid := if s.kubelet.Some? then {s.kubelet.value.pid} else {};
      s.(pc := Removing(s.pc.b, s.pc.p), alive := s.alive - pid, zombies := s.zombies - pid)
    case RemoveSignal(ok) =>
      s.(pc := Spawning(s.pc.b, s.pc.p, Restart, None, None), signal := s.signal && !ok)
    case Sleep => s.(pc := Reaping)
  }

  function KindOf(l: Label): nat {
    match l
    case Begin(_) => 1
    case WriteKubeconfig(_, _) => 2
    case SaveState(_, _) => 3
    case Announce(_, _) => 4
    case Reap => 5
    case CheckAgent(_) => 6
    case PollKubelet => 7
    case ReadBootstrap => 8
    case ReadPermanent => 9
    case StartKubelet => 10
    case SpawnSeesBootstrap => 11
    case SpawnSeesPermanent => 12
    case Spawn(_) => 13
    case Decide => 14
    case Stop => 15
    case RemoveSignal(_) => 16
    case Sleep => 17
    case _ => 0
  }

  /** Init, and each handler, has one thing to do next, whatever comes of it; a handler only while the agent is up. */
  lemma OneThingNext(s: State, a: Label, b: Label, h: nat)
    requires Enabled(s, a) && Enabled(s, b)
    ensures !OfEnvironment(a) && !OfEnvironment(b) ==> KindOf(a) == KindOf(b)
    ensures OfHandler(a, h) && OfHandler(b, h) ==> KindOf(a) == KindOf(b)
    ensures OfHandler(a, h) ==> s.agent == Alive
  {
  }

  /** The respawn is tried for an exit that is there to be seen, counted if it works, and not repeated if it fails. */
  lemma CheckOfAgent(s: State, ok: bool)
    requires s.pc == CheckingAgent
    ensures var s' := Do(s, CheckAgent(ok));
      if s.agent == Zombie
      then s'.agent == (if ok then Alive else Unstarted) && s'.agentRestarts == s.agentRestarts + (if ok then 1 else 0)
           && s'.respawns == s.respawns + (if ok then 1 else 0)
      else s'.agent == s.agent && s'.agentRestarts == s.agentRestarts && s'.respawns == s.respawns
  {
  }

  /** The reaping pass collects every exit there is, the checks after it only what has exited since. */
  lemma ReapAndPoll(s: State)
    ensures s.pc == Reaping ==>
              var s' := Do(s, Reap);
              s'.zombies == {} && s'.agent == (if s.agent == Zombie then Gone else s.agent) && s'.kubelet == s.kubelet
    ensures s.pc == PollingKubelet ==>
              var s' := Do(s, PollKubelet);
              if s.kubelet.Some? && s.kubelet.value.pid in s.zombies
              then s'.kubelet == None && s'.zombies == s.zombies - {s.kubelet.value.pid}
              else s'.kubelet == s.kubelet && s'.zombies == s.zombies
    ensures s.agent == Alive ==> Do(s, AgentExits).agent == Zombie && Do(s, AgentExits).handlers == map[]
  {
  }

  /** A restart is asked for by the signal, or comes once by itself, when both kubeconfigs were seen. */
  lemma RestartsIff(s: State)
    requires s.pc.Deciding?
    ensures Do(s, Decide).pc.Stopping? <==> s.signal || (s.pc.b && s.pc.p && s.kubelet != None && !s.switched)
    ensures Do(s, Decide).switched <==> s.switched || (!s.signal && s.pc.b && s.pc.p && s.kubelet != None)
  {
  }

  predicate OfHandler(l: Label, h: nat) {
    (l.Begin? || l.WriteKubeconfig? || l.SaveState? || l.Announce?) && l.h == h
  }

  predicate Legal(s: State, run: seq<Label>)
    decreases run
  {
    run == [] || (Enabled(s, run[0]) && Legal(Do(s, run[0]), run[1..]))
  }

  function Final(s: State, run: seq<Label>): State
    requires Legal(s, run)
    decreases run
  {
    if run == [] then s else Final(Do(s, run[0]), run[1..])
  }

  lemma {:induction false} Concat(s: State, a: seq<Label>, b: seq<Label>)
    requires Legal(s, a) && Legal(Final(s, a), b)
    ensures Legal(s, a + b) && Final(s, a + b) == Final(Final(s, a), b)
    decreases a
  {
    if a == [] {
      assert a + b == b;
    } else {
      Concat(Do(s, a[0]), a[1..], b);
      assert (a + b)[1..] == a[1..] + b;
    }
  }

  lemma Extend(s: State, run: seq<Label>, l: Label)
    requires Legal(s, run) && Enabled(Final(s, run), l)
    ensures Legal(s, run + [l]) && Final(s, run + [l]) == Do(Final(s, run), l)
  {
    var last := [l];
    assert last[1..] == [];
    assert Legal(Do(Final(s, run), l), last[1..]);
    Concat(s, run, last);
  }

  // ----- No restart request is lost -----

  /** Init has taken the signal away and has not yet begun the spawn that answers it. */
  predicate AboutToSpawn(s: State) {
    s.pc.Spawning? && s.pc.cause.Restart? && s.pc.sawB.None?
  }

  predicate VersionsInv(s: State) {
    && s.announced <= s.kubeconfig && s.seen <= s.kubeconfig
    && (forall h | h in s.handlers && !s.handlers[h].Preparing? :: s.handlers[h].version <= s.kubeconfig)
  }

  predicate Accounted(s: State) {
    s.signal || AboutToSpawn(s) || s.announced <= s.seen
  }

  predicate RequestsInv(s: State) {
    VersionsInv(s) && Accounted(s)
  }

  lemma VersionsKept(s: State, l: Label)
    requires VersionsInv(s) && Enabled(s, l)
    ensures VersionsInv(Do(s, l))
  {
    match l
    case WriteKubeconfig(_, _) =>
    case SaveState(_, _) =>
    case Announce(_, _) =>
    case _ => assert Do(s, l).kubeconfig == s.kubeconfig && Do(s, l).announced == s.announced;
  }

  lemma AccountedKept(s: State, l: Label)
    requires s.announced <= s.kubeconfig && Accounted(s) && Enabled(s, l)
    ensures Accounted(Do(s, l))
  {
  }

  lemma RequestsKept(s: State, l: Label)
    requires RequestsInv(s) && Enabled(s, l)
    ensures RequestsInv(Do(s, l))
  {
    VersionsKept(s, l);
    AccountedKept(s, l);
  }

  // ----- Processes -----

  predicate ProcessInv(s: State) {
    && (forall pid | pid in s.alive :: s.kubelet.Some? && pid == s.kubelet.value.pid)
    && (s.kubelet.Some? ==> s.kubelet.value.pid < s.nextPid)
    && (forall pid | pid in s.zombies :: pid < s.nextPid)
    && (s.kubelet.Some? ==> !(s.kubelet.value.pid in s.alive && s.kubelet.value.pid in s.zombies))
    && (s.pc.Removing? || s.pc.Spawning? ==> forall pid :: pid !in s.alive)
    && (s.kubelet.Some? && (s.pc.Removing? || s.pc.Spawning?) ==> s.kubelet.value.pid !in s.zombies)
  }

  lemma ProcessesKept(s: State, l: Label)
    requires ProcessInv(s) && Enabled(s, l)
    ensures ProcessInv(Do(s, l))
  {
  }

  // ----- The switch to the permanent kubeconfig -----

  predicate Restarting(s: State) {
    s.pc.Stopping? || s.pc.Removing? || (s.pc.Spawning? && s.pc.cause.Restart?)
  }

  predicate OnPermanent(s: State) {
    s.kubelet.None? || s.kubelet.value.mode.Permanent?
  }

  predicate ReadingsHold(s: State, b: bool, p: bool) {
    (b ==> s.kubeconfig > 0) && (p ==> s.permanent)
  }

  predicate SwitchInv(s: State) {
    && s.autoRestarts == (if s.switched then 1 else 0)
    && (s.switched ==> s.kubeconfig > 0 && s.permanent)
    && (s.switched && !Restarting(s) ==> OnPermanent(s))
    && match s.pc
       case ReadingPermanent(b) => ReadingsHold(s, b, false)
       case Starting(b, p) => ReadingsHold(s, b, p)
       case Spawning(b, p, cause, sawB, sawP) =>
         && ReadingsHold(s, b, p)
         && ((b && p) || s.switched ==> sawP != Some(false))
         && (!cause.Restart? ==> s.kubelet.None?)
       case Deciding(b, p) => ReadingsHold(s, b, p)
       case Stopping(b, p) => ReadingsHold(s, b, p)
       case Removing(b, p) => ReadingsHold(s, b, p)
       case Sleeping(b, p) => ReadingsHold(s, b, p) && (b && p ==> OnPermanent(s))
       case _ => true
  }

  lemma SwitchKept(s: State, l: Label)
    requires SwitchInv(s) && Enabled(s, l)
    ensures SwitchInv(Do(s, l))
  {
  }

  /** A kubelet is standalone only if no bootstrap kubeconfig existed when its spawn looked. */
  predicate ModeInv(s: State) {
    if s.pc.Spawning? then s.pc.sawB.Some? ==> s.pc.sawB.value == (s.seen > 0)
    else s.kubelet.Some? && s.seen > 0 ==> !s.kubelet.value.mode.Standalone?
  }

  lemma ModeKept(s: State, l: Label)
    requires ModeInv(s) && Enabled(s, l)
    ensures ModeInv(Do(s, l))
  {
  }

  predicate Inv(s: State) {
    RequestsInv(s) && ProcessInv(s) && SwitchInv(s) && ModeInv(s)
  }

  lemma {:induction false} InvHolds(s: State, run: seq<Label>)
    requires Inv(s) && Legal(s, run)
    ensures Inv(Final(s, run))
    decreases run
  {
    if run != [] {
      RequestsKept(s, run[0]);
      ProcessesKept(s, run[0]);
      SwitchKept(s, run[0]);
      ModeKept(s, run[0]);
      InvHolds(Do(s, run[0]), run[1..]);
    }
  }

  lemma BootHolds(boot: State, run: seq<Label>)
    requires Boot(boot) && Legal(boot, run)
    ensures Inv(Final(boot, run))
  {
    InvHolds(boot, run);
  }

  /**
   No restart request is lost: in every reachable interleaving the signal is still there, or init has removed
   it and is about to spawn, or the latest spawn attempt began after every kubeconfig announced so far was
   written.
   */
  lemma NoRestartLost(boot: State, run: seq<Label>)
    requires Boot(boot) && Legal(boot, run)
    ensures var s := Final(boot, run); s.signal || AboutToSpawn(s) || s.announced <= s.seen
  {
    BootHolds(boot, run);
  }

  /** Everything announced by version `v` is answered already, or will be before this iteration ends. */
  predicate Answering(s: State, v: nat) {
    || v <= s.seen
    || s.pc.Stopping? || s.pc.Removing? || AboutToSpawn(s)
    || (s.signal && !s.pc.Sleeping? && !(s.pc.Spawning? && s.pc.cause.Restart?))
  }

  lemma AnsweringKept(s: State, l: Label, v: nat)
    requires RequestsInv(s) && Enabled(s, l) && Answering(s, v) && v <= s.kubeconfig
    ensures Answering(Do(s, l), v) && v <= Do(s, l).kubeconfig
  {
  }

  lemma {:induction false} KeepsAnswering(s: State, run: seq<Label>, v: nat)
    requires RequestsInv(s) && Legal(s, run) && Answering(s, v) && v <= s.kubeconfig
    ensures Answering(Final(s, run), v)
    decreases run
  {
    if run != [] {
      RequestsKept(s, run[0]);
      AnsweringKept(s, run[0], v);
      KeepsAnswering(Do(s, run[0]), run[1..], v);
    }
  }

  /**
   A signal present when an iteration begins is answered by the end of it, whatever the agent does meanwhile:
   the latest spawn attempt began after every kubeconfig announced by then was written, so the standalone
   kubelet of a node that was not yet in a cluster is gone.
   */
  lemma SignalAnswered(boot: State, past: seq<Label>, iteration: seq<Label>)
    requires Boot(boot) && Legal(boot, past) && Legal(Final(boot, past), iteration)
    requires Final(boot, past).pc.Reaping? && Final(boot, past).signal
    requires Final(Final(boot, past), iteration).pc.Sleeping?
    ensures var s, s' := Final(boot, past), Final(Final(boot, past), iteration);
      s.announced <= s'.seen && (s.announced > 0 ==> !RunsStandalone(s'))
  {
    BootHolds(boot, past);
    InvHolds(Final(boot, past), iteration);
    KeepsAnswering(Final(boot, past), iteration, Final(boot, past).announced);
  }

  /** A bootstrap is announced only after its kubeconfig was written and then its state saved. */
  lemma {:induction false} AnnouncedLast(s: State, run: seq<Label>, h: nat)
    requires Legal(s, run) && (h !in s.handlers || s.handlers[h] == Preparing)
    requires Enabled(Final(s, run), Announce(h, true))
    ensures exists i, j | 0 <= i < j < |run| :: run[i] == WriteKubeconfig(h, true) && run[j] == SaveState(h, true)
    decreases run
  {
    var s', rest := Do(s, run[0]), run[1..];
    assert forall i | 0 <= i < |rest| :: rest[i] == run[i + 1];
    if h !in s'.handlers || s'.handlers[h] == Preparing {
      AnnouncedLast(s', rest, h);
      var i, j :| 0 <= i < j < |rest| && rest[i] == WriteKubeconfig(h, true) && rest[j] == SaveState(h, true);
      assert run[i + 1] == WriteKubeconfig(h, true) && run[j + 1] == SaveState(h, true);
    } else {
      assert run[0] == WriteKubeconfig(h, true);
      SavedBeforeAnnounced(s', rest, h);
      var j :| 0 <= j < |rest| && rest[j] == SaveState(h, true);
      assert run[j + 1] == SaveState(h, true);
    }
  }

  lemma {:induction false} SavedBeforeAnnounced(s: State, run: seq<Label>, h: nat)
    requires Legal(s, run) && (h !in s.handlers || !s.handlers[h].Saved?)
    requires Enabled(Final(s, run), Announce(h, true))
    ensures exists j | 0 <= j < |run| :: run[j] == SaveState(h, true)
    decreases run
  {
    var s', rest := Do(s, run[0]), run[1..];
    if h !in s'.handlers || !s'.handlers[h].Saved? {
      SavedBeforeAnnounced(s', rest, h);
      var j :| 0 <= j < |rest| && rest[j] == SaveState(h, true);
      assert run[j + 1] == SaveState(h, true);
    } else {
      assert run[0] == SaveState(h, true);
    }
  }

  // ----- A missing kubelet is started -----

  /** The iteration has begun with no kubelet and a kubeconfig, and has not yet spawned one. */
  predicate MissingSoFar(s: State) {
    && s.kubelet == None && s.kubeconfig > 0
    && match s.pc
       case ReadingPermanent(b) => b
       case Starting(b, _) => b
       case Spawning(_, _, cause, _, _) => cause == Missing
       case Deciding(_, _) => false
       case Stopping(_, _) => false
       case Removing(_, _) => false
       case Sleeping(_, _) => false
       case _ => true
  }

  lemma MissingUntilSpawn(s: State, l: Label)
    requires MissingSoFar(s) && Enabled(s, l) && !l.Spawn?
    ensures MissingSoFar(Do(s, l))
  {
  }

  /** An iteration that begins with no kubelet while the bootstrap kubeconfig is there spawns one before it ends. */
  lemma {:induction false} MissingIsStarted(s: State, run: seq<Label>)
    requires s.kubelet == None && s.kubeconfig > 0 && Legal(s, run) && MissingSoFar(s)
    requires Final(s, run).pc.Sleeping?
    ensures exists i | 0 <= i < |run| :: run[i].Spawn?
    decreases run
  {
    if !run[0].Spawn? {
      MissingUntilSpawn(s, run[0]);
      MissingIsStarted(Do(s, run[0]), run[1..]);
      var i :| 0 <= i < |run| - 1 && run[1..][i].Spawn?;
      assert run[i + 1].Spawn?;
    }
  }

  lemma IterationStartsMissing(s: State, run: seq<Label>)
    requires s.pc == Reaping && s.kubelet == None && s.kubeconfig > 0
    requires Legal(s, run) && Final(s, run).pc.Sleeping?
    ensures exists i | 0 <= i < |run| :: run[i].Spawn?
  {
    MissingIsStarted(s, run);
  }

  // ----- The standalone kubelet -----

  predicate RunsStandalone(s: State) {
    s.kubelet.Some? && s.kubelet.value.mode.Standalone?
  }

  const BOOT_RUN := [SpawnSeesBootstrap, SpawnSeesPermanent, Spawn(true)]

  /** A new node enters the loop with a standalone kubelet: the one the bootstrap handshake is there to replace. */
  lemma FreshNodeIsStandalone()
    ensures FRESH.agent == Alive && BootState(0, false, false, false).agent == Unstarted
    ensures Boot(FRESH) && Legal(FRESH, BOOT_RUN)
    ensures var s := Final(FRESH, BOOT_RUN); s.pc.Reaping? && RunsStandalone(s) && Unasked(s)
  {
    SpawnRun(FRESH, true);
  }

  lemma ThreeSteps(s: State, a: Label, b: Label, c: Label)
    requires Enabled(s, a) && Enabled(Do(s, a), b) && Enabled(Do(Do(s, a), b), c)
    ensures Legal(s, [a, b, c]) && Final(s, [a, b, c]) == Do(Do(Do(s, a), b), c)
  {
    Extend(s, [], a);
    assert [] + [a] == [a];
    Extend(s, [a], b);
    assert [a] + [b] == [a, b];
    Extend(s, [a, b], c);
    assert [a, b] + [c] == [a, b, c];
  }

  lemma LooksTwice(s: State)
    requires s.pc.Spawning? && s.pc.sawB.None? && s.pc.sawP.None?
    ensures Enabled(s, SpawnSeesBootstrap) && Enabled(Do(s, SpawnSeesBootstrap), SpawnSeesPermanent)
    ensures Do(Do(s, SpawnSeesBootstrap), SpawnSeesPermanent)
            == s.(pc := s.pc.(sawB := Some(s.kubeconfig > 0), sawP := Some(s.permanent)), seen := s.kubeconfig)
  {
  }

  lemma Launches(s: State, ok: bool)
    requires s.pc.Spawning? && s.pc.sawB.Some? && s.pc.sawP.Some?
    ensures Enabled(s, Spawn(ok))
    ensures Do(s, Spawn(ok)) == s.(
              pc := AfterSpawning(s.pc),
              kubelet := if ok then Some(Kubelet(s.nextPid, ModeFor(s.pc.sawB.value, s.pc.sawP.value))) else None,
              alive := if ok then s.alive + {s.nextPid} else s.alive,
              nextPid := if ok then s.nextPid + 1 else s.nextPid)
  {
  }

  /** The three steps of spawn_kubelet taken without interruption. */
  lemma SpawnRun(s: State, ok: bool)
    requires s.pc.Spawning? && s.pc.sawB.None? && s.pc.sawP.None?
    ensures var run := [SpawnSeesBootstrap, SpawnSeesPermanent, Spawn(ok)];
      && Legal(s, run)
      && Final(s, run) == s.(
           pc := AfterSpawning(s.pc),
           kubelet := if ok then Some(Kubelet(s.nextPid, ModeFor(s.kubeconfig > 0, s.permanent))) else None,
           alive := if ok then s.alive + {s.nextPid} else s.alive,
           nextPid := if ok then s.nextPid + 1 else s.nextPid,
           seen := s.kubeconfig)
  {
    LooksTwice(s);
    Launches(Do(Do(s, SpawnSeesBootstrap), SpawnSeesPermanent), ok);
    ThreeSteps(s, SpawnSeesBootstrap, SpawnSeesPermanent, Spawn(ok));
  }

  /** Once a bootstrap was announced and init is not in the middle of answering it, no kubelet is standalone. */
  lemma AnnouncedMeansCluster(boot: State, run: seq<Label>)
    requires Boot(boot) && Legal(boot, run)
    requires var s := Final(boot, run); s.announced > 0 && !s.signal && !s.pc.Spawning?
    ensures !RunsStandalone(Final(boot, run))
  {
    BootHolds(boot, run);
  }

  /** One of the only three things that make init let go of a standalone kubelet. */
  predicate EndsStandalone(l: Label) {
    l.KubeletExits? || l.PermanentAppears? || (l.Announce? && l.ok)
  }

  /** Nothing is asking for its replacement. */
  predicate Unasked(s: State) {
    && RunsStandalone(s) && s.kubelet.value.pid in s.alive && s.kubelet.value.pid !in s.zombies
    && !s.signal && !s.permanent
    && !s.pc.Stopping? && !s.pc.Removing? && !s.pc.Spawning?
    && match s.pc
       case Starting(_, p) => !p
       case Deciding(_, p) => !p
       case _ => true
  }

  lemma StaysUnasked(s: State, l: Label)
    requires Unasked(s) && Enabled(s, l) && !EndsStandalone(l)
    ensures Unasked(Do(s, l)) && Do(s, l).kubelet == s.kubelet
  {
  }

  /**
   A bootstrap that writes its kubeconfig and then fails to announce it changes nothing: a standalone kubelet
   stays until it exits, the permanent kubeconfig appears or a bootstrap is announced.
   */
  lemma {:induction false} UnannouncedChangesNothing(s: State, run: seq<Label>)
    requires Unasked(s) && Legal(s, run)
    requires forall i | 0 <= i < |run| :: !EndsStandalone(run[i])
    ensures Unasked(Final(s, run)) && Final(s, run).kubelet == s.kubelet
    decreases run
  {
    if run != [] {
      StaysUnasked(s, run[0]);
      assert forall i | 0 <= i < |run| - 1 :: run[1..][i] == run[i + 1];
      UnannouncedChangesNothing(Do(s, run[0]), run[1..]);
    }
  }

  /** One more step of a run whose state is known. */
  lemma Then(boot: State, run: seq<Label>, s: State, l: Label) returns (longer: seq<Label>, next: State)
    requires Legal(boot, run) && Final(boot, run) == s && Enabled(s, l)
    ensures longer == run + [l] && Legal(boot, longer) && next == Do(s, l) == Final(boot, longer)
  {
    Extend(boot, run, l);
    longer, next := run + [l], Do(s, l);
  }

  /** The new node after a bootstrap: one kubeconfig written and announced, the standalone kubelet running. */
  const ANNOUNCED := State(Reaping, Some(Kubelet(0, Standalone)), false, 0, Alive, {0}, {}, 1, 1, false, true, map[],
                           1, 0, 0, 0)

  lemma BootstrapOfFreshNode() returns (run: seq<Label>)
    ensures Legal(FRESH, run) && Final(FRESH, run) == ANNOUNCED
  {
    SpawnRun(FRESH, true);
    var s := Final(FRESH, BOOT_RUN);
    run, s := Then(FRESH, BOOT_RUN, s, Begin(0));
    run, s := Then(FRESH, run, s, WriteKubeconfig(0, true));
    run, s := Then(FRESH, run, s, SaveState(0, true));
    run, s := Then(FRESH, run, s, Announce(0, true));
    assert s.handlers == map[];
  }

  lemma ThenThree(boot: State, run: seq<Label>, s: State, a: Label, b: Label, c: Label) returns (longer: seq<Label>)
    requires Legal(boot, run) && Final(boot, run) == s
    requires Enabled(s, a) && Enabled(Do(s, a), b) && Enabled(Do(Do(s, a), b), c)
    ensures Legal(boot, longer) && Final(boot, longer) == Do(Do(Do(s, a), b), c)
  {
    ThreeSteps(s, a, b, c);
    Concat(boot, run, [a, b, c]);
    longer := run + [a, b, c];
  }

  /** The iteration that answers the announcement: its checks, its readings, and the old kubelet's end. */
  lemma CheckOnFreshNode(run: seq<Label>) returns (longer: seq<Label>)
    requires Legal(FRESH, run) && Final(FRESH, run) == ANNOUNCED
    ensures Legal(FRESH, longer) && Final(FRESH, longer) == ANNOUNCED.(pc := ReadingBootstrap)
  {
    longer := ThenThree(FRESH, run, ANNOUNCED, Reap, CheckAgent(true), PollKubelet);
  }

  lemma PollOnFreshNode(run: seq<Label>) returns (longer: seq<Label>)
    requires Legal(FRESH, run) && Final(FRESH, run) == ANNOUNCED.(pc := ReadingBootstrap)
    ensures Legal(FRESH, longer) && Final(FRESH, longer) == ANNOUNCED.(pc := Deciding(true, false))
  {
    longer := ThenThree(FRESH, run, Final(FRESH, run), ReadBootstrap, ReadPermanent, StartKubelet);
  }

  lemma StopOnFreshNode(run: seq<Label>) returns (longer: seq<Label>)
    requires Legal(FRESH, run) && Final(FRESH, run) == ANNOUNCED.(pc := Deciding(true, false))
    ensures Legal(FRESH, longer)
    ensures Final(FRESH, longer)
            == ANNOUNCED.(pc := Spawning(true, false, Restart, None, None), alive := {}, signal := false)
  {
    longer := ThenThree(FRESH, run, Final(FRESH, run), Decide, Stop, RemoveSignal(true));
  }

  /** The handshake does its work: a bootstrap of the new node ends with its kubelet joining the cluster. */
  lemma HandshakeJoins() returns (run: seq<Label>)
    ensures Legal(FRESH, run)
    ensures var s := Final(FRESH, run);
      && s.pc.Sleeping? && !s.signal && s.announced > 0
      && s.kubelet == Some(Kubelet(1, JoinWithToken)) && s.alive == {1}
  {
    run := BootstrapOfFreshNode();
    run := CheckOnFreshNode(run);
    run := PollOnFreshNode(run);
    run := StopOnFreshNode(run);
    run := ThenThree(FRESH, run, Final(FRESH, run), SpawnSeesBootstrap, SpawnSeesPermanent, Spawn(true));
  }

  // ----- Kubelets -----

  /** Two kubelets never run at once, and the one that runs is the one init holds. */
  lemma OneKubelet(boot: State, run: seq<Label>)
    requires Boot(boot) && Legal(boot, run)
    ensures var s := Final(boot, run);
      |s.alive| <= 1 && forall pid | pid in s.alive :: s.kubelet.Some? && s.kubelet.value.pid == pid
  {
    BootHolds(boot, run);
    var s := Final(boot, run);
    if s.alive != {} {
      assert s.alive == {s.kubelet.value.pid};
    }
  }

  /**
   An iteration that saw both kubeconfigs ends with the kubelet absent or on the permanent one, and the
   automatic restart that may take fires at most once in init's life.
   */
  lemma SwitchesOnce(boot: State, run: seq<Label>)
    requires Boot(boot) && Legal(boot, run)
    ensures var s := Final(boot, run);
      && s.autoRestarts <= 1
      && (s.pc.Sleeping? && s.pc.b && s.pc.p ==> OnPermanent(s))
  {
    BootHolds(boot, run);
  }

  // ----- Exits that nobody notices -----

  predicate WithoutStop(run: seq<Label>) {
    forall i | 0 <= i < |run| :: !run[i].Stop?
  }

  /** Init can come to know, other than by stopping it itself, that the kubelet it holds is gone. */
  ghost predicate NoticeReachable(s: State) {
    exists run :: Legal(s, run) && WithoutStop(run) && Final(s, run).kubelet.None?
  }

  /** The kubelet init holds has exited, and its exit has been, or is bound to be, collected by `reap_zombies`. */
  predicate KubeletMissed(s: State) {
    && s.kubelet.Some? && s.alive == {} && !s.pc.Removing? && !s.pc.Spawning?
    && (s.kubelet.value.pid in s.zombies ==> !s.pc.CheckingAgent? && !s.pc.PollingKubelet?)
  }

  lemma KubeletStaysMissed(s: State, l: Label)
    requires KubeletMissed(s) && Enabled(s, l) && !l.Stop?
    ensures KubeletMissed(Do(s, l)) && Do(s, l).kubelet == s.kubelet
  {
  }

  lemma {:induction false} KubeletMissedForGood(s: State, run: seq<Label>)
    requires KubeletMissed(s) && Legal(s, run) && WithoutStop(run)
    ensures KubeletMissed(Final(s, run)) && Final(s, run).kubelet == s.kubelet
    decreases run
  {
    if run != [] {
      KubeletStaysMissed(s, run[0]);
      assert forall i | 0 <= i < |run| - 1 :: run[1..][i] == run[i + 1];
      KubeletMissedForGood(Do(s, run[0]), run[1..]);
    }
  }

  /**
   A kubelet that has exited and not been reaped is noticed, in some continuation, if and only if init stands
   between its reaping pass and its check of the kubelet. After any other exit init keeps the handle of a dead
   process, and takes it for a running kubelet when it decides whether to start one.
   */
  lemma KubeletNoticedIff(boot: State, past: seq<Label>)
    requires Boot(boot) && Legal(boot, past)
    requires var s := Final(boot, past); s.kubelet.Some? && s.kubelet.value.pid in s.zombies
    ensures var s := Final(boot, past); NoticeReachable(s) <==> s.pc.CheckingAgent? || s.pc.PollingKubelet?
  {
    BootHolds(boot, past);
    var s := Final(boot, past);
    if s.pc.CheckingAgent? {
      var run := [CheckAgent(true), PollKubelet];
      assert run[1..] == [PollKubelet] && run[1..][1..] == [];
      var s1 := Do(s, CheckAgent(true));
      assert Legal(Do(s1, PollKubelet), run[1..][1..]);
      assert Legal(s1, run[1..]) && Final(s1, run[1..]).kubelet.None?;
      assert Legal(s, run) && WithoutStop(run) && Final(s, run).kubelet.None?;
    } else if s.pc.PollingKubelet? {
      var run := [PollKubelet];
      assert run[1..] == [];
      assert Legal(Do(s, PollKubelet), run[1..]);
      assert Legal(s, run) && WithoutStop(run) && Final(s, run).kubelet.None?;
    } else {
      assert s.alive == {};
      forall run | Legal(s, run) && WithoutStop(run) ensures Final(s, run).kubelet.Some? {
        KubeletMissedForGood(s, run);
      }
    }
  }

  predicate Unannounced(run: seq<Label>) {
    forall i | 0 <= i < |run| :: !(run[i].Announce? && run[i].ok)
  }

  predicate Abandoned(s: State) {
    KubeletMissed(s) && s.switched && !s.signal && !s.pc.Stopping?
  }

  /** After the automatic switch, a node whose kubelet's exit was missed has none until a bootstrap is announced. */
  lemma {:induction false} NoKubeletUntilAnnounced(s: State, run: seq<Label>)
    requires Abandoned(s) && Legal(s, run) && Unannounced(run)
    ensures Abandoned(Final(s, run)) && Final(s, run).alive == {}
    decreases run
  {
    if run != [] {
      assert !(run[0].Announce? && run[0].ok);
      assert forall i | 0 <= i < |run| - 1 :: run[1..][i] == run[i + 1];
      NoKubeletUntilAnnounced(Do(s, run[0]), run[1..]);
    }
  }

  // When the kubelet whose exit was missed can be replaced without a bootstrap being announced.

  ghost predicate ReplaceableUnannounced(s: State) {
    exists run :: Legal(s, run) && Unannounced(run) && Final(s, run).alive != {}
  }

  /** The agent is up, or its exit is about to be seen. */
  predicate AgentCanAct(s: State) { !ExitMissed(s) }

  /** Init's next iterations will stop the kubelet: it is asked to, or both kubeconfigs are there for the first time. */
  predicate WillStop(s: State) {
    s.signal || (s.kubeconfig > 0 && s.permanent && !s.switched)
  }

  function InitLabel(pc: Pc): Label {
    match pc
    case Reaping => Reap
    case CheckingAgent => CheckAgent(true)
    case PollingKubelet => PollKubelet
    case ReadingBootstrap => ReadBootstrap
    case ReadingPermanent(_) => ReadPermanent
    case Starting(_, _) => StartKubelet
    case Deciding(_, _) => Decide
    case _ => Sleep
  }

  /** How many steps of its own init is from stopping the kubelet; a reading made too early costs a round. */
  function StepsToStop(s: State): nat {
    match s.pc
    case Deciding(b, p) => if s.signal || (b && p) then 1 else 12
    case Starting(b, p) => if s.signal || (b && p) then 2 else 13
    case ReadingPermanent(b) => if s.signal || b then 3 else 14
    case ReadingBootstrap => 4
    case PollingKubelet => 5
    case CheckingAgent => 6
    case Reaping => 7
    case Sleeping(_, _) => 8
    case _ => 0
  }

  lemma StepTowardsStop(s: State)
    requires KubeletMissed(s) && WillStop(s) && !s.pc.Stopping?
    ensures Enabled(s, InitLabel(s.pc))
    ensures var s' := Do(s, InitLabel(s.pc));
      KubeletMissed(s') && (WillStop(s') || s'.pc.Stopping?) && StepsToStop(s') < StepsToStop(s)
  {
  }

  lemma {:induction false} ReachStopping(s: State) returns (run: seq<Label>)
    requires KubeletMissed(s) && (WillStop(s) || s.pc.Stopping?)
    ensures Legal(s, run) && Unannounced(run) && Final(s, run).pc.Stopping?
    decreases StepsToStop(s)
  {
    run := [];
    if !s.pc.Stopping? {
      StepTowardsStop(s);
      var rest := ReachStopping(Do(s, InitLabel(s.pc)));
      run := [InitLabel(s.pc)] + rest;
      assert run[1..] == rest;
    }
  }

  lemma ReachSpawn(s: State) returns (run: seq<Label>)
    requires s.pc.Stopping?
    ensures Legal(s, run) && Unannounced(run) && Final(s, run).alive != {}
  {
    Extend(s, [], Stop);
    Extend(s, [] + [Stop], RemoveSignal(true));
    run := [] + [Stop] + [RemoveSignal(true)];
    var s1 := Final(s, run);
    SpawnRun(s1, true);
    Concat(s, run, BOOT_RUN);
    assert s1.nextPid in Final(s, run + BOOT_RUN).alive;
    run := run + BOOT_RUN;
  }

  lemma {:induction false} FreshHandler(taken: set<nat>) returns (h: nat)
    ensures h !in taken && forall k | k in taken :: k < h
  {
    h := 0;
    if taken != {} {
      var k :| k in taken;
      var other := FreshHandler(taken - {k});
      h := Max(other, k + 1);
      assert forall j | j in taken :: j == k || j in taken - {k};
    }
  }

  /** Some handler may write a kubeconfig and get no further. */
  lemma ReachKubeconfig(s: State) returns (run: seq<Label>)
    requires KubeletMissed(s) && s.agent.Alive?
    ensures Legal(s, run) && Unannounced(run)
    ensures var s' := Final(s, run); KubeletMissed(s') && s'.kubeconfig > 0 && s'.switched == s.switched
  {
    var h := FreshHandler(s.handlers.Keys);
    KubeletStaysMissed(s, Begin(h));
    var s1 := Do(s, Begin(h));
    KubeletStaysMissed(s1, WriteKubeconfig(h, true));
    Extend(s, [], Begin(h));
    Extend(s, [] + [Begin(h)], WriteKubeconfig(h, true));
    run := [] + [Begin(h)] + [WriteKubeconfig(h, true)];
    assert Final(s, run) == Do(s1, WriteKubeconfig(h, true));
  }

  lemma ReachBootstrap(s: State) returns (run: seq<Label>)
    requires KubeletMissed(s) && (s.kubeconfig > 0 || AgentCanAct(s))
    ensures Legal(s, run) && Unannounced(run)
    ensures var s' := Final(s, run); KubeletMissed(s') && s'.kubeconfig > 0 && s'.switched == s.switched
  {
    if s.kubeconfig > 0 {
      run := [];
    } else if s.agent.Alive? {
      run := ReachKubeconfig(s);
    } else {
      KubeletStaysMissed(s, CheckAgent(true));
      var rest := ReachKubeconfig(Do(s, CheckAgent(true)));
      run := [CheckAgent(true)] + rest;
      assert run[1..] == rest;
    }
  }

  lemma ReplacementReachable(s: State)
    requires KubeletMissed(s)
    requires s.pc.Stopping? || s.signal || (!s.switched && (s.kubeconfig > 0 || AgentCanAct(s)))
    ensures ReplaceableUnannounced(s)
  {
    var a: seq<Label> := [];
    if !s.pc.Stopping? && !s.signal {
      a := ReachBootstrap(s);
      KubeletStaysMissed(Final(s, a), PermanentAppears);
      Extend(s, a, PermanentAppears);
      a := a + [PermanentAppears];
    }
    var b := ReachStopping(Final(s, a));
    Concat(s, a, b);
    var c := ReachSpawn(Final(s, a + b));
    Concat(s, a + b, c);
    var run := a + b + c;
    assert Unannounced(run) && Final(s, run).alive != {};
  }

  /** Nothing will make init stop the dead kubelet but an announcement. */
  predicate LeftDead(s: State) {
    && KubeletMissed(s) && SwitchInv(s) && !s.signal && !s.pc.Stopping?
    && (s.switched || (s.kubeconfig == 0 && ExitMissed(s)))
  }

  lemma StaysLeftDead(s: State, l: Label)
    requires LeftDead(s) && Enabled(s, l) && !(l.Announce? && l.ok)
    ensures LeftDead(Do(s, l))
  {
    SwitchKept(s, l);
  }

  lemma {:induction false} LeftDeadForGood(s: State, run: seq<Label>)
    requires LeftDead(s) && Legal(s, run) && Unannounced(run)
    ensures LeftDead(Final(s, run))
    decreases run
  {
    if run != [] {
      assert !(run[0].Announce? && run[0].ok);
      assert forall i | 0 <= i < |run| - 1 :: run[1..][i] == run[i + 1];
      StaysLeftDead(s, run[0]);
      LeftDeadForGood(Do(s, run[0]), run[1..]);
    }
  }

  /**
   A kubelet whose exit was missed can be replaced without a further announcement if and only if init is about to
   stop it or a signal is waiting, or else the automatic switch is still to come: there is a kubeconfig, or an
   agent that can write one.
   */
  lemma MissedKubeletReplaceableIff(boot: State, past: seq<Label>)
    requires Boot(boot) && Legal(boot, past) && KubeletMissed(Final(boot, past))
    ensures var s := Final(boot, past);
      ReplaceableUnannounced(s) <==>
        s.pc.Stopping? || s.signal || (!s.switched && (s.kubeconfig > 0 || AgentCanAct(s)))
  {
    BootHolds(boot, past);
    var s := Final(boot, past);
    if s.pc.Stopping? || s.signal || (!s.switched && (s.kubeconfig > 0 || AgentCanAct(s))) {
      ReplacementReachable(s);
    } else {
      forall run | Legal(s, run) && Unannounced(run) ensures Final(s, run).alive == {} {
        LeftDeadForGood(s, run);
      }
    }
  }

  // A node that has switched, and whose kubelet then exits unnoticed.

  const JOINED := BootState(1, true, false, true)

  const SETTLED := JOINED.(pc := Reaping, kubelet := Some(Kubelet(0, Permanent)), alive := {0}, nextPid := 1, seen := 1)

  lemma JoinedPolls() returns (run: seq<Label>)
    ensures Boot(JOINED) && Legal(JOINED, run) && Final(JOINED, run) == SETTLED.(pc := ReadingBootstrap)
  {
    SpawnRun(JOINED, true);
    assert Final(JOINED, BOOT_RUN) == SETTLED;
    run := ThenThree(JOINED, BOOT_RUN, SETTLED, Reap, CheckAgent(true), PollKubelet);
  }

  lemma JoinedDecides() returns (run: seq<Label>)
    ensures Boot(JOINED) && Legal(JOINED, run) && Final(JOINED, run) == SETTLED.(pc := Deciding(true, true))
  {
    run := JoinedPolls();
    run := ThenThree(JOINED, run, Final(JOINED, run), ReadBootstrap, ReadPermanent, StartKubelet);
  }

  lemma JoinedSwitches() returns (run: seq<Label>)
    ensures Legal(JOINED, run)
    ensures var s := Final(JOINED, run);
      && s.pc.Sleeping? && s.kubelet == Some(Kubelet(1, Permanent)) && s.alive == {1} && s.zombies == {}
      && s.switched && !s.signal
  {
    run := JoinedDecides();
    run := ThenThree(JOINED, run, Final(JOINED, run), Decide, Stop, RemoveSignal(true));
    run := ThenThree(JOINED, run, Final(JOINED, run), SpawnSeesBootstrap, SpawnSeesPermanent, Spawn(true));
  }

  /** Such a node is abandoned, and no continuation without an announcement gives it a kubelet. */
  lemma AbandonedIsReachable() returns (run: seq<Label>)
    ensures Boot(JOINED) && Legal(JOINED, run)
    ensures Abandoned(Final(JOINED, run)) && !ReplaceableUnannounced(Final(JOINED, run))
  {
    run := JoinedSwitches();
    Extend(JOINED, run, KubeletExits(1));
    run := run + [KubeletExits(1)];
    MissedKubeletReplaceableIff(JOINED, run);
  }

  /** Such a miss is reachable: the kubelet of a new node exits just before the loop's first reaping pass. */
  lemma KubeletExitIsMissed()
    ensures var run := BOOT_RUN + [KubeletExits(0)];
      && Legal(FRESH, run)
      && var s := Final(FRESH, run); s.alive == {} && s.kubelet.Some? && !NoticeReachable(s)
  {
    FreshNodeIsStandalone();
    SpawnRun(FRESH, true);
    Extend(FRESH, BOOT_RUN, KubeletExits(0));
    KubeletNoticedIff(FRESH, BOOT_RUN + [KubeletExits(0)]);
  }

  ghost predicate RespawnReachable(s: State) {
    exists run :: Legal(s, run) && Final(s, run).respawns > s.respawns
  }

  /** The agent is not running, and init is not about to find that out. */
  predicate ExitMissed(s: State) {
    !s.agent.Alive? && !(s.agent.Zombie? && s.pc.CheckingAgent?)
  }

  lemma {:induction false} MissedForGood(s: State, run: seq<Label>)
    requires ExitMissed(s) && Legal(s, run)
    ensures ExitMissed(Final(s, run)) && Final(s, run).respawns == s.respawns
    decreases run
  {
    if run != [] {
      MissedForGood(Do(s, run[0]), run[1..]);
    }
  }

  /**
   An agent that is not running can still be respawned if and only if it has exited, nobody has reaped it and
   init stands between its reaping pass and its check of the agent. An exit at any other moment is reaped
   first and never noticed, and a spawn that failed is never repeated.
   */
  lemma RespawnIff(s: State)
    requires !s.agent.Alive?
    ensures RespawnReachable(s) <==> s.agent.Zombie? && s.pc.CheckingAgent?
  {
    if s.agent.Zombie? && s.pc.CheckingAgent? {
      var run := [CheckAgent(true)];
      assert run[1..] == [];
      assert Legal(Do(s, CheckAgent(true)), run[1..]);
      assert Legal(s, run) && Final(s, run) == Do(s, CheckAgent(true));
    } else {
      forall run | Legal(s, run) ensures Final(s, run).respawns == s.respawns {
        MissedForGood(s, run);
      }
    }
  }

  /** Both sides are reachable: an exit before the first reaping pass is missed, one just after it is not. */
  lemma AgentExitMissedOrSeen()
    ensures var early := BOOT_RUN + [AgentExits];
      Legal(FRESH, early) && Final(FRESH, early).agent.Zombie? && !RespawnReachable(Final(FRESH, early))
    ensures var late := BOOT_RUN + [Reap] + [AgentExits];
      Legal(FRESH, late) && Final(FRESH, late).agent.Zombie? && RespawnReachable(Final(FRESH, late))
  {
    SpawnRun(FRESH, true);
    Extend(FRESH, BOOT_RUN, AgentExits);
    RespawnIff(Final(FRESH, BOOT_RUN + [AgentExits]));
    Extend(FRESH, BOOT_RUN, Reap);
    Extend(FRESH, BOOT_RUN + [Reap], AgentExits);
    RespawnIff(Final(FRESH, BOOT_RUN + [Reap] + [AgentExits]));
  }
}
