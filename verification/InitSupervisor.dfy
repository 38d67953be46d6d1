/** The supervision loop's body in place, one iteration at a time, and the agent's restart backoff. */
module InitSupervisor {
  import opened Wrappers
  import opened Supervision

  const MAX_RESTART_DELAY_SECS: nat := 60

  function Pow2(k: nat): nat {
    if k == 0 then 1 else 2 * Pow2(k - 1)
  }

  /** `1u64 << k` as a release build computes it: the shift count is taken modulo 64. */
  function ShiftOne(k: nat): nat { Pow2(k % 64) }

  function BackoffDelay(restarts: nat): nat {
    Cap(ShiftOne(restarts))
  }

  lemma {:induction false} Pow2Grows(i: nat, j: nat)
    requires i <= j
    ensures 1 <= Pow2(i) <= Pow2(j)
    decreases j
  {
    if i < j {
      Pow2Grows(i, j - 1);
    } else if j > 0 {
      Pow2Grows(j - 1, j - 1);
    }
  }

  lemma Pow2Small()
    ensures Pow2(0) == 1 && Pow2(1) == 2 && Pow2(2) == 4 && Pow2(3) == 8 && Pow2(4) == 16 && Pow2(5) == 32
    ensures Pow2(6) == 64
  {
  }

  function Cap(delay: nat): nat {
    if delay <= MAX_RESTART_DELAY_SECS then delay else MAX_RESTART_DELAY_SECS
  }

  lemma CapOfPow2(k: nat)
    ensures 1 <= Cap(Pow2(k)) <= 60
    ensures Cap(Pow2(k)) == if k < 6 then Pow2(k) else 60
    ensures k < 6 ==> Cap(Pow2(k)) <= 32
  {
    Pow2Small();
    Pow2Grows(0, k);
    if k < 6 {
      Pow2Grows(k, 5);
    } else {
      Pow2Grows(6, k);
    }
  }

  /** The delay is the capped power of two, for exactly the counts whose shift is not cut short by the modulo. */
  lemma DelayIff(k: nat)
    ensures 1 <= BackoffDelay(k) <= 60
    ensures BackoffDelay(k) == Cap(Pow2(k)) <==> k < 64 || k % 64 >= 6
  {
    var r := k % 64;
    CapOfPow2(k);
    CapOfPow2(r);
    if k < 64 {
      assert r == k;
    } else {
      assert Cap(Pow2(k)) == 60;
    }
  }

  /** At 64 the shift wraps: the wait drops from a minute to a second. */
  lemma DelayDropsAt64()
    ensures BackoffDelay(63) == 60 && BackoffDelay(64) == 1 && Cap(Pow2(64)) == 60
  {
    assert 63 % 64 == 63 && 64 % 64 == 0;
    CapOfPow2(63);
    CapOfPow2(64);
    Pow2Small();
  }

  /** It never gets shorter over the first 64 counts. */
  lemma DelayMonotone(i: nat, j: nat)
    requires i <= j < 64
    ensures BackoffDelay(i) <= BackoffDelay(j)
  {
    assert i % 64 == i && j % 64 == j;
    CapOfPow2(i);
    CapOfPow2(j);
    Pow2Grows(i, j);
  }

  /** The wait added up over the first `n` exits that were followed by a successful respawn. */
  function TotalWait(n: nat): nat {
    if n == 0 then 0 else TotalWait(n - 1) + BackoffDelay(n - 1)
  }

  lemma {:induction false} TotalWaitClosedForm(n: nat)
    requires n <= 64
    ensures n <= 6 ==> TotalWait(n) == Pow2(n) - 1
    ensures n >= 6 ==> TotalWait(n) == 60 * n - 297
  {
    Pow2Small();
    if n > 0 {
      TotalWaitClosedForm(n - 1);
      CapOfPow2(n - 1);
      assert (n - 1) % 64 == n - 1;
    }
  }

  /** The outcomes of one iteration's calls, and what the environment attempts while init is at each point of it. */
  datatype Iteration = Iteration(agentSpawnOk: bool, startOk: bool, removeOk: bool, restartOk: bool,
                                 meanwhile: Pc -> seq<Label>)

  predicate Announces(steps: seq<Label>) {
    exists i | 0 <= i < |steps| :: steps[i].Announce?
  }

  /** The agent announces nothing meanwhile. */
  ghost predicate Silent(meanwhile: Pc -> seq<Label>) {
    forall pc :: !Announces(meanwhile(pc))
  }

  /** The mode of a kubelet spawned between two moments at which the kubeconfigs were as given. */
  predicate ModeFits(mode: Mode, kubeconfig: nat, permanent: bool, kubeconfig': nat, permanent': bool) {
    && (mode.Permanent? ==> permanent') && (permanent ==> mode.Permanent?)
    && (mode.JoinWithToken? ==> kubeconfig' > 0) && (kubeconfig > 0 ==> !mode.Standalone?)
  }

  /** Between these states only the environment has moved. */
  predicate OnlyEnvironment(before: State, after: State) {
    && after.pc == before.pc && after.kubelet == before.kubelet && after.nextPid == before.nextPid
    && after.agentRestarts == before.agentRestarts && after.switched == before.switched && after.seen == before.seen
    && before.kubeconfig <= after.kubeconfig && (before.permanent ==> after.permanent)
    && (before.signal ==> after.signal)
    && (if before.agent.Alive? then after.agent.Alive? || after.agent.Zombie? else after.agent == before.agent)
  }

  lemma EnvironmentStep(s: State, l: Label)
    requires Enabled(s, l) && OfEnvironment(l)
    ensures OnlyEnvironment(s, Do(s, l)) && (!l.Announce? ==> Do(s, l).signal == s.signal)
  {
  }

  /** Between these states only init has moved, and has not touched the signal. */
  predicate InitSteps(before: State, after: State) {
    && after.kubeconfig == before.kubeconfig && after.permanent == before.permanent && after.signal == before.signal
    && after.seen == before.seen
    && (before.agent.Gone? || before.agent.Unstarted? ==> after.agent == before.agent)
  }

  /** Nothing written is removed, what was seen stays seen, and an agent that is gone stays so. */
  predicate Onward(before: State, after: State) {
    && before.kubeconfig <= after.kubeconfig && (before.permanent ==> after.permanent)
    && (before.signal ==> after.signal)
    && before.seen <= after.seen
    && (before.agent.Gone? || before.agent.Unstarted? ==> after.agent == before.agent)
  }

  class Init {
    var kubelet: Option<Kubelet>
    var agentRestartCount: nat
    var switched: bool
    // what it acts on
    var agent: Process
    var alive: set<nat>
    var zombies: set<nat>
    var nextPid: nat
    var kubeconfig: nat
    var permanent: bool
    var signal: bool
    var handlers: map<nat, Handler>
    ghost const boot: State
    ghost var past: seq<Label>
    ghost var state: State // where the protocol is after `past`

    ghost predicate Reached()
      reads this
    {
      Boot(boot) && Legal(boot, past) && Final(boot, past) == state
    }

    ghost predicate Tracks()
      reads this
    {
      && Reached()
      && state.kubelet == kubelet && state.agentRestarts == agentRestartCount && state.switched == switched
      && state.agent == agent && state.alive == alive && state.zombies == zombies && state.nextPid == nextPid
      && state.kubeconfig == kubeconfig && state.permanent == permanent && state.signal == signal
      && state.handlers == handlers
    }

    ghost method Record(l: Label)
      requires Reached() && Enabled(state, l)
      modifies `past, `state
      ensures Reached() && past == old(past) + [l] && state == Do(old(state), l)
    {
      Extend(boot, past, l);
      past := past + [l];
      state := Do(state, l);
    }

    /** Init's start: the agent's and the kubelet's first spawn, over the files an earlier boot left behind. */
    constructor (kubeconfig: nat, permanent: bool, signal: bool, agentOk: bool, kubeletOk: bool,
                 meanwhile: Pc -> seq<Label>)
      ensures Tracks() && state.pc.Reaping? && boot == BootState(kubeconfig, permanent, signal, agentOk)
      ensures agentRestartCount == 0 && !switched && (signal ==> this.signal)
      ensures kubeletOk <==> kubelet.Some?
      ensures kubeletOk ==> ModeFits(kubelet.value.mode, kubeconfig, permanent, this.kubeconfig, this.permanent)
    {
      kubelet, agentRestartCount, switched := None, 0, false;
      agent, alive, zombies, nextPid := if agentOk then Alive else Unstarted, {}, {}, 0;
      this.kubeconfig, this.permanent, this.signal, handlers := kubeconfig, permanent, signal, map[];
      boot := BootState(kubeconfig, permanent, signal, agentOk);
      past, state := [], BootState(kubeconfig, permanent, signal, agentOk);
      new;
      SpawnKubelet(false, false, AtBoot, kubeletOk, meanwhile);
    }

    // ----- The environment -----

    predicate CanHappen(l: Label)
      reads this
    {
      match l
      case KubeletExits(pid) => pid in alive
      case AgentExits => agent.Alive?
      case PermanentAppears => true
      case Begin(h) => agent.Alive? && h !in handlers
      case WriteKubeconfig(h, _) => agent.Alive? && h in handlers && handlers[h].Preparing?
      case SaveState(h, _) => agent.Alive? && h in handlers && handlers[h].Wrote?
      case Announce(h, _) => agent.Alive? && h in handlers && handlers[h].Saved?
      case _ => false
    }

    method ProcessExits(l: Label)
      requires Tracks() && CanHappen(l) && (l.KubeletExits? || l.AgentExits?)
      modifies `agent, `alive, `zombies, `handlers, `past, `state
      ensures Tracks() && state == Do(old(state), l)
    {
      Record(l);
      match l {
        case KubeletExits(pid) => alive, zombies := alive - {pid}, zombies + {pid};
        case AgentExits => agent, handlers := Zombie, map[];
      }
    }

    method WriteTheKubeconfig(h: nat, ok: bool)
      requires Tracks() && CanHappen(WriteKubeconfig(h, ok))
      modifies `kubeconfig, `handlers, `past, `state
      ensures Tracks() && state == Do(old(state), WriteKubeconfig(h, ok))
    {
      Record(WriteKubeconfig(h, ok));
      if ok {
        kubeconfig := kubeconfig + 1;
        handlers := handlers[h := Wrote(kubeconfig)];
      } else {
        handlers := handlers - {h};
      }
    }

    method SaveTheState(h: nat, ok: bool)
      requires Tracks() && CanHappen(SaveState(h, ok))
      modifies `handlers, `past, `state
      ensures Tracks() && state == Do(old(state), SaveState(h, ok))
    {
      Record(SaveState(h, ok));
      handlers := if ok then handlers[h := Saved(handlers[h].version)] else handlers - {h};
    }

    method WriteTheSignal(h: nat, ok: bool)
      requires Tracks() && CanHappen(Announce(h, ok))
      modifies `signal, `handlers, `past, `state
      ensures Tracks() && state == Do(old(state), Announce(h, ok))
    {
      Record(Announce(h, ok));
      handlers := handlers - {h};
      signal := signal || ok;
    }

    method Happen(l: Label)
      requires Tracks() && CanHappen(l)
      modifies `agent, `alive, `zombies, `kubeconfig, `permanent, `signal, `handlers, `past, `state
      ensures Tracks() && OfEnvironment(l) && state == Do(old(state), l)
    {
      match l {
        case KubeletExits(_) => ProcessExits(l);
        case AgentExits => ProcessExits(l);
        case WriteKubeconfig(h, ok) => WriteTheKubeconfig(h, ok);
        case SaveState(h, ok) => SaveTheState(h, ok);
        case Announce(h, ok) => WriteTheSignal(h, ok);
        case PermanentAppears =>
          Record(l);
          permanent := true;
        case Begin(h) =>
          Record(l);
          handlers := handlers[h := Preparing];
      }
    }

    /** The steps of `steps` that can happen, in order. */
    method Interfere(steps: seq<Label>)
      requires Tracks()
      modifies `agent, `alive, `zombies, `kubeconfig, `permanent, `signal, `handlers, `past, `state
      ensures Tracks() && OnlyEnvironment(old(state), state)
      ensures !Announces(steps) ==> signal == old(signal)
      ensures steps == [] ==> agent == old(agent)
      ensures steps == [AgentExits] && old(agent).Alive? ==> agent.Zombie?
    {
      for i := 0 to |steps|
        invariant Tracks() && OnlyEnvironment(old(state), state)
        invariant !Announces(steps) ==> signal == old(signal)
        invariant i == 0 ==> agent == old(agent)
        invariant steps == [AgentExits] && old(agent).Alive? && i == 1 ==> agent.Zombie?
      {
        if CanHappen(steps[i]) {
          EnvironmentStep(state, steps[i]);
          Happen(steps[i]);
        }
      }
    }

    // ----- The steps of the loop -----

    method SpawnKubelet(b: bool, p: bool, cause: Cause, ok: bool, meanwhile: Pc -> seq<Label>)
      requires Tracks() && state.pc == Spawning(b, p, cause, None, None)
      modifies `kubelet, `alive, `nextPid, `agent, `zombies, `kubeconfig, `permanent, `signal, `handlers, `past, `state
      ensures Tracks() && state.pc == AfterSpawning(old(state.pc))
      ensures ok <==> kubelet.Some?
      ensures ok ==> ModeFits(kubelet.value.mode, old(kubeconfig), old(permanent), kubeconfig, permanent)
      ensures Onward(old(state), state) && state.seen >= old(kubeconfig)
      ensures Silent(meanwhile) ==> signal == old(signal)
    {
      var sawB, sawP := LookForKubeconfigs(b, p, cause, meanwhile);
      Interfere(meanwhile(Spawning(b, p, cause, Some(sawB), Some(sawP))));
      Launch(ModeFor(sawB, sawP), ok);
    }

    method LookForKubeconfigs(b: bool, p: bool, cause: Cause, meanwhile: Pc -> seq<Label>)
      returns (sawB: bool, sawP: bool)
      requires Tracks() && state.pc == Spawning(b, p, cause, None, None)
      modifies `agent, `alive, `zombies, `kubeconfig, `permanent, `signal, `handlers, `past, `state
      ensures Tracks() && state.pc == Spawning(b, p, cause, Some(sawB), Some(sawP))
      ensures Onward(old(state), state) && state.seen >= old(kubeconfig)
      ensures (old(kubeconfig) > 0 ==> sawB) && (sawB ==> kubeconfig > 0)
      ensures (old(permanent) ==> sawP) && (sawP ==> permanent)
      ensures Silent(meanwhile) ==> signal == old(signal)
    {
      sawB := LookForBootstrap(b, p, cause, meanwhile);
      Interfere(meanwhile(Spawning(b, p, cause, Some(sawB), None)));
      sawP := permanent;
      Record(SpawnSeesPermanent);
    }

    method LookForBootstrap(b: bool, p: bool, cause: Cause, meanwhile: Pc -> seq<Label>) returns (sawB: bool)
      requires Tracks() && state.pc == Spawning(b, p, cause, None, None)
      modifies `agent, `alive, `zombies, `kubeconfig, `permanent, `signal, `handlers, `past, `state
      ensures Tracks() && state.pc == Spawning(b, p, cause, Some(sawB), None)
      ensures Onward(old(state), state) && state.seen >= old(kubeconfig)
      ensures (old(kubeconfig) > 0 ==> sawB) && (sawB ==> kubeconfig > 0)
      ensures Silent(meanwhile) ==> signal == old(signal)
    {
      BootHolds(boot, past);
      Interfere(meanwhile(Spawning(b, p, cause, None, None)));
      sawB := kubeconfig > 0;
      Record(SpawnSeesBootstrap);
    }

    method Launch(mode: Mode, ok: bool)
      requires Tracks() && state.pc.Spawning? && state.pc.sawB.Some? && state.pc.sawP.Some?
      requires mode == ModeFor(state.pc.sawB.value, state.pc.sawP.value)
      modifies `kubelet, `alive, `nextPid, `past, `state
      ensures Tracks() && state.pc == AfterSpawning(old(state.pc)) && InitSteps(old(state), state)
      ensures kubelet == if ok then Some(Kubelet(old(nextPid), mode)) else None
    {
      Record(Spawn(ok));
      if ok {
        kubelet, alive, nextPid := Some(Kubelet(nextPid, mode)), alive + {nextPid}, nextPid + 1;
      } else {
        kubelet := None;
      }
    }

    // ----- The loop body -----

    method ReapZombies()
      requires Tracks() && state.pc.Reaping?
      modifies `agent, `zombies, `past, `state
      ensures Tracks() && state.pc.CheckingAgent? && InitSteps(old(state), state)
      ensures agent == if old(agent).Zombie? then Gone else old(agent)
    {
      if agent.Zombie? {
        agent := Gone;
      }
      zombies := {};
      Record(Reap);
    }

    /** The respawn of the agent, if its exit is there to be seen; `waited` is the backoff. */
    method CheckOnAgent(spawnOk: bool) returns (waited: nat)
      requires Tracks() && state.pc.CheckingAgent?
      modifies `agent, `agentRestartCount, `past, `state
      ensures Tracks() && state.pc.PollingKubelet? && InitSteps(old(state), state)
      ensures waited == if old(agent).Zombie? then BackoffDelay(old(agentRestartCount)) else 0
      ensures agentRestartCount == old(agentRestartCount) + if old(agent).Zombie? && spawnOk then 1 else 0
      ensures agent == if !old(agent).Zombie? then old(agent) else if spawnOk then Alive else Unstarted
    {
      waited := 0;
      if agent.Zombie? {
        waited := BackoffDelay(agentRestartCount);
        if spawnOk {
          agent := Alive;
          agentRestartCount := agentRestartCount + 1;
        } else {
          agent := Unstarted;
        }
      }
      Record(CheckAgent(spawnOk));
    }

    method PollTheKubelet()
      requires Tracks() && state.pc.PollingKubelet?
      modifies `kubelet, `zombies, `past, `state
      ensures Tracks() && state.pc.ReadingBootstrap? && InitSteps(old(state), state)
      ensures kubelet == if old(kubelet).Some? && old(kubelet).value.pid in old(zombies) then None else old(kubelet)
    {
      if kubelet.Some? && kubelet.value.pid in zombies {
        zombies := zombies - {kubelet.value.pid};
        kubelet := None;
      }
      Record(PollKubelet);
    }

    /** Reaping and the two process checks, with the environment moving before each. */
    method CheckProcesses(it: Iteration) returns (waited: nat)
      requires Tracks() && state.pc.Reaping?
      modifies `kubelet, `agentRestartCount, `agent, `alive, `zombies, `kubeconfig, `permanent, `signal, `handlers,
               `past, `state
      ensures Tracks() && state.pc.ReadingBootstrap? && Onward(old(state), state)
      ensures old(kubelet) == None ==> kubelet == None
      ensures !old(agent).Alive? ==> waited == 0
      ensures old(agent).Zombie? ==> agent.Gone?
      ensures it.meanwhile(CheckingAgent) == [] ==> waited == 0
      ensures old(agent).Alive? && it.meanwhile(Reaping) == [] && it.meanwhile(CheckingAgent) == [AgentExits] ==>
                waited == BackoffDelay(old(agentRestartCount))
      ensures Silent(it.meanwhile) ==> signal == old(signal)
    {
      Interfere(it.meanwhile(Reaping));
      ReapZombies();
      Interfere(it.meanwhile(CheckingAgent));
      waited := CheckOnAgent(it.agentSpawnOk);
      Interfere(it.meanwhile(PollingKubelet));
      PollTheKubelet();
    }

    method ReadKubeconfigs(it: Iteration) returns (b: bool, p: bool)
      requires Tracks() && state.pc.ReadingBootstrap?
      modifies `agent, `alive, `zombies, `kubeconfig, `permanent, `signal, `handlers, `past, `state
      ensures Tracks() && state.pc == Starting(b, p) && Onward(old(state), state)
      ensures (old(kubeconfig) > 0 ==> b) && (old(permanent) ==> p)
      ensures Silent(it.meanwhile) ==> signal == old(signal)
    {
      Interfere(it.meanwhile(ReadingBootstrap));
      b := kubeconfig > 0;
      Record(ReadBootstrap);
      Interfere(it.meanwhile(ReadingPermanent(b)));
      p := permanent;
      Record(ReadPermanent);
    }

    method StartIfMissing(it: Iteration, b: bool, p: bool)
      requires Tracks() && state.pc == Starting(b, p)
      modifies `kubelet, `alive, `nextPid, `agent, `zombies, `kubeconfig, `permanent, `signal, `handlers, `past, `state
      ensures Tracks() && state.pc == Deciding(b, p) && Onward(old(state), state)
      ensures b && old(kubelet) == None ==> state.seen >= old(kubeconfig) && (it.startOk <==> kubelet.Some?)
      ensures b && old(kubelet) == None && it.startOk ==>
                ModeFits(kubelet.value.mode, old(kubeconfig), old(permanent), kubeconfig, permanent)
      ensures !b || old(kubelet).Some? ==> kubelet == old(kubelet)
      ensures Silent(it.meanwhile) ==> signal == old(signal)
    {
      Interfere(it.meanwhile(Starting(b, p)));
      var missing := b && kubelet.None?;
      Record(StartKubelet);
      if missing {
        SpawnKubelet(b, p, Missing, it.startOk, it.meanwhile);
      }
    }

    method DecideOnRestart(b: bool, p: bool) returns (shouldRestart: bool)
      requires Tracks() && state.pc == Deciding(b, p)
      modifies `switched, `past, `state
      ensures Tracks() && InitSteps(old(state), state)
      ensures shouldRestart <==> signal || (b && p && kubelet.Some? && !old(switched))
      ensures state.pc == if shouldRestart then Stopping(b, p) else Sleeping(b, p)
    {
      shouldRestart := signal;
      if !signal && b && p && kubelet.Some? && !switched {
        switched := true;
        shouldRestart := true;
      }
      Record(Decide);
    }

    method StopKubelet(b: bool, p: bool)
      requires Tracks() && state.pc == Stopping(b, p)
      modifies `alive, `zombies, `past, `state
      ensures Tracks() && state.pc == Removing(b, p) && InitSteps(old(state), state)
    {
      if kubelet.Some? {
        alive, zombies := alive - {kubelet.value.pid}, zombies - {kubelet.value.pid};
      }
      Record(Stop);
    }

    method ConsumeSignal(b: bool, p: bool, removeOk: bool)
      requires Tracks() && state.pc == Removing(b, p)
      modifies `signal, `past, `state
      ensures Tracks() && state.pc == Spawning(b, p, Restart, None, None)
      ensures InitSteps(old(state).(signal := signal), state)
      ensures signal == (old(signal) && !removeOk)
    {
      if removeOk {
        signal := false;
      }
      Record(RemoveSignal(removeOk));
    }

    /** A restart: the new kubelet is spawned after the signal was taken, so it sees every kubeconfig there was. */
    method RestartKubelet(it: Iteration, b: bool, p: bool)
      requires Tracks() && state.pc == Stopping(b, p)
      modifies `kubelet, `alive, `nextPid, `agent, `zombies, `kubeconfig, `permanent, `signal, `handlers, `past, `state
      ensures Tracks() && state.pc == Sleeping(b, p) && Onward(old(state).(signal := signal), state)
      ensures state.seen >= old(kubeconfig) && (it.restartOk <==> kubelet.Some?)
      ensures it.restartOk ==> ModeFits(kubelet.value.mode, old(kubeconfig), old(permanent), kubeconfig, permanent)
      ensures Silent(it.meanwhile) ==> signal == (old(signal) && !it.removeOk)
    {
      Interfere(it.meanwhile(Stopping(b, p)));
      StopKubelet(b, p);
      Interfere(it.meanwhile(Removing(b, p)));
      ConsumeSignal(b, p, it.removeOk);
      SpawnKubelet(b, p, Restart, it.restartOk, it.meanwhile);
    }

    method RestartIfAsked(it: Iteration, b: bool, p: bool)
      requires Tracks() && state.pc == Deciding(b, p)
      modifies `kubelet, `switched, `alive, `nextPid, `agent, `zombies, `kubeconfig, `permanent, `signal, `handlers,
               `past, `state
      ensures Tracks() && state.pc == Sleeping(b, p) && Onward(old(state).(signal := signal), state)
      ensures old(signal) ==> state.seen >= old(kubeconfig) && (it.restartOk <==> kubelet.Some?)
      ensures old(signal) && it.restartOk ==>
                ModeFits(kubelet.value.mode, old(kubeconfig), old(permanent), kubeconfig, permanent)
      ensures kubelet != old(kubelet) ==>
                && (it.restartOk <==> kubelet.Some?)
                && (it.restartOk ==>
                      ModeFits(kubelet.value.mode, old(kubeconfig), old(permanent), kubeconfig, permanent))
      ensures Silent(it.meanwhile) ==> signal == (old(signal) && !it.removeOk)
    {
      Interfere(it.meanwhile(Deciding(b, p)));
      var shouldRestart := DecideOnRestart(b, p);
      if shouldRestart {
        RestartKubelet(it, b, p);
      }
    }

    /**
     One iteration, with the environment moving at every point of it. An agent that exited before the
     iteration, or at any point of it but between the reaping pass and the check, is not waited for; a signal
     present at the start is answered by a kubelet that was spawned after every kubeconfig there was at the
     start, in a mode its kubeconfigs call for; a missing kubelet is started as soon as there is a bootstrap
     kubeconfig, and sees it; with both kubeconfigs present the kubelet ends absent or on the
     permanent one, never with a second one beside it.
     */
    method SuperviseOnce(it: Iteration) returns (waited: nat)
      requires Tracks() && state.pc.Reaping?
      modifies this
      ensures Tracks() && state.pc.Reaping? && Onward(old(state).(signal := signal), state)
      ensures old(agent).Zombie? ==> agent.Gone? && waited == 0
      ensures it.meanwhile(CheckingAgent) == [] ==> waited == 0
      ensures old(agent).Alive? && it.meanwhile(Reaping) == [] && it.meanwhile(CheckingAgent) == [AgentExits] ==>
                waited == BackoffDelay(old(agentRestartCount))
      ensures Silent(it.meanwhile) ==> signal == (old(signal) && !it.removeOk)
      ensures old(signal) ==> state.seen >= old(kubeconfig) && (it.restartOk <==> kubelet.Some?)
      ensures old(signal) && it.restartOk ==>
                ModeFits(kubelet.value.mode, old(kubeconfig), old(permanent), kubeconfig, permanent)
      ensures old(kubelet) == None && old(kubeconfig) > 0 ==> state.seen >= old(kubeconfig)
      ensures old(kubelet) == None && old(kubeconfig) > 0 && it.startOk && it.restartOk ==>
                && kubelet.Some?
                && ModeFits(kubelet.value.mode, old(kubeconfig), old(permanent), kubeconfig, permanent)
      ensures old(kubeconfig) > 0 && old(permanent) ==> kubelet.None? || kubelet.value.mode.Permanent?
      ensures |alive| <= 1
    {
      waited := CheckProcesses(it);
      var b, p := ReadKubeconfigs(it);
      StartIfMissing(it, b, p);
      RestartIfAsked(it, b, p);
      SwitchesOnce(boot, past);
      Interfere(it.meanwhile(Sleeping(b, p)));
      Record(Sleep);
      OneKubelet(boot, past);
    }
  }
}
