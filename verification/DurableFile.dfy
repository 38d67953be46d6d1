/** What the file guarantees, and exactly when: everything, unless an unread file is overwritten. */
module DurableFile {
  import opened Wrappers
  import opened Schedules
  import opened SchedulerProtocol
  import opened ExecutorProperties

  predicate BeginsWith(log: seq<Mutation>, id: Id) {
    log != [] && log[0].Insert? && log[0].id == id
  }

  predicate BeginsWithInsert(log: seq<Mutation>, issued: set<Id>) {
    log != [] ==> log[0].Insert? && log[0].id in issued
  }

  /** Two histories that have parted begin with the insertion of different schedules. */
  predicate Firsts(s: State) {
    && BeginsWithInsert(s.log, s.issued) && BeginsWithInsert(s.stored, s.issued)
    && (s.stored <= s.log || s.log == [] || s.log[0].id != s.stored[0].id)
  }

  /** Only an insertion can be the first mutation: every other one needs a schedule to act on. */
  lemma FirstIsInsert(s: State, l: Label)
    requires Inv(s) && Enabled(s, l) && s.log == [] && MutationOf(s, l).Some?
    ensures l.CallInsert?
  {
    assert s.live == map[];
  }

  lemma FirstsKept(s: State, l: Label)
    requires Inv(s) && Enabled(s, l) && Firsts(s)
    ensures Firsts(Do(s, l))
  {
    if s.log == [] && MutationOf(s, l).Some? {
      FirstIsInsert(s, l);
    }
    if l.Write? && l.ok {
      assert s.log[..|s.log|] == s.log;
    }
    if MutationOf(s, l).Some? && s.stored <= s.log {
      assert s.log <= Do(s, l).log;
    }
  }

  /** The schedule that the history on file once began with is in neither history any more. */
  predicate Gone(s: State, id: Id) {
    id in s.issued && !BeginsWith(s.log, id) && !BeginsWith(s.stored, id)
  }

  lemma GoneStays(s: State, l: Label, id: Id)
    requires Inv(s) && Enabled(s, l) && Gone(s, id)
    ensures Gone(Do(s, l), id)
  {
  }

  lemma {:induction false} GoneForGood(s: State, run: seq<Label>, id: Id)
    requires Inv(s) && Legal(s, run) && Gone(s, id)
    ensures Gone(Final(s, run), id)
    decreases run
  {
    if run != [] {
      GoneStays(s, run[0], id);
      DurabilityKept(s, run[0]);
      ProtocolKept(s, run[0]);
      GoneForGood(Do(s, run[0]), run[1..], id);
    }
  }

  /** What an unread file held when it was overwritten is never on file again. */
  lemma {:induction false} DestroyedForGood(s: State, run: seq<Label>, held: seq<Mutation>)
    requires Inv(s) && Firsts(s) && Legal(s, run) && held != [] && held <= s.stored
    requires !NothingDestroyed(s, run)
    ensures !(held <= Final(s, run).stored)
    decreases run
  {
    var s' := Do(s, run[0]);
    DurabilityKept(s, run[0]);
    ProtocolKept(s, run[0]);
    FirstsKept(s, run[0]);
    if Destroys(s, run[0]) {
      assert Gone(s', held[0].id);
      GoneForGood(s', run[1..], held[0].id);
    } else {
      DestroyedForGood(s', run[1..], held);
    }
  }

  lemma {:induction false} FirstsHold(s: State, run: seq<Label>)
    requires Inv(s) && Firsts(s) && Legal(s, run)
    ensures Inv(Final(s, run)) && Firsts(Final(s, run))
    decreases run
  {
    if run != [] {
      DurabilityKept(s, run[0]);
      ProtocolKept(s, run[0]);
      FirstsKept(s, run[0]);
      FirstsHold(Do(s, run[0]), run[1..]);
    }
  }

  /**
   Durable linearizability. Split any run at any point into `before` and `after`. At both points memory and file
   are the registry after some mutations (`log`, `stored`). What was on file at the first point is on file at the
   second, those mutations first, if and only if there was none or no unread file has been overwritten since;
   then every mutation whose call had returned Ok is still there, and a process that can read the file has it.
   If every process could read the file, none was overwritten unread, and the file is a moment of the past of
   memory.
   */
  lemma DurableLinearizability(before: seq<Label>, after: seq<Label>)
    requires Legal(INIT, before) && Legal(Final(INIT, before), after)
    ensures var s, s' := Final(INIT, before), Final(Final(INIT, before), after);
      && s.file == Replay(s.stored) && s'.file == Replay(s'.stored) && s'.live == Replay(s'.log)
      && (s.stored <= s'.stored <==> s.stored == [] || NothingDestroyed(s, after))
      && (NothingDestroyed(s, after) ==>
            forall i | i in s.acked :: i < |s.stored| && i in s'.acked && s'.stored[i] == s.stored[i])
      && Do(s', Crash(true)).live == s'.file
      && (AllReads(before) && AllReads(after) ==> NothingDestroyed(s, after) && s'.stored <= s'.log)
  {
    var s := Final(INIT, before);
    FirstsHold(INIT, before);
    DurabilityHolds(s, after);
    if !NothingDestroyed(s, after) && s.stored != [] {
      DestroyedForGood(s, after, s.stored);
    }
    if AllReads(before) && AllReads(after) {
      ReadsKeepUp(INIT, before);
      ReadsKeepUp(s, after);
    }
  }
}
