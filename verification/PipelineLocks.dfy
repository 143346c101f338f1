/** Who holds the services' mutexes, who touches the on-chain flag, and when a task may advance, in every
  run of the pipeline. */
module PipelineLocks {
  import opened TaskTable
  import opened Pipeline
  import opened PipelineInvariants
  import opened PipelineRuns

  // ----- what holds at every moment

  /** Only a training occupies the service and gives it up again. */
  ghost predicate TrainsOnly(s: State) {
    forall c :: c in s.claims && InService(s.claims[c].exec) ==> s.claims[c].stage == Executor
  }

  predicate InService(e: ExecPc) {
    e == Setting || e == Inside || e.Leaving?
  }

  /** The holder of the executor's mutex may give up the flag: the poller after it found nothing to do, or
      a goroutine on its way out. */
  predicate MayRelease(s: State, who: Releaser) {
    match who
    case Poller => s.pollerReleasing
    case Goroutine(c) => c in s.claims && s.claims[c].exec.Leaving?
  }

  predicate IsReleasing(l: Lock) {
    l.Releasing? || l.NonePending? || l.Clearing?
  }

  /** Only the executor releases; its poller does not hold a fetched task meanwhile. */
  ghost predicate LockInv(s: State) {
    && TrainsOnly(s)
    && !IsReleasing(s.locks.setup) && !IsReleasing(s.locks.finalizer)
    && (IsReleasing(s.locks.executor) ==> MayRelease(s, s.locks.executor.Who()))
    && (s.pollerReleasing ==> !s.locks.executor.Fetched?)
  }

  lemma ExecKeepsLocks(s: State, c: ClaimId, e: ExecStep)
    requires LockInv(s) && ExecEnabled(s, c, e)
    ensures LockInv(ApplyExec(s, c, e))
  {
  }

  lemma JobKeepsLocks(cfg: Config, s: State, c: ClaimId, j: JobStep)
    requires LockInv(s) && JobEnabled(cfg, s, c, j)
    requires j.Start? ==> s.claims[c].exec == NotStarted
    ensures LockInv(ApplyJob(cfg, s, c, j))
  {
  }

  lemma ReleaseKeepsLocks(s: State, r: ReleaseStep)
    requires LockInv(s) && ReleaseEnabled(s, r)
    ensures LockInv(ApplyRelease(s, r))
  {
  }

  lemma ClaimKeepsLocks(s: State, st: Stage)
    requires LockInv(s) && ClaimsInv(s) && s.locks.Get(st).Fetched?
    ensures LockInv(ApplyClaim(s, st))
  {
  }

  /** A job that has not started has no goroutine. */
  ghost predicate QueuedInv(s: State) {
    forall c :: c in s.claims && s.claims[c].pc == Queued ==> s.claims[c].exec == NotStarted
  }

  lemma StepKeepsQueued(cfg: Config, s: State, step: Step)
    requires QueuedInv(s) && Enabled(cfg, s, step)
    ensures QueuedInv(Apply(cfg, s, step))
  {
  }

  lemma StepKeepsLocks(cfg: Config, s: State, step: Step)
    requires LockInv(s) && QueuedInv(s) && ClaimsInv(s) && Enabled(cfg, s, step)
    ensures LockInv(Apply(cfg, s, step))
  {
    match step
    case ClaimFetched(st) => ClaimKeepsLocks(s, st);
    case Job(c, j) => JobKeepsLocks(cfg, s, c, j);
    case Exec(c, e) => ExecKeepsLocks(s, c, e);
    case Release(r) => ReleaseKeepsLocks(s, r);
    case _ =>
  }

  lemma {:induction false} RunKeepsLocks(cfg: Config, states: seq<State>, steps: seq<Step>, n: nat)
    requires IsRun(cfg, states, steps) && n <= |steps|
    ensures LockInv(states[n]) && QueuedInv(states[n])
  {
    if n > 0 {
      RunKeepsLocks(cfg, states, steps, n - 1);
      RunKeepsInv(cfg, states, steps, n - 1);
      StepKeepsQueued(cfg, states[n - 1], steps[n - 1]);
      StepKeepsLocks(cfg, states[n - 1], steps[n - 1]);
    }
  }

  /** At every moment of every run whoever is giving up the flag is entitled to: the idle poller, which holds
      no fetched task, or the goroutine of a training on its way out. */
  lemma ReleaserIsEntitled(cfg: Config, states: seq<State>, steps: seq<Step>, n: nat)
    requires IsRun(cfg, states, steps) && n <= |steps|
    ensures var s := states[n];
            IsReleasing(s.locks.executor) ==>
              match s.locks.executor.Who()
              case Poller => s.pollerReleasing
              case Goroutine(c) => c in s.claims && s.claims[c].stage == Executor && s.claims[c].exec.Leaving?
  {
    RunKeepsLocks(cfg, states, steps, n);
  }

  // ----- mutual exclusion

  predicate SameHolder(a: Lock, b: Lock) {
    if a.Fetched? then b == a else IsReleasing(b) && b.Who() == a.Who()
  }

  lemma StepRespectsMutex(cfg: Config, s: State, step: Step, st: Stage)
    requires Enabled(cfg, s, step) && s.locks.Get(st) != Unlocked
    ensures var l := Apply(cfg, s, step).locks.Get(st); l == Unlocked || SameHolder(s.locks.Get(st), l)
  {
  }

  /** A mutex that is held stays with its holder, and a fetched task with its poller, until it is let go. */
  lemma HolderKeepsMutex(cfg: Config, states: seq<State>, steps: seq<Step>, n: nat, st: Stage)
    requires IsRun(cfg, states, steps) && n < |steps| && states[n].locks.Get(st) != Unlocked
    ensures var l := states[n + 1].locks.Get(st); l == Unlocked || SameHolder(states[n].locks.Get(st), l)
  {
    StepRespectsMutex(cfg, states[n], steps[n], st);
  }

  /** The poller starts to give up the flag only when no task is set up. */
  lemma PollerReleasesWhenIdle(cfg: Config, states: seq<State>, steps: seq<Step>, n: nat)
    requires IsRun(cfg, states, steps) && n < |steps| && !states[n].pollerReleasing && states[n + 1].pollerReleasing
    ensures states[n].locks.executor == Unlocked
    ensures forall id :: id in states[n].tasks ==> states[n].tasks[id].progress != SetUp
  {
    NothingInState(states[n].tasks, SetUp);
  }

  lemma NothingInState(t: Table, p: Progress)
    ensures InState(t, p) == {} ==> forall id :: id in t ==> t[id].progress != p
  {
    if id :| id in t && t[id].progress == p {
      assert id in InState(t, p);
    }
  }

  // ----- the flag

  /** The step sets the flag, for a training that has read it as unset. */
  predicate SetsFlag(s: State, step: Step) {
    && step.Exec? && step.exec == SetOccupied && step.c in s.claims
    && s.claims[step.c].stage == Executor && s.claims[step.c].exec == Setting
  }

  /** The step clears the flag: a restart, or someone entitled to give it up while no task trains. */
  ghost predicate ClearsFlag(s: State, step: Step) {
    || step == Restart
    || (step == Release(ClearFlag) && MayRelease(s, s.locks.executor.Who())
        && forall id :: id in s.tasks ==> s.tasks[id].progress != Training)
  }

  lemma StepChangesFlag(cfg: Config, s: State, step: Step)
    requires LockInv(s) && FlagInv(s) && Enabled(cfg, s, step) && Apply(cfg, s, step).occupied != s.occupied
    ensures if s.occupied then ClearsFlag(s, step) else SetsFlag(s, step)
  {
    NothingInState(s.tasks, Training);
  }

  /** The flag is set only by a training that has read it as unset, and cleared only by someone entitled to,
      while no task trains, or by a restart. */
  lemma FlagChangesOnlyBy(cfg: Config, states: seq<State>, steps: seq<Step>, n: nat)
    requires IsRun(cfg, states, steps) && n < |steps| && states[n + 1].occupied != states[n].occupied
    ensures if states[n].occupied then ClearsFlag(states[n], steps[n]) else SetsFlag(states[n], steps[n])
  {
    RunKeepsLocks(cfg, states, steps, n);
    RunKeepsInv(cfg, states, steps, n);
    StepChangesFlag(cfg, states[n], steps[n]);
  }

  // ----- advancing

  lemma StepAdvances(cfg: Config, s: State, step: Step, id: TaskId, st: Stage)
    requires ClaimsInv(s) && TickInv(cfg, s) && Enabled(cfg, s, step)
    requires Matches(s.tasks, id, st.Intermediate()) && Matches(Apply(cfg, s, step).tasks, id, st.Final())
    ensures step.Job? && step.job == Complete && step.c in s.claims && s.claims[step.c].id == id
    ensures s.claims[step.c].stage == st && s.claims[step.c].pc == Running && s.claims[step.c].exec == Exited(true)
  {
    if step.Settle? {
      TickTableEffect(cfg, s, step.tick);
    }
  }

  /** A task advances to the next stage only when the goroutine of its own claim, of this stage, has returned
      without an error. */
  lemma AdvancesOnlyWhenDone(cfg: Config, states: seq<State>, steps: seq<Step>, n: nat, id: TaskId, st: Stage)
    requires IsRun(cfg, states, steps) && n < |steps|
    requires Matches(states[n].tasks, id, st.Intermediate()) && Matches(states[n + 1].tasks, id, st.Final())
    ensures exists c :: && steps[n] == Job(c, Complete) && Owns(states[n].claims, c, id)
                        && states[n].claims[c].stage == st && states[n].claims[c].exec == Exited(true)
  {
    RunKeepsInv(cfg, states, steps, n);
    StepAdvances(cfg, states[n], steps[n], id, st);
    assert Owns(states[n].claims, steps[n].c, id);
  }
}
