/** What holds in every run of the pipeline, whatever the interleaving. */
module PipelineRuns {
  import opened TaskTable
  import opened Pipeline
  import opened PipelineInvariants

  ghost predicate IsPath(cfg: Config, states: seq<State>, steps: seq<Step>) {
    && |states| == |steps| + 1
    && forall i :: 0 <= i < |steps| ==>
         Enabled(cfg, states[i], steps[i]) && states[i + 1] == Apply(cfg, states[i], steps[i])
  }

  /** A run starts with an empty table. */
  ghost predicate IsRun(cfg: Config, states: seq<State>, steps: seq<Step>) {
    IsPath(cfg, states, steps) && states[0] == InitState
  }

  lemma {:induction false} RunKeepsInv(cfg: Config, states: seq<State>, steps: seq<Step>, n: nat)
    requires IsRun(cfg, states, steps) && n <= |steps|
    ensures Inv(cfg, states[n])
  {
    if n == 0 {
      InitEstablishes(cfg);
    } else {
      RunKeepsInv(cfg, states, steps, n - 1);
      StepKeepsInv(cfg, states[n - 1], steps[n - 1]);
    }
  }

  // ----- one unfinished task per user

  lemma OneUnfinishedPerUser(cfg: Config, states: seq<State>, steps: seq<Step>, n: nat, user: User)
    requires IsRun(cfg, states, steps) && n <= |steps|
    ensures |Unfinished(states[n].tasks, user)| <= 1
  {
    RunKeepsInv(cfg, states, steps, n);
    var open := Unfinished(states[n].tasks, user);
    if open != {} {
      var id :| id in open;
      assert open == {id};
    }
  }

  function ChangedRows(t: Table, t': Table): set<TaskId>
    requires t'.Keys == t.Keys
  {
    set id | id in t && t'[id] != t[id]
  }

  /** Although it filters by user and not by identifier, a cancellation changes at most one row. */
  lemma CancelChangesAtMostOneRow(cfg: Config, states: seq<State>, steps: seq<Step>, n: nat, user: User)
    requires IsRun(cfg, states, steps) && n <= |steps|
    ensures |ChangedRows(states[n].tasks, Cancel(states[n].tasks, user))| <= 1
  {
    var t := states[n].tasks;
    assert ChangedRows(t, Cancel(t, user)) <= Unfinished(t, user);
    SubsetCard(ChangedRows(t, Cancel(t, user)), Unfinished(t, user));
    OneUnfinishedPerUser(cfg, states, steps, n, user);
  }

  /** The queue never holds more than one task above its configured size. */
  lemma PendingIsBounded(cfg: Config, states: seq<State>, steps: seq<Step>, n: nat)
    requires IsRun(cfg, states, steps) && n <= |steps|
    ensures |Pending(states[n].tasks)| <= cfg.maxTaskQueueSize + 1
  {
    RunKeepsInv(cfg, states, steps, n);
  }

  // ----- progress

  /** No row is ever lost or reassigned, and each step moves it along an edge of the pipeline. */
  lemma ProgressMovesAlongEdges(cfg: Config, states: seq<State>, steps: seq<Step>, n: nat, id: TaskId)
    requires IsRun(cfg, states, steps) && n < |steps| && id in states[n].tasks
    ensures id in states[n + 1].tasks && RowEvolves(states[n].tasks[id], states[n + 1].tasks[id])
  {
    RunKeepsInv(cfg, states, steps, n);
    if !Inserts(steps[n]) {
      StepEvolves(cfg, states[n], steps[n]);
    }
  }

  /** `Failed` and `Finished` are never left, although `UpdateTask` guards only the former. */
  lemma {:induction false} FinalIsForever(cfg: Config, states: seq<State>, steps: seq<Step>, i: nat, j: nat, id: TaskId)
    requires IsRun(cfg, states, steps) && i <= j <= |steps|
    requires id in states[i].tasks && IsFinal(states[i].tasks[id].progress)
    ensures id in states[j].tasks && states[j].tasks[id].progress == states[i].tasks[id].progress
  {
    if i < j {
      FinalIsForever(cfg, states, steps, i, j - 1, id);
      ProgressMovesAlongEdges(cfg, states, steps, j - 1, id);
    }
  }

  /** A cancellation wins over everything that was under way: the task is failed from then on,
      also when a worker already owns it. */
  lemma CancelWins(cfg: Config, states: seq<State>, steps: seq<Step>, i: nat, j: nat, id: TaskId)
    requires IsRun(cfg, states, steps) && i < j <= |steps| && id in states[i].tasks
    requires steps[i] == CancelBy(states[i].tasks[id].user)
    requires states[i].tasks[id].progress in {Init, SettingUp, SetUp}
    ensures id in states[j].tasks && states[j].tasks[id].progress == Failed
  {
    assert Cancellable(states[i].tasks[id], states[i].tasks[id].user);
    FinalIsForever(cfg, states, steps, i + 1, j, id);
  }

  // ----- owners

  /** A task in an intermediate state has exactly one live claim, and that claim is of its stage. */
  lemma ExactlyOneOwner(cfg: Config, states: seq<State>, steps: seq<Step>, n: nat, id: TaskId)
    requires IsRun(cfg, states, steps) && n <= |steps|
    requires id in states[n].tasks && IsIntermediate(states[n].tasks[id].progress)
    ensures exists c :: && Owns(states[n].claims, c, id)
                        && states[n].claims[c].stage.Intermediate() == states[n].tasks[id].progress
                        && forall d :: Owns(states[n].claims, d, id) ==> d == c
  {
    RunKeepsInv(cfg, states, steps, n);
    var c :| Owns(states[n].claims, c, id);
    assert ClaimOk(states[n].tasks, states[n].claims[c]);
    forall d | Owns(states[n].claims, d, id)
      ensures d == c
    {
    }
  }

  /** The step is the one that takes task `id` from its owner. */
  predicate Resolves(s: State, step: Step, s': State, id: TaskId)
    requires id in s.tasks
  {
    || step == Restart
    || (step == CancelBy(s.tasks[id].user) && s.tasks[id].progress == SettingUp)
    || (step.Job? && Owns(s.claims, step.c, id) && !Owns(s'.claims, step.c, id))
  }

  lemma JobTouchesOwnTask(cfg: Config, s: State, c: ClaimId, j: JobStep, id: TaskId)
    requires ClaimsInv(s) && JobEnabled(cfg, s, c, j) && id in s.tasks && id in ApplyJob(cfg, s, c, j).tasks
    requires ApplyJob(cfg, s, c, j).tasks[id].progress != s.tasks[id].progress
    ensures Owns(s.claims, c, id) && !Owns(ApplyJob(cfg, s, c, j).claims, c, id)
  {
  }

  lemma StepResolves(cfg: Config, s: State, step: Step, id: TaskId)
    requires ClaimsInv(s) && TickInv(cfg, s) && Enabled(cfg, s, step)
    requires id in s.tasks && IsIntermediate(s.tasks[id].progress)
    requires id in Apply(cfg, s, step).tasks && Apply(cfg, s, step).tasks[id].progress != s.tasks[id].progress
    ensures Resolves(s, step, Apply(cfg, s, step), id)
  {
    match step
    case Job(c, j) => JobTouchesOwnTask(cfg, s, c, j, id);
    case Settle(k) => TickTableEffect(cfg, s, k);
    case _ =>
  }

  /** Only the owner moves a task out of an intermediate state, apart from a cancellation by its
      user during setup and a restart; and the owner's claim ends with it. */
  lemma OnlyOwnerResolves(cfg: Config, states: seq<State>, steps: seq<Step>, n: nat, id: TaskId)
    requires IsRun(cfg, states, steps) && n < |steps|
    requires id in states[n].tasks && IsIntermediate(states[n].tasks[id].progress)
    requires id in states[n + 1].tasks && states[n + 1].tasks[id].progress != states[n].tasks[id].progress
    ensures Resolves(states[n], steps[n], states[n + 1], id)
  {
    RunKeepsInv(cfg, states, steps, n);
    StepResolves(cfg, states[n], steps[n], id);
  }

  /** A claim that has been resolved never works on its task again. */
  lemma {:induction false} ClaimResolvesOnce(cfg: Config, states: seq<State>, steps: seq<Step>, i: nat, j: nat,
        c: ClaimId)
    requires IsRun(cfg, states, steps) && i <= j <= |steps|
    requires c < states[i].nextClaim && !(c in states[i].claims && Live(states[i].claims[c]))
    ensures c < states[j].nextClaim && !(c in states[j].claims && Live(states[j].claims[c]))
  {
    if i < j {
      ClaimResolvesOnce(cfg, states, steps, i, j - 1, c);
      ResolvedStays(cfg, states[j - 1], steps[j - 1], c);
    }
  }

  lemma ResolvedStays(cfg: Config, s: State, step: Step, c: ClaimId)
    requires Enabled(cfg, s, step)
    requires c < s.nextClaim && !(c in s.claims && Live(s.claims[c]))
    ensures var s' := Apply(cfg, s, step); c < s'.nextClaim && !(c in s'.claims && Live(s'.claims[c]))
  {
    if !step.Job? && !step.ClaimFetched? && !step.Restart? {
      OtherStepsKeepJobs(cfg, s, step);
    }
  }

  // ----- the on-chain flag

  /** While a task trains and its goroutine is past `OccupyService(true)`, the flag is set. */
  lemma OccupiedWhileTraining(cfg: Config, states: seq<State>, steps: seq<Step>, n: nat, c: ClaimId)
    requires IsRun(cfg, states, steps) && n <= |steps|
    requires TrainsOccupied(states[n], c)
    ensures states[n].occupied
  {
    RunKeepsInv(cfg, states, steps, n);
  }

  // ----- the worker pools

  /** Only the start of a job adds to the jobs under way. */
  lemma OthersStartNothing(cfg: Config, s: State, step: Step, st: Stage)
    requires Enabled(cfg, s, step) && !(step.Job? && step.job.Start? && s.claims[step.c].stage == st)
    ensures Active(Apply(cfg, s, step).claims, st) <= Active(s.claims, st)
  {
    if !step.Job? && !step.ClaimFetched? && !step.Restart? {
      OtherStepsKeepJobs(cfg, s, step);
    }
  }

  lemma StartIsWithinPool(cfg: Config, s: State, c: ClaimId)
    requires JobEnabled(cfg, s, c, Start)
    ensures |Active(ApplyJob(cfg, s, c, Start).claims, s.claims[c].stage)| <= cfg.Workers(s.claims[c].stage)
  {
    var st := s.claims[c].stage;
    var after := Active(ApplyJob(cfg, s, c, Start).claims, st);
    assert after <= Active(s.claims, st) + {c};
    SubsetCard(after, Active(s.claims, st) + {c});
  }

  lemma StepKeepsPools(cfg: Config, s: State, step: Step, st: Stage)
    requires Enabled(cfg, s, step) && |Active(s.claims, st)| <= cfg.Workers(st)
    ensures |Active(Apply(cfg, s, step).claims, st)| <= cfg.Workers(st)
  {
    if step.Job? && step.job.Start? && s.claims[step.c].stage == st {
      StartIsWithinPool(cfg, s, step.c);
    } else {
      OthersStartNothing(cfg, s, step, st);
      SubsetCard(Active(Apply(cfg, s, step).claims, st), Active(s.claims, st));
    }
  }

  /** A stage never has more jobs under way than its pool has workers; a pool configured with none has
      one. */
  lemma {:induction false} PoolIsBounded(cfg: Config, states: seq<State>, steps: seq<Step>, n: nat, st: Stage)
    requires IsRun(cfg, states, steps) && n <= |steps|
    ensures var size := match st case Setup => cfg.setupWorkers case Executor => cfg.trainingWorkers
                                 case Finalizer => cfg.finalizerWorkers;
            |set c | c in states[n].claims && states[n].claims[c].stage == st
                     && states[n].claims[c].pc in {Running, Failing, Bumping}| <= if size == 0 then 1 else size
  {
    var claims := states[n].claims;
    ActiveJobs(claims, st);
    if n == 0 {
      assert Active(claims, st) == {};
    } else {
      PoolIsBounded(cfg, states, steps, n - 1, st);
      ActiveJobs(states[n - 1].claims, st);
      StepKeepsPools(cfg, states[n - 1], steps[n - 1], st);
    }
  }

  lemma ActiveJobs(claims: map<ClaimId, Claim>, st: Stage)
    ensures Active(claims, st)
         == set c | c in claims && claims[c].stage == st && claims[c].pc in {Running, Failing, Bumping}
  {
  }

  // ----- settlement

  predicate Pays(s: State, step: Step, id: TaskId) {
    step == Settle(Pay) && s.settlement.Tick? && s.settlement.todo != [] && s.settlement.todo[0] == id
  }

  function TimesPaid(states: seq<State>, steps: seq<Step>, n: nat, id: TaskId): nat
    requires n <= |steps| && n <= |states|
  {
    if n == 0 then 0
    else TimesPaid(states, steps, n - 1, id) + if Pays(states[n - 1], steps[n - 1], id) then 1 else 0
  }

  lemma PayLogged(cfg: Config, s: State, step: Step, id: TaskId)
    requires Enabled(cfg, s, step)
    ensures multiset(Apply(cfg, s, step).paid)[id] == multiset(s.paid)[id] + if Pays(s, step, id) then 1 else 0
  {
  }

  /** The log of payments holds exactly the payments made. */
  lemma {:induction false} PaidCounts(cfg: Config, states: seq<State>, steps: seq<Step>, n: nat, id: TaskId)
    requires IsRun(cfg, states, steps) && n <= |steps|
    ensures multiset(states[n].paid)[id] == TimesPaid(states, steps, n, id)
  {
    if n > 0 {
      PaidCounts(cfg, states, steps, n - 1, id);
      PayLogged(cfg, states[n - 1], steps[n - 1], id);
    }
  }

  /** No task is paid for twice, in one tick or in different ones; a finished task has been paid
      for once; and whatever has been paid for is finished, about to be recorded as such, or was
      hit by a restart. */
  lemma PaidExactlyOnce(cfg: Config, states: seq<State>, steps: seq<Step>, n: nat, id: TaskId)
    requires IsRun(cfg, states, steps) && n <= |steps|
    ensures TimesPaid(states, steps, n, id) <= 1
    ensures Matches(states[n].tasks, id, Finished) ==> TimesPaid(states, steps, n, id) == 1
    ensures TimesPaid(states, steps, n, id) == 1 ==>
              || Matches(states[n].tasks, id, Finished)
              || id in InFlight(states[n])
              || exists i :: 0 <= i < n && steps[i] == Restart && id in InFlight(states[i])
  {
    RunKeepsInv(cfg, states, steps, n);
    PaidCounts(cfg, states, steps, n, id);
    DistinctCount(states[n].paid, id);
    if PaidButFailed(states[n], id) {
      PaidFailsOnlyByRestart(cfg, states, steps, n, id);
    }
  }

  lemma {:induction false} DistinctCount(ids: seq<TaskId>, id: TaskId)
    requires Distinct(ids)
    ensures multiset(ids)[id] == if id in ids then 1 else 0
  {
    if ids != [] {
      var last := |ids| - 1;
      assert ids == ids[..last] + [ids[last]];
      DistinctCount(ids[..last], id);
    }
  }

  predicate PaidButFailed(s: State, id: TaskId) {
    id in s.paid && id in s.tasks && s.tasks[id].progress == Failed
  }

  lemma TickFailsNoPaid(cfg: Config, s: State, k: TickStep, id: TaskId)
    requires TickInv(cfg, s) && PaidInv(s) && TickEnabled(s, k) && !PaidButFailed(s, id)
    ensures !PaidButFailed(ApplyTick(cfg, s, k), id)
  {
    TickTableEffect(cfg, s, k);
    if OnHead(k) { HeadState(cfg, s); }
  }

  lemma WorkFailsNoPaid(s: State, s': State, id: TaskId)
    requires PaidInv(s) && KeepsSettled(s.tasks, s'.tasks) && s'.paid == s.paid && !PaidButFailed(s, id)
    requires id in InFlight(s) ==> Matches(s.tasks, id, Delivered) || Matches(s.tasks, id, UserAcknowledged)
    ensures !PaidButFailed(s', id)
  {
  }

  lemma PaidFailsStep(cfg: Config, s: State, step: Step, id: TaskId)
    requires Inv(cfg, s) && Enabled(cfg, s, step) && !PaidButFailed(s, id) && PaidButFailed(Apply(cfg, s, step), id)
    ensures step == Restart && id in InFlight(s)
  {
    if step.Settle? {
      TickFailsNoPaid(cfg, s, step.tick, id);
    } else if step != Restart {
      WorkKeepsSettled(cfg, s, step);
      if id in InFlight(s) { HeadState(cfg, s); }
      WorkFailsNoPaid(s, Apply(cfg, s, step), id);
    }
  }

  /** A task that was paid for and yet failed was in flight when the process restarted. */
  lemma {:induction false} PaidFailsOnlyByRestart(cfg: Config, states: seq<State>, steps: seq<Step>, n: nat, id: TaskId)
    requires IsRun(cfg, states, steps) && n <= |steps| && PaidButFailed(states[n], id)
    ensures exists i :: 0 <= i < n && steps[i] == Restart && id in InFlight(states[i])
  {
    if n > 0 {
      if PaidButFailed(states[n - 1], id) {
        PaidFailsOnlyByRestart(cfg, states, steps, n - 1, id);
      } else {
        RunKeepsInv(cfg, states, steps, n - 1);
        PaidFailsStep(cfg, states[n - 1], steps[n - 1], id);
      }
    }
  }

  lemma {:induction false} PaidForGood(cfg: Config, states: seq<State>, steps: seq<Step>, i: nat, j: nat, id: TaskId)
    requires IsRun(cfg, states, steps) && i <= j <= |steps| && id in states[i].paid
    ensures id in states[j].paid
  {
    if i < j {
      PaidForGood(cfg, states, steps, i, j - 1, id);
    }
  }

  lemma RestartFailsPaid(cfg: Config, states: seq<State>, steps: seq<Step>, i: nat, n: nat, id: TaskId)
    requires IsRun(cfg, states, steps) && i < n <= |steps| && steps[i] == Restart && id in InFlight(states[i])
    ensures PaidButFailed(states[n], id)
  {
    RunKeepsInv(cfg, states, steps, i);
    HeadState(cfg, states[i]);
    FinalIsForever(cfg, states, steps, i + 1, n, id);
    PaidForGood(cfg, states, steps, i, n, id);
  }

  /** A task that was paid for has failed exactly when the process restarted between its payment and
      the record of it. */
  lemma PaidFailsIff(cfg: Config, states: seq<State>, steps: seq<Step>, n: nat, id: TaskId)
    requires IsRun(cfg, states, steps) && n <= |steps|
    ensures PaidButFailed(states[n], id) <==> exists i :: 0 <= i < n && steps[i] == Restart && id in InFlight(states[i])
  {
    if PaidButFailed(states[n], id) {
      PaidFailsOnlyByRestart(cfg, states, steps, n, id);
    }
    if i :| 0 <= i < n && steps[i] == Restart && id in InFlight(states[i]) {
      RestartFailsPaid(cfg, states, steps, i, n, id);
    }
  }

  /** The lists a tick works through hold no task twice, and none in both: a task is never settled
      as acknowledged and as overdue. */
  lemma TickListsAreDisjoint(cfg: Config, states: seq<State>, steps: seq<Step>, n: nat)
    requires IsRun(cfg, states, steps) && n <= |steps| && states[n].settlement.Tick?
    ensures var k := states[n].settlement;
            && Distinct(k.todo) && Distinct(k.timeouts)
            && forall id :: !(id in k.todo && id in k.timeouts)
  {
    RunKeepsInv(cfg, states, steps, n);
    var k := states[n].settlement;
    forall i, j | 0 <= i < |k.todo| && 0 <= j < |k.timeouts|
      ensures k.todo[i] != k.timeouts[j]
    {
      if k.phase == Acking {
        assert (k.timeouts + k.todo)[|k.timeouts| + i] == k.todo[i] && (k.timeouts + k.todo)[j] == k.timeouts[j];
      }
    }
  }

  /** The slice bound of the ticker is never negative, a tick counts at most a batch of settled
      tasks, and the settlement retry counter never moves. */
  lemma TickStaysWithinBatch(cfg: Config, states: seq<State>, steps: seq<Step>, n: nat)
    requires IsRun(cfg, states, steps) && n <= |steps|
    ensures !states[n].panicked
    ensures states[n].settlement.Tick? ==> states[n].settlement.counter <= cfg.settlementBatchSize
    ensures forall id :: id in states[n].tasks ==> states[n].tasks[id].settlementRetries == 0
  {
    RunKeepsInv(cfg, states, steps, n);
  }
}
