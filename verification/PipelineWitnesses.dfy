/** Runs of the pipeline, step by step: one task all the way through, a task that was paid for and yet
  fails, and a cancellation that hits another task than the one it names. */
module PipelineWitnesses {
  import opened Options
  import opened TaskTable
  import opened Pipeline
  import opened PipelineInvariants
  import opened PipelineRuns

  lemma Extend(cfg: Config, states: seq<State>, steps: seq<Step>, step: Step)
    returns (states': seq<State>, steps': seq<Step>)
    requires IsRun(cfg, states, steps) && Enabled(cfg, states[|steps|], step)
    ensures IsRun(cfg, states', steps') && steps' == steps + [step]
    ensures states' == states + [Apply(cfg, states[|steps|], step)]
  {
    states', steps' := states + [Apply(cfg, states[|steps|], step)], steps + [step];
  }

  // ----- one task on its way

  function TaskAt(p: Progress): Task {
    Task("user", 0, p, 0, 0, 0, 0)
  }

  /** No component but the pool is at work, and nothing has been paid for. */
  predicate Quiet(s: State) {
    && s.locks == Locks(Unlocked, Unlocked, Unlocked) && !s.pollerReleasing
    && s.creator == Idle && s.settlement == Waiting && s.paid == []
  }

  /** Task 0, the only one, is where it is; every claim so far is over. */
  ghost predicate Ready(s: State, p: Progress) {
    && Quiet(s) && s.tasks == map[0 := TaskAt(p)]
    && forall e :: e in s.claims ==> e < s.nextClaim && s.claims[e].pc == Resolved
  }

  /** Task 0 is held by claim `c`, the only one that is not over. */
  ghost predicate Held(s: State, c: ClaimId, st: Stage, pc: WorkerPc, exec: ExecPc) {
    && Quiet(s) && s.tasks == map[0 := TaskAt(st.Intermediate())]
    && c in s.claims && s.claims[c] == Claim(st, 0, 0, pc, exec)
    && forall e :: e in s.claims ==> e < s.nextClaim && (e != c ==> s.claims[e].pc == Resolved)
  }

  lemma Taken(s: State, st: Stage)
    requires Ready(s, st.Initial())
    ensures FetchEnabled(s, st, 0) && ApplyFetch(s, st, 0).locks.Get(st).Fetched?
    ensures Held(ApplyClaim(ApplyFetch(s, st, 0), st), s.nextClaim, st, Queued, NotStarted)
  {
  }

  lemma Started(cfg: Config, s: State, c: ClaimId, st: Stage)
    requires Held(s, c, st, Queued, NotStarted)
    ensures JobEnabled(cfg, s, c, Start) && Held(ApplyJob(cfg, s, c, Start), c, st, Running, ExecPc.Started)
  {
    assert Active(s.claims, st) == {};
  }

  lemma Advanced(s: State, c: ClaimId, st: Stage, exec: ExecPc, e: ExecStep)
    requires Held(s, c, st, Running, exec) && ExecEnabled(s, c, e)
    ensures Held(ApplyExec(s, c, e), c, st, Running, NextExec(s, s.claims[c], e))
  {
  }

  lemma Left(s: State, c: ClaimId)
    requires Held(s, c, Executor, Running, Leaving(true))
    ensures ReleaseEnabled(s, Enter(Goroutine(c)))
    ensures var s' := ApplyRelease(s, Enter(Goroutine(c)));
            ReleaseEnabled(s', CountPending) && Held(ApplyRelease(s', CountPending), c, Executor, Running, Exited(true))
  {
    assert 0 in Pending(s.tasks);
  }

  lemma Completed(cfg: Config, s: State, c: ClaimId, st: Stage)
    requires Held(s, c, st, Running, Exited(true))
    ensures JobEnabled(cfg, s, c, Complete) && Ready(ApplyJob(cfg, s, c, Complete), st.Final())
  {
  }

  /** From the claim to the start of the stage's own work. */
  lemma BeginStage(cfg: Config, states: seq<State>, steps: seq<Step>, st: Stage)
    returns (states': seq<State>, steps': seq<Step>, c: ClaimId)
    requires IsRun(cfg, states, steps) && Ready(states[|steps|], st.Initial())
    ensures IsRun(cfg, states', steps') && Held(states'[|steps'|], c, st, Running, Checked)
  {
    var s := states[|steps|];
    c := s.nextClaim;
    Taken(s, st);
    states', steps' := Extend(cfg, states, steps, Fetch(st, 0));
    states', steps' := Extend(cfg, states', steps', ClaimFetched(st));
    Started(cfg, states'[|steps'|], c, st);
    states', steps' := Extend(cfg, states', steps', Job(c, Start));
    Advanced(states'[|steps'|], c, st, ExecPc.Started, Check);
    states', steps' := Extend(cfg, states', steps', Exec(c, Check));
  }

  /** The work of a training, from the occupation of the service to its release. */
  lemma Train(cfg: Config, states: seq<State>, steps: seq<Step>, c: ClaimId)
    returns (states': seq<State>, steps': seq<Step>)
    requires IsRun(cfg, states, steps) && Held(states[|steps|], c, Executor, Running, Checked)
    ensures IsRun(cfg, states', steps') && Held(states'[|steps'|], c, Executor, Running, Exited(true))
  {
    states', steps' := states, steps;
    Advanced(states[|steps|], c, Executor, Checked, ReadOccupied);
    states', steps' := Extend(cfg, states', steps', Exec(c, ReadOccupied));
    if !states[|steps|].occupied {
      Advanced(states'[|steps'|], c, Executor, Setting, SetOccupied);
      states', steps' := Extend(cfg, states', steps', Exec(c, SetOccupied));
    }
    Advanced(states'[|steps'|], c, Executor, Inside, Body(true));
    states', steps' := Extend(cfg, states', steps', Exec(c, Body(true)));
    Left(states'[|steps'|], c);
    states', steps' := Extend(cfg, states', steps', Release(Enter(Goroutine(c))));
    states', steps' := Extend(cfg, states', steps', Release(CountPending));
  }

  lemma PassStage(cfg: Config, states: seq<State>, steps: seq<Step>, st: Stage)
    returns (states': seq<State>, steps': seq<Step>)
    requires IsRun(cfg, states, steps) && Ready(states[|steps|], st.Initial())
    ensures IsRun(cfg, states', steps') && Ready(states'[|steps'|], st.Final())
  {
    var c;
    states', steps', c := BeginStage(cfg, states, steps, st);
    if st == Executor {
      states', steps' := Train(cfg, states', steps', c);
    } else {
      Advanced(states'[|steps'|], c, st, Checked, Body(true));
      states', steps' := Extend(cfg, states', steps', Exec(c, Body(true)));
    }
    Completed(cfg, states'[|steps'|], c, st);
    states', steps' := Extend(cfg, states', steps', Job(c, Complete));
  }

  lemma CreateFirst(cfg: Config) returns (states: seq<State>, steps: seq<Step>)
    ensures IsRun(cfg, states, steps) && Ready(states[|steps|], Init)
  {
    states, steps := [InitState], [];
    assert Unfinished(InitState.tasks, "user") == {} && Pending(InitState.tasks) == {};
    states, steps := Extend(cfg, states, steps, Create(Open("user", true)));
    states, steps := Extend(cfg, states, steps, Create(CheckUser));
    states, steps := Extend(cfg, states, steps, Create(CheckQueue));
    states, steps := Extend(cfg, states, steps, Create(Insert(0, 0)));
  }

  /** Some run brings a task to the start of any stage. */
  lemma ReachStage(cfg: Config, st: Stage) returns (states: seq<State>, steps: seq<Step>)
    ensures IsRun(cfg, states, steps) && Ready(states[|steps|], st.Initial())
  {
    states, steps := CreateFirst(cfg);
    if st != Setup {
      states, steps := PassStage(cfg, states, steps, Setup);
      if st != Executor {
        states, steps := PassStage(cfg, states, steps, Executor);
      }
    }
  }

  // ----- paid for, and failed

  ghost predicate InTick(s: State, phase: Phase, todo: seq<TaskId>, timeouts: seq<TaskId>) {
    s.tasks == map[0 := TaskAt(Delivered)] && s.settlement == Tick(phase, todo, timeouts, 0, false) && s.paid == []
  }

  lemma TickBegins(cfg: Config, s: State)
    requires Ready(s, Delivered)
    ensures TickEnabled(s, Begin([0])) && InTick(ApplyTick(cfg, s, Begin([0])), Acking, [0], [])
  {
    assert Lists(s.tasks, Delivered, [0]);
  }

  lemma TickOverdue(cfg: Config, s: State)
    requires InTick(s, Acking, [0], [])
    ensures TickEnabled(s, Ack(AckTimedOut)) && InTick(ApplyTick(cfg, s, Ack(AckTimedOut)), Acking, [], [0])
  {
  }

  lemma TickListsNone(cfg: Config, s: State)
    requires InTick(s, Acking, [], [0])
    ensures TickEnabled(s, ListAcknowledged([])) && InTick(ApplyTick(cfg, s, ListAcknowledged([])), Settling, [], [0])
  {
    assert Lists(s.tasks, UserAcknowledged, []);
  }

  lemma TickTakes(cfg: Config, s: State)
    requires InTick(s, Settling, [], [0]) && cfg.settlementBatchSize > 0
    ensures TickEnabled(s, TakeTimeouts) && InTick(ApplyTick(cfg, s, TakeTimeouts), TimingOut, [0], [])
  {
  }

  /** The task is delivered, overdue, and in the list of the ticker. */
  lemma ComeToPay(cfg: Config) returns (states: seq<State>, steps: seq<Step>)
    requires cfg.settlementBatchSize > 0
    ensures IsRun(cfg, states, steps) && InTick(states[|steps|], TimingOut, [0], [])
  {
    states, steps := ReachStage(cfg, Finalizer);
    states, steps := PassStage(cfg, states, steps, Finalizer);
    TickBegins(cfg, states[|steps|]);
    states, steps := Extend(cfg, states, steps, Settle(Begin([0])));
    TickOverdue(cfg, states[|steps|]);
    states, steps := Extend(cfg, states, steps, Settle(Ack(AckTimedOut)));
    TickListsNone(cfg, states[|steps|]);
    states, steps := Extend(cfg, states, steps, Settle(ListAcknowledged([])));
    TickTakes(cfg, states[|steps|]);
    states, steps := Extend(cfg, states, steps, Settle(TakeTimeouts));
  }

  /** A payment, and the process restarts before it is recorded. */
  lemma PaidTaskCanFail(cfg: Config) returns (states: seq<State>, steps: seq<Step>)
    requires cfg.settlementBatchSize > 0
    ensures IsRun(cfg, states, steps) && PaidButFailed(states[|steps|], 0)
  {
    states, steps := ComeToPay(cfg);
    states, steps := Extend(cfg, states, steps, Settle(Pay));
    assert 0 in states[|steps|].paid && states[|steps|].tasks == map[0 := TaskAt(Delivered)];
    states, steps := Extend(cfg, states, steps, Step.Restart);
  }

  lemma NoBatchNoPayStep(cfg: Config, s: State, step: Step)
    requires TickInv(cfg, s) && Enabled(cfg, s, step) && cfg.settlementBatchSize == 0
    ensures Apply(cfg, s, step).paid == s.paid
  {
  }

  lemma NoBatchNoPayNext(cfg: Config, states: seq<State>, steps: seq<Step>, n: nat)
    requires IsRun(cfg, states, steps) && n < |steps| && cfg.settlementBatchSize == 0
    ensures states[n + 1].paid == states[n].paid
  {
    RunKeepsInv(cfg, states, steps, n);
    NoBatchNoPayStep(cfg, states[n], steps[n]);
  }

  lemma {:induction false} NoBatchNoPayment(cfg: Config, states: seq<State>, steps: seq<Step>, n: nat)
    requires IsRun(cfg, states, steps) && n <= |steps| && cfg.settlementBatchSize == 0
    ensures states[n].paid == []
  {
    if n > 0 {
      NoBatchNoPayment(cfg, states, steps, n - 1);
      NoBatchNoPayNext(cfg, states, steps, n - 1);
    }
  }

  /** A task that was paid for can end as failed exactly when the ticker settles anything at all. */
  lemma PaidTaskCanFailIff(cfg: Config)
    ensures (exists states, steps, id :: IsRun(cfg, states, steps) && PaidButFailed(states[|steps|], id))
       <==> cfg.settlementBatchSize > 0
  {
    if cfg.settlementBatchSize > 0 {
      var states, steps := PaidTaskCanFail(cfg);
    } else {
      forall states, steps, id | IsRun(cfg, states, steps)
        ensures !PaidButFailed(states[|steps|], id)
      {
        NoBatchNoPayment(cfg, states, steps, |steps|);
      }
    }
  }

  // ----- cancelling one task, hitting another

  lemma CreateAnother(cfg: Config, states: seq<State>, steps: seq<Step>)
    returns (states': seq<State>, steps': seq<Step>)
    requires IsRun(cfg, states, steps) && Ready(states[|steps|], Failed)
    ensures IsRun(cfg, states', steps')
    ensures states'[|steps'|].tasks == map[0 := TaskAt(Failed), 1 := Task("user", 1, Init, 0, 0, 0, 0)]
  {
    var t := states[|steps|].tasks;
    assert Unfinished(t, "user") == {} && Pending(t) == {};
    states', steps' := Extend(cfg, states, steps, Create(Open("user", true)));
    states', steps' := Extend(cfg, states', steps', Create(CheckUser));
    states', steps' := Extend(cfg, states', steps', Create(CheckQueue));
    states', steps' := Extend(cfg, states', steps', Create(Insert(1, 1)));
  }

  /** A user cancels task 0, creates task 1, and sends the cancellation of task 0 once more: it is
      task 1 that fails. */
  lemma CancelCanHitAnotherTask(cfg: Config) returns (states: seq<State>, steps: seq<Step>)
    ensures IsRun(cfg, states, steps)
    ensures var t := states[|steps|].tasks;
            && 0 in t && 1 in t && t[0].user == t[1].user == "user"
            && Cancel(t, "user")[0] == t[0] && t[1].progress == Init && Cancel(t, "user")[1].progress == Failed
  {
    states, steps := CreateFirst(cfg);
    states, steps := Extend(cfg, states, steps, CancelBy("user"));
    states, steps := CreateAnother(cfg, states, steps);
  }
}
