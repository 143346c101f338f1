/** The components of the fine-tuning pipeline as the sequential code each of them runs between
  the others.  Every method works on the shared table and the on-chain flag, and is proved to go
  through steps of the state machine in `Pipeline` only. */
module PipelineComponents {
  import opened Options
  import opened TaskTable
  import opened Pipeline
  import opened PipelineInvariants
  import opened PipelineRuns

  // ----- what a component has done

  ghost predicate Reaches(cfg: Config, from_: State, steps: seq<Step>, to_: State) {
    exists states :: IsPath(cfg, states, steps) && states[0] == from_ && states[|steps|] == to_
  }

  lemma ReachesItself(cfg: Config, s: State)
    ensures Reaches(cfg, s, [], s)
  {
    assert IsPath(cfg, [s], []);
  }

  lemma ReachesNext(cfg: Config, from_: State, steps: seq<Step>, s: State, step: Step)
    requires Reaches(cfg, from_, steps, s) && Enabled(cfg, s, step)
    ensures Reaches(cfg, from_, steps + [step], Apply(cfg, s, step))
  {
    var states :| IsPath(cfg, states, steps) && states[0] == from_ && states[|steps|] == s;
    var states' := states + [Apply(cfg, s, step)];
    assert IsPath(cfg, states', steps + [step]);
    assert states'[0] == from_ && states'[|steps + [step]|] == Apply(cfg, s, step);
  }

  /** So a component keeps the invariant of the pipeline, and with it all that holds in every run. */
  lemma {:induction false} ReachedKeepsInv(cfg: Config, from_: State, steps: seq<Step>, to_: State)
    requires Reaches(cfg, from_, steps, to_) && Inv(cfg, from_)
    ensures Inv(cfg, to_)
  {
    var states :| IsPath(cfg, states, steps) && states[0] == from_ && states[|steps|] == to_;
    PathKeepsInv(cfg, states, steps, |steps|);
  }

  lemma {:induction false} PathKeepsInv(cfg: Config, states: seq<State>, steps: seq<Step>, n: nat)
    requires IsPath(cfg, states, steps) && Inv(cfg, states[0]) && n <= |steps|
    ensures Inv(cfg, states[n])
  {
    if n > 0 {
      PathKeepsInv(cfg, states, steps, n - 1);
      StepKeepsInv(cfg, states[n - 1], steps[n - 1]);
    }
  }

  datatype Verdict = Accepted | HasUnfinished | QueueFull | MustWait

  class Broker {
    const cfg: Config
    const db: TaskDb
    /** The occupied flag of the provider's service on chain. */
    var occupied: bool
    /** The state machine, where it started, and the steps taken since. */
    ghost const start: State
    ghost var s: State
    ghost var trace: seq<Step>

    ghost predicate Valid()
      reads this, db
    {
      db.tasks == s.tasks && occupied == s.occupied && Reaches(cfg, start, trace, s)
    }

    constructor (cfg: Config, db: TaskDb, occupied: bool, ghost start: State)
      requires start.tasks == db.tasks && start.occupied == occupied
      ensures Valid() && this.cfg == cfg && this.db == db && this.start == start && s == start && trace == []
    {
      this.cfg, this.db, this.occupied := cfg, db, occupied;
      this.start, this.s, this.trace := start, start, [];
      ReachesItself(cfg, start);
    }

    /** Notes a step of the state machine. */
    ghost method Take(step: Step)
      requires Reaches(cfg, start, trace, s) && Enabled(cfg, s, step)
      modifies this`s, this`trace
      ensures s == Apply(cfg, old(s), step) && trace == old(trace) + [step] && Reaches(cfg, start, trace, s)
    {
      ReachesNext(cfg, start, trace, s, step);
      s := Apply(cfg, s, step);
      trace := trace + [step];
    }

    ghost method TakeJob(c: ClaimId, j: JobStep)
      requires Reaches(cfg, start, trace, s) && JobEnabled(cfg, s, c, j)
      modifies this`s, this`trace
      ensures Reaches(cfg, start, trace, s)
      ensures s.tasks == JobTable(cfg, old(s).tasks, old(s).claims[c], j)
      ensures var k := old(s).claims[c];
              s.claims == old(s).claims[c := k.(pc := NextPc(cfg, old(s).tasks, k, j),
                                                exec := if j == Start then Started else k.exec)]
      ensures s.occupied == old(s).occupied && s.locks == old(s).locks
    {
      Take(Job(c, j));
    }

    ghost method TakeExec(c: ClaimId, e: ExecStep)
      requires Reaches(cfg, start, trace, s) && ExecEnabled(s, c, e)
      modifies this`s, this`trace
      ensures Reaches(cfg, start, trace, s)
      ensures s.claims == old(s).claims[c := old(s).claims[c].(exec := NextExec(old(s), old(s).claims[c], e))]
      ensures s.tasks == old(s).tasks && s.locks == old(s).locks && s.occupied == (old(s).occupied || e == SetOccupied)
    {
      Take(Exec(c, e));
    }

    ghost method TakeRelease(r: ReleaseStep)
      requires Reaches(cfg, start, trace, s) && ReleaseEnabled(s, r)
      modifies this`s, this`trace
      ensures Reaches(cfg, start, trace, s)
      ensures s.locks == old(s).locks.(executor := NextLock(old(s), r))
      ensures s.claims == if Ends(old(s), r) then Returned(old(s).claims, old(s).locks.executor.Who())
                          else old(s).claims
      ensures s.pollerReleasing ==
              (r.NoTask? || (old(s).pollerReleasing && !(Ends(old(s), r) && old(s).locks.executor.Who() == Poller)))
      ensures s.tasks == old(s).tasks && s.occupied == (old(s).occupied && !r.ClearFlag?)
    {
      Take(Release(r));
    }

    ghost method TakeCreate(k: CreateStep)
      requires Reaches(cfg, start, trace, s) && CreateEnabled(s, k)
      modifies this`s, this`trace
      ensures Reaches(cfg, start, trace, s)
      ensures s.creator == NextCreator(cfg, old(s), k) && s.occupied == old(s).occupied
      ensures s.tasks == if k.Insert?
                         then old(s).tasks[k.id := Task(old(s).creator.user, k.createdAt, Init, 0, 0, 0, 0)]
                         else old(s).tasks
    {
      Take(Create(k));
    }

    ghost method TakeTick(k: TickStep)
      requires Reaches(cfg, start, trace, s) && TickEnabled(s, k)
      modifies this`s, this`trace
      ensures Reaches(cfg, start, trace, s)
      ensures s.tasks == TickTable(cfg, old(s), k) && s.settlement == NextTick(cfg, old(s), k)
      ensures s.occupied == old(s).occupied
    {
      Take(Settle(k));
    }

    // ----- task creation

    method CreateTask(user: User, wait: bool, id: TaskId, now: nat) returns (verdict: Verdict)
      requires Valid() && s.creator == Idle && id !in db.tasks
      modifies this, db
      ensures Valid() && s.creator == Idle && occupied == old(occupied)
      ensures verdict == Accepted <==>
                && Unfinished(old(db.tasks), user) == {}
                && |Pending(old(db.tasks))| <= cfg.maxTaskQueueSize
                && (Pending(old(db.tasks)) == {} || wait)
      ensures verdict == HasUnfinished <==>
                exists k :: k in old(db.tasks) && k in Unfinished(old(db.tasks), user)
      ensures verdict == QueueFull <==>
                Unfinished(old(db.tasks), user) == {} && |Pending(old(db.tasks))| > cfg.maxTaskQueueSize
      ensures db.tasks == if verdict == Accepted then old(db.tasks)[id := Task(user, now, Init, 0, 0, 0, 0)]
                          else old(db.tasks)
    {
      TakeCreate(Open(user, wait));
      var count := db.UnFinishedTaskCount(user);
      TakeCreate(CheckUser);
      if count != 0 {
        return HasUnfinished;
      }
      var pending := db.PendingTrainingTaskCount();
      TakeCreate(CheckQueue);
      if pending > cfg.maxTaskQueueSize {
        return QueueFull;
      }
      if pending != 0 && !wait {
        return MustWait;
      }
      TakeCreate(Insert(id, now));
      var added := db.AddTask(id, Task(user, now, Init, 0, 0, 0, 0));
      verdict := Accepted;
    }

    method CancelTask(user: User) returns (ok: bool)
      requires Valid()
      modifies this, db
      ensures Valid() && occupied == old(occupied) && db.tasks == Cancel(old(db.tasks), user)
      ensures ok == exists id :: id in old(db.tasks) && Cancellable(old(db.tasks)[id], user)
    {
      Take(CancelBy(user));
      ok := db.CancelTask(user);
    }

    /** The startup: unfinished tasks are failed and the service is registered as not occupied. */
    method StartUp()
      requires Valid()
      modifies this, db
      ensures Valid() && !occupied && db.tasks == Sweep(old(db.tasks)) && s.claims == map[]
    {
      Take(Step.Restart);
      db.MarkInProgressTasksAsFailed();
      occupied := false;
    }

    // ----- the poller

    /** Claims the oldest waiting row; alone, the compare-and-swap never misses. */
    method FetchNextTask(st: Stage) returns (task: Option<TaskId>, ghost c: ClaimId)
      requires Valid() && s.locks.Get(st) == Unlocked && !s.pollerReleasing
      modifies this, db
      ensures Valid() && occupied == old(occupied) && s.locks == old(s).locks
      ensures task.None? <==> InState(old(db.tasks), st.Initial()) == {}
      ensures task.None? ==> s == old(s)
      ensures task.Some? ==>
                && Oldest(old(db.tasks), st.Initial(), task.value) && c == old(s).nextClaim
                && db.tasks == Swap(old(db.tasks), task.value, st.Initial(), st.Intermediate())
                && var retries := old(db.tasks)[task.value].Retries(st);
                   s.claims == old(s).claims[c := Claim(st, task.value, retries, Queued, NotStarted)]
    {
      task := db.GetNextTask(st.Initial());
      c := s.nextClaim;
      if task.None? {
        return;
      }
      Take(Fetch(st, task.value));
      Take(ClaimFetched(st));
      var ok := db.UpdateTaskProgress(task.value, st.Initial(), st.Intermediate());
    }

    // ----- the on-chain flag

    /** Gives the flag up unless tasks are pending or waiting in the pool; a failing count or call
        leaves it alone. */
    method ReleaseService(ghost who: Releaser, waiting: nat, countFails: bool, readFails: bool, writeFails: bool)
      requires Valid() && ReleaseEnabled(s, Enter(who))
      modifies this
      ensures Valid() && db.tasks == old(db.tasks) && s.locks.executor == Unlocked
      ensures occupied ==
              (old(occupied) && (waiting > 0 || countFails || Pending(db.tasks) != {} || readFails || writeFails))
      ensures s.claims == Returned(old(s).claims, who)
    {
      TakeRelease(Enter(who));
      if waiting > 0 || countFails {
        TakeRelease(GiveUp);
        return;
      }
      var count := db.PendingTrainingTaskCount();
      TakeRelease(CountPending);
      if count == 0 {
        OccupyServiceFalse(who, readFails, writeFails);
      }
    }

    /** The training poller found nothing to do. */
    method HandleNoTask(waiting: nat, countFails: bool, readFails: bool, writeFails: bool)
      requires Valid() && InState(db.tasks, SetUp) == {} && s.locks.executor == Unlocked && !s.pollerReleasing
      modifies this
      ensures Valid() && db.tasks == old(db.tasks)
      ensures occupied ==
              (old(occupied) && (waiting > 0 || countFails || Pending(db.tasks) != {} || readFails || writeFails))
    {
      TakeRelease(NoTask);
      ReleaseService(Poller, waiting, countFails, readFails, writeFails);
    }

    /** Reads the flag and writes it only if it differs. */
    method OccupyServiceFalse(ghost who: Releaser, readFails: bool, writeFails: bool)
      requires Valid() && s.locks.executor == NonePending(who)
      modifies this
      ensures Valid() && s.tasks == old(s).tasks && s.locks.executor == Unlocked
      ensures occupied == (old(occupied) && (readFails || writeFails))
      ensures s.claims == Returned(old(s).claims, who)
    {
      if readFails {
        TakeRelease(GiveUp);
        return;
      }
      TakeRelease(ReadFlag);
      if !occupied {
        return;
      }
      if writeFails {
        TakeRelease(GiveUp);
        return;
      }
      TakeRelease(ClearFlag);
      occupied := false;
    }

    method OccupyServiceTrue(ghost c: ClaimId, readFails: bool, writeFails: bool) returns (ok: bool)
      requires Valid() && c in s.claims && s.claims[c].exec == Checked && s.claims[c].stage == Executor
      modifies this
      ensures Valid() && s.tasks == old(s).tasks && s.locks == old(s).locks
      ensures ok == (!readFails && (old(occupied) || !writeFails))
      ensures ok ==> occupied
      ensures !ok ==> occupied == old(occupied)
      ensures s.claims == old(s).claims[c := old(s).claims[c].(exec := if ok then Inside else Aborted)]
    {
      if readFails {
        TakeExec(c, Abort);
        return false;
      }
      TakeExec(c, ReadOccupied);
      if !occupied {
        if writeFails {
          TakeExec(c, Abort);
          return false;
        }
        TakeExec(c, SetOccupied);
        occupied := true;
      }
      ok := true;
    }

    // ----- the pool job

    /** The goroutine of a claim: it checks the row, occupies the service while training, and gives
        the flag up on its way out. */
    method Execute(ghost c: ClaimId, st: Stage, id: TaskId, w: World) returns (ok: bool)
      requires Valid() && c in s.claims && s.claims[c].stage == st && s.claims[c].id == id
          && s.claims[c].exec == Started
      requires st == Executor ==> s.locks.executor == Unlocked
      modifies this
      ensures Valid() && s.tasks == old(s).tasks && c in s.claims
      ensures ok == (Matches(db.tasks, id, st.Intermediate()) && w.bodyOk
                     && (st == Executor ==> !w.readFails && (old(occupied) || !w.writeFails)))
      ensures ok ==> s.claims[c].exec == Exited(true)
      ensures occupied == Occupies(old(occupied), db.tasks, st, id, w)
      ensures s.claims == old(s).claims[c := old(s).claims[c].(exec := s.claims[c].exec)]
    {
      ok := Matches(db.tasks, id, st.Intermediate());
      TakeExec(c, Check);
      if !ok {
        return;
      }
      if st == Executor {
        ok := ExecuteTraining(c, id, w);
      } else {
        TakeExec(c, Body(w.bodyOk));
        ok := w.bodyOk;
      }
    }

    method ExecuteTraining(ghost c: ClaimId, ghost id: TaskId, w: World) returns (ok: bool)
      requires Valid() && Matches(db.tasks, id, Training) && c in s.claims && s.claims[c].exec == Checked
          && s.claims[c].stage == Executor
      requires s.locks.executor == Unlocked
      modifies this
      ensures Valid() && s.tasks == old(s).tasks && c in s.claims
      ensures ok == (w.bodyOk && !w.readFails && (old(occupied) || !w.writeFails))
      ensures occupied == Occupies(old(occupied), db.tasks, Executor, id, w)
      ensures ok ==> s.claims[c].exec == Exited(true)
      ensures s.claims == old(s).claims[c := old(s).claims[c].(exec := s.claims[c].exec)]
    {
      ok := OccupyServiceTrue(c, w.readFails, w.writeFails);
      if !ok {
        return;
      }
      TakeExec(c, Body(w.bodyOk));
      assert id in Pending(db.tasks);
      ReleaseService(Goroutine(c), w.waiting, w.countFails, w.freeReadFails, w.freeWriteFails);
      ok := w.bodyOk;
    }

    /** The pool job of a claim, from its start to the end of the claim. */
    method ProcessTask(ghost c: ClaimId, st: Stage, id: TaskId, retries: nat, run: Run)
      requires Valid() && JobEnabled(cfg, s, c, Start) && s.claims[c] == Claim(st, id, retries, Queued, NotStarted)
      requires st == Executor ==> s.locks.executor == Unlocked
      modifies this, db
      ensures Valid() && c in s.claims && s.claims[c].pc == Resolved
      ensures occupied == if run.Returns? then Occupies(old(occupied), old(db.tasks), st, id, run.world)
                          else old(occupied)
      ensures db.tasks == if Succeeds(old(db.tasks), old(occupied), st, id, run)
                          then Swap(old(db.tasks), id, st.Intermediate(), st.Final())
                          else AfterFailure(cfg, old(db.tasks), st, id, retries, run.signature)
      ensures Matches(old(db.tasks), id, st.Intermediate()) ==>
                Processed(cfg, old(db.tasks), db.tasks, old(occupied), st, id, retries, run)
    {
      FailedAttempt(cfg, db.tasks, st, id, retries, run.signature);
      TakeJob(c, Start);
      var ok := false;
      if run.Returns? {
        ok := Execute(c, st, id, run.world);
      }
      if ok {
        TakeJob(c, Complete);
        var moved := db.UpdateTaskProgress(id, st.Intermediate(), st.Final());
      } else {
        HandleTaskFailure(c, st, id, retries, run.signature);
      }
    }

    method HandleTaskFailure(ghost c: ClaimId, st: Stage, id: TaskId, retries: nat, signature: bool)
      requires Valid() && c in s.claims && s.claims[c].pc == Running
      requires s.claims[c].stage == st && s.claims[c].id == id && s.claims[c].retries == retries
      modifies this, db
      ensures Valid() && c in s.claims && s.claims[c].pc == Resolved && occupied == old(occupied)
      ensures db.tasks == AfterFailure(cfg, old(db.tasks), st, id, retries, signature)
      ensures db.tasks.Keys == old(db.tasks).Keys
      ensures forall k :: k in db.tasks && k != id ==> db.tasks[k] == old(db.tasks)[k]
      ensures id in db.tasks && signature ==> db.tasks[id] == old(db.tasks)[id].(progress := Failed)
      ensures Matches(old(db.tasks), id, st.Intermediate()) && !signature ==>
                Retried(cfg, old(db.tasks)[id], db.tasks[id], retries)
    {
      FailedAttempt(cfg, db.tasks, st, id, retries, signature);
      TakeJob(c, Fail);
      if signature {
        TakeJob(c, SignatureError);
        db.MarkTaskFailed(id);
      } else {
        HandleExecuteFailure(c, st, id, retries);
      }
    }

    method HandleExecuteFailure(ghost c: ClaimId, st: Stage, id: TaskId, retries: nat)
      requires Valid() && c in s.claims && s.claims[c].pc == Failing
      requires s.claims[c].stage == st && s.claims[c].id == id && s.claims[c].retries == retries
      modifies this, db
      ensures Valid() && c in s.claims && s.claims[c].pc == Resolved && occupied == old(occupied)
      ensures db.tasks == AfterFailure(cfg, old(db.tasks), st, id, retries, false)
    {
      var retry, ok := db.HandleFailure(id, retries, cfg.MaxRetries(st), SetRetries(st, retries + 1),
          st.Intermediate(), st.Initial());
      TakeHandling(c);
    }

    /** The steps behind the failure handler: one when the task fails or has moved, else two. */
    ghost method TakeHandling(c: ClaimId)
      requires Reaches(cfg, start, trace, s) && c in s.claims && s.claims[c].pc == Failing
      modifies this`s, this`trace
      ensures Reaches(cfg, start, trace, s) && s.occupied == old(s).occupied && c in s.claims
          && s.claims[c].pc == Resolved
      ensures var k := old(s).claims[c]; s.tasks == AfterFailure(cfg, old(s).tasks, k.stage, k.id, k.retries, false)
    {
      HandledInSteps(cfg, s.tasks, s.claims[c]);
      TakeJob(c, JobStep.HandleFailure);
      if s.claims[c].pc == Bumping {
        TakeJob(c, BumpRetries);
      }
    }

    // ----- the settlement ticker

    /** Pays for one task and records it; a payment that fails goes through the failure handler,
        whose own error decides whether the task counts as settled. */
    method TrySettle(id: TaskId, paid: bool) returns (counted: bool)
      requires Valid() && s.settlement.Tick? && s.settlement.phase != Acking && !s.settlement.paying
      requires s.settlement.todo != [] && s.settlement.todo[0] == id && id in db.tasks
      modifies this, db
      ensures Valid() && db.tasks.Keys == old(db.tasks).Keys
      ensures paid ==> db.tasks == Update(old(db.tasks), id, SetProgress(Finished))
      ensures !paid ==> db.tasks == AfterPayFails(cfg, old(db.tasks), id)
      ensures counted == (paid || PayFailsCounts(cfg, old(db.tasks), id))
      ensures var row := old(db.tasks)[id];
              !paid && row.progress != Init ==>
                && counted == (row.settlementRetries >= cfg.maxSettlementRetries)
                && db.tasks == if counted && row.progress != Failed
                               then old(db.tasks)[id := row.(progress := Failed)] else old(db.tasks)
      ensures s.settlement == old(s).settlement.(todo := old(s).settlement.todo[1..],
                                                 counter := old(s).settlement.counter + if counted then 1 else 0)
    {
      if paid {
        TakeTick(Pay);
        TakeTick(RecordPayment);
        db.UpdateTask(id, SetProgress(Finished));
        return true;
      }
      TakeTick(PayFails);
      var retries := db.tasks[id].settlementRetries;
      var retry;
      retry, counted := db.HandleFailure(id, retries, cfg.maxSettlementRetries, SetSettlementRetries(retries + 1),
          Init, Init);
    }

    /** Settles the tasks of a list one by one and counts the successes. */
    method SettleAll(ids: seq<TaskId>, pays: TaskId -> bool) returns (counted: nat)
      requires Valid() && s.settlement.Tick? && s.settlement.phase != Acking && !s.settlement.paying
      requires s.settlement.todo == ids && AllIds(db.tasks, ids)
      modifies this, db
      ensures Valid() && counted == SettleCount(cfg, old(db.tasks), ids, pays)
      ensures db.tasks == SettleTable(cfg, old(db.tasks), ids, pays)
      ensures s.settlement == old(s).settlement.(todo := [], counter := old(s).settlement.counter + counted)
    {
      counted := 0;
      for i := 0 to |ids|
        invariant Valid() && AllIds(db.tasks, ids) && counted == SettleCount(cfg, old(db.tasks), ids[..i], pays)
        invariant db.tasks == SettleTable(cfg, old(db.tasks), ids[..i], pays)
        invariant s.settlement == old(s).settlement.(todo := ids[i..], counter := old(s).settlement.counter + counted)
      {
        TailStep(ids, i);
        assert ids[..i + 1][..i] == ids[..i];
        var settled := TrySettle(ids[i], pays(ids[i]));
        if settled {
          counted := counted + 1;
        }
      }
      assert ids[..|ids|] == ids;
    }

    /** Acts on what the contract says of one delivered task. */
    method PollAck(id: TaskId, reply: AckReply) returns (late: bool)
      requires Valid() && s.settlement.Tick? && s.settlement.phase == Acking && !s.settlement.paying
      requires s.settlement.todo != [] && s.settlement.todo[0] == id
      modifies this, db
      ensures Valid() && late == (reply == AckTimedOut)
      ensures db.tasks == if reply == Acked then Update(old(db.tasks), id, SetProgress(UserAcknowledged))
                          else old(db.tasks)
      ensures s.settlement == old(s).settlement.(todo := old(s).settlement.todo[1..],
                                                 timeouts := old(s).settlement.timeouts + if late then [id] else [])
    {
      TakeTick(Ack(reply));
      if reply == Acked {
        db.UpdateTask(id, SetProgress(UserAcknowledged));
      }
      late := reply == AckTimedOut;
    }

    method PollAcks(delivered: seq<TaskId>, ack: TaskId -> AckReply) returns (timeouts: seq<TaskId>)
      requires Valid() && s.settlement == Tick(Acking, delivered, [], 0, false)
      requires forall id :: id in delivered ==> id in InState(db.tasks, Delivered)
      modifies this, db
      ensures Valid() && db.tasks == AckSome(old(db.tasks), delivered, ack)
      ensures timeouts == Overdue(delivered, ack) && s.settlement == Tick(Acking, [], timeouts, 0, false)
    {
      timeouts := [];
      AckNone(db.tasks, ack);
      for i := 0 to |delivered|
        invariant Valid() && db.tasks == AckSome(old(db.tasks), delivered[..i], ack)
        invariant s.settlement == Tick(Acking, delivered[i..], timeouts, 0, false)
        invariant timeouts == Overdue(delivered[..i], ack)
      {
        TailStep(delivered, i);
        AckNext(old(db.tasks), delivered, i, ack);
        var late := PollAck(delivered[i], ack(delivered[i]));
        if late {
          timeouts := timeouts + [delivered[i]];
        }
      }
      assert delivered[..|delivered|] == delivered;
    }

    /** Moves acknowledged tasks on and collects those whose acknowledgement is overdue. */
    method ProcessPendingUserAckTasks(ack: TaskId -> AckReply)
      returns (timeouts: seq<TaskId>, ghost order: seq<TaskId>)
      requires Valid() && s.settlement == Waiting
      modifies this, db
      ensures Valid() && db.tasks == AckTable(old(db.tasks), ack)
      ensures db.tasks.Keys == old(db.tasks).Keys
      ensures forall id :: id in db.tasks ==>
                var row := old(db.tasks)[id];
                db.tasks[id] == if row.progress == Delivered && ack(id) == Acked
                                then row.(progress := UserAcknowledged) else row
      ensures s.settlement == Tick(Acking, [], timeouts, 0, false)
      ensures Lists(old(db.tasks), Delivered, order) && timeouts == Overdue(order, ack)
      ensures forall id :: id in timeouts <==>
                id in old(db.tasks) && old(db.tasks)[id].progress == Delivered && ack(id) == AckTimedOut
      ensures OldestFirst(old(db.tasks), timeouts)
    {
      var delivered := db.ListTasks(Delivered);
      order := delivered;
      TakeTick(Begin(delivered));
      timeouts := PollAcks(delivered, ack);
      OverdueIsListed(delivered, ack);
      OverdueInOrder(old(db.tasks), delivered, ack);
      AckEverything(old(db.tasks), delivered, ack);
    }

    method SettleAcknowledged(ghost timeouts: seq<TaskId>, pays: TaskId -> bool)
      returns (counted: nat, ghost order: seq<TaskId>)
      requires Valid() && s.settlement == Tick(Acking, [], timeouts, 0, false)
      modifies this, db
      ensures Valid() && counted <= cfg.settlementBatchSize
      ensures counted == SettleCount(cfg, old(db.tasks), Front(order, cfg.settlementBatchSize), pays)
      ensures Lists(old(db.tasks), UserAcknowledged, order)
      ensures db.tasks == SettleTable(cfg, old(db.tasks), Front(order, cfg.settlementBatchSize), pays)
      ensures s.settlement == Tick(Settling, [], timeouts, counted, false)
    {
      var tasks := db.ListTasks(UserAcknowledged);
      order := tasks;
      assert forall i :: 0 <= i < |tasks| ==> tasks[i] in tasks;
      TakeTick(ListAcknowledged(tasks));
      if |tasks| > cfg.settlementBatchSize {
        tasks := tasks[..cfg.settlementBatchSize];
      }
      counted := SettleAll(tasks, pays);
      SettleCountIsBounded(cfg, old(db.tasks), tasks, pays);
    }

    method SettleOverdue(overdue: seq<TaskId>, counted: nat, pays: TaskId -> bool) returns (more: nat)
      requires Valid() && s.settlement == Tick(Settling, [], overdue, counted, false)
      requires AllIds(db.tasks, overdue) && counted <= cfg.settlementBatchSize
      modifies this, db
      ensures Valid() && s.settlement == Waiting && counted + more <= cfg.settlementBatchSize
      ensures more == SettleCount(cfg, old(db.tasks), Front(overdue, cfg.settlementBatchSize - counted), pays)
      ensures db.tasks == SettleTable(cfg, old(db.tasks), Front(overdue, cfg.settlementBatchSize - counted), pays)
    {
      var timeouts := overdue;
      if cfg.settlementBatchSize - counted < |timeouts| {
        timeouts := timeouts[..cfg.settlementBatchSize - counted];
      }
      TakeTick(TakeTimeouts);
      more := SettleAll(timeouts, pays);
      SettleCountIsBounded(cfg, old(db.tasks), timeouts, pays);
      TakeTick(TickStep.End);
    }

    /** One tick: acknowledged tasks first, then overdue ones while the batch has room. */
    method ProcessFinishedTasks(ack: TaskId -> AckReply, pays: TaskId -> bool)
      returns (counted: nat, ghost acked: seq<TaskId>, ghost delivered: seq<TaskId>)
      requires Valid() && s.settlement == Waiting
      modifies this, db
      ensures Valid() && s.settlement == Waiting && counted <= cfg.settlementBatchSize
      ensures Lists(old(db.tasks), Delivered, delivered)
      ensures Lists(AckTable(old(db.tasks), ack), UserAcknowledged, acked)
      ensures db.tasks == TickResult(cfg, old(db.tasks), ack, pays, acked, delivered).0
      ensures counted == TickResult(cfg, old(db.tasks), ack, pays, acked, delivered).1
    {
      var timeouts;
      timeouts, delivered := ProcessPendingUserAckTasks(ack);
      counted, acked := SettleAcknowledged(timeouts, pays);
      OverdueIsKnown(cfg, old(db.tasks), delivered, ack, Front(acked, cfg.settlementBatchSize), pays);
      ghost var first, between := counted, db.tasks;
      var more := SettleOverdue(timeouts, counted, pays);
      counted := counted + more;
      TickResultIs(cfg, old(db.tasks), ack, pays, acked, delivered, between, first, db.tasks, more);
    }
  }

  /** The tasks whose acknowledgement is overdue, in the order of the list. */
  function Overdue(ids: seq<TaskId>, ack: TaskId -> AckReply): seq<TaskId> {
    if ids == [] then []
    else
      var n := |ids| - 1;
      Overdue(ids[..n], ack) + if ack(ids[n]) == AckTimedOut then [ids[n]] else []
  }

  lemma {:induction false} OverdueIsListed(ids: seq<TaskId>, ack: TaskId -> AckReply)
    ensures forall id :: id in Overdue(ids, ack) <==> id in ids && ack(id) == AckTimedOut
    ensures Distinct(ids) ==> Distinct(Overdue(ids, ack))
  {
    if ids != [] {
      var n := |ids| - 1;
      OverdueIsListed(ids[..n], ack);
      assert ids == ids[..n] + [ids[n]];
    }
  }

  ghost predicate OldestFirst(t: Table, ids: seq<TaskId>) {
    forall i, j :: 0 <= i < j < |ids| && ids[i] in t && ids[j] in t ==> t[ids[i]].createdAt <= t[ids[j]].createdAt
  }

  lemma {:induction false} OverdueInOrder(t: Table, ids: seq<TaskId>, ack: TaskId -> AckReply)
    requires OldestFirst(t, ids)
    ensures OldestFirst(t, Overdue(ids, ack))
  {
    if ids != [] {
      var n := |ids| - 1;
      var late := Overdue(ids[..n], ack);
      OverdueInOrder(t, ids[..n], ack);
      OverdueIsListed(ids[..n], ack);
      forall i | 0 <= i < |late| && late[i] in t && ids[n] in t
        ensures t[late[i]].createdAt <= t[ids[n]].createdAt
      {
        assert late[i] in late;
      }
    }
  }

  lemma TickResultIs(cfg: Config, t: Table, ack: TaskId -> AckReply, pays: TaskId -> bool,
        acked: seq<TaskId>, delivered: seq<TaskId>, t2: Table, first: nat, t3: Table, more: nat)
    requires t2 == SettleTable(cfg, AckTable(t, ack), Front(acked, cfg.settlementBatchSize), pays)
    requires first == SettleCount(cfg, AckTable(t, ack), Front(acked, cfg.settlementBatchSize), pays)
    requires first <= cfg.settlementBatchSize
    requires t3 == SettleTable(cfg, t2, Front(Overdue(delivered, ack), cfg.settlementBatchSize - first), pays)
    requires more == SettleCount(cfg, t2, Front(Overdue(delivered, ack), cfg.settlementBatchSize - first), pays)
    ensures TickResult(cfg, t, ack, pays, acked, delivered) == (t3, first + more)
  {
  }

  lemma OverdueIsKnown(cfg: Config, t: Table, delivered: seq<TaskId>, ack: TaskId -> AckReply,
        first: seq<TaskId>, pays: TaskId -> bool)
    requires Lists(t, Delivered, delivered)
    ensures AllIds(SettleTable(cfg, AckTable(t, ack), first, pays), Overdue(delivered, ack))
  {
    var overdue := Overdue(delivered, ack);
    OverdueIsListed(delivered, ack);
    SettleKeepsIds(cfg, AckTable(t, ack), first, pays);
    forall i | 0 <= i < |overdue|
      ensures overdue[i] in AckTable(t, ack)
    {
      assert overdue[i] in overdue;
    }
  }

  /** The table and the count of a tick: the oldest acknowledged tasks first, then the oldest overdue
      ones in the room the successes have left. */
  function TickResult(cfg: Config, t: Table, ack: TaskId -> AckReply, pays: TaskId -> bool,
        acked: seq<TaskId>, delivered: seq<TaskId>): (Table, nat)
  {
    var t1, first := AckTable(t, ack), Front(acked, cfg.settlementBatchSize);
    var t2, count := SettleTable(cfg, t1, first, pays), SettleCount(cfg, t1, first, pays);
    var room := if count < cfg.settlementBatchSize then cfg.settlementBatchSize - count else 0;
    var second := Front(Overdue(delivered, ack), room);
    (SettleTable(cfg, t2, second, pays), count + SettleCount(cfg, t2, second, pays))
  }

  /** The table after the acknowledgements have been read. */
  function AckTable(t: Table, ack: TaskId -> AckReply): Table {
    map id | id in t :: if t[id].progress == Delivered && ack(id) == Acked
                        then t[id].(progress := UserAcknowledged) else t[id]
  }

  function AckSome(t: Table, ids: seq<TaskId>, ack: TaskId -> AckReply): Table {
    map id | id in t :: if id in ids && t[id].progress == Delivered && ack(id) == Acked
                        then t[id].(progress := UserAcknowledged) else t[id]
  }

  lemma AckNone(t: Table, ack: TaskId -> AckReply)
    ensures AckSome(t, [], ack) == t
  {
  }

  lemma AckNext(t: Table, ids: seq<TaskId>, i: nat, ack: TaskId -> AckReply)
    requires i < |ids| && (forall id :: id in ids ==> id in InState(t, Delivered))
    ensures AckSome(t, ids[..i + 1], ack) == if ack(ids[i]) == Acked
              then Update(AckSome(t, ids[..i], ack), ids[i], SetProgress(UserAcknowledged))
              else AckSome(t, ids[..i], ack)
    ensures Overdue(ids[..i + 1], ack) == Overdue(ids[..i], ack) + if ack(ids[i]) == AckTimedOut then [ids[i]] else []
  {
    assert ids[..i + 1] == ids[..i] + [ids[i]] && ids[..i + 1][..i] == ids[..i];
    assert ids[i] in ids;
  }

  lemma AckEverything(t: Table, ids: seq<TaskId>, ack: TaskId -> AckReply)
    requires forall id :: id in ids <==> id in InState(t, Delivered)
    ensures AckSome(t, ids, ack) == AckTable(t, ack)
  {
  }

  /** The table after one task, or a list of them, has been settled. */
  function SettleOne(cfg: Config, t: Table, id: TaskId, paid: bool): Table {
    if paid then Update(t, id, SetProgress(Finished)) else AfterPayFails(cfg, t, id)
  }

  function SettleTable(cfg: Config, t: Table, ids: seq<TaskId>, pays: TaskId -> bool): Table {
    if ids == [] then t
    else
      var n := |ids| - 1;
      SettleOne(cfg, SettleTable(cfg, t, ids[..n], pays), ids[n], pays(ids[n]))
  }

  /** How many of a list count as settled. */
  function SettleCount(cfg: Config, t: Table, ids: seq<TaskId>, pays: TaskId -> bool): nat {
    if ids == [] then 0
    else
      var n := |ids| - 1;
      var before := SettleTable(cfg, t, ids[..n], pays);
      SettleCount(cfg, t, ids[..n], pays) + if pays(ids[n]) || PayFailsCounts(cfg, before, ids[n]) then 1 else 0
  }

  lemma {:induction false} SettleCountIsBounded(cfg: Config, t: Table, ids: seq<TaskId>, pays: TaskId -> bool)
    ensures SettleCount(cfg, t, ids, pays) <= |ids|
  {
    if ids != [] {
      SettleCountIsBounded(cfg, t, ids[..|ids| - 1], pays);
    }
  }

  function Front(ids: seq<TaskId>, n: nat): seq<TaskId> {
    if |ids| > n then ids[..n] else ids
  }

  lemma {:induction false} SettleKeepsIds(cfg: Config, t: Table, ids: seq<TaskId>, pays: TaskId -> bool)
    ensures SettleTable(cfg, t, ids, pays).Keys == t.Keys
  {
    if ids != [] {
      SettleKeepsIds(cfg, t, ids[..|ids| - 1], pays);
    }
  }

  /** What settling a list means for a row: finished if its payment went through, failed if it did
      not and no retries are left, and otherwise as it was. */
  lemma {:induction false} SettledRows(cfg: Config, t: Table, ids: seq<TaskId>, pays: TaskId -> bool, id: TaskId)
    requires Distinct(ids) && id in t && t[id].progress != Init && t[id].progress != Failed
    ensures var t' := SettleTable(cfg, t, ids, pays);
            && id in t'
            && t'[id].progress == (if id !in ids then t[id].progress
                                   else if pays(id) then Finished
                                   else if t[id].settlementRetries < cfg.maxSettlementRetries then t[id].progress
                                   else Failed)
            && (id !in ids ==> t'[id] == t[id])
  {
    if ids != [] {
      var n := |ids| - 1;
      SettledRows(cfg, t, ids[..n], pays, id);
      assert ids == ids[..n] + [ids[n]];
    }
  }

  /** The tasks of a list that count as settled: those paid for and those given up. */
  function Counted(cfg: Config, t: Table, ids: seq<TaskId>, pays: TaskId -> bool): set<TaskId> {
    set id | id in ids && id in t && (pays(id) || t[id].settlementRetries >= cfg.maxSettlementRetries)
  }

  lemma CountedGrows(cfg: Config, t: Table, ids: seq<TaskId>, pays: TaskId -> bool)
    requires ids != [] && Distinct(ids) && ids[|ids| - 1] in t
    ensures var n := |ids| - 1;
            |Counted(cfg, t, ids, pays)| == |Counted(cfg, t, ids[..n], pays)|
              + if pays(ids[n]) || t[ids[n]].settlementRetries >= cfg.maxSettlementRetries then 1 else 0
  {
    var n := |ids| - 1;
    var before := Counted(cfg, t, ids[..n], pays);
    assert ids == ids[..n] + [ids[n]] && ids[n] !in ids[..n];
    if pays(ids[n]) || t[ids[n]].settlementRetries >= cfg.maxSettlementRetries {
      assert Counted(cfg, t, ids, pays) == before + {ids[n]};
    } else {
      assert Counted(cfg, t, ids, pays) == before;
    }
  }

  /** How many of a list of open tasks count. */
  lemma {:induction false} SettledCount(cfg: Config, t: Table, ids: seq<TaskId>, pays: TaskId -> bool)
    requires Distinct(ids)
    requires forall id :: id in ids ==> id in t && t[id].progress != Init && t[id].progress != Failed
    ensures SettleCount(cfg, t, ids, pays) == |Counted(cfg, t, ids, pays)|
  {
    if ids != [] {
      var n := |ids| - 1;
      assert ids[n] in ids && forall id :: id in ids[..n] ==> id in ids;
      SettledCount(cfg, t, ids[..n], pays);
      UnlistedStays(cfg, t, ids[..n], pays, ids[n]);
      CountedGrows(cfg, t, ids, pays);
    }
  }

  /** `id` is among the first `n` of a list. */
  predicate Among(id: TaskId, ids: seq<TaskId>, n: int) {
    exists i :: 0 <= i < |ids| && i < n && ids[i] == id
  }

  lemma FrontHolds(ids: seq<TaskId>, n: nat, id: TaskId)
    ensures id in Front(ids, n) <==> Among(id, ids, n)
    ensures Distinct(ids) ==> Distinct(Front(ids, n))
  {
    var front := Front(ids, n);
    if Among(id, ids, n) {
      var i :| 0 <= i < |ids| && i < n && ids[i] == id;
      assert front[i] == id;
    }
  }

  lemma {:induction false} UnlistedStays(cfg: Config, t: Table, ids: seq<TaskId>, pays: TaskId -> bool, id: TaskId)
    requires id in t && id !in ids
    ensures id in SettleTable(cfg, t, ids, pays) && SettleTable(cfg, t, ids, pays)[id] == t[id]
  {
    if ids != [] {
      UnlistedStays(cfg, t, ids[..|ids| - 1], pays, id);
    }
  }

  /** A row settled in its batch is finished if its payment goes through; else it is failed without
      retries left, and as it was with some. */
  function Paid(cfg: Config, row: Task, pays: bool): Progress {
    if pays then Finished
    else if row.settlementRetries < cfg.maxSettlementRetries then row.progress else Failed
  }

  /** The table may change elsewhere. */
  lemma CountedAgree(cfg: Config, t: Table, t': Table, ids: seq<TaskId>, pays: TaskId -> bool)
    requires forall id :: id in ids ==> id in t && id in t' && t'[id].settlementRetries == t[id].settlementRetries
    ensures Counted(cfg, t', ids, pays) == Counted(cfg, t, ids, pays)
  {
  }

  lemma FirstAreAcked(cfg: Config, t: Table, ack: TaskId -> AckReply, acked: seq<TaskId>)
    requires Lists(AckTable(t, ack), UserAcknowledged, acked)
    ensures var t1, first := AckTable(t, ack), Front(acked, cfg.settlementBatchSize);
            && Distinct(first)
            && forall id :: id in first ==> id in t && id in t1 && t1[id].progress == UserAcknowledged
                                            && t1[id].settlementRetries == t[id].settlementRetries
  {
    var t1, first := AckTable(t, ack), Front(acked, cfg.settlementBatchSize);
    forall id | id in first
      ensures id in InState(t1, UserAcknowledged)
    {
      FrontHolds(acked, cfg.settlementBatchSize, id);
    }
  }

  lemma FirstCount(cfg: Config, t: Table, ack: TaskId -> AckReply, pays: TaskId -> bool, acked: seq<TaskId>)
    requires Lists(AckTable(t, ack), UserAcknowledged, acked)
    ensures var first := Front(acked, cfg.settlementBatchSize);
            SettleCount(cfg, AckTable(t, ack), first, pays) == |Counted(cfg, t, first, pays)| <= cfg.settlementBatchSize
  {
    var t1, first := AckTable(t, ack), Front(acked, cfg.settlementBatchSize);
    FirstAreAcked(cfg, t, ack, acked);
    SettledCount(cfg, t1, first, pays);
    SettleCountIsBounded(cfg, t1, first, pays);
    CountedAgree(cfg, t, t1, first, pays);
  }

  lemma AckedRow(cfg: Config, t: Table, ack: TaskId -> AckReply, pays: TaskId -> bool, acked: seq<TaskId>, id: TaskId)
    requires Lists(AckTable(t, ack), UserAcknowledged, acked) && id in t
    ensures var t1 := AckTable(t, ack);
            var t2 := SettleTable(cfg, t1, Front(acked, cfg.settlementBatchSize), pays);
            && id in t2
            && (t1[id].progress != UserAcknowledged ==> t2[id] == t1[id])
            && (t1[id].progress == UserAcknowledged ==>
                  t2[id].progress == if Among(id, acked, cfg.settlementBatchSize) then Paid(cfg, t1[id], pays(id))
                                     else UserAcknowledged)
  {
    var t1, first := AckTable(t, ack), Front(acked, cfg.settlementBatchSize);
    FrontHolds(acked, cfg.settlementBatchSize, id);
    if t1[id].progress == UserAcknowledged {
      SettledRows(cfg, t1, first, pays, id);
    } else {
      assert id !in InState(t1, UserAcknowledged);
      assert id !in acked;
      UnlistedStays(cfg, t1, first, pays, id);
    }
  }

  lemma LateRow(cfg: Config, t: Table, t2: Table, ack: TaskId -> AckReply, pays: TaskId -> bool,
        delivered: seq<TaskId>, room: nat, id: TaskId)
    requires Lists(t, Delivered, delivered) && id in t && id in t2
    ensures var t3, late := SettleTable(cfg, t2, Front(Overdue(delivered, ack), room), pays), Overdue(delivered, ack);
            && id in t3
            && (t[id].progress != Delivered || ack(id) != AckTimedOut ==> t3[id] == t2[id])
            && (t[id].progress == Delivered && ack(id) == AckTimedOut && t2[id] == t[id] ==>
                  t3[id].progress == if Among(id, late, room) then Paid(cfg, t[id], pays(id)) else Delivered)
  {
    var late := Overdue(delivered, ack);
    OverdueIsListed(delivered, ack);
    FrontHolds(late, room, id);
    if t[id].progress == Delivered && ack(id) == AckTimedOut {
      if t2[id] == t[id] {
        SettledRows(cfg, t2, Front(late, room), pays, id);
      } else {
        SettleKeepsIds(cfg, t2, Front(late, room), pays);
      }
    } else {
      assert id in delivered <==> id in InState(t, Delivered);
      UnlistedStays(cfg, t2, Front(late, room), pays, id);
    }
  }

  /** What one tick does to a row.  An acknowledged one is settled if it is among the first batch of them,
      an overdue one if it is among the first overdue ones that the batch still has room for; an
      acknowledgement is recorded; everything else stays. */
  lemma TickRow(cfg: Config, t: Table, ack: TaskId -> AckReply, pays: TaskId -> bool,
        acked: seq<TaskId>, delivered: seq<TaskId>, id: TaskId)
    requires Lists(t, Delivered, delivered) && Lists(AckTable(t, ack), UserAcknowledged, acked) && id in t
    ensures var t' := TickResult(cfg, t, ack, pays, acked, delivered).0;
            var isAcked := t[id].progress == UserAcknowledged || (t[id].progress == Delivered && ack(id) == Acked);
            var isLate := t[id].progress == Delivered && ack(id) == AckTimedOut;
            var room := cfg.settlementBatchSize - |Counted(cfg, t, Front(acked, cfg.settlementBatchSize), pays)|;
            && id in t'
            && (!isAcked && !isLate ==> t'[id] == t[id])
            && (isAcked && Among(id, acked, cfg.settlementBatchSize) ==>
                  t'[id].progress == Paid(cfg, t[id].(progress := UserAcknowledged), pays(id)))
            && (isAcked && !Among(id, acked, cfg.settlementBatchSize) ==> t'[id].progress == UserAcknowledged)
            && (isLate && Among(id, Overdue(delivered, ack), room) ==> t'[id].progress == Paid(cfg, t[id], pays(id)))
            && (isLate && !Among(id, Overdue(delivered, ack), room) ==> t'[id].progress == Delivered)
  {
    var t1, first := AckTable(t, ack), Front(acked, cfg.settlementBatchSize);
    var t2 := SettleTable(cfg, t1, first, pays);
    FirstCount(cfg, t, ack, pays, acked);
    AckedRow(cfg, t, ack, pays, acked, id);
    LateRow(cfg, t, t2, ack, pays, delivered, cfg.settlementBatchSize - |Counted(cfg, t, first, pays)|, id);
  }

  lemma LateAreDelivered(t: Table, ack: TaskId -> AckReply, delivered: seq<TaskId>, room: nat)
    requires Lists(t, Delivered, delivered)
    ensures var late := Front(Overdue(delivered, ack), room);
            && Distinct(late)
            && forall id :: id in late ==> id in t && t[id].progress == Delivered && ack(id) == AckTimedOut
  {
    OverdueIsListed(delivered, ack);
    forall id | id in Front(Overdue(delivered, ack), room)
      ensures id in InState(t, Delivered) && ack(id) == AckTimedOut
    {
      FrontHolds(Overdue(delivered, ack), room, id);
    }
  }

  /** A tick counts, of its two lists, the tasks paid for and those given up. */
  lemma TickCount(cfg: Config, t: Table, ack: TaskId -> AckReply, pays: TaskId -> bool,
        acked: seq<TaskId>, delivered: seq<TaskId>)
    requires Lists(t, Delivered, delivered) && Lists(AckTable(t, ack), UserAcknowledged, acked)
    ensures var first := |Counted(cfg, t, Front(acked, cfg.settlementBatchSize), pays)|;
            && first <= cfg.settlementBatchSize
            && TickResult(cfg, t, ack, pays, acked, delivered).1
               == first + |Counted(cfg, t, Front(Overdue(delivered, ack), cfg.settlementBatchSize - first), pays)|
  {
    var t1, first := AckTable(t, ack), Front(acked, cfg.settlementBatchSize);
    FirstCount(cfg, t, ack, pays, acked);
    var room := cfg.settlementBatchSize - |Counted(cfg, t, first, pays)|;
    LateCount(cfg, t, ack, pays, acked, delivered, room);
  }

  lemma LateCount(cfg: Config, t: Table, ack: TaskId -> AckReply, pays: TaskId -> bool,
        acked: seq<TaskId>, delivered: seq<TaskId>, room: nat)
    requires Lists(t, Delivered, delivered) && Lists(AckTable(t, ack), UserAcknowledged, acked)
    ensures var t2 := SettleTable(cfg, AckTable(t, ack), Front(acked, cfg.settlementBatchSize), pays);
            var late := Front(Overdue(delivered, ack), room);
            SettleCount(cfg, t2, late, pays) == |Counted(cfg, t, late, pays)|
  {
    var t2 := SettleTable(cfg, AckTable(t, ack), Front(acked, cfg.settlementBatchSize), pays);
    var late := Front(Overdue(delivered, ack), room);
    LateAreDelivered(t, ack, delivered, room);
    forall id | id in late
      ensures id in t2 && t2[id] == t[id]
    {
      AckedRow(cfg, t, ack, pays, acked, id);
    }
    SettledCount(cfg, t2, late, pays);
    CountedAgree(cfg, t, t2, late, pays);
  }

  ghost predicate AllIds(t: Table, ids: seq<TaskId>) {
    forall i :: 0 <= i < |ids| ==> ids[i] in t
  }

  lemma TailStep(ids: seq<TaskId>, i: nat)
    requires i < |ids|
    ensures ids[i..] != [] && ids[i..][0] == ids[i] && ids[i..][1..] == ids[i + 1..]
  {
  }

  /** How the calls of an executor's goroutine turn out. */
  datatype World = World(readFails: bool, writeFails: bool, bodyOk: bool,
                         waiting: nat, countFails: bool, freeReadFails: bool, freeWriteFails: bool)

  /** How the wait for a goroutine ends; `signature`: a failure is one of the signature. */
  datatype Run = Returns(world: World, signature: bool) | TimesOut(signature: bool)

  /** What becomes of a claimed row that nobody else has moved: the next state of the pipeline if the
      work was done in time, for a training also with the service occupied, and otherwise a failed
      attempt. */
  predicate Processed(cfg: Config, t: Table, t': Table, occupied: bool, st: Stage, id: TaskId, retries: nat, run: Run)
    requires Matches(t, id, st.Intermediate())
  {
    && id in t'
    && if && run.Returns? && run.world.bodyOk
          && (st == Executor ==> !run.world.readFails && (occupied || !run.world.writeFails))
       then t'[id] == t[id].(progress := match st
                                         case Setup => SetUp
                                         case Executor => Trained
                                         case Finalizer => Delivered)
       else if run.signature then t'[id] == t[id].(progress := Failed)
       else Retried(cfg, t[id], t'[id], retries)
  }

  predicate Succeeds(t: Table, occupied: bool, st: Stage, id: TaskId, run: Run) {
    && run.Returns? && Matches(t, id, st.Intermediate()) && run.world.bodyOk
    && (st == Executor ==> !run.world.readFails && (occupied || !run.world.writeFails))
  }

  /** The flag after a goroutine: set if it was or could be set.  The release on the way out never
      clears it, because the goroutine's own task still counts as pending. */
  predicate Occupies(occupied: bool, t: Table, st: Stage, id: TaskId, w: World) {
    occupied || (st == Executor && Matches(t, id, Training) && !w.readFails && !w.writeFails)
  }

  function AfterFailure(cfg: Config, t: Table, st: Stage, id: TaskId, retries: nat, signature: bool): Table {
    if signature then Update(t, id, SetProgress(Failed))
    else Handled(t, id, retries, cfg.MaxRetries(st), SetRetries(st, retries + 1), st.Intermediate(), st.Initial())
  }

  /** What a task whose retry counter was read as `n` becomes when its attempt fails without a signature
      error: sent back below the limit of its stage, and failed from the limit on.  Training has a limit
      of its own, setup and delivery share the other. */
  predicate Retried(cfg: Config, a: Task, b: Task, n: nat) {
    match a.progress
    case SettingUp => b == if n >= cfg.maxFinalizerRetries then a.(progress := Failed)
                           else a.(progress := Init, setupRetries := n + 1)
    case Training => b == if n >= cfg.maxExecutorRetries then a.(progress := Failed)
                          else a.(progress := SetUp, executorRetries := n + 1)
    case Delivering => b == if n >= cfg.maxFinalizerRetries then a.(progress := Failed)
                            else a.(progress := Trained, finalizerRetries := n + 1)
    case _ => true
  }

  lemma FailedAttempt(cfg: Config, t: Table, st: Stage, id: TaskId, retries: nat, signature: bool)
    ensures var t' := AfterFailure(cfg, t, st, id, retries, signature);
            && t'.Keys == t.Keys
            && (forall k :: k in t && k != id ==> t'[k] == t[k])
            && (id in t && signature ==> t'[id] == t[id].(progress := Failed))
            && (Matches(t, id, st.Intermediate()) && !signature ==> Retried(cfg, t[id], t'[id], retries))
  {
  }

  /** The handler's two writes are the two steps of the state machine. */
  lemma HandledInSteps(cfg: Config, t: Table, k: Claim)
    ensures var t' := JobTable(cfg, t, k, JobStep.HandleFailure);
            && AfterFailure(cfg, t, k.stage, k.id, k.retries, false)
               == (if NextPc(cfg, t, k, JobStep.HandleFailure) == Bumping then JobTable(cfg, t', k, BumpRetries)
                   else t')
            && (NextPc(cfg, t, k, JobStep.HandleFailure) == Bumping
                <==> k.retries < cfg.MaxRetries(k.stage) && Matches(t, k.id, k.stage.Intermediate()))
  {
  }
}
