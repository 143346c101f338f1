/** What every step of the pipeline keeps. */
module PipelineInvariants {
  import opened TaskTable
  import opened Pipeline

  // ----- the shape of progress

  /** What the stage services and users do to a row: claim, complete, send back, fail. */
  predicate WorkEdge(p: Progress, q: Progress) {
    || p == q
    || (match p
        case Init => q == SettingUp || q == Failed
        case SettingUp => q == SetUp || q == Init || q == Failed
        case SetUp => q == Training || q == Failed
        case Training => q == Trained || q == SetUp || q == Failed
        case Trained => q == Delivering
        case Delivering => q == Delivered || q == Trained || q == Failed
        case _ => false)
  }

  /** What the settlement ticker does to a row. */
  predicate SettleEdge(p: Progress, q: Progress) {
    || p == q
    || (p == Delivered && (q == UserAcknowledged || q == Finished || q == Failed))
    || (p == UserAcknowledged && (q == Finished || q == Failed))
  }

  /** The pipeline edges, the three same-stage retry edges, and failure of an unfinished task. */
  predicate Edge(p: Progress, q: Progress) {
    WorkEdge(p, q) || SettleEdge(p, q) || (!IsFinal(p) && q == Failed)
  }

  predicate RowWorks(a: Task, b: Task) {
    && b.user == a.user && b.createdAt == a.createdAt && b.settlementRetries == a.settlementRetries
    && WorkEdge(a.progress, b.progress)
  }

  predicate RowSettles(a: Task, b: Task) {
    && b.user == a.user && b.createdAt == a.createdAt && b.settlementRetries == a.settlementRetries
    && SettleEdge(a.progress, b.progress)
  }

  predicate RowEvolves(a: Task, b: Task) {
    b.user == a.user && b.createdAt == a.createdAt && Edge(a.progress, b.progress)
  }

  ghost predicate Works(t: Table, t': Table) {
    && (forall id :: id in t' <==> id in t)
    && (forall id :: id in t ==> RowWorks(t[id], t'[id]))
  }

  /** No row appears, disappears or changes hands, and progress moves along edges only. */
  ghost predicate Evolves(t: Table, t': Table) {
    && (forall id :: id in t' <==> id in t)
    && (forall id :: id in t ==> RowEvolves(t[id], t'[id]))
  }

  // ----- invariants

  /** A live claim's task is in the intermediate state of its stage, or has been failed. */
  predicate ClaimOk(t: Table, k: Claim) {
    && k.id in t
    && (Live(k) ==> t[k.id].progress == k.stage.Intermediate() || t[k.id].progress == Failed)
  }

  ghost predicate ClaimsInv(s: State) {
    && (forall c :: c in s.claims ==> c < s.nextClaim && ClaimOk(s.tasks, s.claims[c]))
    && (forall c, d :: c in s.claims && d in s.claims && c != d && Live(s.claims[c]) && Live(s.claims[d]) ==>
          s.claims[c].id != s.claims[d].id)
  }

  predicate IsIntermediate(p: Progress) {
    p == SettingUp || p == Training || p == Delivering
  }

  predicate Owns(claims: map<ClaimId, Claim>, c: ClaimId, id: TaskId) {
    c in claims && Live(claims[c]) && claims[c].id == id
  }

  ghost predicate OwnedInv(s: State) {
    forall id :: id in s.tasks && IsIntermediate(s.tasks[id].progress) ==> exists c :: Owns(s.claims, c, id)
  }

  ghost predicate OneUnfinished(t: Table) {
    forall i, j :: i in t && j in t && i != j && !IsFinal(t[i].progress) && !IsFinal(t[j].progress) ==>
      t[i].user != t[j].user
  }

  ghost predicate CreatorInv(cfg: Config, s: State) {
    match s.creator
    case NoUnfinished(user, _) => Unfinished(s.tasks, user) == {}
    case Counted(user, n) =>
      Unfinished(s.tasks, user) == {} && |Pending(s.tasks)| <= n <= cfg.maxTaskQueueSize
    case _ => true
  }

  predicate PastOccupy(e: ExecPc) {
    e == Inside || e.Leaving? || e.Exited?
  }

  /** Claim `c` is a live training whose goroutine has been past `OccupyService(true)`. */
  ghost predicate TrainsOccupied(s: State, c: ClaimId) {
    && c in s.claims && Live(s.claims[c]) && s.claims[c].stage == Executor && PastOccupy(s.claims[c].exec)
    && s.claims[c].id in s.tasks && s.tasks[s.claims[c].id].progress == Training
  }

  ghost predicate FlagInv(s: State) {
    && (s.locks.executor.NonePending? || s.locks.executor.Clearing? ==> InState(s.tasks, Training) == {})
    && (forall c :: TrainsOccupied(s, c) ==> s.occupied)
  }

  predicate Distinct(ids: seq<TaskId>) {
    forall i, j :: 0 <= i < j < |ids| ==> ids[i] != ids[j]
  }

  predicate AllIn(t: Table, ids: seq<TaskId>, p: Progress) {
    forall i :: 0 <= i < |ids| ==> ids[i] in t && t[ids[i]].progress == p
  }

  ghost predicate TickInv(cfg: Config, s: State) {
    s.settlement.Tick? ==>
      var k := s.settlement;
      && Distinct(k.todo) && Distinct(k.timeouts)
      && AllIn(s.tasks, k.todo, if k.phase == Settling then UserAcknowledged else Delivered)
      && AllIn(s.tasks, k.timeouts, Delivered)
      && (k.phase == Acking ==> !k.paying && k.counter == 0 && Distinct(k.timeouts + k.todo))
      && (k.phase != Acking ==> k.counter + |k.todo| <= cfg.settlementBatchSize)
      && (k.phase == TimingOut ==> k.timeouts == [])
      && (k.paying ==> k.todo != [])
  }

  /** The task whose payment has been made but not yet recorded. */
  function InFlight(s: State): set<TaskId> {
    if s.settlement.Tick? && s.settlement.paying && s.settlement.todo != [] then {s.settlement.todo[0]} else {}
  }

  ghost predicate PaidInv(s: State) {
    && Distinct(s.paid)
    && (forall id :: id in s.paid ==> id in s.tasks && (IsFinal(s.tasks[id].progress) || id in InFlight(s)))
    && (forall id :: id in s.tasks && s.tasks[id].progress == Finished ==> id in s.paid)
    && (forall id :: id in InFlight(s) ==> id in s.paid)
  }

  ghost predicate RetriesInv(s: State) {
    forall id :: id in s.tasks ==> s.tasks[id].settlementRetries == 0
  }

  ghost predicate OwnershipInv(s: State) {
    ClaimsInv(s) && OwnedInv(s)
  }

  ghost predicate AdmissionInv(cfg: Config, s: State) {
    OneUnfinished(s.tasks) && CreatorInv(cfg, s) && |Pending(s.tasks)| <= cfg.maxTaskQueueSize + 1
  }

  ghost predicate SettlementInv(cfg: Config, s: State) {
    TickInv(cfg, s) && PaidInv(s) && RetriesInv(s) && !s.panicked
  }

  ghost predicate Inv(cfg: Config, s: State) {
    OwnershipInv(s) && AdmissionInv(cfg, s) && FlagInv(s) && SettlementInv(cfg, s)
  }

  // ----- preservation

  // -- the table

  lemma SwapWorks(t: Table, id: TaskId, p: Progress, q: Progress)
    requires WorkEdge(p, q)
    ensures Works(t, Swap(t, id, p, q))
  {
  }

  lemma FailWorks(t: Table, id: TaskId)
    requires id in t ==> WorkEdge(t[id].progress, Failed)
    ensures Works(t, Update(t, id, SetProgress(Failed)))
  {
  }

  lemma BumpWorks(t: Table, id: TaskId, st: Stage, n: nat)
    ensures Works(t, Update(t, id, SetRetries(st, n)))
  {
  }

  lemma CancelWorks(t: Table, user: User)
    ensures Works(t, Cancel(t, user))
  {
  }

  lemma StageEdges(st: Stage)
    ensures WorkEdge(st.Initial(), st.Intermediate())
    ensures WorkEdge(st.Intermediate(), st.Final())
    ensures WorkEdge(st.Intermediate(), st.Initial())
    ensures WorkEdge(st.Intermediate(), Failed)
  {
  }

  lemma JobWorks(cfg: Config, t: Table, k: Claim, j: JobStep)
    requires j.SignatureError? || j.HandleFailure? ==>
               Matches(t, k.id, k.stage.Intermediate()) || Matches(t, k.id, Failed)
    ensures Works(t, JobTable(cfg, t, k, j))
  {
    StageEdges(k.stage);
    match j
    case Complete => SwapWorks(t, k.id, k.stage.Intermediate(), k.stage.Final());
    case SignatureError => FailWorks(t, k.id);
    case HandleFailure =>
      if k.retries < cfg.MaxRetries(k.stage) {
        SwapWorks(t, k.id, k.stage.Intermediate(), k.stage.Initial());
      } else {
        FailWorks(t, k.id);
      }
    case BumpRetries => BumpWorks(t, k.id, k.stage, k.retries + 1);
    case _ =>
  }

  lemma ClaimWorks(s: State, st: Stage)
    requires s.locks.Get(st).Fetched?
    ensures Works(s.tasks, ApplyClaim(s, st).tasks)
  {
    StageEdges(st);
    SwapWorks(s.tasks, s.locks.Get(st).id, st.Initial(), st.Intermediate());
  }

  /** Everything but the settlement ticker, the insertion of a row and a restart. */
  predicate IsWork(step: Step) {
    !step.Settle? && !step.Restart? && !(step.Create? && step.create.Insert?)
  }

  lemma StepWorks(cfg: Config, s: State, step: Step)
    requires ClaimsInv(s) && Enabled(cfg, s, step) && IsWork(step)
    ensures Works(s.tasks, Apply(cfg, s, step).tasks)
  {
    match step
    case ClaimFetched(st) => ClaimWorks(s, st);
    case Job(c, j) => JobWorks(cfg, s.tasks, s.claims[c], j);
    case CancelBy(user) => CancelWorks(s.tasks, user);
    case _ =>
  }

  lemma HeadState(cfg: Config, s: State)
    requires TickInv(cfg, s) && s.settlement.Tick? && s.settlement.todo != []
    ensures Matches(s.tasks, Head(s), if s.settlement.phase == Settling then UserAcknowledged else Delivered)
  {
  }

  /** A settlement step touches the head of its list only, along a settlement edge. */
  lemma TickTableEffect(cfg: Config, s: State, k: TickStep)
    requires TickInv(cfg, s) && TickEnabled(s, k)
    ensures !OnHead(k) ==> TickTable(cfg, s, k) == s.tasks
    ensures OnHead(k) ==>
              && Head(s) in s.tasks && Head(s) in TickTable(cfg, s, k)
              && TickTable(cfg, s, k) == s.tasks[Head(s) := TickTable(cfg, s, k)[Head(s)]]
              && RowSettles(s.tasks[Head(s)], TickTable(cfg, s, k)[Head(s)])
  {
    if OnHead(k) {
      HeadState(cfg, s);
    }
  }

  lemma SweepEvolves(t: Table)
    ensures Evolves(t, Sweep(t))
  {
  }

  /** Every step but the insertion of a new row lets the table evolve along edges. */
  lemma StepEvolves(cfg: Config, s: State, step: Step)
    requires ClaimsInv(s) && TickInv(cfg, s) && Enabled(cfg, s, step) && !(step.Create? && step.create.Insert?)
    ensures Evolves(s.tasks, Apply(cfg, s, step).tasks)
  {
    if step.Settle? {
      TickTableEffect(cfg, s, step.tick);
    } else if step.Restart? {
      SweepEvolves(s.tasks);
    } else {
      StepWorks(cfg, s, step);
    }
  }

  // -- admission

  lemma SubsetCard<T>(a: set<T>, b: set<T>)
    requires a <= b
    ensures |a| <= |b|
  {
    assert b == a + (b - a);
  }

  predicate Inserts(step: Step) {
    step.Create? && step.create.Insert?
  }

  lemma EvolvesShrinks(t: Table, t': Table)
    requires Evolves(t, t')
    ensures Pending(t') <= Pending(t) && |Pending(t')| <= |Pending(t)|
    ensures forall user :: Unfinished(t', user) <= Unfinished(t, user)
    ensures OneUnfinished(t) ==> OneUnfinished(t')
  {
    SubsetCard(Pending(t'), Pending(t));
  }

  lemma InsertAdmits(t: Table, id: TaskId, task: Task)
    requires id !in t && task.progress == Init && OneUnfinished(t) && Unfinished(t, task.user) == {}
    ensures OneUnfinished(t[id := task])
    ensures |Pending(t[id := task])| == |Pending(t)| + 1
  {
    assert Pending(t[id := task]) == Pending(t) + {id};
    forall k | k in t && !IsFinal(t[k].progress)
      ensures t[k].user != task.user
    {
      assert t[k].user == task.user ==> k in Unfinished(t, task.user);
    }
  }

  lemma AdmissionKept(cfg: Config, s: State, step: Step)
    requires ClaimsInv(s) && TickInv(cfg, s) && AdmissionInv(cfg, s) && Enabled(cfg, s, step)
    ensures AdmissionInv(cfg, Apply(cfg, s, step))
  {
    if Inserts(step) {
      InsertAdmits(s.tasks, step.create.id, Task(s.creator.user, step.create.createdAt, Init, 0, 0, 0, 0));
    } else {
      StepEvolves(cfg, s, step);
      EvolvesShrinks(s.tasks, Apply(cfg, s, step).tasks);
    }
  }

  // -- ownership of claimed tasks

  /** Rows in an intermediate state stay or fail; none becomes intermediate. */
  predicate RowKeepsOwner(a: Task, b: Task) {
    && (IsIntermediate(a.progress) || a.progress == Failed ==> b.progress == a.progress || b.progress == Failed)
    && (IsIntermediate(b.progress) ==> b.progress == a.progress)
  }

  ghost predicate KeepsOwners(t: Table, t': Table) {
    && (forall id :: id in t ==> id in t' && RowKeepsOwner(t[id], t'[id]))
    && (forall id :: id in t' && id !in t ==> t'[id].progress == Init)
  }

  predicate SameJob(a: Claim, b: Claim) {
    b.stage == a.stage && b.id == a.id && b.pc == a.pc
  }

  ghost predicate SameJobs(m: map<ClaimId, Claim>, m': map<ClaimId, Claim>) {
    && (forall c :: c in m' <==> c in m)
    && (forall c :: c in m ==> SameJob(m[c], m'[c]))
  }

  lemma OwnershipFrame(s: State, s': State)
    requires OwnershipInv(s) && s'.nextClaim == s.nextClaim
    requires SameJobs(s.claims, s'.claims) && KeepsOwners(s.tasks, s'.tasks)
    ensures OwnershipInv(s')
  {
    forall id | id in s'.tasks && IsIntermediate(s'.tasks[id].progress)
      ensures exists c :: Owns(s'.claims, c, id)
    {
      var c :| Owns(s.claims, c, id);
      assert Owns(s'.claims, c, id);
    }
  }

  lemma ClaimKeepsOwnership(s: State, st: Stage)
    requires OwnershipInv(s) && s.locks.Get(st).Fetched?
    ensures OwnershipInv(ApplyClaim(s, st))
  {
    var s' := ApplyClaim(s, st);
    var x := s.locks.Get(st).id;
    if Matches(s.tasks, x, st.Initial()) {
      assert forall c :: c in s.claims ==> !Owns(s.claims, c, x) && s'.claims[c] == s.claims[c];
      assert Owns(s'.claims, s.nextClaim, x);
      forall id | id in s'.tasks && IsIntermediate(s'.tasks[id].progress)
        ensures exists c :: Owns(s'.claims, c, id)
      {
        if id != x {
          var c :| Owns(s.claims, c, id);
          assert Owns(s'.claims, c, id);
        }
      }
    }
  }

  /** The claim `c` is over and its task is no longer in an intermediate state. */
  lemma ResolveKeepsOwnership(s: State, s': State, c: ClaimId)
    requires OwnershipInv(s) && s'.nextClaim == s.nextClaim && c in s.claims && Live(s.claims[c])
    requires exists k' :: s'.claims == s.claims[c := k'] && k'.id == s.claims[c].id && !Live(k')
    requires forall id :: id in s'.tasks <==> id in s.tasks
    requires forall id :: id in s.tasks && id != s.claims[c].id ==> s'.tasks[id] == s.tasks[id]
    requires !IsIntermediate(s'.tasks[s.claims[c].id].progress)
    ensures OwnershipInv(s')
  {
    forall id | id in s'.tasks && IsIntermediate(s'.tasks[id].progress)
      ensures exists d :: Owns(s'.claims, d, id)
    {
      var d :| Owns(s.claims, d, id);
      assert Owns(s'.claims, d, id);
    }
  }

  lemma JobKeepsOwnership(cfg: Config, s: State, c: ClaimId, j: JobStep)
    requires OwnershipInv(s) && JobEnabled(cfg, s, c, j)
    ensures OwnershipInv(ApplyJob(cfg, s, c, j))
  {
    var s' := ApplyJob(cfg, s, c, j);
    var k := s.claims[c];
    if j.Start? || j.Fail? {
      PendingJobKeepsOwnership(cfg, s, c, j);
    } else if j.BumpRetries? {
      BumpKeepsOwnership(cfg, s, c);
    } else {
      assert s'.claims == s.claims[c := s'.claims[c]];
      ResolveKeepsOwnership(s, s', c);
    }
  }

  lemma PendingJobKeepsOwnership(cfg: Config, s: State, c: ClaimId, j: JobStep)
    requires OwnershipInv(s) && JobEnabled(cfg, s, c, j) && (j.Start? || j.Fail?)
    ensures OwnershipInv(ApplyJob(cfg, s, c, j))
  {
    forall id | id in s.tasks && IsIntermediate(s.tasks[id].progress)
      ensures exists d :: Owns(ApplyJob(cfg, s, c, j).claims, d, id)
    {
      var d :| Owns(s.claims, d, id);
      assert Owns(ApplyJob(cfg, s, c, j).claims, d, id);
    }
  }

  lemma BumpKeepsOwnership(cfg: Config, s: State, c: ClaimId)
    requires OwnershipInv(s) && JobEnabled(cfg, s, c, BumpRetries)
    ensures OwnershipInv(ApplyJob(cfg, s, c, BumpRetries))
  {
    var s' := ApplyJob(cfg, s, c, BumpRetries);
    forall id | id in s'.tasks && IsIntermediate(s'.tasks[id].progress)
      ensures exists d :: Owns(s'.claims, d, id)
    {
      var d :| Owns(s.claims, d, id);
      assert Owns(s'.claims, d, id);
    }
  }

  lemma CancelKeepsOwners(t: Table, user: User)
    ensures KeepsOwners(t, Cancel(t, user))
  {
  }

  lemma TickKeepsOwners(cfg: Config, s: State, k: TickStep)
    requires TickInv(cfg, s) && TickEnabled(s, k)
    ensures KeepsOwners(s.tasks, TickTable(cfg, s, k))
  {
    TickTableEffect(cfg, s, k);
  }

  lemma OtherStepsKeepOwners(cfg: Config, s: State, step: Step)
    requires TickInv(cfg, s) && Enabled(cfg, s, step) && !step.ClaimFetched? && !step.Job? && !step.Restart?
    ensures KeepsOwners(s.tasks, Apply(cfg, s, step).tasks)
  {
    if step.Settle? {
      TickKeepsOwners(cfg, s, step.tick);
    } else if step.CancelBy? {
      CancelKeepsOwners(s.tasks, step.user);
    }
  }

  lemma OtherStepsKeepJobs(cfg: Config, s: State, step: Step)
    requires Enabled(cfg, s, step) && !step.ClaimFetched? && !step.Job? && !step.Restart?
    ensures SameJobs(s.claims, Apply(cfg, s, step).claims) && Apply(cfg, s, step).nextClaim == s.nextClaim
  {
  }

  lemma OwnershipKept(cfg: Config, s: State, step: Step)
    requires OwnershipInv(s) && TickInv(cfg, s) && Enabled(cfg, s, step)
    ensures OwnershipInv(Apply(cfg, s, step))
  {
    if step.ClaimFetched? {
      ClaimKeepsOwnership(s, step.stage);
    } else if step.Job? {
      JobKeepsOwnership(cfg, s, step.c, step.job);
    } else if !step.Restart? {
      OtherStepsKeepOwners(cfg, s, step);
      OtherStepsKeepJobs(cfg, s, step);
      OwnershipFrame(s, Apply(cfg, s, step));
    }
  }

  // -- the on-chain flag

  ghost predicate NoNewTraining(t: Table, t': Table) {
    forall id :: id in t' && t'[id].progress == Training ==> id in t && t[id].progress == Training
  }

  lemma JobNoNewTraining(cfg: Config, t: Table, k: Claim, j: JobStep)
    ensures NoNewTraining(t, JobTable(cfg, t, k, j))
  {
  }

  /** No task starts training and every claim past `OccupyService` was past it before. */
  lemma FlagFrame(s: State, s': State)
    requires FlagInv(s) && NoNewTraining(s.tasks, s'.tasks)
    requires s'.locks.executor.NonePending? || s'.locks.executor.Clearing? ==> s'.locks.executor == s.locks.executor
    requires s'.occupied == s.occupied
    requires forall c :: TrainsOccupied(s', c) ==> TrainsOccupied(s, c)
    ensures FlagInv(s')
  {
    assert InState(s'.tasks, Training) <= InState(s.tasks, Training);
  }

  lemma ClaimKeepsFlag(s: State, st: Stage)
    requires ClaimsInv(s) && FlagInv(s) && s.locks.Get(st).Fetched?
    ensures FlagInv(ApplyClaim(s, st))
  {
    var s' := ApplyClaim(s, st);
    forall c | TrainsOccupied(s', c)
      ensures TrainsOccupied(s, c)
    {
    }
    if st != Executor {
      assert NoNewTraining(s.tasks, s'.tasks);
      FlagFrame(s, s');
    }
  }

  lemma JobKeepsFlag(cfg: Config, s: State, c: ClaimId, j: JobStep)
    requires FlagInv(s) && JobEnabled(cfg, s, c, j)
    ensures FlagInv(ApplyJob(cfg, s, c, j))
  {
    JobNoNewTraining(cfg, s.tasks, s.claims[c], j);
    var s' := ApplyJob(cfg, s, c, j);
    forall d | TrainsOccupied(s', d)
      ensures TrainsOccupied(s, d)
    {
    }
    FlagFrame(s, s');
  }

  lemma ExecKeepsFlag(s: State, c: ClaimId, e: ExecStep)
    requires FlagInv(s) && ExecEnabled(s, c, e)
    ensures FlagInv(ApplyExec(s, c, e))
  {
    var s' := ApplyExec(s, c, e);
    forall d | TrainsOccupied(s', d) && !s'.occupied
      ensures TrainsOccupied(s, d)
    {
    }
  }

  lemma ReleaseKeepsFlag(s: State, r: ReleaseStep)
    requires FlagInv(s) && ReleaseEnabled(s, r)
    ensures FlagInv(ApplyRelease(s, r))
  {
    var s' := ApplyRelease(s, r);
    assert InState(s.tasks, Training) <= Pending(s.tasks);
    forall c | TrainsOccupied(s', c)
      ensures TrainsOccupied(s, c)
    {
    }
    if r.ClearFlag? {
      assert forall c :: TrainsOccupied(s, c) ==> s.claims[c].id in InState(s.tasks, Training);
    }
  }

  lemma FlagKept(cfg: Config, s: State, step: Step)
    requires ClaimsInv(s) && TickInv(cfg, s) && FlagInv(s) && Enabled(cfg, s, step)
    ensures FlagInv(Apply(cfg, s, step))
  {
    match step
    case ClaimFetched(st) => ClaimKeepsFlag(s, st);
    case Job(c, j) => JobKeepsFlag(cfg, s, c, j);
    case Exec(c, e) => ExecKeepsFlag(s, c, e);
    case Release(r) => ReleaseKeepsFlag(s, r);
    case Restart =>
    case _ =>
      OtherStepsKeepOwners(cfg, s, step);
      FlagFrame(s, Apply(cfg, s, step));
  }

  // -- settlement

  /** Delivered, acknowledged and final rows stay as they are, and no row becomes so settled. */
  predicate RowKeepsSettled(a: Task, b: Task) {
    && (a.progress == Delivered || a.progress == UserAcknowledged || IsFinal(a.progress) ==> b.progress == a.progress)
    && (b.progress == Finished ==> a.progress == Finished)
    && b.settlementRetries == a.settlementRetries
  }

  ghost predicate KeepsSettled(t: Table, t': Table) {
    && (forall id :: id in t ==> id in t' && RowKeepsSettled(t[id], t'[id]))
    && (forall id :: id in t' && id !in t ==> t'[id].progress == Init && t'[id].settlementRetries == 0)
  }

  lemma SettlementFrame(cfg: Config, s: State, s': State)
    requires SettlementInv(cfg, s) && KeepsSettled(s.tasks, s'.tasks)
    requires s'.settlement == s.settlement && s'.paid == s.paid && s'.panicked == s.panicked
    ensures SettlementInv(cfg, s')
  {
  }

  lemma WorksKeepsSettled(t: Table, t': Table)
    requires Works(t, t')
    ensures KeepsSettled(t, t')
  {
  }

  lemma InsertKeepsSettled(t: Table, id: TaskId, task: Task)
    requires id !in t && task.progress == Init && task.settlementRetries == 0
    ensures KeepsSettled(t, t[id := task])
  {
  }

  lemma WorkKeepsSettled(cfg: Config, s: State, step: Step)
    requires ClaimsInv(s) && Enabled(cfg, s, step) && !step.Settle? && !step.Restart?
    ensures KeepsSettled(s.tasks, Apply(cfg, s, step).tasks)
  {
    if Inserts(step) {
      InsertKeepsSettled(s.tasks, step.create.id, Task(s.creator.user, step.create.createdAt, Init, 0, 0, 0, 0));
    } else {
      StepWorks(cfg, s, step);
      WorksKeepsSettled(s.tasks, Apply(cfg, s, step).tasks);
    }
  }

  lemma HeadApart(done: seq<TaskId>, todo: seq<TaskId>)
    requires Distinct(done + todo) && todo != []
    ensures todo[0] !in done && todo[0] !in todo[1..]
    ensures Distinct(done + todo[1..]) && Distinct(done + [todo[0]] + todo[1..])
    ensures Distinct(todo[1..])
  {
    var all := done + todo;
    assert done + [todo[0]] + todo[1..] == all;
    assert forall i :: 0 <= i < |done| ==> all[i] == done[i];
    assert forall i :: 0 <= i < |todo| ==> all[|done| + i] == todo[i];
    var rest := done + todo[1..];
    assert forall i :: 0 <= i < |rest| ==> rest[i] == all[if i < |done| then i else i + 1];
    assert forall i :: 0 < i < |todo| ==> todo[i] == all[|done| + i];
  }

  lemma AckKeepsTick(cfg: Config, s: State, reply: AckReply)
    requires TickInv(cfg, s) && TickEnabled(s, Ack(reply))
    ensures TickInv(cfg, ApplyTick(cfg, s, Ack(reply)))
  {
    HeadApart(s.settlement.timeouts, s.settlement.todo);
  }

  lemma DistinctTail(todo: seq<TaskId>)
    requires Distinct(todo) && todo != []
    ensures Distinct(todo[1..]) && todo[0] !in todo[1..]
  {
  }

  lemma ListedRows(t: Table, p: Progress, order: seq<TaskId>)
    requires Lists(t, p, order)
    ensures Distinct(order) && AllIn(t, order, p)
  {
    forall i | 0 <= i < |order|
      ensures order[i] in t && t[order[i]].progress == p
    {
      assert order[i] in order;
    }
  }

  lemma TickKeepsTick(cfg: Config, s: State, k: TickStep)
    requires TickInv(cfg, s) && TickEnabled(s, k)
    ensures TickInv(cfg, ApplyTick(cfg, s, k))
  {
    if k.Ack? {
      AckKeepsTick(cfg, s, k.reply);
    } else if OnHead(k) {
      HeadState(cfg, s);
      DistinctTail(s.settlement.todo);
    } else if k.Begin? || k.ListAcknowledged? {
      ListedRows(s.tasks, if k.Begin? then Delivered else UserAcknowledged, k.order);
    }
  }

  lemma TickKeepsPaid(cfg: Config, s: State, k: TickStep)
    requires TickInv(cfg, s) && PaidInv(s) && TickEnabled(s, k)
    ensures PaidInv(ApplyTick(cfg, s, k))
  {
    if OnHead(k) {
      HeadState(cfg, s);
      TickTableEffect(cfg, s, k);
    }
  }

  lemma TickKeepsSettlement(cfg: Config, s: State, k: TickStep)
    requires SettlementInv(cfg, s) && TickEnabled(s, k)
    ensures SettlementInv(cfg, ApplyTick(cfg, s, k))
  {
    TickKeepsTick(cfg, s, k);
    TickKeepsPaid(cfg, s, k);
    TickTableEffect(cfg, s, k);
  }

  lemma RestartKeepsSettlement(cfg: Config, s: State)
    requires SettlementInv(cfg, s)
    ensures SettlementInv(cfg, ApplyRestart(s))
  {
  }

  lemma SettlementKept(cfg: Config, s: State, step: Step)
    requires ClaimsInv(s) && SettlementInv(cfg, s) && Enabled(cfg, s, step)
    ensures SettlementInv(cfg, Apply(cfg, s, step))
  {
    if step.Settle? {
      TickKeepsSettlement(cfg, s, step.tick);
    } else if step.Restart? {
      RestartKeepsSettlement(cfg, s);
    } else {
      WorkKeepsSettled(cfg, s, step);
      SettlementFrame(cfg, s, Apply(cfg, s, step));
    }
  }

  // -- all together

  lemma {:induction false} InitEstablishes(cfg: Config)
    ensures Inv(cfg, InitState)
  {
    assert Pending(InitState.tasks) == {} && InState(InitState.tasks, Training) == {};
  }

  lemma StepKeepsInv(cfg: Config, s: State, step: Step)
    requires Inv(cfg, s) && Enabled(cfg, s, step)
    ensures Inv(cfg, Apply(cfg, s, step))
  {
    AdmissionKept(cfg, s, step);
    OwnershipKept(cfg, s, step);
    FlagKept(cfg, s, step);
    SettlementKept(cfg, s, step);
  }
}
