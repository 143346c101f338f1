/** The fine-tuning pipeline as a state machine: three stage services, task creation, user
  cancellation, the settlement ticker and process restarts, all working on one task table.

  Every step is one database call, one contract call, or one lock operation; any two components
  may be interleaved between steps.
*/
module Pipeline {
  import opened Options
  import opened TaskTable

  datatype Config = Config(
    maxTaskQueueSize: nat,
    maxExecutorRetries: nat,
    maxFinalizerRetries: nat,
    maxSettlementRetries: nat,
    settlementBatchSize: nat,
    setupWorkers: nat,
    trainingWorkers: nat,
    finalizerWorkers: nat)
  {
    /** The size of the stage's worker pool; the pool never has fewer than one. */
    function Workers(st: Stage): nat {
      var n := match st case Setup => setupWorkers case Executor => trainingWorkers case Finalizer => finalizerWorkers;
      if n < 1 then 1 else n
    }

    /** The setup service reads the finalizer's limit. */
    function MaxRetries(st: Stage): nat {
      if st == Executor then maxExecutorRetries else maxFinalizerRetries
    }
  }

  // ----- state

  type ClaimId = nat

  /** The pool job of a claimed task. */
  datatype WorkerPc = Queued | Running | Failing | Bumping | Resolved

  /** The goroutine that executes the task.  It outlives a timeout of its job.
      `Setting`: it read the on-chain flag as false and is about to write true.
      `Inside`: `OccupyService(true)` has returned and the container runs.
      `Leaving`: the deferred release is due or under way.
      `Aborted`: it returned an error before reaching the body of the task. */
  datatype ExecPc =
    | NotStarted | Started | Checked | Setting | Inside | Leaving(ok: bool) | Exited(ok: bool) | Aborted

  datatype Claim = Claim(stage: Stage, id: TaskId, retries: nat, pc: WorkerPc, exec: ExecPc)

  /** Who releases the on-chain flag: the idle poller or the goroutine of a claim. */
  datatype Releaser = Poller | Goroutine(claim: ClaimId)

  /** A service mutex, with the program point of whoever holds it. */
  datatype Lock =
    | Unlocked
    | Fetched(id: TaskId, retries: nat)
    | Releasing(who: Releaser)
    | NonePending(who: Releaser)
    | Clearing(who: Releaser)
  {
    function Who(): Releaser {
      if Releasing? || NonePending? || Clearing? then who else Poller
    }
  }

  datatype Locks = Locks(setup: Lock, executor: Lock, finalizer: Lock) {
    function Get(st: Stage): Lock {
      match st
      case Setup => setup
      case Executor => executor
      case Finalizer => finalizer
    }

    function Set(st: Stage, l: Lock): Locks {
      match st
      case Setup => this.(setup := l)
      case Executor => this.(executor := l)
      case Finalizer => this.(finalizer := l)
    }
  }

  /** `CreateTask` holds `taskMutex` from `Entered` on. */
  datatype Creator =
    | Idle
    | Entered(user: User, wait: bool)
    | NoUnfinished(user: User, wait: bool)
    | Counted(user: User, count: nat)

  datatype Phase = Acking | Settling | TimingOut

  /** `paying`: `SettleFees` for the head of `todo` has returned, its row is not yet written. */
  datatype Settlement =
    | Waiting
    | Tick(phase: Phase, todo: seq<TaskId>, timeouts: seq<TaskId>, counter: nat, paying: bool)

  datatype State = State(
    tasks: Table,
    claims: map<ClaimId, Claim>,
    nextClaim: ClaimId,
    locks: Locks,
    pollerReleasing: bool,
    creator: Creator,
    settlement: Settlement,
    panicked: bool,
    paid: seq<TaskId>,
    occupied: bool)

  const InitState := State(map[], map[], 0, Locks(Unlocked, Unlocked, Unlocked), false, Idle, Waiting, false, [], false)

  predicate Live(c: Claim) {
    c.pc == Queued || c.pc == Running || c.pc == Failing
  }

  // ----- steps

  datatype AckReply = Unreachable | Acked | AckTimedOut | NotYet

  datatype JobStep = Start | Fail | Complete | SignatureError | HandleFailure | BumpRetries

  datatype ExecStep = Check | ReadOccupied | SetOccupied | Abort | Body(ok: bool)

  datatype ReleaseStep = NoTask | Enter(who: Releaser) | GiveUp | CountPending | ReadFlag | ClearFlag

  datatype CreateStep = Open(user: User, wait: bool) | CheckUser | CheckQueue | Insert(id: TaskId, createdAt: nat)

  datatype TickStep =
    | Begin(order: seq<TaskId>)
    | Ack(reply: AckReply)
    | ListAcknowledged(order: seq<TaskId>)
    | Pay
    | RecordPayment
    | PayFails
    | TakeTimeouts
    | End

  datatype Step =
    | Fetch(stage: Stage, id: TaskId)      // the poller reads the oldest waiting row
    | ClaimFetched(stage: Stage)           // and claims it by compare-and-swap
    | Job(c: ClaimId, job: JobStep)        // the pool job of a claim
    | Exec(c: ClaimId, exec: ExecStep)     // the goroutine of a claim
    | Release(release: ReleaseStep)        // giving up the on-chain occupied flag
    | Create(create: CreateStep)           // CreateTask, under taskMutex
    | CancelBy(user: User)
    | Settle(tick: TickStep)               // the settlement ticker
    | Restart                              // the process dies and starts again

  // ----- claiming

  predicate FetchEnabled(s: State, st: Stage, id: TaskId) {
    s.locks.Get(st) == Unlocked && Oldest(s.tasks, st.Initial(), id) && (st == Executor ==> !s.pollerReleasing)
  }

  function ApplyFetch(s: State, st: Stage, id: TaskId): State
    requires id in s.tasks
  {
    s.(locks := s.locks.Set(st, Fetched(id, s.tasks[id].Retries(st))))
  }

  /** The compare-and-swap of the row fetched; a row that moved meanwhile is not claimed. */
  function ApplyClaim(s: State, st: Stage): State
    requires s.locks.Get(st).Fetched?
  {
    var Fetched(id, retries) := s.locks.Get(st);
    var won := Matches(s.tasks, id, st.Initial());
    s.(tasks := Swap(s.tasks, id, st.Initial(), st.Intermediate()),
       claims := if won then s.claims[s.nextClaim := Claim(st, id, retries, Queued, NotStarted)] else s.claims,
       nextClaim := if won then s.nextClaim + 1 else s.nextClaim,
       locks := s.locks.Set(st, Unlocked))
  }

  // ----- the pool job of a claim

  function SetJob(s: State, c: ClaimId, pc: WorkerPc): State
    requires c in s.claims
  {
    s.(claims := s.claims[c := s.claims[c].(pc := pc)])
  }

  function SetExec(s: State, c: ClaimId, exec: ExecPc): State
    requires c in s.claims
  {
    s.(claims := s.claims[c := s.claims[c].(exec := exec)])
  }

  /** The claims whose jobs occupy a worker of the stage. */
  function Active(claims: map<ClaimId, Claim>, st: Stage): set<ClaimId> {
    set c | c in claims && claims[c].stage == st
        && (claims[c].pc == Running || claims[c].pc == Failing || claims[c].pc == Bumping)
  }

  predicate JobEnabled(cfg: Config, s: State, c: ClaimId, j: JobStep) {
    && c in s.claims
    && match j
       case Start => s.claims[c].pc == Queued && |Active(s.claims, s.claims[c].stage)| < cfg.Workers(s.claims[c].stage)
       case Fail => s.claims[c].pc == Running
       case Complete => s.claims[c].pc == Running && s.claims[c].exec == Exited(true)
       case SignatureError => s.claims[c].pc == Failing
       case HandleFailure => s.claims[c].pc == Failing
       case BumpRetries => s.claims[c].pc == Bumping
  }

  /** The table after a step of a job. */
  function JobTable(cfg: Config, t: Table, k: Claim, j: JobStep): Table {
    match j
    case Start => t
    case Fail => t
    case Complete => Swap(t, k.id, k.stage.Intermediate(), k.stage.Final())
    case SignatureError => Update(t, k.id, SetProgress(Failed))
    case HandleFailure =>
      if k.retries < cfg.MaxRetries(k.stage)
      then Swap(t, k.id, k.stage.Intermediate(), k.stage.Initial())
      else Update(t, k.id, SetProgress(Failed))
    case BumpRetries => Update(t, k.id, SetRetries(k.stage, k.retries + 1))
  }

  function NextPc(cfg: Config, t: Table, k: Claim, j: JobStep): WorkerPc {
    match j
    case Start => Running
    case Fail => Failing
    case HandleFailure =>
      if k.retries < cfg.MaxRetries(k.stage) && Matches(t, k.id, k.stage.Intermediate()) then Bumping else Resolved
    case _ => Resolved
  }

  function ApplyJob(cfg: Config, s: State, c: ClaimId, j: JobStep): State
    requires c in s.claims
  {
    var k := s.claims[c];
    SetJob(if j == Start then SetExec(s, c, Started) else s, c, NextPc(cfg, s.tasks, k, j))
      .(tasks := JobTable(cfg, s.tasks, k, j))
  }

  // ----- the goroutine of a claim

  predicate ExecEnabled(s: State, c: ClaimId, e: ExecStep) {
    && c in s.claims
    && var k := s.claims[c];
       match e
       case Check => k.exec == Started
       case ReadOccupied => k.exec == Checked && k.stage == Executor
       case SetOccupied => k.exec == Setting
       case Abort => k.exec == Checked || k.exec == Setting
       case Body(_) => if k.stage == Executor then k.exec == Inside else k.exec == Checked
  }

  function NextExec(s: State, k: Claim, e: ExecStep): ExecPc {
    match e
    case Check => if Matches(s.tasks, k.id, k.stage.Intermediate()) then Checked else Aborted
    case ReadOccupied => if s.occupied then Inside else Setting
    case SetOccupied => Inside
    case Abort => Aborted
    case Body(ok) => if k.stage == Executor then Leaving(ok) else Exited(ok)
  }

  function ApplyExec(s: State, c: ClaimId, e: ExecStep): State
    requires c in s.claims
  {
    SetExec(s, c, NextExec(s, s.claims[c], e)).(occupied := s.occupied || e == SetOccupied)
  }

  // ----- releasing the on-chain flag

  predicate ReleaseEnabled(s: State, r: ReleaseStep) {
    var l := s.locks.executor;
    match r
    case NoTask => l == Unlocked && InState(s.tasks, SetUp) == {} && !s.pollerReleasing
    case Enter(Poller) => l == Unlocked && s.pollerReleasing
    case Enter(Goroutine(c)) => l == Unlocked && c in s.claims && s.claims[c].exec.Leaving?
    case GiveUp => l.Releasing? || l.NonePending? || l.Clearing?
    case CountPending => l.Releasing?
    case ReadFlag => l.NonePending?
    case ClearFlag => l.Clearing?
  }

  /** The releaser lets go of the mutex with this step. */
  predicate Ends(s: State, r: ReleaseStep) {
    match r
    case GiveUp => true
    case CountPending => |Pending(s.tasks)| > 0
    case ReadFlag => !s.occupied
    case ClearFlag => true
    case _ => false
  }

  function NextLock(s: State, r: ReleaseStep): Lock {
    if Ends(s, r) then Unlocked else
    match r
    case Enter(who) => Releasing(who)
    case CountPending => NonePending(s.locks.executor.Who())
    case ReadFlag => Clearing(s.locks.executor.Who())
    case _ => s.locks.executor
  }

  /** A goroutine that has released the flag returns. */
  function Returned(claims: map<ClaimId, Claim>, who: Releaser): map<ClaimId, Claim> {
    if who.Goroutine? && who.claim in claims && claims[who.claim].exec.Leaving?
    then claims[who.claim := claims[who.claim].(exec := Exited(claims[who.claim].exec.ok))]
    else claims
  }

  function ApplyRelease(s: State, r: ReleaseStep): State {
    var who := s.locks.executor.Who();
    s.(locks := s.locks.(executor := NextLock(s, r)),
       pollerReleasing := r.NoTask? || (s.pollerReleasing && !(Ends(s, r) && who == Poller)),
       claims := if Ends(s, r) then Returned(s.claims, who) else s.claims,
       occupied := s.occupied && !r.ClearFlag?)
  }

  // ----- task creation

  predicate CreateEnabled(s: State, k: CreateStep) {
    match k
    case Open(_, _) => s.creator == Idle
    case CheckUser => s.creator.Entered?
    case CheckQueue => s.creator.NoUnfinished?
    case Insert(id, _) => s.creator.Counted? && id !in s.tasks
  }

  function NextCreator(cfg: Config, s: State, k: CreateStep): Creator {
    match k
    case Open(user, wait) => Entered(user, wait)
    case CheckUser =>
      if s.creator.Entered? && Unfinished(s.tasks, s.creator.user) == {}
      then NoUnfinished(s.creator.user, s.creator.wait) else Idle
    case CheckQueue =>
      var n := |Pending(s.tasks)|;
      if !s.creator.NoUnfinished? || n > cfg.maxTaskQueueSize || (n != 0 && !s.creator.wait)
      then Idle else Counted(s.creator.user, n)
    case Insert(_, _) => Idle
  }

  function ApplyCreate(cfg: Config, s: State, k: CreateStep): State
    requires k.Insert? ==> s.creator.Counted?
  {
    s.(creator := NextCreator(cfg, s, k),
       tasks := if k.Insert? then s.tasks[k.id := Task(s.creator.user, k.createdAt, Init, 0, 0, 0, 0)] else s.tasks)
  }

  // ----- the settlement ticker

  ghost predicate TickEnabled(s: State, k: TickStep) {
    var m := s.settlement;
    if k.Begin? then m == Waiting && Lists(s.tasks, Delivered, k.order)
    else
      && m.Tick?
      && if k.Ack? then m.phase == Acking && m.todo != []
         else if k.ListAcknowledged? then
           m.phase == Acking && m.todo == [] && Lists(s.tasks, UserAcknowledged, k.order)
         else if k.Pay? || k.PayFails? then m.phase != Acking && m.todo != [] && !m.paying
         else if k.RecordPayment? then m.paying && m.todo != []
         else if k.TakeTimeouts? then m.phase == Settling && m.todo == []
         else m.phase == TimingOut && m.todo == []
  }

  /** `ids[..k]`, which panics for a negative `k`. */
  function Cut(ids: seq<TaskId>, k: int): Option<seq<TaskId>> {
    if k >= |ids| then Some(ids) else if k >= 0 then Some(ids[..k]) else None
  }

  /** A settlement with retries left swaps Init for Init and bumps the counter if that matched;
      one without retries left fails the task. */
  function AfterPayFails(cfg: Config, t: Table, id: TaskId): Table {
    if id in t && t[id].settlementRetries < cfg.maxSettlementRetries then
      if Matches(t, id, Init) then Update(t, id, SetSettlementRetries(t[id].settlementRetries + 1)) else t
    else Update(t, id, SetProgress(Failed))
  }

  /** The error `trySettle` returns is that of the failure handler, so a handled failure counts. */
  predicate PayFailsCounts(cfg: Config, t: Table, id: TaskId) {
    id in t && t[id].settlementRetries < cfg.maxSettlementRetries ==> Matches(t, id, Init)
  }

  /** A step that deals with the head of the list being worked on. */
  predicate OnHead(k: TickStep) {
    k.Ack? || k.Pay? || k.RecordPayment? || k.PayFails?
  }

  function Head(s: State): TaskId
    requires s.settlement.Tick? && s.settlement.todo != []
  {
    s.settlement.todo[0]
  }

  predicate TickDefined(s: State, k: TickStep) {
    && (!k.Begin? ==> s.settlement.Tick?)
    && (OnHead(k) ==> s.settlement.Tick? && s.settlement.todo != [])
  }

  function TickTable(cfg: Config, s: State, k: TickStep): Table
    requires TickDefined(s, k)
  {
    if k == Ack(Acked) then Update(s.tasks, Head(s), SetProgress(UserAcknowledged))
    else if k.RecordPayment? then Update(s.tasks, Head(s), SetProgress(Finished))
    else if k.PayFails? then AfterPayFails(cfg, s.tasks, Head(s))
    else s.tasks
  }

  function NextTick(cfg: Config, s: State, k: TickStep): Settlement
    requires TickDefined(s, k)
  {
    var m := s.settlement;
    match k
    case Begin(order) => Tick(Acking, order, [], 0, false)
    case Ack(reply) =>
      m.(todo := m.todo[1..], timeouts := if reply == AckTimedOut then m.timeouts + [Head(s)] else m.timeouts)
    case ListAcknowledged(order) =>
      m.(phase := Settling,
         todo := if |order| > cfg.settlementBatchSize then order[..cfg.settlementBatchSize] else order)
    case Pay => m.(paying := true)
    case RecordPayment => m.(todo := m.todo[1..], counter := m.counter + 1, paying := false)
    case PayFails =>
      m.(todo := m.todo[1..], counter := if PayFailsCounts(cfg, s.tasks, Head(s)) then m.counter + 1 else m.counter)
    case TakeTimeouts =>
      var cut := Cut(m.timeouts, cfg.settlementBatchSize - m.counter);
      if cut.Some? then m.(phase := TimingOut, todo := cut.value, timeouts := []) else m
    case End => Waiting
  }

  function ApplyTick(cfg: Config, s: State, k: TickStep): State
    requires TickDefined(s, k)
  {
    s.(tasks := TickTable(cfg, s, k),
       settlement := NextTick(cfg, s, k),
       paid := if k.Pay? then s.paid + [Head(s)] else s.paid,
       panicked := || s.panicked
                   || (k.TakeTimeouts?
                       && Cut(s.settlement.timeouts, cfg.settlementBatchSize - s.settlement.counter).None?))
  }

  // ----- all steps

  ghost predicate Enabled(cfg: Config, s: State, step: Step) {
    match step
    case Fetch(st, id) => FetchEnabled(s, st, id)
    case ClaimFetched(st) => s.locks.Get(st).Fetched?
    case Job(c, j) => JobEnabled(cfg, s, c, j)
    case Exec(c, e) => ExecEnabled(s, c, e)
    case Release(r) => ReleaseEnabled(s, r)
    case Create(k) => CreateEnabled(s, k)
    case CancelBy(_) => true
    case Settle(k) => TickEnabled(s, k)
    case Restart => true
  }

  /** All goroutines die; the startup sweep fails what was unfinished and the service is
      registered again as not occupied. */
  function ApplyRestart(s: State): State {
    State(
      Sweep(s.tasks), map[], s.nextClaim, Locks(Unlocked, Unlocked, Unlocked), false, Idle, Waiting, false,
      s.paid, false)
  }

  ghost function Apply(cfg: Config, s: State, step: Step): State
    requires Enabled(cfg, s, step)
  {
    match step
    case Fetch(st, id) => ApplyFetch(s, st, id)
    case ClaimFetched(st) => ApplyClaim(s, st)
    case Job(c, j) => ApplyJob(cfg, s, c, j)
    case Exec(c, e) => ApplyExec(s, c, e)
    case Release(r) => ApplyRelease(s, r)
    case Create(k) => ApplyCreate(cfg, s, k)
    case CancelBy(user) => s.(tasks := Cancel(s.tasks, user))
    case Settle(k) => ApplyTick(cfg, s, k)
    case Restart => ApplyRestart(s)
  }
}
