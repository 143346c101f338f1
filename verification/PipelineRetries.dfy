/** How often a task can be claimed and moved, and why the bound needs the two writes of the
  retry path to be seen as one.

  Sending a task back writes its progress first and its retry counter second.  A run is orderly
  when no poller fetches a task between the two.
*/
module PipelineRetries {
  import opened TaskTable
  import opened Pipeline
  import opened PipelineInvariants
  import opened PipelineRuns
  import PipelineWitnesses

  /** Claim `c` has sent task `id` back to the start of `st` and still owes the counter. */
  predicate Owes(claims: map<ClaimId, Claim>, c: ClaimId, id: TaskId, st: Stage) {
    c in claims && claims[c].pc == Bumping && claims[c].id == id && claims[c].stage == st
  }

  ghost predicate BumpOwed(claims: map<ClaimId, Claim>, id: TaskId, st: Stage) {
    exists c :: Owes(claims, c, id, st)
  }

  ghost predicate Orderly(s: State, step: Step) {
    step.Fetch? ==> !BumpOwed(s.claims, step.id, step.stage)
  }

  // ----- invariant of orderly runs

  /** The claim still has something to write. */
  predicate Busy(k: Claim) {
    k.pc != Resolved
  }

  /** Every claim on the task is over. */
  predicate AllResolved(claims: map<ClaimId, Claim>, id: TaskId) {
    forall c :: c in claims && claims[c].id == id ==> !Busy(claims[c])
  }

  /** A busy claim holds the current counter of its row. */
  predicate BusyOk(cfg: Config, row: Task, k: Claim) {
    && k.retries == row.Retries(k.stage)
    && (k.pc == Bumping ==> row.progress == k.stage.Initial() && k.retries < cfg.MaxRetries(k.stage))
  }

  ghost predicate BusyRowsOk(cfg: Config, s: State) {
    forall c :: c in s.claims && Busy(s.claims[c]) && !Matches(s.tasks, s.claims[c].id, Failed) ==>
      s.claims[c].id in s.tasks && BusyOk(cfg, s.tasks[s.claims[c].id], s.claims[c])
  }

  /** Two busy claims share a task only when it has failed. */
  ghost predicate BusyApart(s: State) {
    forall c, d :: c in s.claims && d in s.claims && c != d && Busy(s.claims[c]) && Busy(s.claims[d]) ==>
      s.claims[c].id == s.claims[d].id ==> Matches(s.tasks, s.claims[c].id, Failed)
  }

  ghost predicate BusyInv(cfg: Config, s: State) {
    BusyRowsOk(cfg, s) && BusyApart(s)
  }

  /** A fetched row that has not failed is still waiting, its counter current, with no busy claim. */
  predicate FetchedOk(s: State, st: Stage, l: Lock) {
    l.Fetched? && !Matches(s.tasks, l.id, Failed) ==>
      Matches(s.tasks, l.id, st.Initial()) && l.retries == s.tasks[l.id].Retries(st) && AllResolved(s.claims, l.id)
  }

  predicate FetchedInv(s: State) {
    FetchedOk(s, Setup, s.locks.setup) && FetchedOk(s, Executor, s.locks.executor)
        && FetchedOk(s, Finalizer, s.locks.finalizer)
  }

  predicate CountersOk(cfg: Config, t: Task) {
    && t.setupRetries <= cfg.MaxRetries(Setup)
    && t.executorRetries <= cfg.MaxRetries(Executor)
    && t.finalizerRetries <= cfg.MaxRetries(Finalizer)
  }

  ghost predicate CountersInv(cfg: Config, s: State) {
    forall id :: id in s.tasks ==> CountersOk(cfg, s.tasks[id])
  }

  ghost predicate RetryInv(cfg: Config, s: State) {
    BusyInv(cfg, s) && FetchedInv(s) && CountersInv(cfg, s)
  }

  // ----- the measure

  /** The counter as it will be once every owed increment has been written. */
  ghost function Effective(s: State, id: TaskId, st: Stage): nat
    requires id in s.tasks
  {
    s.tasks[id].Retries(st) + if BumpOwed(s.claims, id, st) then 1 else 0
  }

  // ----- preservation

  predicate RowCalm(a: Task, b: Task) {
    && b.setupRetries == a.setupRetries && b.executorRetries == a.executorRetries
        && b.finalizerRetries == a.finalizerRetries
    && (b.progress == a.progress || b.progress == Failed
        || ((a.progress == Delivered || a.progress == UserAcknowledged)
            && (b.progress == UserAcknowledged || b.progress == Finished)))
    && (a.progress == Failed ==> b.progress == Failed)
  }

  /** Rows keep their counters and their place in the pipeline, or fail. */
  ghost predicate Calm(t: Table, t': Table) {
    && (forall id :: id in t ==> id in t' && RowCalm(t[id], t'[id]))
    && (forall id :: id in t' && id !in t ==>
          && t'[id].progress == Init
          && t'[id].setupRetries == t'[id].executorRetries == t'[id].finalizerRetries == 0)
  }

  predicate SameClaim(a: Claim, b: Claim) {
    && b.stage == a.stage && b.id == a.id && b.retries == a.retries
    && (Live(b) <==> Live(a)) && (b.pc == Bumping <==> a.pc == Bumping)
  }

  ghost predicate SameClaims(m: map<ClaimId, Claim>, m': map<ClaimId, Claim>) {
    && (forall c :: c in m' <==> c in m)
    && (forall c :: c in m ==> SameClaim(m[c], m'[c]))
  }

  lemma CalmKeepsBusyRow(cfg: Config, a: Task, b: Task, k: Claim, k': Claim)
    requires RowCalm(a, b) && SameClaim(k, k') && BusyOk(cfg, a, k) && b.progress != Failed
    ensures BusyOk(cfg, b, k')
  {
  }

  lemma CalmKeepsBusyRows(cfg: Config, s: State, s': State)
    requires ClaimsInv(s) && BusyRowsOk(cfg, s) && Calm(s.tasks, s'.tasks) && SameClaims(s.claims, s'.claims)
    ensures BusyRowsOk(cfg, s')
  {
    forall c | c in s'.claims && Busy(s'.claims[c]) && !Matches(s'.tasks, s'.claims[c].id, Failed)
      ensures s'.claims[c].id in s'.tasks && BusyOk(cfg, s'.tasks[s'.claims[c].id], s'.claims[c])
    {
      var k, k' := s.claims[c], s'.claims[c];
      assert ClaimOk(s.tasks, k) && SameClaim(k, k') && RowCalm(s.tasks[k.id], s'.tasks[k.id]);
      CalmKeepsBusyRow(cfg, s.tasks[k.id], s'.tasks[k.id], k, k');
    }
  }

  lemma CalmKeepsApart(s: State, s': State)
    requires BusyApart(s) && Calm(s.tasks, s'.tasks) && SameClaims(s.claims, s'.claims)
    ensures BusyApart(s')
  {
  }

  lemma CalmKeepsBusy(cfg: Config, s: State, s': State)
    requires ClaimsInv(s) && BusyInv(cfg, s) && Calm(s.tasks, s'.tasks) && SameClaims(s.claims, s'.claims)
    ensures BusyInv(cfg, s')
  {
    CalmKeepsBusyRows(cfg, s, s');
    CalmKeepsApart(s, s');
  }

  lemma CalmKeepsFetched(s: State, s': State, st: Stage, l: Lock)
    requires FetchedOk(s, st, l) && (l.Fetched? ==> l.id in s.tasks)
    requires Calm(s.tasks, s'.tasks) && SameClaims(s.claims, s'.claims)
    ensures FetchedOk(s', st, l)
  {
  }

  lemma CalmKeepsCounters(cfg: Config, s: State, s': State)
    requires CountersInv(cfg, s) && Calm(s.tasks, s'.tasks)
    ensures CountersInv(cfg, s')
  {
  }

  predicate SameFetches(a: Lock, b: Lock) {
    b.Fetched? ==> b == a
  }

  lemma CalmKeepsRetries(cfg: Config, s: State, s': State)
    requires ClaimsInv(s) && RetryInv(cfg, s) && Calm(s.tasks, s'.tasks) && SameClaims(s.claims, s'.claims)
    requires forall st: Stage :: SameFetches(s.locks.Get(st), s'.locks.Get(st))
    ensures RetryInv(cfg, s')
  {
    CalmKeepsBusy(cfg, s, s');
    CalmKeepsCounters(cfg, s, s');
    forall st: Stage
      ensures FetchedOk(s', st, s'.locks.Get(st))
    {
      assert SameFetches(s.locks.Get(st), s'.locks.Get(st));
      CalmKeepsFetched(s, s', st, s'.locks.Get(st));
    }
    assert FetchedOk(s', Setup, s'.locks.Get(Setup)) && FetchedOk(s', Executor, s'.locks.Get(Executor))
        && FetchedOk(s', Finalizer, s'.locks.Get(Finalizer));
  }

  /** A waiting task to which no claim owes an increment has no busy claim at all. */
  lemma WaitingIsUnclaimed(cfg: Config, s: State, st: Stage, id: TaskId)
    requires ClaimsInv(s) && BusyInv(cfg, s) && Matches(s.tasks, id, st.Initial()) && !BumpOwed(s.claims, id, st)
    ensures AllResolved(s.claims, id)
  {
    forall c | c in s.claims && s.claims[c].id == id
      ensures !Busy(s.claims[c])
    {
      assert ClaimOk(s.tasks, s.claims[c]);
      assert s.claims[c].pc == Bumping ==> Owes(s.claims, c, id, st);
    }
  }

  lemma FetchKeepsRetries(cfg: Config, s: State, st: Stage, id: TaskId)
    requires ClaimsInv(s) && RetryInv(cfg, s) && FetchEnabled(s, st, id) && !BumpOwed(s.claims, id, st)
    ensures RetryInv(cfg, ApplyFetch(s, st, id))
  {
    WaitingIsUnclaimed(cfg, s, st, id);
  }

  lemma ClaimKeepsRetries(cfg: Config, s: State, st: Stage)
    requires ClaimsInv(s) && RetryInv(cfg, s) && s.locks.Get(st).Fetched?
    ensures RetryInv(cfg, ApplyClaim(s, st))
  {
  }

  /** Claim `c` stops working; its task has failed or is left with no other busy claim. */
  lemma JobEnds(cfg: Config, s: State, s': State, c: ClaimId)
    requires RetryInv(cfg, s) && c in s.claims && c in s'.claims && s'.locks == s.locks
    requires Busy(s.claims[c]) && s.claims[c].id in s.tasks
    requires s'.claims == s.claims[c := s.claims[c].(pc := s'.claims[c].pc)]
    requires s'.tasks.Keys == s.tasks.Keys
    requires forall id :: id in s.tasks && id != s.claims[c].id ==> s'.tasks[id] == s.tasks[id]
    requires Matches(s.tasks, s.claims[c].id, Failed) ==> Matches(s'.tasks, s.claims[c].id, Failed)
    requires s'.claims[c].pc == Resolved || s'.claims[c].pc == Bumping
    requires CountersOk(cfg, s'.tasks[s.claims[c].id])
    requires s'.claims[c].pc == Bumping ==> BusyOk(cfg, s'.tasks[s.claims[c].id], s'.claims[c])
    ensures RetryInv(cfg, s')
  {
  }

  lemma JobRow(cfg: Config, t: Table, k: Claim, j: JobStep)
    requires ClaimOk(t, k) && CountersOk(cfg, t[k.id]) && (t[k.id].progress != Failed ==> BusyOk(cfg, t[k.id], k))
    requires j.BumpRetries? <==> k.pc == Bumping
    ensures var t' := JobTable(cfg, t, k, j);
            && t'.Keys == t.Keys
            && CountersOk(cfg, t'[k.id])
            && (t[k.id].progress == Failed ==> t'[k.id].progress == Failed)
            && (NextPc(cfg, t, k, j) == Bumping ==> BusyOk(cfg, t'[k.id], k.(pc := Bumping)))
  {
  }

  lemma ContinuingJobKeepsRetries(cfg: Config, s: State, c: ClaimId, j: JobStep)
    requires ClaimsInv(s) && RetryInv(cfg, s) && JobEnabled(cfg, s, c, j) && (j.Start? || j.Fail?)
    ensures RetryInv(cfg, ApplyJob(cfg, s, c, j))
  {
    var s' := ApplyJob(cfg, s, c, j);
    assert SameClaims(s.claims, s'.claims);
    CalmKeepsRetries(cfg, s, s');
  }

  lemma EndingJobKeepsRetries(cfg: Config, s: State, c: ClaimId, j: JobStep)
    requires ClaimsInv(s) && RetryInv(cfg, s) && JobEnabled(cfg, s, c, j) && !j.Start? && !j.Fail?
    ensures RetryInv(cfg, ApplyJob(cfg, s, c, j))
  {
    assert ClaimOk(s.tasks, s.claims[c]);
    JobRow(cfg, s.tasks, s.claims[c], j);
    JobEnds(cfg, s, ApplyJob(cfg, s, c, j), c);
  }

  lemma JobKeepsRetries(cfg: Config, s: State, c: ClaimId, j: JobStep)
    requires ClaimsInv(s) && RetryInv(cfg, s) && JobEnabled(cfg, s, c, j)
    ensures RetryInv(cfg, ApplyJob(cfg, s, c, j))
  {
    if j.Start? || j.Fail? {
      ContinuingJobKeepsRetries(cfg, s, c, j);
    } else {
      EndingJobKeepsRetries(cfg, s, c, j);
    }
  }

  lemma CalmStep(cfg: Config, s: State, step: Step)
    requires TickInv(cfg, s) && Enabled(cfg, s, step)
    requires !step.Fetch? && !step.ClaimFetched? && !step.Job? && !step.Restart?
    ensures Calm(s.tasks, Apply(cfg, s, step).tasks) && SameClaims(s.claims, Apply(cfg, s, step).claims)
    ensures forall st: Stage :: SameFetches(s.locks.Get(st), Apply(cfg, s, step).locks.Get(st))
  {
    if step.Settle? { TickTableEffect(cfg, s, step.tick); }
  }

  lemma RestartKeepsRetries(cfg: Config, s: State)
    requires RetryInv(cfg, s)
    ensures RetryInv(cfg, ApplyRestart(s))
  {
  }

  lemma RetriesKept(cfg: Config, s: State, step: Step)
    requires ClaimsInv(s) && TickInv(cfg, s) && RetryInv(cfg, s) && Enabled(cfg, s, step) && Orderly(s, step)
    ensures RetryInv(cfg, Apply(cfg, s, step))
  {
    match step
    case Fetch(st, id) => FetchKeepsRetries(cfg, s, st, id);
    case ClaimFetched(st) => ClaimKeepsRetries(cfg, s, st);
    case Job(c, j) => JobKeepsRetries(cfg, s, c, j);
    case Restart => RestartKeepsRetries(cfg, s);
    case _ =>
      CalmStep(cfg, s, step);
      CalmKeepsRetries(cfg, s, Apply(cfg, s, step));
  }

  // ----- what a step does to one task

  /** The task stays, moves on, or is settled; no stage is charged. */
  ghost predicate Forward(s: State, s': State, id: TaskId)
    requires id in s.tasks && id in s'.tasks
  {
    && (forall st: Stage :: Effective(s', id, st) == Effective(s, id, st))
    && Edge(s.tasks[id].progress, s'.tasks[id].progress)
    && (forall st: Stage :: s.tasks[id].progress == st.Intermediate() ==> s'.tasks[id].progress != st.Initial())
  }

  /** The task goes back to the start of its stage, and the stage is charged for it. */
  ghost predicate SentBack(s: State, s': State, id: TaskId, st: Stage)
    requires id in s.tasks && id in s'.tasks
  {
    && s.tasks[id].progress == st.Intermediate() && s'.tasks[id].progress == st.Initial()
    && (forall k: Stage :: Effective(s', id, k) == Effective(s, id, k) + if k == st then 1 else 0)
  }

  ghost predicate Effect(s: State, s': State, id: TaskId) {
    && id in s.tasks && id in s'.tasks
    && (s'.tasks[id].progress == Failed || Forward(s, s', id) || exists st :: SentBack(s, s', id, st))
  }

  /** Debts of a task not touched by the step are as before. */
  ghost predicate SameDebts(m: map<ClaimId, Claim>, m': map<ClaimId, Claim>, id: TaskId) {
    forall st: Stage :: BumpOwed(m', id, st) <==> BumpOwed(m, id, st)
  }

  lemma OtherClaimsSameDebts(m: map<ClaimId, Claim>, m': map<ClaimId, Claim>, id: TaskId)
    requires forall c, st :: Owes(m', c, id, st) <==> Owes(m, c, id, st)
    ensures SameDebts(m, m', id)
  {
    forall st: Stage
      ensures BumpOwed(m', id, st) <==> BumpOwed(m, id, st)
    {
      if BumpOwed(m, id, st) {
        var c :| Owes(m, c, id, st);
        assert Owes(m', c, id, st);
      }
      if BumpOwed(m', id, st) {
        var c :| Owes(m', c, id, st);
        assert Owes(m, c, id, st);
      }
    }
  }

  lemma SameDebtsSameEffective(s: State, s': State, id: TaskId, st: Stage)
    requires id in s.tasks && id in s'.tasks && s'.tasks[id].Retries(st) == s.tasks[id].Retries(st)
    requires SameDebts(s.claims, s'.claims, id)
    ensures Effective(s', id, st) == Effective(s, id, st)
  {
  }

  /** The claim is the only one that can owe anything for its task. */
  lemma OnlyDebtor(cfg: Config, s: State, c: ClaimId, st: Stage)
    requires RetryInv(cfg, s) && c in s.claims && Busy(s.claims[c]) && !Matches(s.tasks, s.claims[c].id, Failed)
    ensures BumpOwed(s.claims, s.claims[c].id, st) <==> s.claims[c].pc == Bumping && s.claims[c].stage == st
  {
    if s.claims[c].pc == Bumping && s.claims[c].stage == st {
      assert Owes(s.claims, c, s.claims[c].id, st);
    }
  }

  /** The same for the claims after the step, in which `c` has moved on. */
  lemma OnlyDebtorAfter(cfg: Config, s: State, c: ClaimId, k': Claim, st: Stage)
    requires RetryInv(cfg, s) && c in s.claims && Busy(s.claims[c]) && !Matches(s.tasks, s.claims[c].id, Failed)
    requires k'.id == s.claims[c].id
    ensures BumpOwed(s.claims[c := k'], k'.id, st) <==> k'.pc == Bumping && k'.stage == st
  {
    if k'.pc == Bumping && k'.stage == st {
      assert Owes(s.claims[c := k'], c, k'.id, st);
    }
  }

  lemma OwnRow(cfg: Config, t: Table, k: Claim, j: JobStep)
    requires ClaimOk(t, k) && t[k.id].progress != Failed
    requires j.BumpRetries? <==> k.pc == Bumping
    requires BusyOk(cfg, t[k.id], k)
    ensures var row, row' := t[k.id], JobTable(cfg, t, k, j)[k.id];
            && (forall st :: st != k.stage ==> row'.Retries(st) == row.Retries(st))
            && row'.Retries(k.stage) == row.Retries(k.stage) + (if j.BumpRetries? then 1 else 0)
            && (NextPc(cfg, t, k, j) == Bumping ==>
                  row'.progress == k.stage.Initial() && row.progress == k.stage.Intermediate())
            && (NextPc(cfg, t, k, j) != Bumping ==>
                  row'.progress == row.progress || row'.progress == Failed
                  || (row.progress == k.stage.Intermediate() && row'.progress == k.stage.Final()))
  {
  }

  lemma OwnDebts(cfg: Config, s: State, c: ClaimId, j: JobStep, st: Stage)
    requires ClaimsInv(s) && RetryInv(cfg, s) && JobEnabled(cfg, s, c, j) && !Matches(s.tasks, s.claims[c].id, Failed)
    ensures var s', k := ApplyJob(cfg, s, c, j), s.claims[c];
            && k.id in s.tasks && k.id in s'.tasks
            && Effective(s', k.id, st)
            == Effective(s, k.id, st) + if st == k.stage && NextPc(cfg, s.tasks, k, j) == Bumping then 1 else 0
  {
    var s', k := ApplyJob(cfg, s, c, j), s.claims[c];
    assert ClaimOk(s.tasks, k);
    assert s'.claims == s.claims[c := s'.claims[c]];
    OnlyDebtor(cfg, s, c, st);
    OnlyDebtorAfter(cfg, s, c, s'.claims[c], st);
    OwnRow(cfg, s.tasks, k, j);
  }

  lemma OwnJobEffect(cfg: Config, s: State, c: ClaimId, j: JobStep)
    requires ClaimsInv(s) && RetryInv(cfg, s) && JobEnabled(cfg, s, c, j) && !Matches(s.tasks, s.claims[c].id, Failed)
    ensures Effect(s, ApplyJob(cfg, s, c, j), s.claims[c].id)
  {
    var s', k := ApplyJob(cfg, s, c, j), s.claims[c];
    assert ClaimOk(s.tasks, k);
    OwnRow(cfg, s.tasks, k, j);
    forall st: Stage
      ensures Effective(s', k.id, st) == Effective(s, k.id, st)
              + if st == k.stage && NextPc(cfg, s.tasks, k, j) == Bumping then 1 else 0
    {
      OwnDebts(cfg, s, c, j, st);
    }
    StageEdges(k.stage);
    if NextPc(cfg, s.tasks, k, j) == Bumping {
      assert SentBack(s, s', k.id, k.stage);
    }
  }

  /** Rows and debts of the task are as before, but for its progress. */
  lemma SameDebtsForward(s: State, s': State, id: TaskId)
    requires id in s.tasks && id in s'.tasks && SameDebts(s.claims, s'.claims, id)
    requires forall st: Stage :: s'.tasks[id].Retries(st) == s.tasks[id].Retries(st)
    requires Edge(s.tasks[id].progress, s'.tasks[id].progress)
    requires forall st: Stage :: s.tasks[id].progress == st.Intermediate() ==> s'.tasks[id].progress != st.Initial()
    ensures Forward(s, s', id)
  {
    forall st: Stage
      ensures Effective(s', id, st) == Effective(s, id, st)
    {
      SameDebtsSameEffective(s, s', id, st);
    }
  }

  lemma JobEffect(cfg: Config, s: State, c: ClaimId, j: JobStep, id: TaskId)
    requires ClaimsInv(s) && RetryInv(cfg, s) && JobEnabled(cfg, s, c, j) && id in s.tasks
    ensures Effect(s, ApplyJob(cfg, s, c, j), id)
  {
    var s', k := ApplyJob(cfg, s, c, j), s.claims[c];
    assert ClaimOk(s.tasks, k);
    if id != k.id {
      OtherClaimsSameDebts(s.claims, s'.claims, id);
      SameDebtsForward(s, s', id);
    } else if s.tasks[id].progress != Failed {
      OwnJobEffect(cfg, s, c, j);
    }
  }

  lemma ClaimEffect(s: State, st: Stage, id: TaskId)
    requires ClaimsInv(s) && s.locks.Get(st).Fetched? && id in s.tasks
    ensures Effect(s, ApplyClaim(s, st), id)
  {
    var s' := ApplyClaim(s, st);
    OtherClaimsSameDebts(s.claims, s'.claims, id);
    StageEdges(st);
    SameDebtsForward(s, s', id);
  }

  lemma CalmEffect(s: State, s': State, id: TaskId)
    requires Calm(s.tasks, s'.tasks) && SameClaims(s.claims, s'.claims) && id in s.tasks
    requires Edge(s.tasks[id].progress, s'.tasks[id].progress)
    ensures Effect(s, s', id)
  {
    if s'.tasks[id].progress != Failed {
      OtherClaimsSameDebts(s.claims, s'.claims, id);
      assert RowCalm(s.tasks[id], s'.tasks[id]);
      SameDebtsForward(s, s', id);
    }
  }

  lemma StepEffect(cfg: Config, s: State, step: Step, id: TaskId)
    requires ClaimsInv(s) && TickInv(cfg, s) && RetryInv(cfg, s) && Enabled(cfg, s, step) && id in s.tasks
    requires BeforeDelivery(s.tasks[id].progress)
    ensures Effect(s, Apply(cfg, s, step), id)
  {
    match step
    case Fetch(st, k) => CalmEffect(s, Apply(cfg, s, step), id);
    case ClaimFetched(st) => ClaimEffect(s, st, id);
    case Job(c, j) => JobEffect(cfg, s, c, j, id);
    case Restart =>
    case _ =>
      CalmStep(cfg, s, step);
      if !Inserts(step) { StepEvolves(cfg, s, step); }
      CalmEffect(s, Apply(cfg, s, step), id);
  }

  // ----- the bounds

  predicate BeforeDelivery(p: Progress) {
    !IsFinal(p) && p != Delivered && p != UserAcknowledged
  }

  lemma EffectiveIsBounded(cfg: Config, s: State, id: TaskId, st: Stage)
    requires RetryInv(cfg, s) && id in s.tasks && s.tasks[id].progress != Failed
    ensures Effective(s, id, st) <= cfg.MaxRetries(st)
  {
    if BumpOwed(s.claims, id, st) {
      var c :| Owes(s.claims, c, id, st);
      assert BusyOk(cfg, s.tasks[id], s.claims[c]);
    }
    assert CountersOk(cfg, s.tasks[id]);
  }

  /** Moves still possible before delivery or failure, given the effective counters. */
  function MovesOf(cfg: Config, p: Progress, setup: nat, executor: nat, finalizer: nat): int {
    var w := 2 * (cfg.MaxRetries(Finalizer) - finalizer + 1);
    var v := w + 2 * (cfg.MaxRetries(Executor) - executor + 1);
    var u := v + 2 * (cfg.MaxRetries(Setup) - setup + 1);
    match p
    case Init => u
    case SettingUp => u - 1
    case SetUp => v
    case Training => v - 1
    case Trained => w
    case Delivering => w - 1
    case _ => 0
  }

  function MoveBound(cfg: Config): nat {
    2 * (cfg.MaxRetries(Setup) + 1) + 2 * (cfg.MaxRetries(Executor) + 1) + 2 * (cfg.MaxRetries(Finalizer) + 1)
  }

  ghost function MovesLeft(cfg: Config, s: State, id: TaskId): int {
    if id !in s.tasks then MoveBound(cfg)
    else MovesOf(cfg, s.tasks[id].progress, Effective(s, id, Setup), Effective(s, id, Executor),
        Effective(s, id, Finalizer))
  }

  /** Claims of the stage that are still possible. */
  function ClaimsOf(cfg: Config, p: Progress, st: Stage, effective: nat): int {
    var m := cfg.MaxRetries(st) - effective;
    match p
    case Init => m + 1
    case SettingUp => if st == Setup then m else m + 1
    case SetUp => if st == Setup then 0 else m + 1
    case Training => if st == Setup then 0 else if st == Executor then m else m + 1
    case Trained => if st == Finalizer then m + 1 else 0
    case Delivering => if st == Finalizer then m else 0
    case _ => 0
  }

  ghost function ClaimsLeft(cfg: Config, s: State, id: TaskId, st: Stage): int {
    if id !in s.tasks then cfg.MaxRetries(st) + 1 else ClaimsOf(cfg, s.tasks[id].progress, st, Effective(s, id, st))
  }

  /** 1 when the step moves a task that is neither delivered nor failed. */
  function Moved(s: State, s': State, id: TaskId): nat {
    if && id in s.tasks && id in s'.tasks && BeforeDelivery(s.tasks[id].progress)
       && s'.tasks[id].progress != s.tasks[id].progress then 1 else 0
  }

  /** 1 when the step claims the task for the stage. */
  function Claimed(s: State, s': State, id: TaskId, st: Stage): nat {
    if Matches(s.tasks, id, st.Initial()) && Matches(s'.tasks, id, st.Intermediate()) then 1 else 0
  }

  lemma EffectLowersMoves(cfg: Config, s: State, s': State, id: TaskId)
    requires RetryInv(cfg, s) && Effect(s, s', id) && BeforeDelivery(s.tasks[id].progress)
    ensures MovesLeft(cfg, s', id) + Moved(s, s', id) <= MovesLeft(cfg, s, id)
  {
    EffectiveIsBounded(cfg, s, id, Setup);
    EffectiveIsBounded(cfg, s, id, Executor);
    EffectiveIsBounded(cfg, s, id, Finalizer);
    if s'.tasks[id].progress != Failed && !Forward(s, s', id) {
      var st :| SentBack(s, s', id, st);
    } else if s'.tasks[id].progress != Failed {
      NoRetry(s, s', id);
    }
  }

  lemma EffectLowersClaims(cfg: Config, s: State, s': State, id: TaskId, st: Stage)
    requires RetryInv(cfg, s) && Effect(s, s', id) && BeforeDelivery(s.tasks[id].progress)
    ensures ClaimsLeft(cfg, s', id, st) + Claimed(s, s', id, st) <= ClaimsLeft(cfg, s, id, st)
  {
    EffectiveIsBounded(cfg, s, id, st);
    if s'.tasks[id].progress != Failed && !Forward(s, s', id) {
      var k :| SentBack(s, s', id, k);
    } else if s'.tasks[id].progress != Failed {
      NoRetry(s, s', id);
    }
  }

  lemma NoRetry(s: State, s': State, id: TaskId)
    requires id in s.tasks && id in s'.tasks && Forward(s, s', id)
    ensures s.tasks[id].progress == SettingUp ==> s'.tasks[id].progress != Init
    ensures s.tasks[id].progress == Training ==> s'.tasks[id].progress != SetUp
    ensures s.tasks[id].progress == Delivering ==> s'.tasks[id].progress != Trained
  {
    assert Setup.Intermediate() == SettingUp && Executor.Intermediate() == Training
        && Finalizer.Intermediate() == Delivering;
  }

  /** A new row owes nothing and has all its moves and claims ahead. */
  lemma InsertStartsFull(cfg: Config, s: State, step: Step, id: TaskId, st: Stage)
    requires ClaimsInv(s) && Enabled(cfg, s, step) && id !in s.tasks
    ensures MovesLeft(cfg, Apply(cfg, s, step), id) == MoveBound(cfg)
    ensures ClaimsLeft(cfg, Apply(cfg, s, step), id, st) == cfg.MaxRetries(st) + 1
  {
    if Inserts(step) && step.create.id == id {
      assert forall c, k :: !Owes(s.claims, c, id, k);
    } else {
      StaysAbsent(cfg, s, step, id);
    }
  }

  lemma StaysAbsent(cfg: Config, s: State, step: Step, id: TaskId)
    requires Enabled(cfg, s, step) && id !in s.tasks && !(Inserts(step) && step.create.id == id)
    ensures id !in Apply(cfg, s, step).tasks
  {
  }

  // ----- over runs

  ghost predicate IsOrderlyRun(cfg: Config, states: seq<State>, steps: seq<Step>) {
    IsRun(cfg, states, steps) && forall i :: 0 <= i < |steps| ==> Orderly(states[i], steps[i])
  }

  lemma {:induction false} OrderlyRunKeepsRetries(cfg: Config, states: seq<State>, steps: seq<Step>, n: nat)
    requires IsOrderlyRun(cfg, states, steps) && n <= |steps|
    ensures RetryInv(cfg, states[n])
  {
    if n > 0 {
      OrderlyRunKeepsRetries(cfg, states, steps, n - 1);
      RunKeepsInv(cfg, states, steps, n - 1);
      RetriesKept(cfg, states[n - 1], steps[n - 1]);
    }
  }

  function MovesMade(states: seq<State>, n: nat, id: TaskId): nat
    requires n < |states|
  {
    if n == 0 then 0 else MovesMade(states, n - 1, id) + Moved(states[n - 1], states[n], id)
  }

  function ClaimsMade(states: seq<State>, n: nat, id: TaskId, st: Stage): nat
    requires n < |states|
  {
    if n == 0 then 0 else ClaimsMade(states, n - 1, id, st) + Claimed(states[n - 1], states[n], id, st)
  }

  /** The measures never rise, and each move or claim lowers them. */
  ghost predicate Pays(cfg: Config, s: State, s': State, id: TaskId, st: Stage) {
    && MovesLeft(cfg, s', id) + Moved(s, s', id) <= MovesLeft(cfg, s, id)
    && ClaimsLeft(cfg, s', id, st) + Claimed(s, s', id, st) <= ClaimsLeft(cfg, s, id, st)
  }

  lemma OpenTaskPays(cfg: Config, s: State, step: Step, id: TaskId, st: Stage)
    requires ClaimsInv(s) && TickInv(cfg, s) && RetryInv(cfg, s) && Enabled(cfg, s, step)
    requires id in s.tasks && BeforeDelivery(s.tasks[id].progress)
    ensures Pays(cfg, s, Apply(cfg, s, step), id, st)
  {
    StepEffect(cfg, s, step, id);
    EffectLowersMoves(cfg, s, Apply(cfg, s, step), id);
    EffectLowersClaims(cfg, s, Apply(cfg, s, step), id, st);
  }

  lemma ClosedTaskPays(cfg: Config, s: State, s': State, id: TaskId, st: Stage)
    requires id in s.tasks && !BeforeDelivery(s.tasks[id].progress)
    requires id in s'.tasks && !BeforeDelivery(s'.tasks[id].progress)
    ensures Pays(cfg, s, s', id, st)
  {
  }

  lemma NewTaskPays(cfg: Config, s: State, step: Step, id: TaskId, st: Stage)
    requires ClaimsInv(s) && Enabled(cfg, s, step) && id !in s.tasks
    ensures Pays(cfg, s, Apply(cfg, s, step), id, st)
  {
    InsertStartsFull(cfg, s, step, id, st);
  }

  lemma StepPays(cfg: Config, s: State, step: Step, id: TaskId, st: Stage)
    requires ClaimsInv(s) && TickInv(cfg, s) && RetryInv(cfg, s) && Enabled(cfg, s, step)
    ensures Pays(cfg, s, Apply(cfg, s, step), id, st)
  {
    if id !in s.tasks {
      NewTaskPays(cfg, s, step, id, st);
    } else if BeforeDelivery(s.tasks[id].progress) {
      OpenTaskPays(cfg, s, step, id, st);
    } else {
      AfterDelivery(cfg, s, step, id);
      ClosedTaskPays(cfg, s, Apply(cfg, s, step), id, st);
    }
  }

  lemma AfterDelivery(cfg: Config, s: State, step: Step, id: TaskId)
    requires ClaimsInv(s) && TickInv(cfg, s) && Enabled(cfg, s, step) && id in s.tasks
        && !BeforeDelivery(s.tasks[id].progress)
    ensures id in Apply(cfg, s, step).tasks && !BeforeDelivery(Apply(cfg, s, step).tasks[id].progress)
  {
    if !Inserts(step) {
      StepEvolves(cfg, s, step);
      EvolvedRowStays(s.tasks[id], Apply(cfg, s, step).tasks[id]);
    }
  }

  lemma EvolvedRowStays(a: Task, b: Task)
    requires RowEvolves(a, b) && !BeforeDelivery(a.progress)
    ensures !BeforeDelivery(b.progress)
  {
  }

  lemma {:induction false} MadeAndLeft(cfg: Config, states: seq<State>, steps: seq<Step>, n: nat, id: TaskId, st: Stage)
    requires IsOrderlyRun(cfg, states, steps) && n <= |steps|
    ensures MovesMade(states, n, id) + MovesLeft(cfg, states[n], id) <= MoveBound(cfg)
    ensures ClaimsMade(states, n, id, st) + ClaimsLeft(cfg, states[n], id, st) <= cfg.MaxRetries(st) + 1
  {
    if n > 0 {
      MadeAndLeft(cfg, states, steps, n - 1, id, st);
      RunKeepsInv(cfg, states, steps, n - 1);
      OrderlyRunKeepsRetries(cfg, states, steps, n - 1);
      StepPays(cfg, states[n - 1], steps[n - 1], id, st);
    }
  }

  /** In an orderly run a stage claims a task at most once more than its retry limit, and a task
      moves at most twice that often, over the three stages, before it is delivered or fails. */
  lemma ClaimsAndMovesAreBounded(cfg: Config, states: seq<State>, steps: seq<Step>, n: nat, id: TaskId, st: Stage)
    requires IsOrderlyRun(cfg, states, steps) && n <= |steps|
    ensures ClaimsMade(states, n, id, st)
         <= (match st case Executor => cfg.maxExecutorRetries case _ => cfg.maxFinalizerRetries) + 1
    ensures MovesMade(states, n, id) <= 2 * (cfg.maxExecutorRetries + 1) + 4 * (cfg.maxFinalizerRetries + 1)
  {
    MadeAndLeft(cfg, states, steps, n, id, st);
    OrderlyRunKeepsRetries(cfg, states, steps, n);
    if id in states[n].tasks && states[n].tasks[id].progress != Failed {
      EffectiveIsBounded(cfg, states[n], id, Setup);
      EffectiveIsBounded(cfg, states[n], id, Executor);
      EffectiveIsBounded(cfg, states[n], id, Finalizer);
    }
  }

  // ----- without that order there is no bound

  lemma Extend(cfg: Config, states: seq<State>, steps: seq<Step>, step: Step, st: Stage)
    returns (states': seq<State>, steps': seq<Step>)
    requires IsRun(cfg, states, steps) && Enabled(cfg, states[|steps|], step)
    ensures IsRun(cfg, states', steps') && |steps'| == |steps| + 1
    ensures states'[|steps'|] == Apply(cfg, states[|steps|], step)
    ensures ClaimsMade(states', |steps'|, 0, st)
         == ClaimsMade(states, |steps|, 0, st) + Claimed(states[|steps|], states'[|steps'|], 0, st)
  {
    states', steps' := PipelineWitnesses.Extend(cfg, states, steps, step);
    ClaimsMadePrefix(states, states', |steps|, st);
  }

  lemma {:induction false} ClaimsMadePrefix(states: seq<State>, states': seq<State>, n: nat, st: Stage)
    requires n < |states| <= |states'| && states'[..|states|] == states
    ensures ClaimsMade(states', n, 0, st) == ClaimsMade(states, n, 0, st)
  {
    assert states'[n] == states'[..|states|][n];
    if n > 0 {
      assert states'[n - 1] == states'[..|states|][n - 1];
      ClaimsMadePrefix(states, states', n - 1, st);
    }
  }

  /** Task 0 is at `p`, alone at the start of the stage if it is there, its counter at `n`, and the
      poller of the stage is free. */
  predicate Placed(s: State, st: Stage, p: Progress, n: nat) {
    && 0 in s.tasks && s.tasks[0].progress == p && s.tasks[0].Retries(st) == n
    && InState(s.tasks, st.Initial()) == (if p == st.Initial() then {0} else {})
    && s.locks.Get(st) == Unlocked && !s.pollerReleasing
  }

  /** All claims but `c` and `d` are over. */
  ghost predicate OnlyBusy(s: State, c: ClaimId, d: ClaimId) {
    forall e :: e in s.claims ==> e < s.nextClaim && (e != c && e != d ==> s.claims[e].pc == Resolved)
  }

  /** Task 0 waits for the stage with its counter at `n`; every claim so far is over. */
  ghost predicate Waits(s: State, st: Stage, n: nat) {
    Placed(s, st, st.Initial(), n) && OnlyBusy(s, s.nextClaim, s.nextClaim)
  }

  predicate IsLapClaim(s: State, st: Stage, c: ClaimId, k: nat, pc: WorkerPc) {
    && c in s.claims && s.claims[c].stage == st && s.claims[c].id == 0
    && s.claims[c].retries == k && s.claims[c].pc == pc
  }

  /** Task 0, its counter at `n`, is held for the stage by claim `c`, which read the counter as `k`;
      any other busy claim is `d`. */
  ghost predicate Held(s: State, st: Stage, c: ClaimId, d: ClaimId, k: nat, n: nat, pc: WorkerPc) {
    IsLapClaim(s, st, c, k, pc) && Placed(s, st, st.Intermediate(), n) && OnlyBusy(s, c, d)
  }

  /** Claim `c` has sent task 0 back and still owes the counter. */
  ghost predicate Owing(s: State, st: Stage, c: ClaimId, k: nat, n: nat) {
    IsLapClaim(s, st, c, k, Bumping) && Placed(s, st, st.Initial(), n) && OnlyBusy(s, c, c)
  }

  /** The poller takes task 0 when no claim but `d` is busy. */
  lemma Take(cfg: Config, s: State, st: Stage, d: ClaimId, n: nat)
    requires Placed(s, st, st.Initial(), n) && OnlyBusy(s, d, d)
    ensures FetchEnabled(s, st, 0)
    ensures Claimed(s, ApplyFetch(s, st, 0), 0, st) == 0
    ensures var s1 := ApplyFetch(s, st, 0);
            && s1.locks.Get(st) == Fetched(0, n)
            && Held(ApplyClaim(s1, st), st, s.nextClaim, d, n, n, Queued)
            && (d in s.claims ==> d in ApplyClaim(s1, st).claims && ApplyClaim(s1, st).claims[d] == s.claims[d])
            && Claimed(s1, ApplyClaim(s1, st), 0, st) == 1
  {
    var s2 := ApplyClaim(ApplyFetch(s, st, 0), st);
    assert forall id :: id in InState(s2.tasks, st.Initial()) ==> id in InState(s.tasks, st.Initial()) && id != 0;
  }

  lemma Work(cfg: Config, s: State, st: Stage, c: ClaimId, k: nat, n: nat, j: JobStep)
    requires (j.Start? && Held(s, st, c, c, k, n, Queued)) || (j.Fail? && Held(s, st, c, c, k, n, Running))
    ensures JobEnabled(cfg, s, c, j)
    ensures Held(ApplyJob(cfg, s, c, j), st, c, c, k, n, if j.Start? then Running else Failing)
    ensures Claimed(s, ApplyJob(cfg, s, c, j), 0, st) == 0
  {
    if j.Start? {
      assert Active(s.claims, st) == {};
    }
  }

  lemma SendBack(cfg: Config, s: State, st: Stage, c: ClaimId, k: nat, n: nat)
    requires k < cfg.MaxRetries(st) && Held(s, st, c, c, k, n, Failing)
    ensures JobEnabled(cfg, s, c, HandleFailure) && Owing(ApplyJob(cfg, s, c, HandleFailure), st, c, k, n)
    ensures Claimed(s, ApplyJob(cfg, s, c, HandleFailure), 0, st) == 0
  {
    var t' := ApplyJob(cfg, s, c, HandleFailure).tasks;
    assert forall id :: id in InState(t', st.Initial()) ==> id == 0 || id in InState(s.tasks, st.Initial());
    assert 0 in InState(t', st.Initial());
  }

  lemma BumpedRow(t: Table, st: Stage, k: nat)
    requires 0 in t && t[0].progress != Failed
    ensures var t' := Update(t, 0, SetRetries(st, k + 1));
            && 0 in t' && t'[0].progress == t[0].progress && t'[0].Retries(st) == k + 1
            && forall p :: InState(t', p) == InState(t, p)
  {
  }

  lemma Bump(cfg: Config, s: State, st: Stage, c: ClaimId, k: nat, n: nat)
    requires Owing(s, st, c, k, n)
    ensures JobEnabled(cfg, s, c, BumpRetries) && Waits(ApplyJob(cfg, s, c, BumpRetries), st, k + 1)
    ensures Claimed(s, ApplyJob(cfg, s, c, BumpRetries), 0, st) == 0
  {
    BumpedRow(s.tasks, st, k);
  }

  lemma LateBump(cfg: Config, s: State, st: Stage, c: ClaimId, d: ClaimId)
    requires c != d && Held(s, st, c, d, 0, 0, Queued) && IsLapClaim(s, st, d, 0, Bumping)
    ensures JobEnabled(cfg, s, d, BumpRetries) && Held(ApplyJob(cfg, s, d, BumpRetries), st, c, c, 0, 1, Queued)
    ensures Claimed(s, ApplyJob(cfg, s, d, BumpRetries), 0, st) == 0
  {
    BumpedRow(s.tasks, st, 0);
  }

  /** Start, fail, send back. */
  lemma FailedAttempt(cfg: Config, states: seq<State>, steps: seq<Step>, st: Stage, c: ClaimId, k: nat, n: nat)
    returns (states': seq<State>, steps': seq<Step>)
    requires IsRun(cfg, states, steps) && Held(states[|steps|], st, c, c, k, n, Queued) && k < cfg.MaxRetries(st)
    ensures IsRun(cfg, states', steps') && Owing(states'[|steps'|], st, c, k, n)
    ensures ClaimsMade(states', |steps'|, 0, st) == ClaimsMade(states, |steps|, 0, st)
  {
    Work(cfg, states[|steps|], st, c, k, n, Start);
    states', steps' := Extend(cfg, states, steps, Job(c, Start), st);
    Work(cfg, states'[|steps'|], st, c, k, n, Fail);
    states', steps' := Extend(cfg, states', steps', Job(c, Fail), st);
    SendBack(cfg, states'[|steps'|], st, c, k, n);
    states', steps' := Extend(cfg, states', steps', Job(c, HandleFailure), st);
  }

  /** Fetch and claim. */
  lemma TakeTask(cfg: Config, states: seq<State>, steps: seq<Step>, st: Stage, d: ClaimId, n: nat)
    returns (states': seq<State>, steps': seq<Step>)
    requires IsRun(cfg, states, steps)
    requires Waits(states[|steps|], st, n) || Owing(states[|steps|], st, d, n, n)
    ensures IsRun(cfg, states', steps') && Held(states'[|steps'|], st, states[|steps|].nextClaim, d, n, n, Queued)
    ensures d in states[|steps|].claims ==>
              d in states'[|steps'|].claims && states'[|steps'|].claims[d] == states[|steps|].claims[d]
    ensures ClaimsMade(states', |steps'|, 0, st) == ClaimsMade(states, |steps|, 0, st) + 1
  {
    Take(cfg, states[|steps|], st, d, n);
    states', steps' := Extend(cfg, states, steps, Fetch(st, 0), st);
    states', steps' := Extend(cfg, states', steps', ClaimFetched(st), st);
  }

  /** The first attempt, and the second claim made before the first one's counter is written. */
  lemma ClaimedTwice(cfg: Config, states: seq<State>, steps: seq<Step>, st: Stage)
    returns (states': seq<State>, steps': seq<Step>, d: ClaimId)
    requires cfg.MaxRetries(st) > 0 && IsRun(cfg, states, steps) && Waits(states[|steps|], st, 0)
    ensures IsRun(cfg, states', steps') && Held(states'[|steps'|], st, d, d, 0, 1, Queued)
    ensures ClaimsMade(states', |steps'|, 0, st) == ClaimsMade(states, |steps|, 0, st) + 2
  {
    var c := states[|steps|].nextClaim;
    states', steps' := TakeTask(cfg, states, steps, st, c, 0);
    states', steps' := FailedAttempt(cfg, states', steps', st, c, 0, 0);
    d := states'[|steps'|].nextClaim;
    states', steps' := TakeTask(cfg, states', steps', st, c, 0);
    LateBump(cfg, states'[|steps'|], st, d, c);
    states', steps' := Extend(cfg, states', steps', Job(c, BumpRetries), st);
  }

  /** Both claims have read the counter as 0, so both write 1. */
  lemma DisorderedStart(cfg: Config, states: seq<State>, steps: seq<Step>, st: Stage)
    returns (states': seq<State>, steps': seq<Step>)
    requires cfg.MaxRetries(st) > 0 && IsRun(cfg, states, steps) && Waits(states[|steps|], st, 0)
    ensures IsRun(cfg, states', steps') && Waits(states'[|steps'|], st, 1)
    ensures ClaimsMade(states', |steps'|, 0, st) == ClaimsMade(states, |steps|, 0, st) + 2
  {
    var d;
    states', steps', d := ClaimedTwice(cfg, states, steps, st);
    states', steps' := FailedAttempt(cfg, states', steps', st, d, 0, 1);
    Bump(cfg, states'[|steps'|], st, d, 0, 1);
    states', steps' := Extend(cfg, states', steps', Job(d, BumpRetries), st);
  }

  lemma ComeToWait(cfg: Config, st: Stage) returns (states: seq<State>, steps: seq<Step>)
    ensures IsRun(cfg, states, steps) && Waits(states[|steps|], st, 0)
  {
    states, steps := PipelineWitnesses.ReachStage(cfg, st);
  }

  /** After the disordered start, each failed attempt brings the counter one closer to the limit. */
  lemma {:induction false} Attempts(cfg: Config, st: Stage, n: nat) returns (states: seq<State>, steps: seq<Step>)
    requires 1 <= n <= cfg.MaxRetries(st)
    ensures IsRun(cfg, states, steps) && Waits(states[|steps|], st, n)
    ensures ClaimsMade(states, |steps|, 0, st) >= n + 1
  {
    if n == 1 {
      states, steps := ComeToWait(cfg, st);
      states, steps := DisorderedStart(cfg, states, steps, st);
    } else {
      states, steps := Attempts(cfg, st, n - 1);
      var c := states[|steps|].nextClaim;
      states, steps := TakeTask(cfg, states, steps, st, c, n - 1);
      states, steps := FailedAttempt(cfg, states, steps, st, c, n - 1, n - 1);
      Bump(cfg, states[|steps|], st, c, n - 1, n - 1);
      states, steps := Extend(cfg, states, steps, Job(c, BumpRetries), st);
    }
  }

  /** If a poller may fetch between the two writes, the bound on claims fails at every stage, for every
      positive retry limit and every size of the worker pools. */
  lemma BoundFailsWithoutOrder(cfg: Config, st: Stage)
    requires cfg.MaxRetries(st) > 0
    ensures exists states, steps ::
              IsRun(cfg, states, steps) && ClaimsMade(states, |steps|, 0, st) > cfg.MaxRetries(st) + 1
  {
    var n := cfg.MaxRetries(st);
    var states, steps := Attempts(cfg, st, n);
    states, steps := TakeTask(cfg, states, steps, st, states[|steps|].nextClaim, n);
  }

  // ----- exactly when the bound holds

  /** The task has been claimed by the stage. */
  predicate Past(st: Stage, p: Progress) {
    && p != Init
    && (st != Setup ==> p != SettingUp && p != SetUp)
    && (st == Finalizer ==> p != Training && p != Trained)
  }

  lemma JobNeverSendsBack(cfg: Config, t: Table, k: Claim, j: JobStep, id: TaskId, st: Stage)
    requires cfg.MaxRetries(st) == 0 && id in t && Past(st, t[id].progress)
    ensures var t' := JobTable(cfg, t, k, j); id in t' && Past(st, t'[id].progress)
  {
  }

  lemma EdgeStaysPast(st: Stage, a: Task, b: Task)
    requires RowEvolves(a, b) && RowKeepsOwner(a, b) && Past(st, a.progress)
    ensures Past(st, b.progress)
  {
  }

  /** Without retries nothing comes back to the start of a stage. */
  lemma NeverBack(cfg: Config, s: State, step: Step, id: TaskId, st: Stage)
    requires ClaimsInv(s) && TickInv(cfg, s) && Enabled(cfg, s, step)
    requires cfg.MaxRetries(st) == 0 && id in s.tasks && Past(st, s.tasks[id].progress)
    ensures id in Apply(cfg, s, step).tasks && Past(st, Apply(cfg, s, step).tasks[id].progress)
  {
    if step.Job? {
      JobNeverSendsBack(cfg, s.tasks, s.claims[step.c], step.job, id, st);
    } else if !step.ClaimFetched? && !step.Restart? && !Inserts(step) {
      OtherStepsKeepOwners(cfg, s, step);
      StepEvolves(cfg, s, step);
      EdgeStaysPast(st, s.tasks[id], Apply(cfg, s, step).tasks[id]);
    }
  }

  lemma {:induction false} NoRetriesOneClaim(cfg: Config, states: seq<State>, steps: seq<Step>, n: nat, id: TaskId,
        st: Stage)
    requires IsRun(cfg, states, steps) && n <= |steps| && cfg.MaxRetries(st) == 0
    ensures ClaimsMade(states, n, id, st) <= 1
    ensures ClaimsMade(states, n, id, st) == 1 ==> id in states[n].tasks && Past(st, states[n].tasks[id].progress)
  {
    if n > 0 {
      NoRetriesOneClaim(cfg, states, steps, n - 1, id, st);
      RunKeepsInv(cfg, states, steps, n - 1);
      if id in states[n - 1].tasks && Past(st, states[n - 1].tasks[id].progress) {
        NeverBack(cfg, states[n - 1], steps[n - 1], id, st);
      }
    }
  }

  /** A stage keeps the bound of its retry limit plus one claims in every run exactly when the limit is
      zero. */
  lemma BoundHoldsIff(cfg: Config, st: Stage)
    ensures (forall states, steps, n, id :: IsRun(cfg, states, steps) && 0 <= n <= |steps| ==>
               ClaimsMade(states, n, id, st) <= cfg.MaxRetries(st) + 1)
       <==> cfg.MaxRetries(st) == 0
  {
    if cfg.MaxRetries(st) == 0 {
      forall states, steps, n: nat, id | IsRun(cfg, states, steps) && n <= |steps|
        ensures ClaimsMade(states, n, id, st) <= 1
      {
        NoRetriesOneClaim(cfg, states, steps, n, id, st);
      }
    } else {
      BoundFailsWithoutOrder(cfg, st);
    }
  }
}
