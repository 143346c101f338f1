/** The fine-tuning broker's task table and the operations every component applies to it.

  Rows are keyed by the task identifier.  Each operation is given twice: as a function on
  tables, which the concurrent model in `Pipeline` interleaves, and as a method of `TaskDb`,
  which updates the table in place and is proved against that function.
*/
module TaskTable {
  import opened Options

  type TaskId = nat
  type User = string

  datatype Progress =
    | Init | SettingUp | SetUp | Training | Trained | Delivering
    | Delivered | UserAcknowledged | Finished | Failed

  datatype Stage = Setup | Executor | Finalizer {

    function Initial(): Progress {
      match this
      case Setup => Init
      case Executor => SetUp
      case Finalizer => Trained
    }

    function Intermediate(): Progress {
      match this
      case Setup => SettingUp
      case Executor => Training
      case Finalizer => Delivering
    }

    function Final(): Progress {
      match this
      case Setup => SetUp
      case Executor => Trained
      case Finalizer => Delivered
    }
  }

  datatype Task = Task(
    user: User,
    createdAt: nat,
    progress: Progress,
    setupRetries: nat,
    executorRetries: nat,
    finalizerRetries: nat,
    settlementRetries: nat)
  {
    function Retries(st: Stage): nat {
      match st
      case Setup => setupRetries
      case Executor => executorRetries
      case Finalizer => finalizerRetries
    }
  }

  type Table = map<TaskId, Task>

  // ----- the operations, as functions on tables

  /** The non-zero fields of the struct handed to `UpdateTask`; zero fields are not written. */
  datatype Patch =
    | SetProgress(progress: Progress)
    | SetRetries(stage: Stage, count: nat)
    | SetSettlementRetries(count: nat)
  {
    function On(task: Task): Task {
      match this
      case SetProgress(p) => task.(progress := p)
      case SetSettlementRetries(n) => if n == 0 then task else task.(settlementRetries := n)
      case SetRetries(st, n) =>
        if n == 0 then task else
        match st
        case Setup => task.(setupRetries := n)
        case Executor => task.(executorRetries := n)
        case Finalizer => task.(finalizerRetries := n)
    }
  }

  /** `b` is `a` with the column of the patch written. */
  ghost predicate Patched(a: Task, b: Task, patch: Patch) {
    && b.user == a.user && b.createdAt == a.createdAt
    && b.progress == (if patch.SetProgress? then patch.progress else a.progress)
    && b.settlementRetries == (if patch.SetSettlementRetries? && patch.count > 0 then patch.count
                               else a.settlementRetries)
    && forall st: Stage :: b.Retries(st) == if patch.SetRetries? && patch.stage == st && patch.count > 0
                                            then patch.count else a.Retries(st)
  }

  /** Guarded only against `Failed`: any other row, even a finished one, is overwritten. */
  function Update(t: Table, id: TaskId, patch: Patch): Table {
    if id in t && t[id].progress != Failed then t[id := patch.On(t[id])] else t
  }

  predicate Matches(t: Table, id: TaskId, p: Progress) {
    id in t && t[id].progress == p
  }

  /** The compare-and-swap on the progress column. */
  function Swap(t: Table, id: TaskId, old_: Progress, new_: Progress): Table {
    if Matches(t, id, old_) then t[id := t[id].(progress := new_)] else t
  }

  /** What the failure handler leaves: a row sent back with its counter bumped, a failed row, or, if
      the row has moved meanwhile, everything as it was. */
  function Handled(t: Table, id: TaskId, snapshot: nat, maxRetry: nat, bumped: Patch, old_: Progress,
        new_: Progress): Table
  {
    if snapshot >= maxRetry then Update(t, id, SetProgress(Failed))
    else if Matches(t, id, old_) then Update(Swap(t, id, old_, new_), id, bumped)
    else t
  }

  predicate Cancellable(task: Task, user: User) {
    (task.progress == Init || task.progress == SettingUp || task.progress == SetUp) && task.user == user
  }

  /** Cancellation filters by user; the identifier of the request plays no part. */
  function Cancel(t: Table, user: User): Table {
    map id | id in t :: if Cancellable(t[id], user) then t[id].(progress := Failed) else t[id]
  }

  /** The startup sweep. */
  function Sweep(t: Table): Table {
    map id | id in t :: if IsFinal(t[id].progress) then t[id] else t[id].(progress := Failed)
  }

  predicate IsPending(p: Progress) {
    p == Init || p == SettingUp || p == SetUp || p == Training
  }

  predicate IsFinal(p: Progress) {
    p == Finished || p == Failed
  }

  function Pending(t: Table): set<TaskId> {
    set id | id in t && IsPending(t[id].progress)
  }

  function Unfinished(t: Table, user: User): set<TaskId> {
    set id | id in t && !IsFinal(t[id].progress) && t[id].user == user
  }

  function InState(t: Table, p: Progress): set<TaskId> {
    set id | id in t && t[id].progress == p
  }

  /** `id` may be the row returned for "progress = p, ordered by creation time, limit 1". */
  predicate Oldest(t: Table, p: Progress, id: TaskId) {
    id in InState(t, p) && forall k :: k in InState(t, p) ==> t[id].createdAt <= t[k].createdAt
  }

  lemma OldestIsFirst(t: Table, p: Progress, id: TaskId)
    requires Oldest(t, p, id)
    ensures id in t && t[id].progress == p
    ensures forall k :: k in t && t[k].progress == p ==> t[id].createdAt <= t[k].createdAt
  {
    assert forall k :: k in t && t[k].progress == p ==> k in InState(t, p);
  }

  /** `order` may be the result list of "progress = p, ordered by creation time". */
  ghost predicate Lists(t: Table, p: Progress, order: seq<TaskId>) {
    && (forall id :: id in order <==> id in InState(t, p))
    && (forall i, j :: 0 <= i < j < |order| ==> order[i] != order[j])
    && (forall i, j :: 0 <= i < j < |order| && order[i] in t && order[j] in t ==>
          t[order[i]].createdAt <= t[order[j]].createdAt)
  }

  lemma {:induction false} OldestExists(t: Table, s: set<TaskId>) returns (id: TaskId)
    requires s != {} && s <= t.Keys
    ensures id in s && forall k :: k in s ==> t[id].createdAt <= t[k].createdAt
  {
    id :| id in s;
    if s != {id} {
      var other := OldestExists(t, s - {id});
      assert forall k :: k in s ==> k == id || k in s - {id};
      id := if t[id].createdAt <= t[other].createdAt then id else other;
    }
  }

  /** The table and the database methods the services call. */
  class TaskDb {
    var tasks: Table

    constructor ()
      ensures tasks == map[]
    {
      tasks := map[];
    }

    method AddTask(id: TaskId, task: Task) returns (ok: bool)
      modifies this
      ensures ok == (id !in old(tasks))
      ensures tasks == if ok then old(tasks)[id := task] else old(tasks)
    {
      ok := id !in tasks;
      if ok {
        tasks := tasks[id := task];
      }
    }

    /** The row of least creation time among those in a state, when there is one. */
    method GetNextTask(p: Progress) returns (id: Option<TaskId>)
      ensures id == None <==> forall k :: k in tasks ==> tasks[k].progress != p
      ensures id.Some? ==> id.value in tasks && tasks[id.value].progress == p
      ensures id.Some? ==> forall k :: k in tasks && tasks[k].progress == p ==>
                tasks[id.value].createdAt <= tasks[k].createdAt
      ensures id == None <==> InState(tasks, p) == {}
      ensures id.Some? ==> Oldest(tasks, p, id.value)
    {
      if InState(tasks, p) == {} {
        assert forall k :: k in tasks ==> k !in InState(tasks, p);
        return None;
      }
      ghost var witness_ := OldestExists(tasks, InState(tasks, p));
      assert Oldest(tasks, p, witness_);
      var k: TaskId :| k in tasks.Keys && Oldest(tasks, p, k);
      OldestIsFirst(tasks, p, k);
      id := Some(k);
    }

    /** A struct update of one row, unless it has failed: the column of the patch, unless the value is
        zero, and nothing else. */
    method UpdateTask(id: TaskId, patch: Patch)
      modifies this
      ensures tasks == Update(old(tasks), id, patch)
      ensures tasks.Keys == old(tasks).Keys && forall k :: k in tasks && k != id ==> tasks[k] == old(tasks)[k]
      ensures id in tasks && old(tasks)[id].progress == Failed ==> tasks[id] == old(tasks)[id]
      ensures id in tasks && old(tasks)[id].progress != Failed ==> Patched(old(tasks)[id], tasks[id], patch)
    {
      if id in tasks && tasks[id].progress != Failed {
        tasks := tasks[id := patch.On(tasks[id])];
      }
    }

    method UpdateTaskProgress(id: TaskId, old_: Progress, new_: Progress) returns (ok: bool)
      modifies this
      ensures ok <==> id in old(tasks) && old(tasks)[id].progress == old_
      ensures tasks == if ok then old(tasks)[id := old(tasks)[id].(progress := new_)] else old(tasks)
      ensures ok == Matches(old(tasks), id, old_)
      ensures tasks == Swap(old(tasks), id, old_, new_)
    {
      ok := id in tasks && tasks[id].progress == old_;
      if ok {
        tasks := tasks[id := tasks[id].(progress := new_)];
      }
    }

    /** Fails the user's rows that are waiting, being set up, or set up, whichever task was meant. */
    method CancelTask(user: User) returns (ok: bool)
      modifies this
      ensures tasks.Keys == old(tasks).Keys
      ensures forall id :: id in tasks ==>
                var row := old(tasks)[id];
                tasks[id] == if row.user == user && row.progress in {Init, SettingUp, SetUp}
                             then row.(progress := Failed) else row
      ensures ok == (exists id :: id in old(tasks) && Cancellable(old(tasks)[id], user))
      ensures tasks == Cancel(old(tasks), user)
    {
      var hit := set id | id in tasks && Cancellable(tasks[id], user);
      ok := hit != {};
      assert forall id :: id in tasks && Cancellable(tasks[id], user) ==> id in hit;
      tasks := map id | id in tasks :: if id in hit then tasks[id].(progress := Failed) else tasks[id];
    }

    method MarkTaskFailed(id: TaskId)
      modifies this
      ensures tasks == Update(old(tasks), id, SetProgress(Failed))
    {
      UpdateTask(id, SetProgress(Failed));
    }

    /** Fails every row that has neither failed nor finished. */
    method MarkInProgressTasksAsFailed()
      modifies this
      ensures tasks.Keys == old(tasks).Keys
      ensures forall id :: id in tasks ==>
                tasks[id] == if old(tasks)[id].progress in {Failed, Finished} then old(tasks)[id]
                             else old(tasks)[id].(progress := Failed)
      ensures tasks == Sweep(old(tasks))
    {
      tasks := map id | id in tasks :: if IsFinal(tasks[id].progress) then tasks[id]
          else tasks[id].(progress := Failed);
    }

    method UnFinishedTaskCount(user: User) returns (count: nat)
      ensures count == |set id | id in tasks && tasks[id].user == user && tasks[id].progress !in {Finished, Failed}|
      ensures count == |Unfinished(tasks, user)|
    {
      var open := set id | id in tasks && tasks[id].progress !in {Finished, Failed} && tasks[id].user == user;
      assert Unfinished(tasks, user) == open;
      assert open == set id | id in tasks && tasks[id].user == user && tasks[id].progress !in {Finished, Failed};
      count := |open|;
    }

    method PendingTrainingTaskCount() returns (count: nat)
      ensures count == |set id | id in tasks && tasks[id].progress in {Init, SettingUp, SetUp, Training}|
      ensures count == |Pending(tasks)|
    {
      var pending := set id | id in tasks && tasks[id].progress in {Init, SettingUp, SetUp, Training};
      assert Pending(tasks) == pending;
      count := |pending|;
    }

    /** All rows in a state, oldest first. */
    method ListTasks(p: Progress) returns (order: seq<TaskId>)
      ensures forall id :: id in order <==> id in tasks && tasks[id].progress == p
      ensures forall i, j :: 0 <= i < j < |order| ==> order[i] != order[j]
      ensures forall i, j :: 0 <= i < j < |order| && order[i] in tasks && order[j] in tasks ==>
                tasks[order[i]].createdAt <= tasks[order[j]].createdAt
      ensures Lists(tasks, p, order)
    {
      order := [];
      var rest := InState(tasks, p);
      while rest != {}
        invariant rest <= InState(tasks, p)
        invariant forall id :: id in order <==> id in InState(tasks, p) - rest
        invariant forall i, j :: 0 <= i < j < |order| ==> order[i] != order[j]
        invariant forall i, j :: 0 <= i < j < |order| && order[i] in tasks && order[j] in tasks ==>
                    tasks[order[i]].createdAt <= tasks[order[j]].createdAt
        invariant forall i, k :: 0 <= i < |order| && k in rest && order[i] in tasks ==>
                    tasks[order[i]].createdAt <= tasks[k].createdAt
        decreases rest
      {
        ghost var witness_ := OldestExists(tasks, rest);
        var id: TaskId :| id in rest && forall k :: k in rest ==> tasks[id].createdAt <= tasks[k].createdAt;
        assert id !in order;
        order := order + [id];
        rest := rest - {id};
      }
    }

    /** Two separate writes on the retry path: first the progress, then the counter.
        `snapshot` is the retry counter of the row as it was when the caller read it. */
    method HandleFailure(id: TaskId, snapshot: nat, maxRetry: nat, bumped: Patch, old_: Progress, new_: Progress)
      returns (retry: bool, ok: bool)
      modifies this
      ensures retry == (snapshot < maxRetry)
      ensures ok == (retry ==> id in old(tasks) && old(tasks)[id].progress == old_)
      ensures tasks.Keys == old(tasks).Keys && forall k :: k in tasks && k != id ==> tasks[k] == old(tasks)[k]
      ensures retry && !ok ==> tasks == old(tasks)
      ensures retry && ok && new_ != Failed ==> Patched(old(tasks)[id].(progress := new_), tasks[id], bumped)
      ensures !retry && id in tasks ==> tasks[id] == old(tasks)[id].(progress := Failed)
      ensures tasks == Handled(old(tasks), id, snapshot, maxRetry, bumped, old_, new_)
    {
      if snapshot < maxRetry {
        retry := true;
        ok := UpdateTaskProgress(id, old_, new_);
        if ok {
          UpdateTask(id, bumped);
        }
      } else {
        MarkTaskFailed(id);
        retry, ok := false, true;
      }
    }
  }

  // ----- what cancellation by user means for a request that names a task

  /** A cancellation request naming `id` leaves every other row alone exactly when the user has
      no cancellable row besides `id`. */
  lemma CancelTouchesOnlyRequested(t: Table, user: User, id: TaskId)
    ensures (forall k :: k in t && k != id ==> Cancel(t, user)[k] == t[k])
       <==> (forall k :: k in t && Cancellable(t[k], user) ==> k == id)
  {
    forall k | k in t && Cancellable(t[k], user)
      ensures Cancel(t, user)[k] != t[k]
    {
      assert Cancel(t, user)[k].progress == Failed;
    }
  }
}
