/** Rounds in which a call to the contract fails: what earlier calls were paid stays on the table. */
module SettlementFailures {
  import opened Options
  import opened Requests
  import opened SettlementPlan
  import opened SettlementRound
  import opened SettlementLaws

  /** Nothing planned for settlement is deleted by a failing round: it is listed again, now and later. */
  lemma KeptIsListedAgain(chain: Chain, round: nat, now: nat, rows: seq<Request>, outcomes: seq<Outcome>,
        k: nat, r: Request, later: nat)
    requires IsRound(chain, round, now, rows, outcomes) && k < |outcomes| && r in outcomes[k].settled && now <= later
    ensures r in ListDue(Waiting(rows, outcomes, now), later)
  {
    var due := ListDue(rows, now);
    PlannedOutcomesAreOk(chain, round, now, rows, outcomes);
    assert OutcomeOk(due, outcomes[k]) && r in outcomes[k].original.requests;
    if PutOffIn(r, outcomes) {
      var i := PutOffRow(rows, now, outcomes, r);
    }
    WaitedRow(rows, now, outcomes, r);
  }

  lemma {:induction false} BatchStartsAscend(i: nat, j: nat)
    requires i <= j
    ensures BatchStart(i) <= BatchStart(j)
  {
    if i >= BATCH_SIZE {
      BatchStartsAscend(i - BATCH_SIZE, j - BATCH_SIZE);
    }
  }

  lemma FirstOfBatchFails(chain: Chain, round: nat, items: seq<Item>, k: nat)
    requires k < |items|
    ensures CallFails(chain, round, items, BatchStart(k)) == CallFails(chain, round, items, k)
  {
    BatchStartIsAligned(k);
  }

  /** The calls before the failing one are those of whole batches. */
  lemma SentIsAligned(chain: Chain, round: nat, items: seq<Item>, sent: nat)
    requires Sent(chain, round, items, false, sent)
    ensures sent <= BatchStart(|items| - 1)
  {
    FirstOfBatchFails(chain, round, items, sent);
    assert BatchStart(sent) == sent;
    BatchStartsAscend(sent, |items| - 1);
  }

  lemma {:induction false} SomethingWasPaid(chain: Chain, round: nat, items: seq<Item>, n: nat)
    requires n <= |items| && Charged(chain, round, items, n) > 0
    ensures exists k :: 0 <= k < n && items[k].totalFee > 0
  {
    if items[n - 1].totalFee <= 0 {
      SomethingWasPaid(chain, round, items, n - 1);
    }
  }

  // ----- a contract that is paid for one user and then fails

  function ReportOn(item: Item, user: User): Log {
    SettlementResult(item.user, if item.user == user then Success else Partial)
  }

  function ReportsFor(batch: seq<Item>, user: User): (logs: seq<Log>)
    ensures |logs| == |batch| && forall i :: 0 <= i < |batch| ==> logs[i] == ReportOn(batch[i], user)
  {
    seq(|batch|, i requires 0 <= i < |batch| => ReportOn(batch[i], user))
  }

  /** The chain whose calls from offset `last` on fail, and are paid for `user` before. */
  function FailingAt(chain: Chain, user: User, last: nat): Chain {
    chain.(settle := (round, start, batch) =>
      if start >= last then TransactionError else Receipt(ReportsFor(batch, user)))
  }

  lemma {:induction false} ReportsCount(batch: seq<Item>, user: User, n: nat, u: User)
    requires n <= |batch|
    ensures Reports(ReportsFor(batch, user)[..n], u) > 0 <==> exists i :: 0 <= i < n && batch[i].user == u
    ensures DifferentUsers(batch) ==> Reports(ReportsFor(batch, user)[..n], u) <= 1
  {
    var logs := ReportsFor(batch, user);
    if n > 0 {
      ReportsCount(batch, user, n - 1, u);
      assert logs[..n][..n - 1] == logs[..n - 1];
    }
  }

  lemma FailingIsHonest(chain: Chain, user: User, last: nat)
    ensures Honest(FailingAt(chain, user, last)) && Complete(FailingAt(chain, user, last))
  {
    var c := FailingAt(chain, user, last);
    forall round, start, batch
      ensures ReportsOwn(c.settle(round, start, batch), batch)
      ensures ReportsOnce(c.settle(round, start, batch), batch)
      ensures ReportsAll(c.settle(round, start, batch), batch)
    {
      var logs := ReportsFor(batch, user);
      assert logs[..|batch|] == logs;
      forall u {
        ReportsCount(batch, user, |batch|, u);
      }
    }
  }

  lemma FailingPays(chain: Chain, round: nat, items: seq<Item>, k: nat, i: nat)
    requires k < |items| && i < BatchStart(|items| - 1) && DifferentUsers(items)
    ensures var c := FailingAt(chain, items[k].user, BatchStart(|items| - 1));
            !CallFails(c, round, items, i) && (PaidBy(c, round, items, i) <==> i == k)
  {
    var last, start := BatchStart(|items| - 1), BatchStart(i);
    var batch := BatchAt(items, start);
    var logs := ReportsFor(batch, items[k].user);
    BatchStartIsAligned(|items| - 1);
    if last <= start {
      assert false;
    }
    assert batch[i - start] == items[i] && logs[i - start] in logs;
    assert CallFor(FailingAt(chain, items[k].user, last), round, items, i) == Receipt(logs);
    forall m | 0 <= m < |logs| && ReportsPayment(logs[m])
      ensures logs[m].user == items[k].user
    {
    }
  }

  lemma {:induction false} FailingCharges(chain: Chain, round: nat, items: seq<Item>, k: nat, n: nat)
    requires k < |items| && n <= BatchStart(|items| - 1) && DifferentUsers(items)
    ensures Charged(FailingAt(chain, items[k].user, BatchStart(|items| - 1)), round, items, n)
         == if k < n then items[k].totalFee else 0
  {
    if n > 0 {
      FailingCharges(chain, round, items, k, n - 1);
      FailingPays(chain, round, items, k, n - 1);
    }
  }

  lemma FailingFails(chain: Chain, round: nat, items: seq<Item>, k: nat)
    requires k < |items| && DifferentUsers(items)
    ensures var last := BatchStart(|items| - 1);
            Sent(FailingAt(chain, items[k].user, last), round, items, false, last)
  {
    var last := BatchStart(|items| - 1);
    forall i | 0 <= i < last
      ensures !CallFails(FailingAt(chain, items[k].user, last), round, items, i)
    {
      FailingPays(chain, round, items, k, i);
    }
    BatchStartIsAligned(|items| - 1);
  }

  /** The chain `c`, which previews like `chain` and reports each item of a call exactly once, lets a
      call fail after it was paid for some of the `sent` items before. */
  ghost predicate ChargesThenFails(chain: Chain, c: Chain, round: nat, items: seq<Item>, sent: nat) {
    && c.signs == chain.signs && c.preview == chain.preview && Honest(c) && Complete(c)
    && Sent(c, round, items, false, sent) && Charged(c, round, items, sent) > 0
  }

  ghost predicate CanChargeAndFail(chain: Chain, round: nat, items: seq<Item>) {
    exists c: Chain, sent: nat :: ChargesThenFails(chain, c, round, items, sent)
  }

  /** A failing round can have charged something, and kept the requests it charged for, exactly when
      an item that costs something comes before the last batch. */
  lemma ChargesAndFailsIff(chain: Chain, round: nat, items: seq<Item>)
    requires DifferentUsers(items) && items != []
    ensures CanChargeAndFail(chain, round, items)
       <==> exists k :: 0 <= k < BatchStart(|items| - 1) && items[k].totalFee > 0
  {
    if CanChargeAndFail(chain, round, items) {
      var c: Chain, sent: nat :| ChargesThenFails(chain, c, round, items, sent);
      SentIsAligned(c, round, items, sent);
      SomethingWasPaid(c, round, items, sent);
    }
    if k :| 0 <= k < BatchStart(|items| - 1) && items[k].totalFee > 0 {
      var last := BatchStart(|items| - 1);
      FailingIsHonest(chain, items[k].user, last);
      FailingFails(chain, round, items, k);
      FailingCharges(chain, round, items, k, last);
      assert ChargesThenFails(chain, FailingAt(chain, items[k].user, last), round, items, last);
    }
  }

  /** When every item costs something, that is exactly when more than one batch is sent. */
  lemma ChargesAndFailsIffTwoBatches(chain: Chain, round: nat, items: seq<Item>)
    requires DifferentUsers(items) && forall k :: 0 <= k < |items| ==> items[k].totalFee > 0
    ensures CanChargeAndFail(chain, round, items) <==> |items| > BATCH_SIZE
  {
    if items == [] {
      forall c: Chain, sent: nat
        ensures !ChargesThenFails(chain, c, round, items, sent)
      {
      }
    } else {
      ChargesAndFailsIff(chain, round, items);
      if |items| > BATCH_SIZE {
        assert items[0].totalFee > 0;
      }
    }
  }

  lemma SamePlan(chain: Chain, c: Chain, round: nat, now: nat, rows: seq<Request>, outcomes: seq<Outcome>)
    requires IsRound(chain, round, now, rows, outcomes) && c.signs == chain.signs && c.preview == chain.preview
    ensures IsRound(c, round, now, rows, outcomes)
  {
    var items := Originals(outcomes);
    forall k | 0 <= k < |outcomes|
      ensures outcomes[k] == Plan(items[k], ResultAt(c, round, items, k))
    {
      assert ResultAt(c, round, items, k) == ResultAt(chain, round, items, k);
    }
    forall i | 0 <= i < |items|
      ensures ItemOk(ListDue(rows, now), u => c.signs(round, u), items[i])
    {
      assert ItemOk(ListDue(rows, now), u => chain.signs(round, u), items[i]);
    }
  }

  ghost predicate ChargesAndKeeps(chain: Chain, round: nat, now: nat, rows: seq<Request>, outcomes: seq<Outcome>) {
    exists c: Chain, sent: nat ::
      && ChargesThenFails(chain, c, round, Executables(outcomes), sent)
      && IsRound(c, round, now, rows, outcomes) && Fees(Waiting(rows, outcomes, now)) == Fees(rows)
  }

  /** A planned round whose items all cost something can charge users and keep every request on the
      table, exactly when it sends more than one batch. */
  lemma ChargesAndKeepsIff(chain: Chain, round: nat, now: nat, rows: seq<Request>, outcomes: seq<Outcome>)
    requires IsRound(chain, round, now, rows, outcomes)
    requires forall k :: 0 <= k < |Executables(outcomes)| ==> Executables(outcomes)[k].totalFee > 0
    ensures ChargesAndKeeps(chain, round, now, rows, outcomes) <==> |Executables(outcomes)| > BATCH_SIZE
  {
    var items := Executables(outcomes);
    PlannedOutcomesAreOk(chain, round, now, rows, outcomes);
    ExecutablesHaveDifferentUsers(ListDue(rows, now), outcomes);
    ChargesAndFailsIffTwoBatches(chain, round, items);
    SkipKeepsFees(rows, AllPutOff(outcomes), now + HOUR);
    if CanChargeAndFail(chain, round, items) {
      var c: Chain, sent: nat :| ChargesThenFails(chain, c, round, items, sent);
      SamePlan(chain, c, round, now, rows, outcomes);
    }
  }
}
