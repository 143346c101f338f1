/** The settlement engine on the request table, loop by loop, down to the whole settlement of up to
  ten rounds and its balance of fees. */
module SettlementEngine {
  import opened Options
  import opened Requests
  import opened SettlementPlan
  import opened SettlementRound
  import opened SettlementLaws

  method CollectExecutables(outcomes: seq<Outcome>) returns (executables: seq<Item>)
    ensures executables == Executables(outcomes)
  {
    executables := [];
    for i := 0 to |outcomes|
      invariant executables == Executables(outcomes[..i])
    {
      assert outcomes[..i + 1][..i] == outcomes[..i];
      if outcomes[i].adjusted.Some? {
        executables := executables + [outcomes[i].adjusted.value];
      }
    }
    assert outcomes[..|outcomes|] == outcomes;
  }

  /** The outcomes of the reported users are overwritten in place. */
  method TakeBack(outcomes: seq<Outcome>, failures: set<User>) returns (final: seq<Outcome>)
    ensures final == RevertAll(outcomes, failures)
  {
    final := outcomes;
    for i := 0 to |outcomes|
      invariant |final| == |outcomes|
      invariant forall k :: 0 <= k < i ==> final[k] == Revert(outcomes[k], failures)
      invariant forall k :: i <= k < |final| ==> final[k] == outcomes[k]
    {
      if final[i].adjusted.None? {
        continue;
      }
      if final[i].user in failures {
        final := final[i := final[i].(status := Partial, adjusted := None, settled := [])];
      }
    }
  }

  method FailedUsers(logs: seq<Log>) returns (failed: set<User>)
    ensures failed == FailedIn(Receipt(logs))
  {
    failed := {};
    for i := 0 to |logs|
      invariant failed == FailedIn(Receipt(logs[..i]))
    {
      assert logs[..i + 1] == logs[..i] + [logs[i]];
      if ReportsFailure(logs[i]) {
        failed := failed + {logs[i].user};
      }
    }
    assert logs[..|logs|] == logs;
  }

  /** The items of several calls, one after the other. */
  function Flat(calls: seq<seq<Item>>): seq<Item> {
    if calls == [] then [] else Flat(calls[..|calls| - 1]) + calls[|calls| - 1]
  }

  lemma FlatAppend(calls: seq<seq<Item>>, batch: seq<Item>)
    ensures Flat(calls + [batch]) == Flat(calls) + batch
  {
    assert (calls + [batch])[..|calls|] == calls;
  }

  class Settler {
    var rows: seq<Request>
    var userSkip: map<User, nat>
    /** The batches handed to the contract, what the contract was paid for items it reported with
        status 0, and what was given up for users without a signer. */
    ghost var calls: seq<seq<Item>>
    ghost var income: int
    ghost var writtenOff: int

    constructor (rows: seq<Request>)
      ensures this.rows == rows && userSkip == map[] && calls == [] && income == 0 && writtenOff == 0
    {
      this.rows, userSkip, calls, income, writtenOff := rows, map[], [], 0, 0;
    }

    /** One item per group, in whatever order the map is walked. */
    method CreateSettlements(chain: Chain, round: nat, reqs: seq<Request>) returns (items: seq<Item>)
      ensures ItemsFor(reqs, u => chain.signs(round, u), items)
    {
      var groups := GroupRequestsByUser(reqs);
      ghost var signs := u => chain.signs(round, u);
      ghost var done: set<User> := {};
      var rest := groups.Keys;
      items := [];
      while rest != {}
        invariant done !! rest && done + rest == groups.Keys
        invariant Built(reqs, signs, done, items)
        decreases rest
      {
        var u :| u in rest;
        assert GroupIs(reqs, groups, u);
        BuiltStep(reqs, signs, done, items, u);
        rest := rest - {u};
        done := done + {u};
        if chain.signs(round, u) {
          items := items + [Item(u, groups[u].totalFee, groups[u].requests)];
        }
      }
      forall u | OfUser(reqs, u) != [] && signs(u)
        ensures HasUser(items, u)
      {
        assert GroupIs(reqs, groups, u);
      }
    }

    /** Groups what is due by user, previews one item for each, and plans each outcome from the reply to
        the preview call for its own batch of fifty.  Users short of funds, and those of their requests
        that are not planned for settlement, wait for an hour. */
    method CreateSettlementBatch(chain: Chain, round: nat, now: nat, reqs: seq<Request>)
      returns (outcomes: seq<Outcome>, executables: seq<Item>)
      modifies this`rows, this`userSkip
      ensures ItemsFor(reqs, u => chain.signs(round, u), Originals(outcomes))
      ensures PlannedAs(chain, round, outcomes)
      ensures executables == Executables(outcomes)
      ensures rows == SetSkip(old(rows), AllPutOff(outcomes), now + HOUR)
      ensures userSkip == UserWaits(old(userSkip), outcomes, now + HOUR)
      ensures forall k :: 0 <= k < |outcomes| ==> FollowsPreview(chain, round, outcomes, k)
      ensures |rows| == |old(rows)| && forall i :: 0 <= i < |rows| ==>
                rows[i] == if Left(outcomes, old(rows)[i].hash) then old(rows)[i].(skipUntil := Some(now + 3600))
                           else old(rows)[i]
      ensures forall u :: u in userSkip <==> u in old(userSkip) || IsShort(outcomes, u)
      ensures forall u :: u in userSkip ==> userSkip[u] == if IsShort(outcomes, u) then now + 3600 else old(userSkip)[u]
    {
      ghost var waits := userSkip;
      var items := CreateSettlements(chain, round, reqs);
      var results := BatchPreviewSettlements(chain, round, items);
      forall i | 0 <= i < |items|
        ensures WellFormed(items[i])
      {
        assert ItemOk(reqs, u => chain.signs(round, u), items[i]);
      }
      outcomes := CreateOutcomes(items, results, now);
      OriginalsOfPlans(items, results, outcomes);
      executables := CollectExecutables(outcomes);
      PlansFollowPreview(chain, round, outcomes);
      PutOffIsLeft(outcomes);
      ShortUsersWait(waits, outcomes, now + HOUR);
    }

    method CreateOutcomes(items: seq<Item>, results: seq<PreviewResult>, now: nat) returns (outcomes: seq<Outcome>)
      requires |items| == |results| && forall i :: 0 <= i < |items| ==> WellFormed(items[i])
      modifies this`rows, this`userSkip
      ensures |outcomes| == |items| && PlannedSoFar(items, results, outcomes)
      ensures rows == SetSkip(old(rows), AllPutOff(outcomes), now + HOUR)
      ensures userSkip == UserWaits(old(userSkip), outcomes, now + HOUR)
    {
      outcomes := [];
      SetSkipOfNone(rows, now + HOUR);
      for i := 0 to |items|
        invariant |outcomes| == i && PlannedSoFar(items, results, outcomes)
        invariant rows == SetSkip(old(rows), AllPutOff(outcomes), now + HOUR)
        invariant userSkip == UserWaits(old(userSkip), outcomes, now + HOUR)
      {
        var o := CreateOutcome(items[i], results[i], now);
        WaitsGrow(old(rows), old(userSkip), outcomes, o, now + HOUR);
        PlanNext(items, results, outcomes, o);
        outcomes := outcomes + [o];
      }
    }

    /** The outcome planned for one item; a user short of funds and what is left unsettled wait. */
    method CreateOutcome(item: Item, result: PreviewResult, now: nat) returns (o: Outcome)
      requires WellFormed(item)
      modifies this`rows, this`userSkip
      ensures o == Plan(item, result)
      ensures rows == SetSkip(old(rows), Hashes(PutOff(o)), now + HOUR)
      ensures userSkip == if o.status == Partial then old(userSkip)[o.user := now + HOUR] else old(userSkip)
    {
      SetSkipOfNone(rows, now + HOUR);
      match result.status {
        case Success =>
          o := Outcome(item.user, Success, item, Some(item), item.requests, 0);
        case Partial =>
          var adjusted, settled := AdjustForPartialSettlement(item, result.unsettled);
          userSkip := userSkip[item.user := now + HOUR];
          o := Outcome(item.user, Partial, item, adjusted, settled, result.unsettled);
          var unsettled := GetUnsettledRequests(item.requests, settled);
          var hashes := HashSet(unsettled);
          rows := SetSkip(rows, hashes, now + HOUR);
        case _ =>
          o := Outcome(item.user, result.status, item, None, [], item.totalFee);
      }
    }

    /** Calls the contract for one batch and reads who failed from the receipt. */
    method SettleOnChain(chain: Chain, round: nat, start: nat, batch: seq<Item>) returns (ok: bool, failed: set<User>)
      modifies this`calls, this`income
      ensures ok == chain.settle(round, start, batch).Receipt?
      ensures failed == FailedIn(chain.settle(round, start, batch))
      ensures calls == old(calls) + [batch]
      ensures income == old(income) + if ok then TotalsOf(batch, PaidIn(chain.settle(round, start, batch))) else 0
    {
      var reply := chain.settle(round, start, batch);
      calls := calls + [batch];
      if reply.TransactionError? {
        return false, {};
      }
      ok := true;
      failed := FailedUsers(reply.logs);
      income := income + TotalsOf(batch, PaidIn(reply));
    }

    /** Sends the items fifty at a time, each once and in order, until a call fails. */
    method ExecuteBatches(chain: Chain, round: nat, items: seq<Item>)
      returns (ok: bool, failures: set<User>, ghost sent: nat)
      modifies this`calls, this`income
      ensures Sent(chain, round, items, ok, sent)
      ensures Flat(calls) == Flat(old(calls)) + Attempted(items, ok, sent)
      ensures BatchesSince(old(calls), calls)
      ensures failures == Failures(chain, round, items, sent)
      ensures income == old(income) + Charged(chain, round, items, sent)
    {
      failures, sent := {}, 0;
      var i := 0;
      NoCallsYet(calls, items);
      while i < |items|
        invariant Aligned(i) && sent == Min(i, |items|)
        invariant LogOf(old(calls), calls, items, sent)
        invariant WentThrough(chain, round, items, sent, failures, income - old(income))
      {
        var end := Min(i + BATCH_SIZE, |items|);
        NextCall(old(calls), calls, items, i, end);
        BatchGoes(chain, round, items, i, end, failures, income - old(income));
        var called, failed := SettleOnChain(chain, round, i, items[i..end]);
        if !called {
          LogEnds(old(calls), calls, items, false, sent, end);
          return false, failures, sent;
        }
        failures := failures + failed;
        sent := end;
        i := i + BATCH_SIZE;
      }
      LogEnds(old(calls), calls, items, true, sent, sent);
      ok := true;
    }

    /** Executes what can be executed, then takes back the items of the users reported as failed. */
    method ExecuteAndProcessResults(chain: Chain, round: nat, outcomes: seq<Outcome>, executables: seq<Item>)
      returns (ok: bool, final: seq<Outcome>, ghost sent: nat)
      requires executables == Executables(outcomes)
      modifies this`calls, this`income
      ensures Sent(chain, round, executables, ok, sent)
      ensures Flat(calls) == Flat(old(calls)) + Attempted(executables, ok, sent)
      ensures income == old(income) + Charged(chain, round, executables, sent)
      ensures ok ==> final == Final(chain, round, outcomes)
      ensures ok ==> |final| == |outcomes| && forall k :: 0 <= k < |final| ==>
                final[k] == if outcomes[k].adjusted.Some? && outcomes[k].user in FailuresOf(chain, round, outcomes)
                            then outcomes[k].(status := Partial, adjusted := None, settled := []) else outcomes[k]
    {
      final := outcomes;
      if executables == [] {
        assert RevertAll(outcomes, {}) == outcomes;
        return true, outcomes, 0;
      }
      var failures: set<User>;
      ok, failures, sent := ExecuteBatches(chain, round, executables);
      if !ok {
        return;
      }
      final := TakeBack(outcomes, failures);
    }

    method ProcessOutcomes(outcomes: seq<Outcome>)
      requires Keyed(rows)
      modifies this`rows, this`writtenOff
      ensures rows == Survivors(old(rows), outcomes) && Keyed(rows)
      ensures writtenOff == old(writtenOff) + WrittenOff(old(rows), outcomes)
    {
      SurvivorsOfNone(rows);
      assert outcomes[..0] == [];
      for i := 0 to |outcomes|
        invariant rows == Survivors(old(rows), outcomes[..i]) && Keyed(rows)
        invariant writtenOff == old(writtenOff) + WrittenOff(old(rows), outcomes[..i])
      {
        SurvivorsGrow(old(rows), outcomes, i);
        assert outcomes[..i + 1][..i] == outcomes[..i];
        ProcessOutcome(outcomes[i]);
      }
      assert outcomes[..|outcomes|] == outcomes;
    }

    method ProcessOutcome(o: Outcome)
      requires Keyed(rows)
      modifies this`rows, this`writtenOff
      ensures rows == Spared(old(rows), o) && Keyed(rows)
      ensures writtenOff == old(writtenOff) + if o.status == NoSigner then Fees(OpenRows(old(rows), o.user)) else 0
    {
      FilterKeyed(rows, (r: Request) => !DoomedBy(r, o));
      match o.status {
        case Success =>
          SettledByHash(rows, o);
          DeleteRequests(o.settled);
        case Partial =>
          SettledByHash(rows, o);
          DeleteRequests(o.settled);
        case NoSigner =>
          var mine := OpenRows(rows, o.user);
          OpenRowsByHash(rows, o);
          writtenOff := writtenOff + Fees(mine);
          DeleteRequests(mine);
        case _ =>
          FilterAll(rows, (r: Request) => !DoomedBy(r, o));
      }
    }

    method DeleteRequests(requests: seq<Request>)
      modifies this`rows
      ensures rows == DeleteHashes(old(rows), Hashes(requests))
    {
      if requests == [] {
        FilterAll(rows, (r: Request) => r.hash !in Hashes(requests));
        return;
      }
      var hashes := HashSet(requests);
      rows := DeleteHashes(rows, hashes);
    }

    /** Sends a planned batch and, unless a call fails, settles its outcomes. */
    method SettleBatch(chain: Chain, round: nat, outcomes: seq<Outcome>, executables: seq<Item>)
      returns (end: RoundEnd, ghost sent: nat)
      requires Keyed(rows) && executables == Executables(outcomes)
      modifies this`rows, this`calls, this`income, this`writtenOff
      ensures Keyed(rows) && end != NothingDue
      ensures Sent(chain, round, executables, end != CallFailed, sent)
      ensures end == NothingSent <==> executables == []
      ensures Flat(calls) == Flat(old(calls)) + Attempted(executables, end != CallFailed, sent)
      ensures income == old(income) + Charged(chain, round, executables, sent)
      ensures rows == if end == CallFailed then old(rows) else Survivors(old(rows), Final(chain, round, outcomes))
      ensures writtenOff == old(writtenOff)
                            + if end == CallFailed then 0 else WrittenOff(old(rows), Final(chain, round, outcomes))
    {
      var ok, final;
      ok, final, sent := ExecuteAndProcessResults(chain, round, outcomes, executables);
      if !ok {
        return CallFailed, sent;
      }
      ProcessOutcomes(final);
      end := if executables == [] then NothingSent else AllSent;
    }

    /** Lists what is due and plans it. */
    method PlanDue(chain: Chain, round: nat, now: nat) returns (outcomes: seq<Outcome>, executables: seq<Item>)
      requires Keyed(rows)
      modifies this`rows, this`userSkip
      ensures IsRound(chain, round, now, old(rows), outcomes) && executables == Executables(outcomes)
      ensures rows == Waiting(old(rows), outcomes, now) && Keyed(rows)
      ensures userSkip == UserWaits(old(userSkip), outcomes, now + HOUR)
    {
      outcomes, executables := CreateSettlementBatch(chain, round, now, ListDue(rows, now));
      SkipKeepsKeys(old(rows), AllPutOff(outcomes), now + HOUR);
    }

    /** Plans, sends and settles what is due. */
    method SettleDue(chain: Chain, round: nat, now: nat) returns (end: RoundEnd, ghost pass: Pass)
      requires Keyed(rows) && ListDue(rows, now) != []
      modifies this
      ensures Keyed(rows) && PassOk(chain, round, now, pass)
      ensures pass.before == old(rows) && pass.after == rows && pass.end == end && end != NothingDue
      ensures userSkip == UserWaits(old(userSkip), pass.outcomes, now + HOUR)
      ensures Flat(calls) == Flat(old(calls)) + SentIn(pass)
      ensures income == old(income) + pass.charged && writtenOff == old(writtenOff) + pass.givenUp
    {
      ghost var before, wasWrittenOff := rows, writtenOff;
      var outcomes, executables := PlanDue(chain, round, now);
      ghost var sent;
      end, sent := SettleBatch(chain, round, outcomes, executables);
      pass := Pass(before, outcomes, end, sent, Charged(chain, round, executables, sent),
          writtenOff - wasWrittenOff, rows);
      PassIs(chain, round, now, pass);
    }

    /** One pass of the settlement loop. */
    method SettleRound(chain: Chain, round: nat, now: nat) returns (end: RoundEnd, ghost pass: Pass)
      requires Keyed(rows)
      modifies this
      ensures Keyed(rows) && PassOk(chain, round, now, pass)
      ensures pass.before == old(rows) && pass.after == rows && pass.end == end
      ensures Books() == NextLedger(old(Books()), pass, now)
    {
      if ListDue(rows, now) == [] {
        NothingIsBooked(chain, round, Books(), rows, now);
        return NothingDue, EmptyPass(rows);
      }
      ghost var books := Books();
      end, pass := SettleDue(chain, round, now);
      assert Books() == NextLedger(books, pass, now);
    }

    ghost function Books(): Ledger
      reads this
    {
      Ledger(Flat(calls), income, writtenOff, userSkip)
    }

    /** The next pass of a settlement that has come through `passes`. */
    method NextRound(chain: Chain, clock: nat -> nat, round: nat,
          ghost table: seq<Request>, ghost l: Ledger, ghost passes: seq<Pass>)
      returns (end: RoundEnd, ghost more: seq<Pass>)
      requires Keyed(rows) && round == |passes| + 1 && rows == LastTable(table, passes)
      requires Passes(chain, clock, table, passes) && LastEnd(passes) == AllSent
      requires Books() == LedgerAfter(l, clock, passes)
      modifies this
      ensures Keyed(rows) && |more| == round && rows == LastTable(table, more)
      ensures Passes(chain, clock, table, more) && LastEnd(more) == end
      ensures Books() == LedgerAfter(l, clock, more)
    {
      ghost var pass;
      end, pass := SettleRound(chain, round, clock(round));
      PassesGrow(chain, clock, table, passes, pass);
      LedgerGrows(l, clock, passes, pass);
      more := passes + [pass];
    }

    /** The settlement loop: until nothing is due, nothing can be sent, a call fails, or the tenth
        round is over. */
    method SettleRounds(chain: Chain, clock: nat -> nat) returns (ok: bool, ghost passes: seq<Pass>)
      requires Keyed(rows)
      modifies this
      ensures Keyed(rows) && Passes(chain, clock, old(rows), passes) && 1 <= |passes| <= 10
      ensures rows == LastTable(old(rows), passes) && ok == (LastEnd(passes) != CallFailed)
      ensures LastEnd(passes) == AllSent ==> |passes| == 10
      ensures Books() == LedgerAfter(old(Books()), clock, passes)
    {
      passes := [];
      NoPassesNoEntries(Books(), clock);
      var rounds, end := 0, AllSent;
      while rounds < MAX_ROUNDS && end == AllSent
        invariant |passes| == rounds <= MAX_ROUNDS && Keyed(rows) && (rounds == 0 ==> end == AllSent)
        invariant Passes(chain, clock, old(rows), passes) && rows == LastTable(old(rows), passes)
        invariant LastEnd(passes) == end && Books() == LedgerAfter(old(Books()), clock, passes)
      {
        rounds := rounds + 1;
        end, passes := NextRound(chain, clock, rounds, old(rows), old(Books()), passes);
      }
      ok := end != CallFailed;
    }

    /** Clears the waits that are over, of requests and of users, and drops the requests without output
        that are an hour old; all others stay, in order. */
    method TidyUp(start: nat)
      requires Keyed(rows)
      modifies this`rows, this`userSkip
      ensures Keyed(rows) && rows == Prune(ClearSkip(old(rows), start), start - HOUR)
      ensures rows == MapRows(Filter(old(rows), (r: Request) => !IsStale(r, start)), (r: Request) => Woken(r, start))
      ensures forall r :: r in old(rows) ==> (r.hash !in Hashes(rows) <==> IsStale(r, start))
      ensures Fees(old(rows)) == Fees(rows) + Fees(Filter(old(rows), (r: Request) => IsStale(r, start)))
      ensures userSkip == map u | u in old(userSkip) && start < old(userSkip)[u] :: old(userSkip)[u]
    {
      TidiedRows(rows, start);
      PruneKeepsKeys(rows, start);
      rows := ClearSkip(rows, start);
      userSkip := map u | u in userSkip && userSkip[u] > start :: userSkip[u];
      rows := Prune(rows, start - HOUR);
    }

    /** The whole settlement, on the table that tidying up leaves.  Every fee is still there, or the
        contract was paid it for an item reported with status 0, or it was given up with a user without
        a signer, or it went with a stale request; only what a failing round was paid counts twice. */
    method SettleFeesWithTEE(chain: Chain, start: nat, clock: nat -> nat)
      returns (ok: bool, ghost table: seq<Request>, ghost passes: seq<Pass>)
      requires Keyed(rows)
      modifies this
      ensures table == MapRows(Filter(old(rows), (r: Request) => !IsStale(r, start)), (r: Request) => Woken(r, start))
      ensures forall r :: r in old(rows) ==> (r.hash !in Hashes(table) <==> IsStale(r, start))
      ensures Keyed(rows) && Passes(chain, clock, table, passes) && 1 <= |passes| <= 10
      ensures rows == LastTable(table, passes) && ok == (LastEnd(passes) != CallFailed)
      ensures LastEnd(passes) == AllSent ==> |passes| == 10
      ensures Flat(calls) == Flat(old(calls)) + SentInAll(passes)
      ensures income == old(income) + TotalCharged(passes) && writtenOff == old(writtenOff) + TotalGivenUp(passes)
      ensures Honest(chain) && Complete(chain) ==>
                Fees(old(rows)) + ChargedAndKept(passes)
                == Fees(rows) + (income - old(income)) + (writtenOff - old(writtenOff))
                   + Fees(Filter(old(rows), (r: Request) => IsStale(r, start)))
      ensures userSkip == WaitsAfter(map u | u in old(userSkip) && start < old(userSkip)[u] :: old(userSkip)[u],
                                     clock, passes)
    {
      TidyUp(start);
      table := rows;
      ok, passes := SettleRounds(chain, clock);
      if Honest(chain) && Complete(chain) {
        SettlementConserves(chain, clock, table, passes);
      }
    }
  }

  /** The books at some moment: every item handed to the contract, what it was paid, what was given up,
      and how long users wait. */
  datatype Ledger = Ledger(sent: seq<Item>, income: int, writtenOff: int, waits: map<User, nat>)

  function NextLedger(l: Ledger, p: Pass, now: nat): Ledger {
    Ledger(l.sent + SentIn(p), l.income + p.charged, l.writtenOff + p.givenUp,
           if p.end == NothingDue then l.waits else UserWaits(l.waits, p.outcomes, now + HOUR))
  }

  function LedgerAfter(l: Ledger, clock: nat -> nat, passes: seq<Pass>): Ledger {
    Ledger(l.sent + SentInAll(passes), l.income + TotalCharged(passes), l.writtenOff + TotalGivenUp(passes),
           WaitsAfter(l.waits, clock, passes))
  }

  lemma NoPassesNoEntries(l: Ledger, clock: nat -> nat)
    ensures LedgerAfter(l, clock, []) == l
  {
    assert l.sent + [] == l.sent;
  }

  lemma NothingIsBooked(chain: Chain, round: nat, l: Ledger, rows: seq<Request>, now: nat)
    requires ListDue(rows, now) == []
    ensures PassOk(chain, round, now, EmptyPass(rows)) && NextLedger(l, EmptyPass(rows), now) == l
  {
    assert l.sent + [] == l.sent;
  }

  lemma LedgerGrows(l: Ledger, clock: nat -> nat, passes: seq<Pass>, p: Pass)
    ensures LedgerAfter(l, clock, passes + [p])
         == NextLedger(LedgerAfter(l, clock, passes), p, clock(|passes| + 1))
  {
    assert (passes + [p])[..|passes|] == passes;
    ConcatIsAssociative(l.sent, SentInAll(passes), SentIn(p));
  }

  lemma ConcatIsAssociative(a: seq<Item>, b: seq<Item>, c: seq<Item>)
    ensures (a + b) + c == a + (b + c)
  {
  }

  /** One pass of the settlement: the table before it, what was planned, how it ended, how many items
      went through, what the contract was paid for them, what was given up, and the table it left. */
  datatype Pass = Pass(
    before: seq<Request>,
    outcomes: seq<Outcome>,
    end: RoundEnd,
    sent: nat,
    charged: int,
    givenUp: int,
    after: seq<Request>)

  /** A pass that finds nothing due. */
  function EmptyPass(rows: seq<Request>): Pass {
    Pass(rows, [], NothingDue, 0, 0, 0, rows)
  }

  ghost predicate PassOk(chain: Chain, round: nat, now: nat, p: Pass) {
    if ListDue(p.before, now) == [] then p == EmptyPass(p.before)
    else
      var items := Executables(p.outcomes);
      && p.end != NothingDue && IsRound(chain, round, now, p.before, p.outcomes)
      && Sent(chain, round, items, p.end != CallFailed, p.sent) && (p.end == NothingSent <==> items == [])
      && p.charged == Charged(chain, round, items, p.sent)
      && p.givenUp == (if p.end == CallFailed then 0
                       else WrittenOff(Waiting(p.before, p.outcomes, now), Final(chain, round, p.outcomes)))
      && p.after == if p.end == CallFailed then Waiting(p.before, p.outcomes, now)
                    else RowsAfter(chain, round, now, p.before, p.outcomes)
  }

  lemma PassIs(chain: Chain, round: nat, now: nat, p: Pass)
    requires ListDue(p.before, now) != [] && p.end != NothingDue && IsRound(chain, round, now, p.before, p.outcomes)
    requires Sent(chain, round, Executables(p.outcomes), p.end != CallFailed, p.sent)
    requires p.end == NothingSent <==> Executables(p.outcomes) == []
    requires p.charged == Charged(chain, round, Executables(p.outcomes), p.sent)
    requires var waiting, final := Waiting(p.before, p.outcomes, now), Final(chain, round, p.outcomes);
             && p.givenUp == (if p.end == CallFailed then 0 else WrittenOff(waiting, final))
             && p.after == if p.end == CallFailed then waiting else Survivors(waiting, final)
    ensures PassOk(chain, round, now, p)
  {
  }

  function SentIn(p: Pass): seq<Item> {
    var items := Executables(p.outcomes);
    if p.sent <= |items| then Attempted(items, p.end != CallFailed, p.sent) else []
  }

  function SentInAll(passes: seq<Pass>): seq<Item> {
    if passes == [] then [] else SentInAll(passes[..|passes| - 1]) + SentIn(passes[|passes| - 1])
  }

  function TotalCharged(passes: seq<Pass>): int {
    if passes == [] then 0 else TotalCharged(passes[..|passes| - 1]) + passes[|passes| - 1].charged
  }

  function TotalGivenUp(passes: seq<Pass>): int {
    if passes == [] then 0 else TotalGivenUp(passes[..|passes| - 1]) + passes[|passes| - 1].givenUp
  }

  /** What the contract was paid in the last round when a call of it failed: its requests are kept. */
  function ChargedAndKept(passes: seq<Pass>): int {
    if LastEnd(passes) == CallFailed then passes[|passes| - 1].charged else 0
  }

  function LastTable(table: seq<Request>, passes: seq<Pass>): seq<Request> {
    if passes == [] then table else passes[|passes| - 1].after
  }

  /** How the last pass ended; before the first, the loop goes on as after a pass that sent something. */
  function LastEnd(passes: seq<Pass>): RoundEnd {
    if passes == [] then AllSent else passes[|passes| - 1].end
  }

  /** The passes follow one another, and all but the last sent something. */
  ghost predicate Passes(chain: Chain, clock: nat -> nat, table: seq<Request>, passes: seq<Pass>) {
    if passes == [] then true
    else
      var n := |passes| - 1;
      && Passes(chain, clock, table, passes[..n]) && LastEnd(passes[..n]) == AllSent
      && passes[n].before == LastTable(table, passes[..n]) && PassOk(chain, n + 1, clock(n + 1), passes[n])
  }

  /** How a round ends: nothing was due, nothing could be sent, a call to the contract failed, or
      everything was sent. */
  datatype RoundEnd = NothingDue | NothingSent | CallFailed | AllSent

  lemma SkipKeepsKeys(rows: seq<Request>, hs: set<Hash>, until: nat)
    requires Keyed(rows)
    ensures Keyed(SetSkip(rows, hs, until))
  {
  }

  lemma PassesGrow(chain: Chain, clock: nat -> nat, table: seq<Request>, passes: seq<Pass>, p: Pass)
    requires Passes(chain, clock, table, passes) && LastEnd(passes) == AllSent
    requires p.before == LastTable(table, passes) && PassOk(chain, |passes| + 1, clock(|passes| + 1), p)
    ensures Passes(chain, clock, table, passes + [p])
    ensures SentInAll(passes + [p]) == SentInAll(passes) + SentIn(p)
    ensures TotalCharged(passes + [p]) == TotalCharged(passes) + p.charged
    ensures TotalGivenUp(passes + [p]) == TotalGivenUp(passes) + p.givenUp
  {
    assert (passes + [p])[..|passes|] == passes;
  }

  /** One pass: the fees before it, and what a failing pass was paid, are the fees after it plus what
      was paid and given up. */
  lemma PassConserves(chain: Chain, round: nat, now: nat, p: Pass)
    requires PassOk(chain, round, now, p) && Honest(chain) && Complete(chain)
    ensures Fees(p.before) + (if p.end == CallFailed then p.charged else 0) == Fees(p.after) + p.charged + p.givenUp
  {
    if p.end == CallFailed {
      SkipKeepsFees(p.before, AllPutOff(p.outcomes), now + HOUR);
    } else if p.end != NothingDue {
      RoundConserves(chain, round, now, p.before, p.outcomes);
    }
  }

  lemma {:induction false} SettlementConserves(chain: Chain, clock: nat -> nat, table: seq<Request>, passes: seq<Pass>)
    requires Passes(chain, clock, table, passes) && Honest(chain) && Complete(chain)
    ensures Fees(table) + ChargedAndKept(passes)
         == Fees(LastTable(table, passes)) + TotalCharged(passes) + TotalGivenUp(passes)
  {
    if passes != [] {
      var n := |passes| - 1;
      SettlementConserves(chain, clock, table, passes[..n]);
      PassConserves(chain, n + 1, clock(n + 1), passes[n]);
    }
  }

  /** The calls made since carry fifty items each, the last of them at least one. */
  predicate BatchesSince(before: seq<seq<Item>>, calls: seq<seq<Item>>) {
    before <= calls && forall i :: |before| <= i < |calls| ==>
      0 < |calls[i]| <= 50 && (i < |calls| - 1 ==> |calls[i]| == 50)
  }

  predicate AllFull(before: seq<seq<Item>>, calls: seq<seq<Item>>) {
    before <= calls && forall i :: |before| <= i < |calls| ==> |calls[i]| == 50
  }

  /** The first `n` items went through; who was reported as failed, and what was paid. */
  ghost predicate WentThrough(chain: Chain, round: nat, items: seq<Item>, n: nat, failures: set<User>, paid: int) {
    && n <= |items| && (forall k :: 0 <= k < n ==> !CallFails(chain, round, items, k))
    && failures == Failures(chain, round, items, n) && paid == Charged(chain, round, items, n)
  }

  lemma BatchGoes(chain: Chain, round: nat, items: seq<Item>, i: nat, end: nat, failures: set<User>, paid: int)
    requires Aligned(i) && i < |items| && end == Min(i + BATCH_SIZE, |items|)
    requires WentThrough(chain, round, items, i, failures, paid)
    ensures Aligned(i + BATCH_SIZE)
    ensures var reply := chain.settle(round, i, items[i..end]);
            if reply.TransactionError? then CallFails(chain, round, items, i)
            else WentThrough(chain, round, items, end, failures + FailedIn(reply),
                             paid + TotalsOf(items[i..end], PaidIn(reply)))
  {
    SentTogether(chain, round, items, i, end);
  }

  /** Since `before` the log of calls has grown by the first `n` items. */
  ghost predicate LogOf(before: seq<seq<Item>>, calls: seq<seq<Item>>, items: seq<Item>, n: nat) {
    && n <= |items| && Flat(calls) == Flat(before) + items[..n]
    && BatchesSince(before, calls) && (n < |items| ==> AllFull(before, calls))
  }

  lemma NoCallsYet(calls: seq<seq<Item>>, items: seq<Item>)
    ensures LogOf(calls, calls, items, 0)
  {
    assert Flat(calls) + items[..0] == Flat(calls);
  }

  /** One more batch on the log of calls. */
  lemma NextCall(before: seq<seq<Item>>, calls: seq<seq<Item>>, items: seq<Item>, i: nat, end: nat)
    requires i < |items| && end == Min(i + BATCH_SIZE, |items|) && LogOf(before, calls, items, i)
    ensures LogOf(before, calls + [items[i..end]], items, end)
  {
    FlatAppend(calls, items[i..end]);
    ConcatIsAssociative(Flat(before), items[..i], items[i..end]);
    assert items[..end] == items[..i] + items[i..end];
  }

  lemma LogEnds(before: seq<seq<Item>>, calls: seq<seq<Item>>, items: seq<Item>, ok: bool, sent: nat, end: nat)
    requires sent <= |items| && LogOf(before, calls, items, end)
    requires end == if ok then |items| else Min(sent + BATCH_SIZE, |items|)
    ensures Flat(calls) == Flat(before) + Attempted(items, ok, sent) && BatchesSince(before, calls)
  {
    assert items[..|items|] == items;
  }

  /** Without output an hour after its creation. */
  predicate IsStale(r: Request, now: nat) {
    r.outputCount == 0 && r.createdAt + 3600 <= now
  }

  /** The row with its wait cleared if that is over. */
  function Woken(r: Request, now: nat): Request {
    if r.skipUntil.Some? && r.skipUntil.value <= now then r.(skipUntil := None) else r
  }

  lemma {:induction false} TidyUpIs(rows: seq<Request>, now: nat)
    ensures Prune(ClearSkip(rows, now), now - HOUR)
         == MapRows(Filter(rows, (r: Request) => !IsStale(r, now)), (r: Request) => Woken(r, now))
  {
    var wake, keep := (r: Request) => Woken(r, now), (r: Request) => !IsStale(r, now);
    assert ClearSkip(rows, now) == MapRows(rows, wake);
    FilterAgrees(MapRows(rows, wake), (r: Request) => !(r.outputCount == 0 && r.createdAt <= now - HOUR), keep);
    FilterMapped(rows, wake, keep);
  }

  /** What tidying up leaves, which requests it drops, and what they cost. */
  lemma TidiedRows(rows: seq<Request>, now: nat)
    requires Keyed(rows)
    ensures var table := Prune(ClearSkip(rows, now), now - HOUR);
            && table == MapRows(Filter(rows, (r: Request) => !IsStale(r, now)), (r: Request) => Woken(r, now))
            && (forall r :: r in rows ==> (r.hash !in Hashes(table) <==> IsStale(r, now)))
            && Fees(rows) == Fees(table) + Fees(Filter(rows, (r: Request) => IsStale(r, now)))
  {
    var stale, wake := (r: Request) => IsStale(r, now), (r: Request) => Woken(r, now);
    var kept := Filter(rows, (r: Request) => !IsStale(r, now));
    TidyUpIs(rows, now);
    FeesSplit(rows, stale);
    FilterAgrees(rows, (r: Request) => !stale(r), (r: Request) => !IsStale(r, now));
    FeesOfMapped(kept, wake);
    KeptHashes(rows, now);
  }

  lemma KeptHashes(rows: seq<Request>, now: nat)
    requires Keyed(rows)
    ensures forall r :: r in rows ==>
              (IsStale(r, now)
               <==> r.hash !in Hashes(MapRows(Filter(rows, (x: Request) => !IsStale(x, now)), x => Woken(x, now))))
  {
    var kept := Filter(rows, (x: Request) => !IsStale(x, now));
    var table := MapRows(kept, x => Woken(x, now));
    forall r | r in rows
      ensures IsStale(r, now) <==> r.hash !in Hashes(table)
    {
      if !IsStale(r, now) {
        var i :| 0 <= i < |kept| && kept[i] == r;
        assert table[i] in table && table[i].hash == r.hash;
      } else if r.hash in Hashes(table) {
        var i :| 0 <= i < |table| && table[i].hash == r.hash;
        assert kept[i] in rows && !IsStale(kept[i], now);
        SameHashSameRow(rows, r, kept[i]);
      }
    }
  }

  /** Stale requests cost nothing as long as fees match counts and no input is owed. */
  lemma {:induction false} StaleCostNothing(rows: seq<Request>, now: nat, prices: Prices)
    requires forall r :: r in rows && IsStale(r, now) ==> FeeLaw(r, prices) && r.inputCount == 0
    ensures Fees(Filter(rows, (r: Request) => IsStale(r, now))) == 0
  {
    if rows != [] {
      StaleCostNothing(rows[1..], now, prices);
      assert rows[0] in rows && prices.input * 0 == 0 && prices.output * 0 == 0;
      FeesConcat(if IsStale(rows[0], now) then [rows[0]] else [],
                 Filter(rows[1..], (r: Request) => IsStale(r, now)));
    }
  }

  /** A request that gets no response is dropped by the settlements from an hour after it was let in, and
      by none before. */
  lemma UnansweredIsDroppedAfterAnHour(hash: Hash, user: User, at: nat, now: nat)
    ensures IsStale(NewRequest(hash, user, at), now) <==> now - at >= 3600
  {
  }

  /** The users' waits after some passes. */
  function WaitsAfter(waits: map<User, nat>, clock: nat -> nat, passes: seq<Pass>): map<User, nat> {
    if passes == [] then waits
    else
      var n := |passes| - 1;
      var before := WaitsAfter(waits, clock, passes[..n]);
      if passes[n].end == NothingDue then before else UserWaits(before, passes[n].outcomes, clock(n + 1) + HOUR)
  }

  lemma PruneKeepsKeys(rows: seq<Request>, now: nat)
    requires Keyed(rows)
    ensures Keyed(Prune(ClearSkip(rows, now), now - HOUR))
  {
    FilterKeyed(ClearSkip(rows, now), (r: Request) => !(r.outputCount == 0 && r.createdAt <= now - HOUR));
  }

  ghost predicate PlannedSoFar(items: seq<Item>, results: seq<PreviewResult>, outcomes: seq<Outcome>) {
    && |outcomes| <= |items| == |results|
    && forall k :: 0 <= k < |outcomes| ==> outcomes[k] == Plan(items[k], results[k])
  }

  lemma PlanNext(items: seq<Item>, results: seq<PreviewResult>, outcomes: seq<Outcome>, o: Outcome)
    requires PlannedSoFar(items, results, outcomes) && |outcomes| < |items|
    requires o == Plan(items[|outcomes|], results[|outcomes|])
    ensures PlannedSoFar(items, results, outcomes + [o])
  {
  }

  lemma OriginalsOfPlans(items: seq<Item>, results: seq<PreviewResult>, outcomes: seq<Outcome>)
    requires PlannedSoFar(items, results, outcomes) && |outcomes| == |items|
    ensures Originals(outcomes) == items
  {
  }

  ghost predicate Built(reqs: seq<Request>, signs: User -> bool, done: set<User>, items: seq<Item>) {
    && DifferentUsers(items)
    && (forall i :: 0 <= i < |items| ==> ItemOk(reqs, signs, items[i]))
    && (forall u :: HasUser(items, u) <==> u in done && signs(u))
  }

  lemma BuiltStep(reqs: seq<Request>, signs: User -> bool, done: set<User>, items: seq<Item>, user: User)
    requires Built(reqs, signs, done, items) && user !in done && OfUser(reqs, user) != []
    ensures Built(reqs, signs, done + {user}, if signs(user) then items + [ItemFor(reqs, user)] else items)
  {
    if signs(user) {
      var item := ItemFor(reqs, user);
      forall v
        ensures HasUser(items + [item], v) <==> v in done + {user} && signs(v)
      {
        AppendHasUser(items, item, v);
      }
      forall i | 0 <= i < |items|
        ensures items[i].user != user
      {
        assert !HasUser(items, user);
      }
    }
  }

  lemma AppendHasUser(items: seq<Item>, item: Item, user: User)
    ensures HasUser(items + [item], user) <==> HasUser(items, user) || item.user == user
  {
    if HasUser(items, user) {
      var i :| 0 <= i < |items| && items[i].user == user;
      assert (items + [item])[i].user == user;
    }
    assert (items + [item])[|items|] == item;
  }
}
