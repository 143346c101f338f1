/** What holds of every settlement round: batching does not change any item's fate, what is charged
  is what is deleted as settled, and every listed request ends in exactly one way. */
module SettlementLaws {
  import opened Options
  import opened Requests
  import opened SettlementPlan
  import opened SettlementRound

  /** The outcomes are planned, in the given round, for what is due at `now`. */
  ghost predicate IsRound(chain: Chain, round: nat, now: nat, rows: seq<Request>, outcomes: seq<Outcome>) {
    && Keyed(rows)
    && ItemsFor(ListDue(rows, now), u => chain.signs(round, u), Originals(outcomes))
    && PlannedAs(chain, round, outcomes)
  }

  function FailuresOf(chain: Chain, round: nat, outcomes: seq<Outcome>): set<User> {
    var items := Executables(outcomes);
    Failures(chain, round, items, |items|)
  }

  /** The outcomes once the contract has reported on everything sent. */
  function Final(chain: Chain, round: nat, outcomes: seq<Outcome>): seq<Outcome> {
    RevertAll(outcomes, FailuresOf(chain, round, outcomes))
  }

  function Waiting(rows: seq<Request>, outcomes: seq<Outcome>, now: nat): seq<Request> {
    SetSkip(rows, AllPutOff(outcomes), now + HOUR)
  }

  function RowsAfter(chain: Chain, round: nat, now: nat, rows: seq<Request>, outcomes: seq<Outcome>): seq<Request> {
    Survivors(Waiting(rows, outcomes, now), Final(chain, round, outcomes))
  }

  // ----- outcomes on their own

  /** The outcome settles a prefix of its user's due requests, for exactly their fees. */
  ghost predicate OutcomeOk(due: seq<Request>, o: Outcome) {
    && o.original == ItemFor(due, o.user)
    && o.settled <= o.original.requests
    && (o.adjusted.Some? ==> o.adjusted.value == Item(o.user, Fees(o.settled), o.settled))
    && (o.adjusted.None? ==> o.settled == [])
    && (o.status == Success ==> o.settled == o.original.requests)
    && (o.status != Success && o.status != Partial ==> o.adjusted.None?)
  }

  ghost predicate OutcomesOk(due: seq<Request>, outcomes: seq<Outcome>) {
    && (forall i :: 0 <= i < |outcomes| ==> OutcomeOk(due, outcomes[i]))
    && (forall i, j :: 0 <= i < j < |outcomes| ==> outcomes[i].user != outcomes[j].user)
  }

  lemma PlannedOutcomesAreOk(chain: Chain, round: nat, now: nat, rows: seq<Request>, outcomes: seq<Outcome>)
    requires IsRound(chain, round, now, rows, outcomes)
    ensures OutcomesOk(ListDue(rows, now), outcomes)
  {
    var due, items := ListDue(rows, now), Originals(outcomes);
    forall k | 0 <= k < |outcomes|
      ensures OutcomeOk(due, outcomes[k]) && outcomes[k].user == items[k].user
    {
      assert ItemOk(due, u => chain.signs(round, u), items[k]);
      PlanSendsLongestPrefix(items[k], ResultAt(chain, round, items, k));
    }
  }

  lemma FinalOutcomesAreOk(due: seq<Request>, outcomes: seq<Outcome>, failures: set<User>)
    requires OutcomesOk(due, outcomes)
    ensures OutcomesOk(due, RevertAll(outcomes, failures))
  {
    var final := RevertAll(outcomes, failures);
    forall i | 0 <= i < |final|
      ensures OutcomeOk(due, final[i])
    {
      assert OutcomeOk(due, outcomes[i]);
    }
  }

  lemma {:induction false} ExecutablesAreFor(due: seq<Request>, outcomes: seq<Outcome>, k: nat)
    requires OutcomesOk(due, outcomes) && k < |Executables(outcomes)|
    ensures exists i :: 0 <= i < |outcomes| && outcomes[i].adjusted == Some(Executables(outcomes)[k])
  {
    var n := |outcomes| - 1;
    if k < |Executables(outcomes[..n])| {
      ExecutablesAreFor(due, outcomes[..n], k);
      var i :| 0 <= i < n && outcomes[..n][i].adjusted == Some(Executables(outcomes)[k]);
      assert outcomes[i].adjusted == Some(Executables(outcomes)[k]);
    } else {
      assert outcomes[n].adjusted == Some(Executables(outcomes)[k]);
    }
  }

  lemma {:induction false} ExecutablesCover(outcomes: seq<Outcome>, i: nat)
    requires i < |outcomes| && outcomes[i].adjusted.Some?
    ensures outcomes[i].adjusted.value in Executables(outcomes)
  {
    var n := |outcomes| - 1;
    if i < n {
      ExecutablesCover(outcomes[..n], i);
    }
  }

  lemma {:induction false} ExecutablesHaveDifferentUsers(due: seq<Request>, outcomes: seq<Outcome>)
    requires OutcomesOk(due, outcomes)
    ensures DifferentUsers(Executables(outcomes))
  {
    if outcomes != [] {
      var n := |outcomes| - 1;
      var before := Executables(outcomes[..n]);
      ExecutablesHaveDifferentUsers(due, outcomes[..n]);
      forall k | 0 <= k < |before|
        ensures before[k].user != outcomes[n].user
      {
        ExecutablesAreFor(due, outcomes[..n], k);
        var i :| 0 <= i < n && outcomes[..n][i].adjusted == Some(before[k]);
        assert OutcomeOk(due, outcomes[i]);
      }
      assert OutcomeOk(due, outcomes[n]);
    }
  }

  // ----- batched execution refines the pointwise form

  lemma ReportedByOwnCall(chain: Chain, round: nat, items: seq<Item>, j: nat, k: nat)
    requires Honest(chain) && DifferentUsers(items) && j < |items| && k < |items|
    requires FailedBy(chain, round, items, j, items[k].user)
    ensures CallFor(chain, round, items, j) == CallFor(chain, round, items, k)
  {
    var start := BatchStart(j);
    var batch := BatchAt(items, start);
    assert CallFor(chain, round, items, j) == chain.settle(round, start, batch);
    assert ReportsOwn(chain.settle(round, start, batch), batch);
    var item :| item in batch && item.user == items[k].user;
    var m :| 0 <= m < |batch| && batch[m] == item;
    assert items[start + m] == item;
    BatchStartIsAligned(j);
    BatchStartIs(start, k);
  }

  lemma {:induction false} FailuresAreOwn(chain: Chain, round: nat, items: seq<Item>, n: nat, k: nat)
    requires Honest(chain) && DifferentUsers(items) && n <= |items| && k < |items|
    requires items[k].user in Failures(chain, round, items, n)
    ensures FailedBy(chain, round, items, k, items[k].user)
  {
    if FailedBy(chain, round, items, n - 1, items[k].user) {
      ReportedByOwnCall(chain, round, items, n - 1, k);
    } else {
      FailuresAreOwn(chain, round, items, n - 1, k);
    }
  }

  lemma {:induction false} OwnFailureCounts(chain: Chain, round: nat, items: seq<Item>, n: nat, k: nat)
    requires k < n <= |items| && FailedBy(chain, round, items, k, items[k].user)
    ensures items[k].user in Failures(chain, round, items, n)
  {
    if k < n - 1 {
      OwnFailureCounts(chain, round, items, n - 1, k);
    }
  }

  /** However many items there are and however they fall into batches, an item counts as failed
      exactly when the call that carried it reports its user. */
  lemma ExecutionIsPointwise(chain: Chain, round: nat, items: seq<Item>, k: nat)
    requires Honest(chain) && DifferentUsers(items) && k < |items|
    ensures items[k].user in Failures(chain, round, items, |items|) <==> FailedBy(chain, round, items, k, items[k].user)
  {
    if items[k].user in Failures(chain, round, items, |items|) {
      FailuresAreOwn(chain, round, items, |items|, k);
    }
    if FailedBy(chain, round, items, k, items[k].user) {
      OwnFailureCounts(chain, round, items, |items|, k);
    }
  }

  lemma {:induction false} ClearedIsOutside(chain: Chain, round: nat, items: seq<Item>, failed: set<User>, n: nat)
    requires n <= |items|
    requires forall k :: 0 <= k < n ==> (items[k].user in failed <==> FailedBy(chain, round, items, k, items[k].user))
    ensures Cleared(chain, round, items, n) == TotalsOutside(items[..n], failed)
  {
    if n > 0 {
      ClearedIsOutside(chain, round, items, failed, n - 1);
      assert items[..n][..n - 1] == items[..n - 1];
    }
  }

  /** The totals of the items of users that are not among `users`. */
  function TotalsOutside(items: seq<Item>, users: set<User>): int {
    if items == [] then 0
    else
      var last := items[|items| - 1];
      TotalsOutside(items[..|items| - 1], users) + if last.user in users then 0 else last.totalFee
  }

  lemma TotalsOutsideAppend(items: seq<Item>, item: Item, users: set<User>)
    ensures TotalsOutside(items + [item], users)
         == TotalsOutside(items, users) + if item.user in users then 0 else item.totalFee
  {
    assert (items + [item])[..|items|] == items;
  }

  function SettledFees(outcomes: seq<Outcome>): int {
    if outcomes == [] then 0
    else SettledFees(outcomes[..|outcomes| - 1]) + Fees(outcomes[|outcomes| - 1].settled)
  }

  lemma SettledFeesAppend(outcomes: seq<Outcome>, o: Outcome)
    ensures SettledFees(outcomes + [o]) == SettledFees(outcomes) + Fees(o.settled)
  {
    assert (outcomes + [o])[..|outcomes|] == outcomes;
  }

  predicate TotalOk(o: Outcome) {
    if o.adjusted.Some? then o.adjusted.value.user == o.user && o.adjusted.value.totalFee == Fees(o.settled)
    else o.settled == []
  }

  /** What an outcome brings in: its item's total, unless its user is reported. */
  lemma RevertKeepsTotal(o: Outcome, items: seq<Item>, failed: set<User>)
    requires TotalOk(o)
    ensures TotalsOutside(items + (if o.adjusted.Some? then [o.adjusted.value] else []), failed)
         == TotalsOutside(items, failed) + Fees(Revert(o, failed).settled)
  {
    if o.adjusted.Some? {
      TotalsOutsideAppend(items, o.adjusted.value, failed);
    } else {
      assert items + [] == items;
    }
  }

  lemma ExecutablesAppend(outcomes: seq<Outcome>, o: Outcome)
    ensures Executables(outcomes + [o]) == Executables(outcomes) + if o.adjusted.Some? then [o.adjusted.value] else []
  {
    assert (outcomes + [o])[..|outcomes|] == outcomes;
  }

  lemma {:induction false} OutsideIsSettledFees(outcomes: seq<Outcome>, failed: set<User>, n: nat)
    requires n <= |outcomes| && forall i :: 0 <= i < |outcomes| ==> TotalOk(outcomes[i])
    ensures TotalsOutside(Executables(outcomes[..n]), failed) == SettledFees(RevertAll(outcomes, failed)[..n])
  {
    if n > 0 {
      var o, before, final := outcomes[n - 1], outcomes[..n - 1], RevertAll(outcomes, failed);
      OutsideIsSettledFees(outcomes, failed, n - 1);
      PrefixGrows(outcomes, n - 1);
      PrefixGrows(final, n - 1);
      ExecutablesAppend(before, o);
      SettledFeesAppend(final[..n - 1], Revert(o, failed));
      RevertKeepsTotal(o, Executables(before), failed);
    }
  }

  /** What the broker takes for paid in a round without failing calls is the fees of what it settles. */
  lemma ClearedIsSettledFees(chain: Chain, round: nat, now: nat, rows: seq<Request>, outcomes: seq<Outcome>)
    requires IsRound(chain, round, now, rows, outcomes) && Honest(chain)
    ensures var items := Executables(outcomes);
            Cleared(chain, round, items, |items|) == SettledFees(Final(chain, round, outcomes))
  {
    var items, failed := Executables(outcomes), FailuresOf(chain, round, outcomes);
    var due := ListDue(rows, now);
    PlannedOutcomesAreOk(chain, round, now, rows, outcomes);
    ExecutablesHaveDifferentUsers(due, outcomes);
    forall k | 0 <= k < |items|
      ensures items[k].user in failed <==> FailedBy(chain, round, items, k, items[k].user)
    {
      ExecutionIsPointwise(chain, round, items, k);
    }
    ClearedIsOutside(chain, round, items, failed, |items|);
    assert items[..|items|] == items;
    forall i | 0 <= i < |outcomes|
      ensures TotalOk(outcomes[i])
    {
      assert OutcomeOk(due, outcomes[i]);
    }
    OutsideIsSettledFees(outcomes, failed, |outcomes|);
    assert outcomes[..|outcomes|] == outcomes
        && RevertAll(outcomes, failed)[..|outcomes|] == RevertAll(outcomes, failed);
  }

  // ----- what is deleted

  function Matching(rows: seq<Request>, s: seq<Request>): seq<Request> {
    Filter(rows, (r: Request) => r.hash in Hashes(s))
  }

  /** Rows picked by the hashes of a prefix of a selection are that prefix. */
  lemma PrefixByHash(rows: seq<Request>, p: Request -> bool, s: seq<Request>)
    requires Keyed(rows) && s <= Filter(rows, p)
    ensures Matching(rows, s) == s
  {
    var picked := Filter(rows, p);
    var inS := (r: Request) => r.hash in Hashes(s);
    FilterKeyed(rows, p);
    assert picked[..|s|] == s;
    PrefixSelectsItself(picked, |s|);
    FilterFilter(rows, p, inS);
    forall r | r in rows
      ensures inS(r) == (p(r) && inS(r))
    {
      if inS(r) {
        var x :| x in s && x.hash == r.hash;
        assert x in picked;
        SameHashSameRow(rows, r, x);
      }
    }
    FilterAgrees(rows, inS, (r: Request) => p(r) && inS(r));
  }

  lemma {:induction false} FeesOfMapped(rows: seq<Request>, f: Request -> Request)
    requires forall r :: r in rows ==> FeeOf(f(r)) == FeeOf(r)
    ensures Fees(MapRows(rows, f)) == Fees(rows)
  {
    if rows != [] {
      assert MapRows(rows, f)[1..] == MapRows(rows[1..], f);
      FeesOfMapped(rows[1..], f);
      assert rows[0] in rows;
    }
  }

  lemma MapRowsConcat(a: seq<Request>, b: seq<Request>, f: Request -> Request)
    ensures MapRows(a + b, f) == MapRows(a, f) + MapRows(b, f)
  {
  }

  lemma {:induction false} FilterMapped(rows: seq<Request>, f: Request -> Request, p: Request -> bool)
    requires forall r :: r in rows ==> p(f(r)) == p(r)
    ensures Filter(MapRows(rows, f), p) == MapRows(Filter(rows, p), f)
  {
    if rows != [] {
      var r, rest := rows[0], rows[1..];
      assert rows == [r] + rest && r in rows;
      MapRowsConcat([r], rest, f);
      FilterMapped(rest, f, p);
      FilterConcat(MapRows([r], f), MapRows(rest, f), p);
      FilterConcat([r], rest, p);
      MapRowsConcat(Filter([r], p), Filter(rest, p), f);
      FilterMappedOne(r, f, p);
    }
  }

  lemma FilterMappedOne(r: Request, f: Request -> Request, p: Request -> bool)
    requires p(f(r)) == p(r)
    ensures Filter(MapRows([r], f), p) == MapRows(Filter([r], p), f)
  {
    assert MapRows([r], f) == [f(r)];
  }

  /** A settled request is the row of that hash, which was due and is its user's. */
  lemma SettledRow(rows: seq<Request>, now: nat, o: Outcome, r: Request)
    requires Keyed(rows) && OutcomeOk(ListDue(rows, now), o) && r in rows && r.hash in Hashes(o.settled)
    ensures r in o.settled && Due(r, now) && Groupable(r, o.user)
  {
    var x :| x in o.settled && x.hash == r.hash;
    assert x in o.original.requests;
    SameHashSameRow(rows, r, x);
  }

  lemma SettledByPrefix(rows: seq<Request>, now: nat, o: Outcome)
    requires Keyed(rows) && OutcomeOk(ListDue(rows, now), o)
    ensures Matching(rows, o.settled) == o.settled
  {
    var p, q := (r: Request) => Due(r, now), (r: Request) => Groupable(r, o.user);
    FilterFilter(rows, p, q);
    PrefixByHash(rows, (r: Request) => p(r) && q(r), o.settled);
  }

  function Doom(rows: seq<Request>, o: Outcome): seq<Request> {
    Filter(rows, (r: Request) => DoomedBy(r, o))
  }

  /** An outcome deletes rows of its own user only. */
  lemma DoomIsOwn(rows: seq<Request>, hs: set<Hash>, now: nat, o: Outcome, r: Request)
    requires Keyed(rows) && OutcomeOk(ListDue(rows, now), o) && r in SetSkip(rows, hs, now + HOUR) && DoomedBy(r, o)
    ensures r.user == o.user
  {
    var after := SetSkip(rows, hs, now + HOUR);
    var i :| 0 <= i < |after| && after[i] == r;
    if o.status != NoSigner {
      SettledRow(rows, now, o, rows[i]);
    }
  }

  lemma MatchingSkipped(rows: seq<Request>, hs: set<Hash>, until: nat, s: seq<Request>)
    ensures Matching(SetSkip(rows, hs, until), s) == SetSkip(Matching(rows, s), hs, until)
  {
    FilterMapped(rows, (r: Request) => Skipped(r, hs, until), (r: Request) => r.hash in Hashes(s));
  }

  lemma SkipKeepsFees(rows: seq<Request>, hs: set<Hash>, until: nat)
    ensures Fees(SetSkip(rows, hs, until)) == Fees(rows)
  {
    FeesOfMapped(rows, (r: Request) => Skipped(r, hs, until));
  }

  lemma FeesOfDoom(rows: seq<Request>, hs: set<Hash>, now: nat, o: Outcome)
    requires Keyed(rows) && OutcomeOk(ListDue(rows, now), o) && o.status != NoSigner
    ensures Fees(Doom(SetSkip(rows, hs, now + HOUR), o)) == Fees(o.settled)
  {
    var after := SetSkip(rows, hs, now + HOUR);
    if o.status == Success || o.status == Partial {
      FilterAgrees(after, (r: Request) => DoomedBy(r, o), (r: Request) => r.hash in Hashes(o.settled));
      MatchingSkipped(rows, hs, now + HOUR, o.settled);
      SettledByPrefix(rows, now, o);
      SkipKeepsFees(o.settled, hs, now + HOUR);
    } else {
      FilterNone(after, (r: Request) => DoomedBy(r, o));
    }
  }

  /** What an outcome deletes is untouched by the outcomes before it. */
  lemma DoomUntouched(rows: seq<Request>, hs: set<Hash>, now: nat, final: seq<Outcome>, n: nat)
    requires Keyed(rows) && OutcomesOk(ListDue(rows, now), final) && n < |final|
    ensures var after := SetSkip(rows, hs, now + HOUR);
            Doom(Survivors(after, final[..n]), final[n]) == Doom(after, final[n])
  {
    var after, o := SetSkip(rows, hs, now + HOUR), final[n];
    var p, q := (r: Request) => !Doomed(r, final[..n]), (r: Request) => DoomedBy(r, o);
    FilterFilter(after, p, q);
    forall r | r in after && q(r)
      ensures p(r)
    {
      DoomedOnce(rows, hs, now, final, r, n);
    }
    FilterAgrees(after, q, (r: Request) => p(r) && q(r));
  }

  lemma DoomedOnce(rows: seq<Request>, hs: set<Hash>, now: nat, final: seq<Outcome>, r: Request, n: nat)
    requires Keyed(rows) && OutcomesOk(ListDue(rows, now), final) && r in SetSkip(rows, hs, now + HOUR)
    requires n < |final| && DoomedBy(r, final[n])
    ensures forall k :: 0 <= k < |final| && k != n ==> !DoomedBy(r, final[k])
    ensures !Doomed(r, final[..n])
  {
    DoomIsOwn(rows, hs, now, final[n], r);
    forall k | 0 <= k < |final| && DoomedBy(r, final[k])
      ensures k == n
    {
      DoomIsOwn(rows, hs, now, final[k], r);
    }
  }

  lemma FeesSpared(rows: seq<Request>, o: Outcome)
    ensures Fees(rows) == Fees(Spared(rows, o)) + Fees(Doom(rows, o))
  {
    var doomed := (r: Request) => DoomedBy(r, o);
    FeesSplit(rows, doomed);
    FilterAgrees(rows, (r: Request) => !doomed(r), (r: Request) => !DoomedBy(r, o));
  }

  lemma WrittenOffAppend(rows: seq<Request>, outcomes: seq<Outcome>, o: Outcome)
    ensures WrittenOff(rows, outcomes + [o]) == WrittenOff(rows, outcomes)
            + if o.status == NoSigner then Fees(OpenRows(Survivors(rows, outcomes), o.user)) else 0
  {
    assert (outcomes + [o])[..|outcomes|] == outcomes;
  }

  /** The step of the sum: what one outcome deletes is settled or given up. */
  lemma FeesOfOne(rows: seq<Request>, hs: set<Hash>, now: nat, final: seq<Outcome>, n: nat)
    requires Keyed(rows) && OutcomesOk(ListDue(rows, now), final) && n < |final|
    ensures var left := Survivors(SetSkip(rows, hs, now + HOUR), final[..n]);
            Fees(Doom(left, final[n])) ==
            Fees(final[n].settled) + if final[n].status == NoSigner then Fees(OpenRows(left, final[n].user)) else 0
  {
    assert OutcomeOk(ListDue(rows, now), final[n]);
    if final[n].status == NoSigner {
      DoomOfUnknown(Survivors(SetSkip(rows, hs, now + HOUR), final[..n]), final[n]);
    } else {
      DoomUntouched(rows, hs, now, final, n);
      FeesOfDoom(rows, hs, now, final[n]);
    }
  }

  lemma FeesStep(rows: seq<Request>, hs: set<Hash>, now: nat, final: seq<Outcome>, n: nat)
    requires Keyed(rows) && OutcomesOk(ListDue(rows, now), final) && n < |final|
    ensures var after := SetSkip(rows, hs, now + HOUR);
            Fees(Survivors(after, final[..n])) + SettledFees(final[..n]) + WrittenOff(after, final[..n])
            == Fees(Survivors(after, final[..n + 1])) + SettledFees(final[..n + 1]) + WrittenOff(after, final[..n + 1])
  {
    var after, o, before := SetSkip(rows, hs, now + HOUR), final[n], final[..n];
    PrefixGrows(final, n);
    SurvivorsGrow(after, final, n);
    FeesSpared(Survivors(after, before), o);
    SettledFeesAppend(before, o);
    WrittenOffAppend(after, before, o);
    FeesOfOne(rows, hs, now, final, n);
  }

  lemma {:induction false} FeesAddUp(rows: seq<Request>, hs: set<Hash>, now: nat, final: seq<Outcome>, n: nat)
    requires Keyed(rows) && OutcomesOk(ListDue(rows, now), final) && n <= |final|
    ensures var after := SetSkip(rows, hs, now + HOUR);
            Fees(rows) == Fees(Survivors(after, final[..n])) + SettledFees(final[..n]) + WrittenOff(after, final[..n])
  {
    var after := SetSkip(rows, hs, now + HOUR);
    if n == 0 {
      SurvivorsOfNone(after);
      SkipKeepsFees(rows, hs, now + HOUR);
    } else {
      FeesAddUp(rows, hs, now, final, n - 1);
      FeesStep(rows, hs, now, final, n - 1);
    }
  }

  lemma DoomOfUnknown(rows: seq<Request>, o: Outcome)
    requires o.status == NoSigner
    ensures Doom(rows, o) == OpenRows(rows, o.user)
  {
    FilterAgrees(rows, (r: Request) => DoomedBy(r, o), (r: Request) => OpenOf(r, o.user));
  }

  // ----- conservation

  /** An item that went through is paid for, reported as failed, or not reported at all. */
  lemma ItemReported(chain: Chain, round: nat, items: seq<Item>, k: nat)
    requires Honest(chain) && DifferentUsers(items) && k < |items| && !CallFails(chain, round, items, k)
    ensures var paid, failed := PaidBy(chain, round, items, k), FailedBy(chain, round, items, k, items[k].user);
            !(paid && failed) && (Silent(chain, round, items, k) <==> !paid && !failed)
  {
    var start := BatchStart(k);
    var batch, reply := BatchAt(items, start), CallFor(chain, round, items, k);
    assert batch[k - start] == items[k];
    assert ReportsOnce(chain.settle(round, start, batch), batch);
    ReportedAs(reply.logs, items[k].user);
  }

  /** What the broker takes for paid is what the contract was paid and what it was silent on. */
  lemma {:induction false} ClearedIsPaidOrSilent(chain: Chain, round: nat, items: seq<Item>, n: nat)
    requires Honest(chain) && DifferentUsers(items) && n <= |items|
    requires forall k :: 0 <= k < n ==> !CallFails(chain, round, items, k)
    ensures Cleared(chain, round, items, n) == Charged(chain, round, items, n) + Unreported(chain, round, items, n)
  {
    if n > 0 {
      ClearedIsPaidOrSilent(chain, round, items, n - 1);
      ItemReported(chain, round, items, n - 1);
    }
  }

  lemma {:induction false} NothingUnreported(chain: Chain, round: nat, items: seq<Item>, n: nat)
    requires Complete(chain) && n <= |items|
    ensures Unreported(chain, round, items, n) == 0
  {
    if n > 0 {
      NothingUnreported(chain, round, items, n - 1);
      var start := BatchStart(n - 1);
      var batch := BatchAt(items, start);
      assert batch[n - 1 - start] == items[n - 1];
      assert ReportsAll(chain.settle(round, start, batch), batch);
    }
  }

  ghost predicate NoCallFails(chain: Chain, round: nat, outcomes: seq<Outcome>) {
    Sent(chain, round, Executables(outcomes), true, |Executables(outcomes)|)
  }

  /** In a round without failing calls the fees on the table before are the fees on the table after,
      plus what the contract was paid, plus what it was silent on, plus what is given up with users
      without a signer. */
  lemma RoundBalances(chain: Chain, round: nat, now: nat, rows: seq<Request>, outcomes: seq<Outcome>)
    requires IsRound(chain, round, now, rows, outcomes) && Honest(chain) && NoCallFails(chain, round, outcomes)
    ensures var items := Executables(outcomes);
            Fees(rows) == Fees(RowsAfter(chain, round, now, rows, outcomes))
                        + Charged(chain, round, items, |items|) + Unreported(chain, round, items, |items|)
                        + WrittenOff(Waiting(rows, outcomes, now), Final(chain, round, outcomes))
  {
    var final := Final(chain, round, outcomes);
    PlannedOutcomesAreOk(chain, round, now, rows, outcomes);
    FinalOutcomesAreOk(ListDue(rows, now), outcomes, FailuresOf(chain, round, outcomes));
    FeesAddUp(rows, AllPutOff(outcomes), now, final, |final|);
    assert final[..|final|] == final;
    ClearedIsSettledFees(chain, round, now, rows, outcomes);
    ExecutablesHaveDifferentUsers(ListDue(rows, now), outcomes);
    ClearedIsPaidOrSilent(chain, round, Executables(outcomes), |Executables(outcomes)|);
  }

  /** When the contract reports every item, nothing is lost: fees before are fees after, plus what the
      contract was paid for items with status 0, plus what is given up. */
  lemma RoundConserves(chain: Chain, round: nat, now: nat, rows: seq<Request>, outcomes: seq<Outcome>)
    requires IsRound(chain, round, now, rows, outcomes) && NoCallFails(chain, round, outcomes)
    requires Honest(chain) && Complete(chain)
    ensures var items := Executables(outcomes);
            Fees(rows) == Fees(RowsAfter(chain, round, now, rows, outcomes))
                        + Charged(chain, round, items, |items|)
                        + WrittenOff(Waiting(rows, outcomes, now), Final(chain, round, outcomes))
  {
    RoundBalances(chain, round, now, rows, outcomes);
    NothingUnreported(chain, round, Executables(outcomes), |Executables(outcomes)|);
  }

  lemma {:induction false} UnreportedIsZeroIff(chain: Chain, round: nat, items: seq<Item>, n: nat)
    requires n <= |items| && forall k :: 0 <= k < |items| ==> items[k].totalFee >= 0
    ensures Unreported(chain, round, items, n) >= 0
    ensures Unreported(chain, round, items, n) == 0
       <==> forall k :: 0 <= k < n && Silent(chain, round, items, k) ==> items[k].totalFee == 0
  {
    if n > 0 {
      UnreportedIsZeroIff(chain, round, items, n - 1);
    }
  }

  /** A round conserves fees exactly when the contract is silent on no item that costs something. */
  lemma RoundConservesIff(chain: Chain, round: nat, now: nat, rows: seq<Request>, outcomes: seq<Outcome>)
    requires IsRound(chain, round, now, rows, outcomes) && Honest(chain) && NoCallFails(chain, round, outcomes)
    requires NoDebt(rows)
    ensures var items := Executables(outcomes);
            Fees(rows) == Fees(RowsAfter(chain, round, now, rows, outcomes))
                        + Charged(chain, round, items, |items|)
                        + WrittenOff(Waiting(rows, outcomes, now), Final(chain, round, outcomes))
            <==> forall k :: 0 <= k < |items| && Silent(chain, round, items, k) ==> items[k].totalFee == 0
  {
    var items, due := Executables(outcomes), ListDue(rows, now);
    RoundBalances(chain, round, now, rows, outcomes);
    PlannedOutcomesAreOk(chain, round, now, rows, outcomes);
    forall k | 0 <= k < |items|
      ensures items[k].totalFee >= 0
    {
      ExecutablesAreFor(due, outcomes, k);
      var i :| 0 <= i < |outcomes| && outcomes[i].adjusted == Some(items[k]);
      SettledCostsNothingLess(rows, now, outcomes[i]);
    }
    UnreportedIsZeroIff(chain, round, items, |items|);
  }

  lemma SettledCostsNothingLess(rows: seq<Request>, now: nat, o: Outcome)
    requires OutcomeOk(ListDue(rows, now), o) && NoDebt(rows)
    ensures Fees(o.settled) >= 0
  {
    forall r | r in o.settled
      ensures FeeOf(r) >= 0
    {
      assert r in o.original.requests;
    }
    FeesNonNegative(o.settled);
  }

  /** The rows of one user that a round deletes. */
  function DeletedOf(rows: seq<Request>, final: seq<Outcome>, user: User): seq<Request> {
    Filter(rows, (r: Request) => r.user == user && Doomed(r, final))
  }

  /** What is deleted of one user's requests: with an item that was sent and not reported as failed,
      its total; without a signer, all open requests; otherwise nothing. */
  lemma UserLosesDeleted(chain: Chain, round: nat, now: nat, rows: seq<Request>, outcomes: seq<Outcome>, k: nat)
    requires IsRound(chain, round, now, rows, outcomes) && Honest(chain) && k < |outcomes|
    ensures var o, after := outcomes[k], Waiting(rows, outcomes, now);
            Fees(DeletedOf(after, Final(chain, round, outcomes), o.user)) ==
            if o.status == NoSigner then Fees(OpenRows(after, o.user))
            else if o.adjusted.Some? && o.user !in FailuresOf(chain, round, outcomes) then o.adjusted.value.totalFee
            else 0
  {
    var after, final, due := Waiting(rows, outcomes, now), Final(chain, round, outcomes), ListDue(rows, now);
    PlannedOutcomesAreOk(chain, round, now, rows, outcomes);
    FinalOutcomesAreOk(due, outcomes, FailuresOf(chain, round, outcomes));
    assert OutcomeOk(due, outcomes[k]) && OutcomeOk(due, final[k]);
    DeletedByOwnOutcome(rows, AllPutOff(outcomes), now, final, k);
    if outcomes[k].status == NoSigner {
      DoomOfUnknown(after, final[k]);
    } else {
      FeesOfDoom(rows, AllPutOff(outcomes), now, final[k]);
    }
  }

  /** A user whose item was sent pays for exactly the requests that are deleted, if and only if the
      contract reports on the item or the item costs nothing. */
  lemma UserPaysForDeleted(chain: Chain, round: nat, now: nat, rows: seq<Request>, outcomes: seq<Outcome>, k: nat,
        j: nat)
    requires IsRound(chain, round, now, rows, outcomes) && Honest(chain) && NoCallFails(chain, round, outcomes)
    requires k < |outcomes| && j < |Executables(outcomes)| && outcomes[k].adjusted == Some(Executables(outcomes)[j])
    ensures var items, user := Executables(outcomes), outcomes[k].user;
            Fees(DeletedOf(Waiting(rows, outcomes, now), Final(chain, round, outcomes), user))
            == (if PaidBy(chain, round, items, j) then items[j].totalFee else 0)
            <==> (Silent(chain, round, items, j) ==> items[j].totalFee == 0)
  {
    var items := Executables(outcomes);
    PlannedOutcomesAreOk(chain, round, now, rows, outcomes);
    assert OutcomeOk(ListDue(rows, now), outcomes[k]);
    ExecutablesHaveDifferentUsers(ListDue(rows, now), outcomes);
    UserLosesDeleted(chain, round, now, rows, outcomes, k);
    ExecutionIsPointwise(chain, round, items, j);
    ItemReported(chain, round, items, j);
  }

  lemma DeletedByOwnOutcome(rows: seq<Request>, hs: set<Hash>, now: nat, final: seq<Outcome>, k: nat)
    requires Keyed(rows) && OutcomesOk(ListDue(rows, now), final) && k < |final|
    ensures var after := SetSkip(rows, hs, now + HOUR);
            DeletedOf(after, final, final[k].user) == Doom(after, final[k])
  {
    var after := SetSkip(rows, hs, now + HOUR);
    forall r | r in after
      ensures (r.user == final[k].user && Doomed(r, final)) == DoomedBy(r, final[k])
    {
      if r.user == final[k].user && Doomed(r, final) {
        var i :| 0 <= i < |final| && DoomedBy(r, final[i]);
        DoomIsOwn(rows, hs, now, final[i], r);
      } else if DoomedBy(r, final[k]) {
        DoomIsOwn(rows, hs, now, final[k], r);
      }
    }
    FilterAgrees(after,
                 (r: Request) => r.user == final[k].user && Doomed(r, final),
                 (r: Request) => DoomedBy(r, final[k]));
  }

  // ----- the fate of every request

  predicate SettledIn(r: Request, final: seq<Outcome>) {
    exists k :: 0 <= k < |final| && r.hash in Hashes(final[k].settled)
  }

  predicate CarriedUnreported(chain: Chain, round: nat, items: seq<Item>, r: Request, j: nat)
    requires j < |items|
  {
    r.hash in Hashes(items[j].requests) && !FailedBy(chain, round, items, j, items[j].user)
  }

  lemma SettledIsCarried(chain: Chain, round: nat, due: seq<Request>, outcomes: seq<Outcome>, r: Request, k: nat)
    requires OutcomesOk(due, outcomes) && Honest(chain)
    requires k < |outcomes| && r.hash in Hashes(Final(chain, round, outcomes)[k].settled)
    ensures var items := Executables(outcomes);
            exists j :: 0 <= j < |items| && CarriedUnreported(chain, round, items, r, j)
  {
    var items := Executables(outcomes);
    ExecutablesHaveDifferentUsers(due, outcomes);
    assert OutcomeOk(due, outcomes[k]) && outcomes[k].adjusted.Some?;
    ExecutablesCover(outcomes, k);
    var j :| 0 <= j < |items| && items[j] == outcomes[k].adjusted.value;
    ExecutionIsPointwise(chain, round, items, j);
    assert CarriedUnreported(chain, round, items, r, j);
  }

  lemma CarriedIsSettled(chain: Chain, round: nat, due: seq<Request>, outcomes: seq<Outcome>, r: Request, j: nat)
    requires OutcomesOk(due, outcomes) && Honest(chain)
    requires j < |Executables(outcomes)| && CarriedUnreported(chain, round, Executables(outcomes), r, j)
    ensures SettledIn(r, Final(chain, round, outcomes))
  {
    var items := Executables(outcomes);
    ExecutablesHaveDifferentUsers(due, outcomes);
    ExecutablesAreFor(due, outcomes, j);
    var k :| 0 <= k < |outcomes| && outcomes[k].adjusted == Some(items[j]);
    assert OutcomeOk(due, outcomes[k]);
    ExecutionIsPointwise(chain, round, items, j);
    assert r.hash in Hashes(Final(chain, round, outcomes)[k].settled);
  }

  /** A request is settled exactly when an item that carries it was sent and not reported failed. */
  lemma SettledIffCarried(chain: Chain, round: nat, now: nat, rows: seq<Request>, outcomes: seq<Outcome>, r: Request)
    requires IsRound(chain, round, now, rows, outcomes) && Honest(chain)
    ensures SettledIn(r, Final(chain, round, outcomes))
       <==> exists j :: 0 <= j < |Executables(outcomes)| && CarriedUnreported(chain, round, Executables(outcomes), r, j)
  {
    var items, final, due := Executables(outcomes), Final(chain, round, outcomes), ListDue(rows, now);
    PlannedOutcomesAreOk(chain, round, now, rows, outcomes);
    if SettledIn(r, final) {
      var k :| 0 <= k < |final| && r.hash in Hashes(final[k].settled);
      SettledIsCarried(chain, round, due, outcomes, r, k);
    }
    if j :| 0 <= j < |items| && CarriedUnreported(chain, round, items, r, j) {
      CarriedIsSettled(chain, round, due, outcomes, r, j);
    }
  }

  /** In terms of what the contract says: a request is settled exactly when an item that carries it is
      reported with status 0, or is not reported at all. */
  lemma SettledIffPaidOrSilent(chain: Chain, round: nat, now: nat, rows: seq<Request>, outcomes: seq<Outcome>,
        r: Request)
    requires IsRound(chain, round, now, rows, outcomes) && Honest(chain) && NoCallFails(chain, round, outcomes)
    ensures SettledIn(r, Final(chain, round, outcomes))
       <==> exists j :: 0 <= j < |Executables(outcomes)| && r.hash in Hashes(Executables(outcomes)[j].requests)
                        && (PaidBy(chain, round, Executables(outcomes), j)
                            || Silent(chain, round, Executables(outcomes), j))
  {
    var items := Executables(outcomes);
    PlannedOutcomesAreOk(chain, round, now, rows, outcomes);
    ExecutablesHaveDifferentUsers(ListDue(rows, now), outcomes);
    SettledIffCarried(chain, round, now, rows, outcomes, r);
    forall j | 0 <= j < |items|
      ensures CarriedUnreported(chain, round, items, r, j)
         <==> r.hash in Hashes(items[j].requests) && (PaidBy(chain, round, items, j) || Silent(chain, round, items, j))
    {
      ItemReported(chain, round, items, j);
    }
  }

  predicate GivenUp(r: Request, final: seq<Outcome>) {
    exists k :: 0 <= k < |final| && final[k].status == NoSigner && OpenOf(r, final[k].user)
  }

  predicate PutOffIn(r: Request, outcomes: seq<Outcome>) {
    r.hash in AllPutOff(outcomes)
  }

  /** A status the broker expects to pass: neither settled, short of funds, nor without a signer. */
  predicate Temporary(status: Status) {
    status != Success && status != Partial && status != NoSigner
  }

  lemma {:induction false} PutOffBySome(outcomes: seq<Outcome>, h: Hash) returns (k: nat)
    requires h in AllPutOff(outcomes)
    ensures k < |outcomes| && h in Hashes(PutOff(outcomes[k]))
  {
    k := |outcomes| - 1;
    if h !in Hashes(PutOff(outcomes[k])) {
      k := PutOffBySome(outcomes[..k], h);
    }
  }

  /** What an outcome puts off is due, its user's, and not planned for settlement. */
  lemma PutOffRow(rows: seq<Request>, now: nat, outcomes: seq<Outcome>, r: Request) returns (k: nat)
    requires Keyed(rows) && OutcomesOk(ListDue(rows, now), outcomes) && r in rows && PutOffIn(r, outcomes)
    ensures k < |outcomes| && outcomes[k].status == Partial && outcomes[k].user == r.user
    ensures Due(r, now) && r.fee.Value? && r.hash !in Hashes(outcomes[k].settled)
  {
    k := PutOffBySome(outcomes, r.hash);
    var x :| x in PutOff(outcomes[k]) && x.hash == r.hash;
    assert OutcomeOk(ListDue(rows, now), outcomes[k]) && x in outcomes[k].original.requests;
    SameHashSameRow(rows, r, x);
  }

  lemma SettledBySome(rows: seq<Request>, now: nat, final: seq<Outcome>, r: Request) returns (k: nat)
    requires Keyed(rows) && OutcomesOk(ListDue(rows, now), final) && r in rows && SettledIn(r, final)
    ensures k < |final| && r in final[k].settled && final[k].user == r.user && Due(r, now) && r.fee.Value?
  {
    k :| k < |final| && r.hash in Hashes(final[k].settled);
    SettledRow(rows, now, final[k], r);
  }

  lemma NotSettledAndGivenUp(rows: seq<Request>, now: nat, final: seq<Outcome>, r: Request)
    requires Keyed(rows) && OutcomesOk(ListDue(rows, now), final) && r in rows && SettledIn(r, final)
    ensures !GivenUp(r, final)
  {
    var k := SettledBySome(rows, now, final, r);
    forall i | 0 <= i < |final| && final[i].user == r.user
      ensures final[i].status != NoSigner
    {
      assert OutcomeOk(ListDue(rows, now), final[k]);
    }
  }

  lemma NotPutOffAndSettled(rows: seq<Request>, now: nat, outcomes: seq<Outcome>, failures: set<User>, r: Request)
    requires Keyed(rows) && OutcomesOk(ListDue(rows, now), outcomes) && r in rows && PutOffIn(r, outcomes)
    ensures !SettledIn(r, RevertAll(outcomes, failures))
  {
    var k := PutOffRow(rows, now, outcomes, r);
    forall i | 0 <= i < |outcomes|
      ensures r.hash !in Hashes(outcomes[i].settled)
    {
      if i != k && r.hash in Hashes(outcomes[i].settled) {
        SettledRow(rows, now, outcomes[i], r);
      }
    }
    forall i | 0 <= i < |outcomes|
      ensures r.hash !in Hashes(Revert(outcomes[i], failures).settled)
    {
    }
  }

  lemma NotPutOffAndGivenUp(rows: seq<Request>, now: nat, outcomes: seq<Outcome>, failures: set<User>, r: Request)
    requires Keyed(rows) && OutcomesOk(ListDue(rows, now), outcomes) && r in rows && PutOffIn(r, outcomes)
    ensures !GivenUp(r, RevertAll(outcomes, failures))
  {
    var k := PutOffRow(rows, now, outcomes, r);
    forall i | 0 <= i < |outcomes| && outcomes[i].user == r.user
      ensures i == k
    {
    }
  }

  predicate Untouched(r: Request, outcomes: seq<Outcome>, final: seq<Outcome>) {
    !SettledIn(r, final) && !GivenUp(r, final) && !PutOffIn(r, outcomes)
  }

  /** Every row meets exactly one fate: settled, given up, put off, or untouched. */
  lemma OneFate(chain: Chain, round: nat, now: nat, rows: seq<Request>, outcomes: seq<Outcome>, r: Request)
    requires IsRound(chain, round, now, rows, outcomes) && r in rows
    ensures var final := Final(chain, round, outcomes);
            (if SettledIn(r, final) then 1 else 0) + (if GivenUp(r, final) then 1 else 0)
            + (if PutOffIn(r, outcomes) then 1 else 0) + (if Untouched(r, outcomes, final) then 1 else 0) == 1
  {
    PlannedOutcomesAreOk(chain, round, now, rows, outcomes);
    FinalOutcomesAreOk(ListDue(rows, now), outcomes, FailuresOf(chain, round, outcomes));
    if SettledIn(r, Final(chain, round, outcomes)) {
      NotSettledAndGivenUp(rows, now, Final(chain, round, outcomes), r);
    }
    if PutOffIn(r, outcomes) {
      NotPutOffAndSettled(rows, now, outcomes, FailuresOf(chain, round, outcomes), r);
      NotPutOffAndGivenUp(rows, now, outcomes, FailuresOf(chain, round, outcomes), r);
    }
  }

  /** The row a request has become just before rows are deleted. */
  function Waited(r: Request, now: nat, outcomes: seq<Outcome>): Request {
    Skipped(r, AllPutOff(outcomes), now + HOUR)
  }

  lemma WaitedRow(rows: seq<Request>, now: nat, outcomes: seq<Outcome>, r: Request)
    requires Keyed(rows) && r in rows
    ensures Waited(r, now, outcomes) in Waiting(rows, outcomes, now)
    ensures forall x :: x in Waiting(rows, outcomes, now) && x.hash == r.hash ==> x == Waited(r, now, outcomes)
  {
    var after := Waiting(rows, outcomes, now);
    var i :| 0 <= i < |rows| && rows[i] == r;
    assert after[i] == Waited(r, now, outcomes);
    forall x | x in after && x.hash == r.hash
      ensures x == after[i]
    {
      var j :| 0 <= j < |after| && after[j] == x;
    }
  }

  lemma DoomedIff(due: seq<Request>, r: Request, hs: set<Hash>, until: nat, final: seq<Outcome>)
    requires OutcomesOk(due, final)
    ensures Doomed(Skipped(r, hs, until), final) <==> SettledIn(r, final) || GivenUp(r, final)
  {
    var x := Skipped(r, hs, until);
    forall k | 0 <= k < |final|
      ensures DoomedBy(x, final[k])
         <==> r.hash in Hashes(final[k].settled) || (final[k].status == NoSigner && OpenOf(r, final[k].user))
    {
      assert OutcomeOk(due, final[k]);
    }
  }

  /** Settled and given up requests are gone, those put off carry a wait of an hour, and the others
      are as they were. */
  lemma FateOnTable(chain: Chain, round: nat, now: nat, rows: seq<Request>, outcomes: seq<Outcome>, r: Request)
    requires IsRound(chain, round, now, rows, outcomes) && r in rows
    ensures var after, final := RowsAfter(chain, round, now, rows, outcomes), Final(chain, round, outcomes);
            && (SettledIn(r, final) || GivenUp(r, final) ==> r.hash !in Hashes(after))
            && (PutOffIn(r, outcomes) ==> r.(skipUntil := Some(now + HOUR)) in after)
            && (Untouched(r, outcomes, final) ==> r in after)
            && forall x :: x in after && x.hash == r.hash ==> x == Waited(r, now, outcomes)
  {
    PlannedOutcomesAreOk(chain, round, now, rows, outcomes);
    FinalOutcomesAreOk(ListDue(rows, now), outcomes, FailuresOf(chain, round, outcomes));
    WaitedRow(rows, now, outcomes, r);
    DoomedIff(ListDue(rows, now), r, AllPutOff(outcomes), now + HOUR, Final(chain, round, outcomes));
    OneFate(chain, round, now, rows, outcomes, r);
  }

  /** Why an outcome of its user leaves a due request as it is: the status is expected to pass, the
      fee does not parse, or the contract reported the item that carried it. */
  predicate KeptBy(o: Outcome, r: Request, failures: set<User>) {
    || Temporary(o.status)
    || (o.status != NoSigner && r.fee.Garbled?)
    || (r.hash in Hashes(o.settled) && o.user in failures)
  }

  lemma OutcomeDecides(rows: seq<Request>, now: nat, outcomes: seq<Outcome>, failures: set<User>, r: Request, k: nat)
    requires Keyed(rows) && OutcomesOk(ListDue(rows, now), outcomes) && r in ListDue(rows, now)
    requires k < |outcomes| && outcomes[k].user == r.user && !KeptBy(outcomes[k], r, failures)
    ensures !Untouched(r, outcomes, RevertAll(outcomes, failures))
  {
    var o, final := outcomes[k], RevertAll(outcomes, failures);
    assert OutcomeOk(ListDue(rows, now), o);
    if o.status == NoSigner {
      assert final[k] == o && OpenOf(r, final[k].user);
    } else {
      assert r in o.original.requests;
      if r.hash in Hashes(o.settled) {
        assert final[k].settled == o.settled;
      } else {
        assert r in PutOff(o);
        PutOffMember(outcomes, k, r.hash);
      }
    }
  }

  lemma {:induction false} PutOffMember(outcomes: seq<Outcome>, k: nat, h: Hash)
    requires k < |outcomes| && h in Hashes(PutOff(outcomes[k]))
    ensures h in AllPutOff(outcomes)
  {
    if k < |outcomes| - 1 {
      PutOffMember(outcomes[..|outcomes| - 1], k, h);
    }
  }

  lemma KeptIsNotSettled(due: seq<Request>, o: Outcome, failures: set<User>, r: Request)
    requires OutcomeOk(due, o) && KeptBy(o, r, failures)
    ensures Revert(o, failures).status != NoSigner
    ensures r.fee.Value? ==> r.hash !in Hashes(Revert(o, failures).settled)
  {
  }

  lemma OutcomeSpares(rows: seq<Request>, now: nat, outcomes: seq<Outcome>, failures: set<User>, r: Request)
    requires Keyed(rows) && OutcomesOk(ListDue(rows, now), outcomes) && r in ListDue(rows, now)
    requires forall k :: 0 <= k < |outcomes| && outcomes[k].user == r.user ==> KeptBy(outcomes[k], r, failures)
    ensures Untouched(r, outcomes, RevertAll(outcomes, failures))
  {
    var due := ListDue(rows, now);
    forall k | 0 <= k < |outcomes|
      ensures outcomes[k].user == r.user ==> Revert(outcomes[k], failures).status != NoSigner
      ensures r.hash !in Hashes(Revert(outcomes[k], failures).settled)
    {
      var o := outcomes[k];
      if r.hash in Hashes(Revert(o, failures).settled) {
        SettledRow(rows, now, o, r);
      }
      if o.user == r.user {
        KeptIsNotSettled(due, o, failures, r);
      }
    }
    if PutOffIn(r, outcomes) {
      var k := PutOffRow(rows, now, outcomes, r);
    }
  }

  /** A due request stays eligible exactly when its user has no outcome or one that keeps it. */
  lemma UntouchedWhen(chain: Chain, round: nat, now: nat, rows: seq<Request>, outcomes: seq<Outcome>, r: Request)
    requires IsRound(chain, round, now, rows, outcomes) && r in ListDue(rows, now)
    ensures Untouched(r, outcomes, Final(chain, round, outcomes))
       <==> forall k :: 0 <= k < |outcomes| && outcomes[k].user == r.user ==>
              KeptBy(outcomes[k], r, FailuresOf(chain, round, outcomes))
  {
    var failures := FailuresOf(chain, round, outcomes);
    PlannedOutcomesAreOk(chain, round, now, rows, outcomes);
    if k :| 0 <= k < |outcomes| && outcomes[k].user == r.user && !KeptBy(outcomes[k], r, failures) {
      OutcomeDecides(rows, now, outcomes, failures, r, k);
    } else {
      OutcomeSpares(rows, now, outcomes, failures, r);
    }
  }

  /** Within the hour, the next round lists a request of this one exactly when it stayed eligible. */
  lemma NextRoundLists(chain: Chain, round: nat, now: nat, rows: seq<Request>, outcomes: seq<Outcome>, later: nat,
        r: Request)
    requires IsRound(chain, round, now, rows, outcomes) && r in ListDue(rows, now) && now <= later < now + HOUR
    ensures var next := ListDue(RowsAfter(chain, round, now, rows, outcomes), later);
            r.hash in Hashes(next) <==> Untouched(r, outcomes, Final(chain, round, outcomes))
  {
    FateOnTable(chain, round, now, rows, outcomes, r);
    OneFate(chain, round, now, rows, outcomes, r);
    if Untouched(r, outcomes, Final(chain, round, outcomes)) {
      assert r in ListDue(RowsAfter(chain, round, now, rows, outcomes), later);
    }
  }

  /** When nothing stays eligible and no wait runs out meanwhile, the next round lists nothing. */
  lemma NothingLeft(chain: Chain, round: nat, now: nat, rows: seq<Request>, outcomes: seq<Outcome>, later: nat)
    requires IsRound(chain, round, now, rows, outcomes) && now <= later < now + HOUR
    requires forall r :: r in ListDue(rows, now) ==> !Untouched(r, outcomes, Final(chain, round, outcomes))
    requires forall r :: r in rows && r.skipUntil.Some? ==> r.skipUntil.value <= now || later < r.skipUntil.value
    ensures ListDue(RowsAfter(chain, round, now, rows, outcomes), later) == []
  {
    var after := RowsAfter(chain, round, now, rows, outcomes);
    forall x | x in after
      ensures !Due(x, later)
    {
      assert x in Waiting(rows, outcomes, now);
      var i :| 0 <= i < |rows| && Waiting(rows, outcomes, now)[i] == x;
      FateOnTable(chain, round, now, rows, outcomes, rows[i]);
      if Due(rows[i], now) {
        assert rows[i] in ListDue(rows, now);
        NextRoundLists(chain, round, now, rows, outcomes, later, rows[i]);
      }
    }
    FilterNone(after, (r: Request) => Due(r, later));
  }

  // ----- settlement and admission agree

  /** What settlement would charge a user is what admission adds up, less the open rows that are not
      due: those put off and those without output. */
  lemma GroupTotalIsDueShare(rows: seq<Request>, now: nat, user: User, prices: Prices)
    requires forall r :: r in rows && OpenOf(r, user) ==> FeeLaw(r, prices)
    ensures UnsettledFee(rows, user, prices)
         == Fees(OfUser(ListDue(rows, now), user)) + Fees(Filter(OpenRows(rows, user), (r: Request) => !Due(r, now)))
  {
    var open, due, mine := (r: Request) => OpenOf(r, user), (r: Request) => Due(r, now),
        (r: Request) => Groupable(r, user);
    UnsettledFeeIsSumOfFees(rows, user, prices);
    FeesSplit(OpenRows(rows, user), due);
    FilterAgrees(OpenRows(rows, user), (r: Request) => !due(r), (r: Request) => !Due(r, now));
    FilterFilter(rows, open, due);
    FilterFilter(rows, due, mine);
    forall r | r in rows
      ensures (open(r) && due(r)) == (due(r) && mine(r))
    {
      assert OpenOf(r, user) ==> FeeLaw(r, prices);
    }
    FilterAgrees(rows, (r: Request) => open(r) && due(r), (r: Request) => due(r) && mine(r));
  }
}
