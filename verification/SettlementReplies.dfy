/** What a round does to each request, read off the contract's replies to the preview and settlement
  calls. */
module SettlementReplies {
  import opened Options
  import opened Requests
  import opened SettlementPlan
  import opened SettlementRound
  import opened SettlementLaws

  // ----- what is planned

  /** A round plans one item for each user with a request that is due, open, with output and a fee that
      parses, if the signing service serves the user; the item carries exactly those requests. */
  lemma PlansWhatIsDue(chain: Chain, round: nat, now: nat, rows: seq<Request>, outcomes: seq<Outcome>, r: Request)
    requires IsRound(chain, round, now, rows, outcomes) && r in rows
    ensures var due := !r.processed && r.outputCount != 0 && r.fee.Value?
                       && (r.skipUntil.None? || r.skipUntil.value <= now);
            && (forall k :: 0 <= k < |outcomes| ==>
                  && (r in outcomes[k].original.requests <==> due && r.user == outcomes[k].original.user)
                  && outcomes[k].original.requests != [] && chain.signs(round, outcomes[k].original.user))
            && (due && chain.signs(round, r.user) ==>
                  exists k :: 0 <= k < |outcomes| && outcomes[k].original.user == r.user)
  {
    var reqs, items := ListDue(rows, now), Originals(outcomes);
    forall k | 0 <= k < |outcomes|
      ensures items[k] == ItemFor(reqs, items[k].user) && items[k].requests != [] && chain.signs(round, items[k].user)
    {
      assert ItemOk(reqs, u => chain.signs(round, u), items[k]);
    }
    if Due(r, now) && r.fee.Value? && chain.signs(round, r.user) {
      assert r in OfUser(reqs, r.user);
      assert HasUser(items, r.user);
    }
  }

  // ----- the replies

  /** The preview call for the outcome's batch fails. */
  predicate Unanswered(chain: Chain, round: nat, outcomes: seq<Outcome>, k: nat)
    requires k < |outcomes|
  {
    OwnPreview(chain, round, outcomes, k).PreviewError?
  }

  /** The call names the outcome's user as failing for the given reason. */
  ghost predicate Refused(chain: Chain, round: nat, outcomes: seq<Outcome>, k: nat, reason: Status)
    requires k < |outcomes|
  {
    var reply := OwnPreview(chain, round, outcomes, k);
    reply.Preview? && Says(reply.failedUsers, reply.failureReasons, outcomes[k].original.user, reason)
  }

  /** The call names the outcome's user as short by the given amount, and not as failing. */
  ghost predicate ShortBy(chain: Chain, round: nat, outcomes: seq<Outcome>, k: nat, amount: int)
    requires k < |outcomes|
  {
    var reply, user := OwnPreview(chain, round, outcomes, k), outcomes[k].original.user;
    && reply.Preview? && !Names(reply.failedUsers, |reply.failureReasons|, user)
    && Says(reply.partialUsers, reply.partialAmounts, user, amount)
  }

  /** The call does not name the outcome's user. */
  predicate Accepted(chain: Chain, round: nat, outcomes: seq<Outcome>, k: nat)
    requires k < |outcomes|
  {
    var reply, user := OwnPreview(chain, round, outcomes, k), outcomes[k].original.user;
    && reply.Preview? && !Names(reply.failedUsers, |reply.failureReasons|, user)
    && !Names(reply.partialUsers, |reply.partialAmounts|, user)
  }

  /** The settlement call for the batch of fifty that carries item `j` reports its user with a status
      other than 0. */
  predicate ReportedFailed(chain: Chain, round: nat, items: seq<Item>, j: nat)
    requires j < |items|
  {
    var reply := chain.settle(round, j / 50 * 50, FiftyOf(items, j));
    reply.Receipt? && exists i :: 0 <= i < |reply.logs| && IsFailureOf(reply.logs[i], items[j].user)
  }

  predicate IsFailureOf(log: Log, user: User) {
    log.SettlementResult? && log.status != Success && log.user == user
  }

  lemma SaysOnce<V(!new)>(users: seq<User>, values: seq<V>, user: User, v: V)
    requires Says(users, values, user, v)
    ensures Names(users, |values|, user) && forall w :: Says(users, values, user, w) ==> w == v
  {
    LookupIsLast(users, values, user);
  }

  /** The status planned is that of the reply. */
  lemma StatusIsReply(chain: Chain, round: nat, now: nat, rows: seq<Request>, outcomes: seq<Outcome>, k: nat,
        reason: Status)
    requires IsRound(chain, round, now, rows, outcomes) && k < |outcomes|
    ensures reason != Success && reason != Partial ==>
              (outcomes[k].status == reason <==> Refused(chain, round, outcomes, k, reason))
    ensures Refused(chain, round, outcomes, k, reason) ==> outcomes[k].status == reason
    ensures Unanswered(chain, round, outcomes, k) ==> outcomes[k].status == Partial
    ensures Accepted(chain, round, outcomes, k) ==> outcomes[k].status == Success
  {
    PlansFollowPreview(chain, round, outcomes);
    assert FollowsPreview(chain, round, outcomes, k);
    var reply, user := OwnPreview(chain, round, outcomes, k), outcomes[k].original.user;
    if Refused(chain, round, outcomes, k, reason) {
      SaysOnce(reply.failedUsers, reply.failureReasons, user, reason);
    }
  }

  // ----- refused

  lemma OneOutcomePerUser(chain: Chain, round: nat, now: nat, rows: seq<Request>, outcomes: seq<Outcome>,
        k: nat, i: nat)
    requires IsRound(chain, round, now, rows, outcomes) && k < |outcomes| && i < |outcomes|
    ensures outcomes[k].user == outcomes[k].original.user
    ensures outcomes[i].user == outcomes[k].user ==> i == k
  {
    PlannedOutcomesAreOk(chain, round, now, rows, outcomes);
    assert OutcomeOk(ListDue(rows, now), outcomes[k]);
  }

  /** An open request of a planned user is given up, and gone, exactly when the reply to its user's preview
      call names the user as one without a signer. */
  lemma GivenUpIffNoSigner(chain: Chain, round: nat, now: nat, rows: seq<Request>, outcomes: seq<Outcome>, k: nat,
        r: Request)
    requires IsRound(chain, round, now, rows, outcomes) && k < |outcomes|
    requires r in rows && !r.processed && r.user == outcomes[k].original.user
    ensures GivenUp(r, Final(chain, round, outcomes)) <==> Refused(chain, round, outcomes, k, NoSigner)
    ensures Refused(chain, round, outcomes, k, NoSigner) ==>
              r.hash !in Hashes(RowsAfter(chain, round, now, rows, outcomes))
  {
    var final := Final(chain, round, outcomes);
    StatusIsReply(chain, round, now, rows, outcomes, k, NoSigner);
    PlannedOutcomesAreOk(chain, round, now, rows, outcomes);
    assert OutcomeOk(ListDue(rows, now), outcomes[k]);
    forall i | 0 <= i < |outcomes| && final[i].user == r.user
      ensures i == k
    {
      OneOutcomePerUser(chain, round, now, rows, outcomes, k, i);
    }
    if outcomes[k].status == NoSigner {
      assert final[k] == outcomes[k];
      FateOnTable(chain, round, now, rows, outcomes, r);
    }
  }

  lemma NothingSettled(chain: Chain, round: nat, now: nat, rows: seq<Request>, outcomes: seq<Outcome>, k: nat,
        r: Request)
    requires IsRound(chain, round, now, rows, outcomes) && k < |outcomes|
    requires r in rows && r.user == outcomes[k].user && Temporary(outcomes[k].status)
    ensures Untouched(r, outcomes, Final(chain, round, outcomes))
  {
    var final, due := Final(chain, round, outcomes), ListDue(rows, now);
    PlannedOutcomesAreOk(chain, round, now, rows, outcomes);
    FinalOutcomesAreOk(due, outcomes, FailuresOf(chain, round, outcomes));
    assert OutcomeOk(due, outcomes[k]) && final[k] == outcomes[k];
    if SettledIn(r, final) {
      var i := SettledBySome(rows, now, final, r);
      OneOutcomePerUser(chain, round, now, rows, outcomes, k, i);
    }
    if PutOffIn(r, outcomes) {
      var i := PutOffRow(rows, now, outcomes, r);
      OneOutcomePerUser(chain, round, now, rows, outcomes, k, i);
    }
  }

  /** Refused for any other reason that is neither success nor a shortfall, a user keeps every row as it
      is. */
  lemma RefusedStays(chain: Chain, round: nat, now: nat, rows: seq<Request>, outcomes: seq<Outcome>, k: nat,
        reason: Status, r: Request)
    requires IsRound(chain, round, now, rows, outcomes) && k < |outcomes|
    requires Refused(chain, round, outcomes, k, reason) && reason !in {Success, Partial, NoSigner}
    requires r in rows && r.user == outcomes[k].original.user
    ensures r in RowsAfter(chain, round, now, rows, outcomes)
  {
    StatusIsReply(chain, round, now, rows, outcomes, k, reason);
    OneOutcomePerUser(chain, round, now, rows, outcomes, k, k);
    NothingSettled(chain, round, now, rows, outcomes, k, r);
    FateOnTable(chain, round, now, rows, outcomes, r);
  }

  // ----- short of funds

  /** What a user short of funds cannot settle waits for an hour. */
  lemma LeftWaits(chain: Chain, round: nat, now: nat, rows: seq<Request>, outcomes: seq<Outcome>, k: nat, r: Request)
    requires IsRound(chain, round, now, rows, outcomes) && k < |outcomes|
    requires r in rows && LeftBy(outcomes[k], r.hash)
    ensures r.(skipUntil := Some(now + 3600)) in RowsAfter(chain, round, now, rows, outcomes)
  {
    PutOffIsLeft(outcomes);
    assert Left(outcomes, r.hash);
    FateOnTable(chain, round, now, rows, outcomes, r);
  }

  // ----- sent

  /** A request that is sent is gone, unless the settlement call for it reports its user as failed: then
      its row is as it was. */
  lemma SentIsGoneUnlessReported(chain: Chain, round: nat, now: nat, rows: seq<Request>, outcomes: seq<Outcome>,
        k: nat, r: Request)
    requires IsRound(chain, round, now, rows, outcomes) && Honest(chain) && k < |outcomes|
    requires r in rows && r in outcomes[k].settled
    ensures exists j :: 0 <= j < |Executables(outcomes)| && IsOwnCall(chain, round, now, rows, outcomes, r, j)
  {
    var due, items := ListDue(rows, now), Executables(outcomes);
    PlannedOutcomesAreOk(chain, round, now, rows, outcomes);
    assert OutcomeOk(due, outcomes[k]);
    ExecutablesHaveDifferentUsers(due, outcomes);
    ExecutablesCover(outcomes, k);
    var j :| 0 <= j < |items| && items[j] == outcomes[k].adjusted.value;
    ExecutionIsPointwise(chain, round, items, j);
    ReportedByCall(chain, round, items, j);
    SentFate(chain, round, now, rows, outcomes, k, r);
    assert IsOwnCall(chain, round, now, rows, outcomes, r, j);
  }

  /** Item `j` is the user's, carries the request, and what its call reports decides the request's fate. */
  ghost predicate IsOwnCall(chain: Chain, round: nat, now: nat, rows: seq<Request>, outcomes: seq<Outcome>,
        r: Request, j: nat)
    requires j < |Executables(outcomes)|
  {
    var item, after := Executables(outcomes)[j], RowsAfter(chain, round, now, rows, outcomes);
    && item.user == r.user && r in item.requests && item.totalFee == Fees(item.requests)
    && if ReportedFailed(chain, round, Executables(outcomes), j) then r in after else r.hash !in Hashes(after)
  }

  lemma ReportedByCall(chain: Chain, round: nat, items: seq<Item>, j: nat)
    requires j < |items|
    ensures FailedBy(chain, round, items, j, items[j].user) <==> ReportedFailed(chain, round, items, j)
  {
    BatchesAreFifties(items, j);
    var reply := CallFor(chain, round, items, j);
    if FailedBy(chain, round, items, j, items[j].user) {
      var log :| log in reply.logs && ReportsFailure(log) && log.user == items[j].user;
      var i :| 0 <= i < |reply.logs| && reply.logs[i] == log;
      assert IsFailureOf(reply.logs[i], items[j].user);
    }
    if ReportedFailed(chain, round, items, j) {
      var i :| 0 <= i < |reply.logs| && IsFailureOf(reply.logs[i], items[j].user);
      assert reply.logs[i] in reply.logs && ReportsFailure(reply.logs[i]);
    }
  }

  lemma SentFate(chain: Chain, round: nat, now: nat, rows: seq<Request>, outcomes: seq<Outcome>, k: nat, r: Request)
    requires IsRound(chain, round, now, rows, outcomes) && k < |outcomes| && r in rows && r in outcomes[k].settled
    ensures var after := RowsAfter(chain, round, now, rows, outcomes);
            if outcomes[k].user in FailuresOf(chain, round, outcomes) then r in after else r.hash !in Hashes(after)
  {
    var due, failures, final := ListDue(rows, now), FailuresOf(chain, round, outcomes), Final(chain, round, outcomes);
    PlannedOutcomesAreOk(chain, round, now, rows, outcomes);
    assert OutcomeOk(due, outcomes[k]) && r in outcomes[k].original.requests;
    FateOnTable(chain, round, now, rows, outcomes, r);
    if outcomes[k].user in failures {
      forall i | 0 <= i < |outcomes| && outcomes[i].user == r.user
        ensures KeptBy(outcomes[i], r, failures)
      {
        OneOutcomePerUser(chain, round, now, rows, outcomes, k, i);
      }
      OutcomeSpares(rows, now, outcomes, failures, r);
    } else {
      assert final[k] == outcomes[k] && r.hash in Hashes(final[k].settled);
    }
  }

  // ----- all replies

  /** The item's requests are different, and all their fees parse. */
  lemma ItemIsKeyed(chain: Chain, round: nat, now: nat, rows: seq<Request>, outcomes: seq<Outcome>, k: nat)
    requires IsRound(chain, round, now, rows, outcomes) && k < |outcomes|
    ensures var item := outcomes[k].original;
            && WellFormed(item) && Keyed(item.requests) && (NoDebt(rows) ==> NoDebt(item.requests))
  {
    var reqs, items := ListDue(rows, now), Originals(outcomes);
    assert ItemOk(reqs, u => chain.signs(round, u), items[k]);
    FilterKeyed(rows, (r: Request) => Due(r, now));
    FilterKeyed(reqs, (r: Request) => Groupable(r, items[k].user));
  }

  /** An outcome for a shortfall sends what comes before the cut, unless that costs nothing. */
  lemma CutDecides(o: Outcome, result: PreviewResult, i: nat)
    requires PlannedFor(o, result) && result.status == Partial && Keyed(o.original.requests)
    requires i < |o.original.requests|
    ensures exists cut ::
              IsCut(o.original.requests, o.original.totalFee - result.unsettled, cut) && GoesByCut(o, i, cut)
  {
    var requests := o.original.requests;
    var cut :| IsCut(requests, o.original.totalFee - result.unsettled, cut) && CutTo(o, requests[..cut]);
    if i >= cut {
      forall j | 0 <= j < cut
        ensures requests[..cut][j].hash != requests[i].hash
      {
      }
    }
    assert GoesByCut(o, i, cut);
  }

  /** What is before the cut of an empty budget costs nothing. */
  lemma CutOfNothing(requests: seq<Request>, cut: int)
    requires IsCut(requests, 0, cut) && NoDebt(requests) && forall r :: r in requests ==> r.fee.Value?
    ensures Fees(requests[..cut]) == 0
  {
    FeesNonNegative(requests[..cut]);
    if cut > 0 {
      assert requests[cut - 1] in requests;
    }
  }

  lemma ReplyIsPlanned(chain: Chain, round: nat, now: nat, rows: seq<Request>, outcomes: seq<Outcome>, k: nat)
    returns (result: PreviewResult)
    requires IsRound(chain, round, now, rows, outcomes) && k < |outcomes|
    ensures ReadsAs(OwnPreview(chain, round, outcomes, k), outcomes[k].original, result)
    ensures PlannedFor(outcomes[k], result)
  {
    PlansFollowPreview(chain, round, outcomes);
    assert FollowsPreview(chain, round, outcomes, k);
    result :| ReadsAs(OwnPreview(chain, round, outcomes, k), outcomes[k].original, result)
              && PlannedFor(outcomes[k], result);
  }

  lemma UnansweredWaits(chain: Chain, round: nat, now: nat, rows: seq<Request>, outcomes: seq<Outcome>, k: nat,
        i: nat)
    requires IsRound(chain, round, now, rows, outcomes) && k < |outcomes|
    requires i < |outcomes[k].original.requests| && NoDebt(rows)
    requires Unanswered(chain, round, outcomes, k) || Refused(chain, round, outcomes, k, Partial)
    ensures LeftBy(outcomes[k], outcomes[k].original.requests[i].hash)
  {
    var o := outcomes[k];
    var result := ReplyIsPlanned(chain, round, now, rows, outcomes, k);
    StatusIsReply(chain, round, now, rows, outcomes, k, Partial);
    ItemIsKeyed(chain, round, now, rows, outcomes, k);
    CutDecides(o, result, i);
    var cut :| IsCut(o.original.requests, 0, cut) && GoesByCut(o, i, cut);
    CutOfNothing(o.original.requests, cut);
  }

  lemma ShortByCut(chain: Chain, round: nat, now: nat, rows: seq<Request>, outcomes: seq<Outcome>, k: nat, i: nat,
        amount: int)
    requires IsRound(chain, round, now, rows, outcomes) && k < |outcomes|
    requires i < |outcomes[k].original.requests| && ShortBy(chain, round, outcomes, k, amount)
    ensures var item := outcomes[k].original;
            exists cut :: IsCut(item.requests, item.totalFee - amount, cut) && GoesByCut(outcomes[k], i, cut)
  {
    var reply, item := OwnPreview(chain, round, outcomes, k), outcomes[k].original;
    var result := ReplyIsPlanned(chain, round, now, rows, outcomes, k);
    SaysOnce(reply.partialUsers, reply.partialAmounts, item.user, amount);
    ItemIsKeyed(chain, round, now, rows, outcomes, k);
    CutDecides(outcomes[k], result, i);
  }

  /** What becomes of request number `i` of a planned user, by the reply to the user's preview call.  The
      call fails, or refuses the user as short: it waits.  The user is not named, or refused with status
      0: it is sent.  Short by some amount: it is sent if it comes before the cut that the rest of the
      total pays for, and the requests before the cut cost something; else it waits. */
  lemma FateByPreview(chain: Chain, round: nat, now: nat, rows: seq<Request>, outcomes: seq<Outcome>, k: nat, i: nat)
    requires IsRound(chain, round, now, rows, outcomes) && k < |outcomes|
    requires i < |outcomes[k].original.requests|
    ensures var item, o := outcomes[k].original, outcomes[k];
            && (Unanswered(chain, round, outcomes, k) || Refused(chain, round, outcomes, k, Partial) ==>
                  NoDebt(rows) ==> LeftBy(o, item.requests[i].hash))
            && (Accepted(chain, round, outcomes, k) || Refused(chain, round, outcomes, k, Success) ==>
                  item.requests[i] in o.settled)
            && (forall amount :: ShortBy(chain, round, outcomes, k, amount) ==>
                  exists cut :: IsCut(item.requests, item.totalFee - amount, cut) && GoesByCut(o, i, cut))
  {
    if (Unanswered(chain, round, outcomes, k) || Refused(chain, round, outcomes, k, Partial)) && NoDebt(rows) {
      UnansweredWaits(chain, round, now, rows, outcomes, k, i);
    }
    if Accepted(chain, round, outcomes, k) || Refused(chain, round, outcomes, k, Success) {
      var result := ReplyIsPlanned(chain, round, now, rows, outcomes, k);
      StatusIsReply(chain, round, now, rows, outcomes, k, Success);
    }
    forall amount | ShortBy(chain, round, outcomes, k, amount)
      ensures var item := outcomes[k].original;
              exists cut :: IsCut(item.requests, item.totalFee - amount, cut) && GoesByCut(outcomes[k], i, cut)
    {
      ShortByCut(chain, round, now, rows, outcomes, k, i, amount);
    }
  }

  ghost predicate GoesByCut(o: Outcome, i: nat, cut: int)
    requires i < |o.original.requests|
  {
    && 0 <= cut <= |o.original.requests|
    && if i < cut && Fees(o.original.requests[..cut]) != 0 then o.original.requests[i] in o.settled
       else LeftBy(o, o.original.requests[i].hash)
  }
}
