/** From the requests due for settlement to what is sent to the contract: grouping by user,
  batched preview, and the cut for users who cannot pay in full. */
module SettlementPlan {
  import opened Options
  import opened Requests

  const BATCH_SIZE: nat := 50

  /** The contract's status codes. */
  datatype Status =
    | Success | Partial | ProviderMismatch | NoSigner | InvalidNonce | InvalidSignature | Unknown(code: nat)

  /** What is sent to the contract for one user; the hash of the requests stands for their list. */
  datatype Item = Item(user: User, totalFee: int, requests: seq<Request>)

  datatype UserRequests = UserRequests(requests: seq<Request>, totalFee: int)

  // ----- grouping

  predicate Groupable(r: Request, user: User) {
    r.fee.Value? && r.user == user
  }

  function OfUser(reqs: seq<Request>, user: User): seq<Request> {
    Filter(reqs, (r: Request) => Groupable(r, user))
  }

  lemma GroupGrows(reqs: seq<Request>, i: nat, user: User)
    requires i < |reqs|
    ensures var req, group := reqs[i], OfUser(reqs[..i], user);
            && OfUser(reqs[..i + 1], user) == group + (if Groupable(req, user) then [req] else [])
            && Fees(OfUser(reqs[..i + 1], user)) == Fees(group) + if Groupable(req, user) then FeeOf(req) else 0
  {
    FilterGrows(reqs, i, (r: Request) => Groupable(r, user));
    FeesConcat(OfUser(reqs[..i], user), if Groupable(reqs[i], user) then [reqs[i]] else []);
  }

  predicate GroupIs(reqs: seq<Request>, groups: map<User, UserRequests>, user: User) {
    var mine := OfUser(reqs, user);
    && (user in groups <==> mine != [])
    && (user in groups ==> groups[user] == UserRequests(mine, Fees(mine)))
  }

  method GroupRequestsByUser(reqs: seq<Request>) returns (groups: map<User, UserRequests>)
    ensures forall u :: GroupIs(reqs, groups, u)
  {
    groups := map[];
    for i := 0 to |reqs|
      invariant forall u :: GroupIs(reqs[..i], groups, u)
    {
      var req := reqs[i];
      ghost var before := groups;
      if req.fee.Value? {
        assert GroupIs(reqs[..i], groups, req.user);
        if req.user in groups {
          var mine := groups[req.user];
          groups := groups[req.user := UserRequests(mine.requests + [req], mine.totalFee + req.fee.n)];
        } else {
          groups := groups[req.user := UserRequests([req], req.fee.n)];
        }
      }
      ghost var seen := reqs[..i + 1];
      forall u
        ensures GroupIs(seen, groups, u)
      {
        assert GroupIs(reqs[..i], before, u);
        GroupGrows(reqs, i, u);
      }
    }
    assert reqs[..|reqs|] == reqs;
  }

  function TotalOf(reqs: seq<Request>, users: seq<User>): int {
    if users == [] then 0 else Fees(OfUser(reqs, users[0])) + TotalOf(reqs, users[1..])
  }

  ghost predicate AllDifferent(users: seq<User>) {
    forall i, j :: 0 <= i < j < |users| ==> users[i] != users[j]
  }

  /** A request whose fee parses is in the group of its user, as often as it was listed, and in no
      other group; the others are in none. */
  lemma {:induction false} GroupsPartition(reqs: seq<Request>, r: Request, user: User)
    ensures multiset(OfUser(reqs, user))[r] == if Groupable(r, user) then multiset(reqs)[r] else 0
  {
    if reqs != [] {
      GroupsPartition(reqs[1..], r, user);
      assert reqs == [reqs[0]] + reqs[1..];
    }
  }

  /** The totals of the groups add up to the fees of all requests. */
  lemma {:induction false} GroupTotalsAddUp(reqs: seq<Request>, users: seq<User>)
    requires AllDifferent(users) && forall r :: r in reqs && r.fee.Value? ==> r.user in users
    ensures TotalOf(reqs, users) == Fees(reqs)
  {
    if reqs == [] {
      NoRequestsNoTotal(users);
    } else {
      GroupTotalsAddUp(reqs[1..], users);
      HeadCountsOnce(reqs, users);
    }
  }

  lemma {:induction false} NoRequestsNoTotal(users: seq<User>)
    ensures TotalOf([], users) == 0
  {
    if users != [] {
      NoRequestsNoTotal(users[1..]);
    }
  }

  lemma {:induction false} HeadCountsOnce(reqs: seq<Request>, users: seq<User>)
    requires reqs != [] && AllDifferent(users)
    ensures TotalOf(reqs, users) == TotalOf(reqs[1..], users)
            + if reqs[0].user in users then FeeOf(reqs[0]) else 0
  {
    if users != [] {
      HeadCountsOnce(reqs, users[1..]);
      var head := if Groupable(reqs[0], users[0]) then [reqs[0]] else [];
      FeesConcat(head, OfUser(reqs[1..], users[0]));
      assert OfUser(reqs, users[0]) == head + OfUser(reqs[1..], users[0]);
    }
  }

  // ----- the cut

  /** How many requests the budget covers before the first that it does not. */
  function Affordable(requests: seq<Request>, budget: int): (k: nat)
    ensures k <= |requests|
  {
    if requests == [] then 0
    else if requests[0].fee.Garbled? then 1 + Affordable(requests[1..], budget)
    else if budget >= requests[0].fee.n then 1 + Affordable(requests[1..], budget - requests[0].fee.n)
    else 0
  }

  predicate Parses(r: Request) {
    r.fee.Value?
  }

  lemma AffordableStep(requests: seq<Request>, i: nat, budget: int)
    requires i < |requests|
    ensures var req, rest := requests[i], requests[i + 1..];
            Affordable(requests[i..], budget) ==
            if req.fee.Garbled? then 1 + Affordable(rest, budget)
            else if budget >= req.fee.n then 1 + Affordable(rest, budget - req.fee.n)
            else 0
    ensures Filter(requests[..i + 1], Parses)
         == Filter(requests[..i], Parses) + if Parses(requests[i]) then [requests[i]] else []
    ensures Fees(requests[..i + 1]) == Fees(requests[..i]) + FeeOf(requests[i])
  {
    assert requests[i..][1..] == requests[i + 1..];
    assert requests[..i + 1] == requests[..i] + [requests[i]];
    FilterConcat(requests[..i], [requests[i]], Parses);
    FeesConcat(requests[..i], [requests[i]]);
  }

  /** The budget covers each prefix up to `k` that ends in a parsing request, and not the next one. */
  ghost predicate IsCut(requests: seq<Request>, budget: int, k: int) {
    && 0 <= k <= |requests|
    && (forall j :: 0 <= j < k && requests[j].fee.Value? ==> Fees(requests[..j + 1]) <= budget)
    && (k < |requests| ==> requests[k].fee.Value? && Fees(requests[..k + 1]) > budget)
  }

  /** What the loop over the requests takes is what the budget covers, one after the other. */
  lemma {:induction false} AffordableIsCut(requests: seq<Request>, budget: int)
    ensures IsCut(requests, budget, Affordable(requests, budget))
  {
    if requests != [] {
      var rest, left := requests[1..], budget - FeeOf(requests[0]);
      AffordableIsCut(rest, left);
      forall j | 0 <= j < |requests|
        ensures Fees(requests[..j + 1]) == FeeOf(requests[0]) + Fees(rest[..j])
      {
        assert requests[..j + 1] == [requests[0]] + rest[..j];
      }
      var k := Affordable(requests, budget);
      forall j | 0 <= j < k && requests[j].fee.Value?
        ensures Fees(requests[..j + 1]) <= budget
      {
        if j > 0 {
          assert requests[j] == rest[j - 1];
        } else {
          assert rest[..0] == [];
        }
      }
      if k < |requests| {
        if k > 0 {
          assert requests[k] == rest[k - 1];
        } else {
          assert rest[..0] == [];
        }
      }
    }
  }

  method GetRequestsWithinBudget(requests: seq<Request>, budget: int) returns (result: seq<Request>, total: int)
    ensures result == Filter(requests[..Affordable(requests, budget)], Parses)
    ensures total == Fees(requests[..Affordable(requests, budget)])
  {
    result, total := [], 0;
    var remaining := budget;
    ghost var k := Affordable(requests, budget);
    for i := 0 to |requests|
      invariant result == Filter(requests[..i], Parses)
      invariant total == Fees(requests[..i]) && remaining == budget - total
      invariant k == i + Affordable(requests[i..], remaining)
    {
      var req := requests[i];
      AffordableStep(requests, i, remaining);
      if req.fee.Garbled? {
        continue;
      }
      if remaining >= req.fee.n {
        result, remaining, total := result + [req], remaining - req.fee.n, total + req.fee.n;
      } else {
        return;
      }
    }
    assert requests[..|requests|] == requests;
  }

  predicate NoDebt(requests: seq<Request>) {
    forall r :: r in requests ==> FeeOf(r) >= 0
  }

  /** With non-negative fees the cut is the longest prefix the budget covers. */
  lemma {:induction false} CutIsLongestPrefix(requests: seq<Request>, budget: int, j: nat)
    requires NoDebt(requests) && budget >= 0 && j <= |requests|
    ensures Fees(requests[..j]) <= budget <==> j <= Affordable(requests, budget)
  {
    if j == 0 {
    } else {
      var head := requests[0];
      assert requests[..j] == [head] + requests[1..][..j - 1];
      FeesConcat([head], requests[1..][..j - 1]);
      FeesNonNegative(requests[1..][..j - 1]);
      if FeeOf(head) <= budget {
        CutIsLongestPrefix(requests[1..], budget - FeeOf(head), j - 1);
      }
    }
  }

  lemma {:induction false} FeesNonNegative(requests: seq<Request>)
    requires NoDebt(requests)
    ensures Fees(requests) >= 0
  {
    if requests != [] {
      assert requests[0] in requests;
      FeesNonNegative(requests[1..]);
    }
  }

  /** Nothing is charged from an empty or negative budget. */
  lemma {:induction false} NothingFromNothing(requests: seq<Request>, budget: int)
    requires NoDebt(requests) && budget <= 0
    ensures Fees(requests[..Affordable(requests, budget)]) == 0
  {
    var k := Affordable(requests, budget);
    if requests != [] && k > 0 {
      assert requests[0] in requests;
      NothingFromNothing(requests[1..], budget);
      assert requests[..k] == [requests[0]] + requests[1..][..k - 1];
      FeesConcat([requests[0]], requests[1..][..k - 1]);
    }
  }

  method GetUnsettledRequests(all: seq<Request>, settled: seq<Request>) returns (unsettled: seq<Request>)
    ensures unsettled == Filter(all, (r: Request) => r.hash !in Hashes(settled))
  {
    var settledHashes := HashSet(settled);
    ghost var keep := (r: Request) => r.hash !in Hashes(settled);
    unsettled := [];
    for i := 0 to |all|
      invariant unsettled == Filter(all[..i], keep)
    {
      FilterGrows(all, i, keep);
      if all[i].hash !in settledHashes {
        unsettled := unsettled + [all[i]];
      }
    }
    assert all[..|all|] == all;
  }

  method HashSet(requests: seq<Request>) returns (hs: set<Hash>)
    ensures hs == Hashes(requests)
  {
    hs := {};
    for i := 0 to |requests|
      invariant hs == Hashes(requests[..i])
    {
      assert requests[..i + 1] == requests[..i] + [requests[i]];
      hs := hs + {requests[i].hash};
    }
    assert requests[..|requests|] == requests;
  }

  /** What is left after settling a prefix is the rest, in order. */
  lemma UnsettledIsSuffix(all: seq<Request>, k: nat)
    requires Keyed(all) && k <= |all|
    ensures Filter(all, (r: Request) => r.hash !in Hashes(all[..k])) == all[k..]
  {
    var keep := (r: Request) => r.hash !in Hashes(all[..k]);
    assert all == all[..k] + all[k..];
    FilterConcat(all[..k], all[k..], keep);
    FilterNone(all[..k], keep);
    FilterAll(all[k..], keep);
  }

  lemma PrefixSelectsItself(all: seq<Request>, k: nat)
    requires Keyed(all) && k <= |all|
    ensures Filter(all, (r: Request) => r.hash in Hashes(all[..k])) == all[..k]
  {
    var keep := (r: Request) => r.hash in Hashes(all[..k]);
    assert all == all[..k] + all[k..];
    FilterConcat(all[..k], all[k..], keep);
    FilterAll(all[..k], keep);
    FilterNone(all[k..], keep);
  }

  lemma {:induction false} FilterNone(rows: seq<Request>, keep: Request -> bool)
    requires forall r :: r in rows ==> !keep(r)
    ensures Filter(rows, keep) == []
  {
    if rows != [] {
      assert rows[0] in rows;
      FilterNone(rows[1..], keep);
    }
  }

  lemma {:induction false} FilterAll(rows: seq<Request>, keep: Request -> bool)
    requires forall r :: r in rows ==> keep(r)
    ensures Filter(rows, keep) == rows
  {
    if rows != [] {
      assert rows[0] in rows;
      FilterAll(rows[1..], keep);
    }
  }

  // ----- the contract's replies

  datatype PreviewReply =
    | PreviewError
    | Preview(failedUsers: seq<User>, failureReasons: seq<Status>, partialUsers: seq<User>, partialAmounts: seq<int>)

  datatype Log = OtherEvent | SettlementResult(user: User, status: Status)

  datatype SettleReply = TransactionError | Receipt(logs: seq<Log>)

  /** The contract, as the broker sees it: the reply to the call for the batch starting at an
      offset, in a round.  `signs` says for which users the signing service answers. */
  datatype Chain = Chain(
    signs: (nat, User) -> bool,
    preview: (nat, nat, seq<Item>) -> PreviewReply,
    settle: (nat, nat, seq<Item>) -> SettleReply)

  datatype PreviewResult = PreviewResult(status: Status, unsettled: int)

  /** The value paired with the last occurrence of the user among the pairs. */
  function LookupLast<V>(users: seq<User>, values: seq<V>, user: User): Option<V> {
    if users == [] then None
    else
      var i := |users| - 1;
      if i < |values| && users[i] == user then Some(values[i]) else LookupLast(users[..i], values, user)
  }

  /** The last entry for the user, in two lists read in parallel, says `v`. */
  ghost predicate Says<V(!new)>(users: seq<User>, values: seq<V>, user: User, v: V) {
    exists i :: 0 <= i < |users| && LastFor(users, |values|, user, i) && values[i] == v
  }

  /** Entry `i` is the last for the user among those that have a value. */
  ghost predicate LastFor(users: seq<User>, n: nat, user: User, i: int) {
    0 <= i < |users| && i < n && users[i] == user && forall j :: i < j < |users| && j < n ==> users[j] != user
  }

  /** The lists have an entry for the user. */
  predicate Names(users: seq<User>, n: nat, user: User) {
    exists i :: 0 <= i < |users| && i < n && users[i] == user
  }

  lemma {:induction false} LookupIsLast<V(!new)>(users: seq<User>, values: seq<V>, user: User)
    ensures LookupLast(users, values, user).Some? <==> Names(users, |values|, user)
    ensures forall v :: LookupLast(users, values, user) == Some(v) <==> Says(users, values, user, v)
  {
    if users != [] {
      var n := |users| - 1;
      var front := users[..n];
      LookupIsLast(front, values, user);
      if n < |values| && users[n] == user {
        assert LastFor(users, |values|, user, n);
        assert forall i :: LastFor(users, |values|, user, i) ==> i == n;
      } else {
        assert forall i :: LastFor(users, |values|, user, i) <==> LastFor(front, |values|, user, i);
        assert forall i :: 0 <= i < n ==> front[i] == users[i];
        forall v
          ensures Says(users, values, user, v) <==> Says(front, values, user, v)
        {
          if i :| 0 <= i < |users| && LastFor(users, |values|, user, i) && values[i] == v {
            assert LastFor(front, |values|, user, i);
          }
          if i :| 0 <= i < |front| && LastFor(front, |values|, user, i) && values[i] == v {
            assert LastFor(users, |values|, user, i);
          }
        }
      }
    }
  }

  /** The reply to a preview call, read for one item of the batch: a call that fails leaves the whole
      total unsettled; a failure named for the user comes before a shortfall; a user not named settles
      in full. */
  ghost predicate ReadsAs(reply: PreviewReply, item: Item, result: PreviewResult) {
    match reply
    case PreviewError => result == PreviewResult(Partial, item.totalFee)
    case Preview(failed, reasons, partials, amounts) =>
      if Names(failed, |reasons|, item.user) then
        Says(failed, reasons, item.user, result.status) && result.unsettled == item.totalFee
      else if Names(partials, |amounts|, item.user) then
        result.status == Partial && Says(partials, amounts, item.user, result.unsettled)
      else result == PreviewResult(Success, 0)
  }

  lemma InterpretReads(reply: PreviewReply, item: Item)
    ensures ReadsAs(reply, item, Interpret(reply, item))
  {
    if reply.Preview? {
      LookupIsLast(reply.failedUsers, reply.failureReasons, item.user);
      LookupIsLast(reply.partialUsers, reply.partialAmounts, item.user);
    }
  }

  /** What the reply to the call of an item's batch means for the item. */
  function Interpret(reply: PreviewReply, item: Item): PreviewResult {
    match reply
    case PreviewError => PreviewResult(Partial, item.totalFee)
    case Preview(failed, reasons, partials, amounts) =>
      var failure := LookupLast(failed, reasons, item.user);
      var shortfall := LookupLast(partials, amounts, item.user);
      if failure.Some? then PreviewResult(failure.value, item.totalFee)
      else if shortfall.Some? then PreviewResult(Partial, shortfall.value)
      else PreviewResult(Success, 0)
  }

  function Min(a: nat, b: nat): nat {
    if a < b then a else b
  }

  /** Where the batch that contains position `k` starts. */
  function BatchStart(k: nat): (start: nat)
    ensures start <= k < start + BATCH_SIZE
  {
    if k < BATCH_SIZE then 0 else BATCH_SIZE + BatchStart(k - BATCH_SIZE)
  }

  function BatchAt(items: seq<Item>, start: nat): seq<Item>
    requires start <= |items|
  {
    items[start..Min(start + BATCH_SIZE, |items|)]
  }

  /** The batch of fifty that position `k` falls into. */
  function FiftyOf(items: seq<Item>, k: nat): seq<Item>
    requires k < |items|
  {
    items[k / 50 * 50..if k / 50 * 50 + 50 < |items| then k / 50 * 50 + 50 else |items|]
  }

  lemma {:induction false} BatchesAreFifties(items: seq<Item>, k: nat)
    requires k < |items|
    ensures BatchStart(k) == k / 50 * 50 && BatchAt(items, BatchStart(k)) == FiftyOf(items, k)
  {
    FiftiesBelow(k);
  }

  lemma {:induction false} FiftiesBelow(k: nat)
    ensures BatchStart(k) == k / 50 * 50
  {
    if k >= 50 {
      FiftiesBelow(k - 50);
    }
  }

  predicate Aligned(i: nat) {
    BatchStart(i) == i
  }

  lemma {:induction false} BatchStartIs(i: nat, k: nat)
    requires Aligned(i) && i <= k < i + BATCH_SIZE
    ensures BatchStart(k) == i && Aligned(i + BATCH_SIZE)
  {
    if i >= BATCH_SIZE {
      BatchStartIs(i - BATCH_SIZE, k - BATCH_SIZE);
    }
  }

  lemma {:induction false} BatchStartIsAligned(k: nat)
    ensures Aligned(BatchStart(k))
  {
    if k >= BATCH_SIZE {
      BatchStartIsAligned(k - BATCH_SIZE);
    }
  }

  method Associate<V>(users: seq<User>, values: seq<V>) returns (m: map<User, V>)
    ensures forall u :: u in m <==> LookupLast(users, values, u).Some?
    ensures forall u :: u in m ==> m[u] == LookupLast(users, values, u).value
  {
    m := map[];
    for i := 0 to |users|
      invariant forall u :: u in m <==> LookupLast(users[..i], values, u).Some?
      invariant forall u :: u in m ==> m[u] == LookupLast(users[..i], values, u).value
    {
      assert users[..i + 1][..i] == users[..i];
      if i < |values| {
        m := m[users[i] := values[i]];
      }
    }
    assert users[..|users|] == users;
  }

  /** The preview result of the item at position `k`, read from the call for its own batch. */
  function ResultAt(chain: Chain, round: nat, items: seq<Item>, k: nat): PreviewResult
    requires k < |items|
  {
    Interpret(chain.preview(round, BatchStart(k), BatchAt(items, BatchStart(k))), items[k])
  }

  lemma PreviewedTogether(chain: Chain, round: nat, items: seq<Item>, i: nat, end: nat)
    requires Aligned(i) && i < |items| && end == Min(i + BATCH_SIZE, |items|)
    ensures Aligned(i + BATCH_SIZE)
    ensures forall k :: i <= k < end ==>
              ResultAt(chain, round, items, k) == Interpret(chain.preview(round, i, items[i..end]), items[k])
  {
    BatchStartIs(i, i);
    forall k | i <= k < end
      ensures BatchStart(k) == i
    {
      BatchStartIs(i, k);
    }
  }

  lemma ResultIsRead(chain: Chain, round: nat, items: seq<Item>, k: nat)
    requires k < |items|
    ensures ReadsAs(chain.preview(round, k / 50 * 50, FiftyOf(items, k)), items[k], ResultAt(chain, round, items, k))
  {
    BatchesAreFifties(items, k);
    InterpretReads(chain.preview(round, BatchStart(k), BatchAt(items, BatchStart(k))), items[k]);
  }

  lemma ResultsAreRead(chain: Chain, round: nat, items: seq<Item>)
    ensures forall k :: 0 <= k < |items| ==>
              ReadsAs(chain.preview(round, k / 50 * 50, FiftyOf(items, k)), items[k], ResultAt(chain, round, items, k))
  {
    forall k | 0 <= k < |items| {
      ResultIsRead(chain, round, items, k);
    }
  }

  method BatchPreviewSettlements(chain: Chain, round: nat, items: seq<Item>) returns (results: seq<PreviewResult>)
    ensures |results| == |items|
    ensures forall k :: 0 <= k < |items| ==>
              results[k] == ResultAt(chain, round, items, k)
    ensures forall k :: 0 <= k < |items| ==>
              ReadsAs(chain.preview(round, k / 50 * 50, FiftyOf(items, k)), items[k], results[k])
  {
    results := [];
    var i := 0;
    while i < |items|
      invariant Aligned(i) && |results| == Min(i, |items|)
      invariant forall k :: 0 <= k < |results| ==>
                  results[k] == ResultAt(chain, round, items, k)
    {
      var end := Min(i + BATCH_SIZE, |items|);
      var reply := chain.preview(round, i, items[i..end]);
      var done := PreviewBatch(reply, items[i..end]);
      PreviewedTogether(chain, round, items, i, end);
      results := results + done;
      i := i + BATCH_SIZE;
    }
    ResultsAreRead(chain, round, items);
  }

  method PreviewBatch(reply: PreviewReply, batch: seq<Item>) returns (results: seq<PreviewResult>)
    ensures |results| == |batch|
    ensures forall j :: 0 <= j < |batch| ==> results[j] == Interpret(reply, batch[j])
  {
    results := [];
    if reply.PreviewError? {
      for j := 0 to |batch|
        invariant |results| == j
        invariant forall k :: 0 <= k < j ==> results[k] == Interpret(reply, batch[k])
      {
        results := results + [PreviewResult(Partial, batch[j].totalFee)];
      }
      return;
    }
    var failureMap := Associate(reply.failedUsers, reply.failureReasons);
    var partialMap := Associate(reply.partialUsers, reply.partialAmounts);
    for j := 0 to |batch|
      invariant |results| == j
      invariant forall k :: 0 <= k < j ==> results[k] == Interpret(reply, batch[k])
    {
      var item := batch[j];
      var result :=
        if item.user in failureMap then PreviewResult(failureMap[item.user], item.totalFee)
        else if item.user in partialMap then PreviewResult(Partial, partialMap[item.user])
        else PreviewResult(Success, 0);
      results := results + [result];
    }
  }

  // ----- batching refines the pointwise form

  /** What a contract that judges each item by itself says about it. */
  datatype Class = Accepts | Short(amount: int) | Refuses(status: Status)

  function Judged(c: Class, item: Item): PreviewResult {
    match c
    case Accepts => PreviewResult(Success, 0)
    case Short(amount) => PreviewResult(Partial, amount)
    case Refuses(status) => PreviewResult(status, item.totalFee)
  }

  /** The reply of such a contract to a batch: its refusals and its shortfalls, listed in order. */
  function ReplyFor(judge: Item -> Class, batch: seq<Item>): (reply: PreviewReply)
    ensures reply.Preview? && |reply.failedUsers| == |reply.failureReasons|
        && |reply.partialUsers| == |reply.partialAmounts|
  {
    if batch == [] then Preview([], [], [], []) else
    var item := batch[|batch| - 1];
    var before := ReplyFor(judge, batch[..|batch| - 1]);
    match judge(item)
    case Accepts => before
    case Short(amount) =>
      before.(partialUsers := before.partialUsers + [item.user], partialAmounts := before.partialAmounts + [amount])
    case Refuses(status) =>
      before.(failedUsers := before.failedUsers + [item.user], failureReasons := before.failureReasons + [status])
  }

  ghost predicate DifferentUsers(items: seq<Item>) {
    forall i, j :: 0 <= i < j < |items| ==> items[i].user != items[j].user
  }

  lemma LookupAppend<V>(users: seq<User>, values: seq<V>, u: User, v: V, user: User)
    requires |users| == |values|
    ensures LookupLast(users + [u], values + [v], user)
         == if u == user then Some(v) else LookupLast(users, values, user)
  {
    assert (users + [u])[..|users|] == users;
    LookupPrefix(users, values, values + [v], user);
  }

  lemma {:induction false} LookupPrefix<V>(users: seq<User>, values: seq<V>, values': seq<V>, user: User)
    requires |users| <= |values| <= |values'| && values'[..|values|] == values
    ensures LookupLast(users, values', user) == LookupLast(users, values, user)
  {
    if users != [] {
      assert values'[..|values|][|users| - 1] == values'[|users| - 1];
      LookupPrefix(users[..|users| - 1], values, values', user);
    }
  }

  lemma ReplyGrows(judge: Item -> Class, batch: seq<Item>, n: nat, user: User)
    requires n < |batch|
    ensures var before, after := ReplyFor(judge, batch[..n]), ReplyFor(judge, batch[..n + 1]);
            var c, own := judge(batch[n]), batch[n].user == user;
            && LookupLast(after.failedUsers, after.failureReasons, user)
               == (if c.Refuses? && own then Some(c.status)
                   else LookupLast(before.failedUsers, before.failureReasons, user))
            && LookupLast(after.partialUsers, after.partialAmounts, user)
               == if c.Short? && own then Some(c.amount)
                   else LookupLast(before.partialUsers, before.partialAmounts, user)
  {
    var before, item := ReplyFor(judge, batch[..n]), batch[n];
    assert batch[..n + 1][..n] == batch[..n];
    match judge(item)
    case Accepts =>
    case Short(amount) => LookupAppend(before.partialUsers, before.partialAmounts, item.user, amount, user);
    case Refuses(status) => LookupAppend(before.failedUsers, before.failureReasons, item.user, status, user);
  }

  /** A user none of whose items is in the batch is not named in the reply. */
  lemma {:induction false} ReplyNamesOwnUsers(judge: Item -> Class, batch: seq<Item>, n: nat, user: User)
    requires n <= |batch| && forall k :: 0 <= k < n ==> batch[k].user != user
    ensures var reply := ReplyFor(judge, batch[..n]);
            && LookupLast(reply.failedUsers, reply.failureReasons, user).None?
            && LookupLast(reply.partialUsers, reply.partialAmounts, user).None?
  {
    if n > 0 {
      ReplyNamesOwnUsers(judge, batch, n - 1, user);
      ReplyGrows(judge, batch, n - 1, user);
    }
  }

  /** What the reply says of the user of an item in the batch. */
  lemma {:induction false} ReplyNames(judge: Item -> Class, batch: seq<Item>, n: nat, k: nat)
    requires DifferentUsers(batch) && k < n <= |batch|
    ensures var reply, c, user := ReplyFor(judge, batch[..n]), judge(batch[k]), batch[k].user;
            && LookupLast(reply.failedUsers, reply.failureReasons, user)
               == (if c.Refuses? then Some(c.status) else None)
            && LookupLast(reply.partialUsers, reply.partialAmounts, user)
               == if c.Short? then Some(c.amount) else None
  {
    ReplyGrows(judge, batch, n - 1, batch[k].user);
    if k < n - 1 {
      ReplyNames(judge, batch, n - 1, k);
    } else {
      ReplyNamesOwnUsers(judge, batch, n - 1, batch[k].user);
    }
  }

  lemma ReplyJudges(judge: Item -> Class, batch: seq<Item>, k: nat)
    requires DifferentUsers(batch) && k < |batch|
    ensures Interpret(ReplyFor(judge, batch), batch[k]) == Judged(judge(batch[k]), batch[k])
  {
    assert batch[..|batch|] == batch;
    ReplyNames(judge, batch, |batch|, k);
  }

  /** When the contract judges each item by itself, the batched preview gives every position that
      item's own result, for any number of items and hence any way of cutting them into batches. */
  lemma PreviewIsPointwise(chain: Chain, judge: Item -> Class, round: nat, items: seq<Item>, k: nat)
    requires DifferentUsers(items) && k < |items|
    requires forall start, batch :: chain.preview(round, start, batch) == ReplyFor(judge, batch)
    ensures ResultAt(chain, round, items, k) == Judged(judge(items[k]), items[k])
  {
    var batch := BatchAt(items, BatchStart(k));
    assert batch[k - BatchStart(k)] == items[k];
    ReplyJudges(judge, batch, k - BatchStart(k));
  }

  // ----- planned outcomes

  datatype Outcome = Outcome(
    user: User,
    status: Status,
    original: Item,
    adjusted: Option<Item>,
    settled: seq<Request>,
    unsettledAmount: int)

  function AdjustForPartial(item: Item, unsettled: int): Option<Item> {
    var settled := item.requests[..Affordable(item.requests, item.totalFee - unsettled)];
    if Fees(settled) == 0 then None else Some(Item(item.user, Fees(settled), settled))
  }

  function Plan(item: Item, result: PreviewResult): Outcome {
    match result.status
    case Success => Outcome(item.user, Success, item, Some(item), item.requests, 0)
    case Partial =>
      var adjusted := AdjustForPartial(item, result.unsettled);
      var settled := if adjusted.Some? then adjusted.value.requests else [];
      Outcome(item.user, Partial, item, adjusted, settled, result.unsettled)
    case _ => Outcome(item.user, result.status, item, None, [], item.totalFee)
  }

  /** A group of parsing requests and its total. */
  predicate WellFormed(item: Item) {
    item.totalFee == Fees(item.requests) && forall r :: r in item.requests ==> Groupable(r, item.user)
  }

  lemma PrefixParses(item: Item, k: nat)
    requires WellFormed(item) && k <= |item.requests|
    ensures Filter(item.requests[..k], Parses) == item.requests[..k]
  {
    assert forall r :: r in item.requests[..k] ==> r in item.requests;
    FilterAll(item.requests[..k], Parses);
  }

  method AdjustForPartialSettlement(item: Item, unsettled: int) returns (adjusted: Option<Item>, settled: seq<Request>)
    requires WellFormed(item)
    ensures adjusted == AdjustForPartial(item, unsettled)
    ensures settled == if adjusted.Some? then adjusted.value.requests else []
  {
    var total: int;
    settled, total := GetRequestsWithinBudget(item.requests, item.totalFee - unsettled);
    PrefixParses(item, Affordable(item.requests, item.totalFee - unsettled));
    if total == 0 {
      return None, [];
    }
    adjusted := Some(Item(item.user, total, settled));
  }

  /** The outcome is what the result asks for.  In full: all requests, for the whole total.  In part: the
      requests up to the cut, for exactly their fees, or none if those cost nothing.  Refused: none. */
  ghost predicate PlannedFor(o: Outcome, result: PreviewResult) {
    var item := o.original;
    && o.user == item.user && o.status == result.status
    && match result.status
       case Success => o.adjusted == Some(item) && o.settled == item.requests && o.unsettledAmount == 0
       case Partial =>
         && o.unsettledAmount == result.unsettled
         && exists k :: IsCut(item.requests, item.totalFee - result.unsettled, k) && CutTo(o, item.requests[..k])
       case _ => o.adjusted == None && o.settled == [] && o.unsettledAmount == item.totalFee
  }

  predicate CutTo(o: Outcome, front: seq<Request>) {
    if Fees(front) == 0 then o.adjusted == None && o.settled == []
    else o.adjusted == Some(Item(o.original.user, Fees(front), front)) && o.settled == front
  }

  lemma PlanIsPlannedFor(item: Item, result: PreviewResult)
    ensures Plan(item, result).original == item && PlannedFor(Plan(item, result), result)
  {
    if result.status == Partial {
      var budget := item.totalFee - result.unsettled;
      AffordableIsCut(item.requests, budget);
      assert CutTo(Plan(item, result), item.requests[..Affordable(item.requests, budget)]);
    }
  }

  /** What is sent for a user is a prefix of the user's requests, with exactly their fees as total;
      when the user is short by some amount, it is the longest prefix within the rest. */
  lemma PlanSendsLongestPrefix(item: Item, result: PreviewResult)
    requires WellFormed(item)
    ensures var o := Plan(item, result);
            o.adjusted.Some? ==>
              && o.settled <= item.requests
              && o.adjusted.value == Item(item.user, Fees(o.settled), o.settled)
              && (result.status == Partial && NoDebt(item.requests) && result.unsettled <= item.totalFee ==>
                    forall j :: 0 <= j <= |item.requests| ==>
                      (Fees(item.requests[..j]) <= item.totalFee - result.unsettled <==> j <= |o.settled|))
  {
    if result.status == Partial && NoDebt(item.requests) && result.unsettled <= item.totalFee {
      forall j | 0 <= j <= |item.requests|
        ensures Fees(item.requests[..j]) <= item.totalFee - result.unsettled
           <==> j <= Affordable(item.requests, item.totalFee - result.unsettled)
      {
        CutIsLongestPrefix(item.requests, item.totalFee - result.unsettled, j);
      }
    }
  }

  /** A preview call that fails leaves nothing of its batch to execute. */
  lemma FailedPreviewSendsNothing(item: Item)
    requires WellFormed(item) && NoDebt(item.requests)
    ensures Plan(item, Interpret(PreviewError, item)).adjusted.None?
  {
    NothingFromNothing(item.requests, 0);
  }

  function Executables(outcomes: seq<Outcome>): seq<Item> {
    if outcomes == [] then []
    else
      var o := outcomes[|outcomes| - 1];
      Executables(outcomes[..|outcomes| - 1]) + if o.adjusted.Some? then [o.adjusted.value] else []
  }
}
