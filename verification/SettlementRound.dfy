/** One round of TEE settlement as functions of its planned outcomes and of the contract's replies:
  what it puts off, what it charges, what it deletes and what survives. */
module SettlementRound {
  import opened Options
  import opened Requests
  import opened SettlementPlan

  const HOUR: nat := 3600
  const MAX_ROUNDS: nat := 10

  // ----- one round, as a function of its planned and final outcomes

  function Originals(outcomes: seq<Outcome>): (items: seq<Item>)
    ensures |items| == |outcomes| && forall i :: 0 <= i < |items| ==> items[i] == outcomes[i].original
  {
    seq(|outcomes|, i requires 0 <= i < |outcomes| => outcomes[i].original)
  }

  function ItemFor(reqs: seq<Request>, user: User): Item {
    Item(user, Fees(OfUser(reqs, user)), OfUser(reqs, user))
  }

  predicate HasUser(items: seq<Item>, user: User) {
    exists i :: 0 <= i < |items| && items[i].user == user
  }

  predicate ItemOk(reqs: seq<Request>, signs: User -> bool, item: Item) {
    item == ItemFor(reqs, item.user) && item.requests != [] && signs(item.user)
  }

  /** Each user with requests due, and whom the signing service serves, has exactly one item. */
  ghost predicate ItemsFor(reqs: seq<Request>, signs: User -> bool, items: seq<Item>) {
    && DifferentUsers(items)
    && (forall i :: 0 <= i < |items| ==> ItemOk(reqs, signs, items[i]))
    && (forall u :: OfUser(reqs, u) != [] && signs(u) ==> HasUser(items, u))
  }

  ghost predicate PlannedAs(chain: Chain, round: nat, outcomes: seq<Outcome>) {
    var items := Originals(outcomes);
    forall k :: 0 <= k < |outcomes| ==>
      outcomes[k] == Plan(items[k], ResultAt(chain, round, items, k))
  }

  /** The reply to the preview call for the batch of fifty that position `k` falls into. */
  function OwnPreview(chain: Chain, round: nat, outcomes: seq<Outcome>, k: nat): PreviewReply
    requires k < |outcomes|
  {
    chain.preview(round, k / 50 * 50, FiftyOf(Originals(outcomes), k))
  }

  /** The outcome at position `k` is planned as the reply to the preview call for its batch asks. */
  ghost predicate FollowsPreview(chain: Chain, round: nat, outcomes: seq<Outcome>, k: nat)
    requires k < |outcomes|
  {
    exists result :: ReadsAs(OwnPreview(chain, round, outcomes, k), outcomes[k].original, result)
                     && PlannedFor(outcomes[k], result)
  }

  lemma PlansFollowPreview(chain: Chain, round: nat, outcomes: seq<Outcome>)
    requires PlannedAs(chain, round, outcomes)
    ensures forall k :: 0 <= k < |outcomes| ==> FollowsPreview(chain, round, outcomes, k)
  {
    var items := Originals(outcomes);
    forall k | 0 <= k < |outcomes|
      ensures FollowsPreview(chain, round, outcomes, k)
    {
      ResultIsRead(chain, round, items, k);
      PlanIsPlannedFor(items[k], ResultAt(chain, round, items, k));
    }
  }

  /** The requests of a user short of funds that are put off. */
  function PutOff(o: Outcome): seq<Request> {
    if o.status == Partial then Filter(o.original.requests, (r: Request) => r.hash !in Hashes(o.settled)) else []
  }

  function AllPutOff(outcomes: seq<Outcome>): set<Hash> {
    if outcomes == [] then {} else AllPutOff(outcomes[..|outcomes| - 1]) + Hashes(PutOff(outcomes[|outcomes| - 1]))
  }

  /** The request of this hash belongs to a user short of funds and is not planned for settlement. */
  ghost predicate Left(outcomes: seq<Outcome>, h: Hash) {
    exists k :: 0 <= k < |outcomes| && LeftBy(outcomes[k], h)
  }

  predicate LeftBy(o: Outcome, h: Hash) {
    && o.status == Partial && h !in Hashes(o.settled)
    && exists i :: 0 <= i < |o.original.requests| && o.original.requests[i].hash == h
  }

  ghost predicate IsShort(outcomes: seq<Outcome>, user: User) {
    exists k :: 0 <= k < |outcomes| && outcomes[k].user == user && outcomes[k].status == Partial
  }

  lemma LeftIsPutOff(o: Outcome, h: Hash)
    ensures h in Hashes(PutOff(o)) <==> LeftBy(o, h)
  {
    if LeftBy(o, h) {
      var i :| 0 <= i < |o.original.requests| && o.original.requests[i].hash == h;
      assert o.original.requests[i] in PutOff(o);
    }
    if h in Hashes(PutOff(o)) {
      var r :| r in PutOff(o) && r.hash == h;
      var i :| 0 <= i < |o.original.requests| && o.original.requests[i] == r;
    }
  }

  lemma {:induction false} PutOffIsLeft(outcomes: seq<Outcome>)
    ensures forall h :: h in AllPutOff(outcomes) <==> Left(outcomes, h)
  {
    if outcomes != [] {
      var n := |outcomes| - 1;
      PutOffIsLeft(outcomes[..n]);
      forall h
        ensures h in AllPutOff(outcomes) <==> Left(outcomes, h)
      {
        LeftIsPutOff(outcomes[n], h);
        LeftGrows(outcomes, h);
      }
    }
  }

  lemma LeftGrows(outcomes: seq<Outcome>, h: Hash)
    requires outcomes != []
    ensures var n := |outcomes| - 1; Left(outcomes, h) <==> Left(outcomes[..n], h) || LeftBy(outcomes[n], h)
  {
    var n := |outcomes| - 1;
    if Left(outcomes[..n], h) {
      var k :| 0 <= k < n && LeftBy(outcomes[..n][k], h);
      assert LeftBy(outcomes[k], h);
    }
    if k :| 0 <= k < n && LeftBy(outcomes[k], h) {
      assert LeftBy(outcomes[..n][k], h);
    }
  }

  /** Users short of funds wait until the given time, the others as long as before. */
  lemma {:induction false} ShortUsersWait(waits: map<User, nat>, outcomes: seq<Outcome>, until: nat)
    ensures var after := UserWaits(waits, outcomes, until);
            && (forall u :: u in after <==> u in waits || IsShort(outcomes, u))
            && (forall u :: u in after ==> after[u] == if IsShort(outcomes, u) then until else waits[u])
  {
    if outcomes != [] {
      var n := |outcomes| - 1;
      ShortUsersWait(waits, outcomes[..n], until);
      forall u
        ensures IsShort(outcomes, u)
           <==> IsShort(outcomes[..n], u) || (outcomes[n].user == u && outcomes[n].status == Partial)
      {
        ShortGrows(outcomes, u);
      }
    }
  }

  lemma ShortGrows(outcomes: seq<Outcome>, u: User)
    requires outcomes != []
    ensures IsShort(outcomes, u)
       <==> || IsShort(outcomes[..|outcomes| - 1], u)
            || (outcomes[|outcomes| - 1].user == u && outcomes[|outcomes| - 1].status == Partial)
  {
    var n := |outcomes| - 1;
    if IsShort(outcomes[..n], u) {
      var k :| 0 <= k < n && outcomes[..n][k].user == u && outcomes[..n][k].status == Partial;
      assert outcomes[k].user == u;
    }
    if k :| 0 <= k < n && outcomes[k].user == u && outcomes[k].status == Partial {
      assert outcomes[..n][k].user == u;
    }
  }

  /** An item whose user the contract reported as failed is no longer settled. */
  function Revert(o: Outcome, failures: set<User>): Outcome {
    if o.adjusted.Some? && o.user in failures then o.(status := Partial, adjusted := None, settled := []) else o
  }

  function RevertAll(outcomes: seq<Outcome>, failures: set<User>): (final: seq<Outcome>)
    ensures |final| == |outcomes| && forall i :: 0 <= i < |final| ==> final[i] == Revert(outcomes[i], failures)
  {
    seq(|outcomes|, i requires 0 <= i < |outcomes| => Revert(outcomes[i], failures))
  }

  /** Users short of funds are themselves put off. */
  function UserWaits(waits: map<User, nat>, outcomes: seq<Outcome>, until: nat): map<User, nat> {
    if outcomes == [] then waits
    else
      var o := outcomes[|outcomes| - 1];
      var before := UserWaits(waits, outcomes[..|outcomes| - 1], until);
      if o.status == Partial then before[o.user := until] else before
  }

  predicate DoomedBy(r: Request, o: Outcome) {
    match o.status
    case Success => r.hash in Hashes(o.settled)
    case Partial => r.hash in Hashes(o.settled)
    case NoSigner => OpenOf(r, o.user)
    case _ => false
  }

  predicate Doomed(r: Request, outcomes: seq<Outcome>) {
    exists i :: 0 <= i < |outcomes| && DoomedBy(r, outcomes[i])
  }

  function Survivors(rows: seq<Request>, outcomes: seq<Outcome>): seq<Request> {
    Filter(rows, (r: Request) => !Doomed(r, outcomes))
  }

  // ----- what the contract reports

  predicate ReportsFailure(log: Log) {
    log.SettlementResult? && log.status != Success
  }

  function FailedIn(reply: SettleReply): set<User> {
    if reply.TransactionError? then {} else set log | log in reply.logs && ReportsFailure(log) :: log.user
  }

  predicate ReportsPayment(log: Log) {
    log.SettlementResult? && log.status == Success
  }

  /** The users whose items the contract reports with status 0. */
  function PaidIn(reply: SettleReply): set<User> {
    if reply.TransactionError? then {} else set log | log in reply.logs && ReportsPayment(log) :: log.user
  }

  /** How often the contract reports on a user. */
  function Reports(logs: seq<Log>, user: User): nat {
    if logs == [] then 0
    else
      var last := logs[|logs| - 1];
      Reports(logs[..|logs| - 1], user) + if last.SettlementResult? && last.user == user then 1 else 0
  }

  /** A user who is reported is reported as paid or as failed, and one reported once not as both. */
  lemma {:induction false} ReportedAs(logs: seq<Log>, user: User)
    ensures Reports(logs, user) == 0 <==> user !in PaidIn(Receipt(logs)) && user !in FailedIn(Receipt(logs))
    ensures Reports(logs, user) <= 1 ==> !(user in PaidIn(Receipt(logs)) && user in FailedIn(Receipt(logs)))
  {
    if logs != [] {
      var n := |logs| - 1;
      var before, last := logs[..n], logs[n];
      ReportedAs(before, user);
      assert logs == before + [last];
      assert user in PaidIn(Receipt(logs)) <==>
             user in PaidIn(Receipt(before)) || (ReportsPayment(last) && last.user == user);
      assert user in FailedIn(Receipt(logs)) <==>
             user in FailedIn(Receipt(before)) || (ReportsFailure(last) && last.user == user);
    }
  }

  /** The contract reports failures of users of the batch only. */
  ghost predicate ReportsOwn(reply: SettleReply, batch: seq<Item>) {
    forall u :: u in FailedIn(reply) ==> exists item :: item in batch && item.user == u
  }

  /** No user of a batch of different users is reported on twice. */
  ghost predicate ReportsOnce(reply: SettleReply, batch: seq<Item>) {
    reply.Receipt? && DifferentUsers(batch) ==> forall item :: item in batch ==> Reports(reply.logs, item.user) <= 1
  }

  ghost predicate Honest(chain: Chain) {
    forall round, start, batch ::
      ReportsOwn(chain.settle(round, start, batch), batch) && ReportsOnce(chain.settle(round, start, batch), batch)
  }

  /** The contract is silent on no item of a call. */
  ghost predicate ReportsAll(reply: SettleReply, batch: seq<Item>) {
    reply.Receipt? ==> forall item :: item in batch ==> Reports(reply.logs, item.user) > 0
  }

  ghost predicate Complete(chain: Chain) {
    forall round, start, batch :: ReportsAll(chain.settle(round, start, batch), batch)
  }

  /** The reply to the call that carries the item at position `k`. */
  function CallFor(chain: Chain, round: nat, items: seq<Item>, k: nat): SettleReply
    requires k < |items|
  {
    chain.settle(round, BatchStart(k), BatchAt(items, BatchStart(k)))
  }

  predicate CallFails(chain: Chain, round: nat, items: seq<Item>, k: nat)
    requires k < |items|
  {
    CallFor(chain, round, items, k).TransactionError?
  }

  /** The call that carries the item at position `k` reports the user as failed. */
  predicate FailedBy(chain: Chain, round: nat, items: seq<Item>, k: nat, user: User)
    requires k < |items|
  {
    user in FailedIn(CallFor(chain, round, items, k))
  }

  /** The call that carries the item at position `k` reports its user with status 0. */
  predicate PaidBy(chain: Chain, round: nat, items: seq<Item>, k: nat)
    requires k < |items|
  {
    items[k].user in PaidIn(CallFor(chain, round, items, k))
  }

  /** The call that carries the item at position `k` goes through and does not mention its user. */
  predicate Silent(chain: Chain, round: nat, items: seq<Item>, k: nat)
    requires k < |items|
  {
    var reply := CallFor(chain, round, items, k);
    reply.Receipt? && Reports(reply.logs, items[k].user) == 0
  }

  /** Everyone reported as failed by the calls that carry the first `n` items. */
  function Failures(chain: Chain, round: nat, items: seq<Item>, n: nat): set<User>
    requires n <= |items|
  {
    if n == 0 then {} else Failures(chain, round, items, n - 1) + FailedIn(CallFor(chain, round, items, n - 1))
  }

  /** What the contract is paid for the first `n` items: the totals of those reported with status 0. */
  function Charged(chain: Chain, round: nat, items: seq<Item>, n: nat): int
    requires n <= |items|
  {
    if n == 0 then 0
    else Charged(chain, round, items, n - 1) + if PaidBy(chain, round, items, n - 1) then items[n - 1].totalFee else 0
  }

  /** What the broker takes for paid: the totals of the first `n` items whose calls do not report them
      as failed. */
  function Cleared(chain: Chain, round: nat, items: seq<Item>, n: nat): int
    requires n <= |items|
  {
    if n == 0 then 0
    else Cleared(chain, round, items, n - 1)
         + if FailedBy(chain, round, items, n - 1, items[n - 1].user) then 0 else items[n - 1].totalFee
  }

  /** The totals of the first `n` items on which the contract is silent. */
  function Unreported(chain: Chain, round: nat, items: seq<Item>, n: nat): int
    requires n <= |items|
  {
    if n == 0 then 0
    else Unreported(chain, round, items, n - 1)
         + if Silent(chain, round, items, n - 1) then items[n - 1].totalFee else 0
  }

  /** Every item was sent, or all items up to the first call that fails. */
  ghost predicate Sent(chain: Chain, round: nat, items: seq<Item>, ok: bool, sent: nat) {
    && sent <= |items|
    && (forall k :: 0 <= k < sent ==> !CallFails(chain, round, items, k))
    && if ok then sent == |items| else sent < |items| && CallFails(chain, round, items, sent)
  }

  /** The items handed to the contract: those that went through, and the batch of a failing call. */
  function Attempted(items: seq<Item>, ok: bool, sent: nat): seq<Item>
    requires sent <= |items|
  {
    if ok then items else items[..Min(sent + BATCH_SIZE, |items|)]
  }

  /** The totals of the items of users among `users`. */
  function TotalsOf(items: seq<Item>, users: set<User>): int {
    if items == [] then 0
    else
      var last := items[|items| - 1];
      TotalsOf(items[..|items| - 1], users) + if last.user in users then last.totalFee else 0
  }

  lemma PrefixGrows<T>(s: seq<T>, n: nat)
    requires n < |s|
    ensures s[..n + 1] == s[..n] + [s[n]]
  {
  }

  lemma TotalsAppend(items: seq<Item>, item: Item, users: set<User>)
    ensures TotalsOf(items + [item], users) == TotalsOf(items, users) + if item.user in users then item.totalFee else 0
  {
    assert (items + [item])[..|items|] == items;
  }

  ghost predicate SameCall(chain: Chain, round: nat, items: seq<Item>, start: nat, n: nat, reply: SettleReply) {
    start <= n <= |items| && forall k :: start <= k < n ==> CallFor(chain, round, items, k) == reply
  }

  lemma {:induction false} ChargedForBatch(chain: Chain, round: nat, items: seq<Item>, start: nat, n: nat,
        reply: SettleReply)
    requires SameCall(chain, round, items, start, n, reply)
    ensures Charged(chain, round, items, n)
         == Charged(chain, round, items, start) + TotalsOf(items[start..n], PaidIn(reply))
  {
    if n > start {
      ChargedForBatch(chain, round, items, start, n - 1, reply);
      assert items[start..n] == items[start..n - 1] + [items[n - 1]];
      TotalsAppend(items[start..n - 1], items[n - 1], PaidIn(reply));
    }
  }

  lemma {:induction false} FailuresForBatch(chain: Chain, round: nat, items: seq<Item>, start: nat, n: nat,
        reply: SettleReply)
    requires SameCall(chain, round, items, start, n, reply) && start < n
    ensures Failures(chain, round, items, n) == Failures(chain, round, items, start) + FailedIn(reply)
  {
    if n > start + 1 {
      FailuresForBatch(chain, round, items, start, n - 1, reply);
    }
  }

  /** The items of one batch share their call. */
  lemma SentTogether(chain: Chain, round: nat, items: seq<Item>, i: nat, end: nat)
    requires Aligned(i) && i < |items| && end == Min(i + BATCH_SIZE, |items|)
    ensures Aligned(i + BATCH_SIZE)
    ensures var reply := chain.settle(round, i, items[i..end]);
            && (forall k :: i <= k < end ==> CallFails(chain, round, items, k) == reply.TransactionError?)
            && Charged(chain, round, items, end) == Charged(chain, round, items, i)
                + TotalsOf(items[i..end], PaidIn(reply))
            && Failures(chain, round, items, end) == Failures(chain, round, items, i) + FailedIn(reply)
  {
    var reply := chain.settle(round, i, items[i..end]);
    BatchStartIs(i, i);
    forall k | i <= k < end
      ensures CallFor(chain, round, items, k) == reply
    {
      BatchStartIs(i, k);
    }
    ChargedForBatch(chain, round, items, i, end, reply);
    FailuresForBatch(chain, round, items, i, end, reply);
  }

  /** What is given up with the open requests of users without a signer. */
  function WrittenOff(rows: seq<Request>, outcomes: seq<Outcome>): int {
    if outcomes == [] then 0
    else
      var n, o := |outcomes| - 1, outcomes[|outcomes| - 1];
      WrittenOff(rows, outcomes[..n])
      + if o.status == NoSigner then Fees(OpenRows(Survivors(rows, outcomes[..n]), o.user)) else 0
  }

  lemma FilterFilter(rows: seq<Request>, p: Request -> bool, q: Request -> bool)
    ensures Filter(Filter(rows, p), q) == Filter(rows, (r: Request) => p(r) && q(r))
  {
    if rows != [] {
      FilterFilter(rows[1..], p, q);
      FilterConcat(if p(rows[0]) then [rows[0]] else [], Filter(rows[1..], p), q);
    }
  }

  // ----- how the loops build these

  lemma SetSkipOfNone(rows: seq<Request>, until: nat)
    ensures SetSkip(rows, {}, until) == rows
  {
  }

  lemma SetSkipTwice(rows: seq<Request>, a: set<Hash>, b: set<Hash>, until: nat)
    ensures SetSkip(SetSkip(rows, a, until), b, until) == SetSkip(rows, a + b, until)
  {
  }

  lemma WaitsGrow(rows: seq<Request>, waits: map<User, nat>, outcomes: seq<Outcome>, o: Outcome, until: nat)
    ensures SetSkip(rows, AllPutOff(outcomes + [o]), until)
         == SetSkip(SetSkip(rows, AllPutOff(outcomes), until), Hashes(PutOff(o)), until)
    ensures UserWaits(waits, outcomes + [o], until)
         == var before := UserWaits(waits, outcomes, until);
            if o.status == Partial then before[o.user := until] else before
  {
    SetSkipTwice(rows, AllPutOff(outcomes), Hashes(PutOff(o)), until);
    assert (outcomes + [o])[..|outcomes|] == outcomes;
  }

  lemma SurvivorsOfNone(rows: seq<Request>)
    ensures Survivors(rows, []) == rows
  {
    FilterAll(rows, (r: Request) => !Doomed(r, []));
  }

  function Spared(rows: seq<Request>, o: Outcome): seq<Request> {
    Filter(rows, (r: Request) => !DoomedBy(r, o))
  }

  lemma SurvivorsGrow(rows: seq<Request>, outcomes: seq<Outcome>, i: nat)
    requires i < |outcomes|
    ensures Survivors(rows, outcomes[..i + 1]) == Spared(Survivors(rows, outcomes[..i]), outcomes[i])
  {
    var p := (r: Request) => !Doomed(r, outcomes[..i]);
    var q := (r: Request) => !DoomedBy(r, outcomes[i]);
    FilterFilter(rows, p, q);
    forall r | r in rows
      ensures Doomed(r, outcomes[..i + 1]) <==> !(p(r) && q(r))
    {
      DoomedGrows(r, outcomes, i);
    }
    FilterAgrees(rows, (r: Request) => !Doomed(r, outcomes[..i + 1]), (r: Request) => p(r) && q(r));
  }

  lemma DoomedGrows(r: Request, outcomes: seq<Outcome>, i: nat)
    requires i < |outcomes|
    ensures Doomed(r, outcomes[..i + 1]) <==> Doomed(r, outcomes[..i]) || DoomedBy(r, outcomes[i])
  {
    var before, after := outcomes[..i], outcomes[..i + 1];
    if Doomed(r, before) {
      var k :| 0 <= k < |before| && DoomedBy(r, before[k]);
      assert DoomedBy(r, after[k]);
    }
    assert after[i] == outcomes[i];
  }

  lemma SettledByHash(rows: seq<Request>, o: Outcome)
    requires o.status == Success || o.status == Partial
    ensures DeleteHashes(rows, Hashes(o.settled)) == Spared(rows, o)
  {
    FilterAgrees(rows, (r: Request) => r.hash !in Hashes(o.settled), (r: Request) => !DoomedBy(r, o));
  }

  lemma OpenRowsByHash(rows: seq<Request>, o: Outcome)
    requires Keyed(rows) && o.status == NoSigner
    ensures DeleteHashes(rows, Hashes(OpenRows(rows, o.user))) == Spared(rows, o)
  {
    var mine := OpenRows(rows, o.user);
    forall r | r in rows
      ensures r.hash !in Hashes(mine) <==> !OpenOf(r, o.user)
    {
      if r.hash in Hashes(mine) {
        var x :| x in mine && x.hash == r.hash;
        SameHashSameRow(rows, r, x);
      }
    }
    FilterAgrees(rows, (r: Request) => r.hash !in Hashes(mine), (r: Request) => !DoomedBy(r, o));
  }

  lemma SameHashSameRow(rows: seq<Request>, r: Request, x: Request)
    requires Keyed(rows) && r in rows && x in rows && r.hash == x.hash
    ensures r == x
  {
    var i :| 0 <= i < |rows| && rows[i] == r;
    var j :| 0 <= j < |rows| && rows[j] == x;
  }
}
