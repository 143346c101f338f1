/** Balance admission: the check that lets a request in, and every interleaving of checks, row
  creations, metering, settlement and balance updates for any number of users. */
module Admission {
  import opened Options
  import opened Requests

  const RESERVATION_FACTOR: nat := 1000000

  // ----- one admission check

  datatype Account = Account(user: User, lockBalance: Option<Amount>)

  datatype Verdict = Admitted | NoBalance | Unparsable | SyncFailed | Insufficient(total: int, balance: int)

  function Reserve(prices: Prices, estimate: nat): nat {
    estimate + prices.output * RESERVATION_FACTOR
  }

  /** The user can pay what is unsettled and the reservation of the new request. */
  predicate Covers(rows: seq<Request>, user: User, prices: Prices, estimate: nat, balance: int) {
    UnsettledFee(rows, user, prices) + Reserve(prices, estimate) <= balance
  }

  /** Admission as the two looks decide it: `rows` and `later` are the request table at each of them,
      `onChain` is the contract's answer, the balance less the pending refund, when it answers. */
  predicate Admits(account: Account, estimate: nat, prices: Prices,
        rows: seq<Request>, later: seq<Request>, onChain: Option<int>)
  {
    && account.lockBalance.Some? && account.lockBalance.value.Value?
    && (|| Covers(rows, account.user, prices, estimate, account.lockBalance.value.n)
        || (onChain.Some? && Covers(later, account.user, prices, estimate, onChain.value)))
  }

  /** Admission covers any response of up to a million output tokens on top of what is unsettled and the
      estimate for the prompt, and refuses a balance that does not. */
  lemma CoversMillionTokens(rows: seq<Request>, user: User, prices: Prices, estimate: nat, balance: int)
    ensures Covers(rows, user, prices, estimate, balance)
       <==> forall tokens: nat :: tokens <= 1000000 ==>
              UnsettledFee(rows, user, prices) + estimate + prices.output * tokens <= balance
  {
    forall tokens: nat | tokens <= 1000000
      ensures prices.output * tokens <= prices.output * 1000000
    {
      TimesIsMonotone(prices.output, tokens, 1000000);
    }
    if forall tokens: nat :: tokens <= 1000000 ==>
         UnsettledFee(rows, user, prices) + estimate + prices.output * tokens <= balance {
      var all := 1000000;
      assert UnsettledFee(rows, user, prices) + estimate + prices.output * all <= balance;
    }
  }

  lemma TimesIsMonotone(a: nat, b: nat, c: nat)
    requires b <= c
    ensures a * b <= a * c
  {
  }

  /** What the user must have at a look to be let in: what is unsettled, the estimate for the prompt, and
      a million output tokens. */
  function Required(rows: seq<Request>, user: User, prices: Prices, estimate: nat): nat {
    UnsettledFee(rows, user, prices) + estimate + prices.output * 1000000
  }

  /** The balances of the user table, refreshed from the contract when a first check fails. */
  class BalanceCache {
    var balances: map<User, int>

    constructor ()
      ensures balances == map[]
    {
      balances := map[];
    }

    method ValidateBalanceAdequacy(account: Account, estimate: nat, prices: Prices,
          rows: seq<Request>, later: seq<Request>, onChain: Option<int>)
      returns (verdict: Verdict)
      modifies this
      ensures verdict == Admitted <==> Admits(account, estimate, prices, rows, later, onChain)
      ensures account.lockBalance.Some? && account.lockBalance.value.Value? ==>
                var balance := account.lockBalance.value.n;
                if balance >= Required(rows, account.user, prices, estimate) then verdict == Admitted
                else if onChain.None? then verdict == SyncFailed
                else if onChain.value >= Required(later, account.user, prices, estimate) then verdict == Admitted
                else verdict == Insufficient(Required(later, account.user, prices, estimate), onChain.value)
      ensures verdict == NoBalance <==> account.lockBalance.None?
      ensures verdict == Unparsable <==> account.lockBalance == Some(Garbled)
      ensures balances == if account.lockBalance.Some? && account.lockBalance.value.Value? && onChain.Some?
                             && !Covers(rows, account.user, prices, estimate, account.lockBalance.value.n)
                          then old(balances)[account.user := onChain.value] else old(balances)
    {
      if account.lockBalance.None? {
        return NoBalance;
      }
      var reservation := prices.output * RESERVATION_FACTOR;
      var total := estimate + UnsettledFee(rows, account.user, prices) + reservation;
      if account.lockBalance.value.Garbled? {
        return Unparsable;
      }
      if total <= account.lockBalance.value.n {
        assert Covers(rows, account.user, prices, estimate, account.lockBalance.value.n);
        return Admitted;
      }
      if onChain.None? {
        return SyncFailed;
      }
      balances := balances[account.user := onChain.value];
      var newTotal := estimate + UnsettledFee(later, account.user, prices) + reservation;
      if newTotal <= balances[account.user] {
        return Admitted;
      }
      verdict := Insufficient(newTotal, balances[account.user]);
    }
  }

  // ----- all interleavings

  /** A request between its admission check and the end of its response. */
  datatype Ticket = Ticket(hash: Hash, user: User, estimate: nat, reserve: nat, created: bool)

  datatype Response = Reported(prompt: nat, completion: nat) | Counted(words: nat)

  datatype State = State(rows: seq<Request>, tickets: seq<Ticket>, balances: map<User, int>)

  datatype Step =
    | Check(hash: Hash, user: User, estimate: nat, seen: int)
    | Create(i: nat, at: nat)
    | Answer(i: nat, response: Response)
    | Abandon(i: nat)
    | Delete(hashes: set<Hash>)
    | Postpone(hashes: set<Hash>, until: nat)
    | SetBalance(user: User, balance: int)

  function BalanceOf(s: State, user: User): int {
    if user in s.balances then s.balances[user] else 0
  }

  predicate Holds(tickets: seq<Ticket>, hash: Hash) {
    exists i :: 0 <= i < |tickets| && tickets[i].hash == hash
  }

  predicate Enabled(prices: Prices, s: State, step: Step) {
    match step
    case Check(hash, user, estimate, seen) =>
      && hash !in Hashes(s.rows) && !Holds(s.tickets, hash)
      && seen <= BalanceOf(s, user) && Covers(s.rows, user, prices, estimate, seen)
    case Create(i, _) => i < |s.tickets| && !s.tickets[i].created
    case Answer(i, _) => i < |s.tickets| && s.tickets[i].created
    case Abandon(i) => i < |s.tickets|
    case Delete(_) => true
    case Postpone(_, _) => true
    case SetBalance(_, _) => true
  }

  /** An admission is a step: with the looks taken in states `s` and `later`, neither of which holds the
      fresh hash, and balances read that are no higher than those states', the check step is enabled
      in the state of the look that admitted. */
  lemma AdmissionIsAStep(prices: Prices, s: State, later: State, hash: Hash, account: Account, estimate: nat,
        onChain: Option<int>)
    requires Admits(account, estimate, prices, s.rows, later.rows, onChain)
    requires hash !in Hashes(s.rows) && !Holds(s.tickets, hash)
    requires hash !in Hashes(later.rows) && !Holds(later.tickets, hash)
    requires account.lockBalance.value.n <= BalanceOf(s, account.user)
    requires onChain.Some? ==> onChain.value <= BalanceOf(later, account.user)
    ensures exists seen :: Enabled(prices, s, Check(hash, account.user, estimate, seen))
                        || Enabled(prices, later, Check(hash, account.user, estimate, seen))
  {
    if Covers(s.rows, account.user, prices, estimate, account.lockBalance.value.n) {
      assert Enabled(prices, s, Check(hash, account.user, estimate, account.lockBalance.value.n));
    } else {
      assert Enabled(prices, later, Check(hash, account.user, estimate, onChain.value));
    }
  }

  function Write(rows: seq<Request>, hash: Hash, prices: Prices, response: Response): seq<Request> {
    match response
    case Reported(prompt, completion) => WriteUsage(rows, hash, prices, prompt, completion)
    case Counted(words) => WriteOutput(rows, hash, prices, words)
  }

  function Cost(prices: Prices, response: Response): nat {
    match response
    case Reported(prompt, completion) => prices.input * prompt + prices.output * completion
    case Counted(words) => prices.output * words
  }

  function Remove(tickets: seq<Ticket>, i: nat): seq<Ticket>
    requires i < |tickets|
  {
    tickets[..i] + tickets[i + 1..]
  }

  function Apply(prices: Prices, s: State, step: Step): State
    requires Enabled(prices, s, step)
  {
    match step
    case Check(hash, user, estimate, _) =>
      s.(tickets := s.tickets + [Ticket(hash, user, estimate, Reserve(prices, estimate), false)])
    case Create(i, at) =>
      var t := s.tickets[i];
      s.(rows := s.rows + [NewRequest(t.hash, t.user, at)], tickets := s.tickets[i := t.(created := true)])
    case Answer(i, response) =>
      s.(rows := Write(s.rows, s.tickets[i].hash, prices, response), tickets := Remove(s.tickets, i))
    case Abandon(i) => s.(tickets := Remove(s.tickets, i))
    case Delete(hashes) => s.(rows := DeleteHashes(s.rows, hashes))
    case Postpone(hashes, until) => s.(rows := SetSkip(s.rows, hashes, until))
    case SetBalance(user, balance) => s.(balances := s.balances[user := balance])
  }

  ghost predicate IsRun(prices: Prices, states: seq<State>, steps: seq<Step>) {
    && |states| == |steps| + 1
    && states[0].rows == [] && states[0].tickets == []
    && forall k :: 0 <= k < |steps| ==>
         Enabled(prices, states[k], steps[k]) && states[k + 1] == Apply(prices, states[k], steps[k])
  }

  // ----- the fee law in every run

  predicate Pristine(r: Request, user: User) {
    r.user == user && r.inputCount == 0 && r.outputCount == 0 && !r.processed
  }

  ghost predicate TicketOk(rows: seq<Request>, t: Ticket) {
    && (!t.created ==> t.hash !in Hashes(rows))
    && forall r :: r in rows && r.hash == t.hash ==> Pristine(r, t.user)
  }

  ghost predicate RowsOk(prices: Prices, rows: seq<Request>) {
    Keyed(rows) && forall r :: r in rows ==> FeeLaw(r, prices)
  }

  ghost predicate TicketsOk(rows: seq<Request>, tickets: seq<Ticket>) {
    && (forall i :: 0 <= i < |tickets| ==> TicketOk(rows, tickets[i]))
    && (forall i, j :: 0 <= i < j < |tickets| ==> tickets[i].hash != tickets[j].hash)
  }

  ghost predicate Inv(prices: Prices, s: State) {
    RowsOk(prices, s.rows) && TicketsOk(s.rows, s.tickets)
  }

  lemma CreateKeepsInv(prices: Prices, s: State, i: nat, at: nat)
    requires Inv(prices, s) && Enabled(prices, s, Create(i, at))
    ensures Inv(prices, Apply(prices, s, Create(i, at)))
  {
    var t := s.tickets[i];
    assert TicketOk(s.rows, t);
    var r := NewRequest(t.hash, t.user, at);
    assert prices.input * 0 == 0 && prices.output * 0 == 0;
    assert FeeLaw(r, prices);
    var rows := s.rows + [r];
    forall k | 0 <= k < |s.rows|
      ensures s.rows[k].hash != t.hash
    {
      assert s.rows[k] in s.rows;
    }
    forall k | 0 <= k < |s.tickets|
      ensures TicketOk(rows, if k == i then t.(created := true) else s.tickets[k])
    {
      assert TicketOk(s.rows, s.tickets[k]);
    }
  }

  lemma WrittenRow(rows: seq<Request>, hash: Hash, prices: Prices, response: Response, k: nat)
    requires k < |rows|
    ensures var rows' := Write(rows, hash, prices, response);
            && |rows'| == |rows| && rows'[k].hash == rows[k].hash && rows'[k].user == rows[k].user
            && rows'[k].processed == rows[k].processed
            && (rows[k].hash != hash ==> rows'[k] == rows[k])
  {
  }

  lemma WriteKeepsFeeLaw(rows: seq<Request>, t: Ticket, prices: Prices, response: Response, k: nat)
    requires RowsOk(prices, rows) && TicketOk(rows, t) && k < |rows|
    ensures FeeLaw(Write(rows, t.hash, prices, response)[k], prices)
    ensures rows[k].hash == t.hash ==> Write(rows, t.hash, prices, response)[k].fee == Value(Cost(prices, response))
  {
    var r := rows[k];
    assert r in rows && FeeLaw(r, prices);
    assert prices.input * 0 == 0 && prices.output * 0 == 0;
    if r.hash == t.hash {
      match response
      case Reported(prompt, completion) => UsageKeepsFeeLaw(r, prices, prompt, completion);
      case Counted(words) => FallbackKeepsFeeLaw(r, prices, words);
    }
  }

  lemma AnswerKeepsInv(prices: Prices, s: State, i: nat, response: Response)
    requires Inv(prices, s) && Enabled(prices, s, Answer(i, response))
    ensures Inv(prices, Apply(prices, s, Answer(i, response)))
  {
    var t, rows' := s.tickets[i], Write(s.rows, s.tickets[i].hash, prices, response);
    forall k | 0 <= k < |s.rows|
      ensures rows'[k].hash == s.rows[k].hash && FeeLaw(rows'[k], prices)
    {
      WrittenRow(s.rows, t.hash, prices, response, k);
      WriteKeepsFeeLaw(s.rows, t, prices, response, k);
    }
    forall j | 0 <= j < |s.tickets| && j != i
      ensures TicketOk(rows', s.tickets[j])
    {
      var u := s.tickets[j];
      assert TicketOk(s.rows, u) && u.hash != t.hash;
      forall r | r in rows' && r.hash == u.hash
        ensures r in s.rows
      {
        var k :| 0 <= k < |rows'| && rows'[k] == r;
        WrittenRow(s.rows, t.hash, prices, response, k);
      }
    }
  }

  lemma DeleteKeepsInv(prices: Prices, s: State, hashes: set<Hash>)
    requires Inv(prices, s)
    ensures Inv(prices, Apply(prices, s, Delete(hashes)))
  {
    FilterKeyed(s.rows, (r: Request) => r.hash !in hashes);
    forall i | 0 <= i < |s.tickets|
      ensures TicketOk(DeleteHashes(s.rows, hashes), s.tickets[i])
    {
      assert TicketOk(s.rows, s.tickets[i]);
    }
  }

  lemma PostponeKeepsInv(prices: Prices, s: State, hashes: set<Hash>, until: nat)
    requires Inv(prices, s)
    ensures Inv(prices, Apply(prices, s, Postpone(hashes, until)))
  {
    var rows' := SetSkip(s.rows, hashes, until);
    forall r | r in rows'
      ensures exists x :: x in s.rows && r == Skipped(x, hashes, until)
    {
      var k :| 0 <= k < |rows'| && rows'[k] == r;
      assert s.rows[k] in s.rows;
    }
    forall i | 0 <= i < |s.tickets|
      ensures TicketOk(rows', s.tickets[i])
    {
      assert TicketOk(s.rows, s.tickets[i]);
    }
  }

  lemma StepKeepsInv(prices: Prices, s: State, step: Step)
    requires Inv(prices, s) && Enabled(prices, s, step)
    ensures Inv(prices, Apply(prices, s, step))
  {
    match step
    case Check(hash, _, _, _) =>
      assert forall i :: 0 <= i < |s.tickets| ==> s.tickets[i].hash != hash;
    case Create(i, at) => CreateKeepsInv(prices, s, i, at);
    case Answer(i, response) => AnswerKeepsInv(prices, s, i, response);
    case Abandon(i) =>
    case Delete(hashes) => DeleteKeepsInv(prices, s, hashes);
    case Postpone(hashes, until) => PostponeKeepsInv(prices, s, hashes, until);
    case SetBalance(_, _) =>
  }

  lemma {:induction false} RunKeepsInv(prices: Prices, states: seq<State>, steps: seq<Step>, k: nat)
    requires IsRun(prices, states, steps) && k < |states|
    ensures Inv(prices, states[k])
  {
    if k > 0 {
      RunKeepsInv(prices, states, steps, k - 1);
      StepKeepsInv(prices, states[k - 1], steps[k - 1]);
    }
  }

  /** In every run, at every moment and for every user: each row's fee is what its counts cost, and
      what admission adds up is the sum of the fees of the user's open rows. */
  lemma FeesMatchCounts(prices: Prices, states: seq<State>, steps: seq<Step>, k: nat, user: User)
    requires IsRun(prices, states, steps) && k < |states|
    ensures forall r :: r in states[k].rows ==> FeeLaw(r, prices)
    ensures UnsettledFee(states[k].rows, user, prices) == Fees(OpenRows(states[k].rows, user))
  {
    RunKeepsInv(prices, states, steps, k);
    UnsettledFeeIsSumOfFees(states[k].rows, user, prices);
  }

  // ----- what a user owes and has reserved

  function Owed(rows: seq<Request>, user: User): int {
    Fees(OpenRows(rows, user))
  }

  function Reserved(tickets: seq<Ticket>, user: User): nat {
    if tickets == [] then 0
    else Reserved(tickets[1..], user) + if tickets[0].user == user then tickets[0].reserve else 0
  }

  function InFlight(tickets: seq<Ticket>, user: User): nat {
    if tickets == [] then 0 else InFlight(tickets[1..], user) + if tickets[0].user == user then 1 else 0
  }

  function Exposure(s: State, user: User): int {
    Owed(s.rows, user) + Reserved(s.tickets, user)
  }

  lemma {:induction false} SumsConcat(a: seq<Ticket>, b: seq<Ticket>, user: User)
    ensures Reserved(a + b, user) == Reserved(a, user) + Reserved(b, user)
    ensures InFlight(a + b, user) == InFlight(a, user) + InFlight(b, user)
  {
    if a == [] {
      assert a + b == b;
    } else {
      assert (a + b)[1..] == a[1..] + b;
      SumsConcat(a[1..], b, user);
    }
  }

  lemma SumsAt(tickets: seq<Ticket>, i: nat, t: Ticket, user: User)
    requires i < |tickets| && t.user == tickets[i].user && t.reserve == tickets[i].reserve
    ensures Reserved(tickets, user)
         == Reserved(Remove(tickets, i), user) + if t.user == user then t.reserve else 0
    ensures Reserved(tickets[i := t], user) == Reserved(tickets, user)
  {
    assert tickets == tickets[..i] + ([tickets[i]] + tickets[i + 1..]);
    assert tickets[i := t] == tickets[..i] + ([t] + tickets[i + 1..]);
    SumsConcat(tickets[..i], [tickets[i]] + tickets[i + 1..], user);
    SumsConcat(tickets[..i], [t] + tickets[i + 1..], user);
    SumsConcat(tickets[..i], tickets[i + 1..], user);
  }

  lemma {:induction false} ReservedIsBounded(tickets: seq<Ticket>, user: User, r: nat, n: nat)
    requires ReservesBounded(tickets, user, r)
    requires InFlight(tickets, user) <= n
    ensures Reserved(tickets, user) <= n * r
  {
    if tickets == [] {
    } else if tickets[0].user == user {
      ReservedIsBounded(tickets[1..], user, r, n - 1);
      assert n * r == (n - 1) * r + r;
    } else {
      ReservedIsBounded(tickets[1..], user, r, n);
    }
  }

  lemma OwedAppend(rows: seq<Request>, r: Request, user: User)
    ensures Owed(rows + [r], user) == Owed(rows, user) + if OpenOf(r, user) then FeeOf(r) else 0
  {
    var p := (x: Request) => OpenOf(x, user);
    FilterConcat(rows, [r], p);
    FeesConcat(OpenRows(rows, user), Filter([r], p));
  }

  lemma OwedCons(rows: seq<Request>, user: User)
    requires rows != []
    ensures Owed(rows, user) == Owed(rows[1..], user) + if OpenOf(rows[0], user) then FeeOf(rows[0]) else 0
  {
    FeesConcat(if OpenOf(rows[0], user) then [rows[0]] else [], OpenRows(rows[1..], user));
  }

  /** Metering a response adds its cost to what its user owes, unless the row is already gone, and
      leaves everybody else's account alone. */
  lemma {:induction false} OwedAfterWrite(rows: seq<Request>, t: Ticket, prices: Prices, response: Response, user: User)
    requires RowsOk(prices, rows) && TicketOk(rows, t)
    ensures Owed(Write(rows, t.hash, prices, response), user)
         == Owed(rows, user) + if t.user == user && t.hash in Hashes(rows) then Cost(prices, response) else 0
  {
    if rows != [] {
      var r, rest, rows' := rows[0], rows[1..], Write(rows, t.hash, prices, response);
      assert rows'[1..] == Write(rest, t.hash, prices, response);
      OwedAfterWrite(rest, t, prices, response, user);
      OwedCons(rows, user);
      OwedCons(rows', user);
      WrittenRow(rows, t.hash, prices, response, 0);
      WriteKeepsFeeLaw(rows, t, prices, response, 0);
      assert r in rows && FeeLaw(r, prices);
      assert prices.input * 0 == 0 && prices.output * 0 == 0;
      if r.hash == t.hash {
        assert t.hash !in Hashes(rest);
      } else {
        assert t.hash in Hashes(rows) <==> t.hash in Hashes(rest);
      }
    }
  }

  lemma {:induction false} OwedAfterDelete(rows: seq<Request>, hashes: set<Hash>, user: User)
    requires forall r :: r in rows ==> FeeOf(r) >= 0
    ensures Owed(DeleteHashes(rows, hashes), user) <= Owed(rows, user)
  {
    if rows != [] {
      var left, rest := DeleteHashes(rows, hashes), DeleteHashes(rows[1..], hashes);
      OwedAfterDelete(rows[1..], hashes, user);
      OwedCons(rows, user);
      assert rows[0] in rows;
      if rows[0].hash in hashes {
        assert left == rest;
      } else {
        assert left == [rows[0]] + rest && left[1..] == rest;
        OwedCons(left, user);
      }
    }
  }

  lemma LawfulFeesAreNotNegative(prices: Prices, rows: seq<Request>)
    requires RowsOk(prices, rows)
    ensures forall r :: r in rows ==> FeeOf(r) >= 0
  {
    forall r | r in rows
      ensures FeeOf(r) >= 0
    {
      LawfulFee(r, prices);
    }
  }

  lemma {:induction false} OwedAfterPostpone(rows: seq<Request>, hashes: set<Hash>, until: nat, user: User)
    ensures Owed(SetSkip(rows, hashes, until), user) == Owed(rows, user)
  {
    if rows != [] {
      var rows' := SetSkip(rows, hashes, until);
      assert rows'[1..] == SetSkip(rows[1..], hashes, until);
      OwedAfterPostpone(rows[1..], hashes, until, user);
      OwedCons(rows, user);
      OwedCons(rows', user);
    }
  }

  // ----- solvency

  /** The step keeps the user within `m` requests in flight, reserving at most `r` each; a response
      costs no more than was reserved for it, and the balance does not fall. */
  predicate Modest(prices: Prices, user: User, m: nat, r: nat, s: State, step: Step)
    requires Enabled(prices, s, step)
  {
    match step
    case Check(_, u, estimate, _) => u == user ==> Reserve(prices, estimate) <= r && InFlight(s.tickets, user) < m
    case Answer(i, response) => s.tickets[i].user == user ==> Cost(prices, response) <= s.tickets[i].reserve
    case SetBalance(u, balance) => u == user ==> balance >= BalanceOf(s, user)
    case _ => true
  }

  ghost predicate ReservesBounded(tickets: seq<Ticket>, user: User, r: nat) {
    forall i :: 0 <= i < |tickets| && tickets[i].user == user ==> tickets[i].reserve <= r
  }

  ghost predicate Solvent(user: User, m: nat, r: nat, s: State) {
    && ReservesBounded(s.tickets, user, r)
    && (Exposure(s, user) > 0 ==> Exposure(s, user) <= BalanceOf(s, user) + (m - 1) * r)
  }

  /** Apart from an admission, no step raises what the user owes plus what is reserved. */
  lemma ExposureFalls(prices: Prices, user: User, m: nat, r: nat, s: State, step: Step)
    requires Inv(prices, s) && Enabled(prices, s, step) && Modest(prices, user, m, r, s, step)
    requires !(step.Check? && step.user == user)
    ensures Exposure(Apply(prices, s, step), user) <= Exposure(s, user)
  {
    match step
    case Check(hash, u, estimate, _) =>
      SumsConcat(s.tickets, [Ticket(hash, u, estimate, Reserve(prices, estimate), false)], user);
    case Create(i, at) =>
      OwedAppend(s.rows, NewRequest(s.tickets[i].hash, s.tickets[i].user, at), user);
      SumsAt(s.tickets, i, s.tickets[i].(created := true), user);
    case Answer(i, response) =>
      assert TicketOk(s.rows, s.tickets[i]);
      OwedAfterWrite(s.rows, s.tickets[i], prices, response, user);
      SumsAt(s.tickets, i, s.tickets[i], user);
    case Abandon(i) => SumsAt(s.tickets, i, s.tickets[i], user);
    case Delete(hashes) =>
      LawfulFeesAreNotNegative(prices, s.rows);
      OwedAfterDelete(s.rows, hashes, user);
    case Postpone(hashes, until) => OwedAfterPostpone(s.rows, hashes, until, user);
    case SetBalance(_, _) =>
  }

  lemma CheckIsSolvent(prices: Prices, user: User, m: nat, r: nat, s: State, step: Step)
    requires Inv(prices, s) && Enabled(prices, s, step) && Modest(prices, user, m, r, s, step)
    requires step.Check? && step.user == user && Solvent(user, m, r, s)
    ensures Solvent(user, m, r, Apply(prices, s, step))
  {
    var t := Ticket(step.hash, user, step.estimate, Reserve(prices, step.estimate), false);
    SumsConcat(s.tickets, [t], user);
    UnsettledFeeIsSumOfFees(s.rows, user, prices);
    ReservedIsBounded(s.tickets, user, r, m - 1);
  }

  lemma ReservesStayBounded(prices: Prices, user: User, m: nat, r: nat, s: State, step: Step)
    requires Enabled(prices, s, step) && Modest(prices, user, m, r, s, step) && ReservesBounded(s.tickets, user, r)
    ensures ReservesBounded(Apply(prices, s, step).tickets, user, r)
  {
  }

  lemma StepIsSolvent(prices: Prices, user: User, m: nat, r: nat, s: State, step: Step)
    requires Inv(prices, s) && Enabled(prices, s, step) && Modest(prices, user, m, r, s, step)
    requires Solvent(user, m, r, s)
    ensures Solvent(user, m, r, Apply(prices, s, step))
  {
    if step.Check? && step.user == user {
      CheckIsSolvent(prices, user, m, r, s, step);
    } else {
      ExposureFalls(prices, user, m, r, s, step);
      ReservesStayBounded(prices, user, m, r, s, step);
    }
  }

  ghost predicate IsModestRun(prices: Prices, user: User, m: nat, r: nat, states: seq<State>, steps: seq<Step>) {
    IsRun(prices, states, steps) && forall k :: 0 <= k < |steps| ==> Modest(prices, user, m, r, states[k], steps[k])
  }

  /** With at most `m` requests of the user in flight, each reserving at most `r`, what the user owes
      plus what is reserved never exceeds the balance by more than (m - 1) * r. */
  lemma {:induction false} ExposureIsBounded(prices: Prices, user: User, m: nat, r: nat,
        states: seq<State>, steps: seq<Step>, k: nat)
    requires IsModestRun(prices, user, m, r, states, steps) && k < |states|
    ensures Solvent(user, m, r, states[k])
  {
    if k > 0 {
      ExposureIsBounded(prices, user, m, r, states, steps, k - 1);
      RunKeepsInv(prices, states, steps, k - 1);
      StepIsSolvent(prices, user, m, r, states[k - 1], steps[k - 1]);
    }
  }

  /** A user who sends one request at a time never owes more than the balance. */
  lemma OneAtATimeStaysCovered(prices: Prices, user: User, r: nat, states: seq<State>, steps: seq<Step>, k: nat)
    requires IsModestRun(prices, user, 1, r, states, steps) && k < |states|
    ensures UnsettledFee(states[k].rows, user, prices) > 0 ==>
              UnsettledFee(states[k].rows, user, prices) + Reserved(states[k].tickets, user)
              <= BalanceOf(states[k], user)
  {
    ExposureIsBounded(prices, user, 1, r, states, steps, k);
    FeesMatchCounts(prices, states, steps, k, user);
  }

  // ----- the reservation is enough

  function OutputTokens(response: Response): nat {
    if response.Reported? then response.completion else response.words
  }

  function PromptCost(prices: Prices, response: Response): nat {
    if response.Reported? then prices.input * response.prompt else 0
  }

  /** A response of up to a million output tokens, whose prompt costs no more than estimated, costs no
      more than was reserved for it. */
  lemma ReservationCovers(prices: Prices, estimate: nat, response: Response)
    requires OutputTokens(response) <= 1000000 && PromptCost(prices, response) <= estimate
    ensures Cost(prices, response) <= Reserve(prices, estimate)
  {
    TimesIsMonotone(prices.output, OutputTokens(response), 1000000);
  }

  /** The step keeps the user within `m` requests in flight, each estimated at `e` at most; prompts cost
      no more than estimated, responses have a million output tokens at most, and the balance does not
      fall. */
  predicate Estimated(prices: Prices, user: User, m: nat, e: nat, s: State, step: Step)
    requires Enabled(prices, s, step)
  {
    match step
    case Check(_, u, estimate, _) => u == user ==> estimate <= e && InFlight(s.tickets, user) < m
    case Answer(i, response) =>
      s.tickets[i].user == user ==>
        OutputTokens(response) <= 1000000 && PromptCost(prices, response) <= s.tickets[i].estimate
    case SetBalance(u, balance) => u == user ==> balance >= BalanceOf(s, user)
    case _ => true
  }

  ghost predicate IsEstimatedRun(prices: Prices, user: User, m: nat, e: nat, states: seq<State>, steps: seq<Step>) {
    IsRun(prices, states, steps) && forall k :: 0 <= k < |steps| ==> Estimated(prices, user, m, e, states[k], steps[k])
  }

  ghost predicate ReservedAsEstimated(prices: Prices, tickets: seq<Ticket>) {
    forall i :: 0 <= i < |tickets| ==> tickets[i].reserve == Reserve(prices, tickets[i].estimate)
  }

  lemma {:induction false} TicketsReserve(prices: Prices, states: seq<State>, steps: seq<Step>, k: nat)
    requires IsRun(prices, states, steps) && k < |states|
    ensures ReservedAsEstimated(prices, states[k].tickets)
  {
    if k > 0 {
      TicketsReserve(prices, states, steps, k - 1);
    }
  }

  lemma EstimatedIsModest(prices: Prices, user: User, m: nat, e: nat, s: State, step: Step)
    requires Enabled(prices, s, step) && Estimated(prices, user, m, e, s, step)
    requires ReservedAsEstimated(prices, s.tickets)
    ensures Modest(prices, user, m, e + prices.output * 1000000, s, step)
  {
    if step.Answer? && s.tickets[step.i].user == user {
      ReservationCovers(prices, s.tickets[step.i].estimate, step.response);
    }
  }

  lemma EstimatedRunIsModest(prices: Prices, user: User, m: nat, e: nat, states: seq<State>, steps: seq<Step>)
    requires IsEstimatedRun(prices, user, m, e, states, steps)
    ensures IsModestRun(prices, user, m, e + prices.output * 1000000, states, steps)
  {
    forall k | 0 <= k < |steps|
      ensures Modest(prices, user, m, e + prices.output * 1000000, states[k], steps[k])
    {
      TicketsReserve(prices, states, steps, k);
      EstimatedIsModest(prices, user, m, e, states[k], steps[k]);
    }
  }

  /** With at most `m` requests in flight, prompts estimated at `e` at most and responses of up to a
      million output tokens, the user never owes more than the balance, and (m - 1) times the estimate
      and the price of a million tokens. */
  lemma OwedIsBounded(prices: Prices, user: User, m: nat, e: nat, states: seq<State>, steps: seq<Step>, k: nat)
    requires IsEstimatedRun(prices, user, m, e, states, steps) && k < |states|
    ensures UnsettledFee(states[k].rows, user, prices) > 0 ==>
              UnsettledFee(states[k].rows, user, prices)
              <= BalanceOf(states[k], user) + (m - 1) * (e + prices.output * 1000000)
  {
    EstimatedRunIsModest(prices, user, m, e, states, steps);
    ExposureIsBounded(prices, user, m, e + prices.output * 1000000, states, steps, k);
    FeesMatchCounts(prices, states, steps, k, user);
  }

  // ----- the bound is reached

  const USER: User := "u"
  const UNIT_PRICES: Prices := Prices(1, 0)

  function Name(k: nat): (h: Hash)
    ensures |h| == k
  {
    seq(k, i => 'x')
  }

  /** Requests number `i` to `m`, admitted and waiting. */
  function Queue(i: nat, m: nat, r: nat): (tickets: seq<Ticket>)
    requires i <= m
    ensures |tickets| == m - i
    ensures forall k :: 0 <= k < m - i ==> tickets[k] == Ticket(Name(i + k), USER, r, r, false)
  {
    seq(m - i, k requires 0 <= k < m - i => Ticket(Name(i + k), USER, r, r, false))
  }

  /** The first `n` requests, each metered at its full reservation. */
  function Metered(n: nat, r: nat): (rows: seq<Request>)
    ensures |rows| == n && forall k :: 0 <= k < n ==> rows[k].hash == Name(k)
  {
    seq(n, k requires 0 <= k < n => WithUsage(NewRequest(Name(k), USER, 0), UNIT_PRICES, r, 0))
  }

  lemma ExtendRun(m: nat, r: nat, states: seq<State>, steps: seq<Step>, step: Step)
    returns (states': seq<State>, steps': seq<Step>)
    requires IsModestRun(UNIT_PRICES, USER, m, r, states, steps)
    requires Enabled(UNIT_PRICES, states[|steps|], step) && Modest(UNIT_PRICES, USER, m, r, states[|steps|], step)
    ensures IsModestRun(UNIT_PRICES, USER, m, r, states', steps')
    ensures states'[|steps'|] == Apply(UNIT_PRICES, states[|steps|], step)
  {
    states' := states + [Apply(UNIT_PRICES, states[|steps|], step)];
    steps' := steps + [step];
  }

  lemma QueueGrows(n: nat, r: nat)
    requires n > 0
    ensures Queue(0, n, r) == Queue(0, n - 1, r) + [Ticket(Name(n - 1), USER, r, r, false)]
  {
  }

  lemma {:induction false} QueueInFlight(m: nat, r: nat)
    ensures InFlight(Queue(0, m, r), USER) == m
  {
    if m > 0 {
      QueueInFlight(m - 1, r);
      QueueGrows(m, r);
      SumsConcat(Queue(0, m - 1, r), [Ticket(Name(m - 1), USER, r, r, false)], USER);
    }
  }

  lemma AdmitsNext(n: nat, r: nat)
    requires n > 0
    ensures Enabled(UNIT_PRICES, State([], Queue(0, n - 1, r), map[USER := r]), Check(Name(n - 1), USER, r, r))
  {
    assert UnsettledFee([], USER, UNIT_PRICES) == 0;
    var queue := Queue(0, n - 1, r);
    assert forall i :: 0 <= i < |queue| ==> |queue[i].hash| == i;
  }

  lemma {:induction false} AdmitMany(m: nat, r: nat, n: nat) returns (states: seq<State>, steps: seq<Step>)
    requires n <= m
    ensures IsModestRun(UNIT_PRICES, USER, m, r, states, steps)
    ensures states[|steps|] == State([], Queue(0, n, r), map[USER := r])
  {
    if n == 0 {
      states, steps := [State([], [], map[USER := r])], [];
    } else {
      states, steps := AdmitMany(m, r, n - 1);
      QueueInFlight(n - 1, r);
      QueueGrows(n, r);
      AdmitsNext(n, r);
      states, steps := ExtendRun(m, r, states, steps, Check(Name(n - 1), USER, r, r));
    }
  }

  lemma MeterOne(m: nat, r: nat, n: nat)
    requires n < m
    ensures var s := State(Metered(n, r), Queue(n, m, r), map[USER := r]);
            var s' := State(Metered(n, r) + [NewRequest(Name(n), USER, 0)],
                            [Ticket(Name(n), USER, r, r, true)] + Queue(n + 1, m, r), map[USER := r]);
            && Apply(UNIT_PRICES, s, Create(0, 0)) == s'
            && Apply(UNIT_PRICES, s', Answer(0, Reported(r, 0)))
               == State(Metered(n + 1, r), Queue(n + 1, m, r), map[USER := r])
  {
    var s' := Metered(n, r) + [NewRequest(Name(n), USER, 0)];
    var t := Ticket(Name(n), USER, r, r, true);
    assert Queue(n, m, r)[0 := t] == [t] + Queue(n + 1, m, r);
    assert Remove([t] + Queue(n + 1, m, r), 0) == Queue(n + 1, m, r);
    assert WriteUsage(s', Name(n), UNIT_PRICES, r, 0) == Metered(n + 1, r);
  }

  lemma {:induction false} MeterMany(m: nat, r: nat, n: nat) returns (states: seq<State>, steps: seq<Step>)
    requires n <= m
    ensures IsModestRun(UNIT_PRICES, USER, m, r, states, steps)
    ensures states[|steps|] == State(Metered(n, r), Queue(n, m, r), map[USER := r])
  {
    if n == 0 {
      states, steps := AdmitMany(m, r, m);
      assert Metered(0, r) == [];
    } else {
      states, steps := MeterMany(m, r, n - 1);
      MeterOne(m, r, n - 1);
      states, steps := ExtendRun(m, r, states, steps, Create(0, 0));
      states, steps := ExtendRun(m, r, states, steps, Answer(0, Reported(r, 0)));
    }
  }

  lemma {:induction false} MeteredFees(n: nat, r: nat)
    ensures Owed(Metered(n, r), USER) == n * r
  {
    if n == 0 {
      assert Metered(n, r) == [];
    } else {
      var last := WithUsage(NewRequest(Name(n - 1), USER, 0), UNIT_PRICES, r, 0);
      assert Metered(n, r) == Metered(n - 1, r) + [last];
      OwedAppend(Metered(n - 1, r), last, USER);
      MeteredFees(n - 1, r);
      assert n * r == (n - 1) * r + r;
    }
  }

  /** The bound is tight: for every number of requests in flight and every reservation there is a
      run in which the user ends up owing the balance plus (m - 1) * r. */
  lemma BoundIsReached(m: nat, r: nat) returns (states: seq<State>, steps: seq<Step>)
    requires m > 0
    ensures IsModestRun(UNIT_PRICES, USER, m, r, states, steps)
    ensures var s := states[|steps|]; UnsettledFee(s.rows, USER, UNIT_PRICES) == BalanceOf(s, USER) + (m - 1) * r
  {
    states, steps := MeterMany(m, r, m);
    MeteredFees(m, r);
    FeesMatchCounts(UNIT_PRICES, states, steps, |steps|, USER);
    assert m * r == (m - 1) * r + r;
  }
}
