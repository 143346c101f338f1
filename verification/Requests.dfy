/** The inference broker's request table: its rows, the queries and updates applied to it, and
  the law that ties each row's fee to its token counts. */
module Requests {
  import opened Options

  type User = string
  type Hash = string

  /** A decimal string column: the number it spells, or something that does not parse. */
  datatype Amount = Value(n: int) | Garbled

  datatype Request = Request(
    hash: Hash,
    user: User,
    createdAt: nat,
    inputFee: Amount,
    outputFee: Amount,
    fee: Amount,
    inputCount: nat,
    outputCount: nat,
    processed: bool,
    skipUntil: Option<nat>)

  datatype Prices = Prices(input: nat, output: nat)

  // ----- sequences of rows

  function Filter(rows: seq<Request>, keep: Request -> bool): (kept: seq<Request>)
    ensures forall r :: r in kept <==> r in rows && keep(r)
    ensures |kept| <= |rows|
  {
    if rows == [] then []
    else (if keep(rows[0]) then [rows[0]] else []) + Filter(rows[1..], keep)
  }

  function FeeOf(r: Request): int {
    if r.fee.Value? then r.fee.n else 0
  }

  function Fees(rows: seq<Request>): int {
    if rows == [] then 0 else FeeOf(rows[0]) + Fees(rows[1..])
  }

  function Hashes(rows: seq<Request>): (hs: set<Hash>)
    ensures forall h :: h in hs <==> exists r :: r in rows && r.hash == h
  {
    set r | r in rows :: r.hash
  }

  /** The request hash is the primary key. */
  ghost predicate Keyed(rows: seq<Request>) {
    forall i, j :: 0 <= i < j < |rows| ==> rows[i].hash != rows[j].hash
  }

  lemma {:induction false} FilterConcat(a: seq<Request>, b: seq<Request>, keep: Request -> bool)
    ensures Filter(a + b, keep) == Filter(a, keep) + Filter(b, keep)
  {
    if a == [] {
      assert a + b == b;
    } else {
      assert (a + b)[1..] == a[1..] + b;
      FilterConcat(a[1..], b, keep);
    }
  }

  lemma FilterGrows(rows: seq<Request>, i: nat, keep: Request -> bool)
    requires i < |rows|
    ensures Filter(rows[..i + 1], keep) == Filter(rows[..i], keep) + if keep(rows[i]) then [rows[i]] else []
  {
    assert rows[..i + 1] == rows[..i] + [rows[i]];
    FilterConcat(rows[..i], [rows[i]], keep);
  }

  lemma {:induction false} FilterAgrees(rows: seq<Request>, p: Request -> bool, q: Request -> bool)
    requires forall r :: r in rows ==> p(r) == q(r)
    ensures Filter(rows, p) == Filter(rows, q)
  {
    if rows != [] {
      FilterAgrees(rows[1..], p, q);
    }
  }

  lemma {:induction false} FeesConcat(a: seq<Request>, b: seq<Request>)
    ensures Fees(a + b) == Fees(a) + Fees(b)
  {
    if a == [] {
      assert a + b == b;
    } else {
      assert (a + b)[1..] == a[1..] + b;
      FeesConcat(a[1..], b);
    }
  }

  lemma {:induction false} FeesSplit(rows: seq<Request>, keep: Request -> bool)
    ensures Fees(rows) == Fees(Filter(rows, keep)) + Fees(Filter(rows, (r: Request) => !keep(r)))
  {
    if rows != [] {
      FeesSplit(rows[1..], keep);
      var head := if keep(rows[0]) then [rows[0]] else [];
      var head' := if keep(rows[0]) then [] else [rows[0]];
      FeesConcat(head, Filter(rows[1..], keep));
      FeesConcat(head', Filter(rows[1..], r => !keep(r)));
    }
  }

  lemma {:induction false} FilterKeyed(rows: seq<Request>, keep: Request -> bool)
    requires Keyed(rows)
    ensures Keyed(Filter(rows, keep))
  {
    if rows != [] {
      FilterKeyed(rows[1..], keep);
      var kept := Filter(rows[1..], keep);
      forall j | 0 <= j < |kept|
        ensures rows[0].hash != kept[j].hash
      {
        assert kept[j] in rows[1..];
      }
    }
  }

  // ----- queries and updates

  function MapRows(rows: seq<Request>, f: Request -> Request): (m: seq<Request>)
    ensures |m| == |rows| && forall i :: 0 <= i < |rows| ==> m[i] == f(rows[i])
  {
    seq(|rows|, i requires 0 <= i < |rows| => f(rows[i]))
  }

  /** Due for settlement: unprocessed, with output, and not told to wait beyond `now`. */
  predicate Due(r: Request, now: nat) {
    !r.processed && r.outputCount != 0 && (r.skipUntil.None? || r.skipUntil.value <= now)
  }

  /** Rows are kept in the order of their creation, the order the query asks for. */
  function ListDue(rows: seq<Request>, now: nat): seq<Request> {
    Filter(rows, (r: Request) => Due(r, now))
  }

  predicate OpenOf(r: Request, user: User) {
    !r.processed && r.user == user
  }

  function OpenRows(rows: seq<Request>, user: User): seq<Request> {
    Filter(rows, (r: Request) => OpenOf(r, user))
  }

  function InputTotal(rows: seq<Request>): nat {
    if rows == [] then 0 else rows[0].inputCount + InputTotal(rows[1..])
  }

  function OutputTotal(rows: seq<Request>): nat {
    if rows == [] then 0 else rows[0].outputCount + OutputTotal(rows[1..])
  }

  /** Two column sums, each times its price. */
  function Aggregate(rows: seq<Request>, prices: Prices): nat {
    InputTotal(rows) * prices.input + OutputTotal(rows) * prices.output
  }

  /** What admission takes for the user's unsettled fee. */
  function UnsettledFee(rows: seq<Request>, user: User, prices: Prices): nat {
    Aggregate(OpenRows(rows, user), prices)
  }

  function DeleteHashes(rows: seq<Request>, hs: set<Hash>): seq<Request> {
    Filter(rows, (r: Request) => r.hash !in hs)
  }

  function Skipped(r: Request, hs: set<Hash>, until: nat): Request {
    if r.hash in hs then r.(skipUntil := Some(until)) else r
  }

  function SetSkip(rows: seq<Request>, hs: set<Hash>, until: nat): seq<Request> {
    MapRows(rows, (r: Request) => Skipped(r, hs, until))
  }

  function ClearSkip(rows: seq<Request>, now: nat): seq<Request> {
    MapRows(rows, (r: Request) => if r.skipUntil.Some? && r.skipUntil.value <= now then r.(skipUntil := None) else r)
  }

  /** Rows without output that are an hour old are dropped. */
  function Prune(rows: seq<Request>, cutoff: int): seq<Request> {
    Filter(rows, (r: Request) => !(r.outputCount == 0 && r.createdAt <= cutoff))
  }

  // ----- metering

  function Multiply(a: int, b: int): (p: Amount)
  {
    Value(a * b)
  }

  function Add(a: Amount, b: Amount): Amount {
    if a.Value? && b.Value? then Value(a.n + b.n) else Garbled
  }

  /** A struct update leaves a column alone when the new value is zero. */
  function NonZero(new_: nat, old_: nat): nat {
    if new_ == 0 then old_ else new_
  }

  /** The row after the token counts reported by the model have been written. */
  function WithUsage(r: Request, prices: Prices, prompt: nat, completion: nat): Request {
    r.(inputFee := Multiply(prices.input, prompt),
       outputFee := Multiply(prices.output, completion),
       fee := Add(Multiply(prices.input, prompt), Multiply(prices.output, completion)),
       inputCount := NonZero(prompt, r.inputCount),
       outputCount := NonZero(completion, r.outputCount))
  }

  /** The row after the fallback, which counts words and keeps the input side; it does nothing
      when the stored input fee does not parse. */
  function WithOutput(r: Request, prices: Prices, words: nat): Request {
    var fee := Add(Multiply(prices.output, words), r.inputFee);
    if fee.Garbled? then r
    else r.(outputFee := Multiply(prices.output, words), fee := fee, outputCount := NonZero(words, r.outputCount))
  }

  /** What metering never touches. */
  predicate SameRequest(a: Request, b: Request) {
    && b.hash == a.hash && b.user == a.user && b.createdAt == a.createdAt
    && b.processed == a.processed && b.skipUntil == a.skipUntil
  }

  function WriteUsage(rows: seq<Request>, hash: Hash, prices: Prices, prompt: nat, completion: nat): seq<Request> {
    MapRows(rows, (r: Request) => if r.hash == hash then WithUsage(r, prices, prompt, completion) else r)
  }

  function WriteOutput(rows: seq<Request>, hash: Hash, prices: Prices, words: nat): seq<Request> {
    MapRows(rows, (r: Request) => if r.hash == hash then WithOutput(r, prices, words) else r)
  }

  function NewRequest(hash: Hash, user: User, at: nat): Request {
    Request(hash, user, at, Value(0), Garbled, Value(0), 0, 0, false, None)
  }

  /** The fee columns agree with the count columns. */
  predicate FeeLaw(r: Request, prices: Prices) {
    && r.inputFee == Value(prices.input * r.inputCount)
    && r.fee == Value(prices.input * r.inputCount + prices.output * r.outputCount)
  }

  /** Writing reported counts keeps the law exactly when no zero count is dropped in favour of an
      old one that costs something. */
  lemma UsageKeepsFeeLaw(r: Request, prices: Prices, prompt: nat, completion: nat)
    ensures FeeLaw(WithUsage(r, prices, prompt, completion), prices)
       <==> && (prompt == 0 ==> prices.input * r.inputCount == 0)
            && (completion == 0 ==> prices.output * r.outputCount == 0)
  {
    assert prices.input * 0 == 0 && prices.output * 0 == 0;
  }

  lemma FallbackKeepsFeeLaw(r: Request, prices: Prices, words: nat)
    requires FeeLaw(r, prices)
    ensures FeeLaw(WithOutput(r, prices, words), prices) <==> (words == 0 ==> prices.output * r.outputCount == 0)
  {
    assert prices.output * 0 == 0;
  }

  /** A second response with an empty prompt would leave a row whose fee is below its counts. */
  lemma RepeatedUsageBreaksFeeLaw()
    ensures exists r, prices :: FeeLaw(r, prices) && !FeeLaw(WithUsage(r, prices, 0, 0), prices)
  {
    var prices := Prices(1, 1);
    var r := WithUsage(NewRequest("h", "u", 0), prices, 2, 3);
    UsageKeepsFeeLaw(NewRequest("h", "u", 0), prices, 2, 3);
    UsageKeepsFeeLaw(r, prices, 0, 0);
  }

  /** The unsettled fee counts the unprocessed rows of the user, each at its counts' prices, and no other. */
  lemma UnsettledFeeGrows(rows: seq<Request>, r: Request, user: User, prices: Prices)
    ensures UnsettledFee([], user, prices) == 0
    ensures UnsettledFee(rows + [r], user, prices) == UnsettledFee(rows, user, prices)
            + if r.user == user && !r.processed then r.inputCount * prices.input + r.outputCount * prices.output else 0
  {
    var open := if OpenOf(r, user) then [r] else [];
    FilterConcat(rows, [r], (x: Request) => OpenOf(x, user));
    assert OpenRows(rows + [r], user) == OpenRows(rows, user) + open;
    AggregateConcat(OpenRows(rows, user), open, prices);
    AggregateOfNone(prices);
    AggregateOfOne(r, prices);
  }

  lemma AggregateConcat(a: seq<Request>, b: seq<Request>, prices: Prices)
    ensures Aggregate(a + b, prices) == Aggregate(a, prices) + Aggregate(b, prices)
  {
    TotalsConcat(a, b);
    AddProducts(InputTotal(a), OutputTotal(a), InputTotal(b), OutputTotal(b), prices);
  }

  lemma AddProducts(a: nat, b: nat, x: nat, y: nat, prices: Prices)
    ensures (a + x) * prices.input + (b + y) * prices.output
         == (a * prices.input + b * prices.output) + (x * prices.input + y * prices.output)
  {
  }

  lemma AggregateOfNone(prices: Prices)
    ensures Aggregate([], prices) == 0
  {
  }

  lemma AggregateOfOne(r: Request, prices: Prices)
    ensures Aggregate([r], prices) == r.inputCount * prices.input + r.outputCount * prices.output
  {
    assert [r][1..] == [];
    assert InputTotal([r]) == r.inputCount + InputTotal([]) && OutputTotal([r]) == r.outputCount + OutputTotal([]);
  }

  lemma {:induction false} TotalsConcat(a: seq<Request>, b: seq<Request>)
    ensures InputTotal(a + b) == InputTotal(a) + InputTotal(b)
    ensures OutputTotal(a + b) == OutputTotal(a) + OutputTotal(b)
  {
    if a == [] {
      assert a + b == b;
    } else {
      assert (a + b)[1..] == a[1..] + b;
      TotalsConcat(a[1..], b);
    }
  }

  /** Under the law the aggregate over count columns is the sum of the fee column. */
  lemma {:induction false} AggregateIsSumOfFees(rows: seq<Request>, prices: Prices)
    requires forall r :: r in rows ==> FeeLaw(r, prices)
    ensures Aggregate(rows, prices) == Fees(rows)
  {
    if rows == [] {
      AggregateOfNone(prices);
    } else {
      AggregateIsSumOfFees(rows[1..], prices);
      assert rows == [rows[0]] + rows[1..] && FeeLaw(rows[0], prices);
      AggregateConcat([rows[0]], rows[1..], prices);
      LawfulFee(rows[0], prices);
      AggregateOfOne(rows[0], prices);
    }
  }

  lemma LawfulFee(r: Request, prices: Prices)
    requires FeeLaw(r, prices)
    ensures FeeOf(r) == r.inputCount * prices.input + r.outputCount * prices.output
  {
  }


  /** What admission adds up is what the open rows will cost. */
  lemma UnsettledFeeIsSumOfFees(rows: seq<Request>, user: User, prices: Prices)
    requires forall r :: r in rows && OpenOf(r, user) ==> FeeLaw(r, prices)
    ensures UnsettledFee(rows, user, prices) == Fees(OpenRows(rows, user))
  {
    AggregateIsSumOfFees(OpenRows(rows, user), prices);
  }

  // ----- the table

  class RequestDb {
    var rows: seq<Request>

    constructor ()
      ensures rows == []
    {
      rows := [];
    }

    method CreateRequest(req: Request) returns (ok: bool)
      modifies this
      ensures ok == (req.hash !in Hashes(old(rows)))
      ensures rows == if ok then old(rows) + [req] else old(rows)
      ensures old(Keyed(rows)) ==> Keyed(rows)
    {
      ok := req.hash !in Hashes(rows);
      if ok {
        rows := rows + [req];
      }
    }

    method CalculateUnsettledFee(user: User, prices: Prices) returns (fee: nat)
      ensures fee == UnsettledFee(rows, user, prices)
      ensures (forall r :: r in rows && OpenOf(r, user) ==> FeeLaw(r, prices)) ==> fee == Fees(OpenRows(rows, user))
    {
      var mine := OpenRows(rows, user);
      fee := InputTotal(mine) * prices.input + OutputTotal(mine) * prices.output;
      if forall r :: r in rows && OpenOf(r, user) ==> FeeLaw(r, prices) {
        UnsettledFeeIsSumOfFees(rows, user, prices);
      }
    }

    /** Only the request's row changes, only in its fee and count columns; a count is overwritten unless
        the new one is zero, a fee always. */
    method UpdateAccountWithUsage(hash: Hash, prices: Prices, prompt: nat, completion: nat)
      modifies this
      ensures |rows| == |old(rows)|
      ensures forall i :: 0 <= i < |rows| && old(rows)[i].hash != hash ==> rows[i] == old(rows)[i]
      ensures forall i :: 0 <= i < |rows| && old(rows)[i].hash == hash ==>
                && SameRequest(old(rows)[i], rows[i])
                && rows[i].inputFee == Value(prices.input * prompt)
                && rows[i].outputFee == Value(prices.output * completion)
                && rows[i].fee == Value(prices.input * prompt + prices.output * completion)
                && rows[i].inputCount == (if prompt == 0 then old(rows)[i].inputCount else prompt)
                && rows[i].outputCount == if completion == 0 then old(rows)[i].outputCount else completion
      ensures rows == WriteUsage(old(rows), hash, prices, prompt, completion)
    {
      rows := WriteUsage(rows, hash, prices, prompt, completion);
    }

    /** Fails exactly when the request has no row, or one whose input fee does not parse, and then
        changes nothing; else only the request's row changes, and keeps its input side. */
    method UpdateAccountWithOutput(hash: Hash, prices: Prices, words: nat) returns (ok: bool)
      requires Keyed(rows)
      modifies this
      ensures ok == exists r :: r in old(rows) && r.hash == hash && r.inputFee.Value?
      ensures !ok ==> rows == old(rows)
      ensures |rows| == |old(rows)|
      ensures forall i :: 0 <= i < |rows| && old(rows)[i].hash != hash ==> rows[i] == old(rows)[i]
      ensures ok ==> forall i :: 0 <= i < |rows| && old(rows)[i].hash == hash ==>
                && SameRequest(old(rows)[i], rows[i]) && old(rows)[i].inputFee.Value?
                && rows[i].inputFee == old(rows)[i].inputFee && rows[i].inputCount == old(rows)[i].inputCount
                && rows[i].outputFee == Value(prices.output * words)
                && rows[i].fee == Value(prices.output * words + old(rows)[i].inputFee.n)
                && rows[i].outputCount == if words == 0 then old(rows)[i].outputCount else words
      ensures rows == WriteOutput(old(rows), hash, prices, words)
    {
      ok := exists r :: r in rows && r.hash == hash && r.inputFee.Value?;
      forall i | 0 <= i < |rows| && rows[i].hash == hash
        ensures ok == rows[i].inputFee.Value?
      {
        assert rows[i] in rows;
      }
      if ok {
        rows := WriteOutput(rows, hash, prices, words);
      } else {
        assert WriteOutput(rows, hash, prices, words) == rows;
      }
    }
  }
}
