/** Sending a transaction with a gas price that is raised by a tenth, up to a cap, whenever the
  network is congested, and waiting for its receipt. */
module Transactions {
  import opened Options

  /** What the network answers to an attempt. */
  datatype Reply = Accepted | Congested | Refused

  datatype Sending = Sent | NoCap | Failed | StillTrying

  function Bump(price: nat, cap: nat): nat {
    if price * 11 / 10 > cap then cap else price * 11 / 10
  }

  /** The price of attempt number `k`. */
  function PriceAt(start: nat, cap: nat, k: nat): nat {
    if k == 0 then start else Bump(PriceAt(start, cap, k - 1), cap)
  }

  /** The first attempt that ends the loop. */
  function Decisive(replies: seq<Reply>, cap: Option<nat>): (k: nat)
    ensures k <= |replies|
    ensures forall i :: 0 <= i < k ==> replies[i] == Congested && cap.Some?
    ensures k < |replies| ==> replies[k] != Congested || cap.None?
  {
    if replies == [] || replies[0] != Congested || cap.None? then 0 else 1 + Decisive(replies[1..], cap)
  }

  /** What attempt number `k` offers. */
  function Offer(start: nat, cap: Option<nat>, k: nat): nat {
    if cap.Some? then PriceAt(start, cap.value, k) else start
  }

  function Outcome(replies: seq<Reply>, cap: Option<nat>): Sending {
    var k := Decisive(replies, cap);
    if k == |replies| then StillTrying
    else match replies[k]
         case Accepted => Sent
         case Refused => Failed
         case Congested => NoCap
  }

  /** Reply `k` is the first that is not about congestion, or the first of all without a cap. */
  ghost predicate Ends(replies: seq<Reply>, cap: Option<nat>, k: int) {
    && 0 <= k < |replies| && (replies[k] != Congested || cap.None?)
    && forall i :: 0 <= i < k ==> replies[i] == Congested && cap.Some?
  }

  lemma DecisiveEnds(replies: seq<Reply>, cap: Option<nat>)
    ensures forall k :: Ends(replies, cap, k) <==> k == Decisive(replies, cap) && k < |replies|
  {
    forall k | Ends(replies, cap, k)
      ensures k == Decisive(replies, cap)
    {
    }
  }

  method Transact(replies: seq<Reply>, start: nat, cap: Option<nat>) returns (sending: Sending, prices: seq<nat>)
    ensures var k := Decisive(replies, cap); |prices| == if k < |replies| then k + 1 else k
    ensures forall i :: 0 <= i < |prices| ==> prices[i] == Offer(start, cap, i)
    ensures sending == Outcome(replies, cap)
    ensures sending == Sent <==> exists k :: Ends(replies, cap, k) && replies[k] == Accepted
    ensures sending == Failed <==> exists k :: Ends(replies, cap, k) && replies[k] == Refused
    ensures sending == NoCap <==> exists k :: Ends(replies, cap, k) && replies[k] == Congested
    ensures forall k :: Ends(replies, cap, k) ==> |prices| == k + 1
    ensures (forall k :: !Ends(replies, cap, k)) ==> |prices| == |replies|
  {
    DecisiveEnds(replies, cap);
    var gasPrice := start;
    prices := [];
    for i := 0 to |replies|
      invariant |prices| == i <= Decisive(replies, cap)
      invariant gasPrice == Offer(start, cap, i)
      invariant forall j :: 0 <= j < i ==> prices[j] == Offer(start, cap, j)
    {
      prices := prices + [gasPrice];
      if replies[i] == Accepted {
        return Sent, prices;
      }
      if replies[i] == Congested {
        if cap.None? {
          return NoCap, prices;
        }
        var newGasPrice := gasPrice * 11 / 10;
        if newGasPrice > cap.value {
          gasPrice := cap.value;
        } else {
          gasPrice := newGasPrice;
        }
      } else {
        return Failed, prices;
      }
    }
    sending := StillTrying;
  }

  /** From a price within the cap a bump stays within the cap, never lowers the price, and leaves it
      where it is exactly at the cap or below ten; below the cap it adds a tenth, rounded down. */
  lemma BumpProgress(price: nat, cap: nat)
    requires price <= cap
    ensures price <= Bump(price, cap) <= cap
    ensures Bump(price, cap) == price <==> price == cap || price < 10
    ensures Bump(price, cap) < cap ==> Bump(price, cap) == price + price / 10
    ensures Bump(price, cap) == cap <==> price + price / 10 >= cap
  {
  }

  /** After the first bump the price is within the cap, and from there on it never falls. */
  lemma {:induction false} PriceIsCapped(start: nat, cap: nat, k: nat)
    ensures k > 0 || start <= cap ==> PriceAt(start, cap, k) <= cap
    ensures k > 0 || start <= cap ==> PriceAt(start, cap, k) <= PriceAt(start, cap, k + 1)
  {
    if k > 0 {
      PriceIsCapped(start, cap, k - 1);
    }
  }

  lemma {:induction false} GrowsByTenths(start: nat, cap: nat, from_: nat, k: nat)
    requires 10 <= PriceAt(start, cap, from_) <= cap
    ensures PriceAt(start, cap, from_) <= PriceAt(start, cap, from_ + k) <= cap
    ensures PriceAt(start, cap, from_ + k) == cap
         || PriceAt(start, cap, from_ + k) >= PriceAt(start, cap, from_) + k * (PriceAt(start, cap, from_) / 10)
  {
    if k > 0 {
      GrowsByTenths(start, cap, from_, k - 1);
      var first, before := PriceAt(start, cap, from_), PriceAt(start, cap, from_ + k - 1);
      BumpProgress(before, cap);
      assert k * (first / 10) == (k - 1) * (first / 10) + first / 10;
      assert before / 10 >= first / 10;
    }
  }

  /** Twenty bumps at least double a price of ten or more, or reach the cap. */
  lemma DoublesInTwenty(start: nat, cap: nat, from_: nat)
    requires 10 <= PriceAt(start, cap, from_) <= cap
    ensures PriceAt(start, cap, from_ + 20) <= cap
    ensures PriceAt(start, cap, from_ + 20) == cap || PriceAt(start, cap, from_ + 20) >= 2 * PriceAt(start, cap, from_)
  {
    GrowsByTenths(start, cap, from_, 20);
  }

  /** `start` doubled `n` times. */
  function Doubled(start: nat, n: nat): nat {
    if n == 0 then start else 2 * Doubled(start, n - 1)
  }

  lemma {:induction false} GrowsByDoubling(start: nat, cap: nat, n: nat)
    requires 10 <= start <= cap
    ensures 10 <= PriceAt(start, cap, 20 * n) <= cap
    ensures PriceAt(start, cap, 20 * n) == cap || PriceAt(start, cap, 20 * n) >= Doubled(start, n)
  {
    if n > 0 {
      GrowsByDoubling(start, cap, n - 1);
      DoublesInTwenty(start, cap, 20 * (n - 1));
      GrowsByTenths(start, cap, 20 * (n - 1), 20);
    }
  }

  /** The cap is reached within twenty bumps for every doubling from the start to the cap. */
  lemma CapIsReached(start: nat, cap: nat, n: nat)
    requires 10 <= start <= cap <= Doubled(start, n)
    ensures PriceAt(start, cap, 20 * n) == cap
  {
    GrowsByDoubling(start, cap, n);
  }

  lemma {:induction false} SmallPricesStay(start: nat, cap: nat, k: nat)
    requires start < 10 && start <= cap
    ensures PriceAt(start, cap, k) == start
  {
    if k > 0 {
      SmallPricesStay(start, cap, k - 1);
    }
  }

  lemma {:induction false} EnoughDoublings(start: nat, n: nat)
    requires start > 0
    ensures Doubled(start, n) > n
  {
    if n > 0 {
      EnoughDoublings(start, n - 1);
    }
  }

  /** Escalation works exactly from a price of ten on: a lower one below the cap is never raised. */
  lemma ReachesCapIff(start: nat, cap: nat)
    ensures (exists k :: PriceAt(start, cap, k) == cap) <==> start >= 10 || start >= cap
  {
    if start >= cap {
      assert start == cap ==> PriceAt(start, cap, 0) == cap;
      assert start > cap ==> PriceAt(start, cap, 1) == cap;
    } else if start >= 10 {
      EnoughDoublings(start, cap);
      CapIsReached(start, cap, cap);
    } else {
      forall k {
        SmallPricesStay(start, cap, k);
      }
    }
  }

  // ----- waiting for the receipt

  datatype Poll = Missing | PollError | Mined(success: bool)

  datatype Receipt = Confirmed | Reverted | Broken | GaveUp | Waiting

  function FirstAnswer(polls: seq<Poll>): (k: nat)
    ensures k <= |polls| && (k < |polls| ==> polls[k] != Missing)
    ensures forall i :: 0 <= i < k ==> polls[i] == Missing
  {
    if polls == [] || polls[0] != Missing then 0 else 1 + FirstAnswer(polls[1..])
  }

  /** Two polls more than the configured rounds are made before giving up, and none is skipped;
      without a limit the waiting goes on until there is an answer. */
  method WaitForReceipt(polls: seq<Poll>, rounds: nat) returns (receipt: Receipt, tries: nat)
    ensures var k, limited := FirstAnswer(polls), rounds != 0 && FirstAnswer(polls) >= rounds + 2;
            && tries == (if limited then rounds + 2 else if k < |polls| then k + 1 else k)
            && receipt == if limited then GaveUp
                          else if k == |polls| then Waiting
                          else if polls[k] == PollError then Broken
                          else if polls[k] == Mined(true) then Confirmed
                          else Reverted
  {
    tries := 0;
    ghost var k := FirstAnswer(polls);
    while true
      invariant tries <= k && (rounds != 0 ==> tries <= rounds + 2)
      decreases |polls| - tries
    {
      if tries > rounds + 1 && rounds != 0 {
        return GaveUp, tries;
      }
      if tries == |polls| {
        return Waiting, tries;
      }
      var poll := polls[tries];
      tries := tries + 1;
      match poll
      case Missing =>
      case PollError => return Broken, tries;
      case Mined(success) => return if success then Confirmed else Reverted, tries;
    }
  }
}
