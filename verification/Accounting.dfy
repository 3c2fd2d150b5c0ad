/** What a peer is owed: reservations made before a request, settled into debt or
    cancelled after it, and debt paid down by refreshments. */
module Accounting {
  import opened Options
  import opened Sums

  const RefreshRate := 450000
  const PoPrice := 10000
  const MaxPo := 31

  /** The price of a chunk falls with the peer's proximity and is never zero. */
  function Price(proximity: nat): (price: Word)
    ensures PoPrice <= price <= (MaxPo + 1) * PoPrice
  {
    ((if proximity >= MaxPo then 0 else MaxPo - proximity) + 1) * PoPrice
  }

  /** Each step of proximity saves one unit, down to a single one. */
  lemma {:induction false} PriceFalls(proximity: nat)
    ensures if proximity < MaxPo then Price(proximity) == Price(proximity + 1) + PoPrice else Price(proximity) == PoPrice
  {}

  datatype Account = Account(balance: Word, surplus: Word, threshold: Word, reserve: Word,
                             lastRefreshment: nat, refreshScheduled: bool, connection: Option<nat>)

  predicate RefreshmentDue(a: Account) {
    var target := if a.lastRefreshment == 0 then 2 * RefreshRate else RefreshRate;
    a.balance >= if a.threshold == 0 then target else Min(target, a.threshold)
  }

  // ----- The locked steps, on values

  /** Grants a reservation only on an open session and within the threshold. */
  function Reserve(a: Account, amount: Word): Option<Account> {
    if a.connection.None? || a.reserve + amount > MaxWord || a.balance + (a.reserve + amount) > MaxWord then None
    else if a.balance + (a.reserve + amount) > a.threshold then None
    else Some(a.(reserve := a.reserve + amount))
  }

  /** Turns a reservation into debt, surplus first; may schedule a refreshment. */
  function ApplyCredit(a: Account, amount: Word): Account {
    var compensated := Min(a.surplus, amount);
    var b := a.(reserve := SaturatingSub(a.reserve, amount),
                surplus := a.surplus - compensated,
                balance := SaturatingAdd(a.balance, amount - compensated));
    if RefreshmentDue(b) && !b.refreshScheduled && b.connection.Some? then b.(refreshScheduled := true) else b
  }

  function ApplyRefreshment(a: Account, amount: Word): Account {
    if amount >= a.balance then a.(balance := 0, surplus := SaturatingAdd(a.surplus, amount - a.balance))
    else a.(balance := a.balance - amount)
  }

  function CancelReserve(a: Account, amount: Word): Account {
    a.(reserve := SaturatingSub(a.reserve, amount))
  }

  /** A peer that acknowledges a refreshment of zero writes the debt off. */
  function ZeroAcknowledged(a: Account, now: nat): Account {
    a.(balance := 0, lastRefreshment := now, refreshScheduled := false)
  }

  // ----- Runs: any interleaving of these steps by any number of tasks

  /** The one refresher of an account. `Scheduled`: an instruction is sent or its
      loop is between two rounds. `InFlight`: an amount has been offered to the peer.
      `Acknowledged`: the answer is stamped and not yet applied. `Lost`: the outcome
      is unclear, so the refresher ends and stays scheduled for good. */
  datatype Refresher = Idle | Scheduled | InFlight(attempted: Word) | Acknowledged(amount: Word) | Lost

  datatype Event = Announce(threshold: Word)
                 | Connect(connection: nat)
                 | Quiesce
                 | Request(proximity: nat)
                 | Deliver(request: nat)
                 | Abandon(request: nat)
                 | Withdraw
                 | Dispatch
                 | NotDispatched
                 | Acknowledge(amount: Word, now: nat)
                 | Apply
                 | Ambiguous

  /** The account, its refresher, the reservations of the requests still running,
      the highest threshold announced, and running totals. */
  datatype Books = Books(account: Account, refresher: Refresher, open: seq<int>, highest: nat,
                         credits: nat, refreshed: nat, forgiven: nat)

  function Step(b: Books, e: Event): Books {
    var a := b.account;
    match e
    case Announce(threshold) =>
      b.(account := a.(threshold := threshold), highest := if threshold > b.highest then threshold else b.highest)
    case Connect(connection) => b.(account := a.(connection := Some(connection)))
    case Quiesce => b.(account := a.(connection := None))
    case Request(proximity) =>
      (match Reserve(a, Price(proximity))
       case None => b
       case Some(a') => b.(account := a', open := b.open + [Price(proximity)]))
    case Deliver(request) =>
      if request < |b.open| && 0 <= b.open[request] <= MaxWord then Delivered(b, request) else b
    case Abandon(request) =>
      if request < |b.open| && 0 <= b.open[request] <= MaxWord then
        b.(account := CancelReserve(a, b.open[request]), open := Without(b.open, request))
      else b
    case _ => RefresherStep(b, e)
  }

  /** A delivery settles its reservation and may start the refresher. */
  function Delivered(b: Books, request: nat): Books
    requires request < |b.open| && 0 <= b.open[request] <= MaxWord
  {
    var a' := ApplyCredit(b.account, b.open[request]);
    b.(account := a', open := Without(b.open, request), credits := b.credits + b.open[request],
       refresher := if a'.refreshScheduled && !b.account.refreshScheduled then Scheduled else b.refresher)
  }

  /** The refresher's locked steps: it withdraws, offers the threshold when a
      refreshment is due, and takes an answer of at most what it offered. */
  function RefresherStep(b: Books, e: Event): Books {
    var a := b.account;
    match (b.refresher, e)
    case (Scheduled, Withdraw) => b.(account := a.(refreshScheduled := false), refresher := Idle)
    case (Scheduled, Dispatch) =>
      if RefreshmentDue(a) && a.threshold != 0 then b.(refresher := InFlight(a.threshold)) else b
    case (InFlight(_), NotDispatched) => b.(refresher := Scheduled)
    case (InFlight(attempted), Acknowledge(amount, now)) =>
      if amount > attempted then b
      else if amount == 0 then
        b.(account := ZeroAcknowledged(a, now), refresher := Idle, forgiven := b.forgiven + a.balance)
      else b.(account := a.(lastRefreshment := now), refresher := Acknowledged(amount))
    case (InFlight(_), Ambiguous) => b.(refresher := Lost)
    case (Acknowledged(amount), Apply) =>
      b.(account := ApplyRefreshment(a, amount), refresher := Scheduled, refreshed := b.refreshed + amount)
    case _ => b
  }

  const Opened := Books(Account(0, 0, 0, 0, 0, false, None), Idle, [], 0, 0, 0, 0)

  function Run(events: seq<Event>): Books {
    if events == [] then Opened else Step(Run(events[..|events| - 1]), events[|events| - 1])
  }

  // ----- What every step keeps

  ghost predicate Reserved(b: Books) {
    && b.account.reserve == Sum(b.open)
    && forall i :: 0 <= i < |b.open| ==> PoPrice <= b.open[i] <= MaxWord
  }

  ghost predicate WithinThreshold(b: Books) {
    b.account.balance + b.account.reserve <= b.highest <= MaxWord && b.account.threshold <= b.highest
  }

  ghost predicate OneSided(b: Books) {
    b.account.balance == 0 || b.account.surplus == 0
  }

  /** Debt minus surplus is what was credited less what was refreshed or written off. */
  ghost predicate Conserved(b: Books) {
    b.account.balance - b.account.surplus == b.credits - b.refreshed - b.forgiven
  }

  /** There is one refresher, and while an offer is out the account is in debt. */
  ghost predicate OneRefresher(b: Books) {
    && (b.refresher.Idle? <==> !b.account.refreshScheduled)
    && (b.refresher.InFlight? || b.refresher.Acknowledged? ==> b.account.balance > 0)
  }

  ghost predicate Balanced(b: Books) {
    Reserved(b) && WithinThreshold(b) && OneSided(b) && Conserved(b) && OneRefresher(b)
  }

  lemma {:induction false} StepBalanced(b: Books, e: Event)
    requires Balanced(b)
    ensures Balanced(Step(b, e))
  {
    match e
    case Announce(_) =>
    case Connect(_) =>
    case Quiesce =>
    case Request(proximity) => RequestBalanced(b, proximity);
    case Deliver(request) => DeliverBalanced(b, request);
    case Abandon(request) => AbandonBalanced(b, request);
    case _ => RefresherBalanced(b, e);
  }

  lemma {:induction false} RequestBalanced(b: Books, proximity: nat)
    requires Balanced(b)
    ensures Balanced(Step(b, Request(proximity)))
  {
    SumAppend(b.open, Price(proximity));
  }

  lemma {:induction false} AbandonBalanced(b: Books, request: nat)
    requires Balanced(b)
    ensures Balanced(Step(b, Abandon(request)))
  {
    if request < |b.open| {
      SettledShare(b, request);
    }
  }

  lemma {:induction false} RefresherBalanced(b: Books, e: Event)
    requires Balanced(b)
    ensures Balanced(RefresherStep(b, e))
  {
    assert Reserved(RefresherStep(b, e));
    hide Reserved;
  }

  lemma {:induction false} DeliverBalanced(b: Books, request: nat)
    requires Balanced(b)
    ensures Balanced(Step(b, Deliver(request)))
  {
    if request < |b.open| {
      SettledShare(b, request);
    }
  }

  /** An acknowledged refreshment always fits: the surplus it builds on is zero. */
  lemma {:induction false} RefreshmentFits(b: Books)
    requires Balanced(b) && b.refresher.Acknowledged?
    ensures b.account.surplus == 0 && b.refresher.amount - b.account.balance <= MaxWord
    ensures ApplyRefreshment(b.account, b.refresher.amount).surplus ==
            if b.refresher.amount >= b.account.balance then b.refresher.amount - b.account.balance else 0
  {}

  /** A request's own reservation is part of the reserve, so settling never saturates. */
  lemma {:induction false} SettledShare(b: Books, request: nat)
    requires Reserved(b) && request < |b.open|
    ensures b.open[request] <= b.account.reserve
    ensures Sum(Without(b.open, request)) == b.account.reserve - b.open[request]
    ensures forall i :: 0 <= i < |Without(b.open, request)| ==> PoPrice <= Without(b.open, request)[i] <= MaxWord
  {
    SumNonNegative(b.open, request);
    SumWithout(b.open, request);
  }

  lemma {:induction false} RunBalanced(events: seq<Event>)
    ensures Balanced(Run(events))
  {
    if events != [] {
      RunBalanced(events[..|events| - 1]);
      StepBalanced(Run(events[..|events| - 1]), events[|events| - 1]);
    }
  }

  /** In every run a request is granted exactly when a session is open and debt, all
      running reservations and its price stay within the threshold. */
  lemma {:induction false} GrantedIff(events: seq<Event>, proximity: nat)
    ensures var b := Run(events);
            var next := Run(events + [Request(proximity)]);
            if b.account.connection.Some? && b.account.balance + Sum(b.open) + Price(proximity) <= b.account.threshold
            then next.open == b.open + [Price(proximity)] && next.account.reserve == Sum(next.open)
            else next == b
  {
    RunBalanced(events);
    assert (events + [Request(proximity)])[..|events|] == events;
    SumAppend(Run(events).open, Price(proximity));
  }

  /** The drain test before a session closes: an empty reserve means that no request
      still holds a reservation. */
  lemma {:induction false} DrainedMeansIdle(events: seq<Event>)
    ensures Run(events).account.reserve == 0 <==> Run(events).open == []
  {
    RunBalanced(events);
    var open := Run(events).open;
    if open != [] {
      SumNonNegative(open, 0);
    }
  }

  /** Once quiesced, an account only drains: no reservation is added until a session
      is connected again. */
  lemma {:induction false} QuiescedOnlyDrains(b: Books, later: seq<Event>)
    requires Balanced(b) && b.account.connection.None?
    requires forall i :: 0 <= i < |later| ==> !later[i].Connect?
    ensures From(b, later).account.connection.None? && Balanced(From(b, later))
    ensures multiset(From(b, later).open) <= multiset(b.open) && From(b, later).account.reserve <= b.account.reserve
    decreases |later|
  {
    hide Balanced;
    if later != [] {
      var init, last := later[..|later| - 1], later[|later| - 1];
      QuiescedOnlyDrains(b, init);
      StepBalanced(From(b, init), last);
      QuiescedStep(From(b, init), last);
    }
  }

  lemma {:induction false} QuiescedStep(b: Books, e: Event)
    requires Balanced(b) && b.account.connection.None? && !e.Connect?
    ensures Step(b, e).account.connection.None? && Step(b, e).account.reserve <= b.account.reserve
    ensures multiset(Step(b, e).open) <= multiset(b.open)
  {
    hide Balanced, Without;
    if e.Deliver? || e.Abandon? {
      QuiescedSettle(b, e);
    } else if e.Request? {
      assert Step(b, e) == b;
    } else {
      assert Step(b, e).open == b.open;
    }
  }

  lemma {:induction false} QuiescedSettle(b: Books, e: Event)
    requires Balanced(b) && b.account.connection.None? && (e.Deliver? || e.Abandon?)
    ensures Step(b, e).account.connection.None? && Step(b, e).account.reserve <= b.account.reserve
    ensures multiset(Step(b, e).open) <= multiset(b.open)
  {
    hide Without, Balanced;
    if e.request < |b.open| && 0 <= b.open[e.request] <= MaxWord {
      assert Reserved(b) by { BalancedReserved(b); }
      SettledShare(b, e.request);
      WithoutFewer(b.open, e.request);
    }
  }

  lemma {:induction false} BalancedReserved(b: Books)
    requires Balanced(b)
    ensures Reserved(b)
  {}

  lemma {:induction false} WithoutFewer(xs: seq<int>, i: nat)
    requires i < |xs|
    ensures multiset(Without(xs, i)) <= multiset(xs)
  {
    assert xs == xs[..i] + [xs[i]] + xs[i + 1..];
  }

  function From(b: Books, events: seq<Event>): Books {
    if events == [] then b else Step(From(b, events[..|events| - 1]), events[|events| - 1])
  }

  // ----- The account object

  class PeerAccount {
    var balance: Word
    var surplus: Word
    var threshold: Word
    var reserve: Word
    var lastRefreshment: nat
    var refreshScheduled: bool
    var connection: Option<nat>

    function AsAccount(): Account
      reads this
    {
      Account(balance, surplus, threshold, reserve, lastRefreshment, refreshScheduled, connection)
    }

    constructor ()
      ensures AsAccount() == Opened.account
    {
      balance, surplus, threshold, reserve := 0, 0, 0, 0;
      lastRefreshment, refreshScheduled, connection := 0, false, None;
    }

    method ReserveAmount(amount: Word) returns (granted: Option<nat>)
      modifies this`reserve
      ensures granted.Some? <==> Reserve(old(AsAccount()), amount).Some?
      ensures granted.Some? <==> connection.Some? && balance + old(reserve) + amount <= threshold
      ensures granted.Some? ==> granted == connection && AsAccount() == Reserve(old(AsAccount()), amount).value
      ensures granted.None? ==> AsAccount() == old(AsAccount())
    {
      if connection.None? || reserve + amount > MaxWord {
        return None;
      }
      var newReserve := reserve + amount;
      if balance + newReserve > MaxWord || balance + newReserve > threshold {
        return None;
      }
      reserve := newReserve;
      granted := connection;
    }

    method CreditAmount(amount: Word) returns (schedule: Option<nat>, drained: bool)
      modifies this
      ensures AsAccount() == ApplyCredit(old(AsAccount()), amount)
      ensures schedule.Some? <==> refreshScheduled && !old(refreshScheduled)
      ensures schedule.Some? <==> RefreshmentDue(AsAccount()) && !old(refreshScheduled) && connection.Some?
      ensures schedule.Some? ==> schedule == connection
      ensures drained <==> reserve == 0
    {
      var debtIncrease := amount;
      reserve := SaturatingSub(reserve, amount);
      var compensated := Min(surplus, debtIncrease);
      surplus := surplus - compensated;
      debtIncrease := debtIncrease - compensated;
      balance := SaturatingAdd(balance, debtIncrease);
      schedule := None;
      if RefreshmentDue(AsAccount()) && !refreshScheduled && connection.Some? {
        refreshScheduled := true;
        schedule := connection;
      }
      drained := reserve == 0;
    }

    method RefreshAmount(amount: Word) returns (growth: Option<(Word, Word)>)
      modifies this`balance, this`surplus
      ensures AsAccount() == ApplyRefreshment(old(AsAccount()), amount)
      ensures growth == if amount > old(balance) then Some((amount - old(balance), surplus)) else None
    {
      if amount >= balance {
        var surplusGrowth := amount - balance;
        balance := 0;
        surplus := SaturatingAdd(surplus, surplusGrowth);
        if surplusGrowth > 0 {
          return Some((surplusGrowth, surplus));
        }
      } else {
        balance := balance - amount;
      }
      growth := None;
    }

    method CancelAmount(amount: Word) returns (drained: bool)
      modifies this`reserve
      ensures AsAccount() == CancelReserve(old(AsAccount()), amount)
      ensures drained <==> reserve == 0
    {
      reserve := SaturatingSub(reserve, amount);
      drained := reserve == 0;
    }
  }
}
