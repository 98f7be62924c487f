/** payment-service's escrow ledger: the double-entry plans (ledger_rules) and the bookings (escrow_service). */
module Escrow {
  import opened Basics
  import opened Sequences

  datatype Account = CourierReceivable | Cash | SellerPayable | CommissionRevenue
  datatype Reason = Delivery | Settlement | Payout

  /** One ledger line; a debit is positive. A payout belongs to no seller order. */
  datatype Entry = Entry(account: Account, amount: int, reason: Reason, seller: Id, sellerOrder: Option<Id>)

  /** A committed transaction: the lines that share a transaction_id. */
  type Transaction = seq<Entry>

  /* ---------- ledger_rules ---------- */

  predicate RateOk(bps: int) { 0 <= bps <= 10000 }

  function Commission(amount: int, bps: int): int
    requires amount >= 0 && RateOk(bps)
  {
    amount * bps / 10000
  }

  function PlanDelivery(seller: Id, order: Id, collected: int, bps: int): Option<Transaction> {
    if collected <= 0 || !RateOk(bps) then None
    else
      var commission := Commission(collected, bps);
      var entries := [Entry(CourierReceivable, collected, Delivery, seller, Some(order)),
                      Entry(SellerPayable, -(collected - commission), Delivery, seller, Some(order))];
      Some(if commission != 0 then entries + [Entry(CommissionRevenue, -commission, Delivery, seller, Some(order))]
           else entries)
  }

  function PlanSettlement(seller: Id, order: Id, remitted: int): Option<Transaction> {
    if remitted <= 0 then None
    else Some([Entry(Cash, remitted, Settlement, seller, Some(order)),
               Entry(CourierReceivable, -remitted, Settlement, seller, Some(order))])
  }

  function PlanPayout(seller: Id, amount: int): Option<Transaction> {
    if amount <= 0 then None
    else Some([Entry(SellerPayable, amount, Payout, seller, None), Entry(Cash, -amount, Payout, seller, None)])
  }

  function Amount(): Entry -> int { (e: Entry) => e.amount }
  function Total(t: Transaction): int { Sum(t, Amount()) }

  /** What an entry adds to what the platform owes a seller. */
  function OwedTo(seller: Id): Entry -> int {
    (e: Entry) => if e.account.SellerPayable? && e.seller == seller then -e.amount else 0
  }

  function In(account: Account): Entry -> int { (e: Entry) => if e.account == account then e.amount else 0 }

  /* ---------- escrow_service ---------- */

  /** The ledger as its transactions in commit order. */
  type Ledger = seq<Transaction>

  /** What a list of entries adds up to: over all accounts, owed to one seller, and per platform account. */
  datatype Sheet = Sheet(total: int, owed: int, receivable: int, cash: int, revenue: int)

  const Nothing := Sheet(0, 0, 0, 0, 0)

  function SheetOf(t: Transaction, seller: Id): Sheet {
    Sheet(Total(t), Sum(t, OwedTo(seller)),
          Sum(t, In(CourierReceivable)), Sum(t, In(Cash)), -Sum(t, In(CommissionRevenue)))
  }

  function Plus(a: Sheet, b: Sheet): Sheet {
    Sheet(a.total + b.total, a.owed + b.owed, a.receivable + b.receivable, a.cash + b.cash, a.revenue + b.revenue)
  }

  function Balances(ledger: Ledger, seller: Id): Sheet {
    if ledger == [] then Nothing
    else Plus(Balances(ledger[..|ledger| - 1], seller), SheetOf(ledger[|ledger| - 1], seller))
  }

  predicate AlreadyBooked(ledger: Ledger, order: Id, reason: Reason) {
    exists t, k :: 0 <= t < |ledger| && 0 <= k < |ledger[t]|
                   && ledger[t][k].sellerOrder == Some(order) && ledger[t][k].reason == reason
  }

  /** seller-service's answer when asked for a commission rate. */
  datatype Rate = Known(bps: int) | NoContract | Unavailable

  datatype Request =
    | BookDelivery(seller: Id, order: Id, collected: int, rate: Rate)
    | BookSettlement(seller: Id, order: Id, remitted: int)
    | BookPayout(seller: Id, amount: int)

  datatype Booked = Booked(ledger: Ledger, status: int, owedDelta: int)

  function Write(ledger: Ledger, plan: Option<Transaction>, delta: int): Booked {
    if plan.None? || plan.value == [] || Total(plan.value) != 0 then Booked(ledger, UNPROCESSABLE, 0)
    else Booked(ledger + [plan.value], OK, delta)
  }

  const UNAVAILABLE := 503

  function Book(ledger: Ledger, q: Request): Booked {
    match q
    case BookDelivery(seller, order, collected, rate) =>
      if AlreadyBooked(ledger, order, Delivery) then Booked(ledger, OK, 0)
      else (match rate
            case Unavailable => Booked(ledger, UNAVAILABLE, 0)
            case NoContract => Booked(ledger, CONFLICT, 0)
            case Known(bps) =>
              var plan := PlanDelivery(seller, order, collected, bps);
              Write(ledger, plan, if plan.Some? then collected - Commission(collected, bps) else 0))
    case BookSettlement(seller, order, remitted) =>
      if AlreadyBooked(ledger, order, Settlement) then Booked(ledger, OK, 0)
      else Write(ledger, PlanSettlement(seller, order, remitted), 0)
    case BookPayout(seller, amount) => Write(ledger, PlanPayout(seller, amount), -amount)
  }

  function RunBooks(requests: seq<Request>): Ledger {
    if requests == [] then [] else Book(RunBooks(requests[..|requests| - 1]), requests[|requests| - 1]).ledger
  }

  class EscrowService {
    var ledger: Ledger

    constructor ()
      ensures ledger == []
    {
      ledger := [];
    }

    method IsBooked(order: Id, reason: Reason) returns (found: bool)
      ensures found == AlreadyBooked(ledger, order, reason)
    {
      found := false;
      var t := 0;
      while t < |ledger| && !found
        invariant 0 <= t <= |ledger|
        invariant found ==> AlreadyBooked(ledger, order, reason)
        invariant !found ==> forall u, k :: 0 <= u < t && 0 <= k < |ledger[u]| ==>
                    !(ledger[u][k].sellerOrder == Some(order) && ledger[u][k].reason == reason)
      {
        var k := 0;
        while k < |ledger[t]| && !found
          invariant 0 <= k <= |ledger[t]|
          invariant found ==> AlreadyBooked(ledger, order, reason)
          invariant !found ==> forall j :: 0 <= j < k ==>
                      !(ledger[t][j].sellerOrder == Some(order) && ledger[t][j].reason == reason)
        {
          if ledger[t][k].sellerOrder == Some(order) && ledger[t][k].reason == reason { found := true; }
          k := k + 1;
        }
        t := t + 1;
      }
    }

    /** Persist one balanced transaction, or refuse it. */
    method WriteEntries(entries: Transaction) returns (ok: bool)
      modifies this
      ensures ok <==> entries != [] && Total(entries) == 0
      ensures ledger == if ok then old(ledger) + [entries] else old(ledger)
    {
      var total := 0;
      for i := 0 to |entries|
        invariant total == Sum(entries[..i], Amount())
      {
        assert entries[..i + 1][..i] == entries[..i];
        total := total + entries[i].amount;
      }
      assert entries[..|entries|] == entries;
      ok := entries != [] && total == 0;
      if ok { ledger := ledger + [entries]; }
    }

    method BookEscrow(q: Request) returns (status: int, owedDelta: int)
      modifies this
      ensures Booked(ledger, status, owedDelta) == Book(old(ledger), q)
    {
      var plan: Option<Transaction> := None;
      var delta := 0;
      match q {
        case BookDelivery(seller, order, collected, rate) =>
          var booked := IsBooked(order, Delivery);
          if booked { return OK, 0; }
          if rate.Unavailable? { return UNAVAILABLE, 0; }
          if rate.NoContract? { return CONFLICT, 0; }
          plan := PlanDelivery(seller, order, collected, rate.bps);
          if plan.Some? { delta := collected - Commission(collected, rate.bps); }
        case BookSettlement(seller, order, remitted) =>
          var booked := IsBooked(order, Settlement);
          if booked { return OK, 0; }
          plan := PlanSettlement(seller, order, remitted);
        case BookPayout(seller, amount) =>
          plan := PlanPayout(seller, amount);
          delta := -amount;
      }
      if plan.None? { return UNPROCESSABLE, 0; }
      var ok := WriteEntries(plan.value);
      if !ok { return UNPROCESSABLE, 0; }
      return OK, delta;
    }
  }

  /* ---------- each plan ---------- */

  lemma {:induction false} SumOfTwo(a: Entry, b: Entry, f: Entry -> int)
    ensures Sum([a, b], f) == f(a) + f(b)
  {
    assert [a, b][..1] == [a];
    assert Sum([a], f) == Sum([a][..0], f) + f(a);
  }

  lemma {:induction false} SumOfThree(a: Entry, b: Entry, c: Entry, f: Entry -> int)
    ensures Sum([a, b, c], f) == f(a) + f(b) + f(c)
  {
    assert [a, b, c][..2] == [a, b];
    SumOfTwo(a, b, f);
  }

  /** A floor of a share between nothing and everything. */
  lemma {:induction false} CommissionIsAShare(amount: int, bps: int)
    requires amount >= 0 && RateOk(bps)
    ensures 0 <= Commission(amount, bps) <= amount
  {
    assert amount * bps <= amount * 10000;
  }

  /** The exact share in basis points, rounded down to a minor unit. */
  lemma {:induction false} CommissionIsRoundedDown(amount: int, bps: int)
    requires amount >= 0 && RateOk(bps)
    ensures 10000 * Commission(amount, bps) <= amount * bps < 10000 * (Commission(amount, bps) + 1)
  {
  }

  lemma {:induction false} SumOfDelivery(seller: Id, order: Id, collected: int, bps: int, f: Entry -> int)
    requires PlanDelivery(seller, order, collected, bps).Some?
    requires f(Entry(CommissionRevenue, 0, Delivery, seller, Some(order))) == 0
    ensures var commission := Commission(collected, bps);
            Sum(PlanDelivery(seller, order, collected, bps).value, f) ==
            f(Entry(CourierReceivable, collected, Delivery, seller, Some(order)))
            + f(Entry(SellerPayable, -(collected - commission), Delivery, seller, Some(order)))
            + f(Entry(CommissionRevenue, -commission, Delivery, seller, Some(order)))
  {
    var commission := Commission(collected, bps);
    var a := Entry(CourierReceivable, collected, Delivery, seller, Some(order));
    var b := Entry(SellerPayable, -(collected - commission), Delivery, seller, Some(order));
    var c := Entry(CommissionRevenue, -commission, Delivery, seller, Some(order));
    if commission == 0 {
      SumOfTwo(a, b, f);
    } else {
      assert [a, b] + [c] == [a, b, c];
      SumOfThree(a, b, c, f);
    }
  }

  /** A delivery balances: the courier owes what was collected, the seller is credited that less commission. */
  lemma {:induction false} DeliveryBalances(seller: Id, order: Id, collected: int, bps: int, anyone: Id)
    requires PlanDelivery(seller, order, collected, bps).Some?
    ensures var commission := Commission(collected, bps);
            SheetOf(PlanDelivery(seller, order, collected, bps).value, anyone) ==
            Sheet(0, if anyone == seller then collected - commission else 0, collected, 0, commission)
  {
    SumOfDelivery(seller, order, collected, bps, Amount());
    SumOfDelivery(seller, order, collected, bps, OwedTo(anyone));
    SumOfDelivery(seller, order, collected, bps, In(CourierReceivable));
    SumOfDelivery(seller, order, collected, bps, In(Cash));
    SumOfDelivery(seller, order, collected, bps, In(CommissionRevenue));
  }

  lemma {:induction false} SheetOfTwo(a: Entry, b: Entry, anyone: Id)
    ensures SheetOf([a, b], anyone) ==
            Sheet(a.amount + b.amount, OwedTo(anyone)(a) + OwedTo(anyone)(b),
                  In(CourierReceivable)(a) + In(CourierReceivable)(b), In(Cash)(a) + In(Cash)(b),
                  -(In(CommissionRevenue)(a) + In(CommissionRevenue)(b)))
  {
    SumOfTwo(a, b, Amount());
    SumOfTwo(a, b, OwedTo(anyone));
    SumOfTwo(a, b, In(CourierReceivable));
    SumOfTwo(a, b, In(Cash));
    SumOfTwo(a, b, In(CommissionRevenue));
  }

  /** A settlement turns a courier's debt into cash and owes nobody more or less. */
  lemma {:induction false} SettlementBalances(seller: Id, order: Id, remitted: int, anyone: Id)
    requires PlanSettlement(seller, order, remitted).Some?
    ensures SheetOf(PlanSettlement(seller, order, remitted).value, anyone) == Sheet(0, 0, -remitted, remitted, 0)
  {
    var t := PlanSettlement(seller, order, remitted).value;
    SheetOfTwo(t[0], t[1], anyone);
  }

  /** A payout pays a seller's debt out of cash. */
  lemma {:induction false} PayoutBalances(seller: Id, amount: int, anyone: Id)
    requires PlanPayout(seller, amount).Some?
    ensures SheetOf(PlanPayout(seller, amount).value, anyone) ==
            Sheet(0, if anyone == seller then -amount else 0, 0, -amount, 0)
  {
    var t := PlanPayout(seller, amount).value;
    SheetOfTwo(t[0], t[1], anyone);
  }

  /* ---------- every run ---------- */

  /** What each request should do, told without a ledger: which seller orders were delivered and settled so far, and
      what every account should hold. */
  datatype Running = Running(delivered: set<Id>, settled: set<Id>, sheet: Sheet)

  function Expect(a: Running, q: Request, seller: Id): Running {
    match q
    case BookDelivery(s, order, collected, rate) =>
      if order in a.delivered || !rate.Known? || collected <= 0 || !RateOk(rate.bps) then a
      else
        var commission := Commission(collected, rate.bps);
        var share := if s == seller then collected - commission else 0;
        a.(delivered := a.delivered + {order},
           sheet := Plus(a.sheet, Sheet(0, share, collected, 0, commission)))
    case BookSettlement(_, order, remitted) =>
      if order in a.settled || remitted <= 0 then a
      else a.(settled := a.settled + {order}, sheet := Plus(a.sheet, Sheet(0, 0, -remitted, remitted, 0)))
    case BookPayout(s, amount) =>
      if amount <= 0 then a
      else a.(sheet := Plus(a.sheet, Sheet(0, if s == seller then -amount else 0, 0, -amount, 0)))
  }

  function Expected(requests: seq<Request>, seller: Id): Running {
    if requests == [] then Running({}, {}, Nothing)
    else Expect(Expected(requests[..|requests| - 1], seller), requests[|requests| - 1], seller)
  }

  ghost predicate IsSetBooked(ledger: Ledger, orders: set<Id>, reason: Reason) {
    forall order :: order in orders <==> AlreadyBooked(ledger, order, reason)
  }

  /** The ledger agrees with the running account. */
  ghost predicate Agrees(ledger: Ledger, a: Running, seller: Id) {
    && IsSetBooked(ledger, a.delivered, Delivery)
    && IsSetBooked(ledger, a.settled, Settlement)
    && Balances(ledger, seller) == a.sheet
  }

  /** Every entry of the transaction is about this seller order, for this reason. */
  predicate About(t: Transaction, order: Option<Id>, reason: Reason) {
    t != [] && forall k :: 0 <= k < |t| ==> t[k].sellerOrder == order && t[k].reason == reason
  }

  lemma {:induction false} BookedAfter(ledger: Ledger, t: Transaction, about: Option<Id>, why: Reason, order: Id,
                                       reason: Reason)
    requires About(t, about, why)
    ensures AlreadyBooked(ledger + [t], order, reason) <==>
              AlreadyBooked(ledger, order, reason) || (about == Some(order) && why == reason)
  {
    var after: Ledger := ledger + [t];
    if AlreadyBooked(ledger, order, reason) {
      var u, k :| 0 <= u < |ledger| && 0 <= k < |ledger[u]|
                  && ledger[u][k].sellerOrder == Some(order) && ledger[u][k].reason == reason;
      assert after[u][k].sellerOrder == Some(order);
    }
    if about == Some(order) && why == reason {
      assert after[|ledger|][0].sellerOrder == Some(order);
    }
  }

  lemma {:induction false} BookedSetAfter(ledger: Ledger, t: Transaction, about: Option<Id>, why: Reason,
                                          orders: set<Id>, reason: Reason)
    requires About(t, about, why) && IsSetBooked(ledger, orders, reason)
    ensures IsSetBooked(ledger + [t], if why == reason && about.Some? then orders + {about.value} else orders, reason)
  {
    forall o ensures AlreadyBooked(ledger + [t], o, reason) <==>
                       AlreadyBooked(ledger, o, reason) || (about == Some(o) && why == reason)
    {
      BookedAfter(ledger, t, about, why, o, reason);
    }
  }

  /** Appending a transaction moves the running account by its sheet and marks what it is about. */
  lemma {:induction false} AppendAgrees(ledger: Ledger, a: Running, seller: Id, t: Transaction, about: Option<Id>,
                                        why: Reason)
    requires Agrees(ledger, a, seller) && About(t, about, why)
    ensures Agrees(ledger + [t],
                   Running(if why.Delivery? && about.Some? then a.delivered + {about.value} else a.delivered,
                           if why.Settlement? && about.Some? then a.settled + {about.value} else a.settled,
                           Plus(a.sheet, SheetOf(t, seller))), seller)
  {
    BookedSetAfter(ledger, t, about, why, a.delivered, Delivery);
    BookedSetAfter(ledger, t, about, why, a.settled, Settlement);
    assert (ledger + [t])[..|ledger|] == ledger;
  }

  lemma {:induction false} PlanIsAboutItsOrder(seller: Id, order: Id, collected: int, bps: int)
    requires PlanDelivery(seller, order, collected, bps).Some?
    ensures About(PlanDelivery(seller, order, collected, bps).value, Some(order), Delivery)
  {
  }

  lemma {:induction false} DeliveryAppended(ledger: Ledger, a: Running, seller: Id, s: Id, order: Id, collected: int,
                                            bps: int)
    requires Agrees(ledger, a, seller) && order !in a.delivered && PlanDelivery(s, order, collected, bps).Some?
    ensures Agrees(ledger + [PlanDelivery(s, order, collected, bps).value],
                   Expect(a, BookDelivery(s, order, collected, Known(bps)), seller), seller)
  {
    PlanIsAboutItsOrder(s, order, collected, bps);
    DeliveryBalances(s, order, collected, bps, seller);
    AppendAgrees(ledger, a, seller, PlanDelivery(s, order, collected, bps).value, Some(order), Delivery);
  }

  lemma {:induction false} DeliveryWritten(ledger: Ledger, q: Request)
    requires q.BookDelivery? && !AlreadyBooked(ledger, q.order, Delivery) && q.rate.Known?
    requires PlanDelivery(q.seller, q.order, q.collected, q.rate.bps).Some?
    ensures Book(ledger, q).ledger == ledger + [PlanDelivery(q.seller, q.order, q.collected, q.rate.bps).value]
  {
    DeliveryBalances(q.seller, q.order, q.collected, q.rate.bps, q.seller);
  }

  lemma {:induction false} BookDeliveryMeets(ledger: Ledger, a: Running, q: Request, seller: Id)
    requires q.BookDelivery? && Agrees(ledger, a, seller)
    ensures Agrees(Book(ledger, q).ledger, Expect(a, q, seller), seller)
  {
    if q.order !in a.delivered && q.rate.Known? && PlanDelivery(q.seller, q.order, q.collected, q.rate.bps).Some? {
      DeliveryAppended(ledger, a, seller, q.seller, q.order, q.collected, q.rate.bps);
      DeliveryWritten(ledger, q);
    } else {
      assert Book(ledger, q).ledger == ledger && Expect(a, q, seller) == a;
    }
  }

  lemma {:induction false} BookSettlementMeets(ledger: Ledger, a: Running, q: Request, seller: Id)
    requires q.BookSettlement? && Agrees(ledger, a, seller)
    ensures Agrees(Book(ledger, q).ledger, Expect(a, q, seller), seller)
  {
    if q.order !in a.settled && q.remitted > 0 {
      var t := PlanSettlement(q.seller, q.order, q.remitted).value;
      SettlementBalances(q.seller, q.order, q.remitted, seller);
      assert Book(ledger, q).ledger == ledger + [t];
      AppendAgrees(ledger, a, seller, t, Some(q.order), Settlement);
      assert Agrees(ledger + [t], Expect(a, q, seller), seller);
    } else {
      assert Book(ledger, q).ledger == ledger && Expect(a, q, seller) == a;
    }
  }

  lemma {:induction false} BookPayoutMeets(ledger: Ledger, a: Running, q: Request, seller: Id)
    requires q.BookPayout? && Agrees(ledger, a, seller)
    ensures Agrees(Book(ledger, q).ledger, Expect(a, q, seller), seller)
  {
    if q.amount > 0 {
      PayoutBalances(q.seller, q.amount, seller);
      AppendAgrees(ledger, a, seller, PlanPayout(q.seller, q.amount).value, None, Payout);
    }
  }

  lemma {:induction false} BookMeetsExpectation(ledger: Ledger, a: Running, q: Request, seller: Id)
    requires Agrees(ledger, a, seller)
    ensures Agrees(Book(ledger, q).ledger, Expect(a, q, seller), seller)
  {
    match q
    case BookDelivery(_, _, _, _) => BookDeliveryMeets(ledger, a, q, seller);
    case BookSettlement(_, _, _) => BookSettlementMeets(ledger, a, q, seller);
    case BookPayout(_, _) => BookPayoutMeets(ledger, a, q, seller);
  }

  lemma {:induction false} BooksMeetExpectation(requests: seq<Request>, seller: Id)
    ensures Agrees(RunBooks(requests), Expected(requests, seller), seller)
  {
    if requests != [] {
      var front := requests[..|requests| - 1];
      BooksMeetExpectation(front, seller);
      BookMeetsExpectation(RunBooks(front), Expected(front, seller), requests[|requests| - 1], seller);
    }
  }

  lemma {:induction false} ExpectedBalances(requests: seq<Request>, seller: Id)
    ensures var s := Expected(requests, seller).sheet; s.total == 0
  {
    if requests != [] { ExpectedBalances(requests[..|requests| - 1], seller); }
  }

  /* ---------- the same in closed form ---------- */

  /** A delivery that is booked unless its seller order already was. */
  predicate Bookable(q: Request) { q.BookDelivery? && q.rate.Known? && q.collected > 0 && RateOk(q.rate.bps) }
  predicate Remits(q: Request) { q.BookSettlement? && q.remitted > 0 }

  predicate DeliveredBy(requests: seq<Request>, n: nat, order: Id)
    requires n <= |requests|
  {
    exists i :: 0 <= i < n && Bookable(requests[i]) && requests[i].order == order
  }

  predicate SettledBy(requests: seq<Request>, n: nat, order: Id)
    requires n <= |requests|
  {
    exists i :: 0 <= i < n && Remits(requests[i]) && requests[i].order == order
  }

  /** What the i-th request adds: a delivery or a settlement only if it is the first of its seller order. */
  function Part(requests: seq<Request>, i: nat, seller: Id): Sheet
    requires i < |requests|
  {
    var q := requests[i];
    if Bookable(q) && !DeliveredBy(requests, i, q.order) then
      var commission := Commission(q.collected, q.rate.bps);
      Sheet(0, if q.seller == seller then q.collected - commission else 0, q.collected, 0, commission)
    else if Remits(q) && !SettledBy(requests, i, q.order) then Sheet(0, 0, -q.remitted, q.remitted, 0)
    else if q.BookPayout? && q.amount > 0 then Sheet(0, if q.seller == seller then -q.amount else 0, 0, -q.amount, 0)
    else Nothing
  }

  function Parts(requests: seq<Request>, n: nat, seller: Id): Sheet
    requires n <= |requests|
  {
    if n == 0 then Nothing else Plus(Parts(requests, n - 1, seller), Part(requests, n - 1, seller))
  }

  ghost predicate SumsUp(a: Running, requests: seq<Request>, n: nat, seller: Id)
    requires n <= |requests|
  {
    && a.sheet == Parts(requests, n, seller)
    && (forall order :: order in a.delivered <==> DeliveredBy(requests, n, order))
    && (forall order :: order in a.settled <==> SettledBy(requests, n, order))
  }

  lemma {:induction false} OneMoreRequest(a: Running, requests: seq<Request>, n: nat, seller: Id)
    requires n < |requests| && SumsUp(a, requests, n, seller)
    ensures SumsUp(Expect(a, requests[n], seller), requests, n + 1, seller)
  {
    var q := requests[n];
    forall order ensures DeliveredBy(requests, n + 1, order) <==>
                           DeliveredBy(requests, n, order) || (Bookable(q) && q.order == order) {}
    forall order ensures SettledBy(requests, n + 1, order) <==>
                           SettledBy(requests, n, order) || (Remits(q) && q.order == order) {}
  }

  lemma {:induction false} ExpectedSumsUp(requests: seq<Request>, n: nat, seller: Id)
    requires n <= |requests|
    ensures SumsUp(Expected(requests[..n], seller), requests, n, seller)
  {
    if n > 0 {
      ExpectedSumsUp(requests, n - 1, seller);
      assert requests[..n][..n - 1] == requests[..n - 1];
      OneMoreRequest(Expected(requests[..n - 1], seller), requests, n - 1, seller);
    }
  }

  /** After any run of bookings, repeats and refusals included: the whole ledger sums to zero; each seller is owed
      collected less commission over distinct delivered seller orders, less payouts; couriers owe what was collected
      less what they remitted, each settlement once; cash is remittances less payouts; revenue is the commissions. */
  lemma {:induction false} BooksAreRight(requests: seq<Request>, seller: Id)
    ensures Balances(RunBooks(requests), seller) == Expected(requests, seller).sheet
    ensures Balances(RunBooks(requests), seller) == Parts(requests, |requests|, seller)
    ensures Balances(RunBooks(requests), seller).total == 0
    ensures IsSetBooked(RunBooks(requests), Expected(requests, seller).delivered, Delivery)
    ensures IsSetBooked(RunBooks(requests), Expected(requests, seller).settled, Settlement)
  {
    BooksMeetExpectation(requests, seller);
    ExpectedBalances(requests, seller);
    ExpectedSumsUp(requests, |requests|, seller);
    assert requests[..|requests|] == requests;
  }

  /** The amounts of the request are ones the books can take. */
  predicate Amounts(q: Request) {
    match q
    case BookDelivery(_, _, collected, rate) => collected > 0 && rate.Known? && 0 <= rate.bps <= 10000
    case BookSettlement(_, _, remitted) => remitted > 0
    case BookPayout(_, amount) => amount > 0
  }

  /** The same was booked before, told from the requests. */
  predicate Repeats(requests: seq<Request>, q: Request) {
    match q
    case BookDelivery(_, order, _, _) => DeliveredBy(requests, |requests|, order)
    case BookSettlement(_, order, _) => SettledBy(requests, |requests|, order)
    case BookPayout(_, _) => false
  }

  lemma {:induction false} RepeatsIsBooked(requests: seq<Request>, q: Request)
    ensures q.BookDelivery? ==> (Repeats(requests, q) <==> AlreadyBooked(RunBooks(requests), q.order, Delivery))
    ensures q.BookSettlement? ==> (Repeats(requests, q) <==> AlreadyBooked(RunBooks(requests), q.order, Settlement))
  {
    BooksMeetExpectation(requests, "");
    ExpectedSumsUp(requests, |requests|, "");
    assert requests[..|requests|] == requests;
  }

  /** How a booking is answered after any run: a repeat with 200, a delivery whose rate nobody gave with 503, one
      without a contract with 409, amounts the books cannot take with 422, and anything else with 200. Exactly the
      bookings answered 200 that are no repeats add a transaction. */
  lemma {:induction false} BookingIsAnswered(requests: seq<Request>, q: Request)
    ensures var ledger := RunBooks(requests);
            var b, again := Book(ledger, q), Repeats(requests, q);
            && (b.status == OK <==> again || Amounts(q))
            && (b.status == UNAVAILABLE <==> q.BookDelivery? && !again && q.rate.Unavailable?)
            && (b.status == CONFLICT <==> q.BookDelivery? && !again && q.rate.NoContract?)
            && (b.status == UNPROCESSABLE <==> !again && !Amounts(q) && (q.BookDelivery? ==> q.rate.Known?))
            && (if again || !Amounts(q) then b.ledger == ledger && b.owedDelta == 0
                else |b.ledger| == |ledger| + 1 && b.ledger[..|ledger|] == ledger)
  {
    RepeatsIsBooked(requests, q);
    match q
    case BookDelivery(seller, order, collected, rate) =>
      if Amounts(q) { DeliveryBalances(seller, order, collected, rate.bps, seller); }
    case BookSettlement(seller, order, remitted) =>
      if Amounts(q) { SettlementBalances(seller, order, remitted, seller); }
    case BookPayout(seller, amount) => if Amounts(q) { PayoutBalances(seller, amount, seller); }
  }

  /** Each committed transaction balances on its own. */
  lemma {:induction false} EveryTransactionBalances(requests: seq<Request>)
    ensures forall i :: 0 <= i < |RunBooks(requests)| ==> Total(RunBooks(requests)[i]) == 0
  {
    if requests != [] { EveryTransactionBalances(requests[..|requests| - 1]); }
  }

  lemma {:induction false} DeltaIsExpected(ledger: Ledger, a: Running, q: Request)
    requires Agrees(ledger, a, q.seller)
    ensures Expect(a, q, q.seller).sheet.owed == a.sheet.owed + Book(ledger, q).owedDelta
  {
    match q
    case BookDelivery(seller, order, collected, rate) =>
      if rate.Known? && PlanDelivery(seller, order, collected, rate.bps).Some? {
        DeliveryBalances(seller, order, collected, rate.bps, seller);
      }
    case BookSettlement(seller, order, remitted) =>
    case BookPayout(seller, amount) => if amount > 0 { PayoutBalances(seller, amount, seller); }
  }

  /** The delta reported to the caller is the change in what the seller is owed. */
  lemma {:induction false} ReportedDeltaIsReal(requests: seq<Request>, q: Request)
    ensures var before := RunBooks(requests);
            var b := Book(before, q);
            Balances(b.ledger, q.seller).owed == Balances(before, q.seller).owed + b.owedDelta
  {
    var before, a := RunBooks(requests), Expected(requests, q.seller);
    BooksMeetExpectation(requests, q.seller);
    BookMeetsExpectation(before, a, q, q.seller);
    DeltaIsExpected(before, a, q);
  }

  /* ---------- rounding ---------- */

  /** Bookings of distinct deliveries, all at one rate. */
  predicate AtOneRate(requests: seq<Request>, bps: int) {
    && (forall i :: 0 <= i < |requests| ==>
          requests[i].BookDelivery? && requests[i].rate == Known(bps) && requests[i].collected > 0)
    && (forall i, j :: 0 <= i < j < |requests| ==> requests[i].order != requests[j].order)
  }

  function Collected(requests: seq<Request>): int
    requires forall i :: 0 <= i < |requests| ==> requests[i].BookDelivery?
  {
    if requests == [] then 0 else Collected(requests[..|requests| - 1]) + requests[|requests| - 1].collected
  }

  function Orders(requests: seq<Request>): set<Id>
    requires forall i :: 0 <= i < |requests| ==> requests[i].BookDelivery?
  {
    set i | 0 <= i < |requests| :: requests[i].order
  }

  lemma {:induction false} DeliveredAreTheOrders(requests: seq<Request>, bps: int, seller: Id)
    requires AtOneRate(requests, bps) && RateOk(bps)
    ensures Expected(requests, seller).delivered == Orders(requests)
  {
    if requests != [] {
      var n := |requests| - 1;
      DeliveredAreTheOrders(requests[..n], bps, seller);
      assert Orders(requests) == Orders(requests[..n]) + {requests[n].order};
    }
  }

  /** Commission recognised by the whole ledger. */
  function Revenue(ledger: Ledger): int { Balances(ledger, "").revenue }

  /** Each distinct delivery adds its own commission to the revenue. */
  lemma {:induction false} RevenueGrows(requests: seq<Request>, bps: int)
    requires requests != [] && AtOneRate(requests, bps) && RateOk(bps)
    ensures Revenue(RunBooks(requests)) ==
            Revenue(RunBooks(requests[..|requests| - 1])) + Commission(requests[|requests| - 1].collected, bps)
  {
    var n := |requests| - 1;
    DeliveredAreTheOrders(requests[..n], bps, "");
    assert requests[n].order !in Orders(requests[..n]);
    BooksMeetExpectation(requests[..n], "");
    BooksMeetExpectation(requests, "");
  }

  /** Floors against the floor of the sum: what n floors dropped is between nothing and 9999 for each. */
  predicate Dropped(sum: int, whole: int, rest: int, n: nat, bps: int) {
    sum >= 0 && sum * bps == 10000 * whole + rest && 0 <= rest <= 9999 * n
  }

  lemma {:induction false} DropOneMore(sum: int, whole: int, rest: int, n: nat, sum': int, whole': int, bps: int)
    returns (rest': int)
    requires Dropped(sum, whole, rest, n, bps) && sum <= sum' && RateOk(bps)
    requires whole' == whole + Commission(sum' - sum, bps)
    ensures Dropped(sum', whole', rest', n + 1, bps)
  {
    var product := (sum' - sum) * bps;
    rest' := rest + product % 10000;
    assert product == 10000 * (product / 10000) + product % 10000;
    assert sum' * bps == sum * bps + product;
  }

  lemma {:induction false} RemaindersAddUp(requests: seq<Request>, bps: int) returns (rest: int)
    requires AtOneRate(requests, bps) && RateOk(bps)
    ensures Dropped(Collected(requests), Revenue(RunBooks(requests)), rest, |requests|, bps)
  {
    if requests == [] {
      rest := 0;
    } else {
      var front := requests[..|requests| - 1];
      var before := RemaindersAddUp(front, bps);
      RevenueGrows(requests, bps);
      rest := DropOneMore(Collected(front), Revenue(RunBooks(front)), before, |front|,
                          Collected(requests), Revenue(RunBooks(requests)), bps);
    }
  }

  lemma {:induction false} FloorWithin(sum: int, whole: int, rest: int, n: nat, bps: int)
    requires Dropped(sum, whole, rest, n, bps) && n >= 1 && RateOk(bps)
    ensures whole <= Commission(sum, bps) <= whole + n - 1
  {
    var product := sum * bps;
    assert product == 10000 * whole + rest;
  }

  /** For n distinct deliveries at one rate the commission booked never exceeds the commission on the sum, and falls
      short of it by at most n - 1 minor units. */
  lemma {:induction false} RoundingLossIsBounded(requests: seq<Request>, bps: int)
    requires requests != [] && AtOneRate(requests, bps) && RateOk(bps)
    ensures Collected(requests) >= 0
    ensures var booked, whole := Revenue(RunBooks(requests)), Commission(Collected(requests), bps);
            booked <= whole <= booked + |requests| - 1
  {
    var rest := RemaindersAddUp(requests, bps);
    FloorWithin(Collected(requests), Revenue(RunBooks(requests)), rest, |requests|, bps);
  }
}
