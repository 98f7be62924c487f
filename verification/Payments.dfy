/** payment-service's card ledger: charges guarded by an idempotency key, refunds guarded by the ledger itself. */
module Payments {
  import opened Basics
  import opened Sequences

  datatype RowStatus = Success | Declined | Refunded | RefundNoop

  /** One append-only payment_ledger row. */
  datatype Row = Row(order: Id, amount: int, status: RowStatus)

  datatype Event = PaymentCharged | PaymentFailed | PaymentRefunded

  /** Rows, the row each idempotency key returned, and the events emitted for each order. */
  datatype Books = Books(rows: seq<Row>, keys: map<string, nat>, outbox: seq<(Id, Event)>)

  datatype Reply = Reply(books: Books, status: int, refundedCents: int)

  const CREATED := 201

  /* ---------- charge_rules and refund_rules ---------- */

  datatype Idempotency = Proceed | ReturnCached | RetryLater

  function ResolveIdempotency(inserted: bool, stored: Option<nat>, found: bool): Idempotency {
    if inserted then Proceed else if stored.Some? && found then ReturnCached else RetryLater
  }

  function Authorize(token: string): RowStatus { if token == "tok_fail" then Declined else Success }

  datatype RefundPlan = RefundPlan(append: Option<RowStatus>, amount: int, refundedCents: int)

  function Magnitude(x: int): int { if x < 0 then -x else x }

  function PlanRefund(prior: Option<Row>, charge: Option<Row>): RefundPlan {
    if prior.Some? then RefundPlan(None, 0, Magnitude(prior.value.amount))
    else if charge.None? then RefundPlan(Some(RefundNoop), 0, 0)
    else RefundPlan(Some(Refunded), -charge.value.amount, charge.value.amount)
  }

  predicate Settled(r: Row) { r.status.Refunded? || r.status.RefundNoop? }

  /* ---------- the calls ---------- */

  function OfKind(order: Id, status: RowStatus): Row -> bool { (r: Row) => r.order == order && r.status == status }
  function SettledFor(order: Id): Row -> bool { (r: Row) => r.order == order && Settled(r) }

  function Charges(b: Books, order: Id): seq<Row> { Filter(b.rows, OfKind(order, Success)) }
  function Settlements(b: Books, order: Id): seq<Row> { Filter(b.rows, SettledFor(order)) }

  function Charge(b: Books, order: Id, amount: int, token: string, key: string): Reply {
    if amount < 1 then Reply(b, UNPROCESSABLE, 0)
    else
      var stored := if key in b.keys then Some(b.keys[key]) else None;
      match ResolveIdempotency(key !in b.keys, stored, stored.Some? && stored.value < |b.rows|)
      case ReturnCached => Reply(b, CREATED, 0)
      case RetryLater => Reply(b, CONFLICT, 0)
      case Proceed =>
        var status := Authorize(token);
        Reply(Books(b.rows + [Row(order, amount, status)], b.keys[key := |b.rows|],
                    b.outbox + [(order, if status.Success? then PaymentCharged else PaymentFailed)]), CREATED, 0)
  }

  /** Asking for the one charge raises when there are several. */
  function Refund(b: Books, order: Id): Reply {
    var prior, charges := Settlements(b, order), Charges(b, order);
    if |charges| > 1 then Reply(b, SERVER_ERROR, 0)
    else
      var plan := PlanRefund(if prior == [] then None else Some(prior[0]),
                             if charges == [] then None else Some(charges[0]));
      if plan.append.None? then Reply(b, OK, plan.refundedCents)
      else Reply(b.(rows := b.rows + [Row(order, plan.amount, plan.append.value)],
                    outbox := b.outbox + [(order, PaymentRefunded)]), OK, plan.refundedCents)
  }

  class PaymentService {
    var rows: seq<Row>
    var keys: map<string, nat>
    var outbox: seq<(Id, Event)>

    function Db(): Books
      reads this
    {
      Books(rows, keys, outbox)
    }

    constructor ()
      ensures Db() == Books([], map[], [])
    {
      rows, keys, outbox := [], map[], [];
    }

    method Select(q: Row -> bool) returns (found: seq<Row>)
      ensures found == Filter(rows, q)
    {
      found := [];
      for i := 0 to |rows|
        invariant found == Filter(rows[..i], q)
      {
        assert rows[..i + 1][..i] == rows[..i];
        if q(rows[i]) { found := found + [rows[i]]; }
      }
      assert rows[..|rows|] == rows;
    }

    method ProcessCharge(order: Id, amount: int, token: string, key: string) returns (status: int)
      modifies this
      ensures Reply(Db(), status, 0) == Charge(old(Db()), order, amount, token, key)
    {
      if amount < 1 { return UNPROCESSABLE; }
      if key in keys {
        return if keys[key] < |rows| then CREATED else CONFLICT;
      }
      var outcome := Authorize(token);
      keys := keys[key := |rows|];
      rows := rows + [Row(order, amount, outcome)];
      outbox := outbox + [(order, if outcome.Success? then PaymentCharged else PaymentFailed)];
      return CREATED;
    }

    method ProcessRefund(order: Id) returns (status: int, refundedCents: int)
      modifies this
      ensures Reply(Db(), status, refundedCents) == Refund(old(Db()), order)
    {
      var prior := Select(SettledFor(order));
      var charges := Select(OfKind(order, Success));
      if |charges| > 1 { return SERVER_ERROR, 0; }
      if prior != [] { return OK, Magnitude(prior[0].amount); }
      if charges == [] {
        rows := rows + [Row(order, 0, RefundNoop)];
        refundedCents := 0;
      } else {
        rows := rows + [Row(order, -charges[0].amount, Refunded)];
        refundedCents := charges[0].amount;
      }
      outbox := outbox + [(order, PaymentRefunded)];
      status := OK;
    }
  }

  /* ---------- runs ---------- */

  datatype Step = ChargeRequest(order: Id, amount: int, token: string, key: string) | RefundRequest(order: Id)

  function Take(b: Books, s: Step): Books {
    match s
    case ChargeRequest(order, amount, token, key) => Charge(b, order, amount, token, key).books
    case RefundRequest(order) => Refund(b, order).books
  }

  function Run(steps: seq<Step>): Books {
    if steps == [] then Books([], map[], []) else Take(Run(steps[..|steps| - 1]), steps[|steps| - 1])
  }

  /** What an entry contributes to an order's net position: charges that went through and their settlements. */
  function Nets(order: Id): Row -> int {
    (r: Row) => if r.order == order && !r.status.Declined? then r.amount else 0
  }

  function Amounts(): Row -> int { (r: Row) => r.amount }

  function Net(b: Books, order: Id): int { Sum(b.rows, Nets(order)) }
  function ChargedTotal(b: Books, order: Id): int { Sum(Charges(b, order), Amounts()) }

  predicate WasRefunded(b: Books, order: Id) {
    Settlements(b, order) != [] && Settlements(b, order)[0].status.Refunded?
  }

  /** The position of one order, told from its charges and its one settlement. */
  predicate Position(b: Books, order: Id) {
    && |Settlements(b, order)| <= 1
    && (WasRefunded(b, order) ==> Charges(b, order) != [])
    && (|Charges(b, order)| <= 1 ==>
          Net(b, order) == if WasRefunded(b, order) then 0 else ChargedTotal(b, order))
  }

  lemma {:induction false} AppendRow(b: Books, c: Books, x: Row, order: Id)
    requires c.rows == b.rows + [x]
    ensures Charges(c, order) == Charges(b, order) + if x.order == order && x.status.Success? then [x] else []
    ensures Settlements(c, order) == Settlements(b, order) + if x.order == order && Settled(x) then [x] else []
    ensures Net(c, order) == Net(b, order) + Nets(order)(x)
  {
    assert c.rows[..|b.rows|] == b.rows;
  }

  lemma {:induction false} OneAmount(r: Row)
    ensures Sum([r], Amounts()) == r.amount
  {
    assert [r][..0] == [];
  }

  lemma {:induction false} ChargeKeepsPosition(b: Books, order: Id, q: Step)
    requires q.ChargeRequest? && Position(b, order)
    ensures Position(Take(b, q), order)
  {
    var c := Take(b, q);
    if c != b {
      var x := c.rows[|b.rows|];
      AppendRow(b, c, x, order);
      if |Charges(c, order)| <= 1 && x.order == order && x.status.Success? {
        assert Charges(b, order) == [] && Charges(c, order) == [x];
        OneAmount(x);
        assert ChargedTotal(b, order) == 0;
      }
    }
  }

  lemma {:induction false} RefundKeepsPosition(b: Books, order: Id, other: Id)
    requires Position(b, other)
    ensures Position(Refund(b, order).books, other)
  {
    var c := Refund(b, order).books;
    if c != b {
      var x := c.rows[|b.rows|];
      AppendRow(b, c, x, other);
      if order == other && Charges(b, order) != [] {
        assert Charges(b, order) == [Charges(b, order)[0]];
        OneAmount(Charges(b, order)[0]);
      }
    }
  }

  lemma {:induction false} EveryRunHasAPosition(steps: seq<Step>, order: Id)
    ensures Position(Run(steps), order)
  {
    if steps != [] {
      var front, last := steps[..|steps| - 1], steps[|steps| - 1];
      EveryRunHasAPosition(front, order);
      match last
      case ChargeRequest(_, _, _, _) => ChargeKeepsPosition(Run(front), order, last);
      case RefundRequest(refunded) => RefundKeepsPosition(Run(front), refunded, order);
    }
  }

  /** Amounts of charges are positive. */
  lemma {:induction false} ChargesArePositive(steps: seq<Step>, i: nat)
    requires i < |Run(steps).rows| && !Settled(Run(steps).rows[i])
    ensures Run(steps).rows[i].amount >= 1
  {
    var front := steps[..|steps| - 1];
    if i < |Run(front).rows| {
      RowsOnlyGrow(Run(front), steps[|steps| - 1], i);
      ChargesArePositive(front, i);
    }
  }

  lemma {:induction false} RowsOnlyGrow(b: Books, s: Step, i: nat)
    requires i < |b.rows|
    ensures i < |Take(b, s).rows| && Take(b, s).rows[i] == b.rows[i]
  {
  }

  /** Over every run: an order is settled at most once, and with at most one successful charge its net is the charge
      or nothing, never less; it is nothing exactly when there was no charge or the charge was reversed. */
  lemma {:induction false} RefundIsSafe(steps: seq<Step>, order: Id)
    ensures var b := Run(steps);
            && |Settlements(b, order)| <= 1
            && (|Charges(b, order)| <= 1 ==>
                  && (Net(b, order) == 0 || Net(b, order) == ChargedTotal(b, order))
                  && Net(b, order) >= 0
                  && (Net(b, order) == 0 <==> Charges(b, order) == [] || WasRefunded(b, order)))
  {
    var b := Run(steps);
    EveryRunHasAPosition(steps, order);
    if |Charges(b, order)| == 1 {
      var r := Charges(b, order)[0];
      assert Charges(b, order) == [r];
      OneAmount(r);
      FilterMembers(b.rows, OfKind(order, Success), r);
      var i :| 0 <= i < |b.rows| && b.rows[i] == r;
      ChargesArePositive(steps, i);
    }
  }

  function EventOf(status: RowStatus): Event {
    match status
    case Success => PaymentCharged
    case Declined => PaymentFailed
    case _ => PaymentRefunded
  }

  /** Every ledger row is announced once, to its own order, as what it is. */
  lemma {:induction false} EveryRowIsAnnounced(steps: seq<Step>)
    ensures var b := Run(steps);
            && |b.outbox| == |b.rows|
            && forall i :: 0 <= i < |b.rows| ==> b.outbox[i] == (b.rows[i].order, EventOf(b.rows[i].status))
  {
    if steps != [] { EveryRowIsAnnounced(steps[..|steps| - 1]); }
  }

  /* ---------- nothing happens twice ---------- */

  lemma {:induction false} SettledStays(b: Books, order: Id)
    requires Refund(b, order).status == OK
    ensures Settlements(Refund(b, order).books, order) != []
  {
    var c := Refund(b, order).books;
    if c != b { AppendRow(b, c, c.rows[|b.rows|], order); }
  }

  /** A refund that has been answered is final: repeating it, at once or after anything else, appends nothing. */
  lemma {:induction false} RepeatedRefundAppendsNothing(b: Books, order: Id, steps: seq<Step>)
    requires Settlements(b, order) != []
    ensures var c := RunFrom(b, steps); Settlements(c, order) != [] && Refund(c, order).books == c
  {
    if steps != [] {
      var front := steps[..|steps| - 1];
      RepeatedRefundAppendsNothing(b, order, front);
      var c, d := RunFrom(b, front), RunFrom(b, steps);
      if d != c { AppendRow(c, d, d.rows[|c.rows|], order); }
    }
  }

  function RunFrom(b: Books, steps: seq<Step>): Books {
    if steps == [] then b else Take(RunFrom(b, steps[..|steps| - 1]), steps[|steps| - 1])
  }

  predicate KeysOk(b: Books) { forall k :: k in b.keys ==> b.keys[k] < |b.rows| }

  lemma {:induction false} KeysNameRows(b: Books, steps: seq<Step>)
    requires KeysOk(b)
    ensures KeysOk(RunFrom(b, steps))
    ensures forall k :: k in b.keys ==> k in RunFrom(b, steps).keys
  {
    if steps != [] { KeysNameRows(b, steps[..|steps| - 1]); }
  }

  /** A key that has charged once never charges again, whatever it carries and whatever happened in between. */
  lemma {:induction false} ReplayedKeyAppendsNothing(b: Books, steps: seq<Step>, order: Id, amount: int,
                                                     token: string, key: string)
    requires KeysOk(b) && key in b.keys
    ensures Charge(RunFrom(b, steps), order, amount, token, key).books == RunFrom(b, steps)
  {
    KeysNameRows(b, steps);
  }

  /* ---------- what the ledger does not give back ---------- */

  /** What a refund leaves, read off the books before the call: with at most one charge it is answered, and the order
      is square afterwards exactly when nothing was charged, nothing was settled yet, or the charge was reversed. */
  lemma {:induction false} RefundSquaresIff(steps: seq<Step>, order: Id)
    requires |Charges(Run(steps), order)| <= 1
    ensures var b := Run(steps);
            && Refund(b, order).status == OK
            && (Net(Refund(b, order).books, order) == 0 <==>
                  Charges(b, order) == [] || Settlements(b, order) == [] || WasRefunded(b, order))
  {
    var b, c := Run(steps), Refund(Run(steps), order).books;
    RefundIsSafe(steps, order);
    RefundIsSafe(steps + [RefundRequest(order)], order);
    assert (steps + [RefundRequest(order)])[..|steps|] == steps;
    if c != b { AppendRow(b, c, c.rows[|b.rows|], order); }
  }

  lemma {:induction false} ChargesOnlyGrow(b: Books, steps: seq<Step>, order: Id)
    ensures |Charges(b, order)| <= |Charges(RunFrom(b, steps), order)|
  {
    if steps != [] {
      var front := steps[..|steps| - 1];
      ChargesOnlyGrow(b, front, order);
      var c, d := RunFrom(b, front), RunFrom(b, steps);
      if d != c { AppendRow(c, d, d.rows[|c.rows|], order); }
    }
  }

  /** A refund is answered exactly when the order has at most one successful charge; with two it fails, and after
      anything else it fails again. */
  lemma {:induction false} RefundIsAnsweredIff(b: Books, order: Id, steps: seq<Step>)
    ensures Refund(b, order).status == OK <==> |Charges(b, order)| <= 1
    ensures |Charges(b, order)| > 1 ==> Refund(RunFrom(b, steps), order).status == SERVER_ERROR
  {
    ChargesOnlyGrow(b, steps, order);
  }

  /** Two charges under two keys are enough. */
  lemma {:induction false} TwoChargesBlockTheRefund(order: Id)
    ensures var b := Run([ChargeRequest(order, 5, "tok", "k1"), ChargeRequest(order, 5, "tok", "k2")]);
            Refund(b, order).status == SERVER_ERROR
  {
    var steps := [ChargeRequest(order, 5, "tok", "k1"), ChargeRequest(order, 5, "tok", "k2")];
    assert steps[..1] == [steps[0]] && [steps[0]][..0] == [];
    var b0, b1, b2 := Run([]), Run(steps[..1]), Run(steps);
    assert Charges(b0, order) == [];
    AppendRow(b0, b1, Row(order, 5, Success), order);
    AppendRow(b1, b2, Row(order, 5, Success), order);
  }

  /** Otherwise, after a no-op refund, the later charge stays with the platform whatever is refunded. */
  lemma {:induction false} ChargeAfterNoopIsKept(steps: seq<Step>, order: Id)
    requires var b := Run(steps);
             |Charges(b, order)| == 1 && Settlements(b, order) != [] && !WasRefunded(b, order)
    ensures Net(Refund(Run(steps), order).books, order) == ChargedTotal(Run(steps), order) > 0
  {
    EveryRunHasAPosition(steps, order);
    RefundIsSafe(steps, order);
  }

  /** And such a ledger is reached by one refund and one charge. */
  lemma {:induction false} NoopThenCharge(order: Id)
    ensures var b := Run([RefundRequest(order), ChargeRequest(order, 5, "tok", "k")]);
            |Charges(b, order)| == 1 && Settlements(b, order) != [] && !WasRefunded(b, order)
  {
    var steps := [RefundRequest(order), ChargeRequest(order, 5, "tok", "k")];
    assert steps[..1] == [RefundRequest(order)];
    assert [RefundRequest(order)][..0] == [];
    var b0, b1, b2 := Run([]), Run(steps[..1]), Run(steps);
    assert Charges(b0, order) == [] && Settlements(b0, order) == [];
    AppendRow(b0, b1, Row(order, 0, RefundNoop), order);
    AppendRow(b1, b2, Row(order, 5, Success), order);
  }

  function Everything(order: Id): Row -> int { (r: Row) => if r.order == order then r.amount else 0 }
  function DeclinedAmounts(order: Id): Row -> int {
    (r: Row) => if r.order == order && r.status.Declined? then r.amount else 0
  }

  lemma {:induction false} DeclinedMakeTheDifference(rows: seq<Row>, order: Id)
    ensures Sum(rows, Everything(order)) == Sum(rows, Nets(order)) + Sum(rows, DeclinedAmounts(order))
  {
    if rows != [] { DeclinedMakeTheDifference(rows[..|rows| - 1], order); }
  }

  ghost predicate PositiveDeclines(rows: seq<Row>) {
    forall i :: 0 <= i < |rows| && rows[i].status.Declined? ==> rows[i].amount > 0
  }

  predicate NoneDeclined(rows: seq<Row>, order: Id) {
    forall i :: 0 <= i < |rows| ==> !(rows[i].order == order && rows[i].status.Declined?)
  }

  lemma {:induction false} DeclinedSumIsPositive(rows: seq<Row>, order: Id)
    requires PositiveDeclines(rows)
    ensures Sum(rows, DeclinedAmounts(order)) >= 0
    ensures Sum(rows, DeclinedAmounts(order)) == 0 <==> NoneDeclined(rows, order)
  {
    if rows != [] {
      var n := |rows| - 1;
      DeclinedSumIsPositive(rows[..n], order);
      assert NoneDeclined(rows, order) <==>
             NoneDeclined(rows[..n], order) && !(rows[n].order == order && rows[n].status.Declined?);
    }
  }

  /** Summing every row of an order gives its true net position exactly when none of its charges was declined. */
  lemma {:induction false} PlainSumIsTheNetUnlessDeclined(steps: seq<Step>, order: Id)
    ensures Sum(Run(steps).rows, Everything(order)) == Net(Run(steps), order) <==> NoneDeclined(Run(steps).rows, order)
  {
    var rows := Run(steps).rows;
    DeclinedMakeTheDifference(rows, order);
    forall i | 0 <= i < |rows| && rows[i].status.Declined? ensures rows[i].amount > 0 {
      ChargesArePositive(steps, i);
    }
    DeclinedSumIsPositive(rows, order);
  }

  /** One declined charge is enough: nothing was taken, and the rows sum to its amount. */
  lemma {:induction false} DeclinedChargeSpoilsTheSum(order: Id, amount: int)
    requires amount >= 1
    ensures var b := Run([ChargeRequest(order, amount, "tok_fail", "k")]);
            Net(b, order) == 0 && Sum(b.rows, Everything(order)) == amount
  {
    var steps := [ChargeRequest(order, amount, "tok_fail", "k")];
    assert steps[..0] == [] && Run([]) == Books([], map[], []);
    var row := Row(order, amount, Declined);
    assert Run(steps).rows == [] + [row];
    SumOneMore([], row, Everything(order));
    SumOneMore([], row, Nets(order));
  }
}
