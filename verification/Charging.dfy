/** What is charged and what is given back, in the amounts the callers asked for. */
module Charging {
  import opened Basics
  import opened Sequences
  import opened Payments

  /* ---------- one call ---------- */

  /** A first charge of a positive amount appends one row of exactly that amount, taken unless the token is the one that
      is declined, and moves that order's net by it and nobody else's. */
  lemma {:induction false} ChargeTakesTheAmount(b: Books, order: Id, amount: int, token: string, key: string, other: Id)
    requires key !in b.keys && amount >= 1
    ensures var c := Charge(b, order, amount, token, key).books;
            && |c.rows| == |b.rows| + 1 && c.rows[..|b.rows|] == b.rows
            && c.rows[|b.rows|].order == order && c.rows[|b.rows|].amount == amount
            && (c.rows[|b.rows|].status == if token == "tok_fail" then Declined else Success)
            && Net(c, other) == Net(b, other) + (if other == order && token != "tok_fail" then amount else 0)
            && c.keys == b.keys[key := |b.rows|]
  {
    var c := Charge(b, order, amount, token, key).books;
    AppendRow(b, c, c.rows[|b.rows|], other);
  }

  /** A charge is refused when it asks for nothing, put off while its key names a row nobody can read yet, and
      otherwise answered 201, first or repeated. */
  lemma {:induction false} ChargeIsAnswered(b: Books, order: Id, amount: int, token: string, key: string)
    ensures var r := Charge(b, order, amount, token, key);
            && (r.status == UNPROCESSABLE <==> amount < 1)
            && (r.status == CONFLICT <==> amount >= 1 && key in b.keys && b.keys[key] >= |b.rows|)
            && (r.status == CREATED <==> amount >= 1 && (key in b.keys ==> b.keys[key] < |b.rows|))
            && (r.books == b <==> amount < 1 || key in b.keys)
  {
  }

  /* ---------- every run ---------- */

  /** The request at i is the first to use its key with an amount that counts. */
  predicate FirstUse(steps: seq<Step>, i: nat) {
    && i < |steps| && steps[i].ChargeRequest? && steps[i].amount >= 1
    && forall j :: 0 <= j < i && steps[j].ChargeRequest? && steps[j].amount >= 1 ==> steps[j].key != steps[i].key
  }

  /** What the first n requests asked to be charged to this order, each key once, declined tokens left out. */
  function Asked(steps: seq<Step>, n: nat, order: Id): int
    requires n <= |steps|
  {
    if n == 0 then 0
    else
      var s := steps[n - 1];
      Asked(steps, n - 1, order) +
      if FirstUse(steps, n - 1) && s.order == order && s.token != "tok_fail" then s.amount else 0
  }

  /** The keys in the books are those of the requests so far, and each names the row its first use wrote. */
  ghost predicate KeysTell(b: Books, steps: seq<Step>, n: nat)
    requires n <= |steps|
  {
    && (forall key :: key in b.keys <==>
          exists i :: 0 <= i < n && steps[i].ChargeRequest? && steps[i].amount >= 1 && steps[i].key == key)
    && (forall i :: 0 <= i < n && FirstUse(steps, i) ==> steps[i].key in b.keys && Wrote(b, steps[i]))
  }

  /** The row this request's key names is the charge it asked for. */
  predicate Wrote(b: Books, s: Step)
    requires s.ChargeRequest?
  {
    s.key in b.keys && b.keys[s.key] < |b.rows|
    && b.rows[b.keys[s.key]] == Row(s.order, s.amount, if s.token == "tok_fail" then Declined else Success)
  }

  lemma {:induction false} StepTells(b: Books, steps: seq<Step>, n: nat)
    requires n < |steps| && KeysTell(b, steps, n)
    ensures KeysTell(Take(b, steps[n]), steps, n + 1)
  {
    var s, c := steps[n], Take(b, steps[n]);
    assert s.ChargeRequest? && s.amount >= 1 && s.key !in b.keys ==> FirstUse(steps, n);
    forall i | 0 <= i < n + 1 && FirstUse(steps, i) ensures steps[i].key in c.keys && Wrote(c, steps[i]) {
      if i < n { assert Wrote(b, steps[i]); }
    }
  }

  lemma {:induction false} StepCharges(b: Books, steps: seq<Step>, n: nat, order: Id)
    requires n < |steps| && KeysTell(b, steps, n)
    ensures var s := steps[n];
            ChargedTotal(Take(b, s), order) == ChargedTotal(b, order) +
            if FirstUse(steps, n) && s.order == order && s.token != "tok_fail" then s.amount else 0
  {
    var s, c := steps[n], Take(b, steps[n]);
    assert s.ChargeRequest? && s.amount >= 1 ==> (FirstUse(steps, n) <==> s.key !in b.keys);
    if c != b {
      var x := c.rows[|b.rows|];
      AppendRow(b, c, x, order);
      if x.order == order && x.status.Success? {
        SumOneMore(Charges(b, order), x, Amounts());
      } else {
        assert Charges(c, order) == Charges(b, order);
      }
    }
  }

  lemma {:induction false} RunTells(steps: seq<Step>, n: nat, order: Id)
    requires n <= |steps|
    ensures KeysTell(Run(steps[..n]), steps, n) && ChargedTotal(Run(steps[..n]), order) == Asked(steps, n, order)
  {
    if n > 0 {
      RunTells(steps, n - 1, order);
      assert steps[..n][..n - 1] == steps[..n - 1];
      StepTells(Run(steps[..n - 1]), steps, n - 1);
      StepCharges(Run(steps[..n - 1]), steps, n - 1, order);
    }
  }

  /** Over every run of charges and refunds, in any order and under any keys, what an order has been charged is the sum
      of the amounts asked for, each key counted once, at its first use, and declined tokens not at all. */
  lemma {:induction false} ChargedIsWhatWasAsked(steps: seq<Step>, order: Id)
    ensures ChargedTotal(Run(steps), order) == Asked(steps, |steps|, order)
  {
    RunTells(steps, |steps|, order);
    assert steps[..|steps|] == steps;
  }

  /** And a repeated request is answered from the row its key's first use wrote, whatever it carries itself. */
  lemma {:induction false} RepeatIsAnsweredFromTheFirst(steps: seq<Step>, i: nat)
    requires FirstUse(steps, i)
    ensures Wrote(Run(steps), steps[i])
  {
    RunTells(steps, |steps|, "");
    assert steps[..|steps|] == steps;
  }

  /** So no charge is ever put off: it is answered 201 exactly when it asks for something. */
  lemma {:induction false} NoChargeIsPutOff(steps: seq<Step>, order: Id, amount: int, token: string, key: string)
    ensures Charge(Run(steps), order, amount, token, key).status == if amount >= 1 then CREATED else UNPROCESSABLE
  {
    RunIsRunFrom(steps);
    KeysNameRows(Books([], map[], []), steps);
  }

  lemma {:induction false} RunIsRunFrom(steps: seq<Step>)
    ensures Run(steps) == RunFrom(Books([], map[], []), steps)
  {
    if steps != [] { RunIsRunFrom(steps[..|steps| - 1]); }
  }

  /* ---------- what a refund reports ---------- */

  /** The first refund of an order reports what it had been charged and takes exactly that off its net. */
  lemma {:induction false} RefundReportsTheMoney(b: Books, order: Id)
    requires |Charges(b, order)| <= 1 && Settlements(b, order) == []
    ensures var r := Refund(b, order);
            r.refundedCents == ChargedTotal(b, order) == Net(b, order) - Net(r.books, order)
  {
    var c := Refund(b, order).books;
    AppendRow(b, c, c.rows[|b.rows|], order);
    if Charges(b, order) != [] {
      assert Charges(b, order) == [Charges(b, order)[0]];
      OneAmount(Charges(b, order)[0]);
    }
  }

  lemma {:induction false} SettlementStays(b: Books, steps: seq<Step>, order: Id)
    requires Settlements(b, order) != []
    ensures var c := RunFrom(b, steps);
            Settlements(c, order) != [] && Settlements(c, order)[0] == Settlements(b, order)[0]
  {
    if steps != [] {
      var front := steps[..|steps| - 1];
      SettlementStays(b, front, order);
      var c, d := RunFrom(b, front), RunFrom(b, steps);
      if d != c { AppendRow(c, d, d.rows[|c.rows|], order); }
    }
  }

  /** Every later refund that is answered reports the same money again. */
  lemma {:induction false} RepeatedRefundReportsTheSame(before: seq<Step>, order: Id, after: seq<Step>)
    requires Refund(Run(before), order).status == OK
    ensures var first := Refund(Run(before), order);
            var again := Refund(RunFrom(first.books, after), order);
            again.status == OK ==> again.refundedCents == first.refundedCents
  {
    var b := Run(before);
    var first := Refund(b, order);
    SettledStays(b, order);
    SettlementStays(first.books, after, order);
    if first.books != b {
      AppendRow(b, first.books, first.books.rows[|b.rows|], order);
      if Charges(b, order) != [] {
        var r := Charges(b, order)[0];
        assert r in Charges(b, order);
        FilterMembers(b.rows, OfKind(order, Success), r);
        var i :| 0 <= i < |b.rows| && b.rows[i] == r;
        ChargesArePositive(before, i);
      }
    }
  }
}
