/** Where a split order's stock ends up: each seller's holds follow that seller's own parcel, whatever the other
    sellers do and however often the dispatcher repeats a stock command. */
module Disposition {
  import opened Basics
  import opened Transitions
  import opened Inventory
  import opened StockLedger
  import opened OrderSaga
  import S = SellerOrders

  /** The order's rows, every inventory call made so far, and which stock commands have run at least once. */
  datatype State = State(rows: Rows, calls: seq<Call>, ran: set<nat>)

  predicate IsStockCommand(c: Command) { c.ReleaseSellerStock? || c.ConsumeSellerStock? }

  function EffectOf(c: Command): Effect
    requires IsStockCommand(c)
  {
    if c.ReleaseSellerStock? then Release else Consume
  }

  /** Saga steps in any order; any stock command again and again; and calls about other orders in between. */
  datatype Step =
    | Saga(step: OrderSaga.Step)
    | RunCommand(row: nat)
    | Other(call: Call)

  predicate Foreign(c: Call, id: Id) { c.order != id }

  function Take(st: State, id: Id, step: Step): State {
    match step
    case Saga(s) => st.(rows := OrderSaga.Take(st.rows, s))
    case RunCommand(k) =>
      if k < |st.rows.commands| && IsStockCommand(st.rows.commands[k])
         && st.rows.commands[k].child < |st.rows.children| then
        var c := st.rows.commands[k];
        var call := SettleRequest(EffectOf(c), id, st.rows.children[c.child].products);
        st.(calls := st.calls + [call], ran := st.ran + {k})
      else st
    case Other(c) => if Foreign(c, id) then st.(calls := st.calls + [c]) else st
  }

  function RunState(st: State, id: Id, steps: seq<Step>): State {
    if steps == [] then st else Take(RunState(st, id, steps[..|steps| - 1]), id, steps[|steps| - 1])
  }

  /** A completed saga whose sellers all have their stock, with no product on two seller orders. */
  predicate FullyReserved(r: Rows) {
    && r.status.OrderCompleted?
    && (forall i :: 0 <= i < |r.children| ==> r.children[i].status.Reserved? && r.children[i].products != {})
    && OneSellerPerProduct(r)
    && forall k :: 0 <= k < |r.commands| ==> !IsStockCommand(r.commands[k])
  }

  predicate OneSellerPerProduct(r: Rows) {
    forall i, j :: 0 <= i < j < |r.children| ==> r.children[i].products !! r.children[j].products
  }

  /* ---------- the commands mirror the statuses ---------- */

  /** What a seller order's status says happened to its stock. */
  function Owed(status: S.SellerStatus): Option<Effect> {
    match status
    case Delivered => Some(Consume)
    case Settled => Some(Consume)
    case Returned => Some(Release)
    case Cancelled => Some(Release)
    case _ => None
  }

  predicate AtMostOneEach(r: Rows) {
    forall j, k :: 0 <= j < k < |r.commands| && IsStockCommand(r.commands[j]) && IsStockCommand(r.commands[k]) ==>
      r.commands[j].child != r.commands[k].child
  }

  /** A stock command is always the one its seller order's status calls for. */
  predicate CommandsMatch(r: Rows) {
    forall k :: 0 <= k < |r.commands| && IsStockCommand(r.commands[k]) ==>
      && r.commands[k].child < |r.children|
      && Owed(r.children[r.commands[k].child].status) == Some(EffectOf(r.commands[k]))
  }

  predicate HasCommand(r: Rows, i: nat) {
    exists k :: 0 <= k < |r.commands| && IsStockCommand(r.commands[k]) && r.commands[k].child == i
  }

  predicate CommandsPresent(r: Rows) {
    forall i :: 0 <= i < |r.children| && Owed(r.children[i].status).Some? ==> HasCommand(r, i)
  }

  /** Products and their owners never change after checkout. */
  predicate SameProducts(a: Rows, b: Rows) {
    && |a.children| == |b.children|
    && forall i :: 0 <= i < |a.children| ==> a.children[i].products == b.children[i].products
  }

  predicate RowsOk(first: Rows, r: Rows) {
    r.status.OrderCompleted? && SameProducts(first, r) && AtMostOneEach(r) && CommandsMatch(r) && CommandsPresent(r)
  }

  lemma {:induction false} HasCommandStays(r: Rows, t: Rows, i: nat)
    requires HasCommand(r, i) && |r.commands| <= |t.commands|
    requires forall k :: 0 <= k < |r.commands| ==> t.commands[k] == r.commands[k]
    ensures HasCommand(t, i)
  {
    var k :| 0 <= k < |r.commands| && IsStockCommand(r.commands[k]) && r.commands[k].child == i;
    assert IsStockCommand(t.commands[k]) && t.commands[k].child == i;
  }

  lemma {:induction false} SettledParcelsDoNotMove(r: Rows, i: nat, action: S.Action, reasoned: bool)
    requires i < |r.children| && S.PlanTransition(action, r.children[i].status, reasoned).Ok?
    ensures var d := S.PlanTransition(action, r.children[i].status, reasoned);
            && (Owed(r.children[i].status).Some? ==> Owed(d.to) == Owed(r.children[i].status) && d.effect.NoEffect?)
            && (Owed(r.children[i].status).None? ==>
                  match Owed(d.to)
                  case None => d.effect.NoEffect?
                  case Some(Release) => d.effect.ReleaseStock?
                  case Some(Consume) => d.effect.ConsumeStock?)
  {
  }

  /** The rows after an accepted action: one status moves, and at most one stock command follows. */
  lemma {:induction false} ActionKeepsCommandsPresent(r: Rows, i: nat, action: S.Action, reasoned: bool)
    requires CommandsPresent(r) && i < |r.children| && S.PlanTransition(action, r.children[i].status, reasoned).Ok?
    ensures CommandsPresent(Transition(r, i, action, reasoned).rows)
  {
    SettledParcelsDoNotMove(r, i, action, reasoned);
    var t := Transition(r, i, action, reasoned).rows;
    forall j | 0 <= j < |t.children| && Owed(t.children[j].status).Some? ensures HasCommand(t, j) {
      if Owed(r.children[j].status).Some? {
        HasCommandStays(r, t, j);
      } else {
        assert IsStockCommand(t.commands[|t.commands| - 1]) && t.commands[|t.commands| - 1].child == j;
      }
    }
  }

  lemma {:induction false} ActionKeepsCommandsMatched(r: Rows, i: nat, action: S.Action, reasoned: bool)
    requires CommandsMatch(r) && AtMostOneEach(r)
    requires i < |r.children| && S.PlanTransition(action, r.children[i].status, reasoned).Ok?
    ensures CommandsMatch(Transition(r, i, action, reasoned).rows)
    ensures AtMostOneEach(Transition(r, i, action, reasoned).rows)
  {
    SettledParcelsDoNotMove(r, i, action, reasoned);
    var t := Transition(r, i, action, reasoned).rows;
    assert forall k :: 0 <= k < |r.commands| ==> t.commands[k] == r.commands[k];
  }

  lemma {:induction false} ActionKeepsRowsOk(first: Rows, r: Rows, i: nat, action: S.Action, reasoned: bool)
    requires RowsOk(first, r)
    ensures RowsOk(first, Transition(r, i, action, reasoned).rows)
  {
    if i < |r.children| && S.PlanTransition(action, r.children[i].status, reasoned).Ok? {
      ActionKeepsCommandsMatched(r, i, action, reasoned);
      ActionKeepsCommandsPresent(r, i, action, reasoned);
      assert RowsOk(first, Transition(r, i, action, reasoned).rows);
    } else {
      assert Transition(r, i, action, reasoned).rows == r;
    }
  }

  /** A completed saga ignores events and sweeps. */
  lemma {:induction false} SagaStepKeepsRowsOk(first: Rows, r: Rows, step: OrderSaga.Step)
    requires RowsOk(first, r)
    ensures RowsOk(first, OrderSaga.Take(r, step))
    ensures forall k :: 0 <= k < |r.commands| ==>
              |r.commands| <= |OrderSaga.Take(r, step).commands| && OrderSaga.Take(r, step).commands[k] == r.commands[k]
  {
    match step
    case Event(event, key) => assert OrderSaga.Take(r, step) == r;
    case SellerAction(i, action, reasoned) => ActionKeepsRowsOk(first, r, i, action, reasoned);
    case Sweep(_) => assert OrderSaga.Take(r, step) == r;
  }

  /* ---------- the holds ---------- */

  /** The status a run stock command has given to child i's holds; Held while none has run. */
  predicate RanFor(st: State, i: nat, effect: Effect) {
    exists k :: k in st.ran && k < |st.rows.commands| && IsStockCommand(st.rows.commands[k])
                && st.rows.commands[k].child == i && EffectOf(st.rows.commands[k]) == effect
  }

  function Fate(st: State, i: nat): HoldStatus {
    if RanFor(st, i, Release) then Released else if RanFor(st, i, Consume) then Consumed else Held
  }

  /** Row j of the reservation was child i's hold when the order was reserved. */
  predicate Owns(first: Rows, reserved: Stock, id: Id, i: nat, j: nat) {
    && i < |first.children| && j < |reserved.holds|
    && reserved.holds[j].order == id && reserved.holds[j].status.Held?
    && reserved.holds[j].product in first.children[i].products
  }

  ghost predicate HoldsOk(first: Rows, reserved: Stock, id: Id, opening: Stock, st: State) {
    var now := Run(opening, st.calls);
    |reserved.holds| <= |now.holds| &&
    forall i: nat, j: nat :: Owns(first, reserved, id, i, j) ==>
      now.holds[j] == reserved.holds[j].(status := Fate(st, i))
  }

  lemma {:induction false} RunAppends(opening: Stock, calls: seq<Call>, c: Call)
    ensures Run(opening, calls + [c]) == Serve(Run(opening, calls), c)
  {
    assert (calls + [c])[..|calls + [c]| - 1] == calls;
  }

  lemma {:induction false} ForeignCallLeavesHolds(s: Stock, c: Call, id: Id, j: nat)
    requires Foreign(c, id) && j < |s.holds| && s.holds[j].order == id
    ensures |s.holds| <= |Serve(s, c).holds| && Serve(s, c).holds[j] == s.holds[j]
  {
  }

  lemma {:induction false} CallsOnlyAddHolds(s: Stock, c: Call)
    ensures |s.holds| <= |Serve(s, c).holds|
  {
  }

  ghost predicate StateOk(first: Rows, opening: Stock, before: seq<Call>, id: Id, st: State) {
    && RowsOk(first, st.rows)
    && (forall k :: k in st.ran ==> k < |st.rows.commands| && IsStockCommand(st.rows.commands[k]))
    && HoldsOk(first, Run(opening, before), id, opening, st)
  }

  lemma {:induction false} OtherKeepsStateOk(first: Rows, opening: Stock, before: seq<Call>, id: Id, st: State, c: Call)
    requires StateOk(first, opening, before, id, st) && Foreign(c, id)
    ensures StateOk(first, opening, before, id, Take(st, id, Other(c)))
  {
    RunAppends(opening, st.calls, c);
    var now, st' := Run(opening, st.calls), Take(st, id, Other(c));
    CallsOnlyAddHolds(now, c);
    var reserved := Run(opening, before);
    forall i: nat, j: nat | Owns(first, reserved, id, i, j)
      ensures Run(opening, st'.calls).holds[j] == reserved.holds[j].(status := Fate(st', i))
    {
      ForeignCallLeavesHolds(now, c, id, j);
      assert Fate(st', i) == Fate(st, i);
    }
  }

  lemma {:induction false} FateSurvivesNewCommands(st: State, rows: Rows, i: nat)
    requires |st.rows.commands| <= |rows.commands|
    requires forall k :: 0 <= k < |st.rows.commands| ==> rows.commands[k] == st.rows.commands[k]
    requires forall k :: k in st.ran ==> k < |st.rows.commands|
    ensures Fate(st.(rows := rows), i) == Fate(st, i)
  {
    forall effect ensures RanFor(st.(rows := rows), i, effect) == RanFor(st, i, effect) {
      if RanFor(st, i, effect) {
        var k :| k in st.ran && k < |st.rows.commands| && IsStockCommand(st.rows.commands[k])
                 && st.rows.commands[k].child == i && EffectOf(st.rows.commands[k]) == effect;
        assert rows.commands[k] == st.rows.commands[k];
      }
    }
  }

  lemma {:induction false} SagaKeepsStateOk(first: Rows, opening: Stock, before: seq<Call>, id: Id, st: State,
                                            step: OrderSaga.Step)
    requires StateOk(first, opening, before, id, st)
    ensures StateOk(first, opening, before, id, Take(st, id, Saga(step)))
  {
    SagaStepKeepsRowsOk(first, st.rows, step);
    var reserved, rows := Run(opening, before), OrderSaga.Take(st.rows, step);
    if st.rows.commands == [] { assert st.ran == {}; }
    forall i: nat, j: nat | Owns(first, reserved, id, i, j)
      ensures Run(opening, st.calls).holds[j] == reserved.holds[j].(status := Fate(st.(rows := rows), i))
    {
      FateSurvivesNewCommands(st, rows, i);
    }
  }

  /** The one stock command of a child decides its fate, whether it ran before or runs now. */
  lemma {:induction false} RunningDecides(st: State, k: nat)
    requires AtMostOneEach(st.rows) && k < |st.rows.commands| && IsStockCommand(st.rows.commands[k])
    ensures var c, st' := st.rows.commands[k], st.(ran := st.ran + {k});
            && Fate(st', c.child) == StatusAfter(EffectOf(c))
            && (Fate(st, c.child) == Held || Fate(st, c.child) == StatusAfter(EffectOf(c)))
  {
    var c, st' := st.rows.commands[k], st.(ran := st.ran + {k});
    assert RanFor(st', c.child, EffectOf(c));
  }

  lemma {:induction false} RunningSparesOthers(st: State, k: nat, i: nat)
    requires k < |st.rows.commands| && IsStockCommand(st.rows.commands[k]) && st.rows.commands[k].child != i
    ensures Fate(st.(ran := st.ran + {k}), i) == Fate(st, i)
  {
    var st' := st.(ran := st.ran + {k});
    forall effect ensures RanFor(st', i, effect) == RanFor(st, i, effect) {
      if RanFor(st, i, effect) {
        var m :| m in st.ran && m < |st.rows.commands| && IsStockCommand(st.rows.commands[m])
                 && st.rows.commands[m].child == i && EffectOf(st.rows.commands[m]) == effect;
        assert m in st'.ran;
      }
    }
  }

  /** One hold under one settle call for child c's products. */
  lemma {:induction false} SettlingOneHold(first: Rows, st: State, id: Id, held: Hold, now: Hold, k: nat, i: nat)
    requires FullyReserved(first) && RowsOk(first, st.rows)
    requires k < |st.rows.commands| && IsStockCommand(st.rows.commands[k])
    requires i < |first.children| && held.product in first.children[i].products
    requires held.order == id && held.status.Held? && now == held.(status := Fate(st, i))
    ensures var c := st.rows.commands[k];
            SettleHold(now, EffectOf(c), id, st.rows.children[c.child].products) ==
            held.(status := Fate(st.(ran := st.ran + {k}), i))
  {
    var c := st.rows.commands[k];
    if i != c.child {
      RunningSparesOthers(st, k, i);
      OtherSellersProduct(first, i, c.child, held.product);
    } else {
      RunningDecides(st, k);
    }
  }

  lemma {:induction false} RunKeepsStateOk(first: Rows, opening: Stock, before: seq<Call>, id: Id, st: State, k: nat)
    requires Opening(opening) && FullyReserved(first) && StateOk(first, opening, before, id, st)
    ensures StateOk(first, opening, before, id, Take(st, id, RunCommand(k)))
  {
    if k < |st.rows.commands| && IsStockCommand(st.rows.commands[k]) {
      var c, st' := st.rows.commands[k], Take(st, id, RunCommand(k));
      var scope := st.rows.children[c.child].products;
      var now, reserved := Run(opening, st.calls), Run(opening, before);
      RunAppends(opening, st.calls, SettleRequest(EffectOf(c), id, scope));
      SettleIsExactAfterAnyHistory(opening, st.calls, EffectOf(c), id, scope);
      var after := SettleCall(now, EffectOf(c), id, scope).stock;
      forall i: nat, j: nat | Owns(first, reserved, id, i, j)
        ensures after.holds[j] == reserved.holds[j].(status := Fate(st', i))
      {
        SettlingOneHold(first, st, id, reserved.holds[j], now.holds[j], k, i);
        assert Fate(st', i) == Fate(st.(ran := st.ran + {k}), i);
      }
      assert HoldsOk(first, reserved, id, opening, st');
    }
  }

  lemma {:induction false} OtherSellersProduct(r: Rows, i: nat, m: nat, p: Id)
    requires OneSellerPerProduct(r) && i < |r.children| && m < |r.children| && i != m && p in r.children[i].products
    ensures p !in r.children[m].products
  {
    if i < m {
      assert r.children[i].products !! r.children[m].products;
    } else {
      assert r.children[m].products !! r.children[i].products;
    }
  }

  lemma {:induction false} EveryRunIsOk(first: Rows, opening: Stock, before: seq<Call>, id: Id, steps: seq<Step>)
    requires Opening(opening) && FullyReserved(first)
    ensures StateOk(first, opening, before, id, RunState(State(first, before, {}), id, steps))
  {
    if steps != [] {
      var front := steps[..|steps| - 1];
      EveryRunIsOk(first, opening, before, id, front);
      var st := RunState(State(first, before, {}), id, front);
      match steps[|steps| - 1]
      case Saga(step) => SagaKeepsStateOk(first, opening, before, id, st, step);
      case RunCommand(k) => RunKeepsStateOk(first, opening, before, id, st, k);
      case Other(c) => if Foreign(c, id) { OtherKeepsStateOk(first, opening, before, id, st, c); }
    }
  }

  /** Where the units belong once every stock command has run. */
  function Destination(status: S.SellerStatus): HoldStatus {
    match Owed(status)
    case None => Held
    case Some(effect) => StatusAfter(effect)
  }

  predicate AllRan(st: State) {
    forall k :: 0 <= k < |st.rows.commands| && IsStockCommand(st.rows.commands[k]) ==> k in st.ran
  }

  lemma {:induction false} AllRanDecides(first: Rows, st: State, i: nat)
    requires RowsOk(first, st.rows) && AllRan(st) && i < |st.rows.children|
    ensures Fate(st, i) == Destination(st.rows.children[i].status)
  {
    if HasCommand(st.rows, i) {
      var k :| 0 <= k < |st.rows.commands| && IsStockCommand(st.rows.commands[k]) && st.rows.commands[k].child == i;
      assert st.ran == st.ran + {k};
      assert st.(ran := st.ran + {k}) == st;
      RunningDecides(st, k);
    }
  }

  /** For an order fully reserved with one seller per product, after any interleaving: no seller order has emitted
      two stock commands, and once each has run at least once every hold is consumed if its seller order was
      delivered, released if it was returned or cancelled, and untouched otherwise. */
  lemma {:induction false} StockFollowsTheParcel(first: Rows, opening: Stock, before: seq<Call>, id: Id,
                                                 steps: seq<Step>, i: nat, j: nat)
    requires Opening(opening) && FullyReserved(first) && Owns(first, Run(opening, before), id, i, j)
    ensures var st := RunState(State(first, before, {}), id, steps);
            var reserved, now := Run(opening, before), Run(opening, st.calls);
            && AtMostOneEach(st.rows)
            && i < |st.rows.children| && j < |now.holds|
            && (Owed(st.rows.children[i].status).None? ==> now.holds[j] == reserved.holds[j])
            && (AllRan(st) ==>
                  now.holds[j] == reserved.holds[j].(status := Destination(st.rows.children[i].status)))
  {
    EveryRunIsOk(first, opening, before, id, steps);
    var st := RunState(State(first, before, {}), id, steps);
    assert RowsOk(first, st.rows);
    if AllRan(st) { AllRanDecides(first, st, i); }
  }
}
