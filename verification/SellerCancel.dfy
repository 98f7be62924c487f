/** When a seller's cancellation, return or delivery is safe for stock: once every line of the order on that seller's
    products has been attempted, a stock command answered 200 leaves nothing held on them for good. */
module SellerCancel {
  import opened Basics
  import opened Transitions
  import opened OrderLines
  import opened Inventory
  import opened Reservation
  import opened OrderSaga
  import opened Protocol
  import opened StockLeak
  import L = StockLedger
  import S = SellerOrders

  predicate IsSellerStock(c: Command) { c.ReleaseSellerStock? || c.ConsumeSellerStock? }

  /** Nothing a call with this scope would select: the order holds nothing on those products. */
  predicate Cleared(holds: seq<Hold>, id: Id, scope: set<Id>) {
    forall i :: 0 <= i < |holds| ==> !Matches(holds[i], id, scope)
  }

  predicate Covers(scope: set<Id>, p: Id) { scope == {} || p in scope }

  /** Every planned line on these products has spent its key, by a grant or by a refusal. */
  predicate Attempted(o: Order, id: Id, s: Stock, scope: set<Id>) {
    o.plan.Usable? ==>
      forall k :: 0 <= k < |o.plan.items| && Covers(scope, o.plan.items[k].product) ==>
        LineKey(id, o.plan.items[k].product) in s.keys
  }

  /* ---------- attempted and cleared is for good ---------- */

  lemma {:induction false} SettlingKeepsCleared(s: Stock, effect: Effect, order: Id, any: set<Id>, id: Id,
                                                scope: set<Id>)
    requires Cleared(s.holds, id, scope)
    ensures Cleared(SettleCall(s, effect, order, any).stock.holds, id, scope)
  {
    var t := SettleCall(s, effect, order, any).stock;
    forall i | 0 <= i < |t.holds| ensures !Matches(t.holds[i], id, scope) { assert !Matches(s.holds[i], id, scope); }
  }

  lemma {:induction false} SettlingClears(s: Stock, effect: Effect, id: Id, scope: set<Id>)
    requires SettleCall(s, effect, id, scope).status == OK
    ensures Cleared(SettleCall(s, effect, id, scope).stock.holds, id, scope)
  {
  }

  /** A reservation under another order, on other products or under a spent key adds nothing the scope selects. */
  lemma {:induction false} ReservingKeepsCleared(s: Stock, product: Id, quantity: int, order: Id, key: Key, id: Id,
                                                 scope: set<Id>)
    requires Cleared(s.holds, id, scope) && (order == id && Covers(scope, product) ==> key in s.keys)
    ensures Cleared(ReserveCall(s, product, quantity, order, key).stock.holds, id, scope)
  {
    var t := ReserveCall(s, product, quantity, order, key).stock;
    forall i | 0 <= i < |t.holds| ensures !Matches(t.holds[i], id, scope) {
      if i < |s.holds| { assert t.holds[i] == s.holds[i] && !Matches(s.holds[i], id, scope); }
    }
  }

  lemma {:induction false} CallKeepsCleared(s: Stock, c: L.Call, id: Id, scope: set<Id>)
    requires Cleared(s.holds, id, scope)
    requires c.ReserveRequest? && c.order == id && Covers(scope, c.product) ==> c.key in s.keys
    ensures Cleared(L.Serve(s, c).holds, id, scope)
  {
    match c
    case ReserveRequest(product, quantity, order, key) =>
      ReservingKeepsCleared(s, product, quantity, order, key, id, scope);
    case SettleRequest(effect, order, any) => SettlingKeepsCleared(s, effect, order, any, id, scope);
  }

  lemma {:induction false} StepKeepsKeys(w: World, step: WorldStep)
    ensures w.stock.keys.Keys <= TakeStep(w, step).stock.keys.Keys
  {
    StepServes(w, step);
  }

  lemma {:induction false} StepKeepsAttempted(w: World, step: WorldStep, id: Id, scope: set<Id>)
    requires id in w.orders && Attempted(w.orders[id], id, w.stock, scope)
    ensures var w' := TakeStep(w, step); id in w'.orders && Attempted(w'.orders[id], id, w'.stock, scope)
  {
    StepKeepsPlan(w, step, id);
    StepKeepsKeys(w, step);
  }

  lemma {:induction false} StepKeepsCleared(w: World, step: WorldStep, id: Id, scope: set<Id>)
    requires id in w.orders && Attempted(w.orders[id], id, w.stock, scope) && Cleared(w.stock.holds, id, scope)
    ensures Cleared(TakeStep(w, step).stock.holds, id, scope)
  {
    StepServes(w, step);
    match StockCall(w, step)
    case None =>
    case Some(c) => CallKeepsCleared(w.stock, c, id, scope);
  }

  /** Whatever happens next, crashes and implausible answers included. */
  lemma {:induction false} ClearedForGood(w: World, steps: seq<WorldStep>, id: Id, scope: set<Id>)
    requires id in w.orders && Attempted(w.orders[id], id, w.stock, scope) && Cleared(w.stock.holds, id, scope)
    ensures var w' := RunWorld(w, steps);
            id in w'.orders && Attempted(w'.orders[id], id, w'.stock, scope) && Cleared(w'.stock.holds, id, scope)
  {
    if steps != [] {
      var front, last := steps[..|steps| - 1], steps[|steps| - 1];
      ClearedForGood(w, front, id, scope);
      StepKeepsCleared(RunWorld(w, front), last, id, scope);
      StepKeepsAttempted(RunWorld(w, front), last, id, scope);
    }
  }

  /** Row k is a seller's stock command with a worker at its call. */
  predicate Calling(o: Order, k: nat) {
    && Rowed(o, k) && o.work[k].at.SellerCall? && IsSellerStock(o.rows.commands[k])
    && o.rows.commands[k].child < |o.rows.children|
  }

  function ScopeOf(o: Order, k: nat): set<Id>
    requires Calling(o, k)
  {
    o.rows.children[o.rows.commands[k].child].products
  }

  function EffectOf(c: Command): Effect { if c.ReleaseSellerStock? then Release else Consume }

  /** A seller's stock call that is served with a 200 once its lines were attempted clears its products for good,
      whatever the seller order's status and whether or not the answer arrives. */
  lemma {:induction false} CallClearsForGood(w: World, id: Id, k: nat, fate: Fate, jitter: real, now: real,
                                             steps: seq<WorldStep>)
    requires id in w.orders && Calling(w.orders[id], k) && 0.0 <= jitter < 1.0 && (fate.Answered? || fate.Lost?)
    requires var o := w.orders[id];
             && Attempted(o, id, w.stock, ScopeOf(o, k))
             && SettleCall(w.stock, EffectOf(o.rows.commands[k]), id, ScopeOf(o, k)).status == OK
    ensures var w' := RunWorld(TakeStep(w, InOrder(id, Call(k, fate, jitter, now))), steps);
            Cleared(w'.stock.holds, id, ScopeOf(w.orders[id], k))
  {
    var o, step := w.orders[id], InOrder(id, Call(k, fate, jitter, now));
    StepServes(w, step);
    SettlingClears(w.stock, EffectOf(o.rows.commands[k]), id, ScopeOf(o, k));
    StepKeepsAttempted(w, step, id, ScopeOf(o, k));
    ClearedForGood(TakeStep(w, step), steps, id, ScopeOf(o, k));
  }

  /* ---------- the shape of a seller's commands ---------- */

  /** At work: neither waiting for the reservation nor cancelled. */
  predicate Working(status: S.SellerStatus) { !status.Pending? && !status.Cancelled? }

  predicate SellerRowOk(c: Command, w: Work, rows: Rows) {
    IsSellerStock(c) ==>
      c.child < |rows.children| && !rows.children[c.child].status.Pending? && (w.at.Idle? || w.at.SellerCall?)
  }

  /** A seller works only once the reservation was reported, and has no stock command while it is PENDING. */
  predicate SellerShape(o: Order) {
    && |o.work| == |o.rows.commands|
    && (forall i :: 0 <= i < |o.rows.children| && Working(o.rows.children[i].status) ==> Latched(o))
    && (forall k :: 0 <= k < |o.work| ==> SellerRowOk(o.rows.commands[k], o.work[k], o.rows))
  }

  lemma {:induction false} PutKeepsShape(o: Order, k: nat, w: Work)
    requires SellerShape(o) && Rowed(o, k) && SellerRowOk(o.rows.commands[k], w, o.rows)
    ensures SellerShape(Put(o, k, w))
  {
    var o' := Put(o, k, w);
    forall j | 0 <= j < |o'.work| ensures SellerRowOk(o'.rows.commands[j], o'.work[j], o'.rows) {
      assert SellerRowOk(o.rows.commands[j], o.work[j], o.rows);
    }
  }

  /** The same sellers and products, every old command in place, and any new seller's command about one of them. */
  predicate SameSellers(a: Rows, b: Rows) {
    && |a.children| == |b.children| && |a.commands| <= |b.commands|
    && (forall i :: 0 <= i < |a.children| ==> b.children[i].products == a.children[i].products)
    && (forall i :: 0 <= i < |a.children| && !a.children[i].status.Pending? ==> !b.children[i].status.Pending?)
    && (forall k :: 0 <= k < |a.commands| ==> b.commands[k] == a.commands[k])
    && (forall k :: |a.commands| <= k < |b.commands| && IsSellerStock(b.commands[k]) ==>
          b.commands[k].child < |b.children| && !b.children[b.commands[k].child].status.Pending?)
  }

  /** Nobody starts to work. */
  predicate NobodyStarts(a: Rows, b: Rows) {
    && |a.children| == |b.children|
    && forall i :: 0 <= i < |a.children| && Working(b.children[i].status) ==> Working(a.children[i].status)
  }

  lemma {:induction false} RowsKeepShape(o: Order, rows: Rows)
    requires SellerShape(o) && SameSellers(o.rows, rows) && (Latched(o) ==> Latched(WithRows(o, rows)))
    requires NobodyStarts(o.rows, rows) || Latched(WithRows(o, rows))
    ensures SellerShape(WithRows(o, rows))
  {
    var o' := WithRows(o, rows);
    forall k | 0 <= k < |o'.work| ensures SellerRowOk(o'.rows.commands[k], o'.work[k], o'.rows) {
      if k < |o.work| { assert SellerRowOk(o.rows.commands[k], o.work[k], o.rows); }
    }
  }

  lemma {:induction false} ActKeepsSellers(rows: Rows, i: nat, action: S.Action, reasoned: bool)
    ensures var after := Transition(rows, i, action, reasoned).rows;
            SameSellers(rows, after) && NobodyStarts(rows, after) && after.keys == rows.keys
  {
  }

  lemma {:induction false} EventKeepsSellers(rows: Rows, event: Event, key: EventKey)
    ensures var after := Advance(rows, event, key).rows;
            SameSellers(rows, after) && rows.keys <= after.keys && (!event.StockReserved? ==> NobodyStarts(rows, after))
  {
  }

  lemma {:induction false} SweepKeepsSellers(rows: Rows, stale: bool)
    ensures var after := Reap(rows, stale);
            SameSellers(rows, after) && NobodyStarts(rows, after) && after.keys == rows.keys
  {
  }

  lemma {:induction false} ReportKeepsShape(o: Order, id: Id, s: Stock, k: nat, fate: Fate, jitter: real, now: real)
    requires Inv(o, id, s) && SellerShape(o) && Rowed(o, k) && 0.0 <= jitter < 1.0 && o.work[k].at.Reporting?
    ensures SellerShape(WorkRow(o, id, s, k, fate, jitter, now).order)
  {
    var event := o.work[k].at.event;
    assert SellerRowOk(o.rows.commands[k], o.work[k], o.rows);
    assert k > 0 ==> OtherRowOk(o.rows.commands[k], o.work[k], id, s);
    var rows := Advance(o.rows, event, Sent(k, event)).rows;
    EventKeepsSellers(o.rows, event, Sent(k, event));
    if event.StockReserved? { ReservedKeepsInv(o, id, s); }
    RowsKeepShape(o, rows);
    var r := WorkRow(o, id, s, k, fate, jitter, now);
    var o' := if fate.Answered? || fate.Lost? then WithRows(o, rows) else o;
    PutKeepsShape(o', k, r.order.work[k]);
    assert r.order == Put(o', k, r.order.work[k]);
  }

  lemma {:induction false} CallKeepsShape(o: Order, id: Id, s: Stock, k: nat, fate: Fate, jitter: real, now: real)
    requires Inv(o, id, s) && SellerShape(o) && Rowed(o, k) && 0.0 <= jitter < 1.0
    ensures SellerShape(WorkRow(o, id, s, k, fate, jitter, now).order)
  {
    assert SellerRowOk(o.rows.commands[k], o.work[k], o.rows);
    if o.work[k].at.Reporting? {
      ReportKeepsShape(o, id, s, k, fate, jitter, now);
    } else {
      var r := WorkRow(o, id, s, k, fate, jitter, now);
      PutKeepsShape(o, k, r.order.work[k]);
      assert r.order == Put(o, k, r.order.work[k]);
    }
  }

  lemma {:induction false} ClaimKeepsShape(o: Order, k: nat, now: real)
    requires SellerShape(o) && Rowed(o, k)
    ensures SellerShape(ClaimRow(o, k, now))
  {
    assert SellerRowOk(o.rows.commands[k], o.work[k], o.rows);
    PutKeepsShape(o, k, ClaimRow(o, k, now).work[k]);
    assert ClaimRow(o, k, now) == Put(o, k, ClaimRow(o, k, now).work[k]);
  }

  lemma {:induction false} OrderStepKeepsShape(o: Order, id: Id, s: Stock, step: OrderStep)
    requires Inv(o, id, s) && SellerShape(o) && Allowed(step)
    ensures SellerShape(TakeOrderStep(o, id, s, step).order)
  {
    match step
    case Claim(k, now) => if Rowed(o, k) { ClaimKeepsShape(o, k, now); }
    case Call(k, fate, jitter, now) => if Rowed(o, k) { CallKeepsShape(o, id, s, k, fate, jitter, now); }
    case Act(i, action, reasoned) =>
      ActKeepsSellers(o.rows, i, action, reasoned);
      RowsKeepShape(o, Transition(o.rows, i, action, reasoned).rows);
    case Sweep(stale) =>
      SweepKeepsSellers(o.rows, stale);
      RowsKeepShape(o, Reap(o.rows, stale));
    case OtherEvent(event, name) =>
      EventKeepsSellers(o.rows, event, EventKey.CallerKey(name));
      RowsKeepShape(o, Advance(o.rows, event, EventKey.CallerKey(name)).rows);
  }

  predicate AllShaped(w: World) { forall id :: id in w.orders ==> SellerShape(w.orders[id]) }

  lemma {:induction false} EveryRunKeepsShape(stock: Stock, steps: seq<WorldStep>)
    requires AllAllowed(steps)
    ensures AllShaped(RunWorld(World(map[], stock), steps))
  {
    if steps != [] {
      var front, last := steps[..|steps| - 1], steps[|steps| - 1];
      var w := RunWorld(World(map[], stock), front);
      assert AllAllowed(front);
      EveryRunKeepsShape(stock, front);
      EveryRunKeepsInv(stock, front);
      if last.InOrder? && last.id in w.orders {
        OrderStepKeepsShape(w.orders[last.id], last.id, w.stock, last.step);
      }
    }
  }

  /* ---------- processed means cleared ---------- */

  /** Seller i's stock commands that are processed, those in `done` aside, have left its products cleared. */
  predicate RowClear(c: Command, w: Work, k: nat, i: nat, done: set<nat>, holds: seq<Hold>, id: Id, scope: set<Id>) {
    IsSellerStock(c) && c.child == i && w.delivery.processed && k !in done ==> Cleared(holds, id, scope)
  }

  predicate RowsClear(o: Order, id: Id, s: Stock, i: nat, done: set<nat>, scope: set<Id>) {
    && i < |o.rows.children| && o.rows.children[i].products == scope
    && |o.work| == |o.rows.commands|
    && forall k :: 0 <= k < |o.work| ==> RowClear(o.rows.commands[k], o.work[k], k, i, done, s.holds, id, scope)
  }

  /** Cleared stays cleared, so a change of stock alone keeps it. */
  lemma {:induction false} StockKeepsRowsClear(o: Order, id: Id, s: Stock, t: Stock, i: nat, done: set<nat>,
                                               scope: set<Id>)
    requires RowsClear(o, id, s, i, done, scope) && (Cleared(s.holds, id, scope) ==> Cleared(t.holds, id, scope))
    ensures RowsClear(o, id, t, i, done, scope)
  {
    forall k | 0 <= k < |o.work|
      ensures RowClear(o.rows.commands[k], o.work[k], k, i, done, t.holds, id, scope)
    {
      assert RowClear(o.rows.commands[k], o.work[k], k, i, done, s.holds, id, scope);
    }
  }

  lemma {:induction false} PutKeepsRowsClear(o: Order, id: Id, s: Stock, i: nat, done: set<nat>, scope: set<Id>, k: nat,
                                             w: Work)
    requires RowsClear(o, id, s, i, done, scope) && Rowed(o, k)
    requires RowClear(o.rows.commands[k], w, k, i, done, s.holds, id, scope)
    ensures RowsClear(Put(o, k, w), id, s, i, done, scope)
  {
    var o' := Put(o, k, w);
    forall j | 0 <= j < |o'.work|
      ensures RowClear(o'.rows.commands[j], o'.work[j], j, i, done, s.holds, id, scope)
    {
      assert RowClear(o.rows.commands[j], o.work[j], j, i, done, s.holds, id, scope);
    }
  }

  lemma {:induction false} NewRowsKeepRowsClear(o: Order, id: Id, s: Stock, i: nat, done: set<nat>, scope: set<Id>,
                                                rows: Rows)
    requires RowsClear(o, id, s, i, done, scope) && SameSellers(o.rows, rows)
    ensures RowsClear(WithRows(o, rows), id, s, i, done, scope)
  {
    var o' := WithRows(o, rows);
    forall k | 0 <= k < |o'.work|
      ensures RowClear(o'.rows.commands[k], o'.work[k], k, i, done, s.holds, id, scope)
    {
      if k < |o.work| { assert RowClear(o.rows.commands[k], o.work[k], k, i, done, s.holds, id, scope); }
    }
  }

  lemma {:induction false} ClaimKeepsRowsClear(o: Order, id: Id, s: Stock, i: nat, done: set<nat>, scope: set<Id>,
                                               k: nat,
                                               now: real)
    requires Inv(o, id, s) && RowsClear(o, id, s, i, done, scope) && Rowed(o, k)
    ensures RowsClear(ClaimRow(o, k, now), id, s, i, done, scope)
  {
    assert RowClear(o.rows.commands[k], o.work[k], k, i, done, s.holds, id, scope);
    PutKeepsRowsClear(o, id, s, i, done, scope, k, ClaimRow(o, k, now).work[k]);
    assert ClaimRow(o, k, now) == Put(o, k, ClaimRow(o, k, now).work[k]);
  }

  /** A seller's row is processed only by a call that was served with a 200. */
  lemma {:induction false} SellerCallKeepsRowsClear(o: Order, id: Id, s: Stock, i: nat, done: set<nat>, scope: set<Id>,
                                                    k: nat, fate: Fate, jitter: real, now: real)
    requires RowsClear(o, id, s, i, done, scope) && Calling(o, k) && 0.0 <= jitter < 1.0 && PlausibleFate(fate)
    ensures var r := WorkRow(o, id, s, k, fate, jitter, now); RowsClear(r.order, id, r.stock, i, done, scope)
  {
    var c, r := o.rows.commands[k], WorkRow(o, id, s, k, fate, jitter, now);
    if Cleared(s.holds, id, scope) { SettlingKeepsCleared(s, EffectOf(c), id, ScopeOf(o, k), id, scope); }
    StockKeepsRowsClear(o, id, s, r.stock, i, done, scope);
    if SettleCall(s, EffectOf(c), id, ScopeOf(o, k)).status == OK { SettlingClears(s, EffectOf(c), id, ScopeOf(o, k)); }
    assert RowClear(c, o.work[k], k, i, done, r.stock.holds, id, scope);
    PutKeepsRowsClear(o, id, r.stock, i, done, scope, k, r.order.work[k]);
    assert r.order == Put(o, k, r.order.work[k]);
  }

  /** Any other row's call, given that it keeps what is cleared. */
  lemma {:induction false} OtherCallKeepsRowsClear(o: Order, id: Id, s: Stock, i: nat, done: set<nat>, scope: set<Id>,
                                                   k: nat, fate: Fate, jitter: real, now: real)
    requires RowsClear(o, id, s, i, done, scope) && Rowed(o, k) && 0.0 <= jitter < 1.0
    requires !IsSellerStock(o.rows.commands[k])
    requires var t := WorkRow(o, id, s, k, fate, jitter, now).stock;
             Cleared(s.holds, id, scope) ==> Cleared(t.holds, id, scope)
    ensures var r := WorkRow(o, id, s, k, fate, jitter, now); RowsClear(r.order, id, r.stock, i, done, scope)
  {
    var r := WorkRow(o, id, s, k, fate, jitter, now);
    StockKeepsRowsClear(o, id, s, r.stock, i, done, scope);
    var o' := o;
    if o.work[k].at.Reporting? && (fate.Answered? || fate.Lost?) {
      var event := o.work[k].at.event;
      var rows := Advance(o.rows, event, Sent(k, event)).rows;
      EventKeepsSellers(o.rows, event, Sent(k, event));
      NewRowsKeepRowsClear(o, id, r.stock, i, done, scope, rows);
      o' := WithRows(o, rows);
    }
    PutKeepsRowsClear(o', id, r.stock, i, done, scope, k, r.order.work[k]);
    assert r.order == Put(o', k, r.order.work[k]);
  }

  lemma {:induction false} OrderStepKeepsRowsClear(o: Order, id: Id, s: Stock, i: nat, done: set<nat>, scope: set<Id>,
                                                   step: OrderStep)
    requires Inv(o, id, s) && SellerShape(o) && RowsClear(o, id, s, i, done, scope) && Allowed(step)
    requires var t := TakeOrderStep(o, id, s, step).stock; Cleared(s.holds, id, scope) ==> Cleared(t.holds, id, scope)
    ensures var r := TakeOrderStep(o, id, s, step); RowsClear(r.order, id, r.stock, i, done, scope)
  {
    match step
    case Claim(k, now) => if Rowed(o, k) { ClaimKeepsRowsClear(o, id, s, i, done, scope, k, now); }
    case Call(k, fate, jitter, now) =>
      if Rowed(o, k) {
        assert SellerRowOk(o.rows.commands[k], o.work[k], o.rows);
        if !IsSellerStock(o.rows.commands[k]) {
          OtherCallKeepsRowsClear(o, id, s, i, done, scope, k, fate, jitter, now);
        } else if !o.work[k].at.Idle? {
          SellerCallKeepsRowsClear(o, id, s, i, done, scope, k, fate, jitter, now);
        }
      }
    case Act(j, action, reasoned) =>
      ActKeepsSellers(o.rows, j, action, reasoned);
      NewRowsKeepRowsClear(o, id, s, i, done, scope, Transition(o.rows, j, action, reasoned).rows);
    case Sweep(stale) =>
      SweepKeepsSellers(o.rows, stale);
      NewRowsKeepRowsClear(o, id, s, i, done, scope, Reap(o.rows, stale));
    case OtherEvent(event, name) =>
      EventKeepsSellers(o.rows, event, EventKey.CallerKey(name));
      NewRowsKeepRowsClear(o, id, s, i, done, scope, Advance(o.rows, event, EventKey.CallerKey(name)).rows);
  }

  lemma {:induction false} StepKeepsRowsClear(w: World, step: WorldStep, id: Id, i: nat, done: set<nat>, scope: set<Id>)
    requires WorldInv(w) && AllShaped(w) && (step.InOrder? ==> Allowed(step.step)) && id in w.orders
    requires Attempted(w.orders[id], id, w.stock, scope) && RowsClear(w.orders[id], id, w.stock, i, done, scope)
    ensures var w' := TakeStep(w, step);
            && id in w'.orders && Attempted(w'.orders[id], id, w'.stock, scope)
            && RowsClear(w'.orders[id], id, w'.stock, i, done, scope)
  {
    var w' := TakeStep(w, step);
    StepKeepsAttempted(w, step, id, scope);
    if Cleared(w.stock.holds, id, scope) { StepKeepsCleared(w, step, id, scope); }
    if step.InOrder? && step.id == id {
      OrderStepKeepsRowsClear(w.orders[id], id, w.stock, i, done, scope, step.step);
    } else {
      assert w'.orders[id] == w.orders[id];
      StockKeepsRowsClear(w.orders[id], id, w.stock, w'.stock, i, done, scope);
    }
  }

  /** The rows of an order that are processed. */
  function Processed(o: Order): set<nat> { set k: nat | k < |o.work| && o.work[k].delivery.processed }

  lemma {:induction false} RunKeepsRowsClear(stock: Stock, before: seq<WorldStep>, after: seq<WorldStep>, id: Id,
                                             i: nat,
                                             done: set<nat>, scope: set<Id>)
    requires AllAllowed(before) && AllAllowed(after) && id in RunWorld(World(map[], stock), before).orders
    requires var w := RunWorld(World(map[], stock), before);
             Attempted(w.orders[id], id, w.stock, scope) && RowsClear(w.orders[id], id, w.stock, i, done, scope)
    ensures var w' := RunWorld(RunWorld(World(map[], stock), before), after);
            && id in w'.orders && Attempted(w'.orders[id], id, w'.stock, scope)
            && RowsClear(w'.orders[id], id, w'.stock, i, done, scope)
  {
    if after != [] {
      var front, last := after[..|after| - 1], after[|after| - 1];
      assert AllAllowed(front);
      RunKeepsRowsClear(stock, before, front, id, i, done, scope);
      RunsCompose(World(map[], stock), before, front);
      assert AllAllowed(before + front);
      EveryRunKeepsInv(stock, before + front);
      EveryRunKeepsShape(stock, before + front);
      StepKeepsRowsClear(RunWorld(RunWorld(World(map[], stock), before), front), last, id, i, done, scope);
    }
  }

  /** The condition a caller can read before the call: nothing on this seller's products is still to be attempted. */
  predicate NothingToCome(w: World, id: Id, i: nat) {
    id in w.orders && i < |w.orders[id].rows.children|
    && Attempted(w.orders[id], id, w.stock, w.orders[id].rows.children[i].products)
  }

  /** Row k of the order is seller i's stock command, processed, and was not processed in w. */
  predicate NewlyProcessed(w: World, w': World, id: Id, i: nat, k: nat) {
    && id in w.orders && id in w'.orders && k < |w'.orders[id].work| == |w'.orders[id].rows.commands|
    && IsSellerStock(w'.orders[id].rows.commands[k]) && w'.orders[id].rows.commands[k].child == i
    && w'.orders[id].work[k].delivery.processed && k !in Processed(w.orders[id])
  }

  /** After any allowed run, with nothing to come for this seller: however the run goes on, whoever else cancels, every
      stock command of this seller that is processed from here on has left nothing held on its products. */
  lemma {:induction false} SafeOnceAttempted(stock: Stock, before: seq<WorldStep>, after: seq<WorldStep>, id: Id,
                                             i: nat, k: nat)
    requires AllAllowed(before) && AllAllowed(after) && NothingToCome(RunWorld(World(map[], stock), before), id, i)
    requires var w := RunWorld(World(map[], stock), before); NewlyProcessed(w, RunWorld(w, after), id, i, k)
    ensures var w := RunWorld(World(map[], stock), before);
            Cleared(RunWorld(w, after).stock.holds, id, w.orders[id].rows.children[i].products)
  {
    var w := RunWorld(World(map[], stock), before);
    var scope, done := w.orders[id].rows.children[i].products, Processed(w.orders[id]);
    EveryRunKeepsInv(stock, before);
    assert Inv(w.orders[id], id, w.stock);
    assert RowsClear(w.orders[id], id, w.stock, i, done, scope);
    RunKeepsRowsClear(stock, before, after, id, i, done, scope);
    var o := RunWorld(w, after).orders[id];
    assert RowClear(o.rows.commands[k], o.work[k], k, i, done, RunWorld(w, after).stock.holds, id, scope);
  }

  /** A seller order at work has nothing to come: the reservation was reported, so every key is spent. */
  lemma {:induction false} WorkingHasNothingToCome(stock: Stock, steps: seq<WorldStep>, id: Id, i: nat)
    requires AllAllowed(steps) && id in RunWorld(World(map[], stock), steps).orders
    requires var o := RunWorld(World(map[], stock), steps).orders[id];
             i < |o.rows.children| && Working(o.rows.children[i].status)
    ensures NothingToCome(RunWorld(World(map[], stock), steps), id, i)
  {
    EveryRunKeepsInv(stock, steps);
    EveryRunKeepsShape(stock, steps);
    var w := RunWorld(World(map[], stock), steps);
    assert SellerShape(w.orders[id]) && Inv(w.orders[id], id, w.stock);
  }

  /** So the stock command of a seller order past PENDING is always safe, whatever happens elsewhere. */
  lemma {:induction false} LateCancelIsSafe(stock: Stock, before: seq<WorldStep>, after: seq<WorldStep>, id: Id, i: nat,
                                            k: nat)
    requires AllAllowed(before) && AllAllowed(after) && id in RunWorld(World(map[], stock), before).orders
    requires var w := RunWorld(World(map[], stock), before);
             && i < |w.orders[id].rows.children| && Working(w.orders[id].rows.children[i].status)
             && NewlyProcessed(w, RunWorld(w, after), id, i, k)
    ensures var w := RunWorld(World(map[], stock), before);
            Cleared(RunWorld(w, after).stock.holds, id, w.orders[id].rows.children[i].products)
  {
    WorkingHasNothingToCome(stock, before, id, i);
    SafeOnceAttempted(stock, before, after, id, i, k);
  }
}
