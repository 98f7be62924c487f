/** Which products each seller order answers for, told from the payload, and that between them the sellers' stock
    commands empty an order. */
module SellerCoverage {
  import opened Basics
  import opened Transitions
  import opened Ordering
  import opened Sequences
  import opened OrderLines
  import opened Payload
  import opened Inventory
  import opened Reservation
  import opened OrderSaga
  import opened Protocol
  import opened SellerCancel
  import SagaReports
  import L = StockLedger

  /* ---------- the products of a seller order ---------- */

  lemma {:induction false} SumOfSome<T>(s: seq<T>, f: T -> int)
    requires forall x :: x in s ==> f(x) >= 0
    ensures Sum(s, f) >= 0
    ensures Sum(s, f) > 0 <==> exists x :: x in s && f(x) > 0
  {
    if s != [] {
      var n := |s| - 1;
      assert s == s[..n] + [s[n]];
      SumOfSome(s[..n], f);
    }
  }

  /** A line is on the plan exactly when an entry of its seller says the same. */
  lemma {:induction false} OnThePlanIff(plan: SellerPlan, entries: seq<Entry>, l: SplitLine)
    requires Shares(plan, entries)
    ensures l in plan.lines <==> l.seller == plan.seller && exists e :: e in entries && Copies(l)(e) == 1
  {
    SumOfSome(entries, Copies(l));
    assert l in plan.lines <==> multiset(plan.lines)[l] > 0;
  }

  lemma {:induction false} ProductsAreTheSellers(plan: SellerPlan, entries: seq<Entry>)
    requires Shares(plan, entries) && forall e :: e in entries && e.Line? ==> Sound(e)
    ensures ChildOf(plan).products == ProductsFrom(entries, plan.seller)
  {
    forall p ensures p in ChildOf(plan).products <==> p in ProductsFrom(entries, plan.seller) {
      if p in ChildOf(plan).products {
        var l :| l in plan.lines && l.product == p;
        OnThePlanIff(plan, entries, l);
      }
      if p in ProductsFrom(entries, plan.seller) {
        var e :| e in entries && e.Line? && e.seller == plan.seller && e.product == p;
        OnThePlanIff(plan, entries, LineOf(e));
        assert Copies(LineOf(e))(e) == 1;
      }
    }
  }

  /** One seller order per seller named in the payload, each answering for exactly that seller's products. */
  ghost predicate Answerable(children: seq<Child>, entries: seq<Entry>) {
    && (forall s :: s in SellersIn(entries) <==> exists i :: 0 <= i < |children| && children[i].seller == s)
    && (forall i, j :: 0 <= i < j < |children| ==> Less(children[i].seller, children[j].seller))
    && (forall i :: 0 <= i < |children| ==> children[i].products == ProductsFrom(entries, children[i].seller))
  }

  lemma {:induction false} ChildrenAreThePlans(plans: seq<SellerPlan>, entries: seq<Entry>)
    requires forall e :: e in entries && e.Line? ==> Sound(e)
    requires forall s :: s in SellersIn(entries) <==> exists i :: 0 <= i < |plans| && plans[i].seller == s
    requires forall i, j :: 0 <= i < j < |plans| ==> Less(plans[i].seller, plans[j].seller)
    requires forall i :: 0 <= i < |plans| ==> Shares(plans[i], entries)
    ensures Answerable(Start(plans).children, entries)
  {
    var children := Start(plans).children;
    forall i | 0 <= i < |children| ensures children[i].products == ProductsFrom(entries, children[i].seller) {
      ProductsAreTheSellers(plans[i], entries);
    }
    forall s ensures s in SellersIn(entries) <==> exists i :: 0 <= i < |children| && children[i].seller == s {
      if s in SellersIn(entries) {
        var i :| 0 <= i < |plans| && plans[i].seller == s;
        assert children[i].seller == s;
      }
      if i :| 0 <= i < |children| && children[i].seller == s { assert plans[i].seller == s; }
    }
  }

  /** A new saga waits, asks for its stock once, and its seller orders are the payload's. */
  lemma {:induction false} NewOrderIsAnswerable(entries: seq<Entry>)
    requires Split(entries).Some?
    ensures var r := Start(Split(entries).value);
            && r.status.Pending? && r.commands == [ReserveInventory] && r.keys == {}
            && Answerable(r.children, entries) && forall i :: 0 <= i < |r.children| ==> r.children[i].status.Pending?
  {
    AcceptedIff(entries);
    SplitTellsThePayload(entries);
    ChildrenAreThePlans(Split(entries).value, entries);
  }

  /** The payload names something to sell, and every line of it is sound. */
  predicate Acceptable(entries: seq<Entry>) {
    && (exists i :: 0 <= i < |entries| && entries[i].Line?)
    && (forall i :: 0 <= i < |entries| && entries[i].Line? ==> Sound(entries[i]))
  }

  /** An order is placed if and only if its id is new and its payload acceptable. It then waits, with the planner's
      reading of the payload, one command to reserve it, and seller orders that answer for what was asked of them. */
  lemma {:induction false} PlacingAnOrder(w: World, id: Id, entries: seq<Entry>)
    ensures var w' := TakeStep(w, PlaceOrder(id, entries));
            if Unused(w, id) && Acceptable(entries) then
              && w'.stock == w.stock && w'.orders.Keys == w.orders.Keys + {id}
              && (forall other :: other in w.orders ==> w'.orders[other] == w.orders[other])
              && w'.orders[id].plan == Plan(entries) && w'.orders[id].work == [Fresh]
              && w'.orders[id].rows.status.Pending? && w'.orders[id].rows.commands == [ReserveInventory]
              && Answerable(w'.orders[id].rows.children, entries)
            else w' == w
  {
    AcceptedIff(entries);
    if Unused(w, id) && Acceptable(entries) { NewOrderIsAnswerable(entries); }
  }

  /** Nothing that happens to a saga changes who its seller orders are or what they answer for. */
  predicate SameLabels(a: seq<Child>, b: seq<Child>) {
    |b| == |a| && forall i :: 0 <= i < |a| ==> b[i].seller == a[i].seller && b[i].products == a[i].products
  }

  lemma {:induction false} StepKeepsLabels(r: Rows, step: Step)
    ensures SameLabels(r.children, Take(r, step).children)
  {
  }

  lemma {:induction false} RunKeepsLabels(r: Rows, steps: seq<Step>)
    ensures SameLabels(r.children, RunSteps(r, steps).children)
  {
    if steps != [] {
      RunKeepsLabels(r, steps[..|steps| - 1]);
      StepKeepsLabels(RunSteps(r, steps[..|steps| - 1]), steps[|steps| - 1]);
    }
  }

  /** In every run, every order's seller orders answer for exactly the products their sellers were asked for. */
  lemma {:induction false} OrdersAreAnswerable(stock: Stock, steps: seq<WorldStep>, id: Id)
    returns (entries: seq<Entry>)
    requires id in RunWorld(World(map[], stock), steps).orders
    ensures PlaceOrder(id, entries) in steps && Split(entries).Some?
    ensures var o := RunWorld(World(map[], stock), steps).orders[id];
            o.plan == Plan(entries) && Answerable(o.rows.children, entries)
  {
    var own;
    entries, own := SagaReports.RowsAreARun(stock, steps, id);
    NewOrderIsAnswerable(entries);
    RunKeepsLabels(Start(Split(entries).value), own);
    var before := Start(Split(entries).value).children;
    var after := RunSteps(Start(Split(entries).value), own).children;
    forall s ensures s in SellersIn(entries) <==> exists i :: 0 <= i < |after| && after[i].seller == s {
      if s in SellersIn(entries) {
        var i :| 0 <= i < |before| && before[i].seller == s;
        assert after[i].seller == s;
      }
      if i :| 0 <= i < |after| && after[i].seller == s { assert before[i].seller == s; }
    }
  }

  /* ---------- every planned product is somebody's ---------- */

  predicate SoldIn(children: seq<Child>, product: Id) {
    exists i :: 0 <= i < |children| && product in children[i].products
  }

  lemma {:induction false} PlannedIsSold(entries: seq<Entry>, children: seq<Child>, product: Id)
    requires Plan(entries).Usable? && Answerable(children, entries)
    ensures PlannedIn(Plan(entries).items, product) <==> SoldIn(children, product)
  {
    PlanCoversTheProducts(entries);
    if PlannedIn(Plan(entries).items, product) {
      var e :| e in entries && e.Line? && e.product == product;
      assert e.seller in SellersIn(entries);
      var i :| 0 <= i < |children| && children[i].seller == e.seller;
      assert product in children[i].products;
    }
    if i :| 0 <= i < |children| && product in children[i].products {
      assert product in ProductsFrom(entries, children[i].seller);
    }
  }

  /** In every run an order's planned products are exactly those of its seller orders. */
  lemma {:induction false} EveryPlannedProductIsSold(stock: Stock, steps: seq<WorldStep>, id: Id, product: Id)
    requires id in RunWorld(World(map[], stock), steps).orders
    requires RunWorld(World(map[], stock), steps).orders[id].plan.Usable?
    ensures var o := RunWorld(World(map[], stock), steps).orders[id];
            PlannedIn(o.plan.items, product) <==> SoldIn(o.rows.children, product)
  {
    var entries := OrdersAreAnswerable(stock, steps, id);
    PlannedIsSold(entries, RunWorld(World(map[], stock), steps).orders[id].rows.children, product);
  }

  /* ---------- the sellers' commands empty the order ---------- */

  /** Whatever the order holds is on one of its planned lines. */
  predicate HoldsThePlan(o: Order, id: Id, holds: seq<Hold>) {
    forall j :: 0 <= j < |holds| && holds[j].order == id && holds[j].status.Held? ==>
      o.plan.Usable? && PlannedIn(o.plan.items, holds[j].product)
  }

  lemma {:induction false} ServingHoldsThePlan(o: Order, id: Id, s: Stock, c: L.Call)
    requires HoldsThePlan(o, id, s.holds)
    requires c.ReserveRequest? && c.order == id ==> o.plan.Usable? && PlannedIn(o.plan.items, c.product)
    ensures HoldsThePlan(o, id, L.Serve(s, c).holds)
  {
    var t := L.Serve(s, c);
    forall j | 0 <= j < |t.holds| && t.holds[j].order == id && t.holds[j].status.Held?
      ensures o.plan.Usable? && PlannedIn(o.plan.items, t.holds[j].product)
    {
      if j < |s.holds| { assert t.holds[j] == s.holds[j]; }
    }
  }

  lemma {:induction false} StepHoldsThePlan(w: World, step: WorldStep, id: Id)
    requires id in w.orders && HoldsThePlan(w.orders[id], id, w.stock.holds)
    ensures id in TakeStep(w, step).orders
    ensures HoldsThePlan(TakeStep(w, step).orders[id], id, TakeStep(w, step).stock.holds)
  {
    StepServes(w, step);
    StepKeepsPlan(w, step, id);
    match StockCall(w, step)
    case None =>
    case Some(c) =>
      if c.ReserveRequest? && c.order == id {
        var o := w.orders[id];
        assert exists i :: 0 <= i < |o.plan.items| && o.plan.items[i].product == c.product;
      }
      ServingHoldsThePlan(w.orders[id], id, w.stock, c);
  }

  lemma {:induction false} EveryRunHoldsThePlan(stock: Stock, steps: seq<WorldStep>, id: Id)
    requires id in RunWorld(World(map[], stock), steps).orders
    ensures var w := RunWorld(World(map[], stock), steps); HoldsThePlan(w.orders[id], id, w.stock.holds)
  {
    var front, last := steps[..|steps| - 1], steps[|steps| - 1];
    var w := RunWorld(World(map[], stock), front);
    if id in w.orders {
      EveryRunHoldsThePlan(stock, front, id);
      StepHoldsThePlan(w, last, id);
    }
  }

  ghost predicate SellerDone(w: World, w': World, id: Id, i: nat) {
    exists k: nat :: NewlyProcessed(w, w', id, i, k)
  }

  /** Every planned line was attempted by the time of w, and since then every seller order has had a stock command
      marked processed. */
  ghost predicate AllSellersDone(w: World, w': World, id: Id) {
    && id in w.orders && Attempted(w.orders[id], id, w.stock, {})
    && forall i: nat :: i < |w.orders[id].rows.children| ==> SellerDone(w, w', id, i)
  }

  lemma {:induction false} DoneSellerIsClear(stock: Stock, before: seq<WorldStep>, after: seq<WorldStep>, id: Id,
                                             i: nat)
    requires AllAllowed(before) && AllAllowed(after)
    requires var w := RunWorld(World(map[], stock), before);
             && id in w.orders && i < |w.orders[id].rows.children| && Attempted(w.orders[id], id, w.stock, {})
             && SellerDone(w, RunWorld(w, after), id, i)
    ensures var w := RunWorld(World(map[], stock), before);
            Cleared(RunWorld(w, after).stock.holds, id, w.orders[id].rows.children[i].products)
  {
    var w := RunWorld(World(map[], stock), before);
    var k: nat :| NewlyProcessed(w, RunWorld(w, after), id, i, k);
    assert NothingToCome(w, id, i);
    SafeOnceAttempted(stock, before, after, id, i, k);
  }

  lemma {:induction false} ClearedOfAll(o: Order, id: Id, holds: seq<Hold>)
    requires HoldsThePlan(o, id, holds)
    requires o.plan.Usable? ==> forall p :: PlannedIn(o.plan.items, p) ==> SoldIn(o.rows.children, p)
    requires forall i :: 0 <= i < |o.rows.children| ==> Cleared(holds, id, o.rows.children[i].products)
    ensures HoldsNothing(holds, id)
  {
  }

  /** Then, in every allowed run, the order holds nothing at all: between them its sellers answered for every line. */
  lemma {:induction false} SellersEmptyTheOrder(stock: Stock, before: seq<WorldStep>, after: seq<WorldStep>, id: Id)
    requires AllAllowed(before) && AllAllowed(after)
    requires var w := RunWorld(World(map[], stock), before); AllSellersDone(w, RunWorld(w, after), id)
    ensures HoldsNothing(RunWorld(RunWorld(World(map[], stock), before), after).stock.holds, id)
  {
    var w := RunWorld(World(map[], stock), before);
    var o, holds := w.orders[id], RunWorld(w, after).stock.holds;
    HoldsThePlanLater(stock, before, after, id);
    if o.plan.Usable? {
      forall p | PlannedIn(o.plan.items, p) ensures SoldIn(o.rows.children, p) {
        EveryPlannedProductIsSold(stock, before, id, p);
      }
    }
    forall i | 0 <= i < |o.rows.children| ensures Cleared(holds, id, o.rows.children[i].products) {
      DoneSellerIsClear(stock, before, after, id, i);
    }
    ClearedOfAll(o, id, holds);
  }

  lemma {:induction false} HoldsThePlanLater(stock: Stock, before: seq<WorldStep>, after: seq<WorldStep>, id: Id)
    requires id in RunWorld(World(map[], stock), before).orders
    ensures var w := RunWorld(World(map[], stock), before);
            HoldsThePlan(w.orders[id], id, RunWorld(w, after).stock.holds)
  {
    var w := RunWorld(World(map[], stock), before);
    RunsCompose(World(map[], stock), before, after);
    OrdersStay(w, after, id);
    EveryRunHoldsThePlan(stock, before + after, id);
  }

  lemma {:induction false} OrdersStay(w: World, steps: seq<WorldStep>, id: Id)
    requires id in w.orders
    ensures id in RunWorld(w, steps).orders && RunWorld(w, steps).orders[id].plan == w.orders[id].plan
  {
    if steps != [] {
      OrdersStay(w, steps[..|steps| - 1], id);
      StepKeepsPlan(RunWorld(w, steps[..|steps| - 1]), steps[|steps| - 1], id);
    }
  }
}
