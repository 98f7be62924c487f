/** When the dispatcher's report of a reservation is true. A key spent by a refusal answers 200 on the next attempt, so
    a retried command can report lines that were never held. */
module ReservationReport {
  import opened Basics
  import opened Transitions
  import opened Ordering
  import opened OrderLines
  import opened Inventory
  import opened Reservation
  import opened Protocol
  import opened Sequences
  import L = StockLedger
  import StockLeak
  import Outbox

  /* ---------- what became of one line ---------- */

  predicate LiveAt(holds: seq<Hold>, j: nat, id: Id, p: Id) {
    j < |holds| && holds[j].order == id && holds[j].product == p && holds[j].status.Held?
  }

  /** A live hold of the order on the product stops being live. */
  ghost predicate Settles(before: seq<Hold>, after: seq<Hold>, id: Id, p: Id) {
    exists j: nat :: LiveAt(before, j, id, p) && !LiveAt(after, j, id, p)
  }

  /** The line's key is spent, and nothing is held for it. */
  predicate Refuses(before: Stock, after: Stock, id: Id, p: Id) {
    LineKey(id, p) !in before.keys && LineKey(id, p) in after.keys && after.holds == before.holds
  }

  /** Some step of the run since the order was placed spent the line's key on a refusal. */
  predicate SpentByRefusal(w: World, steps: seq<WorldStep>, id: Id, p: Id) {
    steps != [] &&
    var front := steps[..|steps| - 1];
    || SpentByRefusal(w, front, id, p)
    || (id in RunWorld(w, front).orders && Refuses(RunWorld(w, front).stock, RunWorld(w, steps).stock, id, p))
  }

  /** Some step of the run since the order was placed settled the line's hold. */
  ghost predicate SettledSince(w: World, steps: seq<WorldStep>, id: Id, p: Id) {
    steps != [] &&
    var front := steps[..|steps| - 1];
    || SettledSince(w, front, id, p)
    || (id in RunWorld(w, front).orders
        && Settles(RunWorld(w, front).stock.holds, RunWorld(w, steps).stock.holds, id, p))
  }

  predicate IsHeld(holds: seq<Hold>, id: Id, line: ItemReservation) {
    exists j :: 0 <= j < |holds| && holds[j] == Hold(id, line.product, line.quantity, Held)
  }

  /* ---------- the line's invariant ---------- */

  ghost predicate AtMostOneLive(holds: seq<Hold>, id: Id, p: Id) {
    forall i: nat, j: nat :: LiveAt(holds, i, id, p) && LiveAt(holds, j, id, p) ==> i == j
  }

  ghost predicate LiveAreExact(holds: seq<Hold>, id: Id, line: ItemReservation) {
    forall j: nat :: LiveAt(holds, j, id, line.product) ==> holds[j].quantity == line.quantity
  }

  /** The line is held exactly when its key was spent, not on a refusal, and nothing settled it since. */
  ghost predicate LineOk(s: Stock, id: Id, line: ItemReservation, refused: bool, settled: bool) {
    && AtMostOneLive(s.holds, id, line.product)
    && LiveAreExact(s.holds, id, line)
    && (refused || settled ==> LineKey(id, line.product) in s.keys)
    && (HasLive(s.holds, id, line.product) <==> LineKey(id, line.product) in s.keys && !refused && !settled)
  }

  /** A call is one this order could have made for this line, or leaves the line's key and holds alone. */
  predicate Proper(c: L.Call, id: Id, line: ItemReservation) {
    c.ReserveRequest? ==>
      && (c.order == id ==> c.key == LineKey(id, c.product))
      && (c.order == id && c.product == line.product ==> c.quantity == line.quantity)
      && (c.key == LineKey(id, line.product) ==> c.order == id && c.product == line.product)
  }

  lemma {:induction false} SettleKeepsLine(s: Stock, effect: Effect, order: Id, scope: set<Id>, id: Id,
                                           line: ItemReservation,
                                           refused: bool, settled: bool)
    requires LineOk(s, id, line, refused, settled)
    ensures var t := SettleCall(s, effect, order, scope).stock;
            && !Refuses(s, t, id, line.product)
            && LineOk(t, id, line, refused, settled || Settles(s.holds, t.holds, id, line.product))
  {
    var t, p := SettleCall(s, effect, order, scope).stock, line.product;
    assert forall j: nat :: LiveAt(t.holds, j, id, p) ==> LiveAt(s.holds, j, id, p) && t.holds[j] == s.holds[j];
    if HasLive(s.holds, id, p) {
      var j :| 0 <= j < |s.holds| && s.holds[j].order == id && s.holds[j].product == p && s.holds[j].status.Held?;
      assert LiveAt(s.holds, j, id, p);
      if LiveAt(t.holds, j, id, p) {
        assert HasLive(t.holds, id, p);
        assert !Settles(s.holds, t.holds, id, p);
      }
    }
    if HasLive(t.holds, id, p) {
      var j :| 0 <= j < |t.holds| && t.holds[j].order == id && t.holds[j].product == p && t.holds[j].status.Held?;
      assert LiveAt(t.holds, j, id, p);
    }
  }

  /** A reservation that adds no hold for the line, and does not spend its key, leaves it alone. */
  lemma {:induction false} OtherHoldKeepsLine(s: Stock, t: Stock, h: Hold, id: Id, line: ItemReservation,
                                              refused: bool, settled: bool)
    requires LineOk(s, id, line, refused, settled) && t.holds == s.holds + [h]
    requires !(h.order == id && h.product == line.product)
    requires LineKey(id, line.product) in t.keys <==> LineKey(id, line.product) in s.keys
    ensures LineOk(t, id, line, refused, settled) && !Settles(s.holds, t.holds, id, line.product)
  {
    var p := line.product;
    assert forall j: nat :: LiveAt(t.holds, j, id, p) <==> LiveAt(s.holds, j, id, p);
    assert HasLive(t.holds, id, p) <==> HasLive(s.holds, id, p) by {
      if HasLive(s.holds, id, p) {
        var j :| 0 <= j < |s.holds| && s.holds[j].order == id && s.holds[j].product == p && s.holds[j].status.Held?;
        assert LiveAt(s.holds, j, id, p);
        assert t.holds[j] == s.holds[j];
      }
    }
  }

  lemma {:induction false} GrantMakesLine(s: Stock, t: Stock, id: Id, line: ItemReservation)
    requires LineOk(s, id, line, false, false) && LineKey(id, line.product) !in s.keys
    requires t.holds == s.holds + [Hold(id, line.product, line.quantity, Held)] && LineKey(id, line.product) in t.keys
    ensures LineOk(t, id, line, false, false) && !Settles(s.holds, t.holds, id, line.product)
  {
    var p, n := line.product, |s.holds|;
    assert forall j: nat :: !LiveAt(s.holds, j, id, p);
    assert forall j: nat :: LiveAt(t.holds, j, id, p) ==> j == n;
    assert t.holds[n].status.Held?;
  }

  lemma {:induction false} SameHoldsKeepLine(s: Stock, t: Stock, id: Id, line: ItemReservation, refused: bool,
                                             settled: bool)
    requires LineOk(s, id, line, refused, settled) && t.holds == s.holds
    requires LineKey(id, line.product) in s.keys ==> LineKey(id, line.product) in t.keys
    ensures !Settles(s.holds, t.holds, id, line.product)
    ensures LineOk(t, id, line, refused || Refuses(s, t, id, line.product), settled)
  {
  }

  lemma {:induction false} ReserveKeepsLine(s: Stock, c: L.Call, id: Id, line: ItemReservation, refused: bool,
                                            settled: bool)
    requires LineOk(s, id, line, refused, settled) && c.ReserveRequest? && Proper(c, id, line)
    ensures var t := L.Serve(s, c);
            LineOk(t, id, line, refused || Refuses(s, t, id, line.product),
                   settled || Settles(s.holds, t.holds, id, line.product))
  {
    var t := L.Serve(s, c);
    if t.holds == s.holds {
      SameHoldsKeepLine(s, t, id, line, refused, settled);
    } else {
      var h := Hold(c.order, c.product, c.quantity, Held);
      assert t.holds == s.holds + [h];
      if c.order == id && c.product == line.product {
        GrantMakesLine(s, t, id, line);
      } else {
        OtherHoldKeepsLine(s, t, h, id, line, refused, settled);
      }
    }
  }

  lemma {:induction false} ServeKeepsLine(s: Stock, call: Option<L.Call>, id: Id, line: ItemReservation,
                                          refused: bool, settled: bool)
    requires LineOk(s, id, line, refused, settled) && (call.Some? ==> Proper(call.value, id, line))
    ensures var t := ServeIf(s, call);
            LineOk(t, id, line, refused || Refuses(s, t, id, line.product),
                   settled || Settles(s.holds, t.holds, id, line.product))
  {
    match call
    case None => assert ServeIf(s, call) == s;
    case Some(c) =>
      match c
      case ReserveRequest(_, _, _, _) => ReserveKeepsLine(s, c, id, line, refused, settled);
      case SettleRequest(effect, order, scope) => SettleKeepsLine(s, effect, order, scope, id, line, refused, settled);
  }

  /* ---------- every run ---------- */

  /** The order's plan, and the line at position k of it. */
  predicate Plans(w: World, id: Id, line: ItemReservation) {
    && id in w.orders && w.orders[id].plan.Usable?
    && WellFormed(w.orders[id].plan.items) && line in w.orders[id].plan.items
  }

  lemma {:induction false} CallsAreProper(w: World, step: WorldStep, id: Id, line: ItemReservation)
    requires Plans(w, id, line) && StockCall(w, step).Some?
    ensures Proper(StockCall(w, step).value, id, line)
  {
  }

  lemma {:induction false} NoHistoryYet(w: World, steps: seq<WorldStep>, id: Id, p: Id)
    requires id !in RunWorld(w, steps).orders
    ensures !SpentByRefusal(w, steps, id, p) && !SettledSince(w, steps, id, p)
  {
    if steps != [] {
      var front := steps[..|steps| - 1];
      if id in RunWorld(w, front).orders { StepKeepsPlan(RunWorld(w, front), steps[|steps| - 1], id); }
      NoHistoryYet(w, front, id, p);
    }
  }

  lemma {:induction false} PlacedClean(w: World, id: Id, line: ItemReservation)
    requires Unused(w, id)
    ensures LineOk(w.stock, id, line, false, false)
  {
    assert forall j: nat :: !LiveAt(w.stock.holds, j, id, line.product);
  }

  ghost predicate LineTold(w: World, steps: seq<WorldStep>, id: Id, line: ItemReservation) {
    LineOk(RunWorld(w, steps).stock, id, line, SpentByRefusal(w, steps, id, line.product),
           SettledSince(w, steps, id, line.product))
  }

  /** In every run, however often the command is retried, each planned line is held as its history says. */
  lemma {:induction false} EveryLineIsTold(stock: Stock, steps: seq<WorldStep>, id: Id, line: ItemReservation)
    requires Plans(RunWorld(World(map[], stock), steps), id, line)
    ensures LineTold(World(map[], stock), steps, id, line)
  {
    var start := World(map[], stock);
    if steps == [] {
      assert false;
    } else {
      var front, last := steps[..|steps| - 1], steps[|steps| - 1];
      var w := RunWorld(start, front);
      StepServes(w, last);
      if id in w.orders {
        StepKeepsPlan(w, last, id);
        EveryLineIsTold(stock, front, id, line);
        if StockCall(w, last).Some? { CallsAreProper(w, last, id, line); }
        ServeKeepsLine(w.stock, StockCall(w, last), id, line, SpentByRefusal(start, front, id, line.product),
                       SettledSince(start, front, id, line.product));
      } else {
        NoHistoryYet(start, front, id, line.product);
        PlacedClean(w, id, line);
      }
    }
  }

  lemma {:induction false} HeldIffLive(s: Stock, id: Id, line: ItemReservation)
    requires LiveAreExact(s.holds, id, line)
    ensures IsHeld(s.holds, id, line) <==> HasLive(s.holds, id, line.product)
  {
    if HasLive(s.holds, id, line.product) {
      var j :| 0 <= j < |s.holds| && s.holds[j].order == id && s.holds[j].product == line.product
               && s.holds[j].status.Held?;
      assert LiveAt(s.holds, j, id, line.product);
      assert s.holds[j] == Hold(id, line.product, line.quantity, Held);
    }
  }

  /** About to report the reservation: a planned line is held in its quantity exactly when its key was not spent by a
      refusal and its hold was not settled since the order was placed. */
  lemma {:induction false} LineIsHeldIff(stock: Stock, steps: seq<WorldStep>, id: Id, k: nat)
    requires AllAllowed(steps) && id in RunWorld(World(map[], stock), steps).orders
    requires var o := RunWorld(World(map[], stock), steps).orders[id];
             |o.work| > 0 && o.work[0].at == Reporting(StockReserved) && o.plan.Usable? && k < |o.plan.items|
    ensures var w := RunWorld(World(map[], stock), steps);
            var line := w.orders[id].plan.items[k];
            IsHeld(w.stock.holds, id, line) <==>
              !SpentByRefusal(World(map[], stock), steps, id, line.product)
              && !SettledSince(World(map[], stock), steps, id, line.product)
  {
    var w := RunWorld(World(map[], stock), steps);
    var line := w.orders[id].plan.items[k];
    StockLeak.EveryRunKeepsInv(stock, steps);
    assert StockLeak.Inv(w.orders[id], id, w.stock);
    PlansAreWellFormed(stock, steps, id);
    EveryLineIsTold(stock, steps, id, line);
    HeldIffLive(w.stock, id, line);
  }

  /** So the report is true of every line exactly when that is so of every line. */
  lemma {:induction false} ReportIsTrueIff(stock: Stock, steps: seq<WorldStep>, id: Id)
    requires AllAllowed(steps) && id in RunWorld(World(map[], stock), steps).orders
    requires var o := RunWorld(World(map[], stock), steps).orders[id];
             |o.work| > 0 && o.work[0].at == Reporting(StockReserved)
    ensures var w := RunWorld(World(map[], stock), steps);
            && w.orders[id].plan.Usable?
            && ((forall k :: 0 <= k < |w.orders[id].plan.items| ==>
                   IsHeld(w.stock.holds, id, w.orders[id].plan.items[k]))
                <==> forall k :: 0 <= k < |w.orders[id].plan.items| ==>
                       && !SpentByRefusal(World(map[], stock), steps, id, w.orders[id].plan.items[k].product)
                       && !SettledSince(World(map[], stock), steps, id, w.orders[id].plan.items[k].product))
  {
    var w := RunWorld(World(map[], stock), steps);
    StockLeak.EveryRunKeepsInv(stock, steps);
    assert StockLeak.Inv(w.orders[id], id, w.stock);
    forall k | 0 <= k < |w.orders[id].plan.items|
      ensures IsHeld(w.stock.holds, id, w.orders[id].plan.items[k]) <==>
                && !SpentByRefusal(World(map[], stock), steps, id, w.orders[id].plan.items[k].product)
                && !SettledSince(World(map[], stock), steps, id, w.orders[id].plan.items[k].product)
    {
      LineIsHeldIff(stock, steps, id, k);
    }
  }

  /* ---------- at its smallest ---------- */

  const Shelf := Stock(map["p" := Level(5, 0), "q" := Level(0, 0)], [], map[])
  const PandQ := [ItemReservation("p", 1), ItemReservation("q", 1)]

  /** p is held, q is out of stock, the rollback releases p, and the report of the failure is refused. */
  const FirstTry := [Claim(0, 0.0), Call(0, Answered, 0.0, 1.0), Call(0, Answered, 0.0, 2.0),
                     Call(0, Answered, 0.0, 3.0), Call(0, Refused(503), 0.0, 4.0)]

  /** On the next attempt both keys answer 200. */
  const SecondTry := [Claim(0, 9.0), Call(0, Answered, 0.0, 10.0), Call(0, Answered, 0.0, 11.0),
                      Call(0, Answered, 0.0, 12.0)]

  const RolledBack := Stock(map["p" := Level(5, 0), "q" := Level(0, 0)], [Hold("o", "p", 1, Released)],
                            map[LineKey("o", "p") := "p", LineKey("o", "q") := "q"])
  const Retrying := Outbox.Fresh.(attempts := 1, nextAttempt := Some(6.0))

  /** The order with its one row in the given state. */
  function RowAt(plans: seq<SellerPlan>, d: Outbox.Delivery, at: Progress): Order {
    Open(Usable(PandQ), plans).(work := [Work(d, at)])
  }

  const Claimed := Outbox.Fresh.(claimedAt := Some(0.0), recorded := true)
  const Taken := Stock(map["p" := Level(4, 1), "q" := Level(0, 0)], [Hold("o", "p", 1, Held)],
                       map[LineKey("o", "p") := "p"])

  lemma {:induction false} FirstLineIsHeld(plans: seq<SellerPlan>)
    ensures RunOrder(Open(Usable(PandQ), plans), "o", Shelf, FirstTry, 2) ==
            Result(RowAt(plans, Claimed, Lines(1)), Taken)
  {
    var o := Open(Usable(PandQ), plans);
    assert RunOrder(o, "o", Shelf, FirstTry, 0) == Result(o, Shelf);
    assert RunOrder(o, "o", Shelf, FirstTry, 1) == Result(RowAt(plans, Claimed, Lines(0)), Shelf);
    assert Shelf.levels["p" := Level(4, 1)] == Taken.levels;
    assert ReserveLine(Shelf, "o", PandQ[0]) == Reply(Taken, OK);
  }

  lemma {:induction false} SecondLineIsRefused(plans: seq<SellerPlan>)
    ensures var r := TakeOrderStep(RowAt(plans, Claimed, Lines(1)), "o", Taken, FirstTry[2]);
            r == Result(RowAt(plans, Claimed, RollingBack), Taken.(keys := RolledBack.keys))
  {
    assert Taken.keys[LineKey("o", "q") := "q"] == RolledBack.keys;
    assert ReserveLine(Taken, "o", PandQ[1]) == Reply(Taken.(keys := RolledBack.keys), CONFLICT);
  }

  lemma {:induction false} ReportIsRefused(plans: seq<SellerPlan>)
    ensures TakeOrderStep(RowAt(plans, Claimed, Reporting(ReservationFailed)), "o", RolledBack, FirstTry[4]) ==
            Result(RowAt(plans, Retrying, Idle), RolledBack)
  {
    assert Outbox.Doubled(2.0, 0) == 2.0;
    assert Outbox.AfterAttempt(Claimed, Again, 0.0, 4.0) == Retrying;
  }

  lemma {:induction false} FirstTryRollsBack(plans: seq<SellerPlan>)
    ensures RunOrder(Open(Usable(PandQ), plans), "o", Shelf, FirstTry, 5) ==
            Result(RowAt(plans, Retrying, Idle), RolledBack)
  {
    var o := Open(Usable(PandQ), plans);
    FirstLineIsHeld(plans);
    SecondLineIsRefused(plans);
    assert RunOrder(o, "o", Shelf, FirstTry, 3) ==
           Result(RowAt(plans, Claimed, RollingBack), Taken.(keys := RolledBack.keys));
    ReleaseOfTaken();
    assert RunOrder(o, "o", Shelf, FirstTry, 4) ==
           Result(RowAt(plans, Claimed, Reporting(ReservationFailed)), RolledBack);
    ReportIsRefused(plans);
  }

  lemma {:induction false} ReleaseOfTaken()
    ensures SettleCall(Taken.(keys := RolledBack.keys), Release, "o", {}) == SettleReply(RolledBack, OK, 1, 1)
  {
    var s := Taken.(keys := RolledBack.keys);
    assert s.levels["p" := Level(5, 0)] == RolledBack.levels;
    assert ScanHolds(s, Release, "o", {}, 0) == Some(Scan(s.levels, 0, 0));
    assert SettleHolds(s.holds, Release, "o", {}) == RolledBack.holds;
  }

  const Reclaimed := Retrying.(claimedAt := Some(9.0), recorded := true)

  lemma {:induction false} SecondTryReports(plans: seq<SellerPlan>)
    ensures RunOrder(Open(Usable(PandQ), plans), "o", Shelf, FirstTry + SecondTry, 8) ==
            Result(RowAt(plans, Reclaimed, Reporting(StockReserved)), RolledBack)
  {
    var o, steps := Open(Usable(PandQ), plans), FirstTry + SecondTry;
    FirstTryRollsBack(plans);
    SamePrefix(o, "o", Shelf, FirstTry, steps, 5);
    assert RunOrder(o, "o", Shelf, steps, 6) == Result(RowAt(plans, Reclaimed, Lines(0)), RolledBack);
    assert ReserveLine(RolledBack, "o", PandQ[0]) == Reply(RolledBack, OK);
    assert RunOrder(o, "o", Shelf, steps, 7) == Result(RowAt(plans, Reclaimed, Lines(1)), RolledBack);
    assert ReserveLine(RolledBack, "o", PandQ[1]) == Reply(RolledBack, OK);
  }

  lemma {:induction false} SecondTryCompletes(plans: seq<SellerPlan>)
    ensures var r := RunOrder(Open(Usable(PandQ), plans), "o", Shelf, FirstTry + SecondTry, 9);
            && r.order.rows.status.OrderCompleted? && |r.order.work| == 1 && r.order.work[0].delivery.processed
            && r.stock == RolledBack
  {
    SecondTryReports(plans);
  }

  /** One seller, one of each. */
  const Bought := [Line("s", "p", Whole(1), Some(10), Some(10)), Line("s", "q", Whole(1), Some(10), Some(10))]

  lemma {:induction false} BoughtIsRead()
    ensures Split(Bought).Some? && Plan(Bought) == Usable(PandQ)
  {
    assert Parsed(Bought, 0) == Some([]) && FirstError(Bought, 0) == None;
    assert Parsed(Bought, 1).Some? && FirstError(Bought, 1) == None;
    assert Bought[0] in Bought && Bought[1] in Bought;
    assert Wanted(Bought) == {"p", "q"};
    SortOfTwo("p", "q");
    var front := Bought[..1];
    assert front[..0] == [];
    assert Sum(Bought, Planned("p")) == Sum(front, Planned("p")) + 0 && Sum(front, Planned("p")) == 1;
    assert Sum(Bought, Planned("q")) == Sum(front, Planned("q")) + 1 && Sum(front, Planned("q")) == 0;
    assert Reservations(["p", "q"], Bought) == PandQ;
  }

  lemma {:induction false} SortOfTwo(a: Id, b: Id)
    requires Less(a, b) && a != b
    ensures SortIds({a, b}) == [a, b]
  {
    LessIsAsymmetric(a, b);
    assert Least(a, {a, b});
    LeastIsUnique({a, b});
    assert {a, b} - {a} == {b} && {b} - {b} == {};
    assert Least(b, {b});
    LeastIsUnique({b});
    assert SortIds({b}) == [b] + SortIds({});
  }

  lemma {:induction false} BothPlaced() returns (plans: seq<SellerPlan>)
    ensures RunWorld(World(map[], Shelf), [PlaceOrder("o", Bought)]) ==
            World(map["o" := Open(Usable(PandQ), plans)], Shelf)
  {
    BoughtIsRead();
    plans := Split(Bought).value;
    var placed := [PlaceOrder("o", Bought)];
    assert placed[..0] == [];
    assert RunWorld(World(map[], Shelf), placed) == TakeStep(RunWorld(World(map[], Shelf), []), placed[0]);
  }

  lemma {:induction false} BothOrderRuns(steps: seq<OrderStep>) returns (plans: seq<SellerPlan>)
    ensures var r := RunOrder(Open(Usable(PandQ), plans), "o", Shelf, steps, |steps|);
            RunWorld(World(map[], Shelf), [PlaceOrder("o", Bought)] + Lift("o", steps)) ==
            World(map["o" := r.order], r.stock)
  {
    plans := BothPlaced();
    LiftRuns(World(map["o" := Open(Usable(PandQ), plans)], Shelf), "o", steps);
    RunsCompose(World(map[], Shelf), [PlaceOrder("o", Bought)], Lift("o", steps));
  }

  /** An allowed run of the whole system in which an order completes with nothing held. */
  lemma {:induction false} RetriedReportIsFalse()
    ensures var steps := [PlaceOrder("o", Bought)] + Lift("o", FirstTry + SecondTry);
            var w := RunWorld(World(map[], Shelf), steps);
            && AllAllowed(steps) && "o" in w.orders
            && w.orders["o"].rows.status.OrderCompleted? && HoldsNothing(w.stock.holds, "o")
  {
    var plans := BothOrderRuns(FirstTry + SecondTry);
    SecondTryCompletes(plans);
  }
}
