/** Exactly when cancelling a PENDING seller order can strand stock: while a planned line on its products has not been
    attempted. The line can then end held, with the cancellation's release processed and the saga completed. */
module EarlyCancel {
  import opened Basics
  import opened Transitions
  import opened OrderLines
  import opened Inventory
  import opened Reservation
  import opened OrderSaga
  import opened Protocol
  import opened StockLeak
  import opened SellerCancel
  import L = StockLedger
  import Outbox
  import S = SellerOrders

  /* ---------- continuations ---------- */

  predicate AllStepsAllowed(steps: seq<OrderStep>) { forall k :: 0 <= k < |steps| ==> Allowed(steps[k]) }

  predicate Leads(a: Result, b: Result, id: Id, steps: seq<OrderStep>) {
    AllStepsAllowed(steps) && RunOrder(a.order, id, a.stock, steps, |steps|) == b
  }

  /** Some allowed steps of the order lead from one state to the other. */
  ghost predicate Reaches(a: Result, b: Result, id: Id) { exists steps :: Leads(a, b, id, steps) }

  lemma {:induction false} Stays(a: Result, id: Id)
    ensures Reaches(a, a, id)
  {
    assert Leads(a, a, id, []);
  }

  lemma {:induction false} LeadsNext(a: Result, b: Result, id: Id, steps: seq<OrderStep>, step: OrderStep, c: Result)
    requires Leads(a, b, id, steps) && Allowed(step) && c == TakeOrderStep(b.order, id, b.stock, step)
    ensures Leads(a, c, id, steps + [step])
  {
    RunsOneMore(a.order, id, a.stock, steps, step);
  }

  lemma {:induction false} ReachesNext(a: Result, b: Result, id: Id, step: OrderStep)
    requires Reaches(a, b, id) && Allowed(step)
    ensures Reaches(a, TakeOrderStep(b.order, id, b.stock, step), id)
  {
    var steps :| Leads(a, b, id, steps);
    LeadsNext(a, b, id, steps, step, TakeOrderStep(b.order, id, b.stock, step));
  }

  /** What one order can reach alone, the whole system can reach. */
  lemma {:induction false} ReachedInTheWorld(w: World, id: Id, b: Result) returns (steps: seq<WorldStep>)
    requires id in w.orders && Reaches(Result(w.orders[id], w.stock), b, id)
    ensures AllAllowed(steps) && RunWorld(w, steps) == World(w.orders[id := b.order], b.stock)
    ensures forall k :: 0 <= k < |steps| ==> steps[k].InOrder?
  {
    var own :| Leads(Result(w.orders[id], w.stock), b, id, own);
    LiftRuns(w, id, own);
    steps := Lift(id, own);
  }

  lemma {:induction false} ReachesAnswered(a: Result, b: Result, id: Id, n: nat)
    requires Reaches(a, b, id) && Rowed(b.order, 0)
    ensures Reaches(a, AnsweredCalls(b.order, id, b.stock, n), id)
    decreases n
  {
    if n > 0 {
      ReachesNext(a, b, id, Call(0, Answered, 0.0, 0.0));
      var r := WorkRow(b.order, id, b.stock, 0, Answered, 0.0, 0.0);
      if Rowed(r.order, 0) { ReachesAnswered(a, r, id, n - 1); }
    }
  }

  /* ---------- the lines that are still to come ---------- */

  /** The line was attempted before, or can be granted now. */
  predicate Ready(s: Stock, id: Id, line: ItemReservation) {
    var key := LineKey(id, line.product);
    if key in s.keys then s.keys[key] in s.levels else OnShelf(s, line) && !HasLive(s.holds, id, line.product)
  }

  predicate AllReady(s: Stock, id: Id, lines: seq<ItemReservation>, from: nat) {
    forall k :: from <= k < |lines| ==> Ready(s, id, lines[k])
  }

  predicate Unspent(s: Stock, id: Id, line: ItemReservation) { LineKey(id, line.product) !in s.keys }

  predicate HeldFor(holds: seq<Hold>, id: Id, line: ItemReservation) {
    Hold(id, line.product, line.quantity, Held) in holds
  }

  /** A ready line answers 200; a first attempt holds it, and the other lines stay ready. */
  lemma {:induction false} ReadyLineAnswers(s: Stock, id: Id, lines: seq<ItemReservation>, i: nat)
    requires i < |lines| && id != "" && WellFormed(lines) && AllReady(s, id, lines, i)
    ensures var r := ReserveLine(s, id, lines[i]);
            && r.status == OK && AllReady(r.stock, id, lines, i + 1)
            && (Unspent(s, id, lines[i]) ==> HeldFor(r.stock.holds, id, lines[i]))
            && (forall h :: h in s.holds ==> h in r.stock.holds)
            && (forall k :: i < k < |lines| && Unspent(s, id, lines[k]) ==> Unspent(r.stock, id, lines[k]))
  {
    assert Ready(s, id, lines[i]);
    var r := ReserveLine(s, id, lines[i]);
    forall k | i < k < |lines| ensures Ready(r.stock, id, lines[k]) {
      assert Ready(s, id, lines[k]);
    }
  }

  /** From there the loop reports the reservation, and every line it had not attempted before is held. */
  lemma {:induction false} LoopHolds(s: Stock, id: Id, lines: seq<ItemReservation>, i: nat, l: nat)
    requires i <= |lines| && id != "" && WellFormed(lines) && AllReady(s, id, lines, i)
    requires l < |lines| && (if l < i then HeldFor(s.holds, id, lines[l]) else Unspent(s, id, lines[l]))
    ensures var a := ReserveFrom(s, id, lines, i); a.outcome.AllHeld? && HeldFor(a.stock.holds, id, lines[l])
    decreases |lines| - i
  {
    if i < |lines| {
      ReadyLineAnswers(s, id, lines, i);
      LoopHolds(ReserveLine(s, id, lines[i]).stock, id, lines, i + 1, l);
    }
  }

  /* ---------- the premises ---------- */

  /** The reservation row can still be worked. */
  predicate CanWork(o: Order) {
    && |o.work| > 0 && !o.work[0].delivery.processed && !o.work[0].delivery.parked
    && o.work[0].delivery.attempts < Outbox.MAX_ATTEMPTS
  }

  /** And has not been reported. */
  predicate StillReserving(o: Order) { o.rows.status.Pending? && CanWork(o) }

  /** Line l of the plan is child i's, and has not been attempted. */
  predicate Waiting(o: Order, id: Id, s: Stock, i: nat, l: nat) {
    && i < |o.rows.children| && o.rows.children[i].status.Pending?
    && o.plan.Usable? && WellFormed(o.plan.items) && l < |o.plan.items|
    && Covers(o.rows.children[i].products, o.plan.items[l].product)
    && Unspent(s, id, o.plan.items[l]) && AllReady(s, id, o.plan.items, 0)
  }

  /** The seller order is cancelled, its release and the reservation are processed, the saga is complete, and the line
      is held. */
  predicate Stranded(r: Result, id: Id, i: nat, line: ItemReservation) {
    && r.order.rows.status.OrderCompleted? && |r.order.work| == |r.order.rows.commands| > 0
    && i < |r.order.rows.children| && r.order.rows.children[i].status.Cancelled?
    && Covers(r.order.rows.children[i].products, line.product)
    && r.order.work[0].delivery.processed
    && (exists k :: 0 <= k < |r.order.work| && r.order.rows.commands[k] == ReleaseSellerStock(i)
                    && r.order.work[k].delivery.processed)
    && HeldFor(r.stock.holds, id, line)
  }

  /* ---------- the steps ---------- */

  /** Cancelled, with the release row waiting at the end of the outbox. */
  predicate Cancelling(o: Order, o': Order, i: nat) {
    && i < |o.rows.children| && |o.work| == |o.rows.commands|
    && o'.plan == o.plan
    && o'.rows == o.rows.(children := o.rows.children[i := o.rows.children[i].(status := S.Cancelled)],
                          commands := o.rows.commands + [ReleaseSellerStock(i)])
    && |o'.work| == |o'.rows.commands| && o'.work[..|o.work|] == o.work
  }

  lemma {:induction false} CancelStep(o: Order, id: Id, s: Stock, i: nat)
    requires i < |o.rows.children| && o.rows.children[i].status.Pending? && |o.work| == |o.rows.commands|
    ensures var r := TakeOrderStep(o, id, s, Act(i, S.Cancel, true));
            r.stock == s && Cancelling(o, r.order, i) && r.order.work[|o.work|] == Fresh
  {
  }

  lemma {:induction false} ClaimFreshStep(o: Order, id: Id, s: Stock, k: nat, i: nat)
    requires Rowed(o, k) && o.work[k] == Fresh && o.rows.commands[k] == ReleaseSellerStock(i)
    ensures var r := TakeOrderStep(o, id, s, Claim(k, 0.0));
            r.stock == s && r.order == Put(o, k, r.order.work[k]) && r.order.work[k].at.SellerCall?
  {
  }

  /** The scoped release takes only this child's holds and gives its units back, so every line stays ready. */
  lemma {:induction false} ReleaseKeepsReady(s: Stock, loose: map<Id, int>, initial: map<Id, int>, id: Id,
                                             scope: set<Id>,
                                             lines: seq<ItemReservation>)
    requires L.Agrees(s, loose, initial) && AllReady(s, id, lines, 0)
    ensures var r := SettleCall(s, Release, id, scope);
            r.status == OK && r.stock.keys == s.keys && AllReady(r.stock, id, lines, 0)
  {
    L.SettleIsExact(s, loose, initial, Release, id, scope);
    var t := SettleCall(s, Release, id, scope).stock;
    forall k | 0 <= k < |lines| ensures Ready(t, id, lines[k]) {
      assert Ready(s, id, lines[k]);
      if OnShelf(s, lines[k]) { L.SelectedWithinHeld(s, |s.holds|, id, scope, lines[k].product); }
    }
  }

  lemma {:induction false} SellerCallStep(o: Order, id: Id, s: Stock, loose: map<Id, int>, initial: map<Id, int>,
                                          k: nat, i: nat, lines: seq<ItemReservation>)
    requires Rowed(o, k) && o.work[k].at.SellerCall? && o.rows.commands[k] == ReleaseSellerStock(i)
    requires i < |o.rows.children| && L.Agrees(s, loose, initial) && AllReady(s, id, lines, 0)
    ensures var r := TakeOrderStep(o, id, s, Call(k, Answered, 0.0, 0.0));
            && r.order == Put(o, k, r.order.work[k]) && r.order.work[k].delivery.processed
            && r.stock.keys == s.keys && AllReady(r.stock, id, lines, 0)
  {
    ReleaseKeepsReady(s, loose, initial, id, o.rows.children[i].products, lines);
  }

  /** Whatever its worker was doing, the reservation row can be brought to a fresh attempt. */
  predicate Workable(d: Outbox.Delivery) { !d.processed && !d.parked && !d.recorded }

  lemma {:induction false} ShedStep(o: Order, id: Id, s: Stock)
    requires Inv(o, id, s) && !o.work[0].at.Idle? && !o.work[0].delivery.processed && !o.work[0].delivery.parked
    requires o.work[0].delivery.attempts < Outbox.MAX_ATTEMPTS
    ensures var r := TakeOrderStep(o, id, s, Call(0, Shedded, 0.0, 0.0));
            && r.stock == s && r.order == Put(o, 0, r.order.work[0])
            && r.order.work[0].at.Idle? && Workable(r.order.work[0].delivery)
  {
  }

  /** Late enough for the lease and the backoff. */
  function Late(d: Outbox.Delivery): real {
    var a := if d.nextAttempt.Some? then d.nextAttempt.value else 0.0;
    var b := if d.claimedAt.Some? then d.claimedAt.value + 121.0 else 0.0;
    if a < b then b else a
  }

  lemma {:induction false} ClaimStep(o: Order, id: Id, s: Stock)
    requires Rowed(o, 0) && o.rows.commands[0].ReserveInventory? && o.work[0].at.Idle? && Workable(o.work[0].delivery)
    requires o.plan.Usable?
    ensures var r := TakeOrderStep(o, id, s, Claim(0, Late(o.work[0].delivery)));
            && r.stock == s && r.order == Put(o, 0, r.order.work[0])
            && r.order.work[0].at == NextLine(o.plan.items, 0) && !r.order.work[0].delivery.processed
  {
  }

  lemma {:induction false} ReportStep(o: Order, id: Id, s: Stock)
    requires Rowed(o, 0) && o.work[0].at == Reporting(StockReserved) && o.rows.status.Pending?
    requires Sent(0, StockReserved) !in o.rows.keys
    ensures var r := TakeOrderStep(o, id, s, Call(0, Answered, 0.0, 0.0));
            && r.stock == s && r.order.rows.status.OrderCompleted?
            && r.order.rows.children == PushChildren(o.rows.children) && r.order.rows.commands == o.rows.commands
            && |r.order.work| == |o.work| && r.order.work[0].delivery.processed
            && forall k :: 0 < k < |o.work| ==> r.order.work[k] == o.work[k]
  {
  }

  /* ---------- the run ---------- */

  /** After the cancellation's release is processed. */
  predicate Released(o: Order, r: Result, id: Id, i: nat) {
    && Cancelling(o, r.order, i) && |o.work| > 0 && o.plan.Usable?
    && r.order.work[|o.work|].delivery.processed && AllReady(r.stock, id, o.plan.items, 0)
  }

  function AfterCancel(o: Order, id: Id, s: Stock, i: nat): Result { TakeOrderStep(o, id, s, Act(i, S.Cancel, true)) }

  lemma {:induction false} ReachReleased(o: Order, id: Id, s: Stock, loose: map<Id, int>, initial: map<Id, int>,
                                         i: nat, l: nat) returns (r: Result)
    requires Inv(o, id, s) && Waiting(o, id, s, i, l) && L.Agrees(s, loose, initial)
    ensures Reaches(AfterCancel(o, id, s, i), r, id) && Released(o, r, id, i) && r.stock.keys == s.keys
    ensures r.order.work[0] == o.work[0]
  {
    var a, k := AfterCancel(o, id, s, i), |o.work|;
    Stays(a, id);
    CancelStep(o, id, s, i);
    ClaimFreshStep(a.order, id, s, k, i);
    ReachesNext(a, a, id, Claim(k, 0.0));
    var r2 := TakeOrderStep(a.order, id, s, Claim(k, 0.0));
    SellerCallStep(r2.order, id, s, loose, initial, k, i, o.plan.items);
    ReachesNext(a, r2, id, Call(k, Answered, 0.0, 0.0));
    r := TakeOrderStep(r2.order, id, s, Call(k, Answered, 0.0, 0.0));
    assert a.order.work[..k] == o.work && r2.order.work[..k] == o.work && r.order.work[..k] == o.work;
    assert r.order.work[0] == r.order.work[..k][0];
  }

  lemma {:induction false} RunOrderKeepsInv(a: Result, id: Id, steps: seq<OrderStep>, n: nat)
    requires n <= |steps| && Inv(a.order, id, a.stock) && AllStepsAllowed(steps)
    ensures var r := RunOrder(a.order, id, a.stock, steps, n); Inv(r.order, id, r.stock)
  {
    if n > 0 {
      RunOrderKeepsInv(a, id, steps, n - 1);
      var before := RunOrder(a.order, id, a.stock, steps, n - 1);
      OrderStepKeepsInv(before.order, id, before.stock, steps[n - 1]);
    }
  }

  /** The reservation row at the start of a new attempt, everything else as it was. */
  lemma {:induction false} ReachAttempt(a: Result, b: Result, id: Id) returns (r: Result)
    requires Inv(a.order, id, a.stock) && Reaches(a, b, id) && CanWork(b.order) && b.order.plan.Usable?
    ensures Reaches(a, r, id) && r.stock == b.stock && Rowed(b.order, 0) && Rowed(r.order, 0)
    ensures r.order == Put(b.order, 0, r.order.work[0]) && r.order.work[0].at == NextLine(b.order.plan.items, 0)
  {
    var steps :| AllStepsAllowed(steps) && RunOrder(a.order, id, a.stock, steps, |steps|) == b;
    RunOrderKeepsInv(a, id, steps, |steps|);
    var c := b;
    if !b.order.work[0].at.Idle? {
      ShedStep(b.order, id, b.stock);
      ReachesNext(a, b, id, Call(0, Shedded, 0.0, 0.0));
      c := TakeOrderStep(b.order, id, b.stock, Call(0, Shedded, 0.0, 0.0));
    }
    ClaimStep(c.order, id, c.stock);
    var claim := Claim(0, Late(c.order.work[0].delivery));
    ReachesNext(a, c, id, claim);
    r := TakeOrderStep(c.order, id, c.stock, claim);
  }

  /** The loop runs to its report. */
  lemma {:induction false} ReachReport(a: Result, b: Result, id: Id, l: nat) returns (r: Result)
    requires Reaches(a, b, id) && Rowed(b.order, 0) && id != ""
    requires b.order.plan.Usable? && WellFormed(b.order.plan.items)
    requires b.order.work[0].at == NextLine(b.order.plan.items, 0) && l < |b.order.plan.items|
    requires AllReady(b.stock, id, b.order.plan.items, 0) && Unspent(b.stock, id, b.order.plan.items[l])
    ensures Reaches(a, r, id) && r.order == GoTo(b.order, 0, Reporting(StockReserved))
    ensures HeldFor(r.stock.holds, id, b.order.plan.items[l])
  {
    LoopHolds(b.stock, id, b.order.plan.items, 0, l);
    var n := StepsAreTheLoop(b.order, id, b.stock, 0);
    ReachesAnswered(a, b, id, n);
    r := AnsweredCalls(b.order, id, b.stock, n);
  }

  /** From any order that is still reserving, a seller order that is PENDING with a line not yet attempted, every line
      of the order being on the shelf or already answered: cancelling it can strand that line. */
  lemma {:induction false} EarlyCancelStrands(o: Order, id: Id, s: Stock, loose: map<Id, int>, initial: map<Id, int>,
                                              i: nat, l: nat) returns (r: Result)
    requires Inv(o, id, s) && L.Agrees(s, loose, initial) && id != "" && StillReserving(o) && Waiting(o, id, s, i, l)
    ensures Reaches(AfterCancel(o, id, s, i), r, id) && Stranded(r, id, i, o.plan.items[l])
  {
    var a := AfterCancel(o, id, s, i);
    OrderStepKeepsInv(o, id, s, Act(i, S.Cancel, true));
    var r3 := ReachReleased(o, id, s, loose, initial, i, l);
    var r5 := ReachAttempt(a, r3, id);
    var r6 := ReachReport(a, r5, id, l);
    ReportStep(r6.order, id, r6.stock);
    ReachesNext(a, r6, id, Call(0, Answered, 0.0, 0.0));
    r := TakeOrderStep(r6.order, id, r6.stock, Call(0, Answered, 0.0, 0.0));
    var k := |o.work|;
    assert r.order.work[k] == r3.order.work[k];
    assert r.order.rows.commands[k] == ReleaseSellerStock(i);
  }

  /* ---------- exactly when ---------- */

  /** Seller i is cancelled and a release of its stock processed, and something on its products is held. */
  predicate StrandedIn(w: World, id: Id, i: nat) {
    && id in w.orders && |w.orders[id].work| == |w.orders[id].rows.commands|
    && i < |w.orders[id].rows.children| && w.orders[id].rows.children[i].status.Cancelled?
    && (exists k :: 0 <= k < |w.orders[id].work| && w.orders[id].rows.commands[k] == ReleaseSellerStock(i)
                    && w.orders[id].work[k].delivery.processed)
    && !Cleared(w.stock.holds, id, w.orders[id].rows.children[i].products)
  }

  /** Some allowed continuation of the whole system strands stock under seller i. */
  ghost predicate CanStrand(w: World, id: Id, i: nat) {
    exists after :: AllAllowed(after) && StrandedIn(RunWorld(w, after), id, i)
  }

  /** The accepted cancellation. */
  function CancelNow(id: Id, i: nat): WorldStep { InOrder(id, Act(i, S.Cancel, true)) }

  lemma {:induction false} PlacedIdsAreReal(w: World, steps: seq<WorldStep>)
    requires "" !in w.orders
    ensures "" !in RunWorld(w, steps).orders
  {
    if steps != [] { PlacedIdsAreReal(w, steps[..|steps| - 1]); }
  }

  lemma {:induction false} StepKeepsSellers(w: World, step: WorldStep, id: Id)
    requires id in w.orders
    ensures id in TakeStep(w, step).orders && SameSellers(w.orders[id].rows, TakeStep(w, step).orders[id].rows)
  {
    if step.InOrder? && step.id == id {
      var o := w.orders[id];
      match step.step
      case Act(i, action, reasoned) => ActKeepsSellers(o.rows, i, action, reasoned);
      case Sweep(stale) => SweepKeepsSellers(o.rows, stale);
      case OtherEvent(event, name) => EventKeepsSellers(o.rows, event, EventKey.CallerKey(name));
      case Call(k, fate, jitter, now) =>
        if Rowed(o, k) && o.work[k].at.Reporting? {
          EventKeepsSellers(o.rows, o.work[k].at.event, Sent(k, o.work[k].at.event));
        }
      case _ =>
    }
  }

  lemma {:induction false} RunKeepsSellers(w: World, steps: seq<WorldStep>, id: Id)
    requires id in w.orders
    ensures id in RunWorld(w, steps).orders && SameSellers(w.orders[id].rows, RunWorld(w, steps).orders[id].rows)
  {
    if steps != [] {
      RunKeepsSellers(w, steps[..|steps| - 1], id);
      StepKeepsSellers(RunWorld(w, steps[..|steps| - 1]), steps[|steps| - 1], id);
    }
  }

  lemma {:induction false} PendingHasNoRow(o: Order, i: nat, k: nat)
    requires SellerShape(o) && i < |o.rows.children| && o.rows.children[i].status.Pending? && k < |o.rows.commands|
    ensures o.rows.commands[k] != ReleaseSellerStock(i)
  {
    assert SellerRowOk(o.rows.commands[k], o.work[k], o.rows);
  }

  /** With nothing to come for a seller order that is still PENDING, no allowed continuation strands anything. */
  lemma {:induction false} NothingToComeNothingStranded(stock: Stock, steps: seq<WorldStep>, id: Id, i: nat,
                                                        after: seq<WorldStep>)
    requires AllAllowed(steps) && AllAllowed(after) && NothingToCome(RunWorld(World(map[], stock), steps), id, i)
    requires RunWorld(World(map[], stock), steps).orders[id].rows.children[i].status.Pending?
    ensures !StrandedIn(RunWorld(RunWorld(World(map[], stock), steps), after), id, i)
  {
    var w := RunWorld(World(map[], stock), steps);
    var w' := RunWorld(w, after);
    if StrandedIn(w', id, i) {
      var o := w'.orders[id];
      var k :| 0 <= k < |o.work| && o.rows.commands[k] == ReleaseSellerStock(i) && o.work[k].delivery.processed;
      EveryRunKeepsShape(stock, steps);
      RunKeepsSellers(w, after, id);
      assert k !in Processed(w.orders[id]) by {
        assert SellerShape(w.orders[id]);
        if k < |w.orders[id].work| { PendingHasNoRow(w.orders[id], i, k); }
      }
      SafeOnceAttempted(stock, steps, after, id, i, k);
    }
  }

  lemma {:induction false} FindUnattempted(w: World, id: Id, i: nat) returns (l: nat)
    requires id in w.orders && i < |w.orders[id].rows.children| && w.orders[id].plan.Usable?
    requires !NothingToCome(w, id, i)
    ensures var items := w.orders[id].plan.items;
            && l < |items| && Covers(w.orders[id].rows.children[i].products, items[l].product)
            && Unspent(w.stock, id, items[l])
  {
    var o := w.orders[id];
    l :| 0 <= l < |o.plan.items| && Covers(o.rows.children[i].products, o.plan.items[l].product)
         && LineKey(id, o.plan.items[l].product) !in w.stock.keys;
  }

  lemma {:induction false} SomethingToComeCanStrand(stock: Stock, steps: seq<WorldStep>, id: Id, i: nat)
    requires L.Opening(stock) && AllAllowed(steps) && id in RunWorld(World(map[], stock), steps).orders
    requires var w := RunWorld(World(map[], stock), steps);
             && Exposed(w, id, i) && !NothingToCome(w, id, i)
    ensures CanStrand(TakeStep(RunWorld(World(map[], stock), steps), CancelNow(id, i)), id, i)
  {
    var start := World(map[], stock);
    var w := RunWorld(start, steps);
    PlacedIdsAreReal(start, steps);
    EveryRunKeepsInv(stock, steps);
    ProtocolKeepsTheLedger(stock, steps);
    PlansAreWellFormed(stock, steps, id);
    var l := FindUnattempted(w, id, i);
    var r := EarlyCancelStrands(w.orders[id], id, w.stock, L.RunLoose(stock, L.NoLoose(stock), CallsOf(start, steps)),
                                L.Stocked(stock), i, l);
    var w1 := TakeStep(w, CancelNow(id, i));
    var after := ReachedInTheWorld(w1, id, r);
    var line, held := w.orders[id].plan.items[l], Hold(id, w.orders[id].plan.items[l].product,
                                                       w.orders[id].plan.items[l].quantity, Held);
    var j :| 0 <= j < |r.stock.holds| && r.stock.holds[j] == held;
    assert Matches(r.stock.holds[j], id, r.order.rows.children[i].products);
    assert StrandedIn(RunWorld(w1, after), id, i);
  }

  /** A PENDING seller order of an order that is still reserving, with every line on the shelf or already answered. */
  predicate Exposed(w: World, id: Id, i: nat) {
    && id in w.orders && StillReserving(w.orders[id])
    && i < |w.orders[id].rows.children| && w.orders[id].rows.children[i].status.Pending?
    && w.orders[id].plan.Usable? && AllReady(w.stock, id, w.orders[id].plan.items, 0)
  }

  /** After any allowed run from opening stock: cancelling such a seller order can strand its stock if and only if some
      planned line on its products has not been attempted. */
  lemma {:induction false} CancelStrandsIff(stock: Stock, steps: seq<WorldStep>, id: Id, i: nat)
    requires L.Opening(stock) && AllAllowed(steps) && Exposed(RunWorld(World(map[], stock), steps), id, i)
    ensures var w := RunWorld(World(map[], stock), steps);
            CanStrand(TakeStep(w, CancelNow(id, i)), id, i) <==> !NothingToCome(w, id, i)
  {
    var w := RunWorld(World(map[], stock), steps);
    var w1 := TakeStep(w, CancelNow(id, i));
    if NothingToCome(w, id, i) {
      forall after | AllAllowed(after) ensures !StrandedIn(RunWorld(w1, after), id, i) {
        CancelThen(w, id, i, after);
        NothingToComeNothingStranded(stock, steps, id, i, [CancelNow(id, i)] + after);
      }
    } else {
      SomethingToComeCanStrand(stock, steps, id, i);
    }
  }

  lemma {:induction false} CancelThen(w: World, id: Id, i: nat, after: seq<WorldStep>)
    requires AllAllowed(after)
    ensures AllAllowed([CancelNow(id, i)] + after)
    ensures RunWorld(w, [CancelNow(id, i)] + after) == RunWorld(TakeStep(w, CancelNow(id, i)), after)
  {
    var first := [CancelNow(id, i)];
    assert first[..0] == [] && RunWorld(w, []) == w;
    assert RunWorld(w, first) == TakeStep(w, CancelNow(id, i));
    RunsCompose(w, first, after);
  }

  /** The exposure is real: one order just placed, one seller, one line on the shelf, and cancelling can strand it. */
  lemma {:induction false} CancelBeforeReservationStrandsStock()
    ensures var w := RunWorld(World(map[], Shelf), [PlaceOrder("o", Bought)]);
            Exposed(w, "o", 0) && !NothingToCome(w, "o", 0) && CanStrand(TakeStep(w, CancelNow("o", 0)), "o", 0)
  {
    OneOrderPlaced();
    var placed := [PlaceOrder("o", Bought)];
    var w := RunWorld(World(map[], Shelf), placed);
    assert ChildOf(OneSeller[0]).products == {"p"} by { assert OneSeller[0].lines[0] in OneSeller[0].lines; }
    assert w.orders["o"].plan.items[0] == ItemReservation("p", 1);
    assert LineKey("o", w.orders["o"].plan.items[0].product) !in w.stock.keys;
    CancelStrandsIff(Shelf, placed, "o", 0);
  }
}
