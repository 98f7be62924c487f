/** The cash-on-delivery protocol across services: order-saga's rows, the dispatcher working each command one
    call at a time, the reaper, and inventory. Calls may be answered, lost after committing, refused or shed,
    and workers of different commands interleave freely. */
module Protocol {
  import opened Basics
  import opened Transitions
  import opened OrderLines
  import opened Inventory
  import opened Reservation
  import L = StockLedger
  import opened OrderSaga
  import Outbox
  import S = SellerOrders

  /** Where the worker holding a row stands; Idle when nobody holds it. */
  datatype Progress =
    | Idle
    | Lines(next: nat)
    | RollingBack
    | Releasing
    | SellerCall
    | Elsewhere
    | Reporting(event: Event)

  datatype Work = Work(delivery: Outbox.Delivery, at: Progress)

  /** One order: its saga rows, its reservation plan, and the delivery state of each of its commands. */
  datatype Order = Order(rows: Rows, plan: ReservationPlan, work: seq<Work>)

  datatype World = World(orders: map<Id, Order>, stock: Stock)
  datatype Result = Result(order: Order, stock: Stock)

  /** What became of one downstream call. A refused call had no effect; a lost one committed unseen. */
  datatype Fate = Answered | Lost | Refused(status: int) | Shedded

  predicate PlausibleFate(f: Fate) { f.Refused? ==> f.status >= 300 }

  const Fresh := Work(Outbox.Fresh, Idle)

  function Pad(work: seq<Work>, n: nat): (r: seq<Work>)
    ensures |r| == if n < |work| then |work| else n
    ensures forall i :: 0 <= i < |r| ==> r[i] == if i < |work| then work[i] else Fresh
  {
    work + seq(if n < |work| then 0 else n - |work|, _ => Fresh)
  }

  /** New rows reach the outbox in the transaction that changed the saga. */
  function WithRows(o: Order, rows: Rows): Order { o.(rows := rows, work := Pad(o.work, |rows.commands|)) }

  function Open(plan: ReservationPlan, plans: seq<SellerPlan>): Order { Order(Start(plans), plan, [Fresh]) }

  /* ---------- the dispatcher ---------- */

  /** CLAIM_SQL takes rows named %Command and SagaTimedOut. */
  predicate IsClaimed(c: Command) { !c.OrderFailed? }

  function NextLine(lines: seq<ItemReservation>, i: nat): Progress {
    if i < |lines| then Lines(i) else Reporting(StockReserved)
  }

  function Begin(c: Command, plan: ReservationPlan): Progress {
    match c
    case ReserveInventory => if plan.Usable? then NextLine(plan.items, 0) else Reporting(ReservationFailed)
    case ReleaseInventory => Releasing
    case ReleaseSellerStock(_) => SellerCall
    case ConsumeSellerStock(_) => SellerCall
    case _ => Elsewhere
  }

  predicate Rowed(o: Order, k: nat) { k < |o.work| == |o.rows.commands| }

  function Put(o: Order, k: nat, w: Work): Order
    requires k < |o.work|
  {
    o.(work := o.work[k := w])
  }

  function ClaimRow(o: Order, k: nat, now: real): Order
    requires Rowed(o, k)
  {
    var w := o.work[k];
    if !w.at.Idle? || !IsClaimed(o.rows.commands[k]) || !Outbox.Claimable(w.delivery, now) then o
    else if w.delivery.recorded then Put(o, k, w.(delivery := w.delivery.(claimedAt := Some(now), processed := true)))
    else Put(o, k, Work(w.delivery.(claimedAt := Some(now), recorded := true), Begin(o.rows.commands[k], o.plan)))
  }

  /** The worker's attempt ends here. */
  function Finish(o: Order, k: nat, outcome: Outbox.Outcome, jitter: real, now: real): Order
    requires k < |o.work| && 0.0 <= jitter < 1.0
  {
    Put(o, k, Work(Outbox.AfterAttempt(o.work[k].delivery, outcome, jitter, now), Idle))
  }

  function GoTo(o: Order, k: nat, at: Progress): Order
    requires k < |o.work|
  {
    Put(o, k, o.work[k].(at := at))
  }

  const Again := Outbox.Handled(Outbox.Retry)

  function WorkLine(o: Order, id: Id, s: Stock, k: nat, i: nat, fate: Fate, jitter: real, now: real): Result
    requires Rowed(o, k) && 0.0 <= jitter < 1.0 && o.plan.Usable? && i < |o.plan.items|
  {
    var r := ReserveLine(s, id, o.plan.items[i]);
    match fate
    case Shedded => Result(Finish(o, k, Outbox.Shed, jitter, now), s)
    case Lost => Result(Finish(o, k, Again, jitter, now), r.stock)
    case Refused(status) =>
      Result(if status >= SERVER_ERROR then Finish(o, k, Again, jitter, now) else GoTo(o, k, RollingBack), s)
    case Answered =>
      Result(if r.status == OK then GoTo(o, k, NextLine(o.plan.items, i + 1))
             else if r.status >= SERVER_ERROR then Finish(o, k, Again, jitter, now)
             else GoTo(o, k, RollingBack), r.stock)
  }

  function WorkRollback(o: Order, id: Id, s: Stock, k: nat, fate: Fate, jitter: real, now: real): Result
    requires Rowed(o, k) && 0.0 <= jitter < 1.0
  {
    var r := SettleCall(s, Release, id, {});
    match fate
    case Shedded => Result(Finish(o, k, Outbox.Shed, jitter, now), s)
    case Lost => Result(Finish(o, k, Again, jitter, now), r.stock)
    case Refused(_) => Result(Finish(o, k, Again, jitter, now), s)
    case Answered =>
      Result(if r.status == OK then GoTo(o, k, Reporting(ReservationFailed))
             else Finish(o, k, Again, jitter, now), r.stock)
  }

  function WorkRelease(o: Order, id: Id, s: Stock, k: nat, fate: Fate, jitter: real, now: real): Result
    requires Rowed(o, k) && 0.0 <= jitter < 1.0
  {
    var r := SettleCall(s, Release, id, {});
    match fate
    case Shedded => Result(Finish(o, k, Outbox.Shed, jitter, now), s)
    case Lost => Result(Finish(o, k, Again, jitter, now), r.stock)
    case Refused(status) =>
      Result(Finish(o, k, Outbox.Handled(Outbox.ClassifyCommandFailure(Some(status))), jitter, now), s)
    case Answered =>
      Result(if r.status == OK then GoTo(o, k, Reporting(StockReleased))
             else Finish(o, k, Outbox.Handled(Outbox.ClassifyCommandFailure(Some(r.status))), jitter, now), r.stock)
  }

  /** A seller order's stock command; an empty product list would act on the whole order. */
  function WorkSellerCall(o: Order, id: Id, s: Stock, k: nat, fate: Fate, jitter: real, now: real): Result
    requires Rowed(o, k) && 0.0 <= jitter < 1.0
  {
    var c := o.rows.commands[k];
    if !(c.ReleaseSellerStock? || c.ConsumeSellerStock?) || c.child >= |o.rows.children| then Result(o, s)
    else
      var effect := if c.ReleaseSellerStock? then Release else Consume;
      var r := SettleCall(s, effect, id, o.rows.children[c.child].products);
      match fate
      case Shedded => Result(Finish(o, k, Outbox.Shed, jitter, now), s)
      case Lost => Result(Finish(o, k, Again, jitter, now), r.stock)
      case Refused(status) =>
        Result(Finish(o, k, Outbox.Handled(Outbox.ClassifyCommandFailure(Some(status))), jitter, now), s)
      case Answered =>
        Result(Finish(o, k, Outbox.Handled(Outbox.ClassifyCommandFailure(Some(r.status))), jitter, now), r.stock)
  }

  /** order-saga answers 422 only to event types it does not know, so no report is refused with one without effect. */
  function WorkReport(o: Order, s: Stock, k: nat, event: Event, fate: Fate, jitter: real, now: real): Result
    requires Rowed(o, k) && 0.0 <= jitter < 1.0
  {
    var a := Advance(o.rows, event, Sent(k, event));
    match fate
    case Shedded => Result(Finish(o, k, Outbox.Shed, jitter, now), s)
    case Lost => Result(Finish(WithRows(o, a.rows), k, Again, jitter, now), s)
    case Refused(status) =>
      Result(if status == UNPROCESSABLE then o
             else Finish(o, k, Outbox.Handled(Outbox.AfterReport(status)), jitter, now), s)
    case Answered =>
      Result(Finish(WithRows(o, a.rows), k, Outbox.Handled(Outbox.AfterReport(a.status)), jitter, now), s)
  }

  /** A timed-out saga's row needs no call; an escrow booking that payment-service refuses may be parked. */
  function ElsewhereOutcome(c: Command, fate: Fate): Outbox.Outcome {
    if c.SagaTimedOut? then Outbox.Handled(Outbox.Settle)
    else
      match fate
      case Answered => Outbox.Handled(Outbox.Settle)
      case Shedded => Outbox.Shed
      case Lost => Again
      case Refused(status) => Outbox.Handled(Outbox.ClassifyCommandFailure(Some(status)))
  }

  function WorkRow(o: Order, id: Id, s: Stock, k: nat, fate: Fate, jitter: real, now: real): Result
    requires Rowed(o, k) && 0.0 <= jitter < 1.0
  {
    match o.work[k].at
    case Idle => Result(o, s)
    case Lines(i) =>
      if o.plan.Usable? && i < |o.plan.items| then WorkLine(o, id, s, k, i, fate, jitter, now) else Result(o, s)
    case RollingBack => WorkRollback(o, id, s, k, fate, jitter, now)
    case Releasing => WorkRelease(o, id, s, k, fate, jitter, now)
    case SellerCall => WorkSellerCall(o, id, s, k, fate, jitter, now)
    case Elsewhere => Result(Finish(o, k, ElsewhereOutcome(o.rows.commands[k], fate), jitter, now), s)
    case Reporting(event) => WorkReport(o, s, k, event, fate, jitter, now)
  }

  /* ---------- steps ---------- */

  datatype OrderStep =
    | Claim(row: nat, now: real)
    | Call(row: nat, fate: Fate, jitter: real, now: real)
    | Crash(row: nat)
    | Act(child: nat, action: S.Action, reasoned: bool)
    | Sweep(stale: bool)
    | OtherEvent(event: Event, name: string)

  /** Only the dispatcher reports a reservation, and a worker that holds a row lives until it settles it. */
  predicate Allowed(step: OrderStep) {
    match step
    case Call(_, fate, jitter, _) => PlausibleFate(fate) && 0.0 <= jitter < 1.0
    case Crash(_) => false
    case OtherEvent(event, _) => !event.StockReserved?
    case _ => true
  }

  function TakeOrderStep(o: Order, id: Id, s: Stock, step: OrderStep): Result {
    match step
    case Claim(k, now) => if Rowed(o, k) then Result(ClaimRow(o, k, now), s) else Result(o, s)
    case Call(k, fate, jitter, now) =>
      if Rowed(o, k) && 0.0 <= jitter < 1.0 then WorkRow(o, id, s, k, fate, jitter, now) else Result(o, s)
    case Crash(k) => if k < |o.work| then Result(GoTo(o, k, Idle), s) else Result(o, s)
    case Act(i, action, reasoned) => Result(WithRows(o, Transition(o.rows, i, action, reasoned).rows), s)
    case Sweep(stale) => Result(WithRows(o, Reap(o.rows, stale)), s)
    case OtherEvent(event, name) => Result(WithRows(o, Advance(o.rows, event, EventKey.CallerKey(name)).rows), s)
  }

  datatype WorldStep =
    | PlaceOrder(id: Id, entries: seq<Entry>)
    | InOrder(id: Id, step: OrderStep)
    | OtherReserve(product: Id, quantity: int, order: Id, name: string)
    | OtherSettle(effect: Effect, order: Id, scope: set<Id>)

  /** Order and command ids are fresh uuids: nothing in inventory mentions them yet. */
  predicate Unused(w: World, id: Id) {
    id != "" && id !in w.orders && HoldsNothing(w.stock.holds, id)
    && forall k :: k in w.stock.keys ==> !(k.LineKey? && k.order == id)
  }

  function TakeStep(w: World, step: WorldStep): World {
    match step
    case PlaceOrder(id, entries) =>
      if Unused(w, id) && Split(entries).Some?
      then w.(orders := w.orders[id := Open(Plan(entries), Split(entries).value)])
      else w
    case InOrder(id, ostep) =>
      if id !in w.orders then w
      else
        var r := TakeOrderStep(w.orders[id], id, w.stock, ostep);
        World(w.orders[id := r.order], r.stock)
    case OtherReserve(product, quantity, order, name) =>
      if order in w.orders then w
      else w.(stock := ReserveCall(w.stock, product, quantity, order, Key.CallerKey(name)).stock)
    case OtherSettle(effect, order, scope) => w.(stock := SettleCall(w.stock, effect, order, scope).stock)
  }

  function RunWorld(w: World, steps: seq<WorldStep>): World {
    if steps == [] then w else TakeStep(RunWorld(w, steps[..|steps| - 1]), steps[|steps| - 1])
  }

  lemma {:induction false} StepKeepsPlan(w: World, step: WorldStep, id: Id)
    requires id in w.orders
    ensures id in TakeStep(w, step).orders && TakeStep(w, step).orders[id].plan == w.orders[id].plan
  {
  }

  lemma {:induction false} PlansAreWellFormed(stock: Stock, steps: seq<WorldStep>, id: Id)
    requires id in RunWorld(World(map[], stock), steps).orders
    ensures var plan := RunWorld(World(map[], stock), steps).orders[id].plan;
            plan.Usable? ==> WellFormed(plan.items) && plan.items != []
  {
    if steps != [] {
      var front, last := steps[..|steps| - 1], steps[|steps| - 1];
      var w := RunWorld(World(map[], stock), front);
      if id in w.orders {
        PlansAreWellFormed(stock, front, id);
        StepKeepsPlan(w, last, id);
      } else if Plan(last.entries).Usable? {
        PlanIsWellFormed(last.entries);
        PlanIsNonEmpty(last.entries);
      }
    }
  }

  /** One order's first n steps, nothing else moving. */
  function RunOrder(o: Order, id: Id, s: Stock, steps: seq<OrderStep>, n: nat): Result
    requires n <= |steps|
  {
    if n == 0 then Result(o, s)
    else var r := RunOrder(o, id, s, steps, n - 1); TakeOrderStep(r.order, id, r.stock, steps[n - 1])
  }

  lemma {:induction false} SamePrefix(o: Order, id: Id, s: Stock, a: seq<OrderStep>, b: seq<OrderStep>, n: nat)
    requires n <= |a| && n <= |b| && forall k :: 0 <= k < n ==> a[k] == b[k]
    ensures RunOrder(o, id, s, a, n) == RunOrder(o, id, s, b, n)
  {
    if n > 0 { SamePrefix(o, id, s, a, b, n - 1); }
  }

  lemma {:induction false} RunsOneMore(o: Order, id: Id, s: Stock, steps: seq<OrderStep>, step: OrderStep)
    ensures var r := RunOrder(o, id, s, steps, |steps|);
            RunOrder(o, id, s, steps + [step], |steps| + 1) == TakeOrderStep(r.order, id, r.stock, step)
  {
    SamePrefix(o, id, s, steps, steps + [step], |steps|);
  }

  /** Those steps as steps of the whole system. */
  function Lift(id: Id, steps: seq<OrderStep>): (r: seq<WorldStep>)
    ensures |r| == |steps| && forall k :: 0 <= k < |r| ==> r[k] == InOrder(id, steps[k])
  {
    seq(|steps|, k requires 0 <= k < |steps| => InOrder(id, steps[k]))
  }

  lemma {:induction false} LiftRuns(w: World, id: Id, steps: seq<OrderStep>)
    requires id in w.orders
    ensures var r := RunOrder(w.orders[id], id, w.stock, steps, |steps|);
            RunWorld(w, Lift(id, steps)) == World(w.orders[id := r.order], r.stock)
  {
    if steps == [] {
      assert w.orders[id := w.orders[id]] == w.orders;
    } else {
      var n := |steps| - 1;
      LiftRuns(w, id, steps[..n]);
      assert Lift(id, steps)[..n] == Lift(id, steps[..n]);
      SamePrefix(w.orders[id], id, w.stock, steps[..n], steps, n);
    }
  }

  lemma {:induction false} RunsCompose(w: World, a: seq<WorldStep>, b: seq<WorldStep>)
    ensures RunWorld(w, a + b) == RunWorld(RunWorld(w, a), b)
  {
    if b == [] {
      assert a + b == a;
    } else {
      var n := |b| - 1;
      assert (a + b)[..|a| + n] == a + b[..n];
      RunsCompose(w, a, b[..n]);
    }
  }

  predicate AllAllowed(steps: seq<WorldStep>) {
    forall i :: 0 <= i < |steps| && steps[i].InOrder? ==> Allowed(steps[i].step)
  }

  /** An ended order still holding units has a reserve or release command that is not marked processed. */
  predicate NoSilentLeak(o: Order, id: Id, s: Stock) {
    Ended(o.rows.status) && !HoldsNothing(s.holds, id) ==>
      exists k :: 0 <= k < |o.work| == |o.rows.commands|
                  && (o.rows.commands[k].ReserveInventory? || o.rows.commands[k].ReleaseInventory?)
                  && !o.work[k].delivery.processed
  }

  /* ---------- what inventory sees of it ---------- */

  /** The inventory call that takes effect in a step of an order, if there is one. */
  function OrderCall(o: Order, id: Id, step: OrderStep): Option<L.Call> {
    if !step.Call? || !Rowed(o, step.row) || !(0.0 <= step.jitter < 1.0) || step.fate.Shedded? || step.fate.Refused?
    then None
    else
      match o.work[step.row].at
      case Lines(i) =>
        if !o.plan.Usable? || i >= |o.plan.items| then None
        else
          var line := o.plan.items[i];
          Some(L.ReserveRequest(line.product, line.quantity, id, LineKey(id, line.product)))
      case RollingBack => Some(L.SettleRequest(Release, id, {}))
      case Releasing => Some(L.SettleRequest(Release, id, {}))
      case SellerCall =>
        var c := o.rows.commands[step.row];
        if !(c.ReleaseSellerStock? || c.ConsumeSellerStock?) || c.child >= |o.rows.children| then None
        else
          var effect := if c.ReleaseSellerStock? then Release else Consume;
          Some(L.SettleRequest(effect, id, o.rows.children[c.child].products))
      case _ => None
  }

  function StockCall(w: World, step: WorldStep): Option<L.Call> {
    match step
    case PlaceOrder(_, _) => None
    case InOrder(id, ostep) => if id in w.orders then OrderCall(w.orders[id], id, ostep) else None
    case OtherReserve(product, quantity, order, name) =>
      if order in w.orders then None else Some(L.ReserveRequest(product, quantity, order, Key.CallerKey(name)))
    case OtherSettle(effect, order, scope) => Some(L.SettleRequest(effect, order, scope))
  }

  function ServeIf(s: Stock, call: Option<L.Call>): Stock { if call.Some? then L.Serve(s, call.value) else s }

  lemma {:induction false} OrderStepServes(o: Order, id: Id, s: Stock, step: OrderStep)
    ensures TakeOrderStep(o, id, s, step).stock == ServeIf(s, OrderCall(o, id, step))
  {
  }

  lemma {:induction false} StepServes(w: World, step: WorldStep)
    ensures TakeStep(w, step).stock == ServeIf(w.stock, StockCall(w, step))
  {
    if step.InOrder? && step.id in w.orders { OrderStepServes(w.orders[step.id], step.id, w.stock, step.step); }
  }

  /** The inventory calls of a whole run, in order. */
  function CallsOf(w: World, steps: seq<WorldStep>): seq<L.Call> {
    if steps == [] then []
    else
      var front := steps[..|steps| - 1];
      var call := StockCall(RunWorld(w, front), steps[|steps| - 1]);
      CallsOf(w, front) + if call.Some? then [call.value] else []
  }

  lemma {:induction false} RunIsAHistory(w: World, steps: seq<WorldStep>)
    ensures RunWorld(w, steps).stock == L.Run(w.stock, CallsOf(w, steps))
  {
    if steps != [] {
      var front := steps[..|steps| - 1];
      RunIsAHistory(w, front);
      StepServes(RunWorld(w, front), steps[|steps| - 1]);
      var calls, all := CallsOf(w, front), CallsOf(w, steps);
      if all != calls { assert all[..|all| - 1] == calls; }
    }
  }

  /** So the two stock records agree after every run of the protocol, whatever is lost, refused, retried or late. */
  lemma {:induction false} ProtocolKeepsTheLedger(stock: Stock, steps: seq<WorldStep>)
    requires L.Opening(stock)
    ensures var w := World(map[], stock);
            L.Agrees(RunWorld(w, steps).stock, L.RunLoose(stock, L.NoLoose(stock), CallsOf(w, steps)), L.Stocked(stock))
  {
    RunIsAHistory(World(map[], stock), steps);
    L.EveryHistoryAgrees(stock, CallsOf(World(map[], stock), steps));
  }

  /* ---------- the steps add up to the reservation loop ---------- */

  /** n calls of row 0, each answered. */
  function AnsweredCalls(o: Order, id: Id, s: Stock, n: nat): Result
    requires Rowed(o, 0)
    decreases n
  {
    if n == 0 then Result(o, s)
    else
      var r := WorkRow(o, id, s, 0, Answered, 0.0, 0.0);
      if Rowed(r.order, 0) then AnsweredCalls(r.order, id, r.stock, n - 1) else r
  }

  /** Where the loop's outcome leaves the worker. */
  predicate Reached(at: Progress, outcome: Reservation.Outcome) {
    match outcome
    case AllHeld => at == Reporting(StockReserved)
    case RolledBack(_) => at == Reporting(ReservationFailed)
    case Raised(_) => at == Idle
  }

  /** n answered calls leave the stock, and the worker, where the loop from line i ends. */
  predicate EndsAsTheLoop(o: Order, id: Id, s: Stock, i: nat, n: nat)
    requires Rowed(o, 0) && o.plan.Usable? && i <= |o.plan.items|
  {
    var loop, r := ReserveFrom(s, id, o.plan.items, i), AnsweredCalls(o, id, s, n);
    && Rowed(r.order, 0) && r.stock == loop.stock && Reached(r.order.work[0].at, loop.outcome)
    && (!loop.outcome.Raised? ==> r.order == GoTo(o, 0, r.order.work[0].at))
  }

  lemma {:induction false} GrantedLineContinues(o: Order, id: Id, s: Stock, i: nat, m: nat)
    requires Rowed(o, 0) && o.plan.Usable? && i < |o.plan.items| && o.work[0].at == Lines(i)
    requires ReserveLine(s, id, o.plan.items[i]).status == OK
    requires var r := WorkRow(o, id, s, 0, Answered, 0.0, 0.0); EndsAsTheLoop(r.order, id, r.stock, i + 1, m)
    ensures EndsAsTheLoop(o, id, s, i, m + 1)
  {
  }

  lemma {:induction false} RefusedLineEnds(o: Order, id: Id, s: Stock, i: nat) returns (n: nat)
    requires Rowed(o, 0) && o.plan.Usable? && i < |o.plan.items| && o.work[0].at == Lines(i)
    requires ReserveLine(s, id, o.plan.items[i]).status != OK
    ensures EndsAsTheLoop(o, id, s, i, n)
  {
    var r := WorkRow(o, id, s, 0, Answered, 0.0, 0.0);
    if ReserveLine(s, id, o.plan.items[i]).status >= SERVER_ERROR {
      assert AnsweredCalls(r.order, id, r.stock, 0) == r;
      n := 1;
    } else {
      var back := WorkRow(r.order, id, r.stock, 0, Answered, 0.0, 0.0);
      assert AnsweredCalls(back.order, id, back.stock, 0) == back;
      assert AnsweredCalls(r.order, id, r.stock, 1) == back;
      n := 2;
    }
  }

  /** Undisturbed and always answered, the worker leaves the stock and reports what the atomic loop would. */
  lemma {:induction false} StepsAreTheLoop(o: Order, id: Id, s: Stock, i: nat) returns (n: nat)
    requires Rowed(o, 0) && o.plan.Usable? && i <= |o.plan.items| && o.work[0].at == NextLine(o.plan.items, i)
    ensures EndsAsTheLoop(o, id, s, i, n)
    decreases |o.plan.items| - i
  {
    if i == |o.plan.items| {
      n := 0;
    } else if ReserveLine(s, id, o.plan.items[i]).status == OK {
      var r := WorkRow(o, id, s, 0, Answered, 0.0, 0.0);
      n := StepsAreTheLoop(r.order, id, r.stock, i + 1);
      GrantedLineContinues(o, id, s, i, n);
      n := n + 1;
    } else {
      n := RefusedLineEnds(o, id, s, i);
    }
  }
}
