/** order-saga inside the whole protocol: every order's rows are those of a run of its own saga, and what the
    dispatcher's report of a failed reservation leaves behind. */
module SagaReports {
  import opened Basics
  import opened Transitions
  import opened OrderLines
  import opened OrderSaga
  import opened Protocol
  import opened StockLeak
  import opened SagaFate
  import Inventory

  /* ---------- every order is a saga's run ---------- */

  /** What a step of the whole system is to this order's saga. */
  function SagaStep(w: World, step: WorldStep, id: Id): seq<OrderSaga.Step> {
    if !step.InOrder? || step.id != id || id !in w.orders then []
    else
      var o := w.orders[id];
      match step.step
      case Act(i, action, reasoned) => [SellerAction(i, action, reasoned)]
      case Sweep(stale) => [OrderSaga.Sweep(stale)]
      case OtherEvent(event, name) => [OrderSaga.Step.Event(event, EventKey.CallerKey(name))]
      case Call(k, fate, jitter, _) =>
        if Rowed(o, k) && 0.0 <= jitter < 1.0 && o.work[k].at.Reporting? && (fate.Answered? || fate.Lost?)
        then [OrderSaga.Step.Event(o.work[k].at.event, Sent(k, o.work[k].at.event))] else []
      case _ => []
  }

  lemma {:induction false} StepIsASagaStep(w: World, step: WorldStep, id: Id)
    requires id in w.orders
    ensures id in TakeStep(w, step).orders
    ensures var own := SagaStep(w, step, id);
            TakeStep(w, step).orders[id].rows ==
            if own == [] then w.orders[id].rows else Take(w.orders[id].rows, own[0])
  {
  }

  /** In every run of the whole system, whatever is lost, refused or retried, an order was placed with some payload:
      its plan is the planner's reading of it, and its rows are those its own saga reaches from the splitter's. */
  lemma {:induction false} RowsAreARun(stock: Inventory.Stock, steps: seq<WorldStep>, id: Id)
    returns (entries: seq<Entry>, own: seq<OrderSaga.Step>)
    requires id in RunWorld(World(map[], stock), steps).orders
    ensures PlaceOrder(id, entries) in steps && Split(entries).Some?
    ensures var o := RunWorld(World(map[], stock), steps).orders[id];
            o.plan == Plan(entries) && o.rows == RunSteps(Start(Split(entries).value), own)
  {
    var front, last := steps[..|steps| - 1], steps[|steps| - 1];
    var w := RunWorld(World(map[], stock), front);
    if id in w.orders {
      entries, own := RowsAreARun(stock, front, id);
      StepIsASagaStep(w, last, id);
      StepKeepsPlan(w, last, id);
      var more := SagaStep(w, last, id);
      if more != [] {
        assert (own + more)[..|own|] == own;
        own := own + more;
      }
    } else {
      entries, own := last.entries, [];
    }
  }

  /* ---------- the failed reservation is heard ---------- */

  /** One that heard of a failed reservation or of stock given back was rolled back by it. */
  ghost predicate RolledBackBy(keys: set<EventKey>, status: SagaStatus) {
    forall k: nat :: Sent(k, ReservationFailed) in keys || Sent(k, StockReleased) in keys ==> status.RollbackCompleted?
  }

  /** A waiting saga has heard nothing yet. */
  ghost predicate Heard(o: Order) {
    && (o.rows.status.Pending? ==> o.rows.keys == {} && |o.work| > 0 && !o.work[0].delivery.processed)
    && RolledBackBy(o.rows.keys, o.rows.status)
  }

  lemma {:induction false} AdvanceIsHeard(r: Rows, event: Event, key: EventKey)
    requires CodStatus(r.status) && (r.status.Pending? ==> r.keys == {})
    requires RolledBackBy(r.keys, r.status) && (key.Sent? ==> key.event == event)
    ensures var after := Advance(r, event, key).rows;
            && (after.status.Pending? ==> r.status.Pending? && after.keys == {})
            && RolledBackBy(after.keys, after.status)
  {
    var after := Advance(r, event, key).rows;
    CodDecision(r.status, event);
    assert after.keys == r.keys || after.keys == r.keys + {key};
  }

  lemma {:induction false} ReportIsHeard(o: Order, id: Id, s: Inventory.Stock, k: nat, fate: Fate, jitter: real,
                                         now: real)
    requires Inv(o, id, s) && Heard(o) && Rowed(o, k) && o.work[k].at.Reporting?
    requires PlausibleFate(fate) && 0.0 <= jitter < 1.0
    ensures Heard(WorkReport(o, s, k, o.work[k].at.event, fate, jitter, now).order)
  {
    var event := o.work[k].at.event;
    if k > 0 { assert OtherRowOk(o.rows.commands[k], o.work[k], id, s); }
    AdvanceIsHeard(o.rows, event, Sent(k, event));
    if k == 0 && o.rows.status.Pending? { EventIsAnswered(o.rows, event, Sent(k, event)); }
  }

  lemma {:induction false} CallIsHeard(o: Order, id: Id, s: Inventory.Stock, k: nat, fate: Fate, jitter: real,
                                       now: real)
    requires Inv(o, id, s) && Heard(o) && Rowed(o, k) && PlausibleFate(fate) && 0.0 <= jitter < 1.0
    ensures Heard(WorkRow(o, id, s, k, fate, jitter, now).order)
  {
    if o.work[k].at.Reporting? {
      ReportIsHeard(o, id, s, k, fate, jitter, now);
    } else {
      var o' := WorkRow(o, id, s, k, fate, jitter, now).order;
      assert o'.rows == o.rows;
      assert o.work[0].at.Idle? || o.work[0].at.Lines? || o.work[0].at.RollingBack? || o.work[0].at.Reporting?;
      assert |o'.work| == |o.work| && (o'.work[0].delivery.processed ==> o.work[0].delivery.processed);
    }
  }

  lemma {:induction false} OrderStepIsHeard(o: Order, id: Id, s: Inventory.Stock, step: OrderStep)
    requires Inv(o, id, s) && Heard(o) && Allowed(step)
    ensures Heard(TakeOrderStep(o, id, s, step).order)
  {
    match step
    case Call(k, fate, jitter, now) => if Rowed(o, k) { CallIsHeard(o, id, s, k, fate, jitter, now); }
    case OtherEvent(event, name) => AdvanceIsHeard(o.rows, event, EventKey.CallerKey(name));
    case Act(_, _, _) =>
    case _ =>
  }

  lemma {:induction false} EveryRunIsHeard(stock: Inventory.Stock, steps: seq<WorldStep>, id: Id)
    requires AllAllowed(steps) && id in RunWorld(World(map[], stock), steps).orders
    ensures Heard(RunWorld(World(map[], stock), steps).orders[id])
  {
    var front, last := steps[..|steps| - 1], steps[|steps| - 1];
    var w := RunWorld(World(map[], stock), front);
    assert AllAllowed(front);
    if id in w.orders {
      EveryRunIsHeard(stock, front, id);
      EveryRunKeepsInv(stock, front);
      if last.InOrder? && last.id == id { OrderStepIsHeard(w.orders[id], id, w.stock, last.step); }
    }
  }

  /** In every allowed run an order whose reservation command is processed is no longer PENDING. */
  lemma {:induction false} ProcessedMeansHeard(stock: Inventory.Stock, steps: seq<WorldStep>, id: Id)
    requires AllAllowed(steps) && id in RunWorld(World(map[], stock), steps).orders
    ensures var o := RunWorld(World(map[], stock), steps).orders[id];
            |o.work| > 0 && (o.work[0].delivery.processed ==> !o.rows.status.Pending?)
  {
    EveryRunIsHeard(stock, steps, id);
    EveryRunKeepsInv(stock, steps);
    assert Inv(RunWorld(World(map[], stock), steps).orders[id], id, RunWorld(World(map[], stock), steps).stock);
  }

  /** An answered report of a failed reservation always takes the order out of PENDING. It finishes the command if and
      only if the reaper did not come first: a timed-out saga puts the report off. */
  lemma {:induction false} AnsweredFailureIsHeard(stock: Inventory.Stock, steps: seq<WorldStep>, id: Id, jitter: real,
                                                  now: real)
    requires AllAllowed(steps) && 0.0 <= jitter < 1.0 && id in RunWorld(World(map[], stock), steps).orders
    requires var o := RunWorld(World(map[], stock), steps).orders[id];
             |o.work| > 0 && o.work[0].at == Reporting(ReservationFailed)
    ensures var w := RunWorld(World(map[], stock), steps);
            var w' := TakeStep(w, InOrder(id, Call(0, Answered, jitter, now)));
            && id in w'.orders && |w'.orders[id].work| > 0
            && !w'.orders[id].rows.status.Pending?
            && (w.orders[id].rows.status.Pending? ==> w'.orders[id].rows.status.RollbackCompleted?)
            && (w'.orders[id].work[0].delivery.processed <==> !w.orders[id].rows.status.TimedOut?)
  {
    var w := RunWorld(World(map[], stock), steps);
    var o := w.orders[id];
    EveryRunIsHeard(stock, steps, id);
    EveryRunKeepsInv(stock, steps);
    assert Inv(o, id, w.stock);
    var key := Sent(0, ReservationFailed);
    if key !in o.rows.keys { EventIsAnswered(o.rows, ReservationFailed, key); }
  }

  /** An answered whole-order release that is then reported, and answered, finishes its command and closes the saga. */
  lemma {:induction false} AnsweredReleaseClosesTheSaga(stock: Inventory.Stock, steps: seq<WorldStep>, id: Id, k: nat,
                                                        jitter: real, now: real)
    requires AllAllowed(steps) && 0.0 <= jitter < 1.0 && id in RunWorld(World(map[], stock), steps).orders
    requires var o := RunWorld(World(map[], stock), steps).orders[id];
             && Rowed(o, k) && o.work[k].at == Reporting(StockReleased) && Ended(o.rows.status)
    ensures var w' := TakeStep(RunWorld(World(map[], stock), steps), InOrder(id, Call(k, Answered, jitter, now)));
            && id in w'.orders && Rowed(w'.orders[id], k)
            && w'.orders[id].rows.status.RollbackCompleted? && w'.orders[id].work[k].delivery.processed
  {
    var w := RunWorld(World(map[], stock), steps);
    var o, key := w.orders[id], Sent(k, StockReleased);
    EveryRunIsHeard(stock, steps, id);
    EveryRunKeepsInv(stock, steps);
    assert Inv(o, id, w.stock);
    if key !in o.rows.keys {
      EventIsAnswered(o.rows, StockReleased, key);
      if o.rows.status.TimedOut? { GivenBackClosesTheSaga(o.rows, StockReleased, key); }
    }
  }
}
