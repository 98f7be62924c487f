/** The stock of a completed order inside the whole protocol: it follows each seller's parcel through lost answers,
    retries and everybody else's calls, exactly once the reservation row itself can no longer be worked. */
module ParcelStock {
  import opened Basics
  import opened Transitions
  import opened OrderLines
  import opened Inventory
  import opened Reservation
  import opened OrderSaga
  import opened Protocol
  import opened StockLeak
  import opened SellerCancel
  import E = EarlyCancel
  import D = Disposition
  import L = StockLedger
  import Outbox

  /* ---------- delivery columns and releases, over every run ---------- */

  /** A row that is not parked has tries left, and nobody works a parked row. */
  predicate RowSane(w: Work) {
    (w.delivery.parked ==> w.at.Idle?) && (!w.delivery.parked ==> w.delivery.attempts < Outbox.MAX_ATTEMPTS)
  }

  /** A whole-order release exists only under an ended saga. */
  predicate ReleaseMeansEnded(rows: Rows) {
    && CodStatus(rows.status)
    && forall k :: 0 <= k < |rows.commands| && rows.commands[k].ReleaseInventory? ==> Ended(rows.status)
  }

  predicate Sane(o: Order) {
    (forall k :: 0 <= k < |o.work| ==> RowSane(o.work[k])) && ReleaseMeansEnded(o.rows)
  }

  lemma {:induction false} EventKeepsReleases(rows: Rows, event: Event, key: EventKey)
    requires ReleaseMeansEnded(rows)
    ensures ReleaseMeansEnded(Advance(rows, event, key).rows)
  {
    CodDecision(rows.status, event);
    var after := Advance(rows, event, key).rows;
    match Resolve(rows.status, event, CashOnDelivery)
    case Apply(to, command) => assert ReleaseMeansEnded(after);
    case Compensate(command) => assert ReleaseMeansEnded(after);
    case _ => assert after == rows;
  }

  lemma {:induction false} FinishIsSane(d: Outbox.Delivery, outcome: Outbox.Outcome, jitter: real, now: real)
    requires !d.parked && d.attempts < Outbox.MAX_ATTEMPTS && 0.0 <= jitter < 1.0
    ensures RowSane(Work(Outbox.AfterAttempt(d, outcome, jitter, now), Idle))
  {
  }

  lemma {:induction false} CallKeepsSane(o: Order, id: Id, s: Stock, k: nat, fate: Fate, jitter: real, now: real)
    requires Sane(o) && Rowed(o, k) && 0.0 <= jitter < 1.0
    ensures Sane(WorkRow(o, id, s, k, fate, jitter, now).order)
  {
    var o' := WorkRow(o, id, s, k, fate, jitter, now).order;
    assert RowSane(o.work[k]);
    if o.work[k].at.Reporting? {
      EventKeepsReleases(o.rows, o.work[k].at.event, Sent(k, o.work[k].at.event));
    }
    if !o.work[k].at.Idle? {
      forall outcome ensures RowSane(Work(Outbox.AfterAttempt(o.work[k].delivery, outcome, jitter, now), Idle)) {
        FinishIsSane(o.work[k].delivery, outcome, jitter, now);
      }
    }
    forall j | 0 <= j < |o'.work| ensures RowSane(o'.work[j]) {
      if j < |o.work| { assert RowSane(o.work[j]); }
    }
  }

  lemma {:induction false} OrderStepKeepsSane(o: Order, id: Id, s: Stock, step: OrderStep)
    requires Sane(o) && Allowed(step)
    ensures Sane(TakeOrderStep(o, id, s, step).order)
  {
    match step
    case Claim(k, now) => if Rowed(o, k) { assert RowSane(o.work[k]); }
    case Call(k, fate, jitter, now) => if Rowed(o, k) { CallKeepsSane(o, id, s, k, fate, jitter, now); }
    case OtherEvent(event, name) => EventKeepsReleases(o.rows, event, EventKey.CallerKey(name));
    case _ =>
  }

  lemma {:induction false} EveryRunIsSane(stock: Stock, steps: seq<WorldStep>, id: Id)
    requires AllAllowed(steps) && id in RunWorld(World(map[], stock), steps).orders
    ensures Sane(RunWorld(World(map[], stock), steps).orders[id])
  {
    if steps != [] {
      var front, last := steps[..|steps| - 1], steps[|steps| - 1];
      var w := RunWorld(World(map[], stock), front);
      assert AllAllowed(front);
      if id in w.orders {
        EveryRunIsSane(stock, front, id);
        if last.InOrder? && last.id == id { OrderStepKeepsSane(w.orders[id], id, w.stock, last.step); }
      }
    }
  }

  /* ---------- the protocol's steps as disposition steps ---------- */

  /** Completed, and its reservation row processed or parked for good. */
  predicate Quiet(o: Order) {
    && o.rows.status.OrderCompleted? && |o.work| > 0
    && o.work[0].at.Idle? && (o.work[0].delivery.processed || o.work[0].delivery.parked)
  }

  /** Every seller's stock command that is processed has run at least once. */
  predicate ProcessedRan(o: Order, ran: set<nat>) {
    && |o.work| == |o.rows.commands|
    && forall k :: 0 <= k < |o.work| && IsSellerStock(o.rows.commands[k]) && o.work[k].delivery.processed ==> k in ran
  }

  predicate Mirrors(w: World, id: Id, opening: Stock, st: D.State) {
    && id in w.orders && w.orders[id].rows == st.rows && w.stock == L.Run(opening, st.calls)
    && ProcessedRan(w.orders[id], st.ran) && Quiet(w.orders[id])
  }

  /** Nobody but the dispatcher settles this order's stock. */
  predicate LeavesAlone(steps: seq<WorldStep>, id: Id) {
    forall k :: 0 <= k < |steps| && steps[k].OtherSettle? ==> steps[k].order != id
  }

  /** What a step of the whole system is to this order's stock. */
  function Seen(w: World, step: WorldStep, id: Id): seq<D.Step> {
    match step
    case InOrder(acting, ostep) =>
      if acting != id then Foreign(w, step)
      else (match ostep
            case Act(i, action, reasoned) => [D.Saga(SellerAction(i, action, reasoned))]
            case Sweep(stale) => [D.Saga(OrderSaga.Sweep(stale))]
            case OtherEvent(event, name) => [D.Saga(OrderSaga.Event(event, EventKey.CallerKey(name)))]
            case Call(k, fate, jitter, _) =>
              if acting in w.orders && OrderCall(w.orders[id], id, ostep).Some? then [D.RunCommand(k)] else []
            case _ => [])
    case _ => Foreign(w, step)
  }

  function Foreign(w: World, step: WorldStep): seq<D.Step> {
    if StockCall(w, step).Some? then [D.Other(StockCall(w, step).value)] else []
  }

  function AllSeen(w: World, steps: seq<WorldStep>, id: Id): seq<D.Step> {
    if steps == [] then []
    else
      var front := steps[..|steps| - 1];
      AllSeen(w, front, id) + Seen(RunWorld(w, front), steps[|steps| - 1], id)
  }

  /** One of them taken, or none. */
  function TakeSeen(st: D.State, id: Id, seen: seq<D.Step>): D.State {
    if seen == [] then st else D.Take(st, id, seen[0])
  }

  /** In a quiet order only seller's commands and escrow bookings are worked. */
  lemma {:induction false} QuietRows(o: Order, id: Id, s: Stock, k: nat)
    requires Inv(o, id, s) && SellerShape(o) && Sane(o) && Quiet(o) && Rowed(o, k) && !o.work[k].at.Idle?
    ensures k > 0 && (o.work[k].at.Elsewhere? || o.work[k].at.SellerCall?)
    ensures IsSellerStock(o.rows.commands[k]) ==> Calling(o, k)
  {
    assert OtherRowOk(o.rows.commands[k], o.work[k], id, s);
    assert SellerRowOk(o.rows.commands[k], o.work[k], o.rows);
  }

  lemma {:induction false} SellerCallRuns(o: Order, id: Id, s: Stock, ran: set<nat>, k: nat, fate: Fate, jitter: real,
                                          now: real)
    requires Calling(o, k) && k > 0 && Quiet(o) && ProcessedRan(o, ran) && 0.0 <= jitter < 1.0 && PlausibleFate(fate)
    ensures var o' := TakeOrderStep(o, id, s, Call(k, fate, jitter, now)).order;
            && o'.rows == o.rows && Quiet(o')
            && ProcessedRan(o', if fate.Shedded? || fate.Refused? then ran else ran + {k})
  {
  }

  lemma {:induction false} SellerCallMirrors(w: World, id: Id, opening: Stock, st: D.State, k: nat, fate: Fate,
                                             jitter: real, now: real)
    requires Mirrors(w, id, opening, st) && Calling(w.orders[id], k) && k > 0 && 0.0 <= jitter < 1.0
    requires PlausibleFate(fate)
    ensures var step := InOrder(id, Call(k, fate, jitter, now));
            Mirrors(TakeStep(w, step), id, opening, TakeSeen(st, id, Seen(w, step, id)))
  {
    var o, step := w.orders[id], InOrder(id, Call(k, fate, jitter, now));
    SellerCallRuns(o, id, w.stock, st.ran, k, fate, jitter, now);
    StepServes(w, step);
    var call := OrderCall(o, id, step.step);
    assert call.Some? <==> !fate.Shedded? && !fate.Refused?;
    if call.Some? { D.RunAppends(opening, st.calls, call.value); }
  }

  lemma {:induction false} PlainCallMirrors(w: World, id: Id, opening: Stock, st: D.State, k: nat, fate: Fate,
                                            jitter: real, now: real)
    requires Mirrors(w, id, opening, st) && Rowed(w.orders[id], k) && 0.0 <= jitter < 1.0
    requires var o := w.orders[id];
             o.work[k].at.Idle? || (k > 0 && !IsSellerStock(o.rows.commands[k])
                                    && (o.work[k].at.Elsewhere? || o.work[k].at.SellerCall?))
    ensures var step := InOrder(id, Call(k, fate, jitter, now));
            Mirrors(TakeStep(w, step), id, opening, TakeSeen(st, id, Seen(w, step, id)))
  {
  }

  lemma {:induction false} ClaimMirrors(w: World, id: Id, opening: Stock, st: D.State, k: nat, now: real)
    requires Mirrors(w, id, opening, st) && Inv(w.orders[id], id, w.stock)
    ensures Mirrors(TakeStep(w, InOrder(id, Claim(k, now))), id, opening, st)
  {
  }

  lemma {:induction false} SagaStepMirrors(w: World, id: Id, opening: Stock, st: D.State, step: WorldStep)
    requires Mirrors(w, id, opening, st) && step.InOrder? && step.id == id
    requires step.step.Act? || step.step.Sweep? || step.step.OtherEvent?
    ensures Mirrors(TakeStep(w, step), id, opening, TakeSeen(st, id, Seen(w, step, id)))
  {
    match step.step
    case Act(i, action, reasoned) => ActKeepsSellers(w.orders[id].rows, i, action, reasoned);
    case Sweep(stale) => SweepKeepsSellers(w.orders[id].rows, stale);
    case OtherEvent(event, name) => EventKeepsSellers(w.orders[id].rows, event, EventKey.CallerKey(name));
  }

  lemma {:induction false} ForeignMirrors(w: World, id: Id, opening: Stock, st: D.State, step: WorldStep)
    requires Mirrors(w, id, opening, st)
    requires (step.InOrder? ==> step.id != id) && (step.OtherSettle? ==> step.order != id)
    ensures Mirrors(TakeStep(w, step), id, opening, TakeSeen(st, id, Seen(w, step, id)))
  {
    StepServes(w, step);
    assert TakeStep(w, step).orders[id] == w.orders[id];
    var call := StockCall(w, step);
    if call.Some? {
      assert D.Foreign(call.value, id);
      D.RunAppends(opening, st.calls, call.value);
    }
  }

  lemma {:induction false} StepMirrors(w: World, id: Id, opening: Stock, st: D.State, step: WorldStep)
    requires Mirrors(w, id, opening, st) && Inv(w.orders[id], id, w.stock) && SellerShape(w.orders[id])
    requires Sane(w.orders[id]) && (step.InOrder? ==> Allowed(step.step)) && LeavesAlone([step], id)
    ensures Mirrors(TakeStep(w, step), id, opening, TakeSeen(st, id, Seen(w, step, id)))
  {
    assert [step][0] == step;
    if step.InOrder? && step.id == id {
      var o := w.orders[id];
      match step.step
      case Claim(k, now) => ClaimMirrors(w, id, opening, st, k, now);
      case Call(k, fate, jitter, now) =>
        if Rowed(o, k) {
          if !o.work[k].at.Idle? { QuietRows(o, id, w.stock, k); }
          if !o.work[k].at.Idle? && IsSellerStock(o.rows.commands[k]) {
            SellerCallMirrors(w, id, opening, st, k, fate, jitter, now);
          } else {
            PlainCallMirrors(w, id, opening, st, k, fate, jitter, now);
          }
        }
      case _ => SagaStepMirrors(w, id, opening, st, step);
    } else {
      ForeignMirrors(w, id, opening, st, step);
    }
  }

  lemma {:induction false} RunStateAppends(st: D.State, id: Id, steps: seq<D.Step>, seen: seq<D.Step>)
    requires |seen| <= 1
    ensures D.RunState(st, id, steps + seen) == TakeSeen(D.RunState(st, id, steps), id, seen)
  {
    if seen == [] {
      assert steps + seen == steps;
    } else {
      assert (steps + seen)[..|steps|] == steps;
    }
  }

  lemma {:induction false} EveryRunKeepsAll(stock: Stock, before: seq<WorldStep>, after: seq<WorldStep>, id: Id)
    requires AllAllowed(before) && AllAllowed(after)
    requires id in RunWorld(RunWorld(World(map[], stock), before), after).orders
    ensures var w := RunWorld(RunWorld(World(map[], stock), before), after);
            Inv(w.orders[id], id, w.stock) && SellerShape(w.orders[id]) && Sane(w.orders[id])
  {
    RunsCompose(World(map[], stock), before, after);
    assert AllAllowed(before + after);
    EveryRunKeepsInv(stock, before + after);
    EveryRunKeepsShape(stock, before + after);
    EveryRunIsSane(stock, before + after, id);
  }

  lemma {:induction false} FirstMirrors(stock: Stock, before: seq<WorldStep>, id: Id)
    requires AllAllowed(before) && id in RunWorld(World(map[], stock), before).orders
    requires Quiet(RunWorld(World(map[], stock), before).orders[id])
    requires D.FullyReserved(RunWorld(World(map[], stock), before).orders[id].rows)
    ensures var w := RunWorld(World(map[], stock), before);
            Mirrors(w, id, stock, D.State(w.orders[id].rows, CallsOf(World(map[], stock), before), {}))
  {
    RunIsAHistory(World(map[], stock), before);
    EveryRunKeepsInv(stock, before);
    var w := RunWorld(World(map[], stock), before);
    assert Inv(w.orders[id], id, w.stock);
  }

  lemma {:induction false} OneMoreMirrors(w: World, after: seq<WorldStep>, id: Id, opening: Stock, first: D.State)
    requires after != [] && AllAllowed(after) && LeavesAlone(after, id)
    requires var mid := RunWorld(w, after[..|after| - 1]);
             && Mirrors(mid, id, opening, D.RunState(first, id, AllSeen(w, after[..|after| - 1], id)))
             && Inv(mid.orders[id], id, mid.stock) && SellerShape(mid.orders[id]) && Sane(mid.orders[id])
    ensures Mirrors(RunWorld(w, after), id, opening, D.RunState(first, id, AllSeen(w, after, id)))
  {
    var front, last := after[..|after| - 1], after[|after| - 1];
    var mid, seen := RunWorld(w, front), AllSeen(w, front, id);
    StepMirrors(mid, id, opening, D.RunState(first, id, seen), last);
    RunStateAppends(first, id, seen, Seen(mid, last, id));
  }

  lemma {:induction false} RunMirrors(stock: Stock, before: seq<WorldStep>, after: seq<WorldStep>, id: Id)
    requires AllAllowed(before) && AllAllowed(after) && LeavesAlone(after, id)
    requires id in RunWorld(World(map[], stock), before).orders
    requires Quiet(RunWorld(World(map[], stock), before).orders[id])
    requires D.FullyReserved(RunWorld(World(map[], stock), before).orders[id].rows)
    ensures var w := RunWorld(World(map[], stock), before);
            var first := D.State(w.orders[id].rows, CallsOf(World(map[], stock), before), {});
            Mirrors(RunWorld(w, after), id, stock, D.RunState(first, id, AllSeen(w, after, id)))
  {
    if after == [] {
      FirstMirrors(stock, before, id);
    } else {
      var front := after[..|after| - 1];
      RunMirrors(stock, before, front, id);
      EveryRunKeepsAll(stock, before, front, id);
      var w := RunWorld(World(map[], stock), before);
      OneMoreMirrors(w, after, id, stock, D.State(w.orders[id].rows, CallsOf(World(map[], stock), before), {}));
    }
  }

  /* ---------- the stock follows the parcel ---------- */

  predicate AllProcessed(o: Order) {
    && |o.work| == |o.rows.commands|
    && forall k :: 0 <= k < |o.work| && IsSellerStock(o.rows.commands[k]) ==> o.work[k].delivery.processed
  }

  /** For an order completed with everything reserved, one seller per product and its reservation row done: through any
      allowed continuation of the whole system, a hold is untouched while its seller order owes nothing, and once the
      sellers' stock commands are processed it is consumed if its seller order was delivered and released if it was
      returned or cancelled. */
  lemma {:induction false} StockFollowsTheParcelInTheWorld(stock: Stock, before: seq<WorldStep>, after: seq<WorldStep>,
                                                           id: Id, i: nat, j: nat)
    requires L.Opening(stock) && AllAllowed(before) && AllAllowed(after) && LeavesAlone(after, id)
    requires id in RunWorld(World(map[], stock), before).orders
    requires var w := RunWorld(World(map[], stock), before);
             Quiet(w.orders[id]) && D.FullyReserved(w.orders[id].rows) && D.Owns(w.orders[id].rows, w.stock, id, i, j)
    ensures var w := RunWorld(World(map[], stock), before);
            var w' := RunWorld(w, after);
            && id in w'.orders && i < |w'.orders[id].rows.children| && j < |w'.stock.holds|
            && D.AtMostOneEach(w'.orders[id].rows)
            && (D.Owed(w'.orders[id].rows.children[i].status).None? ==> w'.stock.holds[j] == w.stock.holds[j])
            && (AllProcessed(w'.orders[id]) ==>
                  w'.stock.holds[j] ==
                  w.stock.holds[j].(status := D.Destination(w'.orders[id].rows.children[i].status)))
  {
    var start := World(map[], stock);
    var w := RunWorld(start, before);
    RunIsAHistory(start, before);
    RunMirrors(stock, before, after, id);
    D.StockFollowsTheParcel(w.orders[id].rows, stock, CallsOf(start, before), id, AllSeen(w, after, id), i, j);
  }

  /* ---------- exactly when ---------- */

  /** The holds of seller orders that owe nothing are as they were. */
  ghost predicate Untouched(w: World, w': World, id: Id)
    requires id in w.orders
  {
    && id in w'.orders
    && forall i: nat, j: nat :: D.Owns(w.orders[id].rows, w.stock, id, i, j) ==>
         i < |w'.orders[id].rows.children| && j < |w'.stock.holds| &&
         (D.Owed(w'.orders[id].rows.children[i].status).None? ==> w'.stock.holds[j] == w.stock.holds[j])
  }

  ghost predicate AlwaysUntouched(w: World, id: Id)
    requires id in w.orders
  {
    forall after :: AllAllowed(after) && LeavesAlone(after, id) ==> Untouched(w, RunWorld(w, after), id)
  }

  /** A row that can be worked again can be refused on a line it already holds, and then rolls back. */
  lemma {:induction false} RefuseStep(o: Order, id: Id, s: Stock)
    requires Rowed(o, 0) && o.plan.Usable? && o.plan.items != [] && o.work[0].at == Lines(0)
    ensures TakeOrderStep(o, id, s, Call(0, Refused(BAD_REQUEST), 0.0, 0.0)) == Result(GoTo(o, 0, RollingBack), s)
  {
  }

  lemma {:induction false} RollbackStep(o: Order, id: Id, s: Stock)
    requires Rowed(o, 0) && o.work[0].at.RollingBack?
    ensures var r := TakeOrderStep(o, id, s, Call(0, Answered, 0.0, 0.0));
            r.order.rows == o.rows && r.stock == SettleCall(s, Release, id, {}).stock
  {
  }

  lemma {:induction false} ReachRollback(a: Result, id: Id) returns (r: Result)
    requires Inv(a.order, id, a.stock) && a.order.plan.Usable? && a.order.plan.items != [] && E.CanWork(a.order)
    ensures E.Reaches(a, r, id) && r.order.rows == a.order.rows
    ensures r.stock == SettleCall(a.stock, Release, id, {}).stock
  {
    E.Stays(a, id);
    var b := E.ReachAttempt(a, a, id);
    RefuseStep(b.order, id, b.stock);
    E.ReachesNext(a, b, id, Call(0, Refused(BAD_REQUEST), 0.0, 0.0));
    var c := Result(GoTo(b.order, 0, RollingBack), b.stock);
    RollbackStep(c.order, id, c.stock);
    E.ReachesNext(a, c, id, Call(0, Answered, 0.0, 0.0));
    r := TakeOrderStep(c.order, id, c.stock, Call(0, Answered, 0.0, 0.0));
  }

  lemma {:induction false} WorkableCanStrip(stock: Stock, before: seq<WorldStep>, id: Id, i: nat, j: nat)
    returns (after: seq<WorldStep>)
    requires L.Opening(stock) && AllAllowed(before) && id in RunWorld(World(map[], stock), before).orders
    requires var w := RunWorld(World(map[], stock), before);
             && D.FullyReserved(w.orders[id].rows) && D.Owns(w.orders[id].rows, w.stock, id, i, j)
             && !Quiet(w.orders[id])
    ensures AllAllowed(after) && LeavesAlone(after, id)
    ensures var w := RunWorld(World(map[], stock), before); !Untouched(w, RunWorld(w, after), id)
  {
    var start := World(map[], stock);
    var w := RunWorld(start, before);
    var a := Result(w.orders[id], w.stock);
    EveryRunKeepsAll(stock, before, [], id);
    PlansAreWellFormed(stock, before, id);
    assert RowSane(a.order.work[0]);
    var r := ReachRollback(a, id);
    ProtocolKeepsTheLedger(stock, before);
    var loose := L.RunLoose(stock, L.NoLoose(stock), CallsOf(start, before));
    L.SettleIsExact(w.stock, loose, L.Stocked(stock), Release, id, {});
    after := E.ReachedInTheWorld(w, id, r);
    assert r.stock.holds[j].status.Released?;
    assert RunWorld(w, after).orders[id].rows == w.orders[id].rows;
  }

  /** So for a completed, fully reserved order that holds something, every allowed continuation leaves its stock to its
      parcels if and only if the reservation row is processed or parked. */
  lemma {:induction false} UntouchedIffQuiet(stock: Stock, before: seq<WorldStep>, id: Id, i: nat, j: nat)
    requires L.Opening(stock) && AllAllowed(before) && id in RunWorld(World(map[], stock), before).orders
    requires var w := RunWorld(World(map[], stock), before);
             D.FullyReserved(w.orders[id].rows) && D.Owns(w.orders[id].rows, w.stock, id, i, j)
    ensures var w := RunWorld(World(map[], stock), before); AlwaysUntouched(w, id) <==> Quiet(w.orders[id])
  {
    var w := RunWorld(World(map[], stock), before);
    if Quiet(w.orders[id]) {
      forall after | AllAllowed(after) && LeavesAlone(after, id) ensures Untouched(w, RunWorld(w, after), id) {
        RunMirrors(stock, before, after, id);
        forall m: nat, n: nat | D.Owns(w.orders[id].rows, w.stock, id, m, n)
          ensures && m < |RunWorld(w, after).orders[id].rows.children| && n < |RunWorld(w, after).stock.holds|
                  && (D.Owed(RunWorld(w, after).orders[id].rows.children[m].status).None? ==>
                        RunWorld(w, after).stock.holds[n] == w.stock.holds[n])
        {
          StockFollowsTheParcelInTheWorld(stock, before, after, id, m, n);
        }
      }
    } else {
      var after := WorkableCanStrip(stock, before, id, i, j);
    }
  }

  const AnswerLost := [Claim(0, 0.0), Call(0, Answered, 0.0, 1.0), Call(0, Lost, 0.0, 2.0)]

  lemma {:induction false} ReportIsLost()
    ensures var r := RunOrder(Open(OneLine, OneSeller), "o", Shelf, AnswerLost, 3);
            && r.stock == Taken && D.FullyReserved(r.order.rows) && D.Owns(r.order.rows, r.stock, "o", 0, 0)
            && !Quiet(r.order)
  {
    var o := Open(OneLine, OneSeller);
    var d := Outbox.Fresh.(claimedAt := Some(0.0), recorded := true);
    assert RunOrder(o, "o", Shelf, AnswerLost, 0) == Result(o, Shelf);
    assert RunOrder(o, "o", Shelf, AnswerLost, 1) == Result(o.(work := [Work(d, Lines(0))]), Shelf);
    ReserveOne();
    var o2 := o.(work := [Work(d, Reporting(StockReserved))]);
    assert RunOrder(o, "o", Shelf, AnswerLost, 2) == Result(o2, Taken);
    assert ChildOf(OneSeller[0]).products == {"p"} by { assert OneSeller[0].lines[0] in OneSeller[0].lines; }
  }

  /** The failing half is reached: an order completes, the answer to its report is lost, its stock can be stripped. */
  lemma {:induction false} LostAnswerExposesTheStock()
    ensures var steps := [PlaceOrder("o", Bought)] + Lift("o", AnswerLost);
            var w := RunWorld(World(map[], Shelf), steps);
            AllAllowed(steps) && "o" in w.orders && D.FullyReserved(w.orders["o"].rows) && !AlwaysUntouched(w, "o")
  {
    OneOrderRuns(AnswerLost);
    ReportIsLost();
    UntouchedIffQuiet(Shelf, [PlaceOrder("o", Bought)] + Lift("o", AnswerLost), "o", 0, 0);
  }
}
