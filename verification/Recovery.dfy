/** Nothing is beyond recovery: an ended order that still holds units can be emptied by its own commands, unless they
    were parked for a person to look at. */
module Recovery {
  import opened Basics
  import opened Transitions
  import opened Inventory
  import opened Reservation
  import opened Protocol
  import opened StockLeak
  import opened EarlyCancel
  import opened ParcelStock
  import L = StockLedger
  import R = SagaReports
  import Outbox

  /** A command that asks for the order's stock or gives all of it back. */
  predicate MovesTheOrder(c: Command) { c.ReserveInventory? || c.ReleaseInventory? }

  /** The outbox row can still be worked. */
  predicate RowOpen(o: Order, k: nat) { Rowed(o, k) && !o.work[k].delivery.processed && !o.work[k].delivery.parked }

  /* ---------- a whole-order release ---------- */

  lemma {:induction false} ShedRelease(o: Order, id: Id, s: Stock, k: nat)
    requires Inv(o, id, s) && RowOpen(o, k) && RowSane(o.work[k]) && o.rows.commands[k].ReleaseInventory?
    requires !o.work[k].at.Idle?
    ensures var r := TakeOrderStep(o, id, s, Call(k, Shedded, 0.0, 0.0));
            && r.stock == s && r.order == Put(o, k, r.order.work[k])
            && r.order.work[k].at.Idle? && Workable(r.order.work[k].delivery)
  {
    assert OtherRowOk(o.rows.commands[k], o.work[k], id, s);
  }

  lemma {:induction false} ClaimRelease(o: Order, id: Id, s: Stock, k: nat)
    requires Rowed(o, k) && o.rows.commands[k].ReleaseInventory? && o.work[k].at.Idle? && Workable(o.work[k].delivery)
    ensures var r := TakeOrderStep(o, id, s, Claim(k, Late(o.work[k].delivery)));
            r.stock == s && r.order == Put(o, k, r.order.work[k]) && r.order.work[k].at.Releasing?
  {
  }

  lemma {:induction false} ReleaseCall(o: Order, id: Id, s: Stock, k: nat)
    requires Rowed(o, k) && o.work[k].at.Releasing? && SettleCall(s, Release, id, {}).status == OK
    ensures var r := TakeOrderStep(o, id, s, Call(k, Answered, 0.0, 0.0));
            && r.order == GoTo(o, k, Reporting(StockReleased)) && HoldsNothing(r.stock.holds, id)
  {
  }

  lemma {:induction false} ReachRelease(a: Result, id: Id, k: nat) returns (r: Result)
    requires Inv(a.order, id, a.stock) && RowOpen(a.order, k) && RowSane(a.order.work[k])
    requires a.order.rows.commands[k].ReleaseInventory? && SettleCall(a.stock, Release, id, {}).status == OK
    ensures Reaches(a, r, id) && r.order.rows == a.order.rows && HoldsNothing(r.stock.holds, id)
    ensures Rowed(r.order, k) && r.order.work[k].at == Reporting(StockReleased)
  {
    Stays(a, id);
    var b := a;
    if !a.order.work[k].at.Idle? {
      ShedRelease(a.order, id, a.stock, k);
      ReachesNext(a, a, id, Call(k, Shedded, 0.0, 0.0));
      b := TakeOrderStep(a.order, id, a.stock, Call(k, Shedded, 0.0, 0.0));
    }
    var claim := Claim(k, Late(b.order.work[k].delivery));
    ClaimRelease(b.order, id, b.stock, k);
    ReachesNext(a, b, id, claim);
    var c := TakeOrderStep(b.order, id, b.stock, claim);
    ReleaseCall(c.order, id, c.stock, k);
    ReachesNext(a, c, id, Call(k, Answered, 0.0, 0.0));
    r := TakeOrderStep(c.order, id, c.stock, Call(k, Answered, 0.0, 0.0));
  }

  /** After any allowed run a whole-order release that is neither processed nor parked can be seen through: the order
      then holds nothing, the release is processed and the saga is rolled back. */
  lemma {:induction false} ReleaseCanBeFinished(stock: Stock, before: seq<WorldStep>, id: Id, k: nat)
    returns (after: seq<WorldStep>)
    requires L.Opening(stock) && AllAllowed(before) && id in RunWorld(World(map[], stock), before).orders
    requires var o := RunWorld(World(map[], stock), before).orders[id];
             RowOpen(o, k) && o.rows.commands[k].ReleaseInventory?
    ensures AllAllowed(after)
    ensures var w := RunWorld(RunWorld(World(map[], stock), before), after);
            && id in w.orders && Rowed(w.orders[id], k) && HoldsNothing(w.stock.holds, id)
            && w.orders[id].work[k].delivery.processed && w.orders[id].rows.status.RollbackCompleted?
  {
    var start := World(map[], stock);
    var w := RunWorld(start, before);
    var a := Result(w.orders[id], w.stock);
    EveryRunKeepsAll(stock, before, [], id);
    assert RowSane(a.order.work[k]) && ReleaseMeansEnded(a.order.rows);
    ReleaseIsServed(stock, before, id);
    var r := ReachRelease(a, id, k);
    var reached := ReachedInTheWorld(w, id, r);
    var report := InOrder(id, Call(k, Answered, 0.0, 0.0));
    after := reached + [report];
    RunsCompose(start, before, reached);
    assert AllAllowed(before + reached);
    R.AnsweredReleaseClosesTheSaga(stock, before + reached, id, k, 0.0, 0.0);
    assert after[..|reached|] == reached;
  }

  lemma {:induction false} ReleaseIsServed(stock: Stock, before: seq<WorldStep>, id: Id)
    requires L.Opening(stock)
    ensures SettleCall(RunWorld(World(map[], stock), before).stock, Release, id, {}).status == OK
  {
    var start := World(map[], stock);
    ProtocolKeepsTheLedger(stock, before);
    L.SettleIsExact(RunWorld(start, before).stock, L.RunLoose(stock, L.NoLoose(stock), CallsOf(start, before)),
                    L.Stocked(stock), Release, id, {});
  }

  /* ---------- either way ---------- */

  lemma {:induction false} ReachEmptied(a: Result, id: Id, k: nat) returns (r: Result)
    requires Inv(a.order, id, a.stock) && RowOpen(a.order, k) && RowSane(a.order.work[k])
    requires MovesTheOrder(a.order.rows.commands[k]) && SettleCall(a.stock, Release, id, {}).status == OK
    requires a.order.plan.Usable? ==> a.order.plan.items != []
    ensures Reaches(a, r, id) && HoldsNothing(r.stock.holds, id)
  {
    if a.order.rows.commands[k].ReleaseInventory? {
      r := ReachRelease(a, id, k);
    } else if a.order.plan.Usable? {
      r := ReachRollback(a, id);
    } else {
      Stays(a, id);
      r := a;
    }
  }

  /** After any allowed run, an ended order that holds units, none of whose reserve and release commands is parked, has
      an allowed continuation after which it holds nothing. */
  lemma {:induction false} EndedOrderCanBeEmptied(stock: Stock, before: seq<WorldStep>, id: Id)
    returns (after: seq<WorldStep>)
    requires L.Opening(stock) && AllAllowed(before) && id in RunWorld(World(map[], stock), before).orders
    requires var o := RunWorld(World(map[], stock), before).orders[id];
             && Ended(o.rows.status)
             && forall k :: 0 <= k < |o.work| == |o.rows.commands| && MovesTheOrder(o.rows.commands[k]) ==>
                  !o.work[k].delivery.parked
    ensures AllAllowed(after)
    ensures HoldsNothing(RunWorld(RunWorld(World(map[], stock), before), after).stock.holds, id)
  {
    var start := World(map[], stock);
    var w := RunWorld(start, before);
    after := [];
    if !HoldsNothing(w.stock.holds, id) {
      var a := Result(w.orders[id], w.stock);
      NoRunLeaksSilently(stock, before, id);
      var k :| 0 <= k < |a.order.work| == |a.order.rows.commands| && MovesTheOrder(a.order.rows.commands[k])
               && !a.order.work[k].delivery.processed;
      EveryRunKeepsAll(stock, before, [], id);
      assert RowSane(a.order.work[k]);
      PlansAreWellFormed(stock, before, id);
      ReleaseIsServed(stock, before, id);
      var r := ReachEmptied(a, id, k);
      after := ReachedInTheWorld(w, id, r);
    }
  }

  /* ---------- what one call does to a command ---------- */

  /** A line that is refused below 500 is undone, and the rest with it; above, or when the answer or the call is lost,
      the command is only put off. Nothing of this finishes it. */
  lemma {:induction false} FailedLineIsUndoneOrRetried(o: Order, id: Id, s: Stock, i: nat, fate: Fate, jitter: real,
                                                       now: real)
    requires Rowed(o, 0) && o.work[0].at == Lines(i) && o.plan.Usable? && i < |o.plan.items|
    requires !fate.Answered? && 0.0 <= jitter < 1.0
    ensures var r := TakeOrderStep(o, id, s, Call(0, fate, jitter, now));
            && r.order.rows == o.rows && (!fate.Lost? ==> r.stock == s)
            && (r.order.work[0].at.RollingBack? <==> fate.Refused? && fate.status < 500)
            && (!r.order.work[0].at.RollingBack? ==> r.order.work[0].at.Idle?)
            && r.order.work[0].delivery.processed == o.work[0].delivery.processed
  {
  }

  /** The notice of a timeout needs nobody's answer. An escrow booking is finished by an answer, parked by a refusal
      that will not change or by the fifteenth failure, and otherwise kept. */
  lemma {:induction false} OtherCommandIsDone(o: Order, id: Id, s: Stock, k: nat, fate: Fate, jitter: real, now: real)
    requires RowOpen(o, k) && o.work[k].at.Elsewhere? && RowSane(o.work[k])
    requires PlausibleFate(fate) && 0.0 <= jitter < 1.0
    ensures var r := TakeOrderStep(o, id, s, Call(k, fate, jitter, now));
            var d, d' := o.work[k].delivery, r.order.work[k].delivery;
            && r.stock == s && r.order.rows == o.rows && r.order.work[k].at.Idle?
            && (d'.processed <==> o.rows.commands[k].SagaTimedOut? || fate.Answered?)
            && (d'.parked <==> && !d'.processed && !fate.Shedded?
                               && (d.attempts == 14 || (fate.Refused? && Outbox.Hopeless(fate.status))))
  {
  }

  /** A worker that dies with a row in its hands has it marked processed, unheard and without a call, by whoever takes
      it next. */
  lemma {:induction false} CrashMarksTheRow(o: Order, id: Id, s: Stock, k: nat)
    requires RowOpen(o, k) && o.work[k].delivery.recorded && IsClaimed(o.rows.commands[k])
    ensures var dead := TakeOrderStep(o, id, s, OrderStep.Crash(k));
            var r := TakeOrderStep(dead.order, id, dead.stock, Claim(k, Late(o.work[k].delivery)));
            r.stock == s && r.order.rows == o.rows && r.order.work[k].delivery.processed && r.order.work[k].at.Idle?
  {
  }
}
