/** No silent stock leak: over every interleaving of the protocol, an ended order that still holds units has a
    reserve or release command that nobody has marked processed. */
module StockLeak {
  import opened Basics
  import opened Transitions
  import opened Ordering
  import opened OrderLines
  import opened Inventory
  import opened Reservation
  import opened OrderSaga
  import opened Protocol
  import opened Sequences
  import Outbox
  import S = SellerOrders

  /** The reservation has been reported: from then on every line's key is spent, so no hold can appear. */
  predicate Latched(o: Order) { Sent(0, StockReserved) in o.rows.keys }

  predicate Bound(s: Stock, id: Id, lines: seq<ItemReservation>, n: nat) {
    n <= |lines| && forall k :: 0 <= k < n ==> LineKey(id, lines[k].product) in s.keys
  }

  predicate AllBound(o: Order, id: Id, s: Stock) { o.plan.Usable? && Bound(s, id, o.plan.items, |o.plan.items|) }

  predicate HasRelease(o: Order) {
    exists k :: 0 <= k < |o.rows.commands| && o.rows.commands[k].ReleaseInventory?
  }

  /* ---------- the invariant of one order ---------- */

  /** Row 0 is the only reservation, and a row is recorded exactly while a worker holds it. */
  predicate Shape(o: Order) {
    && |o.work| == |o.rows.commands| > 0
    && o.rows.commands[0].ReserveInventory?
    && (forall k :: 0 < k < |o.rows.commands| ==> !o.rows.commands[k].ReserveInventory?)
    && (forall k :: 0 <= k < |o.work| ==>
          && (o.work[k].delivery.processed ==> o.work[k].at.Idle?)
          && (o.work[k].delivery.recorded && !o.work[k].delivery.processed ==> !o.work[k].at.Idle?))
  }

  predicate SagaOk(o: Order, id: Id, s: Stock) {
    && CodStatus(o.rows.status)
    && (Latched(o) ==> AllBound(o, id, s) && !o.rows.status.Pending?)
    && (o.rows.status.OrderCompleted? ==> Latched(o))
    && (Latched(o) && Ended(o.rows.status) ==> HasRelease(o))
    && (HasRelease(o) ==> Latched(o))
  }

  predicate ReserveRowOk(o: Order, id: Id, s: Stock)
    requires |o.work| > 0
  {
    && (match o.work[0].at
        case Idle => true
        case Lines(i) => o.plan.Usable? && i < |o.plan.items| && Bound(s, id, o.plan.items, i)
        case RollingBack => true
        case Reporting(event) =>
          || (event.StockReserved? && AllBound(o, id, s))
          || (event.ReservationFailed? && HoldsNothing(s.holds, id))
        case _ => false)
    && (o.work[0].delivery.processed ==> Latched(o) || HoldsNothing(s.holds, id))
    && (o.plan.Rejected? ==> HoldsNothing(s.holds, id))
  }

  predicate OtherRowOk(c: Command, w: Work, id: Id, s: Stock) {
    if c.ReleaseInventory? then
      && (w.at.Idle? || w.at.Releasing? || w.at == Reporting(StockReleased))
      && (w.delivery.processed || w.at.Reporting? ==> HoldsNothing(s.holds, id))
    else w.at.Idle? || w.at.SellerCall? || w.at.Elsewhere?
  }

  predicate OtherRowsOk(o: Order, id: Id, s: Stock)
    requires |o.work| == |o.rows.commands|
  {
    forall k :: 0 < k < |o.work| ==> OtherRowOk(o.rows.commands[k], o.work[k], id, s)
  }

  predicate Inv(o: Order, id: Id, s: Stock) {
    Shape(o) && SagaOk(o, id, s) && ReserveRowOk(o, id, s) && OtherRowsOk(o, id, s)
  }

  lemma {:induction false} InvariantExcludesLeak(o: Order, id: Id, s: Stock)
    requires Inv(o, id, s)
    ensures NoSilentLeak(o, id, s)
  {
    if Ended(o.rows.status) && !HoldsNothing(s.holds, id) && o.work[0].delivery.processed {
      var k :| 0 <= k < |o.rows.commands| && o.rows.commands[k].ReleaseInventory?;
      assert OtherRowOk(o.rows.commands[k], o.work[k], id, s);
    }
  }

  /* ---------- what the stock may do meanwhile ---------- */

  /** From this order's side: spent keys stay spent and a clean order stays clean. */
  predicate Frame(s: Stock, t: Stock, id: Id) {
    s.keys.Keys <= t.keys.Keys && (HoldsNothing(s.holds, id) ==> HoldsNothing(t.holds, id))
  }

  lemma {:induction false} FrameKeepsInv(o: Order, id: Id, s: Stock, t: Stock)
    requires Inv(o, id, s) && Frame(s, t, id)
    ensures Inv(o, id, t)
  {
    forall k | 0 < k < |o.work| ensures OtherRowOk(o.rows.commands[k], o.work[k], id, t) {
      assert OtherRowOk(o.rows.commands[k], o.work[k], id, s);
    }
  }

  lemma {:induction false} SettleFrames(s: Stock, effect: Effect, order: Id, scope: set<Id>, id: Id)
    ensures Frame(s, SettleCall(s, effect, order, scope).stock, id)
  {
  }

  lemma {:induction false} ReserveFrames(s: Stock, product: Id, quantity: int, order: Id, key: Key, id: Id)
    requires order != id
    ensures Frame(s, ReserveCall(s, product, quantity, order, key).stock, id)
  {
    var t := ReserveCall(s, product, quantity, order, key).stock;
    assert forall i :: 0 <= i < |t.holds| ==> (i < |s.holds| && t.holds[i] == s.holds[i]) || t.holds[i].order == order;
  }

  /* ---------- each step keeps it ---------- */

  lemma {:induction false} OpenIsOk(plan: OrderLines.ReservationPlan, plans: seq<SellerPlan>, id: Id, s: Stock)
    requires HoldsNothing(s.holds, id)
    ensures Inv(Open(plan, plans), id, s)
  {
  }

  lemma {:induction false} ClaimKeepsInv(o: Order, id: Id, s: Stock, k: nat, now: real)
    requires Inv(o, id, s) && Rowed(o, k)
    ensures Inv(ClaimRow(o, k, now), id, s)
  {
    var o' := ClaimRow(o, k, now);
    forall j | 0 < j < |o'.work| ensures OtherRowOk(o'.rows.commands[j], o'.work[j], id, s) {
      assert OtherRowOk(o.rows.commands[j], o.work[j], id, s);
    }
  }

  /** Ending an attempt without settling it leaves the row unprocessed and free. */
  lemma {:induction false} UnsettledKeepsInv(o: Order, id: Id, s: Stock, k: nat, outcome: Outbox.Outcome,
                                             jitter: real, now: real)
    requires Inv(o, id, s) && Rowed(o, k) && 0.0 <= jitter < 1.0 && !o.work[k].at.Idle?
    requires !Outbox.Verdict(outcome).Settle?
    ensures Inv(Finish(o, k, outcome, jitter, now), id, s)
  {
    var o' := Finish(o, k, outcome, jitter, now);
    forall j | 0 < j < |o'.work| ensures OtherRowOk(o'.rows.commands[j], o'.work[j], id, s) {
      assert OtherRowOk(o.rows.commands[j], o.work[j], id, s);
    }
  }

  /** A line call either changes nothing, because its key is spent, or happens before the latch. */
  lemma {:induction false} LineCallKeepsInv(o: Order, id: Id, s: Stock, i: nat)
    requires Inv(o, id, s) && o.work[0].at == Lines(i)
    ensures var r := ReserveLine(s, id, o.plan.items[i]);
            Inv(o, id, r.stock) && (r.status == OK ==> Bound(r.stock, id, o.plan.items, i + 1))
  {
    var r := ReserveLine(s, id, o.plan.items[i]);
    if Latched(o) {
      assert r.stock == s;
    } else {
      forall k | 0 < k < |o.work| ensures OtherRowOk(o.rows.commands[k], o.work[k], id, r.stock) {
        assert OtherRowOk(o.rows.commands[k], o.work[k], id, s);
      }
    }
  }

  lemma {:induction false} GoToKeepsInv(o: Order, id: Id, s: Stock, at: Progress)
    requires Inv(o, id, s) && !o.work[0].at.Idle?
    requires || (at.Lines? && o.plan.Usable? && at.next < |o.plan.items| && Bound(s, id, o.plan.items, at.next))
             || at.RollingBack?
             || (at == Reporting(StockReserved) && AllBound(o, id, s))
             || (at == Reporting(ReservationFailed) && HoldsNothing(s.holds, id))
    ensures Inv(GoTo(o, 0, at), id, s)
  {
    var o' := GoTo(o, 0, at);
    forall j | 0 < j < |o'.work| ensures OtherRowOk(o'.rows.commands[j], o'.work[j], id, s) {
      assert OtherRowOk(o.rows.commands[j], o.work[j], id, s);
    }
  }

  lemma {:induction false} WorkLineKeepsInv(o: Order, id: Id, s: Stock, i: nat, fate: Fate, jitter: real, now: real)
    requires Inv(o, id, s) && o.work[0].at == Lines(i) && 0.0 <= jitter < 1.0
    ensures var r := WorkLine(o, id, s, 0, i, fate, jitter, now); Inv(r.order, id, r.stock)
  {
    LineCallKeepsInv(o, id, s, i);
    var r := ReserveLine(s, id, o.plan.items[i]);
    match fate
    case Shedded => UnsettledKeepsInv(o, id, s, 0, Outbox.Shed, jitter, now);
    case Lost => UnsettledKeepsInv(o, id, r.stock, 0, Again, jitter, now);
    case Refused(status) =>
      UnsettledKeepsInv(o, id, s, 0, Again, jitter, now);
      GoToKeepsInv(o, id, s, RollingBack);
    case Answered =>
      UnsettledKeepsInv(o, id, r.stock, 0, Again, jitter, now);
      GoToKeepsInv(o, id, r.stock, if r.status == OK then NextLine(o.plan.items, i + 1) else RollingBack);
  }

  lemma {:induction false} WorkRollbackKeepsInv(o: Order, id: Id, s: Stock, fate: Fate, jitter: real, now: real)
    requires Inv(o, id, s) && o.work[0].at.RollingBack? && 0.0 <= jitter < 1.0
    ensures var r := WorkRollback(o, id, s, 0, fate, jitter, now); Inv(r.order, id, r.stock)
  {
    var r := SettleCall(s, Release, id, {});
    SettleFrames(s, Release, id, {}, id);
    FrameKeepsInv(o, id, s, r.stock);
    UnsettledKeepsInv(o, id, s, 0, Outbox.Shed, jitter, now);
    UnsettledKeepsInv(o, id, s, 0, Again, jitter, now);
    UnsettledKeepsInv(o, id, r.stock, 0, Again, jitter, now);
    if r.status == OK {
      ReleaseHoldsNothing(s, id);
      GoToKeepsInv(o, id, r.stock, Reporting(ReservationFailed));
    }
  }

  lemma {:induction false} WorkReleaseKeepsInv(o: Order, id: Id, s: Stock, k: nat, fate: Fate, jitter: real, now: real)
    requires Inv(o, id, s) && Rowed(o, k) && o.work[k].at.Releasing? && 0.0 <= jitter < 1.0 && PlausibleFate(fate)
    ensures var r := WorkRelease(o, id, s, k, fate, jitter, now); Inv(r.order, id, r.stock)
  {
    assert k > 0 && OtherRowOk(o.rows.commands[k], o.work[k], id, s);
    var r := SettleCall(s, Release, id, {});
    SettleFrames(s, Release, id, {}, id);
    FrameKeepsInv(o, id, s, r.stock);
    match fate
    case Shedded => UnsettledKeepsInv(o, id, s, k, Outbox.Shed, jitter, now);
    case Lost => UnsettledKeepsInv(o, id, r.stock, k, Again, jitter, now);
    case Refused(status) =>
      UnsettledKeepsInv(o, id, s, k, Outbox.Handled(Outbox.ClassifyCommandFailure(Some(status))), jitter, now);
    case Answered =>
      if r.status == OK {
        ReleaseHoldsNothing(s, id);
        var o' := GoTo(o, k, Reporting(StockReleased));
        forall j | 0 < j < |o'.work| ensures OtherRowOk(o'.rows.commands[j], o'.work[j], id, r.stock) {
          assert OtherRowOk(o.rows.commands[j], o.work[j], id, r.stock);
        }
      } else {
        var refused := Outbox.Handled(Outbox.ClassifyCommandFailure(Some(r.status)));
        UnsettledKeepsInv(o, id, r.stock, k, refused, jitter, now);
      }
  }

  /** Seller-order commands and the ones that never touch stock may settle freely. */
  lemma {:induction false} FinishOtherKeepsInv(o: Order, id: Id, s: Stock, k: nat, outcome: Outbox.Outcome,
                                               jitter: real, now: real)
    requires Inv(o, id, s) && Rowed(o, k) && 0.0 <= jitter < 1.0
    requires o.work[k].at.SellerCall? || o.work[k].at.Elsewhere?
    ensures Inv(Finish(o, k, outcome, jitter, now), id, s)
  {
    assert k > 0 && OtherRowOk(o.rows.commands[k], o.work[k], id, s);
    var o' := Finish(o, k, outcome, jitter, now);
    forall j | 0 < j < |o'.work| ensures OtherRowOk(o'.rows.commands[j], o'.work[j], id, s) {
      assert OtherRowOk(o.rows.commands[j], o.work[j], id, s);
    }
  }

  lemma {:induction false} WorkSellerCallKeepsInv(o: Order, id: Id, s: Stock, k: nat, fate: Fate, jitter: real,
                                                  now: real)
    requires Inv(o, id, s) && Rowed(o, k) && o.work[k].at.SellerCall? && 0.0 <= jitter < 1.0
    ensures var r := WorkSellerCall(o, id, s, k, fate, jitter, now); Inv(r.order, id, r.stock)
  {
    var c := o.rows.commands[k];
    if (c.ReleaseSellerStock? || c.ConsumeSellerStock?) && c.child < |o.rows.children| {
      var effect := if c.ReleaseSellerStock? then Release else Consume;
      var scope := o.rows.children[c.child].products;
      var t := SettleCall(s, effect, id, scope);
      SettleFrames(s, effect, id, scope, id);
      FrameKeepsInv(o, id, s, t.stock);
      match fate
      case Shedded => FinishOtherKeepsInv(o, id, s, k, Outbox.Shed, jitter, now);
      case Lost => FinishOtherKeepsInv(o, id, t.stock, k, Again, jitter, now);
      case Refused(status) =>
        FinishOtherKeepsInv(o, id, s, k, Outbox.Handled(Outbox.ClassifyCommandFailure(Some(status))), jitter, now);
      case Answered =>
        var outcome := Outbox.Handled(Outbox.ClassifyCommandFailure(Some(t.status)));
        FinishOtherKeepsInv(o, id, t.stock, k, outcome, jitter, now);
    }
  }

  /* ---------- order-saga's transactions ---------- */

  predicate Extends(a: seq<Command>, b: seq<Command>) {
    |a| <= |b| && (forall k :: 0 <= k < |a| ==> b[k] == a[k])
    && forall k :: |a| <= k < |b| ==> !b[k].ReserveInventory?
  }

  lemma {:induction false} NewRowsKeepInv(o: Order, id: Id, s: Stock, rows: Rows)
    requires Inv(o, id, s) && Extends(o.rows.commands, rows.commands)
    requires SagaOk(WithRows(o, rows), id, s) && (Latched(o) ==> Latched(WithRows(o, rows)))
    ensures Inv(WithRows(o, rows), id, s)
  {
    var o' := WithRows(o, rows);
    forall k | 0 < k < |o'.work| ensures OtherRowOk(o'.rows.commands[k], o'.work[k], id, s) {
      if k < |o.work| { assert OtherRowOk(o.rows.commands[k], o.work[k], id, s); }
    }
  }

  lemma {:induction false} ReleaseStays(o: Order, rows: Rows)
    requires Extends(o.rows.commands, rows.commands) && HasRelease(o)
    ensures HasRelease(WithRows(o, rows))
  {
    var k :| 0 <= k < |o.rows.commands| && o.rows.commands[k].ReleaseInventory?;
    assert rows.commands[k].ReleaseInventory?;
  }

  lemma {:induction false} ActKeepsInv(o: Order, id: Id, s: Stock, i: nat, action: S.Action, reasoned: bool)
    requires Inv(o, id, s)
    ensures Inv(WithRows(o, Transition(o.rows, i, action, reasoned).rows), id, s)
  {
    var rows := Transition(o.rows, i, action, reasoned).rows;
    if HasRelease(o) { ReleaseStays(o, rows); }
    NewRowsKeepInv(o, id, s, rows);
  }

  lemma {:induction false} SweepKeepsInv(o: Order, id: Id, s: Stock, stale: bool)
    requires Inv(o, id, s)
    ensures Inv(WithRows(o, Reap(o.rows, stale)), id, s)
  {
    var rows := Reap(o.rows, stale);
    if HasRelease(o) { ReleaseStays(o, rows); }
    NewRowsKeepInv(o, id, s, rows);
  }

  /** Any event except a reservation, under any key. */
  lemma {:induction false} EventKeepsInv(o: Order, id: Id, s: Stock, event: Event, key: EventKey)
    requires Inv(o, id, s) && !event.StockReserved? && key != Sent(0, StockReserved)
    ensures Inv(WithRows(o, Advance(o.rows, event, key).rows), id, s)
  {
    var rows := Advance(o.rows, event, key).rows;
    if HasRelease(o) { ReleaseStays(o, rows); }
    NewRowsKeepInv(o, id, s, rows);
  }

  /** Reporting the reservation latches the order, and gives the stock back if the saga has already ended. */
  lemma {:induction false} ReservedKeepsInv(o: Order, id: Id, s: Stock)
    requires Inv(o, id, s) && AllBound(o, id, s)
    ensures var a := Advance(o.rows, StockReserved, Sent(0, StockReserved));
            a.status == OK && Latched(WithRows(o, a.rows)) && Inv(WithRows(o, a.rows), id, s)
  {
    var rows := Advance(o.rows, StockReserved, Sent(0, StockReserved)).rows;
    var o' := WithRows(o, rows);
    if HasRelease(o) { ReleaseStays(o, rows); }
    if Ended(o.rows.status) && !Latched(o) {
      assert rows.commands[|o.rows.commands|].ReleaseInventory?;
      assert HasRelease(o');
    }
    NewRowsKeepInv(o, id, s, rows);
  }

  /** Settling a report is sound once what it reports is true of the stock. */
  lemma {:induction false} SettleReportKeepsInv(o: Order, id: Id, s: Stock, k: nat, jitter: real, now: real)
    requires Inv(o, id, s) && Rowed(o, k) && 0.0 <= jitter < 1.0 && o.work[k].at.Reporting?
    requires k == 0 ==> Latched(o) || HoldsNothing(s.holds, id)
    ensures Inv(Finish(o, k, Outbox.Handled(Outbox.Settle), jitter, now), id, s)
  {
    var o' := Finish(o, k, Outbox.Handled(Outbox.Settle), jitter, now);
    forall j | 0 < j < |o'.work| ensures OtherRowOk(o'.rows.commands[j], o'.work[j], id, s) {
      assert OtherRowOk(o.rows.commands[j], o.work[j], id, s);
    }
  }

  /** However the attempt to report ends. */
  lemma {:induction false} FinishReportKeepsInv(o: Order, id: Id, s: Stock, k: nat, outcome: Outbox.Outcome,
                                                jitter: real, now: real)
    requires Inv(o, id, s) && Rowed(o, k) && 0.0 <= jitter < 1.0 && o.work[k].at.Reporting?
    requires Outbox.Verdict(outcome).Settle? && k == 0 ==> Latched(o) || HoldsNothing(s.holds, id)
    ensures Inv(Finish(o, k, outcome, jitter, now), id, s)
  {
    if Outbox.Verdict(outcome).Settle? {
      SettleReportKeepsInv(o, id, s, k, jitter, now);
    } else {
      UnsettledKeepsInv(o, id, s, k, outcome, jitter, now);
    }
  }

  lemma {:induction false} WorkReportKeepsInv(o: Order, id: Id, s: Stock, k: nat, event: Event, fate: Fate,
                                              jitter: real, now: real)
    requires Inv(o, id, s) && Rowed(o, k) && 0.0 <= jitter < 1.0 && PlausibleFate(fate)
    requires o.work[k].at == Reporting(event)
    ensures var r := WorkReport(o, s, k, event, fate, jitter, now); Inv(r.order, id, r.stock)
  {
    assert k > 0 ==> OtherRowOk(o.rows.commands[k], o.work[k], id, s);
    var a := Advance(o.rows, event, Sent(k, event));
    if event.StockReserved? {
      ReservedKeepsInv(o, id, s);
    } else {
      EventKeepsInv(o, id, s, event, Sent(k, event));
    }
    match fate
    case Shedded => FinishReportKeepsInv(o, id, s, k, Outbox.Shed, jitter, now);
    case Refused(status) =>
      if status != UNPROCESSABLE {
        FinishReportKeepsInv(o, id, s, k, Outbox.Handled(Outbox.AfterReport(status)), jitter, now);
      }
    case Lost => FinishReportKeepsInv(WithRows(o, a.rows), id, s, k, Again, jitter, now);
    case Answered =>
      FinishReportKeepsInv(WithRows(o, a.rows), id, s, k, Outbox.Handled(Outbox.AfterReport(a.status)), jitter, now);
  }

  /* ---------- one step of one order ---------- */

  lemma {:induction false} CallKeepsInv(o: Order, id: Id, s: Stock, k: nat, fate: Fate, jitter: real, now: real)
    requires Inv(o, id, s) && Rowed(o, k) && 0.0 <= jitter < 1.0 && PlausibleFate(fate)
    ensures var r := WorkRow(o, id, s, k, fate, jitter, now); Inv(r.order, id, r.stock)
  {
    assert k > 0 ==> OtherRowOk(o.rows.commands[k], o.work[k], id, s);
    match o.work[k].at
    case Idle =>
    case Lines(i) => WorkLineKeepsInv(o, id, s, i, fate, jitter, now);
    case RollingBack => WorkRollbackKeepsInv(o, id, s, fate, jitter, now);
    case Releasing => WorkReleaseKeepsInv(o, id, s, k, fate, jitter, now);
    case SellerCall => WorkSellerCallKeepsInv(o, id, s, k, fate, jitter, now);
    case Elsewhere => FinishOtherKeepsInv(o, id, s, k, ElsewhereOutcome(o.rows.commands[k], fate), jitter, now);
    case Reporting(event) => WorkReportKeepsInv(o, id, s, k, event, fate, jitter, now);
  }

  lemma {:induction false} OrderStepKeepsInv(o: Order, id: Id, s: Stock, step: OrderStep)
    requires Inv(o, id, s) && Allowed(step)
    ensures var r := TakeOrderStep(o, id, s, step); Inv(r.order, id, r.stock)
  {
    match step
    case Claim(k, now) => if Rowed(o, k) { ClaimKeepsInv(o, id, s, k, now); }
    case Call(k, fate, jitter, now) => if Rowed(o, k) { CallKeepsInv(o, id, s, k, fate, jitter, now); }
    case Act(i, action, reasoned) => ActKeepsInv(o, id, s, i, action, reasoned);
    case Sweep(stale) => SweepKeepsInv(o, id, s, stale);
    case OtherEvent(event, name) => EventKeepsInv(o, id, s, event, EventKey.CallerKey(name));
  }

  /** A step of one order leaves every other order's view of the stock framed. */
  lemma {:induction false} OrderStepFrames(o: Order, id: Id, s: Stock, step: OrderStep, other: Id)
    requires other != id
    ensures Frame(s, TakeOrderStep(o, id, s, step).stock, other)
  {
    if step.Call? && Rowed(o, step.row) && 0.0 <= step.jitter < 1.0 {
      match o.work[step.row].at
      case Lines(i) =>
        if o.plan.Usable? && i < |o.plan.items| {
          var line := o.plan.items[i];
          ReserveFrames(s, line.product, line.quantity, id, LineKey(id, line.product), other);
        }
      case RollingBack => SettleFrames(s, Release, id, {}, other);
      case Releasing => SettleFrames(s, Release, id, {}, other);
      case SellerCall =>
        var c := o.rows.commands[step.row];
        if (c.ReleaseSellerStock? || c.ConsumeSellerStock?) && c.child < |o.rows.children| {
          SettleFrames(s, if c.ReleaseSellerStock? then Release else Consume, id,
                       o.rows.children[c.child].products, other);
        }
      case _ =>
    }
  }

  /* ---------- every run of the whole system ---------- */

  predicate WorldInv(w: World) { forall id :: id in w.orders ==> Inv(w.orders[id], id, w.stock) }

  lemma {:induction false} StepKeepsWorldInv(w: World, step: WorldStep)
    requires WorldInv(w) && (step.InOrder? ==> Allowed(step.step))
    ensures WorldInv(TakeStep(w, step))
  {
    var w' := TakeStep(w, step);
    forall id | id in w'.orders ensures Inv(w'.orders[id], id, w'.stock) {
      match step
      case PlaceOrder(new_, entries) =>
        if Unused(w, new_) && Split(entries).Some? && id == new_ {
          OpenIsOk(Plan(entries), Split(entries).value, id, w.stock);
        }
      case InOrder(acting, ostep) =>
        if acting in w.orders {
          if id == acting {
            OrderStepKeepsInv(w.orders[id], id, w.stock, ostep);
          } else {
            OrderStepFrames(w.orders[acting], acting, w.stock, ostep, id);
            FrameKeepsInv(w.orders[id], id, w.stock, w'.stock);
          }
        }
      case OtherReserve(product, quantity, order, name) =>
        if order !in w.orders {
          ReserveFrames(w.stock, product, quantity, order, Key.CallerKey(name), id);
          FrameKeepsInv(w.orders[id], id, w.stock, w'.stock);
        }
      case OtherSettle(effect, order, scope) =>
        SettleFrames(w.stock, effect, order, scope, id);
        FrameKeepsInv(w.orders[id], id, w.stock, w'.stock);
    }
  }

  lemma {:induction false} EveryRunKeepsInv(stock: Stock, steps: seq<WorldStep>)
    requires AllAllowed(steps)
    ensures WorldInv(RunWorld(World(map[], stock), steps))
  {
    if steps != [] {
      var front := steps[..|steps| - 1];
      assert AllAllowed(front);
      EveryRunKeepsInv(stock, front);
      StepKeepsWorldInv(RunWorld(World(map[], stock), front), steps[|steps| - 1]);
    }
  }

  /** In every run, from any stock, no ended order silently keeps units. */
  lemma {:induction false} NoRunLeaksSilently(stock: Stock, steps: seq<WorldStep>, id: Id)
    requires AllAllowed(steps) && id in RunWorld(World(map[], stock), steps).orders
    ensures var w := RunWorld(World(map[], stock), steps); NoSilentLeak(w.orders[id], id, w.stock)
  {
    EveryRunKeepsInv(stock, steps);
    var w := RunWorld(World(map[], stock), steps);
    InvariantExcludesLeak(w.orders[id], id, w.stock);
  }

  /* ---------- what the hypotheses are worth ---------- */

  const Shelf := Stock(map["p" := Level(5, 0)], [], map[])
  const Taken := Stock(map["p" := Level(4, 1)], [Hold("o", "p", 1, Held)], map[LineKey("o", "p") := "p"])
  const OneLine := Usable([ItemReservation("p", 1)])

  lemma {:induction false} ReserveOne()
    ensures ReserveLine(Shelf, "o", ItemReservation("p", 1)) == Reply(Taken, OK)
  {
    assert Shelf.levels["p" := Level(4, 1)] == Taken.levels;
  }

  /** One seller, one line. */
  const Bought := [Line("s", "p", Whole(1), Some(10), Some(10))]
  const OneSeller := [SellerPlan("s", [SplitLine("s", "p", 1, 10, 10)], 10)]

  lemma {:induction false} SortOfOne(a: Id)
    ensures SortIds({a}) == [a]
  {
    assert Least(a, {a});
    LeastIsUnique({a});
    assert {a} - {a} == {};
    assert SortIds({a}) == [a] + SortIds({});
  }

  lemma {:induction false} OneLineSplits()
    ensures Split(Bought) == Some(OneSeller)
  {
    var line := SplitLine("s", "p", 1, 10, 10);
    assert Parsed(Bought, 0) == Some([]);
    assert ParseLine(Bought[0]) == Some(line) && [] + [line] == [line];
    assert Parsed(Bought, 1) == Some([line]);
    assert line in [line];
    assert SellersOf([line]) == {"s"};
    SortOfOne("s");
    OneLineIsOneSeller(line);
    assert PlansFor(["s"], [line]) == OneSeller;
  }

  lemma {:induction false} OneLineIsOneSeller(line: SplitLine)
    requires line == SplitLine("s", "p", 1, 10, 10)
    ensures PlanFor("s", [line]) == OneSeller[0]
  {
    assert line in [line];
    assert ProductsOf([line]) == {"p"};
    SortOfOne("p");
    FilterOneMore([], line, SoldBy("s"));
    FilterOneMore([], line, ProductIs("p"));
    assert ["p"][1..] == [] && Grouped([], [line]) == [];
    assert SortLines([line]) == [line];
    SumOneMore([], line, Totals());
  }

  lemma {:induction false} OneLineIsPlanned()
    ensures Plan(Bought) == OneLine
  {
    assert FirstError(Bought, 0) == None;
    assert Bought[0] in Bought;
    assert Wanted(Bought) == {"p"};
    SortOfOne("p");
    assert Bought == [] + [Bought[0]];
    SumOneMore([], Bought[0], Planned("p"));
    assert Reservations(["p"], Bought) == [ItemReservation("p", 1)];
  }

  /** The world after that one order was placed. */
  lemma {:induction false} OneOrderPlaced()
    ensures RunWorld(World(map[], Shelf), [PlaceOrder("o", Bought)]) ==
            World(map["o" := Open(OneLine, OneSeller)], Shelf)
  {
    OneLineSplits();
    OneLineIsPlanned();
    var placed := [PlaceOrder("o", Bought)];
    assert placed[..0] == [];
    assert RunWorld(World(map[], Shelf), placed) == TakeStep(RunWorld(World(map[], Shelf), []), placed[0]);
  }

  /** And after some steps of it. */
  lemma {:induction false} OneOrderRuns(steps: seq<OrderStep>)
    ensures var r := RunOrder(Open(OneLine, OneSeller), "o", Shelf, steps, |steps|);
            RunWorld(World(map[], Shelf), [PlaceOrder("o", Bought)] + Lift("o", steps)) ==
            World(map["o" := r.order], r.stock)
  {
    OneOrderPlaced();
    LiftRuns(World(map["o" := Open(OneLine, OneSeller)], Shelf), "o", steps);
    RunsCompose(World(map[], Shelf), [PlaceOrder("o", Bought)], Lift("o", steps));
  }

  const Crashing := [Claim(0, 0.0), Call(0, Answered, 0.0, 1.0), OrderStep.Crash(0), Claim(0, 200.0),
                     OrderStep.Sweep(true)]

  /** A dispatcher that dies holding the reservation loses it: on reclaim the row is marked processed unheard,
      the reaper times the saga out, and the units stay held with nothing outstanding. */
  lemma {:induction false} CrashLeaks()
    ensures var w := RunWorld(World(map[], Shelf), [PlaceOrder("o", Bought)] + Lift("o", Crashing));
            "o" in w.orders && !NoSilentLeak(w.orders["o"], "o", w.stock)
  {
    OneOrderRuns(Crashing);
    var o := Open(OneLine, OneSeller);
    var d := Outbox.Fresh.(claimedAt := Some(0.0), recorded := true);
    var o1 := o.(work := [Work(d, Lines(0))]);
    assert RunOrder(o, "o", Shelf, Crashing, 1) == Result(o1, Shelf);
    ReserveOne();
    var o2 := o.(work := [Work(d, Reporting(StockReserved))]);
    assert RunOrder(o, "o", Shelf, Crashing, 2) == Result(o2, Taken);
    var o3 := o.(work := [Work(d, Idle)]);
    assert RunOrder(o, "o", Shelf, Crashing, 3) == Result(o3, Taken);
    var o4 := o.(work := [Work(d.(claimedAt := Some(200.0), processed := true), Idle)]);
    assert RunOrder(o, "o", Shelf, Crashing, 4) == Result(o4, Taken);
    var r := RunOrder(o, "o", Shelf, Crashing, 5);
    assert r.order.rows.status.TimedOut? && r.order.rows.commands == [ReserveInventory, SagaTimedOut];
    assert r.stock.holds[0].status.Held?;
  }
}
