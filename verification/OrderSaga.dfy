/** order-saga: the rows it keeps for one cash-on-delivery order, and every transaction that changes them. */
module OrderSaga {
  import opened Basics
  import opened Transitions
  import S = SellerOrders
  import OrderLines

  /** A seller order and the products on its lines. */
  datatype Child = Child(seller: Id, products: set<Id>, status: S.SellerStatus)

  /** Idempotency keys: one per (outbox row, event) for the dispatcher, any text for other callers. */
  datatype EventKey = Sent(row: nat, event: Event) | CallerKey(name: string)

  /** The saga row, its seller orders, its commands in the outbox, and the keys already applied. */
  datatype Rows = Rows(status: SagaStatus, children: seq<Child>, commands: seq<Command>, keys: set<EventKey>)

  datatype Answer = Answer(rows: Rows, status: int)

  /* ---------- transactions, as functions on the rows ---------- */

  function ChildOf(plan: OrderLines.SellerPlan): Child {
    Child(plan.seller, set l | l in plan.lines :: l.product, S.Pending)
  }

  /** A new saga: one seller order per plan and one reservation command for the whole order. */
  function Start(plans: seq<OrderLines.SellerPlan>): Rows {
    Rows(Pending, seq(|plans|, i requires 0 <= i < |plans| => ChildOf(plans[i])), [ReserveInventory], {})
  }

  function CancelChild(c: Child): Child {
    if S.Cancellable(c.status) then c.(status := S.Cancelled) else c
  }

  function CancelChildren(children: seq<Child>): (r: seq<Child>)
    ensures |r| == |children|
    ensures forall i :: 0 <= i < |r| ==> r[i] == CancelChild(children[i])
  {
    seq(|children|, i requires 0 <= i < |children| => CancelChild(children[i]))
  }

  function PushChild(c: Child): Child {
    if c.status == S.Pending then c.(status := S.Reserved) else c
  }

  function PushChildren(children: seq<Child>): (r: seq<Child>)
    ensures |r| == |children|
    ensures forall i :: 0 <= i < |r| ==> r[i] == PushChild(children[i])
  {
    seq(|children|, i requires 0 <= i < |children| => PushChild(children[i]))
  }

  function Emit(commands: seq<Command>, command: Option<Command>): seq<Command> {
    if command.Some? then commands + [command.value] else commands
  }

  function Advance(r: Rows, event: Event, key: EventKey): Answer {
    if key in r.keys then Answer(r, OK)
    else
      match Resolve(r.status, event, CashOnDelivery)
      case UnknownEvent => Answer(r, UNPROCESSABLE)
      case LateDuplicate => Answer(r, OK)
      case OutOfOrder => Answer(r, CONFLICT)
      case Compensate(command) => Answer(r.(commands := r.commands + [command], keys := r.keys + {key}), OK)
      case Apply(to, command) =>
        var kept := if Ended(to) then CancelChildren(r.children) else r.children;
        var pushed := if event.StockReserved? then PushChildren(kept) else kept;
        Answer(Rows(to, pushed, Emit(r.commands, command), r.keys + {key}), OK)
  }

  function EffectCommand(effect: S.StockEffect, i: nat): Option<Command> {
    match effect
    case NoEffect => None
    case ReleaseStock => Some(ReleaseSellerStock(i))
    case ConsumeStock => Some(ConsumeSellerStock(i))
  }

  function Transition(r: Rows, i: nat, action: S.Action, reasoned: bool): Answer {
    if i >= |r.children| then Answer(r, NOT_FOUND)
    else
      match S.PlanTransition(action, r.children[i].status, reasoned)
      case Invalid => Answer(r, UNPROCESSABLE)
      case NotAllowed => Answer(r, CONFLICT)
      case Ok(to, effect) =>
        var booked := if action.Deliver? then r.commands + [BookEscrow(i)] else r.commands;
        Answer(r.(children := r.children[i := r.children[i].(status := to)],
                  commands := Emit(booked, EffectCommand(effect, i))), OK)
  }

  /** The reaper's transaction: a stale pending saga times out, then the children of an ended saga are closed. */
  function Reap(r: Rows, stale: bool): Rows {
    var timed := if stale && r.status.Pending?
                 then r.(status := TimedOut, commands := r.commands + [SagaTimedOut]) else r;
    if Ended(timed.status) then timed.(children := CancelChildren(timed.children)) else timed
  }

  /* ---------- the service ---------- */

  /** Positions of the children that a parent in this state should cancel. */
  method ChildrenToCancel(status: SagaStatus, statuses: seq<S.SellerStatus>) returns (out: seq<nat>)
    ensures forall k :: 0 <= k < |out| ==> out[k] < |statuses|
    ensures forall i: nat :: i in out <==> Ended(status) && i < |statuses| && S.Cancellable(statuses[i])
    ensures forall j, k :: 0 <= j < k < |out| ==> out[j] < out[k]
  {
    out := [];
    if !Ended(status) { return; }
    for i := 0 to |statuses|
      invariant forall k :: 0 <= k < |out| ==> out[k] < i
      invariant forall k: nat :: k in out <==> k < i && S.Cancellable(statuses[k])
      invariant forall j, k :: 0 <= j < k < |out| ==> out[j] < out[k]
    {
      if S.Cancellable(statuses[i]) { out := out + [i]; }
    }
  }

  class OrderSagaService {
    var status: SagaStatus
    var children: seq<Child>
    var commands: seq<Command>
    var keys: set<EventKey>

    function Db(): Rows
      reads this
    {
      Rows(status, children, commands, keys)
    }

    constructor (plans: seq<OrderLines.SellerPlan>)
      ensures Db() == Start(plans)
    {
      status, commands, keys := Pending, [ReserveInventory], {};
      children := seq(|plans|, i requires 0 <= i < |plans| => ChildOf(plans[i]));
    }

    /** Closes what can still be closed; `stuck` is what the source reports as needing a person. */
    method CancelChildrenOfEndedSaga() returns (stuck: seq<nat>)
      modifies this`children
      ensures children == if Ended(status) then CancelChildren(old(children)) else old(children)
      ensures forall i: nat :: i in stuck <==>
                Ended(status) && i < |old(children)| && !S.Cancellable(old(children)[i].status)
                && !S.IsTerminal(old(children)[i].status)
    {
      stuck := [];
      if !Ended(status) { return; }
      var statuses := seq(|children|, i requires 0 <= i < |children| reads this => children[i].status);
      var indices := ChildrenToCancel(status, statuses);
      for i := 0 to |children|
        invariant forall k: nat :: k in stuck <==>
                    k < i && !S.Cancellable(children[k].status) && !S.IsTerminal(children[k].status)
      {
        if i !in indices && !S.IsTerminal(children[i].status) { stuck := stuck + [i]; }
      }
      var k := 0;
      while k < |indices|
        invariant 0 <= k <= |indices|
        invariant |children| == |old(children)|
        invariant forall i :: 0 <= i < |children| ==>
                    children[i] == if i in indices[..k] then old(children)[i].(status := S.Cancelled)
                                   else old(children)[i]
      {
        children := children[indices[k] := children[indices[k]].(status := S.Cancelled)];
        assert indices[..k + 1] == indices[..k] + [indices[k]];
        k := k + 1;
      }
      assert indices[..k] == indices;
      assert children == CancelChildren(old(children));
    }

    method AdvanceSaga(event: Event, key: EventKey) returns (answer: int)
      modifies this
      ensures Answer(Db(), answer) == Advance(old(Db()), event, key)
    {
      if key in keys { return OK; }
      var command: Option<Command> := None;
      match Resolve(status, event, CashOnDelivery) {
        case UnknownEvent => return UNPROCESSABLE;
        case LateDuplicate => return OK;
        case OutOfOrder => return CONFLICT;
        case Compensate(c) => command := Some(c);
        case Apply(to, c) =>
          command := c;
          status := to;
          var _ := CancelChildrenOfEndedSaga();
          if event.StockReserved? { PushReservation(); }
      }
      if command.Some? { commands := commands + [command.value]; }
      keys := keys + {key};
      return OK;
    }

    method PushReservation()
      modifies this`children
      ensures children == PushChildren(old(children))
    {
      var i := 0;
      while i < |children|
        invariant 0 <= i <= |children| == |old(children)|
        invariant forall k :: 0 <= k < i ==> children[k] == PushChild(old(children)[k])
        invariant forall k :: i <= k < |children| ==> children[k] == old(children)[k]
      {
        children := children[i := PushChild(children[i])];
        i := i + 1;
      }
    }

    method TransitionSellerOrder(i: nat, action: S.Action, reasoned: bool) returns (answer: int)
      modifies this
      ensures Answer(Db(), answer) == Transition(old(Db()), i, action, reasoned)
    {
      if i >= |children| { return NOT_FOUND; }
      match S.PlanTransition(action, children[i].status, reasoned) {
        case Invalid => return UNPROCESSABLE;
        case NotAllowed => return CONFLICT;
        case Ok(to, effect) =>
          children := children[i := children[i].(status := to)];
          if action.Deliver? { commands := commands + [BookEscrow(i)]; }
          match effect {
            case NoEffect =>
            case ReleaseStock => commands := commands + [ReleaseSellerStock(i)];
            case ConsumeStock => commands := commands + [ConsumeSellerStock(i)];
          }
          return OK;
      }
    }

    method ReaperSweep(stale: bool)
      modifies this
      ensures Db() == Reap(old(Db()), stale)
    {
      if stale && status.Pending? {
        status := TimedOut;
        commands := commands + [SagaTimedOut];
      }
      var _ := CancelChildrenOfEndedSaga();
    }
  }

  /* ---------- every run ---------- */

  datatype Step =
    | Event(event: Event, key: EventKey)
    | SellerAction(child: nat, action: S.Action, reasoned: bool)
    | Sweep(stale: bool)

  function Take(r: Rows, step: Step): Rows {
    match step
    case Event(event, key) => Advance(r, event, key).rows
    case SellerAction(i, action, reasoned) => Transition(r, i, action, reasoned).rows
    case Sweep(stale) => Reap(r, stale)
  }

  function RunSteps(r: Rows, steps: seq<Step>): Rows {
    if steps == [] then r else Take(RunSteps(r, steps[..|steps| - 1]), steps[|steps| - 1])
  }

  /** The states a cash-on-delivery saga visits. */
  predicate CodStatus(s: SagaStatus) { s.Pending? || s.OrderCompleted? || s.TimedOut? || s.RollbackCompleted? }

  predicate NoPayment(c: Command) { !c.ChargePayment? && !c.RefundPayment? && !c.ConfirmOrder? }

  /** Parent and children agree: work starts only under a completed saga, and nothing stays live under an ended one. */
  predicate Safe(r: Rows) {
    && CodStatus(r.status)
    && (r.status.Pending? ==>
          forall i :: 0 <= i < |r.children| ==> r.children[i].status.Pending? || r.children[i].status.Cancelled?)
    && (Ended(r.status) ==> forall i :: 0 <= i < |r.children| ==> r.children[i].status.Cancelled?)
    && (forall k :: 0 <= k < |r.commands| ==> NoPayment(r.commands[k]))
  }

  /** Under cash on delivery a saga leaves PENDING for good, forward exactly when its stock is reserved; a timed-out
      one is closed by what was given back, and stock that comes after the end is returned. */
  lemma {:induction false} CodDecision(status: SagaStatus, event: Event)
    requires CodStatus(status)
    ensures var d := Resolve(status, event, CashOnDelivery);
            && (d.UnknownEvent? <==> event.Unknown?)
            && (d.Apply? <==> || (status.Pending? && (event.StockReserved? || event.ReservationFailed?))
                              || (status.TimedOut? && (event.StockReleased? || event.PaymentRefunded?)))
            && (d.Apply? ==> d.to == (if event.StockReserved? then OrderCompleted else RollbackCompleted)
                             && d.command == if event.ReservationFailed? then Some(OrderFailed) else None)
            && (d.Compensate? <==> event.StockReserved? && Ended(status))
            && (d.Compensate? ==> d.giveBack == ReleaseInventory)
  {
  }

  lemma {:induction false} EventKeepsSafe(r: Rows, event: Event, key: EventKey)
    requires Safe(r)
    ensures Safe(Advance(r, event, key).rows)
  {
    CodDecision(r.status, event);
    match Resolve(r.status, event, CashOnDelivery)
    case Apply(to, command) => assert Safe(Advance(r, event, key).rows);
    case Compensate(command) => assert Safe(Advance(r, event, key).rows);
    case _ => assert Advance(r, event, key).rows == r;
  }

  lemma {:induction false} ActionKeepsSafe(r: Rows, i: nat, action: S.Action, reasoned: bool)
    requires Safe(r)
    ensures Safe(Transition(r, i, action, reasoned).rows)
  {
  }

  lemma {:induction false} EveryRunIsSafe(plans: seq<OrderLines.SellerPlan>, steps: seq<Step>)
    ensures Safe(RunSteps(Start(plans), steps))
  {
    if steps != [] {
      EveryRunIsSafe(plans, steps[..|steps| - 1]);
      var r := RunSteps(Start(plans), steps[..|steps| - 1]);
      match steps[|steps| - 1]
      case Event(event, key) => EventKeepsSafe(r, event, key);
      case SellerAction(i, action, reasoned) => ActionKeepsSafe(r, i, action, reasoned);
      case Sweep(_) =>
    }
  }

  /** In every committed state: a live seller order past PENDING sits under ORDER_COMPLETED, an ended saga has no
      cancellable child, no payment command was emitted, and no parcel is stuck under an order that ended. */
  lemma {:induction false} ParentAndChildrenAgree(plans: seq<OrderLines.SellerPlan>, steps: seq<Step>)
    ensures var r := RunSteps(Start(plans), steps);
            && (forall i :: 0 <= i < |r.children| && !r.children[i].status.Cancelled? && !r.children[i].status.Pending?
                  ==> r.status.OrderCompleted?)
            && (Ended(r.status) ==> forall i :: 0 <= i < |r.children| ==> !S.Cancellable(r.children[i].status))
            && (forall k :: 0 <= k < |r.commands| ==> !r.commands[k].ChargePayment?)
  {
    EveryRunIsSafe(plans, steps);
  }

  /** The children seen by cancel_children_of_ended_saga when an event ends the saga. */
  lemma {:induction false} NothingIsStuckUnderAnEndedOrder(plans: seq<OrderLines.SellerPlan>, steps: seq<Step>,
                                                           event: Event, key: EventKey, i: nat)
    requires var r := RunSteps(Start(plans), steps);
             && Ended(Advance(r, event, key).rows.status)
             && i < |r.children|
    ensures var child := RunSteps(Start(plans), steps).children[i];
            S.Cancellable(child.status) || S.IsTerminal(child.status)
  {
    EveryRunIsSafe(plans, steps);
  }

  /* ---------- one escrow booking per delivery ---------- */

  predicate WasDelivered(status: S.SellerStatus) { status.Delivered? || status.Settled? }

  /** How many of the first n commands book this seller order's delivery. */
  function Bookings(commands: seq<Command>, n: nat, i: nat): nat
    requires n <= |commands|
  {
    if n == 0 then 0 else Bookings(commands, n - 1, i) + if commands[n - 1] == BookEscrow(i) then 1 else 0
  }

  /** Each seller order's delivery is booked once if it was delivered and not at all if it was not. */
  ghost predicate BookedOnce(r: Rows) {
    forall i: nat :: i < |r.children| ==>
      Bookings(r.commands, |r.commands|, i) == if WasDelivered(r.children[i].status) then 1 else 0
  }

  lemma {:induction false} BookingsOfPrefix(a: seq<Command>, b: seq<Command>, n: nat, i: nat)
    requires n <= |a| && n <= |b| && forall k :: 0 <= k < n ==> a[k] == b[k]
    ensures Bookings(a, n, i) == Bookings(b, n, i)
  {
    if n > 0 { BookingsOfPrefix(a, b, n - 1, i); }
  }

  lemma {:induction false} BookingsOneMore(commands: seq<Command>, c: Command, i: nat)
    ensures Bookings(commands + [c], |commands| + 1, i) ==
            Bookings(commands, |commands|, i) + if c == BookEscrow(i) then 1 else 0
  {
    BookingsOfPrefix(commands + [c], commands, |commands|, i);
  }

  lemma {:induction false} ActionBooks(r: Rows, j: nat, action: S.Action, reasoned: bool, i: nat)
    requires j < |r.children| && S.PlanTransition(action, r.children[j].status, reasoned).Ok?
    ensures var t := Transition(r, j, action, reasoned).rows;
            Bookings(t.commands, |t.commands|, i) ==
            Bookings(r.commands, |r.commands|, i) + if action.Deliver? && i == j then 1 else 0
  {
    var effect := S.PlanTransition(action, r.children[j].status, reasoned).effect;
    var booked := if action.Deliver? then r.commands + [BookEscrow(j)] else r.commands;
    BookingsOneMore(r.commands, BookEscrow(j), i);
    if EffectCommand(effect, j).Some? { BookingsOneMore(booked, EffectCommand(effect, j).value, i); }
  }

  lemma {:induction false} ActionKeepsBookedOnce(r: Rows, j: nat, action: S.Action, reasoned: bool)
    requires BookedOnce(r)
    ensures BookedOnce(Transition(r, j, action, reasoned).rows)
  {
    if j < |r.children| && S.PlanTransition(action, r.children[j].status, reasoned).Ok? {
      var t := Transition(r, j, action, reasoned).rows;
      forall i: nat | i < |t.children|
        ensures Bookings(t.commands, |t.commands|, i) == if WasDelivered(t.children[i].status) then 1 else 0
      {
        ActionBooks(r, j, action, reasoned, i);
      }
    }
  }

  /** Events and sweeps append at most one command, never a booking. */
  lemma {:induction false} OtherStepAppends(r: Rows, step: Step)
    requires !step.SellerAction?
    ensures var t := Take(r, step).commands;
            t == r.commands || (t != [] && t == r.commands + [t[|t| - 1]] && !t[|t| - 1].BookEscrow?)
  {
    if step.Event? {
      match Resolve(r.status, step.event, CashOnDelivery)
      case Apply(to, command) =>
      case _ =>
    }
  }

  /** And they leave delivered parcels delivered. */
  lemma {:induction false} OtherStepDeliversNothing(r: Rows, step: Step, i: nat)
    requires !step.SellerAction? && i < |r.children|
    ensures |Take(r, step).children| == |r.children|
    ensures WasDelivered(Take(r, step).children[i].status) == WasDelivered(r.children[i].status)
  {
  }

  lemma {:induction false} OtherStepKeepsBookedOnce(r: Rows, step: Step)
    requires BookedOnce(r) && !step.SellerAction?
    ensures BookedOnce(Take(r, step))
  {
    var t := Take(r, step);
    if r.children != [] { OtherStepDeliversNothing(r, step, 0); }
    OtherStepAppends(r, step);
    forall i: nat | i < |t.children|
      ensures Bookings(t.commands, |t.commands|, i) == if WasDelivered(t.children[i].status) then 1 else 0
    {
      OtherStepDeliversNothing(r, step, i);
      if t.commands != r.commands { BookingsOneMore(r.commands, t.commands[|r.commands|], i); }
    }
  }

  lemma {:induction false} NothingBookedYet(commands: seq<Command>, n: nat, i: nat)
    requires n <= |commands| && forall k :: 0 <= k < n ==> !commands[k].BookEscrow?
    ensures Bookings(commands, n, i) == 0
  {
    if n > 0 { NothingBookedYet(commands, n - 1, i); }
  }

  /** Over every run, however often a courier repeats itself. */
  lemma {:induction false} EscrowIsBookedOncePerDelivery(plans: seq<OrderLines.SellerPlan>, steps: seq<Step>)
    ensures BookedOnce(RunSteps(Start(plans), steps))
  {
    if steps == [] {
      forall i: nat | i < |plans| ensures Bookings(Start(plans).commands, 1, i) == 0 {
        NothingBookedYet(Start(plans).commands, 1, i);
      }
    } else {
      EscrowIsBookedOncePerDelivery(plans, steps[..|steps| - 1]);
      var r := RunSteps(Start(plans), steps[..|steps| - 1]);
      match steps[|steps| - 1]
      case SellerAction(i, action, reasoned) => ActionKeepsBookedOnce(r, i, action, reasoned);
      case _ => OtherStepKeepsBookedOnce(r, steps[|steps| - 1]);
    }
  }

  /* ---------- the buyer-facing status over every run ---------- */

  function Statuses(r: Rows): (s: seq<S.SellerStatus>)
    ensures |s| == |r.children|
    ensures forall i :: 0 <= i < |s| ==> s[i] == r.children[i].status
  {
    seq(|r.children|, i requires 0 <= i < |r.children| => r.children[i].status)
  }

  predicate ChildrenAdvance(a: Rows, b: Rows) {
    && |a.children| == |b.children|
    && forall i :: 0 <= i < |a.children| ==> S.Advances(a.children[i].status, b.children[i].status)
  }

  lemma {:induction false} StepAdvancesChildren(r: Rows, step: Step)
    ensures ChildrenAdvance(r, Take(r, step))
  {
  }

  lemma {:induction false} RunAdvancesChildren(r: Rows, steps: seq<Step>)
    ensures ChildrenAdvance(r, RunSteps(r, steps))
  {
    if steps != [] {
      var mid := RunSteps(r, steps[..|steps| - 1]);
      RunAdvancesChildren(r, steps[..|steps| - 1]);
      StepAdvancesChildren(mid, steps[|steps| - 1]);
      forall i | 0 <= i < |r.children|
        ensures S.Advances(r.children[i].status, RunSteps(r, steps).children[i].status)
      {
        S.AdvancesIsTransitive(r.children[i].status, mid.children[i].status, RunSteps(r, steps).children[i].status);
      }
    }
  }

  /** From any rows, along any run, the derived status never falls back, and once the order is complete it stays put. */
  lemma {:induction false} BuyerStatusNeverRegresses(r: Rows, steps: seq<Step>)
    requires r.children != []
    ensures var before, after := Statuses(r), Statuses(RunSteps(r, steps));
            && after != []
            && S.Rank(S.DeriveStatus(before).value) <= S.Rank(S.DeriveStatus(after).value)
            && (S.IsComplete(before) ==> S.DeriveStatus(after) == S.DeriveStatus(before))
  {
    RunAdvancesChildren(r, steps);
    S.DerivedStatusNeverRegresses(Statuses(r), Statuses(RunSteps(r, steps)));
  }
}
