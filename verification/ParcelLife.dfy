/** The life of one seller order: which requests it takes, what it has been through, and what the buyer is told. */
module ParcelLife {
  import opened Basics
  import opened OrderSaga
  import opened SellerOrders
  import Transitions
  import OrderLines

  /* ---------- one request ---------- */

  /** What can be asked of a seller order in this state. */
  function Options(status: SellerStatus): set<Action> {
    match status
    case Pending => {Cancel}
    case Reserved => {Confirm, Cancel}
    case Confirmed => {Dispatch, Cancel}
    case Dispatched => {Deliver, MarkRto}
    case RtoInTransit => {CompleteReturn}
    case Delivered => {Settle}
    case _ => {}
  }

  /** Stopping a sale or turning a parcel round needs saying why. */
  predicate NeedsReason(action: Action) { action.Cancel? || action.MarkRto? }

  /** A request is taken exactly when it is one of the options and says why if it must; it is invalid when nobody knows
      it or it fails to, and otherwise comes at the wrong time. What is not taken changes nothing. */
  lemma {:induction false} RequestIsAnswered(r: Rows, i: nat, action: Action, reasoned: bool)
    requires i < |r.children|
    ensures var a, optional := OrderSaga.Transition(r, i, action, reasoned), action in Options(r.children[i].status);
            && (a.status == OK <==> optional && (NeedsReason(action) ==> reasoned))
            && (a.status == UNPROCESSABLE <==> action.Other? || (optional && NeedsReason(action) && !reasoned))
            && (a.status == CONFLICT <==> !action.Other? && !optional)
            && (a.status != OK ==> a.rows == r)
  {
  }

  lemma {:induction false} NobodyThere(r: Rows, i: nat, action: Action, reasoned: bool)
    ensures OrderSaga.Transition(r, i, action, reasoned).status == NOT_FOUND <==> i >= |r.children|
    ensures i >= |r.children| ==> OrderSaga.Transition(r, i, action, reasoned).rows == r
  {
    if i < |r.children| { RequestIsAnswered(r, i, action, reasoned); }
  }

  /* ---------- every run ---------- */

  /** The requests that seller order i took among the steps, in order. */
  function Taken(r: Rows, steps: seq<Step>, i: nat): seq<Action> {
    if steps == [] then []
    else
      var front, last := steps[..|steps| - 1], steps[|steps| - 1];
      var before := Taken(r, front, i);
      if last.SellerAction? && last.child == i
         && OrderSaga.Transition(RunSteps(r, front), i, last.action, last.reasoned).status == OK
      then before + [last.action] else before
  }

  /** What a seller order must have been through to be where it is. A parent that ends cancels without being asked. */
  predicate CameBy(status: SellerStatus, taken: seq<Action>) {
    match status
    case Pending => taken == []
    case Reserved => taken == []
    case Confirmed => taken == [Confirm]
    case Dispatched => taken == [Confirm, Dispatch]
    case Delivered => taken == [Confirm, Dispatch, Deliver]
    case Settled => taken == [Confirm, Dispatch, Deliver, Settle]
    case RtoInTransit => taken == [Confirm, Dispatch, MarkRto]
    case Returned => taken == [Confirm, Dispatch, MarkRto, CompleteReturn]
    case Cancelled => taken in {[], [Cancel], [Confirm, Cancel]}
  }

  lemma {:induction false} RequestLeads(status: SellerStatus, action: Action, reasoned: bool, taken: seq<Action>)
    requires CameBy(status, taken) && PlanTransition(action, status, reasoned).Ok?
    ensures CameBy(PlanTransition(action, status, reasoned).to, taken + [action])
  {
    assert taken == [] ==> taken + [Cancel] == [Cancel] && taken + [Confirm] == [Confirm];
    assert taken == [Confirm] ==> taken + [Cancel] == [Confirm, Cancel];
  }

  lemma {:induction false} EventLeads(r: Rows, event: Transitions.Event, key: EventKey, i: nat, taken: seq<Action>)
    requires Safe(r) && i < |r.children| && CameBy(r.children[i].status, taken)
    ensures var after := Advance(r, event, key).rows.children;
            i < |after| && CameBy(after[i].status, taken)
  {
    CodDecision(r.status, event);
  }

  /** Over every run of events, requests and sweeps, each seller order has taken exactly the requests that lead to
      where it is, one after the other. */
  lemma {:induction false} EveryParcelCameByItsSteps(plans: seq<OrderLines.SellerPlan>, steps: seq<Step>, i: nat)
    requires i < |plans|
    ensures var r := RunSteps(Start(plans), steps);
            i < |r.children| && CameBy(r.children[i].status, Taken(Start(plans), steps, i))
  {
    if steps != [] {
      var front, last := steps[..|steps| - 1], steps[|steps| - 1];
      EveryParcelCameByItsSteps(plans, front, i);
      EveryRunIsSafe(plans, front);
      var r, taken := RunSteps(Start(plans), front), Taken(Start(plans), front, i);
      match last
      case Event(event, key) => EventLeads(r, event, key, i, taken);
      case SellerAction(j, action, reasoned) =>
        if j == i && PlanTransition(action, r.children[i].status, reasoned).Ok? {
          RequestLeads(r.children[i].status, action, reasoned, taken);
        }
      case Sweep(_) =>
    }
  }

  /* ---------- what the buyer is told ---------- */

  /** The way of a parcel, in the order a buyer would tell it. */
  const Path := [Pending, Reserved, Confirmed, Dispatched, RtoInTransit, Delivered, Settled]

  /** While any seller order is on the way, or at its good end, the buyer is told the first stage that one is at. */
  lemma {:induction false} FirstStageIsTold(statuses: seq<SellerStatus>, k: nat)
    requires k < |Path|
    ensures DeriveStatus(statuses) == Some(Path[k]) <==>
              Path[k] in statuses && forall j :: 0 <= j < k ==> Path[j] !in statuses
  {
    SlowestIsLeast(statuses);
    assert forall j :: 0 <= j < |Path| ==> Active(Path[j]) && Progress(Path[j]) == j;
    forall s | s in statuses && Active(s) ensures Path[Progress(s)] == s {}
  }

  /** An order whose sellers all stopped reads cancelled only if every one of them cancelled, and returned otherwise. */
  lemma {:induction false} BadEndingIsTold(statuses: seq<SellerStatus>)
    requires statuses != [] && forall s :: s in statuses ==> s == Cancelled || s == Returned
    ensures DeriveStatus(statuses) == Some(if Returned in statuses then Returned else Cancelled)
  {
    SlowestIsLeast(statuses);
    assert statuses[0] in statuses;
  }
}
