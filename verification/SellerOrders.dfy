/** One seller's part of a split order: the cash-on-delivery lifecycle (cod_rules) and the
    buyer-facing status derived from all of them (split_rules). */
module SellerOrders {
  import opened Basics

  datatype SellerStatus =
    | Pending | Reserved | Confirmed | Dispatched | RtoInTransit | Delivered | Settled | Returned | Cancelled

  datatype Action = Confirm | Dispatch | Deliver | Settle | MarkRto | CompleteReturn | Cancel | Other(name: string)

  datatype StockEffect = NoEffect | ReleaseStock | ConsumeStock

  datatype Transition = Transition(to: SellerStatus, effect: StockEffect, needsReason: bool)

  function Table(action: Action, status: SellerStatus): Option<Transition> {
    match (action, status)
    case (Confirm, Reserved) => Some(Transition(Confirmed, NoEffect, false))
    case (Dispatch, Confirmed) => Some(Transition(Dispatched, NoEffect, false))
    case (Deliver, Dispatched) => Some(Transition(Delivered, ConsumeStock, false))
    case (Settle, Delivered) => Some(Transition(Settled, NoEffect, false))
    case (MarkRto, Dispatched) => Some(Transition(RtoInTransit, NoEffect, true))
    case (CompleteReturn, RtoInTransit) => Some(Transition(Returned, ReleaseStock, false))
    case (Cancel, Pending) => Some(Transition(Cancelled, ReleaseStock, true))
    case (Cancel, Reserved) => Some(Transition(Cancelled, ReleaseStock, true))
    case (Cancel, Confirmed) => Some(Transition(Cancelled, ReleaseStock, true))
    case _ => None
  }

  datatype Decision = Ok(to: SellerStatus, effect: StockEffect) | Invalid | NotAllowed

  /** `reasoned`: the request carries a reason that is not blank. */
  function PlanTransition(action: Action, status: SellerStatus, reasoned: bool): Decision {
    if action.Other? then Invalid
    else
      match Table(action, status)
      case None => NotAllowed
      case Some(t) => if t.needsReason && !reasoned then Invalid else Ok(t.to, t.effect)
  }

  /** The child states a parent-driven cancellation may still touch, read off the cancel action. */
  predicate Cancellable(status: SellerStatus) { Table(Cancel, status).Some? }

  /* ---------- the derived status ---------- */

  predicate EndedUnfavourably(s: SellerStatus) { s.Cancelled? || s.Returned? }
  predicate IsTerminal(s: SellerStatus) { s.Settled? || EndedUnfavourably(s) }

  function Progress(s: SellerStatus): nat
    requires !EndedUnfavourably(s)
  {
    match s
    case Pending => 0
    case Reserved => 1
    case Confirmed => 2
    case Dispatched => 3
    case RtoInTransit => 4
    case Delivered => 5
    case Settled => 6
  }

  predicate Active(s: SellerStatus) { !EndedUnfavourably(s) }

  /** The least advanced active status, None when every child ended unfavourably. */
  function Slowest(statuses: seq<SellerStatus>): (r: Option<SellerStatus>)
    ensures r.Some? ==> Active(r.value)
  {
    if statuses == [] then None
    else
      var before, s := Slowest(statuses[..|statuses| - 1]), statuses[|statuses| - 1];
      if !Active(s) then before
      else if before.Some? && Progress(before.value) <= Progress(s) then before
      else Some(s)
  }

  function DeriveStatus(statuses: seq<SellerStatus>): Option<SellerStatus> {
    if statuses == [] then None
    else if Slowest(statuses).Some? then Slowest(statuses)
    else if forall i :: 0 <= i < |statuses| ==> statuses[i].Cancelled? then Some(Cancelled)
    else Some(Returned)
  }

  predicate IsComplete(statuses: seq<SellerStatus>) {
    statuses != [] && forall i :: 0 <= i < |statuses| ==> IsTerminal(statuses[i])
  }

  /** The slowest is one of the active children and none is behind it. */
  lemma {:induction false} SlowestIsLeast(statuses: seq<SellerStatus>)
    ensures Slowest(statuses).None? <==> forall i :: 0 <= i < |statuses| ==> !Active(statuses[i])
    ensures Slowest(statuses).Some? ==>
              && Slowest(statuses).value in statuses
              && forall i :: 0 <= i < |statuses| && Active(statuses[i]) ==>
                   Progress(Slowest(statuses).value) <= Progress(statuses[i])
  {
    if statuses != [] {
      var n := |statuses| - 1;
      SlowestIsLeast(statuses[..n]);
      assert forall i :: 0 <= i < n ==> statuses[..n][i] == statuses[i];
    }
  }

  lemma {:induction false} ProgressIsInjective(a: SellerStatus, b: SellerStatus)
    requires Active(a) && Active(b) && Progress(a) == Progress(b)
    ensures a == b
  {
  }

  /** Listing the children in another order derives the same status. */
  lemma {:induction false} DerivedStatusIsOrderFree(a: seq<SellerStatus>, b: seq<SellerStatus>)
    requires multiset(a) == multiset(b)
    ensures DeriveStatus(a) == DeriveStatus(b)
    ensures IsComplete(a) == IsComplete(b)
  {
    SlowestIsLeast(a);
    SlowestIsLeast(b);
    forall s ensures s in a <==> s in b {
      assert s in a <==> s in multiset(a);
      assert s in b <==> s in multiset(b);
    }
    assert forall i :: 0 <= i < |a| ==> a[i] in b;
    assert forall i :: 0 <= i < |b| ==> b[i] in a;
    if Slowest(a).Some? && Slowest(b).Some? {
      ProgressIsInjective(Slowest(a).value, Slowest(b).value);
    }
  }

  /** The buyer sees an ending exactly when the order is complete, which is exactly when no child has an action left. */
  lemma {:induction false} EndingMeansComplete(statuses: seq<SellerStatus>)
    requires statuses != []
    ensures IsTerminal(DeriveStatus(statuses).value) <==> IsComplete(statuses)
    ensures IsComplete(statuses) <==>
              forall i, action, reasoned :: 0 <= i < |statuses| ==> !PlanTransition(action, statuses[i], reasoned).Ok?
  {
    SlowestIsLeast(statuses);
    forall i | 0 <= i < |statuses|
      ensures IsTerminal(statuses[i]) <==>
                forall action, reasoned :: !PlanTransition(action, statuses[i], reasoned).Ok?
    {
      SomeActionUnlessTerminal(statuses[i]);
    }
  }

  lemma {:induction false} SomeActionUnlessTerminal(s: SellerStatus)
    ensures IsTerminal(s) <==> forall action, reasoned :: !PlanTransition(action, s, reasoned).Ok?
  {
    if !IsTerminal(s) {
      var action := match s
        case Pending => Cancel
        case Reserved => Confirm
        case Confirmed => Dispatch
        case Dispatched => Deliver
        case RtoInTransit => CompleteReturn
        case _ => Settle;
      assert PlanTransition(action, s, true).Ok?;
    }
  }

  /* ---------- no regress ---------- */

  /** A status only ever moves to a later one on the forward path, or ends off it. */
  predicate Advances(a: SellerStatus, b: SellerStatus) {
    a == b || (!IsTerminal(a) && (EndedUnfavourably(b) || Progress(a) < Progress(b)))
  }

  lemma {:induction false} AdvancesIsTransitive(a: SellerStatus, b: SellerStatus, c: SellerStatus)
    requires Advances(a, b) && Advances(b, c)
    ensures Advances(a, c)
  {
  }

  function Rank(s: SellerStatus): nat { if EndedUnfavourably(s) then 7 else Progress(s) }

  lemma {:induction false} DerivedStatusNeverRegresses(a: seq<SellerStatus>, b: seq<SellerStatus>)
    requires a != [] && |a| == |b| && forall i :: 0 <= i < |a| ==> Advances(a[i], b[i])
    ensures Rank(DeriveStatus(a).value) <= Rank(DeriveStatus(b).value)
    ensures IsComplete(a) ==> DeriveStatus(b) == DeriveStatus(a)
  {
    SlowestIsLeast(a);
    SlowestIsLeast(b);
    if Slowest(b).Some? {
      var i :| 0 <= i < |b| && b[i] == Slowest(b).value;
      assert Advances(a[i], b[i]);
    }
    if IsComplete(a) {
      assert forall i :: 0 <= i < |a| ==> a[i] == b[i];
      assert a == b;
    }
  }
}
