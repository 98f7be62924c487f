/** What becomes of a cash-on-delivery saga: how each event is answered, and how a whole run ends it. */
module SagaFate {
  import opened Basics
  import opened Transitions
  import opened OrderSaga
  import S = SellerOrders
  import OrderLines

  /* ---------- one event ---------- */

  /** The events a saga in this state is waiting for. */
  predicate Awaited(status: SagaStatus, event: Event) {
    || (status.Pending? && (event.StockReserved? || event.ReservationFailed?))
    || (status.TimedOut? && (event.StockReserved? || event.StockReleased? || event.PaymentRefunded?))
  }

  /** Nothing more is expected of a saga in this state. */
  predicate Finished(status: SagaStatus) { status.OrderCompleted? || status.RollbackCompleted? }

  /** Under a new key an unknown event is refused for good, one that a finished saga does not mind or a waiting saga
      awaits is taken, and any other is put off. What is not taken changes nothing. */
  lemma {:induction false} EventIsAnswered(r: Rows, event: Event, key: EventKey)
    requires CodStatus(r.status) && key !in r.keys
    ensures var a := Advance(r, event, key);
            && (a.status == UNPROCESSABLE <==> event.Unknown?)
            && (a.status == OK <==> !event.Unknown? && (Finished(r.status) || Awaited(r.status, event)))
            && (a.status == CONFLICT <==> !event.Unknown? && !Finished(r.status) && !Awaited(r.status, event))
            && (a.status != OK ==> a.rows == r)
  {
  }

  /** Before and after: every seller order that could still be cancelled is, and no other changed. */
  predicate ClosesTheRest(before: seq<Child>, after: seq<Child>) {
    && |after| == |before|
    && forall i :: 0 <= i < |before| ==>
         after[i] == if before[i].status.Pending? || before[i].status.Reserved? || before[i].status.Confirmed?
                     then before[i].(status := S.Cancelled) else before[i]
  }

  /** A reservation that failed ends the order there and then: nothing was taken, so there is nothing to give back. */
  lemma {:induction false} FailedReservationEndsTheOrder(r: Rows, key: EventKey)
    requires r.status.Pending? && key !in r.keys
    ensures var a := Advance(r, ReservationFailed, key);
            && a.status == OK && a.rows.status == RollbackCompleted
            && ClosesTheRest(r.children, a.rows.children)
            && a.rows.commands == r.commands + [OrderFailed]
            && a.rows.keys == r.keys + {key}
  {
  }

  /** A reservation completes the order: the waiting sellers get to work and nothing is asked of anyone. */
  lemma {:induction false} ReservationCompletesTheOrder(r: Rows, key: EventKey)
    requires r.status.Pending? && key !in r.keys
    ensures var a := Advance(r, StockReserved, key);
            && a.status == OK && a.rows.status == OrderCompleted && a.rows.commands == r.commands
            && |a.rows.children| == |r.children|
            && (forall i :: 0 <= i < |r.children| ==>
                  a.rows.children[i] == if r.children[i].status.Pending?
                                        then r.children[i].(status := S.Reserved) else r.children[i])
            && a.rows.keys == r.keys + {key}
  {
  }

  /** Stock that arrives after the order ended is given back, once per report. */
  lemma {:induction false} LateStockIsReturned(r: Rows, key: EventKey)
    requires (r.status.TimedOut? || r.status.RollbackCompleted?) && key !in r.keys
    ensures Advance(r, StockReserved, key) ==
            Answer(r.(commands := r.commands + [ReleaseInventory], keys := r.keys + {key}), OK)
  {
  }

  /** A timed-out saga is closed by the word that its stock or its money went back. */
  lemma {:induction false} GivenBackClosesTheSaga(r: Rows, event: Event, key: EventKey)
    requires r.status.TimedOut? && key !in r.keys && (event.StockReleased? || event.PaymentRefunded?)
    ensures var a := Advance(r, event, key);
            && a.status == OK && a.rows.status == RollbackCompleted && a.rows.commands == r.commands
            && ClosesTheRest(r.children, a.rows.children) && a.rows.keys == r.keys + {key}
  {
  }

  /* ---------- a whole run ---------- */

  /** The steps that take a saga out of PENDING. */
  predicate Decides(step: Step) {
    match step
    case Event(event, _) => event.StockReserved? || event.ReservationFailed?
    case Sweep(stale) => stale
    case _ => false
  }

  predicate Closes(step: Step) { step.Event? && (step.event.StockReleased? || step.event.PaymentRefunded?) }

  /** Step k is the first that decides. */
  predicate FirstToDecide(steps: seq<Step>, k: nat) {
    k < |steps| && Decides(steps[k]) && forall i :: 0 <= i < k ==> !Decides(steps[i])
  }

  /** Among the first n steps, a report of stock that came after step k carried this key. */
  predicate LateUnder(steps: seq<Step>, k: nat, n: nat, key: EventKey)
    requires n <= |steps|
  {
    exists l :: k < l < n && steps[l].Event? && steps[l].event.StockReserved? && steps[l].key == key
  }

  /** Among the first n steps, the word that something went back came after step k, under a key of its own. */
  predicate GivenBack(steps: seq<Step>, k: nat, n: nat)
    requires n <= |steps|
  {
    exists m :: k < m < n && Closes(steps[m]) && !LateUnder(steps, k, m, steps[m].key)
  }

  /** Where the first n steps leave the saga, told from step k, the first that decides. */
  function Fate(steps: seq<Step>, k: nat, n: nat): SagaStatus
    requires k < n <= |steps|
  {
    match steps[k]
    case Event(event, _) => if event.StockReserved? then OrderCompleted else RollbackCompleted
    case _ => if GivenBack(steps, k, n) then RollbackCompleted else TimedOut
  }

  lemma {:induction false} UndecidedWaits(plans: seq<OrderLines.SellerPlan>, steps: seq<Step>, n: nat)
    requires n <= |steps| && forall i :: 0 <= i < n ==> !Decides(steps[i])
    ensures var r := RunSteps(Start(plans), steps[..n]); r.status.Pending? && r.keys == {}
  {
    if n > 0 {
      UndecidedWaits(plans, steps, n - 1);
      assert steps[..n][..n - 1] == steps[..n - 1];
      assert !Decides(steps[n - 1]);
    }
  }

  /** While it is timed out, a saga's keys are those of the late reports. */
  ghost predicate KeysTell(r: Rows, steps: seq<Step>, k: nat, n: nat)
    requires n <= |steps|
  {
    r.status.TimedOut? ==> forall key :: key in r.keys <==> LateUnder(steps, k, n, key)
  }

  lemma {:induction false} DecisiveStep(r: Rows, step: Step)
    requires r.status.Pending? && r.keys == {} && Decides(step)
    ensures var after := Take(r, step);
            match step
            case Event(event, _) => after.status == if event.StockReserved? then OrderCompleted else RollbackCompleted
            case _ => after.status.TimedOut? && after.keys == {}
  {
  }

  lemma {:induction false} LaterStep(r: Rows, steps: seq<Step>, k: nat, n: nat)
    requires k < n < |steps| && r.status == Fate(steps, k, n) && KeysTell(r, steps, k, n)
    ensures var after := Take(r, steps[n]);
            after.status == Fate(steps, k, n + 1) && KeysTell(after, steps, k, n + 1)
  {
    var step := steps[n];
    var after := Take(r, step);
    assert GivenBack(steps, k, n + 1) <==>
           GivenBack(steps, k, n) || (Closes(step) && !LateUnder(steps, k, n, step.key));
    if r.status.TimedOut? && step.Event? {
      assert after.status.TimedOut? <==> !(Closes(step) && step.key !in r.keys);
      forall key ensures LateUnder(steps, k, n + 1, key) <==>
                         LateUnder(steps, k, n, key) || (step.event.StockReserved? && step.key == key) {}
    } else {
      forall key ensures LateUnder(steps, k, n + 1, key) <==>
                         LateUnder(steps, k, n, key) || (step.Event? && step.event.StockReserved? && step.key == key) {}
    }
  }

  lemma {:induction false} FateUpTo(plans: seq<OrderLines.SellerPlan>, steps: seq<Step>, k: nat, n: nat)
    requires FirstToDecide(steps, k) && k < n <= |steps|
    ensures var r := RunSteps(Start(plans), steps[..n]); r.status == Fate(steps, k, n) && KeysTell(r, steps, k, n)
  {
    assert steps[..n][..n - 1] == steps[..n - 1];
    var before := RunSteps(Start(plans), steps[..n - 1]);
    if n == k + 1 {
      UndecidedWaits(plans, steps, k);
      DecisiveStep(before, steps[k]);
    } else {
      FateUpTo(plans, steps, k, n - 1);
      LaterStep(before, steps, k, n - 1);
    }
  }

  /** Over every run of events, seller actions and sweeps, in any order and under any keys: the saga waits until the
      first decisive step, which settles its fate. Reserved stock completes it, a failed reservation rolls it back, and
      a timeout stays one until word comes, under a key no late report has used, that something was given back. */
  lemma {:induction false} FirstDecisionIsFinal(plans: seq<OrderLines.SellerPlan>, steps: seq<Step>)
    ensures var status := RunSteps(Start(plans), steps).status;
            && (status.Pending? <==> forall i :: 0 <= i < |steps| ==> !Decides(steps[i]))
            && (forall k :: FirstToDecide(steps, k) ==> status == Fate(steps, k, |steps|))
  {
    assert steps[..|steps|] == steps;
    if forall i :: 0 <= i < |steps| ==> !Decides(steps[i]) {
      UndecidedWaits(plans, steps, |steps|);
    } else {
      var k := FindDecision(steps, |steps|);
      FateUpTo(plans, steps, k, |steps|);
    }
  }

  lemma {:induction false} FindDecision(steps: seq<Step>, n: nat) returns (k: nat)
    requires n <= |steps| && exists i :: 0 <= i < n && Decides(steps[i])
    ensures k < n && FirstToDecide(steps, k)
  {
    if i :| 0 <= i < n - 1 && Decides(steps[i]) { k := FindDecision(steps, n - 1); } else { k := n - 1; }
  }

  /* ---------- what is announced ---------- */

  function Times(commands: seq<Command>, c: Command): nat { multiset(commands)[c] }

  /** Among the first n steps, the first decisive one reported a failed reservation. */
  predicate FailedFirst(steps: seq<Step>, n: nat) {
    exists k: nat :: k < n && FirstToDecide(steps, k) && steps[k].Event? && steps[k].event.ReservationFailed?
  }

  /** Among the first n steps, the first decisive one was the reaper's. */
  predicate ReapedFirst(steps: seq<Step>, n: nat) {
    exists k: nat :: k < n && FirstToDecide(steps, k) && steps[k].Sweep?
  }

  lemma {:induction false} OneMoreCommand(commands: seq<Command>, d: Command, c: Command)
    ensures Times(commands + [d], c) == Times(commands, c) + if c == d then 1 else 0
  {
  }

  /** The commands whose number tells how the saga left PENDING. */
  predicate Tells(c: Command) { c.OrderFailed? || c.SagaTimedOut? || c.ReserveInventory? }

  /** Whether this step, taken in this state, announces c. */
  predicate Announces(r: Rows, step: Step, c: Command) {
    || (c.OrderFailed? && step.Event? && step.event.ReservationFailed? && r.status.Pending? && step.key !in r.keys)
    || (c.SagaTimedOut? && step.Sweep? && step.stale && r.status.Pending?)
  }

  /** An event appends at most one command: a failure's announcement, or the return of late stock. */
  lemma {:induction false} EventAppends(r: Rows, event: Event, key: EventKey)
    requires CodStatus(r.status)
    ensures var commands := Advance(r, event, key).rows.commands;
            if key !in r.keys && r.status.Pending? && event.ReservationFailed? then
              commands == r.commands + [OrderFailed]
            else if key !in r.keys && Ended(r.status) && event.StockReserved? then
              commands == r.commands + [ReleaseInventory]
            else commands == r.commands
  {
  }

  lemma {:induction false} EventAnnounces(r: Rows, event: Event, key: EventKey, c: Command)
    requires CodStatus(r.status) && Tells(c)
    ensures var n := Times(r.commands, c);
            Times(Advance(r, event, key).rows.commands, c) ==
            if Announces(r, Step.Event(event, key), c) then n + 1 else n
  {
    EventAppends(r, event, key);
    var commands := Advance(r, event, key).rows.commands;
    if commands == r.commands + [OrderFailed] {
      OneMoreCommand(r.commands, OrderFailed, c);
    } else if commands == r.commands + [ReleaseInventory] {
      OneMoreCommand(r.commands, ReleaseInventory, c);
    }
  }

  lemma {:induction false} ActionAnnounces(r: Rows, i: nat, action: S.Action, reasoned: bool, c: Command)
    requires Tells(c)
    ensures Times(Transition(r, i, action, reasoned).rows.commands, c) == Times(r.commands, c)
  {
    var booked := r.commands + [BookEscrow(i)];
    OneMoreCommand(r.commands, BookEscrow(i), c);
    OneMoreCommand(r.commands, ReleaseSellerStock(i), c);
    OneMoreCommand(r.commands, ConsumeSellerStock(i), c);
    OneMoreCommand(booked, ReleaseSellerStock(i), c);
    OneMoreCommand(booked, ConsumeSellerStock(i), c);
  }

  lemma {:induction false} StepAnnounces(r: Rows, step: Step, c: Command)
    requires CodStatus(r.status) && Tells(c)
    ensures var n := Times(r.commands, c);
            Times(Take(r, step).commands, c) == if Announces(r, step, c) then n + 1 else n
  {
    match step
    case Event(event, key) => EventAnnounces(r, event, key, c);
    case SellerAction(i, action, reasoned) => ActionAnnounces(r, i, action, reasoned, c);
    case Sweep(_) => OneMoreCommand(r.commands, SagaTimedOut, c);
  }

  lemma {:induction false} AnnouncesWhenFirst(plans: seq<OrderLines.SellerPlan>, steps: seq<Step>, n: nat)
    requires n < |steps|
    ensures var r := RunSteps(Start(plans), steps[..n]);
            && (FailedFirst(steps, n + 1) <==> FailedFirst(steps, n) || Announces(r, steps[n], OrderFailed))
            && (ReapedFirst(steps, n + 1) <==> ReapedFirst(steps, n) || Announces(r, steps[n], SagaTimedOut))
            && !(FailedFirst(steps, n) && Announces(r, steps[n], OrderFailed))
            && !(ReapedFirst(steps, n) && Announces(r, steps[n], SagaTimedOut))
  {
    if forall i :: 0 <= i < n ==> !Decides(steps[i]) {
      UndecidedWaits(plans, steps, n);
      assert FirstToDecide(steps, n) <==> Decides(steps[n]);
    } else {
      var k := FindDecision(steps, n);
      FateUpTo(plans, steps, k, n);
      assert !FirstToDecide(steps, n);
    }
  }

  predicate AnnouncedOnce(commands: seq<Command>, failed: bool, timedOut: bool) {
    && Times(commands, OrderFailed) == (if failed then 1 else 0)
    && Times(commands, SagaTimedOut) == (if timedOut then 1 else 0)
    && Times(commands, ReserveInventory) == 1
  }

  lemma {:induction false} AnnouncedUpTo(plans: seq<OrderLines.SellerPlan>, steps: seq<Step>, n: nat)
    requires n <= |steps|
    ensures AnnouncedOnce(RunSteps(Start(plans), steps[..n]).commands, FailedFirst(steps, n), ReapedFirst(steps, n))
  {
    if n > 0 {
      AnnouncedUpTo(plans, steps, n - 1);
      assert steps[..n][..n - 1] == steps[..n - 1];
      var before := RunSteps(Start(plans), steps[..n - 1]);
      EveryRunIsSafe(plans, steps[..n - 1]);
      StepAnnounces(before, steps[n - 1], OrderFailed);
      StepAnnounces(before, steps[n - 1], SagaTimedOut);
      StepAnnounces(before, steps[n - 1], ReserveInventory);
      AnnouncesWhenFirst(plans, steps, n - 1);
    }
  }

  /** Over every run an order is announced as failed exactly when its reservation failed first, as timed out exactly
      when the reaper came first, once in either case, and it asks for its stock once. */
  lemma {:induction false} FateIsAnnouncedOnce(plans: seq<OrderLines.SellerPlan>, steps: seq<Step>)
    ensures AnnouncedOnce(RunSteps(Start(plans), steps).commands, FailedFirst(steps, |steps|),
                          ReapedFirst(steps, |steps|))
  {
    AnnouncedUpTo(plans, steps, |steps|);
    assert steps[..|steps|] == steps;
  }
}
