/** saga-dispatcher's handling of ReserveInventoryCommand: one reserve call per planned line,
    and a release of the whole order as soon as one line is refused. */
module Reservation {
  import opened Basics
  import opened OrderLines
  import opened Inventory
  import opened StockLedger

  /** AllHeld reports InventoryReserved, RolledBack reports InventoryReservationFailed, Raised is retried. */
  datatype Outcome = AllHeld | RolledBack(status: int) | Raised(status: int)
  datatype Attempt = Attempt(stock: Stock, outcome: Outcome)

  function ReserveLine(s: Stock, order: Id, line: ItemReservation): Reply {
    ReserveCall(s, line.product, line.quantity, order, LineKey(order, line.product))
  }

  function ReserveFrom(s: Stock, order: Id, lines: seq<ItemReservation>, i: nat): Attempt
    requires i <= |lines|
    decreases |lines| - i
  {
    if i == |lines| then Attempt(s, AllHeld)
    else
      var r := ReserveLine(s, order, lines[i]);
      if r.status == OK then ReserveFrom(r.stock, order, lines, i + 1)
      else if r.status >= SERVER_ERROR then Attempt(r.stock, Raised(r.status))
      else
        var back := SettleCall(r.stock, Release, order, {});
        Attempt(back.stock, if back.status == OK then RolledBack(r.status) else Raised(back.status))
  }

  method ReserveAll(inv: InventoryService, order: Id, lines: seq<ItemReservation>) returns (outcome: Outcome)
    modifies inv
    ensures Attempt(inv.Db(), outcome) == ReserveFrom(old(inv.Db()), order, lines, 0)
  {
    var i := 0;
    while i < |lines|
      invariant 0 <= i <= |lines|
      invariant ReserveFrom(inv.Db(), order, lines, i) == ReserveFrom(old(inv.Db()), order, lines, 0)
    {
      var status := inv.ReserveInventory(lines[i].product, lines[i].quantity, order, LineKey(order, lines[i].product));
      if status != OK {
        // the client raises on a server error before the caller sees an answer
        if status >= SERVER_ERROR { return Raised(status); }
        var released, _, _ := inv.SettleInventory(Release, order, {});
        return if released == OK then RolledBack(status) else Raised(released);
      }
      i := i + 1;
    }
    return AllHeld;
  }

  /* ---------- what a granted prefix looks like ---------- */

  predicate HoldsNothing(holds: seq<Hold>, order: Id) {
    forall i :: 0 <= i < |holds| && holds[i].order == order ==> !holds[i].status.Held?
  }

  predicate FreshKeys(s: Stock, order: Id, lines: seq<ItemReservation>, from: nat) {
    forall k :: from <= k < |lines| ==> LineKey(order, lines[k].product) !in s.keys
  }

  predicate WellFormed(lines: seq<ItemReservation>) {
    && (forall k :: 0 <= k < |lines| ==> lines[k].quantity > 0)
    && (forall j, k :: 0 <= j < k < |lines| ==> lines[j].product != lines[k].product)
  }

  /** Units of product p planned by the first n lines. */
  function Want(lines: seq<ItemReservation>, n: nat, p: Id): int
    requires n <= |lines|
  {
    if n == 0 then 0 else Want(lines, n - 1, p) + if lines[n - 1].product == p then lines[n - 1].quantity else 0
  }

  function HeldLines(order: Id, lines: seq<ItemReservation>, n: nat): (r: seq<Hold>)
    requires n <= |lines|
    ensures |r| == n
    ensures forall k :: 0 <= k < n ==> r[k] == Hold(order, lines[k].product, lines[k].quantity, Held)
  {
    seq(n, k requires 0 <= k < n => Hold(order, lines[k].product, lines[k].quantity, Held))
  }

  ghost predicate LevelsTaken(s: Stock, t: Stock, lines: seq<ItemReservation>, n: nat)
    requires n <= |lines|
  {
    && t.levels.Keys == s.levels.Keys
    && forall p :: p in t.levels ==>
         t.levels[p] == Level(s.levels[p].available - Want(lines, n, p), s.levels[p].reserved + Want(lines, n, p))
  }

  /** t is s with exactly the first n lines reserved for the order. */
  ghost predicate Granted(s: Stock, t: Stock, order: Id, lines: seq<ItemReservation>, n: nat)
    requires n <= |lines|
  {
    t.holds == s.holds + HeldLines(order, lines, n) && LevelsTaken(s, t, lines, n) && FreshKeys(t, order, lines, n)
  }

  lemma {:induction false} NoLiveLine(s: Stock, t: Stock, order: Id, lines: seq<ItemReservation>, i: nat)
    requires i < |lines| && WellFormed(lines) && HoldsNothing(s.holds, order) && Granted(s, t, order, lines, i)
    ensures !HasLive(t.holds, order, lines[i].product)
  {
    assert forall k :: 0 <= k < |s.holds| ==> t.holds[k] == s.holds[k];
    assert forall k :: |s.holds| <= k < |t.holds| ==> t.holds[k].product == lines[k - |s.holds|].product;
  }

  lemma {:induction false} HeldLinesGrow(order: Id, lines: seq<ItemReservation>, i: nat)
    requires i < |lines|
    ensures HeldLines(order, lines, i + 1) ==
            HeldLines(order, lines, i) + [Hold(order, lines[i].product, lines[i].quantity, Held)]
  {
  }

  lemma {:induction false} LevelsTakeNext(s: Stock, t: Stock, u: Stock, lines: seq<ItemReservation>, i: nat)
    requires i < |lines| && LevelsTaken(s, t, lines, i) && lines[i].product in t.levels
    requires var l, q := t.levels[lines[i].product], lines[i].quantity;
             u.levels == t.levels[lines[i].product := Level(l.available - q, l.reserved + q)]
    ensures LevelsTaken(s, u, lines, i + 1)
  {
  }

  lemma {:induction false} GrantNext(s: Stock, t: Stock, order: Id, lines: seq<ItemReservation>, i: nat)
    requires i < |lines| && order != "" && WellFormed(lines) && HoldsNothing(s.holds, order)
    requires Granted(s, t, order, lines, i)
    ensures var r := ReserveLine(t, order, lines[i]);
            && r.status < SERVER_ERROR
            && (r.status == OK ==> Granted(s, r.stock, order, lines, i + 1))
            && (r.status != OK ==> r.stock.holds == t.holds && r.stock.levels == t.levels)
  {
    NoLiveLine(s, t, order, lines, i);
    assert LineKey(order, lines[i].product) !in t.keys;
    var r := ReserveLine(t, order, lines[i]);
    if r.status == OK {
      HeldLinesGrow(order, lines, i);
      LevelsTakeNext(s, t, r.stock, lines, i);
      KeysTakeNext(t, r.stock, order, lines, i);
      assert r.stock.holds == t.holds + [Hold(order, lines[i].product, lines[i].quantity, Held)];
    }
  }

  lemma {:induction false} KeysTakeNext(t: Stock, u: Stock, order: Id, lines: seq<ItemReservation>, i: nat)
    requires i < |lines| && WellFormed(lines) && FreshKeys(t, order, lines, i)
    requires u.keys == t.keys[LineKey(order, lines[i].product) := lines[i].product]
    ensures FreshKeys(u, order, lines, i + 1)
  {
  }

  /* ---------- rolling back ---------- */

  lemma {:induction false} SelectedAmongOld(s: Stock, t: Stock, order: Id, p: Id, n: nat)
    requires n <= |s.holds| <= |t.holds| && t.holds[..|s.holds|] == s.holds && HoldsNothing(s.holds, order)
    ensures Selected(t.holds, n, order, {}, p) == 0
  {
    if n > 0 {
      SelectedAmongOld(s, t, order, p, n - 1);
      assert t.holds[n - 1] == t.holds[..|s.holds|][n - 1];
    }
  }

  lemma {:induction false} SelectedAmongNew(s: Stock, t: Stock, order: Id, lines: seq<ItemReservation>, i: nat, p: Id,
                                            n: nat)
    requires n <= i <= |lines| && t.holds == s.holds + HeldLines(order, lines, i) && HoldsNothing(s.holds, order)
    ensures Selected(t.holds, |s.holds| + n, order, {}, p) == Want(lines, n, p)
  {
    if n == 0 {
      SelectedAmongOld(s, t, order, p, |s.holds|);
    } else {
      SelectedAmongNew(s, t, order, lines, i, p, n - 1);
      assert t.holds[|s.holds| + n - 1] == HeldLines(order, lines, i)[n - 1];
    }
  }

  lemma {:induction false} ReleaseHoldsNothing(s: Stock, order: Id)
    requires SettleCall(s, Release, order, {}).status == OK
    ensures HoldsNothing(SettleCall(s, Release, order, {}).stock.holds, order)
  {
  }

  lemma {:induction false} ReleaseGivesBack(s: Stock, t: Stock, after: map<Id, Level>, order: Id,
                                            lines: seq<ItemReservation>, i: nat)
    requires i <= |lines| && HoldsNothing(s.holds, order)
    requires t.holds == s.holds + HeldLines(order, lines, i) && LevelsTaken(s, t, lines, i)
    requires ShiftedTo(t, after, Release, order, {}, |t.holds|)
    ensures after == s.levels
  {
    forall p | p in s.levels ensures after[p] == s.levels[p] {
      SelectedAmongNew(s, t, order, lines, i, p, i);
    }
  }

  lemma {:induction false} RollBackRestores(s: Stock, t: Stock, loose: map<Id, int>, initial: map<Id, int>,
                         order: Id, lines: seq<ItemReservation>, i: nat)
    requires i <= |lines| && HoldsNothing(s.holds, order) && Agrees(t, loose, initial)
    requires t.holds == s.holds + HeldLines(order, lines, i) && LevelsTaken(s, t, lines, i)
    ensures var r := SettleCall(t, Release, order, {});
            r.status == OK && HoldsNothing(r.stock.holds, order) && r.stock.levels == s.levels
  {
    SettleIsExact(t, loose, initial, Release, order, {});
    ReleaseHoldsNothing(t, order);
    ReleaseGivesBack(s, t, SettleCall(t, Release, order, {}).stock.levels, order, lines, i);
  }

  /* ---------- all or nothing ---------- */

  /** Either every line is held, or nothing is and every level is as it was. */
  ghost predicate AllOrNothing(s: Stock, a: Attempt, order: Id, lines: seq<ItemReservation>) {
    match a.outcome
    case AllHeld => Granted(s, a.stock, order, lines, |lines|)
    case RolledBack(_) => HoldsNothing(a.stock.holds, order) && a.stock.levels == s.levels
    case Raised(_) => false
  }

  lemma {:induction false} RefusedLine(s: Stock, t: Stock, loose: map<Id, int>, initial: map<Id, int>,
                    order: Id, lines: seq<ItemReservation>, i: nat)
    requires i < |lines| && HoldsNothing(s.holds, order) && Granted(s, t, order, lines, i)
    requires var r := ReserveLine(t, order, lines[i]);
             && r.status != OK && r.status < SERVER_ERROR && Agrees(r.stock, loose, initial)
             && r.stock.holds == t.holds && r.stock.levels == t.levels
    ensures AllOrNothing(s, ReserveFrom(t, order, lines, i), order, lines)
  {
    RollBackRestores(s, ReserveLine(t, order, lines[i]).stock, loose, initial, order, lines, i);
  }

  lemma {:induction false} AllOrNothingFrom(s: Stock, t: Stock, loose: map<Id, int>, initial: map<Id, int>,
                                            order: Id, lines: seq<ItemReservation>, i: nat)
    requires i <= |lines| && order != "" && WellFormed(lines) && HoldsNothing(s.holds, order)
    requires Granted(s, t, order, lines, i) && Agrees(t, loose, initial)
    ensures AllOrNothing(s, ReserveFrom(t, order, lines, i), order, lines)
    decreases |lines| - i
  {
    if i < |lines| {
      GrantNext(s, t, order, lines, i);
      var line := lines[i];
      var r := ReserveLine(t, order, line);
      ReserveKeepsAgreement(t, loose, initial, line.product, line.quantity, order, LineKey(order, line.product));
      if r.status == OK {
        AllOrNothingFrom(s, r.stock, loose, initial, order, lines, i + 1);
      } else {
        RefusedLine(s, t, loose, initial, order, lines, i);
      }
    }
  }

  /** The shelf covers line k on its own. */
  predicate OnShelf(s: Stock, line: ItemReservation) {
    line.product in s.levels && line.quantity <= s.levels[line.product].available
  }

  lemma {:induction false} NotYetWanted(lines: seq<ItemReservation>, i: nat, k: nat)
    requires i <= k < |lines| && WellFormed(lines)
    ensures Want(lines, i, lines[k].product) == 0
  {
    if i > 0 { NotYetWanted(lines, i - 1, k); }
  }

  lemma {:induction false} LineIsGrantedIffOnShelf(s: Stock, t: Stock, order: Id, lines: seq<ItemReservation>, i: nat)
    requires i < |lines| && order != "" && WellFormed(lines) && HoldsNothing(s.holds, order)
    requires Granted(s, t, order, lines, i)
    ensures ReserveLine(t, order, lines[i]).status == OK <==> OnShelf(s, lines[i])
  {
    NoLiveLine(s, t, order, lines, i);
    NotYetWanted(lines, i, i);
    assert LineKey(order, lines[i].product) !in t.keys;
  }

  lemma {:induction false} AllHeldFrom(s: Stock, t: Stock, order: Id, lines: seq<ItemReservation>, i: nat)
    requires i <= |lines| && order != "" && WellFormed(lines) && HoldsNothing(s.holds, order)
    requires Granted(s, t, order, lines, i)
    ensures ReserveFrom(t, order, lines, i).outcome.AllHeld? <==> forall k :: i <= k < |lines| ==> OnShelf(s, lines[k])
    decreases |lines| - i
  {
    if i < |lines| {
      GrantNext(s, t, order, lines, i);
      LineIsGrantedIffOnShelf(s, t, order, lines, i);
      if OnShelf(s, lines[i]) { AllHeldFrom(s, ReserveLine(t, order, lines[i]).stock, order, lines, i + 1); }
    }
  }

  /** After any history, a fresh command for an order holding nothing either holds every planned product at
      exactly its planned quantity, or leaves the order holding nothing and every level as it was; it is held
      exactly when each planned product is on the shelf in its planned quantity. */
  lemma {:induction false} ReservationIsAllOrNothing(opening: Stock, calls: seq<Call>, order: Id, entries: seq<Entry>)
    requires Opening(opening) && order != "" && Plan(entries).Usable?
    requires HoldsNothing(Run(opening, calls).holds, order)
    requires FreshKeys(Run(opening, calls), order, Plan(entries).items, 0)
    ensures var s, lines := Run(opening, calls), Plan(entries).items;
            var a := ReserveFrom(s, order, lines, 0);
            && AllOrNothing(s, a, order, lines)
            && (a.outcome.AllHeld? <==> forall k :: 0 <= k < |lines| ==> OnShelf(s, lines[k]))
  {
    var s, lines := Run(opening, calls), Plan(entries).items;
    PlanIsWellFormed(entries);
    EveryHistoryAgrees(opening, calls);
    assert s.holds == s.holds + HeldLines(order, lines, 0);
    AllOrNothingFrom(s, s, RunLoose(opening, NoLoose(opening), calls), Stocked(opening), order, lines, 0);
    AllHeldFrom(s, s, order, lines, 0);
  }

  /** The first line from i on that is not on the shelf, and why: its product is short, or nobody stocks it. */
  predicate TellsWhy(s: Stock, lines: seq<ItemReservation>, i: nat, status: int) {
    exists k :: i <= k < |lines| && !OnShelf(s, lines[k]) && (forall j :: i <= j < k ==> OnShelf(s, lines[j]))
                && status == if lines[k].product in s.levels then CONFLICT else NOT_FOUND
  }

  lemma {:induction false} RefusalTellsWhyFrom(s: Stock, t: Stock, order: Id, lines: seq<ItemReservation>, i: nat)
    requires i <= |lines| && order != "" && WellFormed(lines) && HoldsNothing(s.holds, order)
    requires Granted(s, t, order, lines, i)
    ensures var outcome := ReserveFrom(t, order, lines, i).outcome;
            outcome.RolledBack? ==> TellsWhy(s, lines, i, outcome.status)
    decreases |lines| - i
  {
    if i < |lines| {
      GrantNext(s, t, order, lines, i);
      LineIsGrantedIffOnShelf(s, t, order, lines, i);
      if OnShelf(s, lines[i]) {
        RefusalTellsWhyFrom(s, ReserveLine(t, order, lines[i]).stock, order, lines, i + 1);
      } else {
        assert LineKey(order, lines[i].product) !in t.keys;
      }
    }
  }

  /** And when it is not, the reported status is that of the first line that was not on the shelf: 409 if its product is
      short, 404 if nobody stocks it. */
  lemma {:induction false} RefusalTellsWhy(opening: Stock, calls: seq<Call>, order: Id, entries: seq<Entry>)
    requires Opening(opening) && order != "" && Plan(entries).Usable?
    requires HoldsNothing(Run(opening, calls).holds, order)
    requires FreshKeys(Run(opening, calls), order, Plan(entries).items, 0)
    ensures var s, lines := Run(opening, calls), Plan(entries).items;
            var outcome := ReserveFrom(s, order, lines, 0).outcome;
            outcome.AllHeld? || (outcome.RolledBack? && TellsWhy(s, lines, 0, outcome.status))
  {
    var s, lines := Run(opening, calls), Plan(entries).items;
    PlanIsWellFormed(entries);
    assert s.holds == s.holds + HeldLines(order, lines, 0);
    RefusalTellsWhyFrom(s, s, order, lines, 0);
    ReservationIsAllOrNothing(opening, calls, order, entries);
  }
}
