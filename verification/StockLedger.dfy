/** Two records of one fact: the reserved column of each product and the table of live holds.
    Every history of calls keeps them in agreement and conserves each product's units. */
module StockLedger {
  import opened Basics
  import opened Inventory
  import opened Ordering
  import opened Sequences

  /** Units of product p in the first n rows with the given status. */
  function Units(holds: seq<Hold>, n: nat, p: Id, status: HoldStatus): int
    requires n <= |holds|
  {
    if n == 0 then 0
    else
      var h := holds[n - 1];
      Units(holds, n - 1, p, status) + if h.product == p && h.status == status then h.quantity else 0
  }

  /** Units of product p in the first n rows that a release or consume would select. */
  function Selected(holds: seq<Hold>, n: nat, order: Id, scope: set<Id>, p: Id): int
    requires n <= |holds|
  {
    if n == 0 then 0
    else
      var h := holds[n - 1];
      Selected(holds, n - 1, order, scope, p) + if h.product == p && Matches(h, order, scope) then h.quantity else 0
  }

  function SelectedUnits(holds: seq<Hold>, n: nat, order: Id, scope: set<Id>): int
    requires n <= |holds|
  {
    if n == 0 then 0
    else
      var h := holds[n - 1];
      SelectedUnits(holds, n - 1, order, scope) + if Matches(h, order, scope) then h.quantity else 0
  }

  function SelectedRows(holds: seq<Hold>, n: nat, order: Id, scope: set<Id>): nat
    requires n <= |holds|
  {
    if n == 0 then 0
    else SelectedRows(holds, n - 1, order, scope) + if Matches(holds[n - 1], order, scope) then 1 else 0
  }

  ghost predicate SoundHolds(s: Stock) {
    && (forall i :: 0 <= i < |s.holds| ==>
          s.holds[i].quantity > 0 && s.holds[i].order != "" && s.holds[i].product in s.levels)
    && (forall i, j :: 0 <= i < j < |s.holds| && s.holds[i].status.Held? && s.holds[j].status.Held? ==>
          s.holds[i].order != s.holds[j].order || s.holds[i].product != s.holds[j].product)
  }

  /** `loose` counts the units reserved without an order, `initial` the stock each product began with. */
  ghost predicate LevelAgrees(s: Stock, loose: map<Id, int>, initial: map<Id, int>, p: Id)
    requires p in s.levels && p in loose && p in initial
  {
    && 0 <= s.levels[p].available
    && 0 <= loose[p]
    && s.levels[p].reserved == Units(s.holds, |s.holds|, p, Held) + loose[p]
    && s.levels[p].available + s.levels[p].reserved + Units(s.holds, |s.holds|, p, Consumed) == initial[p]
  }

  ghost predicate Agrees(s: Stock, loose: map<Id, int>, initial: map<Id, int>) {
    && SoundHolds(s)
    && loose.Keys == initial.Keys == s.levels.Keys
    && forall p :: p in s.levels ==> LevelAgrees(s, loose, initial, p)
  }

  /* ---------- histories ---------- */

  datatype Call =
    | ReserveRequest(product: Id, quantity: int, order: Id, key: Key)
    | SettleRequest(effect: Effect, order: Id, scope: set<Id>)

  function Serve(s: Stock, c: Call): Stock {
    match c
    case ReserveRequest(product, quantity, order, key) => ReserveCall(s, product, quantity, order, key).stock
    case SettleRequest(effect, order, scope) => SettleCall(s, effect, order, scope).stock
  }

  /** The order-less units: each reservation without an order that is granted under a fresh key adds its quantity. */
  function Loosen(s: Stock, loose: map<Id, int>, c: Call): map<Id, int> {
    match c
    case ReserveRequest(product, quantity, order, key) =>
      if order == "" && key !in s.keys && ReserveCall(s, product, quantity, order, key).status == OK && product in loose
      then loose[product := loose[product] + quantity]
      else loose
    case SettleRequest(_, _, _) => loose
  }

  function Run(s: Stock, calls: seq<Call>): Stock {
    if calls == [] then s else Serve(Run(s, calls[..|calls| - 1]), calls[|calls| - 1])
  }

  function RunLoose(s: Stock, loose: map<Id, int>, calls: seq<Call>): map<Id, int> {
    if calls == [] then loose
    else
      var front := calls[..|calls| - 1];
      Loosen(Run(s, front), RunLoose(s, loose, front), calls[|calls| - 1])
  }

  predicate Opening(s: Stock) {
    s.holds == [] && forall p :: p in s.levels ==> s.levels[p].available >= 0 && s.levels[p].reserved == 0
  }

  function NoLoose(s: Stock): map<Id, int> { map p | p in s.levels :: 0 }
  function Stocked(s: Stock): map<Id, int> { map p | p in s.levels :: s.levels[p].available }

  /* ---------- sums ---------- */

  lemma {:induction false} UnitsOfPrefix(a: seq<Hold>, b: seq<Hold>, n: nat, p: Id, status: HoldStatus)
    requires n <= |a| && n <= |b| && a[..n] == b[..n]
    ensures Units(a, n, p, status) == Units(b, n, p, status)
  {
    if n > 0 {
      assert a[..n][n - 1] == a[n - 1] && b[..n][n - 1] == b[n - 1];
      assert a[..n - 1] == a[..n][..n - 1];
      assert b[..n - 1] == b[..n][..n - 1];
      UnitsOfPrefix(a, b, n - 1, p, status);
    }
  }

  /** The rows selected are held rows, so they never claim more than the held total. */
  lemma {:induction false} SelectedWithinHeld(s: Stock, n: nat, order: Id, scope: set<Id>, p: Id)
    requires n <= |s.holds| && SoundHolds(s)
    ensures 0 <= Selected(s.holds, n, order, scope, p) <= Units(s.holds, n, p, Held)
  {
    if n > 0 { SelectedWithinHeld(s, n - 1, order, scope, p); }
  }

  lemma {:induction false} SelectedGrows(s: Stock, m: nat, n: nat, order: Id, scope: set<Id>, p: Id)
    requires m <= n <= |s.holds| && SoundHolds(s)
    ensures Selected(s.holds, m, order, scope, p) <= Selected(s.holds, n, order, scope, p)
  {
    if m < n { SelectedGrows(s, m, n - 1, order, scope, p); }
  }

  /** Settling moves exactly the selected units from held to the effect's status. */
  lemma {:induction false} SettledUnits(holds: seq<Hold>, n: nat, effect: Effect, order: Id, scope: set<Id>, p: Id)
    requires n <= |holds|
    ensures var after := SettleHolds(holds, effect, order, scope);
            && Units(after, n, p, Held) == Units(holds, n, p, Held) - Selected(holds, n, order, scope, p)
            && Units(after, n, p, Consumed) ==
               Units(holds, n, p, Consumed) + if effect.Consume? then Selected(holds, n, order, scope, p) else 0
  {
    if n > 0 { SettledUnits(holds, n - 1, effect, order, scope, p); }
  }

  /* ---------- one call ---------- */

  /** What settling does to each level when nothing is clamped or refused. */
  function Shifted(l: Level, effect: Effect, units: int): Level {
    Level(l.available + if effect.Release? then units else 0, l.reserved - units)
  }

  /** Enough is reserved for every unit the call will select. */
  ghost predicate Covered(s: Stock, order: Id, scope: set<Id>) {
    SoundHolds(s) &&
    forall p :: p in s.levels ==> Selected(s.holds, |s.holds|, order, scope, p) <= s.levels[p].reserved
  }

  lemma {:induction false} AgreementCovers(s: Stock, loose: map<Id, int>, initial: map<Id, int>, order: Id,
                                           scope: set<Id>)
    requires Agrees(s, loose, initial)
    ensures Covered(s, order, scope)
  {
    forall p | p in s.levels ensures Selected(s.holds, |s.holds|, order, scope, p) <= s.levels[p].reserved {
      assert LevelAgrees(s, loose, initial, p);
      SelectedWithinHeld(s, |s.holds|, order, scope, p);
    }
  }

  ghost predicate ShiftedTo(s: Stock, levels: map<Id, Level>, effect: Effect, order: Id, scope: set<Id>, n: nat)
    requires n <= |s.holds|
  {
    levels.Keys == s.levels.Keys &&
    forall p :: p in levels ==> levels[p] == Shifted(s.levels[p], effect, Selected(s.holds, n, order, scope, p))
  }

  /** A covered hold is planned in full: no clamp, no skip, no refusal. */
  lemma {:induction false} PlanIsFull(effect: Effect, l: Level, held: int)
    requires 0 < held <= l.reserved
    ensures PlanSettle(effect, Some(l), held) == Move(Shifted(l, effect, held), false)
  {
  }

  lemma {:induction false} StepShifts(s: Stock, levels: map<Id, Level>, effect: Effect, order: Id, scope: set<Id>,
                                      n: nat)
    requires n < |s.holds| && Covered(s, order, scope) && Matches(s.holds[n], order, scope)
    requires ShiftedTo(s, levels, effect, order, scope, n)
    ensures var h := s.holds[n];
            && h.product in levels
            && PlanSettle(effect, Some(levels[h.product]), h.quantity) ==
               Move(Shifted(levels[h.product], effect, h.quantity), false)
            && ShiftedTo(s, levels[h.product := Shifted(levels[h.product], effect, h.quantity)],
                         effect, order, scope, n + 1)
  {
    var h := s.holds[n];
    SelectedGrows(s, n + 1, |s.holds|, order, scope, h.product);
    PlanIsFull(effect, levels[h.product], h.quantity);
  }

  lemma {:induction false} SkipShifts(s: Stock, levels: map<Id, Level>, effect: Effect, order: Id, scope: set<Id>,
                                      n: nat)
    requires n < |s.holds| && !Matches(s.holds[n], order, scope)
    requires ShiftedTo(s, levels, effect, order, scope, n)
    ensures ShiftedTo(s, levels, effect, order, scope, n + 1)
  {
    forall p | p in levels
      ensures levels[p] == Shifted(s.levels[p], effect, Selected(s.holds, n + 1, order, scope, p))
    {
    }
  }

  lemma {:induction false} ScanStep(s: Stock, effect: Effect, order: Id, scope: set<Id>, n: nat, acc: Scan,
                                    level: Level)
    requires n < |s.holds| && Matches(s.holds[n], order, scope) && s.holds[n].product in acc.levels
    requires ScanHolds(s, effect, order, scope, n) == Some(acc)
    requires PlanSettle(effect, Some(acc.levels[s.holds[n].product]), s.holds[n].quantity) == Move(level, false)
    ensures ScanHolds(s, effect, order, scope, n + 1) ==
            Some(Scan(acc.levels[s.holds[n].product := level], acc.units + s.holds[n].quantity, acc.rows + 1))
  {
  }

  ghost predicate ScannedTo(s: Stock, effect: Effect, order: Id, scope: set<Id>, n: nat)
    requires n <= |s.holds|
  {
    var r := ScanHolds(s, effect, order, scope, n);
    && r.Some?
    && ShiftedTo(s, r.value.levels, effect, order, scope, n)
    && r.value.units == SelectedUnits(s.holds, n, order, scope)
    && r.value.rows == SelectedRows(s.holds, n, order, scope)
  }

  lemma {:induction false} ScanNext(s: Stock, effect: Effect, order: Id, scope: set<Id>, n: nat)
    requires n < |s.holds| && Covered(s, order, scope) && ScannedTo(s, effect, order, scope, n)
    ensures ScannedTo(s, effect, order, scope, n + 1)
  {
    var acc, h := ScanHolds(s, effect, order, scope, n).value, s.holds[n];
    if Matches(h, order, scope) {
      StepShifts(s, acc.levels, effect, order, scope, n);
      ScanStep(s, effect, order, scope, n, acc, Shifted(acc.levels[h.product], effect, h.quantity));
    } else {
      SkipShifts(s, acc.levels, effect, order, scope, n);
    }
  }

  lemma {:induction false} ScanNothing(s: Stock, effect: Effect, order: Id, scope: set<Id>)
    ensures ScannedTo(s, effect, order, scope, 0)
  {
    forall p | p in s.levels
      ensures s.levels[p] == Shifted(s.levels[p], effect, Selected(s.holds, 0, order, scope, p))
    {
    }
  }

  /** The pass over the holds neither clamps nor refuses: each level moves by exactly the selected units. */
  lemma {:induction false} ScanMovesSelected(s: Stock, effect: Effect, order: Id, scope: set<Id>, n: nat)
    requires n <= |s.holds| && Covered(s, order, scope)
    ensures ScannedTo(s, effect, order, scope, n)
  {
    ScanNothing(s, effect, order, scope);
    for i := 0 to n
      invariant ScannedTo(s, effect, order, scope, i)
    {
      ScanNext(s, effect, order, scope, i);
    }
  }

  /** In an agreeing database a release or consume succeeds, moves exactly the selected units and reports them. */
  lemma {:induction false} SettleIsExact(s: Stock, loose: map<Id, int>, initial: map<Id, int>, effect: Effect,
                                         order: Id, scope: set<Id>)
    requires Agrees(s, loose, initial)
    ensures var r := SettleCall(s, effect, order, scope);
            && r.status == OK
            && r.units == SelectedUnits(s.holds, |s.holds|, order, scope)
            && r.rows == SelectedRows(s.holds, |s.holds|, order, scope)
            && ShiftedTo(s, r.stock.levels, effect, order, scope, |s.holds|)
            && r.stock.holds == SettleHolds(s.holds, effect, order, scope)
            && r.stock.keys == s.keys
  {
    AgreementCovers(s, loose, initial, order, scope);
    ScanMovesSelected(s, effect, order, scope, |s.holds|);
  }

  function SelectedOf(holds: seq<Hold>, n: nat, order: Id, scope: set<Id>): Id -> int
    requires n <= |holds|
  {
    (p: Id) => Selected(holds, n, order, scope, p)
  }

  /** The selected units are those selected of each product, added up. */
  lemma {:induction false} SelectedAddUp(holds: seq<Hold>, n: nat, order: Id, scope: set<Id>, products: seq<Id>)
    requires n <= |holds| && Distinct(products) && forall i :: 0 <= i < n ==> holds[i].product in products
    ensures Sum(products, SelectedOf(holds, n, order, scope)) == SelectedUnits(holds, n, order, scope)
  {
    var f := SelectedOf(holds, n, order, scope);
    if n == 0 {
      SumOfNothing(products, f);
    } else {
      var h := holds[n - 1];
      SelectedAddUp(holds, n - 1, order, scope, products);
      SumRaised(products, SelectedOf(holds, n - 1, order, scope), f, h.product,
                if Matches(h, order, scope) then h.quantity else 0);
    }
  }

  lemma {:induction false} SumOfNothing(products: seq<Id>, f: Id -> int)
    requires forall p :: f(p) == 0
    ensures Sum(products, f) == 0
  {
    if products != [] { SumOfNothing(products[..|products| - 1], f); }
  }

  /** What a call took off the reserved column of each product. */
  function Freed(before: Stock, after: Stock): Id -> int {
    (p: Id) =>
      if p in before.levels && p in after.levels then before.levels[p].reserved - after.levels[p].reserved else 0
  }

  function AllFreed(before: Stock, after: Stock): int { Sum(SortIds(before.levels.Keys), Freed(before, after)) }

  lemma {:induction false} SortedProducts(s: Stock)
    ensures Distinct(SortIds(s.levels.Keys))
    ensures forall p :: p in SortIds(s.levels.Keys) <==> p in s.levels
  {
    var ids := SortIds(s.levels.Keys);
    SortIdsLists(s.levels.Keys);
    SortIdsIncreases(s.levels.Keys);
    forall i, j | 0 <= i < j < |ids| ensures ids[i] != ids[j] { LessIsAsymmetric(ids[i], ids[j]); }
  }

  /** The units reported are the units that left the reserved columns, over all products. */
  lemma {:induction false} ReportedUnitsMoved(s: Stock, loose: map<Id, int>, initial: map<Id, int>,
                                              effect: Effect, order: Id, scope: set<Id>)
    requires Agrees(s, loose, initial)
    ensures var r := SettleCall(s, effect, order, scope); r.units == AllFreed(s, r.stock)
  {
    var r, ids := SettleCall(s, effect, order, scope), SortIds(s.levels.Keys);
    SettleIsExact(s, loose, initial, effect, order, scope);
    SortedProducts(s);
    SelectedAddUp(s.holds, |s.holds|, order, scope, ids);
    SumAgrees(ids, SelectedOf(s.holds, |s.holds|, order, scope), Freed(s, r.stock));
  }

  lemma {:induction false} SettledHoldsAreSound(s: Stock, t: Stock, effect: Effect, order: Id, scope: set<Id>)
    requires SoundHolds(s) && t.levels.Keys == s.levels.Keys
    requires t.holds == SettleHolds(s.holds, effect, order, scope)
    ensures SoundHolds(t)
  {
  }

  lemma {:induction false} SettledLevelAgrees(s: Stock, t: Stock, loose: map<Id, int>, initial: map<Id, int>,
                           effect: Effect, order: Id, scope: set<Id>, p: Id)
    requires p in s.levels && p in t.levels && p in loose && p in initial && LevelAgrees(s, loose, initial, p)
    requires SoundHolds(s)
    requires t.holds == SettleHolds(s.holds, effect, order, scope)
    requires t.levels[p] == Shifted(s.levels[p], effect, Selected(s.holds, |s.holds|, order, scope, p))
    ensures LevelAgrees(t, loose, initial, p)
  {
    SettledUnits(s.holds, |s.holds|, effect, order, scope, p);
    SelectedWithinHeld(s, |s.holds|, order, scope, p);
  }

  lemma {:induction false} SettleKeepsAgreement(s: Stock, loose: map<Id, int>, initial: map<Id, int>,
                             effect: Effect, order: Id, scope: set<Id>)
    requires Agrees(s, loose, initial)
    ensures Agrees(SettleCall(s, effect, order, scope).stock, loose, initial)
  {
    SettleIsExact(s, loose, initial, effect, order, scope);
    var t := SettleCall(s, effect, order, scope).stock;
    SettledHoldsAreSound(s, t, effect, order, scope);
    forall p | p in t.levels ensures LevelAgrees(t, loose, initial, p) {
      SettledLevelAgrees(s, t, loose, initial, effect, order, scope, p);
    }
  }

  lemma {:induction false} KeysDoNotMatter(s: Stock, t: Stock, loose: map<Id, int>, initial: map<Id, int>)
    requires Agrees(s, loose, initial) && t.holds == s.holds && t.levels == s.levels
    ensures Agrees(t, loose, initial)
  {
    forall p | p in t.levels ensures LevelAgrees(t, loose, initial, p) {
      assert LevelAgrees(s, loose, initial, p);
    }
  }

  lemma {:induction false} AddedHoldIsSound(s: Stock, t: Stock, h: Hold)
    requires SoundHolds(s) && t.holds == s.holds + [h] && t.levels.Keys == s.levels.Keys
    requires h.order != "" && h.quantity > 0 && h.product in s.levels && !HasLive(s.holds, h.order, h.product)
    ensures SoundHolds(t)
  {
    assert forall i :: 0 <= i < |s.holds| ==> t.holds[i] == s.holds[i];
  }

  lemma {:induction false} UnitsOfAdded(holds: seq<Hold>, h: Hold, p: Id, status: HoldStatus)
    ensures Units(holds + [h], |holds| + 1, p, status) ==
            Units(holds, |holds|, p, status) + if h.product == p && h.status == status then h.quantity else 0
  {
    assert (holds + [h])[..|holds|] == holds[..|holds|];
    UnitsOfPrefix(holds + [h], holds, |holds|, p, status);
  }

  lemma {:induction false} GrantKeepsAgreement(s: Stock, loose: map<Id, int>, initial: map<Id, int>,
                            product: Id, quantity: int, order: Id, key: Key)
    requires Agrees(s, loose, initial) && key !in s.keys
    requires ReserveCall(s, product, quantity, order, key).status == OK
    ensures Agrees(ReserveCall(s, product, quantity, order, key).stock,
                   Loosen(s, loose, ReserveRequest(product, quantity, order, key)), initial)
  {
    var t := ReserveCall(s, product, quantity, order, key).stock;
    var loose' := Loosen(s, loose, ReserveRequest(product, quantity, order, key));
    var h := Hold(order, product, quantity, Held);
    if order != "" { AddedHoldIsSound(s, t, h); }
    forall p | p in t.levels ensures LevelAgrees(t, loose', initial, p) {
      assert LevelAgrees(s, loose, initial, p);
      UnitsOfAdded(s.holds, h, p, Held);
      UnitsOfAdded(s.holds, h, p, Consumed);
    }
  }

  lemma {:induction false} ReserveKeepsAgreement(s: Stock, loose: map<Id, int>, initial: map<Id, int>,
                              product: Id, quantity: int, order: Id, key: Key)
    requires Agrees(s, loose, initial)
    ensures Agrees(ReserveCall(s, product, quantity, order, key).stock,
                   Loosen(s, loose, ReserveRequest(product, quantity, order, key)), initial)
  {
    if key !in s.keys && ReserveCall(s, product, quantity, order, key).status == OK {
      GrantKeepsAgreement(s, loose, initial, product, quantity, order, key);
    } else {
      KeysDoNotMatter(s, ReserveCall(s, product, quantity, order, key).stock, loose, initial);
    }
  }

  /* ---------- every history ---------- */

  lemma {:induction false} EveryHistoryAgrees(s: Stock, calls: seq<Call>)
    requires Opening(s)
    ensures Agrees(Run(s, calls), RunLoose(s, NoLoose(s), calls), Stocked(s))
  {
    if calls != [] {
      var front, last := calls[..|calls| - 1], calls[|calls| - 1];
      EveryHistoryAgrees(s, front);
      var before, loose := Run(s, front), RunLoose(s, NoLoose(s), front);
      match last
      case ReserveRequest(product, quantity, order, key) =>
        ReserveKeepsAgreement(before, loose, Stocked(s), product, quantity, order, key);
      case SettleRequest(effect, order, scope) =>
        SettleKeepsAgreement(before, loose, Stocked(s), effect, order, scope);
    }
  }

  /** A key that a reservation has spent, granted or refused, never moves stock again. */
  lemma {:induction false} SpentKeysStaySpent(s: Stock, calls: seq<Call>, product: Id, quantity: int, order: Id,
                                              key: Key)
    requires key in s.keys
    ensures key in Run(s, calls).keys
    ensures ReserveCall(Run(s, calls), product, quantity, order, key).stock == Run(s, calls)
  {
    if calls != [] { SpentKeysStaySpent(s, calls[..|calls| - 1], product, quantity, order, key); }
  }

  /** After any history the clamp and the drift refusal stay untaken and the reported count is the units that moved. */
  lemma {:induction false} SettleIsExactAfterAnyHistory(s: Stock, calls: seq<Call>, effect: Effect, order: Id,
                                                        scope: set<Id>)
    requires Opening(s)
    ensures var before := Run(s, calls);
            var r := SettleCall(before, effect, order, scope);
            && r.status == OK
            && r.units == SelectedUnits(before.holds, |before.holds|, order, scope) == AllFreed(before, r.stock)
            && r.rows == SelectedRows(before.holds, |before.holds|, order, scope)
            && ShiftedTo(before, r.stock.levels, effect, order, scope, |before.holds|)
  {
    EveryHistoryAgrees(s, calls);
    SettleIsExact(Run(s, calls), RunLoose(s, NoLoose(s), calls), Stocked(s), effect, order, scope);
    ReportedUnitsMoved(Run(s, calls), RunLoose(s, NoLoose(s), calls), Stocked(s), effect, order, scope);
  }
}
