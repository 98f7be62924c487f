/** How inventory-service answers, call by call and after any history, and what it does where levels and holds have
    drifted apart. */
module StockAnswers {
  import opened Basics
  import opened Inventory
  import L = StockLedger

  /* ---------- reservations ---------- */

  /** The shelf has that many. */
  predicate Enough(s: Stock, product: Id, quantity: int) {
    product in s.levels && s.levels[product].available >= quantity
  }

  /** A first reservation is granted if and only if it asks for something the shelf has and the order does not already
      hold; a refusal says which of these failed. */
  lemma {:induction false} ReservationIsAnswered(s: Stock, product: Id, quantity: int, order: Id, key: Key)
    requires key !in s.keys
    ensures var r := ReserveCall(s, product, quantity, order, key);
            var twice := order != "" && HasLive(s.holds, order, product);
            && (r.status == BAD_REQUEST <==> quantity <= 0)
            && (r.status == NOT_FOUND <==> quantity > 0 && product !in s.levels)
            && (r.status == CONFLICT <==> quantity > 0 && product in s.levels && !Enough(s, product, quantity))
            && (r.status == SERVER_ERROR <==> quantity > 0 && Enough(s, product, quantity) && twice)
            && (r.status == OK <==> quantity > 0 && Enough(s, product, quantity) && !twice)
  {
  }

  /** A grant takes the units off the shelf and leaves a hold for them, unless there is no order to hold them for. A
      shortage spends the key. No other refusal leaves a trace. */
  lemma {:induction false} ReservationLeaves(s: Stock, product: Id, quantity: int, order: Id, key: Key, other: Id)
    requires key !in s.keys
    ensures var r := ReserveCall(s, product, quantity, order, key);
            var t := r.stock;
            && t.levels.Keys == s.levels.Keys
            && (r.status == OK ==>
                  && t.levels[product].available == s.levels[product].available - quantity
                  && t.levels[product].reserved == s.levels[product].reserved + quantity
                  && t.holds == s.holds + (if order == "" then [] else [Hold(order, product, quantity, Held)]))
            && (other in s.levels && other != product ==> t.levels[other] == s.levels[other])
            && (r.status != OK ==> t.levels == s.levels && t.holds == s.holds)
            && (if r.status == OK || r.status == CONFLICT then t.keys == s.keys[key := product] else t == s)
  {
    assert s.holds + [] == s.holds;
  }

  /** Every key names a product that is stocked. */
  predicate KeysOk(s: Stock) { forall key :: key in s.keys ==> s.keys[key] in s.levels }

  lemma {:induction false} KeysStayOk(s: Stock, calls: seq<L.Call>)
    requires L.Opening(s) && KeysOk(s)
    ensures KeysOk(L.Run(s, calls)) && L.Run(s, calls).levels.Keys == s.levels.Keys
  {
    if calls != [] {
      var front, last := calls[..|calls| - 1], calls[|calls| - 1];
      KeysStayOk(s, front);
      if last.SettleRequest? {
        L.SettleIsExactAfterAnyHistory(s, front, last.effect, last.order, last.scope);
      }
    }
  }

  /** After any history a repeated reservation is answered 200 and moves nothing, whatever it asks for and however the
      first one ended. */
  lemma {:induction false} RepeatIsAnsweredOk(s: Stock, calls: seq<L.Call>, product: Id, quantity: int, order: Id,
                                              key: Key)
    requires L.Opening(s) && KeysOk(s) && key in L.Run(s, calls).keys
    ensures ReserveCall(L.Run(s, calls), product, quantity, order, key) == Reply(L.Run(s, calls), OK)
  {
    KeysStayOk(s, calls);
  }

  /* ---------- settling where the records have drifted ---------- */

  /** A release never takes a level below nothing reserved: it gives back what is there, loses no unit, and says so when
      that is less than the hold claimed. */
  lemma {:induction false} ReleaseNeverOverdraws(level: Level, held: int)
    requires level.reserved >= 0
    ensures var plan := PlanRelease(Some(level), held);
            && (plan.Refuse? <==> held < 0) && (plan.Skip? <==> held == 0)
            && (plan.Move? ==>
                  && plan.level.available + plan.level.reserved == level.available + level.reserved
                  && plan.level.reserved == (if held < level.reserved then level.reserved - held else 0)
                  && (plan.clamped <==> held > level.reserved))
  {
  }

  /** A consume takes the whole hold or refuses: it never retires units that are not reserved. */
  lemma {:induction false} ConsumeIsWholeOrRefused(level: Level, held: int)
    ensures var plan := PlanConsume(Some(level), held);
            && (plan.Skip? <==> held == 0) && (plan.Move? <==> 0 < held <= level.reserved)
            && (plan.Move? ==> plan.level == Level(level.available, level.reserved - held) && !plan.clamped)
  {
  }

  /** Without a level there is nothing to give back and nothing to retire. */
  lemma {:induction false} NoLevelNoMove(held: int)
    ensures !PlanRelease(None, held).Move? && !PlanConsume(None, held).Move?
    ensures held > 0 ==> PlanRelease(None, held).Skip? && PlanConsume(None, held).Refuse?
  {
  }

  lemma {:induction false} ScanIsRefused(s: Stock, effect: Effect, order: Id, scope: set<Id>, n: nat)
    requires n <= |s.holds| && ScanHolds(s, effect, order, scope, n).None?
    ensures exists i :: 0 <= i < n && Matches(s.holds[i], order, scope)
                        && (effect.Release? ==> s.holds[i].quantity < 0)
  {
    if ScanHolds(s, effect, order, scope, n - 1).None? { ScanIsRefused(s, effect, order, scope, n - 1); }
  }

  /** A settling call is refused whole: with 400, nothing moved, no row settled and nothing reported. Releasing is
      refused only for a hold of less than nothing. */
  lemma {:induction false} RefusedWhole(s: Stock, effect: Effect, order: Id, scope: set<Id>)
    ensures var r := SettleCall(s, effect, order, scope);
            && (r.status == OK || r.status == BAD_REQUEST)
            && (r.status != OK ==> r.stock == s && r.units == 0 && r.rows == 0)
            && (r.status != OK && effect.Release? ==>
                  exists i :: 0 <= i < |s.holds| && Matches(s.holds[i], order, scope) && s.holds[i].quantity < 0)
  {
    if ScanHolds(s, effect, order, scope, |s.holds|).None? { ScanIsRefused(s, effect, order, scope, |s.holds|); }
  }
}
