/** inventory-service: stock levels, the table of holds, and the three calls that move units. */
module Inventory {
  import opened Basics

  /** The mutable part of an inventory row. */
  datatype Level = Level(available: int, reserved: int)

  datatype HoldStatus = Held | Released | Consumed

  /** One row of inventory_reservations. */
  datatype Hold = Hold(order: Id, product: Id, quantity: int, status: HoldStatus)

  /** An Idempotency-Key: the dispatcher derives one per (command, product); other callers choose theirs. */
  datatype Key = LineKey(order: Id, product: Id) | CallerKey(name: string)

  /** The database: a level per product, the holds, and each committed key with the item it returned. */
  datatype Stock = Stock(levels: map<Id, Level>, holds: seq<Hold>, keys: map<Key, Id>)

  /** What a service call leaves behind and what it answers. */
  datatype Reply = Reply(stock: Stock, status: int)
  datatype SettleReply = SettleReply(stock: Stock, status: int, units: int, rows: nat)

  /* ---------- decisions ---------- */

  datatype LevelPlan = Reserved(level: Level) | Insufficient | Missing | Invalid

  function PlanReservation(level: Option<Level>, requested: int): LevelPlan {
    if requested <= 0 then Invalid
    else if level.None? then Missing
    else if level.value.available < requested then Insufficient
    else Reserved(Level(level.value.available - requested, level.value.reserved + requested))
  }

  /** `clamped` records that fewer units were reserved than the hold claimed. */
  datatype SettlePlan = Move(level: Level, clamped: bool) | Skip | Refuse

  function PlanRelease(level: Option<Level>, held: int): SettlePlan {
    if held == 0 then Skip
    else if held < 0 then Refuse
    else if level.None? then Skip
    else
      var releasable := if held < level.value.reserved then held else level.value.reserved;
      Move(Level(level.value.available + releasable, level.value.reserved - releasable), releasable < held)
  }

  function PlanConsume(level: Option<Level>, held: int): SettlePlan {
    if held == 0 then Skip
    else if held < 0 then Refuse
    else if level.None? then Refuse
    else if level.value.reserved < held then Refuse
    else Move(Level(level.value.available, level.value.reserved - held), false)
  }

  /** Settling a hold either returns its units to the shelf or retires them. */
  datatype Effect = Release | Consume

  function PlanSettle(effect: Effect, level: Option<Level>, held: int): SettlePlan {
    if effect.Release? then PlanRelease(level, held) else PlanConsume(level, held)
  }

  function StatusAfter(effect: Effect): HoldStatus {
    if effect.Release? then Released else Consumed
  }

  /* ---------- the calls, as functions on the database ---------- */

  function Lookup(levels: map<Id, Level>, product: Id): Option<Level> {
    if product in levels then Some(levels[product]) else None
  }

  predicate HasLive(holds: seq<Hold>, order: Id, product: Id) {
    exists i :: 0 <= i < |holds| && holds[i].order == order && holds[i].product == product && holds[i].status.Held?
  }

  /** An empty order id stands for a reservation made without an order, which leaves no hold. */
  function ReserveCall(s: Stock, product: Id, quantity: int, order: Id, key: Key): Reply {
    if key in s.keys then
      Reply(s, if s.keys[key] in s.levels then OK else CONFLICT)
    else
      match PlanReservation(Lookup(s.levels, product), quantity)
      case Invalid => Reply(s, BAD_REQUEST)
      case Missing => Reply(s, NOT_FOUND)
      case Insufficient => Reply(s.(keys := s.keys[key := product]), CONFLICT)
      case Reserved(level) =>
        // the unique index on live (order, product) holds refuses the commit
        if order != "" && HasLive(s.holds, order, product) then Reply(s, SERVER_ERROR)
        else
          Reply(Stock(s.levels[product := level],
                      if order != "" then s.holds + [Hold(order, product, quantity, Held)] else s.holds,
                      s.keys[key := product]), OK)
  }

  /** The rows a release or consume selects: an empty scope means every line of the order. */
  predicate Matches(h: Hold, order: Id, scope: set<Id>) {
    h.status.Held? && h.order == order && (scope == {} || h.product in scope)
  }

  datatype Scan = Scan(levels: map<Id, Level>, units: int, rows: nat)

  /** The levels and counts after settling the matching rows among the first n; None once one is refused. */
  function ScanHolds(s: Stock, effect: Effect, order: Id, scope: set<Id>, n: nat): Option<Scan>
    requires n <= |s.holds|
  {
    if n == 0 then Some(Scan(s.levels, 0, 0))
    else
      var before := ScanHolds(s, effect, order, scope, n - 1);
      var h := s.holds[n - 1];
      if before.None? || !Matches(h, order, scope) then before
      else
        var acc := before.value;
        match PlanSettle(effect, Lookup(acc.levels, h.product), h.quantity)
        case Refuse => None
        case Skip => Some(acc.(rows := acc.rows + 1))
        case Move(level, _) => Some(Scan(acc.levels[h.product := level], acc.units + h.quantity, acc.rows + 1))
  }

  function SettleHold(h: Hold, effect: Effect, order: Id, scope: set<Id>): Hold {
    if Matches(h, order, scope) then h.(status := StatusAfter(effect)) else h
  }

  function SettleHolds(holds: seq<Hold>, effect: Effect, order: Id, scope: set<Id>): (r: seq<Hold>)
    ensures |r| == |holds|
    ensures forall i :: 0 <= i < |r| ==> r[i] == SettleHold(holds[i], effect, order, scope)
  {
    seq(|holds|, i requires 0 <= i < |holds| => SettleHold(holds[i], effect, order, scope))
  }

  function SettleCall(s: Stock, effect: Effect, order: Id, scope: set<Id>): SettleReply {
    match ScanHolds(s, effect, order, scope, |s.holds|)
    case None => SettleReply(s, BAD_REQUEST, 0, 0)
    case Some(scan) =>
      SettleReply(Stock(scan.levels, SettleHolds(s.holds, effect, order, scope), s.keys), OK, scan.units, scan.rows)
  }

  /* ---------- the service ---------- */

  class InventoryService {
    var levels: map<Id, Level>
    var holds: seq<Hold>
    var keys: map<Key, Id>

    function Db(): Stock
      reads this
    {
      Stock(levels, holds, keys)
    }

    constructor (levels: map<Id, Level>)
      ensures Db() == Stock(levels, [], map[])
    {
      this.levels, holds, keys := levels, [], map[];
    }

    method ReserveInventory(product: Id, quantity: int, order: Id, key: Key) returns (status: int)
      modifies this
      ensures Reply(Db(), status) == ReserveCall(old(Db()), product, quantity, order, key)
    {
      if key in keys {
        status := if keys[key] in levels then OK else CONFLICT;
        return;
      }
      match PlanReservation(Lookup(levels, product), quantity) {
        case Missing => status := NOT_FOUND;
        case Invalid => status := BAD_REQUEST;
        case Insufficient =>
          keys := keys[key := product];
          status := CONFLICT;
        case Reserved(level) =>
          if order != "" {
            if HasLive(holds, order, product) {
              return SERVER_ERROR;
            }
            holds := holds + [Hold(order, product, quantity, Held)];
          }
          levels := levels[product := level];
          keys := keys[key := product];
          status := OK;
      }
    }

    /** release_inventory and consume_inventory: one pass over the order's live rows, committed at the end. */
    method SettleInventory(effect: Effect, order: Id, scope: set<Id>)
      returns (status: int, units: int, rows: nat)
      modifies this
      ensures SettleReply(Db(), status, units, rows) == SettleCall(old(Db()), effect, order, scope)
    {
      var newLevels, newHolds := levels, holds;
      units, rows := 0, 0;
      var i := 0;
      while i < |holds|
        invariant 0 <= i <= |holds| == |newHolds|
        invariant Db() == old(Db())
        invariant ScanHolds(Db(), effect, order, scope, i) == Some(Scan(newLevels, units, rows))
        invariant forall k :: 0 <= k < i ==> newHolds[k] == SettleHold(holds[k], effect, order, scope)
        invariant forall k :: i <= k < |holds| ==> newHolds[k] == holds[k]
      {
        var h := holds[i];
        if Matches(h, order, scope) {
          match PlanSettle(effect, Lookup(newLevels, h.product), h.quantity) {
            case Refuse =>
              ScanStaysRefused(Db(), effect, order, scope, i + 1, |holds|);
              return BAD_REQUEST, 0, 0;
            case Skip =>
            case Move(level, _) =>
              newLevels := newLevels[h.product := level];
              units := units + h.quantity;
          }
          newHolds := newHolds[i := h.(status := StatusAfter(effect))];
          rows := rows + 1;
        }
        i := i + 1;
      }
      assert newHolds == SettleHolds(holds, effect, order, scope);
      levels, holds := newLevels, newHolds;
      status := OK;
    }
  }

  lemma {:induction false} ScanStaysRefused(s: Stock, effect: Effect, order: Id, scope: set<Id>, m: nat, n: nat)
    requires m <= n <= |s.holds|
    requires ScanHolds(s, effect, order, scope, m).None?
    ensures ScanHolds(s, effect, order, scope, n).None?
  {
    if m < n {
      ScanStaysRefused(s, effect, order, scope, m, n - 1);
    }
  }
}
