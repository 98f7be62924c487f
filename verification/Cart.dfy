/** cart-service for one user: a Redis key in front of the cart_state rows, the idempotency keys, the outbox
    and the two sweeps. Time is in seconds; a call reads the clock once. */
module Cart {
  import opened Basics

  type Items = map<Id, int>

  const CART_TTL := 3600
  const STALE_CHECKOUT := 600.0

  datatype CartStatus = Active | CheckoutInProgress | Expired
  datatype CartRow = CartRow(items: Items, status: CartStatus, expiresAt: real, updatedAt: real)

  /** Events by the position of the cart row they speak of. */
  datatype Note = CheckoutInitiated(cart: nat, items: Items) | CartExpired(cart: nat, items: Items)

  datatype Db = Db(rows: seq<CartRow>, keys: set<string>, outbox: seq<Note>)

  /** A Redis value and the moment its TTL runs out. */
  datatype Cached = Cached(items: Items, expiresAt: real)

  datatype Store = Store(db: Db, cache: Option<Cached>)

  datatype Response = Contents(items: Items) | Initiated | AlreadyInitiated | Refused(status: int) | NoReply
  datatype Reply = Reply(store: Store, response: Response)

  /* ---------- cart_cache_rules ---------- */

  datatype Source = FromCache | Rehydrated | Empty
  datatype View = View(items: Items, source: Source)

  function ResolveCart(cached: Option<Items>, durable: Option<CartRow>, now: real): View {
    if cached.Some? then View(cached.value, FromCache)
    else if durable.None? then View(map[], Empty)
    else if durable.value.status != Active then View(map[], Empty)
    else if durable.value.expiresAt <= now then View(map[], Empty)
    else View(durable.value.items, Rehydrated)
  }

  function MergeItem(items: Items, product: Id, quantity: int): Items {
    items[product := (if product in items then items[product] else 0) + quantity]
  }

  /* ---------- the stores ---------- */

  /** The position of the active row among the first n, if there is one. */
  function FindActive(rows: seq<CartRow>, n: nat): (r: Option<nat>)
    requires n <= |rows|
    ensures r.Some? ==> r.value < n && rows[r.value].status.Active?
    ensures r.None? ==> forall i :: 0 <= i < n ==> !rows[i].status.Active?
  {
    if n == 0 then None
    else if rows[n - 1].status.Active? then Some(n - 1)
    else FindActive(rows, n - 1)
  }

  function ActiveAt(db: Db): Option<nat> { FindActive(db.rows, |db.rows|) }

  function LoadDurable(db: Db): Option<CartRow> {
    if ActiveAt(db).Some? then Some(db.rows[ActiveAt(db).value]) else None
  }

  /** What Redis answers: nothing once the TTL has run out. */
  function ReadCache(cache: Option<Cached>, now: real): Option<Items> {
    if cache.Some? && now < cache.value.expiresAt then Some(cache.value.items) else None
  }

  function Resolve(s: Store, now: real): View { ResolveCart(ReadCache(s.cache, now), LoadDurable(s.db), now) }

  /** The rewarmed key lives for the cart's remaining whole seconds, an hour at most. */
  function Rewarm(s: Store, items: Items, now: real): Store {
    match LoadDurable(s.db)
    case None => s.(cache := Some(Cached(items, now + CART_TTL as real)))
    case Some(row) =>
      var remaining := (row.expiresAt - now).Floor;
      if remaining <= 0 then s
      else
        var ttl := if remaining < CART_TTL then remaining else CART_TTL;
        s.(cache := Some(Cached(items, now + ttl as real)))
  }

  function UpsertCart(db: Db, items: Items, key: string, now: real): Db {
    var expires := now + CART_TTL as real;
    var rows := match ActiveAt(db)
      case Some(i) => db.rows[i := CartRow(items, Active, expires, now)]
      case None => db.rows + [CartRow(items, Active, expires, now)];
    Db(rows, db.keys + {key}, db.outbox)
  }

  function ClaimCheckout(db: Db, i: nat, items: Items, key: string, now: real): Db
    requires i < |db.rows|
  {
    Db(db.rows[i := db.rows[i].(status := CheckoutInProgress, updatedAt := now)],
       db.keys + {key}, db.outbox + [CheckoutInitiated(i, items)])
  }

  /* ---------- the calls ---------- */

  function GetCart(s: Store, now: real): Reply {
    var view := Resolve(s, now);
    Reply(if view.source.Rehydrated? then Rewarm(s, view.items, now) else s, Contents(view.items))
  }

  function AddToCart(s: Store, product: Id, quantity: int, key: string, now: real): Reply {
    if key in s.db.keys then GetCart(s, now)
    else
      var items := MergeItem(Resolve(s, now).items, product, quantity);
      Reply(Store(UpsertCart(s.db, items, key, now), Some(Cached(items, now + CART_TTL as real))), Contents(items))
  }

  function CheckoutCart(s: Store, key: string, now: real): Reply {
    var view := Resolve(s, now);
    if view.items == map[] then Reply(s, Refused(NOT_FOUND))
    else if key in s.db.keys then Reply(s, AlreadyInitiated)
    else if ActiveAt(s.db).None? then Reply(s, Refused(CONFLICT))
    else Reply(Store(ClaimCheckout(s.db, ActiveAt(s.db).value, view.items, key, now), None), Initiated)
  }

  /** Which rows a sweep expires. */
  datatype SweepKind = ByTtl | StaleCheckout

  predicate Swept(kind: SweepKind, row: CartRow, now: real) {
    if kind.ByTtl? then row.status.Active? && row.expiresAt < now
    else row.status.CheckoutInProgress? && row.updatedAt < now - STALE_CHECKOUT
  }

  function SweepRow(kind: SweepKind, row: CartRow, now: real): CartRow {
    if Swept(kind, row, now) then row.(status := Expired, updatedAt := now) else row
  }

  /** The database after a sweep has treated the first n rows. */
  function SweepFirst(kind: SweepKind, db: Db, now: real, n: nat): Db
    requires n <= |db.rows|
  {
    if n == 0 then db
    else
      var before, row := SweepFirst(kind, db, now, n - 1), db.rows[n - 1];
      if Swept(kind, row, now) && n <= |before.rows|
      then before.(rows := before.rows[n - 1 := SweepRow(kind, row, now)],
                   outbox := before.outbox + [CartExpired(n - 1, row.items)])
      else before
  }

  function Sweep(kind: SweepKind, db: Db, now: real): Db { SweepFirst(kind, db, now, |db.rows|) }

  lemma {:induction false} SweepTreatsEachRow(kind: SweepKind, db: Db, now: real, n: nat)
    requires n <= |db.rows|
    ensures var after := SweepFirst(kind, db, now, n);
            && |after.rows| == |db.rows| && after.keys == db.keys
            && (forall i :: 0 <= i < n ==> after.rows[i] == SweepRow(kind, db.rows[i], now))
            && (forall i :: n <= i < |db.rows| ==> after.rows[i] == db.rows[i])
  {
    if n > 0 { SweepTreatsEachRow(kind, db, now, n - 1); }
  }

  /* ---------- the service ---------- */

  class CartService {
    var rows: seq<CartRow>
    var keys: set<string>
    var outbox: seq<Note>
    var cache: Option<Cached>

    function Stores(): Store
      reads this
    {
      Store(Db(rows, keys, outbox), cache)
    }

    constructor ()
      ensures Stores() == Store(Db([], {}, []), None)
    {
      rows, keys, outbox, cache := [], {}, [], None;
    }

    /** Both stores are read before deciding what the cart is. */
    method ResolveFromBoth(now: real) returns (view: View, durable: Option<nat>)
      ensures view == Resolve(Stores(), now)
      ensures durable == ActiveAt(Stores().db)
    {
      var cached := if cache.Some? && now < cache.value.expiresAt then Some(cache.value.items) else None;
      durable := None;
      var i := |rows|;
      while i > 0 && durable.None?
        invariant 0 <= i <= |rows|
        invariant FindActive(rows, |rows|) == if durable.Some? then durable else FindActive(rows, i)
        decreases i, durable.None?
      {
        i := i - 1;
        if rows[i].status.Active? { durable := Some(i); }
      }
      view := ResolveCart(cached, if durable.Some? then Some(rows[durable.value]) else None, now);
    }

    method Get(now: real) returns (response: Response)
      modifies this`cache
      ensures Reply(Stores(), response) == GetCart(old(Stores()), now)
    {
      var view, durable := ResolveFromBoth(now);
      if view.source.Rehydrated? {
        var remaining := (rows[durable.value].expiresAt - now).Floor;
        if remaining > 0 {
          var ttl := if CART_TTL < remaining then CART_TTL else remaining;
          cache := Some(Cached(view.items, now + ttl as real));
        }
      }
      response := Contents(view.items);
    }

    method Add(product: Id, quantity: int, key: string, now: real) returns (response: Response)
      modifies this
      ensures Reply(Stores(), response) == AddToCart(old(Stores()), product, quantity, key, now)
    {
      if key in keys {
        response := Get(now);
        return;
      }
      var view, durable := ResolveFromBoth(now);
      var items := MergeItem(view.items, product, quantity);
      cache := Some(Cached(items, now + CART_TTL as real));
      var expires := now + CART_TTL as real;
      if durable.Some? {
        rows := rows[durable.value := CartRow(items, Active, expires, now)];
      } else {
        rows := rows + [CartRow(items, Active, expires, now)];
      }
      keys := keys + {key};
      response := Contents(items);
    }

    method Checkout(key: string, now: real) returns (response: Response)
      modifies this
      ensures Reply(Stores(), response) == CheckoutCart(old(Stores()), key, now)
    {
      var view, durable := ResolveFromBoth(now);
      if view.items == map[] { return Refused(NOT_FOUND); }
      if key in keys { return AlreadyInitiated; }
      if durable.None? { return Refused(CONFLICT); }
      var i := durable.value;
      rows := rows[i := rows[i].(status := CheckoutInProgress, updatedAt := now)];
      outbox := outbox + [CheckoutInitiated(i, view.items)];
      keys := keys + {key};
      cache := None;
      return Initiated;
    }

    method RunSweep(kind: SweepKind, now: real)
      modifies this
      ensures Stores() == old(Stores()).(db := Sweep(kind, old(Stores()).db, now))
    {
      ghost var before := Stores().db;
      var i := 0;
      while i < |rows|
        invariant 0 <= i <= |rows| == |before.rows|
        invariant cache == old(cache)
        invariant Stores().db == SweepFirst(kind, before, now, i)
      {
        SweepTreatsEachRow(kind, before, now, i);
        if Swept(kind, rows[i], now) {
          outbox := outbox + [CartExpired(i, rows[i].items)];
          rows := rows[i := rows[i].(status := Expired, updatedAt := now)];
        }
        i := i + 1;
      }
    }
  }
}
