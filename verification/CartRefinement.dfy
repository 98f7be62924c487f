/** The cached cart is indistinguishable from a service that has no cache at all. */
module CartRefinement {
  import opened Basics
  import opened Cart

  /* ---------- the cache-free service ---------- */

  datatype PlainReply = PlainReply(db: Db, response: Response)

  /** The only cart there is: the active row, unless its time has passed. */
  function PlainView(db: Db, now: real): Items {
    match LoadDurable(db)
    case None => map[]
    case Some(row) => if row.expiresAt <= now then map[] else row.items
  }

  function PlainAdd(db: Db, product: Id, quantity: int, key: string, now: real): PlainReply {
    if key in db.keys then PlainReply(db, Contents(PlainView(db, now)))
    else
      var items := MergeItem(PlainView(db, now), product, quantity);
      PlainReply(UpsertCart(db, items, key, now), Contents(items))
  }

  function PlainCheckout(db: Db, key: string, now: real): PlainReply {
    var items := PlainView(db, now);
    if items == map[] then PlainReply(db, Refused(NOT_FOUND))
    else if key in db.keys then PlainReply(db, AlreadyInitiated)
    else
      match ActiveAt(db)
      case None => PlainReply(db, Refused(CONFLICT))
      case Some(i) => PlainReply(ClaimCheckout(db, i, items, key, now), Initiated)
  }

  /* ---------- runs ---------- */

  datatype Op =
    | Add(product: Id, quantity: int, key: string)
    | Get
    | Checkout(key: string)
    | RunSweep(kind: SweepKind)
    | Evict
    | Tick(seconds: real)

  datatype World = World(store: Store, now: real, responses: seq<Response>)
  datatype PlainWorld = PlainWorld(db: Db, now: real, responses: seq<Response>)

  function Elapsed(op: Op): real { if op.Tick? && op.seconds >= 0.0 then op.seconds else 0.0 }

  function Answer(s: Store, op: Op, now: real): Reply {
    match op
    case Add(product, quantity, key) => AddToCart(s, product, quantity, key, now)
    case Get => GetCart(s, now)
    case Checkout(key) => CheckoutCart(s, key, now)
    case RunSweep(kind) => Reply(s.(db := Sweep(kind, s.db, now)), NoReply)
    case Evict => Reply(s.(cache := None), NoReply)
    case Tick(_) => Reply(s, NoReply)
  }

  function PlainAnswer(db: Db, op: Op, now: real): PlainReply {
    match op
    case Add(product, quantity, key) => PlainAdd(db, product, quantity, key, now)
    case Get => PlainReply(db, Contents(PlainView(db, now)))
    case Checkout(key) => PlainCheckout(db, key, now)
    case RunSweep(kind) => PlainReply(Sweep(kind, db, now), NoReply)
    case Evict => PlainReply(db, NoReply)
    case Tick(_) => PlainReply(db, NoReply)
  }

  function Run(w: World, ops: seq<Op>): World {
    if ops == [] then w
    else
      var u, op := Run(w, ops[..|ops| - 1]), ops[|ops| - 1];
      var r := Answer(u.store, op, u.now);
      World(r.store, u.now + Elapsed(op), u.responses + [r.response])
  }

  function PlainRun(w: PlainWorld, ops: seq<Op>): PlainWorld {
    if ops == [] then w
    else
      var u, op := PlainRun(w, ops[..|ops| - 1]), ops[|ops| - 1];
      var r := PlainAnswer(u.db, op, u.now);
      PlainWorld(r.db, u.now + Elapsed(op), u.responses + [r.response])
  }

  /* ---------- coherence ---------- */

  predicate OneActive(db: Db) {
    forall i, j :: 0 <= i < j < |db.rows| ==> !(db.rows[i].status.Active? && db.rows[j].status.Active?)
  }

  /** A live Redis key holds the active row's items and runs out no later than the row. */
  predicate Coherent(s: Store, now: real) {
    && OneActive(s.db)
    && (ReadCache(s.cache, now).Some? ==>
          && LoadDurable(s.db).Some?
          && s.cache.value.items == LoadDurable(s.db).value.items
          && s.cache.value.expiresAt <= LoadDurable(s.db).value.expiresAt)
  }

  /** With one active row, finding it does not depend on where it stands. */
  lemma {:induction false} FoundActive(rows: seq<CartRow>, i: nat)
    requires i < |rows| && rows[i].status.Active?
    requires forall j :: 0 <= j < |rows| && j != i ==> !rows[j].status.Active?
    ensures FindActive(rows, |rows|) == Some(i)
  {
  }

  /** In a coherent store both ways of reading agree, and the items come from an active row that has not expired. */
  lemma {:induction false} ViewsAgree(s: Store, now: real)
    requires Coherent(s, now)
    ensures Resolve(s, now).items == PlainView(s.db, now)
    ensures Resolve(s, now).items != map[] ==> ActiveAt(s.db).Some?
  {
  }

  lemma {:induction false} LaterIsCoherent(s: Store, now: real, later: real)
    requires Coherent(s, now) && now <= later
    ensures Coherent(s, later)
  {
  }

  lemma {:induction false} RewarmIsCoherent(s: Store, now: real)
    requires Coherent(s, now) && Resolve(s, now).source.Rehydrated?
    ensures Coherent(Rewarm(s, Resolve(s, now).items, now), now)
  {
    var left := LoadDurable(s.db).value.expiresAt - now;
    assert left.Floor as real <= left;
  }

  lemma {:induction false} UpsertKeepsOneActive(db: Db, items: Items, key: string, now: real)
    requires OneActive(db)
    ensures var after := UpsertCart(db, items, key, now);
            && OneActive(after)
            && LoadDurable(after) == Some(CartRow(items, Active, now + CART_TTL as real, now))
  {
    var after := UpsertCart(db, items, key, now);
    var i := if ActiveAt(db).Some? then ActiveAt(db).value else |db.rows|;
    FoundActive(after.rows, i);
  }

  lemma {:induction false} SweepIsCoherent(s: Store, kind: SweepKind, now: real)
    requires Coherent(s, now)
    ensures Coherent(s.(db := Sweep(kind, s.db, now)), now)
  {
    var after := Sweep(kind, s.db, now);
    SweepTreatsEachRow(kind, s.db, now, |s.db.rows|);
    if ReadCache(s.cache, now).Some? {
      var i := ActiveAt(s.db).value;
      assert after.rows[i] == s.db.rows[i];
      FoundActive(after.rows, i);
    }
  }

  lemma {:induction false} AnswerRefines(s: Store, op: Op, now: real)
    requires Coherent(s, now)
    ensures var r, p := Answer(s, op, now), PlainAnswer(s.db, op, now);
            && r.response == p.response
            && r.store.db == p.db
            && Coherent(r.store, now)
  {
    ViewsAgree(s, now);
    if Resolve(s, now).source.Rehydrated? { RewarmIsCoherent(s, now); }
    match op
    case Add(product, quantity, key) =>
      UpsertKeepsOneActive(s.db, MergeItem(PlainView(s.db, now), product, quantity), key, now);
    case RunSweep(kind) => SweepIsCoherent(s, kind, now);
    case _ =>
  }

  /** Over every run of adds, reads, checkouts, sweeps, evictions and ticks the cached service answers, stores and
      publishes exactly what the cache-free one does. */
  lemma {:induction false} CacheIsInvisible(s: Store, now: real, ops: seq<Op>)
    requires Coherent(s, now)
    ensures var w, p := Run(World(s, now, []), ops), PlainRun(PlainWorld(s.db, now, []), ops);
            && w.responses == p.responses && w.store.db == p.db && w.now == p.now
            && Coherent(w.store, w.now)
  {
    if ops != [] {
      var front, op := ops[..|ops| - 1], ops[|ops| - 1];
      CacheIsInvisible(s, now, front);
      var u := Run(World(s, now, []), front);
      AnswerRefines(u.store, op, u.now);
      LaterIsCoherent(Answer(u.store, op, u.now).store, u.now, u.now + Elapsed(op));
    }
  }

  /* ---------- and the cache is there ---------- */

  /** The cart is read from Redis, without the database. */
  predicate Served(s: Store, items: Items, now: real) { Resolve(s, now) == View(items, FromCache) }

  /** For an hour after an add the cart is served from the cache as the add left it. */
  lemma {:induction false} AddWarmsTheCache(s: Store, product: Id, quantity: int, key: string, now: real, later: real)
    requires key !in s.db.keys && now <= later < now + 3600.0
    ensures var r := AddToCart(s, product, quantity, key, now);
            r.response.Contents? && Served(r.store, r.response.items, later)
  {
  }

  /** A read that had to go to the database puts the cart back for the whole seconds it has left, an hour at most. */
  lemma {:induction false} ReadWarmsTheCache(s: Store, now: real, later: real)
    requires Resolve(s, now).source.Rehydrated? && now <= later
    requires var left := LoadDurable(s.db).value.expiresAt - now;
             later < now + left.Floor as real && later < now + 3600.0
    ensures Served(GetCart(s, now).store, LoadDurable(s.db).value.items, later)
  {
    var left := LoadDurable(s.db).value.expiresAt - now;
    assert left.Floor >= 1;
  }

  /** In particular from the empty stores, and then a checkout is never refused with a conflict. */
  lemma {:induction false} CheckoutNeverConflicts(now: real, ops: seq<Op>, key: string)
    ensures var w := Run(World(Store(Db([], {}, []), None), now, []), ops);
            CheckoutCart(w.store, key, w.now).response != Refused(CONFLICT)
  {
    CacheIsInvisible(Store(Db([], {}, []), None), now, ops);
    var w := Run(World(Store(Db([], {}, []), None), now, []), ops);
    ViewsAgree(w.store, w.now);
  }
}
