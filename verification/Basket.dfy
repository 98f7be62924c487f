/** The cart as its user sees it: one basket with a deadline. No rows, no statuses, no cache, no sweeps. */
module Basket {
  import opened Basics
  import opened Cart
  import opened CartRefinement

  /** What is in it and until when, the keys already spent, and what was checked out so far. */
  datatype Basket = Basket(items: Items, until: real, keys: set<string>, sold: seq<Items>)

  datatype BasketWorld = BasketWorld(basket: Basket, now: real, responses: seq<Response>)

  const NewBasket := Basket(map[], 0.0, {}, [])

  function Shown(b: Basket, now: real): Items { if now < b.until then b.items else map[] }

  /** How many of a product an add leaves behind. */
  function Count(items: Items, product: Id): int { if product in items then items[product] else 0 }

  function Use(b: Basket, op: Op, now: real): (Basket, Response) {
    match op
    case Add(product, quantity, key) =>
      if key in b.keys then (b, Contents(Shown(b, now)))
      else
        var items := Shown(b, now)[product := Count(Shown(b, now), product) + quantity];
        (Basket(items, now + 3600.0, b.keys + {key}, b.sold), Contents(items))
    case Get => (b, Contents(Shown(b, now)))
    case Checkout(key) =>
      if Shown(b, now) == map[] then (b, Refused(NOT_FOUND))
      else if key in b.keys then (b, AlreadyInitiated)
      else (Basket(map[], b.until, b.keys + {key}, b.sold + [b.items]), Initiated)
    case _ => (b, NoReply)
  }

  function RunBasket(w: BasketWorld, ops: seq<Op>): BasketWorld {
    if ops == [] then w
    else
      var u, op := RunBasket(w, ops[..|ops| - 1]), ops[|ops| - 1];
      var (b, response) := Use(u.basket, op, u.now);
      BasketWorld(b, u.now + Elapsed(op), u.responses + [response])
  }

  /* ---------- the database tells of one basket ---------- */

  /** The items of every CartCheckoutInitiated, in order. */
  function Announced(outbox: seq<Note>): seq<Items> {
    if outbox == [] then []
    else
      var before, note := Announced(outbox[..|outbox| - 1]), outbox[|outbox| - 1];
      if note.CheckoutInitiated? then before + [note.items] else before
  }

  predicate Holds(db: Db, b: Basket, now: real) {
    match LoadDurable(db)
    case Some(row) => row.items == b.items && row.expiresAt == b.until
    case None => b.items == map[] || b.until <= now
  }

  predicate Tells(db: Db, b: Basket, now: real) {
    OneActive(db) && Holds(db, b, now) && db.keys == b.keys && Announced(db.outbox) == b.sold
  }

  lemma {:induction false} TellsWhatIsShown(db: Db, b: Basket, now: real)
    requires Tells(db, b, now)
    ensures PlainView(db, now) == Shown(b, now)
  {
  }

  lemma {:induction false} AnnouncedOneMore(outbox: seq<Note>, note: Note)
    ensures Announced(outbox + [note]) == Announced(outbox) + if note.CheckoutInitiated? then [note.items] else []
  {
    assert (outbox + [note])[..|outbox|] == outbox;
  }

  lemma {:induction false} SweepAnnouncesNothing(kind: SweepKind, db: Db, now: real, n: nat)
    requires n <= |db.rows|
    ensures Announced(SweepFirst(kind, db, now, n).outbox) == Announced(db.outbox)
  {
    if n > 0 {
      SweepAnnouncesNothing(kind, db, now, n - 1);
      AnnouncedOneMore(SweepFirst(kind, db, now, n - 1).outbox, CartExpired(n - 1, db.rows[n - 1].items));
    }
  }

  lemma {:induction false} AddTells(db: Db, b: Basket, product: Id, quantity: int, key: string, now: real)
    requires Tells(db, b, now)
    ensures var p, (c, response) := PlainAdd(db, product, quantity, key, now), Use(b, Add(product, quantity, key), now);
            p.response == response && Tells(p.db, c, now)
  {
    TellsWhatIsShown(db, b, now);
    UpsertKeepsOneActive(db, MergeItem(PlainView(db, now), product, quantity), key, now);
  }

  lemma {:induction false} CheckoutTells(db: Db, b: Basket, key: string, now: real)
    requires Tells(db, b, now)
    ensures var p, (c, response) := PlainCheckout(db, key, now), Use(b, Checkout(key), now);
            p.response == response && Tells(p.db, c, now)
  {
    TellsWhatIsShown(db, b, now);
    if PlainView(db, now) != map[] && key !in db.keys {
      var i := ActiveAt(db).value;
      var after := ClaimCheckout(db, i, PlainView(db, now), key, now);
      AnnouncedOneMore(db.outbox, CheckoutInitiated(i, PlainView(db, now)));
      assert forall j :: 0 <= j < |after.rows| ==> !after.rows[j].status.Active?;
      assert Tells(after, Use(b, Checkout(key), now).0, now);
    }
  }

  lemma {:induction false} SweepTells(db: Db, b: Basket, kind: SweepKind, now: real)
    requires Tells(db, b, now)
    ensures Tells(Sweep(kind, db, now), b, now)
  {
    var after := Sweep(kind, db, now);
    SweepTreatsEachRow(kind, db, now, |db.rows|);
    SweepAnnouncesNothing(kind, db, now, |db.rows|);
    if ActiveAt(db).Some? {
      var i := ActiveAt(db).value;
      if after.rows[i].status.Active? { FoundActive(after.rows, i); }
    }
  }

  lemma {:induction false} StepTells(db: Db, b: Basket, op: Op, now: real)
    requires Tells(db, b, now)
    ensures var p, (c, response) := PlainAnswer(db, op, now), Use(b, op, now);
            p.response == response && Tells(p.db, c, now)
  {
    TellsWhatIsShown(db, b, now);
    match op
    case Add(product, quantity, key) => AddTells(db, b, product, quantity, key, now);
    case Checkout(key) => CheckoutTells(db, b, key, now);
    case RunSweep(kind) => SweepTells(db, b, kind, now);
    case _ =>
  }

  lemma {:induction false} PlainRunTells(now: real, ops: seq<Op>)
    ensures var p := PlainRun(PlainWorld(Db([], {}, []), now, []), ops);
            var w := RunBasket(BasketWorld(NewBasket, now, []), ops);
            p.responses == w.responses && p.now == w.now && Tells(p.db, w.basket, w.now)
  {
    if ops != [] {
      var front, op := ops[..|ops| - 1], ops[|ops| - 1];
      PlainRunTells(now, front);
      var p := PlainRun(PlainWorld(Db([], {}, []), now, []), front);
      var w := RunBasket(BasketWorld(NewBasket, now, []), front);
      StepTells(p.db, w.basket, op, p.now);
    }
  }

  /** Over every run from empty stores the service answers as one basket would, and announces exactly its checkouts. */
  lemma {:induction false} CartIsOneBasket(now: real, ops: seq<Op>)
    ensures var c := CartRefinement.Run(World(Store(Db([], {}, []), None), now, []), ops);
            var w := RunBasket(BasketWorld(NewBasket, now, []), ops);
            && c.responses == w.responses
            && Announced(c.store.db.outbox) == w.basket.sold
  {
    CacheIsInvisible(Store(Db([], {}, []), None), now, ops);
    PlainRunTells(now, ops);
  }
}
