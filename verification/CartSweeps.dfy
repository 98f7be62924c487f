/** What the sweeps do to carts that ran out and to checkouts that were abandoned, and what is said about it. */
module CartSweeps {
  import opened Basics
  import opened Cart
  import opened CartRefinement

  /* ---------- one sweep ---------- */

  /** After the first sweep no cart is open past its hour, and only such carts were closed. */
  lemma {:induction false} RunOutCartsAreClosed(db: Db, now: real, i: nat)
    requires i < |db.rows|
    ensures var row, after := db.rows[i], Sweep(ByTtl, db, now).rows;
            && |after| == |db.rows| && after[i].items == row.items
            && (after[i].status.Active? ==> after[i].expiresAt >= now)
            && (row.status.Active? && row.expiresAt < now ==> after[i] == row.(status := Expired, updatedAt := now))
            && (!(row.status.Active? && row.expiresAt < now) ==> after[i] == row)
  {
    SweepTreatsEachRow(ByTtl, db, now, |db.rows|);
  }

  /** After the second no checkout is under way that nobody touched for ten minutes, and only such were reclaimed. */
  lemma {:induction false} StaleCheckoutsAreReclaimed(db: Db, now: real, i: nat)
    requires i < |db.rows|
    ensures var row, after := db.rows[i], Sweep(StaleCheckout, db, now).rows;
            && |after| == |db.rows| && after[i].items == row.items
            && (after[i].status.CheckoutInProgress? ==> after[i].updatedAt >= now - 600.0)
            && (row.status.CheckoutInProgress? && row.updatedAt < now - 600.0 ==>
                  after[i] == row.(status := Expired, updatedAt := now))
            && (!(row.status.CheckoutInProgress? && row.updatedAt < now - 600.0) ==> after[i] == row)
  {
    SweepTreatsEachRow(StaleCheckout, db, now, |db.rows|);
  }

  /* ---------- every run ---------- */

  function Expiries(outbox: seq<Note>, i: nat): nat {
    if outbox == [] then 0
    else
      var last := outbox[|outbox| - 1];
      Expiries(outbox[..|outbox| - 1], i) + if last.CartExpired? && last.cart == i then 1 else 0
  }

  function Initiations(outbox: seq<Note>, i: nat): nat {
    if outbox == [] then 0
    else
      var last := outbox[|outbox| - 1];
      Initiations(outbox[..|outbox| - 1], i) + if last.CheckoutInitiated? && last.cart == i then 1 else 0
  }

  lemma {:induction false} OneMoreNote(outbox: seq<Note>, note: Note, i: nat)
    ensures Expiries(outbox + [note], i) == Expiries(outbox, i) + if note.CartExpired? && note.cart == i then 1 else 0
    ensures Initiations(outbox + [note], i) ==
            Initiations(outbox, i) + if note.CheckoutInitiated? && note.cart == i then 1 else 0
  {
    assert (outbox + [note])[..|outbox|] == outbox;
  }

  /** Row i is announced as expired once if it is, and never otherwise; a checkout of it was announced at most once,
      and while it is under way exactly once. */
  predicate ToldAt(db: Db, i: nat) {
    && Expiries(db.outbox, i) == (if i < |db.rows| && db.rows[i].status.Expired? then 1 else 0)
    && Initiations(db.outbox, i) <= (if i < |db.rows| && !db.rows[i].status.Active? then 1 else 0)
    && (i < |db.rows| && db.rows[i].status.CheckoutInProgress? ==> Initiations(db.outbox, i) == 1)
  }

  /** Whatever was announced of a cart that is closed is what its row still holds. */
  predicate ToldRightly(db: Db) {
    forall k :: 0 <= k < |db.outbox| ==>
      db.outbox[k].cart < |db.rows| && !db.rows[db.outbox[k].cart].status.Active?
      && db.outbox[k].items == db.rows[db.outbox[k].cart].items
  }

  lemma {:induction false} AddTold(db: Db, items: Items, key: string, now: real, i: nat)
    requires ToldAt(db, i)
    ensures ToldAt(UpsertCart(db, items, key, now), i)
  {
  }

  lemma {:induction false} CheckoutTold(db: Db, at: nat, items: Items, key: string, now: real, i: nat)
    requires ToldAt(db, i) && at < |db.rows| && db.rows[at].status.Active?
    ensures ToldAt(ClaimCheckout(db, at, items, key, now), i)
  {
    OneMoreNote(db.outbox, CheckoutInitiated(at, items), i);
  }

  lemma {:induction false} ExpiryTold(db: Db, at: nat, row: CartRow, i: nat)
    requires ToldAt(db, i) && at < |db.rows| && !db.rows[at].status.Expired? && row.status.Expired?
    ensures ToldAt(db.(rows := db.rows[at := row], outbox := db.outbox + [CartExpired(at, row.items)]), i)
  {
    OneMoreNote(db.outbox, CartExpired(at, row.items), i);
  }

  lemma {:induction false} SweepTold(kind: SweepKind, db: Db, now: real, n: nat, i: nat)
    requires n <= |db.rows| && ToldAt(db, i)
    ensures ToldAt(SweepFirst(kind, db, now, n), i)
  {
    if n > 0 {
      SweepTold(kind, db, now, n - 1, i);
      SweepTreatsEachRow(kind, db, now, n - 1);
      var before, row := SweepFirst(kind, db, now, n - 1), db.rows[n - 1];
      if Swept(kind, row, now) {
        ExpiryTold(before, n - 1, SweepRow(kind, row, now), i);
      } else {
        assert SweepFirst(kind, db, now, n) == before;
      }
    }
  }

  lemma {:induction false} CallTold(s: Store, op: Op, now: real, i: nat)
    requires ToldAt(s.db, i)
    ensures ToldAt(Answer(s, op, now).store.db, i)
  {
    match op
    case Add(product, quantity, key) =>
      AddTold(s.db, MergeItem(Resolve(s, now).items, product, quantity), key, now, i);
    case Checkout(key) =>
      if ActiveAt(s.db).Some? { CheckoutTold(s.db, ActiveAt(s.db).value, Resolve(s, now).items, key, now, i); }
    case RunSweep(kind) => SweepTold(kind, s.db, now, |s.db.rows|, i);
    case _ =>
  }

  /** Over every run of calls, sweeps, evictions and ticks, each cart that expired was announced as such exactly once
      and no other ever was, and each checkout under way was announced exactly once. */
  lemma {:induction false} EveryExpiryIsAnnouncedOnce(now: real, ops: seq<Op>, i: nat)
    ensures ToldAt(Run(World(Store(Db([], {}, []), None), now, []), ops).store.db, i)
  {
    if ops != [] {
      var front := ops[..|ops| - 1];
      EveryExpiryIsAnnouncedOnce(now, front, i);
      var u := Run(World(Store(Db([], {}, []), None), now, []), front);
      CallTold(u.store, ops[|ops| - 1], u.now, i);
    }
  }

  lemma {:induction false} SweepToldRightly(kind: SweepKind, db: Db, now: real, n: nat)
    requires n <= |db.rows| && ToldRightly(db)
    ensures ToldRightly(SweepFirst(kind, db, now, n))
  {
    if n > 0 {
      SweepToldRightly(kind, db, now, n - 1);
      SweepTreatsEachRow(kind, db, now, n - 1);
      var before, after := SweepFirst(kind, db, now, n - 1), SweepFirst(kind, db, now, n);
      if after != before {
        assert after.rows == before.rows[n - 1 := SweepRow(kind, db.rows[n - 1], now)];
        assert after.outbox == before.outbox + [CartExpired(n - 1, db.rows[n - 1].items)];
      }
    }
  }

  lemma {:induction false} PlainToldRightly(db: Db, op: Op, now: real)
    requires ToldRightly(db)
    ensures ToldRightly(PlainAnswer(db, op, now).db)
  {
    match op
    case RunSweep(kind) => SweepToldRightly(kind, db, now, |db.rows|);
    case _ =>
  }

  /** And every announcement, of an expiry or of a checkout, carries the items of the closed row it speaks of. */
  lemma {:induction false} EveryAnnouncementIsRight(now: real, ops: seq<Op>)
    ensures ToldRightly(Run(World(Store(Db([], {}, []), None), now, []), ops).store.db)
  {
    if ops != [] {
      var front := ops[..|ops| - 1];
      EveryAnnouncementIsRight(now, front);
      var u := Run(World(Store(Db([], {}, []), None), now, []), front);
      CacheIsInvisible(Store(Db([], {}, []), None), now, front);
      AnswerRefines(u.store, ops[|ops| - 1], u.now);
      PlainToldRightly(u.store.db, ops[|ops| - 1], u.now);
    }
  }

  /* ---------- an abandoned checkout ---------- */

  /** Nothing but the second sweep touches a row whose checkout is under way. */
  lemma {:induction false} CheckoutIsLeftAlone(s: Store, op: Op, now: real, i: nat)
    requires i < |s.db.rows| && s.db.rows[i].status.CheckoutInProgress? && op != RunSweep(StaleCheckout)
    ensures var rows := Answer(s, op, now).store.db.rows; i < |rows| && rows[i] == s.db.rows[i]
  {
    if op.RunSweep? { SweepTreatsEachRow(op.kind, s.db, now, |s.db.rows|); }
  }

  lemma {:induction false} CheckoutsAreLeftAlone(w: World, ops: seq<Op>, i: nat)
    requires i < |w.store.db.rows| && w.store.db.rows[i].status.CheckoutInProgress?
    requires forall k :: 0 <= k < |ops| ==> ops[k] != RunSweep(StaleCheckout)
    ensures var rows := Run(w, ops).store.db.rows; i < |rows| && rows[i] == w.store.db.rows[i]
  {
    if ops != [] {
      var front := ops[..|ops| - 1];
      CheckoutsAreLeftAlone(w, front, i);
      var u := Run(w, front);
      CheckoutIsLeftAlone(u.store, ops[|ops| - 1], u.now, i);
    }
  }

  /** A checkout has ten minutes from the moment it was initiated: whatever happens meanwhile, the next sweep for
      abandoned checkouts reclaims its cart if and only if they have passed. */
  lemma {:induction false} CheckoutHasTenMinutes(w: World, key: string, ops: seq<Op>)
    requires CheckoutCart(w.store, key, w.now).response.Initiated?
    requires forall k :: 0 <= k < |ops| ==> ops[k] != RunSweep(StaleCheckout)
    ensures var i := ActiveAt(w.store.db).value;
            var later := Run(World(CheckoutCart(w.store, key, w.now).store, w.now, []), ops);
            var rows := Sweep(StaleCheckout, later.store.db, later.now).rows;
            && i < |rows|
            && rows[i].status == if later.now > w.now + 600.0 then Expired else CheckoutInProgress
  {
    var i := ActiveAt(w.store.db).value;
    var begun := World(CheckoutCart(w.store, key, w.now).store, w.now, []);
    CheckoutsAreLeftAlone(begun, ops, i);
    var later := Run(begun, ops);
    StaleCheckoutsAreReclaimed(later.store.db, later.now, i);
  }
}
