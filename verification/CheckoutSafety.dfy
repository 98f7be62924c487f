/** When the stages of a checkout may interleave with the rest of the cart without harm: the window in which an add
    repeats what was just checked out, and the window in which a checkout loses what was just added. */
module CheckoutSafety {
  import opened Basics
  import Cart
  import opened CheckoutRace
  import R = CartRefinement

  /* ---------- what every interleaving keeps ---------- */

  /** While a row is active, a live Redis key holds its items and runs out no later than it. */
  predicate Linked(s: Cart.Store, now: real) {
    && R.OneActive(s.db)
    && (Cart.LoadDurable(s.db).Some? && Cart.ReadCache(s.cache, now).Some? ==> R.Coherent(s, now))
  }

  lemma {:induction false} NoneActive(s: Cart.Store, now: real)
    requires forall i :: 0 <= i < |s.db.rows| ==> !s.db.rows[i].status.Active?
    ensures Linked(s, now)
  {
  }

  lemma {:induction false} SweepKeepsLinked(s: Cart.Store, kind: Cart.SweepKind, now: real)
    requires Linked(s, now)
    ensures Linked(s.(db := Cart.Sweep(kind, s.db, now)), now)
  {
    if R.Coherent(s, now) {
      R.SweepIsCoherent(s, kind, now);
    } else {
      Cart.SweepTreatsEachRow(kind, s.db, now, |s.db.rows|);
      NoneActive(s.(db := Cart.Sweep(kind, s.db, now)), now);
    }
  }

  lemma {:induction false} GetKeepsLinked(s: Cart.Store, now: real)
    requires Linked(s, now)
    ensures Linked(Cart.GetCart(s, now).store, now)
  {
    if Cart.Resolve(s, now).source.Rehydrated? { R.RewarmIsCoherent(s, now); }
  }

  lemma {:induction false} AddKeepsLinked(s: Cart.Store, product: Id, quantity: int, key: string, now: real)
    requires Linked(s, now)
    ensures Linked(Cart.AddToCart(s, product, quantity, key, now).store, now)
  {
    if key in s.db.keys {
      GetKeepsLinked(s, now);
    } else {
      R.UpsertKeepsOneActive(s.db, Cart.MergeItem(Cart.Resolve(s, now).items, product, quantity), key, now);
    }
  }

  lemma {:induction false} StepKeepsLinked(r: Race, step: Step)
    requires Linked(r.store, r.now)
    ensures Linked(Take(r, step).store, Take(r, step).now)
  {
    match step
    case Claim(token, key) =>
      if Take(r, step).store != r.store { NoneActive(Take(r, step).store, r.now); }
    case Add(product, quantity, key) => AddKeepsLinked(r.store, product, quantity, key, r.now);
    case Get => GetKeepsLinked(r.store, r.now);
    case RunSweep(kind) => SweepKeepsLinked(r.store, kind, r.now);
    case _ =>
  }

  lemma {:induction false} EveryRunIsLinked(steps: seq<Step>, n: nat)
    requires n <= |steps|
    ensures Linked(Run(Start, steps, n).store, Run(Start, steps, n).now)
  {
    if n > 0 {
      EveryRunIsLinked(steps, n - 1);
      StepKeepsLinked(Run(Start, steps, n - 1), steps[n - 1]);
    }
  }

  /* ---------- the window between the commit and the deletion of the key ---------- */

  predicate NoneCommitted(r: Race) { forall t :: t in r.requests ==> !r.requests[t].Committed? }

  /** A request that committed deletes the key before it releases the lock. */
  predicate DeletesFirst(steps: seq<Step>, n: nat)
    requires n <= |steps|
  {
    forall k :: 0 <= k < n && steps[k].Finish? ==> !At(Run(Start, steps, k), steps[k].token, Committed)
  }

  lemma {:induction false} CoherentStays(r: Race, step: Step)
    requires R.Coherent(r.store, r.now) && NoneCommitted(Take(r, step))
    ensures R.Coherent(Take(r, step).store, Take(r, step).now)
  {
    match step
    case Claim(token, key) => assert token in Take(r, step).requests ==> Take(r, step).store == r.store;
    case Add(product, quantity, key) => R.AnswerRefines(r.store, R.Add(product, quantity, key), r.now);
    case Get => R.AnswerRefines(r.store, R.Get, r.now);
    case RunSweep(kind) => R.SweepIsCoherent(r.store, kind, r.now);
    case Tick(seconds) => if seconds >= 0.0 { R.LaterIsCoherent(r.store, r.now, r.now + seconds); }
    case _ =>
  }

  /** The last committed request leaves that stage by deleting the key. */
  lemma {:induction false} WindowCloses(r: Race, step: Step)
    requires Linked(r.store, r.now) && !NoneCommitted(r) && NoneCommitted(Take(r, step))
    requires step.Finish? ==> !At(r, step.token, Committed)
    ensures R.Coherent(Take(r, step).store, Take(r, step).now)
  {
    var t :| t in r.requests && r.requests[t].Committed?;
    assert t in Take(r, step).requests && !Take(r, step).requests[t].Committed?;
    assert step == DeleteKey(t);
  }

  /** In every interleaving the cache can disagree with the rows only while some request has committed and not yet
      deleted the key. */
  lemma {:induction false} CoherentOutsideTheWindow(steps: seq<Step>, n: nat)
    requires n <= |steps| && DeletesFirst(steps, n)
    ensures var r := Run(Start, steps, n); NoneCommitted(r) ==> R.Coherent(r.store, r.now)
  {
    if n > 0 && NoneCommitted(Run(Start, steps, n)) {
      var r := Run(Start, steps, n - 1);
      assert DeletesFirst(steps, n - 1);
      CoherentOutsideTheWindow(steps, n - 1);
      EveryRunIsLinked(steps, n - 1);
      if NoneCommitted(r) { CoherentStays(r, steps[n - 1]); } else { WindowCloses(r, steps[n - 1]); }
    }
  }

  /* ---------- the add that repeats ---------- */

  /** Requests add at least one of something. */
  predicate PositiveAdds(steps: seq<Step>) { forall k :: 0 <= k < |steps| && steps[k].Add? ==> steps[k].quantity > 0 }

  predicate Filled(items: Cart.Items) { items != map[] && forall p :: p in items ==> items[p] > 0 }

  /** Every cart, cached or stored, holds something, and no row outlives an hour from now. */
  predicate Stocked(r: Race) {
    && (r.store.cache.Some? ==> Filled(r.store.cache.value.items))
    && (forall i :: 0 <= i < |r.store.db.rows| ==>
          Filled(r.store.db.rows[i].items) && r.store.db.rows[i].expiresAt <= r.now + Cart.CART_TTL as real)
  }

  lemma {:induction false} StepKeepsStocked(r: Race, step: Step)
    requires Stocked(r) && (step.Add? ==> step.quantity > 0)
    ensures Stocked(Take(r, step))
  {
    match step
    case RunSweep(kind) => Cart.SweepTreatsEachRow(kind, r.store.db, r.now, |r.store.db.rows|);
    case _ =>
  }

  lemma {:induction false} EveryRunIsStocked(steps: seq<Step>, n: nat)
    requires n <= |steps| && PositiveAdds(steps)
    ensures Stocked(Run(Start, steps, n))
  {
    if n > 0 {
      EveryRunIsStocked(steps, n - 1);
      StepKeepsStocked(Run(Start, steps, n - 1), steps[n - 1]);
    }
  }

  /** The add opens a new cart that holds more than what it was asked to add. */
  predicate Repeats(r: Race, product: Id, quantity: int, key: string) {
    var before, after := r.store.db.rows, Take(r, Add(product, quantity, key)).store.db.rows;
    |after| > |before| && after[|before|].items != map[product := quantity]
  }

  lemma {:induction false} MergingRepeats(items: Cart.Items, product: Id, quantity: int)
    requires items == map[] || Filled(items)
    ensures Cart.MergeItem(items, product, quantity) != map[product := quantity] <==> items != map[]
  {
    var merged := Cart.MergeItem(items, product, quantity);
    if items != map[] {
      var p :| p in items;
      if p == product { assert merged[p] != quantity; } else { assert p in merged; }
    }
  }

  /** In every interleaving an add repeats the items of a closed cart exactly when its key is new, the Redis key is live
      and no row is active. */
  lemma {:induction false} AddRepeatsIff(steps: seq<Step>, n: nat, product: Id, quantity: int, key: string)
    requires n <= |steps| && PositiveAdds(steps)
    ensures var r := Run(Start, steps, n);
            Repeats(r, product, quantity, key) <==>
              key !in r.store.db.keys && Cart.ReadCache(r.store.cache, r.now).Some? && Cart.ActiveAt(r.store.db).None?
  {
    EveryRunIsStocked(steps, n);
    var r := Run(Start, steps, n);
    if key !in r.store.db.keys && Cart.ActiveAt(r.store.db).None? {
      MergingRepeats(Cart.Resolve(r.store, r.now).items, product, quantity);
    }
  }

  /** So never outside that window. */
  lemma {:induction false} NoRepeatOutsideTheWindow(steps: seq<Step>, n: nat, product: Id, quantity: int, key: string)
    requires n <= |steps| && PositiveAdds(steps) && DeletesFirst(steps, n) && NoneCommitted(Run(Start, steps, n))
    ensures !Repeats(Run(Start, steps, n), product, quantity, key)
  {
    CoherentOutsideTheWindow(steps, n);
    AddRepeatsIff(steps, n, product, quantity, key);
  }

  /* ---------- the add that is lost ---------- */

  predicate Accepted(r: Race, step: Step) { step.Add? && step.key !in r.store.db.keys }

  /** Some add was accepted after step k and before step m. */
  predicate AddBetween(steps: seq<Step>, k: nat, m: nat)
    requires m <= |steps|
  {
    m > k + 1 && (AddBetween(steps, k, m - 1) || Accepted(Run(Start, steps, m - 1), steps[m - 1]))
  }

  /** A claim that goes through, and what it announces and closes. */
  predicate Commits(r: Race, token: string, key: string) {
    && token in r.requests && r.requests[token].Resolved? && r.requests[token].items != map[]
    && key !in r.store.db.keys && Cart.ActiveAt(r.store.db).Some?
  }

  /** One request read the cart at step k and claims it at step m. */
  predicate ReadThenClaim(steps: seq<Step>, token: string, k: nat, m: nat) {
    && k < m < |steps|
    && steps[k] == Read(token) && At(Run(Start, steps, k), token, Holding)
    && steps[m].Claim? && steps[m].token == token && Commits(Run(Start, steps, m), token, steps[m].key)
  }

  /** Row i is closed, and the one event written says it held these items. */
  predicate Announces(before: Cart.Db, after: Cart.Db, i: nat, items: Cart.Items) {
    && i < |after.rows| && !after.rows[i].status.Active?
    && after.outbox == before.outbox + [Cart.CheckoutInitiated(i, items)]
  }

  /** The step at m closes the active row, and the event written carries exactly what the closed row holds. */
  predicate AnnouncesTheRow(steps: seq<Step>, m: nat)
    requires m < |steps|
  {
    var before, after := Run(Start, steps, m).store.db, Run(Start, steps, m + 1).store.db;
    && Cart.ActiveAt(before).Some? && Cart.ActiveAt(before).value < |after.rows|
    && Announces(before, after, Cart.ActiveAt(before).value, after.rows[Cart.ActiveAt(before).value].items)
  }

  /** What a claim that goes through writes: the items its request read, whatever the row holds. */
  lemma {:induction false} ClaimAnnounces(r: Race, token: string, key: string)
    requires Commits(r, token, key)
    ensures var i := Cart.ActiveAt(r.store.db).value;
            var after := Take(r, Claim(token, key)).store.db;
            && Announces(r.store.db, after, i, r.requests[token].items)
            && after.rows[i].items == r.store.db.rows[i].items
  {
  }

  lemma {:induction false} AnnouncesWhatItRead(steps: seq<Step>, token: string, m: nat)
    requires m < |steps| && steps[m].Claim? && steps[m].token == token
    requires Commits(Run(Start, steps, m), token, steps[m].key)
    ensures var r := Run(Start, steps, m);
            AnnouncesTheRow(steps, m) <==>
            r.requests[token].items == r.store.db.rows[Cart.ActiveAt(r.store.db).value].items
  {
    var r := Run(Start, steps, m);
    var i, before, after := Cart.ActiveAt(r.store.db).value, r.store.db, Run(Start, steps, m + 1).store.db;
    ClaimAnnounces(r, token, steps[m].key);
    assert after == Take(r, steps[m]).store.db;
    assert after.outbox[|before.outbox|] == Cart.CheckoutInitiated(i, r.requests[token].items);
  }

  /** The request still has what it read, or is past its claim. */
  predicate Remembers(r: Race, token: string, items: Cart.Items) {
    token in r.requests && (r.requests[token] == Resolved(items) || r.requests[token].Committed?
                            || r.requests[token].Cleared? || r.requests[token].Done?)
  }

  lemma {:induction false} StepRemembers(r: Race, step: Step, token: string, items: Cart.Items)
    requires Remembers(r, token, items)
    ensures Remembers(Take(r, step), token, items)
  {
  }

  lemma {:induction false} ReadIsRemembered(steps: seq<Step>, token: string, k: nat, j: nat)
    requires k < j <= |steps| && steps[k] == Read(token) && At(Run(Start, steps, k), token, Holding)
    ensures var read := Run(Start, steps, k);
            Remembers(Run(Start, steps, j), token, Cart.Resolve(read.store, read.now).items)
  {
    if k + 1 < j {
      ReadIsRemembered(steps, token, k, j - 1);
      var read := Run(Start, steps, k);
      StepRemembers(Run(Start, steps, j - 1), steps[j - 1], token, Cart.Resolve(read.store, read.now).items);
    }
  }

  /** A row that is active afterwards was there before, unchanged. */
  predicate KeepsRow(before: Cart.Db, after: Cart.Db) {
    Cart.ActiveAt(after).Some? ==>
      Cart.ActiveAt(before) == Cart.ActiveAt(after) && Cart.LoadDurable(before) == Cart.LoadDurable(after)
  }

  lemma {:induction false} StepKeepsRow(r: Race, step: Step)
    requires R.OneActive(r.store.db) && !Accepted(r, step)
    ensures KeepsRow(r.store.db, Take(r, step).store.db)
  {
    match step
    case RunSweep(kind) =>
      Cart.SweepTreatsEachRow(kind, r.store.db, r.now, |r.store.db.rows|);
      var after := Take(r, step).store.db;
      if Cart.ActiveAt(after).Some? { R.FoundActive(r.store.db.rows, Cart.ActiveAt(after).value); }
    case _ =>
  }

  lemma {:induction false} RowIsKept(steps: seq<Step>, k: nat, j: nat)
    requires k < j <= |steps| && steps[k].Read? && !AddBetween(steps, k, j)
    ensures KeepsRow(Run(Start, steps, k).store.db, Run(Start, steps, j).store.db)
  {
    var mid := Run(Start, steps, j - 1);
    EveryRunIsLinked(steps, j - 1);
    StepKeepsRow(mid, steps[j - 1]);
    assert Run(Start, steps, j) == Take(mid, steps[j - 1]);
    if k + 1 < j {
      RowIsKept(steps, k, j - 1);
      assert KeepsRow(Run(Start, steps, k).store.db, Run(Start, steps, j).store.db);
    }
  }

  lemma {:induction false} FindAdd(steps: seq<Step>, k: nat, m: nat) returns (j: nat)
    requires m <= |steps| && AddBetween(steps, k, m)
    ensures k < j < m && Accepted(Run(Start, steps, j), steps[j])
  {
    if Accepted(Run(Start, steps, m - 1), steps[m - 1]) { j := m - 1; } else { j := FindAdd(steps, k, m - 1); }
  }

  /** What a read of an active cart returns: its row's items, or nothing once the row has run out. */
  lemma {:induction false} ReadOfActive(s: Cart.Store, now: real)
    requires Linked(s, now) && Cart.LoadDurable(s.db).Some?
    ensures var row := Cart.LoadDurable(s.db).value;
            Cart.Resolve(s, now).items == if now < row.expiresAt then row.items else map[]
  {
  }

  lemma {:induction false} ClaimsWhatItRead(read: Race, r: Race, token: string, key: string)
    requires Linked(read.store, read.now) && KeepsRow(read.store.db, r.store.db) && Commits(r, token, key)
    requires Remembers(r, token, Cart.Resolve(read.store, read.now).items)
    ensures r.requests[token].items == r.store.db.rows[Cart.ActiveAt(r.store.db).value].items
  {
    ReadOfActive(read.store, read.now);
  }

  /** With no add accepted between its read and its claim, a checkout announces exactly what the row it closes holds. */
  lemma {:induction false} NoAddNoLoss(steps: seq<Step>, token: string, k: nat, m: nat)
    requires ReadThenClaim(steps, token, k, m) && !AddBetween(steps, k, m)
    ensures AnnouncesTheRow(steps, m)
  {
    AnnouncesWhatItRead(steps, token, m);
    ReadIsRemembered(steps, token, k, m);
    EveryRunIsLinked(steps, k);
    RowIsKept(steps, k, m);
    ClaimsWhatItRead(Run(Start, steps, k), Run(Start, steps, m), token, steps[m].key);
  }

  function Units(items: Cart.Items, p: Id): int { if p in items then items[p] else 0 }

  lemma {:induction false} ClosedStaysClosed(r: Race, step: Step, i: nat)
    requires i < |r.store.db.rows| && !r.store.db.rows[i].status.Active?
    ensures i < |Take(r, step).store.db.rows| && !Take(r, step).store.db.rows[i].status.Active?
  {
    match step
    case RunSweep(kind) => Cart.SweepTreatsEachRow(kind, r.store.db, r.now, |r.store.db.rows|);
    case _ =>
  }

  predicate Open(r: Race, i: nat) { i < |r.store.db.rows| && r.store.db.rows[i].status.Active? }

  lemma {:induction false} WasOpen(steps: seq<Step>, k: nat, j: nat, i: nat)
    requires k <= j <= |steps| && i < |Run(Start, steps, k).store.db.rows| && Open(Run(Start, steps, j), i)
    ensures Open(Run(Start, steps, k), i)
  {
    if !Open(Run(Start, steps, k), i) {
      ClosedSince(steps, k, j, i);
      assert false;
    }
  }

  lemma {:induction false} ClosedSince(steps: seq<Step>, k: nat, j: nat, i: nat)
    requires k <= j <= |steps| && i < |Run(Start, steps, k).store.db.rows| && !Open(Run(Start, steps, k), i)
    ensures i < |Run(Start, steps, j).store.db.rows| && !Open(Run(Start, steps, j), i)
  {
    if k < j {
      ClosedSince(steps, k, j - 1, i);
      ClosedStaysClosed(Run(Start, steps, j - 1), steps[j - 1], i);
    }
  }

  /** A cart that is open and has not run out only gains: more of what an accepted add names, no less of the rest. */
  lemma {:induction false} OpenCartGains(r: Race, step: Step, i: nat, p: Id)
    requires Linked(r.store, r.now) && Stocked(r) && (step.Add? ==> step.quantity > 0)
    requires i < |r.store.db.rows| && r.store.db.rows[i].status.Active? && r.now < r.store.db.rows[i].expiresAt
    requires var after := Take(r, step).store.db.rows; i < |after| && after[i].status.Active?
    ensures var before, after := r.store.db.rows[i], Take(r, step).store.db.rows[i];
            && before.expiresAt <= after.expiresAt
            && Units(before.items, p) <= Units(after.items, p)
            && (Accepted(r, step) && step.product == p ==> Units(before.items, p) < Units(after.items, p))
  {
    R.FoundActive(r.store.db.rows, i);
    if Accepted(r, step) {
      ReadOfActive(r.store, r.now);
    } else {
      StepKeepsRow(r, step);
      StepKeepsLinked(r, step);
      R.FoundActive(Take(r, step).store.db.rows, i);
    }
  }

  /** Row i of b has at least what it had in a, and no less time. */
  predicate Gained(a: Race, b: Race, i: nat, p: Id) {
    && i < |a.store.db.rows| && i < |b.store.db.rows|
    && a.store.db.rows[i].expiresAt <= b.store.db.rows[i].expiresAt
    && Units(a.store.db.rows[i].items, p) <= Units(b.store.db.rows[i].items, p)
  }

  lemma {:induction false} GainsOnce(a: Race, mid: Race, step: Step, i: nat, p: Id)
    requires Gained(a, mid, i, p) && Open(mid, i) && Open(Take(mid, step), i)
    requires Linked(mid.store, mid.now) && Stocked(mid) && (step.Add? ==> step.quantity > 0)
    requires mid.now < a.store.db.rows[i].expiresAt
    ensures Gained(a, Take(mid, step), i, p)
  {
    OpenCartGains(mid, step, i, p);
  }

  /** From step k to step j, while row i stays open within the life it had at k. */
  lemma {:induction false} GainsBetween(steps: seq<Step>, k: nat, j: nat, i: nat, p: Id)
    requires k <= j <= |steps| && PositiveAdds(steps)
    requires Open(Run(Start, steps, k), i) && Open(Run(Start, steps, j), i)
    requires Run(Start, steps, j).now < Run(Start, steps, k).store.db.rows[i].expiresAt
    ensures Gained(Run(Start, steps, k), Run(Start, steps, j), i, p)
  {
    if k < j {
      OpenBetween(steps, k, j - 1, j, i);
      ClockOnlyAdvances(Start, steps, j - 1, j);
      GainsBetween(steps, k, j - 1, i, p);
      EveryRunIsLinked(steps, j - 1);
      EveryRunIsStocked(steps, j - 1);
      GainsOnce(Run(Start, steps, k), Run(Start, steps, j - 1), steps[j - 1], i, p);
    }
  }

  lemma {:induction false} OpenBetween(steps: seq<Step>, k: nat, j: nat, m: nat, i: nat)
    requires k <= j <= m <= |steps| && Open(Run(Start, steps, k), i) && Open(Run(Start, steps, m), i)
    ensures Open(Run(Start, steps, j), i)
  {
    RowsOnlyGrow(steps, k, j);
    WasOpen(steps, j, m, i);
  }

  lemma {:induction false} StepKeepsRows(r: Race, step: Step)
    ensures |r.store.db.rows| <= |Take(r, step).store.db.rows|
  {
    match step
    case RunSweep(kind) => Cart.SweepTreatsEachRow(kind, r.store.db, r.now, |r.store.db.rows|);
    case _ =>
  }

  lemma {:induction false} RowsOnlyGrow(steps: seq<Step>, k: nat, j: nat)
    requires k <= j <= |steps|
    ensures |Run(Start, steps, k).store.db.rows| <= |Run(Start, steps, j).store.db.rows|
  {
    if k < j {
      RowsOnlyGrow(steps, k, j - 1);
      StepKeepsRows(Run(Start, steps, j - 1), steps[j - 1]);
    }
  }

  lemma {:induction false} AddMakesADifference(steps: seq<Step>, k: nat, j: nat, m: nat, i: nat)
    requires k <= j < m <= |steps| && PositiveAdds(steps)
    requires Open(Run(Start, steps, k), i) && Open(Run(Start, steps, m), i)
    requires Run(Start, steps, m).now < Run(Start, steps, k).store.db.rows[i].expiresAt
    requires Accepted(Run(Start, steps, j), steps[j])
    ensures Run(Start, steps, k).store.db.rows[i].items != Run(Start, steps, m).store.db.rows[i].items
  {
    var p := steps[j].product;
    OpenBetween(steps, k, j, m, i);
    OpenBetween(steps, k, j + 1, m, i);
    ClockOnlyAdvances(Start, steps, j, m);
    ClockOnlyAdvances(Start, steps, j + 1, m);
    GainsBetween(steps, k, j, i, p);
    EveryRunIsLinked(steps, j);
    EveryRunIsStocked(steps, j);
    OpenCartGains(Run(Start, steps, j), steps[j], i, p);
    GainsBetween(steps, j + 1, m, i, p);
  }

  /** A request that closes the very cart it read, before that cart would have run out, announces what it read; that is
      what the closed row holds exactly when no add was accepted in between. Otherwise the add is closed unannounced. */
  lemma {:induction false} AnnouncesTheRowIff(steps: seq<Step>, token: string, k: nat, m: nat)
    requires ReadThenClaim(steps, token, k, m) && PositiveAdds(steps)
    requires var before, after := Run(Start, steps, k), Run(Start, steps, m);
             && Cart.ActiveAt(before.store.db) == Cart.ActiveAt(after.store.db)
             && after.now < before.store.db.rows[Cart.ActiveAt(after.store.db).value].expiresAt
    ensures AnnouncesTheRow(steps, m) <==> !AddBetween(steps, k, m)
    ensures var read, before := Run(Start, steps, k), Run(Start, steps, m).store.db;
            Announces(before, Run(Start, steps, m + 1).store.db, Cart.ActiveAt(before).value,
                      Cart.Resolve(read.store, read.now).items)
  {
    ReadIsRemembered(steps, token, k, m);
    ClaimAnnounces(Run(Start, steps, m), token, steps[m].key);
    if AddBetween(steps, k, m) {
      AnnouncesWhatItRead(steps, token, m);
      var j := FindAdd(steps, k, m);
      var i := Cart.ActiveAt(Run(Start, steps, m).store.db).value;
      EveryRunIsLinked(steps, k);
      ClockOnlyAdvances(Start, steps, k, m);
      ReadOfActive(Run(Start, steps, k).store, Run(Start, steps, k).now);
      AddMakesADifference(steps, k, j, m, i);
    } else {
      NoAddNoLoss(steps, token, k, m);
    }
  }

  const Both: Cart.Items := map["p" := 1, "q" := 1]

  const LateAdd := [Add("p", 1, "k1"), Begin("t"), Read("t"), Add("q", 1, "k2"), Claim("t", "k3"), DeleteKey("t"),
                    Finish("t")]

  lemma {:induction false} ReadBeforeTheLateAdd()
    ensures var r := Run(Start, LateAdd, 3);
            && r.requests == map["t" := Resolved(OneItem)] && r.now == 0.0
            && r.store == Cart.Store(Cart.Db([Cart.CartRow(OneItem, Cart.Active, 3600.0, 0.0)], {"k1"}, []),
                                     Some(Cart.Cached(OneItem, 3600.0)))
  {
    assert Run(Start, LateAdd, 0) == Start;
    var s1 := Run(Start, LateAdd, 1);
    assert s1.store.db.rows == [Cart.CartRow(OneItem, Cart.Active, 3600.0, 0.0)];
    var s2 := Run(Start, LateAdd, 2);
    assert s2 == s1.(lock := Some(Lock("t", 10.0)), requests := map["t" := Holding]);
  }

  /** At its smallest: q is added after the read and before the claim, closed with the cart, and never announced. */
  lemma {:induction false} AddBeforeTheClaimIsLost()
    ensures var r := Run(Start, LateAdd, 7);
            && r.store.db.outbox == [Cart.CheckoutInitiated(0, OneItem)]
            && |r.store.db.rows| == 1 && r.store.db.rows[0].items == Both
            && Cart.ActiveAt(r.store.db).None? && r.store.cache.None?
  {
    ReadBeforeTheLateAdd();
    var s4 := Run(Start, LateAdd, 4);
    assert Cart.MergeItem(OneItem, "q", 1) == Both;
    assert s4.store.db == Cart.Db([Cart.CartRow(Both, Cart.Active, 3600.0, 0.0)], {"k1", "k2"}, []);
    assert s4.requests == map["t" := Resolved(OneItem)];
    var s5 := Run(Start, LateAdd, 5);
    assert s5.store.db.outbox == [Cart.CheckoutInitiated(0, OneItem)];
    assert s5.store.db.rows == [Cart.CartRow(Both, Cart.CheckoutInProgress, 3600.0, 0.0)];
    var s6 := Run(Start, LateAdd, 6);
    assert s6.store == s5.store.(cache := None);
  }
}
