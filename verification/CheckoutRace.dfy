/** Concurrent checkouts of one user's cart: the Redis lock with its TTL (checkout_lock), and the stages of
    checkout_cart interleaved with everything else that touches the cart. */
module CheckoutRace {
  import opened Basics
  import Cart

  /* ---------- the lock ---------- */

  const LOCK_TTL := 10.0

  datatype Lock = Lock(token: string, expiresAt: real)

  function Owner(lock: Option<Lock>, now: real): Option<string> {
    if lock.Some? && now < lock.value.expiresAt then Some(lock.value.token) else None
  }

  function Acquired(lock: Option<Lock>, token: string, now: real): Option<Lock> {
    if Owner(lock, now).Some? then lock else Some(Lock(token, now + LOCK_TTL))
  }

  function Released(lock: Option<Lock>, token: string, now: real): Option<Lock> {
    if Owner(lock, now) == Some(token) then None else lock
  }

  class RedisLock {
    var lock: Option<Lock>

    /** SET NX EX. */
    method Acquire(token: string, now: real) returns (ok: bool)
      modifies this
      ensures lock == Acquired(old(lock), token, now)
      ensures ok <==> Owner(old(lock), now).None?
      ensures ok ==> Owner(lock, now) == Some(token)
    {
      ok := lock.None? || lock.value.expiresAt <= now;
      if ok { lock := Some(Lock(token, now + LOCK_TTL)); }
    }

    /** Compare-and-delete: a lock held under another token survives. */
    method Release(token: string, now: real) returns (deleted: int)
      modifies this
      ensures lock == Released(old(lock), token, now)
      ensures deleted == 1 <==> Owner(old(lock), now) == Some(token)
      ensures Owner(old(lock), now).Some? && Owner(old(lock), now) != Some(token) ==>
                Owner(lock, now) == Owner(old(lock), now)
    {
      deleted := 0;
      if lock.Some? && now < lock.value.expiresAt && lock.value.token == token {
        lock := None;
        deleted := 1;
      }
    }
  }

  /* ---------- the race ---------- */

  /** How far one checkout request has come. */
  datatype Stage = Holding | Resolved(items: Cart.Items) | Committed | Cleared | Done

  datatype Race = Race(store: Cart.Store, lock: Option<Lock>, requests: map<string, Stage>, now: real)

  datatype Step =
    | Begin(token: string)
    | Read(token: string)
    | Claim(token: string, key: string)
    | DeleteKey(token: string)
    | Finish(token: string)
    | Add(product: Id, quantity: int, key: string)
    | Get
    | RunSweep(kind: Cart.SweepKind)
    | Evict
    | Tick(seconds: real)

  predicate At(r: Race, token: string, stage: Stage) { token in r.requests && r.requests[token] == stage }

  /** Tokens are fresh uuids, so a token that was used begins nothing. */
  function Take(r: Race, step: Step): Race {
    match step
    case Begin(token) =>
      if token in r.requests then r
      else if Owner(r.lock, r.now).Some? then r.(requests := r.requests[token := Done])
      else r.(lock := Acquired(r.lock, token, r.now), requests := r.requests[token := Holding])
    case Read(token) =>
      if At(r, token, Holding)
      then r.(requests := r.requests[token := Resolved(Cart.Resolve(r.store, r.now).items)]) else r
    case Claim(token, key) =>
      if token !in r.requests || !r.requests[token].Resolved? then r
      else
        var items, db := r.requests[token].items, r.store.db;
        if items == map[] || key in db.keys || Cart.ActiveAt(db).None?
        then r.(requests := r.requests[token := Cleared])
        else r.(store := r.store.(db := Cart.ClaimCheckout(db, Cart.ActiveAt(db).value, items, key, r.now)),
                requests := r.requests[token := Committed])
    case DeleteKey(token) =>
      if At(r, token, Committed)
      then r.(store := r.store.(cache := None), requests := r.requests[token := Cleared]) else r
    case Finish(token) =>
      if token in r.requests && !r.requests[token].Done?
      then r.(lock := Released(r.lock, token, r.now), requests := r.requests[token := Done]) else r
    case Add(product, quantity, key) => r.(store := Cart.AddToCart(r.store, product, quantity, key, r.now).store)
    case Get => r.(store := Cart.GetCart(r.store, r.now).store)
    case RunSweep(kind) => r.(store := r.store.(db := Cart.Sweep(kind, r.store.db, r.now)))
    case Evict => r.(store := r.store.(cache := None))
    case Tick(seconds) => if seconds >= 0.0 then r.(now := r.now + seconds) else r
  }

  function Run(r: Race, steps: seq<Step>, n: nat): Race
    requires n <= |steps|
  {
    if n == 0 then r else Take(Run(r, steps, n - 1), steps[n - 1])
  }

  /* ---------- one event per cart row ---------- */

  predicate AtMostOnce(db: Cart.Db) {
    forall j, k :: 0 <= j < k < |db.outbox| && db.outbox[j].CheckoutInitiated? && db.outbox[k].CheckoutInitiated? ==>
      db.outbox[j].cart != db.outbox[k].cart
  }

  /** A row that was announced exists and has left the active state for good. */
  predicate AnnouncedAreClosed(db: Cart.Db) {
    forall k :: 0 <= k < |db.outbox| && db.outbox[k].CheckoutInitiated? ==>
      db.outbox[k].cart < |db.rows| && !db.rows[db.outbox[k].cart].status.Active?
  }

  predicate Sound(db: Cart.Db) { AtMostOnce(db) && AnnouncedAreClosed(db) }

  /** No new announcement, no row lost, and no row returns to active. */
  predicate Quiet(a: Cart.Db, b: Cart.Db) {
    && |a.rows| <= |b.rows|
    && (forall i :: 0 <= i < |a.rows| && !a.rows[i].status.Active? ==> !b.rows[i].status.Active?)
    && |a.outbox| <= |b.outbox|
    && (forall k :: 0 <= k < |a.outbox| ==> b.outbox[k] == a.outbox[k])
    && (forall k :: |a.outbox| <= k < |b.outbox| ==> !b.outbox[k].CheckoutInitiated?)
  }

  lemma {:induction false} QuietKeepsSound(a: Cart.Db, b: Cart.Db)
    requires Sound(a) && Quiet(a, b)
    ensures Sound(b)
  {
    forall k | 0 <= k < |b.outbox| && b.outbox[k].CheckoutInitiated?
      ensures b.outbox[k].cart < |b.rows| && !b.rows[b.outbox[k].cart].status.Active?
    {
      assert k < |a.outbox| && b.outbox[k] == a.outbox[k];
    }
  }

  lemma {:induction false} SweepIsQuiet(kind: Cart.SweepKind, db: Cart.Db, now: real, n: nat)
    requires n <= |db.rows|
    ensures Quiet(db, Cart.SweepFirst(kind, db, now, n))
  {
    if n > 0 {
      SweepIsQuiet(kind, db, now, n - 1);
      Cart.SweepTreatsEachRow(kind, db, now, n - 1);
    }
  }

  lemma {:induction false} ClaimKeepsSound(db: Cart.Db, i: nat, items: Cart.Items, key: string, now: real)
    requires Sound(db) && i < |db.rows| && db.rows[i].status.Active?
    ensures Sound(Cart.ClaimCheckout(db, i, items, key, now))
  {
  }

  lemma {:induction false} StepKeepsSound(r: Race, step: Step)
    requires Sound(r.store.db)
    ensures Sound(Take(r, step).store.db)
  {
    var after := Take(r, step).store.db;
    match step
    case Claim(token, key) =>
      if token in r.requests && r.requests[token].Resolved? && Cart.ActiveAt(r.store.db).Some? {
        ClaimKeepsSound(r.store.db, Cart.ActiveAt(r.store.db).value, r.requests[token].items, key, r.now);
      }
    case RunSweep(kind) =>
      SweepIsQuiet(kind, r.store.db, r.now, |r.store.db.rows|);
      QuietKeepsSound(r.store.db, after);
    case Add(_, _, _) => QuietKeepsSound(r.store.db, after);
    case _ =>
  }

  const Start := Race(Cart.Store(Cart.Db([], {}, []), None), None, map[], 0.0)

  /** However requests interleave and wherever the lock's TTL lapses, a cart row is checked out at most once. */
  lemma {:induction false} NoDoubleCheckout(steps: seq<Step>, n: nat)
    requires n <= |steps|
    ensures Sound(Run(Start, steps, n).store.db)
  {
    if n > 0 {
      NoDoubleCheckout(steps, n - 1);
      StepKeepsSound(Run(Start, steps, n - 1), steps[n - 1]);
    }
  }

  lemma {:induction false} KeysStaySpent(r: Race, steps: seq<Step>, n: nat, key: string)
    requires n <= |steps| && key in r.store.db.keys
    ensures key in Run(r, steps, n).store.db.keys
  {
    if n > 0 {
      KeysStaySpent(r, steps, n - 1, key);
      var u := Run(r, steps, n - 1);
      if steps[n - 1].RunSweep? {
        Cart.SweepTreatsEachRow(steps[n - 1].kind, u.store.db, u.now, |u.store.db.rows|);
      }
    }
  }

  /** Under one idempotency key a checkout is committed at most once, whatever happens in between and whoever repeats
      it. */
  lemma {:induction false} OneCheckoutPerKey(r: Race, token: string, key: string, steps: seq<Step>, n: nat,
                                             again: string)
    requires n <= |steps| && Take(r, Claim(token, key)).store != r.store
    ensures var later := Run(Take(r, Claim(token, key)), steps, n); Take(later, Claim(again, key)).store == later.store
  {
    KeysStaySpent(Take(r, Claim(token, key)), steps, n, key);
  }

  /* ---------- mutual exclusion within the TTL ---------- */

  /** The request's lock is the live one. */
  predicate Holds(r: Race, token: string, expiry: real) {
    r.lock == Some(Lock(token, expiry)) && token in r.requests
  }

  /** While a holder is within its TTL and unfinished, the lock stays its own and every newcomer is turned away. */
  lemma {:induction false} HolderExcludesOthers(r: Race, token: string, expiry: real, steps: seq<Step>, n: nat)
    requires n <= |steps| && Holds(r, token, expiry)
    requires forall k :: 0 <= k < n ==> steps[k] != Finish(token)
    requires Run(r, steps, n).now < expiry
    ensures Holds(Run(r, steps, n), token, expiry)
    ensures forall other :: other !in Run(r, steps, n).requests ==>
              Take(Run(r, steps, n), Begin(other)).requests[other] == Done
  {
    if n > 0 {
      ClockOnlyAdvances(r, steps, n - 1, n);
      HolderExcludesOthers(r, token, expiry, steps, n - 1);
    }
  }

  lemma {:induction false} ClockOnlyAdvances(r: Race, steps: seq<Step>, m: nat, n: nat)
    requires m <= n <= |steps|
    ensures Run(r, steps, m).now <= Run(r, steps, n).now
  {
    if m < n { ClockOnlyAdvances(r, steps, m, n - 1); }
  }

  /** A checkout that begins while nobody holds the lock keeps every newcomer out for ten seconds, unless it ends. */
  lemma {:induction false} BeginningLocksForTenSeconds(r: Race, token: string, steps: seq<Step>, n: nat, other: string)
    requires n <= |steps| && token !in r.requests && Owner(r.lock, r.now).None?
    requires forall k :: 0 <= k < n ==> steps[k] != Finish(token)
    requires var later := Run(Take(r, Begin(token)), steps, n); later.now < r.now + 10.0 && other !in later.requests
    ensures Take(r, Begin(token)).requests[token] == Holding
    ensures var later := Run(Take(r, Begin(token)), steps, n); Take(later, Begin(other)).requests[other] == Done
  {
    HolderExcludesOthers(Take(r, Begin(token)), token, r.now + 10.0, steps, n);
  }

  lemma {:induction false} LockLapsesNext(r: Race, step: Step)
    requires r.lock.Some? ==> r.lock.value.expiresAt <= r.now + 10.0
    ensures var after := Take(r, step); after.lock.Some? ==> after.lock.value.expiresAt <= after.now + 10.0
  {
    if step.Begin? || step.Finish? || step.Tick? {
    } else {
      assert Take(r, step).lock == r.lock && Take(r, step).now == r.now;
    }
  }

  lemma {:induction false} LocksLapse(steps: seq<Step>, n: nat)
    requires n <= |steps|
    ensures var r := Run(Start, steps, n); r.lock.Some? ==> r.lock.value.expiresAt <= r.now + 10.0
  {
    if n > 0 {
      LocksLapse(steps, n - 1);
      LockLapsesNext(Run(Start, steps, n - 1), steps[n - 1]);
    }
  }

  /** And no lock outlives that: ten seconds after any run a new checkout gets through, whoever never finished. */
  lemma {:induction false} NobodyIsLockedOutForLong(steps: seq<Step>, seconds: real, token: string)
    requires seconds >= 10.0 && token !in Run(Start, steps, |steps|).requests
    ensures var later := Take(Run(Start, steps, |steps|), Tick(seconds));
            Take(later, Begin(token)).requests[token] == Holding
  {
    LocksLapse(steps, |steps|);
  }

  /** Ending a checkout that holds the lock frees it at once. */
  lemma {:induction false} FinishingFreesTheLock(r: Race, token: string, other: string)
    requires token in r.requests && !r.requests[token].Done? && Owner(r.lock, r.now) == Some(token)
    requires other !in r.requests
    ensures Take(Take(r, Finish(token)), Begin(other)).requests[other] == Holding
  {
  }

  /** Finishing frees only one's own lock: another owner's stays exactly as it was. */
  lemma {:induction false} FinishSparesOtherOwners(r: Race, token: string)
    requires Owner(r.lock, r.now).Some? && Owner(r.lock, r.now) != Some(token)
    ensures Take(r, Finish(token)).lock == r.lock
  {
  }

  /* ---------- what the lock does not cover ---------- */

  /** An add between the commit and the deletion of the Redis key starts the next cart with the items just checked
      out: the new active row holds them again, ready for a second checkout. */
  lemma {:induction false} AddBeforeKeyDeletionRepeatsItems(r: Race, product: Id, quantity: int, key: string)
    requires Cart.ReadCache(r.store.cache, r.now).Some?
    requires Cart.ActiveAt(r.store.db).None? && key !in r.store.db.keys
    ensures var after := Take(r, Add(product, quantity, key)).store;
            var repeated := Cart.ReadCache(r.store.cache, r.now).value;
            && Cart.LoadDurable(after.db).Some?
            && Cart.LoadDurable(after.db).value.items == Cart.MergeItem(repeated, product, quantity)
            && Cart.LoadDurable(after.db).value.expiresAt > r.now
  {
  }

  const OneItem: Cart.Items := map["p" := 1]

  /** That window is reached: one add, one checkout up to its commit. */
  lemma {:induction false} KeyOutlivesTheCommit()
    ensures var steps := [Add("p", 1, "k1"), Begin("t1"), Read("t1"), Claim("t1", "k2")];
            var r := Run(Start, steps, 4);
            && At(r, "t1", Committed)
            && r.store.db.outbox == [Cart.CheckoutInitiated(0, OneItem)]
            && Cart.ReadCache(r.store.cache, r.now) == Some(OneItem)
            && Cart.ActiveAt(r.store.db).None?
  {
    var steps := [Add("p", 1, "k1"), Begin("t1"), Read("t1"), Claim("t1", "k2")];
    var row := Cart.CartRow(OneItem, Cart.Active, 3600.0, 0.0);
    var s1 := Run(Start, steps, 1);
    assert s1.store == Cart.Store(Cart.Db([row], {"k1"}, []), Some(Cart.Cached(OneItem, 3600.0)));
    var s2 := Run(Start, steps, 2);
    assert s2 == s1.(lock := Some(Lock("t1", 10.0)), requests := map["t1" := Holding]);
    var s3 := Run(Start, steps, 3);
    assert s3 == s2.(requests := map["t1" := Resolved(OneItem)]);
  }
}
