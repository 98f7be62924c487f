/** What the seller orders of a split are, told from the fields of the payload's entries alone. */
module Payload {
  import opened Basics
  import opened Ordering
  import opened Sequences
  import opened OrderLines

  /** An entry somebody can be asked to ship and be paid for. */
  predicate Sound(e: Entry) {
    && e.Line? && e.seller != "" && e.product != ""
    && (e.quantity.Whole? || e.quantity.Coercible?) && e.quantity.n > 0
    && e.lineTotal.Some? && e.lineTotal.value >= 0 && e.price.Some?
  }

  /** One for each entry that says exactly what this line says. */
  function Copies(l: SplitLine): Entry -> int {
    (e: Entry) =>
      if && e.Line? && e.seller == l.seller && e.product == l.product
         && (e.quantity == Whole(l.quantity) || e.quantity == Coercible(l.quantity))
         && e.price == Some(l.price) && e.lineTotal == Some(l.lineTotal)
      then 1 else 0
  }

  /** What the entries of one seller come to. */
  function GoodsOf(seller: Id): Entry -> int {
    (e: Entry) => if e.Line? && e.seller == seller && e.lineTotal.Some? then e.lineTotal.value else 0
  }

  function Goods(): Entry -> int { (e: Entry) => if e.Line? && e.lineTotal.Some? then e.lineTotal.value else 0 }

  function SellersIn(entries: seq<Entry>): set<Id> { set e | e in entries && e.Line? :: e.seller }

  function ProductsFrom(entries: seq<Entry>, seller: Id): set<Id> {
    set e | e in entries && e.Line? && e.seller == seller :: e.product
  }

  /* ---------- which payloads are accepted ---------- */

  function LineOf(e: Entry): SplitLine
    requires Sound(e)
  {
    SplitLine(e.seller, e.product, e.quantity.n, e.price.value, e.lineTotal.value)
  }

  lemma {:induction false} SoundIsParsed(e: Entry)
    requires e.Line?
    ensures ParseLine(e).Some? <==> Sound(e)
    ensures Sound(e) ==> ParseLine(e).value == LineOf(e)
  {
  }

  lemma {:induction false} ParsedIff(entries: seq<Entry>, n: nat)
    requires n <= |entries|
    ensures Parsed(entries, n).Some? <==> forall i :: 0 <= i < n && entries[i].Line? ==> Sound(entries[i])
    ensures Parsed(entries, n).Some? ==>
              (Parsed(entries, n).value == [] <==> forall i :: 0 <= i < n ==> entries[i].NotObject?)
  {
    if n > 0 {
      ParsedIff(entries, n - 1);
      if entries[n - 1].Line? { SoundIsParsed(entries[n - 1]); }
    }
  }

  /** A payload is split if and only if some entry is an object and every object is sound. */
  lemma {:induction false} AcceptedIff(entries: seq<Entry>)
    ensures Split(entries).Some? <==>
              && (exists i :: 0 <= i < |entries| && entries[i].Line?)
              && (forall i :: 0 <= i < |entries| && entries[i].Line? ==> Sound(entries[i]))
  {
    ParsedIff(entries, |entries|);
  }

  /* ---------- what each seller order holds ---------- */

  lemma {:induction false} CopiesAreParsed(entries: seq<Entry>, l: SplitLine)
    requires Parsed(entries, |entries|).Some?
    ensures multiset(Parsed(entries, |entries|).value)[l] == Sum(entries, Copies(l))
  {
    ParsedIff(entries, |entries|);
    ParsedCounts(entries, |entries|, l);
    assert entries[..|entries|] == entries;
    forall e | e in entries ensures Yields(l)(e) == Copies(l)(e) {
      if e.Line? { SoundIsParsed(e); }
    }
    SumAgrees(entries, Yields(l), Copies(l));
  }

  function OwnTotal(seller: Id): SplitLine -> int { (l: SplitLine) => if l.seller == seller then l.lineTotal else 0 }

  lemma {:induction false} FilteredTotal(lines: seq<SplitLine>, seller: Id)
    ensures Sum(Filter(lines, SoldBy(seller)), Totals()) == Sum(lines, OwnTotal(seller))
  {
    if lines != [] {
      var n := |lines| - 1;
      FilteredTotal(lines[..n], seller);
      var front := Filter(lines[..n], SoldBy(seller));
      if lines[n].seller == seller {
        SumOneMore(front, lines[n], Totals());
      } else {
        assert Filter(lines, SoldBy(seller)) == front;
      }
    }
  }

  /** A sum over the parsed lines is the same sum over the entries. */
  lemma {:induction false} ParsedSum(entries: seq<Entry>, n: nat, f: SplitLine -> int, g: Entry -> int)
    requires n <= |entries| && Parsed(entries, n).Some?
    requires forall e: Entry :: Sound(e) ==> g(e) == f(LineOf(e))
    requires g(NotObject) == 0
    ensures Sum(Parsed(entries, n).value, f) == Sum(entries[..n], g)
  {
    if n > 0 {
      ParsedSum(entries, n - 1, f, g);
      var before, e := Parsed(entries, n - 1).value, entries[n - 1];
      assert entries[..n] == entries[..n - 1] + [e];
      SumOneMore(entries[..n - 1], e, g);
      if e.Line? {
        SoundIsParsed(e);
        SumOneMore(before, LineOf(e), f);
        assert Parsed(entries, n).value == before + [LineOf(e)];
      }
    }
  }

  lemma {:induction false} ParsedSellers(entries: seq<Entry>, n: nat)
    requires n <= |entries| && Parsed(entries, n).Some?
    ensures SellersOf(Parsed(entries, n).value) == SellersIn(entries[..n])
  {
    if n > 0 {
      ParsedSellers(entries, n - 1);
      var before, e := Parsed(entries, n - 1).value, entries[n - 1];
      assert entries[..n] == entries[..n - 1] + [e];
      if e.Line? {
        SoundIsParsed(e);
        assert SellersOf(before + [ParseLine(e).value]) == SellersOf(before) + {e.seller};
        assert SellersIn(entries[..n]) == SellersIn(entries[..n - 1]) + {e.seller};
      } else {
        assert SellersIn(entries[..n]) == SellersIn(entries[..n - 1]);
      }
    }
  }

  /** The plan is the seller's share of the payload: its lines, copy for copy, and what they come to. */
  ghost predicate Shares(plan: SellerPlan, entries: seq<Entry>) {
    && plan.subtotal == Sum(entries, GoodsOf(plan.seller))
    && forall l :: multiset(plan.lines)[l] == if l.seller == plan.seller then Sum(entries, Copies(l)) else 0
  }

  lemma {:induction false} PlanSharesThePayload(entries: seq<Entry>, seller: Id)
    requires Parsed(entries, |entries|).Some?
    ensures Shares(PlanFor(seller, Parsed(entries, |entries|).value), entries)
  {
    var lines := Parsed(entries, |entries|).value;
    var own := Filter(lines, SoldBy(seller));
    var plan := PlanFor(seller, lines);
    SortLinesIsPermutation(own);
    SumIsOrderFree(plan.lines, own, Totals());
    FilteredTotal(lines, seller);
    ParsedSum(entries, |entries|, OwnTotal(seller), GoodsOf(seller));
    assert entries[..|entries|] == entries;
    forall l ensures multiset(plan.lines)[l] == if l.seller == seller then Sum(entries, Copies(l)) else 0 {
      FilterCounts(lines, SoldBy(seller), l);
      CopiesAreParsed(entries, l);
    }
  }

  lemma {:induction false} SellersOfPlans(sellers: seq<Id>, lines: seq<SplitLine>)
    ensures var plans := PlansFor(sellers, lines);
            forall s :: s in sellers <==> exists i :: 0 <= i < |plans| && plans[i].seller == s
  {
    var plans := PlansFor(sellers, lines);
    forall s ensures s in sellers <==> exists i :: 0 <= i < |plans| && plans[i].seller == s {
      if s in sellers {
        var i :| 0 <= i < |sellers| && sellers[i] == s;
        assert plans[i].seller == s;
      }
    }
  }

  lemma {:induction false} SellersAreListed(entries: seq<Entry>)
    requires Split(entries).Some?
    ensures var plans := Split(entries).value;
            forall s :: s in SellersIn(entries) <==> exists i :: 0 <= i < |plans| && plans[i].seller == s
  {
    var plans, lines := Split(entries).value, Parsed(entries, |entries|).value;
    var sellers := SortIds(SellersOf(lines));
    assert entries[..|entries|] == entries;
    ParsedSellers(entries, |entries|);
    SortIdsLists(SellersOf(lines));
    SellersOfPlans(sellers, lines);
  }

  /** For every accepted payload: one seller order per seller named in it, in strict seller order, each with exactly
      that seller's lines and worth exactly their line totals; together they are worth all of them. */
  lemma {:induction false} SplitTellsThePayload(entries: seq<Entry>)
    requires Split(entries).Some?
    ensures var plans := Split(entries).value;
            && (forall s :: s in SellersIn(entries) <==> exists i :: 0 <= i < |plans| && plans[i].seller == s)
            && (forall i, j :: 0 <= i < j < |plans| ==> Less(plans[i].seller, plans[j].seller))
            && (forall i :: 0 <= i < |plans| ==> Shares(plans[i], entries))
            && GoodsSubtotal(plans) == Sum(entries, Goods())
  {
    var plans, lines := Split(entries).value, Parsed(entries, |entries|).value;
    var sellers := SortIds(SellersOf(lines));
    assert entries[..|entries|] == entries;
    SellersAreListed(entries);
    SplitIsSorted(entries);
    forall i | 0 <= i < |plans| ensures Shares(plans[i], entries) { PlanSharesThePayload(entries, sellers[i]); }
    SplitConserves(entries);
    ParsedSum(entries, |entries|, Totals(), Goods());
  }

  /* ---------- what the planner makes of it ---------- */

  /** An entry that stock can be asked for. */
  predicate Plannable(e: Entry) {
    e.Line? && e.product != "" && (e.quantity.Absent? || (e.quantity.Whole? && e.quantity.n > 0))
  }

  /** What an entry asks for of a product; one, when it does not say how many. */
  function UnitsWanted(product: Id): Entry -> int {
    (e: Entry) =>
      if !e.Line? || e.product != product then 0
      else match e.quantity
           case Whole(n) => n
           case _ => 1
  }

  /** The fault the planner names, when it is the first. */
  predicate NamesTheFault(e: Entry, error: PlanError) {
    match error
    case EmptyItemsPayload => false
    case MalformedItem => e.NotObject?
    case ItemMissingProductId => e.Line? && e.product == ""
    case NonIntegerQuantity => e.Line? && e.product != "" && (e.quantity.Coercible? || e.quantity.Unusable?)
    case NonPositiveQuantity => e.Line? && e.product != "" && e.quantity.Whole? && e.quantity.n <= 0
  }

  lemma {:induction false} FirstFault(entries: seq<Entry>, n: nat) returns (k: nat)
    requires n <= |entries| && FirstError(entries, n).Some?
    ensures k < n && NamesTheFault(entries[k], FirstError(entries, n).value)
    ensures forall i :: 0 <= i < k ==> Plannable(entries[i])
  {
    if FirstError(entries, n - 1).Some? {
      k := FirstFault(entries, n - 1);
    } else {
      k := n - 1;
      NoErrorMeansAll(entries, n - 1);
    }
  }

  lemma {:induction false} PlannableMeansNoError(e: Entry)
    ensures EntryError(e).None? <==> Plannable(e)
  {
  }

  /** A payload is planned if and only if it is not empty and every entry can be asked for; the plan then names each
      product once, in order, for all the units its entries ask for. Otherwise it names the fault of the first entry
      that has one. */
  lemma {:induction false} PlanTellsThePayload(entries: seq<Entry>)
    ensures var plan := Plan(entries);
            && (plan.Usable? <==> entries != [] && forall i :: 0 <= i < |entries| ==> Plannable(entries[i]))
            && (plan.Usable? ==>
                  && InOrder(plan.items)
                  && (forall p :: PlannedIn(plan.items, p) <==> exists e :: e in entries && e.Line? && e.product == p)
                  && (forall i :: 0 <= i < |plan.items| ==>
                        plan.items[i].quantity == Sum(entries, UnitsWanted(plan.items[i].product))))
            && (plan == Rejected(EmptyItemsPayload) <==> entries == [])
            && (plan.Rejected? && entries != [] ==>
                  exists k :: 0 <= k < |entries| && NamesTheFault(entries[k], plan.error)
                              && forall i :: 0 <= i < k ==> Plannable(entries[i]))
  {
    NoErrorMeansAll(entries, |entries|);
    forall i | 0 <= i < |entries| ensures EntryError(entries[i]).None? <==> Plannable(entries[i]) {
      PlannableMeansNoError(entries[i]);
    }
    var plan := Plan(entries);
    if plan.Usable? {
      PlanInOrder(entries);
      PlanCoversTheProducts(entries);
      forall i | 0 <= i < |plan.items|
        ensures plan.items[i].quantity == Sum(entries, UnitsWanted(plan.items[i].product))
      {
        SumAgrees(entries, Planned(plan.items[i].product), UnitsWanted(plan.items[i].product));
      }
    } else if entries != [] {
      var k := FirstFault(entries, |entries|);
    }
  }

  lemma {:induction false} PlanCoversTheProducts(entries: seq<Entry>)
    requires Plan(entries).Usable?
    ensures forall p :: PlannedIn(Plan(entries).items, p) <==> exists e :: e in entries && e.Line? && e.product == p
  {
    var products := SortIds(Wanted(entries));
    SortIdsLists(Wanted(entries));
    forall p ensures PlannedIn(Plan(entries).items, p) <==> p in products {
      if p in products {
        var i :| 0 <= i < |products| && products[i] == p;
        assert Plan(entries).items[i].product == p;
      }
      if i :| 0 <= i < |Plan(entries).items| && Plan(entries).items[i].product == p { assert products[i] == p; }
    }
  }
}
