/** One items payload read twice: order-saga splits it into seller orders (split_rules) and
    saga-dispatcher turns it into stock reservations (dispatch_rules). */
module OrderLines {
  import opened Basics
  import opened Ordering
  import opened Sequences

  /** A JSON quantity: absent, an integer, something `int()` coerces (a boolean, a float, digits), or neither. */
  datatype Quantity = Absent | Whole(n: int) | Coercible(n: int) | Unusable

  /** One entry of the list. Empty text stands for a missing id; `lineTotal` and `price` are None when they are not
      numbers, and a missing price is zero. */
  datatype Entry =
    | NotObject
    | Line(seller: Id, product: Id, quantity: Quantity, lineTotal: Option<int>, price: Option<int>)

  /* ---------- the splitter ---------- */

  datatype SplitLine = SplitLine(seller: Id, product: Id, quantity: int, price: int, lineTotal: int)
  datatype SellerPlan = SellerPlan(seller: Id, lines: seq<SplitLine>, subtotal: int)

  function Coerced(q: Quantity): Option<int> {
    match q
    case Whole(n) => Some(n)
    case Coercible(n) => Some(n)
    case _ => None
  }

  function ParseLine(e: Entry): Option<SplitLine>
    requires e.Line?
  {
    var quantity := Coerced(e.quantity);
    if e.seller == "" || e.product == "" || quantity.None? || e.lineTotal.None? then None
    else if quantity.value <= 0 || e.lineTotal.value < 0 || e.price.None? then None
    else Some(SplitLine(e.seller, e.product, quantity.value, e.price.value, e.lineTotal.value))
  }

  /** The lines among the first n entries: non-objects are dropped, one bad line refuses them all. */
  function Parsed(entries: seq<Entry>, n: nat): Option<seq<SplitLine>>
    requires n <= |entries|
  {
    if n == 0 then Some([])
    else
      var before := Parsed(entries, n - 1);
      var e := entries[n - 1];
      if before.None? || e.NotObject? then before
      else
        var line := ParseLine(e);
        if line.None? then None else Some(before.value + [line.value])
  }

  function SoldBy(seller: Id): SplitLine -> bool { (l: SplitLine) => l.seller == seller }
  function ProductIs(product: Id): SplitLine -> bool { (l: SplitLine) => l.product == product }
  function ProductAmong(products: set<Id>): SplitLine -> bool { (l: SplitLine) => l.product in products }
  function SellerAmong(sellers: set<Id>): SplitLine -> bool { (l: SplitLine) => l.seller in sellers }

  function SellersOf(lines: seq<SplitLine>): set<Id> { set l | l in lines :: l.seller }
  function ProductsOf(lines: seq<SplitLine>): set<Id> { set l | l in lines :: l.product }

  /** The lines of each listed product in turn, each product's lines in their original order. */
  function Grouped(products: seq<Id>, lines: seq<SplitLine>): seq<SplitLine> {
    if products == [] then []
    else Filter(lines, ProductIs(products[0])) + Grouped(products[1..], lines)
  }

  /** A stable sort by product. */
  function SortLines(lines: seq<SplitLine>): seq<SplitLine> { Grouped(SortIds(ProductsOf(lines)), lines) }

  function Totals(): SplitLine -> int { (l: SplitLine) => l.lineTotal }

  function PlanOf(seller: Id, own: seq<SplitLine>): SellerPlan {
    SellerPlan(seller, SortLines(own), Sum(SortLines(own), Totals()))
  }

  function PlanFor(seller: Id, lines: seq<SplitLine>): SellerPlan { PlanOf(seller, Filter(lines, SoldBy(seller))) }

  function PlansFor(sellers: seq<Id>, lines: seq<SplitLine>): (plans: seq<SellerPlan>)
    ensures |plans| == |sellers|
    ensures forall i :: 0 <= i < |plans| ==> plans[i] == PlanFor(sellers[i], lines)
  {
    seq(|sellers|, i requires 0 <= i < |sellers| => PlanFor(sellers[i], lines))
  }

  function Split(entries: seq<Entry>): Option<seq<SellerPlan>> {
    var lines := Parsed(entries, |entries|);
    if lines.None? || lines.value == [] then None
    else Some(PlansFor(SortIds(SellersOf(lines.value)), lines.value))
  }

  /* ---------- the reservation planner ---------- */

  datatype PlanError =
    | EmptyItemsPayload | MalformedItem | ItemMissingProductId | NonIntegerQuantity | NonPositiveQuantity
  datatype ItemReservation = ItemReservation(product: Id, quantity: int)
  datatype ReservationPlan = Usable(items: seq<ItemReservation>) | Rejected(error: PlanError)

  function EntryError(e: Entry): Option<PlanError> {
    if e.NotObject? then Some(MalformedItem)
    else if e.product == "" then Some(ItemMissingProductId)
    else if e.quantity.Coercible? || e.quantity.Unusable? then Some(NonIntegerQuantity)
    else if e.quantity.Whole? && e.quantity.n <= 0 then Some(NonPositiveQuantity)
    else None
  }

  function FirstError(entries: seq<Entry>, n: nat): Option<PlanError>
    requires n <= |entries|
  {
    if n == 0 then None
    else if FirstError(entries, n - 1).Some? then FirstError(entries, n - 1)
    else EntryError(entries[n - 1])
  }

  /** A missing quantity means one. */
  function Planned(product: Id): Entry -> int {
    (e: Entry) =>
      if e.Line? && e.product == product then (if e.quantity.Whole? then e.quantity.n else 1) else 0
  }

  function Wanted(entries: seq<Entry>): set<Id> { set e | e in entries && e.Line? :: e.product }

  function Reservations(products: seq<Id>, entries: seq<Entry>): (r: seq<ItemReservation>)
    ensures |r| == |products|
    ensures forall i :: 0 <= i < |r| ==> r[i] == ItemReservation(products[i], Sum(entries, Planned(products[i])))
  {
    seq(|products|, i requires 0 <= i < |products| => ItemReservation(products[i], Sum(entries, Planned(products[i]))))
  }

  function Plan(entries: seq<Entry>): ReservationPlan {
    if entries == [] then Rejected(EmptyItemsPayload)
    else if FirstError(entries, |entries|).Some? then Rejected(FirstError(entries, |entries|).value)
    else Usable(Reservations(SortIds(Wanted(entries)), entries))
  }

  /* ---------- the loops ---------- */

  ghost predicate IsGrouping(bySeller: map<Id, seq<SplitLine>>, lines: seq<SplitLine>) {
    && bySeller.Keys == SellersOf(lines)
    && forall s :: s in bySeller ==> bySeller[s] == Filter(lines, SoldBy(s))
  }

  function AddLine(bySeller: map<Id, seq<SplitLine>>, l: SplitLine): map<Id, seq<SplitLine>> {
    bySeller[l.seller := (if l.seller in bySeller then bySeller[l.seller] else []) + [l]]
  }

  lemma {:induction false} AddLineFor(bySeller: map<Id, seq<SplitLine>>, lines: seq<SplitLine>, l: SplitLine, s: Id)
    requires IsGrouping(bySeller, lines) && s in AddLine(bySeller, l)
    ensures AddLine(bySeller, l)[s] == Filter(lines + [l], SoldBy(s))
  {
    FilterOneMore(lines, l, SoldBy(s));
    if s !in bySeller { NothingToFilter(lines, s); }
  }

  lemma {:induction false} AddLineGroups(bySeller: map<Id, seq<SplitLine>>, lines: seq<SplitLine>, l: SplitLine)
    requires IsGrouping(bySeller, lines)
    ensures IsGrouping(AddLine(bySeller, l), lines + [l])
  {
    assert SellersOf(lines + [l]) == SellersOf(lines) + {l.seller};
    forall s | s in AddLine(bySeller, l) ensures AddLine(bySeller, l)[s] == Filter(lines + [l], SoldBy(s)) {
      AddLineFor(bySeller, lines, l, s);
    }
  }

  method GroupBySeller(entries: seq<Entry>) returns (bySeller: map<Id, seq<SplitLine>>, ok: bool)
    ensures ok == Parsed(entries, |entries|).Some?
    ensures ok ==> IsGrouping(bySeller, Parsed(entries, |entries|).value)
  {
    bySeller := map[];
    ghost var lines: seq<SplitLine> := [];
    for i := 0 to |entries|
      invariant Parsed(entries, i) == Some(lines)
      invariant IsGrouping(bySeller, lines)
    {
      if entries[i].Line? {
        var line := ParseLine(entries[i]);
        if line.None? {
          ParseStaysRefused(entries, i + 1, |entries|);
          return map[], false;
        }
        AddLineGroups(bySeller, lines, line.value);
        bySeller := AddLine(bySeller, line.value);
        lines := lines + [line.value];
      }
    }
    return bySeller, true;
  }

  lemma {:induction false} SomeSeller(lines: seq<SplitLine>)
    requires lines != []
    ensures SellersOf(lines) != {}
  {
    assert lines[0].seller in SellersOf(lines);
  }

  method SplitBySeller(entries: seq<Entry>) returns (plans: Option<seq<SellerPlan>>)
    ensures plans == Split(entries)
  {
    var bySeller, ok := GroupBySeller(entries);
    if !ok { return None; }
    ghost var lines := Parsed(entries, |entries|).value;
    if bySeller == map[] {
      if lines != [] { SomeSeller(lines); }
      return None;
    }
    var out := PlanSellers(bySeller, lines);
    return Some(out);
  }

  method PlanSellers(bySeller: map<Id, seq<SplitLine>>, ghost lines: seq<SplitLine>) returns (out: seq<SellerPlan>)
    requires IsGrouping(bySeller, lines)
    ensures out == PlansFor(SortIds(SellersOf(lines)), lines)
  {
    var sellers := SortIds(bySeller.Keys);
    out := [];
    for i := 0 to |sellers|
      invariant |out| == i
      invariant forall k :: 0 <= k < i ==> out[k] == PlanFor(sellers[k], lines)
    {
      assert sellers[i] in bySeller by { SortIdsLists(bySeller.Keys); }
      out := out + [PlanOf(sellers[i], bySeller[sellers[i]])];
    }
    assert out == PlansFor(sellers, lines);
  }

  lemma {:induction false} NothingToFilter(lines: seq<SplitLine>, seller: Id)
    requires seller !in SellersOf(lines)
    ensures Filter(lines, SoldBy(seller)) == []
  {
    if Filter(lines, SoldBy(seller)) != [] {
      FilterMembers(lines, SoldBy(seller), Filter(lines, SoldBy(seller))[0]);
    }
  }

  lemma {:induction false} ParseStaysRefused(entries: seq<Entry>, m: nat, n: nat)
    requires m <= n <= |entries| && Parsed(entries, m).None?
    ensures Parsed(entries, n).None?
  {
    if m < n { ParseStaysRefused(entries, m, n - 1); }
  }

  ghost predicate IsTally(totals: map<Id, int>, entries: seq<Entry>) {
    && totals.Keys == Wanted(entries)
    && forall p :: p in totals ==> totals[p] == Sum(entries, Planned(p))
  }

  function AddEntry(totals: map<Id, int>, e: Entry): map<Id, int>
    requires e.Line?
  {
    totals[e.product := (if e.product in totals then totals[e.product] else 0)
                        + if e.quantity.Whole? then e.quantity.n else 1]
  }

  lemma {:induction false} AddEntryFor(totals: map<Id, int>, entries: seq<Entry>, e: Entry, p: Id)
    requires e.Line? && IsTally(totals, entries) && p in AddEntry(totals, e)
    ensures AddEntry(totals, e)[p] == Sum(entries + [e], Planned(p))
  {
    SumOneMore(entries, e, Planned(p));
    if p !in totals { NothingPlanned(entries, p); }
  }

  lemma {:induction false} AddEntryTallies(totals: map<Id, int>, entries: seq<Entry>, e: Entry)
    requires e.Line? && IsTally(totals, entries)
    ensures IsTally(AddEntry(totals, e), entries + [e])
  {
    assert Wanted(entries + [e]) == Wanted(entries) + {e.product};
    forall p | p in AddEntry(totals, e) ensures AddEntry(totals, e)[p] == Sum(entries + [e], Planned(p)) {
      AddEntryFor(totals, entries, e, p);
    }
  }

  method PlanItemReservations(entries: seq<Entry>) returns (plan: ReservationPlan)
    ensures plan == Plan(entries)
  {
    if entries == [] { return Rejected(EmptyItemsPayload); }
    var totals: map<Id, int> := map[];
    for i := 0 to |entries|
      invariant FirstError(entries, i) == None
      invariant IsTally(totals, entries[..i])
    {
      var e := entries[i];
      if EntryError(e).Some? {
        ErrorStays(entries, i + 1, |entries|);
        return Rejected(EntryError(e).value);
      }
      AddEntryTallies(totals, entries[..i], e);
      totals := AddEntry(totals, e);
      assert entries[..i + 1] == entries[..i] + [e];
    }
    assert entries[..|entries|] == entries;
    var products := SortIds(totals.Keys);
    SortIdsLists(totals.Keys);
    var items := seq(|products|, i requires 0 <= i < |products| => ItemReservation(products[i], totals[products[i]]));
    assert items == Reservations(products, entries);
    return Usable(items);
  }

  lemma {:induction false} NothingPlanned(entries: seq<Entry>, p: Id)
    requires p !in Wanted(entries)
    ensures Sum(entries, Planned(p)) == 0
  {
    if entries != [] {
      var n := |entries| - 1;
      assert entries[n] in entries;
      assert Wanted(entries[..n]) <= Wanted(entries);
      NothingPlanned(entries[..n], p);
    }
  }

  lemma {:induction false} ErrorStays(entries: seq<Entry>, m: nat, n: nat)
    requires m <= n <= |entries| && FirstError(entries, m).Some?
    ensures FirstError(entries, n) == FirstError(entries, m)
  {
    if m < n { ErrorStays(entries, m, n - 1); }
  }

  /* ---------- conservation ---------- */

  function AllLines(plans: seq<SellerPlan>): seq<SplitLine> {
    if plans == [] then [] else plans[0].lines + AllLines(plans[1..])
  }

  function GoodsSubtotal(plans: seq<SellerPlan>): int {
    if plans == [] then 0 else plans[0].subtotal + GoodsSubtotal(plans[1..])
  }

  function Listed(ids: seq<Id>): set<Id> { set x | x in ids }

  lemma {:induction false} FilterNone<T>(s: seq<T>, q: T -> bool)
    requires forall x :: x in s ==> !q(x)
    ensures Filter(s, q) == []
  {
    if Filter(s, q) != [] { FilterMembers(s, q, Filter(s, q)[0]); }
  }

  lemma {:induction false} FilterAll<T>(s: seq<T>, q: T -> bool)
    requires forall x :: x in s ==> q(x)
    ensures Filter(s, q) == s
  {
    if s != [] {
      FilterAll(s[..|s| - 1], q);
      assert s == s[..|s| - 1] + [s[|s| - 1]];
    }
  }

  lemma {:induction false} HeadComesOnce(ids: seq<Id>)
    requires Increasing(ids) && ids != []
    ensures ids[0] !in ids[1..]
  {
    if ids[0] in ids[1..] {
      var k :| 0 <= k < |ids[1..]| && ids[1..][k] == ids[0];
      LessIsAsymmetric(ids[0], ids[k + 1]);
      assert false;
    }
  }

  lemma {:induction false} GroupedIsFilter(products: seq<Id>, lines: seq<SplitLine>)
    requires Increasing(products)
    ensures multiset(Grouped(products, lines)) == multiset(Filter(lines, ProductAmong(Listed(products))))
  {
    if products == [] {
      FilterNone(lines, ProductAmong(Listed(products)));
    } else {
      var rest := products[1..];
      GroupedIsFilter(rest, lines);
      assert products == [products[0]] + rest;
      HeadComesOnce(products);
      FilterSplits(lines, ProductAmong(Listed(products)), ProductIs(products[0]), ProductAmong(Listed(rest)));
    }
  }

  lemma {:induction false} SortLinesIsPermutation(lines: seq<SplitLine>)
    ensures multiset(SortLines(lines)) == multiset(lines)
  {
    var products := SortIds(ProductsOf(lines));
    SortIdsIncreases(ProductsOf(lines));
    GroupedIsFilter(products, lines);
    assert Listed(products) == ProductsOf(lines) by { SortIdsLists(ProductsOf(lines)); }
    FilterAll(lines, ProductAmong(ProductsOf(lines)));
  }

  lemma {:induction false} FirstPlanAndRest(sellers: seq<Id>, lines: seq<SplitLine>)
    requires sellers != []
    ensures var first, rest := PlanFor(sellers[0], lines), PlansFor(sellers[1..], lines);
            && AllLines(PlansFor(sellers, lines)) == first.lines + AllLines(rest)
            && GoodsSubtotal(PlansFor(sellers, lines)) == first.subtotal + GoodsSubtotal(rest)
  {
    assert PlansFor(sellers, lines)[1..] == PlansFor(sellers[1..], lines);
  }

  lemma {:induction false} FirstSellersLines(sellers: seq<Id>, lines: seq<SplitLine>)
    requires Increasing(sellers) && sellers != []
    ensures multiset(Filter(lines, SellerAmong(Listed(sellers)))) ==
            multiset(PlanFor(sellers[0], lines).lines) + multiset(Filter(lines, SellerAmong(Listed(sellers[1..]))))
  {
    assert sellers == [sellers[0]] + sellers[1..];
    HeadComesOnce(sellers);
    FilterSplits(lines, SellerAmong(Listed(sellers)), SoldBy(sellers[0]), SellerAmong(Listed(sellers[1..])));
    SortLinesIsPermutation(Filter(lines, SoldBy(sellers[0])));
  }

  lemma {:induction false} PlansCoverSellers(sellers: seq<Id>, lines: seq<SplitLine>)
    requires Increasing(sellers)
    ensures multiset(AllLines(PlansFor(sellers, lines))) == multiset(Filter(lines, SellerAmong(Listed(sellers))))
  {
    if sellers == [] {
      FilterNone(lines, SellerAmong(Listed(sellers)));
    } else {
      PlansCoverSellers(sellers[1..], lines);
      FirstPlanAndRest(sellers, lines);
      FirstSellersLines(sellers, lines);
    }
  }

  lemma {:induction false} SubtotalsAddUp(sellers: seq<Id>, lines: seq<SplitLine>)
    ensures GoodsSubtotal(PlansFor(sellers, lines)) == Sum(AllLines(PlansFor(sellers, lines)), Totals())
  {
    if sellers != [] {
      SubtotalsAddUp(sellers[1..], lines);
      FirstPlanAndRest(sellers, lines);
      SumOfConcat(PlanFor(sellers[0], lines).lines, AllLines(PlansFor(sellers[1..], lines)), Totals());
    }
  }

  /** No line is lost, invented or moved between sellers, and the subtotals add up to the goods exactly. */
  lemma {:induction false} SplitConserves(entries: seq<Entry>)
    requires Split(entries).Some?
    ensures var plans, lines := Split(entries).value, Parsed(entries, |entries|).value;
            && multiset(AllLines(plans)) == multiset(lines)
            && GoodsSubtotal(plans) == Sum(lines, Totals())
  {
    var lines := Parsed(entries, |entries|).value;
    var sellers := SortIds(SellersOf(lines));
    SortIdsIncreases(SellersOf(lines));
    PlansCoverSellers(sellers, lines);
    SubtotalsAddUp(sellers, lines);
    assert Listed(sellers) == SellersOf(lines) by { SortIdsLists(SellersOf(lines)); }
    FilterAll(lines, SellerAmong(SellersOf(lines)));
    SumIsOrderFree(AllLines(Split(entries).value), lines, Totals());
  }

  /** Seller plans come in seller order; each holds that seller's lines only, in product order. */
  lemma {:induction false} SplitIsSorted(entries: seq<Entry>)
    requires Split(entries).Some?
    ensures var plans := Split(entries).value;
            && (forall i, j :: 0 <= i < j < |plans| ==> Less(plans[i].seller, plans[j].seller))
            && (forall i :: 0 <= i < |plans| ==> OwnLinesInOrder(plans[i]))
  {
    var plans, lines := Split(entries).value, Parsed(entries, |entries|).value;
    var sellers := SortIds(SellersOf(lines));
    SortIdsIncreases(SellersOf(lines));
    forall i | 0 <= i < |plans| ensures OwnLinesInOrder(plans[i]) {
      assert sellers[i] in SellersOf(lines) by { SortIdsLists(SellersOf(lines)); }
      PlanForIsInOrder(sellers[i], lines);
    }
  }

  predicate OwnLinesInOrder(plan: SellerPlan) {
    && plan.lines != [] && InProductOrder(plan.lines)
    && forall k :: 0 <= k < |plan.lines| ==> plan.lines[k].seller == plan.seller
  }

  lemma {:induction false} PlanForIsInOrder(seller: Id, lines: seq<SplitLine>)
    requires seller in SellersOf(lines)
    ensures OwnLinesInOrder(PlanFor(seller, lines))
  {
    var own := Filter(lines, SoldBy(seller));
    var sorted := SortLines(own);
    var l :| l in lines && l.seller == seller;
    FilterMembers(lines, SoldBy(seller), l);
    SortLinesIsPermutation(own);
    assert l in multiset(sorted);
    SortIdsIncreases(ProductsOf(own));
    GroupedIsSorted(SortIds(ProductsOf(own)), own);
    forall k | 0 <= k < |sorted| ensures sorted[k].seller == seller {
      assert sorted[k] in multiset(own);
      FilterMembers(lines, SoldBy(seller), sorted[k]);
    }
  }

  predicate InProductOrder(lines: seq<SplitLine>) {
    forall i, j :: 0 <= i < j < |lines| ==>
      lines[i].product == lines[j].product || Less(lines[i].product, lines[j].product)
  }

  lemma {:induction false} GroupedIsSorted(products: seq<Id>, lines: seq<SplitLine>)
    requires Increasing(products)
    ensures InProductOrder(Grouped(products, lines))
    ensures forall i :: 0 <= i < |Grouped(products, lines)| ==> Grouped(products, lines)[i].product in products
  {
    if products != [] {
      var first, rest := Filter(lines, ProductIs(products[0])), Grouped(products[1..], lines);
      GroupedIsSorted(products[1..], lines);
      forall i | 0 <= i < |first| ensures first[i].product == products[0] {
        FilterMembers(lines, ProductIs(products[0]), first[i]);
      }
      forall i | 0 <= i < |rest| ensures Less(products[0], rest[i].product) && rest[i].product in products {
        var k :| 0 <= k < |products[1..]| && products[1..][k] == rest[i].product;
        assert products[k + 1] == rest[i].product;
      }
      assert Grouped(products, lines) == first + rest;
    }
  }

  /* ---------- the two readers agree ---------- */

  function UnitsOf(product: Id): SplitLine -> int {
    (l: SplitLine) => if l.product == product then l.quantity else 0
  }

  predicate WellTyped(entries: seq<Entry>) {
    forall i :: 0 <= i < |entries| ==> entries[i].Line? && entries[i].quantity.Whole?
  }

  lemma {:induction false} NoErrorMeansAll(entries: seq<Entry>, n: nat)
    requires n <= |entries|
    ensures FirstError(entries, n).None? <==> forall i :: 0 <= i < n ==> EntryError(entries[i]).None?
  {
    if n > 0 { NoErrorMeansAll(entries, n - 1); }
  }

  lemma {:induction false} ParsedMeansAll(entries: seq<Entry>, n: nat, i: nat)
    requires i < n <= |entries| && Parsed(entries, n).Some?
    ensures entries[i].Line? ==> ParseLine(entries[i]).Some?
  {
    if i < n - 1 { ParsedMeansAll(entries, n - 1, i); }
  }

  lemma {:induction false} SameUnits(entries: seq<Entry>, n: nat, p: Id)
    requires n <= |entries| && Parsed(entries, n).Some? && WellTyped(entries)
    ensures Sum(entries[..n], Planned(p)) == Sum(Parsed(entries, n).value, UnitsOf(p))
  {
    if n > 0 {
      SameUnits(entries, n - 1, p);
      var before, l := Parsed(entries, n - 1).value, ParseLine(entries[n - 1]).value;
      assert entries[..n] == entries[..n - 1] + [entries[n - 1]];
      SumOneMore(entries[..n - 1], entries[n - 1], Planned(p));
      SumOneMore(before, l, UnitsOf(p));
      assert Parsed(entries, n).value == before + [l];
    }
  }

  lemma {:induction false} SameProducts(entries: seq<Entry>, n: nat)
    requires n <= |entries| && Parsed(entries, n).Some? && WellTyped(entries)
    ensures Wanted(entries[..n]) == ProductsOf(Parsed(entries, n).value)
  {
    if n > 0 {
      SameProducts(entries, n - 1);
      var before, l := Parsed(entries, n - 1).value, ParseLine(entries[n - 1]).value;
      assert entries[..n] == entries[..n - 1] + [entries[n - 1]];
      assert Wanted(entries[..n]) == Wanted(entries[..n - 1]) + {l.product};
      assert ProductsOf(before + [l]) == ProductsOf(before) + {l.product};
    }
  }

  /** An accepted split is also plannable exactly when every entry is an object with an integer quantity. */
  lemma {:induction false} SplitIsPlannable(entries: seq<Entry>)
    requires Split(entries).Some?
    ensures Plan(entries).Usable? <==> WellTyped(entries)
  {
    NoErrorMeansAll(entries, |entries|);
    forall i | 0 <= i < |entries|
      ensures EntryError(entries[i]).None? <==> entries[i].Line? && entries[i].quantity.Whole?
    {
      ParsedMeansAll(entries, |entries|, i);
    }
  }

  predicate PlannedIn(items: seq<ItemReservation>, product: Id) {
    exists i :: 0 <= i < |items| && items[i].product == product
  }

  /** Every product of the lines is planned, each planned product for exactly its units over the lines. */
  predicate PlansFully(items: seq<ItemReservation>, lines: seq<SplitLine>) {
    && (forall l :: l in lines ==> PlannedIn(items, l.product))
    && (forall i :: 0 <= i < |items| ==> items[i].quantity == Sum(lines, UnitsOf(items[i].product)))
  }

  lemma {:induction false} WantedIsPlanned(entries: seq<Entry>, product: Id)
    requires Plan(entries).Usable? && product in Wanted(entries)
    ensures PlannedIn(Plan(entries).items, product)
  {
    var products := SortIds(Wanted(entries));
    assert product in products by { SortIdsLists(Wanted(entries)); }
    var i :| 0 <= i < |products| && products[i] == product;
    assert Plan(entries).items[i].product == product;
  }

  lemma {:induction false} PlanMatchesLines(entries: seq<Entry>)
    requires Plan(entries).Usable? && WellTyped(entries) && Parsed(entries, |entries|).Some?
    ensures PlansFully(Plan(entries).items, Parsed(entries, |entries|).value)
  {
    var items, lines := Plan(entries).items, Parsed(entries, |entries|).value;
    assert entries[..|entries|] == entries;
    SameProducts(entries, |entries|);
    forall l | l in lines ensures PlannedIn(items, l.product) {
      WantedIsPlanned(entries, l.product);
    }
    forall i | 0 <= i < |items| ensures items[i].quantity == Sum(lines, UnitsOf(items[i].product)) {
      SameUnits(entries, |entries|, items[i].product);
    }
  }

  lemma {:induction false} PlansFullyInAnyOrder(items: seq<ItemReservation>, a: seq<SplitLine>, b: seq<SplitLine>)
    requires multiset(a) == multiset(b) && PlansFully(items, a)
    ensures PlansFully(items, b)
  {
    SameMembers(a, b);
    forall i | 0 <= i < |items| ensures items[i].quantity == Sum(b, UnitsOf(items[i].product)) {
      SumIsOrderFree(a, b, UnitsOf(items[i].product));
    }
  }

  /** Then each product is planned once, in order, for exactly its units across all seller orders. */
  lemma {:induction false} PlanAgreesWithSplit(entries: seq<Entry>)
    requires Split(entries).Some? && WellTyped(entries)
    ensures Plan(entries).Usable?
    ensures InOrder(Plan(entries).items)
    ensures PlansFully(Plan(entries).items, AllLines(Split(entries).value))
  {
    SplitIsPlannable(entries);
    PlanInOrder(entries);
    PlanMatchesLines(entries);
    SplitConserves(entries);
    PlansFullyInAnyOrder(Plan(entries).items, Parsed(entries, |entries|).value, AllLines(Split(entries).value));
  }

  predicate InOrder(items: seq<ItemReservation>) {
    forall i, j :: 0 <= i < j < |items| ==> Less(items[i].product, items[j].product)
  }

  lemma {:induction false} PlanInOrder(entries: seq<Entry>)
    requires Plan(entries).Usable?
    ensures InOrder(Plan(entries).items)
  {
    SortIdsIncreases(Wanted(entries));
  }

  /** The readers do not have the same tolerance: a coerced quantity or a stray entry splits and is not planned. */
  lemma {:induction false} SplitButNotPlannable()
    ensures var entries := [Line("s", "p", Coercible(3), Some(30), Some(10))];
            Split(entries).Some? && Plan(entries) == Rejected(NonIntegerQuantity)
    ensures var entries := [NotObject, Line("s", "p", Whole(3), Some(30), Some(10))];
            Split(entries).Some? && Plan(entries) == Rejected(MalformedItem)
  {
    var a := [Line("s", "p", Coercible(3), Some(30), Some(10))];
    assert Parsed(a, 0) == Some([]);
    assert FirstError(a, 0) == None;
    var b := [NotObject, Line("s", "p", Whole(3), Some(30), Some(10))];
    assert Parsed(b, 0) == Some([]);
    assert Parsed(b, 1) == Some([]);
    assert FirstError(b, 0) == None;
    assert FirstError(b, 1) == Some(MalformedItem);
  }

  lemma {:induction false} PlannedIsPositive(entries: seq<Entry>, n: nat, p: Id)
    requires n <= |entries| && FirstError(entries, n).None?
    ensures Sum(entries[..n], Planned(p)) >= 0
    ensures p in Wanted(entries[..n]) ==> Sum(entries[..n], Planned(p)) > 0
  {
    if n > 0 {
      PlannedIsPositive(entries, n - 1, p);
      assert entries[..n] == entries[..n - 1] + [entries[n - 1]];
      assert entries[..n][..n - 1] == entries[..n - 1];
    }
  }

  /** A usable plan reserves each product once, in product order, and always a positive quantity. */
  lemma {:induction false} PlanIsWellFormed(entries: seq<Entry>)
    requires Plan(entries).Usable?
    ensures var items := Plan(entries).items;
            && (forall i :: 0 <= i < |items| ==> items[i].quantity > 0)
            && (forall i, j :: 0 <= i < j < |items| ==> items[i].product != items[j].product)
  {
    var items := Plan(entries).items;
    assert entries[..|entries|] == entries;
    forall i | 0 <= i < |items| ensures items[i].quantity > 0 {
      SortIdsLists(Wanted(entries));
      PlannedIsPositive(entries, |entries|, items[i].product);
    }
    PlanInOrder(entries);
    forall i, j | 0 <= i < j < |items| ensures items[i].product != items[j].product {
      LessIsAsymmetric(items[i].product, items[j].product);
    }
  }

  lemma {:induction false} PlanIsNonEmpty(entries: seq<Entry>)
    requires Plan(entries).Usable?
    ensures Plan(entries).items != []
  {
    NoErrorMeansAll(entries, |entries|);
    assert entries[0] in entries && entries[0].Line?;
    assert entries[0].product in Wanted(entries);
    SortIdsLists(Wanted(entries));
  }

  /* ---------- the order of the payload does not matter ---------- */

  lemma {:induction false} SameMembers<T(!new)>(a: seq<T>, b: seq<T>)
    requires multiset(a) == multiset(b)
    ensures forall x :: x in a <==> x in b
  {
    forall x ensures x in a <==> x in b {
      assert x in a <==> x in multiset(a);
      assert x in b <==> x in multiset(b);
    }
  }

  /** Permuting an accepted payload leaves the reservation plan unchanged. */
  lemma {:induction false} PlanIsOrderFree(a: seq<Entry>, b: seq<Entry>)
    requires multiset(a) == multiset(b) && Plan(a).Usable?
    ensures Plan(b) == Plan(a)
  {
    SameMembers(a, b);
    NoErrorMeansAll(a, |a|);
    NoErrorMeansAll(b, |b|);
    forall i | 0 <= i < |b| ensures EntryError(b[i]).None? {
      assert b[i] in a;
    }
    assert |b| > 0 by { assert a[0] in b; }
    assert Wanted(a) == Wanted(b);
    var products := SortIds(Wanted(a));
    forall i | 0 <= i < |products| ensures Sum(a, Planned(products[i])) == Sum(b, Planned(products[i])) {
      SumIsOrderFree(a, b, Planned(products[i]));
    }
    assert Reservations(products, a) == Reservations(products, b);
  }

  /** One for each entry that parses to the given line. */
  function Yields(l: SplitLine): Entry -> int {
    (e: Entry) => if e.Line? && ParseLine(e) == Some(l) then 1 else 0
  }

  lemma {:induction false} ParsedCounts(entries: seq<Entry>, n: nat, l: SplitLine)
    requires n <= |entries| && Parsed(entries, n).Some?
    ensures multiset(Parsed(entries, n).value)[l] == Sum(entries[..n], Yields(l))
  {
    if n > 0 {
      ParsedCounts(entries, n - 1, l);
      assert entries[..n][..n - 1] == entries[..n - 1];
    }
  }

  lemma {:induction false} AllMeansParsed(entries: seq<Entry>, n: nat)
    requires n <= |entries|
    requires forall i :: 0 <= i < n && entries[i].Line? ==> ParseLine(entries[i]).Some?
    ensures Parsed(entries, n).Some?
  {
    if n > 0 { AllMeansParsed(entries, n - 1); }
  }

  lemma {:induction false} ParsedIsOrderFree(a: seq<Entry>, b: seq<Entry>)
    requires multiset(a) == multiset(b) && Parsed(a, |a|).Some?
    ensures Parsed(b, |b|).Some?
    ensures multiset(Parsed(b, |b|).value) == multiset(Parsed(a, |a|).value)
  {
    SameMembers(a, b);
    forall i | 0 <= i < |b| && b[i].Line? ensures ParseLine(b[i]).Some? {
      assert b[i] in a;
      var k :| 0 <= k < |a| && a[k] == b[i];
      ParsedMeansAll(a, |a|, k);
    }
    AllMeansParsed(b, |b|);
    assert a[..|a|] == a && b[..|b|] == b;
    forall l ensures multiset(Parsed(b, |b|).value)[l] == multiset(Parsed(a, |a|).value)[l] {
      ParsedCounts(a, |a|, l);
      ParsedCounts(b, |b|, l);
      SumIsOrderFree(a, b, Yields(l));
    }
  }

  /** No (seller, product) pair on two lines. */
  predicate NoRepeats(lines: seq<SplitLine>) {
    forall i, j :: 0 <= i < j < |lines| ==>
      lines[i].seller != lines[j].seller || lines[i].product != lines[j].product
  }

  function Both<T>(q1: T -> bool, q2: T -> bool): T -> bool { (x: T) => q1(x) && q2(x) }

  lemma {:induction false} FilterTwice<T>(s: seq<T>, q1: T -> bool, q2: T -> bool)
    ensures Filter(Filter(s, q1), q2) == Filter(s, Both(q1, q2))
  {
    if s != [] {
      var n := |s| - 1;
      FilterTwice(s[..n], q1, q2);
      if q1(s[n]) {
        var f := Filter(s[..n], q1);
        assert (f + [s[n]])[..|f|] == f;
      } else {
        assert Filter(s, q1) == Filter(s[..n], q1);
      }
    }
  }

  /** Two survivors of a filter stood at two positions of the original. */
  lemma {:induction false} FilterAtMostOne(lines: seq<SplitLine>, seller: Id, product: Id)
    requires NoRepeats(lines)
    ensures |Filter(lines, Both(SoldBy(seller), ProductIs(product)))| <= 1
  {
    var q := Both(SoldBy(seller), ProductIs(product));
    if lines != [] {
      var n := |lines| - 1;
      FilterAtMostOne(lines[..n], seller, product);
      if q(lines[n]) && Filter(lines[..n], q) != [] {
        FilterMembers(lines[..n], q, Filter(lines[..n], q)[0]);
        assert false;
      }
    }
  }

  lemma {:induction false} ShortPermutations<T>(a: seq<T>, b: seq<T>)
    requires multiset(a) == multiset(b) && |a| <= 1
    ensures a == b
  {
    assert |a| == |multiset(a)| == |multiset(b)| == |b|;
    if |a| == 1 { assert a[0] in multiset(b); }
  }

  lemma {:induction false} GroupsAreOrderFree(products: seq<Id>, seller: Id, a: seq<SplitLine>, b: seq<SplitLine>)
    requires multiset(a) == multiset(b) && NoRepeats(a)
    ensures Grouped(products, Filter(a, SoldBy(seller))) == Grouped(products, Filter(b, SoldBy(seller)))
  {
    if products != [] {
      GroupsAreOrderFree(products[1..], seller, a, b);
      FilterTwice(a, SoldBy(seller), ProductIs(products[0]));
      FilterTwice(b, SoldBy(seller), ProductIs(products[0]));
      FilterAtMostOne(a, seller, products[0]);
      FilterIsOrderFree(a, b, Both(SoldBy(seller), ProductIs(products[0])));
      ShortPermutations(Filter(a, Both(SoldBy(seller), ProductIs(products[0]))),
                        Filter(b, Both(SoldBy(seller), ProductIs(products[0]))));
    }
  }

  lemma {:induction false} PlanForIsOrderFree(seller: Id, a: seq<SplitLine>, b: seq<SplitLine>)
    requires multiset(a) == multiset(b) && NoRepeats(a)
    ensures PlanFor(seller, a) == PlanFor(seller, b)
  {
    FilterIsOrderFree(a, b, SoldBy(seller));
    SameMembers(Filter(a, SoldBy(seller)), Filter(b, SoldBy(seller)));
    assert ProductsOf(Filter(a, SoldBy(seller))) == ProductsOf(Filter(b, SoldBy(seller)));
    GroupsAreOrderFree(SortIds(ProductsOf(Filter(a, SoldBy(seller)))), seller, a, b);
  }

  /** With no repeated (seller, product) pair, permuting the payload leaves the split unchanged. */
  lemma {:induction false} SplitIsOrderFree(a: seq<Entry>, b: seq<Entry>)
    requires multiset(a) == multiset(b) && Split(a).Some? && NoRepeats(Parsed(a, |a|).value)
    ensures Split(b) == Split(a)
  {
    ParsedIsOrderFree(a, b);
    var la, lb := Parsed(a, |a|).value, Parsed(b, |b|).value;
    SameMembers(la, lb);
    assert lb != [] by { assert la[0] in lb; }
    assert SellersOf(la) == SellersOf(lb);
    var sellers := SortIds(SellersOf(la));
    forall i | 0 <= i < |sellers| ensures PlansFor(sellers, la)[i] == PlansFor(sellers, lb)[i] {
      PlanForIsOrderFree(sellers[i], la, lb);
    }
    assert PlansFor(sellers, la) == PlansFor(sellers, lb);
  }
}
