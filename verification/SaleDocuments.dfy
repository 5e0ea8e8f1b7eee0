/**
 Several accepted sale documents of one order: exactly when the cumulative law and the bound by the
 order's payment survive them.
 */
module SaleDocuments {
  import opened Prelude
  import opened Transactions
  import opened CheckboxReturns

  /** An accepted sale document lists the item. */
  predicate Lists(o: Order, d: int, item: int) {
    d in o.sales && o.sales[d].accepted && Find(o.sales[d].items, item).Some?
  }

  /** All accepted sale documents that list the item sell the same quantity of it for the same total. */
  ghost predicate DocumentsAgree(o: Order, item: int) {
    forall d, e :: Lists(o, d, item) && Lists(o, e, item) ==>
      var l, m := Find(o.sales[d].items, item).value, Find(o.sales[e].items, item).value;
      l.quantity == m.quantity && l.total == m.total
  }

  /** The cumulative law, of every accepted document that lists the item. */
  ghost predicate LawKept(b: Book, item: int) {
    forall d :: Lists(b.order, d, item) ==> LawOf(b, item, Find(b.order.sales[d].items, item).value)
  }

  predicate LawOf(b: Book, item: int, l: Line) {
    0 < l.quantity ==>
      && 0 <= Used(b.claims, item) <= l.quantity
      && Returned(b.claims, item) == Share(l.total, Used(b.claims, item), l.quantity)
  }

  /** Agreeing on quantity and total is agreeing on the share at every number of units. */
  lemma SharesAgreeExactly(l: Line, m: Line)
    requires 0 < l.quantity == m.quantity
    ensures l.total == m.total <==>
      forall used :: 0 <= used <= l.quantity ==> Share(l.total, used, l.quantity) == Share(m.total, used, m.quantity)
  {
    ShareBounds(l.total, l.quantity, l.quantity);
    ShareBounds(m.total, m.quantity, m.quantity);
    assert l.total != m.total ==> Share(l.total, l.quantity, l.quantity) != Share(m.total, l.quantity, l.quantity);
  }

  lemma AgreementKeepsLaw(b: Book, item: int)
    requires Invariant(b) && DocumentsAgree(b.order, item)
    ensures LawKept(b, item)
  {
    forall d | Lists(b.order, d, item) ensures LawOf(b, item, Find(b.order.sales[d].items, item).value) {
      var o := Find(b.order.sales[d].items, item).value;
      forall i | 0 <= i < |b.claims| && Quantity(b.claims[i].lines, item) != 0
        ensures Sold(b.order, b.claims[i].sale, item, o.quantity, o.total)
      {
        SingleLine(b.claims[i].lines, item);
        assert LinesSound(b, b.claims[i]) && Lists(b.order, b.claims[i].sale, item);
      }
      assert Agreed(b, item, o) && Lawful(b, item, o);
    }
  }

  /** In every run the law holds of an item while all accepted documents that list it agree. */
  lemma AgreeingDocumentsKeepLaw(b: Book, run: seq<Statement>, item: int)
    requires Fresh(b) && Execute(Step, b, run).Some? && DocumentsAgree(Execute(Step, b, run).value.order, item)
    ensures LawKept(Execute(Step, b, run).value, item)
  {
    FreshIsLawful(b);
    RunKeeps(b, run);
    AgreementKeepsLaw(Execute(Step, b, run).value, item);
  }

  /** An order at pickup all of whose accepted sales can be returned and sell for something. */
  ghost predicate ReadyOrder(b: Book) {
    && Invariant(b) && b.claims == [] && b.order.handedOver == Some(Pickup) && b.order.delivery == Pickup
    && forall d :: d in b.order.sales && b.order.sales[d].accepted ==> Returnable(b.order, d) && 0 < AllMoney(b.order.sales[d].items)
  }

  predicate AcceptsNothing(run: seq<Statement>) {
    forall i :: 0 <= i < |run| ==> !run[i].AcceptSale?
  }

  /** Without an acceptance the accepted documents stay as they are. */
  lemma {:induction false} SameDocuments(b: Book, run: seq<Statement>, d: int, item: int)
    requires Execute(Step, b, run).Some? && AcceptsNothing(run)
    ensures var o := Execute(Step, b, run).value.order;
      && (Lists(o, d, item) <==> Lists(b.order, d, item))
      && (Lists(o, d, item) ==> o.sales[d].items == b.order.sales[d].items)
    decreases |run|
  {
    if run != [] {
      var c := Write(b, run[0]);
      assert !run[0].AcceptSale?;
      assert Lists(c.order, d, item) <==> Lists(b.order, d, item);
      SameDocuments(c, run[1..], d, item);
    }
  }

  /** The return of whole lines of a document, at their totals. */
  function Part(o: Order, d: int, lines: seq<Line>): Return
    requires Returnable(o, d)
  {
    Return(d, o.sales[d].register, o.registers[o.sales[d].register].shift, AllMoney(lines), lines, None, None)
  }

  /** Whole lines of which nothing is back yet are admitted at once. */
  lemma PartAdmitted(b: Book, d: int, lines: seq<Line>)
    requires Returnable(b.order, d) && b.order.handedOver == Some(Pickup) && b.order.delivery == Pickup
    requires DistinctItems(lines) && 0 < AllMoney(lines)
    requires forall l :: l in lines ==> l in b.order.sales[d].items && Used(b.claims, l.item) == 0
    ensures ReturnAdmitted(b, Part(b.order, d, lines))
  {
    var sale := b.order.sales[d];
    assert lines != [];
    forall i | 0 <= i < |lines| ensures LineAdmitted(sale.items, b.claims, lines[i]) && ItemAdmitted(b.order.items, b.claims, lines[i]) {
      var l := lines[i];
      assert l in lines;
      FindInDistinct(sale.items, l);
      var k :| 0 <= k < |sale.items| && sale.items[k] == l;
      ShareBounds(l.total, l.quantity, l.quantity);
    }
  }

  /** Everything an accepted document sold, back at once. */
  lemma WholeReturn(b: Book, d: int, item: int) returns (run: seq<Statement>)
    requires ReadyOrder(b) && Lists(b.order, d, item)
    ensures AcceptsNothing(run) && Execute(Step, b, run).Some?
    ensures var u := Execute(Step, b, run).value; var l := Find(b.order.sales[d].items, item).value;
      u.order == b.order && 0 < l.quantity && Used(u.claims, item) == l.quantity && Returned(u.claims, item) == l.total
  {
    var items := b.order.sales[d].items;
    var r := Part(b.order, d, items);
    PartAdmitted(b, d, items);
    run := OneReturn(b, r);
    TwoReturns(r, r, item);
    FindIsElement(items, item);
    SingleLine(items, item);
  }

  /** Disagreeing documents: returning one of them whole breaks the law of the other, or the other way round. */
  lemma DisagreementBreaksLaw(b: Book, d: int, e: int, item: int) returns (run: seq<Statement>)
    requires ReadyOrder(b) && Lists(b.order, d, item) && Lists(b.order, e, item)
    requires var l, m := Find(b.order.sales[d].items, item).value, Find(b.order.sales[e].items, item).value;
      l.quantity != m.quantity || l.total != m.total
    ensures AcceptsNothing(run) && Execute(Step, b, run).Some? && !LawKept(Execute(Step, b, run).value, item)
  {
    var l, m := Find(b.order.sales[d].items, item).value, Find(b.order.sales[e].items, item).value;
    var first := WholeReturn(b, d, item);
    var second := WholeReturn(b, e, item);
    ShareBounds(l.total, l.quantity, l.quantity);
    ShareBounds(m.total, m.quantity, m.quantity);
    run := if l.quantity < m.quantity then second else first;
    var u := Execute(Step, b, run).value;
    assert Lists(u.order, d, item) && Lists(u.order, e, item);
    assert !LawOf(u, item, if l.quantity < m.quantity then l else m);
  }

  /** In every run, short of accepting another document. */
  ghost predicate LawAlwaysKept(b: Book, item: int) {
    forall run :: AcceptsNothing(run) && Execute(Step, b, run).Some? ==> LawKept(Execute(Step, b, run).value, item)
  }

  /**
   Exactly when the cumulative law survives several sale documents: in every run of an order ready
   for returns, short of accepting another document, the law holds of the item for every accepted
   document that lists it if and only if these documents agree on its quantity and total.
   */
  lemma LawIffDocumentsAgree(b: Book, item: int)
    requires ReadyOrder(b)
    ensures DocumentsAgree(b.order, item) <==> LawAlwaysKept(b, item)
  {
    if DocumentsAgree(b.order, item) {
      forall run | AcceptsNothing(run) && Execute(Step, b, run).Some? ensures LawKept(Execute(Step, b, run).value, item) {
        var u := Execute(Step, b, run).value;
        RunKeeps(b, run);
        forall d ensures Lists(u.order, d, item) ==> Lists(b.order, d, item) && u.order.sales[d].items == b.order.sales[d].items {
          SameDocuments(b, run, d, item);
        }
        AgreementKeepsLaw(u, item);
      }
    } else {
      var d, e :| Lists(b.order, d, item) && Lists(b.order, e, item)
                  && (Find(b.order.sales[d].items, item).value.quantity != Find(b.order.sales[e].items, item).value.quantity
                      || Find(b.order.sales[d].items, item).value.total != Find(b.order.sales[e].items, item).value.total);
      var run := DisagreementBreaksLaw(b, d, e, item);
      assert !LawKept(Execute(Step, b, run).value, item);
    }
  }

  // ---------------------------------------------------------------- the payment as a bound

  /** The order was paid, and every accepted document's lines sell for exactly that. */
  ghost predicate SellsThePayment(o: Order) {
    && o.confirmation.Some? && 0 < o.confirmation.value.amount
    && forall d :: d in o.sales && o.sales[d].accepted ==> AllMoney(o.sales[d].items) == o.confirmation.value.amount
  }

  /** Every positively priced line stands in the other document too, with its quantity and total. */
  predicate PricedAlike(lines: seq<Line>, others: seq<Line>) {
    forall l :: l in lines && 0 < l.total ==>
      var m := Find(others, l.item); m.Some? && m.value.quantity == l.quantity && m.value.total == l.total
  }

  ghost predicate PricesAgree(o: Order) {
    && (forall d :: d in o.sales && o.sales[d].accepted ==> NoNegativeLine(o.sales[d].items))
    && (forall d, e :: d in o.sales && o.sales[d].accepted && e in o.sales && o.sales[e].accepted ==>
          PricedAlike(o.sales[d].items, o.sales[e].items))
  }

  lemma {:induction false} MoneyNonNegative(lines: seq<Line>, item: int)
    requires NoNegativeLine(lines)
    ensures 0 <= Money(lines, item) <= AllMoney(lines)
    ensures Find(lines, item).Some? ==> Find(lines, item).value.total <= Money(lines, item)
  {
    if |lines| > 0 { MoneyNonNegative(lines[..|lines| - 1], item); }
  }

  /** One item of the order: what came back is within what document d sells it for. */
  lemma ItemWithinPrice(b: Book, d: int, item: int)
    requires Invariant(b) && PricesAgree(b.order) && d in b.order.sales && b.order.sales[d].accepted
    ensures Returned(b.claims, item) <= Money(b.order.sales[d].items, item)
  {
    MoneyNonNegative(b.order.sales[d].items, item);
    if i :| 0 <= i < |b.claims| && Quantity(b.claims[i].lines, item) != 0 && Priced(b, b.claims[i], item) {
      PricedItem(b, d, i, item);
    } else {
      forall i | 0 <= i < |b.claims| ensures Money(b.claims[i].lines, item) == 0 { FreeItem(b, i, item); }
      UntouchedItem(b.claims, item);
    }
  }

  /** The return's document sells the item for something. */
  predicate Priced(b: Book, r: Return, item: int) {
    && r.sale in b.order.sales && Find(b.order.sales[r.sale].items, item).Some?
    && 0 < Find(b.order.sales[r.sale].items, item).value.total
  }

  lemma FreeItem(b: Book, i: int, item: int)
    requires Invariant(b) && PricesAgree(b.order) && 0 <= i < |b.claims|
    requires Quantity(b.claims[i].lines, item) != 0 ==> !Priced(b, b.claims[i], item)
    ensures Money(b.claims[i].lines, item) == 0
  {
    var r := b.claims[i];
    assert LinesSound(b, r);
    SingleLine(r.lines, item);
    FindIsElement(b.order.sales[r.sale].items, item);
  }

  lemma PricedItem(b: Book, d: int, i: int, item: int)
    requires Invariant(b) && PricesAgree(b.order) && d in b.order.sales && b.order.sales[d].accepted
    requires 0 <= i < |b.claims| && Quantity(b.claims[i].lines, item) != 0 && Priced(b, b.claims[i], item)
    ensures Returned(b.claims, item) <= Money(b.order.sales[d].items, item)
  {
    var items := b.order.sales[b.claims[i].sale].items;
    var o := Find(items, item).value;
    FindIsElement(items, item);
    assert LinesSound(b, b.claims[i]);
    SingleLine(b.claims[i].lines, item);
    assert o in items && PricedAlike(items, b.order.sales[d].items);
    forall j | 0 <= j < |b.claims| && Quantity(b.claims[j].lines, item) != 0
      ensures Sold(b.order, b.claims[j].sale, item, o.quantity, o.total)
    {
      assert LinesSound(b, b.claims[j]) && PricedAlike(items, b.order.sales[b.claims[j].sale].items);
    }
    assert Agreed(b, item, o) && Lawful(b, item, o);
    ShareBounds(o.total, Used(b.claims, item), o.quantity);
    MoneyNonNegative(b.order.sales[d].items, item);
  }

  function AllLines(claims: seq<Return>): seq<Line> {
    if |claims| == 0 then [] else AllLines(claims[..|claims| - 1]) + claims[|claims| - 1].lines
  }

  lemma {:induction false} LinesAmongAll(claims: seq<Return>)
    ensures forall i, k :: 0 <= i < |claims| && 0 <= k < |claims[i].lines| ==> claims[i].lines[k] in AllLines(claims)
  {
    if |claims| > 0 { LinesAmongAll(claims[..|claims| - 1]); }
  }

  lemma {:induction false} ElementsAreFound(lines: seq<Line>)
    ensures forall l :: l in lines ==> Find(lines, l.item).Some?
  {
    if |lines| > 0 {
      ElementsAreFound(lines[..|lines| - 1]);
      assert lines == lines[..|lines| - 1] + [lines[|lines| - 1]];
    }
  }

  lemma {:induction false} OverAtMost(ids: seq<int>, claims: seq<Return>, lines: seq<Line>)
    requires forall item :: item in ids ==> Returned(claims, item) <= Money(lines, item)
    ensures ReturnedOver(ids, claims) <= MoneyOver(ids, lines)
  {
    if |ids| > 0 {
      OverAtMost(ids[..|ids| - 1], claims, lines);
      assert ids[|ids| - 1] in ids;
    }
  }

  lemma AgreementBoundsReturns(b: Book)
    requires Invariant(b) && SellsThePayment(b.order) && PricesAgree(b.order)
    ensures Amounts(b.claims) <= b.order.confirmation.value.amount
  {
    if b.claims != [] {
      assert LinesSound(b, b.claims[0]);
      var items := b.order.sales[b.claims[0].sale].items;
      var lines := AllLines(b.claims) + items;
      var ids := ItemIds(lines);
      ItemIdsComplete(lines);
      ElementsAreFound(lines);
      LinesAmongAll(b.claims);
      assert forall i :: 0 <= i < |b.claims| ==> LinesSound(b, b.claims[i]);
      AmountsByItem(ids, b.claims);
      MoneyOverAll(ids, items);
      forall item | item in ids ensures Returned(b.claims, item) <= Money(items, item) {
        ItemWithinPrice(b, b.claims[0].sale, item);
      }
      OverAtMost(ids, b.claims, items);
    }
  }

  // ---------------------------------------------------------------- documents that disagree on a price

  /** The lines that cost more here than there, or with `ties` no less. */
  function Chosen(lines: seq<Line>, others: seq<Line>, ties: bool): seq<Line> {
    if |lines| == 0 then []
    else Chosen(lines[..|lines| - 1], others, ties) + if Prefers(lines[|lines| - 1], others, ties) then [lines[|lines| - 1]] else []
  }

  predicate Prefers(l: Line, others: seq<Line>, ties: bool) {
    Money(others, l.item) < l.total || (ties && Money(others, l.item) == l.total)
  }

  function Dearer(lines: seq<Line>, others: seq<Line>): seq<Line> { Chosen(lines, others, false) }

  function NotCheaper(lines: seq<Line>, others: seq<Line>): seq<Line> { Chosen(lines, others, true) }

  lemma {:induction false} ChosenLines(lines: seq<Line>, others: seq<Line>, ties: bool)
    requires DistinctItems(lines)
    ensures DistinctItems(Chosen(lines, others, ties))
    ensures forall l :: l in Chosen(lines, others, ties) ==> l in lines && Prefers(l, others, ties)
  {
    if |lines| > 0 {
      var init, last := lines[..|lines| - 1], lines[|lines| - 1];
      ChosenLines(init, others, ties);
      forall i | 0 <= i < |Chosen(init, others, ties)| ensures Chosen(init, others, ties)[i].item != last.item {
        assert Chosen(init, others, ties)[i] in init;
      }
    }
  }

  lemma MoneyOfAppend(lines: seq<Line>, l: Line, item: int)
    ensures Money(lines + [l], item) == Money(lines, item) + if l.item == item then l.total else 0
  {
    assert (lines + [l])[..|lines|] == lines;
  }

  lemma {:induction false} ChosenMoney(lines: seq<Line>, others: seq<Line>, ties: bool, item: int)
    requires DistinctItems(lines) && NoNegativeLine(lines) && NoNegativeLine(others)
    ensures Money(Chosen(lines, others, ties), item) ==
      if Money(others, item) < Money(lines, item) || (ties && Money(others, item) == Money(lines, item)) then Money(lines, item) else 0
  {
    if |lines| == 0 {
      MoneyNonNegative(others, item);
    } else {
      var init, last := lines[..|lines| - 1], lines[|lines| - 1];
      ChosenMoney(init, others, ties, item);
      SingleLine(init, last.item);
      MoneyNonNegative(others, item);
      MoneyOfAppend(Chosen(init, others, ties), last, item);
      assert Chosen(lines, others, ties) ==
        if Prefers(last, others, ties) then Chosen(init, others, ties) + [last] else Chosen(init, others, ties);
    }
  }

  /** Item by item no less, and more for one of them, is more in all. */
  lemma {:induction false} OverMore(ids: seq<int>, first: seq<Line>, second: seq<Line>, lines: seq<Line>, item: int)
    requires forall i :: i in ids ==> Money(lines, i) <= Money(first, i) + Money(second, i)
    ensures MoneyOver(ids, lines) <= MoneyOver(ids, first) + MoneyOver(ids, second)
    ensures item in ids && Money(lines, item) < Money(first, item) + Money(second, item) ==>
      MoneyOver(ids, lines) < MoneyOver(ids, first) + MoneyOver(ids, second)
  {
    if |ids| > 0 {
      OverMore(ids[..|ids| - 1], first, second, lines, item);
      assert ids == ids[..|ids| - 1] + [ids[|ids| - 1]];
    }
  }

  /** Equal in all but not item by item: some item is dearer in the first list. */
  lemma SomeDearer(ids: seq<int>, lines: seq<Line>, others: seq<Line>, item: int) returns (i: int)
    requires MoneyOver(ids, lines) == MoneyOver(ids, others) && item in ids && Money(lines, item) != Money(others, item)
    ensures i in ids && Money(others, i) < Money(lines, i)
  {
    if i0 :| i0 in ids && Money(others, i0) < Money(lines, i0) {
      i := i0;
    } else {
      MoneyOverNothing(ids);
      OverMore(ids, others, [], lines, item);
      i := item;
    }
  }

  /** Item by item, the dearer choice covers the other document, and more where it is dearer. */
  lemma LargerOfBoth(lines: seq<Line>, others: seq<Line>, item: int)
    requires DistinctItems(lines) && DistinctItems(others) && NoNegativeLine(lines) && NoNegativeLine(others)
    ensures var sum := Money(Dearer(lines, others), item) + Money(NotCheaper(others, lines), item);
      Money(others, item) <= sum && (Money(others, item) < Money(lines, item) ==> Money(others, item) < sum)
  {
    ChosenMoney(lines, others, false, item);
    ChosenMoney(others, lines, true, item);
    MoneyNonNegative(lines, item);
  }

  /** Sums over the items of two documents are the sums over any choice of their lines. */
  lemma SumsOverItems(lines: seq<Line>, others: seq<Line>, choice: seq<Line>)
    requires forall l :: l in choice ==> l in lines + others
    ensures Distinct(ItemIds(lines + others)) && MoneyOver(ItemIds(lines + others), choice) == AllMoney(choice)
  {
    ItemIdsComplete(lines + others);
    ElementsAreFound(lines + others);
    MoneyOverAll(ItemIds(lines + others), choice);
  }

  /** Each item from its dearer document is worth more than either document. */
  lemma DearerIsMore(lines: seq<Line>, others: seq<Line>, item: int)
    requires DistinctItems(lines) && DistinctItems(others) && NoNegativeLine(lines) && NoNegativeLine(others)
    requires AllMoney(lines) == AllMoney(others) && Money(lines, item) != Money(others, item)
    ensures AllMoney(others) < AllMoney(Dearer(lines, others)) + AllMoney(NotCheaper(others, lines))
    ensures 0 < AllMoney(Dearer(lines, others))
  {
    var ids := ItemIds(lines + others);
    ChosenLines(lines, others, false);
    ChosenLines(others, lines, true);
    SumsOverItems(lines, others, lines);
    SumsOverItems(lines, others, others);
    SumsOverItems(lines, others, Dearer(lines, others));
    SumsOverItems(lines, others, NotCheaper(others, lines));
    ItemListed(lines, others, item);
    var i := SomeDearer(ids, lines, others, item);
    forall x ensures Money(others, x) <= Money(Dearer(lines, others), x) + Money(NotCheaper(others, lines), x) {
      LargerOfBoth(lines, others, x);
    }
    LargerOfBoth(lines, others, i);
    OverMore(ids, Dearer(lines, others), NotCheaper(others, lines), others, i);
    DearerSells(lines, others, i);
  }

  lemma ItemListed(lines: seq<Line>, others: seq<Line>, item: int)
    requires DistinctItems(lines) && DistinctItems(others) && Money(lines, item) != Money(others, item)
    ensures item in ItemIds(lines + others)
  {
    SingleLine(lines, item);
    SingleLine(others, item);
    ItemIdsComplete(lines + others);
    ElementsAreFound(lines + others);
    assert forall k :: 0 <= k < |lines| ==> lines[k] in lines + others;
    assert forall k :: 0 <= k < |others| ==> others[k] in lines + others;
  }

  lemma DearerSells(lines: seq<Line>, others: seq<Line>, item: int)
    requires DistinctItems(lines) && NoNegativeLine(lines) && NoNegativeLine(others) && Money(others, item) < Money(lines, item)
    ensures 0 < AllMoney(Dearer(lines, others))
  {
    ChosenLines(lines, others, false);
    ChosenMoney(lines, others, false, item);
    MoneyNonNegative(others, item);
    forall k | 0 <= k < |Dearer(lines, others)| ensures 0 <= Dearer(lines, others)[k].total {
      assert Dearer(lines, others)[k] in lines;
    }
    MoneyNonNegative(Dearer(lines, others), item);
  }

  // ---------------------------------------------------------------- runs that return more than was paid

  /** More is back than was paid, and all of it can be refunded. */
  ghost predicate Overpays(b: Book, u: Book) {
    && u.order == b.order && u.refunds == b.refunds && b.order.confirmation.Some?
    && b.order.confirmation.value.amount < Amounts(u.claims)
    && forall i :: 0 <= i < |u.claims| ==> Refundable(u.order, u.claims[i])
  }

  predicate Refundable(o: Order, r: Return) {
    0 < r.amount && r.register in o.registers && o.registers[r.register].open && o.registers[r.register].shift == r.shift
  }

  lemma TwoInARow(b: Book, first: Return, second: Return) returns (run: seq<Statement>)
    requires b.claims == [] && ReturnAdmitted(b, first) && ReturnAdmitted(b.(claims := [first]), second)
    ensures AcceptsNothing(run) && Execute(Step, b, run) == Some(b.(claims := [first, second]))
    ensures Amounts([first, second]) == first.amount + second.amount
  {
    var one := OneReturn(b, first);
    run := one + [InsertReturn(second)];
    ExecuteAppend(Step, b, one, InsertReturn(second));
    assert [first] + [second] == [first, second];
    assert [first, second][..1] == [first];
  }

  /** The positive lines of a document with a negative one. */
  lemma NegativeOverpays(b: Book, d: int) returns (run: seq<Statement>)
    requires ReadyOrder(b) && SellsThePayment(b.order) && d in b.order.sales && b.order.sales[d].accepted
    requires !NoNegativeLine(b.order.sales[d].items)
    ensures AcceptsNothing(run) && Execute(Step, b, run).Some? && Overpays(b, Execute(Step, b, run).value)
  {
    var lines := PositiveLines(b.order.sales[d].items);
    PositiveMoney(b.order.sales[d].items);
    PositiveElements(b.order.sales[d].items);
    PartAdmitted(b, d, lines);
    run := OneReturn(b, Part(b.order, d, lines));
  }

  /** Each item from the document in which it is dearer. */
  lemma DearerOverpays(b: Book, d: int, e: int, item: int) returns (run: seq<Statement>)
    requires ReadyOrder(b) && SellsThePayment(b.order) && d in b.order.sales && b.order.sales[d].accepted
    requires e in b.order.sales && b.order.sales[e].accepted
    requires NoNegativeLine(b.order.sales[d].items) && NoNegativeLine(b.order.sales[e].items)
    requires Money(b.order.sales[d].items, item) != Money(b.order.sales[e].items, item)
    ensures AcceptsNothing(run) && Execute(Step, b, run).Some? && Overpays(b, Execute(Step, b, run).value)
  {
    var lines, others := b.order.sales[d].items, b.order.sales[e].items;
    var dear, rest := Dearer(lines, others), NotCheaper(others, lines);
    DearerIsMore(lines, others, item);
    ChosenLines(lines, others, false);
    ChosenLines(others, lines, true);
    var first, second := Part(b.order, d, dear), Part(b.order, e, rest);
    PartAdmitted(b, d, dear);
    if AllMoney(rest) <= 0 {
      run := OneReturn(b, first);
    } else {
      forall l | l in rest ensures Used([first], l.item) == 0 {
        TwoReturns(first, first, l.item);
        SingleLine(dear, l.item);
        ApartLines(lines, others, l);
      }
      PartAdmitted(b.(claims := [first]), e, rest);
      run := TwoInARow(b, first, second);
    }
  }

  /** No item is chosen from both documents. */
  lemma ApartLines(lines: seq<Line>, others: seq<Line>, l: Line)
    requires DistinctItems(lines) && DistinctItems(others) && l in NotCheaper(others, lines)
    ensures forall k :: 0 <= k < |Dearer(lines, others)| ==> Dearer(lines, others)[k].item != l.item
  {
    ChosenLines(lines, others, false);
    ChosenLines(others, lines, true);
    forall k | 0 <= k < |Dearer(lines, others)| ensures Dearer(lines, others)[k].item != l.item {
      var m := Dearer(lines, others)[k];
      assert m in Dearer(lines, others);
      MoneyOfElement(lines, m);
      MoneyOfElement(others, l);
    }
  }

  lemma MoneyOfElement(lines: seq<Line>, l: Line)
    requires DistinctItems(lines) && l in lines
    ensures Money(lines, l.item) == l.total && Find(lines, l.item) == Some(l)
  {
    var k :| 0 <= k < |lines| && lines[k] == l;
    SingleLine(lines, l.item);
    FindInDistinct(lines, l);
  }

  /** The smaller quantity whole, then the remaining units against the other document. */
  lemma QuantityOverpays(b: Book, d: int, e: int, item: int) returns (run: seq<Statement>)
    requires ReadyOrder(b) && SellsThePayment(b.order) && Lists(b.order, d, item) && Lists(b.order, e, item)
    requires var l, m := Find(b.order.sales[d].items, item).value, Find(b.order.sales[e].items, item).value;
      0 < l.total == m.total && l.quantity < m.quantity
    ensures AcceptsNothing(run) && Execute(Step, b, run).Some? && Overpays(b, Execute(Step, b, run).value)
  {
    var l, m := Find(b.order.sales[d].items, item).value, Find(b.order.sales[e].items, item).value;
    var first := Part(b.order, d, b.order.sales[d].items);
    WholeFirst(b, d, item);
    FindIsElement(b.order.sales[e].items, item);
    RemainderAdmitted(b.(claims := [first]), e, m, l.quantity);
    run := TwoInARow(b, first, Remainder(b.order, e, m, l.quantity));
  }

  /** A whole document as the first return. */
  lemma WholeFirst(b: Book, d: int, item: int)
    requires ReadyOrder(b) && Lists(b.order, d, item)
    ensures var first := Part(b.order, d, b.order.sales[d].items);
      ReturnAdmitted(b, first) && Used([first], item) == Find(b.order.sales[d].items, item).value.quantity && 0 < Used([first], item)
  {
    var items := b.order.sales[d].items;
    PartAdmitted(b, d, items);
    FindIsElement(items, item);
    SingleLine(items, item);
    TwoReturns(Part(b.order, d, items), Part(b.order, d, items), item);
  }

  /** All units of a line of which some number is back already. */
  function Remainder(o: Order, e: int, m: Line, back: int): Return
    requires Returnable(o, e) && 0 < m.quantity
  {
    var l := m.(quantity := m.quantity - back, total := m.total - Share(m.total, back, m.quantity));
    Part(o, e, [l])
  }

  lemma RemainderAdmitted(b: Book, e: int, m: Line, back: int)
    requires Returnable(b.order, e) && b.order.handedOver == Some(Pickup) && b.order.delivery == Pickup
    requires Find(b.order.sales[e].items, m.item) == Some(m) && Used(b.claims, m.item) == back
    requires 0 < m.total && 0 < back < m.quantity
    ensures ReturnAdmitted(b, Remainder(b.order, e, m, back)) && 0 < Remainder(b.order, e, m, back).amount
  {
    var items := b.order.sales[e].items;
    FindIsElement(items, m.item);
    var k :| 0 <= k < |items| && items[k] == m;
    var l := m.(quantity := m.quantity - back, total := m.total - Share(m.total, back, m.quantity));
    ShareBounds(m.total, m.quantity, m.quantity);
    ShareBelow(m.total, back, m.quantity);
    OneElement(l);
    assert LineAdmitted(items, b.claims, l) && ItemAdmitted(b.order.items, b.claims, l);
    assert Remainder(b.order, e, m, back).lines == [l];
  }

  /** Short of all units, less than all the money. */
  lemma ShareBelow(total: int, used: int, quantity: int)
    requires 0 < total && 0 < used < quantity
    ensures Share(total, used, quantity) < total
  {
    ScaleMonotone(total, used, quantity - 1);
    assert total * (quantity - 1) == total * quantity - total;
    if total <= Share(total, used, quantity) { ScaleMonotone(quantity, total, Share(total, used, quantity)); }
  }

  /** Prices that do not agree let some run return more than was paid. */
  lemma DisagreementOverpays(b: Book) returns (run: seq<Statement>)
    requires ReadyOrder(b) && SellsThePayment(b.order) && !PricesAgree(b.order)
    ensures AcceptsNothing(run) && Execute(Step, b, run).Some? && Overpays(b, Execute(Step, b, run).value)
  {
    var o := b.order;
    if d :| d in o.sales && o.sales[d].accepted && !NoNegativeLine(o.sales[d].items) {
      run := NegativeOverpays(b, d);
    } else {
      var d, e :| d in o.sales && o.sales[d].accepted && e in o.sales && o.sales[e].accepted
                  && !PricedAlike(o.sales[d].items, o.sales[e].items);
      var l :| l in o.sales[d].items && 0 < l.total && !PricedAlike([l], o.sales[e].items);
      run := UnlikeOverpays(b, d, e, l);
    }
  }

  lemma UnlikeOverpays(b: Book, d: int, e: int, l: Line) returns (run: seq<Statement>)
    requires ReadyOrder(b) && SellsThePayment(b.order) && d in b.order.sales && b.order.sales[d].accepted
    requires e in b.order.sales && b.order.sales[e].accepted
    requires NoNegativeLine(b.order.sales[d].items) && NoNegativeLine(b.order.sales[e].items)
    requires l in b.order.sales[d].items && 0 < l.total && !PricedAlike([l], b.order.sales[e].items)
    ensures AcceptsNothing(run) && Execute(Step, b, run).Some? && Overpays(b, Execute(Step, b, run).value)
  {
    var lines, others := b.order.sales[d].items, b.order.sales[e].items;
    MoneyOfElement(lines, l);
    if Money(others, l.item) != l.total {
      run := DearerOverpays(b, d, e, l.item);
    } else {
      SingleLine(others, l.item);
      var k :| 0 <= k < |others| && others[k].item == l.item;
      MoneyOfElement(others, others[k]);
      if l.quantity < others[k].quantity {
        run := QuantityOverpays(b, d, e, l.item);
      } else {
        run := QuantityOverpays(b, e, d, l.item);
      }
    }
  }

  // ---------------------------------------------------------------- and refund it

  lemma {:induction false} RefundsWhole(b: Book, n: nat)
    requires n <= |b.claims| && forall k :: 0 <= k < n ==> k in b.refunds && b.refunds[k] == b.claims[k].amount
    ensures RefundTotal(b, n) == Amounts(b.claims[..n])
  {
    if n > 0 {
      RefundsWhole(b, n - 1);
      assert b.claims[..n][..n - 1] == b.claims[..n - 1];
    }
  }

  /** Refunding the returns from the n-th on, one by one. */
  lemma {:induction false} RefundRest(u: Book, n: nat) returns (run: seq<Statement>)
    requires n <= |u.claims| && (forall k: nat :: k in u.refunds <==> k < n)
    requires forall k :: 0 <= k < n ==> u.refunds[k] == u.claims[k].amount
    requires forall i :: 0 <= i < |u.claims| ==> Refundable(u.order, u.claims[i])
    ensures AcceptsNothing(run) && Execute(Step, u, run).Some?
    ensures var w := Execute(Step, u, run).value;
      w.claims == u.claims && w.order == u.order && RefundTotal(w, |w.claims|) == Amounts(u.claims)
    decreases |u.claims| - n
  {
    if n == |u.claims| {
      run := [];
      RefundsWhole(u, n);
      assert u.claims[..n] == u.claims;
    } else {
      var s := InsertRefund(n, u.claims[n].amount);
      var rest := RefundRest(Write(u, s), n + 1);
      run := [s] + rest;
      assert run[1..] == rest;
    }
  }

  lemma OverpaymentIsRefunded(b: Book, first: seq<Statement>) returns (run: seq<Statement>)
    requires b.refunds == map[] && AcceptsNothing(first) && Execute(Step, b, first).Some? && Overpays(b, Execute(Step, b, first).value)
    ensures AcceptsNothing(run) && Execute(Step, b, run).Some?
    ensures var u := Execute(Step, b, run).value; b.order.confirmation.value.amount < RefundTotal(u, |u.claims|)
  {
    var u := Execute(Step, b, first).value;
    var second := RefundRest(u, 0);
    run := first + second;
    ExecuteConcat(Step, b, first, second);
  }

  lemma NoReturnsNoRefunds(b: Book)
    requires RefundsSound(b) && b.claims == []
    ensures b.refunds == map[]
  {}

  lemma BoundHolds(b: Book, run: seq<Statement>)
    requires ReadyOrder(b) && SellsThePayment(b.order) && PricesAgree(b.order) && AcceptsNothing(run) && Execute(Step, b, run).Some?
    ensures var u := Execute(Step, b, run).value; var paid := b.order.confirmation.value.amount;
      Amounts(u.claims) <= paid && RefundTotal(u, |u.claims|) <= paid
  {
    var u := Execute(Step, b, run).value;
    RunKeeps(b, run);
    ConfirmationStays(b, run);
    forall d ensures Accepted(u.order, d) ==> Accepted(b.order, d) && u.order.sales[d].items == b.order.sales[d].items {
      SameAccepted(b, run, d);
    }
    AgreementBoundsReturns(u);
    RefundsCovered(u);
  }

  predicate Accepted(o: Order, d: int) { d in o.sales && o.sales[d].accepted }

  lemma {:induction false} SameAccepted(b: Book, run: seq<Statement>, d: int)
    requires Execute(Step, b, run).Some? && AcceptsNothing(run)
    ensures var o := Execute(Step, b, run).value.order;
      Accepted(o, d) ==> Accepted(b.order, d) && o.sales[d].items == b.order.sales[d].items
    decreases |run|
  {
    if run != [] {
      var c := Write(b, run[0]);
      assert !run[0].AcceptSale?;
      assert Accepted(c.order, d) ==> Accepted(b.order, d) && c.order.sales[d].items == b.order.sales[d].items;
      SameAccepted(c, run[1..], d);
    }
  }

  lemma {:induction false} ConfirmationStays(b: Book, run: seq<Statement>)
    requires b.order.confirmation.Some? && Execute(Step, b, run).Some?
    ensures Execute(Step, b, run).value.order.confirmation == b.order.confirmation
    decreases |run|
  {
    if run != [] { ConfirmationStays(Write(b, run[0]), run[1..]); }
  }

  /** In every run, short of accepting another document. */
  ghost predicate ReturnsNeverExceed(b: Book, paid: int) {
    forall run :: AcceptsNothing(run) && Execute(Step, b, run).Some? ==> Amounts(Execute(Step, b, run).value.claims) <= paid
  }

  ghost predicate RefundsNeverExceed(b: Book, paid: int) {
    forall run :: AcceptsNothing(run) && Execute(Step, b, run).Some? ==> RefundedBy(Execute(Step, b, run).value) <= paid
  }

  function RefundedBy(u: Book): int { RefundTotal(u, |u.claims|) }

  /**
   Exactly when an order's payment bounds what comes back: in every run of an order ready for returns,
   short of accepting another document, the returns amount to at most the payment if and only if no
   accepted document has a negative line and all of them list every positively priced item alike. The
   same condition bounds the money actually refunded.
   */
  lemma PaymentBoundsReturnsExactly(b: Book)
    requires ReadyOrder(b) && SellsThePayment(b.order)
    ensures PricesAgree(b.order) <==> ReturnsNeverExceed(b, b.order.confirmation.value.amount)
    ensures PricesAgree(b.order) <==> RefundsNeverExceed(b, b.order.confirmation.value.amount)
  {
    if PricesAgree(b.order) {
      forall run | AcceptsNothing(run) && Execute(Step, b, run).Some?
        ensures Amounts(Execute(Step, b, run).value.claims) <= b.order.confirmation.value.amount
        ensures RefundedBy(Execute(Step, b, run).value) <= b.order.confirmation.value.amount
      {
        BoundHolds(b, run);
      }
    } else {
      NoReturnsNoRefunds(b);
      var first := DisagreementOverpays(b);
      var run := OverpaymentIsRefunded(b, first);
      assert Overpays(b, Execute(Step, b, first).value);
    }
  }

  // ---------------------------------------------------------------- two documents of one payment

  const COMB := Line(1, 7, "comb", 2, 100)

  const BRUSH := Line(2, 8, "brush", 2, 10)

  /** A document of the order's one payment of 110. */
  function SaleOf(items: seq<Line>): Sale { Sale(1, 1, false, false, 110, items) }

  /** The order with these sale documents, handed over or not. */
  function PaidOrder(sales: map<int, Sale>, handedOver: Option<Fulfilment>): Order {
    Order(Pickup, handedOver, Some(Confirmation(1, 110)), Some(1), map[1 := OrderItem(7, 2), 2 := OrderItem(8, 2)], sales,
          map[1 := Register(true, 1, true)], None, None, None, false)
  }

  /** Paid, bound, nothing sold yet. */
  function Unsold(): Book { Book(PaidOrder(map[], None), [], map[]) }

  function SoldTwice(first: seq<Line>, second: seq<Line>): Book {
    Book(PaidOrder(map[1 := SaleOf(first).(accepted := true), 2 := SaleOf(second).(accepted := true)], Some(Pickup)), [], map[])
  }

  /** The documents one after the other, as the register's one unresolved operation demands, then the handover. */
  function Selling(first: seq<Line>, second: seq<Line>): seq<Statement> {
    [PostSale(1, SaleOf(first)), AcceptSale(1), PostSale(2, SaleOf(second)), AcceptSale(2), HandOver(Pickup)]
  }

  lemma SellsTwice(first: seq<Line>, second: seq<Line>)
    ensures Fresh(Unsold()) && Execute(Step, Unsold(), Selling(first, second)) == Some(SoldTwice(first, second))
  {
    var run, a, c := Selling(first, second), SaleOf(first), SaleOf(second);
    var t1 := Book(PaidOrder(map[1 := a], None), [], map[]);
    var t2 := Book(PaidOrder(map[1 := a.(accepted := true)], None), [], map[]);
    var t3 := Book(PaidOrder(map[1 := a.(accepted := true), 2 := c], None), [], map[]);
    var t4 := Book(PaidOrder(map[1 := a.(accepted := true), 2 := c.(accepted := true)], None), [], map[]);
    assert map[][1 := a] == map[1 := a] && map[1 := a][1 := a.(accepted := true)] == map[1 := a.(accepted := true)];
    assert t2.order.sales[2 := c] == t3.order.sales && t3.order.sales[2 := c.(accepted := true)] == t4.order.sales;
    assert Step(Unsold(), run[0]) == Some(t1) && Step(t1, run[1]) == Some(t2) && Step(t2, run[2]) == Some(t3);
    assert Step(t3, run[3]) == Some(t4) && Step(t4, run[4]) == Some(SoldTwice(first, second));
    assert run[1..][1..][1..][1..][1..] == [];
    assert Execute(Step, t4, run[1..][1..][1..][1..]) == Execute(Step, SoldTwice(first, second), []);
    assert Execute(Step, t2, run[1..][1..]) == Execute(Step, t3, run[1..][1..][1..]);
  }

  const FIRST_RETURN := Return(1, 1, 1, 50, [COMB.(quantity := 1, total := 50)], None, None)

  const SECOND_RETURN := Return(2, 1, 1, 5, [COMB.(quantity := 1, total := 5)], None, None)

  /**
   Two accepted sale documents of one order break the law: the run posts and accepts two documents with
   the same goods and swapped totals and hands over; then one comb comes back against each. `used`
   counts both against both documents, and 2 combs are back for 55, the share of neither.
   */
  lemma TwoDocumentsBreakTheLaw() returns (b: Book, run: seq<Statement>)
    ensures Fresh(b) && Execute(Step, b, run).Some?
    ensures var u := Execute(Step, b, run).value;
      && Lists(u.order, 1, 1) && Lists(u.order, 2, 1)
      && Find(u.order.sales[1].items, 1) == Some(COMB) && Find(u.order.sales[2].items, 1) == Some(COMB.(total := 10))
      && AllMoney(u.order.sales[1].items) == u.order.sales[1].amount == 110
      && AllMoney(u.order.sales[2].items) == u.order.sales[2].amount == 110
      && Used(u.claims, 1) == 2 && Returned(u.claims, 1) == 55
  {
    var first, second := [COMB, BRUSH], [COMB.(total := 10), BRUSH.(total := 100)];
    b := Unsold();
    SellsTwice(first, second);
    TwoLines(COMB, BRUSH);
    TwoLines(COMB.(total := 10), BRUSH.(total := 100));
    var sold := SoldTwice(first, second);
    TwoReturns(FIRST_RETURN, SECOND_RETURN, 1);
    OneElement(FIRST_RETURN.lines[0]);
    OneElement(SECOND_RETURN.lines[0]);
    OneUnitBack(sold, FIRST_RETURN, COMB);
    OneUnitBack(sold.(claims := [FIRST_RETURN]), SECOND_RETURN, COMB.(total := 10));
    var returning := TwoInARow(sold, FIRST_RETURN, SECOND_RETURN);
    run := Selling(first, second) + returning;
    ExecuteConcat(Step, b, Selling(first, second), returning);
  }

  const ONLY_COMBS := [COMB.(total := 110)]

  const ONLY_BRUSHES := [BRUSH.(total := 110)]

  /**
   And the bound by the payment: one document sells the combs for all of the 110, the other the brushes.
   No line is negative and no item is listed twice, yet both come back whole and 220 are refunded.
   */
  lemma TwoDocumentsRefundTwice() returns (b: Book, run: seq<Statement>)
    ensures Fresh(b) && Execute(Step, b, run).Some?
    ensures var u := Execute(Step, b, run).value;
      && u.order.confirmation == Some(Confirmation(1, 110)) && SellsThePayment(u.order)
      && u.order.sales.Keys == {1, 2} && NoNegativeLine(u.order.sales[1].items) && NoNegativeLine(u.order.sales[2].items)
      && (forall item :: DocumentsAgree(u.order, item))
      && Amounts(u.claims) == 220 && RefundTotal(u, |u.claims|) == 220
  {
    b := Unsold();
    var sold := SoldTwice(ONLY_COMBS, ONLY_BRUSHES);
    SellsTwice(ONLY_COMBS, ONLY_BRUSHES);
    var both := BothBack();
    NothingListedTwice(sold.order);
    run := Selling(ONLY_COMBS, ONLY_BRUSHES) + both;
    ExecuteConcat(Step, b, Selling(ONLY_COMBS, ONLY_BRUSHES), both);
  }

  /** Both documents back whole, and refunded. */
  lemma BothBack() returns (run: seq<Statement>)
    ensures Execute(Step, SoldTwice(ONLY_COMBS, ONLY_BRUSHES), run).Some?
    ensures var u := Execute(Step, SoldTwice(ONLY_COMBS, ONLY_BRUSHES), run).value;
      && u.order == SoldTwice(ONLY_COMBS, ONLY_BRUSHES).order
      && Amounts(u.claims) == 220 && RefundTotal(u, |u.claims|) == 220
  {
    var sold := SoldTwice(ONLY_COMBS, ONLY_BRUSHES);
    OneElement(ONLY_COMBS[0]);
    OneElement(ONLY_BRUSHES[0]);
    var first, second := Part(sold.order, 1, ONLY_COMBS), Part(sold.order, 2, ONLY_BRUSHES);
    PartAdmitted(sold, 1, ONLY_COMBS);
    TwoReturns(first, first, 2);
    SingleLine(ONLY_COMBS, 2);
    PartAdmitted(sold.(claims := [first]), 2, ONLY_BRUSHES);
    var returning := TwoInARow(sold, first, second);
    var refunding := RefundRest(sold.(claims := [first, second]), 0);
    run := returning + refunding;
    ExecuteConcat(Step, sold, returning, refunding);
  }

  lemma NothingListedTwice(o: Order)
    requires o == SoldTwice(ONLY_COMBS, ONLY_BRUSHES).order
    ensures SellsThePayment(o) && forall item :: DocumentsAgree(o, item)
  {
    OneElement(ONLY_COMBS[0]);
    OneElement(ONLY_BRUSHES[0]);
    forall item ensures DocumentsAgree(o, item) {
      FindIsElement(ONLY_COMBS, item);
      FindIsElement(ONLY_BRUSHES, item);
    }
  }

  lemma TwoReturns(first: Return, second: Return, item: int)
    ensures Used([first], item) == Quantity(first.lines, item) && Returned([first], item) == Money(first.lines, item)
    ensures Used([first, second], item) == Quantity(first.lines, item) + Quantity(second.lines, item)
    ensures Returned([first, second], item) == Money(first.lines, item) + Money(second.lines, item)
  {
    assert [first][..0] == [] && [first, second][..1] == [first];
  }

  lemma TwoLines(l: Line, m: Line)
    requires l.item != m.item
    ensures Find([l, m], l.item) == Some(l) && AllMoney([l, m]) == l.total + m.total
  {
    OneElement(l);
    assert [l, m][..1] == [l];
  }

  /** One unit of a two-unit line at the price the trigger expects. */
  lemma OneUnitBack(b: Book, r: Return, o: Line)
    requires SaleAdmitted(b.order, r) && Find(b.order.sales[r.sale].items, o.item) == Some(o)
    requires r.lines == [o.(quantity := 1, total := o.total / 2)] && r.amount == o.total / 2
    requires r.parcel.None? && r.cancellation.None? && b.order.handedOver == Some(Pickup) && b.order.delivery == Pickup
    requires o.item in b.order.items && b.order.items[o.item] == OrderItem(o.product, 2)
    requires o.quantity == 2 && o.total % 2 == 0 && 0 < o.total && 0 <= Used(b.claims, o.item) < 2
    ensures ReturnAdmitted(b, r)
  {
    OneElement(r.lines[0]);
    assert LineAdmitted(b.order.sales[r.sale].items, b.claims, r.lines[0]);
  }

  lemma OneElement(l: Line)
    ensures Find([l], l.item) == Some(l) && Quantity([l], l.item) == l.quantity
    ensures Money([l], l.item) == l.total == AllMoney([l])
  {
    assert [l][..0] == [];
  }
}
