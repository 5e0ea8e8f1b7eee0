/**
 Partial returns against an accepted Checkbox sale: the cumulative kopeck allocation of
 `protect_shop_checkbox_return` and the three bases (pickup, inspected parcel, full pre-handover
 cancellation) on which a return may be reserved. Every guard reads rows of one order only, so
 the state is the `Book` of one order.
 */
module CheckboxReturns {
  import opened Prelude
  import opened Transactions

  /** One element of a receipt snapshot's items; `terms` is everything but quantity and total. */
  datatype Line = Line(item: int, product: int, terms: string, quantity: int, total: int)

  datatype Fulfilment = Pickup | NovaPoshta

  /** A sale document together with its operation's immutable snapshot. */
  datatype Sale = Sale(register: int, payment: int, accepted: bool, refused: bool, amount: int, items: seq<Line>)

  datatype OrderItem = OrderItem(product: int, quantity: int)

  datatype Register = Register(open: bool, shift: int, test: bool)

  datatype ParcelCase = ParcelCase(sale: int, paid: bool, register: int, test: bool, lines: seq<Line>)

  datatype CancellationCase = CancellationCase(id: int, register: int, payment: int, amount: int)

  /** The order's one payment confirmation. */
  datatype Confirmation = Confirmation(id: int, amount: int)

  datatype Return = Return(sale: int, register: int, shift: int, amount: int, lines: seq<Line>,
                           parcel: Option<int>, cancellation: Option<int>)

  /** The rows of one order that the return triggers only read. */
  datatype Order = Order(
    delivery: Fulfilment, handedOver: Option<Fulfilment>, confirmation: Option<Confirmation>, binding: Option<int>,
    items: map<int, OrderItem>, sales: map<int, Sale>, registers: map<int, Register>,
    parcel: Option<ParcelCase>, receipt: Option<int>,
    cancellation: Option<CancellationCase>, finalized: bool)

  /** Refunds are keyed by the position of their return. */
  datatype Book = Book(order: Order, claims: seq<Return>, refunds: map<nat, int>)

  // ---------------------------------------------------------------- aggregates over JSON lines

  /** The first array element for an item: what SELECT ... INTO picks. */
  function Find(lines: seq<Line>, item: int): Option<Line> {
    if |lines| == 0 then None
    else
      var earlier := Find(lines[..|lines| - 1], item);
      if earlier.Some? then earlier
      else if lines[|lines| - 1].item == item then Some(lines[|lines| - 1]) else None
  }

  function Quantity(lines: seq<Line>, item: int): int {
    if |lines| == 0 then 0
    else Quantity(lines[..|lines| - 1], item) + (if lines[|lines| - 1].item == item then lines[|lines| - 1].quantity else 0)
  }

  function Money(lines: seq<Line>, item: int): int {
    if |lines| == 0 then 0
    else Money(lines[..|lines| - 1], item) + (if lines[|lines| - 1].item == item then lines[|lines| - 1].total else 0)
  }

  function AllMoney(lines: seq<Line>): int {
    if |lines| == 0 then 0 else AllMoney(lines[..|lines| - 1]) + lines[|lines| - 1].total
  }

  function Used(claims: seq<Return>, item: int): int {
    if |claims| == 0 then 0
    else Used(claims[..|claims| - 1], item) + Quantity(claims[|claims| - 1].lines, item)
  }

  function Returned(claims: seq<Return>, item: int): int {
    if |claims| == 0 then 0
    else Returned(claims[..|claims| - 1], item) + Money(claims[|claims| - 1].lines, item)
  }

  function Amounts(claims: seq<Return>): int {
    if |claims| == 0 then 0 else Amounts(claims[..|claims| - 1]) + claims[|claims| - 1].amount
  }

  predicate DistinctItems(lines: seq<Line>) {
    forall i, j :: 0 <= i < j < |lines| ==> lines[i].item != lines[j].item
  }

  /** floor(total * used / quantity): the kopecks due once `used` of `quantity` units are back. */
  function Share(total: int, used: int, quantity: int): int
    requires quantity > 0
  {
    total * used / quantity
  }

  // ---------------------------------------------------------------- guards

  /** The body of the trigger's loop for one line; a zero quantity would raise on the division. */
  predicate LineAdmitted(items: seq<Line>, claims: seq<Return>, l: Line) {
    var original := Find(items, l.item);
    var used := Used(claims, l.item);
    && original.Some?
    && l.product == original.value.product && l.terms == original.value.terms
    && 0 < l.quantity && used + l.quantity <= original.value.quantity
    && 0 < original.value.quantity
    && l.total == Share(original.value.total, used + l.quantity, original.value.quantity)
                  - Share(original.value.total, used, original.value.quantity)
  }

  /** The canonical-order half of the check: the item is of this order and not over-returned. */
  predicate ItemAdmitted(items: map<int, OrderItem>, claims: seq<Return>, l: Line) {
    && l.item in items && items[l.item].product == l.product && 0 < l.quantity
    && l.quantity + Used(claims, l.item) <= items[l.item].quantity
  }

  predicate BasisAdmitted(o: Order, r: Return)
    requires r.sale in o.sales && r.register in o.registers
  {
    || (&& r.cancellation.None? && r.parcel.None?
        && o.handedOver == Some(Pickup) && o.delivery == Pickup)
    || (&& r.cancellation.None? && r.parcel.Some? && o.receipt == r.parcel
        && o.handedOver == Some(NovaPoshta) && o.delivery == NovaPoshta
        && o.parcel.Some? && o.parcel.value.paid && o.parcel.value.sale == r.sale
        && o.parcel.value.register == r.register && o.parcel.value.lines == r.lines
        && (o.parcel.value.test ==> o.registers[r.register].test))
    || (&& r.cancellation.Some? && r.parcel.None?
        && o.cancellation.Some? && o.cancellation.value.id == r.cancellation.value
        && o.cancellation.value.register == r.register
        && o.cancellation.value.payment == o.sales[r.sale].payment
        && !o.finalized && o.handedOver.None?
        && r.lines == o.sales[r.sale].items && r.amount == o.sales[r.sale].amount
        && r.amount == o.cancellation.value.amount)
  }

  predicate SaleAdmitted(o: Order, r: Return) {
    && r.sale in o.sales && o.sales[r.sale].accepted && o.sales[r.sale].register == r.register
    && r.register in o.registers && o.registers[r.register].open && o.registers[r.register].shift == r.shift
  }

  /** Unique indexes on carrier_receipt_id and cancellation_case_id. */
  predicate UniqueBasis(claims: seq<Return>, r: Return) {
    forall i :: 0 <= i < |claims| ==>
      && (r.parcel.Some? ==> claims[i].parcel != r.parcel)
      && (r.cancellation.Some? ==> claims[i].cancellation != r.cancellation)
  }

  predicate ReturnAdmitted(b: Book, r: Return) {
    && SaleAdmitted(b.order, r) && BasisAdmitted(b.order, r) && UniqueBasis(b.claims, r)
    && r.lines != [] && DistinctItems(r.lines) && 0 < r.amount == AllMoney(r.lines)
    && (forall i :: 0 <= i < |r.lines| ==> ItemAdmitted(b.order.items, b.claims, r.lines[i]))
    && (forall i :: 0 <= i < |r.lines| ==> LineAdmitted(b.order.sales[r.sale].items, b.claims, r.lines[i]))
  }

  predicate RefundAdmitted(b: Book, index: nat, amount: int) {
    && index < |b.claims| && index !in b.refunds && b.claims[index].amount == amount && 0 < amount
    && b.claims[index].register in b.order.registers
    && b.order.registers[b.claims[index].register].open
    && b.order.registers[b.claims[index].register].shift == b.claims[index].shift
  }

  /** The one-shot formula a paid parcel's selected line must satisfy. */
  predicate ParcelLineAdmitted(items: seq<Line>, l: Line) {
    var original := Find(items, l.item);
    && original.Some?
    && l.product == original.value.product && l.terms == original.value.terms
    && 0 < l.quantity <= original.value.quantity
    && l.total == Share(original.value.total, l.quantity, original.value.quantity)
  }

  predicate ParcelCaseAdmitted(b: Book, c: ParcelCase) {
    && b.order.parcel.None? && b.order.cancellation.None?
    && b.order.handedOver == Some(NovaPoshta) && b.order.delivery == NovaPoshta
    && c.lines != [] && DistinctItems(c.lines)
    && (c.paid ==>
          && c.sale in b.order.sales && b.order.sales[c.sale].accepted
          && b.order.sales[c.sale].register == c.register && 0 < AllMoney(c.lines)
          && (forall i :: 0 <= i < |b.claims| ==> b.claims[i].parcel.Some?)
          && (forall i :: 0 <= i < |c.lines| ==> ParcelLineAdmitted(b.order.sales[c.sale].items, c.lines[i])))
  }

  /**
   validate_shop_checkbox_document for a sale: the order's own payment, its whole amount, its bound register;
   and the register has no other unresolved operation, as its partial unique index demands.
   */
  predicate DocumentAdmitted(o: Order, sale: Sale) {
    && !sale.accepted && !sale.refused
    && o.confirmation == Some(Confirmation(sale.payment, sale.amount)) && o.binding == Some(sale.register)
    && (forall d :: d in o.sales ==> o.sales[d].accepted || o.sales[d].refused)
  }

  // ---------------------------------------------------------------- statements

  datatype Statement =
    | Confirm(confirmation: Confirmation)
    | Bind(to: int)
    | PostSale(document: int, sale: Sale)
    | AcceptSale(document: int)
    | RefuseSale(document: int)
    | SetDelivery(delivery: Fulfilment)
    | HandOver(kind: Fulfilment)
    | SetItem(item: int, row: OrderItem)
    | SetRegister(register: int, shift: Register)
    | OpenParcel(parcel: ParcelCase)
    | InspectParcel(receipt: int)
    | OpenCancellation(cancellation: CancellationCase)
    | FinalizeCancellation
    | InsertReturn(ret: Return)
    | InsertRefund(index: nat, amount: int)

  predicate Admitted(b: Book, s: Statement) {
    match s
    case Confirm(_) => b.order.confirmation.None?
    case Bind(_) => b.order.binding.None? && b.order.handedOver.None?
    case PostSale(d, sale) => d !in b.order.sales && DocumentAdmitted(b.order, sale)
    case AcceptSale(d) => d in b.order.sales && !b.order.sales[d].refused
    case RefuseSale(d) => d in b.order.sales && !b.order.sales[d].accepted
    case SetDelivery(_) => b.order.handedOver.None? && b.order.parcel.None? && b.order.cancellation.None?
    case HandOver(k) => b.order.handedOver.None? && k == b.order.delivery && b.order.cancellation.None?
    case SetItem(_, _) => b.order.parcel.None? && b.order.cancellation.None?
    case SetRegister(_, _) => true
    case OpenParcel(c) => ParcelCaseAdmitted(b, c)
    case InspectParcel(_) => b.order.parcel.Some? && b.order.receipt.None?
    case OpenCancellation(c) =>
      b.order.cancellation.None? && b.order.handedOver.None? && b.order.parcel.None? && b.claims == []
    case FinalizeCancellation => b.order.cancellation.Some?
    case InsertReturn(r) => ReturnAdmitted(b, r)
    case InsertRefund(i, a) => RefundAdmitted(b, i, a)
  }

  function Write(b: Book, s: Statement): Book
    requires Admitted(b, s)
  {
    var o := b.order;
    match s
    case Confirm(c) => b.(order := o.(confirmation := Some(c)))
    case Bind(g) => b.(order := o.(binding := Some(g)))
    case PostSale(d, sale) => b.(order := o.(sales := o.sales[d := sale]))
    case AcceptSale(d) => b.(order := o.(sales := o.sales[d := o.sales[d].(accepted := true)]))
    case RefuseSale(d) => b.(order := o.(sales := o.sales[d := o.sales[d].(refused := true)]))
    case SetDelivery(m) => b.(order := o.(delivery := m))
    case HandOver(k) => b.(order := o.(handedOver := Some(k)))
    case SetItem(i, row) => b.(order := o.(items := o.items[i := row]))
    case SetRegister(g, row) => b.(order := o.(registers := o.registers[g := row]))
    case OpenParcel(c) => b.(order := o.(parcel := Some(c)))
    case InspectParcel(r) => b.(order := o.(receipt := Some(r)))
    case OpenCancellation(c) => b.(order := o.(cancellation := Some(c)))
    case FinalizeCancellation => b.(order := o.(finalized := true))
    case InsertReturn(r) => b.(claims := b.claims + [r])
    case InsertRefund(i, a) => b.(refunds := b.refunds[i := a])
  }

  function Step(b: Book, s: Statement): Option<Book> {
    if Admitted(b, s) then Some(Write(b, s)) else None
  }

  /** An order before anything was sold, handed over, cased or returned. */
  predicate Fresh(b: Book) {
    && b.order.sales == map[]
    && b.order.handedOver.None? && b.order.parcel.None? && b.order.receipt.None?
    && b.order.cancellation.None? && !b.order.finalized && b.claims == [] && b.refunds == map[]
  }

  // ---------------------------------------------------------------- what every statement keeps

  /** The document's line for the item has this quantity and total. */
  predicate Sold(o: Order, d: int, item: int, quantity: int, total: int) {
    && d in o.sales && Find(o.sales[d].items, item).Some?
    && Find(o.sales[d].items, item).value.quantity == quantity && Find(o.sales[d].items, item).value.total == total
  }

  /** Every return that touches the item was allocated against a line of this quantity and total. */
  ghost predicate Agreed(b: Book, item: int, o: Line) {
    forall i :: 0 <= i < |b.claims| && Quantity(b.claims[i].lines, item) != 0 ==>
      Sold(b.order, b.claims[i].sale, item, o.quantity, o.total)
  }

  ghost predicate BasisFits(o: Order, r: Return) {
    match o.handedOver
    case None => o.cancellation.Some? && r.cancellation == Some(o.cancellation.value.id)
    case Some(Pickup) => r.parcel.None? && r.cancellation.None?
    case Some(NovaPoshta) => r.parcel.Some? && r.parcel == o.receipt
  }

  /** Which basis the reserved returns have is decided by how the order was handed over. */
  ghost predicate BasesExclusive(b: Book) {
    && (b.order.cancellation.Some? ==> b.order.handedOver.None?)
    && (b.order.parcel.Some? ==> b.order.handedOver == Some(NovaPoshta))
    && (b.order.receipt.Some? ==> b.order.parcel.Some?)
    && (forall i :: 0 <= i < |b.claims| ==> BasisFits(b.order, b.claims[i]))
    && (b.order.handedOver != Some(Pickup) ==> |b.claims| <= 1)
  }

  ghost predicate LinesSound(b: Book, r: Return) {
    && r.sale in b.order.sales && b.order.sales[r.sale].accepted && DistinctItems(r.lines) && 0 < r.amount == AllMoney(r.lines)
    && (forall k :: 0 <= k < |r.lines| ==>
          && 0 < r.lines[k].quantity && Find(b.order.sales[r.sale].items, r.lines[k].item).Some?
          && 0 < Find(b.order.sales[r.sale].items, r.lines[k].item).value.quantity
          && (Find(b.order.sales[r.sale].items, r.lines[k].item).value.total == 0 ==> r.lines[k].total == 0))
  }

  ghost predicate RefundsSound(b: Book) {
    forall k :: k in b.refunds ==> k < |b.claims| && b.refunds[k] == b.claims[k].amount
  }

  /** All sale documents of an order are for its one payment's whole amount, on its bound register. */
  ghost predicate SalesBound(o: Order) {
    forall d :: d in o.sales ==>
      && o.confirmation == Some(Confirmation(o.sales[d].payment, o.sales[d].amount)) && o.binding == Some(o.sales[d].register)
  }

  ghost predicate Lawful(b: Book, item: int, o: Line) {
    Agreed(b, item, o) && 0 < o.quantity ==>
      && 0 <= Used(b.claims, item) <= o.quantity
      && Returned(b.claims, item) == Share(o.total, Used(b.claims, item), o.quantity)
  }

  ghost predicate Invariant(b: Book) {
    && BasesExclusive(b) && RefundsSound(b) && SalesBound(b.order)
    && (forall i :: 0 <= i < |b.claims| ==> LinesSound(b, b.claims[i]))
    && (forall item, o :: Lawful(b, item, o))
  }

  /** With distinct items the aggregates of one return are its single line's columns. */
  lemma {:induction false} SingleLine(lines: seq<Line>, item: int)
    requires DistinctItems(lines)
    ensures (forall k :: 0 <= k < |lines| ==> lines[k].item != item) ==> Quantity(lines, item) == 0 == Money(lines, item)
    ensures forall k :: 0 <= k < |lines| && lines[k].item == item ==>
      Quantity(lines, item) == lines[k].quantity && Money(lines, item) == lines[k].total
  {
    if |lines| > 0 {
      SingleLine(lines[..|lines| - 1], item);
    }
  }

  lemma LawfulReturn(b: Book, r: Return, item: int, o: Line)
    requires Invariant(b) && ReturnAdmitted(b, r)
    ensures Lawful(Write(b, InsertReturn(r)), item, o)
  {
    var b' := Write(b, InsertReturn(r));
    assert b'.claims[..|b'.claims| - 1] == b.claims;
    assert forall i :: 0 <= i < |b.claims| ==> b'.claims[i] == b.claims[i];
    SingleLine(r.lines, item);
    if Agreed(b', item, o) && 0 < o.quantity {
      assert Agreed(b, item, o);
      assert Lawful(b, item, o);
      if k :| 0 <= k < |r.lines| && r.lines[k].item == item {
        assert ItemAdmitted(b.order.items, b.claims, r.lines[k]);
        assert b'.claims[|b.claims|] == r;
        assert LineAdmitted(b.order.sales[r.sale].items, b.claims, r.lines[k]);
      }
    }
  }

  /** Statements that leave the returns alone, and every accepted snapshot, keep the law. */
  lemma LawfulElsewhere(b: Book, b': Book, item: int, o: Line)
    requires Invariant(b) && b'.claims == b.claims
    requires forall d :: d in b.order.sales ==> d in b'.order.sales && b'.order.sales[d].items == b.order.sales[d].items
    ensures Lawful(b', item, o)
  {
    if Agreed(b', item, o) {
      forall i | 0 <= i < |b.claims| && Quantity(b.claims[i].lines, item) != 0
        ensures Sold(b.order, b.claims[i].sale, item, o.quantity, o.total)
      {
        assert LinesSound(b, b.claims[i]);
        assert b'.claims[i] == b.claims[i];
      }
      assert Agreed(b, item, o) && Lawful(b, item, o);
    }
  }

  lemma ReturnSound(b: Book, r: Return)
    requires Step(b, InsertReturn(r)).Some?
    ensures LinesSound(Write(b, InsertReturn(r)), r)
  {
    forall k | 0 <= k < |r.lines|
      ensures 0 < r.lines[k].quantity && Find(b.order.sales[r.sale].items, r.lines[k].item).Some?
      ensures 0 < Find(b.order.sales[r.sale].items, r.lines[k].item).value.quantity
      ensures Find(b.order.sales[r.sale].items, r.lines[k].item).value.total == 0 ==> r.lines[k].total == 0
    {
      assert LineAdmitted(b.order.sales[r.sale].items, b.claims, r.lines[k]);
    }
  }

  lemma LinesKept(b: Book, s: Statement)
    requires (forall i :: 0 <= i < |b.claims| ==> LinesSound(b, b.claims[i])) && Step(b, s).Some?
    ensures forall i :: 0 <= i < |Write(b, s).claims| ==> LinesSound(Write(b, s), Write(b, s).claims[i])
  {
    if s.InsertReturn? { ReturnSound(b, s.ret); }
    forall i | 0 <= i < |b.claims| ensures LinesSound(Write(b, s), b.claims[i]) {
      assert LinesSound(b, b.claims[i]);
    }
  }

  lemma BasesKept(b: Book, s: Statement)
    requires BasesExclusive(b) && RefundsSound(b) && SalesBound(b.order) && Step(b, s).Some?
    ensures BasesExclusive(Write(b, s)) && RefundsSound(Write(b, s)) && SalesBound(Write(b, s).order)
  {}

  lemma StepKeeps(b: Book, s: Statement)
    requires Invariant(b) && Step(b, s).Some?
    ensures Invariant(Write(b, s))
  {
    BasesKept(b, s);
    LinesKept(b, s);
    forall item, o ensures Lawful(Write(b, s), item, o) {
      if s.InsertReturn? { LawfulReturn(b, s.ret, item, o); } else { LawfulElsewhere(b, Write(b, s), item, o); }
    }
  }

  lemma RunKeeps(b: Book, run: seq<Statement>)
    requires Invariant(b)
    ensures Execute(Step, b, run).Some? ==> Invariant(Execute(Step, b, run).value)
  {
    forall b, s | Invariant(b) && Step(b, s).Some? ensures Invariant(Step(b, s).value) {
      StepKeeps(b, s);
    }
    ExecuteKeeps(Step, Invariant, b, run);
  }

  lemma FreshIsLawful(b: Book)
    requires Fresh(b)
    ensures Invariant(b)
  {
    forall item, o ensures Lawful(b, item, o) {}
  }

  // ---------------------------------------------------------------- main results

  /**
   After any run of admitted statements, an item returned against lines of one quantity and total has had exactly
   the cumulative floor share refunded; it lies between nothing and the line's total (on whichever
   side of zero that is) and is the whole total once every unit is back.
   */
  lemma CumulativeAllocation(b: Book, run: seq<Statement>, item: int, o: Line)
    requires Fresh(b) && Execute(Step, b, run).Some?
    requires Agreed(Execute(Step, b, run).value, item, o) && 0 < o.quantity
    ensures var claims := Execute(Step, b, run).value.claims;
      && 0 <= Used(claims, item) <= o.quantity
      && Returned(claims, item) == Share(o.total, Used(claims, item), o.quantity)
      && (0 <= o.total ==> 0 <= Returned(claims, item) <= o.total)
      && (o.total <= 0 ==> o.total <= Returned(claims, item) <= 0)
      && (Used(claims, item) == o.quantity ==> Returned(claims, item) == o.total)
  {
    FreshIsLawful(b);
    RunKeeps(b, run);
    var claims := Execute(Step, b, run).value.claims;
    assert Lawful(Execute(Step, b, run).value, item, o);
    ShareBounds(o.total, Used(claims, item), o.quantity);
  }

  lemma ShareBounds(total: int, used: int, quantity: int)
    requires 0 <= used <= quantity && 0 < quantity
    ensures 0 <= total ==> 0 <= Share(total, used, quantity) <= total
    ensures total <= 0 ==> total <= Share(total, used, quantity) <= 0
    ensures Share(total, quantity, quantity) == total && Share(total, 0, quantity) == 0
  {
    FloorBetween(total * quantity, quantity, total, total);
    FloorBetween(total * 0, quantity, 0, 0);
    if 0 <= total {
      ScaleMonotone(total, 0, used);
      ScaleMonotone(total, used, quantity);
      FloorBetween(total * used, quantity, 0, total);
    }
    if total <= 0 {
      ScaleMonotone(-total, 0, used);
      ScaleMonotone(-total, used, quantity);
      FloorBetween(total * used, quantity, total, 0);
    }
  }

  lemma ScaleMonotone(factor: nat, x: int, y: int)
    requires x <= y
    ensures factor * x <= factor * y
  {}

  lemma FloorBetween(n: int, q: int, lo: int, hi: int)
    requires 0 < q && lo * q <= n <= hi * q
    ensures lo <= n / q <= hi
  {
    if n / q < lo { ScaleMonotone(q, n / q + 1, lo); }
    if hi < n / q { ScaleMonotone(q, hi + 1, n / q); }
  }

  function ItemIds(lines: seq<Line>): seq<int> {
    if |lines| == 0 then []
    else
      var earlier := ItemIds(lines[..|lines| - 1]);
      if lines[|lines| - 1].item in earlier then earlier else earlier + [lines[|lines| - 1].item]
  }

  function MoneyOver(ids: seq<int>, lines: seq<Line>): int {
    if |ids| == 0 then 0 else MoneyOver(ids[..|ids| - 1], lines) + Money(lines, ids[|ids| - 1])
  }

  function ReturnedOver(ids: seq<int>, claims: seq<Return>): int {
    if |ids| == 0 then 0 else ReturnedOver(ids[..|ids| - 1], claims) + Returned(claims, ids[|ids| - 1])
  }

  lemma {:induction false} ItemIdsComplete(lines: seq<Line>)
    ensures Distinct(ItemIds(lines))
    ensures forall item :: item in ItemIds(lines) <==> Find(lines, item).Some?
  {
    if |lines| > 0 {
      ItemIdsComplete(lines[..|lines| - 1]);
    }
  }

  /** Adding one line moves exactly one of the distinct items' sums. */
  lemma {:induction false} MoneyOverExtends(ids: seq<int>, lines: seq<Line>)
    requires |lines| > 0 && Distinct(ids)
    ensures MoneyOver(ids, lines) == MoneyOver(ids, lines[..|lines| - 1])
      + if lines[|lines| - 1].item in ids then lines[|lines| - 1].total else 0
  {
    if |ids| > 0 {
      MoneyOverExtends(ids[..|ids| - 1], lines);
      assert ids == ids[..|ids| - 1] + [ids[|ids| - 1]];
    }
  }

  lemma {:induction false} MoneyOverAll(ids: seq<int>, lines: seq<Line>)
    requires Distinct(ids) && forall k :: 0 <= k < |lines| ==> lines[k].item in ids
    ensures MoneyOver(ids, lines) == AllMoney(lines)
  {
    if |lines| > 0 {
      MoneyOverExtends(ids, lines);
      MoneyOverAll(ids, lines[..|lines| - 1]);
    } else {
      MoneyOverNothing(ids);
    }
  }

  lemma {:induction false} MoneyOverNothing(ids: seq<int>)
    ensures MoneyOver(ids, []) == 0 == ReturnedOver(ids, [])
  {
    if |ids| > 0 { MoneyOverNothing(ids[..|ids| - 1]); }
  }

  lemma {:induction false} ReturnedOverExtends(ids: seq<int>, claims: seq<Return>)
    requires |claims| > 0
    ensures ReturnedOver(ids, claims)
         == ReturnedOver(ids, claims[..|claims| - 1]) + MoneyOver(ids, claims[|claims| - 1].lines)
  {
    if |ids| > 0 { ReturnedOverExtends(ids[..|ids| - 1], claims); }
  }

  /** Summing the returns by document or by item gives the same kopecks. */
  lemma {:induction false} AmountsByItem(ids: seq<int>, claims: seq<Return>)
    requires Distinct(ids)
    requires forall i :: 0 <= i < |claims| ==> claims[i].amount == AllMoney(claims[i].lines)
    requires forall i, k :: 0 <= i < |claims| && 0 <= k < |claims[i].lines| ==> claims[i].lines[k].item in ids
    ensures Amounts(claims) == ReturnedOver(ids, claims)
  {
    if |claims| == 0 {
      MoneyOverNothing(ids);
    } else {
      ReturnedOverExtends(ids, claims);
      MoneyOverAll(ids, claims[|claims| - 1].lines);
      AmountsByItem(ids, claims[..|claims| - 1]);
    }
  }

  lemma {:induction false} UntouchedItem(claims: seq<Return>, item: int)
    requires forall i :: 0 <= i < |claims| ==> Money(claims[i].lines, item) == 0
    ensures Returned(claims, item) == 0
  {
    if |claims| > 0 { UntouchedItem(claims[..|claims| - 1], item); }
  }

  predicate NoNegativeLine(items: seq<Line>) {
    forall k :: 0 <= k < |items| ==> 0 <= items[k].total
  }

  /** The returns against document d. */
  function Against(claims: seq<Return>, d: int): seq<Return> {
    if |claims| == 0 then []
    else Against(claims[..|claims| - 1], d) + if claims[|claims| - 1].sale == d then [claims[|claims| - 1]] else []
  }

  lemma {:induction false} AgainstElements(claims: seq<Return>, d: int)
    ensures forall i :: 0 <= i < |Against(claims, d)| ==> Against(claims, d)[i] in claims && Against(claims, d)[i].sale == d
  {
    if |claims| > 0 { AgainstElements(claims[..|claims| - 1], d); }
  }

  lemma {:induction false} AgainstNone(claims: seq<Return>, d: int)
    requires forall i :: 0 <= i < |claims| ==> claims[i].sale != d
    ensures Against(claims, d) == []
  {
    if |claims| > 0 { AgainstNone(claims[..|claims| - 1], d); }
  }

  lemma AgainstAppend(claims: seq<Return>, r: Return, d: int)
    ensures Against(claims + [r], d) == if r.sale == d then Against(claims, d) + [r] else Against(claims, d)
  {
    assert (claims + [r])[..|claims|] == claims;
  }

  lemma ReturnedAppend(claims: seq<Return>, r: Return, item: int)
    ensures Returned(claims + [r], item) == Returned(claims, item) + Money(r.lines, item)
    ensures Used(claims + [r], item) == Used(claims, item) + Quantity(r.lines, item)
  {
    assert (claims + [r])[..|claims|] == claims;
  }

  function Least(x: int, y: int): int { if x < y then x else y }

  predicate CappedAt(o: Line, used: int, returned: int) {
    0 <= used && (0 < o.quantity && 0 <= o.total ==> returned <= Share(o.total, Least(used, o.quantity), o.quantity))
  }

  /** What came back against document d is at most d's share of all units back, whoever they came back against. */
  ghost predicate Capped(b: Book, d: int, item: int) {
    d in b.order.sales && Find(b.order.sales[d].items, item).Some? ==>
      CappedAt(Find(b.order.sales[d].items, item).value, Used(b.claims, item), Returned(Against(b.claims, d), item))
  }

  ghost predicate Sound(b: Book) { Invariant(b) && forall d, item :: Capped(b, d, item) }

  lemma ShareMonotone(total: nat, u: nat, v: nat, quantity: int)
    requires 0 < quantity && u <= v
    ensures 0 <= Share(total, u, quantity) <= Share(total, v, quantity)
  {
    ScaleMonotone(total, u, v);
    ScaleMonotone(quantity, total * u / quantity, total * v / quantity + 1);
    assert total * u / quantity <= total * v / quantity;
  }

  /** Units coming back raise the cap, by at least what the trigger pays for them against the document itself. */
  lemma CapGrows(total: nat, quantity: int, used: nat, more: nat)
    requires 0 < quantity
    ensures Share(total, Least(used, quantity), quantity) <= Share(total, Least(used + more, quantity), quantity)
    ensures used + more <= quantity ==> Least(used, quantity) == used && Least(used + more, quantity) == used + more
  {
    ShareMonotone(total, Least(used, quantity), Least(used + more, quantity), quantity);
  }

  /** One return more, on both sums. */
  lemma TotalsAppend(claims: seq<Return>, r: Return, d: int, item: int)
    ensures Used(claims + [r], item) == Used(claims, item) + Quantity(r.lines, item)
    ensures Returned(Against(claims + [r], d), item) ==
      Returned(Against(claims, d), item) + if r.sale == d then Money(r.lines, item) else 0
  {
    AgainstAppend(claims, r, d);
    ReturnedAppend(claims, r, item);
    ReturnedAppend(Against(claims, d), r, item);
  }

  lemma CappedReturn(b: Book, r: Return, d: int, item: int)
    requires Capped(b, d, item) && ReturnAdmitted(b, r)
    ensures Capped(Write(b, InsertReturn(r)), d, item)
  {
    if d in b.order.sales && Find(b.order.sales[d].items, item).Some? {
      TotalsAppend(b.claims, r, d, item);
      CappedLines(b, r, d, item);
    }
  }

  lemma CappedLines(b: Book, r: Return, d: int, item: int)
    requires ReturnAdmitted(b, r) && Capped(b, d, item) && d in b.order.sales && Find(b.order.sales[d].items, item).Some?
    ensures CappedAt(Find(b.order.sales[d].items, item).value, Used(b.claims, item) + Quantity(r.lines, item),
                     Returned(Against(b.claims, d), item) + if r.sale == d then Money(r.lines, item) else 0)
  {
    SingleLine(r.lines, item);
    if k :| 0 <= k < |r.lines| && r.lines[k].item == item {
      assert LineAdmitted(b.order.sales[r.sale].items, b.claims, r.lines[k]);
      CappedLine(Find(b.order.sales[d].items, item).value, Find(b.order.sales[r.sale].items, item).value, r.lines[k],
                 Used(b.claims, item), Returned(Against(b.claims, d), item), r.sale == d);
    }
  }

  /** One more line: against the document itself at its own share, or against another one. */
  lemma CappedLine(o: Line, original: Line, l: Line, used: int, returned: int, own: bool)
    requires CappedAt(o, used, returned) && 0 < l.quantity && 0 < original.quantity && used + l.quantity <= original.quantity
    requires l.total == Share(original.total, used + l.quantity, original.quantity) - Share(original.total, used, original.quantity)
    requires own ==> original == o
    ensures CappedAt(o, used + l.quantity, returned + if own then l.total else 0)
  {
    if 0 < o.quantity && 0 <= o.total { CapGrows(o.total, o.quantity, used, l.quantity); }
  }

  lemma CappedElsewhere(b: Book, s: Statement, d: int, item: int)
    requires Sound(b) && Step(b, s).Some? && !s.InsertReturn?
    ensures Capped(Write(b, s), d, item)
  {
    assert Capped(b, d, item);
    if d !in b.order.sales {
      assert forall i :: 0 <= i < |b.claims| ==> LinesSound(b, b.claims[i]);
      AgainstNone(b.claims, d);
      UsedNonNegative(b, item);
      if s.PostSale? && s.document == d && Find(s.sale.items, item).Some? {
        var o := Find(s.sale.items, item).value;
        if 0 < o.quantity && 0 <= o.total { ShareMonotone(o.total, 0, Least(Used(b.claims, item), o.quantity), o.quantity); }
      }
    }
  }

  lemma UsedNonNegative(b: Book, item: int)
    requires forall i :: 0 <= i < |b.claims| ==> LinesSound(b, b.claims[i])
    ensures 0 <= Used(b.claims, item)
  {
    forall i | 0 <= i < |b.claims| ensures 0 <= Quantity(b.claims[i].lines, item) {
      assert LinesSound(b, b.claims[i]);
      SingleLine(b.claims[i].lines, item);
    }
    UsedFromQuantities(b.claims, item);
  }

  lemma {:induction false} UsedFromQuantities(claims: seq<Return>, item: int)
    requires forall i :: 0 <= i < |claims| ==> 0 <= Quantity(claims[i].lines, item)
    ensures 0 <= Used(claims, item)
  {
    if |claims| > 0 { UsedFromQuantities(claims[..|claims| - 1], item); }
  }

  lemma SoundKept(b: Book, s: Statement)
    requires Sound(b) && Step(b, s).Some?
    ensures Sound(Write(b, s))
  {
    StepKeeps(b, s);
    forall d, item ensures Capped(Write(b, s), d, item) {
      assert Capped(b, d, item);
      if s.InsertReturn? { CappedReturn(b, s.ret, d, item); } else { CappedElsewhere(b, s, d, item); }
    }
  }

  lemma RunSound(b: Book, run: seq<Statement>)
    requires Invariant(b) && b.claims == [] && Execute(Step, b, run).Some?
    ensures Sound(Execute(Step, b, run).value)
  {
    forall d, item ensures Capped(b, d, item) {
      if d in b.order.sales && Find(b.order.sales[d].items, item).Some? {
        var o := Find(b.order.sales[d].items, item).value;
        if 0 < o.quantity && 0 <= o.total { ShareMonotone(o.total, 0, Least(0, o.quantity), o.quantity); }
      }
    }
    forall b, s | Sound(b) && Step(b, s).Some? ensures Sound(Step(b, s).value) { SoundKept(b, s); }
    ExecuteKeeps(Step, Sound, b, run);
  }

  lemma ReturnedItemBounded(b: Book, d: int, item: int)
    requires Sound(b) && d in b.order.sales && NoNegativeLine(b.order.sales[d].items)
    requires Find(b.order.sales[d].items, item).Some?
    ensures Returned(Against(b.claims, d), item) <= Find(b.order.sales[d].items, item).value.total
  {
    var items := b.order.sales[d].items;
    var o := Find(items, item).value;
    FindIsElement(items, item);
    assert Capped(b, d, item);
    if 0 < o.quantity {
      ShareBounds(o.total, Least(Used(b.claims, item), o.quantity), o.quantity);
    } else {
      AgainstElements(b.claims, d);
      forall i | 0 <= i < |Against(b.claims, d)| ensures Money(Against(b.claims, d)[i].lines, item) == 0 {
        var r := Against(b.claims, d)[i];
        assert LinesSound(b, r);
        SingleLine(r.lines, item);
      }
      UntouchedItem(Against(b.claims, d), item);
    }
  }

  lemma {:induction false} FindIsElement(lines: seq<Line>, item: int)
    ensures Find(lines, item).Some? ==> Find(lines, item).value in lines && Find(lines, item).value.item == item
  {
    if |lines| > 0 { FindIsElement(lines[..|lines| - 1], item); }
  }

  /** Bounding each item bounds the sum, because the ids are the first occurrences in `items`. */
  lemma {:induction false} ReturnedOverBounded(items: seq<Line>, claims: seq<Return>)
    requires NoNegativeLine(items)
    requires forall item :: Find(items, item).Some? ==> Returned(claims, item) <= Find(items, item).value.total
    ensures ReturnedOver(ItemIds(items), claims) <= AllMoney(items)
  {
    if |items| > 0 {
      var init, last := items[..|items| - 1], items[|items| - 1];
      forall item | Find(init, item).Some? ensures Returned(claims, item) <= Find(init, item).value.total {
        assert Find(items, item) == Find(init, item);
      }
      ReturnedOverBounded(init, claims);
      ItemIdsComplete(init);
      if last.item !in ItemIds(init) {
        assert Find(items, last.item) == Some(last);
        assert ItemIds(items)[..|ItemIds(init)|] == ItemIds(init);
      }
    }
  }

  /** Money handed back so far: the refund facts of the first n returns. */
  function RefundTotal(b: Book, n: nat): int {
    if n == 0 then 0 else RefundTotal(b, n - 1) + if n - 1 in b.refunds then b.refunds[n - 1] else 0
  }

  lemma {:induction false} RefundsWithinAmounts(b: Book, n: nat)
    requires RefundsSound(b) && n <= |b.claims| && forall i :: 0 <= i < |b.claims| ==> 0 < b.claims[i].amount
    ensures RefundTotal(b, n) <= Amounts(b.claims[..n])
  {
    if n > 0 {
      RefundsWithinAmounts(b, n - 1);
      assert b.claims[..n][..n - 1] == b.claims[..n - 1];
    }
  }

  lemma RefundsCovered(b: Book)
    requires Invariant(b)
    ensures RefundTotal(b, |b.claims|) <= Amounts(b.claims)
  {
    assert forall i :: 0 <= i < |b.claims| ==> LinesSound(b, b.claims[i]);
    RefundsWithinAmounts(b, |b.claims|);
    assert b.claims[..|b.claims|] == b.claims;
  }

  lemma AmountsBounded(b: Book, d: int)
    requires Sound(b) && d in b.order.sales && NoNegativeLine(b.order.sales[d].items)
    ensures Amounts(Against(b.claims, d)) <= AllMoney(b.order.sales[d].items)
  {
    var items, against := b.order.sales[d].items, Against(b.claims, d);
    ItemIdsComplete(items);
    AgainstElements(b.claims, d);
    assert forall i :: 0 <= i < |against| ==> LinesSound(b, against[i]);
    AmountsByItem(ItemIds(items), against);
    forall item | Find(items, item).Some? ensures Returned(against, item) <= Find(items, item).value.total {
      ReturnedItemBounded(b, d, item);
    }
    ReturnedOverBounded(items, against);
  }

  /** An accepted sale that covers order items and whose register is open. */
  predicate Returnable(o: Order, d: int) {
    && d in o.sales
    && var sale := o.sales[d];
    && sale.accepted && sale.register in o.registers && o.registers[sale.register].open
    && DistinctItems(sale.items)
    && forall k :: 0 <= k < |sale.items| ==>
         && 0 < sale.items[k].quantity && sale.items[k].item in o.items
         && o.items[sale.items[k].item].product == sale.items[k].product
         && sale.items[k].quantity <= o.items[sale.items[k].item].quantity
  }

  /** An order handed over at pickup, with nothing returned yet and a returnable sale. */
  ghost predicate ReadyToReturn(b: Book, d: int) {
    && Invariant(b) && b.claims == [] && Returnable(b.order, d)
    && b.order.handedOver == Some(Pickup) && b.order.delivery == Pickup
  }

  function PositiveLines(lines: seq<Line>): seq<Line> {
    if |lines| == 0 then []
    else PositiveLines(lines[..|lines| - 1]) + if 0 < lines[|lines| - 1].total then [lines[|lines| - 1]] else []
  }

  lemma {:induction false} PositiveMoney(lines: seq<Line>)
    ensures AllMoney(lines) <= AllMoney(PositiveLines(lines)) && 0 <= AllMoney(PositiveLines(lines))
    ensures PositiveLines(lines) != [] ==> 0 < AllMoney(PositiveLines(lines))
    ensures !NoNegativeLine(lines) ==> AllMoney(lines) < AllMoney(PositiveLines(lines))
  {
    if |lines| > 0 {
      var init, last := lines[..|lines| - 1], lines[|lines| - 1];
      PositiveMoney(init);
      MoneyAppend(PositiveLines(init), last);
      assert 0 <= last.total && NoNegativeLine(init) ==> NoNegativeLine(lines);
      assert PositiveLines(lines) == if 0 < last.total then PositiveLines(init) + [last] else PositiveLines(init);
    }
  }

  lemma MoneyAppend(lines: seq<Line>, l: Line)
    ensures AllMoney(lines + [l]) == AllMoney(lines) + l.total
  {
    assert (lines + [l])[..|lines|] == lines;
  }

  lemma {:induction false} PositiveElements(lines: seq<Line>)
    requires DistinctItems(lines)
    ensures DistinctItems(PositiveLines(lines))
    ensures forall l :: l in PositiveLines(lines) ==> l in lines && 0 < l.total
  {
    if |lines| > 0 {
      var init, last := lines[..|lines| - 1], lines[|lines| - 1];
      PositiveElements(init);
      var p := PositiveLines(init);
      forall i | 0 <= i < |p| ensures p[i].item != last.item {
        assert p[i] in init;
      }
    }
  }

  lemma {:induction false} FindInDistinct(lines: seq<Line>, l: Line)
    requires DistinctItems(lines) && l in lines
    ensures Find(lines, l.item) == Some(l)
  {
    var k :| 0 <= k < |lines| && lines[k] == l;
    if k == |lines| - 1 {
      FindIsElement(lines[..|lines| - 1], l.item);
    } else {
      assert lines[..|lines| - 1][k] == l;
      FindInDistinct(lines[..|lines| - 1], l);
    }
  }

  /** The return of every positively priced line at once, which a ready order admits. */
  lemma PositiveReturnAdmitted(b: Book, d: int) returns (r: Return)
    requires ReadyToReturn(b, d) && PositiveLines(b.order.sales[d].items) != []
    ensures ReturnAdmitted(b, r) && r.sale == d && r.amount == AllMoney(PositiveLines(b.order.sales[d].items))
  {
    var sale := b.order.sales[d];
    var lines := PositiveLines(sale.items);
    PositiveMoney(sale.items);
    PositiveElements(sale.items);
    r := Return(d, sale.register, b.order.registers[sale.register].shift, AllMoney(lines), lines, None, None);
    forall i | 0 <= i < |lines|
      ensures LineAdmitted(sale.items, b.claims, lines[i]) && ItemAdmitted(b.order.items, b.claims, lines[i])
    {
      assert lines[i] in sale.items;
      FindInDistinct(sale.items, lines[i]);
      ShareBounds(lines[i].total, lines[i].quantity, lines[i].quantity);
    }
  }

  /**
   Exactly when the money returned against a document is bounded by it: in every run, whatever else is
   posted, accepted and returned, the returns against the document amount to at most its lines' total
   if and only if it has no negative line.
   */
  lemma ReturnedMoneyBounded(b: Book, d: int)
    requires ReadyToReturn(b, d)
    ensures NoNegativeLine(b.order.sales[d].items) <==>
      forall run :: Execute(Step, b, run).Some? ==>
        Amounts(Against(Execute(Step, b, run).value.claims, d)) <= AllMoney(b.order.sales[d].items)
  {
    var items := b.order.sales[d].items;
    if NoNegativeLine(items) {
      forall run | Execute(Step, b, run).Some?
        ensures Amounts(Against(Execute(Step, b, run).value.claims, d)) <= AllMoney(items)
      {
        RunSound(b, run);
        SalesImmutable(b, run);
        AmountsBounded(Execute(Step, b, run).value, d);
      }
    } else {
      var run := ExcessiveRun(b, d);
      assert Amounts(Against(Execute(Step, b, run).value.claims, d)) > AllMoney(items);
    }
  }

  /** With a negative line, the positive lines alone are worth more than the sale. */
  lemma ExcessiveRun(b: Book, d: int) returns (run: seq<Statement>)
    requires ReadyToReturn(b, d) && !NoNegativeLine(b.order.sales[d].items)
    ensures Execute(Step, b, run).Some? && forall i :: 0 <= i < |run| ==> run[i].InsertReturn?
    ensures var claims := Execute(Step, b, run).value.claims;
      Amounts(Against(claims, d)) > AllMoney(b.order.sales[d].items) && Amounts(claims) == Amounts(Against(claims, d))
  {
    var items := b.order.sales[d].items;
    PositiveMoney(items);
    if AllMoney(items) < 0 {
      run := [];
    } else {
      var r := PositiveReturnAdmitted(b, d);
      run := OneReturn(b, r);
    }
  }

  /** A first return on its own. */
  lemma OneReturn(b: Book, r: Return) returns (run: seq<Statement>)
    requires b.claims == [] && ReturnAdmitted(b, r)
    ensures run == [InsertReturn(r)] && Execute(Step, b, run) == Some(b.(claims := [r]))
    ensures Against([r], r.sale) == [r] && Amounts([r]) == r.amount
  {
    run := [InsertReturn(r)];
    assert b.claims + [r] == [r] && run[1..] == [];
    assert Execute(Step, b, run) == Execute(Step, b.(claims := [r]), []);
    assert [r][..0] == [];
  }

  /** What was actually refunded never exceeds what the returns reserved. */
  lemma RefundsWithinReturns(b: Book, run: seq<Statement>)
    requires Fresh(b) && Execute(Step, b, run).Some?
    ensures var b' := Execute(Step, b, run).value; RefundTotal(b', |b'.claims|) <= Amounts(b'.claims)
  {
    FreshIsLawful(b);
    RunKeeps(b, run);
    RefundsCovered(Execute(Step, b, run).value);
  }

  ghost predicate SalesKept(b: Book, b': Book) {
    forall d :: d in b.order.sales ==>
      && d in b'.order.sales && b'.order.sales[d].items == b.order.sales[d].items
      && (b.order.sales[d].accepted ==> b'.order.sales[d].accepted)
  }

  lemma StepKeepsSales(b: Book, s: Statement)
    requires Admitted(b, s)
    ensures SalesKept(b, Write(b, s))
  {}

  /** Posted sale snapshots never change and an acceptance is never withdrawn. */
  lemma SalesImmutable(b: Book, run: seq<Statement>)
    requires Invariant(b) && Execute(Step, b, run).Some?
    ensures SalesKept(b, Execute(Step, b, run).value)
  {
    forall b, s | Invariant(b) && Step(b, s).Some?
      ensures Invariant(Step(b, s).value) && SalesKept(b, Step(b, s).value)
    {
      StepKeeps(b, s);
      StepKeepsSales(b, s);
    }
    forall b, c, d | SalesKept(b, c) && SalesKept(c, d) ensures SalesKept(b, d) {}
    ExecuteAdvances(Step, Invariant, SalesKept, b, run);
  }

  /**
   One law for the three bases. At the moment a parcel or cancellation return is admitted nothing
   of the order was returned before; there the cumulative line rule and the parcel's one-shot rule
   admit exactly the same lines, and a full cancellation hands back every line's whole total.
   */
  lemma OneLawForAllBases(b: Book, run: seq<Statement>, r: Return)
    requires Fresh(b) && Execute(Step, b, run).Some?
    requires ReturnAdmitted(Execute(Step, b, run).value, r) && (r.parcel.Some? || r.cancellation.Some?)
    ensures var b' := Execute(Step, b, run).value;
      && b'.claims == []
      && (forall l :: LineAdmitted(b'.order.sales[r.sale].items, b'.claims, l)
                 <==> ParcelLineAdmitted(b'.order.sales[r.sale].items, l))
      && (forall i :: 0 <= i < |r.lines| ==> ParcelLineAdmitted(b'.order.sales[r.sale].items, r.lines[i]))
      && (r.cancellation.Some? ==> r.lines == b'.order.sales[r.sale].items && r.amount == AllMoney(r.lines))
  {
    FreshIsLawful(b);
    RunKeeps(b, run);
    var b' := Execute(Step, b, run).value;
    EarliestBasis(b');
    var items := b'.order.sales[r.sale].items;
    forall l ensures LineAdmitted(items, [], l) <==> ParcelLineAdmitted(items, l) { FirstReturnRule(items, l); }
    assert forall i :: 0 <= i < |r.lines| ==> LineAdmitted(items, b'.claims, r.lines[i]);
  }

  lemma EarliestBasis(b: Book)
    ensures Invariant(b) && |b.claims| > 0 ==> BasisFits(b.order, b.claims[0])
  {}

  lemma FirstReturnRule(items: seq<Line>, l: Line)
    ensures LineAdmitted(items, [], l) <==> ParcelLineAdmitted(items, l)
  {
    if Find(items, l.item).Some? && 0 < Find(items, l.item).value.quantity {
      ShareBounds(Find(items, l.item).value.total, 0, Find(items, l.item).value.quantity);
    }
  }

  /** A parcel or cancellation return stays the order's only return for ever. */
  lemma OnlyReturn(b: Book, run: seq<Statement>)
    requires Fresh(b) && Execute(Step, b, run).Some?
    ensures var b' := Execute(Step, b, run).value;
      b'.order.parcel.Some? || b'.order.cancellation.Some? ==>
        |b'.claims| <= 1 && forall i :: 0 <= i < |b'.claims| ==> b'.claims[i].parcel.Some? || b'.claims[i].cancellation.Some?
  {
    FreshIsLawful(b);
    RunKeeps(b, run);
    var b' := Execute(Step, b, run).value;
    assert forall i :: 0 <= i < |b'.claims| ==> BasisFits(b'.order, b'.claims[i]);
  }

  // ---------------------------------------------------------------- the triggers

  /** The return and refund tables of one order, updated in place. */
  class ReturnDesk {
    var order: Order
    var claims: seq<Return>
    var refunds: map<nat, int>

    function View(): Book reads this { Book(order, claims, refunds) }

    constructor (order: Order)
      ensures View() == Book(order, [], map[])
    {
      this.order, claims, refunds := order, [], map[];
    }

    /** The per-line loop of the trigger; `expected` is the difference of two floors. */
    method LinesMatchAllocation(r: Return) returns (ok: bool)
      requires r.sale in order.sales
      ensures ok <==> forall i :: 0 <= i < |r.lines| ==> LineAdmitted(order.sales[r.sale].items, claims, r.lines[i])
    {
      var state := order.sales[r.sale].items;
      for i := 0 to |r.lines|
        invariant forall j :: 0 <= j < i ==> LineAdmitted(state, claims, r.lines[j])
      {
        var line := r.lines[i];
        var original := Find(state, line.item);
        var used := Used(claims, line.item);
        if original.None? || line.terms != original.value.terms || line.product != original.value.product
           || line.quantity <= 0 || used + line.quantity > original.value.quantity || original.value.quantity <= 0 {
          return false;
        }
        var expected := original.value.total * (used + line.quantity) / original.value.quantity
                        - original.value.total * used / original.value.quantity;
        if line.total != expected {
          return false;
        }
      }
      ok := true;
    }

    /** protect_shop_checkbox_return on INSERT. */
    method InsertReturn(r: Return) returns (ok: bool)
      modifies this`claims
      ensures ok == ReturnAdmitted(old(View()), r)
      ensures View() == if ok then Write(old(View()), Statement.InsertReturn(r)) else old(View())
      ensures old(Invariant(View())) ==> Invariant(View())
    {
      ghost var before := View();
      if !SaleAdmitted(order, r) || !BasisAdmitted(order, r) || !UniqueBasis(claims, r) {
        return false;
      }
      if r.lines == [] || !DistinctItems(r.lines) || r.amount != AllMoney(r.lines) || r.amount <= 0
         || exists i :: 0 <= i < |r.lines| && !ItemAdmitted(order.items, claims, r.lines[i]) {
        return false;
      }
      ok := LinesMatchAllocation(r);
      if ok {
        claims := claims + [r];
        if Invariant(before) { StepKeeps(before, Statement.InsertReturn(r)); }
      }
    }

    /** validate_shop_checkbox_refund: exactly the reserved amount, in the return's own open shift, once. */
    method InsertRefund(index: nat, amount: int) returns (ok: bool)
      modifies this`refunds
      ensures ok == RefundAdmitted(old(View()), index, amount)
      ensures View() == if ok then Write(old(View()), Statement.InsertRefund(index, amount)) else old(View())
      ensures old(Invariant(View())) ==> Invariant(View()) && RefundTotal(View(), |claims|) <= Amounts(claims)
    {
      ghost var before := View();
      if |claims| <= index || index in refunds || claims[index].amount != amount || amount <= 0 {
        ok := false;
      } else {
        var q := claims[index];
        ok := q.register in order.registers && order.registers[q.register].open && order.registers[q.register].shift == q.shift;
      }
      if ok {
        refunds := refunds[index := amount];
        if Invariant(before) { StepKeeps(before, Statement.InsertRefund(index, amount)); }
      }
      if Invariant(before) { RefundsCovered(View()); }
    }
  }
}
