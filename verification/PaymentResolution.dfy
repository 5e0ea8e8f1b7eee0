/**
 Full cancellation of a paid Shop order before handover, and invoice reviews. A resolution case freezes
 the order's economics, goods and stock; its finalization is checked when the transaction commits
 and demands the accepted return receipt, the refund and one exact release of every owned
 reservation. Provider operations are the ones of CheckboxOperations, with this protocol's guards on top.
 */
module PaymentResolution {
  import opened Prelude
  import opened Transactions
  import Desk = CheckboxOperations

  datatype OrderStatus = Open(stage: int) | Completed | Cancelled

  /** Money in kopecks; `terms` stands for subtotal and discount. */
  datatype Order = Order(shop: bool, simulation: bool, delivery: int, terms: int, total: int, status: OrderStatus)

  /** `goods` stands for the price columns. */
  datatype Item = Item(order: int, product: int, quantity: int, goods: int, fromStock: int, received: int)

  datatype Payment = Payment(order: int, amount: int)

  datatype Confirmation = Confirmation(order: int, payment: int, amount: int)

  /** Rows of the tables that only matter by existing for an order. */
  datatype Fact =
    | Handover(order: int) | Fulfilment(order: int) | Completion(order: int)
    | Intent(order: int)
    | Rival(order: int)          // carrier return, parcel case, local fiscal document or QR attempt
    | UnpaidClosure(order: int)
    | Carriage(order: int)       // a shipment that the carrier has taken over

  datatype Kind = PaidCancellation | InvoiceReview

  datatype Case = Case(order: int, kind: Kind, confirmation: Option<int>, register: Option<int>, test: bool, amount: int)

  /** A financial return; `basis` is the cancellation case it stands on. */
  datatype Claim = Claim(order: int, sale: int, amount: int, basis: Option<int>, register: int)

  /** A sale document has no claim, a return document has one. */
  datatype Document = Document(order: int, operation: int, confirmation: int, claim: Option<int>)

  /** The unique reference_key. */
  datatype Key = ReleaseKey(resolution: int, item: int) | OtherKey(text: string)

  datatype Release = Release(item: int, product: int, quantity: int, key: Key)

  datatype Finalization = Finalization(order: int, operator: int, claim: int, document: int, lines: seq<Release>)

  datatype MovementKind = Shipment | CustomerReturn | Reservation | ReservationRelease | OtherMovement

  datatype Movement = Movement(kind: MovementKind, order: Option<int>, item: Option<int>, product: int, quantity: int,
                               onHand: int, reserved: int, admin: int, key: Option<Key>)

  /** `closures` maps a case to whether its bank policy is a test environment. */
  datatype Tables = Tables(
    desk: Desk.Tables, orders: map<int, Order>, items: map<int, Item>, payments: map<int, Payment>,
    confirmations: map<int, Confirmation>, evidence: set<int>, facts: set<Fact>, cases: map<int, Case>,
    closures: map<int, bool>, exceptions: set<int>, claims: map<int, Claim>, refunds: map<int, int>,
    documents: map<int, Document>, finalizations: map<int, Finalization>, ledger: seq<Movement>)

  // ---------------------------------------------------------------- the shop_resolution predicates

  predicate Frozen(t: Tables, order: int) { exists k :: k in t.cases && t.cases[k].order == order }

  predicate FinalizedOrder(t: Tables, order: int) { exists k :: k in t.finalizations && t.finalizations[k].order == order }

  predicate Excepted(t: Tables, order: int) { exists k :: k in t.cases && k in t.exceptions && t.cases[k].order == order }

  predicate Confirmed(t: Tables, order: int) { exists k :: k in t.confirmations && t.confirmations[k].order == order }

  predicate Paid(t: Tables, order: int) { exists k :: k in t.payments && t.payments[k].order == order }

  predicate Pending(t: Tables, k: int)
    requires k in t.cases
  {
    k !in t.finalizations && (t.cases[k].kind.PaidCancellation? || t.cases[k].order !in t.evidence)
  }

  /** shop_resolution_active. */
  predicate Active(t: Tables, order: int) {
    exists k :: k in t.cases && t.cases[k].order == order && (k in t.exceptions || Pending(t, k))
  }

  predicate TestContext(t: Tables, order: int) {
    exists k :: k in t.cases && t.cases[k].order == order && (t.cases[k].test || (k in t.closures && t.closures[k]))
  }

  /** An item of the order, through its row or through the movement's own column. */
  predicate Touches(t: Tables, m: Movement, order: int) {
    m.order == Some(order) || (m.item.Some? && m.item.value in t.items && t.items[m.item.value].order == order)
  }

  /** shop_resolution_no_handover. */
  predicate NoHandover(t: Tables, order: int) {
    && Handover(order) !in t.facts && Fulfilment(order) !in t.facts && Completion(order) !in t.facts && Carriage(order) !in t.facts
    && (forall m :: m in t.ledger && Touches(t, m, order) ==> !m.kind.Shipment? && !m.kind.CustomerReturn? && 0 <= m.onHand)
  }

  /** The return, its refund and its accepted cheque, all of the case's amount. */
  predicate RefundedInFull(t: Tables, k: int, order: int, q: int) {
    && k in t.cases && q in t.claims && t.claims[q].basis == Some(k) && t.claims[q].order == order
    && t.claims[q].amount == t.cases[k].amount && q in t.refunds && t.refunds[q] == t.claims[q].amount
    && exists d :: d in t.documents && t.documents[d].claim == Some(q) && AcceptedCheque(t, t.documents[d].operation)
  }

  predicate AcceptedCheque(t: Tables, o: int) {
    && o in t.desk.operations && t.desk.operations[o].status.Accepted?
    && o in t.desk.acceptances && t.desk.acceptances[o].hash == t.desk.operations[o].identity.hash
  }

  /** shop_resolution_can_close. */
  predicate CanClose(t: Tables, order: int) {
    exists k :: k in t.finalizations && t.finalizations[k].order == order && ClosableBy(t, k, order)
  }

  predicate ClosableBy(t: Tables, k: int, order: int) {
    && k in t.cases && t.cases[k].order == order && NoHandover(t, order)
    && match t.cases[k].kind
       case InvoiceReview => k in t.closures && !Paid(t, order)
       case PaidCancellation => exists q :: q in t.claims && RefundedInFull(t, k, order, q)
  }

  // ---------------------------------------------------------------- guards

  /** What accepted facts pin. */
  predicate SameSale(o: Order, p: Order) {
    p.shop == o.shop && p.simulation == o.simulation && p.delivery == o.delivery && p.total == o.total
  }

  predicate SameEconomics(o: Order, p: Order) { SameSale(o, p) && p.terms == o.terms }

  predicate Cancels(o: Order, p: Order) { p.status.Cancelled? && !o.status.Cancelled? }

  /** protect_shop_order, protect_shop_r2_order and the orders branch of protect_shop_resolution_context. */
  predicate OrderAdmitted(t: Tables, id: int, p: Order) {
    id in t.orders ==>
      var o := t.orders[id];
      && (UnpaidClosure(id) in t.facts || (FinalizedOrder(t, id) && Frozen(t, id)) ==> p.status.Cancelled?)
      && (Confirmed(t, id) || Fulfilment(id) in t.facts ==>
            SameSale(o, p) && (Cancels(o, p) ==> UnpaidClosure(id) in t.facts || CanClose(t, id)))
      && (Intent(id) in t.facts ==> SameEconomics(o, p) && (Cancels(o, p) ==> CanClose(t, id)))
      && (Frozen(t, id) ==> SameEconomics(o, p))
  }

  predicate SameGoods(i: Item, j: Item) {
    j.order == i.order && j.product == i.product && j.quantity == i.quantity && j.goods == i.goods
  }

  /** protect_shop_resolution_items. */
  predicate ItemAdmitted(t: Tables, id: int, j: Item) {
    && (id !in t.items ==> !Frozen(t, j.order))
    && (id in t.items && (Frozen(t, t.items[id].order) || Frozen(t, j.order)) ==>
          && SameGoods(t.items[id], j)
          && (Active(t, j.order) ==> j.fromStock == t.items[id].fromStock && j.received == t.items[id].received))
  }

  /** The money branch of protect_shop_resolution_context. */
  predicate MoneyAdmitted(t: Tables, order: int) {
    forall k :: k in t.cases && t.cases[k].order == order ==>
      !t.cases[k].kind.PaidCancellation? && k !in t.finalizations && k !in t.exceptions
  }

  predicate PaymentAdmitted(t: Tables, id: int, p: Payment) {
    && id !in t.payments && 0 < p.amount && !Paid(t, p.order) && MoneyAdmitted(t, p.order) && UnpaidClosure(p.order) !in t.facts
  }

  predicate ConfirmationAdmitted(t: Tables, id: int, c: Confirmation) {
    && id !in t.confirmations && c.payment in t.payments && MoneyAdmitted(t, c.order) && UnpaidClosure(c.order) !in t.facts
    && (forall k :: k in t.confirmations ==> t.confirmations[k].order != c.order && t.confirmations[k].payment != c.payment)
    && Desk.Admitted(t.desk, Desk.InsertConfirmation(c.order))
  }

  predicate Guarded(f: Fact) { f.Handover? || f.Fulfilment? || f.Completion? || f.Intent? || f.Rival? }

  predicate FactAdmitted(t: Tables, f: Fact) {
    && (Guarded(f) ==> !(Frozen(t, f.order) && (Active(t, f.order) || FinalizedOrder(t, f.order))))
    && (f.Completion? ==> UnpaidClosure(f.order) !in t.facts)
  }

  /** An unresolved operation of the case's register, other than the sale that is being cancelled. */
  predicate ForeignOperation(t: Tables, c: Case, o: int)
    requires o in t.desk.operations
  {
    var q := t.desk.operations[o];
    && Some(q.identity.register) == c.register && Desk.Unresolved(q.status)
    && !(c.kind.PaidCancellation? && q.identity.kind.Sale? && q.identity.order == Some(c.order)
         && exists d :: d in t.documents && t.documents[d].operation == o && t.documents[d].claim.None?
              && t.documents[d].order == c.order && Some(t.documents[d].confirmation) == c.confirmation)
  }

  /** protect_shop_resolution_case. */
  predicate CaseAdmitted(t: Tables, id: int, c: Case) {
    && id !in t.cases && (forall k :: k in t.cases ==> !(t.cases[k].order == c.order && t.cases[k].kind == c.kind))
    && 0 < c.amount && NoHandover(t, c.order) && !Active(t, c.order)
    && c.order in t.orders
    && var o := t.orders[c.order];
    && o.shop && !o.simulation && o.status.Open? && o.total == c.amount
    && Rival(c.order) !in t.facts && (forall q :: q in t.claims ==> t.claims[q].order != c.order)
    && (forall q :: q in t.desk.operations ==> !ForeignOperation(t, c, q))
    && match c.kind
       case PaidCancellation =>
         && c.register.Some? && c.register.value in t.desk.registers
         && c.order in t.desk.bindings && t.desk.bindings[c.order] == c.register.value
         && (t.desk.registers[c.register.value].test ==> c.test)
         && c.confirmation.Some? && c.confirmation.value in t.confirmations && t.confirmations[c.confirmation.value].order == c.order
       case InvoiceReview => c.confirmation.None? && Intent(c.order) in t.facts && !Paid(t, c.order)
  }

  /** validate_shop_bank_closure. */
  predicate ClosureAdmitted(t: Tables, k: int) {
    && k in t.cases && k !in t.closures && t.cases[k].kind.InvoiceReview? && k !in t.exceptions && !Paid(t, t.cases[k].order)
    && (forall d :: d in t.documents ==> t.documents[d].order != t.cases[k].order) && NoHandover(t, t.cases[k].order)
  }

  /** protect_shop_checkbox_return with the cancellation basis. */
  predicate ClaimAdmitted(t: Tables, id: int, q: Claim) {
    && id !in t.claims && 0 < q.amount && !Excepted(t, q.order)
    && q.sale in t.documents
    && var d := t.documents[q.sale];
    && d.claim.None? && d.order == q.order && AcceptedCheque(t, d.operation)
    && var o := t.desk.operations[d.operation];
    && o.identity.register == q.register && q.order in t.desk.bindings && t.desk.bindings[q.order] == q.register
    && q.register in t.desk.registers && t.desk.registers[q.register].open
    && match q.basis
       case None => Fulfilment(q.order) in t.facts
       case Some(k) =>
         && k in t.cases && k !in t.finalizations && (forall p :: p in t.claims ==> t.claims[p].basis != Some(k))
         && t.cases[k].kind.PaidCancellation? && t.cases[k].order == q.order && t.cases[k].register == Some(q.register)
         && t.cases[k].confirmation == Some(d.confirmation) && NoHandover(t, q.order)
         && q.amount == o.identity.amount && q.amount == t.cases[k].amount
         && (TestContext(t, q.order) ==> t.desk.registers[q.register].test)
  }

  /** validate_shop_checkbox_refund. */
  predicate RefundAdmitted(t: Tables, q: int, amount: int) {
    && q in t.claims && q !in t.refunds && amount == t.claims[q].amount && !Excepted(t, t.claims[q].order)
    && t.claims[q].register in t.desk.registers && t.desk.registers[t.claims[q].register].open
  }

  /** validate_shop_checkbox_document. */
  predicate DocumentAdmitted(t: Tables, id: int, d: Document) {
    && id !in t.documents && (forall k :: k in t.documents ==> t.documents[k].operation != d.operation)
    && d.operation in t.desk.operations
    && var o := t.desk.operations[d.operation];
    && o.status.Queued? && o.identity.order == Some(d.order)
    && d.order in t.desk.bindings && t.desk.bindings[d.order] == o.identity.register
    && d.confirmation in t.confirmations && t.confirmations[d.confirmation].order == d.order
    && match d.claim
       case None => o.identity.kind.Sale? && o.identity.amount == t.confirmations[d.confirmation].amount
       case Some(q) =>
         && o.identity.kind.Return? && q in t.claims && t.claims[q].order == d.order && o.identity.amount == t.claims[q].amount
         && q in t.refunds && t.refunds[q] == t.claims[q].amount
         && (t.claims[q].basis.Some? ==>
               var k := t.claims[q].basis.value;
               && k in t.cases && t.cases[k].kind.PaidCancellation? && t.cases[k].order == d.order
               && t.cases[k].register == Some(t.claims[q].register) && NoHandover(t, d.order))
  }

  /** The operations branch of protect_shop_resolution_context, before CheckboxOperations' own guards. */
  predicate OperationContext(t: Tables, s: Desk.Statement) {
    s.PutOperation? ==>
      var o, id := s.operation, s.id;
      && (o.identity.kind.Return? && o.status.Unknown? && id in t.desk.operations && t.desk.operations[id].status.Queued? ==>
            o.identity.order.Some? ==> !Excepted(t, o.identity.order.value))
      && (o.identity.order.Some? && TestContext(t, o.identity.order.value) ==> o.identity.test)
      && (o.identity.kind.ZReport? || o.identity.kind.ShiftClose? ==>
            || (id in t.desk.operations && t.desk.operations[id].dispatched.Some?)
            || forall k :: k in t.cases && t.cases[k].register == Some(o.identity.register) ==> k !in t.exceptions && !Pending(t, k))
  }

  predicate FinalizationAdmitted(t: Tables, k: int, f: Finalization) {
    && k in t.cases && k !in t.finalizations && !FinalizedOrder(t, f.order)
  }

  predicate MovementAdmitted(t: Tables, m: Movement) {
    && 0 < m.quantity && (m.onHand != 0 || m.reserved != 0)
    && (m.key.Some? ==> forall i :: 0 <= i < |t.ledger| ==> t.ledger[i].key != m.key)
  }

  // ---------------------------------------------------------------- statements

  datatype Statement =
    | Provider(statement: Desk.Statement)
    | PutOrder(id: int, order: Order)
    | PutItem(id: int, item: Item)
    | InsertPayment(id: int, payment: Payment)
    | InsertConfirmation(id: int, confirmation: Confirmation)
    | InsertEvidence(of: int)
    | InsertFact(fact: Fact)
    | InsertCase(id: int, binding: Case)
    | InsertClosure(id: int, test: bool)
    | InsertException(id: int)
    | InsertClaim(id: int, claim: Claim)
    | InsertRefund(id: int, amount: int)
    | InsertDocument(id: int, document: Document)
    | InsertFinalization(id: int, finalization: Finalization)
    | InsertMovement(movement: Movement)

  predicate Admitted(t: Tables, s: Statement) {
    match s
    case Provider(p) => !p.InsertConfirmation? && OperationContext(t, p) && Desk.Admitted(t.desk, p)
    case PutOrder(id, o) => OrderAdmitted(t, id, o)
    case PutItem(id, i) => ItemAdmitted(t, id, i)
    case InsertPayment(id, p) => PaymentAdmitted(t, id, p)
    case InsertConfirmation(id, c) => ConfirmationAdmitted(t, id, c)
    case InsertEvidence(of) => MoneyAdmitted(t, of)
    case InsertFact(f) => FactAdmitted(t, f)
    case InsertCase(id, c) => CaseAdmitted(t, id, c)
    case InsertClosure(id, _) => ClosureAdmitted(t, id)
    case InsertException(id) => id in t.cases && t.cases[id].kind.InvoiceReview?
    case InsertClaim(id, q) => ClaimAdmitted(t, id, q)
    case InsertRefund(id, amount) => RefundAdmitted(t, id, amount)
    case InsertDocument(id, d) => DocumentAdmitted(t, id, d)
    case InsertFinalization(id, f) => FinalizationAdmitted(t, id, f)
    case InsertMovement(m) => MovementAdmitted(t, m)
  }

  function Write(t: Tables, s: Statement): Tables {
    match s
    case Provider(p) => t.(desk := Desk.Write(t.desk, p))
    case PutOrder(id, o) => t.(orders := t.orders[id := o])
    case PutItem(id, i) => t.(items := t.items[id := i])
    case InsertPayment(id, p) => t.(payments := t.payments[id := p])
    case InsertConfirmation(id, c) =>
      t.(confirmations := t.confirmations[id := c], desk := Desk.Write(t.desk, Desk.InsertConfirmation(c.order)))
    case InsertEvidence(of) => t.(evidence := t.evidence + {of})
    case InsertFact(f) => t.(facts := t.facts + {f})
    case InsertCase(id, c) => t.(cases := t.cases[id := c])
    case InsertClosure(id, test) => t.(closures := t.closures[id := test])
    case InsertException(id) => t.(exceptions := t.exceptions + {id})
    case InsertClaim(id, q) => t.(claims := t.claims[id := q])
    case InsertRefund(id, amount) => t.(refunds := t.refunds[id := amount])
    case InsertDocument(id, d) => t.(documents := t.documents[id := d])
    case InsertFinalization(id, f) => t.(finalizations := t.finalizations[id := f])
    case InsertMovement(m) => t.(ledger := t.ledger + [m])
  }

  function Step(t: Tables, s: Statement): Option<Tables> {
    if Admitted(t, s) then Some(Write(t, s)) else None
  }

  // ---------------------------------------------------------------- deferred checks

  /** validate_shop_fact for payment confirmations. */
  predicate ConfirmationFact(t: Tables, c: Confirmation) {
    && c.payment in t.payments && c.order in t.orders && t.payments[c.payment].order == c.order
    && t.orders[c.order].shop && !t.orders[c.order].simulation && 0 < t.orders[c.order].total
    && t.payments[c.payment].amount == t.orders[c.order].total && c.amount == t.payments[c.payment].amount
  }

  predicate FactChecked(t: Tables, f: Fact) {
    match f
    case Fulfilment(o) => Handover(o) in t.facts
    case Completion(o) => o in t.orders && t.orders[o].status.Completed? && Confirmed(t, o) && Fulfilment(o) in t.facts
    case UnpaidClosure(o) => Unpaid(t, o)
    case _ => true
  }

  predicate Unpaid(t: Tables, order: int) { !Paid(t, order) && order in t.orders && t.orders[order].status.Cancelled? }

  /** COALESCE(sum(reserved_delta), 0) over the rows of an item of the order. */
  function NetReserved(ledger: seq<Movement>, order: int, item: int, product: int): int {
    if |ledger| == 0 then 0
    else
      var m := ledger[|ledger| - 1];
      NetReserved(ledger[..|ledger| - 1], order, item, product)
      + if m.order == Some(order) && m.item == Some(item) && m.product == product then m.reserved else 0
  }

  function Owned(i: Item): int { i.fromStock + i.received }

  function ReleaseMovement(f: Finalization, l: Release): Movement {
    Movement(ReservationRelease, Some(f.order), Some(l.item), l.product, l.quantity, 0, -l.quantity, f.operator, Some(l.key))
  }

  predicate LineOwned(t: Tables, k: int, f: Finalization, l: Release) {
    && l.item in t.items && t.items[l.item].order == f.order && t.items[l.item].product == l.product
    && 0 < Owned(t.items[l.item]) && l.quantity == Owned(t.items[l.item]) && l.key == ReleaseKey(k, l.item)
  }

  /** One turn of the finalization's loop over the order's items. */
  predicate ItemReleased(t: Tables, k: int, f: Finalization, i: int)
    requires i in t.items
  {
    && NetReserved(t.ledger, f.order, i, t.items[i].product) == 0
    && (0 < Owned(t.items[i]) ==>
          exists n :: 0 <= n < |f.lines| && f.lines[n].item == i && LineOwned(t, k, f, f.lines[n]) && ReleaseMovement(f, f.lines[n]) in t.ledger)
  }

  function OwnedItems(t: Tables, order: int): set<int> {
    set i | i in t.items && t.items[i].order == order && 0 < Owned(t.items[i])
  }

  /** validate_shop_resolution_finalization. */
  predicate Obligations(t: Tables, k: int, f: Finalization) {
    && k in t.cases && t.cases[k].order == f.order && CanClose(t, f.order)
    && f.order in t.orders && t.orders[f.order].status.Cancelled?
    && |f.lines| == |OwnedItems(t, f.order)|
    && (forall i, j :: 0 <= i < j < |f.lines| ==> f.lines[i].item != f.lines[j].item)
    && (forall i :: 0 <= i < |f.lines| ==> LineOwned(t, k, f, f.lines[i]))
    && k !in t.exceptions
    && (t.cases[k].kind.PaidCancellation? ==>
          && f.claim in t.claims && t.claims[f.claim].basis == Some(k)
          && f.document in t.documents && t.documents[f.document].claim == Some(f.claim))
    && (forall i :: i in t.items && t.items[i].order == f.order ==> ItemReleased(t, k, f, i))
  }

  /** A case whose order the movement touches and whose stock is fenced. */
  predicate Governs(t: Tables, m: Movement, k: int)
    requires k in t.cases
  {
    && Touches(t, m, t.cases[k].order)
    && (Active(t, t.cases[k].order) || FinalizedOrder(t, t.cases[k].order))
  }

  /** protect_shop_resolution_stock: the latest governing case must have finalized exactly this release. */
  predicate StockFence(t: Tables, m: Movement) {
    forall k :: k in t.cases && Governs(t, m, k) && (forall j :: j in t.cases && Governs(t, m, j) ==> j <= k) ==> ReleasedBy(t, m, k)
  }

  predicate ReleasedBy(t: Tables, m: Movement, k: int)
    requires k in t.cases
  {
    && k in t.finalizations && m.order == Some(t.cases[k].order)
    && m.item.Some? && m.item.value in t.items && t.items[m.item.value].order == t.cases[k].order
    && t.items[m.item.value].product == m.product
    && exists n :: 0 <= n < |t.finalizations[k].lines| && m == ReleaseMovement(t.finalizations[k].(order := t.cases[k].order), t.finalizations[k].lines[n])
  }

  predicate Check(t: Tables, s: Statement) {
    match s
    case InsertConfirmation(_, c) => ConfirmationFact(t, c)
    case InsertFact(f) => FactChecked(t, f)
    case InsertFinalization(k, f) => Obligations(t, k, f)
    case InsertMovement(m) => StockFence(t, m)
    case _ => true
  }

  // ---------------------------------------------------------------- what every statement keeps

  ghost predicate KeysUnique(ledger: seq<Movement>) {
    forall i, j :: 0 <= i < j < |ledger| && ledger[i].key.Some? ==> ledger[i].key != ledger[j].key
  }

  /** A cheque's operation carries its claim's amount, and an acceptance the operation's. */
  ghost predicate AmountsAgree(t: Tables) {
    && (forall d :: d in t.documents && t.documents[d].claim.Some? ==>
          var o, q := t.documents[d].operation, t.documents[d].claim.value;
          && o in t.desk.operations && q in t.claims && t.desk.operations[o].identity.kind.Return?
          && t.desk.operations[o].identity.amount == t.claims[q].amount)
    && (forall o :: o in t.desk.acceptances ==>
          && o in t.desk.operations
          && (t.desk.operations[o].identity.kind.Return? ==> t.desk.acceptances[o].proof.amount == t.desk.operations[o].identity.amount))
  }

  /** A case fixes its order's total; a paid one names a confirmation of its order. */
  ghost predicate CaseBound(t: Tables, c: Case) {
    && c.order in t.orders && t.orders[c.order].total == c.amount
    && (c.kind.PaidCancellation? ==>
          c.confirmation.Some? && c.confirmation.value in t.confirmations && t.confirmations[c.confirmation.value].order == c.order)
  }

  ghost predicate Invariant(t: Tables) {
    && Desk.Invariant(t.desk) && AmountsAgree(t) && KeysUnique(t.ledger)
    && (forall j, k :: j in t.payments && k in t.payments && j != k ==> t.payments[j].order != t.payments[k].order)
    && (forall k :: k in t.confirmations ==> t.confirmations[k].payment in t.payments)
    && (forall k :: k in t.cases ==> CaseBound(t, t.cases[k]))
    && (forall k :: k in t.finalizations ==> k in t.cases)
    && (forall j, k :: j in t.finalizations && k in t.finalizations && j != k ==> t.finalizations[j].order != t.finalizations[k].order)
  }

  /** The append-only tables, and the goods of frozen orders. */
  ghost predicate RowsKept(t: Tables, u: Tables) {
    && Desk.Later(t.desk, u.desk) && t.facts <= u.facts && t.ledger <= u.ledger
    && t.payments.Items <= u.payments.Items && t.confirmations.Items <= u.confirmations.Items && t.cases.Items <= u.cases.Items
    && t.finalizations.Items <= u.finalizations.Items && t.claims.Items <= u.claims.Items && t.refunds.Items <= u.refunds.Items
    && t.documents.Items <= u.documents.Items
  }

  ghost predicate GoodsKept(t: Tables, u: Tables) {
    && (forall i :: i in t.items && Frozen(t, t.items[i].order) ==> i in u.items && SameGoods(t.items[i], u.items[i]))
    && (forall i :: i in u.items && Frozen(t, u.items[i].order) ==> i in t.items && SameGoods(t.items[i], u.items[i]))
  }

  /** What a finalized case leaves behind, apart from stock. */
  ghost predicate Settled(t: Tables, k: int) {
    && k in t.cases && k in t.finalizations
    && var c := t.cases[k];
    && t.finalizations[k].order == c.order && c.order in t.orders && t.orders[c.order].status.Cancelled?
    && Handover(c.order) !in t.facts && Fulfilment(c.order) !in t.facts && Completion(c.order) !in t.facts
    && match c.kind
       case InvoiceReview => !Paid(t, c.order)
       case PaidCancellation => exists q :: q in t.claims && RefundedInFull(t, k, c.order, q)
  }

  ghost predicate StateKept(t: Tables, u: Tables) {
    && (forall k :: k in t.finalizations && Settled(t, k) ==> Settled(u, k))
    && (forall k :: k in t.confirmations && ConfirmationFact(t, t.confirmations[k]) ==> ConfirmationFact(u, t.confirmations[k]))
    && (forall o :: UnpaidClosure(o) in t.facts && Unpaid(t, o) ==> Unpaid(u, o))
  }

  /** A confirmed order is cancelled only once it is finalized or closed as unpaid. */
  ghost predicate CancelledThrough(t: Tables, u: Tables) {
    forall o :: o in t.orders && !t.orders[o].status.Cancelled? && Confirmed(t, o) && o in u.orders && u.orders[o].status.Cancelled? ==>
      FinalizedOrder(u, o) || UnpaidClosure(o) in u.facts
  }

  ghost predicate Later(t: Tables, u: Tables) {
    RowsKept(t, u) && GoodsKept(t, u) && StateKept(t, u) && CancelledThrough(t, u) && t.orders.Keys <= u.orders.Keys
  }

  // ---------------------------------------------------------------- rows

  lemma Subset<K, V>(m: map<K, V>, n: map<K, V>, k: K)
    requires m.Items <= n.Items && k in m
    ensures k in n && n[k] == m[k]
  {
    assert (k, m[k]) in m.Items;
  }

  lemma Inserted<K, V>(m: map<K, V>, k: K, v: V)
    requires k !in m
    ensures m.Items <= m[k := v].Items
  {
    forall p | p in m.Items ensures p in m[k := v].Items {
      assert m[k := v][p.0] == p.1;
    }
  }

  lemma WriteKeepsRows(t: Tables, s: Statement)
    requires Invariant(t) && Step(t, s).Some?
    ensures RowsKept(t, Write(t, s))
  {
    match s
    case Provider(p) => Desk.StepKeeps(t.desk, p);
    case InsertPayment(id, p) => Inserted(t.payments, id, p);
    case InsertConfirmation(id, c) =>
      Inserted(t.confirmations, id, c);
      Desk.StepKeeps(t.desk, Desk.InsertConfirmation(c.order));
    case InsertCase(id, c) => Inserted(t.cases, id, c);
    case InsertClaim(id, q) => Inserted(t.claims, id, q);
    case InsertRefund(id, amount) => Inserted(t.refunds, id, amount);
    case InsertDocument(id, d) => Inserted(t.documents, id, d);
    case InsertFinalization(id, f) => Inserted(t.finalizations, id, f);
    case _ =>
  }

  lemma ProviderKept(t: Tables, p: Desk.Statement)
    requires Desk.Invariant(t.desk) && AmountsAgree(t) && Step(t, Provider(p)).Some?
    ensures Desk.Invariant(Write(t, Provider(p)).desk) && AmountsAgree(Write(t, Provider(p)))
  {
    Desk.StepKeeps(t.desk, p);
  }

  lemma ConfirmationDesk(t: Tables, id: int, c: Confirmation)
    requires Desk.Invariant(t.desk) && AmountsAgree(t) && Step(t, InsertConfirmation(id, c)).Some?
    ensures Desk.Invariant(Write(t, InsertConfirmation(id, c)).desk) && AmountsAgree(Write(t, InsertConfirmation(id, c)))
  {
    Desk.StepKeeps(t.desk, Desk.InsertConfirmation(c.order));
  }

  /** The other statements leave the provider's tables alone; only a new document has to fit. */
  lemma AmountsKept(t: Tables, s: Statement)
    requires AmountsAgree(t) && Step(t, s).Some? && !s.Provider? && !s.InsertConfirmation?
    ensures Write(t, s).desk == t.desk && AmountsAgree(Write(t, s))
  {}

  lemma DeskKept(t: Tables, s: Statement)
    requires Desk.Invariant(t.desk) && AmountsAgree(t) && Step(t, s).Some?
    ensures Desk.Invariant(Write(t, s).desk) && AmountsAgree(Write(t, s))
  {
    if s.Provider? {
      ProviderKept(t, s.statement);
    } else if s.InsertConfirmation? {
      ConfirmationDesk(t, s.id, s.confirmation);
    } else {
      AmountsKept(t, s);
    }
  }

  lemma CasesBound(t: Tables, s: Statement)
    requires (forall k :: k in t.cases ==> CaseBound(t, t.cases[k])) && Step(t, s).Some?
    ensures forall k :: k in Write(t, s).cases ==> CaseBound(Write(t, s), Write(t, s).cases[k])
  {
    forall k | k in t.cases ensures CaseBound(Write(t, s), t.cases[k]) {
      assert Frozen(t, t.cases[k].order);
    }
  }

  lemma PaymentIndexes(t: Tables, s: Statement)
    requires Invariant(t) && Step(t, s).Some?
    ensures var u := Write(t, s);
      && (forall j, k :: j in u.payments && k in u.payments && j != k ==> u.payments[j].order != u.payments[k].order)
      && (forall k :: k in u.confirmations ==> u.confirmations[k].payment in u.payments)
  {
    if s.InsertPayment? { assert forall k :: k in t.payments ==> t.payments[k].order != s.payment.order; }
  }

  lemma FinalizationIndexes(t: Tables, s: Statement)
    requires Invariant(t) && Step(t, s).Some?
    ensures var u := Write(t, s);
      && (forall k :: k in u.finalizations ==> k in u.cases)
      && (forall j, k :: j in u.finalizations && k in u.finalizations && j != k ==> u.finalizations[j].order != u.finalizations[k].order)
  {
    if s.InsertFinalization? { assert forall k :: k in t.finalizations ==> t.finalizations[k].order != s.finalization.order; }
  }

  /** The unique indexes and foreign keys that the invariant lists. */
  lemma IndexesKept(t: Tables, s: Statement)
    requires Invariant(t) && Step(t, s).Some?
    ensures var u := Write(t, s);
      && KeysUnique(u.ledger)
      && (forall j, k :: j in u.payments && k in u.payments && j != k ==> u.payments[j].order != u.payments[k].order)
      && (forall k :: k in u.confirmations ==> u.confirmations[k].payment in u.payments)
      && (forall k :: k in u.finalizations ==> k in u.cases)
      && (forall j, k :: j in u.finalizations && k in u.finalizations && j != k ==> u.finalizations[j].order != u.finalizations[k].order)
  {
    PaymentIndexes(t, s);
    FinalizationIndexes(t, s);
  }

  lemma StepKeepsInvariant(t: Tables, s: Statement)
    requires Invariant(t) && Step(t, s).Some?
    ensures Invariant(Write(t, s))
  {
    DeskKept(t, s);
    CasesBound(t, s);
    IndexesKept(t, s);
  }

  lemma RefundKept(t: Tables, u: Tables, k: int, q: int)
    requires RowsKept(t, u) && k in t.cases && q in t.claims && RefundedInFull(t, k, t.cases[k].order, q)
    ensures k in u.cases && q in u.claims && RefundedInFull(u, k, u.cases[k].order, q)
  {
    var d :| d in t.documents && t.documents[d].claim == Some(q) && AcceptedCheque(t, t.documents[d].operation);
    Subset(t.cases, u.cases, k);
    Subset(t.claims, u.claims, q);
    Subset(t.refunds, u.refunds, q);
    Subset(t.documents, u.documents, d);
    assert Desk.OperationLater(t.desk.operations[t.documents[d].operation], u.desk.operations[t.documents[d].operation]);
  }

  // ---------------------------------------------------------------- goods, money and status

  lemma WriteKeepsGoods(t: Tables, s: Statement)
    requires Step(t, s).Some?
    ensures GoodsKept(t, Write(t, s)) && t.orders.Keys <= Write(t, s).orders.Keys
  {}

  lemma SettledKept(t: Tables, s: Statement, k: int)
    requires Invariant(t) && Step(t, s).Some? && k in t.finalizations && Settled(t, k)
    ensures Settled(Write(t, s), k)
  {
    var u, c := Write(t, s), t.cases[k];
    WriteKeepsRows(t, s);
    assert Frozen(t, c.order) && FinalizedOrder(t, c.order);
    Subset(t.cases, u.cases, k);
    Subset(t.finalizations, u.finalizations, k);
    if c.kind.PaidCancellation? {
      var q :| q in t.claims && RefundedInFull(t, k, c.order, q);
      RefundKept(t, u, k, q);
    }
  }

  lemma ConfirmationKept(t: Tables, s: Statement, k: int)
    requires Step(t, s).Some? && k in t.confirmations && ConfirmationFact(t, t.confirmations[k])
    ensures ConfirmationFact(Write(t, s), t.confirmations[k])
  {
    assert Confirmed(t, t.confirmations[k].order);
  }

  lemma WriteKeepsState(t: Tables, s: Statement)
    requires Invariant(t) && Step(t, s).Some?
    ensures StateKept(t, Write(t, s))
  {
    var u := Write(t, s);
    forall k | k in t.finalizations && Settled(t, k) ensures Settled(u, k) { SettledKept(t, s, k); }
    forall k | k in t.confirmations && ConfirmationFact(t, t.confirmations[k]) ensures ConfirmationFact(u, t.confirmations[k]) {
      ConfirmationKept(t, s, k);
    }
  }

  /** The guards of a cancelling update ask for the closure or for the finalization that can close. */
  lemma WriteCancels(t: Tables, s: Statement)
    requires Step(t, s).Some?
    ensures CancelledThrough(t, Write(t, s))
  {
    var u := Write(t, s);
    forall o | o in t.orders && !t.orders[o].status.Cancelled? && Confirmed(t, o) && u.orders[o].status.Cancelled?
      ensures FinalizedOrder(u, o) || UnpaidClosure(o) in u.facts
    {
      assert s == PutOrder(o, u.orders[o]) && Cancels(t.orders[o], u.orders[o]);
    }
  }

  lemma StepKeeps(t: Tables, s: Statement)
    requires Invariant(t) && Step(t, s).Some?
    ensures Invariant(Write(t, s)) && Later(t, Write(t, s))
  {
    StepKeepsInvariant(t, s);
    WriteKeepsRows(t, s);
    WriteKeepsGoods(t, s);
    WriteKeepsState(t, s);
    WriteCancels(t, s);
  }

  lemma FrozenKept(t: Tables, u: Tables, order: int)
    requires RowsKept(t, u)
    ensures Frozen(t, order) ==> Frozen(u, order)
    ensures Confirmed(t, order) ==> Confirmed(u, order)
    ensures FinalizedOrder(t, order) ==> FinalizedOrder(u, order)
    ensures Paid(t, order) ==> Paid(u, order)
  {
    if k :| k in t.cases && t.cases[k].order == order { Subset(t.cases, u.cases, k); }
    if k :| k in t.confirmations && t.confirmations[k].order == order { Subset(t.confirmations, u.confirmations, k); }
    if k :| k in t.finalizations && t.finalizations[k].order == order { Subset(t.finalizations, u.finalizations, k); }
    if k :| k in t.payments && t.payments[k].order == order { Subset(t.payments, u.payments, k); }
  }

  lemma GoodsTransitive(s: Tables, t: Tables, u: Tables)
    requires RowsKept(s, t) && GoodsKept(s, t) && GoodsKept(t, u)
    ensures GoodsKept(s, u)
  {
    forall o | Frozen(s, o) ensures Frozen(t, o) { FrozenKept(s, t, o); }
  }

  lemma StateTransitive(s: Tables, t: Tables, u: Tables)
    requires RowsKept(s, t) && StateKept(s, t) && StateKept(t, u)
    ensures StateKept(s, u)
  {
    forall k | k in s.confirmations ensures k in t.confirmations && t.confirmations[k] == s.confirmations[k] {
      Subset(s.confirmations, t.confirmations, k);
    }
    forall k | k in s.finalizations ensures k in t.finalizations { Subset(s.finalizations, t.finalizations, k); }
  }

  lemma CancelsTransitive(s: Tables, t: Tables, u: Tables)
    requires RowsKept(s, t) && RowsKept(t, u) && s.orders.Keys <= t.orders.Keys
    requires CancelledThrough(s, t) && CancelledThrough(t, u)
    ensures CancelledThrough(s, u)
  {
    forall o ensures (Confirmed(s, o) ==> Confirmed(t, o)) && (FinalizedOrder(t, o) ==> FinalizedOrder(u, o)) {
      FrozenKept(s, t, o);
      FrozenKept(t, u, o);
    }
    forall o | o in s.orders ensures o in t.orders { assert o in s.orders.Keys; }
  }

  lemma LaterTransitive(s: Tables, t: Tables, u: Tables)
    requires Later(s, t) && Later(t, u)
    ensures Later(s, u)
  {
    Desk.LaterTransitive(s.desk, t.desk, u.desk);
    GoodsTransitive(s, t, u);
    StateTransitive(s, t, u);
    CancelsTransitive(s, t, u);
  }

  // ---------------------------------------------------------------- transactions

  lemma {:induction false} ExecuteKeepsAll(t: Tables, txn: seq<Statement>)
    requires Invariant(t) && Execute(Step, t, txn).Some?
    ensures var u := Execute(Step, t, txn).value; Invariant(u) && Later(t, u)
  {
    forall t, s | Invariant(t) && Step(t, s).Some? ensures Invariant(Step(t, s).value) && Later(t, Step(t, s).value) {
      StepKeeps(t, s);
    }
    forall s, t, u | Later(s, t) && Later(t, u) ensures Later(s, u) { LaterTransitive(s, t, u); }
    forall t ensures Later(t, t) {}
    ExecuteKeeps(Step, Invariant, t, txn);
    ExecuteAdvances(Step, Invariant, Later, t, txn);
  }

  /** Every new row was some statement's. */
  ghost predicate TracedTo(t: Tables, u: Tables, txn: seq<Statement>) {
    && |t.ledger| <= |u.ledger|
    && (forall i :: |t.ledger| <= i < |u.ledger| ==> InsertMovement(u.ledger[i]) in txn)
    && (forall k :: k in u.finalizations ==> k in t.finalizations || InsertFinalization(k, u.finalizations[k]) in txn)
    && (forall k :: k in u.confirmations ==> k in t.confirmations || InsertConfirmation(k, u.confirmations[k]) in txn)
    && (forall f :: f in u.facts ==> f in t.facts || InsertFact(f) in txn)
  }

  lemma WriteTraced(t: Tables, s: Statement)
    requires Step(t, s).Some?
    ensures TracedTo(t, Write(t, s), [s])
  {
    match s
    case InsertMovement(m) =>
    case InsertFinalization(k, f) =>
    case InsertConfirmation(k, c) =>
    case InsertFact(f) =>
    case _ =>
  }

  lemma TracedTransitive(s: Tables, t: Tables, u: Tables, a: seq<Statement>, b: seq<Statement>)
    requires TracedTo(s, t, a) && TracedTo(t, u, b) && RowsKept(t, u)
    ensures TracedTo(s, u, a + b)
  {
    forall k | k in u.finalizations ensures k in s.finalizations || InsertFinalization(k, u.finalizations[k]) in a + b {
      if k in t.finalizations { Subset(t.finalizations, u.finalizations, k); }
    }
    forall k | k in u.confirmations ensures k in s.confirmations || InsertConfirmation(k, u.confirmations[k]) in a + b {
      if k in t.confirmations { Subset(t.confirmations, u.confirmations, k); }
    }
  }

  lemma {:induction false} Traced(t: Tables, txn: seq<Statement>)
    requires Invariant(t) && Execute(Step, t, txn).Some?
    ensures TracedTo(t, Execute(Step, t, txn).value, txn)
    decreases |txn|
  {
    if txn != [] {
      var w := Write(t, txn[0]);
      StepKeepsInvariant(t, txn[0]);
      Traced(w, txn[1..]);
      RowsOfRun(w, txn[1..]);
      WriteTraced(t, txn[0]);
      TracedTransitive(t, w, Execute(Step, t, txn).value, [txn[0]], txn[1..]);
      assert txn == [txn[0]] + txn[1..];
    }
  }

  lemma RowsOfRun(t: Tables, txn: seq<Statement>)
    requires Invariant(t) && Execute(Step, t, txn).Some?
    ensures RowsKept(t, Execute(Step, t, txn).value)
  {
    ExecuteKeepsAll(t, txn);
  }

  // ---------------------------------------------------------------- stock

  /** The stock side of a finalized case: nothing stays reserved and every listed reservation was released. */
  ghost predicate Released(t: Tables, k: int)
    requires k in t.finalizations
  {
    var f := t.finalizations[k];
    && (forall i :: i in t.items && t.items[i].order == f.order ==> NetReserved(t.ledger, f.order, i, t.items[i].product) == 0)
    && (forall n :: 0 <= n < |f.lines| ==> ReleaseMovement(f, f.lines[n]) in t.ledger)
  }

  lemma ObligationsRelease(t: Tables, k: int)
    requires k in t.finalizations && Obligations(t, k, t.finalizations[k])
    ensures Released(t, k)
  {
    var f := t.finalizations[k];
    forall n | 0 <= n < |f.lines| ensures ReleaseMovement(f, f.lines[n]) in t.ledger {
      assert LineOwned(t, k, f, f.lines[n]) && ItemReleased(t, k, f, f.lines[n].item);
    }
  }

  lemma ObligationsSettle(t: Tables, k: int)
    requires Invariant(t) && k in t.finalizations && Obligations(t, k, t.finalizations[k])
    ensures Settled(t, k)
  {
    var j :| j in t.finalizations && t.finalizations[j].order == t.finalizations[k].order && ClosableBy(t, j, t.finalizations[k].order);
    assert j == k;
  }

  lemma {:induction false} Greatest(s: set<int>, x: int) returns (m: int)
    requires x in s
    ensures m in s && forall y :: y in s ==> y <= m
    decreases s
  {
    m := x;
    if y :| y in s && x < y {
      m := Greatest(s - {x}, y);
      forall z | z in s ensures z <= m { assert z in s - {x} || z == x; }
    } else {
      forall z | z in s ensures z <= m { assert !(x < z); }
    }
  }

  /** The fence admits a touching row only as a listed release of the order's own finalization. */
  lemma FenceReleases(u: Tables, m: Movement, k: int)
    requires Invariant(u) && StockFence(u, m) && k in u.finalizations && k in u.cases && Touches(u, m, u.cases[k].order)
    requires forall j :: j in u.finalizations ==> j in u.cases && u.finalizations[j].order == u.cases[j].order
    ensures exists n :: 0 <= n < |u.finalizations[k].lines| && m == ReleaseMovement(u.finalizations[k], u.finalizations[k].lines[n])
  {
    var governing := set j | j in u.cases && Governs(u, m, j);
    assert FinalizedOrder(u, u.cases[k].order);
    var j := Greatest(governing, k);
    assert Governs(u, m, j) && (forall i :: i in u.cases && Governs(u, m, i) ==> i in governing);
    assert ReleasedBy(u, m, j);
    assert u.cases[j].order == u.cases[k].order;
    assert j == k;
    assert u.finalizations[k].(order := u.cases[k].order) == u.finalizations[k];
  }

  /** After the finalization no admitted row touches its order: it would have to repeat a release. */
  lemma NothingMoves(t: Tables, u: Tables, k: int, i: int)
    requires Invariant(u) && RowsKept(t, u) && k in t.finalizations && Settled(t, k) && Released(t, k)
    requires forall j :: j in u.finalizations ==> j in u.cases && u.finalizations[j].order == u.cases[j].order
    requires |t.ledger| <= i < |u.ledger| && StockFence(u, u.ledger[i])
    ensures !Touches(u, u.ledger[i], t.cases[k].order)
  {
    var m, f := u.ledger[i], t.finalizations[k];
    Subset(t.finalizations, u.finalizations, k);
    Subset(t.cases, u.cases, k);
    forall n | 0 <= n < |f.lines| ensures m != ReleaseMovement(f, f.lines[n]) {
      NoSecondRow(t.ledger, u.ledger, ReleaseMovement(f, f.lines[n]));
    }
    if Touches(u, m, t.cases[k].order) { FenceReleases(u, m, k); }
  }

  /** A keyed row that an append repeats would break the unique index. */
  lemma NoSecondRow(a: seq<Movement>, b: seq<Movement>, m: Movement)
    requires a <= b && m in a && m.key.Some? && KeysUnique(b)
    ensures forall i :: |a| <= i < |b| ==> b[i] != m
  {
    var h :| 0 <= h < |a| && a[h] == m;
    assert b[h] == m;
  }

  lemma {:induction false} NetPrefix(a: seq<Movement>, b: seq<Movement>, order: int, item: int, product: int)
    requires a <= b && forall i :: |a| <= i < |b| ==> b[i].order != Some(order)
    ensures NetReserved(b, order, item, product) == NetReserved(a, order, item, product)
    decreases |b|
  {
    if |a| < |b| { NetPrefix(a, b[..|b| - 1], order, item, product); } else { assert a == b; }
  }

  /** No row written after a finalization touches the order. */
  ghost predicate StockStill(t: Tables, u: Tables) {
    forall k, i :: k in t.finalizations && k in t.cases && |t.ledger| <= i < |u.ledger| ==> !Touches(u, u.ledger[i], t.cases[k].order)
  }

  lemma ReleasedKept(t: Tables, u: Tables, k: int)
    requires RowsKept(t, u) && GoodsKept(t, u) && StockStill(t, u) && k in t.finalizations && Settled(t, k) && Released(t, k)
    ensures k in u.finalizations && Released(u, k)
  {
    Subset(t.finalizations, u.finalizations, k);
    var f := t.finalizations[k];
    assert Frozen(t, f.order);
    forall i | i in u.items && u.items[i].order == f.order ensures NetReserved(u.ledger, f.order, i, u.items[i].product) == 0 {
      NetPrefix(t.ledger, u.ledger, f.order, i, u.items[i].product);
    }
  }

  // ---------------------------------------------------------------- committed states

  ghost predicate Committed(t: Tables) {
    && Invariant(t)
    && (forall k :: k in t.confirmations ==> ConfirmationFact(t, t.confirmations[k]))
    && (forall k :: k in t.finalizations ==> Settled(t, k) && Released(t, k))
    && (forall o :: UnpaidClosure(o) in t.facts ==> Unpaid(t, o))
  }

  ghost predicate CommitLater(t: Tables, u: Tables) { Later(t, u) && StockStill(t, u) }

  lemma FinalizationsMatch(t: Tables, u: Tables, txn: seq<Statement>)
    requires Committed(t) && StateKept(t, u) && TracedTo(t, u, txn) && Passes(Check, u, txn)
    ensures forall j :: j in u.finalizations ==> j in u.cases && u.finalizations[j].order == u.cases[j].order
  {
    forall j | j in u.finalizations ensures j in u.cases && u.finalizations[j].order == u.cases[j].order {
      if j in t.finalizations {
        assert Settled(u, j);
      } else {
        assert Check(u, InsertFinalization(j, u.finalizations[j]));
      }
    }
  }

  lemma StillAfter(t: Tables, u: Tables, txn: seq<Statement>)
    requires Committed(t) && Invariant(u) && Later(t, u) && TracedTo(t, u, txn) && Passes(Check, u, txn)
    ensures StockStill(t, u)
  {
    FinalizationsMatch(t, u, txn);
    forall k, i | k in t.finalizations && k in t.cases && |t.ledger| <= i < |u.ledger| ensures !Touches(u, u.ledger[i], t.cases[k].order) {
      assert Check(u, InsertMovement(u.ledger[i]));
      NothingMoves(t, u, k, i);
    }
  }

  lemma ConfirmationChecked(t: Tables, u: Tables, txn: seq<Statement>, k: int)
    requires Committed(t) && Later(t, u) && TracedTo(t, u, txn) && Passes(Check, u, txn) && k in u.confirmations
    ensures ConfirmationFact(u, u.confirmations[k])
  {
    if k in t.confirmations {
      Subset(t.confirmations, u.confirmations, k);
    } else {
      assert Check(u, InsertConfirmation(k, u.confirmations[k]));
    }
  }

  lemma FinalizationChecked(t: Tables, u: Tables, txn: seq<Statement>, k: int)
    requires Committed(t) && Invariant(u) && Later(t, u) && StockStill(t, u)
    requires TracedTo(t, u, txn) && Passes(Check, u, txn) && k in u.finalizations
    ensures Settled(u, k) && Released(u, k)
  {
    if k in t.finalizations {
      ReleasedKept(t, u, k);
    } else {
      assert Check(u, InsertFinalization(k, u.finalizations[k]));
      ObligationsSettle(u, k);
      ObligationsRelease(u, k);
    }
  }

  lemma ClosureChecked(t: Tables, u: Tables, txn: seq<Statement>, o: int)
    requires Committed(t) && Later(t, u) && TracedTo(t, u, txn) && Passes(Check, u, txn) && UnpaidClosure(o) in u.facts
    ensures Unpaid(u, o)
  {
    if UnpaidClosure(o) !in t.facts { assert Check(u, InsertFact(UnpaidClosure(o))); }
  }

  lemma ChecksCommit(t: Tables, u: Tables, txn: seq<Statement>)
    requires Committed(t) && Invariant(u) && Later(t, u) && TracedTo(t, u, txn) && Passes(Check, u, txn) && StockStill(t, u)
    ensures Committed(u)
  {
    forall k | k in u.confirmations ensures ConfirmationFact(u, u.confirmations[k]) { ConfirmationChecked(t, u, txn, k); }
    forall k | k in u.finalizations ensures Settled(u, k) && Released(u, k) { FinalizationChecked(t, u, txn, k); }
    forall o | UnpaidClosure(o) in u.facts ensures Unpaid(u, o) { ClosureChecked(t, u, txn, o); }
  }

  lemma CommitKeeps(t: Tables, txn: seq<Statement>)
    requires Committed(t)
    ensures Committed(Commit(Step, Check, t, txn)) && CommitLater(t, Commit(Step, Check, t, txn))
  {
    var u := Commit(Step, Check, t, txn);
    if Execute(Step, t, txn).Some? && Passes(Check, Execute(Step, t, txn).value, txn) {
      ExecuteKeepsAll(t, txn);
      Traced(t, txn);
      StillAfter(t, u, txn);
      ChecksCommit(t, u, txn);
    }
  }

  lemma UntouchedKept(t: Tables, u: Tables, m: Movement, order: int)
    requires GoodsKept(t, u) && Frozen(t, order) && !Touches(t, m, order)
    ensures !Touches(u, m, order)
  {
    if m.item.Some? {
      var i := m.item.value;
      assert i in u.items && Frozen(t, u.items[i].order) ==> i in t.items && SameGoods(t.items[i], u.items[i]);
    }
  }

  lemma CommitLaterTransitive(s: Tables, t: Tables, u: Tables)
    requires CommitLater(s, t) && CommitLater(t, u)
    ensures CommitLater(s, u)
  {
    LaterTransitive(s, t, u);
    forall k, i | k in s.finalizations && k in s.cases && |s.ledger| <= i < |u.ledger| ensures !Touches(u, u.ledger[i], s.cases[k].order) {
      Subset(s.finalizations, t.finalizations, k);
      Subset(s.cases, t.cases, k);
      assert Frozen(t, s.cases[k].order);
      if i < |t.ledger| {
        assert !Touches(t, t.ledger[i], s.cases[k].order);
        UntouchedKept(t, u, u.ledger[i], s.cases[k].order);
      } else {
        assert !Touches(u, u.ledger[i], t.cases[k].order);
      }
    }
  }

  lemma HistoryCommitted(t: Tables, txns: seq<seq<Statement>>)
    requires Committed(t)
    ensures var u := History(Step, Check, t, txns); Committed(u) && CommitLater(t, u)
  {
    forall t, txn | Committed(t) ensures Committed(Commit(Step, Check, t, txn)) && CommitLater(t, Commit(Step, Check, t, txn)) {
      CommitKeeps(t, txn);
    }
    forall s, t, u | CommitLater(s, t) && CommitLater(t, u) ensures CommitLater(s, u) { CommitLaterTransitive(s, t, u); }
    forall t ensures CommitLater(t, t) {}
    HistoryKeeps(Step, Check, Committed, CommitLater, t, txns);
  }

  // ---------------------------------------------------------------- main results

  /** An accepted cheque for the claim, whose acceptance proves this amount. */
  ghost predicate ChequeOf(t: Tables, q: int, amount: int) {
    exists d :: d in t.documents && t.documents[d].claim == Some(q) && AcceptedCheque(t, t.documents[d].operation)
      && t.desk.acceptances[t.documents[d].operation].proof.amount == amount
  }

  ghost predicate MoneyReturned(t: Tables, k: int, total: int)
    requires k in t.cases
  {
    && (exists p :: p in t.payments && t.payments[p].order == t.cases[k].order && t.payments[p].amount == total)
    && (exists q :: q in t.claims && t.claims[q].basis == Some(k) && t.claims[q].amount == total
          && q in t.refunds && t.refunds[q] == total && ChequeOf(t, q, total))
  }

  ghost predicate OnceOnly(ledger: seq<Movement>, m: Movement) {
    && m in ledger
    && forall i, j :: 0 <= i < |ledger| && 0 <= j < |ledger| && ledger[i].key == m.key && ledger[j].key == m.key ==> i == j
  }

  /** Order total, payment, accepted return cheque and refund agree; every listed reservation was released once; nothing stays reserved. */
  ghost predicate Discharged(t: Tables, k: int) {
    && k in t.cases && k in t.finalizations && t.cases[k].order in t.orders
    && var o := t.cases[k].order;
    && t.orders[o].status.Cancelled? && MoneyReturned(t, k, t.orders[o].total)
    && Handover(o) !in t.facts && Fulfilment(o) !in t.facts && Completion(o) !in t.facts
    && (forall i :: i in t.items && t.items[i].order == o ==> NetReserved(t.ledger, o, i, t.items[i].product) == 0)
    && (forall n :: 0 <= n < |t.finalizations[k].lines| ==> OnceOnly(t.ledger, ReleaseMovement(t.finalizations[k], t.finalizations[k].lines[n])))
  }

  lemma MoneyMatches(t: Tables, k: int)
    requires Committed(t) && k in t.finalizations && k in t.cases && t.cases[k].kind.PaidCancellation?
    ensures t.cases[k].order in t.orders && MoneyReturned(t, k, t.orders[t.cases[k].order].total)
  {
    var c := t.cases[k];
    assert CaseBound(t, c) && Settled(t, k);
    var n := c.confirmation.value;
    assert n in t.confirmations && ConfirmationFact(t, t.confirmations[n]);
    var q :| q in t.claims && RefundedInFull(t, k, c.order, q);
    var d :| d in t.documents && t.documents[d].claim == Some(q) && AcceptedCheque(t, t.documents[d].operation);
    assert ChequeOf(t, q, c.amount);
  }

  lemma CommittedDischarged(t: Tables, k: int)
    requires Committed(t) && k in t.finalizations && k in t.cases && t.cases[k].kind.PaidCancellation?
    ensures Discharged(t, k)
  {
    MoneyMatches(t, k);
    var f := t.finalizations[k];
    assert Settled(t, k) && Released(t, k);
    forall n | 0 <= n < |f.lines| ensures OnceOnly(t.ledger, ReleaseMovement(f, f.lines[n])) {
      assert ReleaseMovement(f, f.lines[n]).key.Some?;
    }
  }

  /** The transaction that finalizes a case commits only on tables that meet all its obligations. */
  lemma FinalizedWithObligations(t: Tables, txn: seq<Statement>, k: int)
    requires Committed(t) && k !in t.finalizations && k in Commit(Step, Check, t, txn).finalizations
    ensures var u := Commit(Step, Check, t, txn); Obligations(u, k, u.finalizations[k])
  {
    var u := Commit(Step, Check, t, txn);
    Traced(t, txn);
    assert Check(u, InsertFinalization(k, u.finalizations[k]));
  }

  /** The one row that releases everything that item i owned in v. */
  function OwnedRelease(v: Tables, k: int, i: int): Movement
    requires k in v.finalizations && i in v.items
  {
    var f := v.finalizations[k];
    Movement(ReservationRelease, Some(f.order), Some(i), v.items[i].product, Owned(v.items[i]), 0, -Owned(v.items[i]), f.operator,
             Some(ReleaseKey(k, i)))
  }

  /** Every reservation that v's items of the order owned is released on the ledger, exactly once. */
  ghost predicate OwnedReleased(v: Tables, k: int, ledger: seq<Movement>)
    requires k in v.finalizations
  {
    forall i :: i in v.items && v.items[i].order == v.finalizations[k].order && 0 < Owned(v.items[i]) ==>
      OnceOnly(ledger, OwnedRelease(v, k, i))
  }

  lemma ObligationsCover(v: Tables, k: int, ledger: seq<Movement>)
    requires k in v.finalizations && Obligations(v, k, v.finalizations[k]) && v.ledger <= ledger && KeysUnique(ledger)
    ensures OwnedReleased(v, k, ledger)
  {
    var f := v.finalizations[k];
    forall i | i in v.items && v.items[i].order == f.order && 0 < Owned(v.items[i]) ensures OnceOnly(ledger, OwnedRelease(v, k, i)) {
      assert ItemReleased(v, k, f, i);
      var n :| 0 <= n < |f.lines| && f.lines[n].item == i && LineOwned(v, k, f, f.lines[n]) && ReleaseMovement(f, f.lines[n]) in v.ledger;
      assert ReleaseMovement(f, f.lines[n]) == OwnedRelease(v, k, i);
      assert OwnedRelease(v, k, i) in ledger && OwnedRelease(v, k, i).key.Some?;
    }
  }

  /** v finalized case k on fulfilled obligations, and u is a later state. */
  ghost predicate FinalizedIn(v: Tables, u: Tables, k: int) {
    && k in v.finalizations && k in u.finalizations && v.finalizations[k] == u.finalizations[k]
    && Obligations(v, k, v.finalizations[k]) && v.ledger <= u.ledger
  }

  lemma FinalizedLater(v: Tables, s: Tables, u: Tables, k: int)
    requires FinalizedIn(v, s, k) && CommitLater(s, u)
    ensures FinalizedIn(v, u, k)
  {
    Subset(s.finalizations, u.finalizations, k);
  }

  /** The last transaction of a history. */
  lemma LastCommit(t: Tables, txns: seq<seq<Statement>>) returns (s: Tables)
    requires Committed(t) && txns != []
    ensures s == History(Step, Check, t, txns[..|txns| - 1]) && Committed(s)
    ensures History(Step, Check, t, txns) == Commit(Step, Check, s, txns[|txns| - 1])
    ensures CommitLater(s, History(Step, Check, t, txns))
  {
    s := History(Step, Check, t, txns[..|txns| - 1]);
    HistoryCommitted(t, txns[..|txns| - 1]);
    CommitKeeps(s, txns[|txns| - 1]);
  }

  /** Transaction n of the history finalizes case k. */
  ghost predicate FinalizedAt(t: Tables, txns: seq<seq<Statement>>, k: int, n: nat) {
    && n < |txns| && k !in History(Step, Check, t, txns[..n]).finalizations
    && FinalizedIn(History(Step, Check, t, txns[..n + 1]), History(Step, Check, t, txns), k)
  }

  lemma FinalizedBefore(t: Tables, txns: seq<seq<Statement>>, k: int, n: nat)
    requires txns != [] && FinalizedAt(t, txns[..|txns| - 1], k, n)
    requires CommitLater(History(Step, Check, t, txns[..|txns| - 1]), History(Step, Check, t, txns))
    ensures FinalizedAt(t, txns, k, n)
  {
    assert txns[..|txns| - 1][..n] == txns[..n] && txns[..|txns| - 1][..n + 1] == txns[..n + 1];
    FinalizedLater(History(Step, Check, t, txns[..n + 1]), History(Step, Check, t, txns[..|txns| - 1]), History(Step, Check, t, txns), k);
  }

  /** A case that a history finalizes was finalized by one of its transactions. */
  lemma {:induction false} FinalizingCommit(t: Tables, txns: seq<seq<Statement>>, k: int) returns (n: nat)
    requires Committed(t) && k !in t.finalizations && k in History(Step, Check, t, txns).finalizations
    ensures FinalizedAt(t, txns, k, n)
    decreases |txns|
  {
    n := |txns| - 1;
    var s := LastCommit(t, txns);
    if k in s.finalizations {
      n := FinalizingCommit(t, txns[..|txns| - 1], k);
      FinalizedBefore(t, txns, k, n);
    } else {
      FinalizedWithObligations(s, txns[n], k);
      assert txns[..n + 1] == txns;
    }
  }

  /** Transaction n finalized the case; what its items owned at that commit is released, and money and status are settled. */
  ghost predicate CancelledInFull(t: Tables, txns: seq<seq<Statement>>, k: int, n: nat) {
    && FinalizedAt(t, txns, k, n) && Discharged(History(Step, Check, t, txns), k)
    && OwnedReleased(History(Step, Check, t, txns[..n + 1]), k, History(Step, Check, t, txns).ledger)
  }

  /**
   A paid cancellation that any history finalizes: in every committed state from then on order total =
   payment = accepted return receipt = refund, and every reservation that the order's items owned in
   the finalizing commit is released by exactly one row, of exactly the owned quantity, leaving none.
   */
  lemma FinalizedCancellation(t: Tables, txns: seq<seq<Statement>>, k: int) returns (n: nat)
    requires Committed(t) && k !in t.finalizations
    requires var u := History(Step, Check, t, txns); k in u.finalizations && k in u.cases && u.cases[k].kind.PaidCancellation?
    ensures CancelledInFull(t, txns, k, n)
  {
    n := FinalizingCommit(t, txns, k);
    var v, u := History(Step, Check, t, txns[..n + 1]), History(Step, Check, t, txns);
    HistoryCommitted(t, txns);
    CommittedDischarged(u, k);
    ObligationsCover(v, k, u.ledger);
  }

  /** From then on the order stays cancelled at the same total, with the same one payment and untouched stock. */
  lemma CancellationIsFinal(t: Tables, txns: seq<seq<Statement>>, k: int)
    requires Committed(t) && k in t.finalizations && k in t.cases && t.cases[k].kind.PaidCancellation?
    ensures var u := History(Step, Check, t, txns); var o := t.cases[k].order;
      && Discharged(u, k) && u.cases[k] == t.cases[k] && u.finalizations[k] == t.finalizations[k]
      && u.orders[o].total == t.orders[o].total
      && (forall p :: p in u.payments && u.payments[p].order == o ==> p in t.payments)
      && t.ledger <= u.ledger && (forall i :: |t.ledger| <= i < |u.ledger| ==> !Touches(u, u.ledger[i], o))
  {
    HistoryCommitted(t, txns);
    var u := History(Step, Check, t, txns);
    Subset(t.cases, u.cases, k);
    Subset(t.finalizations, u.finalizations, k);
    CommittedDischarged(t, k);
    CommittedDischarged(u, k);
    assert CaseBound(t, t.cases[k]) && CaseBound(u, t.cases[k]);
    var p :| p in t.payments && t.payments[p].order == t.cases[k].order;
    Subset(t.payments, u.payments, p);
  }

  /** A paid order is only ever cancelled by refunding it in full. */
  lemma PaidOrdersCancelByRefund(t: Tables, txns: seq<seq<Statement>>, order: int) returns (k: int)
    requires Committed(t) && Confirmed(t, order) && order in t.orders && !t.orders[order].status.Cancelled?
    requires var u := History(Step, Check, t, txns); order in u.orders && u.orders[order].status.Cancelled?
    ensures var u := History(Step, Check, t, txns);
      k in u.cases && u.cases[k].order == order && u.cases[k].kind.PaidCancellation? && Discharged(u, k)
  {
    HistoryCommitted(t, txns);
    var u := History(Step, Check, t, txns);
    FrozenKept(t, u, order);
    var c :| c in u.confirmations && u.confirmations[c].order == order;
    assert ConfirmationFact(u, u.confirmations[c]);
    assert Paid(u, order) && UnpaidClosure(order) !in u.facts;
    k :| k in u.finalizations && u.finalizations[k].order == order;
    assert Settled(u, k);
    CommittedDischarged(u, k);
  }

  /** A finalized invoice review never sees money for its order. */
  lemma ClosedReviewStaysUnpaid(t: Tables, txns: seq<seq<Statement>>, k: int)
    requires Committed(t) && k in t.finalizations && k in t.cases && t.cases[k].kind.InvoiceReview?
    ensures var u := History(Step, Check, t, txns); var o := t.cases[k].order;
      !Paid(u, o) && o in u.orders && u.orders[o].status.Cancelled?
  {
    HistoryCommitted(t, txns);
    var u := History(Step, Check, t, txns);
    Subset(t.cases, u.cases, k);
    Subset(t.finalizations, u.finalizations, k);
    assert Settled(u, k);
  }

  lemma {:induction false} NetWithout(ledger: seq<Movement>, r: nat, order: int, item: int, product: int)
    requires r < |ledger| && ledger[r].order == Some(order) && ledger[r].item == Some(item) && ledger[r].product == product
    ensures NetReserved(ledger, order, item, product)
         == NetReserved(ledger[..r] + ledger[r + 1..], order, item, product) + ledger[r].reserved
  {
    var n := |ledger| - 1;
    var rest := ledger[..r] + ledger[r + 1..];
    if r < n {
      NetWithout(ledger[..n], r, order, item, product);
      assert rest[..|rest| - 1] == ledger[..n][..r] + ledger[..n][r + 1..];
    } else {
      assert rest == ledger[..n];
    }
  }

  lemma ItemReturned(t: Tables, k: int, f: Finalization, i: int) returns (r: nat)
    requires i in t.items && ItemReleased(t, k, f, i) && 0 < Owned(t.items[i])
    ensures r < |t.ledger| && t.ledger[r].kind.ReservationRelease? && t.ledger[r].key == Some(ReleaseKey(k, i))
    ensures t.ledger[r].onHand == 0 && t.ledger[r].quantity == Owned(t.items[i]) && t.ledger[r].admin == f.operator
    ensures NetReserved(t.ledger[..r] + t.ledger[r + 1..], f.order, i, t.items[i].product) == Owned(t.items[i])
  {
    var n :| 0 <= n < |f.lines| && f.lines[n].item == i && LineOwned(t, k, f, f.lines[n]) && ReleaseMovement(f, f.lines[n]) in t.ledger;
    r :| 0 <= r < |t.ledger| && t.ledger[r] == ReleaseMovement(f, f.lines[n]);
    NetWithout(t.ledger, r, f.order, i, t.items[i].product);
  }

  /**
   A finalization releases exactly what was reserved: without its own release row, the ledger of an
   owned item shows precisely the owned quantity as reserved.
   */
  lemma ReservationsReturned(t: Tables, k: int, f: Finalization, i: int) returns (r: nat)
    requires Obligations(t, k, f) && i in t.items && t.items[i].order == f.order && 0 < Owned(t.items[i])
    ensures r < |t.ledger| && t.ledger[r].kind.ReservationRelease? && t.ledger[r].key == Some(ReleaseKey(k, i))
    ensures t.ledger[r].onHand == 0 && t.ledger[r].quantity == Owned(t.items[i]) && t.ledger[r].admin == f.operator
    ensures NetReserved(t.ledger[..r] + t.ledger[r + 1..], f.order, i, t.items[i].product) == Owned(t.items[i])
  {
    assert ItemReleased(t, k, f, i);
    r := ItemReturned(t, k, f, i);
  }

  /** A paid order of 10.00 with one reserved item, refunded and receipted but not yet finalized. */
  function RefundedOrder(): Tables {
    var sale := Desk.Identity(1, Some(7), Desk.Sale, false, Some(21), Some(3), 9, 1000, 51);
    var cheque := Desk.Identity(1, Some(7), Desk.Return, false, Some(22), Some(3), 9, 1000, 52);
    Tables(
      Desk.Tables(map[1 := Desk.Register(9, false, true, 3)],
                  map[5 := Desk.Operation(sale, Desk.Accepted, 3, Some(100)), 6 := Desk.Operation(cheque, Desk.Accepted, 3, Some(200))],
                  map[5 := Desk.Acceptance(31, 51, Desk.Proof(true, true, false, 9, Some(21), 51, Some(3), 1000, Desk.Sale, true, true)),
                      6 := Desk.Acceptance(32, 52, Desk.Proof(true, true, false, 9, Some(22), 52, Some(3), 1000, Desk.Return, true, true))],
                  {}, map[7 := 1], {7}),
      map[7 := Order(true, false, 0, 0, 1000, Open(0))], map[2 := Item(7, 30, 1, 1000, 1, 0)],
      map[1 := Payment(7, 1000)], map[1 := Confirmation(7, 1, 1000)], {}, {},
      map[4 := Case(7, PaidCancellation, Some(1), Some(1), false, 1000)], map[], {},
      map[8 := Claim(7, 10, 1000, Some(4), 1)], map[8 := 1000],
      map[10 := Document(7, 5, 1, None), 11 := Document(7, 6, 1, Some(8))], map[],
      [Movement(Reservation, Some(7), Some(2), 30, 1, 0, 1, 99, Some(OtherKey("reserve")))])
  }

  const FINALIZATION := Finalization(7, 99, 8, 11, [Release(2, 30, 1, ReleaseKey(4, 2))])

  const RELEASE := ReleaseMovement(FINALIZATION, Release(2, 30, 1, ReleaseKey(4, 2)))

  const CANCELLED_ORDER := Order(true, false, 0, 0, 1000, Cancelled)

  function FinalizedTables(): Tables { RefundedOrder().(finalizations := map[4 := FINALIZATION]) }

  function CancelledTables(): Tables { FinalizedTables().(orders := map[7 := CANCELLED_ORDER]) }

  function ReleasedTables(): Tables { CancelledTables().(ledger := CancelledTables().ledger + [RELEASE]) }

  lemma RefundedDesk()
    ensures Desk.Invariant(RefundedOrder().desk) && AmountsAgree(RefundedOrder())
  {}

  lemma RefundedOrderCommitted()
    ensures Committed(RefundedOrder())
  {
    var t := RefundedOrder();
    RefundedDesk();
    assert ConfirmationFact(t, t.confirmations[1]);
    assert CaseBound(t, t.cases[4]);
    assert t.finalizations.Keys == {} && t.facts == {};
  }

  lemma Closable()
    ensures CanClose(ReleasedTables(), 7)
  {
    var u := ReleasedTables();
    assert RefundedInFull(u, 4, 7, 8) by {
      assert u.documents[11].claim == Some(8) && AcceptedCheque(u, 6);
    }
    assert ClosableBy(u, 4, 7);
  }

  lemma NothingReserved()
    ensures NetReserved(ReleasedTables().ledger, 7, 2, 30) == 0
  {
    var l := ReleasedTables().ledger;
    assert l[..1] == RefundedOrder().ledger && l[..1][..0] == [];
    assert NetReserved(l[..1], 7, 2, 30) == 1;
  }

  lemma FinalChecks()
    ensures Obligations(ReleasedTables(), 4, FINALIZATION) && StockFence(ReleasedTables(), RELEASE)
  {
    var u := ReleasedTables();
    Closable();
    NothingReserved();
    assert OwnedItems(u, 7) == {2};
    assert LineOwned(u, 4, FINALIZATION, FINALIZATION.lines[0]) && u.ledger[1] == RELEASE;
    assert ItemReleased(u, 4, FINALIZATION, 2);
    assert ReleasedBy(u, RELEASE, 4);
  }

  lemma FinalizationInserted()
    ensures Step(RefundedOrder(), InsertFinalization(4, FINALIZATION)) == Some(FinalizedTables())
  {
    assert RefundedOrder().finalizations[4 := FINALIZATION] == map[4 := FINALIZATION];
  }

  lemma OrderCancelled()
    ensures Step(FinalizedTables(), PutOrder(7, CANCELLED_ORDER)) == Some(CancelledTables())
  {
    var u := FinalizedTables();
    assert RefundedInFull(u, 4, 7, 8) by {
      assert u.documents[11].claim == Some(8) && AcceptedCheque(u, 6);
    }
    assert ClosableBy(u, 4, 7) && CanClose(u, 7);
    assert u.orders[7 := CANCELLED_ORDER] == map[7 := CANCELLED_ORDER];
  }

  lemma StockReleased()
    ensures Step(CancelledTables(), InsertMovement(RELEASE)) == Some(ReleasedTables())
  {}

  lemma FinalizingCommits(t: Tables, u: Tables, v: Tables, w: Tables, a: Statement, b: Statement, c: Statement)
    requires Step(t, a) == Some(u) && Step(u, b) == Some(v) && Step(v, c) == Some(w) && Committed(t)
    requires a.InsertFinalization? && b.PutOrder? && c.InsertMovement?
    requires Obligations(w, a.id, a.finalization) && StockFence(w, c.movement)
    ensures Commit(Step, Check, t, [a, b, c]) == w && Committed(w)
  {
    ThreeStatements(Step, Check, t, u, v, w, a, b, c);
    CommitKeeps(t, [a, b, c]);
  }

  /** The protocol gets there: one transaction finalizes, cancels and releases, in this order. */
  lemma CancellationReachable() returns (t: Tables, txn: seq<Statement>, k: int)
    ensures Committed(t) && k !in t.finalizations && k in t.cases && t.cases[k].kind.PaidCancellation?
    ensures Discharged(Commit(Step, Check, t, txn), k)
  {
    t, txn, k := RefundedOrder(), [InsertFinalization(4, FINALIZATION), PutOrder(7, CANCELLED_ORDER), InsertMovement(RELEASE)], 4;
    RefundedOrderCommitted();
    FinalizationInserted();
    OrderCancelled();
    StockReleased();
    FinalChecks();
    FinalizingCommits(t, FinalizedTables(), CancelledTables(), ReleasedTables(), txn[0], txn[1], txn[2]);
    CommittedDischarged(ReleasedTables(), k);
  }

  // ---------------------------------------------------------------- the triggers

  class ResolutionDatabase {
    var desk: Desk.Tables
    var orders: map<int, Order>
    var items: map<int, Item>
    var payments: map<int, Payment>
    var confirmations: map<int, Confirmation>
    var evidence: set<int>
    var facts: set<Fact>
    var cases: map<int, Case>
    var closures: map<int, bool>
    var exceptions: set<int>
    var claims: map<int, Claim>
    var refunds: map<int, int>
    var documents: map<int, Document>
    var finalizations: map<int, Finalization>
    var ledger: seq<Movement>

    function View(): Tables reads this {
      Tables(desk, orders, items, payments, confirmations, evidence, facts, cases, closures, exceptions, claims, refunds,
             documents, finalizations, ledger)
    }

    constructor (t: Tables)
      ensures View() == t
    {
      desk, orders, items, payments, confirmations := t.desk, t.orders, t.items, t.payments, t.confirmations;
      evidence, facts, cases, closures, exceptions := t.evidence, t.facts, t.cases, t.closures, t.exceptions;
      claims, refunds, documents, finalizations, ledger := t.claims, t.refunds, t.documents, t.finalizations, t.ledger;
    }

    method RestoreMoney(t: Tables)
      modifies `desk, `orders, `items, `payments, `confirmations, `evidence, `claims, `refunds, `documents
      ensures desk == t.desk && orders == t.orders && items == t.items && payments == t.payments
      ensures confirmations == t.confirmations && evidence == t.evidence
      ensures claims == t.claims && refunds == t.refunds && documents == t.documents
    {
      desk, orders, items, payments, confirmations := t.desk, t.orders, t.items, t.payments, t.confirmations;
      evidence, claims, refunds, documents := t.evidence, t.claims, t.refunds, t.documents;
    }

    method Restore(t: Tables)
      modifies this
      ensures View() == t
    {
      RestoreMoney(t);
      facts, cases, closures, exceptions, finalizations, ledger := t.facts, t.cases, t.closures, t.exceptions, t.finalizations, t.ledger;
    }

    /** The three BEFORE UPDATE triggers on orders, in turn. */
    method WriteOrder(id: int, p: Order) returns (ok: bool)
      modifies this`orders
      ensures ok == Admitted(old(View()), PutOrder(id, p))
      ensures View() == if ok then Write(old(View()), PutOrder(id, p)) else old(View())
    {
      if id in orders {
        var o := orders[id];
        if UnpaidClosure(id) in facts && !p.status.Cancelled? {
          return false;
        }
        if Confirmed(View(), id) || Fulfilment(id) in facts {
          if !SameSale(o, p) || (Cancels(o, p) && UnpaidClosure(id) !in facts && !CanClose(View(), id)) {
            return false;
          }
        }
        if Intent(id) in facts && (!SameEconomics(o, p) || (Cancels(o, p) && !CanClose(View(), id))) {
          return false;
        }
        if Frozen(View(), id) && (!SameEconomics(o, p) || (FinalizedOrder(View(), id) && !p.status.Cancelled?)) {
          return false;
        }
      }
      orders := orders[id := p];
      ok := true;
    }

    /** SELECT COALESCE(sum(reserved_delta), 0) over the rows of one item. */
    method ReservedOf(order: int, item: int, product: int) returns (released: int)
      ensures released == NetReserved(ledger, order, item, product)
    {
      released := 0;
      for n := 0 to |ledger|
        invariant released == NetReserved(ledger[..n], order, item, product)
      {
        assert ledger[..n + 1][..n] == ledger[..n];
        var m := ledger[n];
        if m.order == Some(order) && m.item == Some(item) && m.product == product {
          released := released + m.reserved;
        }
      }
      assert ledger[..|ledger|] == ledger;
    }

    /** The loop of validate_shop_resolution_finalization over the order's items. */
    method EveryReservationReleased(k: int, f: Finalization) returns (ok: bool)
      ensures ok == forall i :: i in items && items[i].order == f.order ==> ItemReleased(View(), k, f, i)
    {
      var todo := set i | i in items && items[i].order == f.order;
      while exists i :: i in todo
        invariant todo <= items.Keys
        invariant forall i :: i in items && items[i].order == f.order ==> i in todo || ItemReleased(View(), k, f, i)
        invariant forall i :: i in todo ==> i in items && items[i].order == f.order
        decreases todo
      {
        var i :| i in todo;
        var released := ReservedOf(f.order, i, items[i].product);
        if released != 0 {
          return false;
        }
        if 0 < Owned(items[i])
           && !exists n :: 0 <= n < |f.lines| && f.lines[n].item == i && LineOwned(View(), k, f, f.lines[n])
                && ReleaseMovement(f, f.lines[n]) in ledger {
          return false;
        }
        todo := todo - {i};
      }
      ok := true;
    }

    /** validate_shop_resolution_finalization. */
    method ValidateFinalization(k: int, f: Finalization) returns (ok: bool)
      ensures ok == Obligations(View(), k, f)
    {
      if k !in cases || cases[k].order != f.order || !CanClose(View(), f.order)
         || f.order !in orders || !orders[f.order].status.Cancelled? || |f.lines| != |OwnedItems(View(), f.order)|
         || k in exceptions {
        return false;
      }
      if exists i, j :: 0 <= i < j < |f.lines| && f.lines[i].item == f.lines[j].item {
        return false;
      }
      if exists i :: 0 <= i < |f.lines| && !LineOwned(View(), k, f, f.lines[i]) {
        return false;
      }
      if cases[k].kind.PaidCancellation?
         && !(f.claim in claims && claims[f.claim].basis == Some(k)
              && f.document in documents && documents[f.document].claim == Some(f.claim)) {
        return false;
      }
      ok := EveryReservationReleased(k, f);
    }

    method Run(s: Statement) returns (ok: bool)
      modifies this
      ensures ok == Step(old(View()), s).Some?
      ensures View() == if ok then Step(old(View()), s).value else old(View())
    {
      match s
      case PutOrder(id, o) => ok := WriteOrder(id, o);
      case _ =>
        ok := Admitted(View(), s);
        if ok {
          Restore(Write(View(), s));
        }
    }

    method Deferred(s: Statement) returns (ok: bool)
      ensures ok == Check(View(), s)
    {
      match s
      case InsertFinalization(k, f) => ok := ValidateFinalization(k, f);
      case _ => ok := Check(View(), s);
    }

    /** The statements in turn, up to the first one that raises. */
    method RunAll(txn: seq<Statement>) returns (ok: bool)
      modifies this
      ensures ok == Execute(Step, old(View()), txn).Some?
      ensures ok ==> View() == Execute(Step, old(View()), txn).value
    {
      ghost var before := View();
      for i := 0 to |txn|
        invariant Execute(Step, before, txn) == Execute(Step, View(), txn[i..])
      {
        ok := Run(txn[i]);
        if !ok {
          return;
        }
      }
      ok := true;
    }

    /** The deferred constraint triggers, on the tables at commit. */
    method CheckAll(txn: seq<Statement>) returns (ok: bool)
      ensures ok == Passes(Check, View(), txn)
    {
      for i := 0 to |txn|
        invariant forall j :: 0 <= j < i ==> Check(View(), txn[j])
      {
        var passes := Deferred(txn[i]);
        if !passes {
          return false;
        }
      }
      ok := true;
    }

    method Transact(txn: seq<Statement>) returns (committed: bool)
      modifies this
      ensures View() == Commit(Step, Check, old(View()), txn)
      ensures old(Committed(View())) ==> Committed(View()) && CommitLater(old(View()), View())
    {
      var before := View();
      committed := RunAll(txn);
      if committed {
        committed := CheckAll(txn);
      }
      if !committed {
        Restore(before);
      }
      if Committed(before) {
        CommitKeeps(before, txn);
      }
    }
  }
}
