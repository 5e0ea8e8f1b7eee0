/**
 Live checkout of a master's own sale through monobank. A dispatch request freezes the order, its
 items and its reserves; the invoice, payment, receipt and observations hang on it; and owner handover,
 completion and stock shipment are admitted only against a fresh accepted observation and commit
 only together.
 */
module MasterCheckout {
  import opened Prelude
  import opened Transactions

  datatype OrderStatus = Pending | Confirmed | Completed | OtherStatus(code: int)

  /** Money in kopecks; `terms` stands for subtotal, discount and fulfilment method. */
  datatype Order = Order(pos: bool, simulation: bool, owner: int, terms: int, payBy: int, total: int, status: OrderStatus)

  /** The payment method 'card'. */
  const CARD := 1

  /** The tolerated clock distance of 30 seconds, and a created invoice's age limit of 15 minutes. */
  const SKEW := 30

  const INVOICE_AGE := 900

  const MAX_LINES := 200

  datatype Item = Item(order: int, product: int, quantity: int, fromStock: int, toOrder: int, received: int)

  /** `fiscal`: the unit and the tax codes are those of the policy. */
  datatype Line = Line(quantity: int, price: int, total: int, fiscal: bool)

  /** `profile` stands for the acquirer profile and its hash; `live` for a production profile with external fiscalization. */
  datatype Request = Request(order: int, operator: int, reference: int, amount: int, basket: seq<Line>, profile: int, live: bool, created: int)

  datatype CreateProof = CreateProof(verified: bool, invoice: int, reference: int, amount: int, uah: bool, profile: int,
                                     created: int, observed: Option<int>)

  /** `local`: the profile of the synthetic provider. */
  datatype Binding = Binding(order: int, operator: int, invoice: int, reference: int, amount: int, profile: int, local: bool,
                             request: Option<int>, created: int)

  datatype Payment = Payment(order: int, operator: int, amount: int, simulation: bool, provider: bool, card: bool, evidence: int)

  datatype InvoiceProof = InvoiceProof(verified: bool, success: bool, invoice: int, reference: int, profile: int, uah: bool,
                                       amount: int, created: int, accepted: int)

  datatype Cheque = Cheque(id: int, sale: bool, done: bool, checkbox: bool)

  datatype CheckProof = CheckProof(verified: bool, association: bool, invoice: int, profile: int, checks: seq<Cheque>)

  datatype MonoPayment = MonoPayment(order: int, binding: int, payment: int, proof: InvoiceProof)

  datatype MonoReceipt = MonoReceipt(order: int, binding: int, payment: int, receipt: int, proof: CheckProof)

  datatype Observation = Observation(order: int, accepted: bool, created: int, payment: InvoiceProof, fiscal: CheckProof)

  datatype PaymentTruth = Created | Success | Reversed

  datatype Truth = Truth(payment: PaymentTruth, done: bool, receipt: int)

  datatype Handover = Handover(operator: int, simulation: bool)

  datatype MovementKind = Shipment | CustomerReturn | Reservation | ReservationRelease | OtherMovement

  /** The unique reference_key. */
  datatype Key = ShipmentKey(order: int, item: int) | OtherKey(text: string)

  datatype Movement = Movement(kind: MovementKind, order: Option<int>, item: Option<int>, product: int, quantity: int,
                               onHand: int, reserved: int, admin: int, key: Option<Key>)

  /**
   `handovers` is keyed by its unique order and `truths` by its unique binding; `rivals` are the orders
   with a shipment, QR attempt, fiscal document, automation or payment intent. `dispatchedAt` is no
   column: it remembers the length of the ledger that a request was dispatched on.
   */
  datatype Tables = Tables(
    now: int, orders: map<int, Order>, items: map<int, Item>, rivals: set<int>, requests: map<int, Request>,
    dispatchedAt: map<int, nat>, bindings: map<int, Binding>, payments: map<int, Payment>, monoPayments: map<int, MonoPayment>,
    receipts: map<int, MonoReceipt>, observations: map<int, Observation>, truths: map<int, Truth>,
    handovers: map<int, Handover>, ledger: seq<Movement>)

  // ---------------------------------------------------------------- the basket and the proofs

  /** What the dispatch sums up. */
  function BasketTotal(lines: seq<Line>): int {
    if |lines| == 0 then 0 else BasketTotal(lines[..|lines| - 1]) + lines[|lines| - 1].total
  }

  /** What the goods cost. */
  function BasketValue(lines: seq<Line>): int {
    if |lines| == 0 then 0 else BasketValue(lines[..|lines| - 1]) + lines[|lines| - 1].quantity * lines[|lines| - 1].price
  }

  predicate LineValid(l: Line) { 0 < l.quantity && 0 < l.price && l.total == l.quantity * l.price && l.fiscal }

  /** master_mono_invoice_valid. */
  predicate InvoiceValid(b: Binding, p: InvoiceProof, now: int) {
    && p.verified && p.success && p.invoice == b.invoice && p.reference == b.reference && p.profile == b.profile
    && p.uah && p.amount == b.amount && b.created - SKEW <= p.created <= p.accepted <= now + SKEW
  }

  /** master_mono_check_valid. */
  predicate CheckValid(b: Binding, p: CheckProof, receipt: int) {
    && p.verified && p.association && p.invoice == b.invoice && p.profile == b.profile
    && |p.checks| == 1 && p.checks[0] == Cheque(receipt, true, true, true)
  }

  // ---------------------------------------------------------------- guards

  predicate Dispatched(t: Tables, order: int) { exists q :: q in t.requests && t.requests[q].order == order }

  predicate Bound(t: Tables, order: int) { exists b :: b in t.bindings && t.bindings[b].order == order }

  /** A binding or a durable dispatch owns the checkout. */
  predicate Owned(t: Tables, order: int) { Dispatched(t, order) || Bound(t, order) }

  predicate Paid(t: Tables, order: int) { exists p :: p in t.payments && t.payments[p].order == order }

  /** validate_master_dispatch. */
  predicate RequestAdmitted(t: Tables, id: int, q: Request) {
    && id !in t.requests && (forall k :: k in t.requests ==> t.requests[k].order != q.order && t.requests[k].reference != q.reference)
    && q.order in t.orders && Sellable(t.orders[q.order], q.operator, q.amount)
    && 0 < q.amount && q.live && t.now - SKEW <= q.created <= t.now + SKEW
    && 1 <= |q.basket| <= MAX_LINES && BasketTotal(q.basket) == q.amount && (forall i :: 0 <= i < |q.basket| ==> LineValid(q.basket[i]))
    && (exists i :: i in t.items && t.items[i].order == q.order)
    && (forall i :: i in t.items && t.items[i].order == q.order ==>
          t.items[i].fromStock == t.items[i].quantity && t.items[i].toOrder == 0 && t.items[i].received == 0)
    && !Bound(t, q.order) && !Paid(t, q.order) && q.order !in t.handovers && q.order !in t.rivals
  }

  predicate Sellable(o: Order, operator: int, amount: int) {
    o.pos && !o.simulation && o.owner == operator && o.total == amount && (o.status.Pending? || o.status.Confirmed?)
  }

  /** validate_master_mono_fact for bindings. */
  predicate BindingAdmitted(t: Tables, id: int, b: Binding, proof: CreateProof) {
    && id !in t.bindings
    && (forall k :: k in t.bindings ==>
          t.bindings[k].order != b.order && t.bindings[k].invoice != b.invoice && t.bindings[k].reference != b.reference
          && t.bindings[k].request != b.request)
    && b.request.Some? && b.request.value in t.requests
    && var q := t.requests[b.request.value];
    && b.order == q.order && b.operator == q.operator && b.reference == q.reference && b.amount == q.amount
    && b.profile == q.profile && b.created == q.created
    && proof.verified && proof.invoice == b.invoice && proof.reference == q.reference && proof.amount == q.amount && proof.uah
    && proof.profile == q.profile
    && q.order in t.orders && Sellable(t.orders[q.order], q.operator, q.amount)
    && (proof.observed.Some? ==>
          q.created - SKEW <= proof.created <= q.created + INVOICE_AGE && proof.observed.value <= t.now + SKEW)
  }

  /** The order_payments row that a binding owns. */
  predicate OwnPayment(t: Tables, b: Binding, p: Payment) {
    && p.order == b.order && p.operator == b.operator && p.amount == b.amount && p.order in t.orders
    && p.simulation == t.orders[p.order].simulation && p.provider && p.card && p.evidence == b.invoice
  }

  predicate PaymentAdmitted(t: Tables, id: int, p: Payment) {
    && id !in t.payments && 0 < p.amount && !Paid(t, p.order)
    && (if Owned(t, p.order) then exists b :: b in t.bindings && t.bindings[b].order == p.order && OwnPayment(t, t.bindings[b], p)
        else !p.provider)
  }

  predicate MonoPaymentAdmitted(t: Tables, id: int, m: MonoPayment) {
    && id !in t.monoPayments
    && (forall k :: k in t.monoPayments ==>
          t.monoPayments[k].order != m.order && t.monoPayments[k].binding != m.binding && t.monoPayments[k].payment != m.payment)
    && m.binding in t.bindings && t.bindings[m.binding].order == m.order
    && m.payment in t.payments && OwnPayment(t, t.bindings[m.binding], t.payments[m.payment])
    && InvoiceValid(t.bindings[m.binding], m.proof, t.now)
  }

  predicate ReceiptAdmitted(t: Tables, id: int, r: MonoReceipt) {
    && id !in t.receipts
    && (forall k :: k in t.receipts ==>
          t.receipts[k].order != r.order && t.receipts[k].binding != r.binding && t.receipts[k].payment != r.payment
          && t.receipts[k].receipt != r.receipt)
    && r.binding in t.bindings && t.bindings[r.binding].order == r.order
    && r.payment in t.payments && OwnPayment(t, t.bindings[r.binding], t.payments[r.payment])
    && (exists m :: m in t.monoPayments && t.monoPayments[m].binding == r.binding && t.monoPayments[m].payment == r.payment)
    && CheckValid(t.bindings[r.binding], r.proof, r.receipt)
  }

  predicate ObservationAdmitted(t: Tables, id: int, o: Observation) {
    && id !in t.observations
    && exists b :: b in t.bindings && t.bindings[b].order == o.order
         && (o.accepted ==> exists r :: r in t.receipts && t.receipts[r].order == o.order && Observes(t, o, t.bindings[b], t.receipts[r]))
  }

  /** The observation proves this binding's money and this receipt. */
  predicate Observes(t: Tables, o: Observation, b: Binding, r: MonoReceipt) {
    InvoiceValid(b, o.payment, t.now) && CheckValid(b, o.fiscal, r.receipt)
  }

  predicate Latest(t: Tables, k: int)
    requires k in t.observations
  {
    forall j :: j in t.observations && t.observations[j].order == t.observations[k].order ==> j <= k
  }

  /** A current accepted observation of this binding and this receipt, at most 30 seconds old. */
  predicate Current(t: Tables, b: int, r: int)
    requires b in t.bindings && r in t.receipts
  {
    exists k :: k in t.observations && t.observations[k].order == t.bindings[b].order && Latest(t, k) && t.observations[k].accepted
      && t.now - SKEW <= t.observations[k].created && Observes(t, t.observations[k], t.bindings[b], t.receipts[r])
  }

  predicate ProviderStands(t: Tables, b: int, r: int)
    requires b in t.bindings && r in t.receipts
  {
    t.bindings[b].local ==> b in t.truths && t.truths[b] == Truth(Success, true, t.receipts[r].receipt)
  }

  predicate HasCurrent(t: Tables, order: int) {
    exists b, r :: b in t.bindings && r in t.receipts && t.bindings[b].order == order && t.receipts[r].order == order && Current(t, b, r)
  }

  predicate MayHandOver(t: Tables, order: int) {
    exists b, r :: b in t.bindings && r in t.receipts && t.bindings[b].order == order && t.receipts[r].order == order
      && Current(t, b, r) && ProviderStands(t, b, r)
  }

  /** guard_master_mono_owner on orders. */
  predicate OrderAdmitted(t: Tables, id: int, p: Order) {
    id in t.orders && Owned(t, id) ==>
      var o := t.orders[id];
      && p.pos == o.pos && p.simulation == o.simulation && p.owner == o.owner && p.terms == o.terms && p.total == o.total
      && (p.payBy == o.payBy || (Bound(t, id) && p.payBy == CARD))
      && (p.status == o.status || (p.status.Completed? && MayHandOver(t, id)))
  }

  /** guard_master_mono_owner on order_handovers. */
  predicate HandoverAdmitted(t: Tables, order: int, h: Handover) {
    && order !in t.handovers && order in t.orders
    && (Owned(t, order) ==>
          && h.simulation == t.orders[order].simulation
          && (exists b :: b in t.bindings && t.bindings[b].order == order && h.operator == t.bindings[b].operator)
          && MayHandOver(t, order))
  }

  predicate ItemAdmitted(t: Tables, id: int, i: Item) {
    !Owned(t, i.order) && (id in t.items ==> !Owned(t, t.items[id].order))
  }

  /** protect_master_mono_truth. */
  predicate TruthAdmitted(t: Tables, b: int, x: Truth) {
    if b in t.truths then
      var o := t.truths[b];
      && x.receipt == o.receipt && (o.payment.Reversed? ==> x.payment.Reversed?)
      && (o.payment.Success? ==> !x.payment.Created?) && (o.done ==> x.done)
    else b in t.bindings && x.payment.Created? && !x.done
  }

  function ShipmentRow(q: Request, id: int, i: Item): Movement {
    Movement(Shipment, Some(q.order), Some(id), i.product, i.quantity, -i.quantity, -i.quantity, q.operator, Some(ShipmentKey(q.order, id)))
  }

  /** protect_master_dispatch_stock and the ledger's own constraints. */
  predicate MovementAdmitted(t: Tables, m: Movement) {
    && 0 < m.quantity && (m.onHand != 0 || m.reserved != 0)
    && (m.key.Some? ==> forall i :: 0 <= i < |t.ledger| ==> t.ledger[i].key != m.key)
    && (forall q :: q in t.requests && m.order == Some(t.requests[q].order) ==>
          HasCurrent(t, t.requests[q].order) && ShipsAnItem(t, t.requests[q], m))
  }

  predicate ShipsAnItem(t: Tables, q: Request, m: Movement) {
    exists i :: i in t.items && t.items[i].order == q.order && m == ShipmentRow(q, i, t.items[i])
  }

  // ---------------------------------------------------------------- statements

  datatype Statement =
    | Begin(at: int)
    | PutOrder(id: int, order: Order)
    | PutItem(id: int, item: Item)
    | DeleteItem(id: int)
    | InsertRival(of: int)
    | InsertRequest(id: int, request: Request)
    | InsertBinding(id: int, binding: Binding, proof: CreateProof)
    | InsertPayment(id: int, payment: Payment)
    | InsertMonoPayment(id: int, monoPayment: MonoPayment)
    | InsertReceipt(id: int, receipt: MonoReceipt)
    | InsertObservation(id: int, observation: Observation)
    | PutTruth(id: int, truth: Truth)
    | InsertHandover(of: int, handover: Handover)
    | InsertMovement(movement: Movement)

  predicate Admitted(t: Tables, s: Statement) {
    match s
    case Begin(at) => t.now <= at
    case PutOrder(id, o) => OrderAdmitted(t, id, o)
    case PutItem(id, i) => ItemAdmitted(t, id, i)
    case DeleteItem(id) => id in t.items && !Owned(t, t.items[id].order)
    case InsertRival(of) => !Owned(t, of)
    case InsertRequest(id, q) => RequestAdmitted(t, id, q)
    case InsertBinding(id, b, proof) => BindingAdmitted(t, id, b, proof)
    case InsertPayment(id, p) => PaymentAdmitted(t, id, p)
    case InsertMonoPayment(id, m) => MonoPaymentAdmitted(t, id, m)
    case InsertReceipt(id, r) => ReceiptAdmitted(t, id, r)
    case InsertObservation(id, o) => ObservationAdmitted(t, id, o)
    case PutTruth(b, x) => TruthAdmitted(t, b, x)
    case InsertHandover(of, h) => HandoverAdmitted(t, of, h)
    case InsertMovement(m) => MovementAdmitted(t, m)
  }

  function Write(t: Tables, s: Statement): Tables {
    match s
    case Begin(at) => t.(now := at)
    case PutOrder(id, o) => t.(orders := t.orders[id := o])
    case PutItem(id, i) => t.(items := t.items[id := i])
    case DeleteItem(id) => t.(items := t.items - {id})
    case InsertRival(of) => t.(rivals := t.rivals + {of})
    case InsertRequest(id, q) => t.(requests := t.requests[id := q], dispatchedAt := t.dispatchedAt[id := |t.ledger|])
    case InsertBinding(id, b, _) => t.(bindings := t.bindings[id := b])
    case InsertPayment(id, p) => t.(payments := t.payments[id := p])
    case InsertMonoPayment(id, m) => t.(monoPayments := t.monoPayments[id := m])
    case InsertReceipt(id, r) => t.(receipts := t.receipts[id := r])
    case InsertObservation(id, o) => t.(observations := t.observations[id := o])
    case PutTruth(b, x) => t.(truths := t.truths[b := x])
    case InsertHandover(of, h) => t.(handovers := t.handovers[of := h])
    case InsertMovement(m) => t.(ledger := t.ledger + [m])
  }

  function Step(t: Tables, s: Statement): Option<Tables> {
    if Admitted(t, s) then Some(Write(t, s)) else None
  }

  // ---------------------------------------------------------------- deferred checks

  /** Completed, handed over by the owner, and every item shipped in full by its one canonical row. */
  predicate HandedOver(t: Tables, q: Request) {
    && q.order in t.orders && t.orders[q.order].status.Completed?
    && q.order in t.handovers && t.handovers[q.order] == Handover(q.operator, false)
    && (forall i :: i in t.items && t.items[i].order == q.order ==> ShipmentRow(q, i, t.items[i]) in t.ledger)
  }

  /** require_master_live_handover. */
  predicate Required(t: Tables, order: int) {
    forall q :: q in t.requests && t.requests[q].order == order ==> HandedOver(t, t.requests[q])
  }

  predicate Check(t: Tables, s: Statement) {
    match s
    case PutOrder(id, o) => o.status.Completed? ==> Required(t, id)
    case InsertHandover(of, _) => Required(t, of)
    case InsertMovement(m) => m.order.Some? ==> Required(t, m.order.value)
    case InsertPayment(id, p) => p.provider ==> exists m :: m in t.monoPayments && t.monoPayments[m].payment == id
    case _ => true
  }

  // ---------------------------------------------------------------- what every statement keeps

  ghost predicate KeysUnique(ledger: seq<Movement>) {
    forall i, j :: 0 <= i < j < |ledger| && ledger[i].key.Some? ==> ledger[i].key != ledger[j].key
  }

  /** The receipt's money: its binding's payment, proved by a provider payment fact. */
  ghost predicate ReceiptSound(t: Tables, r: MonoReceipt) {
    && r.binding in t.bindings && t.bindings[r.binding].order == r.order
    && r.payment in t.payments && t.payments[r.payment].order == r.order && t.payments[r.payment].amount == t.bindings[r.binding].amount
    && (exists m :: m in t.monoPayments && t.monoPayments[m].binding == r.binding && t.monoPayments[m].payment == r.payment)
  }

  /** A row written since the dispatch. */
  ghost predicate LateRow(t: Tables, k: int, i: int) {
    k in t.requests && k in t.dispatchedAt && t.dispatchedAt[k] <= i < |t.ledger| && t.ledger[i].order == Some(t.requests[k].order)
  }

  ghost predicate Receipted(t: Tables, order: int) { exists r :: r in t.receipts && t.receipts[r].order == order }

  /** Any sign of a handover since the dispatch. */
  ghost predicate Handed(t: Tables, k: int)
    requires k in t.requests
  {
    var o := t.requests[k].order;
    o in t.handovers || (o in t.orders && t.orders[o].status.Completed?) || exists i :: LateRow(t, k, i)
  }

  ghost predicate RequestSound(t: Tables, k: int)
    requires k in t.requests
  {
    var q := t.requests[k];
    && k in t.dispatchedAt && t.dispatchedAt[k] <= |t.ledger| && q.order in t.orders && !t.orders[q.order].simulation
    && q.amount == BasketTotal(q.basket) && (forall i :: 0 <= i < |q.basket| ==> LineValid(q.basket[i]))
    && (forall b :: b in t.bindings && t.bindings[b].order == q.order ==>
          t.bindings[b].request == Some(k) && t.bindings[b].amount == q.amount && t.bindings[b].operator == q.operator)
  }

  /** What follows for the stock and the proofs of a dispatched order. */
  ghost predicate RequestGuarded(t: Tables, k: int)
    requires k in t.requests
  {
    && (Handed(t, k) ==> Receipted(t, t.requests[k].order))
    && (forall i :: LateRow(t, k, i) ==> ShipsAnItem(t, t.requests[k], t.ledger[i]))
  }

  ghost predicate UniqueBindings(t: Tables) {
    forall b, c :: b in t.bindings && c in t.bindings && b != c ==> t.bindings[b].order != t.bindings[c].order
  }

  ghost predicate Invariant(t: Tables) {
    && KeysUnique(t.ledger) && UniqueBindings(t)
    && (forall j, k :: j in t.requests && k in t.requests && j != k ==> t.requests[j].order != t.requests[k].order)
    && (forall k :: k in t.requests ==> RequestSound(t, k) && RequestGuarded(t, k))
    && (forall r :: r in t.receipts ==> ReceiptSound(t, t.receipts[r]))
  }

  lemma RequestsKept(t: Tables, s: Statement)
    requires Invariant(t) && Step(t, s).Some?
    ensures var u := Write(t, s);
      && (forall j, k :: j in u.requests && k in u.requests && j != k ==> u.requests[j].order != u.requests[k].order)
      && (forall k :: k in u.requests ==> RequestSound(u, k))
  {
    forall k | k in Write(t, s).requests ensures RequestSound(Write(t, s), k) {
      if k in t.requests { OldRequestSound(t, s, k); } else { NewRequestSound(t, s, k); }
    }
  }

  lemma OldRequestSound(t: Tables, s: Statement, k: int)
    requires Invariant(t) && Step(t, s).Some? && k in t.requests
    ensures k in Write(t, s).requests && RequestSound(Write(t, s), k)
  {
    var o := t.requests[k].order;
    assert RequestSound(t, k) && Dispatched(t, o) && Owned(t, o);
    if s.InsertBinding? && s.binding.order == o {
      var q := s.binding.request.value;
      assert t.requests[q].order == t.requests[k].order && q == k;
    }
  }

  lemma NewRequestSound(t: Tables, s: Statement, k: int)
    requires Step(t, s).Some? && k in Write(t, s).requests && k !in t.requests
    ensures RequestSound(Write(t, s), k)
  {
    assert !Bound(t, s.request.order);
    assert forall b :: b in t.bindings ==> t.bindings[b].order != s.request.order;
  }

  lemma ReceiptsKept(t: Tables, s: Statement)
    requires Invariant(t) && Step(t, s).Some?
    ensures forall r :: r in Write(t, s).receipts ==> ReceiptSound(Write(t, s), Write(t, s).receipts[r])
  {
    var u := Write(t, s);
    forall r | r in u.receipts ensures ReceiptSound(u, u.receipts[r]) {
      if r in t.receipts {
        assert ReceiptSound(t, t.receipts[r]);
        var m :| m in t.monoPayments && t.monoPayments[m].binding == t.receipts[r].binding
                 && t.monoPayments[m].payment == t.receipts[r].payment;
        assert m in u.monoPayments && u.monoPayments[m] == t.monoPayments[m];
      }
    }
  }

  /** A statement that queues the completion check for an order. */
  predicate Queues(s: Statement, order: int) {
    match s
    case PutOrder(id, o) => id == order && o.status.Completed?
    case InsertHandover(of, _) => of == order
    case InsertMovement(m) => m.order == Some(order)
    case _ => false
  }

  /** Signs of a handover come only from statements that queue the check; a fresh dispatch has none. */
  lemma WriteHands(t: Tables, s: Statement, k: int)
    requires Invariant(t) && Step(t, s).Some? && k in Write(t, s).requests && Handed(Write(t, s), k)
    ensures Queues(s, Write(t, s).requests[k].order) || (k in t.requests && Handed(t, k))
  {
    var u := Write(t, s);
    var o := u.requests[k].order;
    if !Queues(s, o) && o !in u.handovers && !(o in u.orders && u.orders[o].status.Completed?) {
      var i :| LateRow(u, k, i);
      assert k in t.requests ==> LateRow(t, k, i);
    }
  }

  lemma ReceiptKept(t: Tables, s: Statement, order: int)
    requires Step(t, s).Some? && Receipted(t, order)
    ensures Receipted(Write(t, s), order)
  {
    var r :| r in t.receipts && t.receipts[r].order == order;
    assert r in Write(t, s).receipts && Write(t, s).receipts[r] == t.receipts[r];
  }

  lemma GuardKept(t: Tables, s: Statement, k: int)
    requires Invariant(t) && Step(t, s).Some? && k in Write(t, s).requests
    ensures RequestGuarded(Write(t, s), k)
  {
    var u := Write(t, s);
    var o := u.requests[k].order;
    if Handed(u, k) {
      WriteHands(t, s, k);
      if k in t.requests && Handed(t, k) {
        assert RequestGuarded(t, k);
      } else {
        HandsNeedReceipt(t, s, k);
      }
      ReceiptKept(t, s, o);
    }
    forall i | LateRow(u, k, i) ensures ShipsAnItem(u, u.requests[k], u.ledger[i]) { LateRowShips(t, s, k, i); }
  }

  /** The guards behind a first sign of a handover ask for the receipt. */
  lemma HandsNeedReceipt(t: Tables, s: Statement, k: int)
    requires Invariant(t) && Step(t, s).Some? && k in Write(t, s).requests && Queues(s, Write(t, s).requests[k].order)
    requires !(k in t.requests && Handed(t, k))
    ensures Receipted(t, Write(t, s).requests[k].order)
  {
    var o := t.requests[k].order;
    assert Dispatched(t, o) && Owned(t, o) && RequestSound(t, k);
    match s
    case InsertMovement(m) => assert HasCurrent(t, o);
    case PutOrder(_, _) => assert MayHandOver(t, o);
    case InsertHandover(_, _) => assert MayHandOver(t, o);
    case _ =>
  }

  lemma LateRowShips(t: Tables, s: Statement, k: int, i: int)
    requires Invariant(t) && Step(t, s).Some? && k in Write(t, s).requests && LateRow(Write(t, s), k, i)
    ensures ShipsAnItem(Write(t, s), Write(t, s).requests[k], Write(t, s).ledger[i])
  {
    var u := Write(t, s);
    assert k in t.requests;
    var q := t.requests[k];
    assert Dispatched(t, q.order) && Owned(t, q.order) && RequestGuarded(t, k);
    if i < |t.ledger| { assert LateRow(t, k, i); }
    assert ShipsAnItem(t, q, u.ledger[i]);
    var n :| n in t.items && t.items[n].order == q.order && u.ledger[i] == ShipmentRow(q, n, t.items[n]);
    assert n in u.items && u.items[n] == t.items[n];
  }

  lemma InvariantKept(t: Tables, s: Statement)
    requires Invariant(t) && Step(t, s).Some?
    ensures Invariant(Write(t, s))
  {
    RequestsKept(t, s);
    ReceiptsKept(t, s);
    forall k | k in Write(t, s).requests ensures RequestGuarded(Write(t, s), k) { GuardKept(t, s, k); }
  }

  // ---------------------------------------------------------------- what stays

  /** The provider reversed the money of a synthetic sale that was not handed over. */
  ghost predicate Reversal(t: Tables, k: int, b: int) {
    && k in t.requests && b in t.bindings && t.bindings[b].order == t.requests[k].order && t.bindings[b].local
    && b in t.truths && t.truths[b].payment.Reversed?
    && t.requests[k].order !in t.handovers && t.requests[k].order in t.orders && !t.orders[t.requests[k].order].status.Completed?
  }

  ghost predicate TruthLater(x: Truth, y: Truth) {
    && y.receipt == x.receipt && (x.payment.Reversed? ==> y.payment.Reversed?) && (x.payment.Success? ==> !y.payment.Created?)
    && (x.done ==> y.done)
  }

  ghost predicate RowsKept(t: Tables, u: Tables) {
    && t.now <= u.now && t.ledger <= u.ledger
    && (forall k :: k in t.requests ==> k in u.requests && u.requests[k] == t.requests[k])
    && (forall k :: k in t.requests && k in t.dispatchedAt ==> k in u.dispatchedAt && u.dispatchedAt[k] == t.dispatchedAt[k])
    && (forall o :: o in t.handovers ==> o in u.handovers && u.handovers[o] == t.handovers[o])
    && (forall p :: p in t.payments ==> p in u.payments && u.payments[p] == t.payments[p])
    && (forall b :: b in t.truths ==> b in u.truths && TruthLater(t.truths[b], u.truths[b]))
  }

  /** The checkout of a dispatched order is frozen; its order only ever completes. */
  ghost predicate CheckoutKept(t: Tables, u: Tables) {
    && (forall i :: i in t.items && Dispatched(t, t.items[i].order) ==> i in u.items && u.items[i] == t.items[i])
    && (forall i :: i in u.items && Dispatched(t, u.items[i].order) ==> i in t.items && t.items[i] == u.items[i])
    && (forall o :: o in t.orders && Dispatched(t, o) ==> o in u.orders && OrderLater(t.orders[o], u.orders[o]))
  }

  ghost predicate OrderLater(o: Order, p: Order) {
    && p.total == o.total && p.owner == o.owner && p.simulation == o.simulation
    && (p.status == o.status || p.status.Completed?)
  }

  ghost predicate ReversalsKept(t: Tables, u: Tables) { forall k, b :: Reversal(t, k, b) ==> Reversal(u, k, b) }

  ghost predicate Later(t: Tables, u: Tables) { RowsKept(t, u) && CheckoutKept(t, u) && ReversalsKept(t, u) }

  lemma ReversalKept(t: Tables, s: Statement, k: int, b: int)
    requires Invariant(t) && Step(t, s).Some? && Reversal(t, k, b)
    ensures Reversal(Write(t, s), k, b)
  {
    var o := t.requests[k].order;
    assert Dispatched(t, o) && Owned(t, o);
    assert !MayHandOver(t, o) by {
      forall c, r | c in t.bindings && r in t.receipts && t.bindings[c].order == o && t.receipts[r].order == o ensures !ProviderStands(t, c, r) {
        assert c == b;
      }
    }
  }

  lemma WriteKeepsRequests(t: Tables, s: Statement)
    requires Step(t, s).Some?
    ensures forall k :: k in t.requests ==> k in Write(t, s).requests && Write(t, s).requests[k] == t.requests[k]
    ensures forall k :: k in t.requests && k in t.dispatchedAt ==>
      k in Write(t, s).dispatchedAt && Write(t, s).dispatchedAt[k] == t.dispatchedAt[k]
  {
    if s.InsertRequest? { assert s.id !in t.requests; }
  }

  lemma WriteKeepsTruths(t: Tables, s: Statement)
    requires Step(t, s).Some?
    ensures forall b :: b in t.truths ==> b in Write(t, s).truths && TruthLater(t.truths[b], Write(t, s).truths[b])
  {
    if s.PutTruth? { assert TruthAdmitted(t, s.id, s.truth); }
  }

  lemma WriteKeepsFacts(t: Tables, s: Statement)
    requires Step(t, s).Some?
    ensures forall o :: o in t.handovers ==> o in Write(t, s).handovers && Write(t, s).handovers[o] == t.handovers[o]
    ensures forall p :: p in t.payments ==> p in Write(t, s).payments && Write(t, s).payments[p] == t.payments[p]
    ensures t.now <= Write(t, s).now && t.ledger <= Write(t, s).ledger
  {
    if s.InsertHandover? { assert s.of !in t.handovers; }
    if s.InsertPayment? { assert s.id !in t.payments; }
  }

  lemma WriteKeepsRows(t: Tables, s: Statement)
    requires Step(t, s).Some?
    ensures RowsKept(t, Write(t, s))
  {
    WriteKeepsRequests(t, s);
    WriteKeepsTruths(t, s);
    WriteKeepsFacts(t, s);
  }

  lemma WriteKeepsItems(t: Tables, s: Statement, i: int)
    requires Step(t, s).Some?
    ensures i in t.items && Dispatched(t, t.items[i].order) ==> i in Write(t, s).items && Write(t, s).items[i] == t.items[i]
    ensures i in Write(t, s).items && Dispatched(t, Write(t, s).items[i].order) ==> i in t.items && t.items[i] == Write(t, s).items[i]
  {}

  lemma WriteKeepsOrder(t: Tables, s: Statement, o: int)
    requires Step(t, s).Some? && o in t.orders && Dispatched(t, o)
    ensures o in Write(t, s).orders && OrderLater(t.orders[o], Write(t, s).orders[o])
  {
    assert Owned(t, o);
  }

  lemma WriteKeepsCheckout(t: Tables, s: Statement)
    requires Step(t, s).Some?
    ensures CheckoutKept(t, Write(t, s))
  {
    forall i { WriteKeepsItems(t, s, i); }
    forall o | o in t.orders && Dispatched(t, o) { WriteKeepsOrder(t, s, o); }
  }

  lemma StepKeeps(t: Tables, s: Statement)
    requires Invariant(t) && Step(t, s).Some?
    ensures Invariant(Write(t, s)) && Later(t, Write(t, s))
  {
    var u := Write(t, s);
    InvariantKept(t, s);
    WriteKeepsRows(t, s);
    WriteKeepsCheckout(t, s);
    forall k, b | Reversal(t, k, b) ensures Reversal(u, k, b) { ReversalKept(t, s, k, b); }
  }

  lemma DispatchKept(t: Tables, u: Tables, order: int)
    requires RowsKept(t, u) && Dispatched(t, order)
    ensures Dispatched(u, order)
  {
    var q :| q in t.requests && t.requests[q].order == order;
    assert u.requests[q].order == order;
  }

  lemma RowsTransitive(s: Tables, t: Tables, u: Tables)
    requires RowsKept(s, t) && RowsKept(t, u)
    ensures RowsKept(s, u)
  {
    forall b | b in s.truths ensures b in u.truths && TruthLater(s.truths[b], u.truths[b]) { assert b in t.truths; }
    forall k | k in s.requests ensures k in u.requests && u.requests[k] == s.requests[k] { assert k in t.requests; }
    forall o | o in s.handovers ensures o in u.handovers && u.handovers[o] == s.handovers[o] { assert o in t.handovers; }
    forall p | p in s.payments ensures p in u.payments && u.payments[p] == s.payments[p] { assert p in t.payments; }
  }

  lemma CheckoutTransitive(s: Tables, t: Tables, u: Tables)
    requires RowsKept(s, t) && CheckoutKept(s, t) && CheckoutKept(t, u)
    ensures CheckoutKept(s, u)
  {
    forall o | Dispatched(s, o) ensures Dispatched(t, o) { DispatchKept(s, t, o); }
    forall i | i in s.items && Dispatched(s, s.items[i].order) ensures i in u.items && u.items[i] == s.items[i] { assert i in t.items; }
    forall i | i in u.items && Dispatched(s, u.items[i].order) ensures i in s.items && s.items[i] == u.items[i] {
      assert Dispatched(t, u.items[i].order) && i in t.items;
    }
    forall o | o in s.orders && Dispatched(s, o) ensures o in u.orders && OrderLater(s.orders[o], u.orders[o]) { assert o in t.orders; }
  }

  lemma LaterTransitive(s: Tables, t: Tables, u: Tables)
    requires Later(s, t) && Later(t, u)
    ensures Later(s, u)
  {
    RowsTransitive(s, t, u);
    CheckoutTransitive(s, t, u);
    forall k, b | Reversal(s, k, b) ensures Reversal(u, k, b) { assert Reversal(t, k, b); }
  }

  lemma ExecuteKeepsAll(t: Tables, txn: seq<Statement>)
    requires Invariant(t) && Execute(Step, t, txn).Some?
    ensures var u := Execute(Step, t, txn).value; Invariant(u) && Later(t, u)
  {
    forall t, s | Invariant(t) && Step(t, s).Some? ensures Invariant(Step(t, s).value) && Later(t, Step(t, s).value) {
      StepKeeps(t, s);
    }
    forall s, t, u | Later(s, t) && Later(t, u) ensures Later(s, u) { LaterTransitive(s, t, u); }
    forall t ensures Later(t, t) {}
    ExecuteKeeps(Step, Invariant, t, txn);
    ExecuteAdvances(Step, Invariant, Later, t, txn);
  }

  // ---------------------------------------------------------------- committed states

  /** A handover that shows in any way is a whole one. */
  ghost predicate Committed(t: Tables) {
    Invariant(t) && forall k :: k in t.requests && Handed(t, k) ==> HandedOver(t, t.requests[k])
  }

  /** Over a transaction, a sign of a handover is an old one or has queued the check. */
  lemma {:induction false} SignsQueued(t: Tables, txn: seq<Statement>, k: int)
    requires Invariant(t) && Execute(Step, t, txn).Some?
    requires k in Execute(Step, t, txn).value.requests && Handed(Execute(Step, t, txn).value, k)
    ensures (exists i :: 0 <= i < |txn| && Queues(txn[i], Execute(Step, t, txn).value.requests[k].order)) || (k in t.requests && Handed(t, k))
    decreases |txn|
  {
    if txn != [] {
      var w, u := Write(t, txn[0]), Execute(Step, t, txn).value;
      StepKeeps(t, txn[0]);
      SignsQueued(w, txn[1..], k);
      if i :| 0 <= i < |txn| - 1 && Queues(txn[1..][i], u.requests[k].order) {
        assert txn[i + 1] == txn[1..][i];
      } else {
        ExecuteKeepsAll(w, txn[1..]);
        WriteHands(t, txn[0], k);
        assert Queues(txn[0], u.requests[k].order) || (k in t.requests && Handed(t, k));
      }
    }
  }

  lemma HandedOverKept(t: Tables, u: Tables, k: int)
    requires Later(t, u) && k in t.requests && HandedOver(t, t.requests[k])
    ensures HandedOver(u, t.requests[k])
  {
    var q := t.requests[k];
    assert Dispatched(t, q.order);
    assert OrderLater(t.orders[q.order], u.orders[q.order]);
    forall i | i in u.items && u.items[i].order == q.order ensures ShipmentRow(q, i, u.items[i]) in u.ledger {
      assert i in t.items && t.items[i] == u.items[i];
      assert ShipmentRow(q, i, t.items[i]) in t.ledger;
    }
  }

  lemma SignsAreWhole(t: Tables, u: Tables, txn: seq<Statement>, k: int)
    requires Committed(t) && Later(t, u) && Passes(Check, u, txn) && k in u.requests
    requires (exists i :: 0 <= i < |txn| && Queues(txn[i], u.requests[k].order)) || (k in t.requests && Handed(t, k))
    ensures HandedOver(u, u.requests[k])
  {
    if i :| 0 <= i < |txn| && Queues(txn[i], u.requests[k].order) {
      assert Check(u, txn[i]);
    } else {
      HandedOverKept(t, u, k);
    }
  }

  lemma CommitKeeps(t: Tables, txn: seq<Statement>)
    requires Committed(t)
    ensures Committed(Commit(Step, Check, t, txn)) && Later(t, Commit(Step, Check, t, txn))
  {
    var u := Commit(Step, Check, t, txn);
    if Execute(Step, t, txn).Some? && Passes(Check, Execute(Step, t, txn).value, txn) {
      ExecuteKeepsAll(t, txn);
      forall k | k in u.requests && Handed(u, k) ensures HandedOver(u, u.requests[k]) {
        SignsQueued(t, txn, k);
        SignsAreWhole(t, u, txn, k);
      }
    }
  }

  lemma HistoryCommitted(t: Tables, txns: seq<seq<Statement>>)
    requires Committed(t)
    ensures var u := History(Step, Check, t, txns); Committed(u) && Later(t, u)
  {
    forall t, txn | Committed(t) ensures Committed(Commit(Step, Check, t, txn)) && Later(t, Commit(Step, Check, t, txn)) {
      CommitKeeps(t, txn);
    }
    forall s, t, u | Later(s, t) && Later(t, u) ensures Later(s, u) { LaterTransitive(s, t, u); }
    forall t ensures Later(t, t) {}
    HistoryKeeps(Step, Check, Committed, Later, t, txns);
  }

  // ---------------------------------------------------------------- main results

  predicate ShipsOrder(m: Movement, order: int) { m.kind.Shipment? && m.order == Some(order) }

  /** No handover, no completion and no shipment. */
  ghost predicate NothingHanded(t: Tables, q: Request) {
    && q.order !in t.handovers && q.order in t.orders && !t.orders[q.order].status.Completed?
    && forall i :: 0 <= i < |t.ledger| ==> !ShipsOrder(t.ledger[i], q.order)
  }

  ghost predicate OnceOnly(ledger: seq<Movement>, m: Movement) {
    && m in ledger
    && forall i, j :: 0 <= i < |ledger| && 0 <= j < |ledger| && ledger[i].key == m.key && ledger[j].key == m.key ==> i == j
  }

  /** Exactly one full shipment for every item, and no other row at all since the dispatch. */
  ghost predicate ShippedOnce(t: Tables, k: int)
    requires k in t.requests && k in t.dispatchedAt
  {
    var q := t.requests[k];
    && (forall n :: n in t.items && t.items[n].order == q.order ==> OnceOnly(t.ledger, ShipmentRow(q, n, t.items[n])))
    && (forall i :: LateRow(t, k, i) ==> ShipsAnItem(t, q, t.ledger[i]))
  }

  ghost predicate AllOrNothing(t: Tables, k: int)
    requires k in t.requests && k in t.dispatchedAt
  {
    NothingHanded(t, t.requests[k]) || (HandedOver(t, t.requests[k]) && ShippedOnce(t, k))
  }

  /** A shipment row of the order that the dispatch found on the ledger. */
  ghost predicate EarlyShipment(t: Tables, k: int)
    requires k in t.requests && k in t.dispatchedAt
  {
    exists i :: 0 <= i < |t.ledger| && i < t.dispatchedAt[k] && ShipsOrder(t.ledger[i], t.requests[k].order)
  }

  /** The ledger's prefix of the dispatch, and hence EarlyShipment, is settled by the dispatch itself. */
  lemma EarlyIsFixed(t: Tables, txns: seq<seq<Statement>>, k: int)
    requires Committed(t) && k in t.requests
    ensures var u := History(Step, Check, t, txns);
      k in t.dispatchedAt && k in u.requests && k in u.dispatchedAt && EarlyShipment(u, k) == EarlyShipment(t, k)
  {
    HistoryCommitted(t, txns);
    var u := History(Step, Check, t, txns);
    assert RequestSound(t, k) && RequestSound(u, k) && t.dispatchedAt[k] <= |t.ledger|;
    if EarlyShipment(u, k) {
      var i :| 0 <= i < |u.ledger| && i < u.dispatchedAt[k] && ShipsOrder(u.ledger[i], u.requests[k].order);
      assert t.ledger[i] == u.ledger[i];
    }
  }

  lemma OnceFromKeys(t: Tables, k: int)
    requires Invariant(t) && k in t.requests && HandedOver(t, t.requests[k])
    ensures k in t.dispatchedAt && ShippedOnce(t, k)
  {
    var q := t.requests[k];
    assert RequestSound(t, k) && RequestGuarded(t, k);
    forall n | n in t.items && t.items[n].order == q.order ensures OnceOnly(t.ledger, ShipmentRow(q, n, t.items[n])) {
      assert ShipmentRow(q, n, t.items[n]).key.Some?;
    }
  }

  /**
   In every committed state a dispatched order has none or all of owner handover, completed status and
   exactly one full shipment per item, precisely unless a shipment row preceded the dispatch and
   the sale is not handed over.
   */
  lemma AllOrNothingExactly(t: Tables, txns: seq<seq<Statement>>, k: int)
    requires Committed(t) && k in History(Step, Check, t, txns).requests
    ensures var u := History(Step, Check, t, txns);
      k in u.dispatchedAt && (AllOrNothing(u, k) <==> !EarlyShipment(u, k) || Handed(u, k))
  {
    HistoryCommitted(t, txns);
    NoneOrAll(History(Step, Check, t, txns), k);
  }

  lemma NoneOrAll(t: Tables, k: int)
    requires Committed(t) && k in t.requests
    ensures k in t.dispatchedAt && (AllOrNothing(t, k) <==> !EarlyShipment(t, k) || Handed(t, k))
  {
    var q := t.requests[k];
    assert RequestSound(t, k) && q.order in t.orders;
    if Handed(t, k) {
      OnceFromKeys(t, k);
    } else {
      forall i | 0 <= i < |t.ledger| && ShipsOrder(t.ledger[i], q.order) ensures i < t.dispatchedAt[k] {
        assert !LateRow(t, k, i);
      }
    }
  }

  lemma {:induction false} BasketAddsUp(lines: seq<Line>)
    requires forall i :: 0 <= i < |lines| ==> LineValid(lines[i])
    ensures BasketTotal(lines) == BasketValue(lines)
  {
    if |lines| > 0 { BasketAddsUp(lines[..|lines| - 1]); }
  }

  /**
   Any sign of a handover, completion or shipment of a dispatched order comes with a payment of exactly
   what the dispatched basket's goods cost, proved by the provider and receipted.
   */
  lemma HandedOverIsPaid(t: Tables, txns: seq<seq<Statement>>, k: int) returns (r: int, p: int, m: int)
    requires Committed(t) && k in History(Step, Check, t, txns).requests && Handed(History(Step, Check, t, txns), k)
    ensures var u := History(Step, Check, t, txns);
      && r in u.receipts && u.receipts[r].order == u.requests[k].order && u.receipts[r].payment == p
      && p in u.payments && u.payments[p].order == u.requests[k].order
      && u.payments[p].amount == BasketValue(u.requests[k].basket)
      && m in u.monoPayments && u.monoPayments[m].payment == p
  {
    HistoryCommitted(t, txns);
    var u := History(Step, Check, t, txns);
    assert RequestGuarded(u, k) && RequestSound(u, k);
    r :| r in u.receipts && u.receipts[r].order == u.requests[k].order;
    assert ReceiptSound(u, u.receipts[r]);
    p := u.receipts[r].payment;
    m :| m in u.monoPayments && u.monoPayments[m].binding == u.receipts[r].binding && u.monoPayments[m].payment == p;
    BasketAddsUp(u.requests[k].basket);
  }

  /** Once all is handed over it stays so: same handover, still completed, and no further row of the order. */
  lemma HandoverIsFinal(t: Tables, txns: seq<seq<Statement>>, k: int)
    requires Committed(t) && k in t.requests && Handed(t, k)
    ensures var u := History(Step, Check, t, txns);
      && k in u.requests && u.requests[k] == t.requests[k] && HandedOver(u, u.requests[k])
      && (forall i :: |t.ledger| <= i < |u.ledger| ==> u.ledger[i].order != Some(t.requests[k].order))
  {
    HistoryCommitted(t, txns);
    var u := History(Step, Check, t, txns);
    HandedOverKept(t, u, k);
    OnceFromKeys(u, k);
    assert RequestSound(t, k);
    forall i | |t.ledger| <= i < |u.ledger| ensures u.ledger[i].order != Some(t.requests[k].order) {
      if u.ledger[i].order == Some(t.requests[k].order) {
        assert LateRow(u, k, i) && ShipsAnItem(u, u.requests[k], u.ledger[i]);
        RowAlreadyThere(t, u, k, i);
      }
    }
  }

  lemma RowAlreadyThere(t: Tables, u: Tables, k: int, i: int)
    requires Committed(t) && Invariant(u) && Later(t, u) && k in t.requests && Handed(t, k)
    requires |t.ledger| <= i < |u.ledger| && u.requests[k] == t.requests[k]
    ensures !ShipsAnItem(u, u.requests[k], u.ledger[i])
  {
    var q := t.requests[k];
    assert Dispatched(t, q.order);
    forall n | n in u.items && u.items[n].order == q.order ensures u.ledger[i] != ShipmentRow(q, n, u.items[n]) {
      assert n in t.items && t.items[n] == u.items[n] && ShipmentRow(q, n, t.items[n]) in t.ledger;
      var j :| 0 <= j < |t.ledger| && t.ledger[j] == ShipmentRow(q, n, t.items[n]);
      assert u.ledger[j] == t.ledger[j];
    }
  }

  /** A synthetic sale whose money the provider took back before the handover is never handed over. */
  lemma ReversalBlocksHandover(t: Tables, txns: seq<seq<Statement>>, k: int, b: int)
    requires Committed(t) && Reversal(t, k, b)
    ensures var u := History(Step, Check, t, txns); k in u.requests && !Handed(u, k)
  {
    HistoryCommitted(t, txns);
    assert Reversal(History(Step, Check, t, txns), k, b);
  }

  /** The synthetic provider's truth only moves forward. */
  lemma ProviderNeverRegresses(t: Tables, txns: seq<seq<Statement>>, b: int)
    requires Committed(t) && b in t.truths
    ensures var u := History(Step, Check, t, txns);
      && b in u.truths && u.truths[b].receipt == t.truths[b].receipt
      && (t.truths[b].payment.Reversed? ==> u.truths[b].payment.Reversed?)
      && (t.truths[b].payment.Success? ==> u.truths[b].payment.Success? || u.truths[b].payment.Reversed?)
      && (t.truths[b].done ==> u.truths[b].done)
  {
    HistoryCommitted(t, txns);
    assert TruthLater(t.truths[b], History(Step, Check, t, txns).truths[b]);
  }

  // ---------------------------------------------------------------- what the guards leave open

  const SHIPMENT_ROW := Movement(Shipment, Some(7), Some(2), 30, 1, -1, -1, 99, Some(ShipmentKey(7, 2)))

  const DISPATCH := Request(7, 99, 5, 1000, [Line(1, 1000, 1000, true)], 9, true, 0)

  function ReservedSale(ledger: seq<Movement>): Tables {
    Tables(0, map[7 := Order(true, false, 99, 0, 0, 1000, Pending)], map[2 := Item(7, 30, 1, 1, 0, 0)], {}, map[], map[], map[],
           map[], map[], map[], map[], map[], map[], ledger)
  }

  /** The dispatch looks at handovers and shipments of parcels, not at the stock ledger: an early stock shipment is admitted. */
  lemma EarlyShipmentAdmitted() returns (t: Tables, txn: seq<Statement>, k: int)
    ensures Committed(t) && k in Commit(Step, Check, t, txn).requests && k in Commit(Step, Check, t, txn).dispatchedAt
    ensures !AllOrNothing(Commit(Step, Check, t, txn), k)
  {
    t, txn, k := ReservedSale([SHIPMENT_ROW]), [InsertRequest(1, DISPATCH)], 1;
    var u := Write(t, txn[0]);
    assert DISPATCH.basket[..0] == [] && BasketTotal(DISPATCH.basket) == 1000;
    assert 2 in t.items && RequestAdmitted(t, 1, DISPATCH);
    assert txn[1..] == [] && Execute(Step, t, txn) == Some(u);
    assert Check(u, txn[0]) && Commit(Step, Check, t, txn) == u;
    CommitKeeps(t, txn);
    NoneOrAll(u, 1);
    assert u.ledger[0] == SHIPMENT_ROW && EarlyShipment(u, 1);
    assert !Handed(u, 1);
  }

  /** The stock fence looks at the order column only: goods of a frozen sale leave by a row that names just the item. */
  lemma RowWithoutOrderAdmitted(t: Tables, k: int, n: int, quantity: int) returns (m: Movement)
    requires Committed(t) && k in t.requests && n in t.items && t.items[n].order == t.requests[k].order && 0 < quantity
    ensures m.item == Some(n) && m.onHand == -quantity
    ensures var u := Commit(Step, Check, t, [InsertMovement(m)]); u.ledger == t.ledger + [m] && k in u.requests && (Handed(u, k) ==> Handed(t, k))
  {
    m := Movement(OtherMovement, None, Some(n), t.items[n].product, quantity, -quantity, 0, 0, None);
    var txn := [InsertMovement(m)];
    assert txn[1..] == [] && Execute(Step, t, txn) == Execute(Step, Write(t, txn[0]), []);
    WriteHandsOver(t, m, k);
  }

  /** What the fence does guarantee of one row: on an item of the dispatched order it admits exactly the item's shipment, if the row names the order. */
  lemma FenceExactly(t: Tables, k: int, n: int, m: Movement)
    requires Committed(t) && k in t.requests && n in t.items && t.items[n].order == t.requests[k].order
    requires MovementAdmitted(t, m) && m.item == Some(n)
    ensures m == ShipmentRow(t.requests[k], n, t.items[n]) <==> m.order == Some(t.requests[k].order)
  {
    var q := t.requests[k];
    if m.order == Some(q.order) { assert ShipsAnItem(t, q, m); }
  }

  /** A row written since the dispatch on an item of its order. */
  predicate RowOnGoods(t: Tables, k: int, i: int) {
    && k in t.requests && k in t.dispatchedAt && t.dispatchedAt[k] <= i < |t.ledger|
    && t.ledger[i].item.Some? && t.ledger[i].item.value in t.items
    && t.items[t.ledger[i].item.value].order == t.requests[k].order
  }

  /** The row is its item's full shipment. */
  predicate ShipsItsItem(t: Tables, k: int, i: int)
    requires RowOnGoods(t, k, i)
  {
    var n := t.ledger[i].item.value;
    t.ledger[i] == ShipmentRow(t.requests[k], n, t.items[n])
  }

  /** Since the dispatch the goods only ever leave by their full shipments, each at most once. */
  ghost predicate GoodsFrozen(t: Tables, k: int) {
    && (forall i :: RowOnGoods(t, k, i) ==> ShipsItsItem(t, k, i))
    && (forall i, j :: RowOnGoods(t, k, i) && RowOnGoods(t, k, j) && t.ledger[i].item == t.ledger[j].item ==> i == j)
  }

  /** In every committed state a row on the goods is its item's one shipment exactly when it names the order. */
  lemma RowsOnGoodsExactly(t: Tables, txns: seq<seq<Statement>>, k: int, i: int)
    requires Committed(t) && RowOnGoods(History(Step, Check, t, txns), k, i)
    ensures var u := History(Step, Check, t, txns);
      && (ShipsItsItem(u, k, i) <==> u.ledger[i].order == Some(u.requests[k].order))
      && (forall j :: RowOnGoods(u, k, j) && ShipsItsItem(u, k, i) && ShipsItsItem(u, k, j) && u.ledger[j].item == u.ledger[i].item ==> i == j)
  {
    HistoryCommitted(t, txns);
    RowExactly(History(Step, Check, t, txns), k, i);
  }

  lemma RowExactly(t: Tables, k: int, i: int)
    requires Invariant(t) && RowOnGoods(t, k, i)
    ensures ShipsItsItem(t, k, i) <==> t.ledger[i].order == Some(t.requests[k].order)
    ensures forall j :: RowOnGoods(t, k, j) && ShipsItsItem(t, k, i) && ShipsItsItem(t, k, j) && t.ledger[j].item == t.ledger[i].item ==> i == j
  {
    if t.ledger[i].order == Some(t.requests[k].order) {
      assert LateRow(t, k, i) && RequestGuarded(t, k) && ShipsAnItem(t, t.requests[k], t.ledger[i]);
    }
  }

  /**
   Exactly when the freeze holds: in every committed state of every history the goods of a dispatched
   order have left by nothing but their full shipments, each once, if and only if every row written on
   them since the dispatch names the order.
   */
  lemma FreezeExactly(t: Tables, txns: seq<seq<Statement>>, k: int)
    requires Committed(t) && k in History(Step, Check, t, txns).requests
    ensures var u := History(Step, Check, t, txns);
      GoodsFrozen(u, k) <==> forall i :: RowOnGoods(u, k, i) ==> u.ledger[i].order == Some(u.requests[k].order)
  {
    HistoryCommitted(t, txns);
    var u := History(Step, Check, t, txns);
    forall i | RowOnGoods(u, k, i)
      ensures ShipsItsItem(u, k, i) <==> u.ledger[i].order == Some(u.requests[k].order)
      ensures forall j :: RowOnGoods(u, k, j) && ShipsItsItem(u, k, i) && ShipsItsItem(u, k, j) && u.ledger[j].item == u.ledger[i].item ==> i == j
    {
      RowExactly(u, k, i);
    }
  }

  lemma WriteHandsOver(t: Tables, m: Movement, k: int)
    requires Invariant(t) && k in t.requests && Step(t, InsertMovement(m)).Some? && m.order.None?
    ensures Handed(Write(t, InsertMovement(m)), k) ==> Handed(t, k)
  {
    if Handed(Write(t, InsertMovement(m)), k) { WriteHands(t, InsertMovement(m), k); }
  }

  const INVOICE := InvoiceProof(true, true, 11, 5, 9, true, 1000, 10, 20)

  const RECEIPT := CheckProof(true, true, 11, 9, [Cheque(77, true, true, true)])

  const COMPLETED_ORDER := Order(true, false, 99, 0, 0, 1000, Completed)

  /** The sale after invoice, payment, receipt and a fresh observation. */
  function ReceiptedSale(): Tables {
    ReservedSale([]).(
      now := 40, requests := map[1 := DISPATCH], dispatchedAt := map[1 := 0],
      bindings := map[1 := Binding(7, 99, 11, 5, 1000, 9, false, Some(1), 0)],
      payments := map[1 := Payment(7, 99, 1000, false, true, true, 11)], monoPayments := map[1 := MonoPayment(7, 1, 1, INVOICE)],
      receipts := map[1 := MonoReceipt(7, 1, 1, 77, RECEIPT)], observations := map[1 := Observation(7, true, 30, INVOICE, RECEIPT)])
  }

  function SaleHandedOver(): Tables { ReceiptedSale().(handovers := map[7 := Handover(99, false)]) }

  function SaleCompleted(): Tables { SaleHandedOver().(orders := map[7 := COMPLETED_ORDER]) }

  function SaleShipped(): Tables { SaleCompleted().(ledger := [SHIPMENT_ROW]) }

  lemma ReceiptedSaleCommitted()
    ensures Committed(ReceiptedSale())
  {
    var t := ReceiptedSale();
    assert DISPATCH.basket[..0] == [] && BasketTotal(DISPATCH.basket) == 1000;
    assert RequestSound(t, 1) && !Handed(t, 1);
    assert t.monoPayments[1].binding == 1 && ReceiptSound(t, t.receipts[1]);
  }

  lemma SaleStays(t: Tables)
    requires t.bindings == ReceiptedSale().bindings && t.receipts == ReceiptedSale().receipts && t.now == 40
    requires t.observations == ReceiptedSale().observations && t.truths == map[]
    ensures MayHandOver(t, 7) && HasCurrent(t, 7)
  {
    assert Latest(t, 1) && Observes(t, t.observations[1], t.bindings[1], t.receipts[1]);
    assert Current(t, 1, 1) && ProviderStands(t, 1, 1);
  }

  lemma HandoverInserted()
    ensures Step(ReceiptedSale(), InsertHandover(7, Handover(99, false))) == Some(SaleHandedOver())
  {
    SaleStays(ReceiptedSale());
    assert ReceiptedSale().bindings[1].operator == 99;
    assert ReceiptedSale().handovers[7 := Handover(99, false)] == map[7 := Handover(99, false)];
  }

  lemma OrderCompleted()
    ensures Step(SaleHandedOver(), PutOrder(7, COMPLETED_ORDER)) == Some(SaleCompleted())
  {
    SaleStays(SaleHandedOver());
    assert SaleHandedOver().orders[7 := COMPLETED_ORDER] == map[7 := COMPLETED_ORDER];
  }

  lemma StockShipped()
    ensures Step(SaleCompleted(), InsertMovement(SHIPMENT_ROW)) == Some(SaleShipped())
  {
    RowShips(SaleCompleted());
    SaleStays(SaleCompleted());
    assert SaleCompleted().ledger + [SHIPMENT_ROW] == [SHIPMENT_ROW];
  }

  lemma RowShips(t: Tables)
    requires t.items == map[2 := Item(7, 30, 1, 1, 0, 0)]
    ensures ShipsAnItem(t, DISPATCH, SHIPMENT_ROW)
  {
    assert 2 in t.items && ShipmentRow(DISPATCH, 2, t.items[2]) == SHIPMENT_ROW;
  }

  lemma SaleWhole()
    ensures HandedOver(SaleShipped(), DISPATCH) && Required(SaleShipped(), 7)
  {
    assert SaleShipped().ledger[0] == ShipmentRow(DISPATCH, 2, SaleShipped().items[2]);
  }

  /** The protocol gets there: one transaction hands over, completes and ships. */
  lemma HandoverReachable() returns (t: Tables, txn: seq<Statement>, k: int)
    ensures Committed(t) && k in t.requests && !Handed(t, k)
    ensures var u := Commit(Step, Check, t, txn); k in u.requests && HandedOver(u, u.requests[k])
  {
    t, txn, k := ReceiptedSale(), [InsertHandover(7, Handover(99, false)), PutOrder(7, COMPLETED_ORDER), InsertMovement(SHIPMENT_ROW)], 1;
    ReceiptedSaleCommitted();
    HandoverInserted();
    OrderCompleted();
    StockShipped();
    SaleWhole();
    ThreeStatements(Step, Check, t, SaleHandedOver(), SaleCompleted(), SaleShipped(), txn[0], txn[1], txn[2]);
  }

  // ---------------------------------------------------------------- the triggers

  class CheckoutDatabase {
    var now: int
    var orders: map<int, Order>
    var items: map<int, Item>
    var rivals: set<int>
    var requests: map<int, Request>
    var dispatchedAt: map<int, nat>
    var bindings: map<int, Binding>
    var payments: map<int, Payment>
    var monoPayments: map<int, MonoPayment>
    var receipts: map<int, MonoReceipt>
    var observations: map<int, Observation>
    var truths: map<int, Truth>
    var handovers: map<int, Handover>
    var ledger: seq<Movement>

    function View(): Tables reads this {
      Tables(now, orders, items, rivals, requests, dispatchedAt, bindings, payments, monoPayments, receipts, observations,
             truths, handovers, ledger)
    }

    constructor (t: Tables)
      ensures View() == t
    {
      now, orders, items, rivals, requests, dispatchedAt := t.now, t.orders, t.items, t.rivals, t.requests, t.dispatchedAt;
      bindings, payments, monoPayments, receipts := t.bindings, t.payments, t.monoPayments, t.receipts;
      observations, truths, handovers, ledger := t.observations, t.truths, t.handovers, t.ledger;
    }

    method RestoreMoney(t: Tables)
      modifies `bindings, `payments, `monoPayments, `receipts, `observations, `truths
      ensures bindings == t.bindings && payments == t.payments && monoPayments == t.monoPayments
      ensures receipts == t.receipts && observations == t.observations && truths == t.truths
    {
      bindings, payments, monoPayments, receipts := t.bindings, t.payments, t.monoPayments, t.receipts;
      observations, truths := t.observations, t.truths;
    }

    method Restore(t: Tables)
      modifies this
      ensures View() == t
    {
      RestoreMoney(t);
      now, orders, items, rivals, requests := t.now, t.orders, t.items, t.rivals, t.requests;
      dispatchedAt, handovers, ledger := t.dispatchedAt, t.handovers, t.ledger;
    }

    /** SELECT sum(total) over the basket. */
    method SumTotals(lines: seq<Line>) returns (sum: int)
      ensures sum == BasketTotal(lines)
      ensures (forall i :: 0 <= i < |lines| ==> LineValid(lines[i])) ==> sum == BasketValue(lines)
    {
      sum := 0;
      for n := 0 to |lines|
        invariant sum == BasketTotal(lines[..n])
      {
        assert lines[..n + 1][..n] == lines[..n];
        sum := sum + lines[n].total;
      }
      assert lines[..|lines|] == lines;
      if forall i :: 0 <= i < |lines| ==> LineValid(lines[i]) { BasketAddsUp(lines); }
    }

    /** validate_master_dispatch. */
    method Dispatch(id: int, q: Request) returns (ok: bool)
      modifies `requests, `dispatchedAt
      ensures ok == Admitted(old(View()), InsertRequest(id, q))
      ensures View() == if ok then Write(old(View()), InsertRequest(id, q)) else old(View())
    {
      if id in requests || exists k :: k in requests && (requests[k].order == q.order || requests[k].reference == q.reference) {
        return false;
      }
      if q.order !in orders || !Sellable(orders[q.order], q.operator, q.amount) {
        return false;
      }
      if q.amount <= 0 || !q.live || q.created < now - SKEW || now + SKEW < q.created || !(1 <= |q.basket| <= MAX_LINES) {
        return false;
      }
      var sum := SumTotals(q.basket);
      if sum != q.amount || exists i :: 0 <= i < |q.basket| && !LineValid(q.basket[i]) {
        return false;
      }
      if !(exists i :: i in items && items[i].order == q.order)
         || exists i :: i in items && items[i].order == q.order
              && !(items[i].fromStock == items[i].quantity && items[i].toOrder == 0 && items[i].received == 0) {
        return false;
      }
      if Bound(View(), q.order) || Paid(View(), q.order) || q.order in handovers || q.order in rivals {
        return false;
      }
      requests, dispatchedAt := requests[id := q], dispatchedAt[id := |ledger|];
      ok := true;
    }

    /** guard_master_mono_owner on orders. */
    method WriteOrder(id: int, p: Order) returns (ok: bool)
      modifies `orders
      ensures ok == Admitted(old(View()), PutOrder(id, p))
      ensures View() == if ok then Write(old(View()), PutOrder(id, p)) else old(View())
    {
      if id in orders && Owned(View(), id) {
        var o := orders[id];
        if p.pos != o.pos || p.simulation != o.simulation || p.owner != o.owner || p.terms != o.terms || p.total != o.total
           || (p.payBy != o.payBy && (!Bound(View(), id) || p.payBy != CARD))
           || (p.status != o.status && !p.status.Completed?) {
          return false;
        }
        if p.status != o.status && !MayHandOver(View(), id) {
          return false;
        }
      }
      orders := orders[id := p];
      ok := true;
    }

    method Run(s: Statement) returns (ok: bool)
      modifies this
      ensures ok == Step(old(View()), s).Some?
      ensures View() == if ok then Step(old(View()), s).value else old(View())
    {
      match s
      case InsertRequest(id, q) => ok := Dispatch(id, q);
      case PutOrder(id, o) => ok := WriteOrder(id, o);
      case _ =>
        ok := Admitted(View(), s);
        if ok {
          Restore(Write(View(), s));
        }
    }

    /** The statements in turn, up to the first one that raises. */
    method RunAll(txn: seq<Statement>) returns (ok: bool)
      modifies this
      ensures ok == Execute(Step, old(View()), txn).Some?
      ensures ok ==> View() == Execute(Step, old(View()), txn).value
    {
      ghost var before := View();
      for i := 0 to |txn|
        invariant Execute(Step, before, txn) == Execute(Step, View(), txn[i..])
      {
        ok := Run(txn[i]);
        if !ok {
          return;
        }
      }
      ok := true;
    }

    method Transact(txn: seq<Statement>) returns (committed: bool)
      modifies this
      ensures View() == Commit(Step, Check, old(View()), txn)
      ensures old(Committed(View())) ==> Committed(View()) && Later(old(View()), View())
    {
      var before := View();
      committed := RunAll(txn);
      if committed {
        committed := CheckEach(Check, View(), txn);
      }
      if !committed {
        Restore(before);
      }
      if Committed(before) {
        CommitKeeps(before, txn);
      }
    }
  }
}
