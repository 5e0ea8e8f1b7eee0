/**
 One fiscal owner per simulated sale. A manual fiscal document, an ETTN automation and a monobank QR
 attempt compete for an order across three tables; the QR projection follows the provider's truth.
 Each statement carries the BEFORE triggers and unique indexes of its table; the two deferred
 constraint triggers are checked when the transaction commits.
 */
module FiscalOwnership {
  import opened Prelude
  import opened Transactions

  datatype OrderStatus = OrderPending | OrderConfirmed | OrderCompleted | OrderCancelled

  datatype Order = Order(simulation: bool, pos: bool, status: OrderStatus, total: int)

  datatype Method = Cash | Card | Cod | MonobankQr

  datatype Source = Manual | ProviderConfirmation

  /** `evidence` of a provider confirmation is the provider's invoice. */
  datatype Payment = Payment(order: int, amount: int, kind: Method, source: Source, evidence: int,
                             operator: int, simulation: bool, created: int)

  datatype DocumentStatus = Queued | Unknown | Issued | Error | Cancelled

  /** Everything a fiscal document pins at approval, apart from its links. */
  datatype Approval = Approval(order: int, payment: int, uuid: int, actor: int, register: int, shift: int,
                               hash: int, approved: int)

  datatype Document = Document(approval: Approval, sale: bool, automation: Option<int>, qr: Option<int>,
                               status: DocumentStatus, dispatched: Option<int>)

  datatype AutomationStatus =
    | AutoQueued | AutoUnknown | AutoArmed | AutoCancelPending | AutoCancelUnknown | AutoCancelled | AutoIssued | AutoError

  /** The provider's result; `binding` stands for the fields that repeat the approval. */
  datatype Result = Result(uuid: int, hash: int, external: Option<int>, issued: int)

  datatype Automation = Automation(approval: Approval, shipment: int, status: AutomationStatus,
                                   external: Option<int>, result: Option<Result>, disarmed: bool)

  datatype RecordStatus = Armed | Disarmed | Delivered

  datatype Record = Record(uuid: int, external: int, hash: int, status: RecordStatus, result: Option<Result>)

  datatype PaymentStatus = Waiting | Processing | Uncertain | Paid | Declined | Expired | Withdrawn

  datatype ReceiptStatus = ReceiptPending | ReceiptIssued | ReceiptError

  datatype Consent = Consent(order: int, actor: int, invoice: int, register: int, shift: int, amount: int, hash: int, created: int)

  datatype Attempt = Attempt(consent: Consent, payment: PaymentStatus, receipt: ReceiptStatus, revision: int)

  datatype Truth = Truth(invoice: int, hash: int, payment: PaymentStatus, receipt: ReceiptStatus, accepted: Option<int>)

  datatype Receipt = Receipt(uuid: int, hash: int, accepted: int)

  datatype Tables = Tables(
    orders: map<int, Order>, payments: map<int, Payment>, shipments: map<int, int>,
    documents: map<int, Document>, automations: map<int, Automation>, records: map<int, Record>,
    attempts: map<int, Attempt>, truths: map<int, Truth>, receipts: map<int, Receipt>, jobs: set<int>)

  // ---------------------------------------------------------------- row conditions

  predicate Active(q: Attempt) { q.payment.Waiting? || q.payment.Processing? || q.payment.Uncertain? || q.payment.Paid? }

  predicate Final(p: PaymentStatus) { p.Paid? || p.Declined? || p.Expired? || p.Withdrawn? }

  predicate LiveSale(d: Document) { d.sale && d.status != Cancelled }

  predicate Unlinked(d: Document) { d.automation.None? && d.qr.None? }

  predicate AutomationOwns(t: Tables, order: int) {
    exists k :: k in t.automations && t.automations[k].approval.order == order && t.automations[k].status != AutoCancelled
  }

  predicate AttemptOwns(t: Tables, order: int) {
    exists k :: k in t.attempts && t.attempts[k].consent.order == order && Active(t.attempts[k])
  }

  // ---------------------------------------------------------------- fiscal documents

  /** Approval identity and links are immutable; issued and cancelled are final; error only cancels undispatched. */
  predicate DocumentUpdate(was: Document, d: Document) {
    && d.approval == was.approval && d.sale == was.sale && d.automation == was.automation && d.qr == was.qr
    && (was.dispatched.Some? ==> d.dispatched == was.dispatched)
    && (was.status in {Issued, Cancelled} ==> d.status == was.status)
    && (was.status == Error && d.status != Error ==> d.status == Cancelled && was.dispatched.None?)
  }

  /** A receipt linked to an automation repeats that issued automation and its provider's truth. */
  predicate CanonicalAutomation(t: Tables, d: Document)
    requires d.automation.Some?
  {
    var k := d.automation.value;
    && k in t.automations && k in t.records
    && var a, r := t.automations[k], t.records[k];
    && a.status == AutoIssued && r.status == Delivered && d.status == Issued
    && d.sale && d.approval.(hash := a.approval.hash) == a.approval
    && r.uuid == a.approval.uuid && r.hash == a.approval.hash && a.external == Some(r.external)
    && a.result.Some? && r.result == a.result
    && a.result.value.uuid == a.approval.uuid && a.result.value.hash == a.approval.hash
    && a.result.value.external == a.external && d.dispatched == Some(a.result.value.issued)
  }

  predicate AutomationSide(t: Tables, d: Document) {
    if d.automation.Some? then CanonicalAutomation(t, d)
    else
      && (forall k :: k in t.automations ==> t.automations[k].approval.uuid != d.approval.uuid)
      && (LiveSale(d) ==> forall k :: k in t.automations && t.automations[k].status != AutoCancelled ==>
            t.automations[k].approval.order != d.approval.order && t.automations[k].approval.payment != d.approval.payment)
  }

  /** A receipt linked to a QR attempt repeats that paid and issued attempt, its truth and its payment. */
  predicate CanonicalQr(t: Tables, d: Document)
    requires d.qr.Some?
  {
    var k := d.qr.value;
    && k in t.attempts && k in t.truths && d.approval.payment in t.payments
    && var q, r, p := t.attempts[k], t.truths[k], t.payments[d.approval.payment];
    && q.payment == Paid && q.receipt == ReceiptIssued && r.payment == Paid && r.receipt == ReceiptIssued
    && r.hash == q.consent.hash && d.sale && d.status == Issued && d.automation.None?
    && d.approval.order == q.consent.order && d.approval.actor == q.consent.actor && d.approval.uuid == q.consent.invoice
    && d.approval.register == q.consent.register && d.approval.shift == q.consent.shift
    && d.approval.approved == q.consent.created && d.dispatched == r.accepted
    && p.order == q.consent.order && p.amount == q.consent.amount && p.simulation && p.kind == MonobankQr
    && p.source == ProviderConfirmation && p.evidence == q.consent.invoice && p.operator == q.consent.actor
    && Some(p.created) == r.accepted
  }

  predicate QrSide(t: Tables, d: Document) {
    if d.qr.Some? then CanonicalQr(t, d)
    else
      && (forall k :: k in t.attempts ==> t.attempts[k].consent.invoice != d.approval.uuid)
      && (d.sale ==> !AttemptOwns(t, d.approval.order))
  }

  /** uq_fiscal_active_order, uq_fiscal_active_payment, and the unique uuid and link columns. */
  predicate DocumentUnique(t: Tables, id: int, d: Document) {
    forall k :: k in t.documents && k != id ==>
      var e := t.documents[k];
      && e.approval.uuid != d.approval.uuid
      && (d.automation.Some? ==> e.automation != d.automation) && (d.qr.Some? ==> e.qr != d.qr)
      && (LiveSale(d) && LiveSale(e) ==> e.approval.order != d.approval.order && e.approval.payment != d.approval.payment)
  }

  predicate DocumentAdmitted(t: Tables, id: int, d: Document) {
    && (id in t.documents ==> DocumentUpdate(t.documents[id], d))
    && AutomationSide(t, d) && QrSide(t, d) && DocumentUnique(t, id, d)
  }

  // ---------------------------------------------------------------- automations and their truth

  predicate AutomationUpdate(t: Tables, id: int, was: Automation, a: Automation) {
    && a.approval == was.approval && a.shipment == was.shipment
    && (was.status in {AutoIssued, AutoCancelled} ==> a.status == was.status)
    && (was.result.Some? ==> a.result == was.result) && (was.external.Some? ==> a.external == was.external)
    && (a.status == AutoCancelled ==> id in t.records ==> t.records[id].status == Disarmed)
  }

  predicate AutomationAdmitted(t: Tables, id: int, a: Automation) {
    && (id in t.automations ==> AutomationUpdate(t, id, t.automations[id], a))
    && (a.status == AutoCancelled ==> a.disarmed) && (a.status == AutoIssued ==> a.result.Some?)
    && a.approval.payment in t.payments && t.payments[a.approval.payment].order == a.approval.order
    && t.payments[a.approval.payment].simulation
    && a.shipment in t.shipments && t.shipments[a.shipment] == a.approval.order
    && (a.status != AutoCancelled ==>
          forall k :: k in t.documents && LiveSale(t.documents[k]) && t.documents[k].automation != Some(id) ==>
            t.documents[k].approval.order != a.approval.order && t.documents[k].approval.payment != a.approval.payment)
    && !AttemptOwns(t, a.approval.order)
    && (forall k :: k in t.automations && k != id ==>
          var b := t.automations[k];
          && b.approval.uuid != a.approval.uuid
          && (a.status != AutoCancelled && b.status != AutoCancelled ==>
                b.approval.order != a.approval.order && b.approval.payment != a.approval.payment))
  }

  predicate RecordAdmitted(t: Tables, id: int, r: Record) {
    && id in t.automations
    && (id in t.records ==>
          var o := t.records[id];
          && r.uuid == o.uuid && r.external == o.external && r.hash == o.hash
          && (o.status != Armed ==> r.status == o.status) && (o.result.Some? ==> r.result == o.result))
  }

  // ---------------------------------------------------------------- QR attempts, truth and payments

  predicate AttemptUpdate(was: Attempt, q: Attempt) {
    && q.consent == was.consent
    && (Final(was.payment) ==> q.payment == was.payment)
    && (was.receipt == ReceiptIssued ==> q.receipt == ReceiptIssued)
  }

  predicate AttemptInsert(t: Tables, q: Attempt) {
    && q.payment == Waiting && q.receipt == ReceiptPending && q.revision == 1 && 0 < q.consent.amount
    && q.consent.order in t.orders
    && var o := t.orders[q.consent.order];
    && o.simulation && o.pos && o.status in {OrderPending, OrderConfirmed} && o.total == q.consent.amount
    && (forall k :: k in t.payments ==> t.payments[k].order != q.consent.order)
    && (forall k :: k in t.documents && LiveSale(t.documents[k]) ==> t.documents[k].approval.order != q.consent.order)
    && !AutomationOwns(t, q.consent.order)
  }

  predicate AttemptAdmitted(t: Tables, id: int, q: Attempt) {
    && (if id in t.attempts then AttemptUpdate(t.attempts[id], q) else AttemptInsert(t, q))
    && (forall k :: k in t.attempts && k != id ==>
          && t.attempts[k].consent.invoice != q.consent.invoice
          && (Active(q) && Active(t.attempts[k]) ==> t.attempts[k].consent.order != q.consent.order))
  }

  predicate TruthAdmitted(t: Tables, id: int, r: Truth) {
    && id in t.attempts && t.attempts[id].consent.invoice == r.invoice && t.attempts[id].consent.hash == r.hash
    && r.payment != Uncertain && (r.payment == Paid <==> r.accepted.Some?)
    && (if id in t.truths then
          var o := t.truths[id];
          && r.invoice == o.invoice && r.hash == o.hash
          && (Final(o.payment) ==> r.payment == o.payment)
          && (o.accepted.Some? ==> r.accepted == o.accepted)
          && (o.receipt == ReceiptIssued ==> r.receipt == ReceiptIssued)
        else r.payment == Waiting && r.receipt == ReceiptPending)
  }

  /** Payments are append-only, one per order; an active attempt admits only its own accepted money. */
  predicate PaymentAdmitted(t: Tables, id: int, p: Payment) {
    && id !in t.payments && 0 < p.amount && (forall k :: k in t.payments ==> t.payments[k].order != p.order)
    && (forall k :: k in t.attempts && t.attempts[k].consent.order == p.order && Active(t.attempts[k]) ==>
          && p.source == ProviderConfirmation && p.kind == MonobankQr && p.evidence == t.attempts[k].consent.invoice
          && p.amount == t.attempts[k].consent.amount && p.simulation && k in t.truths && t.truths[k].payment == Paid)
    && (p.source == ProviderConfirmation || p.kind == MonobankQr ==> AttemptOwns(t, p.order))
  }

  /** While an attempt owns the order its economics are frozen and only a paid, issued sale completes. */
  predicate OrderAdmitted(t: Tables, id: int, o: Order) {
    id in t.orders ==> forall k :: k in t.attempts && t.attempts[k].consent.order == id && Active(t.attempts[k]) ==>
      && o.simulation == t.orders[id].simulation && o.pos == t.orders[id].pos && o.total == t.orders[id].total
      && (o.status != t.orders[id].status ==>
            o.status == OrderCompleted && t.attempts[k].payment == Paid && t.attempts[k].receipt == ReceiptIssued)
  }

  // ---------------------------------------------------------------- statements

  datatype Statement =
    | PutOrder(id: int, order: Order)
    | PutShipment(id: int, of: int)
    | InsertPayment(id: int, payment: Payment)
    | PutDocument(id: int, document: Document)
    | PutAutomation(id: int, automation: Automation)
    | PutRecord(id: int, record: Record)
    | PutAttempt(id: int, attempt: Attempt)
    | PutTruth(id: int, truth: Truth)
    | InsertReceipt(id: int, receipt: Receipt)
    | InsertJob(id: int)

  /** Put is an INSERT when the key is new and an UPDATE otherwise. */
  predicate Admitted(t: Tables, s: Statement) {
    match s
    case PutOrder(id, o) => OrderAdmitted(t, id, o)
    case PutShipment(id, of) => id !in t.shipments
    case InsertPayment(id, p) => PaymentAdmitted(t, id, p)
    case PutDocument(id, d) => DocumentAdmitted(t, id, d)
    case PutAutomation(id, a) => AutomationAdmitted(t, id, a)
    case PutRecord(id, r) => RecordAdmitted(t, id, r)
    case PutAttempt(id, q) => AttemptAdmitted(t, id, q)
    case PutTruth(id, r) => TruthAdmitted(t, id, r)
    case InsertReceipt(id, r) => id !in t.receipts && id in t.documents
    case InsertJob(id) => id in t.documents && Unlinked(t.documents[id])
  }

  function Write(t: Tables, s: Statement): Tables {
    match s
    case PutOrder(id, o) => t.(orders := t.orders[id := o])
    case PutShipment(id, of) => t.(shipments := t.shipments[id := of])
    case InsertPayment(id, p) => t.(payments := t.payments[id := p])
    case PutDocument(id, d) => t.(documents := t.documents[id := d])
    case PutAutomation(id, a) => t.(automations := t.automations[id := a])
    case PutRecord(id, r) => t.(records := t.records[id := r])
    case PutAttempt(id, q) => t.(attempts := t.attempts[id := q])
    case PutTruth(id, r) => t.(truths := t.truths[id := r])
    case InsertReceipt(id, r) => t.(receipts := t.receipts[id := r])
    case InsertJob(id) => t.(jobs := t.jobs + {id})
  }

  function Step(t: Tables, s: Statement): Option<Tables> {
    if Admitted(t, s) then Some(Write(t, s)) else None
  }

  predicate PaidBy(t: Tables, q: Attempt) {
    exists k :: k in t.payments && t.payments[k].order == q.consent.order && t.payments[k].source == ProviderConfirmation
      && t.payments[k].kind == MonobankQr && t.payments[k].evidence == q.consent.invoice && t.payments[k].amount == q.consent.amount
  }

  predicate ReceiptedBy(t: Tables, id: int) {
    exists k :: k in t.documents && t.documents[k].qr == Some(id) && t.documents[k].status == Issued
  }

  /** validate_qr_projection. */
  predicate Projected(t: Tables, id: int) {
    && id in t.attempts && id in t.truths
    && var q, r := t.attempts[id], t.truths[id];
    && r.invoice == q.consent.invoice && r.hash == q.consent.hash
    && (q.payment == r.payment || (q.payment == Uncertain && r.payment == Paid))
    && (q.receipt == ReceiptIssued ==> r.receipt == ReceiptIssued)
    && (q.payment == Paid ==> PaidBy(t, q))
    && (q.payment == Paid && q.receipt == ReceiptIssued ==> ReceiptedBy(t, id))
  }

  /** The constraint triggers a statement queues, evaluated on the tables at commit. */
  predicate Check(t: Tables, s: Statement) {
    match s
    case PutAttempt(id, _) => Projected(t, id)
    case PutTruth(id, _) => Projected(t, id)
    case PutDocument(id, d) =>
      !Unlinked(d) ==>
        && id in t.receipts && t.receipts[id].uuid == d.approval.uuid && t.receipts[id].hash == d.approval.hash
        && Some(t.receipts[id].accepted) == d.dispatched && id !in t.jobs
    case _ => true
  }

  // ---------------------------------------------------------------- what every statement keeps

  /** The rows that own an order: one of the three families, as a tag and a key. */
  datatype Owner = ByDocument(id: int) | ByAutomation(id: int) | ByAttempt(id: int)

  ghost predicate Owns(t: Tables, w: Owner, order: int) {
    match w
    case ByDocument(k) => k in t.documents && LiveSale(t.documents[k]) && Unlinked(t.documents[k]) && t.documents[k].approval.order == order
    case ByAutomation(k) => k in t.automations && t.automations[k].status != AutoCancelled && t.automations[k].approval.order == order
    case ByAttempt(k) => k in t.attempts && Active(t.attempts[k]) && t.attempts[k].consent.order == order
  }

  ghost predicate OneOwner(t: Tables) {
    forall v, w, order :: Owns(t, v, order) && Owns(t, w, order) ==> v == w
  }

  /** A linked receipt is issued and its issued automation, or its paid and issued attempt, has the same order. */
  ghost predicate LinkSound(t: Tables, d: Document) {
    && (d.automation.Some? ==>
          var k := d.automation.value;
          && d.sale && d.status == Issued && k in t.automations && t.automations[k].status == AutoIssued
          && t.automations[k].approval.order == d.approval.order)
    && (d.qr.Some? ==>
          var k := d.qr.value;
          && d.sale && d.status == Issued && d.automation.None? && k in t.attempts && t.attempts[k].payment == Paid
          && t.attempts[k].receipt == ReceiptIssued && t.attempts[k].consent.order == d.approval.order)
  }

  ghost predicate LinksSound(t: Tables) {
    forall k :: k in t.documents ==> LinkSound(t, t.documents[k])
  }

  /** The check constraint of the provider records. */
  ghost predicate TruthsDated(t: Tables) {
    forall k :: k in t.truths ==> (t.truths[k].payment == Paid <==> t.truths[k].accepted.Some?)
  }

  ghost predicate Exclusive(t: Tables) { OneOwner(t) && LinksSound(t) && TruthsDated(t) }

  lemma StepKeeps(t: Tables, s: Statement)
    requires Exclusive(t) && Step(t, s).Some?
    ensures Exclusive(Write(t, s))
  {
    OwnersKept(t, s);
    LinksKept(t, s);
  }

  lemma LinksKept(t: Tables, s: Statement)
    requires Exclusive(t) && Step(t, s).Some?
    ensures LinksSound(Write(t, s)) && TruthsDated(Write(t, s))
  {
    var t' := Write(t, s);
    forall k | k in t'.documents ensures LinkSound(t', t'.documents[k]) {
      assert k in t.documents ==> LinkSound(t, t.documents[k]);
    }
  }

  lemma OwnersKept(t: Tables, s: Statement)
    requires Exclusive(t) && Step(t, s).Some?
    ensures OneOwner(Write(t, s))
  {
    var t' := Write(t, s);
    forall v, w, order | Owns(t', v, order) && Owns(t', w, order) ensures v == w {
      match s
      case PutDocument(id, d) => DocumentOwners(t, id, d, v, w, order);
      case PutAutomation(id, a) => AutomationOwners(t, id, a, v, w, order);
      case PutAttempt(id, q) => AttemptOwners(t, id, q, v, w, order);
      case _ => assert Owns(t, v, order) && Owns(t, w, order);
    }
  }

  lemma DocumentOwners(t: Tables, id: int, d: Document, v: Owner, w: Owner, order: int)
    requires Exclusive(t) && DocumentAdmitted(t, id, d)
    requires var t' := Write(t, PutDocument(id, d)); Owns(t', v, order) && Owns(t', w, order)
    ensures v == w
  {
    if v != ByDocument(id) { assert Owns(t, v, order); }
    if w != ByDocument(id) { assert Owns(t, w, order); }
  }

  lemma AutomationOwners(t: Tables, id: int, a: Automation, v: Owner, w: Owner, order: int)
    requires Exclusive(t) && AutomationAdmitted(t, id, a)
    requires var t' := Write(t, PutAutomation(id, a)); Owns(t', v, order) && Owns(t', w, order)
    ensures v == w
  {
    if v != ByAutomation(id) { assert Owns(t, v, order); }
    if w != ByAutomation(id) { assert Owns(t, w, order); }
  }

  lemma AttemptOwners(t: Tables, id: int, q: Attempt, v: Owner, w: Owner, order: int)
    requires Exclusive(t) && AttemptAdmitted(t, id, q)
    requires var t' := Write(t, PutAttempt(id, q)); Owns(t', v, order) && Owns(t', w, order)
    ensures v == w
  {
    if v != ByAttempt(id) || id in t.attempts { assert Owns(t, v, order); }
    if w != ByAttempt(id) || id in t.attempts { assert Owns(t, w, order); }
  }

  // ---------------------------------------------------------------- what is never lost

  ghost predicate DocumentLater(d: Document, e: Document) {
    && e.approval == d.approval && e.sale == d.sale && e.automation == d.automation && e.qr == d.qr
    && (d.status.Issued? ==> e.status.Issued?) && (d.status.Cancelled? ==> e.status.Cancelled?)
    && (d.dispatched.Some? ==> e.dispatched == d.dispatched)
  }

  ghost predicate AttemptLater(q: Attempt, r: Attempt) {
    r.consent == q.consent && (Final(q.payment) ==> r.payment == q.payment) && (q.receipt.ReceiptIssued? ==> r.receipt.ReceiptIssued?)
  }

  ghost predicate TruthLater(r: Truth, u: Truth) {
    && u.invoice == r.invoice && u.hash == r.hash && (Final(r.payment) ==> u.payment == r.payment)
    && (r.receipt.ReceiptIssued? ==> u.receipt.ReceiptIssued?) && (r.accepted.Some? ==> u.accepted == r.accepted)
  }

  ghost predicate AutomationLater(a: Automation, b: Automation) {
    && b.approval == a.approval && (a.status.AutoIssued? ==> b.status.AutoIssued?)
    && (a.status.AutoCancelled? ==> b.status.AutoCancelled?)
    && (a.result.Some? ==> b.result == a.result)
  }

  /** Facts stay, approvals and consents stay as they were, and terminal states stay terminal. */
  ghost predicate Later(t: Tables, u: Tables) {
    && (forall k :: k in t.documents ==> k in u.documents && DocumentLater(t.documents[k], u.documents[k]))
    && (forall k :: k in t.attempts ==> k in u.attempts && AttemptLater(t.attempts[k], u.attempts[k]))
    && (forall k :: k in t.truths ==> k in u.truths && TruthLater(t.truths[k], u.truths[k]))
    && (forall k :: k in t.automations ==> k in u.automations && AutomationLater(t.automations[k], u.automations[k]))
    && (forall k :: k in t.payments ==> k in u.payments && u.payments[k] == t.payments[k])
    && (forall k :: k in t.receipts ==> k in u.receipts && u.receipts[k] == t.receipts[k])
  }

  lemma StepAdvances(t: Tables, s: Statement)
    requires Step(t, s).Some?
    ensures Later(t, Write(t, s))
  {
    DocumentsAdvance(t, s);
    AttemptsAdvance(t, s);
  }

  lemma DocumentsAdvance(t: Tables, s: Statement)
    requires Step(t, s).Some?
    ensures var u := Write(t, s);
      && (forall k :: k in t.documents ==> k in u.documents && DocumentLater(t.documents[k], u.documents[k]))
      && (forall k :: k in t.automations ==> k in u.automations && AutomationLater(t.automations[k], u.automations[k]))
  {}

  lemma AttemptsAdvance(t: Tables, s: Statement)
    requires Step(t, s).Some?
    ensures var u := Write(t, s);
      && (forall k :: k in t.attempts ==> k in u.attempts && AttemptLater(t.attempts[k], u.attempts[k]))
      && (forall k :: k in t.truths ==> k in u.truths && TruthLater(t.truths[k], u.truths[k]))
  {}

  /** What a caller of one statement may rely on: nothing is lost, and owners stay exclusive. */
  ghost predicate Sound(t: Tables, u: Tables) { Later(t, u) && (Exclusive(t) ==> Exclusive(u)) }

  lemma StepSound(t: Tables, s: Statement)
    ensures Sound(t, if Admitted(t, s) then Write(t, s) else t)
  {
    if Admitted(t, s) {
      StepAdvances(t, s);
      if Exclusive(t) { StepKeeps(t, s); }
    }
  }

  lemma LaterTransitive(s: Tables, t: Tables, u: Tables)
    requires Later(s, t) && Later(t, u)
    ensures Later(s, u)
  {
    forall k | k in s.documents ensures k in u.documents && DocumentLater(s.documents[k], u.documents[k]) {
      assert k in t.documents;
    }
    forall k | k in s.attempts ensures k in u.attempts && AttemptLater(s.attempts[k], u.attempts[k]) {
      assert k in t.attempts;
    }
    forall k | k in s.truths ensures k in u.truths && TruthLater(s.truths[k], u.truths[k]) {
      assert k in t.truths;
    }
    forall k | k in s.automations ensures k in u.automations && AutomationLater(s.automations[k], u.automations[k]) {
      assert k in t.automations;
    }
  }

  /** A linked receipt was accepted by the provider exactly as dispatched, and is never dispatched again. */
  ghost predicate Accepted(t: Tables, k: int)
    requires k in t.documents
  {
    !Unlinked(t.documents[k]) ==>
      && k in t.receipts && t.receipts[k].uuid == t.documents[k].approval.uuid && t.receipts[k].hash == t.documents[k].approval.hash
      && Some(t.receipts[k].accepted) == t.documents[k].dispatched && k !in t.jobs
  }

  /** What holds whenever a transaction has committed. */
  ghost predicate Committed(t: Tables) {
    && Exclusive(t)
    && (forall k :: k in t.attempts ==> Projected(t, k))
    && (forall k :: k in t.documents ==> Accepted(t, k))
  }

  /** Row k of u was already in t, or is what a statement of the transaction wrote. */
  ghost predicate Traced(t: Tables, txn: seq<Statement>, u: Tables, k: int) {
    && (k in u.documents ==> (k in t.documents && u.documents[k] == t.documents[k]) || PutDocument(k, u.documents[k]) in txn)
    && (k in u.attempts ==> (k in t.attempts && u.attempts[k] == t.attempts[k]) || PutAttempt(k, u.attempts[k]) in txn)
    && (k in u.truths ==> (k in t.truths && u.truths[k] == t.truths[k]) || PutTruth(k, u.truths[k]) in txn)
    && (k in u.jobs && k !in t.jobs ==> k in u.documents && Unlinked(u.documents[k]))
  }

  lemma StepTraced(t: Tables, s: Statement, txn: seq<Statement>, u: Tables, k: int)
    requires Step(t, s).Some? && Traced(Write(t, s), txn, u, k) && Later(Write(t, s), u)
    ensures Traced(t, [s] + txn, u, k)
  {
    if k in u.jobs && k !in t.jobs && k in Write(t, s).jobs {
      assert DocumentLater(t.documents[k], u.documents[k]);
    }
  }

  lemma {:induction false} LastWrite(t: Tables, txn: seq<Statement>, k: int)
    requires Execute(Step, t, txn).Some?
    ensures Traced(t, txn, Execute(Step, t, txn).value, k) && Later(t, Execute(Step, t, txn).value)
    decreases |txn|
  {
    if txn != [] {
      var u := Execute(Step, t, txn).value;
      LastWrite(Write(t, txn[0]), txn[1..], k);
      StepTraced(t, txn[0], txn[1..], u, k);
      StepAdvances(t, txn[0]);
      LaterTransitive(t, Write(t, txn[0]), u);
      assert txn == [txn[0]] + txn[1..];
    }
  }

  /** The deferred projection check is only about touched rows; the others are carried by what never regresses. */
  lemma ProjectionCarried(t: Tables, u: Tables, k: int)
    requires Later(t, u) && k in t.attempts && Projected(t, k)
    requires u.attempts[k] == t.attempts[k] && u.truths[k] == t.truths[k]
    ensures Projected(u, k)
  {
    if PaidBy(t, t.attempts[k]) {
      var p :| p in t.payments && t.payments[p].order == t.attempts[k].consent.order
        && t.payments[p].source == ProviderConfirmation && t.payments[p].kind == MonobankQr
        && t.payments[p].evidence == t.attempts[k].consent.invoice && t.payments[p].amount == t.attempts[k].consent.amount;
      assert u.payments[p] == t.payments[p] && PaidBy(u, u.attempts[k]);
    }
    if ReceiptedBy(t, k) {
      var d :| d in t.documents && t.documents[d].qr == Some(k) && t.documents[d].status == Issued;
      assert u.documents[d].qr == Some(k) && u.documents[d].status == Issued;
    }
  }

  lemma ExecuteSound(t: Tables, txn: seq<Statement>)
    requires Exclusive(t) && Execute(Step, t, txn).Some?
    ensures Exclusive(Execute(Step, t, txn).value) && Later(t, Execute(Step, t, txn).value)
  {
    forall t, s | Exclusive(t) && Step(t, s).Some? ensures Exclusive(Step(t, s).value) && Later(t, Step(t, s).value) {
      StepKeeps(t, s);
      StepAdvances(t, s);
    }
    forall s, t, u | Later(s, t) && Later(t, u) ensures Later(s, u) { LaterTransitive(s, t, u); }
    ExecuteKeeps(Step, Exclusive, t, txn);
    ExecuteAdvances(Step, Exclusive, Later, t, txn);
  }

  lemma ProjectedAfter(t: Tables, u: Tables, txn: seq<Statement>, k: int)
    requires Committed(t) && Execute(Step, t, txn) == Some(u) && Passes(Check, u, txn) && Later(t, u) && k in u.attempts
    ensures Projected(u, k)
  {
    LastWrite(t, txn, k);
    if PutAttempt(k, u.attempts[k]) !in txn && (k !in u.truths || PutTruth(k, u.truths[k]) !in txn) {
      ProjectionCarried(t, u, k);
    }
  }

  lemma AcceptedAfter(t: Tables, u: Tables, txn: seq<Statement>, k: int)
    requires Committed(t) && Execute(Step, t, txn) == Some(u) && Passes(Check, u, txn) && Later(t, u) && k in u.documents
    ensures Accepted(u, k)
  {
    LastWrite(t, txn, k);
  }

  lemma CommitKeeps(t: Tables, txn: seq<Statement>)
    requires Committed(t)
    ensures Committed(Commit(Step, Check, t, txn)) && Later(t, Commit(Step, Check, t, txn))
  {
    var u := Commit(Step, Check, t, txn);
    if Execute(Step, t, txn).Some? && Passes(Check, Execute(Step, t, txn).value, txn) {
      ExecuteSound(t, txn);
      forall k | k in u.attempts ensures Projected(u, k) { ProjectedAfter(t, u, txn, k); }
      forall k | k in u.documents ensures Accepted(u, k) { AcceptedAfter(t, u, txn, k); }
    }
  }

  // ---------------------------------------------------------------- main results

  /** Before the simulation: no automations, no attempts, and at most one live manual sale per order. */
  ghost predicate Initial(t: Tables) {
    && t.automations == map[] && t.attempts == map[] && t.truths == map[]
    && (forall k :: k in t.documents ==> Unlinked(t.documents[k]))
    && (forall j, k :: j in t.documents && k in t.documents && j != k && LiveSale(t.documents[j]) && LiveSale(t.documents[k]) ==>
          t.documents[j].approval.order != t.documents[k].approval.order)
  }

  /** After any history of transactions an order has at most one fiscal owner, and a linked receipt is the owner's. */
  lemma SoleOwner(t: Tables, txns: seq<seq<Statement>>, order: int)
    requires Initial(t)
    ensures var u := History(Step, Check, t, txns);
      && (forall v, w :: Owns(u, v, order) && Owns(u, w, order) ==> v == w)
      && (forall k :: k in u.documents && u.documents[k].automation.Some? && u.documents[k].approval.order == order ==>
            Owns(u, ByAutomation(u.documents[k].automation.value), order))
      && (forall k :: k in u.documents && u.documents[k].qr.Some? && u.documents[k].approval.order == order ==>
            Owns(u, ByAttempt(u.documents[k].qr.value), order))
  {
    HistoryCommitted(t, txns);
    var u := History(Step, Check, t, txns);
    assert forall k :: k in u.documents ==> LinkSound(u, u.documents[k]);
  }

  lemma HistoryCommitted(t: Tables, txns: seq<seq<Statement>>)
    requires Committed(t) || Initial(t)
    ensures Committed(History(Step, Check, t, txns)) && Later(t, History(Step, Check, t, txns))
  {
    forall t, txn | Committed(t) ensures Committed(Commit(Step, Check, t, txn)) && Later(t, Commit(Step, Check, t, txn)) {
      CommitKeeps(t, txn);
    }
    forall s, t, u | Later(s, t) && Later(t, u) ensures Later(s, u) { LaterTransitive(s, t, u); }
    HistoryKeeps(Step, Check, Committed, Later, t, txns);
  }

  /**
   A paid attempt of a committed state has paid provider truth and a payment of exactly the consented
   amount; once also issued it has its issued canonical receipt; and after any further history all of
   this is still so.
   */
  lemma PaidStaysBacked(t: Tables, txns: seq<seq<Statement>>, more: seq<seq<Statement>>, k: int)
    requires Initial(t)
    requires var u := History(Step, Check, t, txns); k in u.attempts && u.attempts[k].payment == Paid
    ensures var u := History(Step, Check, t, txns); var w := History(Step, Check, u, more);
      && k in w.attempts && w.attempts[k].consent == u.attempts[k].consent && w.attempts[k].payment == Paid
      && k in w.truths && w.truths[k].payment == Paid && w.truths[k].accepted.Some? && PaidBy(w, u.attempts[k])
      && (u.attempts[k].receipt == ReceiptIssued ==>
            w.attempts[k].receipt == ReceiptIssued && w.truths[k].receipt == ReceiptIssued && ReceiptedBy(w, k))
  {
    HistoryCommitted(t, txns);
    var u := History(Step, Check, t, txns);
    HistoryCommitted(u, more);
    var w := History(Step, Check, u, more);
    assert AttemptLater(u.attempts[k], w.attempts[k]);
    assert Projected(w, k);
  }

  // ---------------------------------------------------------------- the tables

  /** The tables themselves. A statement that raises rolls its whole transaction back. */
  class OwnershipDatabase {
    var orders: map<int, Order>
    var payments: map<int, Payment>
    var shipments: map<int, int>
    var documents: map<int, Document>
    var automations: map<int, Automation>
    var records: map<int, Record>
    var attempts: map<int, Attempt>
    var truths: map<int, Truth>
    var receipts: map<int, Receipt>
    var jobs: set<int>

    function View(): Tables reads this {
      Tables(orders, payments, shipments, documents, automations, records, attempts, truths, receipts, jobs)
    }

    constructor (t: Tables)
      ensures View() == t
    {
      orders, payments, shipments, documents := t.orders, t.payments, t.shipments, t.documents;
      automations, records, attempts, truths := t.automations, t.records, t.attempts, t.truths;
      receipts, jobs := t.receipts, t.jobs;
    }

    method Restore(t: Tables)
      modifies this
      ensures View() == t
    {
      orders, payments, shipments, documents := t.orders, t.payments, t.shipments, t.documents;
      automations, records, attempts, truths := t.automations, t.records, t.attempts, t.truths;
      receipts, jobs := t.receipts, t.jobs;
    }

    /** immutable_fiscal_approval, exclusive_mock_fiscal_owner, guard_qr_fiscal_owner, then the indexes. */
    method DocumentFits(id: int, d: Document) returns (ok: bool)
      ensures ok == DocumentAdmitted(View(), id, d)
    {
      if id in documents && !DocumentUpdate(documents[id], d) {
        return false;
      }
      if d.automation.Some? {
        if !CanonicalAutomation(View(), d) {
          return false;
        }
      } else if exists k :: k in automations && automations[k].approval.uuid == d.approval.uuid {
        return false;
      } else if LiveSale(d) && (AutomationOwns(View(), d.approval.order) || AutomationOwnsPayment(d.approval.payment)) {
        return false;
      }
      ok := QrSide(View(), d) && DocumentUnique(View(), id, d);
    }

    method PutFiscalDocument(id: int, d: Document) returns (ok: bool)
      modifies this`documents
      ensures ok == Admitted(old(View()), PutDocument(id, d))
      ensures View() == if ok then Write(old(View()), PutDocument(id, d)) else old(View())
      ensures Sound(old(View()), View())
    {
      StepSound(View(), PutDocument(id, d));
      ok := DocumentFits(id, d);
      if ok {
        documents := documents[id := d];
      }
    }

    predicate AutomationOwnsPayment(payment: int) reads this {
      exists k :: k in automations && automations[k].approval.payment == payment && automations[k].status != AutoCancelled
    }

    /** protect_mock_automation on UPDATE. */
    method AutomationChange(id: int, a: Automation) returns (ok: bool)
      ensures ok == (id in automations ==> AutomationUpdate(View(), id, automations[id], a))
    {
      if id in automations {
        var was := automations[id];
        if a.approval != was.approval || a.shipment != was.shipment
           || ((was.status == AutoIssued || was.status == AutoCancelled) && a.status != was.status)
           || (was.result.Some? && a.result != was.result) || (was.external.Some? && a.external != was.external) {
          return false;
        }
        if a.status == AutoCancelled && id in records && records[id].status != Disarmed {
          return false;
        }
      }
      ok := true;
    }

    /** exclusive_mock_fiscal_owner and guard_qr_automation_owner, then the indexes: nobody else owns the sale. */
    method SaleFree(id: int, a: Automation) returns (ok: bool)
      ensures ok <==>
        && (a.status != AutoCancelled ==>
              forall k :: k in documents && LiveSale(documents[k]) && documents[k].automation != Some(id) ==>
                documents[k].approval.order != a.approval.order && documents[k].approval.payment != a.approval.payment)
        && !AttemptOwns(View(), a.approval.order)
        && (forall k :: k in automations && k != id ==> !Rivals(automations[k], a))
    {
      if a.status != AutoCancelled
         && exists k :: k in documents && LiveSale(documents[k]) && documents[k].automation != Some(id)
              && (documents[k].approval.order == a.approval.order || documents[k].approval.payment == a.approval.payment) {
        return false;
      }
      ok := !AttemptOwns(View(), a.approval.order) && !exists k :: k in automations && k != id && Rivals(automations[k], a);
    }

    /** The check constraints and foreign keys, then the triggers. */
    method AutomationFits(id: int, a: Automation) returns (ok: bool)
      ensures ok == AutomationAdmitted(View(), id, a)
    {
      ok := AutomationChange(id, a);
      if !ok || (a.status == AutoCancelled && !a.disarmed) || (a.status == AutoIssued && a.result.None?) {
        return false;
      }
      if a.approval.payment !in payments || payments[a.approval.payment].order != a.approval.order
         || !payments[a.approval.payment].simulation || a.shipment !in shipments || shipments[a.shipment] != a.approval.order {
        return false;
      }
      ok := SaleFree(id, a);
    }

    method PutFiscalAutomation(id: int, a: Automation) returns (ok: bool)
      modifies this`automations
      ensures ok == Admitted(old(View()), PutAutomation(id, a))
      ensures View() == if ok then Write(old(View()), PutAutomation(id, a)) else old(View())
      ensures Sound(old(View()), View())
    {
      StepSound(View(), PutAutomation(id, a));
      ok := AutomationFits(id, a);
      if ok {
        automations := automations[id := a];
      }
    }

    /** Two automations that the unique uuid and the two active indexes keep apart. */
    predicate Rivals(a: Automation, b: Automation) {
      || a.approval.uuid == b.approval.uuid
      || (a.status != AutoCancelled && b.status != AutoCancelled
          && (a.approval.order == b.approval.order || a.approval.payment == b.approval.payment))
    }

    /** protect_qr_attempt, then the indexes. */
    method AttemptFits(id: int, q: Attempt) returns (ok: bool)
      ensures ok == AttemptAdmitted(View(), id, q)
    {
      if id in attempts {
        var was := attempts[id];
        if q.consent != was.consent || (Final(was.payment) && q.payment != was.payment)
           || (was.receipt == ReceiptIssued && q.receipt != ReceiptIssued) {
          return false;
        }
      } else if !AttemptInsert(View(), q) {
        return false;
      }
      ok := forall k :: k in attempts && k != id ==>
        && attempts[k].consent.invoice != q.consent.invoice
        && (Active(q) && Active(attempts[k]) ==> attempts[k].consent.order != q.consent.order);
    }

    method PutQrAttempt(id: int, q: Attempt) returns (ok: bool)
      modifies this`attempts
      ensures ok == Admitted(old(View()), PutAttempt(id, q))
      ensures View() == if ok then Write(old(View()), PutAttempt(id, q)) else old(View())
      ensures Sound(old(View()), View())
    {
      StepSound(View(), PutAttempt(id, q));
      ok := AttemptFits(id, q);
      if ok {
        attempts := attempts[id := q];
      }
    }

    method Run(s: Statement) returns (ok: bool)
      modifies this
      ensures ok == Step(old(View()), s).Some?
      ensures View() == if ok then Step(old(View()), s).value else old(View())
    {
      match s
      case PutDocument(id, d) => ok := PutFiscalDocument(id, d);
      case PutAutomation(id, a) => ok := PutFiscalAutomation(id, a);
      case PutAttempt(id, q) => ok := PutQrAttempt(id, q);
      case _ =>
        ok := Admitted(View(), s);
        if ok {
          Restore(Write(View(), s));
        }
    }

    /** The statements in turn, up to the first one that raises. */
    method RunAll(txn: seq<Statement>) returns (ok: bool)
      modifies this
      ensures ok == Execute(Step, old(View()), txn).Some?
      ensures ok ==> View() == Execute(Step, old(View()), txn).value
    {
      ghost var before := View();
      for i := 0 to |txn|
        invariant Execute(Step, before, txn) == Execute(Step, View(), txn[i..])
      {
        ok := Run(txn[i]);
        if !ok {
          return;
        }
      }
      ok := true;
    }

    method Transact(txn: seq<Statement>) returns (committed: bool)
      modifies this
      ensures View() == Commit(Step, Check, old(View()), txn)
      ensures old(Committed(View())) ==> Committed(View()) && Later(old(View()), View())
    {
      var before := View();
      committed := RunAll(txn);
      if committed {
        committed := CheckEach(Check, View(), txn);
      }
      if !committed {
        Restore(before);
      }
      if Committed(before) {
        CommitKeeps(before, txn);
      }
    }
  }
}
