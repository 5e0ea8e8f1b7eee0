/**
 Inspected parcels and the stock ledger. A return case freezes its order's items; the inspection
 receipt names what goes back on stock; and the append-only movement table admits customer returns of
 such an order only as the receipt's own lines. Case contents and the receipt's ledger are checked
 when their transaction commits.
 */
module ParcelStock {
  import opened Prelude
  import opened Transactions

  datatype Item = Item(order: int, product: int, quantity: int)

  /** A line selected for return. */
  datatype Line = Line(item: int, product: int, quantity: int)

  /** `shipment` is the original parcel; an unpaid case returns all of it. */
  datatype Case = Case(order: int, shipment: int, paid: bool, lines: seq<Line>)

  /** The key of a shipment_items row, with its shipment's order. */
  datatype Packing = Packing(order: int, shipment: int, item: int)

  datatype Inspected = Inspected(item: int, quantity: int, restock: bool)

  datatype Receipt = Receipt(parcel: int, operator: int, lines: seq<Inspected>)

  datatype MovementKind = Shipment | CustomerReturn | Reservation | ReservationRelease | OtherMovement

  /** The unique reference_key. */
  datatype Key = ShipmentKey(order: int, item: int) | ParcelKey(receipt: int, item: int) | OtherKey(text: string)

  datatype Movement = Movement(kind: MovementKind, order: Option<int>, item: Option<int>, product: int, quantity: int,
                               onHand: int, reserved: int, admin: int, key: Option<Key>)

  datatype Tables = Tables(items: map<int, Item>, packed: map<Packing, int>, cases: map<int, Case>, receipts: map<int, Receipt>, ledger: seq<Movement>)

  // ---------------------------------------------------------------- aggregates

  predicate Ships(m: Movement, order: int, item: int, product: int) {
    && m.kind.Shipment? && m.order == Some(order) && m.item == Some(item) && m.product == product
    && m.key == Some(ShipmentKey(order, item))
  }

  /** COALESCE(sum(-on_hand_delta), 0) over the canonical shipment movements of an item. */
  function Shipped(ledger: seq<Movement>, order: int, item: int, product: int): int {
    if |ledger| == 0 then 0
    else
      Shipped(ledger[..|ledger| - 1], order, item, product)
      + if Ships(ledger[|ledger| - 1], order, item, product) then -ledger[|ledger| - 1].onHand else 0
  }

  /** What customer returns put back for an item, whatever their source. */
  function ReturnedStock(ledger: seq<Movement>, item: int): int {
    if |ledger| == 0 then 0
    else
      ReturnedStock(ledger[..|ledger| - 1], item)
      + if ledger[|ledger| - 1].kind.CustomerReturn? && ledger[|ledger| - 1].item == Some(item)
        then ledger[|ledger| - 1].onHand else 0
  }

  /** The restock quantity an inspection names for an item. */
  function Restocked(lines: seq<Inspected>, item: int): int {
    if |lines| == 0 then 0
    else Restocked(lines[..|lines| - 1], item) + if lines[|lines| - 1].item == item && lines[|lines| - 1].restock
                                                 then lines[|lines| - 1].quantity else 0
  }

  // ---------------------------------------------------------------- guards

  predicate HasCase(t: Tables, order: int) {
    exists k :: k in t.cases && t.cases[k].order == order
  }

  /** protect_np_return_items: a cased order's items neither come, go nor change. */
  predicate ItemAdmitted(t: Tables, id: int, i: Item) {
    && (HasCase(t, i.order) ==> id in t.items && t.items[id] == i)
    && (id in t.items && HasCase(t, t.items[id].order) ==> t.items[id] == i)
  }

  /** protect_np_return_items on shipment_items: not at all any more. */
  predicate PackingAdmitted(t: Tables, p: Packing) { !HasCase(t, p.order) }

  /** No customer return of the order or of its items precedes the case. */
  predicate CaseAdmitted(t: Tables, id: int, c: Case) {
    && id !in t.cases && !HasCase(t, c.order)
    && (forall i :: 0 <= i < |t.ledger| && t.ledger[i].kind.CustomerReturn? ==>
          t.ledger[i].order != Some(c.order)
          && !(t.ledger[i].item.Some? && t.ledger[i].item.value in t.items && t.items[t.ledger[i].item.value].order == c.order))
  }

  /** validate_np_case_contents, deferred. */
  predicate CaseContents(t: Tables, c: Case) {
    && c.lines != [] && (!c.paid ==> |ItemsOf(t, c.order)| == |c.lines|)
    && (forall i, j :: 0 <= i < j < |c.lines| ==> c.lines[i].item != c.lines[j].item)
    && (forall i :: 0 <= i < |c.lines| ==> LineContents(t, c, c.lines[i]))
  }

  function ItemsOf(t: Tables, order: int): set<int> {
    set i | i in t.items && t.items[i].order == order
  }

  predicate LineContents(t: Tables, c: Case, l: Line) {
    && 0 < l.quantity && l.item in t.items && t.items[l.item].order == c.order && t.items[l.item].product == l.product
    && Packing(c.order, c.shipment, l.item) in t.packed && t.packed[Packing(c.order, c.shipment, l.item)] == t.items[l.item].quantity
    && l.quantity <= t.items[l.item].quantity && (c.paid || l.quantity == t.items[l.item].quantity)
    && l.quantity <= Shipped(t.ledger, c.order, l.item, l.product)
  }

  predicate ReceiptAdmitted(t: Tables, id: int, r: Receipt) {
    id !in t.receipts && r.parcel in t.cases && forall k :: k in t.receipts ==> t.receipts[k].parcel != r.parcel
  }

  /** The one movement an inspected restock line stands for. */
  function RestockMovement(id: int, r: Receipt, order: int, product: int, l: Inspected): Movement {
    Movement(CustomerReturn, Some(order), Some(l.item), product, l.quantity, l.quantity, 0, r.operator, Some(ParcelKey(id, l.item)))
  }

  /** One line of validate_np_receipt's loop. */
  predicate InspectedLine(t: Tables, id: int, r: Receipt, l: Inspected)
    requires r.parcel in t.cases
  {
    var c := t.cases[r.parcel];
    exists j :: 0 <= j < |c.lines| && c.lines[j].item == l.item && c.lines[j].quantity == l.quantity
      && (if l.restock then RestockMovement(id, r, c.order, c.lines[j].product, l) in t.ledger
          else forall i :: 0 <= i < |t.ledger| ==> t.ledger[i].key != Some(ParcelKey(id, l.item)))
  }

  /** validate_np_receipt, deferred. */
  predicate ReceiptLedger(t: Tables, id: int, r: Receipt) {
    && r.parcel in t.cases && |r.lines| == |t.cases[r.parcel].lines|
    && (forall i, j :: 0 <= i < j < |r.lines| ==> r.lines[i].item != r.lines[j].item)
    && (forall i :: 0 <= i < |r.lines| ==> InspectedLine(t, id, r, r.lines[i]))
  }

  /** The order whose case governs a movement: its item's, or else its own. */
  function OwnerOrder(t: Tables, m: Movement): Option<int> {
    if m.item.Some? && m.item.value in t.items then Some(t.items[m.item.value].order) else m.order
  }

  predicate Governed(t: Tables, m: Movement) {
    || (OwnerOrder(t, m).Some? && HasCase(t, OwnerOrder(t, m).value))
    || (m.order.Some? && HasCase(t, m.order.value))
  }

  /** The movement is exactly a restock line of an inspection of a case of its order. */
  predicate FromInspection(t: Tables, m: Movement) {
    exists k :: k in t.receipts && t.receipts[k].parcel in t.cases && FromReceipt(m, k, t.receipts[k], t.cases[t.receipts[k].parcel])
  }

  predicate FromReceipt(m: Movement, id: int, r: Receipt, c: Case) {
    exists i, j :: 0 <= i < |r.lines| && 0 <= j < |c.lines| && InspectedAs(m, id, r, c, i, j)
  }

  predicate InspectedAs(m: Movement, id: int, r: Receipt, c: Case, i: int, j: int)
    requires 0 <= i < |r.lines| && 0 <= j < |c.lines|
  {
    && c.lines[j].item == r.lines[i].item && r.lines[i].restock
    && m == RestockMovement(id, r, c.order, c.lines[j].product, r.lines[i])
  }

  /** protect_np_return_stock and the ledger's own constraints. */
  predicate MovementAdmitted(t: Tables, m: Movement) {
    && 0 < m.quantity && (m.onHand != 0 || m.reserved != 0)
    && (m.key.Some? ==> forall i :: 0 <= i < |t.ledger| ==> t.ledger[i].key != m.key)
    && (m.kind.CustomerReturn? && Governed(t, m) ==> FromInspection(t, m))
  }

  // ---------------------------------------------------------------- statements

  datatype Statement =
    | PutItem(id: int, item: Item)
    | PutPacking(key: Packing, quantity: int)
    | RemovePacking(key: Packing)
    | InsertCase(id: int, parcel: Case)
    | InsertReceipt(id: int, receipt: Receipt)
    | InsertMovement(movement: Movement)

  predicate Admitted(t: Tables, s: Statement) {
    match s
    case PutItem(id, i) => ItemAdmitted(t, id, i)
    case PutPacking(p, _) => PackingAdmitted(t, p)
    case RemovePacking(p) => PackingAdmitted(t, p)
    case InsertCase(id, c) => CaseAdmitted(t, id, c)
    case InsertReceipt(id, r) => ReceiptAdmitted(t, id, r)
    case InsertMovement(m) => MovementAdmitted(t, m)
  }

  function Write(t: Tables, s: Statement): Tables {
    match s
    case PutItem(id, i) => t.(items := t.items[id := i])
    case PutPacking(p, n) => t.(packed := t.packed[p := n])
    case RemovePacking(p) => t.(packed := t.packed - {p})
    case InsertCase(id, c) => t.(cases := t.cases[id := c])
    case InsertReceipt(id, r) => t.(receipts := t.receipts[id := r])
    case InsertMovement(m) => t.(ledger := t.ledger + [m])
  }

  function Step(t: Tables, s: Statement): Option<Tables> {
    if Admitted(t, s) then Some(Write(t, s)) else None
  }

  predicate Check(t: Tables, s: Statement) {
    match s
    case InsertCase(id, c) => CaseContents(t, c)
    case InsertReceipt(id, r) => ReceiptLedger(t, id, r)
    case _ => true
  }

  // ---------------------------------------------------------------- what every statement keeps

  ghost predicate KeysUnique(ledger: seq<Movement>) {
    forall i, j :: 0 <= i < j < |ledger| && ledger[i].key.Some? ==> ledger[i].key != ledger[j].key
  }

  ghost predicate Invariant(t: Tables) {
    && KeysUnique(t.ledger)
    && (forall j, k :: j in t.cases && k in t.cases && j != k ==> t.cases[j].order != t.cases[k].order)
    && (forall k :: k in t.receipts ==> t.receipts[k].parcel in t.cases)
    && (forall j, k :: j in t.receipts && k in t.receipts && j != k ==> t.receipts[j].parcel != t.receipts[k].parcel)
    && (forall m :: m in t.ledger && m.kind.CustomerReturn? && Governed(t, m) ==> FromInspection(t, m))
  }

  /** Rows stay, and case contents that held go on holding. */
  ghost predicate Later(t: Tables, u: Tables) {
    && (forall k :: k in t.cases ==> k in u.cases && u.cases[k] == t.cases[k] && (CaseContents(t, t.cases[k]) ==> CaseContents(u, t.cases[k])))
    && (forall k :: k in t.receipts ==> k in u.receipts && u.receipts[k] == t.receipts[k])
    && (forall m :: m in t.ledger ==> m in u.ledger)
  }

  lemma {:induction false} ShippedHasKey(ledger: seq<Movement>, order: int, item: int, product: int)
    ensures Shipped(ledger, order, item, product) != 0 ==> exists i :: 0 <= i < |ledger| && ledger[i].key == Some(ShipmentKey(order, item))
  {
    if |ledger| > 0 { ShippedHasKey(ledger[..|ledger| - 1], order, item, product); }
  }

  /** A second shipment of a shipped item would repeat its reference key. */
  lemma ContentsKept(t: Tables, s: Statement, k: int)
    requires Invariant(t) && Step(t, s).Some? && k in t.cases && CaseContents(t, t.cases[k])
    ensures CaseContents(Write(t, s), t.cases[k])
  {
    var c, u := t.cases[k], Write(t, s);
    assert HasCase(t, c.order) && ItemsOf(u, c.order) == ItemsOf(t, c.order);
    forall i | 0 <= i < |c.lines| ensures LineContents(u, c, c.lines[i]) {
      var l := c.lines[i];
      assert LineContents(t, c, l);
      if s.InsertMovement? {
        ShippedHasKey(t.ledger, c.order, l.item, l.product);
        assert u.ledger[..|u.ledger| - 1] == t.ledger;
      }
    }
  }

  lemma GovernedKept(t: Tables, s: Statement, m: Movement)
    requires Invariant(t) && Step(t, s).Some? && m in t.ledger && m.kind.CustomerReturn? && Governed(Write(t, s), m)
    ensures FromInspection(Write(t, s), m)
  {
    if s.InsertCase? {
      var i :| 0 <= i < |t.ledger| && t.ledger[i] == m;
    }
    assert Governed(t, m) && FromInspection(t, m);
    var k :| k in t.receipts && t.receipts[k].parcel in t.cases && FromReceipt(m, k, t.receipts[k], t.cases[t.receipts[k].parcel]);
    assert Write(t, s).receipts[k] == t.receipts[k];
  }

  lemma StepKeeps(t: Tables, s: Statement)
    requires Invariant(t) && Step(t, s).Some?
    ensures Invariant(Write(t, s)) && Later(t, Write(t, s))
  {
    var u := Write(t, s);
    forall m | m in u.ledger && m.kind.CustomerReturn? && Governed(u, m) ensures FromInspection(u, m) {
      if m in t.ledger { GovernedKept(t, s, m); }
    }
    forall k | k in t.cases && CaseContents(t, t.cases[k]) ensures CaseContents(u, t.cases[k]) { ContentsKept(t, s, k); }
  }

  /** What stays of a committed inspection: one ledger row per restocked line. */
  ghost predicate Inspection(t: Tables, id: int, r: Receipt) {
    && r.parcel in t.cases
    && (forall i, j :: 0 <= i < j < |r.lines| ==> r.lines[i].item != r.lines[j].item)
    && (forall i :: 0 <= i < |r.lines| ==> LineRestocked(t, id, r, r.lines[i]))
  }

  ghost predicate LineRestocked(t: Tables, id: int, r: Receipt, l: Inspected)
    requires r.parcel in t.cases
  {
    var c := t.cases[r.parcel];
    exists j :: 0 <= j < |c.lines| && c.lines[j].item == l.item && c.lines[j].quantity == l.quantity
      && (l.restock ==> RestockMovement(id, r, c.order, c.lines[j].product, l) in t.ledger)
  }

  ghost predicate Committed(t: Tables) {
    && Invariant(t)
    && (forall k :: k in t.cases ==> CaseContents(t, t.cases[k]))
    && (forall k :: k in t.receipts ==> Inspection(t, k, t.receipts[k]))
  }

  lemma InspectionKept(t: Tables, u: Tables, id: int, r: Receipt)
    requires Later(t, u) && Inspection(t, id, r)
    ensures Inspection(u, id, r)
  {
    forall i | 0 <= i < |r.lines| ensures LineRestocked(u, id, r, r.lines[i]) {
      assert LineRestocked(t, id, r, r.lines[i]);
      var c := t.cases[r.parcel];
      var j :| 0 <= j < |c.lines| && c.lines[j].item == r.lines[i].item && c.lines[j].quantity == r.lines[i].quantity
               && (r.lines[i].restock ==> RestockMovement(id, r, c.order, c.lines[j].product, r.lines[i]) in t.ledger);
      assert u.cases[r.parcel] == c;
    }
  }

  lemma LedgerGivesInspection(t: Tables, id: int, r: Receipt)
    requires ReceiptLedger(t, id, r)
    ensures Inspection(t, id, r)
  {
    forall i | 0 <= i < |r.lines| ensures LineRestocked(t, id, r, r.lines[i]) {
      assert InspectedLine(t, id, r, r.lines[i]);
    }
  }

  lemma StepTraced(t: Tables, s: Statement, k: int)
    requires Step(t, s).Some?
    ensures var u := Write(t, s);
      && (k in u.cases ==> (k in t.cases && u.cases[k] == t.cases[k]) || s == InsertCase(k, u.cases[k]))
      && (k in u.receipts ==> (k in t.receipts && u.receipts[k] == t.receipts[k]) || s == InsertReceipt(k, u.receipts[k]))
  {}

  lemma {:induction false} Traced(t: Tables, txn: seq<Statement>, k: int)
    requires Execute(Step, t, txn).Some?
    ensures var u := Execute(Step, t, txn).value;
      && (k in u.cases ==> (k in t.cases && u.cases[k] == t.cases[k]) || InsertCase(k, u.cases[k]) in txn)
      && (k in u.receipts ==> (k in t.receipts && u.receipts[k] == t.receipts[k]) || InsertReceipt(k, u.receipts[k]) in txn)
    decreases |txn|
  {
    if txn != [] {
      var w := Write(t, txn[0]);
      StepTraced(t, txn[0], k);
      assert Execute(Step, t, txn) == Execute(Step, w, txn[1..]);
      Traced(w, txn[1..], k);
      assert txn[0] in txn && forall s :: s in txn[1..] ==> s in txn;
    }
  }

  lemma LaterTransitive(s: Tables, t: Tables, u: Tables)
    requires Later(s, t) && Later(t, u)
    ensures Later(s, u)
  {
    forall k | k in s.cases
      ensures k in u.cases && u.cases[k] == s.cases[k] && (CaseContents(s, s.cases[k]) ==> CaseContents(u, s.cases[k]))
    {
      assert k in t.cases;
    }
  }

  lemma CommitKeeps(t: Tables, txn: seq<Statement>)
    requires Committed(t)
    ensures Committed(Commit(Step, Check, t, txn)) && Later(t, Commit(Step, Check, t, txn))
  {
    forall t, s | Invariant(t) && Step(t, s).Some? ensures Invariant(Step(t, s).value) && Later(t, Step(t, s).value) {
      StepKeeps(t, s);
    }
    forall s, t, u | Later(s, t) && Later(t, u) ensures Later(s, u) { LaterTransitive(s, t, u); }
    ExecuteKeeps(Step, Invariant, t, txn);
    ExecuteAdvances(Step, Invariant, Later, t, txn);
    var u := Commit(Step, Check, t, txn);
    if u != t {
      forall k | k in u.cases ensures CaseContents(u, u.cases[k]) {
        Traced(t, txn, k);
      }
      forall k | k in u.receipts ensures Inspection(u, k, u.receipts[k]) {
        Traced(t, txn, k);
        if InsertReceipt(k, u.receipts[k]) in txn {
          LedgerGivesInspection(u, k, u.receipts[k]);
        } else {
          InspectionKept(t, u, k, u.receipts[k]);
        }
      }
    }
  }

  // ---------------------------------------------------------------- main results

  lemma HistoryCommitted(t: Tables, txns: seq<seq<Statement>>)
    requires Committed(t)
    ensures Committed(History(Step, Check, t, txns))
  {
    forall t, txn | Committed(t) ensures Committed(Commit(Step, Check, t, txn)) && Later(t, Commit(Step, Check, t, txn)) {
      CommitKeeps(t, txn);
    }
    forall s, t, u | Later(s, t) && Later(t, u) ensures Later(s, u) { LaterTransitive(s, t, u); }
    HistoryKeeps(Step, Check, Committed, Later, t, txns);
  }

  /** Every customer return of an item of a cased order is the same restock line of the case's one receipt. */
  lemma SoleSource(t: Tables, k: int, m: Movement) returns (id: int, i: int)
    requires Committed(t) && k in t.cases && m in t.ledger && m.kind.CustomerReturn?
    requires m.item.Some? && m.item.value in t.items && t.items[m.item.value].order == t.cases[k].order
    ensures id in t.receipts && t.receipts[id].parcel == k && 0 <= i < |t.receipts[id].lines|
    ensures t.receipts[id].lines[i].item == m.item.value && t.receipts[id].lines[i].restock
    ensures m.key == Some(ParcelKey(id, m.item.value)) && m.onHand == t.receipts[id].lines[i].quantity
  {
    assert HasCase(t, t.cases[k].order) && Governed(t, m) && FromInspection(t, m);
    id :| id in t.receipts && t.receipts[id].parcel in t.cases && FromReceipt(m, id, t.receipts[id], t.cases[t.receipts[id].parcel]);
    var r, c := t.receipts[id], t.cases[t.receipts[id].parcel];
    var j;
    i, j :| 0 <= i < |r.lines| && 0 <= j < |c.lines| && InspectedAs(m, id, r, c, i, j);
    assert LineContents(t, c, c.lines[j]);
  }

  /** If everything an item got back carries one key, it got back that one row or nothing. */
  lemma {:induction false} OneReturn(ledger: seq<Movement>, item: int, key: Key, m: Movement)
    requires KeysUnique(ledger)
    requires forall x :: x in ledger && x.kind.CustomerReturn? && x.item == Some(item) ==> x.key == Some(key)
    ensures (forall x :: x in ledger ==> !(x.kind.CustomerReturn? && x.item == Some(item))) ==> ReturnedStock(ledger, item) == 0
    ensures m in ledger && m.kind.CustomerReturn? && m.item == Some(item) ==> ReturnedStock(ledger, item) == m.onHand
  {
    if |ledger| > 0 {
      var init, last := ledger[..|ledger| - 1], ledger[|ledger| - 1];
      assert ledger == init + [last];
      OneReturn(init, item, key, m);
      if last.kind.CustomerReturn? && last.item == Some(item) {
        forall x | x in init ensures !(x.kind.CustomerReturn? && x.item == Some(item)) {
          var i :| 0 <= i < |init| && init[i] == x;
          assert ledger[i] == x;
        }
      }
    }
  }

  lemma {:induction false} RestockedLine(lines: seq<Inspected>, item: int)
    requires forall i, j :: 0 <= i < j < |lines| ==> lines[i].item != lines[j].item
    ensures (forall i :: 0 <= i < |lines| ==> !(lines[i].item == item && lines[i].restock)) ==> Restocked(lines, item) == 0
    ensures forall i :: 0 <= i < |lines| && lines[i].item == item && lines[i].restock ==> Restocked(lines, item) == lines[i].quantity
  {
    if |lines| > 0 { RestockedLine(lines[..|lines| - 1], item); }
  }

  /** What the case's inspection put back for an item: nothing before there is one. */
  ghost predicate InspectedQuantity(t: Tables, k: int, item: int, quantity: int) {
    if exists id :: id in t.receipts && t.receipts[id].parcel == k
    then exists id :: id in t.receipts && t.receipts[id].parcel == k && quantity == Restocked(t.receipts[id].lines, item)
    else quantity == 0
  }

  /**
   In every committed state the customer-return stock of each item of a cased order is exactly what its
   inspection restocks, is never more than the canonical shipment, and has no other source.
   */
  lemma ReturnedEqualsInspected(t: Tables, txns: seq<seq<Statement>>, k: int, item: int)
    requires Committed(t)
    requires var u := History(Step, Check, t, txns); k in u.cases && item in u.items && u.items[item].order == u.cases[k].order
    ensures var u := History(Step, Check, t, txns);
      && InspectedQuantity(u, k, item, ReturnedStock(u.ledger, item))
      && (ReturnedStock(u.ledger, item) != 0 ==>
            ReturnedStock(u.ledger, item) <= Shipped(u.ledger, u.cases[k].order, item, u.items[item].product))
      && (forall m :: m in u.ledger && m.kind.CustomerReturn? && m.item == Some(item) ==> FromInspection(u, m))
  {
    HistoryCommitted(t, txns);
    StockMatches(History(Step, Check, t, txns), k, item);
  }

  lemma StockMatches(t: Tables, k: int, item: int)
    requires Committed(t) && k in t.cases && item in t.items && t.items[item].order == t.cases[k].order
    ensures InspectedQuantity(t, k, item, ReturnedStock(t.ledger, item))
    ensures ReturnedStock(t.ledger, item) != 0 ==>
      ReturnedStock(t.ledger, item) <= Shipped(t.ledger, t.cases[k].order, item, t.items[item].product)
    ensures forall m :: m in t.ledger && m.kind.CustomerReturn? && m.item == Some(item) ==> FromInspection(t, m)
  {
    assert HasCase(t, t.cases[k].order);
    forall m | m in t.ledger && m.kind.CustomerReturn? && m.item == Some(item) ensures FromInspection(t, m) {
      assert Governed(t, m);
    }
    if id :| id in t.receipts && t.receipts[id].parcel == k {
      forall m | m in t.ledger && m.kind.CustomerReturn? && m.item == Some(item) ensures m.key == Some(ParcelKey(id, item)) {
        var id', i := SoleSource(t, k, m);
      }
      InspectedStock(t, k, item, id);
    } else {
      forall m | m in t.ledger ensures !(m.kind.CustomerReturn? && m.item == Some(item)) {
        if m.kind.CustomerReturn? && m.item == Some(item) { var id, i := SoleSource(t, k, m); }
      }
      OneReturn(t.ledger, item, ParcelKey(0, item), RestockMovement(0, Receipt(0, 0, []), 0, 0, Inspected(0, 0, false)));
    }
  }

  lemma InspectedStock(t: Tables, k: int, item: int, id: int)
    requires Committed(t) && k in t.cases && item in t.items && t.items[item].order == t.cases[k].order
    requires id in t.receipts && t.receipts[id].parcel == k
    requires forall m :: m in t.ledger && m.kind.CustomerReturn? && m.item == Some(item) ==> m.key == Some(ParcelKey(id, item))
    ensures ReturnedStock(t.ledger, item) == Restocked(t.receipts[id].lines, item)
    ensures ReturnedStock(t.ledger, item) != 0 ==>
      ReturnedStock(t.ledger, item) <= Shipped(t.ledger, t.cases[k].order, item, t.items[item].product)
  {
    var r, c := t.receipts[id], t.cases[k];
    assert Inspection(t, id, r);
    RestockedLine(r.lines, item);
    if i :| 0 <= i < |r.lines| && r.lines[i].item == item && r.lines[i].restock {
      assert LineRestocked(t, id, r, r.lines[i]);
      var j :| 0 <= j < |c.lines| && c.lines[j].item == item && c.lines[j].quantity == r.lines[i].quantity
               && RestockMovement(id, r, c.order, c.lines[j].product, r.lines[i]) in t.ledger;
      OneReturn(t.ledger, item, ParcelKey(id, item), RestockMovement(id, r, c.order, c.lines[j].product, r.lines[i]));
      assert LineContents(t, c, c.lines[j]);
    } else {
      forall m | m in t.ledger ensures !(m.kind.CustomerReturn? && m.item == Some(item)) {
        if m.kind.CustomerReturn? && m.item == Some(item) { var id', i := SoleSource(t, k, m); }
      }
      OneReturn(t.ledger, item, ParcelKey(id, item), RestockMovement(0, r, 0, 0, Inspected(0, 0, false)));
    }
  }

  // ---------------------------------------------------------------- the triggers

  class ParcelDesk {
    var items: map<int, Item>
    var packed: map<Packing, int>
    var cases: map<int, Case>
    var receipts: map<int, Receipt>
    var ledger: seq<Movement>

    function View(): Tables reads this { Tables(items, packed, cases, receipts, ledger) }

    constructor (t: Tables)
      ensures View() == t
    {
      items, packed, cases, receipts, ledger := t.items, t.packed, t.cases, t.receipts, t.ledger;
    }

    method Restore(t: Tables)
      modifies this
      ensures View() == t
    {
      items, packed, cases, receipts, ledger := t.items, t.packed, t.cases, t.receipts, t.ledger;
    }

    /** protect_np_return_stock: the loop over the parcel's receipts looks for the line behind a movement. */
    method InsertStock(m: Movement) returns (ok: bool)
      modifies this`ledger
      ensures ok == Admitted(old(View()), InsertMovement(m))
      ensures View() == if ok then Write(old(View()), InsertMovement(m)) else old(View())
      ensures old(Invariant(View())) ==> Invariant(View())
    {
      if m.quantity <= 0 || (m.onHand == 0 && m.reserved == 0) {
        return false;
      }
      if m.key.Some? && exists i :: 0 <= i < |ledger| && ledger[i].key == m.key {
        return false;
      }
      if m.kind.CustomerReturn? && Governed(View(), m) && !FromInspection(View(), m) {
        return false;
      }
      ledger := ledger + [m];
      ok := true;
      assert old(Invariant(View())) ==> Invariant(View()) by {
        if old(Invariant(View())) { StepKeeps(old(View()), InsertMovement(m)); }
      }
    }

    /** validate_np_case_contents: `shipped` is summed anew for every line. */
    method ContentsShipped(c: Case) returns (ok: bool)
      ensures ok == CaseContents(View(), c)
    {
      if c.lines == [] || (!c.paid && |ItemsOf(View(), c.order)| != |c.lines|)
         || exists i, j :: 0 <= i < j < |c.lines| && c.lines[i].item == c.lines[j].item {
        return false;
      }
      for n := 0 to |c.lines|
        invariant forall i :: 0 <= i < n ==> LineContents(View(), c, c.lines[i])
      {
        var l := c.lines[n];
        if l.quantity <= 0 || l.item !in items || items[l.item].order != c.order || items[l.item].product != l.product
           || Packing(c.order, c.shipment, l.item) !in packed || packed[Packing(c.order, c.shipment, l.item)] != items[l.item].quantity
           || items[l.item].quantity < l.quantity || (!c.paid && l.quantity != items[l.item].quantity) {
          return false;
        }
        var shipped := ShippedOf(c.order, l.item, l.product);
        if shipped < l.quantity {
          return false;
        }
      }
      ok := true;
    }

    /** SELECT COALESCE(sum(-on_hand_delta), 0) over the canonical shipment rows of one item. */
    method ShippedOf(order: int, item: int, product: int) returns (shipped: int)
      ensures shipped == Shipped(ledger, order, item, product)
    {
      shipped := 0;
      for n := 0 to |ledger|
        invariant shipped == Shipped(ledger[..n], order, item, product)
      {
        assert ledger[..n + 1][..n] == ledger[..n];
        if Ships(ledger[n], order, item, product) {
          shipped := shipped - ledger[n].onHand;
        }
      }
      assert ledger[..|ledger|] == ledger;
    }

    /** validate_np_receipt: every selected quantity and disposition once, each restock as its own ledger row. */
    method ReceiptMatchesLedger(id: int, r: Receipt) returns (ok: bool)
      ensures ok == ReceiptLedger(View(), id, r)
    {
      if r.parcel !in cases || |r.lines| != |cases[r.parcel].lines|
         || exists i, j :: 0 <= i < j < |r.lines| && r.lines[i].item == r.lines[j].item {
        return false;
      }
      for n := 0 to |r.lines|
        invariant forall i :: 0 <= i < n ==> InspectedLine(View(), id, r, r.lines[i])
      {
        if !InspectedLine(View(), id, r, r.lines[n]) {
          return false;
        }
      }
      ok := true;
    }

    method Run(s: Statement) returns (ok: bool)
      modifies this
      ensures ok == Step(old(View()), s).Some?
      ensures View() == if ok then Step(old(View()), s).value else old(View())
    {
      match s
      case InsertMovement(m) => ok := InsertStock(m);
      case _ =>
        ok := Admitted(View(), s);
        if ok {
          Restore(Write(View(), s));
        }
    }

    method Deferred(s: Statement) returns (ok: bool)
      ensures ok == Check(View(), s)
    {
      match s
      case InsertCase(_, c) => ok := ContentsShipped(c);
      case InsertReceipt(id, r) => ok := ReceiptMatchesLedger(id, r);
      case _ => ok := true;
    }

    /** The statements in turn, up to the first one that raises. */
    method RunAll(txn: seq<Statement>) returns (ok: bool)
      modifies this
      ensures ok == Execute(Step, old(View()), txn).Some?
      ensures ok ==> View() == Execute(Step, old(View()), txn).value
    {
      ghost var before := View();
      for i := 0 to |txn|
        invariant Execute(Step, before, txn) == Execute(Step, View(), txn[i..])
      {
        ok := Run(txn[i]);
        if !ok {
          return;
        }
      }
      ok := true;
    }

    /** The deferred constraint triggers, on the tables at commit. */
    method CheckAll(txn: seq<Statement>) returns (ok: bool)
      ensures ok == Passes(Check, View(), txn)
    {
      for i := 0 to |txn|
        invariant forall j :: 0 <= j < i ==> Check(View(), txn[j])
      {
        var passes := Deferred(txn[i]);
        if !passes {
          return false;
        }
      }
      ok := true;
    }

    method Transact(txn: seq<Statement>) returns (committed: bool)
      modifies this
      ensures View() == Commit(Step, Check, old(View()), txn)
      ensures old(Committed(View())) ==> Committed(View()) && Later(old(View()), View())
    {
      var before := View();
      committed := RunAll(txn);
      if committed {
        committed := CheckAll(txn);
      }
      if !committed {
        Restore(before);
      }
      if Committed(before) {
        CommitKeeps(before, txn);
      }
    }
  }
}
