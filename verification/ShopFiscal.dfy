/**
 The local Shop fiscal register: approved documents behind a dispatch fence and the provider's
 independent acceptances. Inserts carry no status check, so nothing here assumes how a document starts
 unless it says so.
 */
module ShopFiscal {
  import opened Prelude
  import opened Transactions

  datatype Kind = Sale | Return

  datatype Status = Queued | Unknown | Issued | Cancelled | Error

  datatype Identity = Identity(order: int, confirmation: int, ret: Option<int>, preview: int, actor: int,
                               kind: Kind, uuid: int, shift: int, hash: int)

  datatype Document = Document(identity: Identity, status: Status, revision: int, dispatched: Option<int>, issued: Option<int>)

  datatype Acceptance = Acceptance(uuid: int, hash: int, accepted: int)

  datatype Tables = Tables(documents: map<int, Document>, acceptances: map<int, Acceptance>)

  /** Not cancelled and not failed: what the partial unique indexes count. */
  predicate Active(d: Document) { !d.status.Cancelled? && !d.status.Error? }

  predicate DocumentUpdate(was: Document, d: Document) {
    && d.identity == was.identity
    && (was.dispatched.Some? ==> d.dispatched == was.dispatched) && (was.issued.Some? ==> d.issued == was.issued)
    && (was.status.Issued? || was.status.Cancelled? || was.status.Error? ==> d.status == was.status)
    && (was.status.Unknown? ==> d.status.Unknown? || d.status.Issued?)
    && (d.status.Unknown? ==> d.dispatched.Some?)
    && (d.status.Cancelled? ==> d.dispatched.None?)
  }

  predicate Clash(d: Document, e: Document) {
    || d.identity.uuid == e.identity.uuid || d.identity.preview == e.identity.preview
    || (Active(d) && Active(e) && d.identity.kind == e.identity.kind
        && (if d.identity.kind.Sale? then d.identity.confirmation == e.identity.confirmation else d.identity.ret == e.identity.ret))
  }

  predicate DocumentAdmitted(t: Tables, id: int, d: Document) {
    && (id in t.documents ==> DocumentUpdate(t.documents[id], d))
    && (d.identity.kind.Sale? <==> d.identity.ret.None?)
    && (d.status.Issued? ==>
          id in t.acceptances && t.acceptances[id].uuid == d.identity.uuid && t.acceptances[id].hash == d.identity.hash)
    && (forall k :: k in t.documents && k != id ==> !Clash(d, t.documents[k]))
  }

  predicate AcceptanceAdmitted(t: Tables, id: int, a: Acceptance) {
    && id !in t.acceptances && (forall k :: k in t.acceptances ==> t.acceptances[k].uuid != a.uuid)
    && id in t.documents && t.documents[id].identity.uuid == a.uuid && t.documents[id].identity.hash == a.hash
    && t.documents[id].dispatched.Some? && t.documents[id].status.Unknown?
  }

  datatype Statement = PutDocument(id: int, document: Document) | InsertAcceptance(id: int, acceptance: Acceptance)

  predicate Admitted(t: Tables, s: Statement) {
    match s
    case PutDocument(id, d) => DocumentAdmitted(t, id, d)
    case InsertAcceptance(id, a) => AcceptanceAdmitted(t, id, a)
  }

  function Write(t: Tables, s: Statement): Tables {
    match s
    case PutDocument(id, d) => t.(documents := t.documents[id := d])
    case InsertAcceptance(id, a) => t.(acceptances := t.acceptances[id := a])
  }

  function Step(t: Tables, s: Statement): Option<Tables> {
    if Admitted(t, s) then Some(Write(t, s)) else None
  }

  // ---------------------------------------------------------------- what every statement keeps

  ghost predicate Invariant(t: Tables) {
    && (forall j, k :: j in t.documents && k in t.documents && j != k ==> !Clash(t.documents[j], t.documents[k]))
    && (forall k :: k in t.acceptances ==>
          k in t.documents && (t.documents[k].status.Unknown? || t.documents[k].status.Issued?)
          && t.documents[k].dispatched.Some?
          && t.acceptances[k].uuid == t.documents[k].identity.uuid && t.acceptances[k].hash == t.documents[k].identity.hash)
    && (forall k :: k in t.documents && t.documents[k].status.Issued? ==> k in t.acceptances)
  }

  ghost predicate Later(t: Tables, u: Tables) {
    && (forall k :: k in t.documents ==>
          && k in u.documents && u.documents[k].identity == t.documents[k].identity
          && (t.documents[k].status.Issued? || t.documents[k].status.Cancelled? || t.documents[k].status.Error? ==>
                u.documents[k].status == t.documents[k].status)
          && (t.documents[k].status.Unknown? ==> u.documents[k].status.Unknown? || u.documents[k].status.Issued?)
          && (t.documents[k].dispatched.Some? ==> u.documents[k].dispatched == t.documents[k].dispatched))
    && (forall k :: k in t.acceptances ==> k in u.acceptances && u.acceptances[k] == t.acceptances[k])
  }

  lemma StepKeeps(t: Tables, s: Statement)
    requires Invariant(t) && Step(t, s).Some?
    ensures Invariant(Write(t, s)) && Later(t, Write(t, s))
  {}

  lemma RunKeeps(t: Tables, run: seq<Statement>)
    requires Invariant(t)
    ensures Execute(Step, t, run).Some? ==>
      Invariant(Execute(Step, t, run).value) && Later(t, Execute(Step, t, run).value)
  {
    forall t, s | Invariant(t) && Step(t, s).Some? ensures Invariant(Step(t, s).value) && Later(t, Step(t, s).value) {
      StepKeeps(t, s);
    }
    forall s, t, u | Later(s, t) && Later(t, u) ensures Later(s, u) {}
    ExecuteKeeps(Step, Invariant, t, run);
    ExecuteAdvances(Step, Invariant, Later, t, run);
  }

  // ---------------------------------------------------------------- main results

  /**
   However documents start, at most one provider acceptance ever exists among the sale documents of
   one payment, and a document is issued only with its acceptance.
   */
  lemma OneAcceptancePerPayment(run: seq<Statement>, j: int, k: int)
    requires Execute(Step, Tables(map[], map[]), run).Some?
    requires var u := Execute(Step, Tables(map[], map[]), run).value;
      && j in u.acceptances && k in u.acceptances
      && j in u.documents && k in u.documents && u.documents[j].identity.kind.Sale? && u.documents[k].identity.kind.Sale?
      && u.documents[j].identity.confirmation == u.documents[k].identity.confirmation
    ensures j == k
  {
    RunKeeps(Tables(map[], map[]), run);
  }

  /** An acceptance pins its document: from then on it is unknown or issued, never cancelled, failed or replaced. */
  lemma AcceptanceIsFinal(t: Tables, run: seq<Statement>, k: int)
    requires Invariant(t) && k in t.acceptances && Execute(Step, t, run).Some?
    ensures var u := Execute(Step, t, run).value;
      && k in u.acceptances && u.acceptances[k] == t.acceptances[k]
      && k in u.documents && u.documents[k].identity == t.documents[k].identity
      && (u.documents[k].status.Unknown? || u.documents[k].status.Issued?)
      && (forall j :: j in u.documents && j != k ==> !Clash(u.documents[j], u.documents[k]))
  {
    RunKeeps(t, run);
  }

  predicate CancelledUndispatched(t: Tables) {
    forall k :: k in t.documents && t.documents[k].status.Cancelled? ==> t.documents[k].dispatched.None?
  }

  /** The insert that the update-only check lets through. */
  predicate InsertsDispatchedCancelled(t: Tables, s: Statement) {
    s.PutDocument? && s.id !in t.documents && s.document.status.Cancelled? && s.document.dispatched.Some?
  }

  /** "A cancelled document was never dispatched" survives a statement exactly when it is not such an insert. */
  lemma CancelledNeverDispatchedExactly(t: Tables, s: Statement)
    requires CancelledUndispatched(t) && Step(t, s).Some?
    ensures CancelledUndispatched(Write(t, s)) <==> !InsertsDispatchedCancelled(t, s)
  {
    if s.PutDocument? { assert s.id in Write(t, s).documents; }
  }

  lemma DispatchedCancelledAdmitted() returns (s: Statement)
    ensures Step(Tables(map[], map[]), s).Some? && InsertsDispatchedCancelled(Tables(map[], map[]), s)
  {
    s := PutDocument(1, Document(Identity(1, 1, None, 1, 1, Sale, 1, 1, 1), Cancelled, 1, Some(7), None));
  }

  /** Documents that start queued and undispatched. */
  predicate StartsQueued(t: Tables, s: Statement) {
    s.PutDocument? && s.id !in t.documents ==> s.document.status.Queued? && s.document.dispatched.None?
  }

  /** The step relation restricted to documents that start queued. */
  function QueuedStep(t: Tables, s: Statement): Option<Tables> {
    if StartsQueued(t, s) then Step(t, s) else None
  }

  /** On runs whose documents start queued no cancelled document was ever dispatched. */
  lemma CancelledNeverDispatched(run: seq<Statement>)
    ensures Execute(QueuedStep, Tables(map[], map[]), run).Some? ==>
      CancelledUndispatched(Execute(QueuedStep, Tables(map[], map[]), run).value)
  {
    forall t, s | CancelledUndispatched(t) && QueuedStep(t, s).Some? ensures CancelledUndispatched(QueuedStep(t, s).value) {
      CancelledNeverDispatchedExactly(t, s);
    }
    ExecuteKeeps(QueuedStep, CancelledUndispatched, Tables(map[], map[]), run);
  }

  // ---------------------------------------------------------------- the triggers

  class FiscalRegister {
    var documents: map<int, Document>
    var acceptances: map<int, Acceptance>

    function View(): Tables reads this { Tables(documents, acceptances) }

    constructor ()
      ensures View() == Tables(map[], map[])
    {
      documents, acceptances := map[], map[];
    }

    /** protect_shop_fiscal_document and the active-document indexes. */
    method WriteDocument(id: int, d: Document) returns (ok: bool)
      modifies this`documents
      ensures ok == Admitted(old(View()), PutDocument(id, d))
      ensures View() == if ok then Write(old(View()), PutDocument(id, d)) else old(View())
    {
      if id in documents {
        var was := documents[id];
        if d.identity != was.identity
           || (was.dispatched.Some? && d.dispatched != was.dispatched) || (was.issued.Some? && d.issued != was.issued)
           || ((was.status.Issued? || was.status.Cancelled? || was.status.Error?) && d.status != was.status)
           || (was.status.Unknown? && !d.status.Unknown? && !d.status.Issued?)
           || (d.status.Unknown? && d.dispatched.None?) || (d.status.Cancelled? && d.dispatched.Some?) {
          return false;
        }
      }
      if d.status.Issued? && (id !in acceptances || acceptances[id] != Acceptance(d.identity.uuid, d.identity.hash, acceptances[id].accepted)) {
        return false;
      }
      if (d.identity.kind.Sale? && d.identity.ret.Some?) || (d.identity.kind.Return? && d.identity.ret.None?)
         || exists k :: k in documents && k != id && Clash(d, documents[k]) {
        return false;
      }
      documents := documents[id := d];
      ok := true;
    }

    method Accept(id: int, a: Acceptance) returns (ok: bool)
      modifies this`acceptances
      ensures ok == Admitted(old(View()), InsertAcceptance(id, a))
      ensures View() == if ok then Write(old(View()), InsertAcceptance(id, a)) else old(View())
    {
      ok := AcceptanceAdmitted(View(), id, a);
      if ok {
        acceptances := acceptances[id := a];
      }
    }
  }
}
