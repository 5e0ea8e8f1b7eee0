/**
 Durable Checkbox provider operations: the dispatch fence, immutable acceptances bound to the
 dispatched snapshot, and one unresolved operation per register.
 */
module CheckboxOperations {
  import opened Prelude
  import opened Transactions

  datatype Kind = Verify | ShiftOpen | ShiftClose | XReport | ZReport | Sale | Return

  datatype Status = Queued | Unknown | Pending | Accepted | Rejected | Cancelled

  /** `profile` stands for the immutable identities (organisation, register, cashier) and their hash. */
  datatype Register = Register(profile: int, test: bool, open: bool, shift: int)

  /** The columns of an operation that no update may change. */
  datatype Identity = Identity(register: int, order: Option<int>, kind: Kind, test: bool, uuid: Option<int>,
                               shift: Option<int>, profile: int, amount: int, hash: int)

  datatype Operation = Operation(identity: Identity, status: Status, revision: int, dispatched: Option<int>)

  datatype Proof = Proof(verified: bool, accepted: bool, test: bool, profile: int, uuid: Option<int>, hash: int,
                         shift: Option<int>, amount: int, kind: Kind, uah: bool, sentToTax: bool)

  datatype Acceptance = Acceptance(provider: int, hash: int, proof: Proof)

  /** Durable no-effect evidence: nothing was dispatched, or the provider rejected exactly this receipt. */
  datatype Evidence = NotDispatched(operation: int) | ProviderRejected(operation: int, identity: Identity)

  datatype Tables = Tables(
    registers: map<int, Register>, operations: map<int, Operation>, acceptances: map<int, Acceptance>,
    evidence: set<Evidence>, bindings: map<int, int>, confirmations: set<int>)

  predicate Unresolved(s: Status) { s.Queued? || s.Unknown? || s.Pending? }

  predicate Resolved(s: Status) { s.Accepted? || s.Rejected? || s.Cancelled? }

  // ---------------------------------------------------------------- guards

  predicate OperationUpdate(was: Operation, o: Operation) {
    && o.identity == was.identity && !Resolved(was.status)
    && (was.dispatched.Some? ==> o.dispatched == was.dispatched && !o.status.Queued? && !o.status.Cancelled?)
  }

  predicate OperationTruth(t: Tables, id: int, o: Operation) {
    && (o.status.Accepted? ==> id in t.acceptances && t.acceptances[id].hash == o.identity.hash)
    && (o.status.Rejected? ==>
          || NotDispatched(id) in t.evidence
          || ((o.identity.kind.Sale? || o.identity.kind.Return?) && ProviderRejected(id, o.identity) in t.evidence))
  }

  predicate OperationAdmitted(t: Tables, id: int, o: Operation) {
    && (if id in t.operations then OperationUpdate(t.operations[id], o) else o.status.Queued? && o.dispatched.None?)
    && o.identity.register in t.registers
    && t.registers[o.identity.register].profile == o.identity.profile && t.registers[o.identity.register].test == o.identity.test
    && OperationTruth(t, id, o)
    && (forall k :: k in t.operations && k != id ==> !Clash(o, t.operations[k]))
  }

  /** The partial unique index over unresolved rows and the unique provider uuid. */
  predicate Clash(o: Operation, p: Operation) {
    || (Unresolved(o.status) && Unresolved(p.status) && p.identity.register == o.identity.register)
    || (o.identity.uuid.Some? && p.identity.uuid == o.identity.uuid)
  }

  predicate AcceptanceAdmitted(t: Tables, id: int, a: Acceptance) {
    && id !in t.acceptances && (forall k :: k in t.acceptances ==> t.acceptances[k].provider != a.provider)
    && id in t.operations
    && var o := t.operations[id];
    && o.dispatched.Some? && (o.status.Unknown? || o.status.Pending?) && o.identity.hash == a.hash
    && a.proof.verified && a.proof.accepted && a.proof.test == o.identity.test
    && o.identity.register in t.registers && a.proof.profile == t.registers[o.identity.register].profile
    && (o.identity.kind.Sale? || o.identity.kind.Return? ==>
          && a.proof.uuid == o.identity.uuid && a.proof.hash == o.identity.hash && a.proof.shift == o.identity.shift
          && a.proof.amount == o.identity.amount && a.proof.kind == o.identity.kind && a.proof.uah
          && a.proof.sentToTax == !o.identity.test)
  }

  datatype Statement =
    | PutRegister(id: int, register: Register)
    | PutOperation(id: int, operation: Operation)
    | InsertAcceptance(id: int, acceptance: Acceptance)
    | InsertEvidence(evidence: Evidence)
    | InsertBinding(order: int, boundTo: int)
    | InsertConfirmation(order: int)

  predicate Admitted(t: Tables, s: Statement) {
    match s
    case PutRegister(id, r) => id in t.registers ==> t.registers[id].profile == r.profile && t.registers[id].test == r.test
    case PutOperation(id, o) => OperationAdmitted(t, id, o)
    case InsertAcceptance(id, a) => AcceptanceAdmitted(t, id, a)
    case InsertEvidence(_) => true
    case InsertBinding(order, r) => order !in t.bindings && r in t.registers && order !in t.confirmations
    case InsertConfirmation(order) =>
      && order !in t.confirmations
      && (order in t.bindings ==> forall k :: k in t.operations && t.operations[k].identity.register == t.bindings[order] ==>
            !Unresolved(t.operations[k].status))
  }

  function Write(t: Tables, s: Statement): Tables {
    match s
    case PutRegister(id, r) => t.(registers := t.registers[id := r])
    case PutOperation(id, o) => t.(operations := t.operations[id := o])
    case InsertAcceptance(id, a) => t.(acceptances := t.acceptances[id := a])
    case InsertEvidence(e) => t.(evidence := t.evidence + {e})
    case InsertBinding(order, r) => t.(bindings := t.bindings[order := r])
    case InsertConfirmation(order) => t.(confirmations := t.confirmations + {order})
  }

  function Step(t: Tables, s: Statement): Option<Tables> {
    if Admitted(t, s) then Some(Write(t, s)) else None
  }

  // ---------------------------------------------------------------- what every statement keeps

  /** A dispatched operation may not be queued or cancelled any more: the fence as a state condition. */
  ghost predicate Fenced(o: Operation) {
    o.dispatched.Some? ==> !o.status.Queued? && !o.status.Cancelled?
  }

  ghost predicate Invariant(t: Tables) {
    && (forall j, k :: j in t.operations && k in t.operations && j != k ==>
          !(t.operations[j].identity.register == t.operations[k].identity.register
            && Unresolved(t.operations[j].status) && Unresolved(t.operations[k].status)))
    && (forall k :: k in t.acceptances ==>
          k in t.operations && t.operations[k].dispatched.Some? && t.acceptances[k].hash == t.operations[k].identity.hash
          && Fenced(t.operations[k]))
    && (forall k :: k in t.operations && t.operations[k].status.Accepted? ==> k in t.acceptances)
  }

  /** Identities, stamps, acceptances and terminal rows are for ever; a dispatched row stays beyond the fence. */
  ghost predicate Later(t: Tables, u: Tables) {
    && (forall k :: k in t.operations ==> k in u.operations && OperationLater(t.operations[k], u.operations[k]))
    && (forall k :: k in t.acceptances ==> k in u.acceptances && u.acceptances[k] == t.acceptances[k])
  }

  ghost predicate OperationLater(o: Operation, p: Operation) {
    && p.identity == o.identity && (Resolved(o.status) ==> p == o)
    && (o.dispatched.Some? ==> p.dispatched == o.dispatched && (p == o || Fenced(p)))
  }

  lemma StepKeeps(t: Tables, s: Statement)
    requires Invariant(t) && Step(t, s).Some?
    ensures Invariant(Write(t, s)) && Later(t, Write(t, s))
  {}

  lemma LaterTransitive(s: Tables, t: Tables, u: Tables)
    requires Later(s, t) && Later(t, u)
    ensures Later(s, u)
  {
    forall k | k in s.operations ensures k in u.operations && OperationLater(s.operations[k], u.operations[k]) {
      assert k in t.operations;
    }
  }

  lemma RunKeeps(t: Tables, run: seq<Statement>)
    requires Invariant(t)
    ensures Execute(Step, t, run).Some? ==>
      Invariant(Execute(Step, t, run).value) && Later(t, Execute(Step, t, run).value)
  {
    forall t, s | Invariant(t) && Step(t, s).Some? ensures Invariant(Step(t, s).value) && Later(t, Step(t, s).value) {
      StepKeeps(t, s);
    }
    forall s, t, u | Later(s, t) && Later(t, u) ensures Later(s, u) { LaterTransitive(s, t, u); }
    ExecuteKeeps(Step, Invariant, t, run);
    ExecuteAdvances(Step, Invariant, Later, t, run);
  }

  // ---------------------------------------------------------------- main results

  /** No operations yet. */
  predicate Fresh(t: Tables) { t.operations == map[] && t.acceptances == map[] }

  /**
   On every run a register has at most one unresolved operation, and an accepted operation was
   dispatched and has an acceptance for exactly the snapshot it was inserted with.
   */
  lemma OneUnresolvedPerRegister(t: Tables, run: seq<Statement>)
    requires Fresh(t) && Execute(Step, t, run).Some?
    ensures var u := Execute(Step, t, run).value;
      && (forall j, k :: j in u.operations && k in u.operations && j != k ==>
            !(u.operations[j].identity.register == u.operations[k].identity.register
              && Unresolved(u.operations[j].status) && Unresolved(u.operations[k].status)))
      && (forall k :: k in u.operations && u.operations[k].status.Accepted? ==>
            u.operations[k].dispatched.Some? && k in u.acceptances && u.acceptances[k].hash == u.operations[k].identity.hash)
  {
    RunKeeps(t, run);
  }

  /**
   From any reached state on: identities never change, terminal operations never change, acceptances
   stay, the first dispatch stamp stays, and a dispatched operation that is updated at all is
   never queued or cancelled again.
   */
  lemma DispatchFence(t: Tables, run: seq<Statement>, more: seq<Statement>, k: int)
    requires Fresh(t) && Execute(Step, t, run).Some? && k in Execute(Step, t, run).value.operations
    requires Execute(Step, Execute(Step, t, run).value, more).Some?
    ensures var o := Execute(Step, t, run).value.operations[k]; var w := Execute(Step, Execute(Step, t, run).value, more).value;
      && k in w.operations
      && var p := w.operations[k];
      && p.identity == o.identity && (Resolved(o.status) ==> p == o)
      && (o.dispatched.Some? ==> p.dispatched == o.dispatched && (p == o || (!p.status.Queued? && !p.status.Cancelled?)))
      && (k in Execute(Step, t, run).value.acceptances ==> k in w.acceptances && w.acceptances[k] == Execute(Step, t, run).value.acceptances[k])
  {
    RunKeeps(t, run);
    RunKeeps(Execute(Step, t, run).value, more);
    assert OperationLater(Execute(Step, t, run).value.operations[k],
                          Execute(Step, Execute(Step, t, run).value, more).value.operations[k]);
  }

  /** One statement that first stamps the dispatch of an operation while leaving it queued or cancelling it. */
  predicate StampsAndRetracts(t: Tables, s: Statement) {
    s.PutOperation? && s.operation.dispatched.Some? && (s.operation.status.Queued? || s.operation.status.Cancelled?)
    && (s.id in t.operations ==> t.operations[s.id].dispatched.None?)
  }

  predicate AllFenced(t: Tables) {
    forall k :: k in t.operations ==>
      (t.operations[k].dispatched.Some? ==> !t.operations[k].status.Queued? && !t.operations[k].status.Cancelled?)
  }

  /**
   The triggers look at the old dispatch stamp only. So "no dispatched operation is queued or
   cancelled" survives a statement exactly when the statement does not do both at once.
   */
  lemma FenceAsStateExactly(t: Tables, s: Statement)
    requires AllFenced(t) && Step(t, s).Some?
    ensures AllFenced(Write(t, s)) <==> !StampsAndRetracts(t, s)
  {
    if s.PutOperation? { assert s.id in Write(t, s).operations; }
  }

  /** The fence holds in every state that the run passes through. */
  predicate FencedAlong(t: Tables, run: seq<Statement>)
    decreases |run|
  {
    AllFenced(t) && (run != [] && Admitted(t, run[0]) ==> FencedAlong(Write(t, run[0]), run[1..]))
  }

  /** Some statement of the run stamps and retracts. */
  predicate Retracts(t: Tables, run: seq<Statement>)
    decreases |run|
  {
    run != [] && Admitted(t, run[0]) && (StampsAndRetracts(t, run[0]) || Retracts(Write(t, run[0]), run[1..]))
  }

  /** Over whole runs: the fence holds throughout if and only if no statement stamps and retracts, and then at the end. */
  lemma {:induction false} FencedThroughoutExactly(t: Tables, run: seq<Statement>)
    requires AllFenced(t) && Execute(Step, t, run).Some?
    ensures FencedAlong(t, run) <==> !Retracts(t, run)
    ensures !Retracts(t, run) ==> AllFenced(Execute(Step, t, run).value)
    decreases |run|
  {
    if run != [] {
      FenceAsStateExactly(t, run[0]);
      if AllFenced(Write(t, run[0])) { FencedThroughoutExactly(Write(t, run[0]), run[1..]); }
    }
  }

  /** And such a statement is admitted: a queued operation becomes dispatched and cancelled in one update. */
  lemma StampAndCancelAdmitted() returns (t: Tables, s: Statement)
    ensures Invariant(t) && AllFenced(t) && Step(t, s).Some? && StampsAndRetracts(t, s)
  {
    var who := Identity(1, None, ShiftOpen, true, None, None, 9, 0, 5);
    t := Tables(map[1 := Register(9, true, false, 0)], map[1 := Operation(who, Queued, 1, None)], map[], {}, map[], {});
    s := PutOperation(1, Operation(who, Cancelled, 2, Some(77)));
  }

  // ---------------------------------------------------------------- the triggers

  class OperationDesk {
    var registers: map<int, Register>
    var operations: map<int, Operation>
    var acceptances: map<int, Acceptance>
    var evidence: set<Evidence>
    var bindings: map<int, int>
    var confirmations: set<int>

    function View(): Tables reads this { Tables(registers, operations, acceptances, evidence, bindings, confirmations) }

    constructor (registers: map<int, Register>)
      ensures View() == Tables(registers, map[], map[], {}, map[], {})
    {
      this.registers, operations, acceptances := registers, map[], map[];
      evidence, bindings, confirmations := {}, map[], {};
    }

    /** protect_shop_checkbox_operation and the partial unique index over unresolved rows. */
    method WriteOperation(id: int, o: Operation) returns (ok: bool)
      modifies this`operations
      ensures ok == Admitted(old(View()), PutOperation(id, o))
      ensures View() == if ok then Write(old(View()), PutOperation(id, o)) else old(View())
      ensures old(Invariant(View())) ==> Invariant(View()) && Later(old(View()), View())
    {
      if id in operations {
        var was := operations[id];
        if o.identity != was.identity || Resolved(was.status)
           || (was.dispatched.Some? && o.dispatched != was.dispatched)
           || (was.dispatched.Some? && (o.status.Queued? || o.status.Cancelled?)) {
          return false;
        }
      } else if !o.status.Queued? || o.dispatched.Some? {
        return false;
      }
      if o.identity.register !in registers || registers[o.identity.register].profile != o.identity.profile
         || registers[o.identity.register].test != o.identity.test {
        return false;
      }
      if o.status.Accepted? && (id !in acceptances || acceptances[id].hash != o.identity.hash) {
        return false;
      }
      if o.status.Rejected? && NotDispatched(id) !in evidence
         && !((o.identity.kind.Sale? || o.identity.kind.Return?) && ProviderRejected(id, o.identity) in evidence) {
        return false;
      }
      if exists k :: k in operations && k != id && Clash(o, operations[k]) {
        return false;
      }
      operations := operations[id := o];
      ok := true;
      assert old(Invariant(View())) ==> Invariant(View()) && Later(old(View()), View()) by {
        if old(Invariant(View())) { StepKeeps(old(View()), PutOperation(id, o)); }
      }
    }

    /** validate_shop_checkbox_acceptance on top of the immutable table. */
    method Accept(id: int, a: Acceptance) returns (ok: bool)
      modifies this`acceptances
      ensures ok == Admitted(old(View()), InsertAcceptance(id, a))
      ensures View() == if ok then Write(old(View()), InsertAcceptance(id, a)) else old(View())
      ensures ok ==> id in operations && operations[id].dispatched.Some? && Unresolved(operations[id].status)
      ensures old(Invariant(View())) ==> Invariant(View()) && Later(old(View()), View())
    {
      ghost var before := View();
      if id in acceptances || id !in operations || exists k :: k in acceptances && acceptances[k].provider == a.provider {
        return false;
      }
      var o := operations[id];
      if o.dispatched.None? || !(o.status.Unknown? || o.status.Pending?) || o.identity.hash != a.hash {
        return false;
      }
      if !a.proof.verified || !a.proof.accepted || a.proof.test != o.identity.test
         || o.identity.register !in registers || a.proof.profile != registers[o.identity.register].profile {
        return false;
      }
      if (o.identity.kind.Sale? || o.identity.kind.Return?)
         && (a.proof.uuid != o.identity.uuid || a.proof.hash != o.identity.hash || a.proof.shift != o.identity.shift
             || a.proof.amount != o.identity.amount || a.proof.kind != o.identity.kind || !a.proof.uah
             || a.proof.sentToTax == o.identity.test) {
        return false;
      }
      acceptances := acceptances[id := a];
      ok := true;
      if Invariant(before) { StepKeeps(before, InsertAcceptance(id, a)); }
    }

    /** lock_shop_checkbox_money: no payment is confirmed beside an unresolved operation of its register. */
    method Confirm(order: int) returns (ok: bool)
      modifies this`confirmations
      ensures ok == Admitted(old(View()), InsertConfirmation(order))
      ensures View() == if ok then Write(old(View()), InsertConfirmation(order)) else old(View())
    {
      if order in bindings
         && exists k :: k in operations && operations[k].identity.register == bindings[order] && Unresolved(operations[k].status) {
        return false;
      }
      ok := order !in confirmations;
      if ok {
        confirmations := confirmations + {order};
      }
    }
  }
}
