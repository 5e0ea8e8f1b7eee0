/**
 A database as a machine: `step` is one statement together with its BEFORE triggers and unique
 indexes (None when one of them raises), and `check` is the DEFERRABLE constraint trigger that a
 statement queues and that is evaluated on the final tables when its transaction commits.
 */
module Transactions {
  import opened Prelude

  /** The tables after running a transaction's statements, or None when one of them raised. */
  function Execute<S, C>(step: (S, C) -> Option<S>, s: S, txn: seq<C>): Option<S>
    decreases |txn|
  {
    if txn == [] then Some(s)
    else
      match step(s, txn[0])
      case None => None
      case Some(t) => Execute(step, t, txn[1..])
  }

  /** Every constraint queued by the transaction holds of the final tables. */
  predicate Passes<S, C>(check: (S, C) -> bool, t: S, txn: seq<C>) {
    forall i :: 0 <= i < |txn| ==> check(t, txn[i])
  }

  /** The committed tables: the transaction's, or the old ones when it rolled back. */
  function Commit<S, C>(step: (S, C) -> Option<S>, check: (S, C) -> bool, s: S, txn: seq<C>): S {
    match Execute(step, s, txn)
    case None => s
    case Some(t) => if Passes(check, t, txn) then t else s
  }

  /** The committed tables after a whole history of transactions. */
  function History<S, C>(step: (S, C) -> Option<S>, check: (S, C) -> bool, s: S, txns: seq<seq<C>>): S {
    if |txns| == 0 then s
    else Commit(step, check, History(step, check, s, txns[..|txns| - 1]), txns[|txns| - 1])
  }

  /** Evaluating the queued constraints one after the other, up to the first that fails. */
  method CheckEach<S, C>(check: (S, C) -> bool, t: S, txn: seq<C>) returns (ok: bool)
    ensures ok == Passes(check, t, txn)
  {
    for i := 0 to |txn|
      invariant forall j :: 0 <= j < i ==> check(t, txn[j])
    {
      if !check(t, txn[i]) {
        return false;
      }
    }
    ok := true;
  }

  /** Running one statement more. */
  lemma {:induction false} ExecuteAppend<S, C>(step: (S, C) -> Option<S>, s: S, txn: seq<C>, c: C)
    ensures Execute(step, s, txn + [c]) ==
      match Execute(step, s, txn) case None => None case Some(t) => step(t, c)
    decreases |txn|
  {
    if txn == [] {
      assert (txn + [c])[1..] == [];
    } else {
      assert (txn + [c])[1..] == txn[1..] + [c];
      if step(s, txn[0]).Some? { ExecuteAppend(step, step(s, txn[0]).value, txn[1..], c); }
    }
  }

  /** Running one transaction's statements after another's. */
  lemma {:induction false} ExecuteConcat<S, C>(step: (S, C) -> Option<S>, s: S, first: seq<C>, second: seq<C>)
    ensures Execute(step, s, first + second) ==
      match Execute(step, s, first) case None => None case Some(t) => Execute(step, t, second)
    decreases |first|
  {
    if first == [] {
      assert first + second == second;
    } else {
      assert (first + second)[1..] == first[1..] + second;
      if step(s, first[0]).Some? { ExecuteConcat(step, step(s, first[0]).value, first[1..], second); }
    }
  }

  /** A property that every admitted statement keeps holds at the end of a transaction. */
  lemma {:induction false} ExecuteKeeps<S(!new), C(!new)>(
    step: (S, C) -> Option<S>, keeps: S -> bool, s: S, txn: seq<C>)
    requires keeps(s)
    requires forall s, c :: keeps(s) && step(s, c).Some? ==> keeps(step(s, c).value)
    ensures Execute(step, s, txn).Some? ==> keeps(Execute(step, s, txn).value)
    decreases |txn|
  {
    if txn != [] && step(s, txn[0]).Some? {
      ExecuteKeeps(step, keeps, step(s, txn[0]).value, txn[1..]);
    }
  }

  /** A reflexive and transitive relation that every admitted statement respects spans a transaction. */
  lemma {:induction false} ExecuteAdvances<S(!new), C(!new)>(
    step: (S, C) -> Option<S>, keeps: S -> bool, later: (S, S) -> bool, s: S, txn: seq<C>)
    requires keeps(s)
    requires forall s, c :: keeps(s) && step(s, c).Some? ==> keeps(step(s, c).value) && later(s, step(s, c).value)
    requires forall s :: later(s, s)
    requires forall s, t, u :: later(s, t) && later(t, u) ==> later(s, u)
    ensures Execute(step, s, txn).Some? ==> later(s, Execute(step, s, txn).value)
    decreases |txn|
  {
    if txn != [] && step(s, txn[0]).Some? {
      ExecuteAdvances(step, keeps, later, step(s, txn[0]).value, txn[1..]);
    }
  }

  /** What every commit keeps, and every commit respects, holds over a whole history. */
  lemma {:induction false} HistoryKeeps<S(!new), C(!new)>(
    step: (S, C) -> Option<S>, check: (S, C) -> bool, keeps: S -> bool, later: (S, S) -> bool,
    s: S, txns: seq<seq<C>>)
    requires keeps(s)
    requires forall s, txn :: keeps(s) ==>
      keeps(Commit(step, check, s, txn)) && later(s, Commit(step, check, s, txn))
    requires forall s :: later(s, s)
    requires forall s, t, u :: later(s, t) && later(t, u) ==> later(s, u)
    ensures keeps(History(step, check, s, txns)) && later(s, History(step, check, s, txns))
    decreases |txns|
  {
    if |txns| > 0 {
      HistoryKeeps(step, check, keeps, later, s, txns[..|txns| - 1]);
    }
  }

  /** A transaction of three statements that do not raise and whose checks hold commits. */
  lemma ThreeStatements<S, C>(step: (S, C) -> Option<S>, check: (S, C) -> bool, t: S, u: S, v: S, w: S, a: C, b: C, c: C)
    requires step(t, a) == Some(u) && step(u, b) == Some(v) && step(v, c) == Some(w)
    requires check(w, a) && check(w, b) && check(w, c)
    ensures Commit(step, check, t, [a, b, c]) == w
  {
    assert [a, b, c][1..] == [b, c] && [b, c][1..] == [c] && [c][1..] == [];
    assert Execute(step, v, [c]) == Execute(step, w, []);
    assert Execute(step, u, [b, c]) == Execute(step, v, [c]);
  }
}
