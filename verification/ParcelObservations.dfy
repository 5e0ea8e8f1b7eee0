/**
 The tracking history of one reverse-parcel case. Each new observation is compared with the stored one
 of the greatest id; the results say what that neighbour check gives for all pairs, and exactly when.
 */
module ParcelObservations {
  import opened Prelude

  /** One leg's dated carrier event. */
  datatype Leg = Leg(status: string, raw: string, event: Option<int>)

  datatype Observation = Observation(id: int, observed: int, original: Leg, reverse: Leg)

  /** The case columns the trigger reads; times are seconds. */
  datatype Case = Case(unpaid: bool, dispatched: int)

  const TWO_HOURS := 7200
  const CLOCK_SLACK := 30

  /** ORDER BY id DESC LIMIT 1. */
  function Latest(log: seq<Observation>): Option<Observation> {
    if |log| == 0 then None
    else
      var m := Latest(log[..|log| - 1]);
      if m.None? || m.value.id < log[|log| - 1].id then Some(log[|log| - 1]) else m
  }

  predicate LegAdmitted(v: Leg, observed: int) {
    && v.status != "unknown" && v.status != "requires_review"
    && (v.event.Some? ==> v.event.value <= observed + CLOCK_SLACK)
  }

  /** v neither regresses behind nor contradicts the dated event of the older leg. */
  predicate Follows(older: Leg, v: Leg) {
    older.event.Some? ==>
      && v.event.Some? && older.event.value <= v.event.value
      && (older.event.value == v.event.value ==> v.raw == older.raw)
  }

  predicate RefusalAdmitted(c: Case, log: seq<Observation>, o: Observation) {
    c.unpaid ==>
      && o.original.event.Some? && c.dispatched - CLOCK_SLACK <= o.original.event.value
      && (o.original.raw == "103" || (o.original.raw == "102" && exists i :: 0 <= i < |log| && log[i].original.raw == "103"))
  }

  predicate Admitted(c: Case, log: seq<Observation>, o: Observation, now: int) {
    var previous := Latest(log);
    && now - TWO_HOURS <= o.observed <= now + CLOCK_SLACK
    && (forall i :: 0 <= i < |log| ==> log[i].id != o.id)
    && (previous.Some? ==> previous.value.observed <= o.observed)
    && LegAdmitted(o.original, o.observed) && LegAdmitted(o.reverse, o.observed)
    && (previous.Some? ==> Follows(previous.value.original, o.original) && Follows(previous.value.reverse, o.reverse))
    && RefusalAdmitted(c, log, o)
  }

  /** A log every entry of which was admitted, at the given times. */
  ghost predicate AdmittedLog(c: Case, log: seq<Observation>, nows: seq<int>) {
    |log| == |nows| && forall i :: 0 <= i < |log| ==> Admitted(c, log[..i], log[i], nows[i])
  }

  function Ids(log: seq<Observation>): seq<int> {
    seq(|log|, i requires 0 <= i < |log| => log[i].id)
  }

  predicate Ascending(ids: seq<int>) {
    forall i, j :: 0 <= i < j < |ids| ==> ids[i] < ids[j]
  }

  /** For any two observations, the one of the greater id follows the other on both legs. */
  ghost predicate PairwiseFollows(log: seq<Observation>) {
    forall i, j :: 0 <= i < |log| && 0 <= j < |log| && log[i].id < log[j].id ==>
      Follows(log[i].original, log[j].original) && Follows(log[i].reverse, log[j].reverse)
  }

  // ---------------------------------------------------------------- proof

  lemma {:induction false} LatestIsGreatest(log: seq<Observation>)
    requires |log| > 0
    ensures Latest(log).Some? && Latest(log).value in log
    ensures forall i :: 0 <= i < |log| ==> log[i].id <= Latest(log).value.id
  {
    if |log| > 1 { LatestIsGreatest(log[..|log| - 1]); }
  }

  lemma AscendingLatest(log: seq<Observation>, n: nat)
    requires 0 < n <= |log| && Ascending(Ids(log))
    ensures Latest(log[..n]) == Some(log[n - 1])
  {
    LatestIsGreatest(log[..n]);
    var m := Latest(log[..n]).value;
    var i :| 0 <= i < n && log[i] == m;
    assert log[..n][n - 1] == log[n - 1];
    if i < n - 1 { assert Ids(log)[i] < Ids(log)[n - 1]; }
  }

  /** With ascending ids each entry follows every earlier one: the neighbour check is transitive. */
  lemma {:induction false} EarlierFollowed(c: Case, log: seq<Observation>, nows: seq<int>, i: nat, j: nat)
    requires AdmittedLog(c, log, nows) && Ascending(Ids(log)) && i < j < |log|
    ensures Follows(log[i].original, log[j].original) && Follows(log[i].reverse, log[j].reverse)
    decreases j
  {
    AscendingLatest(log, j);
    assert Admitted(c, log[..j], log[j], nows[j]);
    if i < j - 1 { EarlierFollowed(c, log, nows, i, j - 1); }
  }

  /** The log that exposes an id taken out of order: its event is later than that of a greater id. */
  function Exposing(c: Case, ids: seq<int>, k: nat): seq<Observation> {
    seq(|ids|, i requires 0 <= i < |ids| =>
      var leg := Leg("refused", "103", Some(c.dispatched + if i < k then 0 else 1));
      Observation(ids[i], c.dispatched + 1, leg, leg))
  }

  lemma ExposingAdmitted(c: Case, ids: seq<int>, k: nat)
    requires Distinct(ids)
    ensures AdmittedLog(c, Exposing(c, ids, k), seq(|ids|, _ => c.dispatched + 1)) && Ids(Exposing(c, ids, k)) == ids
  {
    var log := Exposing(c, ids, k);
    forall i | 0 <= i < |log| ensures Admitted(c, log[..i], log[i], c.dispatched + 1) {
      if i > 0 {
        LatestIsGreatest(log[..i]);
        var m :| 0 <= m < i && log[m] == Latest(log[..i]).value;
      }
    }
  }

  // ---------------------------------------------------------------- main results

  /**
   Exactly when the neighbour check orders all pairs: for a given sequence of inserted ids, every
   admitted log is pairwise consistent by id if and only if the ids were inserted in ascending order.
   */
  lemma AllPairsIffIdsAscend(c: Case, ids: seq<int>)
    requires Distinct(ids)
    ensures Ascending(ids) <==>
      forall log: seq<Observation>, nows: seq<int> :: AdmittedLog(c, log, nows) && Ids(log) == ids ==> PairwiseFollows(log)
  {
    if Ascending(ids) {
      forall log: seq<Observation>, nows: seq<int> | AdmittedLog(c, log, nows) && Ids(log) == ids ensures PairwiseFollows(log) {
        forall i, j | 0 <= i < |log| && 0 <= j < |log| && log[i].id < log[j].id
          ensures Follows(log[i].original, log[j].original) && Follows(log[i].reverse, log[j].reverse)
        {
          assert Ids(log)[i] == log[i].id && Ids(log)[j] == log[j].id;
          EarlierFollowed(c, log, nows, i, j);
        }
      }
    } else {
      var i, k :| 0 <= i < k < |ids| && ids[i] >= ids[k];
      var log := Exposing(c, ids, k);
      ExposingAdmitted(c, ids, k);
      assert log[k].id < log[i].id && !Follows(log[k].original, log[i].original);
      assert !PairwiseFollows(log);
    }
  }

  /** An unpaid refusal's history starts with original status 103 and holds nothing but 103 and 102. */
  lemma RefusalChain(c: Case, log: seq<Observation>, nows: seq<int>)
    requires AdmittedLog(c, log, nows) && c.unpaid
    ensures |log| > 0 ==> log[0].original.raw == "103"
    ensures forall i :: 0 <= i < |log| ==>
      && log[i].original.raw in {"103", "102"} && log[i].original.event.Some?
      && c.dispatched - CLOCK_SLACK <= log[i].original.event.value
  {
    forall i | 0 <= i < |log|
      ensures RefusalAdmitted(c, log[..i], log[i])
    {
      assert Admitted(c, log[..i], log[i], nows[i]);
    }
  }

  // ---------------------------------------------------------------- the trigger

  class CaseHistory {
    const parcel: Case
    var log: seq<Observation>
    ghost var nows: seq<int>

    ghost predicate Valid() reads this { AdmittedLog(parcel, log, nows) }

    constructor (c: Case)
      ensures Valid() && parcel == c && log == []
    {
      parcel, log, nows := c, [], [];
    }

    /** validate_np_observation: provenance and freshness, then both legs, then the refusal chain. */
    method Observe(o: Observation, now: int) returns (ok: bool)
      requires Valid()
      modifies this
      ensures Valid() && ok == Admitted(parcel, old(log), o, now)
      ensures log == if ok then old(log) + [o] else old(log)
    {
      var previous := Latest(log);
      if o.observed < now - TWO_HOURS || o.observed > now + CLOCK_SLACK || exists i :: 0 <= i < |log| && log[i].id == o.id {
        return false;
      }
      if previous.Some? && o.observed < previous.value.observed {
        return false;
      }
      var legs, older := [o.original, o.reverse], if previous.Some? then [previous.value.original, previous.value.reverse] else [];
      for k := 0 to 2
        invariant forall j :: 0 <= j < k ==> LegAdmitted(legs[j], o.observed) && (previous.Some? ==> Follows(older[j], legs[j]))
      {
        var v := legs[k];
        if v.status == "unknown" || v.status == "requires_review" || (v.event.Some? && v.event.value > o.observed + CLOCK_SLACK) {
          return false;
        }
        if previous.Some? && older[k].event.Some?
           && (v.event.None? || v.event.value < older[k].event.value
               || (v.event.value == older[k].event.value && v.raw != older[k].raw)) {
          return false;
        }
      }
      assert legs[0] == o.original && legs[1] == o.reverse;
      if parcel.unpaid && (o.original.event.None? || o.original.event.value < parcel.dispatched - CLOCK_SLACK
                          || (o.original.raw != "103"
                              && !(o.original.raw == "102" && exists i :: 0 <= i < |log| && log[i].original.raw == "103"))) {
        return false;
      }
      ghost var before := log;
      log, nows := log + [o], nows + [now];
      ok := true;
      forall i | 0 <= i < |log| ensures Admitted(parcel, log[..i], log[i], nows[i]) {
        assert log[..i] == if i < |before| then before[..i] else before;
      }
    }
  }
}
