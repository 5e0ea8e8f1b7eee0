/**
 The gaps-and-islands union of availability windows: sort one master's windows, keep a running
 maximum of the earlier ends, start an island where that maximum lies before the window, number the
 islands with a running sum over peers, and group by the number. Windows carry no check that they
 end after they start, so nothing here assumes it.
 */
module AvailabilityUnion {
  import opened Prelude

  datatype Span = Span(start: int, end: int)

  /** ORDER BY start_at, end_at. */
  predicate Before(a: Span, b: Span) {
    a.start < b.start || (a.start == b.start && a.end <= b.end)
  }

  predicate Sorted(w: seq<Span>) {
    forall i, j :: 0 <= i <= j < |w| ==> Before(w[i], w[j])
  }

  function Insert(x: Span, w: seq<Span>): seq<Span> {
    if |w| == 0 then [x]
    else if Before(x, w[0]) then [x] + w
    else [w[0]] + Insert(x, w[1..])
  }

  function Sort(w: seq<Span>): seq<Span> {
    if |w| == 0 then [] else Insert(w[0], Sort(w[1..]))
  }

  lemma {:induction false} InsertSorted(x: Span, w: seq<Span>)
    requires Sorted(w)
    ensures Sorted(Insert(x, w)) && multiset(Insert(x, w)) == multiset{x} + multiset(w)
  {
    if |w| > 0 && !Before(x, w[0]) {
      InsertSorted(x, w[1..]);
      assert w == [w[0]] + w[1..];
      forall y | y in Insert(x, w[1..]) ensures Before(w[0], y) {
        assert y in multiset(Insert(x, w[1..]));
      }
    }
  }

  lemma {:induction false} SortSorts(w: seq<Span>)
    ensures Sorted(Sort(w)) && multiset(Sort(w)) == multiset(w)
  {
    if |w| > 0 {
      SortSorts(w[1..]);
      InsertSorted(w[0], Sort(w[1..]));
      assert w == [w[0]] + w[1..];
    }
  }

  /** max(end_at) over the rows before i; null for the first row. */
  function PreviousMaxEnd(w: seq<Span>, i: nat): Option<int>
    requires i <= |w|
  {
    if i == 0 then None
    else
      var m := PreviousMaxEnd(w, i - 1);
      if m.None? || m.value < w[i - 1].end then Some(w[i - 1].end) else m
  }

  predicate StartsIsland(w: seq<Span>, i: nat)
    requires i < |w|
  {
    var m := PreviousMaxEnd(w, i);
    m.None? || m.value < w[i].start
  }

  /** sum(starts_island) over the first n rows. */
  function Starts(w: seq<Span>, n: nat): nat
    requires n <= |w|
  {
    if n == 0 then 0 else Starts(w, n - 1) + if StartsIsland(w, n - 1) then 1 else 0
  }

  /** The end of the peer group of row i: a running sum's default frame includes equal keys. */
  function PeerEnd(w: seq<Span>, i: nat): (e: nat)
    requires i < |w|
    ensures i < e <= |w| && forall k :: i <= k < e ==> w[k] == w[i]
    ensures e < |w| ==> w[e] != w[i]
    decreases |w| - i
  {
    if i + 1 < |w| && w[i + 1] == w[i] then PeerEnd(w, i + 1) else i + 1
  }

  function Island(w: seq<Span>, i: nat): nat
    requires i < |w|
  {
    Starts(w, PeerEnd(w, i))
  }

  /** The island_id column of the sorted rows. */
  function Islands(w: seq<Span>): (ids: seq<nat>)
    ensures |ids| == |w|
  {
    seq(|w|, i requires 0 <= i < |w| => Island(w, i))
  }

  predicate In(ids: seq<nat>, id: nat, i: int) {
    0 <= i < |ids| && ids[i] == id
  }

  /** One grouped row: min(start_at) and max(end_at) over the rows carrying `id`. */
  ghost predicate Grouped(w: seq<Span>, ids: seq<nat>, id: nat, s: Span)
    requires |ids| == |w|
  {
    && (exists i :: In(ids, id, i) && s.start == w[i].start)
    && (exists i :: In(ids, id, i) && s.end == w[i].end)
    && (forall i :: In(ids, id, i) ==> s.start <= w[i].start && w[i].end <= s.end)
  }

  /** min(start_at) over the rows carrying `id` among the first n. */
  function MinStart(w: seq<Span>, ids: seq<nat>, id: nat, n: nat): Option<int>
    requires n <= |w| == |ids|
  {
    if n == 0 then None
    else
      var m := MinStart(w, ids, id, n - 1);
      if ids[n - 1] == id && (m.None? || w[n - 1].start < m.value) then Some(w[n - 1].start) else m
  }

  function MaxEnd(w: seq<Span>, ids: seq<nat>, id: nat, n: nat): Option<int>
    requires n <= |w| == |ids|
  {
    if n == 0 then None
    else
      var m := MaxEnd(w, ids, id, n - 1);
      if ids[n - 1] == id && (m.None? || m.value < w[n - 1].end) then Some(w[n - 1].end) else m
  }

  /** SELECT min(start_at), max(end_at) ... GROUP BY island_id. */
  function GroupBy(w: seq<Span>, ids: seq<nat>): set<Span>
    requires |w| == |ids|
  {
    set id | id in ids && MinStart(w, ids, id, |w|).Some? && MaxEnd(w, ids, id, |w|).Some?
      :: Span(MinStart(w, ids, id, |w|).value, MaxEnd(w, ids, id, |w|).value)
  }

  /** The merged windows of one master's window table. */
  function Merge(rows: seq<Span>): set<Span> {
    GroupBy(Sort(rows), Islands(Sort(rows)))
  }

  // ---------------------------------------------------------------- proof

  lemma {:induction false} PreviousMaxEndIsMax(w: seq<Span>, i: nat)
    requires i <= |w|
    ensures PreviousMaxEnd(w, i).None? <==> i == 0
    ensures PreviousMaxEnd(w, i).Some? ==>
      && (forall k :: 0 <= k < i ==> w[k].end <= PreviousMaxEnd(w, i).value)
      && (exists k :: 0 <= k < i && w[k].end == PreviousMaxEnd(w, i).value)
  {
    if i > 0 {
      PreviousMaxEndIsMax(w, i - 1);
      assert w[i - 1].end == w[i - 1].end;
    }
  }

  lemma {:induction false} MinStartIsMin(w: seq<Span>, ids: seq<nat>, id: nat, n: nat)
    requires n <= |w| == |ids|
    ensures MinStart(w, ids, id, n).None? ==> forall i :: 0 <= i < n ==> !In(ids, id, i)
    ensures MinStart(w, ids, id, n).Some? ==>
      && (exists i :: In(ids, id, i) && i < n && MinStart(w, ids, id, n).value == w[i].start)
      && (forall i :: In(ids, id, i) && i < n ==> MinStart(w, ids, id, n).value <= w[i].start)
  {
    if n > 0 {
      MinStartIsMin(w, ids, id, n - 1);
      assert In(ids, id, n - 1) <==> ids[n - 1] == id;
    }
  }

  lemma {:induction false} MaxEndIsMax(w: seq<Span>, ids: seq<nat>, id: nat, n: nat)
    requires n <= |w| == |ids|
    ensures MaxEnd(w, ids, id, n).None? ==> forall i :: 0 <= i < n ==> !In(ids, id, i)
    ensures MaxEnd(w, ids, id, n).Some? ==>
      && (exists i :: In(ids, id, i) && i < n && MaxEnd(w, ids, id, n).value == w[i].end)
      && (forall i :: In(ids, id, i) && i < n ==> w[i].end <= MaxEnd(w, ids, id, n).value)
  {
    if n > 0 {
      MaxEndIsMax(w, ids, id, n - 1);
      assert In(ids, id, n - 1) <==> ids[n - 1] == id;
    }
  }

  /** The aggregates are exactly the grouped rows, and each id has one of them. */
  lemma GroupByIsGrouping(w: seq<Span>, ids: seq<nat>, s: Span)
    requires |w| == |ids|
    ensures s in GroupBy(w, ids) <==> exists id :: Grouped(w, ids, id, s)
  {
    if s in GroupBy(w, ids) {
      var id :| id in ids && MinStart(w, ids, id, |w|) == Some(s.start) && MaxEnd(w, ids, id, |w|) == Some(s.end);
      MinStartIsMin(w, ids, id, |w|);
      MaxEndIsMax(w, ids, id, |w|);
      assert Grouped(w, ids, id, s);
    }
    if exists id :: Grouped(w, ids, id, s) {
      var id :| Grouped(w, ids, id, s);
      GroupedIsAggregate(w, ids, id, s);
    }
  }

  lemma GroupedIsAggregate(w: seq<Span>, ids: seq<nat>, id: nat, s: Span)
    requires |w| == |ids| && Grouped(w, ids, id, s)
    ensures id in ids && MinStart(w, ids, id, |w|) == Some(s.start) && MaxEnd(w, ids, id, |w|) == Some(s.end)
  {
    MinStartIsMin(w, ids, id, |w|);
    MaxEndIsMax(w, ids, id, |w|);
    var i :| In(ids, id, i) && w[i].start == s.start;
    var k :| In(ids, id, k) && w[k].end == s.end;
  }

  lemma {:induction false} StartsMonotone(w: seq<Span>, m: nat, n: nat)
    requires m <= n <= |w|
    ensures Starts(w, m) <= Starts(w, n)
    ensures Starts(w, m) < Starts(w, n) ==> exists k :: m <= k < n && StartsIsland(w, k)
    decreases n - m
  {
    if m < n { StartsMonotone(w, m, n - 1); }
  }

  /** When the island number grows from row i to row j, an island starts in between. */
  lemma StartBetween(w: seq<Span>, i: nat, j: nat) returns (k: nat)
    requires i < j < |w| && Sorted(w) && Island(w, i) != Island(w, j)
    ensures i < k <= j && StartsIsland(w, k)
    ensures Island(w, i) < Island(w, j)
  {
    if w[i] == w[j] {
      SamePeerEnd(w, i, j);
    }
    PeersBefore(w, i, j);
    var e := PeerEnd(w, i);
    StartsMonotone(w, e, PeerEnd(w, j));
    k :| e <= k < PeerEnd(w, j) && StartsIsland(w, k);
    if k > j {
      PeerStart(w, j, k);
      k := j;
    }
  }

  lemma {:induction false} SamePeerEnd(w: seq<Span>, i: nat, j: nat)
    requires i < j < |w| && Sorted(w) && w[i] == w[j]
    ensures PeerEnd(w, i) == PeerEnd(w, j)
    decreases j - i
  {
    assert Before(w[i], w[i + 1]) && Before(w[i + 1], w[j]);
    if i + 1 < j { SamePeerEnd(w, i + 1, j); }
  }

  lemma PeersBefore(w: seq<Span>, i: nat, j: nat)
    requires i < j < |w| && Sorted(w) && w[i] != w[j]
    ensures PeerEnd(w, i) <= j
  {}

  /** If a later row of a peer group starts an island, so does every earlier one. */
  lemma PeerStart(w: seq<Span>, j: nat, k: nat)
    requires j < k < |w| && w[j] == w[k] && StartsIsland(w, k)
    ensures StartsIsland(w, j)
  {
    PreviousMaxEndIsMax(w, j);
    PreviousMaxEndIsMax(w, k);
  }

  /** Everything before a start ends strictly before everything from it on begins. */
  lemma StartSeparates(w: seq<Span>, k: nat, i: nat, j: nat)
    requires Sorted(w) && i < k <= j < |w| && StartsIsland(w, k)
    ensures w[i].end < w[j].start
  {
    PreviousMaxEndIsMax(w, k);
    assert Before(w[k], w[j]);
  }

  /** Windows of different islands are strictly apart, the lower-numbered island first. */
  lemma IslandsApart(w: seq<Span>, i: nat, j: nat)
    requires Sorted(w) && i < |w| && j < |w| && Island(w, i) < Island(w, j)
    ensures w[i].end < w[j].start
  {
    if j < i {
      var _ := StartBetween(w, j, i);
    } else {
      var k := StartBetween(w, i, j);
      StartSeparates(w, k, i, j);
    }
  }

  predicate Covers(s: Span, t: int) {
    s.start <= t < s.end
  }

  ghost predicate Covered(rows: seq<Span>, t: int) {
    exists i :: 0 <= i < |rows| && Covers(rows[i], t)
  }

  /** A row that starts after another row of its own island is reached by an earlier one of it. */
  lemma Bridged(w: seq<Span>, low: nat, j: nat) returns (m: nat)
    requires Sorted(w) && low < |w| && j < |w| && Island(w, low) == Island(w, j) && w[low].start < w[j].start
    ensures m < j && Island(w, m) == Island(w, j) && w[j].start <= w[m].end
  {
    PeersBefore(w, low, j);
    StartsMonotone(w, PeerEnd(w, low), j);
    StartsMonotone(w, j + 1, PeerEnd(w, j));
    PreviousMaxEndIsMax(w, j);
    m :| 0 <= m < j && w[m].end == PreviousMaxEnd(w, j).value;
    NotEarlierIsland(w, m, low, j);
  }

  /** A row before j whose end reaches beyond row low's start is of their island. */
  lemma NotEarlierIsland(w: seq<Span>, m: nat, low: nat, j: nat)
    requires Sorted(w) && low < |w| && m < j < |w| && Island(w, low) == Island(w, j) && w[low].start <= w[m].end
    ensures Island(w, m) == Island(w, j)
  {
    if Island(w, m) != Island(w, j) {
      var _ := StartBetween(w, m, j);
      IslandsApart(w, m, low);
    }
  }

  /** Inside an island the windows chain without a gap: a covered moment has a covering window. */
  lemma {:induction false} IslandHasNoGap(w: seq<Span>, low: nat, j: nat, t: int)
    requires Sorted(w) && low < |w| && j < |w| && Island(w, low) == Island(w, j)
    requires w[low].start <= t < w[j].end
    ensures Covered(w, t)
    decreases j
  {
    if t < w[j].start {
      var m := Bridged(w, low, j);
      IslandHasNoGap(w, low, m, t);
    } else {
      assert Covers(w[j], t);
    }
  }

  // ---------------------------------------------------------------- main results

  /** The union covers exactly the moments some window covered. */
  lemma MergePreservesCoverage(rows: seq<Span>, t: int)
    ensures Covered(rows, t) <==> exists s :: s in Merge(rows) && Covers(s, t)
  {
    SortSorts(rows);
    var w := Sort(rows);
    if Covered(rows, t) {
      var i :| 0 <= i < |rows| && Covers(rows[i], t);
      assert rows[i] in multiset(w);
      var k :| 0 <= k < |w| && w[k] == rows[i];
      var s := GroupOf(w, Islands(w), k);
      assert s in Merge(rows) && Covers(s, t);
    }
    if s :| s in Merge(rows) && Covers(s, t) {
      GroupByIsGrouping(w, Islands(w), s);
      var id :| Grouped(w, Islands(w), id, s);
      var low :| In(Islands(w), id, low) && s.start == w[low].start;
      var top :| In(Islands(w), id, top) && s.end == w[top].end;
      IslandHasNoGap(w, low, top, t);
      var k :| 0 <= k < |w| && Covers(w[k], t);
      assert w[k] in multiset(rows);
    }
  }

  /** The grouped row that a row falls into contains it. */
  lemma GroupOf(w: seq<Span>, ids: seq<nat>, k: nat) returns (s: Span)
    requires k < |w| == |ids|
    ensures s in GroupBy(w, ids) && s.start <= w[k].start && w[k].end <= s.end
  {
    MinStartIsMin(w, ids, ids[k], |w|);
    MaxEndIsMax(w, ids, ids[k], |w|);
    assert In(ids, ids[k], k);
    s := Span(MinStart(w, ids, ids[k], |w|).value, MaxEnd(w, ids, ids[k], |w|).value);
  }

  /** A merged window ends where one of the windows did. */
  lemma MergedEndsWithRow(rows: seq<Span>, s: Span)
    requires s in Merge(rows)
    ensures exists i :: 0 <= i < |rows| && rows[i].end == s.end
  {
    SortSorts(rows);
    var w := Sort(rows);
    GroupByIsGrouping(w, Islands(w), s);
    var id :| Grouped(w, Islands(w), id, s);
    var k :| In(Islands(w), id, k) && w[k].end == s.end;
    assert w[k] in multiset(rows);
  }

  /** Two merged windows of one master leave a strict gap between them. */
  lemma MergedApart(rows: seq<Span>, a: Span, b: Span)
    requires a in Merge(rows) && b in Merge(rows) && a != b
    ensures a.end < b.start || b.end < a.start
  {
    SortSorts(rows);
    var w := Sort(rows);
    GroupByIsGrouping(w, Islands(w), a);
    GroupByIsGrouping(w, Islands(w), b);
    var x :| Grouped(w, Islands(w), x, a);
    var y :| Grouped(w, Islands(w), y, b);
    if x == y {
      GroupedIsAggregate(w, Islands(w), x, a);
      GroupedIsAggregate(w, Islands(w), x, b);
    } else if x < y {
      GroupsApart(w, x, y, a, b);
    } else {
      GroupsApart(w, y, x, b, a);
    }
  }

  lemma GroupsApart(w: seq<Span>, x: nat, y: nat, a: Span, b: Span)
    requires Sorted(w) && x < y && Grouped(w, Islands(w), x, a) && Grouped(w, Islands(w), y, b)
    ensures a.end < b.start
  {
    var i :| In(Islands(w), x, i) && a.end == w[i].end;
    var j :| In(Islands(w), y, j) && b.start == w[j].start;
    IslandsApart(w, i, j);
  }
}
