/**
 Resolution of booking redirects: the recursive chain query with its cycle flag, the map of sources
 to terminal targets, and the two checks that abort the repair.
 */
module RedirectChains {
  import opened Prelude

  datatype Master = Master(redirect: Option<int>, active: bool)

  /** A row of the recursive query; `path` holds every master visited, the current one last. */
  datatype Row = Row(source: int, current: int, next: Option<int>, path: seq<int>, cycle: bool)

  type Masters = map<int, Master>

  /** A foreign key: a redirect names an existing master. */
  predicate Referential(masters: Masters) {
    forall m :: m in masters && masters[m].redirect.Some? ==> masters[m].redirect.value in masters
  }

  function Seed(masters: Masters, source: int): Row
    requires source in masters
  {
    Row(source, source, masters[source].redirect, [source], false)
  }

  /** The recursive term: one joined row, or none at the end of a chain or after a cycle. */
  function Next(masters: Masters, row: Row): Option<Row> {
    if row.next.None? || row.cycle || row.next.value !in masters then None
    else
      var m := row.next.value;
      Some(Row(row.source, m, masters[m].redirect, row.path + [m], m in row.path))
  }

  function Unvisited(masters: Masters, path: seq<int>): set<int> {
    set m | m in masters && m !in path
  }

  /** The fixpoint of the recursive query from one row; it terminates on every redirect graph. */
  function Chain(masters: Masters, row: Row): seq<Row>
    decreases if row.cycle then 0 else 1 + |Unvisited(masters, row.path)|
  {
    var next := Next(masters, row);
    if next.None? then [row]
    else
      NextIsFresh(masters, row);
      [row] + Chain(masters, next.value)
  }

  lemma NextIsFresh(masters: Masters, row: Row)
    requires Next(masters, row).Some?
    ensures !Next(masters, row).value.cycle ==>
      |Unvisited(masters, Next(masters, row).value.path)| < |Unvisited(masters, row.path)|
  {
    var m := row.next.value;
    if m !in row.path {
      assert Unvisited(masters, row.path + [m]) == Unvisited(masters, row.path) - {m};
    }
  }

  function ChainOf(masters: Masters, source: int): seq<Row>
    requires source in masters
  {
    Chain(masters, Seed(masters, source))
  }

  predicate Redirects(masters: Masters, source: int) {
    source in masters && masters[source].redirect.Some?
  }

  /** Rows that the map keeps: the end of a chain that did not run into a cycle. */
  predicate Terminal(row: Row) {
    row.next.None? && !row.cycle
  }

  /** Only the last row of a chain can be terminal, so a source maps to at most one target. */
  function Target(masters: Masters, source: int): Option<int>
    requires source in masters
  {
    var chain := ChainOf(masters, source);
    if Terminal(chain[|chain| - 1]) then Some(chain[|chain| - 1].current) else None
  }

  /** _booking_redirect_map. */
  function RedirectMap(masters: Masters): map<int, int> {
    map s | s in masters && Redirects(masters, s) && Target(masters, s).Some? :: Target(masters, s).value
  }

  /** First check: a redirecting master without a target, or with an inactive one. */
  predicate Unresolved(masters: Masters, source: int) {
    Redirects(masters, source)
    && (source !in RedirectMap(masters)
        || RedirectMap(masters)[source] !in masters || !masters[RedirectMap(masters)[source]].active)
  }

  /** Second check: the chain passes through an inactive master other than its source. */
  predicate CrossesInactive(masters: Masters, source: int) {
    Redirects(masters, source)
    && exists k :: 0 <= k < |ChainOf(masters, source)|
         && ChainOf(masters, source)[k].current in masters
         && !masters[ChainOf(masters, source)[k].current].active
         && ChainOf(masters, source)[k].current != source
  }

  predicate ChainsAccepted(masters: Masters) {
    forall s :: s in masters ==> !Unresolved(masters, s) && !CrossesInactive(masters, s)
  }

  // ---------------------------------------------------------------- reference definition

  /** The master reached by following exactly k redirects. */
  function Hop(masters: Masters, source: int, k: nat): Option<int> {
    if k == 0 then Some(source)
    else
      var m := Hop(masters, source, k - 1);
      if m.Some? && m.value in masters then masters[m.value].redirect else None
  }

  /** `target` is where the redirects of `source` stop, with every master on the way active. */
  ghost predicate LeadsTo(masters: Masters, source: int, k: nat, target: int) {
    && Hop(masters, source, k) == Some(target)
    && target in masters && masters[target].redirect.None?
    && forall j :: 1 <= j <= k ==> Hop(masters, source, j).Some? && Hop(masters, source, j).value in masters
                                   && masters[Hop(masters, source, j).value].active
  }

  /** Row j of a chain stands on the master j hops away and remembers the whole way there. */
  ghost predicate OnTrack(masters: Masters, source: int, row: Row) {
    && |row.path| > 0 && row.source == source && source in masters
    && row.current in masters && row.next == masters[row.current].redirect
    && Hop(masters, source, |row.path| - 1) == Some(row.current)
    && row.path[|row.path| - 1] == row.current
    && (forall j :: 0 <= j < |row.path| ==> Hop(masters, source, j) == Some(row.path[j]))
    && (row.cycle <==> row.current in row.path[..|row.path| - 1])
  }

  lemma NextOnTrack(masters: Masters, source: int, row: Row)
    requires OnTrack(masters, source, row) && Next(masters, row).Some?
    ensures OnTrack(masters, source, Next(masters, row).value)
  {
    var r := Next(masters, row).value;
    assert r.path[..|r.path| - 1] == row.path;
  }

  lemma {:induction false} ChainOnTrack(masters: Masters, source: int, row: Row)
    requires OnTrack(masters, source, row)
    ensures var chain := Chain(masters, row);
      && (forall k :: 0 <= k < |chain| ==> OnTrack(masters, source, chain[k]) && |chain[k].path| == |row.path| + k)
      && Next(masters, chain[|chain| - 1]).None?
    decreases if row.cycle then 0 else 1 + |Unvisited(masters, row.path)|
  {
    if Next(masters, row).Some? {
      NextOnTrack(masters, source, row);
      NextIsFresh(masters, row);
      ChainOnTrack(masters, source, Next(masters, row).value);
    }
  }

  /** What the rows of a chain say, for any list of rows that stay on track. */
  lemma RowFacts(masters: Masters, source: int, chain: seq<Row>)
    requires chain != [] && forall k :: 0 <= k < |chain| ==> OnTrack(masters, source, chain[k]) && |chain[k].path| == k + 1
    ensures forall k :: 0 <= k < |chain| ==> Hop(masters, source, k) == Some(chain[k].current) && chain[k].current in masters
    ensures var last := chain[|chain| - 1]; last.cycle ==> exists i :: 0 <= i < |chain| - 1 && chain[i].current == last.current
  {
    var last := chain[|chain| - 1];
    assert OnTrack(masters, source, last);
    if last.cycle {
      var i :| 0 <= i < |chain| - 1 && last.path[i] == last.current;
      assert Hop(masters, source, i) == Some(last.path[i]);
      assert OnTrack(masters, source, chain[i]) && chain[i].current == last.current;
    }
  }

  /** Row k of a chain is the master k hops away; only the last row can be terminal, and unless the
      last row closes a cycle it is terminal. */
  lemma ChainFacts(masters: Masters, source: int)
    requires source in masters && Referential(masters)
    ensures var chain := ChainOf(masters, source); var last := chain[|chain| - 1];
      && (forall k :: 0 <= k < |chain| ==> Hop(masters, source, k) == Some(chain[k].current) && chain[k].current in masters)
      && (forall k :: 0 <= k < |chain| - 1 ==> !Terminal(chain[k]))
      && last.next == masters[last.current].redirect
      && (last.cycle || last.next.None?)
      && (last.cycle ==> exists i :: 0 <= i < |chain| - 1 && chain[i].current == last.current)
  {
    SeedOnTrack(masters, source);
    var chain := ChainOf(masters, source);
    NoEarlierTerminal(masters, Seed(masters, source));
    RowFacts(masters, source, chain);
    LastRow(masters, source, chain[|chain| - 1]);
  }

  lemma SeedOnTrack(masters: Masters, source: int)
    requires source in masters
    ensures var chain := ChainOf(masters, source);
      && (forall k :: 0 <= k < |chain| ==> OnTrack(masters, source, chain[k]) && |chain[k].path| == k + 1)
      && Next(masters, chain[|chain| - 1]).None?
  {
    assert OnTrack(masters, source, Seed(masters, source));
    ChainOnTrack(masters, source, Seed(masters, source));
  }

  /** The recursion stops at the end of a chain or in a cycle. */
  lemma LastRow(masters: Masters, source: int, last: Row)
    requires Referential(masters) && OnTrack(masters, source, last) && Next(masters, last).None?
    ensures last.next == masters[last.current].redirect && (last.cycle || last.next.None?)
  {}

  lemma {:induction false} NoEarlierTerminal(masters: Masters, row: Row)
    ensures forall k :: 0 <= k < |Chain(masters, row)| - 1 ==> !Terminal(Chain(masters, row)[k])
    decreases if row.cycle then 0 else 1 + |Unvisited(masters, row.path)|
  {
    if Next(masters, row).Some? {
      NextIsFresh(masters, row);
      NoEarlierTerminal(masters, Next(masters, row).value);
    }
  }

  /** Equal positions have equal futures. */
  lemma {:induction false} HopShift(masters: Masters, source: int, i: nat, j: nat, d: nat)
    requires Hop(masters, source, i) == Hop(masters, source, j)
    ensures Hop(masters, source, i + d) == Hop(masters, source, j + d)
  {
    if d > 0 { HopShift(masters, source, i, j, d - 1); }
  }

  lemma {:induction false} HopPrefix(masters: Masters, source: int, j: nat, k: nat)
    requires j <= k && Hop(masters, source, k).Some?
    ensures Hop(masters, source, j).Some?
    decreases k - j
  {
    if j < k { HopPrefix(masters, source, j + 1, k); }
  }

  /** A chain that ends never visits a master twice: a repeat would bring the end forward. */
  lemma EndsWithoutRepeats(masters: Masters, source: int, k: nat, i: nat, j: nat)
    requires Hop(masters, source, k).Some? && Hop(masters, source, k).value in masters
    requires masters[Hop(masters, source, k).value].redirect.None?
    requires i < j <= k
    ensures Hop(masters, source, i) != Hop(masters, source, j)
  {
    if Hop(masters, source, i) == Hop(masters, source, j) {
      HopShift(masters, source, i, j, k - j);
      HopPrefix(masters, source, k - j + i + 1, k);
    }
  }

  /** The chain has a row for every hop up to the end, and the end is its terminal row. */
  lemma ReachesEnd(masters: Masters, source: int, k: nat)
    requires source in masters && Hop(masters, source, k).Some? && Hop(masters, source, k).value in masters
    requires masters[Hop(masters, source, k).value].redirect.None?
    requires Referential(masters)
    ensures |ChainOf(masters, source)| == k + 1 && Target(masters, source) == Hop(masters, source, k)
  {
    var chain := ChainOf(masters, source);
    ChainFacts(masters, source);
    var n := |chain| - 1;
    if n > k {
      HopPrefix(masters, source, k + 1, n);
    } else if chain[n].cycle {
      var i :| 0 <= i < n && chain[i].current == chain[n].current;
      EndsWithoutRepeats(masters, source, k, i, n);
    } else if n < k {
      HopPrefix(masters, source, n + 1, k);
    }
  }

  // ---------------------------------------------------------------- main results

  /** The repair's two checks pass exactly when every redirect leads, over active masters, to an end. */
  lemma AcceptedIffEveryRedirectEnds(masters: Masters)
    requires Referential(masters)
    ensures ChainsAccepted(masters) <==>
      forall s :: Redirects(masters, s) ==> exists k: nat, t :: LeadsTo(masters, s, k, t)
  {
    if ChainsAccepted(masters) {
      forall s | Redirects(masters, s) ensures exists k: nat, t :: LeadsTo(masters, s, k, t) {
        AcceptedLeads(masters, s);
      }
    }
    if forall s :: Redirects(masters, s) ==> exists k: nat, t :: LeadsTo(masters, s, k, t) {
      forall s | s in masters ensures !Unresolved(masters, s) && !CrossesInactive(masters, s) {
        if Redirects(masters, s) {
          LeadingIsAccepted(masters, s);
        }
      }
    }
  }

  lemma LeadingIsAccepted(masters: Masters, source: int)
    requires Referential(masters) && Redirects(masters, source)
    requires exists k: nat, t :: LeadsTo(masters, source, k, t)
    ensures !Unresolved(masters, source) && !CrossesInactive(masters, source)
  {
    var k: nat, t :| LeadsTo(masters, source, k, t);
    ReachesEnd(masters, source, k);
    ChainFacts(masters, source);
    assert k >= 1;
  }

  /** An accepted source has one target, reached over active masters; it is active and an end itself. */
  lemma AcceptedLeads(masters: Masters, source: int)
    requires Referential(masters) && ChainsAccepted(masters) && Redirects(masters, source)
    ensures source in RedirectMap(masters)
    ensures var t := RedirectMap(masters)[source];
      && LeadsTo(masters, source, |ChainOf(masters, source)| - 1, t)
      && masters[t].active && !Redirects(masters, t) && t != source
  {
    var chain := ChainOf(masters, source);
    ChainFacts(masters, source);
    assert !Unresolved(masters, source) && !CrossesInactive(masters, source);
    forall j | 1 <= j <= |chain| - 1
      ensures masters[chain[j].current].active
    {
      EndsWithoutRepeats(masters, source, |chain| - 1, 0, j);
    }
    EndsWithoutRepeats(masters, source, |chain| - 1, 0, |chain| - 1);
  }

  /** The end of a source's redirects does not depend on how it is found. */
  lemma TargetUnique(masters: Masters, source: int, k: nat, t: int)
    requires Referential(masters) && Redirects(masters, source) && LeadsTo(masters, source, k, t)
    ensures RedirectMap(masters).Keys >= {source} && RedirectMap(masters)[source] == t
  {
    ReachesEnd(masters, source, k);
  }

  /** The calendar a master's future rows belong to after the repair. */
  function Effective(redirects: map<int, int>, m: int): int {
    if m in redirects then redirects[m] else m
  }

  /** Mapping twice is mapping once. */
  lemma EffectiveIdempotent(masters: Masters, m: int)
    requires Referential(masters) && ChainsAccepted(masters)
    ensures var e := Effective(RedirectMap(masters), m); Effective(RedirectMap(masters), e) == e
  {
    if m in RedirectMap(masters) { AcceptedLeads(masters, m); }
  }
}
