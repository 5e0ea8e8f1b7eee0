/**
 Service substitution for bookings that move to a redirect target: candidate services, the best
 priority, and the checks that make the substitution total and one-to-one before it is applied.
 */
module ServiceSubstitution {
  import opened Prelude

  /** `title` is the pair of trimmed, lower-cased Ukrainian and English titles. */
  datatype Service = Service(master: int, active: bool, base: Option<int>, title: (string, string), duration: int, price: int)

  type Services = map<int, Service>

  predicate Candidate(services: Services, target: int, was: int, n: int) {
    && was in services && n in services
    && var s, t := services[was], services[n];
    && t.master == target && t.active
    && (|| n == was
        || (s.base.Some? && t.base == s.base)
        || (s.base.None? && t.base.None? && t.title == s.title && t.duration == s.duration && t.price == s.price))
  }

  /** 0 for the service itself, 1 for a shared base service, 2 for an equal catalogue entry. */
  function Priority(services: Services, was: int, n: int): int
    requires was in services
  {
    if n == was then 0 else if services[was].base.Some? then 1 else 2
  }

  function Candidates(services: Services, target: int, was: int): set<int> {
    set n | n in services && Candidate(services, target, was, n)
  }

  /** The candidates at the least priority. */
  function Best(services: Services, target: int, was: int): set<int> {
    set n | n in services && Candidate(services, target, was, n)
            && forall k :: k in services && Candidate(services, target, was, k) ==>
                 Priority(services, was, n) <= Priority(services, was, k)
  }

  /** Neither abort fires: a candidate exists and the best priority has just one. */
  predicate Unambiguous(services: Services, target: int, was: int) {
    Candidates(services, target, was) != {} && |Best(services, target, was)| == 1
  }

  function Substitute(services: Services, target: int, was: int): int
    requires Unambiguous(services, target, was)
  {
    var best := Best(services, target, was);
    SoleElement(best);
    var n :| n in best; n
  }

  lemma SoleElement<T>(s: set<T>)
    requires |s| == 1
    ensures exists x :: x in s
    ensures forall x, y :: x in s && y in s ==> x == y
  {
    assert s != {};
    var x :| x in s;
    assert |s - {x}| == 0;
  }

  /** Every selected service has one target, and no two of them the same. */
  predicate Accepted(services: Services, target: int, selected: set<int>) {
    && (forall o :: o in selected ==> Unambiguous(services, target, o))
    && (forall o, p :: o in selected && p in selected && o != p ==>
          Substitute(services, target, o) != Substitute(services, target, p))
  }

  /** The substitute is an active service of the target. */
  lemma SubstituteActive(services: Services, target: int, was: int)
    requires Unambiguous(services, target, was)
    ensures var n := Substitute(services, target, was);
      n in services && services[n].active && services[n].master == target && Candidate(services, target, was, n)
  {}

  /** A service the target already offers is kept as it is. */
  lemma OwnServiceKept(services: Services, target: int, n: int)
    requires Unambiguous(services, target, n) && Candidate(services, target, n, n)
    ensures Substitute(services, target, n) == n
  {
    var best := Best(services, target, n);
    SoleElement(best);
    assert n in best;
  }

  /**
   Never a chain: when a substitute is itself one of the selected services, it was selected as
   itself. So no row can be remapped twice, in whatever order rows are rewritten.
   */
  lemma NeverRemapped(services: Services, target: int, selected: set<int>, o: int)
    requires Accepted(services, target, selected) && o in selected
    requires Substitute(services, target, o) in selected
    ensures Substitute(services, target, o) == o
  {
    var n := Substitute(services, target, o);
    SubstituteActive(services, target, o);
    OwnServiceKept(services, target, n);
  }
}
