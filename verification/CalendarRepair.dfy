/**
 The redirect calendar repair as a whole: the checks on the stable snapshot, then the sequence of
 UPDATE, DELETE and INSERT statements that rewrites bookings, items, waitlist offers, time blocks
 and availability windows.
 */
module CalendarRepair {
  import opened Prelude
  import opened RedirectChains
  import opened ServiceSubstitution
  import opened AvailabilityUnion

  datatype Booking = Booking(master: int, service: int, confirmed: bool, start: int, end: int, redirectedFrom: Option<int>)

  datatype Item = Item(booking: int, service: int)

  datatype OfferStatus = Pending | Sent | Delivered | Closed

  datatype Offer = Offer(request: int, master: int, start: int, end: int, expires: int, status: OfferStatus, source: Option<int>)

  datatype Block = Block(master: int, start: int, end: int, reason: string)

  datatype Window = Window(master: int, span: Span)

  datatype Calendar = Calendar(
    masters: Masters, services: Services, bookings: map<int, Booking>, items: map<int, Item>,
    offers: map<int, Offer>, blocks: map<int, Block>, windows: seq<Window>)

  function RedirectsOf(c: Calendar): map<int, int> { RedirectMap(c.masters) }

  // ---------------------------------------------------------------- bookings and items

  predicate Live(b: Booking, now: int) { b.confirmed && b.end > now }

  /** A future confirmed booking on a redirecting master. */
  predicate Moving(c: Calendar, now: int, id: int) {
    id in c.bookings && Live(c.bookings[id], now) && c.bookings[id].master in RedirectsOf(c)
  }

  function TargetOf(c: Calendar, now: int, id: int): int
    requires Moving(c, now, id)
  {
    RedirectsOf(c)[c.bookings[id].master]
  }

  /** The booking's own service together with its items' services. */
  function Selected(c: Calendar, id: int): set<int>
    requires id in c.bookings
  {
    {c.bookings[id].service} + set i | i in c.items && c.items[i].booking == id :: c.items[i].service
  }

  predicate Collide(a: Booking, b: Booking) { a.start < b.end && b.start < a.end }

  predicate ServicesAccepted(c: Calendar, now: int) {
    forall id :: id in c.bookings && Moving(c, now, id) ==>
      Accepted(c.services, TargetOf(c, now, id), Selected(c, id))
  }

  /** No moving booking meets another live booking of its target calendar. */
  predicate BookingsAccepted(c: Calendar, now: int) {
    forall m, o :: m in c.bookings && o in c.bookings && Moving(c, now, m) && o != m && Live(c.bookings[o], now) ==>
      !(Effective(RedirectsOf(c), c.bookings[o].master) == TargetOf(c, now, m) && Collide(c.bookings[m], c.bookings[o]))
  }

  function MovedItem(c: Calendar, now: int, i: int): Item
    requires ServicesAccepted(c, now) && i in c.items
  {
    var item := c.items[i];
    if Moving(c, now, item.booking) && item.service in Selected(c, item.booking)
    then item.(service := Substitute(c.services, TargetOf(c, now, item.booking), item.service))
    else item
  }

  function MovedItems(c: Calendar, now: int): map<int, Item>
    requires ServicesAccepted(c, now)
  {
    map i | i in c.items :: MovedItem(c, now, i)
  }

  function MovedBooking(c: Calendar, now: int, id: int): Booking
    requires ServicesAccepted(c, now) && id in c.bookings
  {
    var b := c.bookings[id];
    if Moving(c, now, id) then
      b.(master := TargetOf(c, now, id), service := Substitute(c.services, TargetOf(c, now, id), b.service),
         redirectedFrom := if b.redirectedFrom.Some? then b.redirectedFrom else Some(b.master))
    else b
  }

  function MovedBookings(c: Calendar, now: int): map<int, Booking>
    requires ServicesAccepted(c, now)
  {
    map id | id in c.bookings :: MovedBooking(c, now, id)
  }

  // ---------------------------------------------------------------- waitlist offers

  predicate OpenOffer(o: Offer, now: int) { o.status != Closed && o.end > now }

  /** A sent or delivered offer that still reserves its slot. */
  predicate Hold(o: Offer, now: int) { (o.status == Sent || o.status == Delivered) && o.end > now && o.expires > now }

  function MovedOffer(c: Calendar, now: int, o: Offer): Offer {
    if OpenOffer(o, now) && o.master in RedirectsOf(c)
    then o.(master := RedirectsOf(c)[o.master], source := if o.source.Some? then o.source else Some(o.master))
    else o
  }

  function MovedOffers(c: Calendar, now: int): map<int, Offer> {
    map k | k in c.offers :: MovedOffer(c, now, c.offers[k])
  }

  predicate Affected(c: Calendar, m: int) { m in RedirectsOf(c) || m in RedirectsOf(c).Values }

  predicate OffersAccepted(c: Calendar, now: int)
    requires ServicesAccepted(c, now)
  {
    && (forall j, k :: j in c.offers && k in c.offers && j != k ==>
          var a, b := MovedOffer(c, now, c.offers[j]), MovedOffer(c, now, c.offers[k]);
          !(a.request == b.request && a.master == b.master && a.start == b.start))
    && (forall k, id :: k in c.offers && id in c.bookings && Hold(c.offers[k], now) && Affected(c, c.offers[k].master) ==>
          var b := MovedBooking(c, now, id);
          !(b.master == Effective(RedirectsOf(c), c.offers[k].master) && b.confirmed
            && b.start < c.offers[k].end && c.offers[k].start < b.end))
    && (forall j, k :: j in c.offers && k in c.offers && j != k && Hold(c.offers[j], now) && Hold(c.offers[k], now) ==>
          !(c.offers[j].master in RedirectsOf(c)
            && Effective(RedirectsOf(c), c.offers[k].master) == Effective(RedirectsOf(c), c.offers[j].master)
            && c.offers[k].start < c.offers[j].end && c.offers[j].start < c.offers[k].end))
  }

  // ---------------------------------------------------------------- time blocks

  function MovedBlock(c: Calendar, now: int, b: Block): Block {
    if b.end > now && b.master in RedirectsOf(c) then b.(master := RedirectsOf(c)[b.master]) else b
  }

  function MovedBlocks(c: Calendar, now: int): map<int, Block> {
    map k | k in c.blocks :: MovedBlock(c, now, c.blocks[k])
  }

  /** row_number() > 1 within equal (master, start, end, reason), ordered by id. */
  predicate Duplicate(blocks: map<int, Block>, targets: set<int>, now: int, k: int) {
    && k in blocks && blocks[k].end > now && blocks[k].master in targets
    && exists j :: j in blocks && j < k && blocks[j] == blocks[k]
  }

  function Deduplicated(blocks: map<int, Block>, targets: set<int>, now: int): map<int, Block> {
    map k | k in blocks && !Duplicate(blocks, targets, now, k) :: blocks[k]
  }

  // ---------------------------------------------------------------- availability windows

  /** The mapped CTE for one target: the future windows of every master that resolves to it. */
  function Mapped(windows: seq<Window>, redirects: map<int, int>, now: int, target: int): seq<Span> {
    if |windows| == 0 then []
    else
      Mapped(windows[..|windows| - 1], redirects, now, target)
      + var w := windows[|windows| - 1];
        if w.span.end > now && Effective(redirects, w.master) == target then [w.span] else []
  }

  /** The DELETE: every future window of a source or target calendar goes. */
  function Kept(windows: seq<Window>, redirects: map<int, int>, now: int): seq<Window> {
    if |windows| == 0 then []
    else
      Kept(windows[..|windows| - 1], redirects, now)
      + var w := windows[|windows| - 1];
        if w.span.end > now && (w.master in redirects || w.master in redirects.Values) then [] else [w]
  }

  /** The INSERT: exactly the merged windows of every target, each once. */
  ghost predicate Inserted(rows: seq<Window>, windows: seq<Window>, redirects: map<int, int>, now: int) {
    && Distinct(rows)
    && forall w :: w in rows <==>
         w.master in redirects.Values && w.span in Merge(Mapped(windows, redirects, now, w.master))
  }

  // ---------------------------------------------------------------- the whole repair

  /** The repair commits exactly when none of its checks raises. */
  predicate RepairAccepted(c: Calendar, now: int) {
    && ChainsAccepted(c.masters) && ServicesAccepted(c, now)
    && BookingsAccepted(c, now) && OffersAccepted(c, now)
  }

  ghost predicate Repaired(c: Calendar, now: int, d: Calendar)
    requires RepairAccepted(c, now)
  {
    && d.masters == c.masters && d.services == c.services
    && d.bookings == MovedBookings(c, now) && d.items == MovedItems(c, now) && d.offers == MovedOffers(c, now)
    && d.blocks == Deduplicated(MovedBlocks(c, now), RedirectsOf(c).Values, now)
    && |Kept(c.windows, RedirectsOf(c), now)| <= |d.windows|
    && d.windows[..|Kept(c.windows, RedirectsOf(c), now)|] == Kept(c.windows, RedirectsOf(c), now)
    && Inserted(d.windows[|Kept(c.windows, RedirectsOf(c), now)|..], c.windows, RedirectsOf(c), now)
  }

  // ---------------------------------------------------------------- main results

  /**
   Bookings: two live bookings that collide on one calendar after the repair did so before it, on
   that same calendar, and neither was moved.
   */
  lemma NoNewCollision(c: Calendar, now: int, i: int, j: int)
    requires RepairAccepted(c, now) && i in c.bookings && j in c.bookings && i != j
    requires var a, b := MovedBooking(c, now, i), MovedBooking(c, now, j);
      Live(a, now) && Live(b, now) && a.master == b.master && Collide(a, b)
    ensures !Moving(c, now, i) && !Moving(c, now, j)
    ensures c.bookings[i].master == c.bookings[j].master && Collide(c.bookings[i], c.bookings[j])
  {}

  ghost predicate PairwiseDisjoint(bookings: map<int, Booking>, now: int) {
    forall i, j :: i in bookings && j in bookings && i != j && Live(bookings[i], now) && Live(bookings[j], now) ==>
      !(bookings[i].master == bookings[j].master && Collide(bookings[i], bookings[j]))
  }

  /** Calendars without double bookings stay without them. */
  lemma DisjointnessPreserved(c: Calendar, now: int)
    requires RepairAccepted(c, now) && PairwiseDisjoint(c.bookings, now)
    ensures PairwiseDisjoint(MovedBookings(c, now), now)
  {
    var moved := MovedBookings(c, now);
    forall i, j | i in moved && j in moved && i != j && Live(moved[i], now) && Live(moved[j], now)
      ensures !(moved[i].master == moved[j].master && Collide(moved[i], moved[j]))
    {
      if moved[i].master == moved[j].master && Collide(moved[i], moved[j]) { NoNewCollision(c, now, i, j); }
    }
  }

  /** A live booking that no redirect moves. */
  predicate Stays(c: Calendar, now: int, id: int) {
    id in c.bookings && Live(c.bookings[id], now) && !Moving(c, now, id)
  }

  ghost predicate StayersDisjoint(c: Calendar, now: int) {
    forall i, j :: Stays(c, now, i) && Stays(c, now, j) && i != j ==>
      !(c.bookings[i].master == c.bookings[j].master && Collide(c.bookings[i], c.bookings[j]))
  }

  /** A live booking ends up on its effective calendar, at its old times. */
  lemma MovedToEffective(c: Calendar, now: int, id: int)
    requires ServicesAccepted(c, now) && id in c.bookings && Live(c.bookings[id], now)
    ensures var b := MovedBooking(c, now, id);
      && b.master == Effective(RedirectsOf(c), c.bookings[id].master) && Live(b, now)
      && b.start == c.bookings[id].start && b.end == c.bookings[id].end
  {}

  /**
   The conflict check is exact: the moved calendars are free of double bookings if and only if the
   check passes and the bookings that stay are free of them already. It aborts no repair that could
   have been made and lets none pass that could not.
   */
  lemma ConflictCheckExact(c: Calendar, now: int)
    requires ServicesAccepted(c, now)
    ensures PairwiseDisjoint(MovedBookings(c, now), now) <==> BookingsAccepted(c, now) && StayersDisjoint(c, now)
  {
    var moved := MovedBookings(c, now);
    forall i | i in c.bookings && Live(c.bookings[i], now)
      ensures i in moved && Live(moved[i], now) && moved[i].start == c.bookings[i].start && moved[i].end == c.bookings[i].end
      ensures moved[i].master == Effective(RedirectsOf(c), c.bookings[i].master)
    {
      MovedToEffective(c, now, i);
    }
    if PairwiseDisjoint(moved, now) {
      CheckPasses(c, now);
    } else {
      var i, j :| i in moved && j in moved && i != j && Live(moved[i], now) && Live(moved[j], now)
                  && moved[i].master == moved[j].master && Collide(moved[i], moved[j]);
      CheckFails(c, now, i, j);
    }
  }

  lemma CheckPasses(c: Calendar, now: int)
    requires ServicesAccepted(c, now) && PairwiseDisjoint(MovedBookings(c, now), now)
    ensures BookingsAccepted(c, now) && StayersDisjoint(c, now)
  {
    var moved := MovedBookings(c, now);
    forall i, j | i in c.bookings && j in c.bookings && i != j && Live(c.bookings[i], now) && Live(c.bookings[j], now)
      && Effective(RedirectsOf(c), c.bookings[i].master) == Effective(RedirectsOf(c), c.bookings[j].master)
      ensures !Collide(c.bookings[i], c.bookings[j])
    {
      MovedToEffective(c, now, i);
      MovedToEffective(c, now, j);
      assert i in moved && j in moved && !(moved[i].master == moved[j].master && Collide(moved[i], moved[j]));
    }
  }

  lemma CheckFails(c: Calendar, now: int, i: int, j: int)
    requires ServicesAccepted(c, now) && i in c.bookings && j in c.bookings && i != j
    requires var a, b := MovedBooking(c, now, i), MovedBooking(c, now, j);
      Live(a, now) && Live(b, now) && a.master == b.master && Collide(a, b)
    ensures !(BookingsAccepted(c, now) && StayersDisjoint(c, now))
  {
    MovedToEffective(c, now, i);
    MovedToEffective(c, now, j);
    assert Moving(c, now, i) ==> TargetOf(c, now, i) == Effective(RedirectsOf(c), c.bookings[i].master);
    assert Moving(c, now, j) ==> TargetOf(c, now, j) == Effective(RedirectsOf(c), c.bookings[j].master);
  }

  /** The unique index over (booking, service). */
  ghost predicate ItemsUnique(items: map<int, Item>) {
    forall i, j :: i in items && j in items && i != j ==> items[i] != items[j]
  }

  /**
   Services of a moved booking: all of them become active services of the target, equal before means
   equal after and different means different, and the item rows keep their unique index.
   */
  lemma ServicesSubstituted(c: Calendar, now: int)
    requires RepairAccepted(c, now) && ItemsUnique(c.items)
    ensures ItemsUnique(MovedItems(c, now))
    ensures forall i :: i in c.items && Moving(c, now, c.items[i].booking) ==>
      var id := c.items[i].booking; var s := MovedItems(c, now)[i].service;
      && MovedItems(c, now)[i].booking == id && s in c.services && c.services[s].active
      && c.services[s].master == MovedBookings(c, now)[id].master
      && (s == MovedBookings(c, now)[id].service <==> c.items[i].service == c.bookings[id].service)
    ensures forall id :: id in c.bookings && Moving(c, now, id) ==>
      var s := MovedBookings(c, now)[id].service;
      s in c.services && c.services[s].active && c.services[s].master == MovedBookings(c, now)[id].master
  {
    forall id | id in c.bookings && Moving(c, now, id)
      ensures var s := MovedBookings(c, now)[id].service;
        s in c.services && c.services[s].active && c.services[s].master == MovedBookings(c, now)[id].master
    {
      assert c.bookings[id].service in Selected(c, id);
      SubstituteActive(c.services, TargetOf(c, now, id), c.bookings[id].service);
    }
    forall i | i in c.items && Moving(c, now, c.items[i].booking)
      ensures c.items[i].service in Selected(c, c.items[i].booking)
      ensures var s := MovedItems(c, now)[i].service;
        s in c.services && c.services[s].active && c.services[s].master == TargetOf(c, now, c.items[i].booking)
    {
      SubstituteActive(c.services, TargetOf(c, now, c.items[i].booking), c.items[i].service);
    }
    forall i, j | i in c.items && j in c.items && i != j ensures MovedItems(c, now)[i] != MovedItems(c, now)[j] {
      assert c.items[i] != c.items[j];
    }
  }

  /**
   Waitlist offers after the repair: one per request, calendar and start; no hold on a source or
   target calendar meets a confirmed booking; and two holds that meet were already on that calendar.
   */
  lemma OffersConflictFree(c: Calendar, now: int)
    requires RepairAccepted(c, now)
    ensures var offers, bookings := MovedOffers(c, now), MovedBookings(c, now);
      && (forall j, k :: j in offers && k in offers && j != k ==>
            !(offers[j].request == offers[k].request && offers[j].master == offers[k].master && offers[j].start == offers[k].start))
      && (forall k, id :: k in offers && id in bookings && Hold(offers[k], now) && Affected(c, offers[k].master) ==>
            !(bookings[id].confirmed && bookings[id].master == offers[k].master
              && bookings[id].start < offers[k].end && offers[k].start < bookings[id].end))
      && (forall j, k :: j in offers && k in offers && j != k && Hold(offers[j], now) && Hold(offers[k], now) ==>
            !(offers[j].master == offers[k].master && offers[j].start < offers[k].end && offers[k].start < offers[j].end)
            || (offers[j] == c.offers[j] && offers[k] == c.offers[k]))
  {
    var offers := MovedOffers(c, now);
    forall k | k in offers && Hold(offers[k], now)
      ensures Hold(c.offers[k], now) && offers[k].master == Effective(RedirectsOf(c), c.offers[k].master)
      ensures Affected(c, offers[k].master) ==> Affected(c, c.offers[k].master)
    {}
  }

  ghost predicate Blocked(blocks: map<int, Block>, m: int, now: int, t: int) {
    exists k :: k in blocks && blocks[k].master == m && blocks[k].end > now && blocks[k].start <= t < blocks[k].end
  }

  /** Future blocked time moves to the effective calendar, whole, and without duplicate rows. */
  lemma BlocksFollow(c: Calendar, now: int, m: int, t: int)
    requires RepairAccepted(c, now) && Referential(c.masters)
    ensures var after := Deduplicated(MovedBlocks(c, now), RedirectsOf(c).Values, now);
      && (Blocked(after, m, now, t) <==> exists s :: Effective(RedirectsOf(c), s) == m && Blocked(c.blocks, s, now, t))
      && (forall j, k :: j in after && k in after && j < k && after[k].end > now && after[k].master in RedirectsOf(c).Values ==>
            after[j] != after[k])
  {
    var moved := MovedBlocks(c, now);
    var after := Deduplicated(moved, RedirectsOf(c).Values, now);
    if Blocked(after, m, now, t) {
      var k :| k in after && after[k].master == m && after[k].end > now && after[k].start <= t < after[k].end;
      assert Blocked(c.blocks, c.blocks[k].master, now, t);
    }
    if s :| Effective(RedirectsOf(c), s) == m && Blocked(c.blocks, s, now, t) {
      var k :| k in c.blocks && c.blocks[k].master == s && c.blocks[k].end > now && c.blocks[k].start <= t < c.blocks[k].end;
      var j := LeastCopy(moved, k);
      assert j in after && after[j] == moved[k];
    }
  }

  /** Of the rows equal to row k, the one with the least id is not a duplicate. */
  lemma LeastCopy(blocks: map<int, Block>, k: int) returns (j: int)
    requires k in blocks
    ensures j in blocks && blocks[j] == blocks[k] && forall i :: i in blocks && i < j ==> blocks[i] != blocks[k]
  {
    j := k;
    var smaller := set i | i in blocks && i < j;
    while exists i :: i in smaller && blocks[i] == blocks[k]
      invariant j in blocks && blocks[j] == blocks[k] && smaller == set i | i in blocks && i < j
      decreases smaller
    {
      j :| j in smaller && blocks[j] == blocks[k];
      assert j in smaller && j !in (set i | i in blocks && i < j);
      smaller := set i | i in blocks && i < j;
    }
  }

  /** Moment t is open on calendar m by a window that had not ended. */
  ghost predicate Open(windows: seq<Window>, m: int, now: int, t: int) {
    exists i :: 0 <= i < |windows| && windows[i].master == m && windows[i].span.end > now && Covers(windows[i].span, t)
  }

  lemma {:induction false} MappedSpans(windows: seq<Window>, redirects: map<int, int>, now: int, target: int, s: Span)
    ensures s in Mapped(windows, redirects, now, target) <==>
      exists i :: 0 <= i < |windows| && windows[i].span == s && s.end > now && Effective(redirects, windows[i].master) == target
  {
    if |windows| > 0 {
      MappedSpans(windows[..|windows| - 1], redirects, now, target, s);
      assert windows == windows[..|windows| - 1] + [windows[|windows| - 1]];
    }
  }

  lemma {:induction false} KeptWindows(windows: seq<Window>, redirects: map<int, int>, now: int, w: Window)
    ensures w in Kept(windows, redirects, now) <==>
      w in windows && !(w.span.end > now && (w.master in redirects || w.master in redirects.Values))
  {
    if |windows| > 0 {
      KeptWindows(windows[..|windows| - 1], redirects, now, w);
      assert windows == windows[..|windows| - 1] + [windows[|windows| - 1]];
    }
  }

  /** What a merged window of calendar m opens was open on some master that resolves to m. */
  lemma MergedOpens(windows: seq<Window>, redirects: map<int, int>, now: int, m: int, span: Span, t: int)
    requires span in Merge(Mapped(windows, redirects, now, m)) && Covers(span, t)
    ensures exists s :: Effective(redirects, s) == m && Open(windows, s, now, t)
  {
    var rows := Mapped(windows, redirects, now, m);
    MergePreservesCoverage(rows, t);
    var k :| 0 <= k < |rows| && Covers(rows[k], t);
    MappedSpans(windows, redirects, now, m, rows[k]);
    var i :| 0 <= i < |windows| && windows[i].span == rows[k] && rows[k].end > now && Effective(redirects, windows[i].master) == m;
    assert Open(windows, windows[i].master, now, t);
  }

  lemma MergedEndsLate(windows: seq<Window>, redirects: map<int, int>, now: int, m: int, span: Span)
    requires span in Merge(Mapped(windows, redirects, now, m))
    ensures span.end > now
  {
    var rows := Mapped(windows, redirects, now, m);
    MergedEndsWithRow(rows, span);
    var k :| 0 <= k < |rows| && rows[k].end == span.end;
    MappedSpans(windows, redirects, now, m, rows[k]);
  }

  /** A window after the repair opens nothing new. */
  lemma OpensNothingNew(c: Calendar, now: int, d: Calendar, m: int, t: int)
    requires RepairAccepted(c, now) && Repaired(c, now, d) && Referential(c.masters) && Open(d.windows, m, now, t)
    ensures exists s :: Effective(RedirectsOf(c), s) == m && Open(c.windows, s, now, t)
  {
    var redirects := RedirectsOf(c);
    var kept := Kept(c.windows, redirects, now);
    var i :| 0 <= i < |d.windows| && d.windows[i].master == m && d.windows[i].span.end > now && Covers(d.windows[i].span, t);
    if i < |kept| {
      assert d.windows[i] == kept[i];
      KeptWindows(c.windows, redirects, now, d.windows[i]);
      assert Open(c.windows, m, now, t) && Effective(redirects, m) == m;
    } else {
      assert d.windows[i] == d.windows[|kept|..][i - |kept|];
      MergedOpens(c.windows, redirects, now, m, d.windows[i].span, t);
    }
  }

  /** A target calendar gets a merged window over every moment that a mapped window covered. */
  lemma MergedCovers(windows: seq<Window>, redirects: map<int, int>, now: int, i: int, t: int) returns (span: Span)
    requires 0 <= i < |windows| && windows[i].span.end > now && Covers(windows[i].span, t)
    ensures span in Merge(Mapped(windows, redirects, now, Effective(redirects, windows[i].master)))
    ensures Covers(span, t) && span.end > now
  {
    var m := Effective(redirects, windows[i].master);
    MappedSpans(windows, redirects, now, m, windows[i].span);
    MergePreservesCoverage(Mapped(windows, redirects, now, m), t);
    span :| span in Merge(Mapped(windows, redirects, now, m)) && Covers(span, t);
    MergedEndsLate(windows, redirects, now, m, span);
  }

  lemma OpenByRow(windows: seq<Window>, m: int, span: Span, now: int, t: int)
    requires Window(m, span) in windows && span.end > now && Covers(span, t)
    ensures Open(windows, m, now, t)
  {
    var k :| 0 <= k < |windows| && windows[k] == Window(m, span);
  }

  /** A window before the repair stays open, on its effective calendar. */
  lemma StaysOpen(c: Calendar, now: int, d: Calendar, i: int, t: int)
    requires RepairAccepted(c, now) && Repaired(c, now, d)
    requires 0 <= i < |c.windows| && c.windows[i].span.end > now && Covers(c.windows[i].span, t)
    ensures Open(d.windows, Effective(RedirectsOf(c), c.windows[i].master), now, t)
  {
    var redirects := RedirectsOf(c);
    var kept := Kept(c.windows, redirects, now);
    var w, m := c.windows[i], Effective(redirects, c.windows[i].master);
    assert d.windows == kept + d.windows[|kept|..];
    if m in redirects.Values {
      var span := MergedCovers(c.windows, redirects, now, i, t);
      assert Window(m, span) in d.windows[|kept|..];
      OpenByRow(d.windows, m, span, now, t);
    } else {
      KeptWindows(c.windows, redirects, now, w);
      OpenByRow(d.windows, m, w.span, now, t);
    }
  }

  /**
   Availability: a moment is open on a calendar after the repair exactly when it was open before on
   some master that resolves to that calendar, and the future windows of a target calendar are
   strictly apart.
   */
  lemma AvailabilityPreserved(c: Calendar, now: int, d: Calendar, m: int, t: int)
    requires RepairAccepted(c, now) && Repaired(c, now, d) && Referential(c.masters)
    ensures Open(d.windows, m, now, t) <==>
      exists s :: Effective(RedirectsOf(c), s) == m && Open(c.windows, s, now, t)
  {
    if Open(d.windows, m, now, t) { OpensNothingNew(c, now, d, m, t); }
    if s :| Effective(RedirectsOf(c), s) == m && Open(c.windows, s, now, t) {
      var i :| 0 <= i < |c.windows| && c.windows[i].master == s && c.windows[i].span.end > now && Covers(c.windows[i].span, t);
      StaysOpen(c, now, d, i, t);
    }
  }

  /** Any two future windows of a target calendar are strictly apart after the repair. */
  lemma WindowsApart(c: Calendar, now: int, d: Calendar, i: int, j: int)
    requires RepairAccepted(c, now) && Repaired(c, now, d)
    requires 0 <= i < j < |d.windows| && d.windows[i].master == d.windows[j].master && d.windows[i].master in RedirectsOf(c).Values
    requires d.windows[i].span.end > now && d.windows[j].span.end > now
    ensures d.windows[i].span.end < d.windows[j].span.start || d.windows[j].span.end < d.windows[i].span.start
  {
    var n := |Kept(c.windows, RedirectsOf(c), now)|;
    FutureIsInserted(c.windows, d.windows, RedirectsOf(c), now, i);
    FutureIsInserted(c.windows, d.windows, RedirectsOf(c), now, j);
    assert d.windows[n..][i - n] != d.windows[n..][j - n];
    MergedApart(Mapped(c.windows, RedirectsOf(c), now, d.windows[i].master), d.windows[i].span, d.windows[j].span);
  }

  /** An element that the prefix lacks lies behind it. */
  lemma BehindPrefix(w: seq<Window>, kept: seq<Window>, i: int)
    requires |kept| <= |w| && w[..|kept|] == kept && 0 <= i < |w| && w[i] !in kept
    ensures |kept| <= i && w[|kept|..][i - |kept|] == w[i] && w[i] in w[|kept|..]
  {
    assert forall k :: 0 <= k < |kept| ==> w[k] == kept[k] && kept[k] in kept;
  }

  lemma FutureIsInserted(windows: seq<Window>, after: seq<Window>, redirects: map<int, int>, now: int, i: int)
    requires var kept := Kept(windows, redirects, now);
      |kept| <= |after| && after[..|kept|] == kept && Inserted(after[|kept|..], windows, redirects, now)
    requires 0 <= i < |after| && after[i].master in redirects.Values && after[i].span.end > now
    ensures var n := |Kept(windows, redirects, now)|; n <= i && after[n..][i - n] == after[i]
    ensures after[i].span in Merge(Mapped(windows, redirects, now, after[i].master))
  {
    KeptWindows(windows, redirects, now, after[i]);
    BehindPrefix(after, Kept(windows, redirects, now), i);
  }

  // ---------------------------------------------------------------- the migration

  /** The tables of the migration, rewritten in place and restored when a check raises. */
  class CalendarDatabase {
    var masters: Masters
    var services: Services
    var bookings: map<int, Booking>
    var items: map<int, Item>
    var offers: map<int, Offer>
    var blocks: map<int, Block>
    var windows: seq<Window>

    function View(): Calendar reads this { Calendar(masters, services, bookings, items, offers, blocks, windows) }

    constructor (c: Calendar)
      ensures View() == c
    {
      masters, services, bookings, items := c.masters, c.services, c.bookings, c.items;
      offers, blocks, windows := c.offers, c.blocks, c.windows;
    }

    /**
     UPDATE booking_service_items. Rows are rewritten one by one in an unspecified order; the
     immediate unique index holds after every single row.
     */
    method MoveItems(now: int)
      requires ServicesAccepted(View(), now) && ItemsUnique(items)
      modifies this`items
      ensures items == MovedItems(old(View()), now) && ItemsUnique(items)
    {
      ghost var c := View();
      var before := items;
      var todo: set<int> := items.Keys;
      while exists i :: i in todo
        invariant todo <= items.Keys == before.Keys
        invariant forall i :: i in before ==> items[i] == if i in todo then before[i] else MovedItem(c, now, i)
        invariant ItemsUnique(items)
        decreases todo
      {
        var i :| i in todo;
        var id := before[i].booking;
        if id in bookings && Live(bookings[id], now) && bookings[id].master in RedirectMap(masters) {
          assert before[i].service in Selected(c, id);
          var target := RedirectMap(masters)[bookings[id].master];
          ItemStaysUnique(c, now, items, todo, i);
          items := items[i := before[i].(service := Substitute(services, target, before[i].service))];
        }
        todo := todo - {i};
      }
    }

    /** The union of availability windows: DELETE the affected future ones, INSERT the merged ones. */
    method UnionWindows(now: int)
      modifies this`windows
      ensures var redirects := RedirectMap(masters); var n := |Kept(old(windows), redirects, now)|;
        && n <= |windows| && windows[..n] == Kept(old(windows), redirects, now)
        && Inserted(windows[n..], old(windows), redirects, now)
    {
      var redirects := RedirectMap(masters);
      var rows: seq<Window> := [];
      var targets := redirects.Values;
      while targets != {}
        invariant targets <= redirects.Values && Distinct(rows)
        invariant forall w :: w in rows <==>
          w.master in redirects.Values - targets && w.span in Merge(Mapped(windows, redirects, now, w.master))
      {
        var m :| m in targets;
        ghost var earlier := rows;
        var merged := Merge(Mapped(windows, redirects, now, m));
        var spans := merged;
        while spans != {}
          invariant spans <= merged && Distinct(rows)
          invariant forall w :: w in rows <==> w in earlier || (w.master == m && w.span in merged - spans)
        {
          var s :| s in spans;
          rows := rows + [Window(m, s)];
          spans := spans - {s};
        }
        targets := targets - {m};
      }
      windows := Kept(windows, redirects, now) + rows;
    }

    method Upgrade(now: int) returns (committed: bool)
      requires ItemsUnique(items)
      modifies this
      ensures committed == RepairAccepted(old(View()), now)
      ensures committed ==> Repaired(old(View()), now, View())
      ensures !committed ==> View() == old(View())
    {
      if !ChainsAccepted(masters) || !ServicesAccepted(View(), now) || !BookingsAccepted(View(), now) {
        return false;
      }
      var c := View();
      MoveItems(now);
      bookings := MovedBookings(c, now);
      if !OffersAccepted(c, now) {
        items, bookings := c.items, c.bookings;
        return false;
      }
      offers := MovedOffers(c, now);
      blocks := MovedBlocks(c, now);
      blocks := Deduplicated(blocks, RedirectMap(masters).Values, now);
      UnionWindows(now);
      committed := true;
    }
  }

  /** Rewriting one more row of a partly rewritten table cannot meet another row. */
  lemma ItemStaysUnique(c: Calendar, now: int, items: map<int, Item>, todo: set<int>, i: int)
    requires ServicesAccepted(c, now) && ItemsUnique(c.items) && items.Keys == c.items.Keys
    requires forall k :: k in items ==> items[k] == if k in todo then c.items[k] else MovedItem(c, now, k)
    requires i in todo && i in items && Moving(c, now, c.items[i].booking) && ItemsUnique(items)
    ensures ItemsUnique(items[i := MovedItem(c, now, i)])
  {
    var id := c.items[i].booking;
    var target, selected := TargetOf(c, now, id), Selected(c, id);
    assert c.items[i].service in selected;
    forall k | k in items && k != i ensures items[k] != MovedItem(c, now, i) {
      if c.items[k].booking == id {
        assert c.items[k].service in selected && c.items[k] != c.items[i];
        if k in todo && c.items[k].service == Substitute(c.services, target, c.items[i].service) {
          NeverRemapped(c.services, target, selected, c.items[i].service);
        }
      }
    }
  }
}
