/**
 Back-allocation of a booking's total to its service items: floor shares by catalogue price, and the
 remainder on the booking's last item. The table holds the items of all bookings in any order.
 */
module PriceAllocation {
  /** `price` is COALESCE(barber_services.price, 0). */
  datatype Item = Item(id: int, booking: int, position: int, price: int)

  /** A booking's subtotal_amount, where it is known. */
  type Subtotals = map<int, int>

  predicate UniqueIds(rows: seq<Item>) {
    forall i, j :: 0 <= i < j < |rows| ==> rows[i].id != rows[j].id
  }

  /** ORDER BY position, id. */
  predicate Less(a: Item, b: Item) {
    a.position < b.position || (a.position == b.position && a.id < b.id)
  }

  /** The partition of booking b, as row indexes. */
  function Partition(rows: seq<Item>, b: int): set<int> {
    set i | 0 <= i < |rows| && rows[i].booking == b
  }

  function ItemCount(rows: seq<Item>, b: int): nat { |Partition(rows, b)| }

  /** row_number() within the booking. */
  function ItemNumber(rows: seq<Item>, i: int): nat
    requires 0 <= i < |rows|
  {
    1 + |set j | j in Partition(rows, rows[i].booking) && Less(rows[j], rows[i])|
  }

  /** Sum of f over the rows of booking b among the first n. */
  function SumOver(rows: seq<Item>, b: int, f: int -> int, n: nat): int
    requires n <= |rows|
  {
    if n == 0 then 0 else SumOver(rows, b, f, n - 1) + if rows[n - 1].booking == b then f(n - 1) else 0
  }

  function CatalogTotal(rows: seq<Item>, b: int): int {
    SumOver(rows, b, Catalog(rows), |rows|)
  }

  function Catalog(rows: seq<Item>): int -> int {
    i => if 0 <= i < |rows| then rows[i].price else 0
  }

  function TargetTotal(rows: seq<Item>, subtotals: Subtotals, b: int): int {
    if b in subtotals then subtotals[b] else CatalogTotal(rows, b)
  }

  function Allocated(rows: seq<Item>, subtotals: Subtotals, i: int): int {
    if !(0 <= i < |rows|) then 0
    else
      var b := rows[i].booking;
      var target, catalog, count := TargetTotal(rows, subtotals, b), CatalogTotal(rows, b), ItemCount(rows, b);
      if count <= 1 then target
      else if catalog > 0 then target * rows[i].price / catalog
      else target / count
  }

  function AllocatedTotal(rows: seq<Item>, subtotals: Subtotals, b: int): int {
    SumOver(rows, b, i => Allocated(rows, subtotals, i), |rows|)
  }

  /** The price_amount that the UPDATE stores. */
  function Price(rows: seq<Item>, subtotals: Subtotals, i: int): int {
    if !(0 <= i < |rows|) then 0
    else
      var b := rows[i].booking;
      if ItemNumber(rows, i) == ItemCount(rows, b)
      then TargetTotal(rows, subtotals, b) - (AllocatedTotal(rows, subtotals, b) - Allocated(rows, subtotals, i))
      else Allocated(rows, subtotals, i)
  }

  // ---------------------------------------------------------------- the last item

  predicate IsLast(rows: seq<Item>, i: int) {
    0 <= i < |rows| && forall j :: j in Partition(rows, rows[i].booking) && j != i ==> Less(rows[j], rows[i])
  }

  lemma {:induction false} SubsetSize<T>(a: set<T>, b: set<T>)
    requires a <= b
    ensures |a| <= |b| && (|a| == |b| ==> a == b)
    decreases |a|
  {
    if a != {} {
      var x :| x in a;
      SubsetSize(a - {x}, b - {x});
      assert a == a - {x} + {x} && b == b - {x} + {x};
    } else if |b| == 0 {
      assert b == {};
    }
  }

  /** item_number = item_count picks out exactly the greatest row of the booking. */
  lemma NumberIsCount(rows: seq<Item>, i: int)
    requires UniqueIds(rows) && 0 <= i < |rows|
    ensures ItemNumber(rows, i) == ItemCount(rows, rows[i].booking) <==> IsLast(rows, i)
  {
    var all := Partition(rows, rows[i].booking);
    var smaller := set j | j in all && Less(rows[j], rows[i]);
    assert i in all && |all - {i}| == |all| - 1;
    assert smaller <= all - {i};
    SubsetSize(smaller, all - {i});
    if IsLast(rows, i) {
      assert smaller == all - {i};
    } else {
      var j :| j in all && j != i && !Less(rows[j], rows[i]);
      assert j in all - {i} && j !in smaller;
    }
  }

  lemma {:induction false} LastExists(rows: seq<Item>, b: int, s: set<int>) returns (i: int)
    requires UniqueIds(rows) && s != {} && s <= Partition(rows, b)
    ensures i in s && forall j :: j in s && j != i ==> Less(rows[j], rows[i])
    decreases |s|
  {
    i :| i in s;
    if s != {i} {
      assert s - {i} != {};
      var k := LastExists(rows, b, s - {i});
      if Less(rows[i], rows[k]) { i := k; }
    }
  }

  // ---------------------------------------------------------------- sums

  lemma {:induction false} SumChanged(rows: seq<Item>, b: int, f: int -> int, g: int -> int, at: int, n: nat)
    requires n <= |rows| && 0 <= at < |rows| && rows[at].booking == b
    requires forall i :: 0 <= i < |rows| && rows[i].booking == b && i != at ==> f(i) == g(i)
    ensures SumOver(rows, b, f, n) == SumOver(rows, b, g, n) + if at < n then f(at) - g(at) else 0
  {
    if n > 0 { SumChanged(rows, b, f, g, at, n - 1); }
  }

  /** How many of the first n rows belong to booking b. */
  function CountOver(rows: seq<Item>, b: int, n: nat): nat
    requires n <= |rows|
  {
    if n == 0 then 0 else CountOver(rows, b, n - 1) + if rows[n - 1].booking == b then 1 else 0
  }

  lemma {:induction false} CountIsSize(rows: seq<Item>, b: int, n: nat)
    requires n <= |rows|
    ensures CountOver(rows, b, n) == |set i | 0 <= i < n && rows[i].booking == b|
  {
    if n > 0 {
      CountIsSize(rows, b, n - 1);
      var before := set i | 0 <= i < n - 1 && rows[i].booking == b;
      assert (set i | 0 <= i < n && rows[i].booking == b) == before + if rows[n - 1].booking == b then {n - 1} else {};
    }
  }

  /** Floors of proportional shares lose less than one unit each. */
  lemma {:induction false} ProportionalFloors(rows: seq<Item>, b: int, target: int, catalog: int, f: int -> int, n: nat)
    requires n <= |rows| && 0 < catalog
    requires forall i :: 0 <= i < |rows| && rows[i].booking == b ==> f(i) == target * rows[i].price / catalog
    ensures var floors, prices := SumOver(rows, b, f, n), SumOver(rows, b, Catalog(rows), n);
      catalog * floors <= target * prices <= catalog * floors + (catalog - 1) * CountOver(rows, b, n)
  {
    if n > 0 {
      ProportionalFloors(rows, b, target, catalog, f, n - 1);
      if rows[n - 1].booking == b {
        OneMoreFloor(target, catalog, rows[n - 1].price, SumOver(rows, b, f, n - 1),
                     SumOver(rows, b, Catalog(rows), n - 1), CountOver(rows, b, n - 1));
      }
    }
  }

  lemma OneMoreFloor(target: int, catalog: int, price: int, floors: int, prices: int, count: nat)
    requires 0 < catalog && catalog * floors <= target * prices <= catalog * floors + (catalog - 1) * count
    ensures var floors' := floors + target * price / catalog;
      catalog * floors' <= target * (prices + price) <= catalog * floors' + (catalog - 1) * (count + 1)
  {
    var x := target * price;
    assert x == catalog * (x / catalog) + x % catalog;
    assert target * (prices + price) == target * prices + x;
    assert catalog * (floors + x / catalog) == catalog * floors + catalog * (x / catalog);
    assert (catalog - 1) * (count + 1) == (catalog - 1) * count + (catalog - 1);
  }

  lemma {:induction false} EqualShares(rows: seq<Item>, b: int, share: int, f: int -> int, n: nat)
    requires n <= |rows|
    requires forall i :: 0 <= i < |rows| && rows[i].booking == b ==> f(i) == share
    ensures SumOver(rows, b, f, n) == share * CountOver(rows, b, n)
  {
    if n > 0 { EqualShares(rows, b, share, f, n - 1); }
  }

  /** What the floors leave over: never negative, and less than one unit per item. */
  lemma Remainder(rows: seq<Item>, subtotals: Subtotals, b: int)
    requires Partition(rows, b) != {}
    ensures 0 <= TargetTotal(rows, subtotals, b) - AllocatedTotal(rows, subtotals, b) <= ItemCount(rows, b) - 1
  {
    var target, catalog, count := TargetTotal(rows, subtotals, b), CatalogTotal(rows, b), ItemCount(rows, b);
    var f := (i: int) => Allocated(rows, subtotals, i);
    CountAll(rows, b);
    if count > 1 && catalog > 0 {
      ProportionalFloors(rows, b, target, catalog, f, |rows|);
      Quotient(target, AllocatedTotal(rows, subtotals, b), catalog, count);
    } else {
      var share := if count <= 1 then target else target / count;
      EqualShares(rows, b, share, f, |rows|);
      EqualGap(target, count);
    }
  }

  lemma CountAll(rows: seq<Item>, b: int)
    ensures CountOver(rows, b, |rows|) == ItemCount(rows, b)
  {
    CountIsSize(rows, b, |rows|);
    assert Partition(rows, b) == set i | 0 <= i < |rows| && rows[i].booking == b;
  }

  lemma EqualGap(target: int, count: int)
    requires 0 < count
    ensures count == 1 ==> target - target * count == 0
    ensures 0 <= target - target / count * count <= count - 1
  {
    assert target == count * (target / count) + target % count;
    assert target / count * count == count * (target / count);
  }

  lemma Quotient(target: int, floors: int, catalog: int, count: int)
    requires 0 < catalog && 0 < count
    requires catalog * floors <= target * catalog <= catalog * floors + (catalog - 1) * count
    ensures 0 <= target - floors <= count - 1
  {
    var gap := target - floors;
    assert catalog * gap == target * catalog - catalog * floors;
    assert (catalog - 1) * count < catalog * count;
  }

  // ---------------------------------------------------------------- main results

  /** The stored prices of every booking with items sum exactly to its target total. */
  lemma PricesConserveTotal(rows: seq<Item>, subtotals: Subtotals, b: int)
    requires UniqueIds(rows) && Partition(rows, b) != {}
    ensures SumOver(rows, b, i => Price(rows, subtotals, i), |rows|) == TargetTotal(rows, subtotals, b)
  {
    var last := LastExists(rows, b, Partition(rows, b));
    forall i | 0 <= i < |rows| && rows[i].booking == b && i != last
      ensures Price(rows, subtotals, i) == Allocated(rows, subtotals, i)
    {
      NumberIsCount(rows, i);
      assert last in Partition(rows, b);
    }
    NumberIsCount(rows, last);
    assert IsLast(rows, last);
    SumChanged(rows, b, i => Price(rows, subtotals, i), i => Allocated(rows, subtotals, i), last, |rows|);
  }

  /**
   Every item but the last stores exactly its floor share, and the last one at most item_count - 1
   more; so with non-negative totals and catalogue prices no stored price is negative.
   */
  lemma PricesNearFloorShare(rows: seq<Item>, subtotals: Subtotals, i: int)
    requires UniqueIds(rows) && 0 <= i < |rows|
    ensures var share, price := Allocated(rows, subtotals, i), Price(rows, subtotals, i);
      && (!IsLast(rows, i) ==> price == share)
      && share <= price <= share + ItemCount(rows, rows[i].booking) - 1
      && (0 <= TargetTotal(rows, subtotals, rows[i].booking) && 0 <= rows[i].price ==> 0 <= price)
  {
    var b := rows[i].booking;
    assert i in Partition(rows, b);
    NumberIsCount(rows, i);
    Remainder(rows, subtotals, b);
    var target, catalog := TargetTotal(rows, subtotals, b), CatalogTotal(rows, b);
    if 0 <= target && 0 <= rows[i].price && catalog > 0 {
      assert 0 <= target * rows[i].price;
    }
  }
}
