/** The selection predicates the sales and price stores filter by, and the
    invariants their id counters keep. */
module Filters {
  import opened Models
  import opened Queries

  // ---- sales ----

  function HasSaleId(id: int): Sale -> bool {
    (s: Sale) => s.id == id
  }

  /** Every sale but the ones with that id. */
  function OtherId(id: int): Sale -> bool {
    (s: Sale) => s.id != id
  }

  /** Sold on the calendar day `day` (`s.Timestamp.Date == date.Date`). */
  function SoldOn(day: int): Sale -> bool {
    (s: Sale) => SaleDay(s) == day
  }

  /** Sold on a day from `first` to `last`, both included. */
  function SoldBetween(first: int, last: int): Sale -> bool {
    (s: Sale) => first <= SaleDay(s) <= last
  }

  function OfFuel(fuelType: FuelType): Sale -> bool {
    (s: Sale) => s.fuelType == fuelType
  }

  function PaidWith(paymentMethod: PaymentMethod): Sale -> bool {
    (s: Sale) => s.paymentMethod == paymentMethod
  }

  /** Ids strictly increase along the list; in particular no id occurs twice. */
  ghost predicate IdsIncreasing(sales: seq<Sale>) {
    forall i, j :: 0 <= i < j < |sales| ==> sales[i].id < sales[j].id
  }

  ghost predicate IdsUnique(sales: seq<Sale>) {
    forall i, j :: 0 <= i < |sales| && 0 <= j < |sales| && i != j ==> sales[i].id != sales[j].id
  }

  lemma IncreasingIdsAreUnique(sales: seq<Sale>)
    requires IdsIncreasing(sales)
    ensures IdsUnique(sales)
  {
    forall i, j | 0 <= i < |sales| && 0 <= j < |sales| && i != j
      ensures sales[i].id != sales[j].id
    {
      if i < j { assert sales[i].id < sales[j].id; } else { assert sales[j].id < sales[i].id; }
    }
  }

  lemma TailIdsUnique(sales: seq<Sale>)
    requires IdsUnique(sales) && sales != []
    ensures IdsUnique(sales[1..])
  {
    var tail := sales[1..];
    forall i, j | 0 <= i < |tail| && 0 <= j < |tail| && i != j ensures tail[i].id != tail[j].id {
      assert tail[i] == sales[i + 1] && tail[j] == sales[j + 1];
    }
  }

  lemma ConsIdsUnique(x: Sale, w: seq<Sale>)
    requires IdsUnique(w)
    requires forall i :: 0 <= i < |w| ==> w[i].id != x.id
    ensures IdsUnique([x] + w)
  {
    var r := [x] + w;
    forall i, j | 0 <= i < |r| && 0 <= j < |r| && i != j ensures r[i].id != r[j].id {
      if i > 0 && j > 0 {
        assert r[i] == w[i - 1] && r[j] == w[j - 1];
      } else if i > 0 {
        assert r[i] == w[i - 1];
      } else {
        assert r[j] == w[j - 1];
      }
    }
  }

  /** Appending a sale whose id is new keeps ids unique. */
  lemma SnocIdsUnique(w: seq<Sale>, x: Sale)
    requires IdsUnique(w)
    requires forall i :: 0 <= i < |w| ==> w[i].id != x.id
    ensures IdsUnique(w + [x])
  {
    var r := w + [x];
    forall i, j | 0 <= i < |r| && 0 <= j < |r| && i != j ensures r[i].id != r[j].id {
      if i < |w| && j < |w| {
        assert r[i] == w[i] && r[j] == w[j];
      } else if i < |w| {
        assert r[i] == w[i] && r[j] == x;
      } else {
        assert r[i] == x && r[j] == w[j];
      }
    }
  }

  /** Filtering keeps ids unique. */
  lemma {:induction false} WhereKeepsIdsUnique(sales: seq<Sale>, p: Sale -> bool)
    requires IdsUnique(sales)
    ensures IdsUnique(Where(sales, p))
  {
    if sales != [] {
      var tail := sales[1..];
      TailIdsUnique(sales);
      WhereKeepsIdsUnique(tail, p);
      var w := Where(tail, p);
      if p(sales[0]) {
        assert Where(sales, p) == [sales[0]] + w;
        forall i | 0 <= i < |w| ensures w[i].id != sales[0].id {
          var j :| 0 <= j < |tail| && tail[j] == w[i];
          assert tail[j] == sales[j + 1];
        }
        ConsIdsUnique(sales[0], w);
      } else {
        assert Where(sales, p) == w;
      }
    }
  }

  /** With unique ids, the sale FirstOrDefault finds is the only one with that id, so
      removing it leaves no sale with that id behind. */
  lemma RemoveFoundIdLeavesNone(sales: seq<Sale>, id: int)
    requires IdsUnique(sales)
    requires FindFirst(sales, HasSaleId(id)).Some?
    ensures var r := RemoveAt(sales, FindFirst(sales, HasSaleId(id)).value);
            forall j :: 0 <= j < |r| ==> r[j].id != id
  {
    var i := FindFirst(sales, HasSaleId(id)).value;
    var r := RemoveAt(sales, i);
    forall j | 0 <= j < |r| ensures r[j].id != id {
      if j < i {
        assert r[j] == sales[j];
      } else {
        assert r[j] == sales[j + 1];
        assert j + 1 != i;
      }
    }
  }

  // ---- price updates ----

  function ForFuel(fuelType: FuelType): PriceUpdate -> bool {
    (u: PriceUpdate) => u.fuelType == fuelType
  }

  /** Updated on the calendar day `day` (`p.UpdatedAt.Date == date.Date`). */
  function UpdatedOn(day: int): PriceUpdate -> bool {
    (u: PriceUpdate) => DateOf(u.updatedAt) == day
  }

  /** What a price-history query promises about `r` for the updates of `s` that
      satisfy `p`: newest first, each of them exactly once, and updates made at
      the same instant in the order they were recorded. */
  ghost predicate IsHistoryOf(r: seq<PriceUpdate>, s: seq<PriceUpdate>, p: PriceUpdate -> bool) {
    && SortedDescending(r, UpdatedAtKey)
    && multiset(r) == multiset(Where(s, p))
    && forall k :: Where(r, KeyIs(UpdatedAtKey, k)) == Where(Where(s, p), KeyIs(UpdatedAtKey, k))
  }

  /** `.Where(p).OrderByDescending(p => p.UpdatedAt)` is such a history. */
  lemma HistoryQuery(s: seq<PriceUpdate>, p: PriceUpdate -> bool)
    ensures IsHistoryOf(OrderByDescending(Where(s, p), UpdatedAtKey), s, p)
  {
    OrderByDescendingSorted(Where(s, p), UpdatedAtKey);
    forall k ensures Where(OrderByDescending(Where(s, p), UpdatedAtKey), KeyIs(UpdatedAtKey, k)) ==
                     Where(Where(s, p), KeyIs(UpdatedAtKey, k)) {
      OrderByDescendingStable(Where(s, p), UpdatedAtKey, k);
    }
  }

  /** The latest update satisfying `p`, as `.Where(p).OrderByDescending(UpdatedAt).FirstOrDefault()`. */
  function LatestUpdate(s: seq<PriceUpdate>, p: PriceUpdate -> bool): (r: Option<PriceUpdate>)
    ensures r == match LatestIndex(s, p, UpdatedAtKey) case None => None case Some(i) => Some(s[i])
    ensures r.None? <==> forall j :: 0 <= j < |s| ==> !p(s[j])
    ensures r.Some? ==>
              exists i :: 0 <= i < |s| && s[i] == r.value && p(r.value) &&
                (forall j :: 0 <= j < |s| && p(s[j]) ==> s[j].updatedAt <= r.value.updatedAt) &&
                (forall j :: 0 <= j < i && p(s[j]) ==> s[j].updatedAt < r.value.updatedAt)
  {
    LatestIsHeadOfSorted(s, p, UpdatedAtKey);
    Head(OrderByDescending(Where(s, p), UpdatedAtKey))
  }

  /** An update recorded strictly after all earlier ones becomes the latest for its filter. */
  lemma {:induction false} StrictlyLaterUpdateIsLatest(s: seq<PriceUpdate>, u: PriceUpdate, p: PriceUpdate -> bool)
    requires p(u)
    requires forall i :: 0 <= i < |s| ==> s[i].updatedAt < u.updatedAt
    ensures LatestUpdate(s + [u], p) == Some(u)
  {
    var t := s + [u];
    assert t[|s|] == u;
  }

  /** An update the filter rejects does not change the latest update it selects. */
  lemma UnselectedUpdateKeepsLatest(s: seq<PriceUpdate>, u: PriceUpdate, p: PriceUpdate -> bool)
    requires !p(u)
    ensures LatestUpdate(s + [u], p) == LatestUpdate(s, p)
    ensures Where(s + [u], p) == Where(s, p)
  {
    WhereAppend(s, [u], p);
  }
}
