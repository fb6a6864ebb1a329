/** The single-responsibility price manager: a history of price updates, where
    each update records the price it replaces. */
module PriceManagement {
  import opened Models
  import opened Queries
  import opened Filters

  class PriceManager {
    var priceHistory: seq<PriceUpdate>
    var nextUpdateId: int

    /** Updates are numbered 1, 2, 3, ... in the order they were recorded. */
    ghost predicate Valid()
      reads this
    {
      nextUpdateId == |priceHistory| + 1 &&
      forall i :: 0 <= i < |priceHistory| ==> priceHistory[i].id == i + 1
    }

    constructor ()
      ensures Valid() && priceHistory == [] && nextUpdateId == 1
    {
      priceHistory := [];
      nextUpdateId := 1;
    }

    /** The newest update for the fuel type: the one with the latest UpdatedAt,
        and among several with that instant the one recorded first. */
    function GetLatestPriceUpdate(fuelType: FuelType): (r: Option<PriceUpdate>)
      reads this
      ensures r.None? <==> forall j :: 0 <= j < |priceHistory| ==> priceHistory[j].fuelType != fuelType
      ensures r.Some? ==>
                exists i :: 0 <= i < |priceHistory| && priceHistory[i] == r.value && r.value.fuelType == fuelType &&
                  (forall j :: 0 <= j < |priceHistory| && priceHistory[j].fuelType == fuelType ==>
                     priceHistory[j].updatedAt <= r.value.updatedAt) &&
                  (forall j :: 0 <= j < i && priceHistory[j].fuelType == fuelType ==>
                     priceHistory[j].updatedAt < r.value.updatedAt)
    {
      LatestUpdate(priceHistory, ForFuel(fuelType))
    }

    /** The new price of the newest update, or 0 when the fuel type was never priced. */
    function GetCurrentPrice(fuelType: FuelType): (r: real)
      reads this
      ensures (forall j :: 0 <= j < |priceHistory| ==> priceHistory[j].fuelType != fuelType) ==> r == 0.0
      ensures (exists j :: 0 <= j < |priceHistory| && priceHistory[j].fuelType == fuelType) ==>
                exists i :: 0 <= i < |priceHistory| && priceHistory[i].fuelType == fuelType &&
                  priceHistory[i].newPrice == r &&
                  (forall j :: 0 <= j < |priceHistory| && priceHistory[j].fuelType == fuelType ==>
                     priceHistory[j].updatedAt <= priceHistory[i].updatedAt) &&
                  (forall j :: 0 <= j < i && priceHistory[j].fuelType == fuelType ==>
                     priceHistory[j].updatedAt < priceHistory[i].updatedAt)
    {
      match GetLatestPriceUpdate(fuelType)
      case None => 0.0
      case Some(u) => u.newPrice
    }

    /** Records an update under the next id; its old price is the current price before it. */
    method UpdatePrice(fuelType: FuelType, newPrice: real, updatedBy: string, reason: string,
                       now: Instant) returns (update: PriceUpdate)
      requires Valid()
      modifies this
      ensures Valid()
      ensures update == PriceUpdate(old(nextUpdateId), fuelType, old(GetCurrentPrice(fuelType)),
                                    newPrice, now, updatedBy, reason)
      ensures priceHistory == old(priceHistory) + [update] && nextUpdateId == old(nextUpdateId) + 1
    {
      // the new price of the latest update for the fuel, or 0: exactly GetCurrentPrice
      var oldPrice := GetCurrentPrice(fuelType);
      var id := nextUpdateId;
      update := PriceUpdate(id, fuelType, oldPrice, newPrice, now, updatedBy, reason);
      NumberedAppend(priceHistory, update);
      priceHistory := priceHistory + [update];
      nextUpdateId := nextUpdateId + 1;
    }

    /** The updates of one fuel type, newest first. */
    function GetPriceHistory(fuelType: FuelType): (r: seq<PriceUpdate>)
      reads this
      ensures IsHistoryOf(r, priceHistory, ForFuel(fuelType))
    {
      HistoryQuery(priceHistory, ForFuel(fuelType));
      OrderByDescending(Where(priceHistory, ForFuel(fuelType)), UpdatedAtKey)
    }

    /** The updates made on date's day, newest first. */
    function GetPriceHistoryByDate(date: Instant): (r: seq<PriceUpdate>)
      reads this
      ensures IsHistoryOf(r, priceHistory, UpdatedOn(DateOf(date)))
    {
      HistoryQuery(priceHistory, UpdatedOn(DateOf(date)));
      OrderByDescending(Where(priceHistory, UpdatedOn(DateOf(date))), UpdatedAtKey)
    }
  }

  /** Appending an update numbered one past the history keeps the numbering 1, 2, 3, ... */
  lemma {:induction false} NumberedAppend(history: seq<PriceUpdate>, u: PriceUpdate)
    requires forall i :: 0 <= i < |history| ==> history[i].id == i + 1
    requires u.id == |history| + 1
    ensures forall i :: 0 <= i < |history + [u]| ==> (history + [u])[i].id == i + 1
  {
    forall i | 0 <= i < |history + [u]|
      ensures (history + [u])[i].id == i + 1
    {
      if i < |history| {
        assert (history + [u])[i] == history[i];
      }
    }
  }

  /** The price of one fuel type after an update: the new price when the clock moved
      on since every earlier update; unchanged when the update was for another fuel. */
  lemma CurrentPriceAfterUpdate(history: seq<PriceUpdate>, u: PriceUpdate, fuelType: FuelType)
    requires forall i :: 0 <= i < |history| ==> history[i].updatedAt < u.updatedAt
    ensures u.fuelType == fuelType ==> LatestUpdate(history + [u], ForFuel(fuelType)) == Some(u)
    ensures u.fuelType != fuelType ==>
              LatestUpdate(history + [u], ForFuel(fuelType)) == LatestUpdate(history, ForFuel(fuelType))
  {
    if u.fuelType == fuelType {
      StrictlyLaterUpdateIsLatest(history, u, ForFuel(fuelType));
    } else {
      UnselectedUpdateKeepsLatest(history, u, ForFuel(fuelType));
    }
  }

  /** Two updates at the same instant: the first one recorded stays the latest, so the
      second one's price is not the current price although it was recorded last. */
  lemma SameInstantKeepsFirst(first: PriceUpdate, second: PriceUpdate)
    requires first.fuelType == second.fuelType && first.updatedAt == second.updatedAt
    ensures LatestUpdate([first, second], ForFuel(first.fuelType)) == Some(first)
  {
    var s := [first, second];
    assert s[0] == first;
    assert ForFuel(first.fuelType)(s[0]) && ForFuel(first.fuelType)(s[1]);
  }

  /** Chained updates: each update's old price is the previous update's new price
      for the same fuel, provided the clock moves on. */
  method ChainedUpdates(m: PriceManager, fuelType: FuelType, p1: real, p2: real, t1: Instant, t2: Instant)
      returns (u1: PriceUpdate, u2: PriceUpdate)
    requires m.Valid() && m.priceHistory == [] && t1 < t2
    modifies m
    ensures u1.oldPrice == 0.0 && u1.newPrice == p1
    ensures u2.oldPrice == p1 && u2.newPrice == p2
    ensures m.GetCurrentPrice(fuelType) == p2
  {
    u1 := m.UpdatePrice(fuelType, p1, "manager", "first", t1);
    CurrentPriceAfterUpdate([], u1, fuelType);
    u2 := m.UpdatePrice(fuelType, p2, "manager", "second", t2);
    CurrentPriceAfterUpdate([u1], u2, fuelType);
  }
}
