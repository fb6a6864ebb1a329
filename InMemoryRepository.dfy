/** The in-memory data repository: a sale log in which saving replaces the sale
    with the same id, the fuel table, and an append-only price-update log. */
module Repositories {
  import opened Models
  import opened Queries
  import opened Filters
  import opened InventoryTables

  /** The sale log after SaveSale: the first sale with the same id, if any, is
      removed, and the saved sale goes to the end. */
  function WithSaleSaved(sales: seq<Sale>, sale: Sale): (r: seq<Sale>)
    ensures |r| > 0 && r[|r| - 1] == sale
    ensures FindFirst(sales, HasSaleId(sale.id)).None? ==> r == sales + [sale]
    ensures FindFirst(sales, HasSaleId(sale.id)).Some? ==> |r| == |sales|
  {
    match FindFirst(sales, HasSaleId(sale.id))
    case None => sales + [sale]
    case Some(k) => RemoveAt(sales, k) + [sale]
  }

  /** With unique ids, saving keeps every other sale in its order, drops the one it
      replaces, and leaves the ids unique. */
  lemma SaveSaleKeepsIdsUnique(sales: seq<Sale>, sale: Sale)
    requires IdsUnique(sales)
    ensures WithSaleSaved(sales, sale) == Where(sales, OtherId(sale.id)) + [sale]
    ensures IdsUnique(WithSaleSaved(sales, sale))
  {
    var others := Where(sales, OtherId(sale.id));
    match FindFirst(sales, HasSaleId(sale.id))
    case None =>
      WhereAll(sales, OtherId(sale.id));
    case Some(k) =>
      forall j | 0 <= j < |sales| && j != k ensures OtherId(sale.id)(sales[j]) {
        assert sales[j].id != sales[k].id;
      }
      WhereRejectingOne(sales, k, OtherId(sale.id));
    WhereKeepsIdsUnique(sales, OtherId(sale.id));
    forall i | 0 <= i < |others| ensures others[i].id != sale.id {
      assert OtherId(sale.id)(others[i]);
    }
    SnocIdsUnique(others, sale);
  }

  /** With unique ids, looking up a sale just saved finds exactly that sale. */
  lemma SaveThenGetSale(sales: seq<Sale>, sale: Sale)
    requires IdsUnique(sales)
    ensures FirstOrDefault(WithSaleSaved(sales, sale), HasSaleId(sale.id)) == Some(sale)
  {
    SaveSaleKeepsIdsUnique(sales, sale);
    var others := Where(sales, OtherId(sale.id));
    var r := others + [sale];
    forall j | 0 <= j < |others| ensures !HasSaleId(sale.id)(r[j]) {
      assert r[j] == others[j] && OtherId(sale.id)(others[j]);
    }
    assert r[|others|] == sale;
  }

  class InMemoryRepository {
    var sales: seq<Sale>
    var fuels: Inventory
    var priceUpdates: seq<PriceUpdate>

    /** Every fuel is filed under its own type, and no two sales share an id. */
    ghost predicate Valid()
      reads this
    {
      WellKeyed(fuels) && IdsUnique(sales)
    }

    /** Empty logs and the default fuels, stamped at `now`. */
    constructor (now: Instant)
      ensures Valid()
      ensures sales == [] && priceUpdates == [] && fuels == DefaultInventory(now)
    {
      sales := [];
      fuels := DefaultInventory(now);
      priceUpdates := [];
    }

    /** Replaces the sale with the same id, if any, and puts the saved sale last. */
    method SaveSale(sale: Sale) returns (saved: bool)
      requires Valid()
      modifies this
      ensures Valid() && saved
      ensures sales == WithSaleSaved(old(sales), sale)
      ensures sales == Where(old(sales), OtherId(sale.id)) + [sale]
      ensures fuels == old(fuels) && priceUpdates == old(priceUpdates)
    {
      SaveSaleKeepsIdsUnique(sales, sale);
      var existing := FindFirst(sales, HasSaleId(sale.id));
      if existing.Some? {
        sales := RemoveAt(sales, existing.value);
      }
      sales := sales + [sale];
      return true;
    }

    function GetSaleById(saleId: int): (r: Option<Sale>)
      reads this
      ensures r.None? <==> forall i :: 0 <= i < |sales| ==> sales[i].id != saleId
      ensures r.Some? ==> r.value.id == saleId &&
                          exists i :: 0 <= i < |sales| && sales[i] == r.value &&
                                      forall j :: 0 <= j < i ==> sales[j].id != saleId
    {
      FirstOrDefault(sales, HasSaleId(saleId))
    }

    function GetSalesByDate(date: Instant): (r: seq<Sale>)
      reads this
      ensures forall i :: 0 <= i < |r| ==> r[i] in sales && DateOf(r[i].timestamp) == DateOf(date)
      ensures forall i :: 0 <= i < |sales| && DateOf(sales[i].timestamp) == DateOf(date) ==> sales[i] in r
    {
      Where(sales, SoldOn(DateOf(date)))
    }

    /** Files the fuel under its own type, replacing what was there. */
    method SaveFuel(fuel: Fuel) returns (saved: bool)
      requires Valid()
      modifies this
      ensures Valid() && saved
      ensures fuels == old(fuels)[fuel.fuelType := fuel]
      ensures sales == old(sales) && priceUpdates == old(priceUpdates)
    {
      fuels := fuels[fuel.fuelType := fuel];
      return true;
    }

    function GetFuelByType(fuelType: FuelType): (r: Option<Fuel>)
      reads this
      ensures r.None? <==> fuelType !in fuels
      ensures r.Some? ==> r.value == fuels[fuelType]
    {
      GetFuel(fuels, fuelType)
    }

    function GetAllFuels(): (r: set<Fuel>)
      reads this
      ensures forall f :: f in r <==> exists t :: t in fuels && fuels[t] == f
    {
      AllFuels(fuels)
    }

    method SavePriceUpdate(update: PriceUpdate) returns (saved: bool)
      modifies this
      ensures saved
      ensures priceUpdates == old(priceUpdates) + [update]
      ensures sales == old(sales) && fuels == old(fuels)
    {
      priceUpdates := priceUpdates + [update];
      return true;
    }

    function GetPriceHistory(fuelType: FuelType): (r: seq<PriceUpdate>)
      reads this
      ensures IsHistoryOf(r, priceUpdates, ForFuel(fuelType))
    {
      HistoryQuery(priceUpdates, ForFuel(fuelType));
      OrderByDescending(Where(priceUpdates, ForFuel(fuelType)), UpdatedAtKey)
    }
  }

  /** A fresh repository has no Electric entry, so it cannot find that fuel. */
  lemma FreshRepositoryLacksElectric(now: Instant)
    ensures GetFuel(DefaultInventory(now), Electric).None?
    ensures forall t :: t != Electric ==> GetFuel(DefaultInventory(now), t).Some?
  {
  }
}
