/** The single-responsibility sales processor: numbers sales from 1, stores them
    in order, and answers lookups and filters. */
module SalesProcessing {
  import opened Models
  import opened Queries
  import opened Filters

  /** The ids are 1, 2, 3, ... in list order, and the counter is the next one. */
  ghost predicate NumberedFromOne(sales: seq<Sale>, nextSaleId: int) {
    nextSaleId == |sales| + 1 && forall i :: 0 <= i < |sales| ==> sales[i].id == i + 1
  }

  /** Numbered sales have strictly increasing, hence unique, ids. */
  lemma NumberedIdsIncrease(sales: seq<Sale>, nextSaleId: int)
    requires NumberedFromOne(sales, nextSaleId)
    ensures IdsIncreasing(sales) && IdsUnique(sales)
  {
    IncreasingIdsAreUnique(sales);
  }

  /** In a numbered list, the sale with id k is the k-th one. */
  lemma {:induction false} NumberedLookup(sales: seq<Sale>, nextSaleId: int, id: int)
    requires NumberedFromOne(sales, nextSaleId)
    ensures FirstOrDefault(sales, HasSaleId(id)) == if 1 <= id <= |sales| then Some(sales[id - 1]) else None
  {
    if 1 <= id <= |sales| {
      assert HasSaleId(id)(sales[id - 1]);
      match FindFirst(sales, HasSaleId(id))
      case Some(i) => assert sales[i].id == i + 1;
      case None =>
    }
  }

  class SalesProcessor {
    var sales: seq<Sale>
    var nextSaleId: int

    ghost predicate Valid()
      reads this
    {
      NumberedFromOne(sales, nextSaleId)
    }

    constructor ()
      ensures Valid() && sales == [] && nextSaleId == 1
    {
      sales := [];
      nextSaleId := 1;
    }

    /** Records a sale under the next id, with its total computed, at the end of the list. */
    method ProcessSale(fuelType: FuelType, quantity: real, pricePerLiter: real,
                       paymentMethod: PaymentMethod, customerName: string, pumpNumber: int,
                       now: Instant) returns (sale: Sale)
      requires Valid()
      modifies this
      ensures Valid()
      ensures sale == NewSale(old(nextSaleId), now, fuelType, quantity, pricePerLiter,
                              paymentMethod, customerName, pumpNumber).CalculateTotal()
      ensures sale.id == old(nextSaleId) && sale.totalAmount == quantity * pricePerLiter
      ensures sales == old(sales) + [sale] && nextSaleId == old(nextSaleId) + 1
    {
      sale := NewSale(nextSaleId, now, fuelType, quantity, pricePerLiter, paymentMethod, customerName, pumpNumber);
      nextSaleId := nextSaleId + 1;
      sale := sale.CalculateTotal();
      sales := sales + [sale];
    }

    function GetSalesByDate(date: Instant): (r: seq<Sale>)
      reads this
      ensures forall i :: 0 <= i < |r| ==> r[i] in sales && DateOf(r[i].timestamp) == DateOf(date)
      ensures forall i :: 0 <= i < |sales| && DateOf(sales[i].timestamp) == DateOf(date) ==> sales[i] in r
    {
      Where(sales, SoldOn(DateOf(date)))
    }

    function GetSalesByFuelType(fuelType: FuelType): (r: seq<Sale>)
      reads this
      ensures forall i :: 0 <= i < |r| ==> r[i] in sales && r[i].fuelType == fuelType
      ensures forall i :: 0 <= i < |sales| && sales[i].fuelType == fuelType ==> sales[i] in r
    {
      Where(sales, OfFuel(fuelType))
    }

    function GetSalesByPaymentMethod(paymentMethod: PaymentMethod): (r: seq<Sale>)
      reads this
      ensures forall i :: 0 <= i < |r| ==> r[i] in sales && r[i].paymentMethod == paymentMethod
      ensures forall i :: 0 <= i < |sales| && sales[i].paymentMethod == paymentMethod ==> sales[i] in r
    {
      Where(sales, PaidWith(paymentMethod))
    }

    /** The first sale with that id, or None. */
    function GetSaleById(saleId: int): (r: Option<Sale>)
      reads this
      ensures r.None? <==> forall i :: 0 <= i < |sales| ==> sales[i].id != saleId
      ensures r.Some? ==> r.value in sales && r.value.id == saleId
    {
      FirstOrDefault(sales, HasSaleId(saleId))
    }

    /** A copy of the list: same sales, same order. */
    method GetAllSales() returns (copy: seq<Sale>)
      ensures copy == sales
    {
      copy := sales;
    }
  }

  /** Processing a sale extends every filter at its end, and only the filters it matches. */
  lemma FilterAfterSale(sales: seq<Sale>, sale: Sale, p: Sale -> bool)
    ensures Where(sales + [sale], p) == Where(sales, p) + (if p(sale) then [sale] else [])
  {
    WhereAppend(sales, [sale], p);
  }
}
