/** The sales service behind the processor and reporter interfaces: sales can be
    cancelled, refunded, totalled over a range of days and summarised per fuel type. */
module SalesServices {
  import opened Models
  import opened Queries
  import opened Filters

  /** The invariant of the service: ids strictly increase along the list and are
      all below the next id to hand out. Cancelling keeps it, unlike NumberedFromOne. */
  ghost predicate IdsBelowNext(sales: seq<Sale>, nextSaleId: int) {
    IdsIncreasing(sales) && forall i :: 0 <= i < |sales| ==> sales[i].id < nextSaleId
  }

  /** Removing one sale keeps the rest in increasing id order below the counter. */
  lemma RemoveAtKeepsIdsBelowNext(sales: seq<Sale>, nextSaleId: int, k: nat)
    requires IdsBelowNext(sales, nextSaleId) && k < |sales|
    ensures IdsBelowNext(RemoveAt(sales, k), nextSaleId)
  {
    var r := RemoveAt(sales, k);
    forall i, j | 0 <= i < j < |r| ensures r[i].id < r[j].id {
      var i' := if i < k then i else i + 1;
      var j' := if j < k then j else j + 1;
      assert r[i] == sales[i'] && r[j] == sales[j'];
    }
    forall i | 0 <= i < |r| ensures r[i].id < nextSaleId {
      assert r[i] == sales[if i < k then i else i + 1];
    }
  }

  /** The fuel types that occur among `sales`. */
  function FuelTypesIn(sales: seq<Sale>): (r: set<FuelType>)
    ensures forall t :: t in r <==> exists i :: 0 <= i < |sales| && sales[i].fuelType == t
  {
    set i | 0 <= i < |sales| :: sales[i].fuelType
  }

  /** GroupBy(FuelType).ToDictionary(Key, Sum(TotalAmount)) over one day's sales. */
  function SummaryByFuelType(daySales: seq<Sale>): map<FuelType, real> {
    map t | t in FuelTypesIn(daySales) :: Sum(Where(daySales, OfFuel(t)), SaleTotal)
  }

  class SalesService {
    var sales: seq<Sale>
    var nextSaleId: int

    ghost predicate Valid()
      reads this
    {
      IdsBelowNext(sales, nextSaleId)
    }

    constructor ()
      ensures Valid() && sales == [] && nextSaleId == 1
    {
      sales := [];
      nextSaleId := 1;
    }

    /** Records a sale under the next id, total computed, at the end of the list.
        Its id is larger than that of every sale recorded or cancelled before. */
    method ProcessSale(fuelType: FuelType, quantity: real, pricePerLiter: real,
                       paymentMethod: PaymentMethod, customerName: string, pumpNumber: int,
                       now: Instant) returns (sale: Sale)
      requires Valid()
      modifies this
      ensures Valid()
      ensures sale == NewSale(old(nextSaleId), now, fuelType, quantity, pricePerLiter,
                              paymentMethod, customerName, pumpNumber).CalculateTotal()
      ensures sale.totalAmount == quantity * pricePerLiter
      ensures sales == old(sales) + [sale] && nextSaleId == old(nextSaleId) + 1
      ensures forall i :: 0 <= i < |old(sales)| ==> old(sales)[i].id < sale.id
    {
      sale := NewSale(nextSaleId, now, fuelType, quantity, pricePerLiter, paymentMethod, customerName, pumpNumber);
      nextSaleId := nextSaleId + 1;
      sale := sale.CalculateTotal();
      sales := sales + [sale];
    }

    /** Removes the first sale with the id, if there is one; the counter never goes back. */
    method CancelSale(saleId: int) returns (success: bool)
      requires Valid()
      modifies this
      ensures Valid() && nextSaleId == old(nextSaleId)
      ensures success <==> exists i :: 0 <= i < |old(sales)| && old(sales)[i].id == saleId
      ensures !success ==> sales == old(sales)
      ensures success ==> sales == RemoveAt(old(sales), FindFirst(old(sales), HasSaleId(saleId)).value)
      ensures forall i :: 0 <= i < |sales| ==> sales[i].id != saleId
    {
      match FindFirst(sales, HasSaleId(saleId))
      case None =>
        success := false;
      case Some(k) =>
        IncreasingIdsAreUnique(sales);
        RemoveFoundIdLeavesNone(sales, saleId);
        RemoveAtKeepsIdsBelowNext(sales, nextSaleId, k);
        sales := RemoveAt(sales, k);
        success := true;
    }

    /** A refund only looks the sale up: true exactly when it is recorded. */
    method RefundSale(saleId: int) returns (success: bool)
      ensures success <==> exists i :: 0 <= i < |sales| && sales[i].id == saleId
    {
      success := FirstOrDefault(sales, HasSaleId(saleId)).Some?;
    }

    function GetSalesByDate(date: Instant): (r: seq<Sale>)
      reads this
      ensures forall i :: 0 <= i < |r| ==> r[i] in sales && DateOf(r[i].timestamp) == DateOf(date)
      ensures forall i :: 0 <= i < |sales| && DateOf(sales[i].timestamp) == DateOf(date) ==> sales[i] in r
    {
      Where(sales, SoldOn(DateOf(date)))
    }

    function GetSalesByFuelType(fuelType: FuelType): (r: seq<Sale>)
      reads this
      ensures forall i :: 0 <= i < |r| ==> r[i] in sales && r[i].fuelType == fuelType
      ensures forall i :: 0 <= i < |sales| && sales[i].fuelType == fuelType ==> sales[i] in r
    {
      Where(sales, OfFuel(fuelType))
    }

    function GetSalesByPaymentMethod(paymentMethod: PaymentMethod): (r: seq<Sale>)
      reads this
      ensures forall i :: 0 <= i < |r| ==> r[i] in sales && r[i].paymentMethod == paymentMethod
      ensures forall i :: 0 <= i < |sales| && sales[i].paymentMethod == paymentMethod ==> sales[i] in r
    {
      Where(sales, PaidWith(paymentMethod))
    }

    /** The amount taken on the days from startDate's to endDate's, both included. */
    function GetTotalSalesAmount(startDate: Instant, endDate: Instant): (r: real)
      reads this
      ensures r == SumWhere(sales, SoldBetween(DateOf(startDate), DateOf(endDate)), SaleTotal)
    {
      SumOfWhere(sales, SoldBetween(DateOf(startDate), DateOf(endDate)), SaleTotal);
      Sum(Where(sales, SoldBetween(DateOf(startDate), DateOf(endDate))), SaleTotal)
    }

    /** The quantity of one fuel sold on the days from startDate's to endDate's. */
    function GetTotalFuelSold(fuelType: FuelType, startDate: Instant, endDate: Instant): (r: real)
      reads this
      ensures r == SumWhere(GetSalesByFuelType(fuelType), SoldBetween(DateOf(startDate), DateOf(endDate)), SaleQuantity)
    {
      var range := SoldBetween(DateOf(startDate), DateOf(endDate));
      WhereWhere(sales, OfFuel(fuelType), range);
      SumOfWhere(Where(sales, OfFuel(fuelType)), range, SaleQuantity);
      Sum(Where(sales, Both(OfFuel(fuelType), range)), SaleQuantity)
    }

    /** Per fuel type sold on date's day, the amount taken for it that day; the fuel
        types not sold that day have no entry. */
    function GetSalesSummaryByFuelType(date: Instant): (r: map<FuelType, real>)
      reads this
      ensures forall t :: t in r <==> exists i :: 0 <= i < |sales| && SaleDay(sales[i]) == DateOf(date) && sales[i].fuelType == t
      ensures forall t :: t in r ==> r[t] == SumWhere(sales, Both(SoldOn(DateOf(date)), OfFuel(t)), SaleTotal)
    {
      SummaryOfDay(sales, DateOf(date));
      SummaryByFuelType(Where(sales, SoldOn(DateOf(date))))
    }
  }

  /** A selected sale contributes its fuel type to the types of the selection. */
  lemma SelectedTypeOccurs(sales: seq<Sale>, p: Sale -> bool, i: nat)
    requires i < |sales| && p(sales[i])
    ensures sales[i].fuelType in FuelTypesIn(Where(sales, p))
  {
    var w := Where(sales, p);
    var j :| 0 <= j < |w| && w[j] == sales[i];
  }

  /** Each selected sale is a sale of the whole list that satisfies the selector. */
  lemma SelectedSaleOrigin(sales: seq<Sale>, p: Sale -> bool, j: nat)
    requires j < |Where(sales, p)|
    ensures exists i :: 0 <= i < |sales| && p(sales[i]) && sales[i] == Where(sales, p)[j]
  {
    var x := Where(sales, p)[j];
    assert x in sales && p(x);
    var i :| 0 <= i < |sales| && sales[i] == x;
  }

  /** A fuel type occurs among one day's sales exactly when some sale of that type was made that day. */
  lemma DayFuelTypes(sales: seq<Sale>, day: int, t: FuelType)
    ensures t in FuelTypesIn(Where(sales, SoldOn(day))) <==>
            exists i :: 0 <= i < |sales| && SaleDay(sales[i]) == day && sales[i].fuelType == t
  {
    if exists i :: 0 <= i < |sales| && SaleDay(sales[i]) == day && sales[i].fuelType == t {
      var i :| 0 <= i < |sales| && SaleDay(sales[i]) == day && sales[i].fuelType == t;
      assert SoldOn(day)(sales[i]);
      SelectedTypeOccurs(sales, SoldOn(day), i);
    }
    if t in FuelTypesIn(Where(sales, SoldOn(day))) {
      var w := Where(sales, SoldOn(day));
      var j :| 0 <= j < |w| && w[j].fuelType == t;
      SelectedSaleOrigin(sales, SoldOn(day), j);
      var i :| 0 <= i < |sales| && SoldOn(day)(sales[i]) && sales[i].fuelType == t;
      assert SaleDay(sales[i]) == day;
    }
  }

  /** The summary of one day's sales, stated over the whole list: its keys are the
      fuel types sold that day and each value the day's total for that type. */
  lemma SummaryOfDay(sales: seq<Sale>, day: int)
    ensures var r := SummaryByFuelType(Where(sales, SoldOn(day)));
      && (forall t :: t in r <==> exists i :: 0 <= i < |sales| && SaleDay(sales[i]) == day && sales[i].fuelType == t)
      && (forall t :: t in r ==> r[t] == SumWhere(sales, Both(SoldOn(day), OfFuel(t)), SaleTotal))
  {
    var w := Where(sales, SoldOn(day));
    var r := SummaryByFuelType(w);
    forall t ensures t in r <==> exists i :: 0 <= i < |sales| && SaleDay(sales[i]) == day && sales[i].fuelType == t {
      DayFuelTypes(sales, day, t);
    }
    forall t | t in r ensures r[t] == SumWhere(sales, Both(SoldOn(day), OfFuel(t)), SaleTotal) {
      WhereWhere(sales, SoldOn(day), OfFuel(t));
      SumOfWhere(sales, Both(SoldOn(day), OfFuel(t)), SaleTotal);
    }
  }

  /** A new sale adds its total to exactly the ranges of days that contain its day. */
  lemma TotalAfterSale(sales: seq<Sale>, sale: Sale, first: int, last: int)
    ensures SumWhere(sales + [sale], SoldBetween(first, last), SaleTotal) ==
            SumWhere(sales, SoldBetween(first, last), SaleTotal) +
            (if first <= SaleDay(sale) <= last then sale.totalAmount else 0.0)
  {
    SumWhereAppend(sales, sale, SoldBetween(first, last), SaleTotal);
  }

  /** Cancelling a sale takes its total out of exactly the ranges that contain its day. */
  lemma TotalAfterCancel(sales: seq<Sale>, saleId: int, first: int, last: int)
    requires FindFirst(sales, HasSaleId(saleId)).Some?
    ensures var k := FindFirst(sales, HasSaleId(saleId)).value;
            SumWhere(RemoveAt(sales, k), SoldBetween(first, last), SaleTotal) ==
            SumWhere(sales, SoldBetween(first, last), SaleTotal) -
            (if first <= SaleDay(sales[k]) <= last then sales[k].totalAmount else 0.0)
  {
    var k := FindFirst(sales, HasSaleId(saleId)).value;
    SumWhereRemoveAt(sales, k, SoldBetween(first, last), SaleTotal);
  }

  /** With non-negative quantities, the fuel sold over any range is non-negative. */
  lemma FuelSoldNonNegative(sales: seq<Sale>, p: Sale -> bool)
    requires forall i :: 0 <= i < |sales| ==> sales[i].quantity >= 0.0
    ensures Sum(Where(sales, p), SaleQuantity) >= 0.0
  {
    var w := Where(sales, p);
    forall i | 0 <= i < |w| ensures SaleQuantity(w[i]) >= 0.0 {
      var j :| 0 <= j < |sales| && sales[j] == w[i];
    }
    SumNonNegative(w, SaleQuantity);
  }

  /** A cancelled id is never handed out again: the next sale gets a larger one. */
  lemma CancelledIdNotReused(sales: seq<Sale>, nextSaleId: int, k: nat)
    requires IdsBelowNext(sales, nextSaleId) && k < |sales|
    ensures sales[k].id < nextSaleId
    ensures forall i :: 0 <= i < |RemoveAt(sales, k)| ==> RemoveAt(sales, k)[i].id != nextSaleId
  {
    RemoveAtKeepsIdsBelowNext(sales, nextSaleId, k);
  }
}
