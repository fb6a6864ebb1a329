/** The records of the fuel-station domain: fuels, sales and price updates,
    with their computed properties. */
module Models {

  /** The kinds of fuel or energy a station sells. */
  datatype FuelType = Regular | Premium | Diesel | Electric

  /** How a customer pays. */
  datatype PaymentMethod = Cash | CreditCard | DebitCard | MobilePayment | FleetCard

  /** A point in time, as a count of 100-nanosecond ticks (DateTime.Ticks). */
  type Instant = nat

  const TicksPerDay: nat := 864_000_000_000

  /** The calendar day of an instant (DateTime.Date), as a day number. */
  function DateOf(t: Instant): (d: nat)
    ensures d * TicksPerDay <= t < (d + 1) * TicksPerDay
  {
    t / TicksPerDay
  }

  /** One fuel's stock record. */
  datatype Fuel = Fuel(
    id: int,
    fuelType: FuelType,
    pricePerLiter: real,
    availableQuantity: real,
    lastUpdated: Instant,
    name: string,
    minimumStockLevel: real)
  {
    /** Low stock: the available quantity has fallen to the minimum level or below. */
    predicate IsLowStock() {
      availableQuantity <= minimumStockLevel
    }
  }

  lemma AtMinimumIsLowStock(f: Fuel)
    requires f.availableQuantity == f.minimumStockLevel
    ensures f.IsLowStock()
  {
  }

  lemma AboveMinimumIsNotLowStock(f: Fuel)
    requires f.availableQuantity > f.minimumStockLevel
    ensures !f.IsLowStock()
  {
  }

  /** One sale. */
  datatype Sale = Sale(
    id: int,
    timestamp: Instant,
    fuelType: FuelType,
    quantity: real,
    pricePerLiter: real,
    totalAmount: real,
    paymentMethod: PaymentMethod,
    customerName: string,
    pumpNumber: int)
  {
    /** The sale with its total amount computed from quantity and unit price. */
    function CalculateTotal(): (r: Sale)
      ensures r.totalAmount == quantity * pricePerLiter
      ensures r.(totalAmount := totalAmount) == this
    {
      this.(totalAmount := quantity * pricePerLiter)
    }
  }

  lemma CalculateTotalIdempotent(s: Sale)
    ensures s.CalculateTotal().CalculateTotal() == s.CalculateTotal()
  {
  }

  /** `new Sale { Id = .., FuelType = .., ... }` at instant `now`: the constructor stamps
      the creation time and the total starts at zero until CalculateTotal is called. */
  function NewSale(id: int, now: Instant, fuelType: FuelType, quantity: real, pricePerLiter: real,
                   paymentMethod: PaymentMethod, customerName: string, pumpNumber: int): (s: Sale)
    ensures s.timestamp == now && s.totalAmount == 0.0
    ensures s.id == id && s.fuelType == fuelType && s.quantity == quantity
    ensures s.pricePerLiter == pricePerLiter && s.paymentMethod == paymentMethod
    ensures s.customerName == customerName && s.pumpNumber == pumpNumber
  {
    Sale(id, now, fuelType, quantity, pricePerLiter, 0.0, paymentMethod, customerName, pumpNumber)
  }

  /** One recorded change of a fuel's price. */
  datatype PriceUpdate = PriceUpdate(
    id: int,
    fuelType: FuelType,
    oldPrice: real,
    newPrice: real,
    updatedAt: Instant,
    updatedBy: string,
    reason: string)
  {
    function PriceChange(): real {
      newPrice - oldPrice
    }

    /** The change relative to the old price, in percent; 0 when there was no positive old price. */
    function PercentageChange(): (r: real)
      ensures oldPrice <= 0.0 ==> r == 0.0
      ensures oldPrice > 0.0 ==> r * oldPrice == PriceChange() * 100.0
    {
      if oldPrice > 0.0 then (PriceChange() / oldPrice) * 100.0 else 0.0
    }
  }

  lemma PercentageChangeSign(u: PriceUpdate)
    requires u.oldPrice > 0.0
    ensures u.PercentageChange() > 0.0 <==> u.PriceChange() > 0.0
    ensures u.PercentageChange() < 0.0 <==> u.PriceChange() < 0.0
    ensures u.PercentageChange() == 0.0 <==> u.PriceChange() == 0.0
  {
    var r := u.PercentageChange();
    assert r * u.oldPrice == u.PriceChange() * 100.0;
  }

  /** Selectors used as LINQ key and filter functions. Naming them keeps one closure term per use. */
  function SaleQuantity(s: Sale): real { s.quantity }
  function SaleTotal(s: Sale): real { s.totalAmount }
  function SaleDay(s: Sale): int { DateOf(s.timestamp) }
  function UpdatedAtKey(u: PriceUpdate): int { u.updatedAt }
}
