/** The station manager: purchases and price changes against the repository, with
    the messages it sends to the manager kept as a log of notifications. */
module StationManagement {
  import opened Models
  import opened Queries
  import opened Filters
  import opened InventoryTables
  import opened Repositories

  const DefaultManagerEmail: string := "manager@fuelstation.com"
  const LowStockSubject: string := "Low Fuel Stock Alert"
  const PriceUpdateSubject: string := "Fuel Price Update"

  /** What a notification is about; the message text is formatted from these values. */
  datatype Topic = LowStock(fuel: Fuel) | PriceChanged(update: PriceUpdate)

  /** One call of SendNotification (urgent == false) or SendUrgentNotification (urgent == true). */
  datatype Notification = Notification(recipient: string, subject: string, urgent: bool, topic: Topic)

  function LowStockAlert(recipient: string, fuel: Fuel): (n: Notification)
    ensures n.urgent && n.recipient == recipient && n.topic == LowStock(fuel)
  {
    Notification(recipient, LowStockSubject, true, LowStock(fuel))
  }

  function PriceChangeNotice(recipient: string, update: PriceUpdate): (n: Notification)
    ensures !n.urgent && n.recipient == recipient && n.topic == PriceChanged(update)
  {
    Notification(recipient, PriceUpdateSubject, false, PriceChanged(update))
  }

  /** The exceptions the manager throws. */
  datatype StationError = FuelNotFound(fuelType: FuelType) | InsufficientFuel(available: real)

  datatype Outcome<T> = Ok(value: T) | Thrown(error: StationError)

  /** Why a purchase is refused, if it is: no entry for the fuel type, or less
      available than asked for (exactly what is available is allowed). */
  function PurchaseRefusal(fuels: Inventory, fuelType: FuelType, quantity: real): (r: Option<StationError>)
    ensures r.None? <==> CanRemove(fuels, fuelType, quantity)
    ensures fuelType !in fuels ==> r == Some(FuelNotFound(fuelType))
    ensures fuelType in fuels && fuels[fuelType].availableQuantity < quantity ==>
              r == Some(InsufficientFuel(fuels[fuelType].availableQuantity))
  {
    if fuelType !in fuels then Some(FuelNotFound(fuelType))
    else if fuels[fuelType].availableQuantity < quantity then Some(InsufficientFuel(fuels[fuelType].availableQuantity))
    else None
  }

  class FuelStationManager {
    const repository: InMemoryRepository
    const managerEmail: string
    /** Every notification sent so far, oldest first. */
    ghost var notifications: seq<Notification>

    ghost predicate Valid()
      reads this, repository
    {
      repository.Valid()
    }

    constructor (repository: InMemoryRepository, managerEmail: string := DefaultManagerEmail)
      ensures this.repository == repository && this.managerEmail == managerEmail
      ensures notifications == []
    {
      this.repository := repository;
      this.managerEmail := managerEmail;
      notifications := [];
    }

    method NotifyLowStock(fuel: Fuel)
      modifies this
      ensures notifications == old(notifications) + [LowStockAlert(managerEmail, fuel)]
    {
      notifications := notifications + [LowStockAlert(managerEmail, fuel)];
    }

    method NotifyPriceChange(update: PriceUpdate)
      modifies this
      ensures notifications == old(notifications) + [PriceChangeNotice(managerEmail, update)]
    {
      notifications := notifications + [PriceChangeNotice(managerEmail, update)];
    }

    /** Sells from the repository's stock at the fuel's current price. A refused
        purchase changes nothing. An accepted one draws the quantity from stock as
        RemoveFuel does, saves the sale (replacing any sale with the same id) and
        the fuel, and sends one urgent alert when the fuel is now low on stock.
        `saleId` stands for the generated id, `now` for the clock. */
    method ProcessFuelPurchase(fuelType: FuelType, quantity: real, paymentMethod: PaymentMethod,
                               customerName: string, pumpNumber: int, saleId: int, now: Instant)
        returns (r: Outcome<Sale>)
      requires Valid()
      modifies this, repository
      ensures Valid()
      ensures r.Thrown? <==> PurchaseRefusal(old(repository.fuels), fuelType, quantity).Some?
      ensures r.Thrown? ==> r.error == PurchaseRefusal(old(repository.fuels), fuelType, quantity).value
      ensures r.Thrown? ==>
                repository.sales == old(repository.sales) && repository.fuels == old(repository.fuels) &&
                repository.priceUpdates == old(repository.priceUpdates) && notifications == old(notifications)
      ensures r.Ok? ==>
                var fuel := old(repository.fuels)[fuelType];
                && r.value == NewSale(saleId, now, fuelType, quantity, fuel.pricePerLiter, paymentMethod,
                                      customerName, pumpNumber).CalculateTotal()
                && repository.fuels == AfterRemoveFuel(old(repository.fuels), fuelType, quantity, now)
                && repository.fuels[fuelType].availableQuantity == fuel.availableQuantity - quantity
                && repository.sales == WithSaleSaved(old(repository.sales), r.value)
                && repository.priceUpdates == old(repository.priceUpdates)
                && notifications == old(notifications) +
                     (if repository.fuels[fuelType].IsLowStock()
                      then [LowStockAlert(managerEmail, repository.fuels[fuelType])] else [])
    {
      var found := repository.GetFuelByType(fuelType);
      if found.None? {
        return Thrown(FuelNotFound(fuelType));
      }
      var fuel := found.value;
      if fuel.availableQuantity < quantity {
        return Thrown(InsufficientFuel(fuel.availableQuantity));
      }
      ghost var stock, log := repository.fuels, repository.sales;
      assert CanRemove(stock, fuelType, quantity);
      var sale := NewSale(saleId, now, fuelType, quantity, fuel.pricePerLiter, paymentMethod, customerName, pumpNumber);
      sale := sale.CalculateTotal();
      fuel := fuel.(availableQuantity := fuel.availableQuantity - quantity, lastUpdated := now);
      var _ := repository.SaveSale(sale);
      var _ := repository.SaveFuel(fuel);
      assert repository.fuels == AfterRemoveFuel(stock, fuelType, quantity, now);
      assert repository.sales == WithSaleSaved(log, sale);
      if fuel.IsLowStock() {
        NotifyLowStock(fuel);
      }
      return Ok(sale);
    }

    /** Sets a stocked fuel's price, records the change (old price = the fuel's price
        until now) and sends one normal notification; an absent fuel type is refused
        and nothing changes. `updateId` stands for the generated id. */
    method UpdateFuelPrice(fuelType: FuelType, newPrice: real, updatedBy: string, reason: string,
                           updateId: int, now: Instant) returns (r: Outcome<PriceUpdate>)
      requires Valid()
      modifies this, repository
      ensures Valid()
      ensures r.Thrown? <==> fuelType !in old(repository.fuels)
      ensures r.Thrown? ==>
                r.error == FuelNotFound(fuelType) &&
                repository.sales == old(repository.sales) && repository.fuels == old(repository.fuels) &&
                repository.priceUpdates == old(repository.priceUpdates) && notifications == old(notifications)
      ensures r.Ok? ==>
                && r.value == PriceUpdate(updateId, fuelType, old(repository.fuels)[fuelType].pricePerLiter,
                                          newPrice, now, updatedBy, reason)
                && repository.fuels == AfterUpdatePrice(old(repository.fuels), fuelType, newPrice, now)
                && repository.priceUpdates == old(repository.priceUpdates) + [r.value]
                && repository.sales == old(repository.sales)
                && notifications == old(notifications) + [PriceChangeNotice(managerEmail, r.value)]
    {
      var found := repository.GetFuelByType(fuelType);
      if found.None? {
        return Thrown(FuelNotFound(fuelType));
      }
      var fuel := found.value;
      var update := PriceUpdate(updateId, fuelType, fuel.pricePerLiter, newPrice, now, updatedBy, reason);
      fuel := fuel.(pricePerLiter := newPrice, lastUpdated := now);
      var _ := repository.SaveFuel(fuel);
      var _ := repository.SavePriceUpdate(update);
      NotifyPriceChange(update);
      return Ok(update);
    }

    /** Sends one urgent alert for each fuel that is low on stock (in no particular
        order) and changes no data. */
    method CheckInventoryStatus()
      requires Valid()
      modifies this
      ensures Valid()
      ensures |notifications| == |old(notifications)| + |LowStockFuels(repository.fuels)|
      ensures notifications[..|old(notifications)|] == old(notifications)
      ensures forall i :: |old(notifications)| <= i < |notifications| ==>
                notifications[i].urgent && notifications[i].recipient == managerEmail &&
                notifications[i].topic.LowStock? && notifications[i].topic.fuel in LowStockFuels(repository.fuels)
      ensures forall f :: f in LowStockFuels(repository.fuels) ==>
                exists i :: |old(notifications)| <= i < |notifications| && notifications[i] == LowStockAlert(managerEmail, f)
    {
      var lowStock := LowStockFuels(repository.fuels);
      var pending := lowStock;
      ghost var sent: seq<Fuel> := [];
      while pending != {}
        invariant pending <= lowStock
        invariant |sent| + |pending| == |lowStock|
        invariant forall i :: 0 <= i < |sent| ==> sent[i] in lowStock && sent[i] !in pending
        invariant forall f :: f in lowStock ==> f in pending || f in sent
        invariant |notifications| == |old(notifications)| + |sent|
        invariant notifications[..|old(notifications)|] == old(notifications)
        invariant forall i :: 0 <= i < |sent| ==>
                    notifications[|old(notifications)| + i] == LowStockAlert(managerEmail, sent[i])
        decreases |pending|
      {
        var fuel :| fuel in pending;
        NotifyLowStock(fuel);
        sent := sent + [fuel];
        pending := pending - {fuel};
      }
      forall i | |old(notifications)| <= i < |notifications|
        ensures notifications[i] == LowStockAlert(managerEmail, sent[i - |old(notifications)|])
      {
      }
      forall f | f in lowStock
        ensures exists i :: |old(notifications)| <= i < |notifications| && notifications[i] == LowStockAlert(managerEmail, f)
      {
        var k :| 0 <= k < |sent| && sent[k] == f;
        assert notifications[|old(notifications)| + k] == LowStockAlert(managerEmail, f);
      }
    }
  }

  /** A purchase of everything that is left is accepted and leaves the fuel empty,
      hence low on stock whenever its minimum is not negative, so an alert is sent. */
  lemma EmptyingPurchaseAlerts(fuels: Inventory, fuelType: FuelType, now: Instant)
    requires fuelType in fuels && fuels[fuelType].minimumStockLevel >= 0.0
    ensures var quantity := fuels[fuelType].availableQuantity;
            && PurchaseRefusal(fuels, fuelType, quantity).None?
            && AfterRemoveFuel(fuels, fuelType, quantity, now)[fuelType].availableQuantity == 0.0
            && AfterRemoveFuel(fuels, fuelType, quantity, now)[fuelType].IsLowStock()
  {
  }

  /** Electric is never in a fresh repository, so buying it is refused. */
  lemma ElectricPurchaseRefused(now: Instant, quantity: real)
    ensures PurchaseRefusal(DefaultInventory(now), Electric, quantity) == Some(FuelNotFound(Electric))
  {
  }

  /** A fresh station: 40 litres of Regular sell at 1.25 a litre, leave 4960 litres
      (above the minimum of 500, so no alert); Electric is refused. */
  method FirstPurchases(now: Instant) returns (regular: Outcome<Sale>, electric: Outcome<Sale>,
                                               manager: FuelStationManager)
    ensures regular.Ok? && regular.value.totalAmount == 50.0 && regular.value.pricePerLiter == 1.25
    ensures Regular in manager.repository.fuels && manager.repository.fuels[Regular].availableQuantity == 4960.0
    ensures manager.repository.sales == [regular.value]
    ensures electric == Thrown(FuelNotFound(Electric))
    ensures manager.notifications == []
  {
    var repository := new InMemoryRepository(now);
    DefaultInventoryTable(now);
    manager := new FuelStationManager(repository);
    regular := manager.ProcessFuelPurchase(Regular, 40.0, CreditCard, "Customer", 1, 1234, now);
    electric := manager.ProcessFuelPurchase(Electric, 10.0, Cash, "Customer", 2, 5678, now);
  }
}
