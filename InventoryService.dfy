/** The interface-segregated inventory: one table behind a reader interface
    (lookups) and a writer interface (stock, price and minimum-level updates). */
module InventoryServices {
  import opened Models
  import opened Queries
  import opened InventoryTables

  class InventoryService {
    var inventory: Inventory

    /** Starts with the default Regular, Premium and Diesel stock, stamped at `now`. */
    constructor (now: Instant)
      ensures inventory == DefaultInventory(now)
    {
      inventory := DefaultInventory(now);
    }

    // ---- IInventoryReader ----

    function GetFuel(fuelType: FuelType): (fuel: Option<Fuel>)
      reads this
      ensures fuel.None? <==> fuelType !in inventory
      ensures fuel.Some? ==> fuel.value == inventory[fuelType]
    {
      InventoryTables.GetFuel(inventory, fuelType)
    }

    function GetAvailableQuantity(fuelType: FuelType): (quantity: real)
      reads this
      ensures fuelType !in inventory ==> quantity == 0.0
      ensures fuelType in inventory ==> quantity == inventory[fuelType].availableQuantity
    {
      AvailableQuantity(inventory, fuelType)
    }

    function IsLowStock(fuelType: FuelType): (low: bool)
      reads this
      ensures fuelType !in inventory ==> !low
      ensures fuelType in inventory ==> (low <==> inventory[fuelType].availableQuantity <= inventory[fuelType].minimumStockLevel)
    {
      InventoryTables.IsLowStock(inventory, fuelType)
    }

    function GetLowStockFuels(): (fuels: set<Fuel>)
      reads this
      ensures fuels <= GetAllFuels()
      ensures forall f :: f in fuels <==> f in GetAllFuels() && f.IsLowStock()
    {
      LowStockFuels(inventory)
    }

    function GetAllFuels(): (fuels: set<Fuel>)
      reads this
      ensures forall t :: t in inventory ==> inventory[t] in fuels
      ensures forall f :: f in fuels ==> exists t :: t in inventory && inventory[t] == f
    {
      AllFuels(inventory)
    }

    // ---- IInventoryWriter ----

    /** Adds to a stocked fuel; a fuel type without an entry is ignored. */
    method AddFuel(fuelType: FuelType, quantity: real, now: Instant)
      modifies this
      ensures inventory == AfterAddFuel(old(inventory), fuelType, quantity, now)
    {
      if fuelType in inventory {
        var fuel := inventory[fuelType];
        inventory := inventory[fuelType := fuel.(availableQuantity := fuel.availableQuantity + quantity, lastUpdated := now)];
      }
    }

    /** Draws from a stocked fuel when enough is available; otherwise refuses and changes nothing. */
    method RemoveFuel(fuelType: FuelType, quantity: real, now: Instant) returns (success: bool)
      modifies this
      ensures success == CanRemove(old(inventory), fuelType, quantity)
      ensures inventory == AfterRemoveFuel(old(inventory), fuelType, quantity, now)
    {
      if fuelType !in inventory || inventory[fuelType].availableQuantity < quantity {
        return false;
      }
      var fuel := inventory[fuelType];
      inventory := inventory[fuelType := fuel.(availableQuantity := fuel.availableQuantity - quantity, lastUpdated := now)];
      return true;
    }

    /** Sets a stocked fuel's price; refuses a fuel type without an entry. */
    method UpdateFuelPrice(fuelType: FuelType, newPrice: real, now: Instant) returns (success: bool)
      modifies this
      ensures success == (fuelType in old(inventory))
      ensures inventory == AfterUpdatePrice(old(inventory), fuelType, newPrice, now)
    {
      if fuelType !in inventory {
        return false;
      }
      var fuel := inventory[fuelType];
      inventory := inventory[fuelType := fuel.(pricePerLiter := newPrice, lastUpdated := now)];
      return true;
    }

    /** Sets a stocked fuel's minimum level; a fuel type without an entry is ignored. */
    method SetMinimumStockLevel(fuelType: FuelType, minimumLevel: real)
      modifies this
      ensures inventory == AfterSetMinimumStockLevel(old(inventory), fuelType, minimumLevel)
    {
      if fuelType in inventory {
        inventory := inventory[fuelType := inventory[fuelType].(minimumStockLevel := minimumLevel)];
      }
    }
  }
}
