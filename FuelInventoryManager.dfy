/** The single-responsibility inventory: a table of fuels that can be topped up,
    drawn from and queried. */
module FuelInventory {
  import opened Models
  import opened Queries
  import opened InventoryTables

  class FuelInventoryManager {
    var inventory: Inventory

    /** Starts with the default Regular, Premium and Diesel stock, stamped at `now`. */
    constructor (now: Instant)
      ensures inventory == DefaultInventory(now)
    {
      inventory := DefaultInventory(now);
    }

    /** Adds to a stocked fuel; a fuel type without an entry is ignored. */
    method AddFuel(fuelType: FuelType, quantity: real, now: Instant)
      modifies this
      ensures inventory == AfterAddFuel(old(inventory), fuelType, quantity, now)
    {
      if fuelType in inventory {
        var fuel := inventory[fuelType];
        inventory := inventory[fuelType := fuel.(availableQuantity := fuel.availableQuantity + quantity, lastUpdated := now)];
      }
    }

    /** Draws from a stocked fuel when enough is available; otherwise refuses and changes nothing. */
    method RemoveFuel(fuelType: FuelType, quantity: real, now: Instant) returns (success: bool)
      modifies this
      ensures success == CanRemove(old(inventory), fuelType, quantity)
      ensures inventory == AfterRemoveFuel(old(inventory), fuelType, quantity, now)
    {
      if fuelType !in inventory || inventory[fuelType].availableQuantity < quantity {
        return false;
      }
      var fuel := inventory[fuelType];
      inventory := inventory[fuelType := fuel.(availableQuantity := fuel.availableQuantity - quantity, lastUpdated := now)];
      return true;
    }

    function GetAvailableQuantity(fuelType: FuelType): (quantity: real)
      reads this
      ensures fuelType !in inventory ==> quantity == 0.0
      ensures fuelType in inventory ==> quantity == inventory[fuelType].availableQuantity
    {
      AvailableQuantity(inventory, fuelType)
    }

    function IsLowStock(fuelType: FuelType): (low: bool)
      reads this
      ensures fuelType !in inventory ==> !low
      ensures fuelType in inventory ==> (low <==> inventory[fuelType].availableQuantity <= inventory[fuelType].minimumStockLevel)
    {
      InventoryTables.IsLowStock(inventory, fuelType)
    }

    function GetLowStockFuels(): (fuels: set<Fuel>)
      reads this
      ensures fuels <= inventory.Values
      ensures forall t :: t in inventory ==> (inventory[t] in fuels <==> inventory[t].IsLowStock())
    {
      LowStockFuels(inventory)
    }

    function GetFuel(fuelType: FuelType): (fuel: Option<Fuel>)
      reads this
      ensures fuel.None? <==> fuelType !in inventory
      ensures fuel.Some? ==> fuel.value == inventory[fuelType]
    {
      InventoryTables.GetFuel(inventory, fuelType)
    }
  }
}
