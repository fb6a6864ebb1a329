/** Fuel inventories keyed by fuel type: the default stock and the guarded
    updates that the inventory manager, the inventory service and the repository
    all apply to their tables. */
module InventoryTables {
  import opened Models
  import opened Queries

  type Inventory = map<FuelType, Fuel>

  /** Every entry is filed under its own fuel type. */
  ghost predicate WellKeyed(m: Inventory) {
    forall t :: t in m ==> m[t].fuelType == t
  }

  /** The three fuels every store starts with, stamped at `now`; no electricity. */
  function DefaultInventory(now: Instant): (m: Inventory)
    ensures m.Keys == {Regular, Premium, Diesel} && Electric !in m
    ensures WellKeyed(m)
    ensures forall t :: t in m ==> !m[t].IsLowStock() && m[t].availableQuantity > 0.0
  {
    map[
      Regular := Fuel(1, Regular, 1.25, 5000.0, now, "Regular Gasoline", 500.0),
      Premium := Fuel(2, Premium, 1.45, 3000.0, now, "Premium Gasoline", 300.0),
      Diesel := Fuel(3, Diesel, 1.35, 4000.0, now, "Diesel", 400.0)]
  }

  /** The default table row by row: quantity, minimum level and price. */
  lemma DefaultInventoryTable(now: Instant)
    ensures var m := DefaultInventory(now);
      && m[Regular].availableQuantity == 5000.0 && m[Regular].minimumStockLevel == 500.0
      && m[Regular].pricePerLiter == 1.25
      && m[Premium].availableQuantity == 3000.0 && m[Premium].minimumStockLevel == 300.0
      && m[Premium].pricePerLiter == 1.45
      && m[Diesel].availableQuantity == 4000.0 && m[Diesel].minimumStockLevel == 400.0
      && m[Diesel].pricePerLiter == 1.35
  {
  }

  function GetFuel(m: Inventory, fuelType: FuelType): (r: Option<Fuel>)
    ensures r.None? <==> fuelType !in m
    ensures r.Some? ==> r.value == m[fuelType]
  {
    if fuelType in m then Some(m[fuelType]) else None
  }

  function AvailableQuantity(m: Inventory, fuelType: FuelType): (q: real)
    ensures fuelType !in m ==> q == 0.0
    ensures fuelType in m ==> q == m[fuelType].availableQuantity
  {
    if fuelType in m then m[fuelType].availableQuantity else 0.0
  }

  predicate IsLowStock(m: Inventory, fuelType: FuelType) {
    fuelType in m && m[fuelType].IsLowStock()
  }

  lemma AbsentIsNotLowStock(m: Inventory, fuelType: FuelType)
    requires fuelType !in m
    ensures !IsLowStock(m, fuelType) && AvailableQuantity(m, fuelType) == 0.0
  {
  }

  function AllFuels(m: Inventory): (r: set<Fuel>)
    ensures forall f :: f in r <==> exists t :: t in m && m[t] == f
  {
    m.Values
  }

  /** The entries that are low on stock. */
  function LowStockFuels(m: Inventory): (r: set<Fuel>)
    ensures r <= AllFuels(m)
    ensures forall t :: t in m ==> (m[t] in r <==> m[t].IsLowStock())
    ensures forall f :: f in r ==> f.IsLowStock()
  {
    set f | f in m.Values && f.IsLowStock()
  }

  /** The table after AddFuel: only the named entry's quantity (and time stamp) changes. */
  function AfterAddFuel(m: Inventory, fuelType: FuelType, quantity: real, now: Instant): (r: Inventory)
    ensures r.Keys == m.Keys
    ensures forall t :: t in m && t != fuelType ==> r[t] == m[t]
    ensures fuelType in m ==>
              r[fuelType].availableQuantity == m[fuelType].availableQuantity + quantity &&
              r[fuelType] == m[fuelType].(availableQuantity := r[fuelType].availableQuantity, lastUpdated := now)
    ensures fuelType !in m ==> r == m
  {
    if fuelType in m
    then m[fuelType := m[fuelType].(availableQuantity := m[fuelType].availableQuantity + quantity, lastUpdated := now)]
    else m
  }

  /** Whether RemoveFuel succeeds: the entry exists and holds at least the quantity. */
  predicate CanRemove(m: Inventory, fuelType: FuelType, quantity: real) {
    fuelType in m && m[fuelType].availableQuantity >= quantity
  }

  /** The table after a successful RemoveFuel: only the named entry's quantity
      (and time stamp) changes; the table is unchanged when removal is refused. */
  function AfterRemoveFuel(m: Inventory, fuelType: FuelType, quantity: real, now: Instant): (r: Inventory)
    ensures r.Keys == m.Keys
    ensures forall t :: t in m && t != fuelType ==> r[t] == m[t]
    ensures CanRemove(m, fuelType, quantity) ==>
              r[fuelType].availableQuantity == m[fuelType].availableQuantity - quantity &&
              r[fuelType] == m[fuelType].(availableQuantity := r[fuelType].availableQuantity, lastUpdated := now)
    ensures !CanRemove(m, fuelType, quantity) ==> r == m
  {
    if CanRemove(m, fuelType, quantity)
    then m[fuelType := m[fuelType].(availableQuantity := m[fuelType].availableQuantity - quantity, lastUpdated := now)]
    else m
  }

  ghost predicate NonNegative(m: Inventory) {
    forall t :: t in m ==> m[t].availableQuantity >= 0.0
  }

  /** Removal never drives a quantity below zero; removing all that is there is allowed. */
  lemma RemoveKeepsNonNegative(m: Inventory, fuelType: FuelType, quantity: real, now: Instant)
    requires NonNegative(m)
    ensures NonNegative(AfterRemoveFuel(m, fuelType, quantity, now))
    ensures fuelType in m && quantity == m[fuelType].availableQuantity ==>
              CanRemove(m, fuelType, quantity) && AfterRemoveFuel(m, fuelType, quantity, now)[fuelType].availableQuantity == 0.0
  {
  }

  /** The table after UpdateFuelPrice: only the named entry's price (and time stamp) changes. */
  function AfterUpdatePrice(m: Inventory, fuelType: FuelType, newPrice: real, now: Instant): (r: Inventory)
    ensures r.Keys == m.Keys
    ensures forall t :: t in m && t != fuelType ==> r[t] == m[t]
    ensures fuelType in m ==>
              r[fuelType].pricePerLiter == newPrice &&
              r[fuelType].availableQuantity == m[fuelType].availableQuantity &&
              r[fuelType] == m[fuelType].(pricePerLiter := newPrice, lastUpdated := now)
    ensures fuelType !in m ==> r == m
  {
    if fuelType in m then m[fuelType := m[fuelType].(pricePerLiter := newPrice, lastUpdated := now)] else m
  }

  /** The table after SetMinimumStockLevel: only the named entry's minimum changes
      (the time stamp is left as it was). */
  function AfterSetMinimumStockLevel(m: Inventory, fuelType: FuelType, minimumLevel: real): (r: Inventory)
    ensures r.Keys == m.Keys
    ensures forall t :: t in m && t != fuelType ==> r[t] == m[t]
    ensures fuelType in m ==> r[fuelType] == m[fuelType].(minimumStockLevel := minimumLevel)
    ensures fuelType in m ==> (IsLowStock(r, fuelType) <==> m[fuelType].availableQuantity <= minimumLevel)
    ensures fuelType !in m ==> r == m
  {
    if fuelType in m then m[fuelType := m[fuelType].(minimumStockLevel := minimumLevel)] else m
  }

  /** Every update keeps entries filed under their own type. */
  lemma UpdatesKeepWellKeyed(m: Inventory, fuelType: FuelType, x: real, now: Instant)
    requires WellKeyed(m)
    ensures WellKeyed(AfterAddFuel(m, fuelType, x, now)) && WellKeyed(AfterRemoveFuel(m, fuelType, x, now))
    ensures WellKeyed(AfterUpdatePrice(m, fuelType, x, now)) && WellKeyed(AfterSetMinimumStockLevel(m, fuelType, x))
  {
  }
}
