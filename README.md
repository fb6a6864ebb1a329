# Fuel station core: a Dafny model with proofs

This project models the fuel-station domain of the `solid_principles` C# demo, and proves properties of the model:

- **Dispensers.** The standard pump, the high-volume pump and the electric charging station sit behind the common dispensing interface. The dispenser manager routes each fuel request to the first operational unit of the requested type.
- **Fuel inventories.** There are three inventories: the single-responsibility `FuelInventoryManager`, the interface-segregated `InventoryService`, and the fuel table of the `InMemoryRepository`. Each starts with Regular, Premium and Diesel stock.
- **Sales and price ledgers.** `SalesProcessor`, `SalesService` and `PriceManager` each allocate ids from a counter. They keep `Sale` and `PriceUpdate` lists and answer LINQ queries: filters, sums, a grouping, and the latest update by a stable descending sort.
- **Repository and station manager.** The in-memory repository replaces a saved sale that has the same id. The station manager checks stock, prices the sale, draws the fuel, saves both, and alerts the manager when stock is low. It also records price changes and checks the inventory.
- **Payments.** A factory maps each payment method to a processor. The card and mobile processors validate payment details, and card payments are authorised up to a fixed limit.

How the code is represented:

- **State.** Classes with mutable fields become Dafny classes. Fields are reassigned and methods say what they modify.
- **Records.** `Fuel`, `Sale` and `PriceUpdate` are values (datatypes). Changing one is building an updated copy, which the store then files.
- **Interfaces.** `IFuelDispenser` is the closed datatype `Dispenser`, with one variant per implementation. Its operations dispatch on the variant.
- **The high-volume subclass.** The standard pump and its high-volume subclass are one class with a `variant` field. The overridden `DispenseFuel` and `StartDispensing` dispatch on that field. So the base `DispenseFuel`'s call to `StartDispensing` reaches the override, as the virtual call does.
- **LINQ.** `Where`, `Sum`, `FirstOrDefault` and `OrderByDescending` have reference definitions in module `Queries`. `OrderByDescending` is a stable sort, as LINQ's is. "Latest" is also given an independent definition, `LatestIndex`: the maximal key, first among equals. It is proved equal to the head of the sorted sequence.
- **Time.** `decimal` is `real`. `DateTime` is a tick count (`Instant`), and `.Date` is the tick count divided by the ticks per day. Every `DateTime.Now` reading is a `now` parameter.
- **Ids.** The random ids of the station manager are parameters.
- **Errors.** Exceptions are the `Thrown` case of an `Outcome` result.
- **Notifications.** The notification service is a ghost log of the notifications the station manager sends.

## Model

| member | source | states |
|---|---|---|
| Models.DateOf | solid_principles/SingleResponsibility/SalesProcessor.cs:42 | the calendar day of an instant is the day whose tick range contains it |
| Models.AtMinimumIsLowStock | solid_principles/Models/Fuel.cs:13 | a quantity equal to the minimum level counts as low stock |
| Models.AboveMinimumIsNotLowStock | solid_principles/Models/Fuel.cs:13 | a quantity strictly above the minimum level is not low stock |
| Models.Sale.CalculateTotal | solid_principles/Models/Sale.cs:20-23 | the total becomes quantity × unit price and no other field changes |
| Models.CalculateTotalIdempotent | solid_principles/Models/Sale.cs:20-23 | computing the total twice gives the same sale as computing it once |
| Models.NewSale | solid_principles/Models/Sale.cs:5-18 | a new sale carries the given fields, is stamped with the creation instant, and has total 0 until CalculateTotal |
| Models.PriceUpdate.PercentageChange | solid_principles/Models/PriceUpdate.cs:14 | 0 when the old price is not positive; otherwise percentage × old price = change × 100 |
| Models.PercentageChangeSign | solid_principles/Models/PriceUpdate.cs:13-14 | with a positive old price, the percentage is positive, negative or zero exactly when the price change is |
| Queries.Where | solid_principles/SingleResponsibility/SalesProcessor.cs:47 | the result holds only matching elements of the input, and every matching element of the input |
| Queries.WhereAppend | solid_principles/SingleResponsibility/SalesProcessor.cs:45-48 | filtering a concatenation is concatenating the filtered parts, so the input order is kept |
| Queries.WhereAll | solid_principles/SingleResponsibility/SalesProcessor.cs:47 | when every element matches, the filter returns the input unchanged |
| Queries.WhereWhere | solid_principles/InterfaceSegregation/SalesService.cs:99-102 | filtering twice equals filtering once by both predicates |
| Queries.SumOfWhere | solid_principles/InterfaceSegregation/SalesService.cs:83-85 | the sum over the filtered list equals the conditional sum over the whole list |
| Queries.SumWhereAppend | solid_principles/InterfaceSegregation/SalesService.cs:83-85 | appending one element adds its value to a conditional sum exactly when it matches |
| Queries.SumWhereRemoveAt | solid_principles/InterfaceSegregation/SalesService.cs:83-85 | removing one element takes its value out of a conditional sum exactly when it matches |
| Queries.SumNonNegative | solid_principles/InterfaceSegregation/SalesService.cs:94 | a sum of non-negative values is non-negative |
| Queries.FindFirst | solid_principles/SingleResponsibility/SalesProcessor.cs:57 | None exactly when nothing matches; otherwise a matching index before which nothing matches |
| Queries.FirstOrDefault | solid_principles/SingleResponsibility/SalesProcessor.cs:57 | None exactly when nothing matches; otherwise the first matching element |
| Queries.Head | solid_principles/SingleResponsibility/PriceManager.cs:51 | None for the empty list, else its first element |
| Queries.RemoveAt | solid_principles/InterfaceSegregation/SalesService.cs:47 | one element shorter; the elements before the index stay put and those after shift down by one; the multiset loses exactly that element |
| Queries.WhereRejectingOne | solid_principles/DependencyInversion/InMemoryRepository.cs:26-32 | when s[k] is the only element the predicate rejects, filtering equals removing s[k] |
| Queries.OrderByDescendingSorted | solid_principles/SingleResponsibility/PriceManager.cs:57-58 | the result is sorted by descending key and is a permutation of the input |
| Queries.OrderByDescendingStable | solid_principles/SingleResponsibility/PriceManager.cs:57-58 | elements with equal keys keep their input order |
| Queries.LatestIndex | solid_principles/SingleResponsibility/PriceManager.cs:48-51 | None exactly when nothing matches; otherwise a matching index with the largest key, and the first one with that key |
| Queries.LatestIsHeadOfSorted | solid_principles/SingleResponsibility/PriceManager.cs:48-51 | the head of the filtered, stably sorted list is the element LatestIndex names |
| Filters.IncreasingIdsAreUnique | solid_principles/InterfaceSegregation/SalesService.cs:21-26 | strictly increasing ids are pairwise distinct |
| Filters.WhereKeepsIdsUnique | solid_principles/DependencyInversion/InMemoryRepository.cs:26-32 | filtering a list with unique ids leaves unique ids |
| Filters.RemoveFoundIdLeavesNone | solid_principles/InterfaceSegregation/SalesService.cs:44-47 | with unique ids, removing the sale found by id leaves no sale with that id |
| Filters.HistoryQuery | solid_principles/SingleResponsibility/PriceManager.cs:54-60 | filter-then-sort gives newest first, each selected update exactly once, and equal instants in recording order |
| Filters.LatestUpdate | solid_principles/SingleResponsibility/PriceManager.cs:46-52 | None exactly when no update is selected; otherwise a selected update with the latest instant, the first recorded among ties |
| Filters.StrictlyLaterUpdateIsLatest | solid_principles/SingleResponsibility/PriceManager.cs:20-37 | an appended selected update that is strictly later than all others becomes the latest |
| Filters.UnselectedUpdateKeepsLatest | solid_principles/SingleResponsibility/PriceManager.cs:46-52 | appending an update the filter rejects changes neither the selection nor the latest update |
| FuelDispensers.FuelDispenser.Standard | solid_principles/LiskovSubstitution/StandardFuelDispenser.cs:19-27 | a new pump is operational and idle with total 0; the maximum rate defaults to 50 |
| FuelDispensers.FuelDispenser.HighVolume | solid_principles/LiskovSubstitution/HighVolumeDispenser.cs:14-19 | the base constructor's state, with maximum rate 100 and minimum quantity 10 by default |
| FuelDispensers.FuelDispenser.BaseDispenseFuel | solid_principles/LiskovSubstitution/StandardFuelDispenser.cs:29-45 | succeeds exactly when operational and 0 < quantity <= maximum rate; on success the total grows by the quantity and the pump is dispensing; otherwise nothing changes |
| FuelDispensers.FuelDispenser.DispenseFuel | solid_principles/LiskovSubstitution/HighVolumeDispenser.cs:21-33 | as the base, but a high-volume pump also refuses quantities below its minimum |
| FuelDispensers.FuelDispenser.BaseStartDispensing | solid_principles/LiskovSubstitution/StandardFuelDispenser.cs:47-57 | succeeds exactly when operational and idle, and then the pump is dispensing; the total is unchanged |
| FuelDispensers.FuelDispenser.PerformSafetyCheck | solid_principles/LiskovSubstitution/HighVolumeDispenser.cs:49-54 | the simulated safety check always passes |
| FuelDispensers.FuelDispenser.StartDispensing | solid_principles/LiskovSubstitution/HighVolumeDispenser.cs:35-47 | the override behaves exactly as the base start, because its safety check passes |
| FuelDispensers.FuelDispenser.StopDispensing | solid_principles/LiskovSubstitution/StandardFuelDispenser.cs:59-69 | answers whether the pump was dispensing, leaves it idle, and keeps the total |
| FuelDispensers.FuelDispenser.GetTotalDispensed | solid_principles/LiskovSubstitution/StandardFuelDispenser.cs:71-74 | returns the cumulative total |
| FuelDispensers.FuelDispenser.ResetCounter | solid_principles/LiskovSubstitution/StandardFuelDispenser.cs:76-80 | sets the total to 0 and leaves the dispensing flag alone |
| FuelDispensers.BelowMinimumRefused | solid_principles/LiskovSubstitution/HighVolumeDispenser.cs:25-29 | a high-volume pump refuses any quantity below its minimum |
| FuelDispensers.AtOrAboveMinimumIsBase | solid_principles/LiskovSubstitution/HighVolumeDispenser.cs:25-32 | at or above the minimum, the high-volume guard equals the base guard, so the minimum itself is accepted |
| FuelDispensers.MinimumAboveRateRefusesAll | solid_principles/LiskovSubstitution/HighVolumeDispenser.cs:14-32 | a minimum above the maximum rate makes every request fail |
| FuelDispensers.StopTwice | solid_principles/LiskovSubstitution/StandardFuelDispenser.cs:59-69 | stopping a dispensing pump twice answers true, then false |
| FuelDispensers.DispenseOnNewPump | solid_principles/LiskovSubstitution/StandardFuelDispenser.cs:19-45 | on a fresh pump, a request within the rate succeeds, leaves the total equal to the quantity, and starts the pump |
| ChargingStations.ElectricChargingStation.constructor | solid_principles/LiskovSubstitution/ElectricChargingStation.cs:20-27 | a new station is operational and idle with total 0; the maximum rate defaults to 150 |
| ChargingStations.ElectricChargingStation.DispenseFuel | solid_principles/LiskovSubstitution/ElectricChargingStation.cs:29-46 | succeeds exactly when operational and 0 < quantity <= maximum rate; on success the energy total grows by the quantity and the station is charging |
| ChargingStations.ElectricChargingStation.StartDispensing | solid_principles/LiskovSubstitution/ElectricChargingStation.cs:48-59 | succeeds exactly when operational and idle, and then the station is charging |
| ChargingStations.ElectricChargingStation.StopDispensing | solid_principles/LiskovSubstitution/ElectricChargingStation.cs:61-72 | answers whether it was charging and leaves it idle |
| ChargingStations.ElectricChargingStation.GetTotalDispensed | solid_principles/LiskovSubstitution/ElectricChargingStation.cs:74-77 | returns the cumulative energy |
| ChargingStations.ElectricChargingStation.ResetCounter | solid_principles/LiskovSubstitution/ElectricChargingStation.cs:79-83 | sets the energy total to 0 and leaves the charging flag alone |
| ChargingStations.AlwaysElectric | solid_principles/LiskovSubstitution/ElectricChargingStation.cs:12 | a station always reports Electric |
| DispenserManagement.Dispenser.DispenseFuel | solid_principles/LiskovSubstitution/IFuelDispenser.cs:16 | for any unit: success equals the unit's guard; on success the total grows by the quantity and the unit is active |
| DispenserManagement.Dispenser.StopDispensing | solid_principles/LiskovSubstitution/IFuelDispenser.cs:18 | for any unit: answers whether it was active, leaves it inactive, and keeps the total |
| DispenserManagement.NotOperationalRefuses | solid_principles/LiskovSubstitution/StandardFuelDispenser.cs:31-34 | a unit that is not operational refuses every quantity |
| DispenserManagement.AcceptsWithinRate | solid_principles/LiskovSubstitution/ElectricChargingStation.cs:31-35 | an operational unit without a minimum accepts exactly the quantities in (0, maximum rate] |
| DispenserManagement.DispenserManager.constructor | solid_principles/LiskovSubstitution/DispenserManager.cs:13-16 | starts with no units |
| DispenserManagement.DispenserManager.AddDispenser | solid_principles/LiskovSubstitution/DispenserManager.cs:18-22 | appends the unit |
| DispenserManagement.DispenserManager.SelectDispenser | solid_principles/LiskovSubstitution/DispenserManager.cs:27-28 | the first unit of the type that is operational, or none |
| DispenserManagement.DispenserManager.ProcessFuelRequest | solid_principles/LiskovSubstitution/DispenserManager.cs:24-45 | false when no unit is eligible; otherwise the selected unit's answer; after success that unit has dispensed the quantity and is stopped; no other unit changes |
| DispenserManagement.DispenserManager.GetDispensersByFuelType | solid_principles/LiskovSubstitution/DispenserManager.cs:60-63 | exactly the units of that type |
| DispenserManagement.ByFuelTypeAfterAdd | solid_principles/LiskovSubstitution/DispenserManager.cs:60-63 | adding a unit extends the by-type list at its end, and only for the unit's own type |
| DispenserManagement.SelectionStableUnderAdd | solid_principles/LiskovSubstitution/DispenserManager.cs:27-28 | adding a unit never changes an existing selection |
| DispenserManagement.RegularPumpRequests | solid_principles/LiskovSubstitution/DispenserManager.cs:24-45 | 40 litres on a Regular pump succeed and leave it stopped with total 40; Diesel with no Diesel pump is refused |
| InventoryTables.DefaultInventory | solid_principles/SingleResponsibility/FuelInventoryManager.cs:60-94 | exactly Regular, Premium and Diesel, each under its own type, none low and all positive; no Electric |
| InventoryTables.DefaultInventoryTable | solid_principles/SingleResponsibility/FuelInventoryManager.cs:60-94 | quantities 5000/3000/4000, minimums 500/300/400, prices 1.25/1.45/1.35 |
| InventoryTables.GetFuel | solid_principles/SingleResponsibility/FuelInventoryManager.cs:55-58 | None exactly for an absent type; otherwise the entry |
| InventoryTables.AvailableQuantity | solid_principles/SingleResponsibility/FuelInventoryManager.cs:40-43 | 0 for an absent type; otherwise the entry's quantity |
| InventoryTables.AbsentIsNotLowStock | solid_principles/SingleResponsibility/FuelInventoryManager.cs:45-48 | an absent type is not low on stock and has 0 available |
| InventoryTables.AllFuels | solid_principles/InterfaceSegregation/InventoryService.cs:40-43 | exactly the table's entries |
| InventoryTables.LowStockFuels | solid_principles/SingleResponsibility/FuelInventoryManager.cs:50-53 | exactly the entries that are low on stock |
| InventoryTables.AfterAddFuel | solid_principles/SingleResponsibility/FuelInventoryManager.cs:19-26 | only the named entry changes, gaining the quantity and a new time stamp; an absent type leaves the table as it was |
| InventoryTables.AfterRemoveFuel | solid_principles/SingleResponsibility/FuelInventoryManager.cs:28-38 | when the entry exists and has enough, only it changes, losing the quantity; otherwise nothing changes |
| InventoryTables.RemoveKeepsNonNegative | solid_principles/SingleResponsibility/FuelInventoryManager.cs:30 | removal never drives stock below 0, and removing exactly what is available is allowed |
| InventoryTables.AfterUpdatePrice | solid_principles/InterfaceSegregation/InventoryService.cs:69-81 | only the named entry's price and time stamp change; the quantity stays |
| InventoryTables.AfterSetMinimumStockLevel | solid_principles/InterfaceSegregation/InventoryService.cs:83-90 | only the named entry's minimum changes, so low stock is then judged against the new level |
| InventoryTables.UpdatesKeepWellKeyed | solid_principles/InterfaceSegregation/InventoryService.cs:46-90 | every update keeps each entry filed under its own type |
| FuelInventory.FuelInventoryManager.constructor | solid_principles/SingleResponsibility/FuelInventoryManager.cs:13-17 | starts with the default table |
| FuelInventory.FuelInventoryManager.AddFuel | solid_principles/SingleResponsibility/FuelInventoryManager.cs:19-26 | the new table is AfterAddFuel of the old one |
| FuelInventory.FuelInventoryManager.RemoveFuel | solid_principles/SingleResponsibility/FuelInventoryManager.cs:28-38 | succeeds exactly when the fuel exists with enough stock; the new table is AfterRemoveFuel of the old one |
| FuelInventory.FuelInventoryManager.GetAvailableQuantity | solid_principles/SingleResponsibility/FuelInventoryManager.cs:40-43 | 0 for an absent type, else the entry's quantity |
| FuelInventory.FuelInventoryManager.IsLowStock | solid_principles/SingleResponsibility/FuelInventoryManager.cs:45-48 | false for an absent type, else quantity <= minimum |
| FuelInventory.FuelInventoryManager.GetLowStockFuels | solid_principles/SingleResponsibility/FuelInventoryManager.cs:50-53 | exactly the low-stock entries |
| FuelInventory.FuelInventoryManager.GetFuel | solid_principles/SingleResponsibility/FuelInventoryManager.cs:55-58 | None exactly for an absent type |
| InventoryServices.InventoryService.constructor | solid_principles/InterfaceSegregation/InventoryService.cs:13-18 | starts with the default table |
| InventoryServices.InventoryService.GetFuel | solid_principles/InterfaceSegregation/InventoryService.cs:20-23 | None exactly for an absent type |
| InventoryServices.InventoryService.GetAvailableQuantity | solid_principles/InterfaceSegregation/InventoryService.cs:25-28 | 0 for an absent type, else the entry's quantity |
| InventoryServices.InventoryService.IsLowStock | solid_principles/InterfaceSegregation/InventoryService.cs:30-33 | false for an absent type, else quantity <= minimum |
| InventoryServices.InventoryService.GetLowStockFuels | solid_principles/InterfaceSegregation/InventoryService.cs:35-38 | exactly the fuels of GetAllFuels that are low on stock |
| InventoryServices.InventoryService.GetAllFuels | solid_principles/InterfaceSegregation/InventoryService.cs:40-43 | exactly the table's entries |
| InventoryServices.InventoryService.AddFuel | solid_principles/InterfaceSegregation/InventoryService.cs:46-54 | the new table is AfterAddFuel of the old one |
| InventoryServices.InventoryService.RemoveFuel | solid_principles/InterfaceSegregation/InventoryService.cs:56-67 | succeeds exactly when the fuel exists with enough stock; the new table is AfterRemoveFuel of the old one |
| InventoryServices.InventoryService.UpdateFuelPrice | solid_principles/InterfaceSegregation/InventoryService.cs:69-81 | succeeds exactly for a stocked type; the new table is AfterUpdatePrice of the old one |
| InventoryServices.InventoryService.SetMinimumStockLevel | solid_principles/InterfaceSegregation/InventoryService.cs:83-90 | the new table is AfterSetMinimumStockLevel of the old one |
| SalesProcessing.NumberedIdsIncrease | solid_principles/SingleResponsibility/SalesProcessor.cs:14-26 | ids numbered from 1 in order are increasing and unique |
| SalesProcessing.NumberedLookup | solid_principles/SingleResponsibility/SalesProcessor.cs:55-58 | in a numbered list, the lookup of id k finds the k-th sale, and finds nothing outside 1..count |
| SalesProcessing.SalesProcessor.constructor | solid_principles/SingleResponsibility/SalesProcessor.cs:14-18 | no sales; the next id is 1 |
| SalesProcessing.SalesProcessor.ProcessSale | solid_principles/SingleResponsibility/SalesProcessor.cs:20-38 | returns the new sale with the next id and total quantity × price, appends exactly it, and increments the counter; numbering is kept |
| SalesProcessing.SalesProcessor.GetSalesByDate | solid_principles/SingleResponsibility/SalesProcessor.cs:40-43 | exactly the sales made on that calendar day |
| SalesProcessing.SalesProcessor.GetSalesByFuelType | solid_principles/SingleResponsibility/SalesProcessor.cs:45-48 | exactly the sales of that fuel type |
| SalesProcessing.SalesProcessor.GetSalesByPaymentMethod | solid_principles/SingleResponsibility/SalesProcessor.cs:50-53 | exactly the sales paid that way |
| SalesProcessing.SalesProcessor.GetSaleById | solid_principles/SingleResponsibility/SalesProcessor.cs:55-58 | None exactly when no sale has that id; otherwise a stored sale with that id |
| SalesProcessing.SalesProcessor.GetAllSales | solid_principles/SingleResponsibility/SalesProcessor.cs:60-63 | a copy equal to the stored list |
| SalesProcessing.FilterAfterSale | solid_principles/SingleResponsibility/SalesProcessor.cs:35 | a new sale extends every filter at its end, and only the filters it matches |
| SalesServices.RemoveAtKeepsIdsBelowNext | solid_principles/InterfaceSegregation/SalesService.cs:42-52 | removing a sale keeps the ids increasing and below the counter |
| SalesServices.FuelTypesIn | solid_principles/InterfaceSegregation/SalesService.cs:101 | exactly the fuel types that occur in the list |
| SalesServices.SalesService.constructor | solid_principles/InterfaceSegregation/SalesService.cs:14-19 | no sales; the next id is 1 |
| SalesServices.SalesService.ProcessSale | solid_principles/InterfaceSegregation/SalesService.cs:21-40 | appends the new sale with the next id and total quantity × price; its id exceeds every earlier one |
| SalesServices.SalesService.CancelSale | solid_principles/InterfaceSegregation/SalesService.cs:42-52 | true exactly when a sale has the id; it then removes the first such sale, keeping the others in order; otherwise nothing changes; afterwards no sale has the id, and the counter never goes back |
| SalesServices.SalesService.RefundSale | solid_principles/InterfaceSegregation/SalesService.cs:54-63 | true exactly when a sale has the id; nothing changes |
| SalesServices.SalesService.GetSalesByDate | solid_principles/InterfaceSegregation/SalesService.cs:66-69 | exactly the sales made on that calendar day |
| SalesServices.SalesService.GetSalesByFuelType | solid_principles/InterfaceSegregation/SalesService.cs:71-74 | exactly the sales of that fuel type |
| SalesServices.SalesService.GetSalesByPaymentMethod | solid_principles/InterfaceSegregation/SalesService.cs:76-79 | exactly the sales paid that way |
| SalesServices.SalesService.GetTotalSalesAmount | solid_principles/InterfaceSegregation/SalesService.cs:81-86 | the conditional sum of totals over the sales whose day lies in the range, both ends included |
| SalesServices.SalesService.GetTotalFuelSold | solid_principles/InterfaceSegregation/SalesService.cs:88-95 | the sum of quantities over that fuel's sales filtered to the day range |
| SalesServices.SalesService.GetSalesSummaryByFuelType | solid_principles/InterfaceSegregation/SalesService.cs:97-103 | one entry per fuel type sold that day, holding that day's total for the type |
| SalesServices.DayFuelTypes | solid_principles/InterfaceSegregation/SalesService.cs:99-101 | a type occurs among a day's sales exactly when a sale of that type was made that day |
| SalesServices.SummaryOfDay | solid_principles/InterfaceSegregation/SalesService.cs:97-103 | the grouping's keys and per-type sums, stated over the whole list |
| SalesServices.TotalAfterSale | solid_principles/InterfaceSegregation/SalesService.cs:81-86 | a new sale adds its total to exactly the ranges containing its day |
| SalesServices.TotalAfterCancel | solid_principles/InterfaceSegregation/SalesService.cs:42-52 | cancelling takes the sale's total out of exactly the ranges containing its day |
| SalesServices.FuelSoldNonNegative | solid_principles/InterfaceSegregation/SalesService.cs:88-95 | with non-negative quantities, the fuel sold is non-negative |
| SalesServices.CancelledIdNotReused | solid_principles/InterfaceSegregation/SalesService.cs:21-26 | a cancelled id is below the counter, so the next sale never reuses it |
| PriceManagement.PriceManager.constructor | solid_principles/SingleResponsibility/PriceManager.cs:14-18 | empty history; the next id is 1 |
| PriceManagement.PriceManager.GetLatestPriceUpdate | solid_principles/SingleResponsibility/PriceManager.cs:46-52 | None exactly when the fuel type was never updated; otherwise its update with the latest instant, the first recorded among ties |
| PriceManagement.PriceManager.GetCurrentPrice | solid_principles/SingleResponsibility/PriceManager.cs:40-44 | 0 when never updated; otherwise the new price of the update of that fuel with the latest instant, the first recorded among ties |
| PriceManagement.PriceManager.UpdatePrice | solid_principles/SingleResponsibility/PriceManager.cs:20-38 | records an update with the next id whose old price is the current price just before it; appends it and increments the counter |
| PriceManagement.NumberedAppend | solid_principles/SingleResponsibility/PriceManager.cs:20-38 | appending an update numbered one past the history keeps the ids 1, 2, 3, ... in recording order |
| PriceManagement.PriceManager.GetPriceHistory | solid_principles/SingleResponsibility/PriceManager.cs:54-60 | that fuel's updates, newest first, each once, ties in recording order |
| PriceManagement.PriceManager.GetPriceHistoryByDate | solid_principles/SingleResponsibility/PriceManager.cs:62-68 | that day's updates, newest first, each once, ties in recording order |
| PriceManagement.CurrentPriceAfterUpdate | solid_principles/SingleResponsibility/PriceManager.cs:20-44 | when the clock moved on, an update becomes the latest for its own fuel and leaves every other fuel's latest unchanged |
| PriceManagement.SameInstantKeepsFirst | solid_principles/SingleResponsibility/PriceManager.cs:48-51 | of two updates at the same instant, the first recorded stays the latest |
| PriceManagement.ChainedUpdates | solid_principles/SingleResponsibility/PriceManager.cs:20-44 | two successive updates: the first has old price 0, the second has the first's new price as old price, and the current price is the second's |
| Repositories.WithSaleSaved | solid_principles/DependencyInversion/InMemoryRepository.cs:24-35 | the saved sale ends the list; with no same-id sale it is a plain append; otherwise the length is unchanged |
| Repositories.SaveSaleKeepsIdsUnique | solid_principles/DependencyInversion/InMemoryRepository.cs:24-35 | with unique ids, saving keeps the other sales in order, drops the one replaced, and keeps ids unique |
| Repositories.SaveThenGetSale | solid_principles/DependencyInversion/InMemoryRepository.cs:24-40 | with unique ids, looking up a just-saved sale's id returns that sale |
| Repositories.InMemoryRepository.constructor | solid_principles/DependencyInversion/InMemoryRepository.cs:15-21 | empty sale and price logs; the default fuel table |
| Repositories.InMemoryRepository.SaveSale | solid_principles/DependencyInversion/InMemoryRepository.cs:24-35 | returns true; the new log is every sale with another id, in order, followed by the saved sale; ids stay unique; fuels and prices unchanged |
| Repositories.InMemoryRepository.GetSaleById | solid_principles/DependencyInversion/InMemoryRepository.cs:37-40 | None exactly when no sale has the id; otherwise the first sale with it |
| Repositories.InMemoryRepository.GetSalesByDate | solid_principles/DependencyInversion/InMemoryRepository.cs:42-45 | exactly the sales made on that calendar day |
| Repositories.InMemoryRepository.SaveFuel | solid_principles/DependencyInversion/InMemoryRepository.cs:48-53 | returns true; sets or overwrites only the entry for the fuel's own type |
| Repositories.InMemoryRepository.GetFuelByType | solid_principles/DependencyInversion/InMemoryRepository.cs:55-58 | None exactly for an absent type |
| Repositories.InMemoryRepository.GetAllFuels | solid_principles/DependencyInversion/InMemoryRepository.cs:60-63 | exactly the table's entries |
| Repositories.InMemoryRepository.SavePriceUpdate | solid_principles/DependencyInversion/InMemoryRepository.cs:66-71 | returns true; always appends, duplicates included |
| Repositories.InMemoryRepository.GetPriceHistory | solid_principles/DependencyInversion/InMemoryRepository.cs:73-79 | that fuel's updates, newest first, each once, ties in recording order |
| Repositories.FreshRepositoryLacksElectric | solid_principles/DependencyInversion/InMemoryRepository.cs:81-115 | the initial table has no Electric entry and has every other type |
| StationManagement.LowStockAlert | solid_principles/DependencyInversion/FuelStationManager.cs:128-137 | an urgent notification to the recipient about that fuel |
| StationManagement.PriceChangeNotice | solid_principles/DependencyInversion/FuelStationManager.cs:139-148 | a normal notification to the recipient about that update |
| StationManagement.PurchaseRefusal | solid_principles/DependencyInversion/FuelStationManager.cs:29-39 | no refusal exactly when removal is possible; "not found" for an absent type; "insufficient" with the available amount when less than asked is available |
| StationManagement.FuelStationManager.constructor | solid_principles/DependencyInversion/FuelStationManager.cs:15-21 | keeps the repository and manager address; nothing sent yet |
| StationManagement.FuelStationManager.NotifyLowStock | solid_principles/DependencyInversion/FuelStationManager.cs:128-137 | sends exactly one urgent alert about the fuel to the manager |
| StationManagement.FuelStationManager.NotifyPriceChange | solid_principles/DependencyInversion/FuelStationManager.cs:139-148 | sends exactly one normal notice about the update to the manager |
| StationManagement.FuelStationManager.ProcessFuelPurchase | solid_principles/DependencyInversion/FuelStationManager.cs:23-71 | refused (throwing) exactly as PurchaseRefusal says, changing nothing; otherwise the sale has the fuel's price and its total, the stock drops by the quantity, the sale and fuel are saved, prices are untouched, and one urgent alert goes out exactly when the fuel is now low |
| StationManagement.FuelStationManager.UpdateFuelPrice | solid_principles/DependencyInversion/FuelStationManager.cs:73-104 | refused for an absent type, changing nothing; otherwise records old price = the fuel's price until now, sets the new price, appends the update, and sends one normal notice |
| StationManagement.FuelStationManager.CheckInventoryStatus | solid_principles/DependencyInversion/FuelStationManager.cs:106-126 | sends one urgent alert per low-stock fuel, and nothing else; data is unchanged |
| StationManagement.EmptyingPurchaseAlerts | solid_principles/DependencyInversion/FuelStationManager.cs:36-67 | buying exactly what is left is allowed, empties the fuel, and makes it low on stock |
| StationManagement.ElectricPurchaseRefused | solid_principles/DependencyInversion/FuelStationManager.cs:29-33 | buying Electric from a fresh repository fails with "not found" |
| StationManagement.FirstPurchases | solid_principles/DependencyInversion/FuelStationManager.cs:23-71 | on a fresh station, 40 L of Regular cost 50 and leave 4960 with no alert; Electric is refused |
| PaymentText.DigitsAreNotBlank | solid_principles/OpenClosed/CreditCardPaymentProcessor.cs:33-35 | a non-empty digit string is not blank |
| PaymentText.Utf16Length | solid_principles/OpenClosed/MobilePaymentProcessor.cs:33 | string.Length: between the character count and twice it, each character above U+FFFF counting two code units |
| PaymentText.BmpUtf16Length | solid_principles/OpenClosed/MobilePaymentProcessor.cs:33 | without characters above U+FFFF, the UTF-16 length is the character count |
| PaymentText.DigitsUtf16Length | solid_principles/OpenClosed/CreditCardPaymentProcessor.cs:34-35 | a string of digits has as many code units as characters |
| PaymentText.PlusPrefixIsNotBlank | solid_principles/OpenClosed/MobilePaymentProcessor.cs:32-33 | a "+"-prefixed string is not blank |
| CreditCardPayments.ConnectToPaymentGateway | solid_principles/OpenClosed/CreditCardPaymentProcessor.cs:38-43 | the simulated gateway always connects |
| CreditCardPayments.AuthorizeTransaction | solid_principles/OpenClosed/CreditCardPaymentProcessor.cs:45-50 | authorised exactly when the amount is at most 10000 |
| CreditCardPayments.ProcessPayment | solid_principles/OpenClosed/CreditCardPaymentProcessor.cs:9-23 | succeeds exactly when the amount is at most 10000 |
| CreditCardPayments.GetPaymentMethodName | solid_principles/OpenClosed/CreditCardPaymentProcessor.cs:25-28 | "Credit Card" |
| CreditCardPayments.ValidatePaymentDetails | solid_principles/OpenClosed/CreditCardPaymentProcessor.cs:30-36 | valid exactly when the details are at least 15 long and all digits; for digits the UTF-16 length is the character count |
| CreditCardPayments.ShortCardDetailsRejected | solid_principles/OpenClosed/CreditCardPaymentProcessor.cs:34 | anything shorter than 15 characters is rejected |
| CreditCardPayments.SixteenDigitCardNumber | solid_principles/OpenClosed/CreditCardPaymentProcessor.cs:30-36 | a 16-digit number passes; the same with a space does not |
| MobilePayments.SendPaymentRequest | solid_principles/OpenClosed/MobilePaymentProcessor.cs:36-40 | the simulated request always succeeds |
| MobilePayments.VerifyMobileApp | solid_principles/OpenClosed/MobilePaymentProcessor.cs:42-46 | the simulated app check always succeeds |
| MobilePayments.ProcessPayment | solid_principles/OpenClosed/MobilePaymentProcessor.cs:9-22 | every payment succeeds |
| MobilePayments.GetPaymentMethodName | solid_principles/OpenClosed/MobilePaymentProcessor.cs:24-27 | "Mobile Payment" |
| MobilePayments.ValidatePaymentDetails | solid_principles/OpenClosed/MobilePaymentProcessor.cs:29-34 | any "+"-prefixed string passes; any other passes exactly when its UTF-16 length is 10 and it is not blank |
| MobilePayments.TenSpacesRejected | solid_principles/OpenClosed/MobilePaymentProcessor.cs:32-33 | ten spaces have UTF-16 length 10 but are rejected |
| MobilePayments.DigitsValidExactlyAtTen | solid_principles/OpenClosed/MobilePaymentProcessor.cs:29-34 | a string of digits passes exactly when it holds ten of them, since it has no "+" prefix and one code unit per digit |
| MobilePayments.TenDigitNumber | solid_principles/OpenClosed/MobilePaymentProcessor.cs:29-34 | a ten-digit number passes; a nine-digit one does not |
| MobilePayments.SurrogatePairToken | solid_principles/OpenClosed/MobilePaymentProcessor.cs:33 | five characters above U+FFFF are ten code units, so they pass as a token |
| PaymentFactory.Processor.ProcessPayment | solid_principles/OpenClosed/IPaymentProcessor.cs:11 | card payments succeed exactly up to the limit; cash and mobile payments always succeed |
| PaymentFactory.Processor.GetPaymentMethodName | solid_principles/OpenClosed/IPaymentProcessor.cs:12 | "Cash", "Credit Card" or "Mobile Payment" by processor |
| PaymentFactory.Processor.ValidatePaymentDetails | solid_principles/OpenClosed/IPaymentProcessor.cs:13 | cash accepts anything; card and mobile apply their own validation |
| PaymentFactory.DefaultRegistrations | solid_principles/OpenClosed/PaymentProcessorFactory.cs:39-44 | exactly Cash, CreditCard and MobilePayment, each with its own processor; no DebitCard or FleetCard |
| PaymentFactory.PaymentProcessorFactory.constructor | solid_principles/OpenClosed/PaymentProcessorFactory.cs:13-17 | starts with the default registrations |
| PaymentFactory.PaymentProcessorFactory.CreateProcessor | solid_principles/OpenClosed/PaymentProcessorFactory.cs:19-27 | the registered processor for a registered method; "not supported" for any other |
| PaymentFactory.PaymentProcessorFactory.RegisterProcessor | solid_principles/OpenClosed/PaymentProcessorFactory.cs:29-32 | adds or overwrites one method's entry; every other method's creation is unchanged |
| PaymentFactory.PaymentProcessorFactory.GetSupportedPaymentMethods | solid_principles/OpenClosed/PaymentProcessorFactory.cs:34-37 | exactly the methods CreateProcessor supports |
| PaymentFactory.DefaultSupport | solid_principles/OpenClosed/PaymentProcessorFactory.cs:39-44 | the defaults support exactly three methods; their card processor accepts 10000 and refuses 10000.01 |
| PaymentFactory.RegisterFleetCards | solid_principles/OpenClosed/PaymentProcessorFactory.cs:29-37 | registering FleetCard makes it supported with the card processor; DebitCard stays unsupported |

## Left out

- **Console output.** The model leaves out all console output, its "F2" formatting, the text of notification messages, and `DispenserManager.GenerateReport`, which only prints.
- **Charging times.** `ElectricChargingStation` records a start time and computes a charging duration from the clock, only to print it. The model leaves both out.
- **Clock readings.** `DateTime.Now` readings are `now` parameters, and an operation that reads the clock several times gets one `now` for all of them. The readings could differ in the source, but are equal in the model. This affects three places. `ProcessFuelPurchase` reads the clock at sale creation and at the stock update, so the sale's timestamp equals the fuel's `LastUpdated`. `UpdateFuelPrice` reads it for the update's `UpdatedAt` and for the fuel's `LastUpdated`, so the two are equal. Each default-data initialiser reads it once per fuel (FuelInventoryManager, InventoryService and InMemoryRepository), so `DefaultInventory` stamps all three fuels with the same instant.
- **Random ids.** The ids from `GetNextSaleId` and `GetNextPriceUpdateId` are the parameters `saleId` and `updateId`.
- **`decimal` arithmetic.** Rounding to 28 significant digits, overflow exceptions and `PercentageChange`'s division rounding are not modelled, because quantities are exact reals.
- Sales and price-update id counters (`ProcessSale`, `UpdatePrice`): `int` overflow of the counters is not modelled, because the counters are unbounded integers.
- **Shared references.** The C# stores return references to their mutable `Fuel`, `Sale` and `PriceUpdate` objects, so a caller could change a stored record. In the model, records are values and only the stores' own operations change them.
- **Dictionary order.** `GetAllFuels` and `GetLowStockFuels` are sets, because dictionary enumeration order is unspecified. `CheckInventoryStatus` sends its alerts in an unspecified order.
- **Factory closures.** Each registered `Func<IPaymentProcessor>` is represented by the processor kind it builds. A factory that builds something else cannot be registered.
- **Loose interfaces.** `IFuelDispenser`, `IPaymentProcessor`, `IDataRepository` and `INotificationService` are closed in the model. The first two are the datatypes of their implementations. The repository is the in-memory class. Notification sending is the ghost log.
- **Whether notifications succeed.** The e-mail and SMS services always report success and only print, so the model keeps no result for them.
- **Character classes.** `char.IsDigit` accepts only the ASCII digits, whereas .NET accepts every Unicode decimal digit. `StartsWith("+")` is an ordinal prefix test, not a culture-sensitive one. `char.IsWhiteSpace` follows the .NET list of white-space characters. `string.Length` counts UTF-16 code units (`Utf16Length`). A digit is one code unit, so the card test `Length >= 15` on an all-digit string is a test on the character count.
- **Null checks.** Null checks and `ArgumentNullException` are not modelled, because Dafny references and strings are never null.
- **Default-constructed records.** A default-constructed `Fuel` or `Sale` gets enum values from `FuelType`'s declaration, which is not part of this model. Every record in the model is built with all its fields given.

No findings are claimed. One behaviour is worth knowing: two price updates made at the same instant leave the first one current (`PriceManagement.SameInstantKeepsFirst`). This is the documented stability of LINQ's `OrderByDescending`, and the model follows it as written.
