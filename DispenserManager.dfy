/** The dispenser registry: any unit behind the common dispensing interface,
    request routing to the first eligible unit, and lookup by fuel type. */
module DispenserManagement {
  import opened Models
  import opened Queries
  import opened FuelDispensers
  import opened ChargingStations

  /** IFuelDispenser, as the closed set of its implementations. Every member below is
      the interface's operation; callers see only the contract stated here. */
  datatype Dispenser = Pump(pump: FuelDispenser) | Charger(station: ElectricChargingStation)
  {
    /** The object whose state the unit's operations change. */
    function Unit(): object {
      match this
      case Pump(p) => p
      case Charger(c) => c
    }

    function PumpNumber(): int {
      match this
      case Pump(p) => p.pumpNumber
      case Charger(c) => c.pumpNumber
    }

    function SupportedFuelType(): FuelType {
      match this
      case Pump(p) => p.supportedFuelType
      case Charger(c) => c.supportedFuelType
    }

    predicate IsOperational() {
      match this
      case Pump(p) => p.isOperational
      case Charger(c) => c.isOperational
    }

    function MaxDispenseRate(): real {
      match this
      case Pump(p) => p.maxDispenseRate
      case Charger(c) => c.maxDispenseRate
    }

    /** Whether DispenseFuel(quantity) is accepted by this unit. */
    predicate Accepts(quantity: real) {
      match this
      case Pump(p) => p.Accepts(quantity)
      case Charger(c) => c.Accepts(quantity)
    }

    function TotalDispensed(): real
      reads Unit()
    {
      match this
      case Pump(p) => p.totalDispensed
      case Charger(c) => c.totalEnergyDispensed
    }

    /** Dispensing (a pump) or charging (a station). */
    predicate IsActive()
      reads Unit()
    {
      match this
      case Pump(p) => p.isDispensing
      case Charger(c) => c.isCharging
    }

    method DispenseFuel(quantity: real) returns (success: bool)
      modifies Unit()
      ensures success == Accepts(quantity)
      ensures TotalDispensed() == old(TotalDispensed()) + (if success then quantity else 0.0)
      ensures IsActive() == (old(IsActive()) || success)
    {
      match this
      case Pump(p) => success := p.DispenseFuel(quantity);
      case Charger(c) => success := c.DispenseFuel(quantity);
    }

    method StopDispensing() returns (success: bool)
      modifies Unit()
      ensures success == old(IsActive())
      ensures !IsActive()
      ensures TotalDispensed() == old(TotalDispensed())
    {
      match this
      case Pump(p) => success := p.StopDispensing();
      case Charger(c) => success := c.StopDispensing();
    }
  }

  /** Every implementation refuses everything when it is not operational. */
  lemma NotOperationalRefuses(d: Dispenser, quantity: real)
    requires !d.IsOperational()
    ensures !d.Accepts(quantity)
  {
  }

  /** An operational unit without a minimum accepts exactly the quantities in (0, max rate]. */
  lemma AcceptsWithinRate(d: Dispenser, quantity: real)
    requires d.IsOperational() && !(d.Pump? && d.pump.variant.HighVolume?)
    ensures d.Accepts(quantity) <==> 0.0 < quantity <= d.MaxDispenseRate()
  {
  }

  function OfType(fuelType: FuelType): Dispenser -> bool {
    (d: Dispenser) => d.SupportedFuelType() == fuelType
  }

  /** The selection predicate of ProcessFuelRequest. */
  function Eligible(fuelType: FuelType): Dispenser -> bool {
    (d: Dispenser) => d.SupportedFuelType() == fuelType && d.IsOperational()
  }

  class DispenserManager {
    var dispensers: seq<Dispenser>

    constructor ()
      ensures dispensers == []
    {
      dispensers := [];
    }

    /** Appends the unit; duplicate pump numbers are not checked. */
    method AddDispenser(dispenser: Dispenser)
      modifies this
      ensures dispensers == old(dispensers) + [dispenser]
    {
      dispensers := dispensers + [dispenser];
    }

    /** The unit a request for `fuelType` goes to: the first registered one of that
        type that is operational. */
    function SelectDispenser(fuelType: FuelType): (r: Option<nat>)
      reads this
      ensures r.None? ==> forall j :: 0 <= j < |dispensers| ==>
                            !(dispensers[j].SupportedFuelType() == fuelType && dispensers[j].IsOperational())
      ensures r.Some? ==> r.value < |dispensers| &&
                          dispensers[r.value].SupportedFuelType() == fuelType && dispensers[r.value].IsOperational()
      ensures r.Some? ==> forall j :: 0 <= j < r.value ==>
                            !(dispensers[j].SupportedFuelType() == fuelType && dispensers[j].IsOperational())
    {
      FindFirst(dispensers, Eligible(fuelType))
    }

    /** The state a request for `fuelType` may change: the selected unit's, or none. */
    ghost function Chosen(fuelType: FuelType): set<object>
      reads this
    {
      match SelectDispenser(fuelType)
      case None => {}
      case Some(i) => {dispensers[i].Unit()}
    }

    /** Routes the request to the selected unit, answers its DispenseFuel result,
        and stops the unit after a successful dispense. Nothing but the selected
        unit can change. */
    method ProcessFuelRequest(fuelType: FuelType, quantity: real) returns (success: bool)
      modifies Chosen(fuelType)
      ensures dispensers == old(dispensers)
      ensures SelectDispenser(fuelType).None? ==> !success
      ensures SelectDispenser(fuelType).Some? ==>
                var d := dispensers[SelectDispenser(fuelType).value];
                && success == d.Accepts(quantity)
                && d.TotalDispensed() == old(d.TotalDispensed()) + (if success then quantity else 0.0)
                && (if success then !d.IsActive() else d.IsActive() == old(d.IsActive()))
      ensures forall j :: 0 <= j < |dispensers| && dispensers[j].Unit() !in Chosen(fuelType) ==>
                unchanged(dispensers[j].Unit())
    {
      var choice := SelectDispenser(fuelType);
      match choice
      case None =>
        return false;
      case Some(i) =>
        var d := dispensers[i];
        success := d.DispenseFuel(quantity);
        if success {
          var _ := d.StopDispensing();
        }
    }

    /** The units of one fuel type, in registration order. */
    function GetDispensersByFuelType(fuelType: FuelType): (r: seq<Dispenser>)
      reads this
      ensures forall i :: 0 <= i < |r| ==> r[i] in dispensers && r[i].SupportedFuelType() == fuelType
      ensures forall i :: 0 <= i < |dispensers| && dispensers[i].SupportedFuelType() == fuelType ==>
                dispensers[i] in r
    {
      Where(dispensers, OfType(fuelType))
    }
  }

  /** Registering a unit extends the by-type lookup at its end, and only for its own type. */
  lemma ByFuelTypeAfterAdd(before: seq<Dispenser>, d: Dispenser, fuelType: FuelType)
    ensures Where(before + [d], OfType(fuelType)) ==
            Where(before, OfType(fuelType)) + (if d.SupportedFuelType() == fuelType then [d] else [])
  {
    WhereAppend(before, [d], OfType(fuelType));
  }

  /** Registering a unit never changes which earlier unit a request selects, if one was eligible. */
  lemma SelectionStableUnderAdd(before: seq<Dispenser>, d: Dispenser, fuelType: FuelType)
    requires FindFirst(before, Eligible(fuelType)).Some?
    ensures FindFirst(before + [d], Eligible(fuelType)) == FindFirst(before, Eligible(fuelType))
  {
    var i := FindFirst(before, Eligible(fuelType)).value;
    var r := FindFirst(before + [d], Eligible(fuelType));
    assert (before + [d])[i] == before[i];
    assert forall j :: 0 <= j < i ==> (before + [d])[j] == before[j];
  }

  /** One standard Regular pump, registered and asked for 40 litres, then for Diesel. */
  method RegularPumpRequests() returns (pump: FuelDispenser, regular: bool, diesel: bool)
    ensures regular && pump.totalDispensed == 40.0 && !pump.isDispensing
    ensures !diesel
  {
    var manager := new DispenserManager();
    pump := new FuelDispenser.Standard(1, Regular);
    manager.AddDispenser(Pump(pump));
    regular := manager.ProcessFuelRequest(Regular, 40.0);
    diesel := manager.ProcessFuelRequest(Diesel, 10.0);
  }
}
