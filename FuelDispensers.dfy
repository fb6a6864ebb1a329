/** The volumetric pumps: the standard dispenser and its high-volume subclass.
    The subclass shares the base fields; the methods it overrides dispatch on
    `variant`, so a call the base makes on itself (the implicit start in
    DispenseFuel) reaches the override, as a virtual call does. */
module FuelDispensers {
  import opened Models

  const StandardDefaultMaxRate: real := 50.0
  const HighVolumeDefaultMaxRate: real := 100.0
  const HighVolumeDefaultMinimum: real := 10.0

  datatype Variant = Standard | HighVolume(minimumDispenseQuantity: real)

  class FuelDispenser {
    const pumpNumber: int
    const supportedFuelType: FuelType
    /** Public getter, private setter that only the constructor calls. */
    const isOperational: bool
    const maxDispenseRate: real
    const variant: Variant

    var totalDispensed: real
    var isDispensing: bool

    /** new StandardFuelDispenser(pumpNumber, supportedFuelType, maxDispenseRate = 50) */
    constructor Standard(pumpNumber: int, supportedFuelType: FuelType,
                         maxDispenseRate: real := StandardDefaultMaxRate)
      ensures this.pumpNumber == pumpNumber && this.supportedFuelType == supportedFuelType
      ensures this.maxDispenseRate == maxDispenseRate && variant == Variant.Standard
      ensures isOperational && !isDispensing && totalDispensed == 0.0
    {
      this.pumpNumber := pumpNumber;
      this.supportedFuelType := supportedFuelType;
      this.maxDispenseRate := maxDispenseRate;
      this.variant := Variant.Standard;
      isOperational := true;
      totalDispensed := 0.0;
      isDispensing := false;
    }

    /** new HighVolumeDispenser(pumpNumber, supportedFuelType, maxDispenseRate = 100,
        minimumDispenseQuantity = 10): the base constructor, plus the minimum. */
    constructor HighVolume(pumpNumber: int, supportedFuelType: FuelType,
                           maxDispenseRate: real := HighVolumeDefaultMaxRate,
                           minimumDispenseQuantity: real := HighVolumeDefaultMinimum)
      ensures this.pumpNumber == pumpNumber && this.supportedFuelType == supportedFuelType
      ensures this.maxDispenseRate == maxDispenseRate
      ensures variant == Variant.HighVolume(minimumDispenseQuantity)
      ensures isOperational && !isDispensing && totalDispensed == 0.0
    {
      this.pumpNumber := pumpNumber;
      this.supportedFuelType := supportedFuelType;
      this.maxDispenseRate := maxDispenseRate;
      this.variant := Variant.HighVolume(minimumDispenseQuantity);
      isOperational := true;
      totalDispensed := 0.0;
      isDispensing := false;
    }

    /** The guard of the base DispenseFuel. */
    predicate BaseAccepts(quantity: real) {
      isOperational && 0.0 < quantity <= maxDispenseRate
    }

    /** The guard of this unit's DispenseFuel: the high-volume override adds a minimum. */
    predicate Accepts(quantity: real) {
      match variant
      case Standard => BaseAccepts(quantity)
      case HighVolume(minimum) => minimum <= quantity && BaseAccepts(quantity)
    }

    /** StandardFuelDispenser.DispenseFuel. */
    method BaseDispenseFuel(quantity: real) returns (success: bool)
      modifies this
      ensures success == BaseAccepts(quantity)
      ensures totalDispensed == old(totalDispensed) + (if success then quantity else 0.0)
      ensures isDispensing == (old(isDispensing) || success)
    {
      if !isOperational || quantity <= 0.0 || quantity > maxDispenseRate {
        return false;
      }
      if !isDispensing {
        var _ := StartDispensing();
      }
      totalDispensed := totalDispensed + quantity;
      return true;
    }

    /** IFuelDispenser.DispenseFuel, dispatched on the variant. */
    method DispenseFuel(quantity: real) returns (success: bool)
      modifies this
      ensures success == Accepts(quantity)
      ensures totalDispensed == old(totalDispensed) + (if success then quantity else 0.0)
      ensures isDispensing == (old(isDispensing) || success)
    {
      match variant
      case Standard =>
        success := BaseDispenseFuel(quantity);
      case HighVolume(minimum) =>
        if quantity < minimum {
          return false;
        }
        success := BaseDispenseFuel(quantity);
    }

    /** StandardFuelDispenser.StartDispensing. */
    method BaseStartDispensing() returns (success: bool)
      modifies this
      ensures success == (isOperational && !old(isDispensing))
      ensures isDispensing == (old(isDispensing) || success)
      ensures totalDispensed == old(totalDispensed)
    {
      if !isOperational || isDispensing {
        return false;
      }
      isDispensing := true;
      return true;
    }

    /** HighVolumeDispenser.PerformSafetyCheck: the simulated check always passes. */
    function PerformSafetyCheck(): (passed: bool)
      ensures passed
    {
      true
    }

    /** IFuelDispenser.StartDispensing, dispatched on the variant. The high-volume
        override runs the safety check first; since it passes, both variants behave
        as the base start. */
    method StartDispensing() returns (success: bool)
      modifies this
      ensures success == (isOperational && !old(isDispensing))
      ensures isDispensing == (old(isDispensing) || success)
      ensures totalDispensed == old(totalDispensed)
    {
      match variant
      case Standard =>
        success := BaseStartDispensing();
      case HighVolume(_) =>
        if PerformSafetyCheck() {
          success := BaseStartDispensing();
        } else {
          success := false;
        }
    }

    method StopDispensing() returns (success: bool)
      modifies this
      ensures success == old(isDispensing)
      ensures !isDispensing
      ensures totalDispensed == old(totalDispensed)
    {
      if !isDispensing {
        return false;
      }
      isDispensing := false;
      return true;
    }

    method GetTotalDispensed() returns (total: real)
      ensures total == totalDispensed
    {
      return totalDispensed;
    }

    /** Sets the counter to zero whatever the operational flag, and leaves the
        dispensing flag alone. */
    method ResetCounter()
      modifies this
      ensures totalDispensed == 0.0
      ensures isDispensing == old(isDispensing)
    {
      totalDispensed := 0.0;
    }
  }

  /** A quantity below the high-volume minimum is refused even where the base guard accepts it. */
  lemma BelowMinimumRefused(d: FuelDispenser, quantity: real)
    requires d.variant.HighVolume? && quantity < d.variant.minimumDispenseQuantity
    ensures !d.Accepts(quantity)
  {
  }

  /** At or above the minimum the high-volume guard is exactly the base guard; in
      particular the minimum itself is accepted when it is within the rate. */
  lemma AtOrAboveMinimumIsBase(d: FuelDispenser, quantity: real)
    requires d.variant.HighVolume? && d.variant.minimumDispenseQuantity <= quantity
    ensures d.Accepts(quantity) == d.BaseAccepts(quantity)
  {
  }

  /** A minimum configured above the maximum rate makes every request fail. */
  lemma MinimumAboveRateRefusesAll(d: FuelDispenser, quantity: real)
    requires d.variant.HighVolume? && d.variant.minimumDispenseQuantity > d.maxDispenseRate
    ensures !d.Accepts(quantity)
  {
  }

  /** Stopping twice in a row answers true, then false, and leaves the pump idle. */
  method StopTwice(d: FuelDispenser) returns (first: bool, second: bool)
    requires d.isDispensing
    modifies d
    ensures first && !second && !d.isDispensing
    ensures d.totalDispensed == old(d.totalDispensed)
  {
    first := d.StopDispensing();
    second := d.StopDispensing();
  }

  /** On a fresh operational idle pump, a request within the rate succeeds and adds exactly its quantity. */
  method DispenseOnNewPump(quantity: real) returns (d: FuelDispenser, success: bool)
    requires 0.0 < quantity <= StandardDefaultMaxRate
    ensures success && d.totalDispensed == quantity && d.isDispensing
  {
    d := new FuelDispenser.Standard(1, Regular);
    success := d.DispenseFuel(quantity);
  }
}
