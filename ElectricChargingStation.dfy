/** A charging point: the same dispensing contract, with energy (kWh) as the quantity. */
module ChargingStations {
  import opened Models

  const ChargingDefaultMaxRate: real := 150.0

  class ElectricChargingStation {
    const pumpNumber: int
    /** A charging point only ever supplies electricity. */
    const supportedFuelType: FuelType := Electric
    /** Public getter, private setter that only the constructor calls. */
    const isOperational: bool
    const maxDispenseRate: real

    var totalEnergyDispensed: real
    var isCharging: bool

    constructor (pumpNumber: int, maxDispenseRate: real := ChargingDefaultMaxRate)
      ensures this.pumpNumber == pumpNumber && this.maxDispenseRate == maxDispenseRate
      ensures isOperational && !isCharging && totalEnergyDispensed == 0.0
    {
      this.pumpNumber := pumpNumber;
      this.maxDispenseRate := maxDispenseRate;
      isOperational := true;
      totalEnergyDispensed := 0.0;
      isCharging := false;
    }

    predicate Accepts(quantity: real) {
      isOperational && 0.0 < quantity <= maxDispenseRate
    }

    method DispenseFuel(quantity: real) returns (success: bool)
      modifies this
      ensures success == Accepts(quantity)
      ensures totalEnergyDispensed == old(totalEnergyDispensed) + (if success then quantity else 0.0)
      ensures isCharging == (old(isCharging) || success)
    {
      if !isOperational || quantity <= 0.0 || quantity > maxDispenseRate {
        return false;
      }
      if !isCharging {
        var _ := StartDispensing();
      }
      totalEnergyDispensed := totalEnergyDispensed + quantity;
      return true;
    }

    method StartDispensing() returns (success: bool)
      modifies this
      ensures success == (isOperational && !old(isCharging))
      ensures isCharging == (old(isCharging) || success)
      ensures totalEnergyDispensed == old(totalEnergyDispensed)
    {
      if !isOperational || isCharging {
        return false;
      }
      isCharging := true;
      return true;
    }

    method StopDispensing() returns (success: bool)
      modifies this
      ensures success == old(isCharging)
      ensures !isCharging
      ensures totalEnergyDispensed == old(totalEnergyDispensed)
    {
      if !isCharging {
        return false;
      }
      isCharging := false;
      return true;
    }

    method GetTotalDispensed() returns (total: real)
      ensures total == totalEnergyDispensed
    {
      return totalEnergyDispensed;
    }

    method ResetCounter()
      modifies this
      ensures totalEnergyDispensed == 0.0
      ensures isCharging == old(isCharging)
    {
      totalEnergyDispensed := 0.0;
    }
  }

  /** Whatever a station does, it reports Electric as its fuel type. */
  lemma AlwaysElectric(s: ElectricChargingStation)
    ensures s.supportedFuelType == Electric
  {
  }
}
