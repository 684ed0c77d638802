/** The energy stored in hydrogen and the mass of compressed hydrogen gas.

    The lower heating value of hydrogen is 33.3 kW h/kg; the energy in a
    volume of hydrogen is its density times the volume times that value.
    The amount of gas held under pressure follows the ideal gas law
    n = P V / (R T) with the universal gas constant R = k_B N_A of the
    atmosphere model. */
module Hydrogen {
  import D = Dimension
  import U = Units
  import opened Quantities
  import A = Atmosphere

  /** 33.3 kW h/kg, held in J/kg. */
  const LowerHeatingValue := Quantity(33.3 * 3600000.0, U.Ref(2, 0, -2, 0, 0, 0, 0, 0, 0))

  lemma HeatingValueUnits()
    ensures LowerHeatingValue == Of(33.3, U.Div(U.KilowattHour, U.Kilogram))
  {
  }

  lemma EnergyDimension(density: Quantity, volume: Quantity)
    requires density.ref == U.KilogramPerCubicMetre.ref && volume.ref == U.CubicMetre.ref
    ensures HasDim(Times(Times(density, volume), LowerHeatingValue), D.Energy)
  {
  }

  /** `hydrogenEnergy(density, volume)`: density * volume * 33.3 kW h/kg, an energy. */
  function HydrogenEnergy(density: Quantity, volume: Quantity): (r: Quantity)
    requires HasDim(density, D.Density) && HasDim(volume, D.Volume)
    ensures HasDim(r, D.Energy)
  {
    HasDimRef(density, U.KilogramPerCubicMetre, D.Density);
    HasDimRef(volume, U.CubicMetre, D.Volume);
    EnergyDimension(density, volume);
    Times(Times(density, volume), LowerHeatingValue)
  }

  /** In kilowatt hours the energy is the density in kg/m^3 times the volume
      in m^3 times 33.3. */
  lemma HydrogenEnergyValue(density: Quantity, volume: Quantity)
    requires HasDim(density, D.Density) && HasDim(volume, D.Volume)
    ensures HasDim(HydrogenEnergy(density, volume), D.Energy)
    ensures HydrogenEnergy(density, volume).ref == U.KilowattHour.ref
    ensures NumberIn(HydrogenEnergy(density, volume), U.KilowattHour)
            == density.value * volume.value * 33.3
  {
    HasDimRef(HydrogenEnergy(density, volume), U.KilowattHour, D.Energy);
    HeatingValueInKilowattHours(density.value * volume.value);
  }

  // The arithmetic step of `HydrogenEnergyValue`: joules back to kW h.
  lemma HeatingValueInKilowattHours(x: real)
    ensures x * (33.3 * 3600000.0) / 3600000.0 == x * 33.3
  {
  }

  /** The energy is linear in the volume. */
  lemma EnergyLinearInVolume(density: Quantity, volume: Quantity, k: real)
    requires HasDim(density, D.Density) && HasDim(volume, D.Volume)
    ensures HydrogenEnergy(density, Scale(k, volume)) == Scale(k, HydrogenEnergy(density, volume))
  {
    var d := density.value;
    var v := volume.value;
    assert d * (k * v) * (33.3 * 3600000.0) == k * (d * v * (33.3 * 3600000.0));
  }

  /** 0.08988 kg/m^3 for the gas and 70.85 kg/m^3 for the liquid. */
  const DensityGas := Quantity(0.08988, U.KilogramPerCubicMetre.ref)
  const DensityLiquid := Quantity(70.85, U.KilogramPerCubicMetre.ref)

  /** The figures of `hydrogenEnergyIn(volume)`. */
  datatype EnergyFigures = EnergyFigures(massGas: Quantity, energyGas: Quantity, massLiquid: Quantity,
                                         energyLiquid: Quantity, increase: Quantity)

  function EnergyIn(volume: Quantity): (r: EnergyFigures)
    requires HasDim(volume, D.Volume) && volume.value != 0.0
    ensures HasDim(r.massGas, D.Mass) && HasDim(r.massLiquid, D.Mass)
    ensures HasDim(r.energyGas, D.Energy) && HasDim(r.energyLiquid, D.Energy)
    ensures HasDim(r.increase, D.One)
  {
    HasDimRef(volume, U.CubicMetre, D.Volume);
    var energyGas := HydrogenEnergy(DensityGas, volume);
    var energyLiquid := HydrogenEnergy(DensityLiquid, volume);
    SameDimIsSameRef(energyGas, energyLiquid, D.Energy);
    NonzeroProduct(0.08988 * volume.value, 33.3 * 3600000.0);
    EnergyFigures(Times(DensityGas, volume), energyGas, Times(DensityLiquid, volume), energyLiquid,
                  Over(energyLiquid, energyGas))
  }

  // Keeps the divisors of `EnergyIn`, `LiquidOverGas` and `CompressedGas` away from zero.
  lemma NonzeroProduct(a: real, b: real)
    requires a != 0.0 && b != 0.0
    ensures a * b != 0.0
  {
  }

  /** 5 l of hydrogen gas weigh 0.4494 g. */
  lemma GasMassOfFiveLitres()
    ensures EnergyIn(Of(5.0, U.Litre)).massGas == Of(0.4494, U.Gram)
  {
  }

  /** For every volume the liquid holds 70.85 / 0.08988 times the energy of
      the gas, a plain number. */
  lemma LiquidOverGas(volume: Quantity)
    requires HasDim(volume, D.Volume) && volume.value != 0.0
    ensures EnergyIn(volume).increase == Quantity(70.85 / 0.08988, U.NoRef)
  {
    var v := volume.value;
    var h := 33.3 * 3600000.0;
    NonzeroProduct(0.08988 * v, h);
    assert 70.85 * v * h / (0.08988 * v * h) == 70.85 / 0.08988;
  }

  // `compressGas()`

  /** 2 g/mol, the molar mass of H2 as Hydrogen.hpp rounds it, held in kg/mol. */
  const MolarMassOfHydrogen := Quantity(0.002, U.Ref(0, 1, 0, 0, 0, -1, 0, 0, 0))

  lemma MolarMassUnit()
    ensures MolarMassOfHydrogen == Of(2.0, U.Div(U.Gram, U.Mole))
  {
  }

  datatype GasFigures = GasFigures(pressure: Quantity, volume: Quantity, temperature: Quantity,
                                   moles: Quantity, mass: Quantity)

  /** The amount of gas n = P V / (R T) in a volume v at pressure p and
      temperature t, and its mass n * 2 g/mol. */
  function CompressedGas(p: Quantity, v: Quantity, t: Quantity): (r: GasFigures)
    requires HasDim(p, D.Pressure) && HasDim(v, D.Volume) && HasDim(t, D.Temperature) && t.value != 0.0
    ensures HasDim(r.moles, D.Amount) && HasDim(r.mass, D.Mass)
  {
    HasDimRef(p, U.Pascal, D.Pressure);
    HasDimRef(v, U.CubicMetre, D.Volume);
    HasDimRef(t, U.Kelvin, D.Temperature);
    NonzeroProduct(8.31446261815324, t.value);
    var moles := Over(Times(p, v), Times(A.GasConstant, t));
    GasFigures(p, v, t, moles, Times(moles, MolarMassOfHydrogen))
  }

  /** The storage conditions of `compressGas()`: 200 bar, 5 l and 298 K. */
  const StoragePressure := Quantity(20000000.0, U.Pascal.ref)
  const StorageVolume := Quantity(0.005, U.CubicMetre.ref)
  const StorageTemperature := Quantity(298.0, U.Kelvin.ref)

  lemma StorageConditions()
    ensures StoragePressure == Of(200.0 * 100000.0, U.Pascal)
    ensures StorageVolume == Of(5.0, U.Litre)
    ensures StorageTemperature == Of(298.0, U.Kelvin)
  {
  }

  /** `compressGas()`: 5 l of hydrogen at 200 bar and 298 K. */
  function CompressGas(): (r: GasFigures)
    ensures HasDim(r.moles, D.Amount) && HasDim(r.mass, D.Mass)
  {
    CompressedGas(StoragePressure, StorageVolume, StorageTemperature)
  }

  /** The gas law in numbers: moles = P V / (R T) in mol, the mass twice
      that many grams. */
  lemma CompressedGasValues(p: Quantity, v: Quantity, t: Quantity)
    requires HasDim(p, D.Pressure) && HasDim(v, D.Volume) && HasDim(t, D.Temperature) && t.value != 0.0
    ensures var r := CompressedGas(p, v, t);
            r.moles.ref == U.Mole.ref && r.mass.ref == U.Gram.ref
            && NumberIn(r.moles, U.Mole) == p.value * v.value / (8.31446261815324 * t.value)
            && NumberIn(r.mass, U.Gram) == 2.0 * NumberIn(r.moles, U.Mole)
  {
    var r := CompressedGas(p, v, t);
    HasDimRef(r.moles, U.Mole, D.Amount);
    HasDimRef(r.mass, U.Gram, D.Mass);
  }

  /** 5 l at 200 bar and 298 K hold 100000 / (8.31446261815324 * 298) mol,
      about 40.4 mol; by `CompressedGasValues` they weigh twice as many grams. */
  lemma CompressGasMoles(p: Quantity, v: Quantity, t: Quantity)
    requires p == StoragePressure && v == StorageVolume && t == StorageTemperature
    ensures CompressedGas(p, v, t).moles.ref == U.Mole.ref
    ensures NumberIn(CompressedGas(p, v, t).moles, U.Mole) == 100000.0 / (8.31446261815324 * 298.0)
  {
    CompressedGasValues(p, v, t);
  }
}
