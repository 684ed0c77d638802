/** The standard atmosphere near the ground (ISO 2533:1975, troposphere
    layer from 0 to 11 km): pressure units, the universal gas constant, the
    linear temperature profile, and the barometric pressure and density
    formulas.  The exponential function is a parameter: only its argument
    and the dimensions around it are modelled. */
module Atmosphere {
  import D = Dimension
  import U = Units
  import opened Quantities

  /** `bar` = 100 000 Pa and `standard_atmosphere` = `atm` = 101 325 Pa. */
  const Bar := U.Unit(U.Pascal.ref, 100000.0)
  const StandardAtmosphere := U.Unit(U.Pascal.ref, 101325.0)
  const Atm := StandardAtmosphere

  /** R = k_B * N_A, the product of two defining constants of the SI, as a
      unit: 8.31446261815324 times the coherent J/(mol K). */
  const UniversalGasConstant := U.Unit(U.Ref(2, 1, -2, 0, -1, -1, 0, 0, 0), 8.31446261815324)
  const JoulePerMoleKelvin := U.Div(U.Joule, U.Mul(U.Mole, U.Kelvin))

  lemma PressureUnits()
    ensures Bar == U.Scaled(100000.0, U.Pascal) && Atm == U.Scaled(101325.0, U.Pascal)
    ensures U.Convertible(Atm, Bar) && U.Factor(Atm, Bar) == 1.01325
  {
  }

  /** One standard atmosphere is exactly 1.01325 bar. */
  lemma OneAtmosphere()
    ensures Of(1.0, Atm) == Of(1.01325, Bar)
  {
    PressureUnits();
    Conversion(1.0, Atm, Bar);
  }

  /** k_B * N_A is 8.31446261815324 J/(mol K) exactly, of dimension
      energy per amount and temperature. */
  lemma GasConstantValue()
    ensures UniversalGasConstant == U.Mul(U.BoltzmannConstant, U.AvogadroConstant)
    ensures U.Convertible(UniversalGasConstant, JoulePerMoleKelvin)
    ensures U.Factor(UniversalGasConstant, JoulePerMoleKelvin) == 8.31446261815324
  {
  }

  lemma GasConstantDimension()
    ensures U.Physical(UniversalGasConstant.ref)
    ensures U.DimOf(UniversalGasConstant.ref) == D.MolarHeatCapacity
  {
  }

  // Constants of the standard atmosphere
  const SeaLevelTemperature := Of(288.15, U.Kelvin)
  const LapseRate := Quantity(0.0065, U.Ref(-1, 0, 0, 0, 1, 0, 0, 0, 0))
  const SeaLevelPressure := Of(101325.0, U.Pascal)
  const MolarMassOfAir := Quantity(0.0289644, U.Ref(0, 1, 0, 0, 0, -1, 0, 0, 0))
  const GasConstant := Of(1.0, UniversalGasConstant)
  const Gravity := Of(1.0, U.StandardGravity)

  /** L = 0.0065 K/m and M = 0.0289644 kg/mol, held in coherent SI units. */
  lemma AtmosphereConstants()
    ensures LapseRate == Of(0.0065, U.Div(U.Kelvin, U.Metre))
    ensures MolarMassOfAir == Of(0.0289644, U.Div(U.Kilogram, U.Mole))
  {
  }

  /** An altitude is counted in metres. */
  lemma AltitudeInMetres(altitude: Quantity)
    requires HasDim(altitude, D.Length)
    ensures altitude.ref == U.Metre.ref
  {
    HasDimRef(altitude, U.Metre, D.Length);
  }

  /** `temperatureAt`: T_0 - L * altitude, a thermodynamic temperature. */
  function TemperatureAt(altitude: Quantity): (r: Quantity)
    requires HasDim(altitude, D.Length)
    ensures HasDim(r, D.Temperature)
  {
    AltitudeInMetres(altitude);
    Minus(SeaLevelTemperature, Times(LapseRate, altitude))
  }

  /** The temperature is 288.15 K at sea level. */
  lemma TemperatureAtSeaLevel()
    ensures TemperatureAt(Of(0.0, U.Metre)) == Of(288.15, U.Kelvin)
  {
    var ground := Of(0.0, U.Metre);
    TemperatureLapse(ground, ground);
    HasDimRef(TemperatureAt(ground), U.Kelvin, D.Temperature);
  }

  /** The temperature is affine in the altitude: each metre of altitude
      lowers it by 0.0065 K, so it falls strictly as the altitude rises. */
  lemma TemperatureLapse(a: Quantity, b: Quantity)
    requires HasDim(a, D.Length) && HasDim(b, D.Length)
    ensures NumberIn(TemperatureAt(a), U.Kelvin) == 288.15 - 0.0065 * NumberIn(a, U.Metre)
    ensures TemperatureAt(a).value - TemperatureAt(b).value == 0.0065 * (b.value - a.value)
    ensures a.value < b.value ==> TemperatureAt(b).value < TemperatureAt(a).value
  {
    AltitudeInMetres(a);
  }

  /** The argument of the exponential in `pressureAt`:
      -(g * altitude * M) / (T_0 * R_0).  It is dimensionless: metres per
      second squared times metres times kilograms per mole, over kelvin
      times joules per mole and kelvin.  Its value is the altitude in metres
      times -g M / (T_0 R_0). */
  function BarometricExponent(altitude: Quantity): (r: Quantity)
    requires HasDim(altitude, D.Length)
    ensures r.ref == U.NoRef
  {
    AltitudeInMetres(altitude);
    Scale(-1.0, Over(Times(Times(Gravity, altitude), MolarMassOfAir),
                     Times(SeaLevelTemperature, GasConstant)))
  }

  lemma ExponentValue(altitude: Quantity)
    requires HasDim(altitude, D.Length)
    ensures BarometricExponent(altitude).value
            == -(9.80665 * NumberIn(altitude, U.Metre) * 0.0289644) / (288.15 * 8.31446261815324)
  {
    AltitudeInMetres(altitude);
  }

  /** `pressureAt`: P_0 * exp(exponent), a pressure for every exponential
      function. */
  function PressureAt(altitude: Quantity, exp: real -> real): (r: Quantity)
    requires HasDim(altitude, D.Length)
    ensures HasDim(r, D.Pressure)
    ensures r == Of(101325.0 * exp(BarometricExponent(altitude).value), U.Pascal)
  {
    Times(SeaLevelPressure, MapOne(exp, BarometricExponent(altitude)))
  }

  /** The quotient P M / (R T) for a pressure P in pascal and a temperature
      T in kelvin is a density. */
  lemma DensityDimension(p: Quantity, t: Quantity)
    requires p.ref == U.Pascal.ref && t.ref == U.Kelvin.ref && t.value != 0.0
    ensures HasDim(Over(Times(p, MolarMassOfAir), Times(GasConstant, t)), D.Density)
  {
  }

  /** `densityAt`: P M / (R T) with P and T at the given altitude, a
      density wherever the temperature is not zero. */
  function DensityAt(altitude: Quantity, exp: real -> real): (r: Quantity)
    requires HasDim(altitude, D.Length)
    requires TemperatureAt(altitude).value != 0.0
    ensures HasDim(r, D.Density)
  {
    var p := PressureAt(altitude, exp);
    var t := TemperatureAt(altitude);
    HasDimRef(t, U.Kelvin, D.Temperature);
    DensityDimension(p, t);
    Over(Times(p, MolarMassOfAir), Times(GasConstant, t))
  }

  /** The ideal gas law in numbers: the density in kg/m^3 is the pressure
      in pascal times 0.0289644 over 8.31446261815324 times the temperature
      in kelvin, so rho R T = P M. */
  lemma DensityValue(altitude: Quantity, exp: real -> real)
    requires HasDim(altitude, D.Length)
    requires TemperatureAt(altitude).value != 0.0
    ensures DensityAt(altitude, exp).ref == U.KilogramPerCubicMetre.ref
    ensures NumberIn(DensityAt(altitude, exp), U.KilogramPerCubicMetre)
            == NumberIn(PressureAt(altitude, exp), U.Pascal) * 0.0289644
               / (8.31446261815324 * NumberIn(TemperatureAt(altitude), U.Kelvin))
    ensures DensityAt(altitude, exp).value * 8.31446261815324 * TemperatureAt(altitude).value
            == PressureAt(altitude, exp).value * 0.0289644
  {
    var t := TemperatureAt(altitude);
    HasDimRef(t, U.Kelvin, D.Temperature);
    HasDimRef(DensityAt(altitude, exp), U.KilogramPerCubicMetre, D.Density);
    var x := PressureAt(altitude, exp).value * 0.0289644;
    var y := 8.31446261815324 * t.value;
    assert x / y * y == x;
  }
}
