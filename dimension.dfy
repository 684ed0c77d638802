/** Dimensions as integer exponent vectors.

    The first seven components are the ISQ base dimensions (length L, mass M,
    time T, electric current I, thermodynamic temperature Θ, amount of
    substance N, luminous intensity J).  The eighth component is the axis of
    an application-defined base dimension: the only one this system declares
    is currency "$" (see module Finance).  Two dimensions are equal exactly
    when all exponents agree; the dimensionless dimension is all zeros.
    (Generic in the component type, used at `int`: this keeps proofs small.) */
module Dimension {

  datatype Exponents<E> = Dim(length: E, mass: E, time: E, current: E,
                              temperature: E, amount: E, luminosity: E, currency: E)

  type Dim = Exponents<int>

  const One: Dim := Dim(0, 0, 0, 0, 0, 0, 0, 0)

  // ISQ base dimensions
  const Length: Dim := Dim(1, 0, 0, 0, 0, 0, 0, 0)
  const Mass: Dim := Dim(0, 1, 0, 0, 0, 0, 0, 0)
  const Time: Dim := Dim(0, 0, 1, 0, 0, 0, 0, 0)
  const Current: Dim := Dim(0, 0, 0, 1, 0, 0, 0, 0)
  const Temperature: Dim := Dim(0, 0, 0, 0, 1, 0, 0, 0)
  const Amount: Dim := Dim(0, 0, 0, 0, 0, 1, 0, 0)
  const Luminosity: Dim := Dim(0, 0, 0, 0, 0, 0, 1, 0)

  predicate IsDimensionless(d: Dim) {
    d == One
  }

  /** Multiplication of quantities adds exponents. */
  function Mul(a: Dim, b: Dim): Dim {
    Dim(a.length + b.length, a.mass + b.mass, a.time + b.time, a.current + b.current,
        a.temperature + b.temperature, a.amount + b.amount,
        a.luminosity + b.luminosity, a.currency + b.currency)
  }

  /** Division subtracts exponents. */
  function Div(a: Dim, b: Dim): Dim {
    Dim(a.length - b.length, a.mass - b.mass, a.time - b.time, a.current - b.current,
        a.temperature - b.temperature, a.amount - b.amount,
        a.luminosity - b.luminosity, a.currency - b.currency)
  }

  function Inverse(a: Dim): Dim {
    Div(One, a)
  }

  /** Dimensions form an abelian group under multiplication: One is the
      identity, division undoes multiplication, a quotient is dimensionless
      exactly when numerator and denominator agree, and the order of
      factors does not matter. */
  lemma GroupLaws(a: Dim, b: Dim, c: Dim)
    ensures Mul(a, One) == a && Mul(One, a) == a
    ensures Mul(Div(a, b), b) == a && Div(Mul(a, b), b) == a
    ensures Mul(a, Inverse(a)) == One
    ensures IsDimensionless(Div(a, b)) <==> a == b
    ensures Mul(a, b) == Mul(b, a)
    ensures Mul(Mul(a, b), c) == Mul(a, Mul(b, c))
  {
  }

  /** Every exponent multiplied by k. */
  function Scale(a: Dim, k: int): Dim {
    Dim(a.length * k, a.mass * k, a.time * k, a.current * k,
        a.temperature * k, a.amount * k, a.luminosity * k, a.currency * k)
  }

  /** Raising to a natural power, as repeated multiplication. */
  function Pow(a: Dim, n: nat): Dim {
    if n == 0 then One else Mul(Pow(a, n - 1), a)
  }

  /** Raising to an integer power; a negative power is the inverse of the positive one. */
  function IntPow(a: Dim, n: int): Dim {
    if n >= 0 then Pow(a, n) else Inverse(Pow(a, -n))
  }

  /** Repeated multiplication multiplies every exponent by the power. */
  lemma {:induction false} PowIsScale(a: Dim, n: nat)
    ensures Pow(a, n) == Scale(a, n)
  {
    if n > 0 {
      PowIsScale(a, n - 1);
      StepScale(a.length, n);
      StepScale(a.mass, n);
      StepScale(a.time, n);
      StepScale(a.current, n);
      StepScale(a.temperature, n);
      StepScale(a.amount, n);
      StepScale(a.luminosity, n);
      StepScale(a.currency, n);
    }
  }

  // The arithmetic step of `PowIsScale`: one more factor adds x once more.
  lemma StepScale(x: int, n: int)
    ensures x * (n - 1) + x == x * n
  {
  }

  lemma IntPowIsScale(a: Dim, n: int)
    ensures IntPow(a, n) == Scale(a, n)
  {
    if n >= 0 {
      PowIsScale(a, n);
    } else {
      PowIsScale(a, -n);
    }
  }

  /** The dimension with the given exponents on the seven ISQ bases, built as a
      product of integer powers of the base dimensions. */
  function IsqProduct(l: int, m: int, t: int, i: int, th: int, n: int, j: int): Dim {
    Mul(Mul(Mul(Mul(Mul(Mul(IntPow(Length, l), IntPow(Mass, m)), IntPow(Time, t)),
        IntPow(Current, i)), IntPow(Temperature, th)), IntPow(Amount, n)), IntPow(Luminosity, j))
  }

  /** A product of powers of the ISQ bases carries exactly those exponents and
      nothing on the application-defined axis. */
  lemma IsqProductExponents(l: int, m: int, t: int, i: int, th: int, n: int, j: int)
    ensures IsqProduct(l, m, t, i, th, n, j) == Dim(l, m, t, i, th, n, j, 0)
  {
    IntPowIsScale(Length, l);
    IntPowIsScale(Mass, m);
    IntPowIsScale(Time, t);
    IntPowIsScale(Current, i);
    IntPowIsScale(Temperature, th);
    IntPowIsScale(Amount, n);
    IntPowIsScale(Luminosity, j);
  }

  // Derived ISQ dimensions used by the formulas, written out as exponents
  // (length, mass, time, current, temperature, amount, luminosity, currency);
  // the lemmas below state how each arises from the base dimensions.
  const Area: Dim := Dim(2, 0, 0, 0, 0, 0, 0, 0)
  const Volume: Dim := Dim(3, 0, 0, 0, 0, 0, 0, 0)
  const Speed: Dim := Dim(1, 0, -1, 0, 0, 0, 0, 0)
  const Acceleration: Dim := Dim(1, 0, -2, 0, 0, 0, 0, 0)
  const Force: Dim := Dim(1, 1, -2, 0, 0, 0, 0, 0)
  const Energy: Dim := Dim(2, 1, -2, 0, 0, 0, 0, 0)
  const Power: Dim := Dim(2, 1, -3, 0, 0, 0, 0, 0)
  const Pressure: Dim := Dim(-1, 1, -2, 0, 0, 0, 0, 0)
  const Density: Dim := Dim(-3, 1, 0, 0, 0, 0, 0, 0)
  const MolarMass: Dim := Dim(0, 1, 0, 0, 0, -1, 0, 0)
  const SpecificHeatCapacity: Dim := Dim(2, 0, -2, 0, -1, 0, 0, 0)
  const MolarHeatCapacity: Dim := Dim(2, 1, -2, 0, -1, -1, 0, 0)
  const Irradiance: Dim := Dim(0, 1, -3, 0, 0, 0, 0, 0)
  const TemperatureRate: Dim := Dim(0, 0, -1, 0, 1, 0, 0, 0)
  const VolumeFlow: Dim := Dim(3, 0, -1, 0, 0, 0, 0, 0)
  const SurfaceDensity: Dim := Dim(-2, 1, 0, 0, 0, 0, 0, 0)

  /** The derived dimensions are the ISQ products that define them
      (ISO 80000-3, -4, -5): area L², volume L³, speed L/T, acceleration
      speed/T, force M·acceleration, energy force·L, power energy/T,
      pressure force/area, density M/volume, molar mass M/N, specific heat
      capacity energy/(M·Θ), molar heat capacity energy/(N·Θ), irradiance
      power/area, temperature rate Θ/T, volume flow volume/T,
      surface density M/area. */
  lemma KinematicDimensions()
    ensures Area == Mul(Length, Length) && Volume == Mul(Area, Length)
    ensures Speed == Div(Length, Time) && Acceleration == Div(Speed, Time)
    ensures VolumeFlow == Div(Volume, Time)
  {
  }

  lemma MechanicalDimensions()
    ensures Force == Mul(Mass, Acceleration) && Energy == Mul(Force, Length)
    ensures Power == Div(Energy, Time) && Pressure == Div(Force, Area)
    ensures Density == Div(Mass, Volume) && Irradiance == Div(Power, Area)
    ensures SurfaceDensity == Div(Mass, Area)
  {
  }

  lemma HeatCapacityDimensions()
    ensures SpecificHeatCapacity == Div(Energy, Mul(Mass, Temperature))
    ensures MolarHeatCapacity == Div(Energy, Mul(Amount, Temperature))
  {
  }

  lemma AmountDimensions()
    ensures MolarMass == Div(Mass, Amount)
    ensures TemperatureRate == Div(Temperature, Time)
  {
  }

  /** A temperature rate over a time is a temperature. */
  lemma TemperatureRateTimesTime()
    ensures Mul(TemperatureRate, Time) == Temperature
  {
  }
}
