/** Units as exact multiples of products of reference units.

    A reference product is a vector of integer exponents over the reference
    units: the seven coherent SI base units and one reference unit per
    currency (euro, US dollar).  A named unit is a reference product scaled
    by a positive exact ratio.  Two units convert into each other exactly
    when they are multiples of the same reference product, and the
    conversion factor is the quotient of their ratios.  The dimension of a
    reference product forgets which currency it is in, so euro and US dollar
    share the currency dimension and still do not convert.

    As with dimensions, the exponent vector is generic and used at `int`.
    Named units are written out as
    literal exponents and ratios; the lemmas below state how each arises
    from the base units. */
module Units {
  import D = Dimension

  datatype Powers<E> = Ref(metre: E, kilogram: E, second: E, ampere: E, kelvin: E,
                           mole: E, candela: E, euro: E, usDollar: E)

  type Ref = Powers<int>

  /** Magnitude of a unit relative to its reference product; exact and positive. */
  type Ratio = r: real | r > 0.0 witness 1.0

  datatype Unit = Unit(ref: Ref, ratio: Ratio)

  const NoRef: Ref := Ref(0, 0, 0, 0, 0, 0, 0, 0, 0)

  /** The dimension of a reference product: euro and US dollar both count on
      the currency axis. */
  function DimOf(r: Ref): D.Dim {
    D.Dim(r.metre, r.kilogram, r.second, r.ampere, r.kelvin, r.mole, r.candela,
          r.euro + r.usDollar)
  }

  /** A reference product that involves no currency. */
  predicate Physical(r: Ref) {
    r.euro == 0 && r.usDollar == 0
  }

  function Product(a: Ref, b: Ref): Ref {
    Ref(a.metre + b.metre, a.kilogram + b.kilogram, a.second + b.second,
        a.ampere + b.ampere, a.kelvin + b.kelvin, a.mole + b.mole,
        a.candela + b.candela, a.euro + b.euro, a.usDollar + b.usDollar)
  }

  function Quotient(a: Ref, b: Ref): Ref {
    Ref(a.metre - b.metre, a.kilogram - b.kilogram, a.second - b.second,
        a.ampere - b.ampere, a.kelvin - b.kelvin, a.mole - b.mole,
        a.candela - b.candela, a.euro - b.euro, a.usDollar - b.usDollar)
  }

  /** Taking the dimension commutes with products and quotients, and
      products and quotients of physical references stay physical. */
  lemma DimOfProductQuotient(a: Ref, b: Ref)
    ensures DimOf(Product(a, b)) == D.Mul(DimOf(a), DimOf(b))
    ensures DimOf(Quotient(a, b)) == D.Div(DimOf(a), DimOf(b))
    ensures Physical(a) && Physical(b) ==> Physical(Product(a, b)) && Physical(Quotient(a, b))
  {
  }

  /** Among physical references the dimension determines the reference
      product. */
  lemma PhysicalRefIsItsDimension(a: Ref, b: Ref)
    requires Physical(a) && Physical(b)
    ensures a == b <==> DimOf(a) == DimOf(b)
  {
  }

  /** A value in u can be expressed in v. */
  predicate Convertible(u: Unit, v: Unit) {
    u.ref == v.ref
  }

  /** Factor by which a number in u is multiplied to express it in v. */
  function Factor(u: Unit, v: Unit): (f: real)
    requires Convertible(u, v)
    ensures f > 0.0
    ensures f * v.ratio == u.ratio
  {
    u.ratio / v.ratio
  }

  /** `mag_ratio<k> * u`: the same reference product, k times larger. */
  function Scaled(k: Ratio, u: Unit): Unit {
    Unit(u.ref, k * u.ratio)
  }

  /** A scaled unit converts into the unit it scales, by exactly the factor k. */
  lemma ScaledFactor(k: Ratio, u: Unit)
    ensures Convertible(Scaled(k, u), u) && Factor(Scaled(k, u), u) == k
  {
  }

  function Mul(u: Unit, v: Unit): Unit {
    Unit(Product(u.ref, v.ref), u.ratio * v.ratio)
  }

  function Div(u: Unit, v: Unit): Unit {
    Unit(Quotient(u.ref, v.ref), u.ratio / v.ratio)
  }

  /** The unit of dimensionless quantities, and the per cent. */
  const One := Unit(NoRef, 1.0)
  const Percent := Unit(NoRef, 0.01)

  // SI base units (SI Brochure, 9th edition, section 2.3.3, Table 2)
  const Metre := Unit(Ref(1, 0, 0, 0, 0, 0, 0, 0, 0), 1.0)
  const Kilogram := Unit(Ref(0, 1, 0, 0, 0, 0, 0, 0, 0), 1.0)
  const Second := Unit(Ref(0, 0, 1, 0, 0, 0, 0, 0, 0), 1.0)
  const Ampere := Unit(Ref(0, 0, 0, 1, 0, 0, 0, 0, 0), 1.0)
  const Kelvin := Unit(Ref(0, 0, 0, 0, 1, 0, 0, 0, 0), 1.0)
  const Mole := Unit(Ref(0, 0, 0, 0, 0, 1, 0, 0, 0), 1.0)
  const Candela := Unit(Ref(0, 0, 0, 0, 0, 0, 1, 0, 0), 1.0)

  // Prefixed units
  const Gram := Unit(Ref(0, 1, 0, 0, 0, 0, 0, 0, 0), 0.001)
  const Centimetre := Unit(Ref(1, 0, 0, 0, 0, 0, 0, 0, 0), 0.01)
  const Kilometre := Unit(Ref(1, 0, 0, 0, 0, 0, 0, 0, 0), 1000.0)

  // Coherent derived units (SI Brochure, section 2.3.4, Table 4)
  const SquareMetre := Unit(Ref(2, 0, 0, 0, 0, 0, 0, 0, 0), 1.0)
  const CubicMetre := Unit(Ref(3, 0, 0, 0, 0, 0, 0, 0, 0), 1.0)
  const Newton := Unit(Ref(1, 1, -2, 0, 0, 0, 0, 0, 0), 1.0)
  const Joule := Unit(Ref(2, 1, -2, 0, 0, 0, 0, 0, 0), 1.0)
  const Watt := Unit(Ref(2, 1, -3, 0, 0, 0, 0, 0, 0), 1.0)
  const Kilowatt := Unit(Ref(2, 1, -3, 0, 0, 0, 0, 0, 0), 1000.0)
  const Pascal := Unit(Ref(-1, 1, -2, 0, 0, 0, 0, 0, 0), 1.0)
  const MetrePerSecond := Unit(Ref(1, 0, -1, 0, 0, 0, 0, 0, 0), 1.0)
  const KilogramPerCubicMetre := Unit(Ref(-3, 1, 0, 0, 0, 0, 0, 0, 0), 1.0)

  // Non-SI units accepted for use with the SI (SI Brochure, section 4, Table 8)
  const Minute := Unit(Ref(0, 0, 1, 0, 0, 0, 0, 0, 0), 60.0)
  const Hour := Unit(Ref(0, 0, 1, 0, 0, 0, 0, 0, 0), 3600.0)
  const Day := Unit(Ref(0, 0, 1, 0, 0, 0, 0, 0, 0), 86400.0)
  const Litre := Unit(Ref(3, 0, 0, 0, 0, 0, 0, 0, 0), 0.001)
  const WattHour := Unit(Ref(2, 1, -2, 0, 0, 0, 0, 0, 0), 3600.0)
  const KilowattHour := Unit(Ref(2, 1, -2, 0, 0, 0, 0, 0, 0), 3600000.0)

  // International yard and pound (1959): the yard is 0.9144 m and the
  // pound 0.45359237 kg; foot, inch and ounce follow from them
  const Yard := Unit(Ref(1, 0, 0, 0, 0, 0, 0, 0, 0), 0.9144)
  const Foot := Unit(Ref(1, 0, 0, 0, 0, 0, 0, 0, 0), 0.3048)
  const Inch := Unit(Ref(1, 0, 0, 0, 0, 0, 0, 0, 0), 0.0254)
  const Pound := Unit(Ref(0, 1, 0, 0, 0, 0, 0, 0, 0), 0.45359237)
  const Ounce := Unit(Ref(0, 1, 0, 0, 0, 0, 0, 0, 0), 0.028349523125)

  // Defining constants used as units (SI Brochure, section 2.2, Table 1) and
  // the standard acceleration of gravity (CGPM 1901)
  const StandardGravity := Unit(Ref(1, 0, -2, 0, 0, 0, 0, 0, 0), 9.80665)
  const BoltzmannConstant := Unit(Ref(2, 1, -2, 0, -1, 0, 0, 0, 0), 1.380649e-23)
  const AvogadroConstant := Unit(Ref(0, 0, 0, 0, 0, -1, 0, 0, 0), 6.02214076e23)

  /** The prefixed units are the base units times 10^-3, 10^-2 and 10^3. */
  lemma PrefixedUnits()
    ensures Gram == Scaled(0.001, Kilogram)
    ensures Centimetre == Scaled(0.01, Metre) && Kilometre == Scaled(1000.0, Metre)
    ensures Kilowatt == Scaled(1000.0, Watt)
  {
  }

  /** Newton, joule, watt and pascal are the coherent products that define them. */
  lemma NewtonDefinition()
    ensures Newton == Div(Mul(Kilogram, Metre), Mul(Second, Second))
  {
  }

  lemma JouleDefinition()
    ensures Joule == Mul(Newton, Metre)
  {
  }

  lemma WattDefinition()
    ensures Watt == Div(Joule, Second)
  {
  }

  lemma PascalDefinition()
    ensures Pascal == Div(Newton, SquareMetre)
  {
  }

  lemma AreaAndVolumeUnits()
    ensures SquareMetre == Mul(Metre, Metre) && CubicMetre == Mul(SquareMetre, Metre)
    ensures MetrePerSecond == Div(Metre, Second) && KilogramPerCubicMetre == Div(Kilogram, CubicMetre)
  {
  }

  /** Minute, hour and day are 60 s, 60 min and 24 h; the litre is a cubic decimetre. */
  lemma TimeAndVolumeUnits()
    ensures Minute == Scaled(60.0, Second) && Hour == Scaled(60.0, Minute)
    ensures Day == Scaled(24.0, Hour)
    ensures Litre == Scaled(0.001, CubicMetre)
  {
  }

  /** The watt hour and the kilowatt hour are the products of their factors. */
  lemma EnergyUnits()
    ensures WattHour == Mul(Watt, Hour) && KilowattHour == Mul(Kilowatt, Hour)
  {
  }

  /** The foot is a third of a yard, the inch a twelfth of a foot and the
      ounce a sixteenth of a pound. */
  lemma ImperialUnits()
    ensures Foot == Scaled(1.0 / 3.0, Yard) && Inch == Scaled(1.0 / 12.0, Foot)
    ensures Ounce == Scaled(1.0 / 16.0, Pound)
  {
  }
}
