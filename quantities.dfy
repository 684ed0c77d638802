/** Quantities: a number together with the reference product it counts.

    A quantity holds its value in the coherent reference product of its
    unit, so `x * u` stores x times the ratio of u.  Expressing a quantity
    in another unit (`q.in(u)`) changes how it is displayed, never what it
    is: it needs u to be convertible, and the number shown is the value
    divided by the ratio of u.  Sums and differences need both operands on
    the same reference product; products and quotients multiply and divide
    the values and combine the reference products.

    Values are exact reals, an idealisation of the `double` arithmetic of
    the program; a quotient demands a nonzero divisor where `double` would
    produce an infinity or NaN. */
module Quantities {
  import D = Dimension
  import U = Units

  datatype Quantity = Quantity(value: real, ref: U.Ref)

  /** `x * u` */
  function Of(x: real, u: U.Unit): Quantity {
    Quantity(x * u.ratio, u.ref)
  }

  /** The number shown for q when it is expressed in u. */
  function NumberIn(q: Quantity, u: U.Unit): real
    requires q.ref == u.ref
  {
    q.value / u.ratio
  }

  function DimOf(q: Quantity): D.Dim {
    U.DimOf(q.ref)
  }

  /** `QuantityOf<d>` for a dimension of the ISQ: the quantity has dimension
      d and no currency in its unit. */
  predicate HasDim(q: Quantity, d: D.Dim) {
    U.Physical(q.ref) && U.DimOf(q.ref) == d
  }

  function Times(a: Quantity, b: Quantity): Quantity {
    Quantity(a.value * b.value, U.Product(a.ref, b.ref))
  }

  function Over(a: Quantity, b: Quantity): Quantity
    requires b.value != 0.0
  {
    Quantity(a.value / b.value, U.Quotient(a.ref, b.ref))
  }

  /** `k * q` for a plain number k. */
  function Scale(k: real, q: Quantity): Quantity {
    Quantity(k * q.value, q.ref)
  }

  function Plus(a: Quantity, b: Quantity): Quantity
    requires a.ref == b.ref
  {
    Quantity(a.value + b.value, a.ref)
  }

  function Minus(a: Quantity, b: Quantity): Quantity
    requires a.ref == b.ref
  {
    Quantity(a.value - b.value, a.ref)
  }

  /** `floor<one>(q)` for a dimensionless q: the largest whole number not above it. */
  function FloorOne(q: Quantity): Quantity
    requires q.ref == U.NoRef
  {
    Quantity(q.value.Floor as real, U.NoRef)
  }

  /** A numeric function such as `exp` or `sqrt` applied to a dimensionless
      quantity: the result is dimensionless again. */
  function MapOne(f: real -> real, q: Quantity): Quantity
    requires q.ref == U.NoRef
  {
    Quantity(f(q.value), U.NoRef)
  }

  /** Writing a number in a unit and reading it back in that unit gives the
      number again; a quantity is the number it shows in u, times u. */
  lemma NumberInOf(x: real, u: U.Unit, q: Quantity)
    ensures NumberIn(Of(x, u), u) == x
    ensures q.ref == u.ref ==> Of(NumberIn(q, u), u) == q
  {
  }

  /** Expressing a quantity in a convertible unit: the same quantity reads
      as its number in u times the conversion factor from u to v. */
  lemma Conversion(x: real, u: U.Unit, v: U.Unit)
    requires U.Convertible(u, v)
    ensures Of(x, u) == Of(x * U.Factor(u, v), v)
    ensures NumberIn(Of(x, u), v) == x * U.Factor(u, v)
  {
    calc {
      x * U.Factor(u, v) * v.ratio;
      x * (U.Factor(u, v) * v.ratio);
      x * u.ratio;
    }
  }

  /** Dimensions of products, quotients, sums and differences: the product
      rule, the quotient rule, and sums keeping the dimension of their
      operands; quantities without currency stay without currency. */
  lemma DimOfOps(a: Quantity, b: Quantity)
    ensures DimOf(Times(a, b)) == D.Mul(DimOf(a), DimOf(b))
    ensures b.value != 0.0 ==> DimOf(Over(a, b)) == D.Div(DimOf(a), DimOf(b))
    ensures forall k :: DimOf(Scale(k, a)) == DimOf(a)
    ensures a.ref == b.ref ==> DimOf(Plus(a, b)) == DimOf(a) && DimOf(Minus(a, b)) == DimOf(a)
  {
    U.DimOfProductQuotient(a.ref, b.ref);
  }

  lemma HasDimOfOps(a: Quantity, b: Quantity, da: D.Dim, db: D.Dim)
    requires HasDim(a, da) && HasDim(b, db)
    ensures HasDim(Times(a, b), D.Mul(da, db))
    ensures b.value != 0.0 ==> HasDim(Over(a, b), D.Div(da, db))
  {
    U.DimOfProductQuotient(a.ref, b.ref);
  }

  /** Quantities of the same physical dimension have the same reference
      product, so they can be added, subtracted and converted. */
  lemma SameDimIsSameRef(a: Quantity, b: Quantity, d: D.Dim)
    requires HasDim(a, d) && HasDim(b, d)
    ensures a.ref == b.ref
  {
    U.PhysicalRefIsItsDimension(a.ref, b.ref);
  }

  /** A quantity of physical dimension d is counted in the reference
      product of every unit of dimension d without currency. */
  lemma HasDimRef(q: Quantity, u: U.Unit, d: D.Dim)
    requires HasDim(q, d) && U.Physical(u.ref) && U.DimOf(u.ref) == d
    ensures q.ref == u.ref
  {
    U.PhysicalRefIsItsDimension(q.ref, u.ref);
  }

  /** Subtraction undoes addition, and addition does not depend on the order. */
  lemma PlusMinus(a: Quantity, b: Quantity)
    requires a.ref == b.ref
    ensures Minus(Plus(a, b), b) == a && Plus(a, b) == Plus(b, a)
  {
  }

  /** Multiplying by a quantity and dividing by it again gives back the
      original quantity. */
  lemma TimesOver(a: Quantity, b: Quantity)
    requires b.value != 0.0
    ensures Over(Times(a, b), b) == a
  {
  }

  /** The floor of a dimensionless quantity is a whole number, never above
      the quantity and less than one below it. */
  lemma FloorOneBounds(q: Quantity)
    requires q.ref == U.NoRef
    ensures FloorOne(q).value <= q.value < FloorOne(q).value + 1.0
    ensures 0.0 <= q.value ==> 0.0 <= FloorOne(q).value
  {
  }
}
