/** The currency extension of the dimension system.

    Currency is a base dimension of its own, "$", next to the seven ISQ
    base dimensions.  Euro and US dollar are two named units of that one
    dimension; neither is defined in terms of the other, so the model has
    no exchange rate: an amount in euro cannot be expressed in US dollar,
    added to one or compared with one. */
module Finance {
  import D = Dimension
  import U = Units
  import opened Quantities

  /** `dim_currency`, the base dimension "$", and the quantity `currency` of that dimension. */
  const Currency: D.Dim := D.Dim(0, 0, 0, 0, 0, 0, 0, 1)

  /** `euro` and `us_dollar`: the reference units of the two currencies. */
  const Euro := U.Unit(U.Ref(0, 0, 0, 0, 0, 0, 0, 1, 0), 1.0)
  const UsDollar := U.Unit(U.Ref(0, 0, 0, 0, 0, 0, 0, 0, 1), 1.0)

  /** The unit symbols `EUR` and `USD`. */
  const Eur := Euro
  const Usd := UsDollar

  predicate IsCurrency(q: Quantity) {
    DimOf(q) == Currency
  }

  /** "$" is independent of the ISQ base dimensions: no product of powers
      of length, mass, time, current, temperature, amount and luminosity
      is a currency, and a currency has exponent 1 on "$" alone. */
  lemma CurrencyIsFreshBase(l: int, m: int, t: int, i: int, th: int, n: int, j: int)
    ensures D.IsqProduct(l, m, t, i, th, n, j) != Currency
    ensures D.Div(Currency, D.IsqProduct(l, m, t, i, th, n, j)).currency == 1
  {
    D.IsqProductExponents(l, m, t, i, th, n, j);
  }

  /** Amounts in euro and in US dollar are both currencies; the symbols
      are the units themselves. */
  lemma EuroAndDollarAreCurrencies(x: real, y: real)
    ensures IsCurrency(Of(x, Eur)) && IsCurrency(Of(y, Usd))
    ensures Eur == Euro && Usd == UsDollar
  {
  }

  /** There is no conversion between euro and US dollar: no unit converts
      into both, and no amount in one is an amount in the other, not even
      zero. */
  lemma NoExchangeRate(u: U.Unit, x: real, y: real)
    ensures !(U.Convertible(u, Euro) && U.Convertible(u, UsDollar))
    ensures Of(x, Euro) != Of(y, UsDollar)
  {
  }

  /** Euro amounts add and subtract like their numbers. */
  lemma EuroSum(x: real, y: real)
    ensures Plus(Of(x, Eur), Of(y, Eur)) == Of(x + y, Eur)
    ensures Minus(Of(x, Eur), Of(y, Eur)) == Of(x - y, Eur)
  {
  }

  /** A price per mass, multiplied by a mass, is an amount of the price's
      currency: euro per kilogram times kilograms is euro, and the amount is
      the price times the mass in kilograms. */
  lemma PriceTimesMass(price: Quantity, mass: Quantity)
    requires price.ref == U.Quotient(Euro.ref, U.Kilogram.ref)
    requires HasDim(mass, D.Mass)
    ensures DimOf(price) == D.Div(Currency, D.Mass)
    ensures Times(price, mass) == Of(NumberIn(price, U.Div(Euro, U.Kilogram)) * NumberIn(mass, U.Kilogram), Euro)
  {
    HasDimRef(mass, U.Kilogram, D.Mass);
  }
}
