/** Grow lights and the air conditioning that removes their heat.

    A grow light turns its electrical power partly into light; the rest,
    the waste, heats the air of the room it stands in.  The air has the
    specific heat capacity 1005 J/(kg K) and the density 1.225 kg/m^3. */
module Light {
  import D = Dimension
  import U = Units
  import opened Quantities

  /** Power in watt, efficiency in per cent. */
  datatype GrowLight = GrowLight(power: real, efficiency: real)

  /** c_p = 1005 J/(kg K) and rho = 1.225 kg/m^3, held in coherent SI units. */
  const SpecificHeatOfAir := Quantity(1005.0, U.Ref(2, 0, -2, 0, -1, 0, 0, 0, 0))
  const DensityOfAir := Quantity(1.225, U.Ref(-3, 1, 0, 0, 0, 0, 0, 0, 0))
  const JoulePerSecond := U.Div(U.Joule, U.Second)

  lemma AirConstants()
    ensures SpecificHeatOfAir == Of(1005.0, U.Div(U.Joule, U.Mul(U.Kilogram, U.Kelvin)))
    ensures DensityOfAir == Of(1.225, U.Div(U.Kilogram, U.CubicMetre))
  {
  }

  /** `waste()`: power * (1 - efficiency), the power that does not leave as
      light; 1 % is 1/100. */
  function Waste(l: GrowLight): (r: Quantity)
    ensures HasDim(r, D.Power)
    ensures NumberIn(r, U.Watt) == l.power * (1.0 - l.efficiency / 100.0)
  {
    Times(Of(l.power, U.Watt), Minus(Of(1.0, U.One), Of(l.efficiency, U.Percent)))
  }

  /** The power of a light splits into the waste and the light it emits. */
  lemma WastePlusLight(l: GrowLight)
    ensures Plus(Waste(l), Times(Of(l.power, U.Watt), Of(l.efficiency, U.Percent)))
            == Of(l.power, U.Watt)
  {
  }

  /** At 90 % efficiency the waste is exactly a tenth of the power. */
  lemma WasteAtNinetyPercent(p: real)
    ensures Waste(GrowLight(p, 90.0)) == Scale(0.1, Of(p, U.Watt))
  {
  }

  /** The waste can be expressed in joule per second. */
  lemma WasteInJoulePerSecond(l: GrowLight)
    ensures Waste(l).ref == JoulePerSecond.ref
  {
  }

  lemma HeatDimension(w: Quantity, v: Quantity)
    requires w.ref == JoulePerSecond.ref && v.ref == U.CubicMetre.ref && v.value != 0.0
    ensures HasDim(Over(w, Times(Times(v, DensityOfAir), SpecificHeatOfAir)), D.TemperatureRate)
  {
  }

  /** `heat(v)`: the waste, in joule per second, over the heat capacity of
      the air in the volume v; a temperature rise per time. */
  function Heat(l: GrowLight, v: Quantity): (r: Quantity)
    requires HasDim(v, D.Volume) && v.value != 0.0
    ensures HasDim(r, D.TemperatureRate)
  {
    WasteInJoulePerSecond(l);
    HasDimRef(v, U.CubicMetre, D.Volume);
    HeatDimension(Waste(l), v);
    Over(Waste(l), Times(Times(v, DensityOfAir), SpecificHeatOfAir))
  }

  /** Kelvin per second, the coherent unit of a temperature rate. */
  const KelvinPerSecond := U.Unit(U.Ref(0, 0, -1, 0, 1, 0, 0, 0, 0), 1.0)

  /** In K/s the heating is the waste in watts over the volume in m^3 times
      1.225 times 1005. */
  lemma HeatValue(l: GrowLight, v: Quantity)
    requires HasDim(v, D.Volume) && v.value != 0.0
    ensures Heat(l, v).ref == KelvinPerSecond.ref
    ensures NumberIn(Heat(l, v), KelvinPerSecond)
            == NumberIn(Waste(l), U.Watt) / (NumberIn(v, U.CubicMetre) * 1.225 * 1005.0)
  {
    HasDimRef(v, U.CubicMetre, D.Volume);
    HasDimRef(Heat(l, v), KelvinPerSecond, D.TemperatureRate);
  }

  /** `airConditionPower(V, ΔT, t)`: the heat 1005 J/(kg K) * 1.225 kg/m^3
      * V * ΔT that warms the air in V by ΔT, removed over the time t; a
      power. */
  lemma CoolingDimension(v: Quantity, deltaT: Quantity, t: Quantity)
    requires v.ref == U.CubicMetre.ref && deltaT.ref == U.Kelvin.ref
    requires t.ref == U.Second.ref && t.value != 0.0
    ensures HasDim(Over(Times(Times(Times(SpecificHeatOfAir, DensityOfAir), v), deltaT), t), D.Power)
  {
  }

  function AirConditionPower(v: Quantity, deltaT: Quantity, t: Quantity): (r: Quantity)
    requires HasDim(v, D.Volume) && HasDim(deltaT, D.Temperature)
    requires HasDim(t, D.Time) && t.value != 0.0
    ensures HasDim(r, D.Power)
  {
    HasDimRef(v, U.CubicMetre, D.Volume);
    HasDimRef(deltaT, U.Kelvin, D.Temperature);
    HasDimRef(t, U.Second, D.Time);
    CoolingDimension(v, deltaT, t);
    Over(Times(Times(Times(SpecificHeatOfAir, DensityOfAir), v), deltaT), t)
  }

  /** In watts the cooling power is 1005 * 1.225 times the volume in m^3
      times the temperature rise in kelvin, over the time in seconds. */
  lemma AirConditionPowerValue(v: Quantity, deltaT: Quantity, t: Quantity)
    requires HasDim(v, D.Volume) && HasDim(deltaT, D.Temperature)
    requires HasDim(t, D.Time) && t.value != 0.0
    ensures AirConditionPower(v, deltaT, t).ref == U.Watt.ref
    ensures NumberIn(AirConditionPower(v, deltaT, t), U.Watt)
            == 1005.0 * 1.225 * NumberIn(v, U.CubicMetre) * NumberIn(deltaT, U.Kelvin) / NumberIn(t, U.Second)
  {
    HasDimRef(v, U.CubicMetre, D.Volume);
    HasDimRef(deltaT, U.Kelvin, D.Temperature);
    HasDimRef(t, U.Second, D.Time);
    HasDimRef(AirConditionPower(v, deltaT, t), U.Watt, D.Power);
  }

  lemma Cancel(k: real, v: real, w: real, n: real, t: real)
    requires v != 0.0 && t != 0.0 && k == 1005.0 * 1.225
    ensures k * v * (w / (v * 1.225 * 1005.0) * n * t) / t == w * n
  {
    calc {
      k * v * (w / (v * 1.225 * 1005.0) * n * t) / t;
      k * v * (w / (v * 1.225 * 1005.0)) * n;
      (k * v) * w / (k * v) * n;
      w * n;
    }
  }

  /** Air conditioning running for the time t against the temperature rise
      that n lights cause in the volume v over t removes exactly the waste
      of the n lights: heat capacity and time cancel. */
  lemma CoolingRemovesWaste(l: GrowLight, v: Quantity, n: Quantity, t: Quantity)
    requires HasDim(v, D.Volume) && v.value != 0.0
    requires n.ref == U.NoRef
    requires HasDim(t, D.Time) && t.value != 0.0
    ensures HasDim(Times(Times(Heat(l, v), n), t), D.Temperature)
    ensures AirConditionPower(v, Times(Times(Heat(l, v), n), t), t) == Times(Waste(l), n)
  {
    var h := Heat(l, v);
    HasDimRef(h, KelvinPerSecond, D.TemperatureRate);
    HasDimRef(t, U.Second, D.Time);
    var p := AirConditionPower(v, Times(Times(h, n), t), t);
    HasDimRef(p, U.Watt, D.Power);
    HasDimRef(Waste(l), U.Watt, D.Power);
    Cancel(1005.0 * 1.225, v.value, Waste(l).value, n.value, t.value);
  }
}
