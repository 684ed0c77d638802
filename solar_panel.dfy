/** The power and daily energy of a solar panel.

    A panel is a width, a height and an efficiency; a location is the
    irradiance that falls on the panel and the hours of daylight.  The
    panel turns its area times the irradiance times its efficiency into
    power, and that power over the daylight into energy. */
module SolarPanel {
  import D = Dimension
  import U = Units
  import opened Quantities

  const WattPerSquareMetre := U.Unit(U.Ref(0, 1, -3, 0, 0, 0, 0, 0, 0), 1.0)
  const KilowattPerSquareMetre := U.Unit(U.Ref(0, 1, -3, 0, 0, 0, 0, 0, 0), 1000.0)

  lemma IrradianceUnits()
    ensures WattPerSquareMetre == U.Div(U.Watt, U.SquareMetre)
    ensures KilowattPerSquareMetre == U.Div(U.Kilowatt, U.SquareMetre)
    ensures U.DimOf(WattPerSquareMetre.ref) == D.Irradiance
  {
  }

  /** `SolarPanel`: width and height in metres, efficiency in per cent. */
  datatype SolarPanel = SolarPanel(width: Quantity, height: Quantity, efficiency: Quantity)

  /** `SolarPanelLocation`: irradiance in W/m^2 and daylight in hours. */
  datatype SolarPanelLocation = SolarPanelLocation(irradiance: Quantity, daylight: Quantity)

  /** The quantity kinds the members of both records are declared with. */
  predicate Typed(panel: SolarPanel, location: SolarPanelLocation) {
    HasDim(panel.width, D.Length) && HasDim(panel.height, D.Length)
    && HasDim(panel.efficiency, D.One)
    && HasDim(location.irradiance, D.Irradiance) && HasDim(location.daylight, D.Time)
  }

  /** The references a typed panel and location are counted in. */
  lemma TypedRefs(panel: SolarPanel, location: SolarPanelLocation)
    requires Typed(panel, location)
    ensures panel.width.ref == U.Metre.ref && panel.height.ref == U.Metre.ref
    ensures panel.efficiency.ref == U.NoRef
    ensures location.irradiance.ref == WattPerSquareMetre.ref
    ensures location.daylight.ref == U.Second.ref
  {
    HasDimRef(panel.width, U.Metre, D.Length);
    HasDimRef(panel.height, U.Metre, D.Length);
    HasDimRef(panel.efficiency, U.One, D.One);
    HasDimRef(location.irradiance, WattPerSquareMetre, D.Irradiance);
    HasDimRef(location.daylight, U.Second, D.Time);
  }

  datatype OutputFigures = OutputFigures(area: Quantity, power: Quantity, duration: Quantity,
                                         energy: Quantity)

  /** `powerOutput(panel, location)`: the area, the power it delivers, the
      daylight and the energy of a day. */
  function PowerOutput(panel: SolarPanel, location: SolarPanelLocation): (r: OutputFigures)
    requires Typed(panel, location)
    ensures HasDim(r.area, D.Area) && HasDim(r.power, D.Power)
    ensures HasDim(r.duration, D.Time) && HasDim(r.energy, D.Energy)
  {
    TypedRefs(panel, location);
    var area := Times(panel.width, panel.height);
    var power := Times(Times(area, location.irradiance), panel.efficiency);
    OutputFigures(area, power, location.daylight, Times(power, location.daylight))
  }

  /** In the units the figures are shown in: the area in m^2 is width times
      height in metres, the power in W is that area times the irradiance in
      W/m^2 times the efficiency in per cent over 100, and the energy in W h
      is that power times the daylight in hours. */
  lemma PowerOutputValues(panel: SolarPanel, location: SolarPanelLocation)
    requires Typed(panel, location)
    ensures var r := PowerOutput(panel, location);
            r.area.ref == U.SquareMetre.ref && r.power.ref == U.Watt.ref
            && r.energy.ref == U.WattHour.ref && location.daylight.ref == U.Hour.ref
            && NumberIn(r.area, U.SquareMetre) == panel.width.value * panel.height.value
            && NumberIn(r.power, U.Watt)
               == NumberIn(r.area, U.SquareMetre) * location.irradiance.value
                  * (NumberIn(panel.efficiency, U.Percent) / 100.0)
            && NumberIn(r.energy, U.WattHour)
               == NumberIn(r.power, U.Watt) * NumberIn(location.daylight, U.Hour)
  {
    TypedRefs(panel, location);
    var r := PowerOutput(panel, location);
    var e := panel.efficiency.value;
    assert e / 0.01 / 100.0 == e;
    var p := r.power.value;
    var t := location.daylight.value;
    assert p * t / 3600.0 == p * (t / 3600.0);
  }

  /** The energy over the daylight is the power again. */
  lemma EnergyOverDaylight(panel: SolarPanel, location: SolarPanelLocation)
    requires Typed(panel, location) && location.daylight.value != 0.0
    ensures Over(PowerOutput(panel, location).energy, location.daylight) == PowerOutput(panel, location).power
  {
    TypedRefs(panel, location);
    var r := PowerOutput(panel, location);
    assert r.power.value * location.daylight.value / location.daylight.value == r.power.value;
  }

  /** The energy is linear in the daylight. */
  lemma EnergyLinearInDaylight(panel: SolarPanel, location: SolarPanelLocation, k: real)
    requires Typed(panel, location)
    ensures Typed(panel, location.(daylight := Scale(k, location.daylight)))
    ensures PowerOutput(panel, location.(daylight := Scale(k, location.daylight))).energy
            == Scale(k, PowerOutput(panel, location).energy)
  {
    DimOfOps(location.daylight, location.daylight);
    var p := PowerOutput(panel, location).power.value;
    assert p * (k * location.daylight.value) == k * (p * location.daylight.value);
  }

  /** The panel and the location of the example run: 500 cm by 100 cm at
      18 %, under 1000 W/m^2 for 12 hours. */
  const ExamplePanel := SolarPanel(Quantity(5.0, U.Metre.ref), Quantity(1.0, U.Metre.ref),
                                   Quantity(0.18, U.NoRef))
  const ExampleLocation := SolarPanelLocation(Quantity(1000.0, WattPerSquareMetre.ref),
                                              Quantity(43200.0, U.Second.ref))

  lemma ExampleInUnits()
    ensures ExamplePanel == SolarPanel(Of(500.0, U.Centimetre), Of(100.0, U.Centimetre),
                                       Of(18.0, U.Percent))
    ensures ExampleLocation == SolarPanelLocation(Of(1000.0, WattPerSquareMetre), Of(12.0, U.Hour))
  {
  }

  /** The example panel delivers 900 W and 10800 W h a day. */
  lemma ExampleOutput(panel: SolarPanel, location: SolarPanelLocation)
    requires panel == ExamplePanel && location == ExampleLocation
    ensures Typed(panel, location)
    ensures NumberIn(PowerOutput(panel, location).power, U.Watt) == 900.0
    ensures NumberIn(PowerOutput(panel, location).energy, U.WattHour) == 10800.0
  {
    PowerOutputValues(panel, location);
  }
}
