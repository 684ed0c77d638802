/** The out-of-line `powerOutput` of the solar panel, which also rates the
    panel: its peak power (kWp) is what it delivers under the standard
    irradiance of 1 kW/m^2. */
module SolarPanelImpl {
  import D = Dimension
  import U = Units
  import opened Quantities
  import SP = SolarPanel

  /** 1 kW/m^2, the irradiance a panel's peak power is rated at. */
  const StandardIrradiance := Quantity(1000.0, SP.WattPerSquareMetre.ref)

  lemma StandardIrradianceIsOneKilowatt()
    ensures StandardIrradiance == Of(1.0, SP.KilowattPerSquareMetre)
    ensures HasDim(StandardIrradiance, D.Irradiance)
  {
  }

  datatype PanelFigures = PanelFigures(area: Quantity, kWp: Quantity, output: Quantity, energy: Quantity)

  /** `powerOutput(panel, location)`: area, peak power, output under the
      location's irradiance and the energy over its daylight. */
  function PowerOutput(panel: SP.SolarPanel, location: SP.SolarPanelLocation): (r: PanelFigures)
    requires SP.Typed(panel, location)
    ensures HasDim(r.area, D.Area) && HasDim(r.kWp, D.Power)
    ensures HasDim(r.output, D.Power) && HasDim(r.energy, D.Energy)
  {
    SP.TypedRefs(panel, location);
    var area := Times(panel.width, panel.height);
    var output := Times(Times(area, location.irradiance), panel.efficiency);
    PanelFigures(area, Times(Times(area, StandardIrradiance), panel.efficiency), output,
                 Times(output, location.daylight))
  }

  /** Area, output and energy are those of the header's `powerOutput`. */
  lemma AgreesWithHeader(panel: SP.SolarPanel, location: SP.SolarPanelLocation)
    requires SP.Typed(panel, location)
    ensures PowerOutput(panel, location).area == SP.PowerOutput(panel, location).area
    ensures PowerOutput(panel, location).output == SP.PowerOutput(panel, location).power
    ensures PowerOutput(panel, location).energy == SP.PowerOutput(panel, location).energy
  {
  }

  /** The output is the peak power scaled by the irradiance in units of
      1 kW/m^2. */
  lemma OutputScalesPeak(panel: SP.SolarPanel, location: SP.SolarPanelLocation)
    requires SP.Typed(panel, location)
    ensures PowerOutput(panel, location).output
            == Scale(location.irradiance.value / 1000.0, PowerOutput(panel, location).kWp)
  {
    SP.TypedRefs(panel, location);
    var a := panel.width.value * panel.height.value;
    var i := location.irradiance.value;
    var e := panel.efficiency.value;
    assert a * i * e == i / 1000.0 * (a * 1000.0 * e);
  }

  /** A panel of some area and efficiency delivers its peak power exactly
      when the irradiance is 1 kW/m^2. */
  lemma PeakIffStandardIrradiance(panel: SP.SolarPanel, location: SP.SolarPanelLocation)
    requires SP.Typed(panel, location)
    requires panel.width.value != 0.0 && panel.height.value != 0.0 && panel.efficiency.value != 0.0
    ensures PowerOutput(panel, location).output == PowerOutput(panel, location).kWp
            <==> location.irradiance == StandardIrradiance
  {
    SP.TypedRefs(panel, location);
    var r := PowerOutput(panel, location);
    var a := panel.width.value * panel.height.value;
    var i := location.irradiance.value;
    var e := panel.efficiency.value;
    assert r.output.ref == r.kWp.ref;
    assert r.output.value == a * e * i && r.kWp.value == a * e * 1000.0;
    NonzeroFactor(a * e, i, 1000.0);
    assert location.irradiance == Quantity(i, StandardIrradiance.ref);
  }

  lemma NonzeroFactor(c: real, x: real, y: real)
    requires c != 0.0
    ensures c * x == c * y <==> x == y
  {
    if c * x == c * y {
      assert c * (x - y) == 0.0;
    }
  }

  /** In the units it is shown in, the peak power in kW is the area in m^2
      times the efficiency as a fraction. */
  lemma PeakValue(panel: SP.SolarPanel, location: SP.SolarPanelLocation)
    requires SP.Typed(panel, location)
    ensures PowerOutput(panel, location).kWp.ref == U.Kilowatt.ref
    ensures NumberIn(PowerOutput(panel, location).kWp, U.Kilowatt)
            == panel.width.value * panel.height.value * panel.efficiency.value
  {
    SP.TypedRefs(panel, location);
    var a := panel.width.value * panel.height.value;
    var e := panel.efficiency.value;
    assert a * 1000.0 * e / 1000.0 == a * e;
  }

  /** The example panel of the header is rated at 0.9 kWp. */
  lemma ExamplePeak(panel: SP.SolarPanel, location: SP.SolarPanelLocation)
    requires panel == SP.ExamplePanel && location == SP.ExampleLocation
    ensures SP.Typed(panel, location)
    ensures NumberIn(PowerOutput(panel, location).kWp, U.Kilowatt) == 0.9
  {
    SP.TypedRefs(panel, location);
    PeakValue(panel, location);
  }
}
