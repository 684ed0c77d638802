/** The definitions of Microgreens.cpp: a loader that stores the seeds of
    a variety as a mass per area of a 10 x 20 inch tray, the container
    report with the lights on 8 hours a day, and the tray report, which
    turns the seeds back into a mass per tray and adds the figures of one
    growing cycle of the whole container. */
module MicrogreensImpl {
  import D = Dimension
  import U = Units
  import opened Quantities
  import F = Finance
  import IC = IntermodalContainer
  import TS = TextStream
  import M = Microgreens

  /** The area of a 1020 tray, 10 in x 20 in, held in square metres. */
  const TrayArea := Quantity(0.129032, U.Ref(2, 0, 0, 0, 0, 0, 0, 0, 0))

  lemma TrayAreaIsTenByTwentyInches()
    ensures TrayArea == Times(Of(10.0, U.Inch), Of(20.0, U.Inch))
    ensures HasDim(TrayArea, D.Area)
  {
  }

  /** The reference product of a mass per area, kg/m^2. */
  const PerArea := U.Ref(-2, 1, 0, 0, 0, 0, 0, 0, 0)

  /** `std::stod(token) * si::gram / trayArea`: the seeds of a tray spread
      over its area. */
  function GramsPerTrayArea(x: real): (r: Quantity)
    ensures r.ref == PerArea && U.DimOf(r.ref) == D.SurfaceDensity
  {
    Over(Of(x, U.Gram), TrayArea)
  }

  /** Spreading the seeds over the tray and taking them back over the whole
      tray gives the grams read. */
  lemma SeedsRoundTrip(x: real)
    ensures Times(GramsPerTrayArea(x), TrayArea) == Of(x, U.Gram)
  {
  }

  /** `loadMicrogreens(path)`: as in the header, with the seeds per area. */
  method LoadMicrogreens(text: string, parse: string -> TS.Option<real>)
    returns (r: TS.Option<seq<M.Microgreen>>)
    ensures r == M.Records(M.Body(TS.Lines(text)), M.RecordOf(parse, GramsPerTrayArea))
  {
    r := M.LoadRecords(text, M.RecordOf(parse, GramsPerTrayArea));
  }

  /** The record declares its seeds a mass in grams, but the seeds this
      loader stores are a mass per area, and the tray report takes them
      times the tray area to get a mass: a mass times an area is no mass. */
  lemma SeedsPerAreaIsNotMass(x: real, m: Quantity)
    requires HasDim(m, D.Mass)
    ensures !HasDim(GramsPerTrayArea(x), D.Mass)
    ensures !HasDim(Times(m, TrayArea), D.Mass)
  {
    HasDimRef(m, U.Kilogram, D.Mass);
  }

  /** The records this loader reads carry their seeds per area. */
  lemma PerAreaTyped(row: M.Row, parse: string -> TS.Option<real>)
    ensures var r := M.RecordOfRow(row, parse, GramsPerTrayArea);
            r.Some? ==> (M.Typed(r.value, PerArea)
                         && Times(r.value.seeds, TrayArea) == Of(parse(row.seeds).value, U.Gram))
  {
    if parse(row.seeds).Some? {
      SeedsRoundTrip(parse(row.seeds).value);
    }
  }

  /** `report(GrowContainer)`: the lights are on 8 hours a day, so the
      container draws a third of its total power over a day. */
  function ContainerReport(gc: M.GrowContainer): (r: M.ContainerFigures)
    requires M.RackSized(gc) && IC.Volume(gc.container).value != 0.0
    ensures HasDim(r.totalPower, D.Power) && r.totalEnergy == Scale(1.0 / 3.0, r.totalPower)
  {
    M.DailyEnergy(IC.Volume(gc.container), M.Heat(gc), M.PowerLights(gc), 8.0);
    M.ContainerReport(gc, 8.0)
  }

  /** The figures of one tray: the seeds are the mass per area of the record
      times the tray area, and cost that mass times the price per mass. */
  function TrayReport(plant: M.Microgreen): (r: M.TrayFigures)
    requires M.Typed(plant, PerArea) && plant.grow.value != 0.0
    ensures r.seeds == Times(plant.seeds, TrayArea) && r.seeds.ref == U.Kilogram.ref
    ensures r.price.ref == F.Euro.ref && r.value.ref == F.Euro.ref && r.cycles.ref == U.NoRef
    ensures NumberIn(r.price, F.Eur) == NumberIn(r.seeds, U.Kilogram) * NumberIn(plant.price, M.EuroPerKilogram)
  {
    var seeds := Times(plant.seeds, TrayArea);
    M.Tray(plant, PerArea, seeds, Times(seeds, plant.price))
  }

  /** The tray report of a record with seeds per area is the tray report of
      the header for the record with the seeds of the whole tray. */
  lemma TrayReportAsHeader(plant: M.Microgreen)
    requires M.Typed(plant, PerArea) && plant.grow.value != 0.0
    ensures M.Typed(plant.(seeds := Times(plant.seeds, TrayArea)), U.Kilogram.ref)
    ensures TrayReport(plant) == M.TrayReport(plant.(seeds := Times(plant.seeds, TrayArea)))
  {
    var seeds := Times(plant.seeds, TrayArea);
    assert Times(seeds, plant.price) == Times(plant.price, seeds);
  }

  /** The figures of one cycle: the figures of a tray, and its yield, times
      the n trays of the container. */
  function CycleOf(t: M.TrayFigures, harvest: Quantity, n: Quantity): (r: M.CropFigures)
    requires n.ref == U.NoRef && t.value.ref == t.price.ref
    ensures r.value.ref == r.price.ref == r.profit.ref == t.value.ref
  {
    var value := Times(t.value, n);
    var price := Times(t.price, n);
    M.CropFigures(Times(t.seeds, n), price, Times(t.waterUsage, n), Times(harvest, n), value,
                  Minus(value, price))
  }

  /** Every figure of a cycle is the tray figure scaled by the number of
      trays, and so is the profit, the tray's value less its seed cost. */
  lemma CycleIsTrays(t: M.TrayFigures, harvest: Quantity, n: Quantity)
    requires n.ref == U.NoRef && t.value.ref == t.price.ref
    ensures var c := CycleOf(t, harvest, n);
            c.seeds == Scale(n.value, t.seeds) && c.price == Scale(n.value, t.price)
            && c.waterUsage == Scale(n.value, t.waterUsage) && c.harvest == Scale(n.value, harvest)
            && c.value == Scale(n.value, t.value) && c.profit == Scale(n.value, Minus(t.value, t.price))
  {
    M.ScaleMinus(n.value, t.value, t.price);
  }

  /** A month holds `cycles` cycles: every month figure is the cycle
      figure times the cycles in a month, the profit included. */
  lemma MonthIsCycles(t: M.TrayFigures, harvest: Quantity, n: Quantity)
    requires n.ref == U.NoRef && t.value.ref == t.price.ref && t.cycles.ref == U.NoRef
    ensures var c := CycleOf(t, harvest, n);
            var m := M.MonthOf(t, harvest, n);
            m.seeds == Times(c.seeds, t.cycles) && m.price == Times(c.price, t.cycles)
            && m.waterUsage == Times(c.waterUsage, t.cycles) && m.harvest == Times(c.harvest, t.cycles)
            && m.value == Times(c.value, t.cycles) && m.profit == Times(c.profit, t.cycles)
  {
    var value := Times(t.value, n);
    var price := Times(t.price, n);
    TimesMinus(value, price, t.cycles);
  }

  /** Multiplying distributes over a difference. */
  lemma TimesMinus(a: Quantity, b: Quantity, c: Quantity)
    requires a.ref == b.ref
    ensures Minus(Times(a, c), Times(b, c)) == Times(Minus(a, b), c)
  {
    assert a.value * c.value - b.value * c.value == (a.value - b.value) * c.value;
  }

  /** The cycle report of a plant grown on all trays of a container: the
      figures of a tray times the number of trays. */
  function CycleReport(plant: M.Microgreen, gc: M.GrowContainer): (r: M.CropFigures)
    requires M.Typed(plant, PerArea) && plant.grow.value != 0.0 && M.Sized(gc)
    ensures var t := TrayReport(plant);
            r.seeds == Scale(M.Trays(gc).value, t.seeds) && r.price == Scale(M.Trays(gc).value, t.price)
            && r.harvest == Scale(M.Trays(gc).value, plant.harvest)
            && r.profit == Scale(M.Trays(gc).value, Minus(t.value, t.price))
  {
    CycleIsTrays(TrayReport(plant), plant.harvest, M.Trays(gc));
    CycleOf(TrayReport(plant), plant.harvest, M.Trays(gc))
  }

  /** The month report of a record with seeds per area is the month report
      of the header for the record with the seeds of the whole tray. */
  function MonthReport(plant: M.Microgreen, gc: M.GrowContainer): (r: M.CropFigures)
    requires M.Typed(plant, PerArea) && plant.grow.value != 0.0 && M.Sized(gc)
    ensures M.Typed(plant.(seeds := Times(plant.seeds, TrayArea)), U.Kilogram.ref)
    ensures r == M.MonthReport(plant.(seeds := Times(plant.seeds, TrayArea)), gc)
  {
    TrayReportAsHeader(plant);
    M.MonthOf(TrayReport(plant), plant.harvest, M.Trays(gc))
  }
}
