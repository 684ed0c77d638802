/** Growing microgreens in a shipping container: the racks, shelves, trays
    and lights that fit into it, the power they draw and the cooling they
    need, the microgreen records read from a table of varieties, and the
    figures reported for one tray and for a month of growing.

    Counts are dimensionless whole quantities.  Struct fields with a fixed
    unit are numbers in that unit; the fields of a microgreen record are
    quantities, because the two loaders in this repository store different
    kinds of quantity in its `seeds` field. */
module Microgreens {
  import D = Dimension
  import U = Units
  import opened Quantities
  import F = Finance
  import IC = IntermodalContainer
  import L = Light
  import TS = TextStream

  /** Depth, width, height and tray width in metres; the number of shelves. */
  datatype GrowRack = GrowRack(depth: real, width: real, height: real, shelfs: int, tray: real)

  datatype GrowContainer = GrowContainer(container: IC.Container, rack: GrowRack, light: L.GrowLight,
                                         rows: int, lightsPerShelf: int)

  /** `quantity<one, int>`: a count. */
  function Count(n: int): Quantity {
    Of(n as real, U.One)
  }

  /** Multiplying counts multiplies the numbers, and the floor of a
      dimensionless quantity is a count. */
  lemma CountProduct(m: int, n: int)
    ensures Times(Count(m), Count(n)) == Count(m * n)
  {
    assert (m as real) * (n as real) == (m * n) as real;
  }

  lemma FloorIsCount(q: Quantity)
    requires q.ref == U.NoRef
    ensures FloorOne(q) == Count(q.value.Floor)
  {
  }

  /** Racks fit into a container in rows: the rack has a width. */
  predicate RackSized(gc: GrowContainer) {
    gc.rack.width != 0.0
  }

  /** Trays fit onto the shelves as well: the tray has a width too. */
  predicate Sized(gc: GrowContainer) {
    RackSized(gc) && gc.rack.tray != 0.0
  }

  // The counts as whole numbers.  `Racks`, `Shelfs`, `Trays` and `Lights`
  // below are these counts as dimensionless quantities; what the counts
  // mean is stated by `RacksRoundDown` and `TraysPerShelf`.
  function RackCount(gc: GrowContainer): int
    requires RackSized(gc)
  {
    (gc.container.length / gc.rack.width).Floor * gc.rows
  }

  function ShelfCount(gc: GrowContainer): int
    requires RackSized(gc)
  {
    gc.rack.shelfs * RackCount(gc)
  }

  function TrayCount(gc: GrowContainer): int
    requires Sized(gc)
  {
    (gc.rack.width / gc.rack.tray).Floor * ShelfCount(gc)
  }

  function LightCount(gc: GrowContainer): int
    requires RackSized(gc)
  {
    gc.lightsPerShelf * ShelfCount(gc)
  }

  /** `racks()`: floor(container length / rack width) racks in each row. */
  function Racks(gc: GrowContainer): (r: Quantity)
    requires RackSized(gc)
    ensures r == Count(RackCount(gc))
  {
    var perRow := Over(Of(gc.container.length, U.Metre), Of(gc.rack.width, U.Metre));
    FloorIsCount(perRow);
    CountProduct(perRow.value.Floor, gc.rows);
    Times(FloorOne(perRow), Count(gc.rows))
  }

  /** `shelfs()`: the shelves of every rack. */
  function Shelfs(gc: GrowContainer): (r: Quantity)
    requires RackSized(gc)
    ensures r == Count(ShelfCount(gc))
  {
    CountProduct(gc.rack.shelfs, RackCount(gc));
    Times(Count(gc.rack.shelfs), Racks(gc))
  }

  /** `trays()`: floor(rack width / tray width) trays side by side on every shelf. */
  function Trays(gc: GrowContainer): (r: Quantity)
    requires Sized(gc)
    ensures r == Count(TrayCount(gc))
  {
    var perShelf := Over(Of(gc.rack.width, U.Metre), Of(gc.rack.tray, U.Metre));
    FloorIsCount(perShelf);
    CountProduct(perShelf.value.Floor, ShelfCount(gc));
    Times(FloorOne(perShelf), Shelfs(gc))
  }

  /** `trayArea()`: the growing area of all trays. */
  function TrayArea(gc: GrowContainer): (r: Quantity)
    requires Sized(gc)
    ensures HasDim(r, D.Area)
  {
    Times(Times(Of(gc.rack.tray, U.Metre), Of(gc.rack.depth, U.Metre)), Trays(gc))
  }

  /** The tray area in square metres is the area of one tray times the
      number of trays. */
  lemma TrayAreaValue(gc: GrowContainer)
    requires Sized(gc)
    ensures NumberIn(TrayArea(gc), U.SquareMetre) == gc.rack.tray * gc.rack.depth * TrayCount(gc) as real
  {
    RectanglesArea(gc.rack.tray, gc.rack.depth, TrayCount(gc));
  }

  // The step of `TrayAreaValue`: n rectangles of a by b metres.
  lemma RectanglesArea(a: real, b: real, n: int)
    ensures Times(Times(Of(a, U.Metre), Of(b, U.Metre)), Count(n)) == Of(a * b * n as real, U.SquareMetre)
  {
  }

  /** `lights()`: the lights above every shelf. */
  function Lights(gc: GrowContainer): (r: Quantity)
    requires RackSized(gc)
    ensures r == Count(LightCount(gc))
  {
    CountProduct(gc.lightsPerShelf, ShelfCount(gc));
    Times(Count(gc.lightsPerShelf), Shelfs(gc))
  }

  /** `powerLights()`: the power drawn by all lights. */
  function PowerLights(gc: GrowContainer): (r: Quantity)
    requires RackSized(gc)
    ensures HasDim(r, D.Power)
    ensures NumberIn(r, U.Watt) == gc.light.power * LightCount(gc) as real
  {
    Times(Of(gc.light.power, U.Watt), Lights(gc))
  }

  /** `powerWaste()`: the waste of all lights. */
  function PowerWaste(gc: GrowContainer): (r: Quantity)
    requires RackSized(gc)
    ensures HasDim(r, D.Power)
    ensures r.value == L.Waste(gc.light).value * LightCount(gc) as real
  {
    Times(L.Waste(gc.light), Lights(gc))
  }

  /** `heat()`: the temperature rise per time that all lights cause in the
      air of the container. */
  function Heat(gc: GrowContainer): (r: Quantity)
    requires RackSized(gc) && IC.Volume(gc.container).value != 0.0
    ensures HasDim(r, D.TemperatureRate)
  {
    Times(L.Heat(gc.light, IC.Volume(gc.container)), Lights(gc))
  }

  /** The floor never rounds up: the racks of a row are never wider than
      the container is long, and a container 2.5 rack widths long holds two
      racks per row. */
  lemma RacksRoundDown(gc: GrowContainer)
    requires gc.rack.width > 0.0 && gc.rows >= 0
    ensures RackCount(gc) as real * gc.rack.width <= gc.container.length * gc.rows as real
  {
    var perRow := gc.container.length / gc.rack.width;
    assert perRow.Floor as real * gc.rack.width <= gc.container.length;
    calc {
      RackCount(gc) as real * gc.rack.width;
      (perRow.Floor as real * gc.rack.width) * gc.rows as real;
    <=
      gc.container.length * gc.rows as real;
    }
  }

  lemma TwoAndAHalfRacks(gc: GrowContainer)
    requires gc.container.length == 2.5 && gc.rack.width == 1.0 && gc.rows == 1
    ensures Racks(gc) == Count(2)
  {
  }

  /** The number of trays is a whole multiple of the number of shelves,
      floor(rack width / tray width) trays per shelf, and so is the number
      of lights. */
  lemma TraysPerShelf(gc: GrowContainer)
    requires Sized(gc) && ShelfCount(gc) != 0
    ensures TrayCount(gc) as real / ShelfCount(gc) as real == (gc.rack.width / gc.rack.tray).Floor as real
    ensures LightCount(gc) as real / ShelfCount(gc) as real == gc.lightsPerShelf as real
  {
    WholeQuotient((gc.rack.width / gc.rack.tray).Floor, ShelfCount(gc));
    WholeQuotient(gc.lightsPerShelf, ShelfCount(gc));
  }

  // The arithmetic step of `TraysPerShelf`.
  lemma WholeQuotient(k: int, n: int)
    requires n != 0
    ensures (k * n) as real / n as real == k as real
  {
    assert (k * n) as real == k as real * n as real;
  }

  /** Of the power drawn by the lights, the share 1 - efficiency is waste. */
  lemma PowerWasteShare(gc: GrowContainer)
    requires RackSized(gc)
    ensures PowerWaste(gc) == Scale(1.0 - gc.light.efficiency / 100.0, PowerLights(gc))
  {
    HasDimRef(PowerWaste(gc), U.Watt, D.Power);
    HasDimRef(PowerLights(gc), U.Watt, D.Power);
    HasDimRef(L.Waste(gc.light), U.Watt, D.Power);
  }

  // The figures of `report(GrowContainer)`

  datatype ContainerFigures = ContainerFigures(lightTime: Quantity, deltaT: Quantity, cooling: Quantity,
                                               totalPower: Quantity, totalEnergy: Quantity,
                                               dailyCost: Quantity)

  /** The price of electrical energy, 0.31 EUR/(kW h), held in euro per joule. */
  const EnergyPrice := Quantity(0.31 / 3600000.0, U.Ref(-2, -1, 2, 0, 0, 0, 0, 1, 0))

  lemma EnergyPriceInEuro()
    ensures EnergyPrice == Over(Of(0.31, F.Eur), Of(1.0, U.KilowattHour))
  {
  }

  /** An hour, held in seconds: `(1.0 * h).in(s)`. */
  const LightTime := Quantity(3600.0, U.Ref(0, 0, 1, 0, 0, 0, 0, 0, 0))

  lemma LightTimeIsAnHour()
    ensures LightTime == Of(1.0, U.Hour) && NumberIn(LightTime, U.Second) == 3600.0
  {
  }

  /** The figures of the report for a container of volume v whose lights
      heat its air at the rate `heat` and draw the power `powerLights`, the
      lights being on `hoursPerDay` hours a day. */
  function Figures(v: Quantity, heat: Quantity, powerLights: Quantity, hoursPerDay: real): (r: ContainerFigures)
    requires HasDim(v, D.Volume) && v.value != 0.0
    requires HasDim(heat, D.TemperatureRate) && HasDim(powerLights, D.Power)
    ensures HasDim(r.lightTime, D.Time) && HasDim(r.deltaT, D.Temperature)
    ensures HasDim(r.cooling, D.Power) && HasDim(r.totalPower, D.Power)
  {
    HasDimRef(heat, L.KelvinPerSecond, D.TemperatureRate);
    var deltaT := Times(heat, LightTime);
    var cooling := L.AirConditionPower(v, deltaT, LightTime);
    HasDimRef(cooling, U.Watt, D.Power);
    HasDimRef(powerLights, U.Watt, D.Power);
    var totalPower := Plus(powerLights, cooling);
    var totalEnergy := Over(Times(Scale(hoursPerDay, totalPower), Of(1.0, U.Hour)), Of(1.0, U.Day));
    ContainerFigures(LightTime, deltaT, cooling, totalPower, totalEnergy, Times(EnergyPrice, totalEnergy))
  }

  /** `report(GrowContainer)`: the temperature rise ΔT over one hour of
      light, the cooling power that removes it within that hour, the total
      power, the energy drawn per day and its cost per day.  Each figure has
      the kind of quantity the report declares for it; `ContainerCooling`,
      `DailyEnergy` and `DailyCost` state their values. */
  function ContainerReport(gc: GrowContainer, hoursPerDay: real): (r: ContainerFigures)
    requires RackSized(gc) && IC.Volume(gc.container).value != 0.0
    ensures r.lightTime == Of(1.0, U.Hour) && HasDim(r.deltaT, D.Temperature)
    ensures HasDim(r.cooling, D.Power) && HasDim(r.totalPower, D.Power)
  {
    Figures(IC.Volume(gc.container), Heat(gc), PowerLights(gc), hoursPerDay)
  }

  /** The cooling that removes within an hour the temperature rise that n
      lights cause over that hour is exactly the waste of the n lights. */
  lemma FiguresCooling(l: L.GrowLight, v: Quantity, n: Quantity, powerLights: Quantity, hoursPerDay: real)
    requires HasDim(v, D.Volume) && v.value != 0.0 && n.ref == U.NoRef && HasDim(powerLights, D.Power)
    ensures HasDim(Times(L.Heat(l, v), n), D.TemperatureRate)
    ensures Figures(v, Times(L.Heat(l, v), n), powerLights, hoursPerDay).cooling == Times(L.Waste(l), n)
  {
    LightTimeIsAnHour();
    L.CoolingRemovesWaste(l, v, n, LightTime);
  }

  /** The cooling a container needs is the waste of all its lights, so its
      total power is the power of the lights plus their waste. */
  lemma ContainerCooling(gc: GrowContainer, hoursPerDay: real)
    requires RackSized(gc) && IC.Volume(gc.container).value != 0.0
    ensures ContainerReport(gc, hoursPerDay).cooling == PowerWaste(gc)
    ensures ContainerReport(gc, hoursPerDay).totalPower == Plus(PowerLights(gc), PowerWaste(gc))
  {
    FiguresCooling(gc.light, IC.Volume(gc.container), Lights(gc), PowerLights(gc), hoursPerDay);
  }

  /** The lights and the cooling run `hoursPerDay` hours of the 24 hours of
      a day: the energy per day is that share of the total power. */
  lemma DailyEnergy(v: Quantity, heat: Quantity, powerLights: Quantity, hoursPerDay: real)
    requires HasDim(v, D.Volume) && v.value != 0.0
    requires HasDim(heat, D.TemperatureRate) && HasDim(powerLights, D.Power)
    ensures var r := Figures(v, heat, powerLights, hoursPerDay);
            r.totalEnergy == Scale(hoursPerDay / 24.0, r.totalPower)
  {
    var r := Figures(v, heat, powerLights, hoursPerDay);
    ShareOfADay(hoursPerDay, r.totalPower.value);
  }

  // The arithmetic step of `DailyEnergy`: h hours of 24.
  lemma ShareOfADay(h: real, p: real)
    ensures h * p * (1.0 * 3600.0) / (1.0 * 86400.0) == h / 24.0 * p
  {
  }

  /** At 0.31 EUR/(kW h) the cost per day, in euro per day, is 0.31 times
      the total power in kilowatt times the hours of light per day; it is
      an amount of euro per time. */
  lemma DailyCost(v: Quantity, heat: Quantity, powerLights: Quantity, hoursPerDay: real)
    requires HasDim(v, D.Volume) && v.value != 0.0
    requires HasDim(heat, D.TemperatureRate) && HasDim(powerLights, D.Power)
    ensures var r := Figures(v, heat, powerLights, hoursPerDay);
            r.dailyCost.ref == U.Quotient(F.Euro.ref, U.Second.ref)
            && NumberIn(r.dailyCost, U.Div(F.Eur, U.Day))
               == 0.31 * NumberIn(r.totalPower, U.Kilowatt) * hoursPerDay
  {
    var r := Figures(v, heat, powerLights, hoursPerDay);
    DailyEnergy(v, heat, powerLights, hoursPerDay);
    HasDimRef(r.totalPower, U.Watt, D.Power);
    PriceOfEnergy(r.totalPower.value, hoursPerDay);
  }

  // The arithmetic step of `DailyCost`: euro per joule to euro per kW h.
  lemma PriceOfEnergy(p: real, h: real)
    ensures 0.31 / 3600000.0 * (h / 24.0 * p) / (1.0 / 86400.0) == 0.31 * (p / 1000.0) * h
  {
  }

  /** The header's report keeps the lights on 12 hours a day, so the
      container draws half its total power over a day. */
  lemma HalfADay(gc: GrowContainer)
    requires RackSized(gc) && IC.Volume(gc.container).value != 0.0
    ensures ContainerReport(gc, 12.0).totalEnergy == Scale(0.5, ContainerReport(gc, 12.0).totalPower)
  {
    DailyEnergy(IC.Volume(gc.container), Heat(gc), PowerLights(gc), 12.0);
  }

  // The microgreen record

  /** A variety of microgreens: its name, the seed price per mass, the seeds
      per tray, the water and the light it needs per day, the days of
      germination, growth and rest, the yield per tray and the retail price
      per mass.  The seeds are a mass here; the loader of Microgreens.cpp
      stores a mass per area in the same field. */
  datatype Microgreen = Microgreen(name: string, price: Quantity, seeds: Quantity, water: Quantity,
                                   light: Quantity, germination: Quantity, grow: Quantity,
                                   rest: Quantity, harvest: Quantity, msrp: Quantity)

  /** Euro per kilogram, the unit of seed prices and retail prices. */
  const EuroPerKilogram := U.Unit(U.Ref(0, -1, 0, 0, 0, 0, 0, 1, 0), 1.0)

  lemma EuroPerKilogramUnit()
    ensures EuroPerKilogram == U.Div(F.Eur, U.Kilogram)
  {
  }

  /** The fields have the units the record declares, the seeds being
      counted in the reference product s: prices in euro per kilogram,
      water in litre per day, light in hours per day, durations in days and
      the yield in grams, each held in its coherent reference product. */
  predicate Typed(m: Microgreen, s: U.Ref) {
    m.price.ref == EuroPerKilogram.ref && m.seeds.ref == s
    && m.water.ref == LitrePerDay.ref && m.light.ref == U.NoRef
    && m.germination.ref == U.Second.ref && m.grow.ref == U.Second.ref && m.rest.ref == U.Second.ref
    && m.harvest.ref == U.Kilogram.ref && m.msrp.ref == EuroPerKilogram.ref
  }

  /** Litre per day, the unit of the water a tray needs. */
  const LitrePerDay := U.Unit(U.Ref(3, 0, -1, 0, 0, 0, 0, 0, 0), 0.001 / 86400.0)

  lemma LitrePerDayUnit()
    ensures LitrePerDay == U.Div(U.Litre, U.Day)
  {
  }

  /** In terms of dimensions: water is a volume per time, light a time per
      time, durations are times and the yield is a mass. */
  lemma TypedDimensions(m: Microgreen, s: U.Ref)
    requires Typed(m, s)
    ensures HasDim(m.water, D.VolumeFlow) && HasDim(m.light, D.One)
    ensures HasDim(m.germination, D.Time) && HasDim(m.grow, D.Time) && HasDim(m.rest, D.Time)
    ensures HasDim(m.harvest, D.Mass) && F.IsCurrency(Times(m.price, m.harvest))
  {
  }

  // The figures of `report(Microgreen, GrowContainer)`

  datatype TrayFigures = TrayFigures(seeds: Quantity, price: Quantity, value: Quantity, cycle: Quantity,
                                     cycles: Quantity, waterUsage: Quantity, profit: Quantity)

  /** The 30 days of a month, held in seconds. */
  const Month := Quantity(2592000.0, U.Ref(0, 0, 1, 0, 0, 0, 0, 0, 0))

  lemma MonthIsThirtyDays()
    ensures Month == Of(30.0, U.Day)
  {
  }

  /** The figures of one tray of a plant whose seeds have dimension s,
      given the mass of the seeds sown on the tray and what they cost: what
      the yield is worth, the days of one cycle, the cycles in a month of
      30 days, the water used over growth and rest, and the profit. */
  function Tray(plant: Microgreen, s: U.Ref, seeds: Quantity, price: Quantity): (r: TrayFigures)
    requires Typed(plant, s) && plant.grow.value != 0.0
    requires seeds.ref == U.Kilogram.ref && price.ref == F.Euro.ref
    ensures r.seeds == seeds && r.price == price
    ensures r.value.ref == F.Euro.ref && r.profit.ref == F.Euro.ref
    ensures HasDim(r.cycle, D.Time) && HasDim(r.cycles, D.One) && HasDim(r.waterUsage, D.Volume)
    ensures r.cycles.ref == U.NoRef
  {
    var value := Times(plant.msrp, plant.harvest);
    TrayFigures(seeds, price, value, Plus(Plus(plant.germination, plant.grow), plant.rest),
                Over(Month, plant.grow), Times(plant.water, Plus(plant.grow, plant.rest)),
                Minus(value, price))
  }

  /** The profit of a tray is the value of its yield less the cost of its
      seeds; the value is the retail price times the yield. */
  lemma TrayMoney(plant: Microgreen, s: U.Ref, seeds: Quantity, price: Quantity)
    requires Typed(plant, s) && plant.grow.value != 0.0
    requires seeds.ref == U.Kilogram.ref && price.ref == F.Euro.ref
    ensures var r := Tray(plant, s, seeds, price);
            Plus(r.profit, r.price) == r.value
            && NumberIn(r.value, F.Eur)
               == NumberIn(plant.msrp, EuroPerKilogram) * NumberIn(plant.harvest, U.Kilogram)
  {
  }

  /** A cycle lasts germination, growth and rest; a month of 30 days holds
      30 / (days of growth) cycles; the water is used on the days of growth
      and of rest. */
  lemma TrayTimes(plant: Microgreen, s: U.Ref, seeds: Quantity, price: Quantity)
    requires Typed(plant, s) && plant.grow.value != 0.0
    requires seeds.ref == U.Kilogram.ref && price.ref == F.Euro.ref
    ensures var r := Tray(plant, s, seeds, price);
            NumberIn(r.cycle, U.Day)
            == NumberIn(plant.germination, U.Day) + NumberIn(plant.grow, U.Day) + NumberIn(plant.rest, U.Day)
            && NumberIn(r.cycles, U.One) == 30.0 / NumberIn(plant.grow, U.Day)
  {
    var g := plant.grow.value;
    assert 2592000.0 / g == 30.0 / (g / 86400.0);
  }

  lemma TrayWater(plant: Microgreen, s: U.Ref, seeds: Quantity, price: Quantity)
    requires Typed(plant, s) && plant.grow.value != 0.0
    requires seeds.ref == U.Kilogram.ref && price.ref == F.Euro.ref
    ensures var r := Tray(plant, s, seeds, price);
            NumberIn(r.waterUsage, U.Litre)
            == NumberIn(plant.water, LitrePerDay) * (NumberIn(plant.grow, U.Day) + NumberIn(plant.rest, U.Day))
  {
    var r := Tray(plant, s, seeds, price);
    DayProduct(plant.water.value, plant.grow.value, plant.rest.value);
  }

  // The arithmetic step of `TrayWater`: seconds and cubic metres to days and litres.
  lemma DayProduct(w: real, g: real, rest: real)
    ensures w * (g + rest) / 0.001 == w / (0.001 / 86400.0) * (g / 86400.0 + rest / 86400.0)
  {
  }

  /** `report(Microgreen, GrowContainer)` for one tray: the seeds are the
      mass of the record and cost its price per mass times that mass. */
  function TrayReport(plant: Microgreen): (r: TrayFigures)
    requires Typed(plant, U.Kilogram.ref) && plant.grow.value != 0.0
    ensures r.seeds == plant.seeds && r.price.ref == F.Euro.ref && r.value.ref == F.Euro.ref
    ensures r.cycles.ref == U.NoRef
    ensures NumberIn(r.price, F.Eur) == NumberIn(plant.price, EuroPerKilogram) * NumberIn(plant.seeds, U.Kilogram)
  {
    Tray(plant, U.Kilogram.ref, plant.seeds, Times(plant.price, plant.seeds))
  }

  /** The seeds, seed cost, water, yield, value and profit of all trays
      of a container over some period. */
  datatype CropFigures = CropFigures(seeds: Quantity, price: Quantity, waterUsage: Quantity,
                                       harvest: Quantity, value: Quantity, profit: Quantity)

  /** The figures of a month: the figures of a tray, and its yield, times
      the n trays of the container times the cycles in the month. */
  function MonthOf(t: TrayFigures, harvest: Quantity, n: Quantity): (r: CropFigures)
    requires n.ref == U.NoRef && t.value.ref == t.price.ref
    ensures r.value.ref == r.price.ref == r.profit.ref == U.Product(U.Product(t.value.ref, U.NoRef), t.cycles.ref)
  {
    var value := Times(Times(t.value, n), t.cycles);
    var price := Times(Times(t.price, n), t.cycles);
    CropFigures(Times(Times(t.seeds, n), t.cycles), price, Times(Times(t.waterUsage, n), t.cycles),
                 Times(Times(harvest, n), t.cycles), value, Minus(value, price))
  }

  /** Every month figure is the tray figure scaled by trays times cycles;
      this lemma states it for the seeds, the water and the yield. */
  lemma MonthQuantities(t: TrayFigures, harvest: Quantity, n: Quantity)
    requires n.ref == U.NoRef && t.value.ref == t.price.ref && t.cycles.ref == U.NoRef
    ensures var r := MonthOf(t, harvest, n);
            r.seeds == Scale(n.value, Scale(t.cycles.value, t.seeds))
            && r.waterUsage == Scale(n.value, Scale(t.cycles.value, t.waterUsage))
            && r.harvest == Scale(n.value, Scale(t.cycles.value, harvest))
  {
    TimesCounts(t.seeds, n, t.cycles);
    TimesCounts(t.waterUsage, n, t.cycles);
    TimesCounts(harvest, n, t.cycles);
  }

  /** The same for the money: the seed cost, the value, and the profit,
      which is the profit of a tray scaled by trays times cycles. */
  lemma MonthMoney(t: TrayFigures, harvest: Quantity, n: Quantity)
    requires n.ref == U.NoRef && t.value.ref == t.price.ref && t.cycles.ref == U.NoRef
    ensures var r := MonthOf(t, harvest, n);
            r.price == Scale(n.value, Scale(t.cycles.value, t.price))
            && r.value == Scale(n.value, Scale(t.cycles.value, t.value))
            && r.profit == Scale(n.value, Scale(t.cycles.value, Minus(t.value, t.price)))
  {
    TimesCounts(t.price, n, t.cycles);
    TimesCounts(t.value, n, t.cycles);
    ScaleMinus(t.cycles.value, t.value, t.price);
    ScaleMinus(n.value, Scale(t.cycles.value, t.value), Scale(t.cycles.value, t.price));
  }

  /** Multiplying by two dimensionless numbers scales by each in turn. */
  lemma TimesCounts(q: Quantity, n: Quantity, c: Quantity)
    requires n.ref == U.NoRef && c.ref == U.NoRef
    ensures Times(Times(q, n), c) == Scale(n.value, Scale(c.value, q))
  {
  }

  /** Scaling distributes over a difference. */
  lemma ScaleMinus(k: real, a: Quantity, b: Quantity)
    requires a.ref == b.ref
    ensures Minus(Scale(k, a), Scale(k, b)) == Scale(k, Minus(a, b))
  {
  }

  /** The month report of a plant grown on all trays of a container: the
      seeds, the seed cost and the profit of one tray times the number of
      trays times the cycles in a month. */
  function MonthReport(plant: Microgreen, gc: GrowContainer): (r: CropFigures)
    requires Typed(plant, U.Kilogram.ref) && plant.grow.value != 0.0 && Sized(gc)
    ensures var t := TrayReport(plant);
            r.seeds == Scale(Trays(gc).value, Scale(t.cycles.value, plant.seeds))
            && r.price == Scale(Trays(gc).value, Scale(t.cycles.value, t.price))
            && r.profit == Scale(Trays(gc).value, Scale(t.cycles.value, Minus(t.value, t.price)))
  {
    PlantMonth(plant, Trays(gc))
  }

  /** The month figures of a plant grown on n trays. */
  function PlantMonth(plant: Microgreen, n: Quantity): (r: CropFigures)
    requires Typed(plant, U.Kilogram.ref) && plant.grow.value != 0.0 && n.ref == U.NoRef
    ensures var t := TrayReport(plant);
            r.seeds == Scale(n.value, Scale(t.cycles.value, plant.seeds))
            && r.price == Scale(n.value, Scale(t.cycles.value, t.price))
            && r.profit == Scale(n.value, Scale(t.cycles.value, Minus(t.value, t.price)))
  {
    var t := TrayReport(plant);
    MonthQuantities(t, plant.harvest, n);
    MonthMoney(t, plant.harvest, n);
    MonthOf(t, plant.harvest, n)
  }

  // Loading the table of varieties

  /** The text fields of one row that the loader reads: the name and the
      tokens of seeds, yield, days and seed price. */
  datatype Row = Row(name: string, seeds: string, harvest: string, days: string, price: string)

  /** The reads of one line: the part number is read into the token and
      skipped, the name into a string of its own, then seeds, yield, days
      and price into the token in turn.  No field read holds a comma. */
  function Columns(line: string): (r: Row)
    ensures ',' !in r.name && ',' !in r.seeds && ',' !in r.harvest && ',' !in r.days && ',' !in r.price
  {
    var (s1, part) := TS.GetLine(TS.Open(line), "", ',');
    var (s2, name) := TS.GetLine(s1, "", ',');
    TS.GetLineNoDelim(TS.Open(line), "", ',');
    TS.GetLineNoDelim(s1, "", ',');
    var t := TS.Reads(s2, part, ',', 4);
    TS.ReadsNoDelim(s2, part, ',', 4);
    Row(name, t[0], t[1], t[2], t[3])
  }

  /** A row of six or more comma-free fields yields fields 1 to 5. */
  lemma ColumnsOfFields(fields: seq<string>)
    requires |fields| >= 6 && TS.NoDelim(fields, ',')
    ensures Columns(TS.Join(fields, ',')) == Row(fields[1], fields[2], fields[3], fields[4], fields[5])
  {
    TS.GetLineJoin(fields, ',', "");
    TS.GetLineJoin(fields[1..], ',', "");
    assert fields[1..][1..] == fields[2..];
    var rest := fields[2..];
    TS.ReadsJoin(rest, ',', fields[0], 4);
    var t := TS.Reads(TS.Open(TS.Join(rest, ',')), fields[0], ',', 4);
    assert t == rest[..4];
    assert t[0] == fields[2] && t[1] == fields[3] && t[2] == fields[4] && t[3] == fields[5];
  }

  /** A row of five fields has no price field: the read of the price fails
      and the price token is still the days token. */
  lemma ShortRowReusesToken(fields: seq<string>)
    requires |fields| == 5 && TS.NoDelim(fields, ',')
    ensures Columns(TS.Join(fields, ',')) == Row(fields[1], fields[2], fields[3], fields[4], fields[4])
  {
    TS.GetLineJoin(fields, ',', "");
    TS.GetLineJoin(fields[1..], ',', "");
    assert fields[1..][1..] == fields[2..];
    TS.ReadsPastEnd(fields[2..], ',', fields[0], 4);
  }

  /** 0.25 l/d of water and 8 h/d of light, held in coherent units, and the
      retail price 13 EUR/kg. */
  const Water := Quantity(0.25 * (0.001 / 86400.0), LitrePerDay.ref)
  const LightPerDay := Quantity(8.0 * (3600.0 / 86400.0), U.NoRef)
  const Msrp := Quantity(13.0, EuroPerKilogram.ref)

  lemma RecordConstants()
    ensures Water == Of(0.25, LitrePerDay) && LightPerDay == Of(8.0, U.Div(U.Hour, U.Day))
    ensures Msrp == Of(13.0, EuroPerKilogram)
  {
  }

  /** The record of one row; `parse` is `std::stod`, None standing for the
      exception it throws when a token holds no number, and `seedsOf` turns
      the number of the seeds column into the seeds quantity.  A row whose
      seeds, yield, days or price token holds no number yields no record;
      otherwise it yields one. */
  function RecordOfRow(row: Row, parse: string -> TS.Option<real>, seedsOf: real -> Quantity)
    : (r: TS.Option<Microgreen>)
    ensures r.None? <==> parse(row.seeds).None? || parse(row.harvest).None? || parse(row.days).None?
                         || parse(row.price).None?
  {
    var seeds := parse(row.seeds);
    var harvest := parse(row.harvest);
    var days := parse(row.days);
    var price := parse(row.price);
    if seeds.None? || harvest.None? || days.None? || price.None? then TS.None
    else
      TS.Some(Microgreen(row.name, Over(Of(price.value, F.Eur), Of(25.0, U.Pound)), seedsOf(seeds.value),
                         Water, LightPerDay, Of(0.0, U.Day), Of(days.value, U.Day), Of(2.0, U.Day),
                         Of(harvest.value, U.Ounce), Msrp))
  }

  /** The record of one line of the table. */
  function RowRecord(line: string, parse: string -> TS.Option<real>, seedsOf: real -> Quantity)
    : TS.Option<Microgreen>
  {
    RecordOfRow(Columns(line), parse, seedsOf)
  }

  /** A record read from a row holds its name, its seeds, its yield in
      ounces, its days and its price per 25 pounds, in euro per kilogram;
      germination takes no days and rest two. */
  lemma RecordOfNumbers(row: Row, parse: string -> TS.Option<real>, seedsOf: real -> Quantity,
                        seeds: real, harvest: real, days: real, price: real)
    requires parse(row.seeds) == TS.Some(seeds) && parse(row.harvest) == TS.Some(harvest)
    requires parse(row.days) == TS.Some(days) && parse(row.price) == TS.Some(price)
    ensures var r := RecordOfRow(row, parse, seedsOf);
            r.Some? && r.value.name == row.name && r.value.seeds == seedsOf(seeds)
            && r.value.price.ref == EuroPerKilogram.ref
            && NumberIn(r.value.price, EuroPerKilogram) == price / (25.0 * 0.45359237)
            && r.value.harvest == Of(harvest, U.Ounce) && r.value.grow == Of(days, U.Day)
            && r.value.germination == Of(0.0, U.Day) && r.value.rest == Of(2.0, U.Day)
            && r.value.water == Water && r.value.light == LightPerDay && r.value.msrp == Msrp
  {
  }

  /** A line of six or more comma-free fields is read as fields 1 to 5. */
  lemma RowRecordOfFields(fields: seq<string>, parse: string -> TS.Option<real>, seedsOf: real -> Quantity)
    requires |fields| >= 6 && TS.NoDelim(fields, ',')
    ensures RowRecord(TS.Join(fields, ','), parse, seedsOf)
            == RecordOfRow(Row(fields[1], fields[2], fields[3], fields[4], fields[5]), parse, seedsOf)
  {
    ColumnsOfFields(fields);
  }

  /** Every record read has the field units of the record; the seeds are
      whatever `seedsOf` makes of the number read. */
  lemma RecordTyped(row: Row, parse: string -> TS.Option<real>, seedsOf: real -> Quantity)
    ensures var r := RecordOfRow(row, parse, seedsOf);
            r.Some? ==> Typed(r.value, r.value.seeds.ref)
  {
  }

  /** The reader of one line with a given `parse` and `seedsOf`. */
  function RecordOf(parse: string -> TS.Option<real>, seedsOf: real -> Quantity): string -> TS.Option<Microgreen> {
    line => RowRecord(line, parse, seedsOf)
  }

  /** The records of the rows, in order, or None when a row fails to parse:
      one record per row. */
  function Records(rows: seq<string>, record: string -> TS.Option<Microgreen>): (r: TS.Option<seq<Microgreen>>)
    ensures r.Some? ==> |r.value| == |rows|
  {
    if rows == [] then TS.Some([])
    else
      match Records(rows[..|rows| - 1], record)
      case None => TS.None
      case Some(ms) =>
        match record(rows[|rows| - 1])
        case None => TS.None
        case Some(m) => TS.Some(ms + [m])
  }

  /** The rows after the header line. */
  function Body(lines: seq<string>): seq<string> {
    if lines == [] then [] else lines[1..]
  }

  /** The load yields one record per row, in the order of the rows, and it
      succeeds exactly when every row yields a record. */
  lemma {:induction false} RecordsPerRow(rows: seq<string>, record: string -> TS.Option<Microgreen>,
                                         ms: seq<Microgreen>)
    ensures Records(rows, record) == TS.Some(ms)
            <==> |ms| == |rows| && forall k :: 0 <= k < |rows| ==> record(rows[k]) == TS.Some(ms[k])
  {
    if rows != [] {
      var init := rows[..|rows| - 1];
      var last := rows[|rows| - 1];
      if ms != [] {
        var front := ms[..|ms| - 1];
        RecordsPerRow(init, record, front);
        if Records(rows, record) == TS.Some(ms) {
          assert Records(init, record) == TS.Some(front);
          forall k | 0 <= k < |rows|
            ensures record(rows[k]) == TS.Some(ms[k])
          {
            if k < |rows| - 1 {
              assert rows[k] == init[k];
            }
          }
        }
        if |ms| == |rows| && forall k :: 0 <= k < |rows| ==> record(rows[k]) == TS.Some(ms[k]) {
          forall k | 0 <= k < |init|
            ensures record(init[k]) == TS.Some(front[k])
          {
            assert init[k] == rows[k];
          }
          assert ms == front + [ms[|ms| - 1]];
        }
      }
    }
  }

  /** A row that fails to parse makes the whole load fail, whatever follows it. */
  lemma {:induction false} FailureStops(rows: seq<string>, k: nat, record: string -> TS.Option<Microgreen>)
    requires k <= |rows| && Records(rows[..k], record).None?
    ensures Records(rows, record).None?
    decreases |rows| - k
  {
    if k == |rows| {
      assert rows[..k] == rows;
    } else {
      var init := rows[..|rows| - 1];
      assert init[..k] == rows[..k];
      FailureStops(init, k, record);
    }
  }

  /** The loop of `loadMicrogreens(path)` on a file holding `text`: the
      header line is skipped and every further line read into a record by
      `record`, which is appended to the result; a token that holds no
      number ends the load. */
  method LoadRecords(text: string, record: string -> TS.Option<Microgreen>)
    returns (r: TS.Option<seq<Microgreen>>)
    ensures r == Records(Body(TS.Lines(text)), record)
  {
    var rows := Body(TS.Lines(text));
    var result: seq<Microgreen> := [];
    var i := 0;
    while i < |rows|
      invariant 0 <= i <= |rows|
      invariant Records(rows[..i], record) == TS.Some(result)
    {
      var m := record(rows[i]);
      assert rows[..i + 1][..i] == rows[..i];
      if m.None? {
        FailureStops(rows, i + 1, record);
        return TS.None;
      }
      result := result + [m.value];
      i := i + 1;
    }
    assert rows[..i] == rows;
    return TS.Some(result);
  }

  /** `loadMicrogreens(path)` of this header: the seeds column holds grams per tray. */
  method LoadMicrogreens(text: string, parse: string -> TS.Option<real>)
    returns (r: TS.Option<seq<Microgreen>>)
    ensures r == Records(Body(TS.Lines(text)), RecordOf(parse, GramsPerTray))
  {
    r := LoadRecords(text, RecordOf(parse, GramsPerTray));
  }

  /** `std::stod(token) * si::gram`: a mass of x grams. */
  function GramsPerTray(x: real): (r: Quantity)
    ensures HasDim(r, D.Mass) && r.ref == U.Kilogram.ref && NumberIn(r, U.Gram) == x
  {
    Of(x, U.Gram)
  }

  /** The records this header loads carry their seeds as a mass per tray,
      so they are fit for its tray report. */
  lemma GramsPerTrayTyped(row: Row, parse: string -> TS.Option<real>)
    ensures var r := RecordOfRow(row, parse, GramsPerTray);
            r.Some? ==> (Typed(r.value, U.Kilogram.ref)
                         && NumberIn(r.value.seeds, U.Gram) == parse(row.seeds).value)
  {
  }
}
