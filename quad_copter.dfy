/** The power and energy a quad-copter needs for a flight.

    Thrust is the weight times standard gravity times the thrust
    efficiency; climbing at 10 m/s costs that thrust times the climb speed
    over the aerodynamic efficiency, corrected by the square root of the
    density ratio between sea level and the flight altitude; cruising
    costs the drag power 1/2 C_D A_f rho v^3 with C_D = 60 %.  The air
    densities and the square root are parameters: the densities come from
    the atmosphere model, whose exponential is itself a parameter. */
module QuadCopter {
  import D = Dimension
  import U = Units
  import opened Quantities
  import A = Atmosphere

  /** `QuadCopter`: weight in kilograms, frontal area in square metres, the
      two efficiencies in per cent. */
  datatype QuadCopter = QuadCopter(weight: Quantity, frontalArea: Quantity,
                                   thrustEfficiency: Quantity, aerodynamicEfficiency: Quantity)

  /** `Flight`: distance and altitude in metres, speed in metres per second.
      The `with` members return a copy with one member replaced. */
  datatype Flight = Flight(distance: Quantity, altitude: Quantity, speed: Quantity)
  {
    function WithDistance(newDistance: Quantity): (r: Flight)
      ensures r.distance == newDistance && r.altitude == altitude && r.speed == speed
    {
      this.(distance := newDistance)
    }

    function WithAltitude(newAltitude: Quantity): (r: Flight)
      ensures r.altitude == newAltitude && r.distance == distance && r.speed == speed
    {
      this.(altitude := newAltitude)
    }

    function WithSpeed(newSpeed: Quantity): (r: Flight)
      ensures r.speed == newSpeed && r.distance == distance && r.altitude == altitude
    {
      this.(speed := newSpeed)
    }
  }

  /** Replacing a member by its own value gives the flight back, the last
      replacement of a member wins, and replacements of different members
      commute. */
  lemma WithLaws(f: Flight, d: Quantity, d2: Quantity, h: Quantity, v: Quantity)
    ensures f.WithDistance(f.distance) == f && f.WithAltitude(f.altitude) == f
    ensures f.WithSpeed(f.speed) == f
    ensures f.WithDistance(d).WithDistance(d2) == f.WithDistance(d2)
    ensures f.WithDistance(d).WithAltitude(h) == f.WithAltitude(h).WithDistance(d)
    ensures f.WithDistance(d).WithSpeed(v) == f.WithSpeed(v).WithDistance(d)
    ensures f.WithAltitude(h).WithSpeed(v) == f.WithSpeed(v).WithAltitude(h)
  {
  }

  /** The quantity kinds the records are declared with. */
  predicate Typed(copter: QuadCopter, flight: Flight) {
    HasDim(copter.weight, D.Mass) && HasDim(copter.frontalArea, D.Area)
    && HasDim(copter.thrustEfficiency, D.One) && HasDim(copter.aerodynamicEfficiency, D.One)
    && HasDim(flight.distance, D.Length) && HasDim(flight.altitude, D.Length)
    && HasDim(flight.speed, D.Speed)
  }

  const WattPerKilogram := U.Unit(U.Ref(2, 0, -3, 0, 0, 0, 0, 0, 0), 1.0)

  /** Standard gravity, the climb speed v_v = 10 m/s and the drag factor
      C_D = 60 %. */
  const Gravity := Quantity(9.80665, U.Ref(1, 0, -2, 0, 0, 0, 0, 0, 0))
  const ClimbSpeed := Quantity(10.0, U.MetrePerSecond.ref)
  const DragFactor := Quantity(0.6, U.NoRef)

  /** The dimension of power per mass, L^2 T^-3. */
  const PowerPerMass: D.Dim := D.Dim(2, 0, -3, 0, 0, 0, 0, 0)

  lemma Constants()
    ensures Gravity == A.Gravity && ClimbSpeed == Of(10.0, U.MetrePerSecond)
    ensures DragFactor == Of(60.0, U.Percent)
    ensures WattPerKilogram == U.Div(U.Watt, U.Kilogram)
    ensures PowerPerMass == D.Div(D.Power, D.Mass) && U.DimOf(WattPerKilogram.ref) == PowerPerMass
  {
  }

  /** `distance / flight.speed`, a time. */
  function FlightTime(distance: Quantity, speed: Quantity): (r: Quantity)
    requires HasDim(distance, D.Length) && HasDim(speed, D.Speed) && speed.value != 0.0
    ensures HasDim(r, D.Time)
  {
    HasDimRef(distance, U.Metre, D.Length);
    HasDimRef(speed, U.MetrePerSecond, D.Speed);
    Over(distance, speed)
  }

  /** At the given speed the copter covers the distance in the flight time,
      which is linear in the distance. */
  lemma FlightTimeCoversDistance(distance: Quantity, speed: Quantity, k: real)
    requires HasDim(distance, D.Length) && HasDim(speed, D.Speed) && speed.value != 0.0
    ensures Times(FlightTime(distance, speed), speed) == distance
    ensures HasDim(Scale(k, distance), D.Length)
    ensures FlightTime(Scale(k, distance), speed) == Scale(k, FlightTime(distance, speed))
  {
    HasDimRef(distance, U.Metre, D.Length);
    HasDimRef(speed, U.MetrePerSecond, D.Speed);
    var d := distance.value;
    var v := speed.value;
    assert d / v * v == d;
    assert k * d / v == k * (d / v);
  }

  /** `weight * standard_gravity * eta_t`, a force. */
  function Thrust(weight: Quantity, efficiency: Quantity): (r: Quantity)
    requires HasDim(weight, D.Mass) && HasDim(efficiency, D.One)
    ensures HasDim(r, D.Force)
  {
    HasDimRef(weight, U.Kilogram, D.Mass);
    HasDimRef(efficiency, U.One, D.One);
    Times(Times(weight, Gravity), efficiency)
  }

  /** In newtons the thrust is the weight in kilograms times 9.80665 times
      the efficiency as a fraction. */
  lemma ThrustValue(weight: Quantity, efficiency: Quantity)
    requires HasDim(weight, D.Mass) && HasDim(efficiency, D.One)
    ensures Thrust(weight, efficiency).ref == U.Newton.ref
    ensures NumberIn(Thrust(weight, efficiency), U.Newton) == weight.value * 9.80665 * efficiency.value
  {
    HasDimRef(weight, U.Kilogram, D.Mass);
    HasDimRef(efficiency, U.One, D.One);
  }

  /** `thrust * v_v / eta_p`, a power. */
  function PowerVertical0(thrust: Quantity, efficiency: Quantity): (r: Quantity)
    requires HasDim(thrust, D.Force) && HasDim(efficiency, D.One) && efficiency.value != 0.0
    ensures HasDim(r, D.Power)
  {
    HasDimRef(thrust, U.Newton, D.Force);
    HasDimRef(efficiency, U.One, D.One);
    Over(Times(thrust, ClimbSpeed), efficiency)
  }

  /** In watts it is the thrust in newtons times 10 over the efficiency;
      times the efficiency it is the thrust times the climb speed again. */
  lemma PowerVertical0Value(thrust: Quantity, efficiency: Quantity)
    requires HasDim(thrust, D.Force) && HasDim(efficiency, D.One) && efficiency.value != 0.0
    ensures PowerVertical0(thrust, efficiency).ref == U.Watt.ref
    ensures NumberIn(PowerVertical0(thrust, efficiency), U.Watt) == thrust.value * 10.0 / efficiency.value
    ensures Times(PowerVertical0(thrust, efficiency), efficiency) == Times(thrust, ClimbSpeed)
  {
    HasDimRef(thrust, U.Newton, D.Force);
    HasDimRef(efficiency, U.One, D.One);
    var x := thrust.value * 10.0;
    assert x / efficiency.value * efficiency.value == x;
  }

  /** `powerVertical0 * sqrt(rho0 / rho)`, a power for every square root. */
  function PowerVertical(p0: Quantity, rho: Quantity, rho0: Quantity, sqrt: real -> real): (r: Quantity)
    requires HasDim(p0, D.Power) && HasDim(rho, D.Density) && HasDim(rho0, D.Density) && rho.value != 0.0
    ensures HasDim(r, D.Power)
    ensures r == Scale(sqrt(rho0.value / rho.value), p0)
  {
    SameDimIsSameRef(rho, rho0, D.Density);
    HasDimRef(p0, U.Watt, D.Power);
    Times(p0, MapOne(sqrt, Over(rho0, rho)))
  }

  /** `0.5 * C_D * A_f * rho * v_h^3`, a power for every density. */
  function PowerHorizontal(area: Quantity, rho: Quantity, speed: Quantity): (r: Quantity)
    requires HasDim(area, D.Area) && HasDim(rho, D.Density) && HasDim(speed, D.Speed)
    ensures HasDim(r, D.Power)
  {
    HasDimRef(area, U.SquareMetre, D.Area);
    HasDimRef(rho, U.KilogramPerCubicMetre, D.Density);
    HasDimRef(speed, U.MetrePerSecond, D.Speed);
    Times(Times(Times(Scale(0.5, DragFactor), area), rho), Times(Times(speed, speed), speed))
  }

  /** In watts the drag power is 0.5 * 0.6 * A_f * rho * v^3 with A_f in
      m^2, rho in kg/m^3 and v in m/s. */
  lemma PowerHorizontalValue(area: Quantity, rho: Quantity, speed: Quantity)
    requires HasDim(area, D.Area) && HasDim(rho, D.Density) && HasDim(speed, D.Speed)
    ensures PowerHorizontal(area, rho, speed).ref == U.Watt.ref
    ensures NumberIn(PowerHorizontal(area, rho, speed), U.Watt)
            == 0.5 * 0.6 * area.value * rho.value * (speed.value * speed.value * speed.value)
  {
    HasDimRef(area, U.SquareMetre, D.Area);
    HasDimRef(rho, U.KilogramPerCubicMetre, D.Density);
    HasDimRef(speed, U.MetrePerSecond, D.Speed);
  }

  /** Flying k times as fast costs k^3 times the drag power. */
  lemma DragIsCubicInSpeed(area: Quantity, rho: Quantity, speed: Quantity, k: real)
    requires HasDim(area, D.Area) && HasDim(rho, D.Density) && HasDim(speed, D.Speed)
    ensures HasDim(Scale(k, speed), D.Speed)
    ensures PowerHorizontal(area, rho, Scale(k, speed)) == Scale(k * k * k, PowerHorizontal(area, rho, speed))
  {
    HasDimRef(speed, U.MetrePerSecond, D.Speed);
    var c := 0.5 * 0.6 * area.value * rho.value;
    var v := speed.value;
    assert k * v * (k * v) * (k * v) == k * k * k * (v * v * v);
    assert c * (k * v * (k * v) * (k * v)) == k * k * k * (c * (v * v * v));
  }

  datatype PowerFigures = PowerFigures(flightTime: Quantity, thrust: Quantity,
                                       powerVertical0: Quantity, powerVertical: Quantity,
                                       powerHorizontal: Quantity, power: Quantity,
                                       powerRatio: Quantity, energy: Quantity)

  /** What QuadCopter.hpp demands for the figures to be finite: a moving
      copter of some weight and aerodynamic efficiency, in air of some
      density. */
  predicate Flyable(copter: QuadCopter, flight: Flight, rho: Quantity, rho0: Quantity) {
    Typed(copter, flight) && HasDim(rho, D.Density) && HasDim(rho0, D.Density)
    && flight.speed.value != 0.0 && copter.weight.value != 0.0
    && copter.aerodynamicEfficiency.value != 0.0 && rho.value != 0.0
  }

  /** The total power of the two parts, that power per weight, and that
      power over the flight time. */
  function Totals(horizontal: Quantity, vertical: Quantity, weight: Quantity, time: Quantity): (r: (Quantity, Quantity, Quantity))
    requires HasDim(horizontal, D.Power) && HasDim(vertical, D.Power)
    requires HasDim(weight, D.Mass) && weight.value != 0.0 && HasDim(time, D.Time)
    ensures HasDim(r.0, D.Power) && HasDim(r.1, PowerPerMass) && HasDim(r.2, D.Energy)
  {
    HasDimRef(horizontal, U.Watt, D.Power);
    HasDimRef(vertical, U.Watt, D.Power);
    HasDimRef(weight, U.Kilogram, D.Mass);
    HasDimRef(time, U.Second, D.Time);
    var power := Plus(horizontal, vertical);
    (power, Over(power, weight), Times(power, time))
  }

  /** The power ratio times the weight is the power again, the energy over
      a nonzero flight time is the power again, and the energy is linear in
      the time. */
  lemma TotalsInverse(horizontal: Quantity, vertical: Quantity, weight: Quantity, time: Quantity, k: real)
    requires HasDim(horizontal, D.Power) && HasDim(vertical, D.Power)
    requires HasDim(weight, D.Mass) && weight.value != 0.0 && HasDim(time, D.Time)
    ensures var r := Totals(horizontal, vertical, weight, time);
            Times(r.1, weight) == r.0 && (time.value != 0.0 ==> Over(r.2, time) == r.0)
    ensures HasDim(Scale(k, time), D.Time)
    ensures Totals(horizontal, vertical, weight, Scale(k, time)).2
            == Scale(k, Totals(horizontal, vertical, weight, time).2)
  {
    HasDimRef(horizontal, U.Watt, D.Power);
    HasDimRef(weight, U.Kilogram, D.Mass);
    HasDimRef(time, U.Second, D.Time);
    var p := horizontal.value + vertical.value;
    var w := weight.value;
    var t := time.value;
    assert p / w * w == p;
    assert t != 0.0 ==> p * t / t == p;
    assert p * (k * t) == k * (p * t);
  }

  /** The figures of `estimatePowerConsumption(copter, flight)` for the air
      density rho at the flight altitude and rho0 at sea level. */
  function Consumption(copter: QuadCopter, flight: Flight, rho: Quantity, rho0: Quantity,
                       sqrt: real -> real): (r: PowerFigures)
    requires Flyable(copter, flight, rho, rho0)
    ensures HasDim(r.flightTime, D.Time) && HasDim(r.thrust, D.Force)
    ensures HasDim(r.powerVertical0, D.Power) && HasDim(r.powerVertical, D.Power)
    ensures HasDim(r.powerHorizontal, D.Power) && HasDim(r.power, D.Power)
    ensures HasDim(r.powerRatio, PowerPerMass) && HasDim(r.energy, D.Energy)
  {
    var flightTime := FlightTime(flight.distance, flight.speed);
    var thrust := Thrust(copter.weight, copter.thrustEfficiency);
    var powerVertical0 := PowerVertical0(thrust, copter.aerodynamicEfficiency);
    var powerVertical := PowerVertical(powerVertical0, rho, rho0, sqrt);
    var powerHorizontal := PowerHorizontal(copter.frontalArea, rho, flight.speed);
    var totals := Totals(powerHorizontal, powerVertical, copter.weight, flightTime);
    PowerFigures(flightTime, thrust, powerVertical0, powerVertical, powerHorizontal,
                 totals.0, totals.1, totals.2)
  }

  /** The total power is the sum of the vertical and horizontal power; the
      energy is linear in the distance flown while the power does not
      depend on it. */
  lemma EnergyLinearInDistance(copter: QuadCopter, flight: Flight, rho: Quantity, rho0: Quantity,
                               sqrt: real -> real, k: real)
    requires Flyable(copter, flight, rho, rho0)
    ensures Flyable(copter, flight.WithDistance(Scale(k, flight.distance)), rho, rho0)
    ensures var r := Consumption(copter, flight, rho, rho0, sqrt);
            var s := Consumption(copter, flight.WithDistance(Scale(k, flight.distance)), rho, rho0, sqrt);
            r.power == Plus(r.powerHorizontal, r.powerVertical)
            && s.power == r.power && s.energy == Scale(k, r.energy)
  {
    var r := Consumption(copter, flight, rho, rho0, sqrt);
    FlightTimeCoversDistance(flight.distance, flight.speed, k);
    TotalsInverse(r.powerHorizontal, r.powerVertical, copter.weight, r.flightTime, k);
  }

  /** `estimatePowerConsumption(copter, flight)`: the densities are those
      of the atmosphere model at the flight altitude and at sea level, for
      the exponential function exp. */
  function EstimatePowerConsumption(copter: QuadCopter, flight: Flight, exp: real -> real,
                                    sqrt: real -> real): (r: PowerFigures)
    requires Typed(copter, flight) && flight.speed.value != 0.0 && copter.weight.value != 0.0
    requires copter.aerodynamicEfficiency.value != 0.0
    requires A.TemperatureAt(flight.altitude).value != 0.0
    requires A.DensityAt(flight.altitude, exp).value != 0.0
    requires A.TemperatureAt(Of(0.0, U.Metre)).value != 0.0
    ensures HasDim(r.power, D.Power) && HasDim(r.energy, D.Energy)
  {
    Consumption(copter, flight, A.DensityAt(flight.altitude, exp), A.DensityAt(Of(0.0, U.Metre), exp), sqrt)
  }
}
