# drone-simulations calculators in Dafny

This project models the engineering calculators of drone-simulations. They are written in C++ on top of the
mp-units library, and each one works on physical quantities:

- the standard atmosphere near the ground;
- grow lights, and the air conditioning that removes their heat;
- a shipping container fitted with racks, shelves, trays and lights for growing microgreens;
- a loader that reads microgreen varieties from a comma-separated table, and the cost and yield reports built on it;
- the energy stored in hydrogen, and the mass of compressed hydrogen gas;
- the power and energy of a solar panel, and its peak power rating;
- the power and energy a quad-copter needs for a flight;
- a currency base dimension with euro and US dollar.

The unit library itself is modelled only as far as these calculators use it:

- Dimensions are vectors of integer exponents over the seven ISQ bases plus currency "$" (module `Dimension`).
- Units are a reference product with a ratio to it (module `Units`).
- A quantity is a value held in the coherent reference product of its unit (module `Quantities`).
- Writing `x * u` stores x times the ratio of u. Expressing a quantity `.in(u)` only changes the number it shows, which is `NumberIn(q, u)`.
- `QuantityOf<isq::X> auto` becomes the predicate `HasDim(q, X)`. It holds when the quantity has that dimension and no currency in its unit.

Every formula is a function whose contract gives the dimension of its result. Separate lemmas give:

- the numbers the result shows in the units the program prints;
- the relations the figures satisfy with each other:
  - inverses (the energy over the daylight is the power);
  - linearity and scaling;
  - the cooling that exactly removes the waste heat of the lights;
  - the month report as a multiple of the tray report;
- the behaviour of the row reader on well-formed rows, short rows and rows that do not parse;
- the example figures of the demonstration run.

## Model

| member | source | states |
|---|---|---|
| Finance.CurrencyIsFreshBase | src/lib/Finance.hpp:12-13 | "$" is a new base dimension: no product of powers of the seven ISQ bases is a currency, and dividing a currency by any such product leaves exponent 1 on "$" |
| Finance.EuroAndDollarAreCurrencies | src/lib/Finance.hpp:15-23 | amounts in EUR and USD are of dimension currency, and the symbols EUR and USD are the units euro and us_dollar |
| Finance.NoExchangeRate | src/lib/Finance.hpp:15-16 | no unit converts into both euro and US dollar, and no amount in euro equals an amount in dollars, not even zero: there is no exchange rate |
| Finance.EuroSum | src/lib/Finance.hpp:15 | euro amounts add and subtract as their numbers do |
| Finance.PriceTimesMass | src/lib/Microgreens.hpp:187-188 | a price in EUR/kg times a mass is an amount in euro: the price number times the mass in kilograms |
| Units.TimeAndVolumeUnits | src/lib/Microgreens.hpp:278-283 | minute, hour and day are 60 s, 60 min and 24 h, and a litre is 0.001 m^3, as the day and litre of the record use them |
| Units.EnergyUnits | src/lib/Hydrogen.hpp:19 | W h and kW h are the products watt x hour and kilowatt x hour |
| Units.ImperialUnits | src/lib/Microgreens.cpp:40 | an inch is a twelfth of a foot, a foot is a third of a yard, and an ounce is a sixteenth of a pound |
| Units.PascalDefinition | src/lib/Hydrogen.hpp:62 | the pascal is a newton per square metre |
| Atmosphere.PressureUnits | src/lib/Atmosphere.hpp:16-24 | bar is 100000 Pa and atm is 101325 Pa, so 1 atm converts to 1.01325 bar |
| Atmosphere.OneAtmosphere | src/lib/Atmosphere.hpp:16-24 | 1 atm is exactly 1.01325 bar |
| Atmosphere.GasConstantValue | src/lib/Atmosphere.hpp:26 | R = k_B x N_A converts to J/(mol K) with factor 8.31446261815324 |
| Atmosphere.GasConstantDimension | src/lib/Atmosphere.hpp:26 | R has the dimension of molar heat capacity, energy/(amount x temperature) |
| Atmosphere.AtmosphereConstants | src/lib/Atmosphere.hpp:34-45 | L = 0.0065 K/m and M = 0.0289644 kg/mol |
| Atmosphere.TemperatureAt | src/lib/Atmosphere.hpp:28-37 | for every altitude the result is a thermodynamic temperature |
| Atmosphere.TemperatureAtSeaLevel | src/lib/Atmosphere.hpp:33-36 | at 0 m the temperature is 288.15 K |
| Atmosphere.TemperatureLapse | src/lib/Atmosphere.hpp:33-36 | in kelvin the temperature is 288.15 - 0.0065 x altitude in metres; two altitudes differ in temperature by 0.0065 K per metre; the temperature falls strictly as the altitude rises |
| Atmosphere.BarometricExponent | src/lib/Atmosphere.hpp:43-49 | the argument of exp, -(g h M)/(T_0 R_0), is dimensionless for every altitude |
| Atmosphere.ExponentValue | src/lib/Atmosphere.hpp:43-49 | that argument equals -(9.80665 x altitude in m x 0.0289644)/(288.15 x 8.31446261815324) |
| Atmosphere.PressureAt | src/lib/Atmosphere.hpp:39-50 | the result is a pressure, and equals 101325 Pa times exp of that argument, for every exponential function |
| Atmosphere.DensityAt | src/lib/Atmosphere.hpp:52-63 | the result is a density wherever the temperature is not zero |
| Atmosphere.DensityValue | src/lib/Atmosphere.hpp:56-62 | the ideal gas law: in kg/m^3 the density is P[Pa] x 0.0289644/(8.31446261815324 x T[K]), that is rho R T = P M |
| IntermodalContainer.Area | src/lib/IntermodalContainer.hpp:17 | the area is an area whose number of m^2 is length x width in metres |
| IntermodalContainer.Volume | src/lib/IntermodalContainer.hpp:18 | the volume is a volume whose number of m^3 is length x width x height |
| IntermodalContainer.VolumeOverHeight | src/lib/IntermodalContainer.hpp:17-18 | the volume divided by a nonzero height gives back the area |
| Light.AirConstants | src/lib/Light.hpp:21-22 | c_p = 1005 J/(kg K) and rho = 1.225 kg/m^3 |
| Light.Waste | src/lib/Light.hpp:16 | the waste is a power, and in watts equals power x (1 - efficiency%/100) |
| Light.WastePlusLight | src/lib/Light.hpp:16 | the waste plus power x efficiency is the whole power |
| Light.WasteAtNinetyPercent | src/lib/Light.hpp:16 | at 90 % efficiency the waste is a tenth of the power |
| Light.WasteInJoulePerSecond | src/lib/Light.hpp:24 | the waste can be expressed in J/s |
| Light.Heat | src/lib/Light.hpp:17-25 | for every nonzero volume, waste/(V rho c_p) is a temperature per time |
| Light.HeatValue | src/lib/Light.hpp:21-24 | in K/s the heating is the waste in W / (V in m^3 x 1.225 x 1005) |
| Light.AirConditionPower | src/lib/Light.hpp:28-39 | c_p rho V delta_T / t is a power |
| Light.AirConditionPowerValue | src/lib/Light.hpp:34-38 | in W the cooling power is 1005 x 1.225 x V in m^3 x delta_T in K / t in s |
| Light.CoolingRemovesWaste | src/lib/Light.hpp:17-39 | the cooling power that removes, over a time t, the temperature rise that n lights cause over t is exactly n times the waste of one light |
| Microgreens.Racks | src/lib/Microgreens.hpp:83-86 | the racks are a dimensionless whole count, defined for every container when the rack has a width; `RacksRoundDown` and `TwoAndAHalfRacks` state what the count means |
| Microgreens.Shelfs | src/lib/Microgreens.hpp:88-91 | the shelves are a dimensionless whole count, defined when the rack has a width, whatever the tray width |
| Microgreens.Trays | src/lib/Microgreens.hpp:93-96 | the trays are a dimensionless whole count, defined when rack and tray have a width; `TraysPerShelf` states that they are a whole multiple of the shelves |
| Microgreens.TrayArea | src/lib/Microgreens.hpp:98-101 | the tray area is an area |
| Microgreens.TrayAreaValue | src/lib/Microgreens.hpp:98-101 | in m^2 the tray area is tray width x depth x number of trays |
| Microgreens.Lights | src/lib/Microgreens.hpp:103-106 | the lights are a dimensionless whole count, defined when the rack has a width, whatever the tray width; `TraysPerShelf` gives the lights per shelf |
| Microgreens.PowerLights | src/lib/Microgreens.hpp:108-111 | the power of the lights is a power; in watts it is the power of one light x the number of lights |
| Microgreens.PowerWaste | src/lib/Microgreens.hpp:113-116 | the waste is a power equal to the waste of one light times the number of lights |
| Microgreens.Heat | src/lib/Microgreens.hpp:118-121 | the heating of the container's air is a temperature per time |
| Microgreens.RacksRoundDown | src/lib/Microgreens.hpp:85 | the floor never rounds up: the racks times the rack width never exceed the length times the rows |
| Microgreens.TwoAndAHalfRacks | src/lib/Microgreens.hpp:85 | a container 2.5 rack widths long holds 2 racks in a row |
| Microgreens.TraysPerShelf | src/lib/Microgreens.hpp:93-106 | trays per shelf is floor(rack width / tray width), and lights per shelf is the configured number |
| Microgreens.PowerWasteShare | src/lib/Microgreens.hpp:108-116 | the waste is the share 1 - efficiency of the power of the lights |
| Microgreens.EnergyPriceInEuro | src/lib/Microgreens.hpp:135 | the energy price is 0.31 EUR per kW h |
| Microgreens.LightTimeIsAnHour | src/lib/Microgreens.hpp:129 | the light time is one hour, 3600 s |
| Microgreens.Figures | src/lib/Microgreens.hpp:129-133 | light time, temperature rise, cooling and total power have the dimensions time, temperature, power and power |
| Microgreens.FiguresCooling | src/lib/Microgreens.hpp:129-131 | for heating by n lights, the cooling of the report is n times the waste of one light |
| Microgreens.ContainerCooling | src/lib/Microgreens.hpp:129-132 | a container's cooling equals its powerWaste, and its total power is the power of its lights plus their waste |
| Microgreens.DailyEnergy | src/lib/Microgreens.hpp:133 | the energy per day is the share hoursPerDay/24 of the total power |
| Microgreens.DailyCost | src/lib/Microgreens.hpp:133-161 | the cost is euro per time; in EUR/d it is 0.31 x total power in kW x hours of light per day |
| Microgreens.HalfADay | src/lib/Microgreens.hpp:133 | with 12 h of light a day the container draws half its total power over a day |
| Microgreens.ContainerReport | src/lib/Microgreens.hpp:124-163 | the light time is one hour, the temperature rise a temperature, and cooling and total power are powers; `ContainerCooling`, `DailyEnergy` and `DailyCost` give their values |
| Microgreens.EuroPerKilogramUnit | src/lib/Microgreens.hpp:168 | the price unit is euro per kilogram |
| Microgreens.LitrePerDayUnit | src/lib/Microgreens.hpp:171 | the water unit is litre per day |
| Microgreens.TypedDimensions | src/lib/Microgreens.hpp:165-180 | in a typed record water is a volume flow, light is dimensionless, the three durations are times, the yield is a mass, and price x yield is a currency |
| Microgreens.MonthIsThirtyDays | src/lib/Microgreens.hpp:190 | the month is 30 days |
| Microgreens.Tray | src/lib/Microgreens.hpp:187-209 | the tray figures keep the seeds and the seed cost; value and profit are in euro; the cycle is a time, the cycles are dimensionless and the water usage is a volume |
| Microgreens.TrayMoney | src/lib/Microgreens.hpp:187-209 | profit + seed cost = value, and the value in EUR is msrp in EUR/kg x yield in kg |
| Microgreens.TrayTimes | src/lib/Microgreens.hpp:189-190 | in days the cycle is germination + grow + rest, and the cycles per month are 30 / grow days |
| Microgreens.TrayWater | src/lib/Microgreens.hpp:205 | in litres the water usage is the water in l/d x (grow + rest days) |
| Microgreens.TrayReport | src/lib/Microgreens.hpp:182-210 | the report shows the seeds of the record, and their cost in EUR is the seed price in EUR/kg times the seeds in kg |
| Microgreens.MonthOf | src/lib/Microgreens.hpp:225-231 | value, seed cost and profit of the month are all counted in the same currency product |
| Microgreens.MonthQuantities | src/lib/Microgreens.hpp:225-229 | seeds, water and yield of the month are the tray's scaled by trays x cycles |
| Microgreens.MonthMoney | src/lib/Microgreens.hpp:226-231 | seed cost and value of the month are the tray's scaled by trays x cycles, and so is the profit, value less cost |
| Microgreens.PlantMonth | src/lib/Microgreens.hpp:223-231 | for n trays, seeds, seed cost and profit of a month are the tray figures scaled by n and by the cycles per month |
| Microgreens.MonthReport | src/lib/Microgreens.hpp:223-231 | seeds, seed cost and profit of a month are those of a tray scaled by the number of trays of the container and by the cycles per month |
| Microgreens.ColumnsOfFields | src/lib/Microgreens.hpp:247-271 | a line of six or more comma-free fields is read as name = field 1, and seeds, yield, days and price = fields 2 to 5 |
| Microgreens.ShortRowReusesToken | src/lib/Microgreens.hpp:266-271 | on a line of five fields the price read fails and the price token is still the days token |
| Microgreens.Columns | src/lib/Microgreens.hpp:247-271 | none of the fields read from a line holds a comma, whatever the line |
| Microgreens.RecordConstants | src/lib/Microgreens.hpp:278-286 | water 0.25 l/d, light 8 h/d and retail price 13 EUR/kg |
| Microgreens.RecordOfNumbers | src/lib/Microgreens.hpp:255-287 | when all four tokens parse, the record holds the name, the seeds, the yield in ounces, grow = days, germination 0 d, rest 2 d, and a price per 25 lb converted to EUR/kg |
| Microgreens.RecordOfRow | src/lib/Microgreens.hpp:259-287 | a row yields no record exactly when one of its seeds, yield, days or price tokens does not parse |
| Microgreens.RowRecordOfFields | src/lib/Microgreens.hpp:247-287 | the record of a joined line of six or more fields is the record of fields 1 to 5 |
| Microgreens.RecordTyped | src/lib/Microgreens.hpp:273-287 | every record read has the field units of the record |
| Microgreens.Records | src/lib/Microgreens.hpp:244-290 | a successful load has exactly one record per row |
| Microgreens.RecordsPerRow | src/lib/Microgreens.hpp:244-290 | the load succeeds with ms exactly when ms has one record per row, in row order, each read from its row |
| Microgreens.FailureStops | src/lib/Microgreens.hpp:245-287 | once a row fails to parse, the whole load fails, whatever rows follow |
| Microgreens.LoadRecords | src/lib/Microgreens.hpp:235-291 | the loop skips the header line and returns the records of all further lines, or fails at the first row that does not parse |
| Microgreens.LoadMicrogreens | src/lib/Microgreens.hpp:235-291 | the loader of the header reads the seeds column as grams per tray |
| Microgreens.GramsPerTray | src/lib/Microgreens.hpp:259 | the seeds column becomes a mass whose number of grams is the number read |
| Microgreens.GramsPerTrayTyped | src/lib/Microgreens.hpp:259 | records of this loader have their seeds as a mass, and the seeds in grams are the number read |
| MicrogreensImpl.TrayAreaIsTenByTwentyInches | src/lib/Microgreens.cpp:40 | the tray area is 10 in x 20 in, an area |
| MicrogreensImpl.GramsPerTrayArea | src/lib/Microgreens.cpp:41 | the seeds are a mass per area |
| MicrogreensImpl.SeedsRoundTrip | src/lib/Microgreens.cpp:41 | seeds per area times the tray area are the grams read |
| MicrogreensImpl.LoadMicrogreens | src/lib/Microgreens.cpp:16-73 | the same load, with the seeds column read as grams per tray area |
| MicrogreensImpl.PerAreaTyped | src/lib/Microgreens.cpp:41-69 | records of this loader have their seeds per area, and times the tray area they give back the grams read |
| MicrogreensImpl.SeedsPerAreaIsNotMass | src/lib/Microgreens.cpp:41-59 | what this loader stores in the seeds field, declared a mass, is no mass; and a mass times the tray area, as the tray report takes the seeds, is no mass either |
| MicrogreensImpl.ContainerReport | src/lib/Microgreens.cpp:75-114 | the total power is a power, and with 8 h of light a day the container draws a third of it over a day |
| MicrogreensImpl.TrayReportAsHeader | src/lib/Microgreens.cpp:121-145 | the tray report of a seeds-per-area record is the header's tray report of the same record with its seeds multiplied by the tray area |
| MicrogreensImpl.TrayReport | src/lib/Microgreens.cpp:116-146 | the seeds of a tray are the seeds per area times the tray area, a mass; their cost in EUR is that mass in kg times the seed price in EUR/kg |
| MicrogreensImpl.CycleOf | src/lib/Microgreens.cpp:150-156 | value, seed cost and profit of a cycle keep the tray's currency product |
| MicrogreensImpl.CycleIsTrays | src/lib/Microgreens.cpp:148-157 | every cycle figure is the tray figure times the number of trays, and the profit is the tray value less the seed cost, times the trays |
| MicrogreensImpl.CycleReport | src/lib/Microgreens.cpp:148-157 | seeds, seed cost, yield and profit of a cycle of the container are those of a tray times the number of trays |
| MicrogreensImpl.MonthReport | src/lib/Microgreens.cpp:159-168 | the month report is the header's month report of the same record with its seeds per area multiplied by the tray area |
| MicrogreensImpl.MonthIsCycles | src/lib/Microgreens.cpp:150-167 | every month figure, profit included, is the cycle figure times the cycles per month |
| TextStream.IndexOf | src/lib/Microgreens.hpp:251 | the position of the first delimiter: every character before it differs from the delimiter, and it is at the delimiter or at the end |
| TextStream.GetLine | src/lib/Microgreens.hpp:251-271 | a read from a good stream consumes the token and, when the stream stays good, one delimiter; a failed read leaves the stream as it was |
| TextStream.GetLineToken | src/lib/Microgreens.hpp:251-271 | the token of a read is the longest prefix of the text without a delimiter, and a delimiter follows it exactly when the stream stays good |
| TextStream.GetLineNoDelim | src/lib/Microgreens.hpp:251-271 | a read into a token without a delimiter leaves a token without one |
| TextStream.GetLineJoin | src/lib/Microgreens.hpp:251-255 | a read from joined comma-free fields yields the first field; the stream stays good on the rest exactly when more fields follow |
| TextStream.GetLineAtEnd | src/lib/Microgreens.hpp:270 | a read from a stream that is no longer good fails and leaves the token unchanged |
| TextStream.ReadsJoin | src/lib/Microgreens.hpp:258-270 | n reads from n or more joined fields yield the first n fields |
| TextStream.ReadsPastEnd | src/lib/Microgreens.hpp:258-270 | reads beyond the last field repeat the last field |
| TextStream.ReadsAtEnd | src/lib/Microgreens.hpp:258-270 | every read from a stream that is no longer good leaves the token unchanged |
| TextStream.ReadsNoDelim | src/lib/Microgreens.hpp:258-271 | reads into a token without a delimiter yield tokens without one |
| TextStream.Lines | src/lib/Microgreens.hpp:242-245 | an empty text has no lines and a nonempty one has some, and no line holds a line break |
| TextStream.LinesJoin | src/lib/Microgreens.hpp:242-245 | lines without breaks, joined by breaks, are read back as those lines when the last is not empty |
| Hydrogen.HeatingValueUnits | src/lib/Hydrogen.hpp:19 | the lower heating value is 33.3 kW h/kg |
| Hydrogen.HydrogenEnergy | src/lib/Hydrogen.hpp:15-21 | density x volume x heating value is an energy |
| Hydrogen.HydrogenEnergyValue | src/lib/Hydrogen.hpp:15-21 | in kW h the energy is density in kg/m^3 x volume in m^3 x 33.3 |
| Hydrogen.EnergyLinearInVolume | src/lib/Hydrogen.hpp:20 | the energy is linear in the volume |
| Hydrogen.EnergyIn | src/lib/Hydrogen.hpp:23-46 | the masses are masses, the energies are energies, and the increase is dimensionless |
| Hydrogen.GasMassOfFiveLitres | src/lib/Hydrogen.hpp:27-37 | 5 l of gas at 0.08988 kg/m^3 weigh 0.4494 g |
| Hydrogen.LiquidOverGas | src/lib/Hydrogen.hpp:27-44 | for every volume the liquid holds 70.85/0.08988 times the energy of the gas |
| Hydrogen.MolarMassUnit | src/lib/Hydrogen.hpp:66 | the molar mass is 2 g/mol |
| Hydrogen.CompressedGas | src/lib/Hydrogen.hpp:60-67 | n = P V/(R T) is an amount of substance, and n x 2 g/mol is a mass |
| Hydrogen.StorageConditions | src/lib/Hydrogen.hpp:62-64 | P = 200 x 100000 Pa, V = 5 l and T = 298 K |
| Hydrogen.CompressGas | src/lib/Hydrogen.hpp:48-78 | the moles of the stored gas are an amount of substance and its mass is a mass |
| Hydrogen.CompressedGasValues | src/lib/Hydrogen.hpp:60-67 | in mol the amount is P V/(8.31446261815324 T), and in grams the mass is twice that number |
| Hydrogen.CompressGasMoles | src/lib/Hydrogen.hpp:48-78 | 5 l at 200 bar and 298 K hold 100000/(8.31446261815324 x 298) mol |
| SolarPanel.IrradianceUnits | src/lib/SolarPanel.hpp:24 | W/m^2 and kW/m^2 are watt and kilowatt per square metre, of dimension irradiance |
| SolarPanel.TypedRefs | src/lib/SolarPanel.hpp:15-26 | typed panel and location fields are counted in m, m, one, W/m^2 and s |
| SolarPanel.PowerOutput | src/lib/SolarPanel.hpp:28-47 | area, power, duration and energy have the dimensions area, power, time and energy |
| SolarPanel.PowerOutputValues | src/lib/SolarPanel.hpp:32-35 | in the printed units: area in m^2 = width x height; power in W = area x irradiance x efficiency%/100; energy in W h = power in W x daylight in h |
| SolarPanel.EnergyOverDaylight | src/lib/SolarPanel.hpp:33-35 | the energy divided by the daylight is the power |
| SolarPanel.EnergyLinearInDaylight | src/lib/SolarPanel.hpp:35 | the energy is linear in the daylight |
| SolarPanel.ExampleInUnits | src/main.cpp:53-62 | the example panel is 500 cm x 100 cm at 18 %, under 1000 W/m^2 for 12 h |
| SolarPanel.ExampleOutput | src/main.cpp:53-64 | the example panel delivers 900 W and 10800 W h |
| SolarPanelImpl.StandardIrradianceIsOneKilowatt | src/lib/SolarPanel.cpp:16 | the rating irradiance is 1 kW/m^2 |
| SolarPanelImpl.PowerOutput | src/lib/SolarPanel.cpp:11-33 | area, kWp, output and energy have the dimensions area, power, power and energy |
| SolarPanelImpl.AgreesWithHeader | src/lib/SolarPanel.cpp:15-18 | area, output and energy are those of the header's powerOutput |
| SolarPanelImpl.OutputScalesPeak | src/lib/SolarPanel.cpp:16-17 | the output is the peak power times the irradiance in units of 1 kW/m^2 |
| SolarPanelImpl.PeakIffStandardIrradiance | src/lib/SolarPanel.cpp:16-17 | a panel with nonzero area and efficiency delivers its peak power if and only if the irradiance is 1 kW/m^2 |
| SolarPanelImpl.PeakValue | src/lib/SolarPanel.cpp:16 | in kW the peak power is width x height x efficiency |
| SolarPanelImpl.ExamplePeak | src/lib/SolarPanel.cpp:16 | the example panel is rated at 0.9 kWp |
| QuadCopter.Flight.WithDistance | src/lib/QuadCopter.hpp:32-37 | the copy has the new distance and the same altitude and speed |
| QuadCopter.Flight.WithAltitude | src/lib/QuadCopter.hpp:39-44 | the copy has the new altitude and the same distance and speed |
| QuadCopter.Flight.WithSpeed | src/lib/QuadCopter.hpp:46-51 | the copy has the new speed and the same distance and altitude |
| QuadCopter.WithLaws | src/lib/QuadCopter.hpp:32-51 | replacing a member by its own value is the identity, the last replacement wins, and replacements of different members commute |
| QuadCopter.Constants | src/lib/QuadCopter.hpp:65-96 | g is standard gravity, v_v = 10 m/s, C_D = 60 %, and the power ratio is in W/kg, of dimension power/mass |
| QuadCopter.FlightTime | src/lib/QuadCopter.hpp:60 | distance/speed is a time |
| QuadCopter.FlightTimeCoversDistance | src/lib/QuadCopter.hpp:60 | flight time x speed is the distance, and the flight time is linear in the distance |
| QuadCopter.Thrust | src/lib/QuadCopter.hpp:76 | weight x g x eta_t is a force |
| QuadCopter.ThrustValue | src/lib/QuadCopter.hpp:76 | in N the thrust is weight in kg x 9.80665 x efficiency |
| QuadCopter.PowerVertical0 | src/lib/QuadCopter.hpp:82 | thrust x v_v / eta_p is a power |
| QuadCopter.PowerVertical0Value | src/lib/QuadCopter.hpp:82 | in W it is thrust in N x 10 / eta_p, and times eta_p it gives back thrust x v_v |
| QuadCopter.PowerVertical | src/lib/QuadCopter.hpp:83 | the result is a power, namely powerVertical0 scaled by sqrt(rho0/rho) |
| QuadCopter.PowerHorizontal | src/lib/QuadCopter.hpp:91-92 | 0.5 C_D A_f rho v^3 is a power |
| QuadCopter.PowerHorizontalValue | src/lib/QuadCopter.hpp:91-92 | in W it is 0.5 x 0.6 x A_f x rho x v^3 |
| QuadCopter.DragIsCubicInSpeed | src/lib/QuadCopter.hpp:91-92 | flying k times as fast costs k^3 times the drag power |
| QuadCopter.Totals | src/lib/QuadCopter.hpp:95-97 | power, power ratio and energy have the dimensions power, power/mass and energy |
| QuadCopter.TotalsInverse | src/lib/QuadCopter.hpp:95-97 | ratio x weight is the power, energy / flight time is the power, and the energy is linear in the time |
| QuadCopter.Consumption | src/lib/QuadCopter.hpp:54-120 | every figure has its declared dimension: time, force, three powers, total power, power per mass, energy |
| QuadCopter.EnergyLinearInDistance | src/lib/QuadCopter.hpp:60-97 | the total power is the horizontal plus the vertical power; scaling the distance leaves the power unchanged and scales the energy by the same factor |
| QuadCopter.EstimatePowerConsumption | src/lib/QuadCopter.hpp:54-97 | with the densities of the atmosphere model at the altitude and at 0 m, the power is a power and the energy an energy |

## Left out

- Output: printing with `fmt::println` and its formatting are not modelled. Each printed figure is one of the following instead:
  - the value of a modelled function: `IntermodalContainer.Area` and `IntermodalContainer.Volume` for the container, and `Microgreens.Racks`, `Microgreens.Shelfs`, `Microgreens.Trays`, `Microgreens.TrayArea`, `Microgreens.Lights`, `Microgreens.PowerLights`, `Microgreens.PowerWaste` and `Microgreens.Heat` for the grow container;
  - a field of a result record: `Microgreens.ContainerFigures` (heat in one hour, cooling, power, energy, energy cost), `Microgreens.TrayFigures` (seeds, price, cycle, cycles, water usage, value, profit of a tray), `Microgreens.CropFigures` (the container per cycle and per month), `SolarPanel.OutputFigures`, `SolarPanelImpl.PanelFigures`, `Hydrogen.EnergyFigures`, `Hydrogen.GasFigures` and `QuadCopter.PowerFigures`;
  - a field of an input record: the container's length, width and height, the light's power and efficiency, a plant's water, light, germination, grow, rest, yield and MSRP, a panel's width, height and efficiency, a location's irradiance and daylight, and a copter's weight and frontal area with the flight's distance, altitude and speed;
  - a named constant or an argument: `Hydrogen.DensityGas`, `Hydrogen.DensityLiquid`, the storage pressure, volume and temperature of `Hydrogen.CompressGas`, `QuadCopter.ClimbSpeed`, the gas constant `Atmosphere.GasConstant`, the volume given to `Hydrogen.EnergyIn`, and the air density `Atmosphere.DensityAt` at the flight altitude.
- File input: a file is modelled as the text it holds, read by `TextStream.Lines`. `std::ifstream`, file errors and partially read files are left out.
- Parsing numbers: `std::stod` is the parameter `parse`. The exception it throws becomes `None`, which ends the load with no result. The model does not fix which strings parse to which numbers.
- `exp` and `sqrt` are function parameters. The model states only their arguments and the dimensions around them, not their numeric values.
- Numbers are exact reals rather than `double`:
  - rounding, infinities and NaN are not modelled;
  - a division requires a nonzero divisor where `double` would produce inf or NaN;
  - `quantity<one, int>` counts are whole numbers, not 32-bit integers with overflow.
- mp-units itself is modelled as a fixed vector of exponents:
  - quantity kinds (width versus height, altitude versus distance) are not modelled;
  - symbolic magnitudes are not modelled;
  - unit symbol text is not modelled;
  - compile-time rejection is not modelled: a formula's result dimension is a postcondition instead.
- Duplicated definitions are modelled once each:
  - `GrowLight`, `airConditionPower` and `IntermodalContainer` exist both in `Light.hpp`/`IntermodalContainer.hpp` and in `Microgreens.hpp`;
  - the `const`/`noexcept` qualifiers of the container are trivial on values.
- `SolarPanel.cpp` takes `SolarPanel::Location`, which no header declares. It is modelled with `SolarPanelLocation`.
- `main.cpp` calls `harvistReport` and `growContainer`, which are not defined in any header or source file of the program. Only its solar panel example is modelled (`SolarPanel.ExampleInUnits`). Its quad-copter flights are covered by the general lemmas, not as concrete figures.
- Where `Microgreens.hpp` and `Microgreens.cpp` differ, both are modelled as written:
  - the header stores seeds per tray and keeps the lights on 12 h/d (`Microgreens`);
  - the implementation stores seeds per tray area and uses 8 h/d (`MicrogreensImpl`); see "Findings" for the seeds field.
- Hydrogen.CompressGasMoles: states the concrete amount in mol only. The concrete mass follows from `CompressedGasValues` (twice as many grams) and is not restated as a number.
- Hydrogen.EnergyIn: states dimensions only. The concrete gas mass is `GasMassOfFiveLitres` and the energy ratio is `LiquidOverGas`.
- QuadCopter.EstimatePowerConsumption: states dimensions only. The relations between the figures are proved on `Consumption` for any air densities, not restated here.
- Microgreens.TrayArea: states the dimension only; the value is `TrayAreaValue`.
- Microgreens.Heat: states the dimension only; the cooling it calls for is `ContainerCooling`, and the heating of one light in K/s is `Light.HeatValue`.
- Microgreens.Figures: states dimensions only; the values are `FiguresCooling`, `DailyEnergy` and `DailyCost`.
- Microgreens.ContainerReport: states dimensions only; the values are `ContainerCooling`, `DailyEnergy`, `DailyCost` and `HalfADay`.
- Microgreens.MonthOf: states units only; the values are `MonthQuantities` and `MonthMoney`.
- MicrogreensImpl.CycleOf: states units only; the values are `CycleIsTrays`.
- Hydrogen.CompressGas: states dimensions only; the amount is `CompressGasMoles` and the mass `CompressedGasValues`.

## Findings

| source | as written | input that shows it | evidently intended | confidence | as-written member | corrected member |
|---|---|---|---|---|---|---|
| src/lib/Microgreens.cpp:41-59 | the loader stores `stod(token) * gram / trayArea`, a mass per area, in `Microgreen::seeds`, which Microgreens.hpp:170 declares a mass in grams; the tray report at Microgreens.cpp:122 then declares `plant.seeds * trayArea` a mass, which a mass times an area is not | any row, e.g. a seeds token "13": 13 g over 10 in x 20 in has dimension M L^-2, and 13 g times the tray area has dimension M L^2 | the records of this loader hold seeds per tray area, and seeds times tray area is the mass of seeds on a tray | not executed; the two declarations cannot both hold | MicrogreensImpl.SeedsPerAreaIsNotMass | MicrogreensImpl.PerAreaTyped |
