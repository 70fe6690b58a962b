# The building power-balance engine of `iems_digital_twin`, in Dafny

This project models the hand-written power-balance engine of the
`iems_digital_twin` building energy-management repository and proves
properties of it. It also models three small state updaters from the same
repository.

**Devices.** The devices of the engine are:
- a generic electrical component;
- a load, a PV generator, an energy storage and an EV charger;
- a heat pump, an inverter and the external grid.

Each device validates its parameters at construction and reports a power
(a float for DC, a complex number for AC, zero when switched off). Each
also has its step operation: charge/discharge, generate, set operating
condition, supply, or convert. Python numbers are modelled by
`Numbers.Num`: `R(x)` for a float and `C(re, im)` for a complex number,
with Python's promotion from float to complex in `Add`, `Mul` and `Div`.
Every raised exception is a `Failure` (or `Fail`) carrying the Python
exception class.

**Buses, lines and the network.**
- Buses hold an ordered list of `(component, side)` attachments. They
  check technology on connection and compute their net power as the sum of
  the attachments' powers. An inverter's input side counts positive and
  its output side negative.
- Lines are passive two-bus elements with an impedance and an I²R / I²X
  loss.
- The network is a registry of buses by id. Components, inverters and
  lines are added only once their buses are registered.
- The earlier, self-contained engine (`custom_electricity_ntw.py`) is
  modelled separately. There, the first grid of each bus is asked to close
  that bus's balance.

**The three step rules.**
- The storage dispatch controller of `test.py`.
- The reinforcement-learning environment of `reinforcement_lr.py`.
- The state-of-charge, state-of-health and constant-update rules of the
  cell-level battery model `source/energy_storage/energy_storage.py`.

Objects that the source changes in place are Dafny classes. Their methods
are proved against specification functions. Pure calculations are
functions with lemmas.

## Where the model follows the code rather than its documentation

- **Load sign.** A `Load` reports its non-negative demand with a positive
  sign, and the bus adds it as it is. A load therefore raises the bus
  balance, although the comments in `bus.py` say consumption is negative
  (`Loads.LoadPowerNonNegative`).
- **Inverter output sign.** The inverter's output power is
  `|input| * efficiency`. For any non-negative efficiency it is therefore
  never negative, whatever the sign of the input
  (`Inverters.OutputNeverNegative`, stated for an efficiency in [0, 1]).
  Since the efficiency is not validated, a negative efficiency would make
  it negative.
- **Grid capacity.** The `Grid` constructor overwrites the `max_power`
  argument with `0.0`, so a constructed grid supplies nothing while on
  (`Grids.ZeroCapacitySuppliesNothing`).
- **Inverter efficiency.** The efficiency is not validated.
- **Storage-model setters.** The percentage setters (`eol`, `soc_min`,
  `soc_max`) raise for every value in [0, 100], the reverse of their
  message. As a result the defaults the constructor assigns are refused
  (`StorageModel.PercentSettersRefuseDefaults`).
- **Reward.** The reward of `EnergyEnv.step` is taken on the battery level
  after the action. So discharging into a deficit can be rewarded worse
  than doing nothing (`EnergyEnvironment.RewardAgainstRemainingLevel`).
- **Heat-pump modes.** `HeatPump.set_mode` stores the new mode before
  validating it. With an invalid mode, `set_operating_condition` and
  `get_thermal_output` then disagree in sign
  (`HeatPumps.ThermalReadingsAgree`).

## Model

| member | source | states |
|---|---|---|
| Numbers.Add | source/building_network/bus.py:84-88 | Python `+` on float/complex: the parts add, and the sum is a float only when both operands are |
| Numbers.ZeroFor | source/building_network/bus.py:74-75 | the zero of a technology is `0.0` (a float) exactly on DC and `0j` otherwise |
| Numbers.Neg | source/building_network/bus.py:84 | Python unary minus: both parts are negated and the kind is kept |
| Numbers.Mul | source/building_network/line.py:78 | Python `*`: the complex product formula, a float exactly when both operands are floats |
| Numbers.Conj | source/building_network/electrical_component.py:43-44 | `voltage.conjugate()` keeps the real part, negates the imaginary part and keeps the kind |
| Numbers.Abs2 | source/building_network/line.py:81-84 | `abs(z) ** 2` is non-negative, and positive for every non-zero number |
| Numbers.Abs2IsNorm2 | source/building_network/grid.py:65-67 | `abs(z) ** 2` equals `P**2 + Q**2` on the parts, the form the grid and the earlier engine compare |
| Numbers.Div | source/building_network/electrical_component.py:41-44 | Python `/` on a non-zero divisor gives a float exactly when both operands are floats |
| Numbers.DivMulInverse | source/building_network/electrical_component.py:43-44 | Python `/` (as in `power / voltage`) is undone by multiplying back by the same non-zero divisor |
| Component.ValidateBase | source/building_network/electrical_component.py:16-29 | the base checks pass exactly for a known phase, technology and type, with DC neither three-phase nor carrying reactive power; the first failing check gives the error |
| Component.PowerOf | source/building_network/electrical_component.py:31-36 | `get_power`: a float exactly on DC; zero when off; otherwise the active power and, on AC, the reactive power |
| Component.CurrentOf | source/building_network/electrical_component.py:38-44 | `get_current` is zero when off or at zero voltage; otherwise it is the power over the voltage (DC) or over its conjugate (AC) |
| Component.BaseStatus | source/building_network/electrical_component.py:58-67 | `get_status` reports the reactive power exactly on AC |
| Component.ElectricalComponent.constructor | source/building_network/electrical_component.py:3-14 | with passing base checks the component holds exactly the given identity, technology, powers and on flag |
| Component.ElectricalComponent.SetActive | source/building_network/electrical_component.py:46-48 | the on/off flag becomes the argument |
| Component.ElectricalComponent.SetPower | source/building_network/electrical_component.py:50-56 | only supplied values change; a reactive value on DC raises after a supplied active value was already written |
| Component.ElectricalComponent.GetPower | source/building_network/electrical_component.py:31-36 | a float exactly on DC; zero when off; otherwise the active power and, on AC, the reactive power |
| Component.ElectricalComponent.GetCurrent | source/building_network/electrical_component.py:38-44 | zero when off or at zero voltage; otherwise the current times the voltage (DC) or its conjugate (AC) gives the power back |
| Component.ElectricalComponent.GetStatus | source/building_network/electrical_component.py:58-67 | the id, flag, kind, technology, phase and active power, with the reactive power reported exactly on AC |
| Component.ElectricalComponent.ConnectToBus | source/building_network/electrical_component.py:69-71 | the component's bus becomes the given one |
| Component.NewComponent | source/building_network/electrical_component.py:3-14 | construction succeeds exactly when the base checks pass, and otherwise raises their error |
| Component.ValidDcHasNoReactive | source/building_network/electrical_component.py:26-36 | a valid DC component is single-phase with no reactive power, and reports a float |
| Loads.ValidateLoad | source/building_network/load.py:20-30 | non-negative powers, a known flexibility type, a non-zero shift time when shiftable and a known phase, checked in order |
| Loads.Load.constructor | source/building_network/load.py:4-18 | with passing load checks the load holds exactly the given powers, flexibility type, shift time, phase and technology |
| Loads.Load.GetStatus | source/building_network/load.py:32-35 | the base status plus the flexibility type and shift time |
| Loads.Load.GetPower | source/building_network/electrical_component.py:31-36 | the inherited `get_power`: zero when off, the demand as a float on DC, and demand plus reactive power on AC |
| Loads.Load.ConnectToBus | source/building_network/electrical_component.py:69-71 | the load's bus becomes the given one |
| Loads.LoadPowerNonNegative | source/building_network/load.py:21-24 | a valid load never contributes negative active (or, on AC, reactive) power to a bus sum |
| Loads.NewLoad | source/building_network/load.py:4-18 | construction succeeds exactly when the load checks pass |
| Photovoltaics.ValidatePv | source/building_network/pv.py:30-37 | max power ≥ 0, efficiency in (0, 1] and area > 0, checked in order |
| Photovoltaics.PvOutput | source/building_network/pv.py:53-54 | the output never exceeds the maximum, equals the potential when that fits, and is non-negative for valid parameters |
| Photovoltaics.PvOutputMonotone | source/building_network/pv.py:53-54 | more irradiance never gives less power |
| Photovoltaics.PV.constructor | source/building_network/pv.py:5-28 | the PV starts with no irradiance and no power, holding the given rating, efficiency and area |
| Photovoltaics.PV.GeneratePower | source/building_network/pv.py:39-57 | off: returns 0 and changes nothing; negative irradiance raises before any change; otherwise it records the irradiance, sets the output, zeroes reactive power and returns the output |
| Photovoltaics.PV.GetPower | source/building_network/pv.py:59-65 | zero when off, the output as a float on DC, and the pair on AC |
| Photovoltaics.PV.GetStatus | source/building_network/pv.py:67-76 | the base status plus rating, efficiency, area and the last irradiance |
| Photovoltaics.PV.ConnectToBus | source/building_network/electrical_component.py:69-71 | the PV's bus becomes the given one |
| Photovoltaics.NewPv | source/building_network/pv.py:5-28 | construction succeeds exactly when the PV checks pass |
| Bookkeeping.ChargeStep | source/building_network/energy_storage.py:60-68 | the charge arithmetic fails (ZeroDivisionError) exactly on a zero capacity, or on a clamped request with zero time step times efficiency |
| Bookkeeping.ChargeLaw | source/building_network/energy_storage.py:60-68 | charging raises the state of charge by the stored energy over the capacity; an unclamped request is served in full and a clamped one fills the battery |
| Bookkeeping.DischargeStep | source/building_network/energy_storage.py:88-96 | the discharge arithmetic fails exactly on a zero efficiency or capacity, or on a clamped request with zero time step |
| Bookkeeping.DischargeLaw | source/building_network/energy_storage.py:88-96 | discharging lowers the state of charge by the drawn energy over the capacity; an unclamped request is served in full and a clamped one empties the battery |
| Bookkeeping.DischargeClamped | source/building_network/energy_storage.py:92-94 | a request drawing more than the stored energy empties the battery, and the served power accounts for exactly the drop |
| Bookkeeping.DischargeUnclamped | source/building_network/energy_storage.py:95-96 | a request within the stored energy is served in full at the capped power, and the soc drops by its energy over the capacity |
| Bookkeeping.ChargeBounds | source/building_network/energy_storage.py:60-68 | with valid parameters a charge never fails, serves between 0 and the capped request, and keeps the state of charge in [soc, 1] |
| Bookkeeping.DischargeBounds | source/building_network/energy_storage.py:88-96 | with valid parameters a discharge never fails, serves between 0 and the capped request, and keeps the state of charge in [0, soc] |
| Bookkeeping.ChargeExample | source/building_network/energy_storage.py:60-71 | capacity 1000, soc 0.5, efficiency 0.9: `charge(500, 1.0)` serves 500 and ends at soc 0.95 |
| Bookkeeping.ReplayStaysInRange | source/building_network/energy_storage.py:45-99 | any sequence of non-negative charge and discharge requests never fails and keeps the state of charge in [0, 1] |
| Storage.ValidateStorage | source/building_network/energy_storage.py:34-43 | soc in [0, 1], capacity > 0, non-negative power limits and efficiency in (0, 1], checked in order |
| Storage.EnergyStorage.constructor | source/building_network/energy_storage.py:5-32 | the storage starts at the given soc with no power, holding the given capacity, limits and efficiency |
| Storage.EnergyStorage.Charge | source/building_network/energy_storage.py:45-71 | off: 0 and no change; a negative power raises; otherwise the charge arithmetic's power and soc, with the active power set to minus the served power |
| Storage.EnergyStorage.Discharge | source/building_network/energy_storage.py:73-99 | off: 0 and no change; a negative power raises; otherwise the discharge arithmetic's power and soc, with the active power set to plus the served power |
| Storage.EnergyStorage.SetReactivePower | source/building_network/energy_storage.py:109-113 | raises exactly on DC and otherwise stores the value |
| Storage.EnergyStorage.GetPower | source/building_network/energy_storage.py:101-107 | zero when off, the active power as a float on DC, and the pair on AC |
| Storage.EnergyStorage.GetStatus | source/building_network/energy_storage.py:115-125 | the base status plus capacity, soc, power limits and efficiency |
| Storage.EnergyStorage.ConnectToBus | source/building_network/electrical_component.py:69-71 | the storage's bus becomes the given one |
| Storage.NewStorage | source/building_network/energy_storage.py:5-32 | construction succeeds exactly when the storage checks pass |
| EvCharging.ValidateCharger | source/building_network/ev_charger.py:35-44 | non-negative power limits, efficiency in (0, 1], capacity > 0 and soc in [0, 1], checked in order |
| EvCharging.EVCharger.constructor | source/building_network/ev_charger.py:5-33 | the charger starts idle at the given soc with no power, holding the given limits, efficiency and capacity |
| EvCharging.EVCharger.Charge | source/building_network/ev_charger.py:46-72 | inactive: 0 and no change; a negative power raises before the state changes; otherwise the state is charging, the active power is plus the served power and the reactive power is 0.2 of it on AC |
| EvCharging.EVCharger.Discharge | source/building_network/ev_charger.py:74-100 | inactive: 0 and no change; a negative power raises; otherwise the state is discharging, the active power is minus the served power and the reactive power is zeroed |
| EvCharging.EVCharger.SetIdle | source/building_network/ev_charger.py:102-106 | idle with both powers zero and soc unchanged |
| EvCharging.EVCharger.GetPower | source/building_network/ev_charger.py:108-114 | zero when inactive, the active power as a float on DC, and the pair on AC |
| EvCharging.EVCharger.GetStatus | source/building_network/ev_charger.py:116-127 | the base status plus limits, efficiency, capacity, soc and state |
| EvCharging.EVCharger.ConnectToBus | source/building_network/electrical_component.py:69-71 | the charger's bus becomes the given one |
| EvCharging.NewCharger | source/building_network/ev_charger.py:5-33 | construction succeeds exactly when the charger checks pass |
| HeatPumps.ValidatePump | source/building_network/heat_pump.py:29-36 | rated power ≥ 0, cop > 0 and a known mode, checked in order |
| HeatPumps.ThermalReadingsAgree | source/building_network/heat_pump.py:57-60 | the returned and the reported thermal outputs agree exactly when the mode is valid or the output is zero |
| HeatPumps.FractionBounds | source/building_network/heat_pump.py:52 | a fraction in [0, 1] of the rating lies between 0 and the rating |
| HeatPumps.HeatPump.constructor | source/building_network/heat_pump.py:5-27 | the heat pump starts with no power in a valid mode, holding the given rating and cop |
| HeatPumps.HeatPump.SetOperatingCondition | source/building_network/heat_pump.py:38-60 | off: 0 and no change; a fraction outside [0, 1] raises; otherwise active = rated × fraction, the AC reactive power is set only if it was zero, and the thermal output is returned |
| HeatPumps.HeatPump.SetMode | source/building_network/heat_pump.py:77-80 | the mode is written first, then validated; the call raises exactly for an unknown mode |
| HeatPumps.HeatPump.GetThermalOutput | source/building_network/heat_pump.py:70-75 | 0 when off; otherwise electrical power times COP, positive when heating and negated in every other mode |
| HeatPumps.HeatPump.GetPower | source/building_network/heat_pump.py:62-68 | zero when off, the electrical draw as a float on DC, and the pair on AC |
| HeatPumps.HeatPump.GetStatus | source/building_network/heat_pump.py:82-91 | the base status plus rating, COP, mode and the current thermal output |
| HeatPumps.HeatPump.ConnectToBus | source/building_network/electrical_component.py:69-71 | the heat pump's bus becomes the given one |
| HeatPumps.NewHeatPump | source/building_network/heat_pump.py:5-27 | construction succeeds exactly when the heat-pump checks pass |
| Inverters.ValidateInverter | source/building_network/inverter.py:35-44 | both side technologies must be ac or dc |
| Inverters.ConvertedPowerIsMagnitude | source/building_network/inverter.py:58-59 | the output power is the input's magnitude times the efficiency, and never more than the input's magnitude for an efficiency in [0, 1] |
| Inverters.OutputNeverNegative | source/building_network/inverter.py:58-59 | the output power is non-negative and the same for an input and its negation |
| Inverters.Inverter.constructor | source/building_network/inverter.py:6-33 | the inverter starts with all four powers zero, its base bus being the input bus |
| Inverters.Inverter.SetInputPower | source/building_network/inverter.py:46-65 | a magnitude above the maximum raises before any change; DC with reactive power raises after the input active power is written; the output reactive power is kept |
| Inverters.Inverter.SetOutputReactivePower | source/building_network/inverter.py:67-71 | raises exactly on a DC output and otherwise stores the value |
| Inverters.Inverter.SideZero | source/building_network/inverter.py:75-76 | the zero of a side is a float exactly on a DC side |
| Inverters.Inverter.GetPower | source/building_network/inverter.py:73-86 | off: that side's zero; "input" and "output" give that side's pair; any other side raises |
| Inverters.Inverter.GetCurrent | source/building_network/inverter.py:88-97 | zero when off or at zero voltage; otherwise the side's power over the voltage (or its conjugate); an unknown side raises |
| Inverters.Inverter.ConnectToBus | source/building_network/inverter.py:116-128 | "input" sets the input bus and the base bus, "output" sets the output bus; any other side raises and changes nothing |
| Inverters.NewInverter | source/building_network/inverter.py:6-33 | construction succeeds exactly when both technologies are valid |
| Buses.ValidateBus | source/building_network/bus.py:23-37 | technology and phase known, DC not three-phase, and a tuple voltage only on an AC three-phase bus |
| Buses.TotalIsSum | source/building_network/bus.py:74-90 | the balance's active part is the sum of the contributions' active parts and its reactive part the sum of their reactive parts; it is a float exactly on a DC bus whose every contribution is a float |
| Buses.SumsSnoc | source/building_network/bus.py:80-88 | one more attachment adds exactly its own contribution to both sums |
| Buses.EmptyBalance | source/building_network/bus.py:74-75 | an empty bus reports 0.0 on DC and 0j on AC |
| Buses.Connected | source/building_network/bus.py:105 | the `(id, side)` list has one entry per attachment, in connection order |
| Buses.ConnectDevice | source/building_network/bus.py:52-54 | the device is connected to the bus on the given side, connecting an inverter's input leaves its output bus alone, and the device's contribution on either side is unchanged |
| Buses.Bus.constructor | source/building_network/bus.py:4-21 | a new bus has no attachments and stands at its nominal voltage |
| Buses.Bus.ConnectComponent | source/building_network/bus.py:39-65 | an inverter with a bad side is refused before any change; otherwise the device is connected with its power unchanged, a technology mismatch raises with the list unchanged, and a match appends exactly one attachment and raises the balance by exactly its contribution |
| Buses.Bus.GetPowerBalance | source/building_network/bus.py:67-90 | the loop's total equals the balance of the attachment list |
| Buses.Bus.SetVoltage | source/building_network/bus.py:92-95 | the current voltage becomes the argument |
| Buses.Bus.GetStatus | source/building_network/bus.py:97-107 | the connected list mirrors the attachments in order, and the reported balance and voltage are the bus's own |
| Buses.NewBus | source/building_network/bus.py:4-21 | construction succeeds exactly when the bus checks pass; a new bus holds its nominal voltage and no attachments |
| Grids.ValidateGrid | source/building_network/grid.py:40-47 | max power ≥ 0, and a tuple voltage only on an AC three-phase grid |
| Grids.Supply | source/building_network/grid.py:49-77 | off: the zero of the technology; a ZeroDivisionError only for a zero AC request against a negative capacity; a successful answer while on is a float exactly on DC |
| Grids.SupplyDc | source/building_network/grid.py:56-63 | a DC answer never exceeds the capacity, keeps the request's sign, and is the request itself when that fits |
| Grids.SupplyAcFits | source/building_network/grid.py:72-77 | an AC request within the capacity is returned unchanged |
| Grids.SupplyAcScaled | source/building_network/grid.py:64-71 | an AC request above the capacity is scaled by one factor in [0, 1) to apparent power exactly the capacity |
| Grids.SupplyAcWithinCapacity | source/building_network/grid.py:64-77 | with a non-negative capacity an AC grid always answers, within its capacity |
| Grids.ZeroCapacitySuppliesNothing | source/building_network/grid.py:23-25 | with the capacity the constructor leaves (0.0) every answer is zero |
| Grids.Grid.constructor | source/building_network/grid.py:7-38 | whatever capacity is passed, the grid holds 0.0 |
| Grids.Grid.GetPower | source/building_network/grid.py:90-96 | zero when off, otherwise the stored active power (and reactive power on AC) |
| Grids.Grid.SupplyPower | source/building_network/grid.py:49-77 | the answer is `Supply`'s; when on and successful the stored powers are that answer's parts |
| Grids.Grid.ConnectToBus | source/building_network/grid.py:79-82 | the grid's bus becomes the given one |
| Grids.Grid.EnforceVoltage | source/building_network/grid.py:84-87 | when the status is "on" the bus takes the grid's voltage, otherwise nothing changes |
| Grids.NewGrid | source/building_network/grid.py:38-47 | the checks run on the zeroed capacity, so construction fails only on a tuple voltage of the wrong kind |
| Lines.ValidateLine | source/building_network/line.py:31-55 | the line checks pass exactly when technology and phase are known, DC is single-phase without reactance, the length is positive, resistance and reactance are non-negative, and both buses match in technology and phase |
| Lines.StoredReactanceChecks | source/building_network/line.py:26-45 | the stored reactance is zero off AC, so the DC-reactance check never fires |
| Lines.CurrentSquared | source/building_network/line.py:78-85 | the squared current is `abs(I) ** 2`: non-negative and zero exactly for a zero current |
| Lines.Line.constructor | source/building_network/line.py:21-29 | the line holds its two buses, no extra bus, and the reactance it stores (zero off AC) |
| Lines.Line.GetImpedance | source/building_network/line.py:57-61 | R on DC (a float), R + jX otherwise |
| Lines.Line.PowerLoss | source/building_network/line.py:75-86 | `I**2 * R` on a DC line with a float current; on AC `abs(I)**2` times each part of the impedance, a complex number |
| Lines.Line.ConnectToBus | source/building_network/line.py:63-73 | the bus is recorded first; "from" or "to" replaces that end; any other side raises |
| Lines.Line.GetStatus | source/building_network/line.py:88-99 | the reactance is reported exactly on AC, with the impedance |
| Lines.AcLossIsCurrentSquaredTimesImpedance | source/building_network/line.py:79-86 | on AC the loss is `abs(I) ** 2` times the impedance |
| Lines.LossNonNegative | source/building_network/line.py:75-86 | both parts of a valid line's loss are non-negative |
| Lines.NoLossIffNoCurrent | source/building_network/line.py:75-86 | with positive resistance the loss is zero exactly when the current is |
| Lines.NewLine | source/building_network/line.py:21-29 | construction succeeds exactly when the line checks pass on the stored reactance |
| Networks.Network.constructor | source/building_network/network.py:10-15 | a new network is empty |
| Networks.Network.AddBus | source/building_network/network.py:17-22 | the bus is stored under its id, replacing an earlier one |
| Networks.Network.AddDevice | source/building_network/network.py:36-40 | refused with no change unless its bus is registered; otherwise listed first, then attached exactly when its technology matches, the bus balance rising by its contribution; every other bus keeps its list |
| Networks.Network.AddInverter | source/building_network/network.py:26-31 | refused with no change unless both buses are registered; otherwise listed, then attached on the input and, if that matched, the output side; on a failure the input attachment stays exactly when the input side matched and the output bus is unchanged; no other bus changes |
| Networks.Network.AddComponent | source/building_network/network.py:24-43 | a grid raises and changes nothing; a line is only listed, and only when both its buses are registered; devices and inverters behave as `AddDevice` and `AddInverter` state; no bus outside the device's own changes its list, and no device's power changes |
| Networks.Network.GetStatus | source/building_network/network.py:94-96 | one status per registered bus id, each that bus's own |
| CustomNetwork.PartPower | source/building_network/custom_electricity_ntw.py:35-56 | a load consumes its demand, a PV generates its output, a grid reports 0j |
| CustomNetwork.BalanceOf | source/building_network/custom_electricity_ntw.py:23-27 | the running total starts from `complex(0, 0)` and stays complex |
| CustomNetwork.BalanceAppend | source/building_network/custom_electricity_ntw.py:23-27 | the balance of a concatenation is the sum of the balances |
| CustomNetwork.GridAddsNothing | source/building_network/custom_electricity_ntw.py:53-56 | connecting a grid does not change the balance |
| CustomNetwork.Supply | source/building_network/custom_electricity_ntw.py:58-63 | the request is returned exactly when its magnitude is within the capacity's, otherwise ValueError |
| CustomNetwork.FirstGrid | source/building_network/custom_electricity_ntw.py:85-89 | the grid found is a grid of the bus, and none is found exactly when the bus has no grid |
| CustomNetwork.GridClosesBalance | source/building_network/custom_electricity_ntw.py:81-87 | the first grid answers exactly when the balance fits its capacity, and then balance plus answer is zero |
| CustomNetwork.ExampleRun | source/building_network/custom_electricity_ntw.py:92-111 | the example bus (load 1000+200j, PV 800, grid 10 kW) is closed by 200+200j |
| CustomNetwork.FailureStops | source/building_network/custom_electricity_ntw.py:78-89 | once a grid has raised, later buses are never reached |
| CustomNetwork.Bus.constructor | source/building_network/custom_electricity_ntw.py:14-18 | a new bus has nothing connected |
| CustomNetwork.Bus.AddComponent | source/building_network/custom_electricity_ntw.py:20-21 | the part is appended |
| CustomNetwork.Bus.CalculatePowerBalance | source/building_network/custom_electricity_ntw.py:23-27 | the loop's total is the balance of the connected parts |
| CustomNetwork.Network.constructor | source/building_network/custom_electricity_ntw.py:67-69 | a new network has no buses and no components |
| CustomNetwork.Network.AddBus | source/building_network/custom_electricity_ntw.py:71-72 | the bus is appended |
| CustomNetwork.Network.AddComponent | source/building_network/custom_electricity_ntw.py:74-76 | the part is listed and appended to its own bus |
| CustomNetwork.Network.GridAnswer | source/building_network/custom_electricity_ntw.py:85-89 | the inner loop's result is the first grid's answer, or none without a grid |
| CustomNetwork.Network.RunSimulation | source/building_network/custom_electricity_ntw.py:78-89 | the answers per bus in order, or the first grid error |
| StorageControl.Step | source/building_network/test.py:16-34 | a surplus charges by at most the limit and never past the cap; a deficit with charge left discharges by at most the limit and never below the floor; otherwise idle |
| StorageControl.StepStaysInRange | source/building_network/test.py:23-32 | a state of charge in [soc_min, soc_max] stays there |
| StorageControl.SetpointBounded | source/building_network/test.py:23-34 | the set-point is bounded by the power limit and by the imbalance, negative only on a surplus and positive only on a covered deficit |
| StorageControl.SocFollowsSetpoint | source/building_network/test.py:25-31 | the soc moves by the set-point's energy over the capacity unless the cap or floor cuts it short |
| StorageControl.StorageController.constructor | source/building_network/test.py:7-14 | the controller holds the given indices, soc window and initial soc |
| StorageControl.StorageController.ControlStep | source/building_network/test.py:16-36 | the new soc and written set-point are those of `Step`, and stay in range and within the limit |
| EnergyEnvironment.Reward | reinforcement_lr.py:64-65 | the reward is never positive, and zero exactly when the remaining level covers the deficit |
| EnergyEnvironment.LevelStaysInRange | reinforcement_lr.py:53-61 | a level in [0, capacity] stays in [0, capacity] whatever the action |
| EnergyEnvironment.ActionsMoveTheRightWay | reinforcement_lr.py:53-61 | charging only rises, by at most the surplus; discharging only falls, by at most the deficit; other actions do nothing |
| EnergyEnvironment.RewardAgainstRemainingLevel | reinforcement_lr.py:53-65 | with a deficit the battery covers, idling is rewarded 0 while discharging is rewarded against the reduced level |
| EnergyEnvironment.EnergyEnv.constructor | reinforcement_lr.py:15-29 | the environment starts at step 0 with an empty battery over the given series |
| EnergyEnvironment.EnergyEnv.GetState | reinforcement_lr.py:40-45 | IndexError exactly when the step is past either series, otherwise the level and that step's readings |
| EnergyEnvironment.EnergyEnv.Reset | reinforcement_lr.py:35-38 | back to step 0 with an empty battery, returning the first state |
| EnergyEnvironment.EnergyEnv.Step | reinforcement_lr.py:47-72 | past the series: IndexError with no change; otherwise the new level, one step on, reward ≤ 0, done exactly once the generation series is used up |
| EnergyEnvironment.NewEnv | reinforcement_lr.py:15-29 | construction fails exactly when a series is empty (`max` of an empty sequence) |
| StorageModel.CheckSetting | source/energy_storage/energy_storage.py:58-185 | a percentage setter refuses every value in [0, 100], a non-negative setter refuses negatives, and a property without a setter raises AttributeError |
| StorageModel.PercentSettersRefuseDefaults | source/energy_storage/energy_storage.py:31-104 | the constructor's defaults for the three percentage setters are refused, and `soc_max` accepts only values outside [0, 100] |
| StorageModel.CheckUpdate | source/energy_storage/energy_storage.py:188-192 | an entry passes exactly when its key names an attribute and its setter accepts the value |
| StorageModel.ApplyUpdates | source/energy_storage/energy_storage.py:187-192 | the set of attribute names never changes |
| StorageModel.UpdateFailsIffSomeEntryRefused | source/energy_storage/energy_storage.py:187-192 | the update raises exactly when some entry is refused |
| StorageModel.UpdateStopsAtFirstRefused | source/energy_storage/energy_storage.py:187-192 | at the first refused entry the update stops with that entry's error, the entries before it all written |
| StorageModel.UpdateLeavesOthers | source/energy_storage/energy_storage.py:187-192 | an attribute no entry names keeps its value |
| StorageModel.UpdateWritesLast | source/energy_storage/energy_storage.py:187-192 | after a successful update each named attribute holds its last written value |
| StorageModel.SocRoundTrip | source/energy_storage/energy_storage.py:195-202 | with equal C-rates a charge and a discharge cancel; other actions leave soc alone |
| StorageModel.OutsideCount | source/energy_storage/energy_storage.py:204-211 | the number of out-of-window readings is at most the number of readings |
| StorageModel.HealthLoss | source/energy_storage/energy_storage.py:204-211 | health falls by exactly one point per out-of-window reading, so never by more than the number of calls |
| StorageModel.EnergyStorageModel.constructor | source/energy_storage/energy_storage.py:7-51 | the attributes hold the values the constructor assigns |
| StorageModel.EnergyStorageModel.SetAttribute | source/energy_storage/energy_storage.py:58-124 | the setter's check runs first and nothing is written when it refuses |
| StorageModel.EnergyStorageModel.UpdateConstants | source/energy_storage/energy_storage.py:187-192 | the attributes and the outcome are those of `ApplyUpdates`, entries before a refused one staying written |
| StorageModel.EnergyStorageModel.UpdateSoc | source/energy_storage/energy_storage.py:195-202 | soc moves by one C-rate up (action 1) or down (action 2), unclamped, and is returned |
| StorageModel.EnergyStorageModel.UpdateSoh | source/energy_storage/energy_storage.py:204-211 | soh falls by one exactly for a soc outside [soc_min, soc_max], and is returned |

## Left out

- `.lower()` on technology, phase, type, mode and flexibility strings. Inputs are taken as already in lower case.
- The `status` / `active` mismatch. Subclasses pass `status=` to a base constructor that only accepts `active=`, so as written most subclass constructors raise `TypeError`. The model keeps one boolean `on` flag. The grid keeps its free status string, because it compares it with "off" in some places and "on" in others.
- Device subclasses override `_validate_inputs`, so the base checks are shadowed. Each class is modelled with its own checks only.
- Devices other than the grid and line hold their bus by id. That id is all the network and bus code reads.
- `isinstance` checks become the cases of the `Device` and `Entity` datatypes. The check that a line's ends are `Bus` objects is a matter of types here.
- Grids.Supply: the square root `(P**2 + Q**2)**0.5` (and `abs` on DC) is taken as a `magnitude` argument. The lemmas require it to be the true magnitude.
- Grids.Grid.SupplyPower: takes `magnitude` as its caller-supplied square root. It requires a float request on a DC grid, so complex requests to a DC grid are not modelled. In the source such a request within capacity is returned and stored unchanged (grid.py:59-63), and one above capacity raises `TypeError` at the comparison `required_power > 0` (grid.py:58).
- Grids.Supply: the `max_power is None` branch (grid.py:52-55) is unreachable, because the constructor always stores `0.0`.
- Grids.Grid.SupplyPower: a zero or negative capacity combined with a `0` request leads to Python's ZeroDivisionError only when the capacity is negative. Validation never allows that for a constructed grid.
- StorageControl.Step and StorageControl.StorageController.ControlStep: require `max_e_mwh > 0`. The numpy table values would give infinities or NaN on zero; floating point is not modelled.
- The pandapower tables read and written by `control_step` are parameters and results.
- Floating-point rounding, including the float32 observation of `EnergyEnv`, is not modelled. Reals are exact.
- Printing and visualisation are not modelled: `print`, `print_message_network`, `Network.visualize`, `EnergyEnv.render`, `__repr__`.
- The `get_status` methods of the grid and the inverter are not modelled, apart from what their fields already show. The grid's calls `super().get_status()` on a class with no base.
- EnergyEnvironment.EnergyEnv: the gym spaces, `seed`, and the agent and dataset code are not modelled.
- StorageModel.EnergyStorageModel.constructor: assigns the defaults without running the setters. As written the constructor raises at `eol = 70`. Its getters return the property itself and recurse without end.
- StorageModel.EnergyStorageModel.SetAttribute: the setters write private `_name` fields that the recursive getters never read. The model stores the value under the public name.
- StorageModel.EnergyStorageModel.UpdateConstants: treats every attribute the constructor assigns as present. In Python `hasattr` on a property whose getter recurses raises `RecursionError` instead.
- StorageModel.CheckUpdate: only the attributes the constructor assigns count as known keys. In Python `hasattr` also holds for the class's methods and dunder names (such as `_update_soc` or `__init__`), and `setattr` then overwrites them (energy_storage.py:189-190). The model raises `AttributeError` for those names instead, because it has no methods as values.
- The base `ElectricalComponent.get_power` of the custom engine (which raises `NotImplementedError`) is not modelled. Every part there is a load, PV or grid.
- Three-phase tuple powers, which the bus comments mention as future work, are not modelled.
