# heat-homie: a verified model of the heating simulation

heat-homie simulates the air temperature of one house, one simulated second
("epoch") at a time. A bang-bang thermostat with a dead-band of
±2.7778 C around a 22 C set point switches a heater. The heater's output and
the conduction loss through the walls and windows drive a forward-Euler
step of the room temperature. Every simulated hour a new outdoor temperature
is taken from an hourly series, and the price of the delivered heat is
added to a running cost.

The model has three modules:

- `HouseDefines` (`house_defines.dfy`): the building's geometry and the
  constants derived from it. These are the window and wall areas, the
  Fourier-law resistances `L/(k*A)` of the walls and windows, their parallel
  combination `R_EQ`, and the air mass `M`. The two math-library values they
  need, `cos(ROOF_PITCH/2)` and `tan(ROOF_PITCH)`, are inputs (`Trig`). All
  that is assumed of them is the range in `Plausible`: the cosine lies in
  [0.5, 1] and the tangent in [0, 1], which is true of cos 20° ≈ 0.94 and
  tan 40° ≈ 0.84.
- `Heater` (`heater.dfy`): the thermostat, the heat emission, the heat loss
  and the Euler step, all over `real`. Functions that only read the world
  take a `WorldState` value. The two operations that update the source's
  `World` record through a pointer are methods of the class `World`.
- `Simulation` (`simulation.dfy`): the `while` loop of `main`.
  `StateAfter(data, t, n)` gives the loop's variables after `n` epochs,
  built one `Epoch` at a time. `Simulate` runs the loop as written on a
  `World` object and is proved to end in `StateAfter` of exactly the number
  of epochs it makes.

Two points about the code that the model reproduces:

- Both thermostat tests are strict (main.c:39, main.c:46). A room at exactly
  `SET_POINT ± MAX_FLUCTUATION` therefore keeps the heater's current state.
- The loop makes 356401 epochs, not `RUNNING_HOURS * 3600`. See Findings.

## Model

| member | source | states |
|---|---|---|
| `HouseDefines.WindowAreaIsSix` | housedefines.h:12-16 | The window area is 6 m². |
| `HouseDefines.WallArea` | housedefines.h:17-20 | The net wall area, including the roof slopes and the gable term, lies between 634 and 1044 m² for any plausible cos/tan. So it is positive, and the wall resistance is defined. |
| `HouseDefines.Conduction` | housedefines.h:26-33 | The Fourier resistance `L/(k*A)` times `k*A` gives back `L`. It is strictly positive when `L`, `k` and `A` are. |
| `HouseDefines.RWall` | housedefines.h:26-28 | The wall resistance is strictly positive. |
| `HouseDefines.RWindow` | housedefines.h:31-33 | The window resistance is strictly positive. |
| `HouseDefines.Parallel` | housedefines.h:36 | Two positive resistances in parallel give a positive resistance strictly below each of them. |
| `HouseDefines.REq` | housedefines.h:36 | `R_EQ` is positive and below both the wall and the window resistance. |
| `HouseDefines.ParallelSymmetric` | housedefines.h:36 | The parallel combination is symmetric in its two inputs. |
| `HouseDefines.ParallelConductancesAdd` | housedefines.h:36 | Conductances add: `1/R_EQ == 1/R_WALL + 1/R_WINDOW` for positive inputs. |
| `HouseDefines.REqConductance` | housedefines.h:36 | The envelope's conductance is the wall's plus the windows'. |
| `HouseDefines.ParallelAtLeastHalf` | housedefines.h:36 | Two resistances of at least `lo` combine to at least `lo/2`. |
| `HouseDefines.REqLowerBound` | housedefines.h:17-36 | `R_EQ >= 0.001` for any plausible cos/tan, because the walls give at least 0.005 and the windows at least 0.002. |
| `HouseDefines.AirMass` | housedefines.h:41-42 | `M` is at least 980 kg whenever `tan(ROOF_PITCH) >= 0`, so `M*C` is never zero. |
| `Heater.Thermostat` | main.c:32-52 | The result is on below the band and off above it, whatever the prior state. Inside the closed band, endpoints included, it is the prior state. |
| `Heater.ThermostatSettles` | main.c:32-52 | Storing the thermostat's answer and asking again gives the same answer. |
| `Heater.HeatEmission` | main.c:54-59 | Emission is exactly 0 with the heater off. With the heater on it is `(HEATER_TEMP - room)*C`, negative exactly when the room is hotter than the heater (nothing clamps it). |
| `Heater.HeatLoss` | main.c:61-66 | The loss times `R_EQ` is `room - out`. It is positive exactly when the room is warmer than outside and negative exactly when it is colder. |
| `Heater.HeatLossAntisymmetric` | main.c:65 | Swapping room and outdoor temperatures negates the loss. |
| `Heater.HeatLossZero` | main.c:65 | The loss is zero exactly when room and outdoor temperatures are equal. |
| `Heater.HeatCapacity` | main.c:71 | The divisor `M*C` is at least 980·C, so it is positive. |
| `Heater.NextRoomTemp` | main.c:68-72 | The Euler step changes the room by exactly `(gain - loss)/(M*C)`. The room warms exactly when gain exceeds loss and cools exactly when it falls short. |
| `Heater.World.constructor` | main.c:118-122 | A world with the given room temperature, heater state and outdoor temperature. |
| `Heater.World.ToggleHeaterPower` | main.c:74-78 | Only the heater flag changes, to the given status. |
| `Heater.World.UpdateRoomTemp` | main.c:68-72 | Only the room temperature changes, to `NextRoomTemp` of the old one. |
| `Heater.CoolingStepDoesNotOvershoot` | main.c:54-72 | With the heater off, one step moves the room toward the outdoor temperature and never past it. |
| `Simulation.Initial` | main.c:118-126 | Before the first epoch the room is at 20 C and the heater is off. The outdoor temperature is 0 because the initializer leaves it out. Both counters and the cost are 0, and `h` is on schedule. |
| `Simulation.HourTick` | main.c:129-133 | At an hour boundary the outdoor temperature becomes `data[h]` and `h` grows by one. Otherwise nothing changes. Room, heater, epoch count and cost are never touched. |
| `Simulation.Epoch` | main.c:128-147 | One pass of the loop body. `s` grows by one, and `h` and the outdoor temperature change as `HourTick` says. The heater takes the thermostat's answer for the world after the hour step. The cost grows by the price of the heat delivered at the epoch's starting room temperature, nothing while the heater is off. The room takes the Euler step driven by that heat and the conduction loss. |
| `Simulation.StateAfter` | main.c:124-153 | After `n` epochs `s == n` and `h == (s + 3599)/3600`. Epoch `n-1` saw the outdoor temperature `data[(n-1)/3600]`. |
| `Simulation.ScheduleStep` | main.c:127-131 | Before 360000 epochs, every `data[h]` read happens at an hour boundary with `h < RUNNING_HOURS`. It keeps `h` on schedule. |
| `Simulation.GuardHoldsUntilEnd` | main.c:127 | The guard `h < RUNNING_HOURS` (100, defined at main.c:19) holds exactly while `s < 356401`. At `s == 356401` the counter is `RUNNING_HOURS`. |
| `Simulation.LastHourCutShort` | main.c:124-131 | The loop stops one epoch into hour 100, 3599 epochs short of 100 whole hours. |
| `Simulation.RunEpoch` | main.c:128-147 | One pass of the loop body on the world object produces `Epoch` of the old loop state. |
| `Simulation.Simulate` | main.c:118-153 | The loop reads only in-bounds samples and makes exactly 356401 epochs. It ends with `h == RUNNING_HOURS`, and its final room temperature and cost are those of `StateAfter(data, t, 356401)`. |
| `Simulation.SimulateFullHours` | main.c:124-153 | The corrected loop makes 360000 epochs, every hour for all 3600 of its epochs, and ends in `StateAfter(data, t, 360000)`. |
| `Simulation.EpochCost` | main.c:136-141 | An epoch's heater state is the thermostat's answer after the hour step. The cost grows by the price of the heat delivered at the epoch's starting room temperature, and not at all while the heater is off. |
| `Simulation.WarmWeatherKeepsHeaterOff` | main.c:118-153 | If no hourly sample is below `SET_POINT - MAX_FLUCTUATION`, the heater is never switched on. The room never drops below the band, and the cost stays 0. |

## Findings

| source | as written | input that shows it | evidently intended | confidence | as-written member | corrected member |
|---|---|---|---|---|---|---|
| main.c:127-131 | The loop runs while `h < RUNNING_HOURS`, and `h` is bumped at the first epoch of each hour. The last hour is therefore simulated for a single epoch: 356401 epochs in all. | The constants themselves: `RUNNING_HOURS = 100`. Epoch 356400 enters hour 100, and the guard then fails. | 100 whole hours, `RUNNING_HOURS * 3600 = 360000` epochs | medium; not executed | `Simulation.Simulate`, `Simulation.LastHourCutShort` | `Simulation.SimulateFullHours` |

## Left out

- `read_data` (main.c:88-110) is file input and is not modelled. The buffer it returns is the `data` array, of `DATA_LENGTH` entries, with any contents. Its own defects are outside the model:
  - its loop writes `data[i]` with no bound against `DATA_LENGTH`;
  - after a failed `fopen` it still passes the null stream to `getline` and `fclose`.
- Console output (`print_world_status`, main.c:80-86, and the `printf` calls at main.c:147-150 and main.c:155-157) is left out. Only the `++s` inside the first `printf` is kept.
- The commented-out `sleep(1)` calls, the `bool` enum of housedefines.h:44-47 (Dafny's `bool` is used), and the declaration of `run_heater`, which is never defined or called, are left out.
- IEEE-754 doubles are not modelled. Every temperature, heat rate and cost is a Dafny `real`, so rounding, infinities and NaN are absent.
- `cos`, `tan` and the `PI`/`R2D` degree conversion are math-library calls. Their results are the inputs `Trig.cosHalfPitch` and `Trig.tanPitch`, bounded only by `Plausible`.
- Long-run behaviour is not modelled: stabilisation inside the dead-band, heater cycling in cold weather, and the exact final temperature and cost. These are properties of the numbers the 356401 Euler steps produce. The only long-run property proved is `Simulation.WarmWeatherKeepsHeaterOff`.
