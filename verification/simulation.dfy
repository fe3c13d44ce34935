/**
 * The driver loop of `main`: one iteration per epoch (one simulated
 * second), a new outdoor sample at the top of every hour, the thermostat,
 * the heat balance and the running cost.
 *
 * `StateAfter(data, t, n)` is the state of the loop's variables after `n`
 * iterations, built one `Epoch` at a time. `Simulate` runs the loop as
 * the source writes it, on a `World` object, and is proved to end in
 * `StateAfter` of the exact number of iterations it makes;
 * `SimulateFullHours` is the loop with the bound the program evidently
 * means (every hour simulated for all of its 3600 epochs).
 */
module Simulation {
  import opened HouseDefines
  import opened Heater

  /** Number of entries of the outdoor-temperature buffer. */
  const DataLength: nat := 131391
  /** The loop runs while fewer hours than this have been started. */
  const RunningHours: nat := 100
  const EpochsPerHour: nat := 3600
  /** Epochs in `RunningHours` whole hours. */
  const FullEpochs: nat := RunningHours * EpochsPerHour
  /**
   * Iterations the source's loop makes: the hour counter is bumped at the
   * start of an hour, so the last hour is entered at epoch 99 * 3600 and
   * the loop stops after that single epoch, at 356401.
   */
  const LoopEpochs: nat := (RunningHours - 1) * EpochsPerHour + 1

  /** The loop's variables: the world, epochs run `s`, hours started `h`, cost. */
  datatype Run = Run(world: WorldState, s: nat, h: nat, cost: real)

  /**
   * The loop's variables before the first epoch: room at 20 C, heater off,
   * the outdoor temperature zero because the initializer leaves it out,
   * both counters and the cost at zero.
   */
  function Initial(): (r: Run)
    ensures r.world.roomTemp == 20.0 && !r.world.heaterOn && r.world.outTemp == 0.0
    ensures r.s == 0 && r.h == 0 && r.cost == 0.0 && OnSchedule(r)
  {
    Run(WorldState(20.0, false, 0.0), 0, 0, 0.0)
  }

  /** The hour counter is the number of hour boundaries the epoch counter has passed or reached. */
  predicate OnSchedule(r: Run) {
    r.h == (r.s + EpochsPerHour - 1) / EpochsPerHour
  }

  /** At an hour boundary, load the hour's sample and count the hour. */
  function HourTick(data: seq<real>, r: Run): (r': Run)
    requires r.s % EpochsPerHour == 0 ==> r.h < |data|
    ensures r'.s == r.s && r'.cost == r.cost
    ensures r'.world.roomTemp == r.world.roomTemp && r'.world.heaterOn == r.world.heaterOn
    ensures r.s % EpochsPerHour == 0 ==> r'.world.outTemp == data[r.h] && r'.h == r.h + 1
    ensures r.s % EpochsPerHour != 0 ==> r' == r
  {
    if r.s % EpochsPerHour == 0 then r.(world := r.world.(outTemp := data[r.h]), h := r.h + 1)
    else r
  }

  /**
   * One iteration of the loop body: the hour step, the thermostat's
   * decision on the world after it, the cost of the heat the heater then
   * delivers, and the Euler step driven by that heat and the conduction
   * loss. The epoch counter grows by one.
   */
  function Epoch(data: seq<real>, t: Trig, r: Run): (r': Run)
    requires Plausible(t) && (r.s % EpochsPerHour == 0 ==> r.h < |data|)
    ensures r'.s == r.s + 1
    ensures r'.h == HourTick(data, r).h && r'.world.outTemp == HourTick(data, r).world.outTemp
    ensures r'.world.heaterOn == Thermostat(HourTick(data, r).world)
    ensures r'.cost == r.cost + (if r'.world.heaterOn then (HeaterTemp - r.world.roomTemp) * C * CostRate else 0.0)
    ensures var w := HourTick(data, r).world.(heaterOn := r'.world.heaterOn);
      r'.world.roomTemp == NextRoomTemp(w.roomTemp, HeatEmission(w), HeatLoss(w, t), t)
  {
    var ticked := HourTick(data, r);
    var w := ticked.world.(heaterOn := Thermostat(ticked.world));
    var flow := HeatEmission(w);
    var loss := HeatLoss(w, t);
    ticked.(world := w.(roomTemp := NextRoomTemp(w.roomTemp, flow, loss, t)),
            s := r.s + 1,
            cost := r.cost + flow * CostRate)
  }

  /**
   * The loop's variables after `n` iterations. The hour counter keeps its
   * schedule, and iteration `n - 1` used the sample of hour (n - 1) / 3600.
   */
  function StateAfter(data: seq<real>, t: Trig, n: nat): (r: Run)
    requires Plausible(t) && RunningHours <= |data| && n <= FullEpochs
    ensures r.s == n && OnSchedule(r)
    ensures n > 0 ==> r.world.outTemp == data[(n - 1) / EpochsPerHour]
    decreases n
  {
    if n == 0 then Initial()
    else
      var prev := StateAfter(data, t, n - 1);
      ScheduleStep(n - 1, prev.h);
      Epoch(data, t, prev)
  }

  /**
   * Arithmetic of the schedule within the first `FullEpochs` epochs: an
   * hour boundary loads an hour below `RunningHours` and bumps the counter
   * onto the next boundary; inside an hour the counter and the sample index
   * stay put.
   */
  lemma ScheduleStep(s: nat, h: nat)
    requires s < FullEpochs && h == (s + EpochsPerHour - 1) / EpochsPerHour
    ensures h <= RunningHours
    ensures s % EpochsPerHour == 0 ==>
      h == s / EpochsPerHour < RunningHours && h + 1 == (s + EpochsPerHour) / EpochsPerHour
    ensures s % EpochsPerHour != 0 ==>
      h == (s + EpochsPerHour) / EpochsPerHour && (s - 1) / EpochsPerHour == s / EpochsPerHour
  {
  }

  /**
   * The source's guard `h < RunningHours` holds exactly for the first
   * `LoopEpochs` epochs, and the counter has reached `RunningHours` then.
   */
  lemma GuardHoldsUntilEnd(s: nat, h: nat)
    requires s <= LoopEpochs && h == (s + EpochsPerHour - 1) / EpochsPerHour
    ensures h < RunningHours <==> s < LoopEpochs
    ensures s == LoopEpochs ==> h == RunningHours
  {
  }

  /**
   * The source's loop stops one epoch into its last hour: it runs 356401
   * epochs, 3599 short of `RunningHours` whole hours.
   */
  lemma LastHourCutShort()
    ensures LoopEpochs == 356401 && FullEpochs - LoopEpochs == EpochsPerHour - 1
    ensures (LoopEpochs - 1) / EpochsPerHour == RunningHours - 1 && LoopEpochs % EpochsPerHour == 1
  {
  }

  /**
   * One pass of the loop body on the world object: the hour step, the
   * thermostat, the heat rates, the cost and the Euler step. The counters
   * and cost it returns, with the object's new fields, are `Epoch` of the
   * old ones.
   */
  method RunEpoch(w: World, data: array<real>, t: Trig, s: nat, h: nat, cost: real)
      returns (h': nat, cost': real)
    requires Plausible(t) && (s % EpochsPerHour == 0 ==> h < data.Length)
    modifies w
    ensures Run(w.State(), s + 1, h', cost') == Epoch(data[..], t, Run(old(w.State()), s, h, cost))
  {
    h' := h;
    if s % EpochsPerHour == 0 {
      w.outTemp := data[h];
      h' := h + 1;
    }
    w.ToggleHeaterPower(Thermostat(w.State()));
    var flow := HeatEmission(w.State());
    var loss := HeatLoss(w.State(), t);
    cost' := cost + flow * CostRate;
    w.UpdateRoomTemp(flow, loss, t);
  }

  /**
   * The main loop as written, on a `World` object and the
   * outdoor-temperature buffer. Every read of `data[h]` is in bounds, the
   * loop makes exactly `LoopEpochs` iterations and ends with
   * `RunningHours` hours counted, and the final room temperature and cost
   * are those of `StateAfter`.
   */
  method Simulate(data: array<real>, t: Trig) returns (epochs: nat, hours: nat, roomTemp: real, cost: real)
    requires Plausible(t) && data.Length == DataLength
    ensures epochs == LoopEpochs && hours == RunningHours
    ensures var r := StateAfter(data[..], t, LoopEpochs);
      roomTemp == r.world.roomTemp && cost == r.cost
  {
    var w := new World(20.0, false, 0.0);
    var s: nat, h: nat := 0, 0;
    cost := 0.0;
    while h < RunningHours
      invariant s <= LoopEpochs
      invariant Run(w.State(), s, h, cost) == StateAfter(data[..], t, s)
      decreases LoopEpochs - s
    {
      GuardHoldsUntilEnd(s, h);
      ScheduleStep(s, h);
      h, cost := RunEpoch(w, data, t, s, h, cost);
      s := s + 1;
    }
    GuardHoldsUntilEnd(s, h);
    epochs, hours, roomTemp := s, h, w.roomTemp;
  }

  /**
   * The loop bounded by epochs instead of hours, so that every one of the
   * `RunningHours` hours is simulated for all of its 3600 epochs: it makes
   * `FullEpochs` iterations and ends in `StateAfter` of that many.
   */
  method SimulateFullHours(data: array<real>, t: Trig) returns (epochs: nat, hours: nat, roomTemp: real, cost: real)
    requires Plausible(t) && data.Length == DataLength
    ensures epochs == RunningHours * EpochsPerHour && hours == RunningHours
    ensures var r := StateAfter(data[..], t, FullEpochs);
      roomTemp == r.world.roomTemp && cost == r.cost
  {
    var w := new World(20.0, false, 0.0);
    var s: nat, h: nat := 0, 0;
    cost := 0.0;
    while s < FullEpochs
      invariant s <= FullEpochs
      invariant Run(w.State(), s, h, cost) == StateAfter(data[..], t, s)
    {
      ScheduleStep(s, h);
      h, cost := RunEpoch(w, data, t, s, h, cost);
      s := s + 1;
    }
    epochs, hours, roomTemp := s, h, w.roomTemp;
  }

  /**
   * The heater decision of an epoch is the thermostat's answer for the
   * world after the hour step, and the cost grows by the price of the heat
   * delivered at the epoch's starting room temperature: not at all while
   * the heater is off.
   */
  lemma EpochCost(data: seq<real>, t: Trig, r: Run)
    requires Plausible(t) && (r.s % EpochsPerHour == 0 ==> r.h < |data|)
    ensures var r' := Epoch(data, t, r);
      && r'.world.heaterOn == Thermostat(HourTick(data, r).world)
      && r'.cost == r.cost + (if r'.world.heaterOn then (HeaterTemp - r.world.roomTemp) * C * CostRate else 0.0)
      && (!r'.world.heaterOn ==> r'.cost == r.cost)
  {
  }

  /**
   * When no hourly sample is colder than the bottom of the dead-band, the
   * room, starting at 20 C with the heater off, never drops below the band:
   * the heater is never switched on and nothing is spent.
   */
  lemma {:induction false} WarmWeatherKeepsHeaterOff(data: seq<real>, t: Trig, n: nat)
    requires Plausible(t) && RunningHours <= |data| && n <= FullEpochs
    requires forall i :: 0 <= i < RunningHours ==> data[i] >= LowerLimit
    ensures var r := StateAfter(data, t, n);
      !r.world.heaterOn && r.world.roomTemp >= LowerLimit && r.cost == 0.0
  {
    if n > 0 {
      WarmWeatherKeepsHeaterOff(data, t, n - 1);
      var prev := StateAfter(data, t, n - 1);
      ScheduleStep(n - 1, prev.h);
      var ticked := HourTick(data, prev);
      assert ticked.world.outTemp >= LowerLimit;
      var w := ticked.world.(heaterOn := Thermostat(ticked.world));
      assert !w.heaterOn;
      CoolingStepDoesNotOvershoot(w, t);
    }
  }
}
