/**
 * The controller and the heat balance of the simulated room.
 *
 * The thermostat and the two heat-rate formulas only read the world, so
 * they are functions of a `WorldState` value. The two operations that
 * change the world in place (switching the heater, integrating the room
 * temperature) are methods of the `World` class, each specified by a
 * function on values.
 */
module Heater {
  import opened HouseDefines

  /** Target room temperature, degrees Celsius. */
  const SetPoint: real := 22.0
  /** Half-width of the dead-band around the set point. */
  const MaxFluctuation: real := 2.7778
  /** Supply temperature of the heater. */
  const HeaterTemp: real := 50.0
  /** Price of one unit of heat: 0.09 per kWh, a kWh being 3.6e6 J. */
  const CostRate: real := 0.09 / 3600000.0

  /** Lowest and highest room temperature the thermostat tolerates. */
  const LowerLimit: real := SetPoint - MaxFluctuation
  const UpperLimit: real := SetPoint + MaxFluctuation

  /** The fields of the source's `World` record, as a value. */
  datatype WorldState = WorldState(roomTemp: real, heaterOn: bool, outTemp: real)

  /** The closed dead-band, in which the thermostat leaves the heater alone. */
  predicate InDeadBand(roomTemp: real) {
    LowerLimit <= roomTemp <= UpperLimit
  }

  /**
   * The bang-bang controller: switch on below the band, off above it, and
   * keep the current state inside it. Both tests are strict, so both ends
   * of the band belong to the dead-band.
   */
  function Thermostat(w: WorldState): (on: bool)
    ensures w.roomTemp < LowerLimit ==> on
    ensures w.roomTemp > UpperLimit ==> !on
    ensures InDeadBand(w.roomTemp) ==> on == w.heaterOn
  {
    if SetPoint - w.roomTemp > MaxFluctuation then true
    else if SetPoint - w.roomTemp < -1.0 * MaxFluctuation then false
    else w.heaterOn
  }

  /**
   * Heat delivered by the heater: the heater flag (0 or 1) times the
   * supply-to-room temperature difference times C and MDOT. Nothing clamps
   * it, so it is negative when the room is hotter than the heater.
   */
  function HeatEmission(w: WorldState): (q: real)
    ensures !w.heaterOn ==> q == 0.0
    ensures w.heaterOn ==> q == (HeaterTemp - w.roomTemp) * C
    ensures w.heaterOn ==> (q > 0.0 <==> w.roomTemp < HeaterTemp)
    ensures w.heaterOn ==> (q < 0.0 <==> w.roomTemp > HeaterTemp)
  {
    (if w.heaterOn then 1.0 else 0.0) * ((HeaterTemp - w.roomTemp) * C * MDot)
  }

  /**
   * Heat conducted out through the envelope. It is signed: a warmer
   * outside makes it negative.
   */
  function HeatLoss(w: WorldState, t: Trig): (q: real)
    requires Plausible(t)
    ensures q * REq(t) == w.roomTemp - w.outTemp
    ensures q > 0.0 <==> w.roomTemp > w.outTemp
    ensures q < 0.0 <==> w.roomTemp < w.outTemp
  {
    (w.roomTemp - w.outTemp) / REq(t)
  }

  /** The room's heat capacity M * C. */
  function HeatCapacity(t: Trig): (cap: real)
    requires 0.0 <= t.tanPitch
    ensures cap >= 980.0 * C
  {
    AirMass(t) * C
  }

  /**
   * One forward-Euler step of one second: the room temperature moves by
   * the net heat over the heat capacity, so it rises exactly when the gain
   * exceeds the loss.
   */
  function NextRoomTemp(roomTemp: real, gain: real, loss: real, t: Trig): (r: real)
    requires 0.0 <= t.tanPitch
    ensures (r - roomTemp) * HeatCapacity(t) == gain - loss
    ensures r > roomTemp <==> gain > loss
    ensures r < roomTemp <==> gain < loss
  {
    roomTemp + (gain - loss) / HeatCapacity(t)
  }

  /** The simulated room, updated in place. */
  class World {
    var roomTemp: real
    var heaterOn: bool
    var outTemp: real

    constructor (roomTemp: real, heaterOn: bool, outTemp: real)
      ensures this.roomTemp == roomTemp && this.heaterOn == heaterOn && this.outTemp == outTemp
    {
      this.roomTemp := roomTemp;
      this.heaterOn := heaterOn;
      this.outTemp := outTemp;
    }

    /** The current field values. */
    function State(): (s: WorldState)
      reads this
    {
      WorldState(roomTemp, heaterOn, outTemp)
    }

    /** Sets the heater flag and nothing else. */
    method ToggleHeaterPower(newStatus: bool)
      modifies this
      ensures State() == old(State()).(heaterOn := newStatus)
    {
      heaterOn := newStatus;
    }

    /** Integrates the room temperature over one epoch; nothing else changes. */
    method UpdateRoomTemp(generatedHeat: real, heatLoss: real, t: Trig)
      requires 0.0 <= t.tanPitch
      modifies this
      ensures State() == old(State()).(roomTemp := NextRoomTemp(old(roomTemp), generatedHeat, heatLoss, t))
    {
      roomTemp := roomTemp + (generatedHeat - heatLoss) / HeatCapacity(t);
    }
  }

  /**
   * Applying the controller twice in a row changes nothing the second time:
   * the state it stores is the state it would choose again.
   */
  lemma ThermostatSettles(w: WorldState)
    ensures Thermostat(w.(heaterOn := Thermostat(w))) == Thermostat(w)
  {
  }

  /** Swapping indoor and outdoor temperatures negates the heat loss. */
  lemma HeatLossAntisymmetric(w: WorldState, t: Trig)
    requires Plausible(t)
    ensures HeatLoss(w.(roomTemp := w.outTemp, outTemp := w.roomTemp), t) == -HeatLoss(w, t)
  {
  }

  /** Equal temperatures inside and out mean no heat flows either way. */
  lemma HeatLossZero(w: WorldState, t: Trig)
    requires Plausible(t)
    ensures HeatLoss(w, t) == 0.0 <==> w.roomTemp == w.outTemp
  {
  }

  /**
   * With the heater off, one step moves the room toward the outdoor
   * temperature and never past it: the envelope's time constant R_EQ * M * C
   * is far above the one-second step.
   */
  lemma CoolingStepDoesNotOvershoot(w: WorldState, t: Trig)
    requires Plausible(t) && !w.heaterOn
    ensures var next := NextRoomTemp(w.roomTemp, HeatEmission(w), HeatLoss(w, t), t);
      (w.outTemp <= w.roomTemp ==> w.outTemp <= next <= w.roomTemp) &&
      (w.roomTemp <= w.outTemp ==> w.roomTemp <= next <= w.outTemp)
  {
    var r, cap := REq(t), HeatCapacity(t);
    REqLowerBound(t);
    assert r * cap >= 1.0;
    var loss := HeatLoss(w, t);
    var next := NextRoomTemp(w.roomTemp, HeatEmission(w), loss, t);
    var d := w.roomTemp - w.outTemp;
    assert (next - w.roomTemp) * cap == -loss;
    assert (next - w.roomTemp) * (r * cap) == -d;
    if d >= 0.0 {
      assert (w.roomTemp - next) * (r * cap) == d;
      assert (w.roomTemp - next) * (r * cap) >= (w.roomTemp - next) * 1.0;
    } else {
      assert (next - w.roomTemp) * (r * cap) >= (next - w.roomTemp) * 1.0;
    }
  }
}
