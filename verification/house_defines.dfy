/**
 * The building's geometry and the thermal constants derived from it.
 *
 * Every derived quantity is a real-valued formula over the geometry
 * constants. Two of them depend on the C math library: `cos(ROOF_PITCH/2)`
 * in the wall area and `tan(ROOF_PITCH)` in the wall area and the air mass.
 * Those two numbers are not computed here; they are inputs, bundled in
 * `Trig`, and all that is assumed of them is the range `Plausible` states
 * (the pitch is 40 degrees, so cos 20 ~ 0.94 and tan 40 ~ 0.84).
 */
module HouseDefines {

  // House geometry, in metres.
  const HouseLength: real := 20.0
  const HouseWidth: real := 10.0
  const HouseHeight: real := 4.0

  const NumWindows: real := 6.0
  const WindowHeight: real := 1.0
  const WindowWidth: real := 1.0

  // Glass wool walls: conductivity K (J/s/m/C) and thickness L (m).
  const KWall: real := 0.038
  const LWall: real := 0.2

  // Glass windows.
  const KWindow: real := 0.78
  const LWindow: real := 0.01

  /** Specific heat of air, J/kg/C (`C` in the source). */
  const C: real := 1005.4
  /** Nominal mass flow through the heater (`MDOT`). */
  const MDot: real := 1.0
  /** Density of air, kg/m^3. */
  const AirDensity: real := 1.2250

  /** Total window area. */
  const WindowArea: real := NumWindows * WindowHeight * WindowWidth

  /** The two math-library results the constants depend on. */
  datatype Trig = Trig(cosHalfPitch: real, tanPitch: real)

  /** What is known of cos(20 degrees) and tan(40 degrees). */
  predicate Plausible(t: Trig) {
    0.5 <= t.cosHalfPitch <= 1.0 && 0.0 <= t.tanPitch <= 1.0
  }

  /**
   * Exterior wall area net of the windows: four walls, the two roof
   * slopes (each the floor's area over cos of half the pitch) and the
   * gable term, minus the windows.
   */
  function WallArea(t: Trig): (a: real)
    requires Plausible(t)
    ensures 634.0 <= a <= 1044.0
  {
    var sec := 1.0 / t.cosHalfPitch;
    assert 1.0 <= sec <= 2.0 by { SecantBounds(t.cosHalfPitch); }
    2.0 * HouseLength * HouseHeight
    + 2.0 * HouseWidth * HouseHeight
    + 2.0 * sec * HouseWidth * HouseLength
    + (t.tanPitch * HouseWidth) - WindowArea
  }

  lemma SecantBounds(c: real)
    requires 0.5 <= c <= 1.0
    ensures 1.0 <= 1.0 / c <= 2.0
  {
  }

  /**
   * Fourier conduction: the thermal resistance of a slab of thickness
   * `l`, conductivity `k` and area `a` is l / (k * a).
   */
  function Conduction(l: real, k: real, a: real): (r: real)
    requires k > 0.0 && a > 0.0
    ensures r * (k * a) == l
    ensures l > 0.0 ==> r > 0.0
  {
    l / (k * a)
  }

  /** Thermal resistance of the walls. */
  function RWall(t: Trig): (r: real)
    requires Plausible(t)
    ensures r > 0.0
  {
    Conduction(LWall, KWall, WallArea(t))
  }

  /** Thermal resistance of the windows. */
  function RWindow(): (r: real)
    ensures r > 0.0
  {
    Conduction(LWindow, KWindow, WindowArea)
  }

  /**
   * Two resistances in parallel. The result is positive, below each of
   * its inputs, and its conductance is the sum of theirs.
   */
  function Parallel(r1: real, r2: real): (r: real)
    requires r1 > 0.0 && r2 > 0.0
    ensures 0.0 < r < r1 && r < r2
  {
    ParallelBelow(r1, r2);
    ParallelBelow(r2, r1);
    (r1 * r2) / (r1 + r2)
  }

  lemma ParallelBelow(r1: real, r2: real)
    requires r1 > 0.0 && r2 > 0.0
    ensures 0.0 < (r1 * r2) / (r1 + r2) < r1
  {
  }

  /** The equivalent resistance of the whole envelope: walls and windows in parallel. */
  function REq(t: Trig): (r: real)
    requires Plausible(t)
    ensures 0.0 < r < RWall(t) && r < RWindow()
  {
    Parallel(RWall(t), RWindow())
  }

  /**
   * Mass of the enclosed air: the box plus the roof volume term, times the
   * density of air. Any non-negative tan(ROOF_PITCH) keeps it at least the
   * box's 980 kg, so the heat capacity M * C is never zero.
   */
  function AirMass(t: Trig): (m: real)
    requires 0.0 <= t.tanPitch
    ensures m >= 980.0
  {
    (HouseLength * HouseWidth * HouseHeight + t.tanPitch * HouseWidth * HouseLength) * AirDensity
  }

  lemma WindowAreaIsSix()
    ensures WindowArea == 6.0
  {
  }

  /** Parallel combination does not depend on the order of its inputs. */
  lemma ParallelSymmetric(r1: real, r2: real)
    requires r1 > 0.0 && r2 > 0.0
    ensures Parallel(r1, r2) == Parallel(r2, r1)
  {
  }

  /** Conductances add: 1/R_EQ is the sum of the inverse resistances. */
  lemma ParallelConductancesAdd(r1: real, r2: real)
    requires r1 > 0.0 && r2 > 0.0
    ensures 1.0 / Parallel(r1, r2) == 1.0 / r1 + 1.0 / r2
  {
  }

  /** The envelope's conductance is the sum of the wall's and the windows'. */
  lemma REqConductance(t: Trig)
    requires Plausible(t)
    ensures 1.0 / REq(t) == 1.0 / RWall(t) + 1.0 / RWindow()
  {
    ParallelConductancesAdd(RWall(t), RWindow());
  }

  /** Two resistances of at least `lo` each combine to at least `lo / 2`. */
  lemma ParallelAtLeastHalf(r1: real, r2: real, lo: real)
    requires lo > 0.0 && r1 >= lo && r2 >= lo
    ensures Parallel(r1, r2) >= lo / 2.0
  {
    var r := Parallel(r1, r2);
    assert r * (r1 + r2) == r1 * r2;
    assert (r1 - lo / 2.0) * (r2 - lo / 2.0) >= (lo / 2.0) * (lo / 2.0);
    assert r1 * r2 >= (lo / 2.0) * (r1 + r2);
  }

  /**
   * However the roof angle's trigonometry comes out within `Plausible`, the
   * envelope's resistance is at least 1/1000 C s/J: the wall resistance is
   * at least 0.005 and the window resistance at least 0.002.
   */
  lemma REqLowerBound(t: Trig)
    requires Plausible(t)
    ensures REq(t) >= 0.001
  {
    var a := WallArea(t);
    var rWall := RWall(t);
    assert rWall * (KWall * a) == LWall;
    assert rWall >= 0.005 by {
      QuotientAntitone(LWall, KWall * a, 39.672);
    }
    var rWindow := RWindow();
    assert rWindow * (KWindow * WindowArea) == LWindow;
    assert rWindow >= 0.002;
    ParallelAtLeastHalf(rWall, rWindow, 0.002);
  }

  /** Dividing by a larger positive number gives a smaller quotient. */
  lemma QuotientAntitone(l: real, d: real, bound: real)
    requires l >= 0.0 && 0.0 < d <= bound
    ensures l / d >= l / bound
  {
  }
}
