/** The configuration state of `Rocket` (rocketpy/Rocket.py): the coordinate-system
    orientation, the eccentricity setters, the parachute and rail-button lists, the
    aerodynamic surfaces and the center-of-pressure sum of `evaluate_static_margin`. */
module RocketConfig {

  import opened Wrappers
  import opened PyObjects

  datatype RocketError =
    | InvalidOrientation(name: string)  // the `ValueError` of `__init__`
    | ZeroTotalLift                     // the division by a zero lift-slope sum

  /** `_csys` for a coordinate-system orientation name. */
  function Orientation(name: string): (r: Result<int, RocketError>)
    ensures r == Success(1) <==> name == "tail_to_nose"
    ensures r == Success(-1) <==> name == "nose_to_tail"
    ensures r.Failure? <==> name != "tail_to_nose" && name != "nose_to_tail"
    ensures r.Failure? ==> r.error == InvalidOrientation(name)
  {
    if name == "tail_to_nose" then Success(1)
    else if name == "nose_to_tail" then Success(-1)
    else Failure(InvalidOrientation(name))
  }

  /** A `Parachute` as constructed from the arguments of `add_parachute`; the trigger is
      a function, a height or the string "apogee". */
  datatype Parachute = Parachute(name: string, cdS: real, trigger: PyValue,
                                 samplingRate: real, lag: real, noise: (real, real, real))

  datatype RailButtons = RailButtons(buttonsDistance: real, angularPosition: real)

  /** What `evaluate_static_margin` reads from an aerodynamic surface: its lift-coefficient
      slope `clalpha(0)` and its center of pressure `cpz` in its own frame. */
  datatype AeroSurface = AeroSurface(name: string, clalpha0: real, cpz: real)

  /** An entry of `Components`: a component and its position in the rocket's frame. */
  datatype Placed<T> = Placed(component: T, position: real)

  /** The four eccentricity fields, read together. */
  datatype Eccentricity = Eccentricity(cpX: real, cpY: real, thrustX: real, thrustY: real)

  /** `add_cm_eccentricity(x, y)`: both lines of action move by `(-x, -y)`; the
      thrust fields are filled in swapped order, `thrust_eccentricity_y = -x`. */
  function CmShift(e: Eccentricity, x: real, y: real): Eccentricity {
    Eccentricity(-x, -y, -y, -x)
  }

  /** `add_cp_eccentricity(x, y)`. */
  function CpShift(e: Eccentricity, x: real, y: real): Eccentricity {
    e.(cpX := x, cpY := y)
  }

  /** `add_thrust_eccentricity(x, y)`: `thrust_eccentricity_y = x` and
      `thrust_eccentricity_x = y`. */
  function ThrustShift(e: Eccentricity, x: real, y: real): Eccentricity {
    e.(thrustY := x, thrustX := y)
  }

  /** Moving the center of mass is moving the center of pressure and the thrust line
      the opposite way, whatever was set before. */
  lemma CmShiftIsCpThenThrust(e: Eccentricity, x: real, y: real)
    ensures CmShift(e, x, y) == ThrustShift(CpShift(e, -x, -y), -x, -y)
  {
  }

  /** The thrust setter leaves the center of pressure alone and the center-of-pressure
      setter leaves the thrust alone, so they commute. */
  lemma CpAndThrustShiftsCommute(e: Eccentricity, a: real, b: real, x: real, y: real)
    ensures CpShift(ThrustShift(e, x, y), a, b) == ThrustShift(CpShift(e, a, b), x, y)
  {
  }

  // ---------------------------------------------------------------------------
  // The center-of-pressure sum of evaluate_static_margin (Rocket.py:420-431)

  /** The position of a surface's center of pressure in the rocket's frame. */
  function EffectivePosition(s: Placed<AeroSurface>, csys: int): real {
    s.position - csys as real * s.component.cpz
  }

  /** The sum of the surfaces' lift slopes. */
  function LiftSum(surfaces: seq<Placed<AeroSurface>>): real {
    if |surfaces| == 0 then 0.0
    else LiftSum(surfaces[..|surfaces| - 1]) + surfaces[|surfaces| - 1].component.clalpha0
  }

  /** The lift-weighted sum of the surfaces' centers of pressure. */
  function MomentSum(surfaces: seq<Placed<AeroSurface>>, csys: int): real {
    if |surfaces| == 0 then 0.0
    else
      var last := surfaces[|surfaces| - 1];
      MomentSum(surfaces[..|surfaces| - 1], csys) + last.component.clalpha0 * EffectivePosition(last, csys)
  }

  /** `cp_position` after `evaluate_static_margin`: 0 without surfaces, otherwise the
      lift-weighted mean of the surfaces' centers of pressure. */
  function CpPosition(surfaces: seq<Placed<AeroSurface>>, csys: int): Result<real, RocketError> {
    if |surfaces| == 0 then Success(0.0)
    else if LiftSum(surfaces) == 0.0 then Failure(ZeroTotalLift)
    else Success(MomentSum(surfaces, csys) / LiftSum(surfaces))
  }

  ghost predicate PositiveLift(surfaces: seq<Placed<AeroSurface>>) {
    forall i :: 0 <= i < |surfaces| ==> surfaces[i].component.clalpha0 > 0.0
  }

  ghost predicate EffectiveWithin(surfaces: seq<Placed<AeroSurface>>, csys: int, low: real, high: real) {
    forall i :: 0 <= i < |surfaces| ==> low <= EffectivePosition(surfaces[i], csys) <= high
  }

  lemma MulMonotone(c: real, a: real, b: real)
    requires c > 0.0 && a <= b
    ensures c * a <= c * b
  {
  }

  lemma {:induction false} MomentSumBounds(surfaces: seq<Placed<AeroSurface>>, csys: int, low: real, high: real)
    requires PositiveLift(surfaces) && EffectiveWithin(surfaces, csys, low, high)
    ensures low * LiftSum(surfaces) <= MomentSum(surfaces, csys) <= high * LiftSum(surfaces)
    ensures |surfaces| > 0 ==> LiftSum(surfaces) > 0.0
  {
    if |surfaces| > 0 {
      var prefix, last := surfaces[..|surfaces| - 1], surfaces[|surfaces| - 1];
      assert forall i :: 0 <= i < |prefix| ==> prefix[i] == surfaces[i];
      MomentSumBounds(prefix, csys, low, high);
      MulMonotone(last.component.clalpha0, low, EffectivePosition(last, csys));
      MulMonotone(last.component.clalpha0, EffectivePosition(last, csys), high);
    }
  }

  lemma DivBounds(m: real, l: real, low: real, high: real)
    requires l > 0.0 && low * l <= m <= high * l
    ensures low <= m / l <= high
  {
  }

  /** With every lift slope positive, the computation succeeds and the center of
      pressure lies within the span of the surfaces' own centers of pressure. */
  lemma CpPositionWithinSurfaces(surfaces: seq<Placed<AeroSurface>>, csys: int, low: real, high: real)
    requires |surfaces| > 0 && PositiveLift(surfaces) && EffectiveWithin(surfaces, csys, low, high)
    ensures CpPosition(surfaces, csys).Success?
    ensures low <= CpPosition(surfaces, csys).value <= high
  {
    MomentSumBounds(surfaces, csys, low, high);
    DivBounds(MomentSum(surfaces, csys), LiftSum(surfaces), low, high);
  }

  /** The same surfaces described in the opposite coordinate system: positions negated
      and the orientation flipped. */
  function Mirrored(surfaces: seq<Placed<AeroSurface>>): (m: seq<Placed<AeroSurface>>)
    ensures |m| == |surfaces|
    ensures forall i :: 0 <= i < |m| ==> m[i] == surfaces[i].(position := -surfaces[i].position)
  {
    seq(|surfaces|, i requires 0 <= i < |surfaces| => surfaces[i].(position := -surfaces[i].position))
  }

  lemma {:induction false} MirroredSums(surfaces: seq<Placed<AeroSurface>>, csys: int)
    ensures LiftSum(Mirrored(surfaces)) == LiftSum(surfaces)
    ensures MomentSum(Mirrored(surfaces), -csys) == -MomentSum(surfaces, csys)
  {
    if |surfaces| > 0 {
      var prefix := surfaces[..|surfaces| - 1];
      assert Mirrored(surfaces)[..|surfaces| - 1] == Mirrored(prefix);
      MirroredSums(prefix, csys);
    }
  }

  /** Describing the rocket in the opposite orientation negates its center of pressure. */
  lemma CpPositionMirrored(surfaces: seq<Placed<AeroSurface>>, csys: int)
    ensures CpPosition(Mirrored(surfaces), -csys).Success? == CpPosition(surfaces, csys).Success?
    ensures CpPosition(surfaces, csys).Success? ==>
      CpPosition(Mirrored(surfaces), -csys).value == -CpPosition(surfaces, csys).value
  {
    MirroredSums(surfaces, csys);
  }

  /** `zip(surfaces, positions)`: pairs up to the shorter of the two lists. */
  function Zip(surfaces: seq<AeroSurface>, positions: seq<real>): (z: seq<Placed<AeroSurface>>)
    ensures |z| == if |surfaces| < |positions| then |surfaces| else |positions|
    ensures forall i :: 0 <= i < |z| ==> z[i] == Placed(surfaces[i], positions[i])
  {
    var n := if |surfaces| < |positions| then |surfaces| else |positions|;
    seq(n, i requires 0 <= i < n => Placed(surfaces[i], positions[i]))
  }

  // ---------------------------------------------------------------------------
  // The Rocket object

  class Rocket {
    var coordinateSystemOrientation: string
    var csys: int
    var radius: real
    var mass: real
    var cpEccentricityX: real
    var cpEccentricityY: real
    var thrustEccentricityX: real
    var thrustEccentricityY: real
    var parachutes: seq<Parachute>
    var aerodynamicSurfaces: seq<Placed<AeroSurface>>
    var railButtons: seq<Placed<RailButtons>>
    var totalLiftCoeffDer: real
    var cpPosition: real

    ghost function Eccentricities(): Eccentricity
      reads this
    {
      Eccentricity(cpEccentricityX, cpEccentricityY, thrustEccentricityX, thrustEccentricityY)
    }

    /** `_csys` is the sign the orientation name stands for. */
    predicate Valid()
      reads this
    {
      Orientation(coordinateSystemOrientation) == Success(csys)
    }

    /** The state `__init__` leaves behind for a known orientation name. */
    constructor Init(radius: real, mass: real, orientation: string)
      requires Orientation(orientation).Success?
      ensures Valid()
      ensures this.radius == radius && this.mass == mass
      ensures coordinateSystemOrientation == orientation && csys == Orientation(orientation).value
      ensures Eccentricities() == Eccentricity(0.0, 0.0, 0.0, 0.0)
      ensures parachutes == [] && aerodynamicSurfaces == [] && railButtons == []
      ensures cpPosition == 0.0 && totalLiftCoeffDer == 0.0
    {
      this.radius := radius;
      this.mass := mass;
      coordinateSystemOrientation := orientation;
      csys := Orientation(orientation).value;
      cpEccentricityX := 0.0;
      cpEccentricityY := 0.0;
      thrustEccentricityY := 0.0;
      thrustEccentricityX := 0.0;
      parachutes := [];
      aerodynamicSurfaces := [];
      railButtons := [];
      totalLiftCoeffDer := 0.0;
      cpPosition := 0.0;
    }

    /** `add_cm_eccentricity(x, y)`; returns the rocket itself. */
    method AddCmEccentricity(x: real, y: real) returns (self: Rocket)
      requires Valid()
      modifies this
      ensures Valid()
      ensures self == this
      ensures cpEccentricityX == -x && cpEccentricityY == -y
      ensures thrustEccentricityY == -x && thrustEccentricityX == -y
      ensures Eccentricities() == CmShift(old(Eccentricities()), x, y)
      ensures unchanged(this`coordinateSystemOrientation, this`csys, this`radius, this`mass)
      ensures unchanged(this`parachutes, this`aerodynamicSurfaces, this`railButtons)
      ensures unchanged(this`totalLiftCoeffDer, this`cpPosition)
    {
      cpEccentricityX := -x;
      cpEccentricityY := -y;
      thrustEccentricityY := -x;
      thrustEccentricityX := -y;
      self := this;
    }

    /** `add_cp_eccentricity(x, y)`; the thrust fields are untouched. */
    method AddCpEccentricity(x: real, y: real) returns (self: Rocket)
      requires Valid()
      modifies this
      ensures Valid()
      ensures self == this
      ensures cpEccentricityX == x && cpEccentricityY == y
      ensures thrustEccentricityX == old(thrustEccentricityX) && thrustEccentricityY == old(thrustEccentricityY)
      ensures Eccentricities() == CpShift(old(Eccentricities()), x, y)
      ensures unchanged(this`coordinateSystemOrientation, this`csys, this`radius, this`mass)
      ensures unchanged(this`parachutes, this`aerodynamicSurfaces, this`railButtons)
      ensures unchanged(this`totalLiftCoeffDer, this`cpPosition)
    {
      cpEccentricityX := x;
      cpEccentricityY := y;
      self := this;
    }

    /** `add_thrust_eccentricity(x, y)`; the center-of-pressure fields are untouched. */
    method AddThrustEccentricity(x: real, y: real) returns (self: Rocket)
      requires Valid()
      modifies this
      ensures Valid()
      ensures self == this
      ensures thrustEccentricityY == x && thrustEccentricityX == y
      ensures cpEccentricityX == old(cpEccentricityX) && cpEccentricityY == old(cpEccentricityY)
      ensures Eccentricities() == ThrustShift(old(Eccentricities()), x, y)
      ensures unchanged(this`coordinateSystemOrientation, this`csys, this`radius, this`mass)
      ensures unchanged(this`parachutes, this`aerodynamicSurfaces, this`railButtons)
      ensures unchanged(this`totalLiftCoeffDer, this`cpPosition)
    {
      thrustEccentricityY := x;
      thrustEccentricityX := y;
      self := this;
    }

    /** `add_parachute(...)`: appends the new parachute and returns the last element. */
    method AddParachute(name: string, cdS: real, trigger: PyValue,
                        samplingRate: real, lag: real, noise: (real, real, real))
      returns (parachute: Parachute)
      requires Valid()
      modifies this
      ensures Valid()
      ensures parachutes == old(parachutes) + [Parachute(name, cdS, trigger, samplingRate, lag, noise)]
      ensures parachute == parachutes[|parachutes| - 1]
      ensures unchanged(this`coordinateSystemOrientation, this`csys, this`radius, this`mass)
      ensures unchanged(this`cpEccentricityX, this`cpEccentricityY, this`thrustEccentricityX, this`thrustEccentricityY)
      ensures unchanged(this`aerodynamicSurfaces, this`railButtons, this`totalLiftCoeffDer, this`cpPosition)
    {
      var p := Parachute(name, cdS, trigger, samplingRate, lag, noise);
      parachutes := parachutes + [p];
      parachute := parachutes[|parachutes| - 1];
    }

    /** `set_rail_buttons(upper, lower, angular_position)`: the buttons, `|upper - lower|`
        apart, are placed at the lower button's position. */
    method SetRailButtons(upperButtonPosition: real, lowerButtonPosition: real, angularPosition: real)
      returns (buttons: RailButtons)
      requires Valid()
      modifies this
      ensures Valid()
      ensures buttons == RailButtons(Abs(upperButtonPosition - lowerButtonPosition), angularPosition)
      ensures buttons.buttonsDistance >= 0.0
      ensures railButtons == old(railButtons) + [Placed(buttons, lowerButtonPosition)]
      ensures unchanged(this`coordinateSystemOrientation, this`csys, this`radius, this`mass)
      ensures unchanged(this`cpEccentricityX, this`cpEccentricityY, this`thrustEccentricityX, this`thrustEccentricityY)
      ensures unchanged(this`parachutes, this`aerodynamicSurfaces, this`totalLiftCoeffDer, this`cpPosition)
    {
      var buttonsDistance := Abs(upperButtonPosition - lowerButtonPosition);
      buttons := RailButtons(buttonsDistance, angularPosition);
      railButtons := railButtons + [Placed(buttons, lowerButtonPosition)];
    }

    /** The center-of-pressure part of `evaluate_static_margin()`. On a zero lift sum the
        division fails and the fields keep the sums reached before it. */
    method EvaluateStaticMargin() returns (r: Result<real, RocketError>)
      requires Valid()
      modifies this
      ensures Valid()
      ensures r == CpPosition(aerodynamicSurfaces, csys)
      ensures totalLiftCoeffDer == LiftSum(aerodynamicSurfaces)
      ensures r.Success? ==> cpPosition == r.value
      ensures r.Failure? ==> cpPosition == MomentSum(aerodynamicSurfaces, csys)
      ensures unchanged(this`coordinateSystemOrientation, this`csys, this`radius, this`mass)
      ensures unchanged(this`cpEccentricityX, this`cpEccentricityY, this`thrustEccentricityX, this`thrustEccentricityY)
      ensures unchanged(this`parachutes, this`aerodynamicSurfaces, this`railButtons)
    {
      var surfaces := aerodynamicSurfaces;
      var lift := 0.0;
      var moment := 0.0;
      for i := 0 to |surfaces|
        invariant lift == LiftSum(surfaces[..i])
        invariant moment == MomentSum(surfaces[..i], csys)
      {
        assert surfaces[..i + 1][..i] == surfaces[..i];
        var surface, position := surfaces[i].component, surfaces[i].position;
        lift := lift + surface.clalpha0;
        moment := moment + surface.clalpha0 * (position - csys as real * surface.cpz);
      }
      assert surfaces[..|surfaces|] == surfaces;
      totalLiftCoeffDer := lift;
      if |surfaces| == 0 {
        cpPosition := 0.0;
        return Success(0.0);
      }
      if lift == 0.0 {
        cpPosition := moment;
        return Failure(ZeroTotalLift);
      }
      cpPosition := moment / lift;
      return Success(cpPosition);
    }

    /** `add_surfaces(surfaces, positions)` with lists: each surface is placed at its
        position, then the center of pressure is recomputed. */
    method AddSurfaces(surfaces: seq<AeroSurface>, positions: seq<real>) returns (r: Result<real, RocketError>)
      requires Valid()
      modifies this
      ensures Valid()
      ensures aerodynamicSurfaces == old(aerodynamicSurfaces) + Zip(surfaces, positions)
      ensures r == CpPosition(aerodynamicSurfaces, csys)
      ensures totalLiftCoeffDer == LiftSum(aerodynamicSurfaces)
      ensures r.Success? ==> cpPosition == r.value
      ensures unchanged(this`coordinateSystemOrientation, this`csys, this`radius, this`mass)
      ensures unchanged(this`cpEccentricityX, this`cpEccentricityY, this`thrustEccentricityX, this`thrustEccentricityY)
      ensures unchanged(this`parachutes, this`railButtons)
    {
      var pairs := Zip(surfaces, positions);
      for i := 0 to |pairs|
        invariant aerodynamicSurfaces == old(aerodynamicSurfaces) + pairs[..i]
        invariant unchanged(this`coordinateSystemOrientation, this`csys, this`radius, this`mass)
        invariant unchanged(this`cpEccentricityX, this`cpEccentricityY, this`thrustEccentricityX, this`thrustEccentricityY)
        invariant unchanged(this`parachutes, this`railButtons)
      {
        assert pairs[..i + 1] == pairs[..i] + [pairs[i]];
        aerodynamicSurfaces := aerodynamicSurfaces + [pairs[i]];
      }
      assert pairs[..|pairs|] == pairs;
      r := EvaluateStaticMargin();
    }

    /** `add_surfaces(surface, position)` with a single surface, which `zip` refuses with
        a `TypeError`. */
    method AddSurface(surface: AeroSurface, position: real) returns (r: Result<real, RocketError>)
      requires Valid()
      modifies this
      ensures Valid()
      ensures aerodynamicSurfaces == old(aerodynamicSurfaces) + [Placed(surface, position)]
      ensures r == CpPosition(aerodynamicSurfaces, csys)
      ensures totalLiftCoeffDer == LiftSum(aerodynamicSurfaces)
      ensures r.Success? ==> cpPosition == r.value
      ensures unchanged(this`coordinateSystemOrientation, this`csys, this`radius, this`mass)
      ensures unchanged(this`cpEccentricityX, this`cpEccentricityY, this`thrustEccentricityX, this`thrustEccentricityY)
      ensures unchanged(this`parachutes, this`railButtons)
    {
      aerodynamicSurfaces := aerodynamicSurfaces + [Placed(surface, position)];
      r := EvaluateStaticMargin();
    }
  }

  /** `Rocket(radius, mass, ..., coordinate_system_orientation)`: fails on an unknown
      orientation name, otherwise builds a rocket with no surfaces, parachutes or
      eccentricity. */
  method NewRocket(radius: real, mass: real, orientation: string) returns (r: Result<Rocket, RocketError>)
    ensures r.Failure? <==> Orientation(orientation).Failure?
    ensures r.Failure? ==> r.error == InvalidOrientation(orientation)
    ensures r.Success? ==> fresh(r.value) && r.value.Valid() && r.value.csys == Orientation(orientation).value
    ensures r.Success? ==> r.value.coordinateSystemOrientation == orientation
    ensures r.Success? ==> r.value.Eccentricities() == Eccentricity(0.0, 0.0, 0.0, 0.0)
    ensures r.Success? ==> r.value.parachutes == [] && r.value.aerodynamicSurfaces == [] && r.value.railButtons == []
    ensures r.Success? ==> r.value.cpPosition == 0.0
  {
    var csys := Orientation(orientation);
    if csys.Failure? {
      return Failure(csys.error);
    }
    var rocket := new Rocket.Init(radius, mass, orientation);
    return Success(rocket);
  }
}
