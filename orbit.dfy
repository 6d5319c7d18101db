/**
  The orbit-propagation mixin a body carries: its element snapshot at a time,
  its position and velocity relative to the body it orbits, and its period.
*/
module Orbit {
  import opened Options
  import opened Numerics
  import opened Angles
  import opened Elements
  import opened Kepler

  /**
    The fields of a reference body that the kernel reads. A tilt or k of 0 stands
    for an absent one as well: both are falsy to the tests at lines 168 and 199.
  */
  datatype ReferenceBody = ReferenceBody(mass: real, tilt: real, k: real)

  /** `ns.U.getBody`: the bodies of the simulation by name. */
  type Registry = map<string, ReferenceBody>

  /** What the mixin holds on a body: its own element set and an optional analytic ephemeris. */
  datatype Body = Body(orbitalElements: Option<ElementSet>, calculator: Option<real -> Elements>)

  /**
    The record calculateElements returns: its numeric fields (t, a, e, i, o, w, M,
    E, tilt and whatever else the element set carried), the in-plane vector `pos`,
    and the polar coordinates r and v, where None stands for null.
  */
  datatype Snapshot = Snapshot(el: Elements, pos: Vec3, r: Option<real>, v: Option<real>)

  // ---------------------------------------------------------------------------
  // calculateElements (lines 72-173)
  // ---------------------------------------------------------------------------

  predicate HasElements(body: Body, forced: Option<ElementSet>) {
    forced.Some? || body.orbitalElements.Some?
  }

  /** Line 75: forced elements take precedence over the body's own. */
  function ElementSetInUse(body: Body, forced: Option<ElementSet>): ElementSet
    requires HasElements(body, forced)
  {
    if forced.Some? then forced.value else body.orbitalElements.value
  }

  /** Line 107: the calculator is used only when no elements are forced. */
  predicate UsesCalculator(body: Body, forced: Option<ElementSet>) {
    body.calculator.Some? && forced.None?
  }

  predicate Assemblable(body: Body, forced: Option<ElementSet>) {
    HasElements(body, forced) && !UsesCalculator(body, forced) ==> Propagatable(ElementSetInUse(body, forced))
  }

  /**
    Lines 73-134: the record before the Kepler stage, or None (null) when there is
    no element set at all. The calculator's record is merged over `{t}` as it is.
  */
  function AssembledElements(body: Body, forced: Option<ElementSet>, t: real): (c: Option<Elements>)
    requires Assemblable(body, forced)
    ensures c.None? <==> !HasElements(body, forced)
  {
    if !HasElements(body, forced) then None
    else if UsesCalculator(body, forced) then Some(map["t" := t] + body.calculator.value(Centuries(t)))
    else Some(Assemble(ElementSetInUse(body, forced), t))
  }

  /** What lines 136-165 need to compute numbers rather than NaN: the elements present, a bound orbit. */
  predicate KeplerReady(c: Elements) {
    "a" in c && "e" in c && "i" in c && "o" in c && "w" in c && "M" in c && -1.0 < c["e"] < 1.0
  }

  /** Line 166: a `relativeTo` name is given (an empty name is falsy). */
  predicate NamesReference(es: ElementSet) {
    es.relativeTo.Some? && es.relativeTo.value != ""
  }

  /**
    The inputs for which calculateElements computes numbers: the element set can
    be assembled, the result has what the Kepler stage reads, and the reference
    body the set names exists (line 168 dereferences it).
  */
  predicate WellFormed(body: Body, forced: Option<ElementSet>, t: real, bodies: Registry) {
    && Assemblable(body, forced)
    && (HasElements(body, forced) ==>
          && KeplerReady(AssembledElements(body, forced, t).value)
          && (NamesReference(ElementSetInUse(body, forced)) ==> ElementSetInUse(body, forced).relativeTo.value in bodies))
  }

  /**
    Lines 136-159: the eccentric anomaly is solved in degrees, then E, i, o, w and
    M are each normalised with `% 360` and converted to radians.
  */
  function KeplerStage(rt: Runtime, c: Elements): (d: Elements)
    requires CosineBounded(rt) && KeplerReady(c)
    ensures d.Keys == c.Keys + {"E"}
    ensures d["E"] == ToRadians(Mod360(EccentricAnomaly(rt, c["M"], c["e"])))
    ensures forall k :: k in c && IsAngleKey(k) && k != "E" ==> d[k] == ToRadians(Mod360(c[k]))
    ensures forall k :: k in c && !IsAngleKey(k) ==> d[k] == c[k]
  {
    var withE := c["E" := EccentricAnomaly(rt, c["M"], c["e"])];
    assert HasAngles(withE) && withE.Keys == c.Keys + {"E"};
    assert forall k :: k in c && k != "E" ==> withE[k] == c[k];
    NormalizeAngles(withE)
  }

  /** Line 162: the position in the orbital plane, from a, e and E in radians. */
  function InPlanePosition(rt: Runtime, c: Elements): (pos: Vec3)
    requires "a" in c && "e" in c && "E" in c
    ensures pos.z == 0.0
    ensures c["a"] == 0.0 ==> pos == Zero
  {
    var a, e, E := c["a"], c["e"], c["E"];
    Vec3(a * (rt.cos(E) - e), a * rt.sqrt(1.0 - e * e) * rt.sin(E), 0.0)
  }

  /** Line 168: the reference body has a non-zero tilt. */
  predicate TiltApplies(es: ElementSet, bodies: Registry)
    requires NamesReference(es) ==> es.relativeTo.value in bodies
  {
    NamesReference(es) && bodies[es.relativeTo.value].tilt != 0.0
  }

  /**
    Lines 166-171: `tilt` is set to minus the reference body's tilt, in radians,
    only when the set names a reference body whose tilt is non-zero.
  */
  function WithTilt(c: Elements, es: ElementSet, bodies: Registry): (d: Elements)
    requires NamesReference(es) ==> es.relativeTo.value in bodies
    ensures TiltApplies(es, bodies) ==> d.Keys == c.Keys + {"tilt"} && d["tilt"] == ToRadians(-bodies[es.relativeTo.value].tilt)
    ensures !TiltApplies(es, bodies) ==> d == c
    ensures forall k :: k in c && k != "tilt" ==> k in d && d[k] == c[k]
  {
    if TiltApplies(es, bodies) then c["tilt" := -bodies[es.relativeTo.value].tilt * DEG_TO_RAD] else c
  }

  /** Lines 136-172: the snapshot built from the assembled record `c` of element set `es`. */
  function SnapshotFrom(rt: Runtime, bodies: Registry, es: ElementSet, c: Elements): (s: Snapshot)
    requires CosineBounded(rt) && KeplerReady(c)
    requires NamesReference(es) ==> es.relativeTo.value in bodies
    ensures HasAngles(s.el) && "a" in s.el && "e" in s.el && s.r.Some? && s.v.Some?
  {
    var d := KeplerStage(rt, c);
    var pos := InPlanePosition(rt, d);
    Snapshot(WithTilt(d, es, bodies), pos, Some(rt.length(pos)), Some(rt.atan2(pos.y, pos.x)))
  }

  /** The snapshot calculateElements returns at time `t`, or None (null) when there are no elements. */
  function ElementsAt(rt: Runtime, bodies: Registry, body: Body, forced: Option<ElementSet>, t: real): (s: Option<Snapshot>)
    requires CosineBounded(rt) && WellFormed(body, forced, t, bodies)
    ensures s.None? <==> !HasElements(body, forced)
    ensures s.Some? ==> HasAngles(s.value.el) && "a" in s.value.el && "e" in s.value.el
    ensures s.Some? ==> s.value.r.Some? && s.value.v.Some?
  {
    match AssembledElements(body, forced, t)
    case None => None
    case Some(c) => Some(SnapshotFrom(rt, bodies, ElementSetInUse(body, forced), c))
  }

  /** Lines 100-134 as the source runs them, for a body that has an element set. */
  method AssembleRecord(body: Body, forced: Option<ElementSet>, t: real) returns (computed: Elements)
    requires HasElements(body, forced) && Assemblable(body, forced)
    ensures Some(computed) == AssembledElements(body, forced, t)
  {
    var orbitalElements := if forced.Some? then forced.value else body.orbitalElements.value;
    var tDays := t / DAY;
    var T := tDays / CENTURY;
    computed := map["t" := t];
    if body.calculator.Some? && forced.None? {
      var realorbit := body.calculator.value(T);
      computed := computed + realorbit;
    } else {
      computed := AssembleSet(orbitalElements, t);
    }
  }

  /** Lines 136-172 as the source runs them: solve, normalise, place in the plane, tilt. */
  method FinishSnapshot(rt: Runtime, bodies: Registry, orbitalElements: ElementSet, assembled: Elements)
    returns (s: Snapshot)
    requires CosineBounded(rt) && KeplerReady(assembled)
    requires NamesReference(orbitalElements) ==> orbitalElements.relativeTo.value in bodies
    ensures s == SnapshotFrom(rt, bodies, orbitalElements, assembled)
  {
    var computed := assembled;
    var En, passes, dE := SolveEccentricAnomaly(rt, computed["M"], computed["e"]);
    computed := NormalizeAngles(computed["E" := En]);
    var pos := InPlanePosition(rt, computed);
    var r := rt.length(pos);
    var v := rt.atan2(pos.y, pos.x);
    computed := WithTilt(computed, orbitalElements, bodies);
    s := Snapshot(computed, pos, Some(r), Some(v));
  }

  /** Lines 72-173: null without any element set, else the assembled record finished into a snapshot. */
  method CalculateElements(rt: Runtime, bodies: Registry, body: Body, t: real, forced: Option<ElementSet>)
    returns (s: Option<Snapshot>)
    requires CosineBounded(rt) && WellFormed(body, forced, t, bodies)
    ensures s == ElementsAt(rt, bodies, body, forced, t)
    ensures s.None? <==> !HasElements(body, forced)
  {
    if forced.None? && body.orbitalElements.None? {
      return None;
    }
    var orbitalElements := if forced.Some? then forced.value else body.orbitalElements.value;
    var computed := AssembleRecord(body, forced, t);
    var snapshot := FinishSnapshot(rt, bodies, orbitalElements, computed);
    s := Some(snapshot);
  }

  /** Forced elements take precedence over the body's own and switch the calculator off. */
  lemma ForcedElementsTakePrecedence(rt: Runtime, bodies: Registry, body: Body, f: ElementSet, t: real)
    requires CosineBounded(rt) && WellFormed(body, Some(f), t, bodies)
    ensures WellFormed(Body(Some(f), None), None, t, bodies)
    ensures ElementsAt(rt, bodies, body, Some(f), t) == ElementsAt(rt, bodies, Body(Some(f), None), None, t)
  {
  }

  /**
    On the calculator path the calculator's values are kept as returned: `a` is
    not converted to metres and `w`, `M` are not derived.
  */
  lemma CalculatorValuesKept(body: Body, t: real)
    requires body.orbitalElements.Some? && body.calculator.Some?
    ensures Assemblable(body, None)
    ensures var c, ret := AssembledElements(body, None, t).value, body.calculator.value(Centuries(t));
      && c.Keys == ret.Keys + {"t"}
      && (forall k :: k in ret ==> c[k] == ret[k])
      && ("t" !in ret ==> c["t"] == t)
  {
  }

  /** Without `base` and without a calculator the snapshot does not depend on the time. */
  lemma LiteralOrbitIgnoresTime(rt: Runtime, bodies: Registry, body: Body, forced: Option<ElementSet>, s: real, t: real)
    requires CosineBounded(rt) && WellFormed(body, forced, s, bodies)
    requires HasElements(body, forced) && !UsesCalculator(body, forced) && ElementSetInUse(body, forced).base.None?
    ensures WellFormed(body, forced, t, bodies)
    ensures ElementsAt(rt, bodies, body, forced, s) == ElementsAt(rt, bodies, body, forced, t)
  {
    LiteralSetIgnoresTime(ElementSetInUse(body, forced), s, t);
  }

  // ---------------------------------------------------------------------------
  // getPositionFromElements (lines 175-193)
  // ---------------------------------------------------------------------------

  /** The orientation angles, in radians, that the frame rotation reads. */
  predicate HasOrientation(c: Elements) {
    "i" in c && "o" in c && "w" in c
  }

  /**
    Lines 178-179: r and v are kept from the record unless null; a null one is
    computed from `pos` (its length, and its angle in the plane).
  */
  function FillPolar(rt: Runtime, s: Snapshot): (f: Snapshot)
    ensures f.el == s.el && f.pos == s.pos && f.r.Some? && f.v.Some?
    ensures s.r.Some? ==> f.r == s.r
    ensures s.v.Some? ==> f.v == s.v
    ensures s.r.None? ==> f.r.value == rt.length(s.pos)
    ensures s.v.None? ==> f.v.value == rt.atan2(s.pos.y, s.pos.x)
  {
    var r := if s.r != None then s.r.value else rt.length(s.pos);
    var v := if s.v != None then s.v.value else rt.atan2(s.pos.y, s.pos.x);
    s.(r := Some(r), v := Some(v))
  }

  /** Lines 181-187: the orbital-plane point (r, v) rotated by i, o and w into the reference frame. */
  function FrameRotation(rt: Runtime, r: real, v: real, c: Elements): (p: Vec3)
    requires HasOrientation(c)
    ensures r == 0.0 ==> p == Zero
  {
    var o, i, w := c["o"], c["i"], c["w"];
    Vec3(r * (rt.cos(o) * rt.cos(v + w) - rt.sin(o) * rt.sin(v + w) * rt.cos(i)),
         r * (rt.sin(o) * rt.cos(v + w) + rt.cos(o) * rt.sin(v + w) * rt.cos(i)),
         r * rt.sin(v + w) * rt.sin(i))
  }

  /** Line 189: the record carries a truthy (present and non-zero) tilt. */
  predicate Tilted(c: Elements) {
    "tilt" in c && c["tilt"] != 0.0
  }

  /**
    Lines 175-193: the zero vector for a null record; otherwise the frame
    rotation of the record's polar coordinates, turned about the X axis by the
    record's tilt when it has one.
  */
  function GetPositionFromElements(rt: Runtime, s: Option<Snapshot>): (p: Vec3)
    requires s.Some? ==> HasOrientation(s.value.el)
    ensures s.None? ==> p == Zero
  {
    if s.None? then Zero
    else
      var f := FillPolar(rt, s.value);
      var pos := FrameRotation(rt, f.r.value, f.v.value, f.el);
      if Tilted(f.el) then rt.rotateX(pos, f.el["tilt"]) else pos
  }

  /** Recorded r and v are used as they are: the record's `pos` then plays no part. */
  lemma RecordedPolarIgnoresPos(rt: Runtime, el: Elements, p1: Vec3, p2: Vec3, r: real, v: real)
    requires HasOrientation(el)
    ensures GetPositionFromElements(rt, Some(Snapshot(el, p1, Some(r), Some(v))))
         == GetPositionFromElements(rt, Some(Snapshot(el, p2, Some(r), Some(v))))
  {
  }

  /** Null r and v are the length and the plane angle of `pos`. */
  lemma NullPolarFromPos(rt: Runtime, el: Elements, pos: Vec3)
    requires HasOrientation(el)
    ensures GetPositionFromElements(rt, Some(Snapshot(el, pos, None, None)))
         == GetPositionFromElements(rt, Some(Snapshot(el, pos, Some(rt.length(pos)), Some(rt.atan2(pos.y, pos.x)))))
  {
  }

  /**
    The tilt is applied only when it is truthy: a zero or missing tilt gives the
    untilted position, a non-zero one rotates it about the X axis.
  */
  lemma TiltOnlyWhenNonZero(rt: Runtime, s: Snapshot)
    requires HasOrientation(s.el)
    ensures HasOrientation((s.el - {"tilt"}))
    ensures !Tilted(s.el) ==>
      GetPositionFromElements(rt, Some(s)) == GetPositionFromElements(rt, Some(s.(el := s.el - {"tilt"})))
    ensures Tilted(s.el) ==>
      GetPositionFromElements(rt, Some(s)) == rt.rotateX(GetPositionFromElements(rt, Some(s.(el := s.el - {"tilt"}))), s.el["tilt"])
  {
    var u := s.el - {"tilt"};
    var f := FillPolar(rt, s);
    assert u["o"] == s.el["o"] && u["i"] == s.el["i"] && u["w"] == s.el["w"];
    assert FrameRotation(rt, f.r.value, f.v.value, u) == FrameRotation(rt, f.r.value, f.v.value, s.el);
    assert !Tilted(u);
  }

  // ---------------------------------------------------------------------------
  // calculatePosition (lines 65-70)
  // ---------------------------------------------------------------------------

  /** The position of the body at time `t`, the zero vector when it has no elements. */
  function PositionAt(rt: Runtime, bodies: Registry, body: Body, t: real): (p: Vec3)
    requires CosineBounded(rt) && WellFormed(body, None, t, bodies)
    ensures body.orbitalElements.None? ==> p == Zero
  {
    if body.orbitalElements.None? then Zero
    else GetPositionFromElements(rt, ElementsAt(rt, bodies, body, None, t))
  }

  /** Lines 65-70. */
  method CalculatePosition(rt: Runtime, bodies: Registry, body: Body, t: real) returns (p: Vec3)
    requires CosineBounded(rt) && WellFormed(body, None, t, bodies)
    ensures p == PositionAt(rt, bodies, body, t)
    ensures body.orbitalElements.None? ==> p == Zero
  {
    if body.orbitalElements.None? {
      return Zero;
    }
    var computed := CalculateElements(rt, bodies, body, t, None);
    p := GetPositionFromElements(rt, computed);
  }

  // ---------------------------------------------------------------------------
  // calculateVelocity (lines 32-63)
  // ---------------------------------------------------------------------------

  /** Lines 38-40: the average velocity over the 60-second step between two positions. */
  function FiniteDifference(pos1: Vec3, pos2: Vec3): (vel: Vec3)
    ensures Scale(vel, 60.0) == Sub(pos2, pos1)
  {
    Scale(Sub(pos2, pos1), 1.0 / 60.0)
  }

  /** What the vis-viva path divides by: r, a and k (2 - k) with k = r / a, all non-zero. */
  predicate VisVivaReady(s: Snapshot) {
    && s.r.Some? && s.v.Some? && "a" in s.el && "e" in s.el && HasOrientation(s.el)
    && s.r.value != 0.0 && s.el["a"] != 0.0
    && (s.r.value / s.el["a"]) * (2.0 - s.r.value / s.el["a"]) != 0.0
  }

  /**
    Lines 47-50: the cosine of the angle between radius and velocity, as the
    ellipse's geometry gives it, clamped so that floating-point overshoot never
    exceeds the domain of acos.
  */
  function TangentCosine(r: real, a: real, e: real): (o: real)
    requires a != 0.0 && (r / a) * (2.0 - r / a) != 0.0
    ensures o <= 1.0
    ensures var raw := (2.0 - 2.0 * e * e) / ((r / a) * (2.0 - r / a)) - 1.0;
      (raw <= 1.0 ==> o == raw) && (raw > 1.0 ==> o == 1.0)
  {
    var o := (2.0 - 2.0 * e * e) / ((r / a) * (2.0 - r / a)) - 1.0;
    if o > 1.0 then 1.0 else o
  }

  /** On a circular orbit (e = 0, r = a) the cosine is exactly 1. */
  lemma CircularTangentCosine(a: real)
    requires a != 0.0
    ensures TangentCosine(a, a, 0.0) == 1.0
  {
    assert a / a == 1.0;
  }

  /**
    Lines 51-52: the flight angle alpha = pi - acos(o) on the outbound half of the
    orbit (v >= 0), reflected to 2 pi - alpha on the inbound half (v < 0).
  */
  function TangentAngle(rt: Runtime, o: real, v: real): (alpha: real)
    ensures v >= 0.0 ==> alpha == PI - rt.acos(o)
    ensures v < 0.0 ==> alpha == PI + rt.acos(o)
  {
    var alpha := PI - rt.acos(o);
    if v < 0.0 then (2.0 * PI) - alpha else alpha
  }

  /** The two halves of the orbit give flight angles that add up to a full turn. */
  lemma TangentAngleReflects(rt: Runtime, o: real, v1: real, v2: real)
    requires v1 < 0.0 <= v2
    ensures TangentAngle(rt, o, v1) + TangentAngle(rt, o, v2) == 2.0 * PI
  {
  }

  /** Line 53: the direction of the velocity in the orbital plane. */
  function VelocityAngle(rt: Runtime, r: real, a: real, e: real, v: real): real
    requires a != 0.0 && (r / a) * (2.0 - r / a) != 0.0
  {
    v + TangentAngle(rt, TangentCosine(r, a, e), v) / 2.0
  }

  /**
    On a circular orbit, where acos(1) = 0, the velocity is perpendicular to the
    radius: a quarter turn ahead of the true anomaly, on either half of the orbit.
  */
  lemma CircularVelocityPerpendicular(rt: Runtime, a: real, v: real)
    requires a != 0.0 && rt.acos(1.0) == 0.0
    ensures VelocityAngle(rt, a, a, 0.0, v) == v + PI / 2.0
  {
    CircularTangentCosine(a);
  }

  /** Line 44: the vis-viva speed at distance r on an orbit of semi-major axis a around a body of mass `mass`. */
  function VisVivaSpeed(rt: Runtime, mass: real, r: real, a: real): (speed: real)
    requires r != 0.0 && a != 0.0
    ensures r == a ==> speed == rt.sqrt(rt.G * mass / a)
  {
    var energy := rt.G * mass * ((2.0 / r) - (1.0 / a));
    assert r == a ==> energy == rt.G * mass / a by {
      if r == a {
        assert (2.0 / r) - (1.0 / a) == 1.0 / a;
        assert rt.G * mass * (1.0 / a) == rt.G * mass / a;
      }
    }
    rt.sqrt(energy)
  }

  /**
    Lines 44-56: the record whose `pos` is the in-plane velocity (direction from
    the flight angle, length the vis-viva speed) and whose r and v are null, so
    that the frame rotation derives them from that vector.
  */
  function VelocityRecord(rt: Runtime, s: Snapshot, mass: real): (w: Snapshot)
    requires VisVivaReady(s)
    ensures w.el == s.el && w.r.None? && w.v.None?
    ensures var angle := VelocityAngle(rt, s.r.value, s.el["a"], s.el["e"], s.v.value);
      w.pos == rt.setLength(Vec3(rt.cos(angle), rt.sin(angle), 0.0), VisVivaSpeed(rt, mass, s.r.value, s.el["a"]))
  {
    var r, a := s.r.value, s.el["a"];
    var speed := VisVivaSpeed(rt, mass, r, a);
    var angle := VelocityAngle(rt, r, a, s.el["e"], s.v.value);
    Snapshot(s.el, rt.setLength(Vec3(rt.cos(angle), rt.sin(angle), 0.0), speed), None, None)
  }

  /** The inputs for which calculateVelocity computes numbers. */
  ghost predicate VelocityDefined(rt: Runtime, bodies: Registry, body: Body, t: real, relativeTo: string, isFromDelta: bool) {
    && CosineBounded(rt)
    && (body.orbitalElements.Some? ==>
          if isFromDelta then WellFormed(body, None, t, bodies) && WellFormed(body, None, t + 60.0, bodies)
          else
            && WellFormed(body, None, t, bodies)
            && relativeTo in bodies
            && VisVivaReady(ElementsAt(rt, bodies, body, None, t).value))
  }

  /** The velocity calculateVelocity returns. */
  function VelocityAt(rt: Runtime, bodies: Registry, body: Body, t: real, relativeTo: string, isFromDelta: bool): (vel: Vec3)
    requires VelocityDefined(rt, bodies, body, t, relativeTo, isFromDelta)
    ensures body.orbitalElements.None? ==> vel == Zero
  {
    if body.orbitalElements.None? then Zero
    else if isFromDelta then FiniteDifference(PositionAt(rt, bodies, body, t), PositionAt(rt, bodies, body, t + 60.0))
    else
      var s := ElementsAt(rt, bodies, body, None, t).value;
      GetPositionFromElements(rt, Some(VelocityRecord(rt, s, bodies[relativeTo].mass)))
  }

  /**
    Lines 32-63: zero without elements; otherwise the finite difference of two
    positions 60 seconds apart, or the vis-viva velocity rotated into the frame.
  */
  method CalculateVelocity(rt: Runtime, bodies: Registry, body: Body, t: real, relativeTo: string, isFromDelta: bool)
    returns (vel: Vec3)
    requires VelocityDefined(rt, bodies, body, t, relativeTo, isFromDelta)
    ensures vel == VelocityAt(rt, bodies, body, t, relativeTo, isFromDelta)
    ensures body.orbitalElements.None? ==> vel == Zero
    ensures body.orbitalElements.Some? && isFromDelta ==>
      Scale(vel, 60.0) == Sub(PositionAt(rt, bodies, body, t + 60.0), PositionAt(rt, bodies, body, t))
  {
    if body.orbitalElements.None? {
      return Zero;
    }
    if isFromDelta {
      var pos1 := CalculatePosition(rt, bodies, body, t);
      var pos2 := CalculatePosition(rt, bodies, body, t + 60.0);
      vel := Scale(Sub(pos2, pos1), 1.0 / 60.0);
    } else {
      var computed := CalculateElements(rt, bodies, body, t, None);
      var el := computed.value;
      var velocityEls := VelocityRecord(rt, el, bodies[relativeTo].mass);
      vel := GetPositionFromElements(rt, Some(velocityEls));
    }
  }

  // ---------------------------------------------------------------------------
  // calculatePeriod (lines 195-204)
  // ---------------------------------------------------------------------------

  /** Line 197: the body's own daily mean-anomaly rate, 0 when absent (both are falsy). */
  function DailyMeanMotion(body: Body): real {
    if body.orbitalElements.Some? && body.orbitalElements.value.day.Some? && "M" in body.orbitalElements.value.day.value
    then body.orbitalElements.value.day.value["M"]
    else 0.0
  }

  /** Line 199: the reference body exists with a non-zero k, and elements with `a` are given. */
  predicate KeplerBranch(bodies: Registry, elements: Option<Elements>, relativeTo: string) {
    relativeTo in bodies && bodies[relativeTo].k != 0.0 && elements.Some? && "a" in elements.value
  }

  /** Line 200: the period in days from Kepler's third law, for a semi-major axis `a` in metres. */
  function KeplerPeriodDays(rt: Runtime, a: real, k: real): real
    requires rt.AU != 0.0 && k != 0.0
  {
    2.0 * PI * rt.sqrt(rt.pow(a / (rt.AU * 1000.0), 3.0)) / k
  }

  /**
    Lines 195-204, in seconds. The body's own daily mean-anomaly rate wins: the
    period is then the time in which M advances 360 degrees. Otherwise Kepler's
    third law around the reference body. With neither, the source yields NaN,
    modelled as None.
  */
  function CalculatePeriod(rt: Runtime, bodies: Registry, body: Body, elements: Option<Elements>, relativeTo: string)
    : (period: Option<real>)
    requires rt.AU != 0.0
    ensures DailyMeanMotion(body) != 0.0 ==> period.Some? && period.value * DailyMeanMotion(body) == 360.0 * DAY
    ensures DailyMeanMotion(body) == 0.0 && KeplerBranch(bodies, elements, relativeTo) ==>
      && period.Some?
      && period.value * bodies[relativeTo].k == 2.0 * PI * rt.sqrt(rt.pow(elements.value["a"] / (rt.AU * 1000.0), 3.0)) * DAY
    ensures period.None? <==> DailyMeanMotion(body) == 0.0 && !KeplerBranch(bodies, elements, relativeTo)
  {
    var days :=
      if DailyMeanMotion(body) != 0.0 then Some(360.0 / DailyMeanMotion(body))
      else if KeplerBranch(bodies, elements, relativeTo) then Some(KeplerPeriodDays(rt, elements.value["a"], bodies[relativeTo].k))
      else None;
    if days.Some? then Some(days.value * DAY) else None
  }

  /**
    Kepler's third law, as line 200 applies it: where the library's `pow` cubes
    and its `sqrt` squares back exactly, the square of the period times the
    square of the reference body's k is (2 pi DAY)^2 times the cube of the
    semi-major axis in astronomical units.
  */
  lemma {:induction false} PeriodSquaredIsAxisCubed(
    rt: Runtime, bodies: Registry, body: Body, elements: Option<Elements>, relativeTo: string)
    requires rt.AU != 0.0 && DailyMeanMotion(body) == 0.0 && KeplerBranch(bodies, elements, relativeTo)
    requires var x := elements.value["a"] / (rt.AU * 1000.0);
      rt.pow(x, 3.0) == x * x * x && rt.sqrt(x * x * x) * rt.sqrt(x * x * x) == x * x * x
    ensures var P, k, x :=
        CalculatePeriod(rt, bodies, body, elements, relativeTo).value, bodies[relativeTo].k, elements.value["a"] / (rt.AU * 1000.0);
      (P * k) * (P * k) == (2.0 * PI * DAY) * (2.0 * PI * DAY) * (x * x * x)
  {
    var P := CalculatePeriod(rt, bodies, body, elements, relativeTo).value;
    var k := bodies[relativeTo].k;
    var x := elements.value["a"] / (rt.AU * 1000.0);
    var root := rt.sqrt(x * x * x);
    assert rt.pow(x, 3.0) == x * x * x;
    assert rt.sqrt(rt.pow(x, 3.0)) == root;
    assert P * k == 2.0 * PI * rt.sqrt(rt.pow(x, 3.0)) * DAY;
    assert P * k == (2.0 * PI * DAY) * root;
    Squared(P * k, 2.0 * PI * DAY, root);
  }

  /** Squaring `y = c s`. */
  lemma Squared(y: real, c: real, root: real)
    requires y == c * root
    ensures y * y == c * c * (root * root)
  {
  }

  /** The arithmetic of one turn: a rate of `d` per day over `P` seconds with `P d = 360 DAY`. */
  lemma OneTurn(d: real, t: real, P: real)
    requires P * d == 360.0 * DAY
    ensures d * ((t + P) / DAY) == d * (t / DAY) + 360.0
  {
    calc {
      d * ((t + P) / DAY);
      d * (t / DAY) + (P * d) / DAY;
      d * (t / DAY) + 360.0;
    }
  }

  /**
    Over one period, propagation by the daily mean-anomaly rate advances M by
    exactly one turn: the period and the propagator agree.
  */
  lemma {:induction false} PeriodTurnsMeanAnomalyOnce(
    rt: Runtime, bodies: Registry, body: Body, elements: Option<Elements>, relativeTo: string, t: real)
    requires rt.AU != 0.0 && body.orbitalElements.Some?
    requires var es := body.orbitalElements.value;
      es.base.Some? && "M" in es.base.value && es.cy.None? && es.day.Some? && "M" in es.day.value
    requires DailyMeanMotion(body) != 0.0
    ensures var es, P := body.orbitalElements.value, CalculatePeriod(rt, bodies, body, elements, relativeTo).value;
      Propagated(es, t + P)["M"] == Propagated(es, t)["M"] + 360.0
  {
    var es := body.orbitalElements.value;
    var P := CalculatePeriod(rt, bodies, body, elements, relativeTo).value;
    var d := es.day.value["M"];
    assert d == DailyMeanMotion(body);
    assert P * d == 360.0 * DAY;
    DayRateIsPerDay(es, t + P, "M");
    DayRateIsPerDay(es, t, "M");
    OneTurn(d, t, P);
  }
}
