/** Missions as they travel between the mission handler, the limiter and the autopilot. */
module Missions {

  /** A numeric field of a mission step: missing, present with another type, or a number. */
  datatype Field = Absent | NotNumber | Number(value: real)

  /** One entry of a mission's step list. */
  datatype Waypoint =
    | NotObject
    | Waypoint(lat: Field, lon: Field, alt: Field, speed: Field, drop: bool)

  /** A missing step list is the empty one, a missing id the empty string. */
  datatype Mission = Mission(id: string, steps: seq<Waypoint>)

  /** Readers that take anything but a number as zero. */
  function Float(f: Field): real {
    if f.Number? then f.value else 0.0
  }

  function Abs(x: real): real {
    if x < 0.0 then -x else x
  }

  predicate StepInBounds(s: Waypoint, maxAlt: real) {
    && s.Waypoint? && s.lat.Number? && s.lon.Number? && s.alt.Number?
    && -90.0 <= s.lat.value <= 90.0 && -180.0 <= s.lon.value <= 180.0 && 0.0 <= s.alt.value <= maxAlt
  }

  /** Every step is a full coordinate within the limiter's bounds, and there is one. */
  predicate InBounds(m: Mission, maxAlt: real) {
    m.steps != [] && forall i :: 0 <= i < |m.steps| ==> StepInBounds(m.steps[i], maxAlt)
  }

  datatype BoundsVerdict =
    | WithinBounds
    | EmptySteps
    | InvalidStep(i: nat)
    | InvalidCoords(i: nat)
    | CoordsOutOfRange(i: nat)
    | AltOutOfRange(i: nat)

  /** What is wrong with a step, in the order in which it is examined. */
  function Fault(s: Waypoint, maxAlt: real, i: nat): BoundsVerdict {
    if s.NotObject? then InvalidStep(i)
    else if !s.lat.Number? || !s.lon.Number? || !s.alt.Number? then InvalidCoords(i)
    else if Abs(s.lat.value) > 90.0 || Abs(s.lon.value) > 180.0 then CoordsOutOfRange(i)
    else if s.alt.value < 0.0 || s.alt.value > maxAlt then AltOutOfRange(i)
    else WithinBounds
  }

  /** The early-return scan: accepts exactly the missions in bounds, and otherwise
      reports the first faulty step. */
  method ValidateMissionBounds(m: Mission, maxAlt: real) returns (v: BoundsVerdict)
    ensures v.WithinBounds? <==> InBounds(m, maxAlt)
    ensures v.EmptySteps? <==> m.steps == []
    ensures !v.WithinBounds? && !v.EmptySteps? ==>
      && v.i < |m.steps| && v == Fault(m.steps[v.i], maxAlt, v.i)
      && forall j :: 0 <= j < v.i ==> StepInBounds(m.steps[j], maxAlt)
    ensures v.InvalidStep? ==> m.steps[v.i].NotObject?
    ensures v.InvalidCoords? || v.CoordsOutOfRange? || v.AltOutOfRange? ==> m.steps[v.i].Waypoint?
    ensures v.InvalidCoords? ==> var s := m.steps[v.i]; !s.lat.Number? || !s.lon.Number? || !s.alt.Number?
    ensures v.CoordsOutOfRange? || v.AltOutOfRange? ==> var s := m.steps[v.i]; s.lat.Number? && s.lon.Number? && s.alt.Number?
    ensures v.CoordsOutOfRange? ==> var s := m.steps[v.i];
      !(-90.0 <= s.lat.value <= 90.0) || !(-180.0 <= s.lon.value <= 180.0)
    ensures v.AltOutOfRange? ==> var s := m.steps[v.i];
      -90.0 <= s.lat.value <= 90.0 && -180.0 <= s.lon.value <= 180.0 && !(0.0 <= s.alt.value <= maxAlt)
  {
    if |m.steps| == 0 {
      return EmptySteps;
    }
    var i := 0;
    while i < |m.steps|
      invariant 0 <= i <= |m.steps|
      invariant forall j :: 0 <= j < i ==> StepInBounds(m.steps[j], maxAlt)
    {
      var s := m.steps[i];
      if s.NotObject? {
        return InvalidStep(i);
      }
      if !s.lat.Number? || !s.lon.Number? || !s.alt.Number? {
        return InvalidCoords(i);
      }
      if Abs(s.lat.value) > 90.0 || Abs(s.lon.value) > 180.0 {
        return CoordsOutOfRange(i);
      }
      if s.alt.value < 0.0 || s.alt.value > maxAlt {
        return AltOutOfRange(i);
      }
      i := i + 1;
    }
    return WithinBounds;
  }

  /** The route sent to the air traffic system: the readable coordinates, in order. */
  function Route(steps: seq<Waypoint>): seq<(real, real)> {
    if steps == [] then []
    else
      var s := steps[0];
      (if s.Waypoint? && s.lat.Number? && s.lon.Number? then [(s.lat.value, s.lon.value)] else []) + Route(steps[1..])
  }

  /** Nothing is lost from the route of a mission that passed the bounds check. */
  lemma {:induction false} RouteIsComplete(m: Mission, maxAlt: real)
    requires InBounds(m, maxAlt)
    ensures |Route(m.steps)| == |m.steps|
    ensures forall i :: 0 <= i < |m.steps| ==>
      m.steps[i].Waypoint? && Route(m.steps)[i] == (Float(m.steps[i].lat), Float(m.steps[i].lon))
    decreases |m.steps|
  {
    var rest := Mission(m.id, m.steps[1..]);
    if rest.steps != [] {
      assert InBounds(rest, maxAlt) by {
        assert forall i :: 0 <= i < |rest.steps| ==> rest.steps[i] == m.steps[i + 1];
      }
      RouteIsComplete(rest, maxAlt);
    }
    assert StepInBounds(m.steps[0], maxAlt);
    forall i | 0 <= i < |m.steps|
      ensures m.steps[i].Waypoint? && Route(m.steps)[i] == (Float(m.steps[i].lat), Float(m.steps[i].lon))
    {
      if i > 0 {
        assert m.steps[i] == rest.steps[i - 1];
      }
    }
  }
}
