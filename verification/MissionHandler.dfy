/** The mission handler: structural validation, then the limiter, then the autopilot. */
module MissionHandler {
  import opened Common
  import opened Missions

  /** The structural check: an id, steps, and the three coordinates present in each. */
  predicate WellFormed(m: Mission) {
    && m.id != "" && m.steps != []
    && forall i :: 0 <= i < |m.steps| ==> HasCoordinates(m.steps[i])
  }

  predicate HasCoordinates(w: Waypoint) {
    w.Waypoint? && !w.lat.Absent? && !w.lon.Absent? && !w.alt.Absent?
  }

  datatype Verdict =
    | Valid | InvalidMissionId | NoSteps
    | BadStep(i: nat) | MissingLat(i: nat) | MissingLon(i: nat) | MissingAlt(i: nat)

  /** What a step lacks, in the order in which it is examined. */
  function Lack(w: Waypoint, i: nat): Verdict {
    if w.NotObject? then BadStep(i)
    else if w.lat.Absent? then MissingLat(i)
    else if w.lon.Absent? then MissingLon(i)
    else if w.alt.Absent? then MissingAlt(i)
    else Valid
  }

  /** The first step from `i` on that lacks something. */
  function FirstLack(steps: seq<Waypoint>, i: nat): (v: Verdict)
    requires i <= |steps|
    ensures v.Valid? <==> forall j :: i <= j < |steps| ==> HasCoordinates(steps[j])
    decreases |steps| - i
  {
    if i == |steps| then Valid
    else if Lack(steps[i], i).Valid? then FirstLack(steps, i + 1) else Lack(steps[i], i)
  }

  function VerdictOf(m: Mission): (v: Verdict)
    ensures v.Valid? <==> WellFormed(m)
  {
    if m.id == "" then InvalidMissionId else if m.steps == [] then NoSteps else FirstLack(m.steps, 0)
  }

  /** What a verdict says about a mission: the first thing it lacks. */
  ghost predicate Tells(m: Mission, v: Verdict) {
    match v
    case Valid => WellFormed(m)
    case InvalidMissionId => m.id == ""
    case NoSteps => m.id != "" && m.steps == []
    case BadStep(i) => FirstAt(m, i) && m.steps[i].NotObject?
    case MissingLat(i) => FirstAt(m, i) && m.steps[i].Waypoint? && m.steps[i].lat.Absent?
    case MissingLon(i) => FirstAt(m, i) && m.steps[i].Waypoint? && !m.steps[i].lat.Absent? && m.steps[i].lon.Absent?
    case MissingAlt(i) =>
      FirstAt(m, i) && m.steps[i].Waypoint? && !m.steps[i].lat.Absent? && !m.steps[i].lon.Absent? && m.steps[i].alt.Absent?
  }

  /** Step `i` is where the first fault of an otherwise sound mission can be. */
  ghost predicate FirstAt(m: Mission, i: nat) {
    m.id != "" && i < |m.steps| && forall j :: 0 <= j < i ==> HasCoordinates(m.steps[j])
  }

  method ValidateMission(m: Mission) returns (v: Verdict)
    ensures v == VerdictOf(m) && Tells(m, v)
  {
    if m.id == "" {
      return InvalidMissionId;
    }
    if |m.steps| == 0 {
      return NoSteps;
    }
    var i := 0;
    while i < |m.steps|
      invariant 0 <= i <= |m.steps|
      invariant FirstLack(m.steps, 0) == FirstLack(m.steps, i)
      invariant forall j :: 0 <= j < i ==> HasCoordinates(m.steps[j])
    {
      var lack := Lack(m.steps[i], i);
      if !lack.Valid? {
        return lack;
      }
      i := i + 1;
    }
    return Valid;
  }

  /** Every mission that passes the limiter's bounds is structurally sound but for its id. */
  lemma BoundsImplyStructure(m: Mission, maxAlt: real)
    requires InBounds(m, maxAlt) && m.id != ""
    ensures WellFormed(m)
  {
    forall i | 0 <= i < |m.steps|
      ensures HasCoordinates(m.steps[i])
    {
      assert StepInBounds(m.steps[i], maxAlt);
    }
  }

  /** The answer of a component to a mission: a failed request, an answer without a
      payload, or its verdict. */
  datatype Answer = NoAnswer | NoPayload | Accepted | Rejected(error: string)

  predicate Proceeds(a: Answer) {
    a.NoPayload? || a.Accepted?
  }

  datatype Submission = BadPayload | Unreadable(error: string) | Readable(mission: Mission)

  datatype Send = ToLimiter(mission: Mission) | ToAutopilot(mission: Mission)

  /** What is sent for one submission: nothing unless it is well formed, then the
      limiter, and the autopilot only when the limiter did not refuse. */
  function Sends(sub: Submission, limiter: Answer): seq<Send> {
    if !sub.Readable? || !WellFormed(sub.mission) then []
    else if !Proceeds(limiter) then [ToLimiter(sub.mission)]
    else [ToLimiter(sub.mission), ToAutopilot(sub.mission)]
  }

  /** Limiter first: whatever reaches the autopilot was well formed and had reached
      the limiter before. That the limiter accepted it holds exactly when its answer
      does not come without a payload: such an answer counts as consent. */
  lemma LimiterFirst(m: Mission, a: Answer)
    ensures ToAutopilot(m) in Sends(Readable(m), a) ==> WellFormed(m) && Sends(Readable(m), a)[0] == ToLimiter(m)
    ensures (ToAutopilot(m) in Sends(Readable(m), a) ==> a.Accepted?) <==> !(WellFormed(m) && a.NoPayload?)
  {
    var sends := Sends(Readable(m), a);
    if WellFormed(m) && Proceeds(a) {
      assert sends[1] == ToAutopilot(m);
    }
  }

  /** The recorded error, by the step that failed. */
  datatype Failure =
    | NoFailure | InvalidInput | ParseError(error: string) | Structural(verdict: Verdict)
    | LimiterSilent | LimiterError(error: string) | AutopilotSilent | AutopilotError(error: string)

  /** The error a submission leaves behind: the first step that fails decides. */
  function FailureOf(sub: Submission, limiter: Answer, autopilot: Answer, structure: Verdict): Failure {
    match sub
    case BadPayload => InvalidInput
    case Unreadable(e) => ParseError(e)
    case Readable(m) =>
      if !structure.Valid? then Structural(structure)
      else if limiter.NoAnswer? then LimiterSilent
      else if limiter.Rejected? then LimiterError(if limiter.error == "" then "limiter_rejected" else limiter.error)
      else if autopilot.NoAnswer? then AutopilotSilent
      else if autopilot.Rejected? then AutopilotError(if autopilot.error == "" then "autopilot_error" else autopilot.error)
      else NoFailure
  }

  class MissionHandler {
    var lastMission: Option<Mission>
    var lastError: Failure
    var sent: seq<Send>

    constructor ()
      ensures lastMission == None && lastError == NoFailure && sent == []
    {
      lastMission, lastError, sent := None, NoFailure, [];
    }

    method HandleLoadMission(sub: Submission, limiter: Answer, autopilot: Answer) returns (ok: bool)
      modifies this
      ensures sent == old(sent) + Sends(sub, limiter)
      ensures ok <==> sub.Readable? && WellFormed(sub.mission) && Proceeds(limiter) && Proceeds(autopilot)
      ensures ok <==> lastError == NoFailure
      ensures lastError == FailureOf(sub, limiter, autopilot, if sub.Readable? then VerdictOf(sub.mission) else Valid)
      ensures lastMission == if sub.Readable? && WellFormed(sub.mission) then Some(sub.mission) else old(lastMission)
    {
      if sub.BadPayload? {
        lastError := InvalidInput;
        return false;
      }
      if sub.Unreadable? {
        lastError := ParseError(sub.error);
        return false;
      }
      var verdict := ValidateMission(sub.mission);
      if !verdict.Valid? {
        lastError := Structural(verdict);
        return false;
      }
      lastMission := Some(sub.mission);
      lastError := NoFailure;
      sent := sent + [ToLimiter(sub.mission)];
      if limiter.NoAnswer? {
        lastError := LimiterSilent;
        return false;
      }
      if limiter.Rejected? {
        lastError := LimiterError(if limiter.error == "" then "limiter_rejected" else limiter.error);
        return false;
      }
      sent := sent + [ToAutopilot(sub.mission)];
      if autopilot.NoAnswer? {
        lastError := AutopilotSilent;
        return false;
      }
      if autopilot.Rejected? {
        lastError := AutopilotError(if autopilot.error == "" then "autopilot_error" else autopilot.error);
        return false;
      }
      return true;
    }
  }
}
