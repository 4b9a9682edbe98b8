/** The limiter as a pure machine: the handshake with the air traffic system
    (ORVD), the mission it guards, and the geofence. */
module LimiterSpec {
  import opened Common
  import opened Interval
  import opened Missions

  datatype Status = Disabled | Pending | Authorized | Denied | OutOfBounds

  datatype Phase =
    | PhaseDisabled | PhasePending | DroneRegistered | MissionRegistered
    | PhaseAuthorized | TakeoffAuthorized | Completed | PhaseDenied

  datatype Zone = NormalZone | WarningZone | EmergencyZone

  datatype Nav = Nav(lat: real, lon: real, alt: real)

  datatype Verb =
    | RegisterDrone | RegisterMission | AuthorizeMission | RequestTakeoff
    | SendTelemetry | CompleteMission | ReportIncident

  /** A reply by its decoded status; `NoAnswer` is a failed request, `LandNow` the
      emergency status with the command LAND. */
  datatype Answer =
    | NoAnswer | Registered | RegisteredMission | AuthorizedMission | GrantedTakeoff
    | CompletedMission | LandNow(reason: string) | OtherAnswer

  /** The trace of a limiter: calls to the air traffic system with their replies,
      the accepted and refused loads, the revocations, the alarms it published. */
  datatype Event =
    | Call(verb: Verb, mission: string, route: seq<(real, real)>, answer: Answer)
    | LoadAccepted(mission: string)
    | LoadRefused(mission: string)
    | TakeoffRevoked
    | GeofenceAlarm(distance: real, deviation: real)
    | OrvdAlarm(reason: string)

  /** `enabled` is a configured ORVD topic. The distance on the globe is a
      parameter: its formula is not part of this model. */
  datatype Config = Config(
    enabled: bool, mock: bool, maxMissionAlt: real,
    navInterval: real, telemetryInterval: real, distance: (real, real, real, real) -> real)

  datatype State = State(
    mission: Option<Mission>, status: Status, missionId: string, phase: Phase,
    droneRegistered: bool, takeoff: bool,
    maxDistance: real, maxDeviation: real, zone: Zone,
    nav: Option<Nav>, lastNavPoll: real, lastTelemetry: real,
    trace: seq<Event>)

  function Initial(maxDistance: real, maxDeviation: real): State {
    State(None, Disabled, "", PhaseDisabled, false, false, maxDistance, maxDeviation, NormalZone, None, 0.0, 0.0, [])
  }

  /** The answers the air traffic system gives while one mission is loaded. */
  datatype LoadAnswers = LoadAnswers(drone: Answer, mission: Answer, authorize: Answer)

  function Log(s: State, e: Event): State {
    s.(trace := s.trace + [e])
  }

  // ---- loading a mission ------------------------------------------------------

  /** Register the drone unless it already is. */
  function RegisterStep(s: State, a: LoadAnswers): State {
    if s.droneRegistered then s
    else
      var s1 := Log(s, Call(RegisterDrone, "", [], a.drone));
      if a.drone == Registered then s1.(droneRegistered := true, phase := DroneRegistered)
      else s1.(phase := PhaseDenied)
  }

  function MissionStep(s: State, m: Mission, a: LoadAnswers): State {
    Log(s, Call(RegisterMission, m.id, Route(m.steps), a.mission))
      .(phase := if a.mission == RegisteredMission then MissionRegistered else PhaseDenied)
  }

  function AuthorizeStep(s: State, m: Mission, a: LoadAnswers): State {
    Log(s, Call(AuthorizeMission, m.id, [], a.authorize))
      .(phase := if a.authorize == AuthorizedMission then PhaseAuthorized else PhaseDenied)
  }

  /** register_drone, register_mission, authorize_mission, each only after the one before. */
  function Handshake(c: Config, s: State, m: Mission, a: LoadAnswers): (State, Status) {
    if !c.enabled then (s.(phase := PhaseAuthorized, takeoff := false), Authorized)
    else if c.mock then (s.(phase := PhaseAuthorized, takeoff := false, droneRegistered := true), Authorized)
    else
      var s1 := RegisterStep(s.(takeoff := false), a);
      if !s1.droneRegistered then (s1, Denied)
      else
        var s2 := MissionStep(s1, m, a);
        if a.mission != RegisteredMission then (s2, Denied)
        else
          var s3 := AuthorizeStep(s2, m, a);
          (s3, if a.authorize == AuthorizedMission then Authorized else Denied)
  }

  function Load(c: Config, s: State, m: Mission, a: LoadAnswers): State {
    if !InBounds(m, c.maxMissionAlt)
    then Log(s, LoadRefused(m.id)).(status := OutOfBounds, missionId := m.id)
    else
      var s1 := Log(s, LoadAccepted(m.id))
                  .(status := Pending, missionId := m.id, phase := PhasePending, takeoff := false);
      var (s2, status) := Handshake(c, s1, m, a);
      s2.(status := status, missionId := m.id, mission := if status.Authorized? then Some(m) else s2.mission)
  }

  /** The load handler answers ok exactly when the mission ends up authorized. */
  predicate LoadOk(c: Config, s: State, m: Mission, a: LoadAnswers) {
    Load(c, s, m, a).status.Authorized?
  }

  // ---- takeoff, telemetry, completion, revocation -------------------------------

  function PollNavigation(c: Config, s: State, now: real, reply: Option<Nav>): State {
    if !Due(s.lastNavPoll, now, c.navInterval) then s
    else s.(lastNavPoll := now, nav := if reply.Some? then reply else s.nav)
  }

  /** Telemetry is sent only in flight; the reply may order a landing. */
  function Telemetry(c: Config, s: State, answer: Answer): State {
    if !c.enabled || c.mock || !s.takeoff || s.mission.None? then s
    else
      var s1 := Log(s, Call(SendTelemetry, s.missionId, [], answer));
      if answer.LandNow?
      then Log(Log(s1, Call(ReportIncident, s.missionId, [], NoAnswer)), OrvdAlarm(answer.reason))
      else s1
  }

  function Takeoff(c: Config, s: State, mid: string, answer: Answer, telemetry: Answer): (State, bool) {
    if !c.enabled then (s, true)
    else if c.mock then (s.(takeoff := true, phase := TakeoffAuthorized), true)
    else if s.takeoff && s.missionId == mid then (s, true)
    else
      var s1 := Log(s, Call(RequestTakeoff, mid, [], answer));
      if answer != GrantedTakeoff then (s1, false)
      else
        var s2 := s1.(takeoff := true, phase := TakeoffAuthorized);
        (if s2.nav.Some? then Telemetry(c, s2, telemetry) else s2, true)
  }

  function NamedMission(s: State, mid: string): string {
    if mid != "" then mid else s.missionId
  }

  /** The orvd_takeoff handler. */
  function HandleTakeoff(
    c: Config, s: State, mid: string, now: real, nav: Option<Nav>, answer: Answer, telemetry: Answer): (State, bool)
  {
    if NamedMission(s, mid) == "" || !s.status.Authorized? then (s, false)
    else Takeoff(c, PollNavigation(c, s, now, nav), NamedMission(s, mid), answer, telemetry)
  }

  function Complete(c: Config, s: State, mid: string, answer: Answer): State {
    if !c.enabled || c.mock then s.(phase := Completed, takeoff := false)
    else
      var s1 := Log(s, Call(CompleteMission, mid, [], answer));
      if answer == CompletedMission then s1.(phase := Completed, takeoff := false) else s1
  }

  function HandleComplete(c: Config, s: State, mid: string, answer: Answer): State {
    if NamedMission(s, mid) == "" then s else Complete(c, s, NamedMission(s, mid), answer)
  }

  function Revoke(s: State): State {
    Log(Log(s, TakeoffRevoked), OrvdAlarm("takeoff_revoked")).(takeoff := false)
  }

  // ---- limits and the geofence -----------------------------------------------------

  /** Limits offered by an update: at the top level and under "constraints". */
  datatype Limits = Limits(distance: Option<real>, deviation: Option<real>)

  function Raised(old': real, offer: Option<real>): real {
    if offer.Some? && offer.value > 0.0 then offer.value else old'
  }

  function UpdateConfig(s: State, top: Limits, constraints: Option<Limits>): State {
    var s1 := s.(maxDistance := Raised(s.maxDistance, top.distance), maxDeviation := Raised(s.maxDeviation, top.deviation));
    if constraints.None? then s1
    else s1.(maxDistance := Raised(s1.maxDistance, constraints.value.distance),
             maxDeviation := Raised(s1.maxDeviation, constraints.value.deviation))
  }

  function Classify(distance: real, deviation: real, maxDistance: real, maxDeviation: real): Zone {
    if distance > maxDistance || deviation > maxDeviation then EmergencyZone
    else if distance > 0.5 * maxDistance || deviation > 0.5 * maxDeviation then WarningZone
    else NormalZone
  }

  /** Distance and height deviation from the last step of the guarded mission;
      None when there is nothing to compare. */
  function Deviation(c: Config, s: State): Option<(real, real)> {
    if s.mission.None? || s.nav.None? then None
    else
      var steps := s.mission.value.steps;
      if steps == [] || steps[|steps| - 1].NotObject? then None
      else
        var t, n := steps[|steps| - 1], s.nav.value;
        Some((c.distance(n.lat, n.lon, Float(t.lat), Float(t.lon)), Abs(n.alt - Float(t.alt))))
  }

  function Recalculate(c: Config, s: State): State {
    match Deviation(c, s)
    case None => s
    case Some((d, v)) =>
      var zone := Classify(d, v, s.maxDistance, s.maxDeviation);
      if zone == s.zone then s
      else if zone.EmergencyZone? then
        var s1 := s.(zone := zone);
        Log(if s.missionId != "" && c.enabled && !c.mock
            then Log(s1, Call(ReportIncident, s.missionId, [], NoAnswer)) else s1,
            GeofenceAlarm(d, v))
      else s.(zone := zone)
  }

  function PollTelemetry(c: Config, s: State, now: real, answer: Answer): State {
    if !c.enabled || !Due(s.lastTelemetry, now, c.telemetryInterval) then s
    else
      var s1 := s.(lastTelemetry := now);
      if s1.nav.None? then s1 else Telemetry(c, s1, answer)
  }

  /** One turn of the control loop. */
  function Tick(c: Config, s: State, now: real, nav: Option<Nav>, telemetry: Answer): State {
    Recalculate(c, PollTelemetry(c, PollNavigation(c, s, now, nav), now, telemetry))
  }

  // ---- runs ---------------------------------------------------------------------------

  /** Everything that can happen to a limiter. Messages from senders it does not
      trust change nothing and are left out. */
  datatype Input =
    | DoLoad(mission: Mission, answers: LoadAnswers)
    | DoTakeoff(mid: string, now: real, navReply: Option<Nav>, answer: Answer, telemetry: Answer)
    | DoComplete(mid: string, answer: Answer)
    | DoRevoke
    | DoConfig(top: Limits, constraints: Option<Limits>)
    | DoTick(now: real, navReply: Option<Nav>, telemetry: Answer)

  function Step(c: Config, s: State, i: Input): State {
    match i
    case DoLoad(m, a) => Load(c, s, m, a)
    case DoTakeoff(mid, now, nav, answer, telemetry) => HandleTakeoff(c, s, mid, now, nav, answer, telemetry).0
    case DoComplete(mid, answer) => HandleComplete(c, s, mid, answer)
    case DoRevoke => Revoke(s)
    case DoConfig(top, constraints) => UpdateConfig(s, top, constraints)
    case DoTick(now, nav, telemetry) => Tick(c, s, now, nav, telemetry)
  }

  function After(c: Config, s: State, h: seq<Input>): State
    decreases |h|
  {
    if h == [] then s else Step(c, After(c, s, h[..|h| - 1]), h[|h| - 1])
  }
}
