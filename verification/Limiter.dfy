/** The limiter as the object that runs. */
module Limiter {
  import opened Common
  import opened Interval
  import opened Missions
  import opened LimiterSpec

  class Limiter {
    const config: Config
    var mission: Option<Mission>
    var status: Status
    var missionId: string
    var phase: Phase
    var droneRegistered: bool
    var takeoff: bool
    var maxDistance: real
    var maxDeviation: real
    var zone: Zone
    var nav: Option<Nav>
    var lastNavPoll: real
    var lastTelemetry: real
    var trace: seq<Event>

    ghost function Now(): State
      reads this
    {
      State(mission, status, missionId, phase, droneRegistered, takeoff, maxDistance, maxDeviation, zone,
            nav, lastNavPoll, lastTelemetry, trace)
    }

    constructor (config: Config, maxDistance: real, maxDeviation: real)
      ensures this.config == config && Now() == Initial(maxDistance, maxDeviation)
    {
      this.config := config;
      mission, status, missionId, phase := None, Disabled, "", PhaseDisabled;
      droneRegistered, takeoff := false, false;
      this.maxDistance, this.maxDeviation, zone := maxDistance, maxDeviation, NormalZone;
      nav, lastNavPoll, lastTelemetry, trace := None, 0.0, 0.0, [];
    }

    /** The handshake, step by step; each refusal ends it. */
    method RunMissionLoad(m: Mission, a: LoadAnswers) returns (result: Status)
      modifies this
      ensures (Now(), result) == Handshake(config, old(Now()), m, a)
    {
      if !config.enabled {
        phase := PhaseAuthorized;
        takeoff := false;
        return Authorized;
      }
      if config.mock {
        phase := PhaseAuthorized;
        takeoff := false;
        droneRegistered := true;
        return Authorized;
      }
      takeoff := false;
      if !droneRegistered {
        trace := trace + [Call(RegisterDrone, "", [], a.drone)];
        if a.drone != Registered {
          phase := PhaseDenied;
          return Denied;
        }
        droneRegistered := true;
        phase := DroneRegistered;
      }
      trace := trace + [Call(RegisterMission, m.id, Route(m.steps), a.mission)];
      if a.mission != RegisteredMission {
        phase := PhaseDenied;
        return Denied;
      }
      phase := MissionRegistered;
      trace := trace + [Call(AuthorizeMission, m.id, [], a.authorize)];
      if a.authorize != AuthorizedMission {
        phase := PhaseDenied;
        return Denied;
      }
      phase := PhaseAuthorized;
      return Authorized;
    }

    method HandleMissionLoad(m: Mission, a: LoadAnswers) returns (ok: bool)
      modifies this
      ensures Now() == Load(config, old(Now()), m, a)
      ensures ok == LoadOk(config, old(Now()), m, a)
    {
      ghost var s := Now();
      var verdict := ValidateMissionBounds(m, config.maxMissionAlt);
      if !verdict.WithinBounds? {
        trace := trace + [LoadRefused(m.id)];
        status := OutOfBounds;
        missionId := m.id;
        assert Now() == Log(s, LoadRefused(m.id)).(status := OutOfBounds, missionId := m.id);
        return false;
      }
      trace := trace + [LoadAccepted(m.id)];
      status := Pending;
      missionId := m.id;
      phase := PhasePending;
      takeoff := false;
      ghost var s1 := Now();
      assert s1 == Log(s, LoadAccepted(m.id))
                     .(status := Pending, missionId := m.id, phase := PhasePending, takeoff := false);
      var result := RunMissionLoad(m, a);
      ghost var s2 := Now();
      assert (s2, result) == Handshake(config, s1, m, a);
      status := result;
      missionId := m.id;
      if result == Authorized {
        mission := Some(m);
      }
      ok := result == Authorized;
      assert Now() == s2.(status := result, missionId := m.id,
                          mission := if result.Authorized? then Some(m) else s2.mission);
    }

    method PollNavigationIfDue(now: real, reply: Option<Nav>)
      modifies this`nav, this`lastNavPoll
      ensures Now() == PollNavigation(config, old(Now()), now, reply)
    {
      if now - lastNavPoll < config.navInterval {
        return;
      }
      lastNavPoll := now;
      if reply.Some? {
        nav := reply;
      }
    }

    method SendTelemetry(answer: Answer)
      modifies this`trace
      ensures Now() == Telemetry(config, old(Now()), answer)
    {
      if !config.enabled || config.mock {
        return;
      }
      if !takeoff || mission.None? {
        return;
      }
      trace := trace + [Call(LimiterSpec.SendTelemetry, missionId, [], answer)];
      if answer.LandNow? {
        trace := trace + [Call(ReportIncident, missionId, [], NoAnswer)];
        trace := trace + [OrvdAlarm(answer.reason)];
      }
    }

    method RequestTakeoff(mid: string, answer: Answer, telemetry: Answer) returns (ok: bool)
      modifies this
      ensures (Now(), ok) == Takeoff(config, old(Now()), mid, answer, telemetry)
    {
      if !config.enabled {
        return true;
      }
      if config.mock {
        takeoff := true;
        phase := TakeoffAuthorized;
        return true;
      }
      if takeoff && missionId == mid {
        return true;
      }
      trace := trace + [Call(LimiterSpec.RequestTakeoff, mid, [], answer)];
      if answer != GrantedTakeoff {
        return false;
      }
      takeoff := true;
      phase := TakeoffAuthorized;
      if nav.Some? {
        SendTelemetry(telemetry);
      }
      return true;
    }

    method PollThenRequest(named: string, now: real, navReply: Option<Nav>, answer: Answer, telemetry: Answer)
      returns (ok: bool)
      modifies this
      ensures (Now(), ok) == Takeoff(config, PollNavigation(config, old(Now()), now, navReply), named, answer, telemetry)
    {
      PollNavigationIfDue(now, navReply);
      ok := RequestTakeoff(named, answer, telemetry);
    }

    method HandleOrvdTakeoff(mid: string, now: real, navReply: Option<Nav>, answer: Answer, telemetry: Answer)
      returns (ok: bool)
      modifies this
      ensures (Now(), ok) == HandleTakeoff(config, old(Now()), mid, now, navReply, answer, telemetry)
    {
      ghost var s := Now();
      var named := if mid != "" then mid else missionId;
      assert named == NamedMission(s, mid);
      if named == "" || status != Authorized {
        ok := false;
        assert HandleTakeoff(config, s, mid, now, navReply, answer, telemetry) == (s, false);
      } else {
        ok := PollThenRequest(named, now, navReply, answer, telemetry);
        assert HandleTakeoff(config, s, mid, now, navReply, answer, telemetry)
            == Takeoff(config, PollNavigation(config, s, now, navReply), named, answer, telemetry);
      }
    }

    method HandleOrvdComplete(mid: string, answer: Answer)
      modifies this
      ensures Now() == HandleComplete(config, old(Now()), mid, answer)
    {
      var named := mid;
      if named == "" {
        named := missionId;
      }
      if named == "" {
        return;
      }
      if !config.enabled || config.mock {
        phase := Completed;
        takeoff := false;
        return;
      }
      trace := trace + [Call(CompleteMission, named, [], answer)];
      if answer == CompletedMission {
        phase := Completed;
        takeoff := false;
      }
    }

    method HandleRevokeTakeoff()
      modifies this`takeoff, this`trace
      ensures Now() == Revoke(old(Now()))
    {
      trace := trace + [TakeoffRevoked];
      takeoff := false;
      trace := trace + [OrvdAlarm("takeoff_revoked")];
    }

    method ApplyLimits(offer: Limits)
      modifies this`maxDistance, this`maxDeviation
      ensures maxDistance == Raised(old(maxDistance), offer.distance)
      ensures maxDeviation == Raised(old(maxDeviation), offer.deviation)
    {
      if offer.distance.Some? && offer.distance.value > 0.0 {
        maxDistance := offer.distance.value;
      }
      if offer.deviation.Some? && offer.deviation.value > 0.0 {
        maxDeviation := offer.deviation.value;
      }
    }

    method HandleUpdateConfig(top: Limits, constraints: Option<Limits>)
      modifies this`maxDistance, this`maxDeviation
      ensures Now() == UpdateConfig(old(Now()), top, constraints)
    {
      ApplyLimits(top);
      if constraints.Some? {
        ApplyLimits(constraints.value);
      }
    }

    method RecalculateZone()
      modifies this`zone, this`trace
      ensures Now() == Recalculate(config, old(Now()))
    {
      if mission.None? || nav.None? {
        return;
      }
      var steps := mission.value.steps;
      if |steps| == 0 {
        return;
      }
      var target := steps[|steps| - 1];
      if target.NotObject? {
        return;
      }
      var distance := config.distance(nav.value.lat, nav.value.lon, Float(target.lat), Float(target.lon));
      var deviation := Abs(nav.value.alt - Float(target.alt));
      var fresh' := NormalZone;
      if distance > maxDistance || deviation > maxDeviation {
        fresh' := EmergencyZone;
      } else if distance > 0.5 * maxDistance || deviation > 0.5 * maxDeviation {
        fresh' := WarningZone;
      }
      if fresh' != zone {
        zone := fresh';
        if fresh' == EmergencyZone {
          if missionId != "" && config.enabled && !config.mock {
            trace := trace + [Call(ReportIncident, missionId, [], NoAnswer)];
          }
          trace := trace + [GeofenceAlarm(distance, deviation)];
        }
      }
    }

    method ControlTick(now: real, navReply: Option<Nav>, telemetry: Answer)
      modifies this
      ensures Now() == Tick(config, old(Now()), now, navReply, telemetry)
    {
      ghost var s := Now();
      PollNavigationIfDue(now, navReply);
      ghost var s1 := Now();
      if config.enabled && now - lastTelemetry >= config.telemetryInterval {
        lastTelemetry := now;
        if nav.Some? {
          SendTelemetry(telemetry);
        }
      }
      ghost var s2 := Now();
      assert s1 == PollNavigation(config, s, now, navReply) && s2 == PollTelemetry(config, s1, now, telemetry);
      RecalculateZone();
    }
  }
}
