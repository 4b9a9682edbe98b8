/** The geofence of the limiter: positive limits, nested severity bands, one alarm
    for each entry into the emergency band. */
module Geofence {
  import opened Common
  import opened Interval
  import opened Missions
  import opened LimiterSpec

  function Severity(z: Zone): nat {
    match z case NormalZone => 0 case WarningZone => 1 case EmergencyZone => 2
  }

  /** Further away, further off height or under tighter limits is never less severe. */
  lemma SeverityIsMonotone(d: real, v: real, maxD: real, maxV: real, d': real, v': real, maxD': real, maxV': real)
    requires d <= d' && v <= v' && maxD' <= maxD && maxV' <= maxV
    ensures Severity(Classify(d, v, maxD, maxV)) <= Severity(Classify(d', v', maxD', maxV'))
  {
  }

  // ---- what every run keeps ---------------------------------------------------------

  /** Limits are positive and the guarded mission is one that passed the bounds
      check, so its step list is not empty and its last step is an object. */
  ghost predicate Guarded(c: Config, s: State) {
    && s.maxDistance > 0.0 && s.maxDeviation > 0.0
    && (s.mission.Some? ==> InBounds(s.mission.value, c.maxMissionAlt))
  }

  predicate SameGuard(s: State, s': State) {
    s'.mission == s.mission && s'.maxDistance == s.maxDistance && s'.maxDeviation == s.maxDeviation
  }

  lemma LoadGuarded(c: Config, s: State, m: Mission, a: LoadAnswers)
    ensures var s' := Load(c, s, m, a);
      && s'.maxDistance == s.maxDistance && s'.maxDeviation == s.maxDeviation
      && (s'.mission == s.mission || (s'.mission == Some(m) && InBounds(m, c.maxMissionAlt)))
  {
  }

  lemma TelemetryGuarded(c: Config, s: State, answer: Answer)
    ensures SameGuard(s, Telemetry(c, s, answer))
  {
  }

  lemma TakeoffGuarded(c: Config, s: State, mid: string, answer: Answer, telemetry: Answer)
    ensures SameGuard(s, Takeoff(c, s, mid, answer, telemetry).0)
  {
    var s1 := Log(s, Call(RequestTakeoff, mid, [], answer));
    TelemetryGuarded(c, s1.(takeoff := true, phase := TakeoffAuthorized), telemetry);
  }

  lemma RecalculateGuarded(c: Config, s: State)
    ensures SameGuard(s, Recalculate(c, s))
  {
  }

  lemma TickGuarded(c: Config, s: State, now: real, nav: Option<Nav>, telemetry: Answer)
    ensures SameGuard(s, Tick(c, s, now, nav, telemetry))
  {
    var s1 := PollNavigation(c, s, now, nav);
    TelemetryGuarded(c, s1.(lastTelemetry := now), telemetry);
    RecalculateGuarded(c, PollTelemetry(c, s1, now, telemetry));
  }

  lemma StepGuarded(c: Config, s: State, i: Input)
    requires Guarded(c, s)
    ensures Guarded(c, LimiterSpec.Step(c, s, i))
  {
    match i
    case DoLoad(m, a) =>
      LoadGuarded(c, s, m, a);
    case DoTakeoff(mid, now, nav, answer, telemetry) =>
      TakeoffGuarded(c, PollNavigation(c, s, now, nav), NamedMission(s, mid), answer, telemetry);
    case DoComplete(mid, answer) =>
      assert SameGuard(s, HandleComplete(c, s, mid, answer));
    case DoRevoke =>
      assert SameGuard(s, Revoke(s));
    case DoConfig(_, _) =>
    case DoTick(now, nav, telemetry) =>
      TickGuarded(c, s, now, nav, telemetry);
  }

  lemma {:induction false} GuardedOverRuns(c: Config, maxDistance: real, maxDeviation: real, h: seq<Input>)
    requires maxDistance > 0.0 && maxDeviation > 0.0
    ensures Guarded(c, After(c, Initial(maxDistance, maxDeviation), h))
    decreases |h|
  {
    if h != [] {
      GuardedOverRuns(c, maxDistance, maxDeviation, h[..|h| - 1]);
      StepGuarded(c, After(c, Initial(maxDistance, maxDeviation), h[..|h| - 1]), h[|h| - 1]);
    }
  }

  /** The two defensive exits of the recalculation are never taken: whenever a
      mission and a position are known, there is a target to compare with. */
  lemma DefensiveExitsAreDead(c: Config, maxDistance: real, maxDeviation: real, h: seq<Input>)
    requires maxDistance > 0.0 && maxDeviation > 0.0
    ensures var s := After(c, Initial(maxDistance, maxDeviation), h);
      s.mission.Some? && s.nav.Some? ==> Deviation(c, s).Some?
  {
    GuardedOverRuns(c, maxDistance, maxDeviation, h);
    var s := After(c, Initial(maxDistance, maxDeviation), h);
    if s.mission.Some? {
      var steps := s.mission.value.steps;
      assert StepInBounds(steps[|steps| - 1], c.maxMissionAlt);
    }
  }

  // ---- the edge trigger ----------------------------------------------------------------

  /** The positions of the geofence alarms on a trace. */
  function AlarmsAt(trace: seq<Event>): set<int> {
    set i | 0 <= i < |trace| && trace[i].GeofenceAlarm?
  }

  function Alarms(trace: seq<Event>): nat {
    |AlarmsAt(trace)|
  }

  /** The state in which a control tick recalculates. */
  function BeforeRecalculation(c: Config, s: State, i: Input): State
    requires i.DoTick?
  {
    PollTelemetry(c, PollNavigation(c, s, i.now, i.navReply), i.now, i.telemetry)
  }

  /** The band of a state, if there is anything to compare. */
  function BandBefore(c: Config, s: State): seq<Zone> {
    match Deviation(c, s)
    case None => []
    case Some((d, v)) => [Classify(d, v, s.maxDistance, s.maxDeviation)]
  }

  /** The band of one tick, read from position and limits alone. */
  function BandOf(c: Config, s: State, i: Input): seq<Zone> {
    if i.DoTick? then BandBefore(c, BeforeRecalculation(c, s, i)) else []
  }

  /** The bands of all ticks of a history. */
  function Bands(c: Config, s: State, h: seq<Input>): seq<Zone>
    decreases |h|
  {
    if h == [] then []
    else Bands(c, s, h[..|h| - 1]) + BandOf(c, After(c, s, h[..|h| - 1]), h[|h| - 1])
  }

  function Current(bands: seq<Zone>): Zone {
    if bands == [] then NormalZone else bands[|bands| - 1]
  }

  /** How often the sequence of bands enters the emergency band, from NORMAL. */
  function Entries(bands: seq<Zone>): nat {
    if bands == [] then 0
    else
      var before := bands[..|bands| - 1];
      Entries(before) + (if bands[|bands| - 1].EmergencyZone? && !Current(before).EmergencyZone? then 1 else 0)
  }

  lemma AlarmsLog(s: State, e: Event)
    ensures Alarms(Log(s, e).trace) == Alarms(s.trace) + if e.GeofenceAlarm? then 1 else 0
  {
    var t := s.trace + [e];
    assert AlarmsAt(t) == AlarmsAt(s.trace) + if e.GeofenceAlarm? then {|s.trace|} else {};
  }

  /** Same zone, no alarm. */
  predicate Silent(s: State, s': State) {
    s'.zone == s.zone && Alarms(s'.trace) == Alarms(s.trace)
  }

  lemma TelemetryIsSilent(c: Config, s: State, answer: Answer)
    ensures Silent(s, Telemetry(c, s, answer))
    ensures Telemetry(c, s, answer).maxDistance == s.maxDistance
    ensures Telemetry(c, s, answer).maxDeviation == s.maxDeviation
  {
    var s1 := Log(s, Call(SendTelemetry, s.missionId, [], answer));
    AlarmsLog(s, Call(SendTelemetry, s.missionId, [], answer));
    if answer.LandNow? {
      AlarmsLog(s1, Call(ReportIncident, s.missionId, [], NoAnswer));
      AlarmsLog(Log(s1, Call(ReportIncident, s.missionId, [], NoAnswer)), OrvdAlarm(answer.reason));
    }
  }

  lemma HandshakeIsSilent(c: Config, s: State, m: Mission, a: LoadAnswers)
    ensures Silent(s, Handshake(c, s, m, a).0)
  {
    if c.enabled && !c.mock {
      var s0 := s.(takeoff := false);
      AlarmsLog(s0, Call(RegisterDrone, "", [], a.drone));
      var s1 := RegisterStep(s0, a);
      assert Silent(s, s1);
      var s2 := MissionStep(s1, m, a);
      AlarmsLog(s1, Call(RegisterMission, m.id, Route(m.steps), a.mission));
      assert Silent(s, s2);
      var s3 := AuthorizeStep(s2, m, a);
      AlarmsLog(s2, Call(AuthorizeMission, m.id, [], a.authorize));
      assert Silent(s, s3);
      assert Handshake(c, s, m, a).0 in {s1, s2, s3};
    }
  }

  lemma LoadIsSilent(c: Config, s: State, m: Mission, a: LoadAnswers)
    ensures Silent(s, Load(c, s, m, a))
  {
    if InBounds(m, c.maxMissionAlt) {
      AlarmsLog(s, LoadAccepted(m.id));
      HandshakeIsSilent(c, Log(s, LoadAccepted(m.id))
                             .(status := Pending, missionId := m.id, phase := PhasePending, takeoff := false), m, a);
    } else {
      AlarmsLog(s, LoadRefused(m.id));
    }
  }

  lemma TakeoffIsSilent(c: Config, s: State, mid: string, answer: Answer, telemetry: Answer)
    ensures Silent(s, Takeoff(c, s, mid, answer, telemetry).0)
  {
    var e := Call(RequestTakeoff, mid, [], answer);
    AlarmsLog(s, e);
    var s2 := Log(s, e).(takeoff := true, phase := TakeoffAuthorized);
    var s3 := Telemetry(c, s2, telemetry);
    TelemetryIsSilent(c, s2, telemetry);
    assert Takeoff(c, s, mid, answer, telemetry).0 in
      {s, s.(takeoff := true, phase := TakeoffAuthorized), Log(s, e), s2, s3};
  }

  lemma HandlersAreSilent(c: Config, s: State, i: Input)
    requires !i.DoTick?
    ensures Silent(s, LimiterSpec.Step(c, s, i))
  {
    match i
    case DoLoad(m, a) =>
      LoadIsSilent(c, s, m, a);
    case DoTakeoff(mid, now, nav, answer, telemetry) =>
      TakeoffIsSilent(c, PollNavigation(c, s, now, nav), NamedMission(s, mid), answer, telemetry);
    case DoComplete(mid, answer) =>
      AlarmsLog(s, Call(CompleteMission, NamedMission(s, mid), [], answer));
    case DoRevoke =>
      AlarmsLog(s, TakeoffRevoked);
      AlarmsLog(Log(s, TakeoffRevoked), OrvdAlarm("takeoff_revoked"));
    case DoConfig(_, _) =>
  }

  lemma RecalculateAlarms(c: Config, s: State)
    ensures var s' := Recalculate(c, s);
      match Deviation(c, s)
      case None => Silent(s, s')
      case Some((d, v)) =>
        && s'.zone == Classify(d, v, s.maxDistance, s.maxDeviation)
        && Alarms(s'.trace) == Alarms(s.trace) + if s'.zone.EmergencyZone? && !s.zone.EmergencyZone? then 1 else 0
  {
    if Deviation(c, s).Some? {
      var (d, v) := Deviation(c, s).value;
      var s1 := s.(zone := Classify(d, v, s.maxDistance, s.maxDeviation));
      var incident := Call(ReportIncident, s.missionId, [], NoAnswer);
      AlarmsLog(s1, incident);
      AlarmsLog(s1, GeofenceAlarm(d, v));
      AlarmsLog(Log(s1, incident), GeofenceAlarm(d, v));
    }
  }

  lemma PollingIsSilent(c: Config, s: State, now: real, nav: Option<Nav>, telemetry: Answer)
    ensures Silent(s, PollTelemetry(c, PollNavigation(c, s, now, nav), now, telemetry))
  {
    TelemetryIsSilent(c, PollNavigation(c, s, now, nav).(lastTelemetry := now), telemetry);
  }

  lemma RecalculateFollows(c: Config, s: State, s1: State)
    requires Silent(s, s1)
    ensures Follows(s, BandBefore(c, s1), Recalculate(c, s1))
  {
    RecalculateAlarms(c, s1);
  }

  lemma TickAlarms(c: Config, s: State, i: Input)
    requires i.DoTick?
    ensures Follows(s, BandOf(c, s, i), LimiterSpec.Step(c, s, i))
  {
    PollingIsSilent(c, s, i.now, i.navReply, i.telemetry);
    RecalculateFollows(c, s, BeforeRecalculation(c, s, i));
  }

  /** How zone and alarm count move with the band of one step. */
  predicate Follows(s: State, band: seq<Zone>, s': State) {
    || (band == [] && Silent(s, s'))
    || (|band| == 1 && s'.zone == band[0]
        && Alarms(s'.trace) == Alarms(s.trace) + (if band[0].EmergencyZone? && !s.zone.EmergencyZone? then 1 else 0))
  }

  lemma FollowsBands(s: State, bands: seq<Zone>, band: seq<Zone>, s': State)
    requires s.zone == Current(bands) && Alarms(s.trace) == Entries(bands) && Follows(s, band, s')
    ensures s'.zone == Current(bands + band) && Alarms(s'.trace) == Entries(bands + band)
  {
    if band == [] {
      assert bands + band == bands;
    } else {
      assert bands + band == bands + [band[0]];
      assert (bands + band)[..|bands|] == bands;
    }
  }

  /** The edge trigger: over any history, with configuration updates in between,
      the zone is the band of the last tick and the number of geofence alarms is
      the number of entries of the band sequence into EMERGENCY. */
  lemma {:induction false} AlarmsAreEntries(c: Config, maxDistance: real, maxDeviation: real, h: seq<Input>)
    ensures var s, bands := After(c, Initial(maxDistance, maxDeviation), h), Bands(c, Initial(maxDistance, maxDeviation), h);
      s.zone == Current(bands) && Alarms(s.trace) == Entries(bands)
    decreases |h|
  {
    if h != [] {
      var s0 := Initial(maxDistance, maxDeviation);
      AlarmsAreEntries(c, maxDistance, maxDeviation, h[..|h| - 1]);
      var s, i := After(c, s0, h[..|h| - 1]), h[|h| - 1];
      StepFollows(c, s, i);
      FollowsBands(s, Bands(c, s0, h[..|h| - 1]), BandOf(c, s, i), LimiterSpec.Step(c, s, i));
    }
  }

  lemma StepFollows(c: Config, s: State, i: Input)
    ensures Follows(s, BandOf(c, s, i), LimiterSpec.Step(c, s, i))
  {
    if i.DoTick? {
      TickAlarms(c, s, i);
    } else {
      HandlersAreSilent(c, s, i);
    }
  }

  // ---- what the bands mean ------------------------------------------------------------------

  /** An offer counts when it is positive. */
  predicate Counts(offer: Option<real>) {
    offer.Some? && offer.value > 0.0
  }

  /** The distance limit in force: the last positive offer of the history, of one update
      the one under "constraints" before the one at the top, or else the initial limit. */
  function DistanceLimit(initial: real, h: seq<Input>): real {
    if h == [] then initial
    else
      var before, i := DistanceLimit(initial, h[..|h| - 1]), h[|h| - 1];
      if !i.DoConfig? then before
      else if i.constraints.Some? && Counts(i.constraints.value.distance) then i.constraints.value.distance.value
      else if Counts(i.top.distance) then i.top.distance.value else before
  }

  /** The same for the height deviation. */
  function DeviationLimit(initial: real, h: seq<Input>): real {
    if h == [] then initial
    else
      var before, i := DeviationLimit(initial, h[..|h| - 1]), h[|h| - 1];
      if !i.DoConfig? then before
      else if i.constraints.Some? && Counts(i.constraints.value.deviation) then i.constraints.value.deviation.value
      else if Counts(i.top.deviation) then i.top.deviation.value else before
  }

  lemma StepKeepsLimits(c: Config, s: State, i: Input)
    requires !i.DoConfig?
    ensures var s' := LimiterSpec.Step(c, s, i); s'.maxDistance == s.maxDistance && s'.maxDeviation == s.maxDeviation
  {
    match i
    case DoLoad(m, a) => LoadGuarded(c, s, m, a);
    case DoTakeoff(mid, now, nav, answer, telemetry) =>
      TakeoffGuarded(c, PollNavigation(c, s, now, nav), NamedMission(s, mid), answer, telemetry);
    case DoComplete(_, _) =>
    case DoRevoke =>
    case DoTick(now, nav, telemetry) => TickGuarded(c, s, now, nav, telemetry);
  }

  lemma {:induction false} LimitsInForce(c: Config, maxDistance: real, maxDeviation: real, h: seq<Input>)
    ensures var s := After(c, Initial(maxDistance, maxDeviation), h);
      s.maxDistance == DistanceLimit(maxDistance, h) && s.maxDeviation == DeviationLimit(maxDeviation, h)
    decreases |h|
  {
    if h != [] {
      LimitsInForce(c, maxDistance, maxDeviation, h[..|h| - 1]);
      if !h[|h| - 1].DoConfig? {
        StepKeepsLimits(c, After(c, Initial(maxDistance, maxDeviation), h[..|h| - 1]), h[|h| - 1]);
      }
    }
  }

  /** Distance and height deviation of a position from a waypoint with coordinates. */
  ghost predicate Off(c: Config, n: Nav, w: Waypoint, d: real, v: real) {
    && w.Waypoint? && w.lat.Number? && w.lon.Number? && w.alt.Number?
    && d == c.distance(n.lat, n.lon, w.lat.value, w.lon.value)
    && (v == n.alt - w.alt.value || v == w.alt.value - n.alt) && v >= 0.0
  }

  /** The zone a distance and a deviation belong to, under limits of their own. */
  predicate InZone(z: Zone, d: real, v: real, maxD: real, maxV: real) {
    && (z.EmergencyZone? <==> d > maxD || v > maxV)
    && (z.NormalZone? <==> d <= 0.5 * maxD && v <= 0.5 * maxV)
  }

  lemma ClassifyMeans(d: real, v: real, maxD: real, maxV: real)
    requires maxD > 0.0 && maxV > 0.0
    ensures InZone(Classify(d, v, maxD, maxV), d, v, maxD, maxV)
  {
  }

  /** Entering the emergency zone reports the distances, to the air traffic system too
      when there is one and a mission is known. */
  ghost predicate Reported(c: Config, s: State, d: real, v: real, trace: seq<Event>) {
    trace == s.trace
      + (if s.missionId != "" && c.enabled && !c.mock then [Call(ReportIncident, s.missionId, [], NoAnswer)] else [])
      + [GeofenceAlarm(d, v)]
  }

  lemma RecalculateMeans(c: Config, s: State, d: real, v: real, w: Waypoint)
    requires s.maxDistance > 0.0 && s.maxDeviation > 0.0 && s.mission.Some? && s.nav.Some? && s.mission.value.steps != []
    requires w == s.mission.value.steps[|s.mission.value.steps| - 1] && Off(c, s.nav.value, w, d, v)
    ensures var s' := Recalculate(c, s);
      && InZone(s'.zone, d, v, s.maxDistance, s.maxDeviation)
      && (s'.zone.EmergencyZone? && !s.zone.EmergencyZone? ==> Reported(c, s, d, v, s'.trace))
      && (!s'.zone.EmergencyZone? || s.zone.EmergencyZone? ==> s'.trace == s.trace)
  {
    assert Deviation(c, s) == Some((d, v));
    ClassifyMeans(d, v, s.maxDistance, s.maxDeviation);
  }

  /** A polled tick with an answer works with that answer. */
  lemma TickPolls(c: Config, s: State, i: Input)
    requires i.DoTick?
    ensures var s' := LimiterSpec.Step(c, s, i);
      && s'.nav == BeforeRecalculation(c, s, i).nav && s'.mission == s.mission
      && s'.nav == (if i.now - s.lastNavPoll >= c.navInterval && i.navReply.Some? then i.navReply else s.nav)
  {
    var s1 := PollNavigation(c, s, i.now, i.navReply);
    TickGuarded(c, s, i.now, i.navReply, i.telemetry);
    assert PollTelemetry(c, s1, i.now, i.telemetry).nav == s1.nav;
    assert Recalculate(c, PollTelemetry(c, s1, i.now, i.telemetry)).nav == s1.nav;
  }

  /** The bands, over every run: a tick with a mission and a position ends in EMERGENCY
      exactly when the distance to the last step exceeds the distance limit in force or
      the height deviation exceeds its own, and in NORMAL exactly when both are within
      half of their own limit; an entry into EMERGENCY is reported with these distances. */
  lemma BandsMean(c: Config, maxDistance: real, maxDeviation: real, h: seq<Input>, i: Input)
    requires maxDistance > 0.0 && maxDeviation > 0.0 && i.DoTick?
    requires var s' := LimiterSpec.Step(c, After(c, Initial(maxDistance, maxDeviation), h), i); s'.mission.Some? && s'.nav.Some?
    ensures var s := After(c, Initial(maxDistance, maxDeviation), h);
      var s' := LimiterSpec.Step(c, s, i);
      && s'.mission.value.steps != []
      && exists d, v :: Off(c, s'.nav.value, s'.mission.value.steps[|s'.mission.value.steps| - 1], d, v)
           && InZone(s'.zone, d, v, DistanceLimit(maxDistance, h), DeviationLimit(maxDeviation, h))
           && (s'.zone.EmergencyZone? && !s.zone.EmergencyZone? ==>
                 s'.trace != [] && s'.trace[|s'.trace| - 1] == GeofenceAlarm(d, v))
  {
    var s := After(c, Initial(maxDistance, maxDeviation), h);
    var s1 := BeforeRecalculation(c, s, i);
    GuardedOverRuns(c, maxDistance, maxDeviation, h);
    LimitsInForce(c, maxDistance, maxDeviation, h);
    TickPolls(c, s, i);
    PollingKeeps(c, s, i);
    var steps := s.mission.value.steps;
    var d, v := OffLast(c, s1.nav.value, s.mission.value);
    RecalculateMeans(c, s1, d, v, steps[|steps| - 1]);
  }

  lemma OffLast(c: Config, n: Nav, m: Mission) returns (d: real, v: real)
    requires InBounds(m, c.maxMissionAlt)
    ensures Off(c, n, m.steps[|m.steps| - 1], d, v)
  {
    var w := m.steps[|m.steps| - 1];
    assert StepInBounds(w, c.maxMissionAlt);
    d, v := c.distance(n.lat, n.lon, w.lat.value, w.lon.value), Abs(n.alt - w.alt.value);
  }

  lemma PollingKeeps(c: Config, s: State, i: Input)
    requires i.DoTick?
    ensures SameGuard(s, BeforeRecalculation(c, s, i)) && BeforeRecalculation(c, s, i).zone == s.zone
  {
    var s1 := PollNavigation(c, s, i.now, i.navReply);
    TelemetryGuarded(c, s1.(lastTelemetry := i.now), i.telemetry);
    PollingIsSilent(c, s, i.now, i.navReply, i.telemetry);
  }

  /** Each distance counts against its own limit: scaling the two together, by any factor,
      leaves the zone as it is. */
  lemma ZoneScales(d: real, v: real, maxD: real, maxV: real, k: real)
    requires k > 0.0 && maxD > 0.0 && maxV > 0.0
    ensures Classify(k * d, v, k * maxD, maxV) == Classify(d, v, maxD, maxV)
    ensures Classify(d, k * v, maxD, k * maxV) == Classify(d, v, maxD, maxV)
  {
    Scales(d, maxD, k);
    Scales(v, maxV, k);
    Scales(d, 0.5 * maxD, k);
    Scales(v, 0.5 * maxV, k);
    assert 0.5 * (k * maxD) == k * (0.5 * maxD) && 0.5 * (k * maxV) == k * (0.5 * maxV);
  }

  lemma Scales(x: real, y: real, k: real)
    requires k > 0.0
    ensures k * x > k * y <==> x > y
  {
    if x > y {
      assert k * (x - y) > 0.0;
    } else {
      assert k * (y - x) >= 0.0;
    }
  }
}
