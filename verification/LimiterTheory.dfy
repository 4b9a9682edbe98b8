/** What every run of the limiter keeps. */
module LimiterTheory {
  import opened Common
  import opened Interval
  import opened Missions
  import opened LimiterSpec

  // ---- the handshake over whole runs ------------------------------------------------

  predicate Answered(e: Event, verb: Verb, mission: string, answer: Answer) {
    e.Call? && e.verb == verb && e.mission == mission && e.answer == answer
  }

  predicate IsLoad(e: Event) {
    e.LoadAccepted? || e.LoadRefused?
  }

  /** Events that end a takeoff clearance. */
  predicate EndsClearance(e: Event) {
    || e.LoadAccepted? || e.TakeoffRevoked?
    || (e.Call? && e.verb == CompleteMission && e.answer == CompletedMission)
  }

  predicate GrantsTakeoff(e: Event) {
    e.Call? && e.verb == RequestTakeoff && e.answer == GrantedTakeoff
  }

  /** Where the four marks of a completed handshake stand on a trace. */
  datatype Marks = Marks(reg: nat, load: nat, mis: nat, auth: nat)

  ghost predicate ShookAt(trace: seq<Event>, m: Mission, w: Marks) {
    && w.load < w.mis < w.auth < |trace| && w.reg < w.mis
    && Answered(trace[w.reg], RegisterDrone, "", Registered)
    && trace[w.load] == LoadAccepted(m.id)
    && (forall k :: w.load < k < |trace| ==> !IsLoad(trace[k]))
    && trace[w.mis] == Call(RegisterMission, m.id, Route(m.steps), RegisteredMission)
    && Answered(trace[w.auth], AuthorizeMission, m.id, AuthorizedMission)
  }

  /** The trace holds, in this order: a successful drone registration, and after
      the latest load, which was of mission `m`, the registration of its very route
      and its authorization. */
  ghost predicate Shook(trace: seq<Event>, m: Mission) {
    exists w :: ShookAt(trace, m, w)
  }

  ghost predicate GrantAt(trace: seq<Event>, t: nat) {
    t < |trace| && GrantsTakeoff(trace[t]) && forall k :: t < k < |trace| ==> !EndsClearance(trace[k])
  }

  /** A takeoff grant newer than anything that ends a clearance. */
  ghost predicate FreshGrant(trace: seq<Event>) {
    exists t: nat :: GrantAt(trace, t)
  }

  function Registrations(trace: seq<Event>): nat {
    if trace == [] then 0
    else
      Registrations(trace[..|trace| - 1])
      + (if Answered(trace[|trace| - 1], RegisterDrone, "", Registered) then 1 else 0)
  }

  /** The drone is registered exactly when the trace holds one successful registration. */
  predicate RegisteredOnce(s: State) {
    Registrations(s.trace) == if s.droneRegistered then 1 else 0
  }

  ghost predicate HasRegistration(trace: seq<Event>) {
    exists reg :: 0 <= reg < |trace| && Answered(trace[reg], RegisterDrone, "", Registered)
  }

  /** The facts about a connected limiter that every step keeps. */
  ghost predicate Sound(c: Config, s: State) {
    && (s.status.Authorized? ==>
          && s.mission.Some? && s.mission.value.id == s.missionId
          && InBounds(s.mission.value, c.maxMissionAlt)
          && Shook(s.trace, s.mission.value))
    && RegisteredOnce(s)
    && (s.droneRegistered ==> HasRegistration(s.trace))
    && (s.takeoff <==> FreshGrant(s.trace))
    && (s.takeoff ==> s.phase.TakeoffAuthorized? && s.mission.Some?)
  }

  /** An event that neither loads, registers nor touches a clearance. */
  predicate Quiet(e: Event) {
    && !IsLoad(e) && !EndsClearance(e) && !GrantsTakeoff(e)
    && !(e.Call? && e.verb == RegisterDrone)
  }

  lemma ShookExtends(trace: seq<Event>, e: Event, m: Mission)
    requires Shook(trace, m) && !IsLoad(e)
    ensures Shook(trace + [e], m)
  {
    var w :| ShookAt(trace, m, w);
    assert ShookAt(trace + [e], m, w);
  }

  lemma GrantExtends(trace: seq<Event>, e: Event)
    ensures EndsClearance(e) ==> !FreshGrant(trace + [e])
    ensures GrantsTakeoff(e) ==> FreshGrant(trace + [e])
    ensures !EndsClearance(e) && !GrantsTakeoff(e) ==> (FreshGrant(trace + [e]) <==> FreshGrant(trace))
  {
    var t := trace + [e];
    assert t[|trace|] == e;
    if GrantsTakeoff(e) {
      assert GrantAt(t, |trace|);
    } else if FreshGrant(t) {
      var g: nat :| GrantAt(t, g);
      assert t[g] == trace[g];
      assert forall k :: g < k < |trace| ==> t[k] == trace[k];
      assert GrantAt(trace, g);
    }
    if FreshGrant(trace) && !EndsClearance(e) {
      var g: nat :| GrantAt(trace, g);
      assert GrantAt(t, g);
    }
  }

  lemma LogFacts(s: State, e: Event)
    ensures Registrations(Log(s, e).trace)
         == Registrations(s.trace) + if Answered(e, RegisterDrone, "", Registered) then 1 else 0
    ensures HasRegistration(s.trace) ==> HasRegistration(Log(s, e).trace)
    ensures Answered(e, RegisterDrone, "", Registered) ==> HasRegistration(Log(s, e).trace)
  {
    RegistrationsLog(s.trace, e);
    HasRegistrationLog(s.trace, e);
  }

  lemma RegistrationsLog(t: seq<Event>, e: Event)
    ensures Registrations(t + [e]) == Registrations(t) + if Answered(e, RegisterDrone, "", Registered) then 1 else 0
  {
    var u := t + [e];
    assert u[..|u| - 1] == t && u[|u| - 1] == e;
  }

  lemma HasRegistrationLog(t: seq<Event>, e: Event)
    ensures HasRegistration(t) || Answered(e, RegisterDrone, "", Registered) ==> HasRegistration(t + [e])
  {
    if HasRegistration(t) {
      var reg :| 0 <= reg < |t| && Answered(t[reg], RegisterDrone, "", Registered);
      assert (t + [e])[reg] == t[reg];
    } else if Answered(e, RegisterDrone, "", Registered) {
      assert (t + [e])[|t|] == e;
    }
  }

  lemma QuietKeepsSound(c: Config, s: State, e: Event)
    requires Sound(c, s) && Quiet(e)
    ensures Sound(c, Log(s, e))
  {
    LogFacts(s, e);
    GrantExtends(s.trace, e);
    if s.status.Authorized? {
      ShookExtends(s.trace, e, s.mission.value);
    }
  }

  /** The state in the middle of a load: the handshake has not finished yet. */
  ghost predicate Loading(c: Config, s: State) {
    && s.status.Pending? && RegisteredOnce(s) && (s.droneRegistered ==> HasRegistration(s.trace))
    && !s.takeoff && !FreshGrant(s.trace)
  }

  lemma LoadingLogs(c: Config, s: State, e: Event)
    requires Loading(c, s) && !GrantsTakeoff(e) && !(e.Call? && e.verb == RegisterDrone)
    ensures Loading(c, Log(s, e))
  {
    LogFacts(s, e);
    GrantExtends(s.trace, e);
  }

  /** A load keeps the facts, and ends authorized only after the full handshake. */
  lemma LoadSound(c: Config, s: State, m: Mission, a: LoadAnswers)
    requires c.enabled && !c.mock && Sound(c, s)
    ensures Sound(c, Load(c, s, m, a))
  {
    if !InBounds(m, c.maxMissionAlt) {
      var e := LoadRefused(m.id);
      LogFacts(s, e);
      GrantExtends(s.trace, e);
    } else {
      var s1 := Log(s, LoadAccepted(m.id))
                  .(status := Pending, missionId := m.id, phase := PhasePending, takeoff := false);
      LogFacts(s, LoadAccepted(m.id));
      GrantExtends(s.trace, LoadAccepted(m.id));
      var s2 := RegisterStep(s1, a);
      if !s1.droneRegistered {
        LogFacts(s1, Call(RegisterDrone, "", [], a.drone));
        GrantExtends(s1.trace, Call(RegisterDrone, "", [], a.drone));
      }
      assert Loading(c, s2);
      if s2.droneRegistered {
        var s3 := MissionStep(s2, m, a);
        LoadingLogs(c, s2, Call(RegisterMission, m.id, Route(m.steps), a.mission));
        if a.mission == RegisteredMission {
          var s4 := AuthorizeStep(s3, m, a);
          LoadingLogs(c, s3, Call(AuthorizeMission, m.id, [], a.authorize));
          if a.authorize == AuthorizedMission {
            LoadShakes(s.trace, m, a, s1.trace, s2.trace, s4.trace);
          }
        }
      }
    }
  }

  /** The trace of an authorized load read backwards. */
  lemma LoadShakes(before: seq<Event>, m: Mission, a: LoadAnswers,
                   t1: seq<Event>, t2: seq<Event>, t4: seq<Event>)
    requires t1 == before + [LoadAccepted(m.id)]
    requires t2 == t1 || t2 == t1 + [Call(RegisterDrone, "", [], a.drone)]
    requires HasRegistration(t2)
    requires t4 == t2 + [Call(RegisterMission, m.id, Route(m.steps), RegisteredMission)]
                      + [Call(AuthorizeMission, m.id, [], AuthorizedMission)]
    ensures Shook(t4, m)
  {
    var reg :| 0 <= reg < |t2| && Answered(t2[reg], RegisterDrone, "", Registered);
    assert t4[reg] == t2[reg];
    assert ShookAt(t4, m, Marks(reg, |before|, |t2|, |t2| + 1));
  }

  lemma TelemetrySound(c: Config, s: State, answer: Answer)
    requires Sound(c, s)
    ensures Sound(c, Telemetry(c, s, answer))
    ensures Telemetry(c, s, answer).takeoff == s.takeoff
  {
    var r := Telemetry(c, s, answer);
    var s1 := Log(s, Call(SendTelemetry, s.missionId, [], answer));
    if !c.enabled || c.mock || !s.takeoff || s.mission.None? {
      assert r == s;
    } else {
      QuietKeepsSound(c, s, Call(SendTelemetry, s.missionId, [], answer));
      if answer.LandNow? {
        var s2 := Log(s1, Call(ReportIncident, s.missionId, [], NoAnswer));
        QuietKeepsSound(c, s1, Call(ReportIncident, s.missionId, [], NoAnswer));
        QuietKeepsSound(c, s2, OrvdAlarm(answer.reason));
        assert r == Log(s2, OrvdAlarm(answer.reason));
      } else {
        assert r == s1;
      }
    }
  }

  lemma GrantSound(c: Config, s: State, mid: string)
    requires Sound(c, s) && s.status.Authorized?
    ensures Sound(c, Log(s, Call(RequestTakeoff, mid, [], GrantedTakeoff)).(takeoff := true, phase := TakeoffAuthorized))
  {
    var e := Call(RequestTakeoff, mid, [], GrantedTakeoff);
    LogFacts(s, e);
    GrantExtends(s.trace, e);
    ShookExtends(s.trace, e, s.mission.value);
  }

  lemma TakeoffSound(c: Config, s: State, mid: string, answer: Answer, telemetry: Answer)
    requires c.enabled && !c.mock && Sound(c, s) && s.status.Authorized?
    ensures Sound(c, Takeoff(c, s, mid, answer, telemetry).0)
    ensures Takeoff(c, s, mid, answer, telemetry).1 ==> Takeoff(c, s, mid, answer, telemetry).0.takeoff
  {
    if !(s.takeoff && s.missionId == mid) {
      var e := Call(RequestTakeoff, mid, [], answer);
      var r := Takeoff(c, s, mid, answer, telemetry);
      if answer == GrantedTakeoff {
        var s2 := Log(s, e).(takeoff := true, phase := TakeoffAuthorized);
        assert r == (if s2.nav.Some? then Telemetry(c, s2, telemetry) else s2, true);
        GrantSound(c, s, mid);
        TelemetrySound(c, s2, telemetry);
      } else {
        assert r == (Log(s, e), false);
        QuietKeepsSound(c, s, e);
      }
    }
  }

  lemma CompleteSound(c: Config, s: State, mid: string, answer: Answer)
    requires c.enabled && !c.mock && Sound(c, s)
    ensures Sound(c, Complete(c, s, mid, answer))
  {
    var e := Call(CompleteMission, mid, [], answer);
    LogFacts(s, e);
    GrantExtends(s.trace, e);
    if s.status.Authorized? {
      ShookExtends(s.trace, e, s.mission.value);
    }
  }

  lemma RevokeSound(c: Config, s: State)
    requires Sound(c, s)
    ensures Sound(c, Revoke(s))
  {
    LogFacts(s, TakeoffRevoked);
    GrantExtends(s.trace, TakeoffRevoked);
    if s.status.Authorized? {
      ShookExtends(s.trace, TakeoffRevoked, s.mission.value);
    }
    QuietKeepsSound(c, Log(s, TakeoffRevoked).(takeoff := false), OrvdAlarm("takeoff_revoked"));
  }

  lemma RecalculateSound(c: Config, s: State)
    requires Sound(c, s)
    ensures Sound(c, Recalculate(c, s))
  {
    if Deviation(c, s).Some? {
      var (d, v) := Deviation(c, s).value;
      var zone := Classify(d, v, s.maxDistance, s.maxDeviation);
      if zone != s.zone && zone.EmergencyZone? {
        var s1 := s.(zone := zone);
        assert Sound(c, s1);
        var incident := Call(ReportIncident, s.missionId, [], NoAnswer);
        QuietKeepsSound(c, s1, incident);
        QuietKeepsSound(c, s1, GeofenceAlarm(d, v));
        QuietKeepsSound(c, Log(s1, incident), GeofenceAlarm(d, v));
      }
    }
  }

  lemma StepSound(c: Config, s: State, i: Input)
    requires c.enabled && !c.mock && Sound(c, s)
    ensures Sound(c, Step(c, s, i))
  {
    match i
    case DoLoad(m, a) =>
      LoadSound(c, s, m, a);
    case DoTakeoff(mid, now, nav, answer, telemetry) =>
      if NamedMission(s, mid) != "" && s.status.Authorized? {
        TakeoffSound(c, PollNavigation(c, s, now, nav), NamedMission(s, mid), answer, telemetry);
      }
    case DoComplete(mid, answer) =>
      CompleteSound(c, s, NamedMission(s, mid), answer);
    case DoRevoke =>
      RevokeSound(c, s);
    case DoConfig(top, constraints) =>
    case DoTick(now, nav, telemetry) =>
      var s1 := PollNavigation(c, s, now, nav);
      if !(!c.enabled || !Due(s1.lastTelemetry, now, c.telemetryInterval)) {
        TelemetrySound(c, s1.(lastTelemetry := now), telemetry);
      }
      RecalculateSound(c, PollTelemetry(c, s1, now, telemetry));
  }

  /** The handshake over whole runs of a connected, unmocked limiter: AUTHORIZED
      means the stored mission is the recorded one, in bounds, and its handshake is
      on the trace after the latest load; the drone is registered at most once; the
      takeoff flag is up exactly while a grant is newer than the last in-bounds
      load, revocation or completion, and then the phase agrees and a mission is held. */
  lemma {:induction false} HandshakeOverRuns(c: Config, maxDistance: real, maxDeviation: real, h: seq<Input>)
    requires c.enabled && !c.mock
    ensures Sound(c, After(c, Initial(maxDistance, maxDeviation), h))
    decreases |h|
  {
    if h != [] {
      HandshakeOverRuns(c, maxDistance, maxDeviation, h[..|h| - 1]);
      StepSound(c, After(c, Initial(maxDistance, maxDeviation), h[..|h| - 1]), h[|h| - 1]);
    }
  }

  /** So AUTHORIZED means that the air traffic system accepted the whole route of the
      stored mission: every step, in order, none missing. */
  lemma AuthorizedRouteIsWhole(c: Config, maxDistance: real, maxDeviation: real, h: seq<Input>)
    requires c.enabled && !c.mock && After(c, Initial(maxDistance, maxDeviation), h).status.Authorized?
    ensures var s := After(c, Initial(maxDistance, maxDeviation), h);
      && s.mission.Some?
      && var steps := s.mission.value.steps;
         exists e :: e in s.trace && e.Call? && e.verb == RegisterMission && e.mission == s.missionId
           && e.answer == RegisteredMission && |e.route| == |steps|
           && forall i :: 0 <= i < |steps| ==>
                steps[i].Waypoint? && e.route[i] == (Float(steps[i].lat), Float(steps[i].lon))
  {
    HandshakeOverRuns(c, maxDistance, maxDeviation, h);
    var s := After(c, Initial(maxDistance, maxDeviation), h);
    var m := s.mission.value;
    RouteIsComplete(m, c.maxMissionAlt);
    var w :| ShookAt(s.trace, m, w);
    assert s.trace[w.mis] in s.trace;
  }

  // ---- whose takeoff was granted ---------------------------------------------------------

  ghost predicate OwnGrantAt(s: State, t: nat) {
    GrantAt(s.trace, t) && s.mission.Some? && s.trace[t].mission == s.mission.value.id
  }

  /** The clearance in force was granted for the stored mission, whatever the status:
      a refused load leaves both as they were. */
  ghost predicate OwnGrant(s: State) {
    s.takeoff ==> exists t: nat :: OwnGrantAt(s, t)
  }

  /** The request names the recorded mission, or none, or cannot raise the flag:
      the mission is not authorized, or the flag is already up. */
  predicate SafeRequest(s: State, mid: string) {
    s.status.Authorized? && !s.takeoff ==> mid == "" || mid == s.missionId
  }

  predicate SafeInput(s: State, i: Input) {
    i.DoTakeoff? ==> SafeRequest(s, i.mid)
  }

  predicate AllSafe(c: Config, s: State, h: seq<Input>)
    decreases |h|
  {
    h == [] || (AllSafe(c, s, h[..|h| - 1]) && SafeInput(After(c, s, h[..|h| - 1]), h[|h| - 1]))
  }

  lemma OwnGrantLogs(s: State, e: Event)
    requires OwnGrant(s) && !EndsClearance(e)
    ensures OwnGrant(Log(s, e))
  {
    if s.takeoff {
      var t: nat :| OwnGrantAt(s, t);
      assert OwnGrantAt(Log(s, e), t);
    }
  }

  lemma OwnGrantTelemetry(c: Config, s: State, answer: Answer)
    requires OwnGrant(s)
    ensures OwnGrant(Telemetry(c, s, answer))
  {
    var s1 := Log(s, Call(SendTelemetry, s.missionId, [], answer));
    OwnGrantLogs(s, Call(SendTelemetry, s.missionId, [], answer));
    if answer.LandNow? {
      OwnGrantLogs(s1, Call(ReportIncident, s.missionId, [], NoAnswer));
      OwnGrantLogs(Log(s1, Call(ReportIncident, s.missionId, [], NoAnswer)), OrvdAlarm(answer.reason));
    }
  }

  lemma OwnGrantTakeoff(c: Config, s: State, mid: string, answer: Answer, telemetry: Answer)
    requires c.enabled && !c.mock && OwnGrant(s) && s.mission.Some? && (!s.takeoff ==> mid == s.mission.value.id)
    ensures OwnGrant(Takeoff(c, s, mid, answer, telemetry).0)
  {
    var e := Call(RequestTakeoff, mid, [], answer);
    OwnGrantLogs(s, e);
    if answer == GrantedTakeoff {
      var s2 := Log(s, e).(takeoff := true, phase := TakeoffAuthorized);
      assert OwnGrant(s2) by {
        if s.takeoff {
          OwnGrantSame(Log(s, e), s2);
        } else {
          assert OwnGrantAt(s2, |s.trace|);
        }
      }
      OwnGrantTelemetry(c, s2, telemetry);
    }
  }

  lemma OwnGrantRecalculates(c: Config, s: State)
    requires OwnGrant(s)
    ensures OwnGrant(Recalculate(c, s))
  {
    if Deviation(c, s).Some? {
      var (d, v) := Deviation(c, s).value;
      var s1 := s.(zone := Classify(d, v, s.maxDistance, s.maxDeviation));
      assert OwnGrant(s1) by {
        OwnGrantSame(s, s1);
      }
      var incident := Call(ReportIncident, s.missionId, [], NoAnswer);
      OwnGrantLogs(s1, incident);
      OwnGrantLogs(s1, GeofenceAlarm(d, v));
      OwnGrantLogs(Log(s1, incident), GeofenceAlarm(d, v));
    }
  }

  /** Moving only fields that the clearance does not depend on. */
  lemma OwnGrantSame(s: State, s': State)
    requires OwnGrant(s) && s'.trace == s.trace && s'.mission == s.mission && s'.takeoff == s.takeoff
    ensures OwnGrant(s')
  {
    if s.takeoff {
      var t: nat :| OwnGrantAt(s, t);
      assert OwnGrantAt(s', t);
    }
  }

  lemma OwnGrantStep(c: Config, s: State, i: Input)
    requires c.enabled && !c.mock && Sound(c, s) && OwnGrant(s) && SafeInput(s, i)
    ensures OwnGrant(LimiterSpec.Step(c, s, i))
  {
    match i
    case DoLoad(m, a) =>
      OwnGrantLoad(c, s, m, a);
    case DoTakeoff(mid, now, nav, answer, telemetry) =>
      if NamedMission(s, mid) != "" && s.status.Authorized? {
        OwnGrantSame(s, PollNavigation(c, s, now, nav));
        OwnGrantTakeoff(c, PollNavigation(c, s, now, nav), NamedMission(s, mid), answer, telemetry);
      }
    case DoComplete(mid, answer) =>
      if answer != CompletedMission {
        OwnGrantLogs(s, Call(CompleteMission, NamedMission(s, mid), [], answer));
      }
    case DoRevoke =>
    case DoConfig(top, constraints) =>
      OwnGrantSame(s, UpdateConfig(s, top, constraints));
    case DoTick(now, nav, telemetry) =>
      var s1 := PollNavigation(c, s, now, nav);
      OwnGrantSame(s, s1);
      OwnGrantSame(s1, s1.(lastTelemetry := now));
      OwnGrantTelemetry(c, s1.(lastTelemetry := now), telemetry);
      OwnGrantRecalculates(c, PollTelemetry(c, s1, now, telemetry));
  }

  /** A load in bounds lowers the flag; a refused one changes neither flag nor mission. */
  lemma OwnGrantLoad(c: Config, s: State, m: Mission, a: LoadAnswers)
    requires OwnGrant(s)
    ensures OwnGrant(Load(c, s, m, a))
  {
    if !InBounds(m, c.maxMissionAlt) {
      OwnGrantLogs(s, LoadRefused(m.id));
      OwnGrantSame(Log(s, LoadRefused(m.id)), Load(c, s, m, a));
    }
  }

  /** If every takeoff request is safe when it comes, a raised flag means that a grant
      for the stored mission is in force, also while a later load stands refused. */
  lemma {:induction false} ClearanceIsForTheMission(c: Config, maxDistance: real, maxDeviation: real, h: seq<Input>)
    requires c.enabled && !c.mock && AllSafe(c, Initial(maxDistance, maxDeviation), h)
    ensures OwnGrant(After(c, Initial(maxDistance, maxDeviation), h))
    decreases |h|
  {
    if h != [] {
      ClearanceIsForTheMission(c, maxDistance, maxDeviation, h[..|h| - 1]);
      HandshakeOverRuns(c, maxDistance, maxDeviation, h[..|h| - 1]);
      OwnGrantStep(c, After(c, Initial(maxDistance, maxDeviation), h[..|h| - 1]), h[|h| - 1]);
    }
  }

  /** The trace grew by events that grant nothing. */
  ghost predicate GrewWithoutGrant(t: seq<Event>, t': seq<Event>) {
    && |t| <= |t'| && t'[..|t|] == t
    && forall k :: |t| <= k < |t'| ==> !GrantsTakeoff(t'[k])
  }

  lemma TelemetryGrantsNothing(c: Config, s: State, answer: Answer)
    ensures GrewWithoutGrant(s.trace, Telemetry(c, s, answer).trace)
  {
  }

  /** After a grant for another mission and no grant since, a grant for this mission
      that is in force was in force before. */
  lemma ForeignGrantAddsNothing(t: seq<Event>, e: Event, t': seq<Event>, k: nat, id: string)
    requires e.Call? && e.mission != id && GrewWithoutGrant(t + [e], t')
    requires GrantAt(t', k) && t'[k].mission == id
    ensures GrantAt(t, k)
  {
    assert t'[|t|] == t'[..|t| + 1][|t|] == e;
    assert k < |t|;
    assert forall i :: k <= i < |t| ==> t'[i] == t'[..|t| + 1][i] == t[i];
  }

  /** An unsafe request, once granted, raises the flag while no grant for the
      recorded mission is in force, whatever the position and the telemetry reply. */
  lemma ForeignGrantRaisesTheFlag(c: Config, s: State, mid: string, now: real, nav: Option<Nav>, telemetry: Answer)
    requires c.enabled && !c.mock && Sound(c, s) && !SafeRequest(s, mid)
    ensures var s' := LimiterSpec.Step(c, s, DoTakeoff(mid, now, nav, GrantedTakeoff, telemetry));
      s'.takeoff && s'.status.Authorized? && !OwnGrant(s')
  {
    var s1 := PollNavigation(c, s, now, nav);
    var e := Call(RequestTakeoff, mid, [], GrantedTakeoff);
    var s2 := Log(s1, e).(takeoff := true, phase := TakeoffAuthorized);
    var s' := LimiterSpec.Step(c, s, DoTakeoff(mid, now, nav, GrantedTakeoff, telemetry));
    assert s' == if s2.nav.Some? then Telemetry(c, s2, telemetry) else s2;
    TelemetryGrantsNothing(c, s2, telemetry);
    if OwnGrant(s') {
      var t: nat :| OwnGrantAt(s', t);
      ForeignGrantAddsNothing(s.trace, e, s'.trace, t, s.missionId);
      assert false;
    }
  }

  /** The exact condition, in any state a run of safe requests leads to: a takeoff
      request leaves the clearance with the recorded mission under every reading of
      the clock, every position and every answer if and only if it is safe. */
  lemma SafeRequestsExactly(c: Config, maxDistance: real, maxDeviation: real, h: seq<Input>, mid: string)
    requires c.enabled && !c.mock && AllSafe(c, Initial(maxDistance, maxDeviation), h)
    ensures var s := After(c, Initial(maxDistance, maxDeviation), h);
      SafeRequest(s, mid) <==>
        forall now, nav, answer, telemetry ::
          OwnGrant(LimiterSpec.Step(c, s, DoTakeoff(mid, now, nav, answer, telemetry)))
  {
    var s := After(c, Initial(maxDistance, maxDeviation), h);
    HandshakeOverRuns(c, maxDistance, maxDeviation, h);
    ClearanceIsForTheMission(c, maxDistance, maxDeviation, h);
    RequestIsSafeExactly(c, s, mid);
  }

  /** The same for every state that satisfies the facts, reachable or not. */
  lemma RequestIsSafeExactly(c: Config, s: State, mid: string)
    requires c.enabled && !c.mock && Sound(c, s) && OwnGrant(s)
    ensures SafeRequest(s, mid) <==>
      forall now, nav, answer, telemetry ::
        OwnGrant(LimiterSpec.Step(c, s, DoTakeoff(mid, now, nav, answer, telemetry)))
  {
    if SafeRequest(s, mid) {
      forall now, nav, answer, telemetry
        ensures OwnGrant(LimiterSpec.Step(c, s, DoTakeoff(mid, now, nav, answer, telemetry)))
      {
        OwnGrantStep(c, s, DoTakeoff(mid, now, nav, answer, telemetry));
      }
    } else {
      ForeignGrantRaisesTheFlag(c, s, mid, 0.0, None, NoAnswer);
      assert !OwnGrant(LimiterSpec.Step(c, s, DoTakeoff(mid, 0.0, None, GrantedTakeoff, NoAnswer)));
    }
  }

  // ---- what the handlers answer --------------------------------------------------------------

  /** The mission a request is about: the one it names, or the recorded one. */
  predicate IsAbout(s: State, mid: string, named: string) {
    named == if mid == "" then s.missionId else mid
  }

  /** A takeoff request is answered positively exactly for an authorized mission, when
      there is nobody to ask, or the flag is already up for it, or a grant came; only in
      the last case, or for a refusal, is the air traffic system asked, once. */
  lemma TakeoffAnswers(c: Config, s: State, mid: string, named: string, now: real, nav: Option<Nav>, answer: Answer, telemetry: Answer)
    requires IsAbout(s, mid, named)
    ensures var (s', ok) := HandleTakeoff(c, s, mid, now, nav, answer, telemetry);
      var known := !c.enabled || c.mock || (s.takeoff && s.missionId == named);
      && (ok <==> named != "" && s.status == Authorized && (known || answer == GrantedTakeoff))
      && (named == "" || s.status != Authorized || known ==> s'.trace == s.trace)
      && (named != "" && s.status == Authorized && !known ==>
            |s.trace| < |s'.trace| && s'.trace[|s.trace|] == Call(RequestTakeoff, named, [], answer))
  {
    if named != "" && s.status == Authorized {
      RequestAnswers(c, PollNavigation(c, s, now, nav), named, answer, telemetry);
    }
  }

  lemma RequestAnswers(c: Config, s: State, named: string, answer: Answer, telemetry: Answer)
    ensures var (s', ok) := Takeoff(c, s, named, answer, telemetry);
      var known := !c.enabled || c.mock || (s.takeoff && s.missionId == named);
      && (ok <==> known || answer == GrantedTakeoff)
      && (known ==> s'.trace == s.trace)
      && (!known ==> |s.trace| < |s'.trace| && s'.trace[|s.trace|] == Call(RequestTakeoff, named, [], answer))
  {
    var e := Call(RequestTakeoff, named, [], answer);
    var s2 := Log(s, e).(takeoff := true, phase := TakeoffAuthorized);
    TelemetryGrantsNothing(c, s2, telemetry);
    StaysAt(s.trace, e, Telemetry(c, s2, telemetry).trace);
  }

  lemma StaysAt(t: seq<Event>, e: Event, t': seq<Event>)
    requires GrewWithoutGrant(t + [e], t')
    ensures |t| < |t'| && t'[|t|] == e
  {
    assert t'[|t|] == t'[..|t| + 1][|t|];
  }

  /** A completion is asked for by name, and ends the clearance when it is confirmed, or
      when there is nobody to ask. */
  lemma CompletionMeans(c: Config, s: State, mid: string, named: string, answer: Answer)
    requires IsAbout(s, mid, named)
    ensures var s' := HandleComplete(c, s, mid, answer);
      var asks := c.enabled && !c.mock;
      if named == "" then s' == s
      else
        && s'.trace == (if asks then s.trace + [Call(CompleteMission, named, [], answer)] else s.trace)
        && s'.takeoff == (s.takeoff && asks && answer != CompletedMission)
        && s'.phase == (if asks && answer != CompletedMission then s.phase else Completed)
        && s'.status == s.status && s'.mission == s.mission && s'.missionId == s.missionId
  {
  }

  /** A load: out of bounds it only records the refusal; in bounds it lowers the flag and
      ends AUTHORIZED, with the mission stored, exactly when there is nobody to ask or
      the drone is registered and all three answers are the right ones. */
  lemma LoadMeans(c: Config, s: State, m: Mission, a: LoadAnswers)
    ensures var s' := Load(c, s, m, a);
      var agreed := !c.enabled || c.mock
        || ((s.droneRegistered || a.drone == Registered) && a.mission == RegisteredMission && a.authorize == AuthorizedMission);
      && s'.missionId == m.id
      && (!InBounds(m, c.maxMissionAlt) ==>
            s' == s.(status := OutOfBounds, missionId := m.id, trace := s.trace + [LoadRefused(m.id)]))
      && (InBounds(m, c.maxMissionAlt) ==>
            && !s'.takeoff && s'.status == (if agreed then Authorized else Denied)
            && s'.mission == (if agreed then Some(m) else s.mission)
            && s'.phase == if agreed then PhaseAuthorized else PhaseDenied)
  {
    if InBounds(m, c.maxMissionAlt) {
      var s1 := Log(s, LoadAccepted(m.id)).(status := Pending, missionId := m.id, phase := PhasePending, takeoff := false);
      HandshakeMeans(c, s1, m, a);
    }
  }

  lemma HandshakeMeans(c: Config, s: State, m: Mission, a: LoadAnswers)
    ensures var (s', status) := Handshake(c, s, m, a);
      var agreed := !c.enabled || c.mock
        || ((s.droneRegistered || a.drone == Registered) && a.mission == RegisteredMission && a.authorize == AuthorizedMission);
      && !s'.takeoff && status == (if agreed then Authorized else Denied) && s'.mission == s.mission
      && s'.phase == if agreed then PhaseAuthorized else PhaseDenied
  {
    if c.enabled && !c.mock {
      var s1 := RegisterStep(s.(takeoff := false), a);
      assert s1.droneRegistered <==> s.droneRegistered || a.drone == Registered;
    }
  }
}
