/** How often a limiter may call the air traffic system with telemetry. */
module TelemetryTheory {
  import opened Common
  import opened Interval
  import opened Missions
  import opened LimiterSpec
  import opened LimiterTheory

  // ---- polls -----------------------------------------------------------------------------------

  /** The times of the control ticks of a history. */
  function TickTimes(h: seq<Input>): seq<real> {
    if h == [] then []
    else TickTimes(h[..|h| - 1]) + (if h[|h| - 1].DoTick? then [h[|h| - 1].now] else [])
  }

  /** The input is a tick that polls the air traffic system. */
  predicate Polls(c: Config, s: State, i: Input) {
    i.DoTick? && c.enabled && Due(s.lastTelemetry, i.now, c.telemetryInterval)
  }

  /** The times of the ticks that polled the air traffic system. */
  function TelemetryPolls(c: Config, s: State, h: seq<Input>): seq<real>
    decreases |h|
  {
    if h == [] then []
    else
      var before, i := After(c, s, h[..|h| - 1]), h[|h| - 1];
      TelemetryPolls(c, s, h[..|h| - 1])
      + (if Polls(c, before, i) then [i.now] else [])
  }

  lemma StampStep(c: Config, s: State, i: Input)
    ensures LimiterSpec.Step(c, s, i).lastTelemetry ==
      if i.DoTick? && c.enabled then Stamped(s.lastTelemetry, i.now, c.telemetryInterval) else s.lastTelemetry
  {
    match i
    case DoLoad(m, a) =>
    case DoTakeoff(mid, now, nav, answer, telemetry) =>
      var s1 := PollNavigation(c, s, now, nav);
      assert Takeoff(c, s1, NamedMission(s, mid), answer, telemetry).0.lastTelemetry == s1.lastTelemetry;
    case DoComplete(_, _) =>
    case DoRevoke =>
    case DoConfig(_, _) =>
    case DoTick(now, nav, telemetry) =>
      var s1 := PollNavigation(c, s, now, nav);
      assert Recalculate(c, PollTelemetry(c, s1, now, telemetry)).lastTelemetry
          == PollTelemetry(c, s1, now, telemetry).lastTelemetry;
  }

  /** The polls of a run are what the interval gate lets through of its ticks, so
      the rate bound of the gate is a rate bound on telemetry. */
  lemma {:induction false} TelemetryIsGated(c: Config, s: State, h: seq<Input>)
    requires c.enabled
    ensures TelemetryPolls(c, s, h) == Accepted(s.lastTelemetry, TickTimes(h), c.telemetryInterval)
    ensures After(c, s, h).lastTelemetry == Latest(s.lastTelemetry, TelemetryPolls(c, s, h))
    decreases |h|
  {
    if h != [] {
      TelemetryIsGated(c, s, h[..|h| - 1]);
      StampStep(c, After(c, s, h[..|h| - 1]), h[|h| - 1]);
      if h[|h| - 1].DoTick? {
        var times := TickTimes(h[..|h| - 1]);
        assert TickTimes(h)[..|times|] == times;
      } else {
        assert TickTimes(h) == TickTimes(h[..|h| - 1]);
      }
    }
  }

  /** At most floor(w / interval) + 1 telemetry polls fall into any window of length w. */
  lemma PollRate(c: Config, s: State, h: seq<Input>, start: real, w: real, i: nat, j: nat)
    requires c.enabled && c.telemetryInterval > 0.0 && i <= j < |TelemetryPolls(c, s, h)|
    requires start <= TelemetryPolls(c, s, h)[i] && TelemetryPolls(c, s, h)[j] <= start + w
    ensures j - i + 1 <= (w / c.telemetryInterval).Floor + 1
  {
    TelemetryIsGated(c, s, h);
    RateBound(s.lastTelemetry, TickTimes(h), c.telemetryInterval, start, w, i, j);
  }

  // ---- telemetry calls on the trace ------------------------------------------------------------

  predicate IsTelemetry(e: Event) {
    e.Call? && e.verb == SendTelemetry
  }

  function TelemetryAt(trace: seq<Event>): set<int> {
    set i | 0 <= i < |trace| && IsTelemetry(trace[i])
  }

  function GrantsAt(trace: seq<Event>): set<int> {
    set i | 0 <= i < |trace| && GrantsTakeoff(trace[i])
  }

  /** Telemetry calls made and takeoffs granted so far. */
  function TelemetryCalls(trace: seq<Event>): nat {
    |TelemetryAt(trace)|
  }

  function Grants(trace: seq<Event>): nat {
    |GrantsAt(trace)|
  }

  lemma CallsLog(t: seq<Event>, e: Event)
    ensures TelemetryCalls(t + [e]) == TelemetryCalls(t) + if IsTelemetry(e) then 1 else 0
  {
    assert TelemetryAt(t + [e]) == TelemetryAt(t) + if IsTelemetry(e) then {|t|} else {};
  }

  lemma GrantsLog(t: seq<Event>, e: Event)
    ensures Grants(t + [e]) == Grants(t) + if GrantsTakeoff(e) then 1 else 0
  {
    assert GrantsAt(t + [e]) == GrantsAt(t) + if GrantsTakeoff(e) then {|t|} else {};
  }

  lemma CountsLog(s: State, e: Event)
    ensures TelemetryCalls(Log(s, e).trace) == TelemetryCalls(s.trace) + if IsTelemetry(e) then 1 else 0
    ensures Grants(Log(s, e).trace) == Grants(s.trace) + if GrantsTakeoff(e) then 1 else 0
  {
    CallsLog(s.trace, e);
    GrantsLog(s.trace, e);
  }

  /** The calls grew by no more than `n` and the grants that came with them. */
  predicate CallsWithin(s: State, s': State, n: nat) {
    TelemetryCalls(s'.trace) + Grants(s.trace) <= TelemetryCalls(s.trace) + Grants(s'.trace) + n
  }

  lemma TelemetryAddsOne(c: Config, s: State, answer: Answer)
    ensures CallsWithin(s, Telemetry(c, s, answer), 1)
  {
    var e := Call(SendTelemetry, s.missionId, [], answer);
    var incident := Call(ReportIncident, s.missionId, [], NoAnswer);
    CountsLog(s, e);
    CountsLog(Log(s, e), incident);
    if answer.LandNow? {
      CountsLog(Log(Log(s, e), incident), OrvdAlarm(answer.reason));
    }
  }

  lemma LoadAddsNone(c: Config, s: State, m: Mission, a: LoadAnswers)
    ensures CallsWithin(s, Load(c, s, m, a), 0)
  {
    if !InBounds(m, c.maxMissionAlt) {
      CountsLog(s, LoadRefused(m.id));
    } else {
      var s1 := Log(s, LoadAccepted(m.id)).(status := Pending, missionId := m.id, phase := PhasePending, takeoff := false);
      CountsLog(s, LoadAccepted(m.id));
      HandshakeAddsNone(c, s1, m, a);
    }
  }

  lemma HandshakeAddsNone(c: Config, s: State, m: Mission, a: LoadAnswers)
    ensures CallsWithin(s, Handshake(c, s, m, a).0, 0)
  {
    if c.enabled && !c.mock {
      var s0 := s.(takeoff := false);
      CountsLog(s0, Call(RegisterDrone, "", [], a.drone));
      var s1 := RegisterStep(s0, a);
      CountsLog(s1, Call(RegisterMission, m.id, Route(m.steps), a.mission));
      var s2 := MissionStep(s1, m, a);
      CountsLog(s2, Call(AuthorizeMission, m.id, [], a.authorize));
      var s3 := AuthorizeStep(s2, m, a);
      assert CallsWithin(s, s1, 0) && CallsWithin(s, s2, 0) && CallsWithin(s, s3, 0);
      assert Handshake(c, s, m, a).0 in {s1, s2, s3};
    }
  }

  lemma TakeoffAddsItsGrant(c: Config, s: State, mid: string, answer: Answer, telemetry: Answer)
    ensures CallsWithin(s, Takeoff(c, s, mid, answer, telemetry).0, 0)
  {
    var e := Call(RequestTakeoff, mid, [], answer);
    CountsLog(s, e);
    var s2 := Log(s, e).(takeoff := true, phase := TakeoffAuthorized);
    TelemetryAddsOne(c, s2, telemetry);
    assert Takeoff(c, s, mid, answer, telemetry).0 in
      {s, s.(takeoff := true, phase := TakeoffAuthorized), Log(s, e), s2, Telemetry(c, s2, telemetry)};
  }

  lemma RecalculateAddsNone(c: Config, s: State)
    ensures CallsWithin(s, Recalculate(c, s), 0)
  {
    if Deviation(c, s).Some? {
      var (d, v) := Deviation(c, s).value;
      var s1 := s.(zone := Classify(d, v, s.maxDistance, s.maxDeviation));
      var incident := Call(ReportIncident, s.missionId, [], NoAnswer);
      CountsLog(s1, incident);
      CountsLog(s1, GeofenceAlarm(d, v));
      CountsLog(Log(s1, incident), GeofenceAlarm(d, v));
    }
  }

  lemma TickAddsItsPoll(c: Config, s: State, i: Input)
    requires i.DoTick?
    ensures CallsWithin(s, LimiterSpec.Step(c, s, i), if Polls(c, s, i) then 1 else 0)
  {
    var s1 := PollNavigation(c, s, i.now, i.navReply);
    TelemetryAddsOne(c, s1.(lastTelemetry := i.now), i.telemetry);
    RecalculateAddsNone(c, PollTelemetry(c, s1, i.now, i.telemetry));
  }

  lemma StepAddsItsPoll(c: Config, s: State, i: Input)
    ensures CallsWithin(s, LimiterSpec.Step(c, s, i), if Polls(c, s, i) then 1 else 0)
  {
    match i
    case DoLoad(m, a) => LoadAddsNone(c, s, m, a);
    case DoTakeoff(mid, now, nav, answer, telemetry) =>
      TakeoffAddsItsGrant(c, PollNavigation(c, s, now, nav), NamedMission(s, mid), answer, telemetry);
    case DoComplete(mid, answer) => CountsLog(s, Call(CompleteMission, NamedMission(s, mid), [], answer));
    case DoRevoke =>
      CountsLog(s, TakeoffRevoked);
      CountsLog(Log(s, TakeoffRevoked), OrvdAlarm("takeoff_revoked"));
    case DoConfig(_, _) =>
    case DoTick(_, _, _) => TickAddsItsPoll(c, s, i);
  }

  /** Every telemetry call of a run belongs to a poll or to a granted takeoff. */
  lemma {:induction false} CallsAreWithinPolls(c: Config, s: State, h: seq<Input>)
    ensures CallsWithin(s, After(c, s, h), |TelemetryPolls(c, s, h)|)
    decreases |h|
  {
    if h != [] {
      CallsAreWithinPolls(c, s, h[..|h| - 1]);
      StepAddsItsPoll(c, After(c, s, h[..|h| - 1]), h[|h| - 1]);
    }
  }

  /** The ticks of a history fall into a window. */
  predicate TicksWithin(h: seq<Input>, start: real, w: real) {
    forall i :: 0 <= i < |h| && h[i].DoTick? ==> start <= h[i].now <= start + w
  }

  predicate AllWithin(ps: seq<real>, start: real, w: real) {
    forall k :: 0 <= k < |ps| ==> start <= ps[k] <= start + w
  }

  lemma WithinSnoc(ps: seq<real>, t: real, start: real, w: real)
    requires AllWithin(ps, start, w) && start <= t <= start + w
    ensures AllWithin(ps + [t], start, w)
  {
  }

  lemma {:induction false} PollsWithin(c: Config, s: State, h: seq<Input>, start: real, w: real)
    requires TicksWithin(h, start, w)
    ensures AllWithin(TelemetryPolls(c, s, h), start, w)
    decreases |h|
  {
    if h != [] {
      var before, last := TelemetryPolls(c, s, h[..|h| - 1]), h[|h| - 1];
      PollsWithin(c, s, h[..|h| - 1], start, w);
      if Polls(c, After(c, s, h[..|h| - 1]), last) {
        WithinSnoc(before, last.now, start, w);
      } else {
        assert TelemetryPolls(c, s, h) == before + [] == before;
      }
    }
  }

  /** The telemetry rate, on the wire: in any stretch of any run, from whatever state,
      whose ticks fall into a window of length w, the calls to send telemetry are at
      most floor(w / interval) + 1 and one more for each takeoff granted in it. */
  lemma TelemetryRate(c: Config, s: State, h: seq<Input>, start: real, w: real)
    requires c.enabled && c.telemetryInterval > 0.0 && w >= 0.0 && TicksWithin(h, start, w)
    ensures var t := After(c, s, h).trace;
      TelemetryCalls(t) - TelemetryCalls(s.trace)
      <= (w / c.telemetryInterval).Floor + 1 + Grants(t) - Grants(s.trace)
  {
    CallsAreWithinPolls(c, s, h);
    FewPolls(c, s, h, start, w);
  }

  lemma FewPolls(c: Config, s: State, h: seq<Input>, start: real, w: real)
    requires c.enabled && c.telemetryInterval > 0.0 && w >= 0.0 && TicksWithin(h, start, w)
    ensures |TelemetryPolls(c, s, h)| <= (w / c.telemetryInterval).Floor + 1
  {
    PollsWithin(c, s, h, start, w);
    var n := |TelemetryPolls(c, s, h)|;
    if n > 0 {
      PollRate(c, s, h, start, w, 0, n - 1);
    } else {
      FloorBound(0, w, c.telemetryInterval);
    }
  }

  // ---- orders are obeyed -------------------------------------------------------------------------

  predicate OrdersLanding(e: Event) {
    IsTelemetry(e) && e.answer.LandNow?
  }

  /** What an event of a trace calls for: an ordered landing is reported as an incident
      and published as an emergency with its reason, a revocation is published as one;
      and nothing else publishes an emergency of the air traffic system. */
  ghost predicate ObeyedAt(t: seq<Event>, i: nat)
    requires i < |t|
  {
    && (OrdersLanding(t[i]) ==>
          && i + 2 < |t| && t[i + 1].Call? && t[i + 1].verb == ReportIncident && t[i + 1].mission == t[i].mission
          && t[i + 2] == OrvdAlarm(t[i].answer.reason))
    && (t[i].TakeoffRevoked? ==> i + 1 < |t| && t[i + 1] == OrvdAlarm("takeoff_revoked"))
    && (t[i].OrvdAlarm? ==> (i >= 1 && t[i - 1].TakeoffRevoked?) || (i >= 2 && OrdersLanding(t[i - 2])))
  }

  ghost predicate Obeyed(t: seq<Event>) {
    forall i: nat :: i < |t| ==> ObeyedAt(t, i)
  }

  predicate Plain(e: Event) {
    !OrdersLanding(e) && !e.TakeoffRevoked? && !e.OrvdAlarm?
  }

  lemma ObeyedPlain(t: seq<Event>, e: Event)
    requires Obeyed(t) && Plain(e)
    ensures Obeyed(t + [e])
  {
    forall i: nat | i < |t + [e]|
      ensures ObeyedAt(t + [e], i)
    {
      assert i < |t| ==> ObeyedAt(t, i);
    }
  }

  lemma ObeyedLanding(t: seq<Event>, mid: string, reason: string)
    requires Obeyed(t)
    ensures Obeyed(t + [Call(SendTelemetry, mid, [], LandNow(reason))] + [Call(ReportIncident, mid, [], NoAnswer)] + [OrvdAlarm(reason)])
  {
    var u := t + [Call(SendTelemetry, mid, [], LandNow(reason))] + [Call(ReportIncident, mid, [], NoAnswer)] + [OrvdAlarm(reason)];
    forall i: nat | i < |u|
      ensures ObeyedAt(u, i)
    {
      assert i < |t| ==> ObeyedAt(t, i);
    }
  }

  lemma ObeyedRevocation(t: seq<Event>)
    requires Obeyed(t)
    ensures Obeyed(t + [TakeoffRevoked] + [OrvdAlarm("takeoff_revoked")])
  {
    var u := t + [TakeoffRevoked] + [OrvdAlarm("takeoff_revoked")];
    forall i: nat | i < |u|
      ensures ObeyedAt(u, i)
    {
      assert i < |t| ==> ObeyedAt(t, i);
    }
  }

  lemma TelemetryObeys(c: Config, s: State, answer: Answer)
    requires Obeyed(s.trace)
    ensures Obeyed(Telemetry(c, s, answer).trace)
  {
    if answer.LandNow? {
      ObeyedLanding(s.trace, s.missionId, answer.reason);
    } else {
      ObeyedPlain(s.trace, Call(SendTelemetry, s.missionId, [], answer));
    }
  }

  lemma HandshakeObeys(c: Config, s: State, m: Mission, a: LoadAnswers)
    requires Obeyed(s.trace)
    ensures Obeyed(Handshake(c, s, m, a).0.trace)
  {
    if c.enabled && !c.mock {
      var s0 := s.(takeoff := false);
      ObeyedPlain(s0.trace, Call(RegisterDrone, "", [], a.drone));
      var s1 := RegisterStep(s0, a);
      ObeyedPlain(s1.trace, Call(RegisterMission, m.id, Route(m.steps), a.mission));
      var s2 := MissionStep(s1, m, a);
      ObeyedPlain(s2.trace, Call(AuthorizeMission, m.id, [], a.authorize));
      assert Handshake(c, s, m, a).0 in {s1, s2, AuthorizeStep(s2, m, a)};
    }
  }

  lemma TakeoffObeys(c: Config, s: State, mid: string, answer: Answer, telemetry: Answer)
    requires Obeyed(s.trace)
    ensures Obeyed(Takeoff(c, s, mid, answer, telemetry).0.trace)
  {
    var e := Call(RequestTakeoff, mid, [], answer);
    ObeyedPlain(s.trace, e);
    var s2 := Log(s, e).(takeoff := true, phase := TakeoffAuthorized);
    TelemetryObeys(c, s2, telemetry);
    assert Takeoff(c, s, mid, answer, telemetry).0 in
      {s, s.(takeoff := true, phase := TakeoffAuthorized), Log(s, e), s2, Telemetry(c, s2, telemetry)};
  }

  lemma RecalculateObeys(c: Config, s: State)
    requires Obeyed(s.trace)
    ensures Obeyed(Recalculate(c, s).trace)
  {
    if Deviation(c, s).Some? {
      var (d, v) := Deviation(c, s).value;
      var incident := Call(ReportIncident, s.missionId, [], NoAnswer);
      ObeyedPlain(s.trace, incident);
      ObeyedPlain(s.trace, GeofenceAlarm(d, v));
      ObeyedPlain(s.trace + [incident], GeofenceAlarm(d, v));
    }
  }

  lemma StepObeys(c: Config, s: State, i: Input)
    requires Obeyed(s.trace)
    ensures Obeyed(LimiterSpec.Step(c, s, i).trace)
  {
    match i
    case DoLoad(m, a) =>
      ObeyedPlain(s.trace, LoadRefused(m.id));
      ObeyedPlain(s.trace, LoadAccepted(m.id));
      HandshakeObeys(c, Log(s, LoadAccepted(m.id)).(status := Pending, missionId := m.id, phase := PhasePending, takeoff := false), m, a);
    case DoTakeoff(mid, now, nav, answer, telemetry) =>
      TakeoffObeys(c, PollNavigation(c, s, now, nav), NamedMission(s, mid), answer, telemetry);
    case DoComplete(mid, answer) => ObeyedPlain(s.trace, Call(CompleteMission, NamedMission(s, mid), [], answer));
    case DoRevoke => ObeyedRevocation(s.trace);
    case DoConfig(_, _) =>
    case DoTick(now, nav, telemetry) =>
      var s1 := PollNavigation(c, s, now, nav);
      TelemetryObeys(c, s1.(lastTelemetry := now), telemetry);
      RecalculateObeys(c, PollTelemetry(c, s1, now, telemetry));
  }

  /** Over every run: each landing the air traffic system orders is reported and published
      at once, each revocation is published at once, and no other event is. */
  lemma {:induction false} OrdersAreObeyed(c: Config, maxDistance: real, maxDeviation: real, h: seq<Input>)
    ensures Obeyed(After(c, Initial(maxDistance, maxDeviation), h).trace)
    decreases |h|
  {
    if h != [] {
      OrdersAreObeyed(c, maxDistance, maxDeviation, h[..|h| - 1]);
      StepObeys(c, After(c, Initial(maxDistance, maxDeviation), h[..|h| - 1]), h[|h| - 1]);
    }
  }

  /** A revocation is on the trace whenever one comes; telemetry whenever it is due in flight. */
  lemma InputsAreCarriedOut(c: Config, s: State, i: Input)
    ensures i.DoRevoke? ==> var s' := LimiterSpec.Step(c, s, i);
      !s'.takeoff && s'.trace == s.trace + [TakeoffRevoked] + [OrvdAlarm("takeoff_revoked")]
    ensures i.DoTick? && Polls(c, s, i) && !c.mock && s.takeoff && s.mission.Some? && s.nav.Some? ==>
      var s' := LimiterSpec.Step(c, s, i);
      |s.trace| < |s'.trace| && s'.trace[|s.trace|] == Call(SendTelemetry, s.missionId, [], i.telemetry)
  {
    if i.DoTick? && Polls(c, s, i) && !c.mock && s.takeoff && s.mission.Some? && s.nav.Some? {
      var s1 := PollNavigation(c, s, i.now, i.navReply).(lastTelemetry := i.now);
      var s2 := Telemetry(c, s1, i.telemetry);
      assert s2.trace[|s.trace|] == Call(SendTelemetry, s.missionId, [], i.telemetry);
      RecalculateAppends(c, s2);
    }
  }

  lemma RecalculateAppends(c: Config, s: State)
    ensures |s.trace| <= |Recalculate(c, s).trace| && Recalculate(c, s).trace[..|s.trace|] == s.trace
  {
  }
}
