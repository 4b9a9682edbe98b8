/** What the autopilot sends, spelled out: for every input of every run, the motor
    targets field by field, the door commands and the notices. */
module AutopilotActs {
  import opened Common
  import opened Missions
  import opened AutopilotSpec
  import opened AutopilotTheory

  // ---- targets by field -----------------------------------------------------------------

  /** A field that is no number counts as zero. */
  function Given(f: Field): real {
    match f
    case Number(x) => x
    case _ => 0.0
  }

  /** The climb towards a height: none within 0.2 m, twice the difference up to 3 m/s. */
  predicate Climbs(vz: real, from: real, to: real) {
    && (vz == 0.0 <==> -0.2 < to - from < 0.2)
    && (vz > 0.0 ==> to >= from + 0.2) && (vz < 0.0 ==> to <= from - 0.2)
    && (0.2 <= to - from <= 1.5 || -1.5 <= to - from <= -0.2 ==> vz == 2.0 * (to - from))
    && (to - from > 1.5 ==> vz == 3.0) && (to - from < -1.5 ==> vz == -3.0)
  }

  /** A leg from position `n` to waypoint `w`: height and drop of the waypoint, place of
      the drone, heading for the waypoint at its speed, or at 5 m/s if it gives none. */
  ghost predicate Aims(c: Config, n: Nav, w: Waypoint, t: Target) {
    && w.Waypoint?
    && t.alt == Given(w.alt) && t.drop == w.drop && t.lat == n.lat && t.lon == n.lon
    && Climbs(t.vz, n.alt, Given(w.alt))
    && (Given(w.lat) == n.lat && Given(w.lon) == n.lon ==> t.heading == 0.0)
    && (Given(w.lat) != n.lat || Given(w.lon) != n.lon ==> t.heading == c.bearing(Given(w.lon) - n.lon, Given(w.lat) - n.lat))
    && (t.vx, t.vy) == c.resolve(t.heading, if Given(w.speed) == 0.0 then 5.0 else Given(w.speed))
  }

  /** Standing still where the drone is. */
  predicate Stays(n: Nav, t: Target) {
    && t.vx == 0.0 && t.vy == 0.0 && t.vz == 0.0 && !t.drop
    && t.alt == n.alt && t.lat == n.lat && t.lon == n.lon && t.heading == n.heading
  }

  /** Straight down at one metre a second. */
  predicate Sinks(n: Nav, t: Target) {
    && t.vx == 0.0 && t.vy == 0.0 && t.vz == -1.0 && !t.drop
    && t.alt == 0.0 && t.lat == n.lat && t.lon == n.lon && t.heading == n.heading
  }

  /** Within two metres, at 111000 metres to the degree. */
  predicate Arrived(c: Config, n: Nav, w: Waypoint) {
    w.Waypoint? && c.squared(Given(w.lat) - n.lat, Given(w.lon) - n.lon) * 12321000000.0 <= 4.0
  }

  function Completion(id: string): seq<Event> {
    [MissionDone(id)] + if id == "" then [] else [DroneportLand(id), OrvdComplete(id)]
  }

  // ---- what a tick sends ------------------------------------------------------------------

  /** Standing still with the door closed. */
  ghost predicate Rests(n: Nav, es: seq<Event>) {
    |es| == 2 && es[0].Hold? && Stays(n, es[0].target) && es[1] == Door(false)
  }

  /** A leg to step `i`, and the door as that step has it. */
  ghost predicate Heads(c: Config, n: Nav, m: Mission, i: nat, es: seq<Event>) {
    i < |m.steps| && |es| == 2 && es[0].Leg? && es[0].step == i && Aims(c, n, m.steps[i], es[0].target)
    && es[1] == Door(es[0].target.drop)
  }

  /** One tick of a mission in flight at step `i`. */
  ghost predicate FlightSends(c: Config, m: Mission, i: nat, paused: bool, n: Nav, es: seq<Event>) {
    if i >= |m.steps| then es == if paused || m.steps == [] then [] else Completion(m.id)
    else if m.steps[i].NotObject? then es == []
    else if paused then Rests(n, es)
    else if !Arrived(c, n, m.steps[i]) then Heads(c, n, m, i, es)
    else if i < |m.steps| - 1 then es == []
    else
      var k := |Completion(m.id)|;
      |es| >= k && es[..k] == Completion(m.id) && Rests(n, es[k..])
  }

  ghost predicate TickSends(c: Config, s: State, n: Option<Nav>, es: seq<Event>) {
    if s.mode.PreFlight? then es == [] || es == [PreflightPassed(MissionId(s))]
    else if n.None? then es == []
    else if s.kover then |es| == 2 && es[0].Descend? && Sinks(n.value, es[0].target) && es[1] == Door(false)
    else if s.mission.None? || (!s.mode.Executing? && !s.mode.Paused?) then es == []
    else FlightSends(c, s.mission.value, if s.index < 0 then 0 else s.index, s.mode.Paused?, n.value, es)
  }

  ghost predicate CommandSends(s: State, cmd: Command, es: seq<Event>) {
    match cmd
    case Start => es == [] || es == [PreflightPassed(MissionId(s))]
    case Abort => if s.nav.Some? then Rests(s.nav.value, es) else es == [Door(false)]
    case Stop => if s.nav.Some? then Rests(s.nav.value, es) else es == [Door(false)]
    case _ => es == []
  }

  ghost predicate Sends(c: Config, s: State, i: Input, n: Option<Nav>, es: seq<Event>) {
    match i
    case DoLoad(m) => es == [Loaded(m)]
    case DoCommand(cmd, _, _) => CommandSends(s, cmd, es)
    case DoTick(_, _, _) => TickSends(c, s, n, es)
  }

  // ---- proofs ---------------------------------------------------------------------------------

  lemma LegAims(c: Config, n: Nav, w: Waypoint)
    requires w.Waypoint?
    ensures Aims(c, n, w, LegTarget(c, n, w))
  {
  }

  lemma TwoLogged(s: State, e: Event, f: Event)
    ensures Log(Log(s, e), f).trace == s.trace + [e, f]
  {
  }

  lemma FinishLogged(s: State, id: string)
    ensures Finish(s, id).trace == s.trace + Completion(id)
  {
  }

  lemma HoldLogged(s: State, n: Nav) returns (es: seq<Event>)
    ensures HoldClosed(s, n).trace == s.trace + es && Rests(n, es)
  {
    es := [Hold(HoldAt(n)), Door(false)];
    TwoLogged(s, Hold(HoldAt(n)), Door(false));
  }

  lemma FlySends(c: Config, s: State, m: Mission, n: Nav) returns (es: seq<Event>)
    requires s.mode.Executing? || s.mode.Paused?
    ensures Fly(c, s, m, n).trace == s.trace + es
    ensures FlightSends(c, m, if s.index < 0 then 0 else s.index, s.mode.Paused?, n, es)
  {
    var i, r := if s.index < 0 then 0 else s.index, Fly(c, s, m, n);
    if m.steps == [] || (i >= |m.steps| && s.mode.Paused?) || (i < |m.steps| && m.steps[i].NotObject?) {
      es := [];
    } else if i >= |m.steps| {
      es := Completion(m.id);
      FinishLogged(s, m.id);
    } else if s.mode.Paused? {
      es := HoldLogged(s, n);
    } else if !Arrived(c, n, m.steps[i]) {
      var t := LegTarget(c, n, m.steps[i]);
      LegAims(c, n, m.steps[i]);
      TwoLogged(s, Leg(i, t), Door(m.steps[i].drop));
      es := [Leg(i, t), Door(m.steps[i].drop)];
    } else if i < |m.steps| - 1 {
      es := [];
    } else {
      es := ArrivalSends(s.(index := |m.steps|), m, n);
    }
  }

  lemma ArrivalSends(s: State, m: Mission, n: Nav) returns (es: seq<Event>)
    ensures HoldClosed(Finish(s, m.id), n).trace == s.trace + es
    ensures var k := |Completion(m.id)|; |es| >= k && es[..k] == Completion(m.id) && Rests(n, es[k..])
  {
    FinishLogged(s, m.id);
    var rest := HoldLogged(Finish(s, m.id), n);
    es := Completion(m.id) + rest;
    assert es[|Completion(m.id)|..] == rest;
    assert s.trace + es == s.trace + Completion(m.id) + rest;
  }

  lemma SafeStopSends(s: State) returns (es: seq<Event>)
    ensures SafeStop(s).trace == s.trace + es
    ensures if s.nav.Some? then Rests(s.nav.value, es) else es == [Door(false)]
  {
    if s.nav.Some? {
      TwoLogged(s, Hold(HoldAt(s.nav.value)), Door(false));
      es := [Hold(HoldAt(s.nav.value)), Door(false)];
    } else {
      es := [Door(false)];
    }
  }

  lemma PreFlightSends(c: Config, s: State, now: real, g: Gates) returns (es: seq<Event>)
    ensures StepPreFlight(c, s, now, g).trace == s.trace + es
    ensures es == [] || es == [PreflightPassed(MissionId(s))]
  {
    es := if StepPreFlight(c, s, now, g).trace == s.trace then [] else [PreflightPassed(MissionId(s))];
  }

  lemma CommandsSend(c: Config, s: State, cmd: Command, now: real, g: Gates) returns (es: seq<Event>)
    ensures Handle(c, s, cmd, now, g).trace == s.trace + es && CommandSends(s, cmd, es)
  {
    match cmd
    case Start =>
      es := PreFlightSends(c, s.(lastError := "", startedAt := Some(now), mode := PreFlight), now, g);
      if s.mission.None? || (!s.mode.MissionLoaded? && !s.mode.Idle?) {
        es := [];
      }
    case Abort => es := SafeStopSends(s.(kover := false, mode := Aborted));
    case Stop => es := SafeStopSends(s.(kover := false, mode := EmergencyStop));
    case _ => es := [];
  }

  lemma ControlSends(c: Config, s: State, now: real, g: Gates) returns (es: seq<Event>)
    ensures StepControl(c, s, now, g).trace == s.trace + es && TickSends(c, s, s.nav, es)
  {
    if s.mode.PreFlight? {
      es := PreFlightSends(c, s, now, g);
    } else if s.nav.Some? && s.kover {
      var n := s.nav.value;
      var t := Target(0.0, 0.0, -1.0, 0.0, n.lat, n.lon, n.heading, false);
      TwoLogged(s, Descend(t), Door(false));
      es := [Descend(t), Door(false)];
    } else if s.nav.Some? && s.mission.Some? && (s.mode.Executing? || s.mode.Paused?) {
      es := FlySends(c, s, s.mission.value, s.nav.value);
    } else {
      es := [];
    }
  }

  /** The position in force at a tick: the answer of a poll that was due, or the last one. */
  function PositionAt(c: Config, s: State, i: Input): Option<Nav> {
    if i.DoTick? && i.now - s.lastNavPoll >= c.navInterval && i.navReply.Some? then i.navReply else s.nav
  }

  /** Every input of every run, in any state: what is sent is exactly what the input calls
      for, field by field. */
  lemma ActsMean(c: Config, s: State, i: Input) returns (es: seq<Event>)
    ensures Step(c, s, i).trace == s.trace + es && Sends(c, s, i, PositionAt(c, s, i), es)
  {
    match i
    case DoLoad(m) => es := [Loaded(m)];
    case DoCommand(cmd, now, g) => es := CommandsSend(c, s, cmd, now, g);
    case DoTick(now, nav, g) =>
      var s1 := PollNavigation(c, s, now, nav);
      es := ControlSends(c, s1, now, g);
      assert s1 == s.(lastNavPoll := s1.lastNavPoll, nav := PositionAt(c, s, i));
  }

  // ---- legs over whole runs ---------------------------------------------------------------------

  /** A leg sent in state `s` on input `i`: a tick that finds the drone executing a mission,
      not yet at the current step, from the position in force. */
  ghost predicate LegAt(c: Config, s: State, i: Input, e: Event) {
    && i.DoTick? && e.Leg?
    && var n := PositionAt(c, s, i);
       && s.mode.Executing? && !s.kover && s.mission.Some? && n.Some?
       && e.step == Progress(s) < |s.mission.value.steps|
       && !Arrived(c, n.value, s.mission.value.steps[e.step])
       && Aims(c, n.value, s.mission.value.steps[e.step], e.target)
  }

  /** The leg was sent at position `k` of the history. */
  ghost predicate LegFrom(c: Config, h: seq<Input>, k: nat, e: Event) {
    k < |h| && LegAt(c, After(c, INITIAL, h[..k]), h[k], e)
  }

  lemma LegOfStep(c: Config, s: State, i: Input, es: seq<Event>, e: Event)
    requires Coherent(s) && Sends(c, s, i, PositionAt(c, s, i), es) && e in es && e.Leg?
    ensures LegAt(c, s, i, e)
  {
  }

  lemma LegStays(c: Config, h: seq<Input>, i: Input, k: nat, e: Event)
    requires LegFrom(c, h, k, e)
    ensures LegFrom(c, h + [i], k, e)
  {
    assert (h + [i])[..k] == h[..k];
  }

  lemma LegArrives(c: Config, h: seq<Input>, i: Input, e: Event)
    requires LegAt(c, After(c, INITIAL, h), i, e)
    ensures LegFrom(c, h + [i], |h|, e)
  {
    assert (h + [i])[..|h|] == h;
  }

  /** Legs over whole runs: each leg on the trace was sent by a tick that found the drone
      executing a mission, on its way to the current step, and aims there. */
  lemma {:induction false} EveryLegAims(c: Config, h: seq<Input>, j: nat)
    requires j < |After(c, INITIAL, h).trace| && After(c, INITIAL, h).trace[j].Leg?
    ensures exists k: nat :: LegFrom(c, h, k, After(c, INITIAL, h).trace[j])
    decreases |h|
  {
    var before, i := h[..|h| - 1], h[|h| - 1];
    assert h == before + [i];
    var old', e := After(c, INITIAL, before).trace, After(c, INITIAL, h).trace[j];
    var es := NewEvents(c, before, i);
    if j < |old'| {
      assert e == old'[j];
      EveryLegAims(c, before, j);
      var k: nat :| LegFrom(c, before, k, e);
      LegStays(c, before, i, k, e);
    } else {
      assert e == es[j - |old'|];
      NewLeg(c, before, i, es, e);
    }
  }

  /** The events that one more input adds to a run. */
  lemma NewEvents(c: Config, h: seq<Input>, i: Input) returns (es: seq<Event>)
    ensures var s := After(c, INITIAL, h);
      After(c, INITIAL, h + [i]).trace == s.trace + es && Sends(c, s, i, PositionAt(c, s, i), es)
  {
    assert (h + [i])[..|h|] == h;
    es := ActsMean(c, After(c, INITIAL, h), i);
  }

  lemma NewLeg(c: Config, h: seq<Input>, i: Input, es: seq<Event>, e: Event)
    requires var s := After(c, INITIAL, h); Sends(c, s, i, PositionAt(c, s, i), es)
    requires e in es && e.Leg?
    ensures LegFrom(c, h + [i], |h|, e)
  {
    ReachableStates(c, h);
    LegOfStep(c, After(c, INITIAL, h), i, es, e);
    LegArrives(c, h, i, e);
  }

  // ---- commands and gates ----------------------------------------------------------------------------

  /** The command table. */
  lemma CommandsMean(c: Config, s: State, cmd: Command, now: real, g: Gates)
    ensures var s' := Handle(c, s, cmd, now, g);
      match cmd
      case Start => s'.kover == s.kover && s'.mission == s.mission && s'.index == s.index
        && (s.mission.None? || (!s.mode.MissionLoaded? && !s.mode.Idle?) ==> s'.mode == s.mode)
      case Pause => s' == s.(mode := if s.mode == Executing then Paused else s.mode)
      case Resume => s' == s.(mode := if s.mode == Paused then Executing else s.mode)
      case Abort => s'.mode == Aborted && !s'.kover && s'.mission == s.mission && s'.index == s.index
      case Reset => s'.mode == Idle && !s'.kover && s'.mission == None && s'.index == 0
      case Stop => s'.mode == EmergencyStop && !s'.kover && s'.mission == s.mission && s'.index == s.index
      case Kover => s'.kover && s'.mission == s.mission && s'.mode == if s.mode == Paused then Paused else Executing
      case UnknownCommand => s' == s
  {
  }

  /** The override ends when the drone is down: half a metre above the ground or less. */
  lemma OverrideEnds(c: Config, s: State, i: Input)
    requires i.DoTick? && s.kover && !s.mode.PreFlight? && PositionAt(c, s, i).Some?
    ensures var s', n := Step(c, s, i), PositionAt(c, s, i).value;
      && (s'.kover <==> n.alt > 0.5)
      && s'.mode == (if n.alt > 0.5 then s.mode else Paused) && s'.mission == s.mission && s'.index == s.index
  {
  }

  /** The limiter's answer clears the mission: authorized, and not for another one. */
  predicate LimiterClears(m: Mission, g: Gates) {
    && g.limiter.Some? && g.limiter.value.0 == LimiterAuthorized
    && (g.limiter.value.1 == "" || m.id == "" || g.limiter.value.1 == m.id)
  }

  /** A preflight pass, by its answers: it passes when limiter, takeoff and DronePort all
      clear it, waits when the limiter is pending or only DronePort is, and otherwise
      aborts with the error of the first that does not clear it. */
  lemma PreflightMeans(c: Config, s: State, now: real, g: Gates)
    requires s.mode.PreFlight? && s.mission.Some? && !TimedOut(c, s, now)
    ensures var s', m := StepPreFlight(c, s, now, g), s.mission.value;
      var takeoff := g.takeoffFlag || g.takeoffOk;
      && (s'.mode == Executing <==> LimiterClears(m, g) && takeoff && (g.departed || g.dock == DockOk))
      && (s'.mode == PreFlight <==>
            (g.limiter.Some? && g.limiter.value.0 == LimiterPending)
            || (LimiterClears(m, g) && takeoff && !g.departed && g.dock == DockPending))
      && (s'.mode == Executing || s'.mode == PreFlight || s'.mode == Aborted)
      && (s'.mode == Executing ==> s'.lastError == "")
      && (s'.mode == Aborted ==>
            s'.lastError ==
              if !LimiterClears(m, g) then
                (if g.limiter.Some? && g.limiter.value.0 == LimiterAuthorized then "mission_id_mismatch" else "limiter_not_cleared")
              else if !takeoff then "orvd_takeoff_denied" else "droneport_denied")
  {
  }

  /** A preflight that runs out of time aborts, whatever is answered. */
  lemma TimeoutMeans(c: Config, s: State, now: real, g: Gates)
    requires s.mode.PreFlight? && c.preflightTimeout > 0.0 && s.startedAt.Some?
    ensures now - s.startedAt.value > c.preflightTimeout ==>
      StepPreFlight(c, s, now, g) == s.(mode := Aborted, lastError := "preflight_timeout")
  {
  }

  /** A load replaces the mission, starts at its first step and leaves the override alone. */
  lemma LoadMeans(s: State, m: Mission)
    ensures var s' := Load(s, m);
      && s'.mission == Some(m) && s'.mode == MissionLoaded && s'.kover == s.kover && s'.nav == s.nav
      && s'.index == if m.steps == [] then -1 else 0
  {
  }
}
