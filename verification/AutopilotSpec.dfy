/** The autopilot as a pure machine: commands, preflight gates, waypoint progress. */
module AutopilotSpec {
  import opened Common
  import opened Interval
  import opened Missions

  datatype Mode = Idle | MissionLoaded | PreFlight | Executing | Paused | Completed | Aborted | EmergencyStop

  datatype Command = Start | Pause | Resume | Abort | Reset | Stop | Kover | UnknownCommand

  datatype Nav = Nav(lat: real, lon: real, alt: real, heading: real)

  datatype Target = Target(vx: real, vy: real, vz: real, alt: real, lat: real, lon: real, heading: real, drop: bool)

  /** What an autopilot does: motor targets by purpose, door commands, the two
      notices after a mission, and the milestones it journals. */
  datatype Event =
    | Loaded(mission: Mission)
    | PreflightPassed(id: string)
    | MissionDone(id: string)
    | DroneportLand(id: string)
    | OrvdComplete(id: string)
    | Leg(step: nat, target: Target)
    | Hold(target: Target)
    | Descend(target: Target)
    | Door(open: bool)

  /** Geometry is a parameter: `squared` length of a coordinate difference, its
      `bearing` in degrees, and `resolve` of a heading and a speed into two
      components. What is proved holds for every choice; the code's choice of the
      first is SQUARED. */
  datatype Config = Config(
    preflightTimeout: real, navInterval: real,
    squared: (real, real) -> real, bearing: (real, real) -> real, resolve: (real, real) -> (real, real))

  const SQUARED: (real, real) -> real := (x: real, y: real) => x * x + y * y

  datatype State = State(
    mission: Option<Mission>, mode: Mode, index: int, nav: Option<Nav>, kover: bool,
    lastError: string, startedAt: Option<real>, lastNavPoll: real, trace: seq<Event>)

  const INITIAL := State(None, Idle, 0, None, false, "", None, 0.0, [])

  function Log(s: State, e: Event): State {
    s.(trace := s.trace + [e])
  }

  function MissionId(s: State): string {
    if s.mission.Some? then s.mission.value.id else ""
  }

  // ---- preflight ------------------------------------------------------------------------

  datatype Clearance = LimiterAuthorized | LimiterPending | LimiterOther

  /** Answers to the queries of one preflight pass. A failed query is None, false
      or `DockFailed`, as the code treats it. */
  datatype Gates = Gates(
    limiter: Option<(Clearance, string)>,
    takeoffFlag: bool, takeoffOk: bool,
    departed: bool, dock: Dock)

  datatype Dock = DockFailed | DockPending | DockOk | DockRefused

  datatype Gate = Open | Wait | Refuse(error: string)

  /** The limiter must be AUTHORIZED, for this mission if both sides name one. */
  function LimiterGate(m: Option<Mission>, g: Gates): Gate {
    if m.None? then Refuse("no_mission")
    else match g.limiter
      case None => Refuse("limiter_not_cleared")
      case Some((LimiterPending, _)) => Wait
      case Some((LimiterOther, _)) => Refuse("limiter_not_cleared")
      case Some((LimiterAuthorized, mid)) =>
        if mid != "" && m.value.id != "" && mid != m.value.id then Refuse("mission_id_mismatch") else Open
  }

  function TakeoffGate(g: Gates): Gate {
    if g.takeoffFlag || g.takeoffOk then Open else Refuse("orvd_takeoff_denied")
  }

  function DockGate(g: Gates): Gate {
    if g.departed then Open
    else match g.dock
      case DockPending => Wait
      case DockOk => Open
      case DockFailed => Refuse("droneport_denied")
      case DockRefused => Refuse("droneport_denied")
  }

  /** The three gates in order; the first that is not open decides. */
  function AllGates(m: Option<Mission>, g: Gates): Gate {
    if LimiterGate(m, g) != Open then LimiterGate(m, g)
    else if TakeoffGate(g) != Open then TakeoffGate(g)
    else DockGate(g)
  }

  predicate TimedOut(c: Config, s: State, now: real) {
    c.preflightTimeout > 0.0 && s.startedAt.Some? && now - s.startedAt.value > c.preflightTimeout
  }

  function StepPreFlight(c: Config, s: State, now: real, g: Gates): State {
    if !s.mode.PreFlight? then s
    else if TimedOut(c, s, now) then s.(mode := Aborted, lastError := "preflight_timeout")
    else match AllGates(s.mission, g)
      case Wait => s
      case Refuse(e) => s.(mode := Aborted, lastError := e)
      case Open => Log(s, PreflightPassed(MissionId(s))).(mode := Executing, lastError := "")
  }

  // ---- control --------------------------------------------------------------------------

  function Vertical(alt: real, target: real): real {
    var d := target - alt;
    if -0.2 < d < 0.2 then 0.0
    else if d * 2.0 > 3.0 then 3.0
    else if d * 2.0 < -3.0 then -3.0
    else d * 2.0
  }

  function HoldAt(n: Nav): Target {
    Target(0.0, 0.0, 0.0, n.alt, n.lat, n.lon, n.heading, false)
  }

  /** Within two metres: 111000 metres to the degree, compared squared. */
  predicate Near(c: Config, n: Nav, w: Waypoint)
    requires w.Waypoint?
  {
    c.squared(Float(w.lat) - n.lat, Float(w.lon) - n.lon) * 12321000000.0 <= 4.0
  }

  /** The squared comparison is the comparison of the length itself. */
  lemma NearIsTwoMetres(c: Config, n: Nav, w: Waypoint, length: real)
    requires w.Waypoint? && c.squared == SQUARED && length >= 0.0
    requires length * length == SQUARED(Float(w.lat) - n.lat, Float(w.lon) - n.lon)
    ensures Near(c, n, w) <==> length * 111000.0 <= 2.0
  {
    var m := length * 111000.0;
    assert m * m == length * length * 12321000000.0;
    if m <= 2.0 {
      assert m * m <= 2.0 * m;
    } else {
      assert m * m > 2.0 * m;
    }
  }

  function LegTarget(c: Config, n: Nav, w: Waypoint): Target
    requires w.Waypoint?
  {
    var dLat, dLon := Float(w.lat) - n.lat, Float(w.lon) - n.lon;
    var heading := if dLat != 0.0 || dLon != 0.0 then c.bearing(dLon, dLat) else 0.0;
    var speed := if Float(w.speed) == 0.0 then 5.0 else Float(w.speed);
    var (vx, vy) := c.resolve(heading, speed);
    Target(vx, vy, Vertical(n.alt, Float(w.alt)), Float(w.alt), n.lat, n.lon, heading, w.drop)
  }

  /** COMPLETED, the journal entry, and the two notices when the mission has an id. */
  function Finish(s: State, id: string): State {
    var s1 := Log(s.(mode := Completed), MissionDone(id));
    if id == "" then s1 else Log(Log(s1, DroneportLand(id)), OrvdComplete(id))
  }

  function HoldClosed(s: State, n: Nav): State {
    Log(Log(s, Hold(HoldAt(n))), Door(false))
  }

  function DoKover(s: State, n: Nav): State {
    var s1 := Log(Log(s, Descend(Target(0.0, 0.0, -1.0, 0.0, n.lat, n.lon, n.heading, false))), Door(false));
    if n.alt <= 0.5 then s1.(kover := false, mode := Paused) else s1
  }

  /** One waypoint step of a mission in flight. */
  function Fly(c: Config, s: State, m: Mission, n: Nav): State {
    var i := if s.index < 0 then 0 else s.index;
    if m.steps == [] then s
    else if i >= |m.steps| then if s.mode.Executing? then Finish(s, m.id) else s
    else if m.steps[i].NotObject? then s
    else if s.mode.Paused? then HoldClosed(s, n)
    else if Near(c, n, m.steps[i]) then
      if i >= |m.steps| - 1 then HoldClosed(Finish(s.(index := |m.steps|), m.id), n)
      else s.(index := i + 1)
    else Log(Log(s, Leg(i, LegTarget(c, n, m.steps[i]))), Door(m.steps[i].drop))
  }

  function StepControl(c: Config, s: State, now: real, g: Gates): State {
    if s.mode.PreFlight? then StepPreFlight(c, s, now, g)
    else if s.nav.None? then s
    else if s.kover then DoKover(s, s.nav.value)
    else if s.mission.None? || (!s.mode.Executing? && !s.mode.Paused?) then s
    else Fly(c, s, s.mission.value, s.nav.value)
  }

  function PollNavigation(c: Config, s: State, now: real, reply: Option<Nav>): State {
    if !Due(s.lastNavPoll, now, c.navInterval) then s
    else s.(lastNavPoll := now, nav := if reply.Some? then reply else s.nav)
  }

  // ---- messages ---------------------------------------------------------------------------

  function Load(s: State, m: Mission): State {
    Log(s, Loaded(m)).(mission := Some(m), index := if m.steps != [] then 0 else -1, mode := MissionLoaded)
  }

  function SafeStop(s: State): State {
    Log(if s.nav.Some? then Log(s, Hold(HoldAt(s.nav.value))) else s, Door(false))
  }

  /** The command table. START is timed even when the state does not allow it. */
  function Handle(c: Config, s: State, cmd: Command, now: real, g: Gates): State {
    match cmd
    case Start =>
      if s.mission.None? then s
      else
        var s1 := s.(lastError := "", startedAt := Some(now));
        if !s.mode.MissionLoaded? && !s.mode.Idle? then s1
        else StepPreFlight(c, s1.(mode := PreFlight), now, g)
    case Pause => if s.mode.Executing? then s.(mode := Paused) else s
    case Resume => if s.mode.Paused? then s.(mode := Executing) else s
    case Abort => SafeStop(s.(kover := false, mode := Aborted))
    case Reset => s.(mission := None, index := 0, kover := false, mode := Idle)
    case Stop => SafeStop(s.(kover := false, mode := EmergencyStop))
    case Kover => s.(kover := true, mode := if s.mode.Executing? || s.mode.Paused? then s.mode else Executing)
    case UnknownCommand => s
  }

  datatype Input =
    | DoLoad(mission: Mission)
    | DoCommand(command: Command, now: real, gates: Gates)
    | DoTick(now: real, navReply: Option<Nav>, gates: Gates)

  function Step(c: Config, s: State, i: Input): State {
    match i
    case DoLoad(m) => Load(s, m)
    case DoCommand(cmd, now, g) => Handle(c, s, cmd, now, g)
    case DoTick(now, nav, g) => StepControl(c, PollNavigation(c, s, now, nav), now, g)
  }

  function After(c: Config, s: State, h: seq<Input>): State
    decreases |h|
  {
    if h == [] then s else Step(c, After(c, s, h[..|h| - 1]), h[|h| - 1])
  }
}
