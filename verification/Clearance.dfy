/** The composed clearance path: mission handler, limiter, DronePort session and
    autopilot. Handlers and ticks are atomic; requests may be lost, served without
    an answer, or served after their caller gave up, even more than once; the air
    traffic system, DronePort and navigation answer as they please. Only the mission
    handler loads missions and only the autopilot asks for takeoff, as the shipped
    policies have it. */
module Clearance {
  import opened Common
  import opened Missions
  import MH = MissionHandler
  import L = LimiterSpec
  import D = DronePortSpec
  import A = AutopilotSpec

  datatype Setup = Setup(autopilot: A.Config, limiter: L.Config, port: D.Config)

  /** The milestones of a run. A passed preflight records the state of the limiter
      and of the DronePort session at that moment. */
  datatype Note =
    | Loaded(mission: Mission)
    | Passed(mission: Mission, limiter: L.State, port: D.State)
    | FlightLeg(mission: Mission, step: nat, alt: real)
    | CargoOpened(mission: Mission)

  /** `late` holds the missions whose load the limiter has not served while the
      handler waited; `sent` those the handler has passed on to the autopilot. Either
      may arrive later, once, several times or never. */
  datatype System = System(
    autopilot: A.State, limiter: L.State, port: D.State, late: iset<Mission>, sent: iset<Mission>, log: seq<Note>)

  /** Fate of a request while its caller waits: not served, served with the reply
      lost, or served and answered. */
  datatype Fate = Unserved | Unanswered | Answered

  /** What the outside world does during one preflight pass. */
  datatype Queries = Queries(
    status: Fate, flag: Fate,
    takeoff: Fate, now: real, navReply: Option<L.Nav>, granted: L.Answer, telemetry: L.Answer,
    phase: Fate, dock: Fate, answers: D.Answers)

  datatype Move =
    | Submit(sub: MH.Submission, fate: Fate, loadAnswers: L.LoadAnswers)
    | HandOver(mission: Mission)
    | Command(command: A.Command, at: real, queries: Queries)
    | AutopilotTick(at: real, nav: Option<A.Nav>, queries: Queries)
    | LimiterInput(limiterInput: L.Input)
    | PortInput(portInput: D.Input)

  function Initial(k: Setup, maxDistance: real, maxDeviation: real): System {
    System(A.INITIAL, L.Initial(maxDistance, maxDeviation), D.Initial(k.port), iset{}, iset{}, [])
  }

  // ---- the gates, answered by the components ------------------------------------------------

  function ClearanceOf(s: L.Status): A.Clearance {
    match s
    case Authorized => A.LimiterAuthorized
    case Pending => A.LimiterPending
    case _ => A.LimiterOther
  }

  const CLOSED := A.Gates(None, false, false, false, A.DockFailed)

  function DockOf(v: D.Verdict): A.Dock {
    match v
    case Cleared => A.DockOk
    case Waiting => A.DockPending
    case Refused(_) => A.DockRefused
  }

  /** The first gate: the limiter reports its status. */
  function AskStatus(s: System, q: Queries): A.Gates {
    CLOSED.(limiter := if q.status.Answered? then Some((ClearanceOf(s.limiter.status), s.limiter.missionId)) else None)
  }

  /** The second gate: the takeoff flag, or else a takeoff request. */
  function AskTakeoff(k: Setup, s: System, mid: string, q: Queries, g: A.Gates): (L.State, A.Gates) {
    if q.flag.Answered? && s.limiter.takeoff then (s.limiter, g.(takeoffFlag := true))
    else if q.takeoff.Unserved? then (s.limiter, g)
    else
      var (l, ok) := L.HandleTakeoff(k.limiter, s.limiter, mid, q.now, q.navReply, q.granted, q.telemetry);
      (l, g.(takeoffOk := ok && q.takeoff.Answered?))
  }

  /** The third gate: the session has departed, or else a takeoff preflight. */
  function AskDock(k: Setup, p: D.State, mid: string, q: Queries, g: A.Gates): (D.State, A.Gates) {
    if q.phase.Answered? && p.phase.Departed? then (p, g.(departed := true))
    else if q.dock.Unserved? then (p, g)
    else
      var (p1, v) := D.Preflight(k.port, p, mid, q.answers);
      (p1, g.(dock := if q.dock.Answered? then DockOf(v) else A.DockFailed))
  }

  datatype Asked = Asked(limiter: L.State, port: D.State, gates: A.Gates)

  /** One preflight pass: each gate is asked only when the one before is open. */
  function AskGates(k: Setup, s: System, q: Queries): Asked {
    var g1 := AskStatus(s, q);
    if A.LimiterGate(s.autopilot.mission, g1) != A.Open then Asked(s.limiter, s.port, g1)
    else
      var mid := A.MissionId(s.autopilot);
      var (l, g2) := AskTakeoff(k, s, mid, q, g1);
      if A.TakeoffGate(g2) != A.Open then Asked(l, s.port, g2)
      else
        var (p, g3) := AskDock(k, s.port, mid, q, g2);
        Asked(l, p, g3)
  }

  // ---- moves -----------------------------------------------------------------------------------

  /** The autopilot is about to run a preflight pass. */
  predicate WillAsk(k: Setup, s: A.State, i: A.Input) {
    match i
    case DoLoad(_) => false
    case DoCommand(cmd, now, _) => cmd.Start? && s.mission.Some? && (s.mode.MissionLoaded? || s.mode.Idle?)
                                   && !A.TimedOut(k.autopilot, s.(startedAt := Some(now)), now)
    case DoTick(now, _, _) => s.mode.PreFlight? && !A.TimedOut(k.autopilot, s, now)
  }

  /** The milestone an autopilot event amounts to. */
  function NoteOf(e: A.Event, m: Option<Mission>, l: L.State, p: D.State): seq<Note> {
    match e
    case Loaded(m1) => [Loaded(m1)]
    case PreflightPassed(_) => if m.Some? then [Passed(m.value, l, p)] else []
    case Leg(i, t) => if m.Some? then [FlightLeg(m.value, i, t.alt)] else []
    case Door(open) => if open && m.Some? then [CargoOpened(m.value)] else []
    case _ => []
  }

  function NotesOf(es: seq<A.Event>, m: Option<Mission>, l: L.State, p: D.State): seq<Note> {
    if es == [] then [] else NotesOf(es[..|es| - 1], m, l, p) + NoteOf(es[|es| - 1], m, l, p)
  }

  function NewEvents(before: seq<A.Event>, after: seq<A.Event>): seq<A.Event> {
    if |before| <= |after| then after[|before|..] else []
  }

  /** The autopilot takes an input, asking the gates first when it has to. */
  function AutopilotTakes(k: Setup, s: System, i: A.Input, q: Queries): System {
    var asked := if WillAsk(k, s.autopilot, i) then AskGates(k, s, q) else Asked(s.limiter, s.port, CLOSED);
    var input := match i
      case DoLoad(_) => i
      case DoCommand(cmd, now, _) => A.DoCommand(cmd, now, asked.gates)
      case DoTick(now, nav, _) => A.DoTick(now, nav, asked.gates);
    var a := A.Step(k.autopilot, s.autopilot, input);
    var notes := NotesOf(NewEvents(s.autopilot.trace, a.trace), s.autopilot.mission, asked.limiter, asked.port);
    s.(autopilot := a, limiter := asked.limiter, port := asked.port, log := s.log + notes)
  }

  /** The answer of the limiter as the handler sees it; it always has a payload. */
  function AnswerOf(fate: Fate, ok: bool): MH.Answer {
    if !fate.Answered? then MH.NoAnswer else if ok then MH.Accepted else MH.Rejected("")
  }

  /** A submission: the limiter loads what the handler sends it, and the handler
      sends the autopilot what it sends after that answer. */
  function TakesSubmission(k: Setup, s: System, sub: MH.Submission, fate: Fate, a: L.LoadAnswers): System {
    if MH.Sends(sub, MH.NoAnswer) == [] then s
    else if fate.Unserved? then s.(late := s.late + iset{sub.mission})
    else
      var answer := AnswerOf(fate, L.LoadOk(k.limiter, s.limiter, sub.mission, a));
      s.(limiter := L.Load(k.limiter, s.limiter, sub.mission, a),
         sent := if MH.ToAutopilot(sub.mission) in MH.Sends(sub, answer) then s.sent + iset{sub.mission} else s.sent)
  }

  /** What reaches the limiter by itself: late loads, takeoff requests served after
      the autopilot gave up, for whatever mission, and everything else. */
  predicate ReachesLimiter(s: System, i: L.Input) {
    i.DoLoad? ==> i.mission in s.late
  }

  function Next(k: Setup, s: System, m: Move): System {
    match m
    case Submit(sub, fate, a) => TakesSubmission(k, s, sub, fate, a)
    case HandOver(m) => if m in s.sent then AutopilotTakes(k, s, A.DoLoad(m), NO_QUERIES) else s
    case Command(cmd, at, q) => AutopilotTakes(k, s, A.DoCommand(cmd, at, CLOSED), q)
    case AutopilotTick(at, nav, q) => AutopilotTakes(k, s, A.DoTick(at, nav, CLOSED), q)
    case LimiterInput(i) => if ReachesLimiter(s, i) then s.(limiter := L.Step(k.limiter, s.limiter, i)) else s
    case PortInput(i) => s.(port := D.Step(k.port, s.port, i))
  }

  const NO_QUERIES := Queries(
    Unserved, Unserved, Unserved, 0.0, None, L.NoAnswer, L.NoAnswer, Unserved, Unserved,
    D.Answers(D.Failed(""), D.Failed(""), D.Clock(0.0, 0.0, 0.0), D.Failed(""), D.Failed("")))

  function After(k: Setup, s: System, ms: seq<Move>): System
    decreases |ms|
  {
    if ms == [] then s else Next(k, After(k, s, ms[..|ms| - 1]), ms[|ms| - 1])
  }

  predicate KoverFree(ms: seq<Move>) {
    forall i :: 0 <= i < |ms| ==> !(ms[i].Command? && ms[i].command.Kover?)
  }
}
