/** The autopilot as the object that runs. */
module Autopilot {
  import opened Common
  import opened Interval
  import opened Missions
  import opened AutopilotSpec

  class Autopilot {
    const config: Config
    var mission: Option<Mission>
    var mode: Mode
    var index: int
    var nav: Option<Nav>
    var kover: bool
    var lastError: string
    var startedAt: Option<real>
    var lastNavPoll: real
    var trace: seq<Event>

    ghost function Now(): State
      reads this
    {
      State(mission, mode, index, nav, kover, lastError, startedAt, lastNavPoll, trace)
    }

    constructor (config: Config)
      ensures this.config == config && Now() == INITIAL
    {
      this.config := config;
      mission, mode, index, nav, kover := None, Idle, 0, None, false;
      lastError, startedAt, lastNavPoll, trace := "", None, 0.0, [];
    }

    method Emit(e: Event)
      modifies this`trace
      ensures Now() == Log(old(Now()), e)
    {
      trace := trace + [e];
    }

    method HandleMissionLoad(m: Mission)
      modifies this
      ensures Now() == Load(old(Now()), m)
    {
      mission := Some(m);
      if |m.steps| > 0 {
        index := 0;
      } else {
        index := -1;
      }
      mode := MissionLoaded;
      Emit(Loaded(m));
    }

    /** The gates in order; the first one that is not open ends the pass. */
    method CheckGates(g: Gates) returns (gate: Gate)
      ensures gate == AllGates(mission, g)
    {
      gate := LimiterGate(mission, g);
      if gate != Open {
        return;
      }
      if !g.takeoffFlag && !g.takeoffOk {
        return Refuse("orvd_takeoff_denied");
      }
      if g.departed {
        return Open;
      }
      if g.dock == DockPending {
        return Wait;
      }
      if g.dock != DockOk {
        return Refuse("droneport_denied");
      }
      return Open;
    }

    method RunPreFlight(now: real, g: Gates)
      modifies this
      ensures Now() == StepPreFlight(config, old(Now()), now, g)
    {
      if mode != PreFlight {
        return;
      }
      if config.preflightTimeout > 0.0 && startedAt.Some? && now - startedAt.value > config.preflightTimeout {
        mode := Aborted;
        lastError := "preflight_timeout";
        return;
      }
      var gate := CheckGates(g);
      match gate
      case Wait =>
      case Refuse(e) =>
        mode := Aborted;
        lastError := e;
      case Open =>
        mode := Executing;
        lastError := "";
        Emit(PreflightPassed(if mission.Some? then mission.value.id else ""));
    }

    method HoldPosition(n: Nav)
      modifies this`trace
      ensures Now() == HoldClosed(old(Now()), n)
    {
      Emit(Hold(HoldAt(n)));
      Emit(Door(false));
    }

    method FinishMission(id: string)
      modifies this`mode, this`trace
      ensures Now() == Finish(old(Now()), id)
    {
      mode := Completed;
      Emit(MissionDone(id));
      if id != "" {
        Emit(DroneportLand(id));
        Emit(OrvdComplete(id));
      }
    }

    method Descending(n: Nav)
      modifies this
      ensures Now() == DoKover(old(Now()), n)
    {
      Emit(Descend(Target(0.0, 0.0, -1.0, 0.0, n.lat, n.lon, n.heading, false)));
      Emit(Door(false));
      if n.alt <= 0.5 {
        kover := false;
        mode := Paused;
      }
    }

    method FlyMission(m: Mission, n: Nav)
      modifies this
      ensures Now() == Fly(config, old(Now()), m, n)
    {
      if |m.steps| == 0 {
        return;
      }
      var i := index;
      if i < 0 {
        i := 0;
      }
      if i >= |m.steps| {
        if mode == Executing {
          FinishMission(m.id);
        }
        return;
      }
      var w := m.steps[i];
      if w.NotObject? {
        return;
      }
      if mode == Paused {
        HoldPosition(n);
        return;
      }
      if Near(config, n, w) {
        if i >= |m.steps| - 1 {
          ghost var s := Now();
          index := |m.steps|;
          FinishMission(m.id);
          assert Now() == Finish(s.(index := |m.steps|), m.id);
          HoldPosition(n);
          return;
        }
        index := i + 1;
        return;
      }
      Emit(Leg(i, LegTarget(config, n, w)));
      Emit(Door(w.drop));
    }

    method ControlStep(now: real, g: Gates)
      modifies this
      ensures Now() == StepControl(config, old(Now()), now, g)
    {
      if mode == PreFlight {
        RunPreFlight(now, g);
        return;
      }
      if nav.None? {
        return;
      }
      if kover {
        Descending(nav.value);
        return;
      }
      if mission.None? || (mode != Executing && mode != Paused) {
        return;
      }
      FlyMission(mission.value, nav.value);
    }

    method PollNavigationIfDue(now: real, reply: Option<Nav>)
      modifies this`nav, this`lastNavPoll
      ensures Now() == PollNavigation(config, old(Now()), now, reply)
    {
      if now - lastNavPoll < config.navInterval {
        return;
      }
      lastNavPoll := now;
      if reply.Some? {
        nav := reply;
      }
    }

    method ControlTick(now: real, navReply: Option<Nav>, g: Gates)
      modifies this
      ensures Now() == Step(config, old(Now()), DoTick(now, navReply, g))
    {
      ghost var s := Now();
      PollNavigationIfDue(now, navReply);
      ghost var s1 := Now();
      ControlStep(now, g);
      assert s1 == PollNavigation(config, s, now, navReply) && Now() == StepControl(config, s1, now, g);
    }

    method SafeActuatorStop()
      modifies this`trace
      ensures Now() == SafeStop(old(Now()))
    {
      if nav.Some? {
        Emit(Hold(HoldAt(nav.value)));
      }
      Emit(Door(false));
    }

    method HandleStart(now: real, g: Gates)
      modifies this
      ensures Now() == Handle(config, old(Now()), Start, now, g)
    {
      if mission.None? {
        return;
      }
      lastError := "";
      startedAt := Some(now);
      if mode != MissionLoaded && mode != Idle {
        return;
      }
      mode := PreFlight;
      RunPreFlight(now, g);
    }

    method HandleCmd(cmd: Command, now: real, g: Gates)
      modifies this
      ensures Now() == Handle(config, old(Now()), cmd, now, g)
    {
      match cmd
      case Start =>
        HandleStart(now, g);
      case Pause =>
        if mode == Executing {
          mode := Paused;
        }
      case Resume =>
        if mode == Paused {
          mode := Executing;
        }
      case Abort =>
        kover := false;
        mode := Aborted;
        SafeActuatorStop();
      case Reset =>
        mission := None;
        index := 0;
        kover := false;
        mode := Idle;
      case Stop =>
        kover := false;
        mode := EmergencyStop;
        SafeActuatorStop();
      case Kover =>
        kover := true;
        if mode != Executing && mode != Paused {
          mode := Executing;
        }
      case UnknownCommand =>
    }
  }
}
