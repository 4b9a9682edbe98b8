/** End-to-end clearance: no flight leg and no open cargo bay without a cleared mission. */
module ClearanceTheory {
  import opened Common
  import opened Missions
  import MH = MissionHandler
  import L = LimiterSpec
  import LT = LimiterTheory
  import D = DronePortSpec
  import DT = DronePortTheory
  import A = AutopilotSpec
  import AT = AutopilotTheory
  import opened Clearance

  // ---- what a passed preflight has seen -------------------------------------------------------

  /** The limiter was AUTHORIZED for this mission id and the takeoff gate was open;
      with a connected air traffic system the handshake of the stored mission and a
      takeoff grant newer than the latest load, revocation and completion are on the
      limiter's trace; with a drone manager the session had departed, and its latest
      approved operation was a takeoff. */
  ghost predicate Evidence(k: Setup, m: Mission, l: L.State, p: D.State) {
    && l.status.Authorized? && l.missionId == m.id
    && l.mission.Some? && l.mission.value.id == m.id && InBounds(l.mission.value, k.limiter.maxMissionAlt)
    && (k.limiter.enabled ==> l.takeoff)
    && (k.limiter.enabled && !k.limiter.mock ==> LT.Shook(l.trace, l.mission.value) && LT.FreshGrant(l.trace))
    && (k.port.managed ==> p.phase.Departed?)
    && (k.port.managed && !k.port.mock ==> DT.LastOp(p.trace) == DT.Takeoff)
  }

  /** Where a mission was loaded and where its preflight passed. */
  datatype Marks = Marks(load: nat, pass: nat)

  ghost predicate ClearedBy(k: Setup, log: seq<Note>, m: Mission, w: Marks) {
    && w.load < w.pass < |log|
    && log[w.load] == Loaded(m)
    && (forall i :: w.load < i < |log| ==> !log[i].Loaded?)
    && log[w.pass].Passed? && log[w.pass].mission == m
    && Evidence(k, m, log[w.pass].limiter, log[w.pass].port)
  }

  /** `m` is the mission loaded last, and its preflight has passed since. */
  ghost predicate Cleared(k: Setup, log: seq<Note>, m: Mission) {
    exists w :: ClearedBy(k, log, m, w)
  }

  ghost predicate LoadedAt(log: seq<Note>, m: Mission, i: nat) {
    i < |log| && log[i] == Loaded(m) && forall j :: i < j < |log| ==> !log[j].Loaded?
  }

  ghost predicate LoadedLast(log: seq<Note>, m: Mission) {
    exists i: nat :: LoadedAt(log, m, i)
  }

  predicate NeedsClearance(n: Note) {
    n.FlightLeg? || n.CargoOpened?
  }

  /** A leg flies at the height of a step of its mission; the bay opens only for a
      mission that drops something. */
  predicate Justified(n: Note) {
    match n
    case FlightLeg(m, i, alt) => i < |m.steps| && m.steps[i].Waypoint? && alt == Float(m.steps[i].alt)
    case CargoOpened(m) => exists i :: 0 <= i < |m.steps| && m.steps[i].Waypoint? && m.steps[i].drop
    case _ => true
  }

  /** Every leg and every opening is justified by its mission, was preceded by the
      clearance of that mission, and the mission is within the limiter's bounds. */
  ghost predicate AllCleared(k: Setup, log: seq<Note>) {
    forall i: nat :: i < |log| && NeedsClearance(log[i]) ==>
      Cleared(k, log[..i], log[i].mission) && InBounds(log[i].mission, k.limiter.maxMissionAlt) && Justified(log[i])
  }

  lemma ClearedAppend(k: Setup, log: seq<Note>, n: Note, m: Mission)
    requires Cleared(k, log, m) && !n.Loaded?
    ensures Cleared(k, log + [n], m)
  {
    var w :| ClearedBy(k, log, m, w);
    assert ClearedBy(k, log + [n], m, w);
  }

  lemma LoadedAppend(log: seq<Note>, n: Note, m: Mission)
    requires LoadedLast(log, m) && !n.Loaded?
    ensures LoadedLast(log + [n], m)
  {
    var i: nat :| LoadedAt(log, m, i);
    assert LoadedAt(log + [n], m, i);
  }

  lemma PassClears(k: Setup, log: seq<Note>, m: Mission, l: L.State, p: D.State)
    requires LoadedLast(log, m) && Evidence(k, m, l, p)
    ensures Cleared(k, log + [Passed(m, l, p)], m)
  {
    var i: nat :| LoadedAt(log, m, i);
    var t := log + [Passed(m, l, p)];
    assert t[|log|] == Passed(m, l, p);
    assert ClearedBy(k, t, m, Marks(i, |log|));
  }

  lemma AllClearedAppend(k: Setup, log: seq<Note>, n: Note)
    requires AllCleared(k, log)
    requires NeedsClearance(n) ==>
      Cleared(k, log, n.mission) && InBounds(n.mission, k.limiter.maxMissionAlt) && Justified(n)
    ensures AllCleared(k, log + [n])
  {
    var t := log + [n];
    forall i: nat | i < |t| && NeedsClearance(t[i])
      ensures Cleared(k, t[..i], t[i].mission) && InBounds(t[i].mission, k.limiter.maxMissionAlt) && Justified(t[i])
    {
      assert t[..i] == log[..i];
      if i == |log| {
        assert log[..i] == log;
      }
    }
  }

  // ---- the autopilot, seen from outside ----------------------------------------------------------

  /** An event that neither loads nor clears; moving the drone along or opening the
      door happens only while executing, and as the mission has it. */
  predicate Plain(s: A.State, e: A.Event) {
    && !e.Loaded? && !e.PreflightPassed?
    && (e.Leg? || (e.Door? && e.open) ==> s.mode.Executing? && s.mission.Some?)
    && (s.mission.Some? && e.Leg? ==> Justified(FlightLeg(s.mission.value, e.step, e.target.alt)))
    && (s.mission.Some? && e.Door? && e.open ==> Justified(CargoOpened(s.mission.value)))
  }

  predicate InFlight(m: A.Mode) {
    m.Executing? || m.Paused?
  }

  /** A step that only appends plain events and does not take off. */
  ghost predicate PlainStep(s: A.State, s': A.State) {
    && |s.trace| <= |s'.trace| && s'.trace[..|s.trace|] == s.trace
    && (forall i :: |s.trace| <= i < |s'.trace| ==> Plain(s, s'.trace[i]))
    && (InFlight(s'.mode) ==> InFlight(s.mode))
    && (s'.mission == s.mission || (s'.mission.None? && !InFlight(s'.mode)))
  }

  lemma PlainLog(s: A.State, s': A.State, e: A.Event)
    requires PlainStep(s, s') && Plain(s, e)
    ensures PlainStep(s, A.Log(s', e))
  {
  }

  lemma FinishPlain(s: A.State, s0: A.State, id: string)
    requires PlainStep(s, s0)
    ensures PlainStep(s, A.Finish(s0, id))
  {
    var s1 := s0.(mode := A.Completed);
    PlainLog(s, s1, A.MissionDone(id));
    var s2 := A.Log(s1, A.MissionDone(id));
    PlainLog(s, s2, A.DroneportLand(id));
    PlainLog(s, A.Log(s2, A.DroneportLand(id)), A.OrvdComplete(id));
  }

  lemma HoldPlain(s: A.State, s0: A.State, n: A.Nav)
    requires PlainStep(s, s0)
    ensures PlainStep(s, A.HoldClosed(s0, n))
  {
    PlainLog(s, s0, A.Hold(A.HoldAt(n)));
    PlainLog(s, A.Log(s0, A.Hold(A.HoldAt(n))), A.Door(false));
  }

  lemma FlyPlain(c: A.Config, s: A.State, s0: A.State, m: Mission, n: A.Nav)
    requires InFlight(s.mode) && s.mission == Some(m) && PlainStep(s, s0) && s0.mode == s.mode && s0.mission == s.mission
    ensures PlainStep(s, A.Fly(c, s0, m, n))
  {
    var i, r := if s0.index < 0 then 0 else s0.index, A.Fly(c, s0, m, n);
    if m.steps == [] || (i >= |m.steps| && s.mode.Paused?) || (i < |m.steps| && m.steps[i].NotObject?) {
      assert r == s0;
    } else if i >= |m.steps| {
      assert r == A.Finish(s0, m.id);
      FinishPlain(s, s0, m.id);
    } else if s.mode.Paused? {
      assert r == A.HoldClosed(s0, n);
      HoldPlain(s, s0, n);
    } else if !A.Near(c, n, m.steps[i]) {
      var e := A.Leg(i, A.LegTarget(c, n, m.steps[i]));
      assert r == A.Log(A.Log(s0, e), A.Door(m.steps[i].drop));
      PlainLog(s, s0, e);
      PlainLog(s, A.Log(s0, e), A.Door(m.steps[i].drop));
    } else if i >= |m.steps| - 1 {
      var s1 := s0.(index := |m.steps|);
      assert r == A.HoldClosed(A.Finish(s1, m.id), n);
      FinishPlain(s, s1, m.id);
      HoldPlain(s, A.Finish(s1, m.id), n);
    } else {
      assert r == s0.(index := i + 1);
    }
  }

  lemma SafeStopPlain(s: A.State, s0: A.State)
    requires PlainStep(s, s0)
    ensures PlainStep(s, A.SafeStop(s0))
  {
    if s0.nav.Some? {
      PlainLog(s, s0, A.Hold(A.HoldAt(s0.nav.value)));
      PlainLog(s, A.Log(s0, A.Hold(A.HoldAt(s0.nav.value))), A.Door(false));
    } else {
      PlainLog(s, s0, A.Door(false));
    }
  }

  /** A preflight pass: all gates open, one event, and the mission is flown. */
  ghost predicate PassStep(s: A.State, g: A.Gates, s': A.State) {
    && s.mission.Some? && A.AllGates(s.mission, g) == A.Open
    && s'.trace == s.trace + [A.PreflightPassed(A.MissionId(s))]
    && s'.mission == s.mission
  }

  lemma PreFlightKinds(k: Setup, s: A.State, s0: A.State, now: real, g: A.Gates)
    requires AT.Coherent(s) && s0.trace == s.trace && s0.mission == s.mission && s0.mission.Some?
    requires s0.mode.PreFlight? && !InFlight(s.mode)
    ensures var s' := A.StepPreFlight(k.autopilot, s0, now, g);
      PlainStep(s, s') || (PassStep(s, g, s') && !A.TimedOut(k.autopilot, s0, now))
  {
  }

  lemma CommandKinds(k: Setup, s: A.State, cmd: A.Command, now: real, g: A.Gates)
    requires AT.Coherent(s) && !s.kover && !cmd.Kover?
    ensures var s' := A.Handle(k.autopilot, s, cmd, now, g);
      PlainStep(s, s') || (PassStep(s, g, s') && WillAsk(k, s, A.DoCommand(cmd, now, g)))
  {
    match cmd
    case Start =>
      if s.mission.Some? && (s.mode.MissionLoaded? || s.mode.Idle?) {
        PreFlightKinds(k, s, s.(lastError := "", startedAt := Some(now), mode := A.PreFlight), now, g);
      }
    case Abort =>
      SafeStopPlain(s, s.(kover := false, mode := A.Aborted));
    case Stop =>
      SafeStopPlain(s, s.(kover := false, mode := A.EmergencyStop));
    case _ =>
  }

  lemma TickKinds(k: Setup, s: A.State, now: real, nav: Option<A.Nav>, g: A.Gates)
    requires AT.Coherent(s) && !s.kover
    ensures var s' := A.Step(k.autopilot, s, A.DoTick(now, nav, g));
      PlainStep(s, s') || (PassStep(s, g, s') && WillAsk(k, s, A.DoTick(now, nav, g)))
  {
    var s1 := A.PollNavigation(k.autopilot, s, now, nav);
    if s1.mode.PreFlight? {
      PreFlightKinds(k, s, s1, now, g);
    } else if s1.nav.Some? && s1.mission.Some? && InFlight(s1.mode) {
      FlyPlain(k.autopilot, s, s1, s1.mission.value, s1.nav.value);
    }
  }

  // ---- what every move keeps -------------------------------------------------------------------------

  /** A mission on its way to the autopilot, or in it, was accepted by the limiter. */
  predicate MissionFits(k: Setup, m: Option<Mission>) {
    m.Some? ==> m.value.id != "" && InBounds(m.value, k.limiter.maxMissionAlt)
  }

  ghost predicate LimiterFits(c: L.Config, l: L.State) {
    && (l.status.Authorized? ==>
          && l.missionId != "" && l.mission.Some? && l.mission.value.id == l.missionId
          && InBounds(l.mission.value, c.maxMissionAlt))
    && (c.enabled && !c.mock ==> LT.Sound(c, l))
  }

  ghost predicate PortFits(c: D.Config, p: D.State) {
    c.managed && !c.mock ==> DT.Sound(c, p)
  }

  /** The log accounts for the state of the autopilot. */
  ghost predicate LogFits(k: Setup, a: A.State, log: seq<Note>) {
    && AllCleared(k, log)
    && (a.mission.Some? ==> LoadedLast(log, a.mission.value))
    && (InFlight(a.mode) ==> a.mission.Some? && Cleared(k, log, a.mission.value))
  }

  ghost predicate Inv(k: Setup, s: System) {
    && AT.Coherent(s.autopilot) && !s.autopilot.kover
    && MissionFits(k, s.autopilot.mission)
    && (forall m <- s.sent :: MissionFits(k, Some(m))) && (forall m <- s.late :: m.id != "")
    && LimiterFits(k.limiter, s.limiter) && PortFits(k.port, s.port)
    && LogFits(k, s.autopilot, s.log)
  }

  lemma LoadFits(c: L.Config, l: L.State, m: Mission, a: L.LoadAnswers)
    requires LimiterFits(c, l) && m.id != ""
    ensures LimiterFits(c, L.Load(c, l, m, a))
    ensures L.LoadOk(c, l, m, a) ==> InBounds(m, c.maxMissionAlt)
  {
    if c.enabled && !c.mock {
      LT.LoadSound(c, l, m, a);
    }
  }

  /** The same mission, thought of the same way. */
  predicate SameMission(l: L.State, l': L.State) {
    l'.status == l.status && l'.missionId == l.missionId && l'.mission == l.mission
  }

  lemma TakeoffHolds(c: L.Config, l: L.State, mid: string, answer: L.Answer, telemetry: L.Answer)
    ensures SameMission(l, L.Takeoff(c, l, mid, answer, telemetry).0)
  {
  }

  /** Only a load changes which mission the limiter holds and what it thinks of it. */
  lemma StepHolds(c: L.Config, l: L.State, i: L.Input)
    requires !i.DoLoad?
    ensures SameMission(l, L.Step(c, l, i))
  {
    match i
    case DoTakeoff(mid, now, nav, answer, telemetry) =>
      TakeoffHolds(c, L.PollNavigation(c, l, now, nav), L.NamedMission(l, mid), answer, telemetry);
    case DoTick(now, nav, telemetry) =>
      assert SameMission(l, L.PollTelemetry(c, L.PollNavigation(c, l, now, nav), now, telemetry));
    case _ =>
  }

  lemma StepFits(c: L.Config, l: L.State, i: L.Input)
    requires LimiterFits(c, l) && !i.DoLoad?
    ensures LimiterFits(c, L.Step(c, l, i))
  {
    StepHolds(c, l, i);
    if c.enabled && !c.mock {
      LT.StepSound(c, l, i);
    }
  }

  // ---- the gates -----------------------------------------------------------------------------------------

  /** A takeoff request for the authorized mission keeps the facts, and a positive
      answer of a configured air traffic system leaves the flag up. */
  lemma RequestFits(c: L.Config, l: L.State, q: Queries)
    requires LimiterFits(c, l) && l.status.Authorized?
    ensures var (l', ok) := L.HandleTakeoff(c, l, l.missionId, q.now, q.navReply, q.granted, q.telemetry);
      LimiterFits(c, l') && SameMission(l, l') && (ok && c.enabled ==> l'.takeoff)
  {
    var i := L.DoTakeoff(l.missionId, q.now, q.navReply, q.granted, q.telemetry);
    StepFits(c, l, i);
    StepHolds(c, l, i);
    if c.enabled {
      RequestRaises(c, l, q);
    }
  }

  lemma RequestRaises(c: L.Config, l: L.State, q: Queries)
    requires LimiterFits(c, l) && l.status.Authorized? && c.enabled
    ensures var (l', ok) := L.HandleTakeoff(c, l, l.missionId, q.now, q.navReply, q.granted, q.telemetry);
      ok ==> l'.takeoff
  {
    if !c.mock {
      LT.TakeoffSound(c, L.PollNavigation(c, l, q.now, q.navReply), l.missionId, q.granted, q.telemetry);
    }
  }

  lemma TakeoffFits(k: Setup, s: System, mid: string, q: Queries, g: A.Gates)
    requires LimiterFits(k.limiter, s.limiter) && s.limiter.status.Authorized? && mid == s.limiter.missionId
    requires !g.takeoffFlag && !g.takeoffOk
    ensures var (l, g') := AskTakeoff(k, s, mid, q, g);
      && LimiterFits(k.limiter, l) && l.status.Authorized? && l.missionId == mid
      && (A.TakeoffGate(g') == A.Open && k.limiter.enabled ==> l.takeoff)
      && g'.limiter == g.limiter
  {
    RequestFits(k.limiter, s.limiter, q);
  }

  lemma DockFits(k: Setup, p: D.State, mid: string, q: Queries, g: A.Gates)
    requires PortFits(k.port, p) && !g.departed && g.dock.DockFailed?
    ensures var (p', g') := AskDock(k, p, mid, q, g);
      && PortFits(k.port, p')
      && (A.DockGate(g') == A.Open && k.port.managed ==> p'.phase.Departed?)
      && g'.limiter == g.limiter && g'.takeoffFlag == g.takeoffFlag && g'.takeoffOk == g.takeoffOk
  {
    if k.port.managed && !k.port.mock {
      DT.PreflightSound(k.port, p, mid, q.answers);
    }
  }

  /** The limiter and the port as the gates leave them; when all are open, the
      evidence of clearance. */
  ghost predicate AskedFits(k: Setup, m: Mission, r: Asked) {
    && LimiterFits(k.limiter, r.limiter) && PortFits(k.port, r.port)
    && (A.AllGates(Some(m), r.gates) == A.Open ==> Evidence(k, m, r.limiter, r.port))
  }

  lemma OpenGates(k: Setup, s: System, q: Queries, m: Mission)
    requires s.autopilot.mission == Some(m) && m.id != ""
    requires LimiterFits(k.limiter, s.limiter) && PortFits(k.port, s.port)
    ensures AskedFits(k, m, AskGates(k, s, q))
  {
    var g1 := AskStatus(s, q);
    if A.LimiterGate(Some(m), g1) == A.Open {
      assert s.limiter.status.Authorized? && s.limiter.missionId == m.id;
      TakeoffFits(k, s, m.id, q, g1);
      var (l, g2) := AskTakeoff(k, s, m.id, q, g1);
      if A.TakeoffGate(g2) == A.Open {
        DockFits(k, s.port, m.id, q, g2);
        var (p, g3) := AskDock(k, s.port, m.id, q, g2);
        assert AskGates(k, s, q) == Asked(l, p, g3);
        if A.DockGate(g3) == A.Open {
          ShowEvidence(k, m, l, p);
        }
      }
    }
  }

  lemma ShowEvidence(k: Setup, m: Mission, l: L.State, p: D.State)
    requires LimiterFits(k.limiter, l) && PortFits(k.port, p)
    requires l.status.Authorized? && l.missionId == m.id
    requires (k.limiter.enabled ==> l.takeoff) && (k.port.managed ==> p.phase.Departed?)
    ensures Evidence(k, m, l, p)
  {
  }

  // ---- the log ----------------------------------------------------------------------------------------------

  lemma {:induction false} PlainNotes(k: Setup, a: A.State, log: seq<Note>, es: seq<A.Event>, l: L.State, p: D.State)
    requires MissionFits(k, a.mission) && LogFits(k, a, log) && forall i :: 0 <= i < |es| ==> Plain(a, es[i])
    ensures LogFits(k, a, log + NotesOf(es, a.mission, l, p))
    decreases |es|
  {
    if es == [] {
      assert log + NotesOf(es, a.mission, l, p) == log;
    } else {
      var init, e := es[..|es| - 1], es[|es| - 1];
      PlainNotes(k, a, log, init, l, p);
      var sofar, more := log + NotesOf(init, a.mission, l, p), NoteOf(e, a.mission, l, p);
      assert log + NotesOf(es, a.mission, l, p) == sofar + more;
      if more == [] {
        assert sofar + more == sofar;
      } else {
        PlainNote(k, a, sofar, more[0]);
      }
    }
  }

  lemma PlainNote(k: Setup, a: A.State, log: seq<Note>, n: Note)
    requires MissionFits(k, a.mission) && LogFits(k, a, log) && InFlight(a.mode)
    requires NeedsClearance(n) && a.mission == Some(n.mission) && Justified(n)
    ensures LogFits(k, a, log + [n])
  {
    AllClearedAppend(k, log, n);
    LoadedAppend(log, n, n.mission);
    ClearedAppend(k, log, n, n.mission);
  }

  lemma PlainTakes(k: Setup, a: A.State, a': A.State, log: seq<Note>, l: L.State, p: D.State)
    requires MissionFits(k, a.mission) && LogFits(k, a, log) && PlainStep(a, a')
    ensures LogFits(k, a', log + NotesOf(NewEvents(a.trace, a'.trace), a.mission, l, p)) && MissionFits(k, a'.mission)
  {
    PlainNotes(k, a, log, NewEvents(a.trace, a'.trace), l, p);
  }

  lemma SingleNote(e: A.Event, before: seq<A.Event>, m: Option<Mission>, l: L.State, p: D.State)
    ensures NotesOf(NewEvents(before, before + [e]), m, l, p) == NoteOf(e, m, l, p)
  {
    assert NewEvents(before, before + [e]) == [e];
    assert [e][..0] == [];
  }

  lemma PassTakes(k: Setup, a: A.State, g: A.Gates, a': A.State, log: seq<Note>, l: L.State, p: D.State)
    requires LogFits(k, a, log) && PassStep(a, g, a') && Evidence(k, a.mission.value, l, p)
    ensures LogFits(k, a', log + NotesOf(NewEvents(a.trace, a'.trace), a.mission, l, p))
  {
    var m := a.mission.value;
    SingleNote(A.PreflightPassed(A.MissionId(a)), a.trace, a.mission, l, p);
    AllClearedAppend(k, log, Passed(m, l, p));
    PassClears(k, log, m, l, p);
    LoadedAppend(log, Passed(m, l, p), m);
  }

  lemma LoadTakes(k: Setup, a: A.State, m: Mission, log: seq<Note>, l: L.State, p: D.State)
    requires LogFits(k, a, log)
    ensures LogFits(k, A.Load(a, m), log + NotesOf(NewEvents(a.trace, A.Load(a, m).trace), a.mission, l, p))
  {
    SingleNote(A.Loaded(m), a.trace, a.mission, l, p);
    AllClearedAppend(k, log, Loaded(m));
    assert LoadedAt(log + [Loaded(m)], m, |log|);
  }

  // ---- moves and runs -------------------------------------------------------------------------------------------

  lemma KoverStaysOff(c: A.Config, a: A.State, i: A.Input)
    requires !a.kover && !AT.IsKover(i)
    ensures !A.Step(c, a, i).kover
  {
    if i.DoTick? {
      var a1 := A.PollNavigation(c, a, i.now, i.navReply);
      if a1.mission.Some? && a1.nav.Some? {
        assert !A.Fly(c, a1, a1.mission.value, a1.nav.value).kover;
      }
    }
  }

  /** The input with the answers of the gates filled in. */
  function Filled(i: A.Input, g: A.Gates): A.Input {
    match i
    case DoLoad(_) => i
    case DoCommand(cmd, now, _) => A.DoCommand(cmd, now, g)
    case DoTick(now, nav, _) => A.DoTick(now, nav, g)
  }

  function GatesFor(k: Setup, s: System, i: A.Input, q: Queries): Asked {
    if WillAsk(k, s.autopilot, i) then AskGates(k, s, q) else Asked(s.limiter, s.port, CLOSED)
  }

  lemma GatesForFits(k: Setup, s: System, i: A.Input, q: Queries)
    requires Inv(k, s)
    ensures var r := GatesFor(k, s, i, q);
      && LimiterFits(k.limiter, r.limiter) && PortFits(k.port, r.port)
      && (WillAsk(k, s.autopilot, i) ==> s.autopilot.mission.Some? && AskedFits(k, s.autopilot.mission.value, r))
  {
    if WillAsk(k, s.autopilot, i) {
      OpenGates(k, s, q, s.autopilot.mission.value);
    }
  }

  lemma TakesKinds(k: Setup, s: A.State, i: A.Input, g: A.Gates)
    requires AT.Coherent(s) && !s.kover && !AT.IsKover(i) && !i.DoLoad?
    ensures var s' := A.Step(k.autopilot, s, Filled(i, g));
      PlainStep(s, s') || (PassStep(s, g, s') && WillAsk(k, s, i))
  {
    match i
    case DoCommand(cmd, now, _) => CommandKinds(k, s, cmd, now, g);
    case DoTick(now, nav, _) => TickKinds(k, s, now, nav, g);
  }

  lemma TakesInv(k: Setup, s: System, i: A.Input, q: Queries)
    requires Inv(k, s) && !AT.IsKover(i) && (i.DoLoad? ==> MissionFits(k, Some(i.mission)))
    ensures Inv(k, AutopilotTakes(k, s, i, q))
  {
    var r, a := GatesFor(k, s, i, q), s.autopilot;
    GatesForFits(k, s, i, q);
    var i' := Filled(i, r.gates);
    var a' := A.Step(k.autopilot, a, i');
    AT.StepCoherent(k.autopilot, a, i');
    KoverStaysOff(k.autopilot, a, i');
    if i.DoLoad? {
      LoadTakes(k, a, i.mission, s.log, r.limiter, r.port);
    } else {
      TakesKinds(k, a, i, r.gates);
      if PlainStep(a, a') {
        PlainTakes(k, a, a', s.log, r.limiter, r.port);
      } else {
        PassTakes(k, a, r.gates, a', s.log, r.limiter, r.port);
      }
    }
  }

  predicate IsKover(m: Move) {
    m.Command? && m.command.Kover?
  }

  lemma SubmitInv(k: Setup, s: System, sub: MH.Submission, fate: Fate, a: L.LoadAnswers)
    requires Inv(k, s)
    ensures Inv(k, TakesSubmission(k, s, sub, fate, a))
  {
    if MH.Sends(sub, MH.NoAnswer) != [] {
      LoadFits(k.limiter, s.limiter, sub.mission, a);
    }
  }

  lemma NextInv(k: Setup, s: System, m: Move)
    requires Inv(k, s) && !IsKover(m)
    ensures Inv(k, Next(k, s, m))
  {
    match m
    case Submit(sub, fate, a) => SubmitInv(k, s, sub, fate, a);
    case HandOver(m) =>
      if m in s.sent {
        TakesInv(k, s, A.DoLoad(m), NO_QUERIES);
      }
    case Command(cmd, at, q) => TakesInv(k, s, A.DoCommand(cmd, at, CLOSED), q);
    case AutopilotTick(at, nav, q) => TakesInv(k, s, A.DoTick(at, nav, CLOSED), q);
    case LimiterInput(i) =>
      if ReachesLimiter(s, i) && i.DoLoad? {
        LoadFits(k.limiter, s.limiter, i.mission, i.answers);
      } else if ReachesLimiter(s, i) {
        StepFits(k.limiter, s.limiter, i);
      }
    case PortInput(i) =>
      if k.port.managed && !k.port.mock {
        DT.StepSound(k.port, s.port, i);
      }
  }

  lemma InitialInv(k: Setup, maxDistance: real, maxDeviation: real)
    ensures Inv(k, Initial(k, maxDistance, maxDeviation))
  {
  }

  lemma {:induction false} InvOverRuns(k: Setup, maxDistance: real, maxDeviation: real, ms: seq<Move>)
    requires KoverFree(ms)
    ensures Inv(k, After(k, Initial(k, maxDistance, maxDeviation), ms))
    decreases |ms|
  {
    if ms == [] {
      InitialInv(k, maxDistance, maxDeviation);
    } else {
      InvOverRuns(k, maxDistance, maxDeviation, ms[..|ms| - 1]);
      NextInv(k, After(k, Initial(k, maxDistance, maxDeviation), ms[..|ms| - 1]), ms[|ms| - 1]);
    }
  }

  /** End-to-end clearance: in every run of the composed system without the descent
      override, each flight leg and each opening of the cargo bay belongs to a
      mission within the limiter's bounds that was loaded last and whose preflight
      has passed since, with the limiter AUTHORIZED for it and both gates open; the
      leg flies at the height of a step of that mission. */
  lemma EndToEndClearance(k: Setup, maxDistance: real, maxDeviation: real, ms: seq<Move>)
    requires KoverFree(ms)
    ensures AllCleared(k, After(k, Initial(k, maxDistance, maxDeviation), ms).log)
  {
    InvOverRuns(k, maxDistance, maxDeviation, ms);
  }

  /** So every leg of every run stays between the ground and the limiter's ceiling. */
  lemma LegsStayBelowTheCeiling(k: Setup, maxDistance: real, maxDeviation: real, ms: seq<Move>, i: nat)
    requires KoverFree(ms)
    requires var log := After(k, Initial(k, maxDistance, maxDeviation), ms).log; i < |log| && log[i].FlightLeg?
    ensures 0.0 <= After(k, Initial(k, maxDistance, maxDeviation), ms).log[i].alt <= k.limiter.maxMissionAlt
  {
    EndToEndClearance(k, maxDistance, maxDeviation, ms);
    var n := After(k, Initial(k, maxDistance, maxDeviation), ms).log[i];
    assert NeedsClearance(n) && Justified(n) && InBounds(n.mission, k.limiter.maxMissionAlt);
    assert StepInBounds(n.mission.steps[n.step], k.limiter.maxMissionAlt);
  }
}
