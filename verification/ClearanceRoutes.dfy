/** Is the mission that is flown the one the limiter stores and the air traffic
    system authorized? Clearance goes by mission id, so that depends on the ids. */
module ClearanceRoutes {
  import opened Common
  import opened Missions
  import MH = MissionHandler
  import L = LimiterSpec
  import LT = LimiterTheory
  import D = DronePortSpec
  import DT = DronePortTheory
  import DR = DronePortReply
  import A = AutopilotSpec
  import AT = AutopilotTheory
  import opened Clearance
  import opened ClearanceTheory

  /** Every preflight passed while the limiter stored the very mission that is flown. */
  ghost predicate Matched(log: seq<Note>) {
    forall i :: 0 <= i < |log| && log[i].Passed? ==> log[i].limiter.mission == Some(log[i].mission)
  }

  /** A mission the limiter can come to authorize. */
  predicate Acceptable(k: Setup, m: Mission) {
    m.id != "" && InBounds(m, k.limiter.maxMissionAlt)
  }

  /** No id stands for two different acceptable missions. */
  ghost predicate OnePerId(k: Setup, S: iset<Mission>) {
    forall a, b :: a in S && b in S && Acceptable(k, a) && Acceptable(k, b) && a.id == b.id ==> a == b
  }

  /** Only missions of the set are submitted. */
  ghost predicate SubmitsFrom(ms: seq<Move>, S: iset<Mission>) {
    forall i :: 0 <= i < |ms| ==> SubmitFrom(ms[i], S)
  }

  ghost predicate SubmitFrom(m: Move, S: iset<Mission>) {
    m.Submit? && m.sub.Readable? ==> m.sub.mission in S
  }

  /** A session that can ever depart: a drone manager needs an orchestrator, or the mock. */
  predicate CanDepart(c: D.Config) {
    c.managed ==> c.orchestrated || c.mock
  }

  // ---- unambiguous ids are enough -----------------------------------------------------------

  ghost predicate In(m: Option<Mission>, S: iset<Mission>) {
    m.Some? ==> m.value in S
  }

  ghost predicate Drawn(k: Setup, S: iset<Mission>, s: System) {
    && In(s.autopilot.mission, S) && In(s.limiter.mission, S)
    && (forall m <- s.sent :: m in S) && (forall m <- s.late :: m in S)
    && (!CanDepart(k.port) ==> !s.port.phase.Departed?)
  }

  lemma LoadIn(c: L.Config, l: L.State, m: Mission, a: L.LoadAnswers, S: iset<Mission>)
    requires In(l.mission, S) && m in S
    ensures In(L.Load(c, l, m, a).mission, S)
  {
  }

  lemma NeverDeparts(c: D.Config, p: D.State, i: D.Input)
    requires !CanDepart(c) && !p.phase.Departed?
    ensures !D.Step(c, p, i).phase.Departed?
  {
  }

  /** Asking the gates changes no mission and makes no session depart that cannot. */
  lemma AskedDrawn(k: Setup, s: System, q: Queries)
    requires !CanDepart(k.port) ==> !s.port.phase.Departed?
    ensures var r := AskGates(k, s, q);
      r.limiter.mission == s.limiter.mission && (!CanDepart(k.port) ==> !r.port.phase.Departed?)
  {
    var mid := A.MissionId(s.autopilot);
    TakeoffHolds(k.limiter, L.PollNavigation(k.limiter, s.limiter, q.now, q.navReply),
                 L.NamedMission(s.limiter, mid), q.granted, q.telemetry);
    if !CanDepart(k.port) {
      NeverDeparts(k.port, s.port, D.DoPreflight(mid, q.answers));
    }
  }

  lemma GatesForDrawn(k: Setup, s: System, i: A.Input, q: Queries)
    requires !CanDepart(k.port) ==> !s.port.phase.Departed?
    ensures var r := GatesFor(k, s, i, q);
      r.limiter.mission == s.limiter.mission && (!CanDepart(k.port) ==> !r.port.phase.Departed?)
  {
    AskedDrawn(k, s, q);
  }

  ghost predicate NoPass(ns: seq<Note>) {
    forall i :: 0 <= i < |ns| ==> !ns[i].Passed?
  }

  lemma {:induction false} PlainPassesNothing(a: A.State, es: seq<A.Event>, l: L.State, p: D.State)
    requires forall i :: 0 <= i < |es| ==> Plain(a, es[i])
    ensures NoPass(NotesOf(es, a.mission, l, p))
    decreases |es|
  {
    if es != [] {
      PlainPassesNothing(a, es[..|es| - 1], l, p);
    }
  }

  lemma MatchedAppend(log: seq<Note>, ns: seq<Note>)
    requires Matched(log) && Matched(ns)
    ensures Matched(log + ns)
  {
  }

  /** A preflight of the autopilot's mission passed with this limiter and session. */
  ghost predicate IsPass(k: Setup, ns: seq<Note>, m: Option<Mission>, l: L.State, p: D.State) {
    m.Some? && ns == [Passed(m.value, l, p)] && Evidence(k, m.value, l, p)
  }

  /** The notes of one input to the autopilot: no preflight passes, or exactly one,
      with the limiter and the session as the gates left them. */
  lemma TakesNotes(k: Setup, s: System, i: A.Input, q: Queries) returns (ns: seq<Note>)
    requires Inv(k, s) && !AT.IsKover(i)
    ensures AutopilotTakes(k, s, i, q).log == s.log + ns
    ensures var r := GatesFor(k, s, i, q); NoPass(ns) || IsPass(k, ns, s.autopilot.mission, r.limiter, r.port)
  {
    var r, a := GatesFor(k, s, i, q), s.autopilot;
    var a' := A.Step(k.autopilot, a, Filled(i, r.gates));
    ns := NotesOf(NewEvents(a.trace, a'.trace), a.mission, r.limiter, r.port);
    if i.DoLoad? {
      SingleNote(A.Loaded(i.mission), a.trace, a.mission, r.limiter, r.port);
    } else {
      GatesForFits(k, s, i, q);
      TakesKinds(k, a, i, r.gates);
      if PlainStep(a, a') {
        PlainPassesNothing(a, NewEvents(a.trace, a'.trace), r.limiter, r.port);
      } else {
        SingleNote(A.PreflightPassed(A.MissionId(a)), a.trace, a.mission, r.limiter, r.port);
      }
    }
  }

  /** What the autopilot takes in leaves the missions drawn. */
  lemma TakesDrawn(k: Setup, S: iset<Mission>, s: System, i: A.Input, q: Queries)
    requires Inv(k, s) && Drawn(k, S, s) && !AT.IsKover(i) && (i.DoLoad? ==> i.mission in s.sent)
    ensures Drawn(k, S, AutopilotTakes(k, s, i, q))
  {
    GatesForDrawn(k, s, i, q);
    if !i.DoLoad? {
      TakesKinds(k, s.autopilot, i, GatesFor(k, s, i, q).gates);
    }
  }

  lemma NextDrawn(k: Setup, S: iset<Mission>, s: System, m: Move)
    requires Inv(k, s) && Drawn(k, S, s) && !IsKover(m) && SubmitFrom(m, S)
    ensures Drawn(k, S, Next(k, s, m))
  {
    match m
    case Submit(sub, fate, a) =>
      if MH.Sends(sub, MH.NoAnswer) != [] {
        LoadIn(k.limiter, s.limiter, sub.mission, a, S);
      }
    case HandOver(m) =>
      if m in s.sent {
        TakesDrawn(k, S, s, A.DoLoad(m), NO_QUERIES);
      }
    case Command(cmd, at, q) => TakesDrawn(k, S, s, A.DoCommand(cmd, at, CLOSED), q);
    case AutopilotTick(at, nav, q) => TakesDrawn(k, S, s, A.DoTick(at, nav, CLOSED), q);
    case LimiterInput(i) =>
      if ReachesLimiter(s, i) && i.DoLoad? {
        LoadIn(k.limiter, s.limiter, i.mission, i.answers, S);
      } else if ReachesLimiter(s, i) {
        StepHolds(k.limiter, s.limiter, i);
      }
    case PortInput(i) =>
      if !CanDepart(k.port) {
        NeverDeparts(k.port, s.port, i);
      }
  }

  lemma PassMatches(k: Setup, S: iset<Mission>, m: Mission, l: L.State, p: D.State)
    requires Evidence(k, m, l, p) && MissionFits(k, Some(m)) && m in S && In(l.mission, S)
    requires CanDepart(k.port) ==> OnePerId(k, S)
    requires !CanDepart(k.port) ==> !p.phase.Departed?
    ensures l.mission == Some(m)
  {
    assert Acceptable(k, m) && Acceptable(k, l.mission.value);
  }

  lemma TakesMatched(k: Setup, S: iset<Mission>, s: System, i: A.Input, q: Queries)
    requires Inv(k, s) && Drawn(k, S, s) && Matched(s.log) && (CanDepart(k.port) ==> OnePerId(k, S)) && !AT.IsKover(i)
    ensures Matched(AutopilotTakes(k, s, i, q).log)
  {
    var r := GatesFor(k, s, i, q);
    GatesForDrawn(k, s, i, q);
    var ns := TakesNotes(k, s, i, q);
    if !NoPass(ns) {
      PassMatches(k, S, s.autopilot.mission.value, r.limiter, r.port);
    }
    MatchedAppend(s.log, ns);
  }

  lemma NextMatched(k: Setup, S: iset<Mission>, s: System, m: Move)
    requires Inv(k, s) && Drawn(k, S, s) && Matched(s.log) && (CanDepart(k.port) ==> OnePerId(k, S)) && !IsKover(m)
    ensures Matched(Next(k, s, m).log)
  {
    match m
    case HandOver(m) => TakesMatched(k, S, s, A.DoLoad(m), NO_QUERIES);
    case Command(cmd, at, q) => TakesMatched(k, S, s, A.DoCommand(cmd, at, CLOSED), q);
    case AutopilotTick(at, nav, q) => TakesMatched(k, S, s, A.DoTick(at, nav, CLOSED), q);
    case _ =>
  }

  lemma {:induction false} DrawnOverRuns(k: Setup, S: iset<Mission>, maxDistance: real, maxDeviation: real, ms: seq<Move>)
    requires KoverFree(ms) && SubmitsFrom(ms, S)
    ensures Drawn(k, S, After(k, Initial(k, maxDistance, maxDeviation), ms))
    decreases |ms|
  {
    if ms != [] {
      var before := ms[..|ms| - 1];
      DrawnOverRuns(k, S, maxDistance, maxDeviation, before);
      InvOverRuns(k, maxDistance, maxDeviation, before);
      NextDrawn(k, S, After(k, Initial(k, maxDistance, maxDeviation), before), ms[|ms| - 1]);
    }
  }

  lemma {:induction false} MatchedOverRuns(k: Setup, S: iset<Mission>, maxDistance: real, maxDeviation: real, ms: seq<Move>)
    requires KoverFree(ms) && SubmitsFrom(ms, S) && (CanDepart(k.port) ==> OnePerId(k, S))
    ensures Matched(After(k, Initial(k, maxDistance, maxDeviation), ms).log)
    decreases |ms|
  {
    if ms != [] {
      var before := ms[..|ms| - 1];
      MatchedOverRuns(k, S, maxDistance, maxDeviation, before);
      DrawnOverRuns(k, S, maxDistance, maxDeviation, before);
      InvOverRuns(k, maxDistance, maxDeviation, before);
      NextMatched(k, S, After(k, Initial(k, maxDistance, maxDeviation), before), ms[|ms| - 1]);
    }
  }

  // ---- a world that says yes -------------------------------------------------------------------

  const YES_LOAD := L.LoadAnswers(L.Registered, L.RegisteredMission, L.AuthorizedMission)

  function Listing(c: D.Config): Body {
    map["drones" := Arr([Obj(map["drone_id" := Str(c.droneId), "battery" := Num(c.minBattery + 1.0)])])]
  }

  const APPROVAL: Body := map["battery" := Num(100.0), "approved" := Bool(true)]

  function YesAnswers(c: D.Config): D.Answers {
    D.Answers(D.Reply(Some(Listing(c))), D.Failed(""), D.Clock(0.0, 0.0, 0.0), D.Failed(""), D.Reply(Some(APPROVAL)))
  }

  function Yes(c: D.Config): Queries {
    Queries(Answered, Answered, Answered, 0.0, None, L.GrantedTakeoff, L.OtherAnswer, Answered, Answered, YesAnswers(c))
  }

  lemma YesLoads(c: L.Config, l: L.State, m: Mission)
    requires InBounds(m, c.maxMissionAlt)
    ensures var l' := L.Load(c, l, m, YES_LOAD);
      l'.status.Authorized? && l'.mission == Some(m) && l'.missionId == m.id && !l'.takeoff
  {
  }

  lemma YesLists(c: D.Config)
    ensures D.Lists(c, D.Reply(Some(Listing(c)))) && D.TakeoffApproved(D.Reply(Some(APPROVAL)))
  {
    var b := Listing(c);
    assert "drones" in b && DR.Unwrap(b, DR.DEPTH) == b;
    var d := D.Drones(b)[0];
    assert d.fields["drone_id"] == Str(c.droneId) && d.fields["battery"] == Num(c.minBattery + 1.0);
    assert D.Clears(c, D.Drones(b)[0]);
    assert "approved" in APPROVAL && DR.Unwrap(APPROVAL, DR.DEPTH) == APPROVAL;
    assert APPROVAL["approved"] == Bool(true) && "battery" in APPROVAL;
  }

  lemma YesDocks(c: D.Config, p: D.State, mid: string)
    requires CanDepart(c) && !p.phase.Departed?
    ensures D.Preflight(c, p, mid, YesAnswers(c)).1.Cleared?
  {
    YesLists(c);
  }

  lemma YesOpens(k: Setup, s: System, m: Mission)
    requires s.autopilot.mission == Some(m) && m.id != "" && CanDepart(k.port) && !s.port.phase.Departed?
    requires s.limiter.status.Authorized? && s.limiter.missionId == m.id
    ensures A.AllGates(Some(m), AskGates(k, s, Yes(k.port)).gates) == A.Open
    ensures s.limiter.takeoff ==> AskGates(k, s, Yes(k.port)).limiter == s.limiter
  {
    YesDocks(k.port, s.port, m.id);
  }

  // ---- ambiguous ids are too much --------------------------------------------------------------

  /** Nothing reaches the limiter by itself. */
  predicate NoLate(ms: seq<Move>) {
    forall i :: 0 <= i < |ms| ==> !ms[i].LimiterInput?
  }

  /** The limiter is authorized for this mission, before takeoff. */
  predicate Holds(l: L.State, m: Mission) {
    l.status.Authorized? && l.mission == Some(m) && l.missionId == m.id && !l.takeoff
  }

  lemma Extend(k: Setup, s: System, ms: seq<Move>, m: Move) returns (more: seq<Move>)
    requires KoverFree(ms) && !IsKover(m)
    ensures more == ms + [m] && KoverFree(more) && After(k, s, more) == Next(k, After(k, s, ms), m)
    ensures NoLate(ms) && !m.LimiterInput? ==> NoLate(more)
  {
    more := ms + [m];
    assert more[..|ms|] == ms;
  }

  lemma SubmitLoads(k: Setup, s: System, m: Mission)
    requires Acceptable(k, m)
    ensures var t := Next(k, s, Submit(MH.Readable(m), Answered, YES_LOAD));
      && t.autopilot == s.autopilot && t.port == s.port && m in t.sent
      && Holds(t.limiter, m)
  {
    MH.BoundsImplyStructure(m, k.limiter.maxMissionAlt);
    YesLoads(k.limiter, s.limiter, m);
    assert MH.Sends(MH.Readable(m), MH.Accepted)[1] == MH.ToAutopilot(m);
  }

  lemma HandOverLoads(k: Setup, s: System, m: Mission)
    requires m in s.sent
    ensures var t := Next(k, s, HandOver(m));
      t.autopilot == A.Load(s.autopilot, m) && t.port == s.port && t.limiter == s.limiter
  {
  }

  /** The limiter ends up with `b`, the autopilot with `a`, and START passes. */
  lemma StartPasses(k: Setup, s: System, a: Mission, b: Mission)
    requires s.autopilot == A.Load(A.INITIAL, a) && a.id != "" && a.id == b.id && a.steps != []
    requires CanDepart(k.port) && !s.port.phase.Departed?
    requires s.limiter.status.Authorized? && s.limiter.mission == Some(b) && s.limiter.missionId == b.id
    ensures var t := Next(k, s, Command(A.Start, 0.0, Yes(k.port)));
      && Underway(t.autopilot, a) && t.log != [] && PassedWith(t.log[|t.log| - 1], a, b)
      && (s.limiter.takeoff ==> t.log[|t.log| - 1].limiter == s.limiter)
  {
    var i := A.DoCommand(A.Start, 0.0, CLOSED);
    var r := GatesFor(k, s, i, Yes(k.port));
    YesOpens(k, s, a);
    AskedDrawn(k, s, Yes(k.port));
    SingleNote(A.PreflightPassed(a.id), s.autopilot.trace, Some(a), r.limiter, r.port);
  }

  /** A preflight of `a` that passed while the limiter stored `b`. */
  predicate PassedWith(n: Note, a: Mission, b: Mission) {
    n.Passed? && n.mission == a && n.limiter.mission == Some(b)
  }

  predicate Underway(s: A.State, m: Mission) {
    s.mode.Executing? && s.mission == Some(m) && s.index == 0 && s.nav.None? && s.lastNavPoll == 0.0 && !s.kover
  }

  /** Load `a` everywhere, then `b` into the limiter only, then START. */
  lemma AmbiguousRun(k: Setup, maxDistance: real, maxDeviation: real, a: Mission, b: Mission) returns (ms: seq<Move>)
    requires CanDepart(k.port) && Acceptable(k, a) && Acceptable(k, b) && a.id == b.id
    ensures KoverFree(ms) && SubmitsFrom(ms, iset{a, b}) && NoLate(ms)
    ensures var t := After(k, Initial(k, maxDistance, maxDeviation), ms);
      Underway(t.autopilot, a) && t.log != [] && PassedWith(t.log[|t.log| - 1], a, b)
  {
    var s0 := Initial(k, maxDistance, maxDeviation);
    ms := LoadedRun(k, s0, a);
    ms := ReloadedRun(k, s0, ms, a, b);
    var s := After(k, s0, ms);
    StartPasses(k, s, a, b);
    ms := Extend(k, s0, ms, Command(A.Start, 0.0, Yes(k.port)));
  }

  lemma LoadedRun(k: Setup, s0: System, a: Mission) returns (ms: seq<Move>)
    requires s0.autopilot == A.INITIAL && Acceptable(k, a)
    ensures KoverFree(ms) && SubmitsFrom(ms, iset{a}) && NoLate(ms)
    ensures var t := After(k, s0, ms);
      t.autopilot == A.Load(A.INITIAL, a) && t.port == s0.port && Holds(t.limiter, a)
  {
    var m := Submit(MH.Readable(a), Answered, YES_LOAD);
    SubmitLoads(k, s0, a);
    ms := Extend(k, s0, [], m);
    HandOverLoads(k, After(k, s0, ms), a);
    ms := Extend(k, s0, ms, HandOver(a));
  }

  lemma ReloadedRun(k: Setup, s0: System, before: seq<Move>, a: Mission, b: Mission) returns (ms: seq<Move>)
    requires KoverFree(before) && SubmitsFrom(before, iset{a}) && NoLate(before) && Acceptable(k, b)
    ensures KoverFree(ms) && SubmitsFrom(ms, iset{a, b}) && NoLate(ms)
    ensures var s, t := After(k, s0, before), After(k, s0, ms);
      && t.autopilot == s.autopilot && t.port == s.port
      && Holds(t.limiter, b)
  {
    SubmitLoads(k, After(k, s0, before), b);
    ms := Extend(k, s0, before, Submit(MH.Readable(b), Answered, YES_LOAD));
    forall i | 0 <= i < |ms|
      ensures SubmitFrom(ms[i], iset{a, b})
    {
      assert i < |before| ==> SubmitFrom(before[i], iset{a});
    }
  }

  /** The exact condition, on the missions that may be submitted: in every run without
      the override each preflight passes with the limiter storing the very mission
      that is flown, if and only if no id stands for two acceptable missions, or no
      session can depart at all. */
  lemma MatchedExactlyWhen(k: Setup, S: iset<Mission>, maxDistance: real, maxDeviation: real)
    ensures (CanDepart(k.port) ==> OnePerId(k, S)) <==>
      forall ms :: KoverFree(ms) && SubmitsFrom(ms, S) ==> Matched(After(k, Initial(k, maxDistance, maxDeviation), ms).log)
  {
    if CanDepart(k.port) ==> OnePerId(k, S) {
      forall ms | KoverFree(ms) && SubmitsFrom(ms, S)
        ensures Matched(After(k, Initial(k, maxDistance, maxDeviation), ms).log)
      {
        MatchedOverRuns(k, S, maxDistance, maxDeviation, ms);
      }
    } else {
      var a, b :| a in S && b in S && Acceptable(k, a) && Acceptable(k, b) && a.id == b.id && a != b;
      var ms := AmbiguousRun(k, maxDistance, maxDeviation, a, b);
      assert SubmitsFrom(ms, S) by {
        assert forall i :: 0 <= i < |ms| ==> SubmitFrom(ms[i], iset{a, b});
      }
      Unmatched(After(k, Initial(k, maxDistance, maxDeviation), ms).log, a, b);
    }
  }

  lemma Unmatched(log: seq<Note>, a: Mission, b: Mission)
    requires log != [] && PassedWith(log[|log| - 1], a, b) && a != b
    ensures !Matched(log)
  {
  }
}
