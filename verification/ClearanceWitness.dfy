/** The clearance theorems speak of something: a connected drone does deliver. */
module ClearanceWitness {
  import opened Common
  import opened Missions
  import L = LimiterSpec
  import LT = LimiterTheory
  import D = DronePortSpec
  import DT = DronePortTheory
  import A = AutopilotSpec
  import opened Clearance
  import opened ClearanceTheory
  import opened ClearanceRoutes
  import opened ClearanceGrants

  /** Air traffic system, drone manager and orchestrator configured, nothing mocked. */
  const CONNECTED := Setup(
    A.Config(60.0, 1.0, (x: real, y: real) => 1.0, (x: real, y: real) => 0.0, (h: real, v: real) => (v, h)),
    L.Config(true, false, 100.0, 1.0, 1.0, (a: real, b: real, c: real, d: real) => 0.0),
    D.Config(true, true, false, "drone", 20.0, 60.0, (x: string) => None))

  const DELIVERY := Mission("m", [Waypoint(Number(10.0), Number(10.0), Number(50.0), Number(5.0), true)])

  const FLY := AutopilotTick(2.0, Some(A.Nav(0.0, 0.0, 0.0, 0.0)), NO_QUERIES)

  lemma TwoNotes(before: seq<A.Event>, e: A.Event, f: A.Event, m: Option<Mission>, l: L.State, p: D.State)
    ensures NotesOf(NewEvents(before, before + [e] + [f]), m, l, p) == NoteOf(e, m, l, p) + NoteOf(f, m, l, p)
  {
    assert NewEvents(before, before + [e] + [f]) == [e, f];
    assert [e, f][..1] == [e] && [e][..0] == [];
    assert NotesOf([e], m, l, p) == NoteOf(e, m, l, p);
  }

  lemma DeliveryTick(a: A.State, n: A.Nav, g: A.Gates)
    requires Underway(a, DELIVERY)
    ensures var a' := A.Step(CONNECTED.autopilot, a, A.DoTick(2.0, Some(n), g));
      exists t: A.Target :: t.alt == 50.0 && a'.trace == a.trace + [A.Leg(0, t)] + [A.Door(true)]
  {
    var a1 := A.PollNavigation(CONNECTED.autopilot, a, 2.0, Some(n));
    assert a1 == a.(lastNavPoll := 2.0, nav := Some(n));
    var t := A.LegTarget(CONNECTED.autopilot, n, DELIVERY.steps[0]);
    assert A.Fly(CONNECTED.autopilot, a1, DELIVERY, n) == A.Log(A.Log(a1, A.Leg(0, t)), A.Door(true));
  }

  /** The first tick with a position flies a leg and opens the bay for the drop. */
  lemma DeliveryFlies(u: System)
    requires Underway(u.autopilot, DELIVERY)
    ensures Next(CONNECTED, u, FLY).log == u.log + ([FlightLeg(DELIVERY, 0, 50.0)] + [CargoOpened(DELIVERY)])
  {
    var n := A.Nav(0.0, 0.0, 0.0, 0.0);
    DeliveryTick(u.autopilot, n, CLOSED);
    var a' := A.Step(CONNECTED.autopilot, u.autopilot, A.DoTick(2.0, Some(n), CLOSED));
    var t: A.Target :| t.alt == 50.0 && a'.trace == u.autopilot.trace + [A.Leg(0, t)] + [A.Door(true)];
    TwoNotes(u.autopilot.trace, A.Leg(0, t), A.Door(true), u.autopilot.mission, u.limiter, u.port);
  }

  /** A passed preflight with all the evidence a connected drone has to show. */
  ghost predicate FullEvidence(n: Note) {
    && PassesDelivery(n)
    && LT.Shook(n.limiter.trace, DELIVERY) && LT.OwnGrant(n.limiter) && DT.LastOp(n.port.trace) == DT.Takeoff
  }

  /** The evidence is not an empty promise: a run of the connected system loads a
      mission, passes its preflight with the full evidence, flies a leg and opens
      the bay. */
  lemma SomeRunDelivers(maxDistance: real, maxDeviation: real) returns (ms: seq<Move>)
    ensures KoverFree(ms)
    ensures var log := After(CONNECTED, Initial(CONNECTED, maxDistance, maxDeviation), ms).log;
      && FlightLeg(DELIVERY, 0, 50.0) in log && CargoOpened(DELIVERY) in log
      && exists n :: n in log && FullEvidence(n)
  {
    ms := UnderwayRun(maxDistance, maxDeviation);
    ms := FlownRun(maxDistance, maxDeviation, ms);
    MatchedOverRuns(CONNECTED, iset{DELIVERY}, maxDistance, maxDeviation, ms);
    GrantsOverRuns(CONNECTED, iset{DELIVERY}, iset{}, maxDistance, maxDeviation, ms);
    ShowFullEvidence(After(CONNECTED, Initial(CONNECTED, maxDistance, maxDeviation), ms).log);
  }

  /** A passed preflight of the delivery, with its evidence. */
  ghost predicate PassesDelivery(n: Note) {
    n.Passed? && n.mission == DELIVERY && Evidence(CONNECTED, DELIVERY, n.limiter, n.port)
  }

  lemma ShowFullEvidence(log: seq<Note>)
    requires Matched(log) && OwnGrants(CONNECTED, log) && exists n :: n in log && PassesDelivery(n)
    ensures exists n :: n in log && FullEvidence(n)
  {
    var n :| n in log && PassesDelivery(n);
    var i :| 0 <= i < |log| && log[i] == n;
    assert log[i].limiter.mission == Some(log[i].mission) && LT.OwnGrant(log[i].limiter);
    assert FullEvidence(n);
  }

  lemma UnderwayRun(maxDistance: real, maxDeviation: real) returns (ms: seq<Move>)
    ensures KoverFree(ms) && SubmitsFrom(ms, iset{DELIVERY}) && NoLate(ms)
    ensures Underway(After(CONNECTED, Initial(CONNECTED, maxDistance, maxDeviation), ms).autopilot, DELIVERY)
  {
    assert StepInBounds(DELIVERY.steps[0], 100.0) && Acceptable(CONNECTED, DELIVERY);
    ms := AmbiguousRun(CONNECTED, maxDistance, maxDeviation, DELIVERY, DELIVERY);
    assert iset{DELIVERY, DELIVERY} == iset{DELIVERY};
  }

  lemma FlownRun(maxDistance: real, maxDeviation: real, before: seq<Move>) returns (ms: seq<Move>)
    requires KoverFree(before) && SubmitsFrom(before, iset{DELIVERY}) && NoLate(before)
    requires Underway(After(CONNECTED, Initial(CONNECTED, maxDistance, maxDeviation), before).autopilot, DELIVERY)
    ensures KoverFree(ms) && SubmitsFrom(ms, iset{DELIVERY}) && NoLate(ms)
    ensures var log := After(CONNECTED, Initial(CONNECTED, maxDistance, maxDeviation), ms).log;
      && FlightLeg(DELIVERY, 0, 50.0) in log && CargoOpened(DELIVERY) in log
      && exists n :: n in log && PassesDelivery(n)
  {
    var s0 := Initial(CONNECTED, maxDistance, maxDeviation);
    var u := After(CONNECTED, s0, before);
    DeliveryFlies(u);
    ms := Extend(CONNECTED, s0, before, FLY);
    EndToEndClearance(CONNECTED, maxDistance, maxDeviation, ms);
    DeliveryEvidence(u.log, After(CONNECTED, s0, ms).log);
  }

  lemma DeliveryEvidence(before: seq<Note>, log: seq<Note>)
    requires log == before + ([FlightLeg(DELIVERY, 0, 50.0)] + [CargoOpened(DELIVERY)])
    requires AllCleared(CONNECTED, log)
    ensures exists n :: n in log && PassesDelivery(n)
  {
    var i := |before|;
    assert log[i] == FlightLeg(DELIVERY, 0, 50.0) && NeedsClearance(log[i]);
    var w :| ClearedBy(CONNECTED, log[..i], DELIVERY, w);
    assert log[..i][w.pass] in log && PassesDelivery(log[..i][w.pass]);
  }
}
