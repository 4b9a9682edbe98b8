/** Whose takeoff grant is in force when a preflight passes? Takeoff requests name a
    mission, and one that is served late may name another than the limiter stores. */
module ClearanceGrants {
  import opened Common
  import opened Missions
  import MH = MissionHandler
  import L = LimiterSpec
  import LT = LimiterTheory
  import D = DronePortSpec
  import A = AutopilotSpec
  import AT = AutopilotTheory
  import opened Clearance
  import opened ClearanceTheory
  import opened ClearanceRoutes

  predicate Connected(k: Setup) {
    k.limiter.enabled && !k.limiter.mock
  }

  /** With a connected air traffic system, every preflight passed on a takeoff grant for
      the mission the limiter stored. */
  ghost predicate OwnGrants(k: Setup, log: seq<Note>) {
    Connected(k) ==> forall i :: 0 <= i < |log| && log[i].Passed? ==> LT.OwnGrant(log[i].limiter)
  }

  /** Takeoff requests that reach the limiter by themselves name only these missions. */
  ghost predicate LateFrom(ms: seq<Move>, T: iset<string>) {
    forall i :: 0 <= i < |ms| ==> LateNames(ms[i], T)
  }

  ghost predicate LateNames(m: Move, T: iset<string>) {
    m.LimiterInput? && m.limiterInput.DoTakeoff? ==> m.limiterInput.mid in T
  }

  /** No late request can name a mission other than one that might be loaded. */
  ghost predicate NamesAgree(k: Setup, S: iset<Mission>, T: iset<string>) {
    forall mid, b :: mid in T && b in S && mid != "" && Acceptable(k, b) ==> mid == b.id
  }

  // ---- agreeing names are enough -----------------------------------------------------------------

  ghost predicate GrantFits(k: Setup, s: System) {
    Connected(k) ==> LT.OwnGrant(s.limiter)
  }

  /** The autopilot's own request, made while the limiter is authorized for its mission. */
  lemma AskedGrant(k: Setup, s: System, q: Queries)
    requires Connected(k) && LimiterFits(k.limiter, s.limiter) && LT.OwnGrant(s.limiter)
    requires s.autopilot.mission.Some? && s.autopilot.mission.value.id != ""
    ensures LT.OwnGrant(AskGates(k, s, q).limiter)
  {
    var m, g := s.autopilot.mission.value, AskStatus(s, q);
    if A.LimiterGate(Some(m), g) == A.Open {
      assert s.limiter.status.Authorized? && s.limiter.missionId == m.id;
      LT.OwnGrantStep(k.limiter, s.limiter, L.DoTakeoff(m.id, q.now, q.navReply, q.granted, q.telemetry));
    }
  }

  lemma GatesForGrant(k: Setup, s: System, i: A.Input, q: Queries)
    requires Inv(k, s) && GrantFits(k, s)
    ensures Connected(k) ==> LT.OwnGrant(GatesFor(k, s, i, q).limiter)
  {
    if Connected(k) && WillAsk(k, s.autopilot, i) {
      AskedGrant(k, s, q);
    }
  }

  lemma OwnGrantsAppend(k: Setup, log: seq<Note>, ns: seq<Note>)
    requires OwnGrants(k, log) && OwnGrants(k, ns)
    ensures OwnGrants(k, log + ns)
  {
  }

  lemma TakesGrants(k: Setup, s: System, i: A.Input, q: Queries)
    requires Inv(k, s) && GrantFits(k, s) && OwnGrants(k, s.log) && !AT.IsKover(i)
    ensures var s' := AutopilotTakes(k, s, i, q); GrantFits(k, s') && OwnGrants(k, s'.log)
  {
    GatesForGrant(k, s, i, q);
    var ns := TakesNotes(k, s, i, q);
    OwnGrantsAppend(k, s.log, ns);
  }

  /** A late request is safe when names agree. */
  lemma LateIsSafe(k: Setup, S: iset<Mission>, T: iset<string>, s: System, i: L.Input)
    requires LimiterFits(k.limiter, s.limiter) && In(s.limiter.mission, S) && NamesAgree(k, S, T)
    requires i.DoTakeoff? ==> i.mid in T
    ensures LT.SafeInput(s.limiter, i)
  {
    if i.DoTakeoff? && s.limiter.status.Authorized? {
      assert Acceptable(k, s.limiter.mission.value);
    }
  }

  lemma NextGrants(k: Setup, S: iset<Mission>, T: iset<string>, s: System, m: Move)
    requires Inv(k, s) && Drawn(k, S, s) && GrantFits(k, s) && OwnGrants(k, s.log)
    requires !IsKover(m) && LateNames(m, T) && (Connected(k) ==> NamesAgree(k, S, T))
    ensures GrantFits(k, Next(k, s, m)) && OwnGrants(k, Next(k, s, m).log)
  {
    match m
    case Submit(sub, fate, a) =>
      if MH.Sends(sub, MH.NoAnswer) != [] && Connected(k) {
        LT.OwnGrantLoad(k.limiter, s.limiter, sub.mission, a);
      }
    case HandOver(m) => TakesGrants(k, s, A.DoLoad(m), NO_QUERIES);
    case Command(cmd, at, q) => TakesGrants(k, s, A.DoCommand(cmd, at, CLOSED), q);
    case AutopilotTick(at, nav, q) => TakesGrants(k, s, A.DoTick(at, nav, CLOSED), q);
    case LimiterInput(i) =>
      if ReachesLimiter(s, i) && Connected(k) {
        LateIsSafe(k, S, T, s, i);
        LT.OwnGrantStep(k.limiter, s.limiter, i);
      }
    case PortInput(_) =>
  }

  lemma {:induction false} GrantsOverRuns(
    k: Setup, S: iset<Mission>, T: iset<string>, maxDistance: real, maxDeviation: real, ms: seq<Move>)
    requires KoverFree(ms) && SubmitsFrom(ms, S) && LateFrom(ms, T) && (Connected(k) ==> NamesAgree(k, S, T))
    ensures var s := After(k, Initial(k, maxDistance, maxDeviation), ms); GrantFits(k, s) && OwnGrants(k, s.log)
    decreases |ms|
  {
    if ms != [] {
      var before := ms[..|ms| - 1];
      GrantsOverRuns(k, S, T, maxDistance, maxDeviation, before);
      DrawnOverRuns(k, S, maxDistance, maxDeviation, before);
      InvOverRuns(k, maxDistance, maxDeviation, before);
      NextGrants(k, S, T, After(k, Initial(k, maxDistance, maxDeviation), before), ms[|ms| - 1]);
    }
  }

  // ---- without departure nothing passes -------------------------------------------------------------

  lemma {:induction false} NothingPasses(k: Setup, S: iset<Mission>, maxDistance: real, maxDeviation: real, ms: seq<Move>)
    requires KoverFree(ms) && SubmitsFrom(ms, S) && !CanDepart(k.port)
    ensures NoPass(After(k, Initial(k, maxDistance, maxDeviation), ms).log)
    decreases |ms|
  {
    if ms != [] {
      var before := ms[..|ms| - 1];
      NothingPasses(k, S, maxDistance, maxDeviation, before);
      DrawnOverRuns(k, S, maxDistance, maxDeviation, before);
      InvOverRuns(k, maxDistance, maxDeviation, before);
      NextPassesNothing(k, S, After(k, Initial(k, maxDistance, maxDeviation), before), ms[|ms| - 1]);
    }
  }

  lemma TakesPassesNothing(k: Setup, S: iset<Mission>, s: System, i: A.Input, q: Queries)
    requires Inv(k, s) && Drawn(k, S, s) && !CanDepart(k.port) && !AT.IsKover(i) && NoPass(s.log)
    ensures NoPass(AutopilotTakes(k, s, i, q).log)
  {
    GatesForDrawn(k, s, i, q);
    var ns := TakesNotes(k, s, i, q);
    assert NoPass(ns);
  }

  lemma NextPassesNothing(k: Setup, S: iset<Mission>, s: System, m: Move)
    requires Inv(k, s) && Drawn(k, S, s) && !CanDepart(k.port) && !IsKover(m) && NoPass(s.log)
    ensures NoPass(Next(k, s, m).log)
  {
    match m
    case HandOver(m) => TakesPassesNothing(k, S, s, A.DoLoad(m), NO_QUERIES);
    case Command(cmd, at, q) => TakesPassesNothing(k, S, s, A.DoCommand(cmd, at, CLOSED), q);
    case AutopilotTick(at, nav, q) => TakesPassesNothing(k, S, s, A.DoTick(at, nav, CLOSED), q);
    case _ =>
  }

  // ---- disagreeing names are too much ----------------------------------------------------------------

  /** The flag is up for the authorized mission `b`, on no grant of its own. */
  ghost predicate Flagged(l: L.State, b: Mission) {
    l.status.Authorized? && l.mission == Some(b) && l.missionId == b.id && l.takeoff && !LT.OwnGrant(l)
  }

  lemma LateRaises(k: Setup, s: System, b: Mission, i: L.Input)
    requires Connected(k) && LimiterFits(k.limiter, s.limiter) && Holds(s.limiter, b)
    requires i.DoTakeoff? && i.mid != "" && i.mid != b.id && i.answer == L.GrantedTakeoff
    ensures var t := Next(k, s, LimiterInput(i));
      Flagged(t.limiter, b) && t.autopilot == s.autopilot && t.port == s.port
  {
    LT.ForeignGrantRaisesTheFlag(k.limiter, s.limiter, i.mid, i.now, i.navReply, i.telemetry);
    StepHolds(k.limiter, s.limiter, i);
  }

  /** Load `b` everywhere and serve a late request for another mission. */
  lemma FlaggedRun(k: Setup, maxDistance: real, maxDeviation: real, b: Mission, mid: string) returns (ms: seq<Move>)
    requires Connected(k) && Acceptable(k, b) && mid != "" && mid != b.id
    ensures KoverFree(ms) && SubmitsFrom(ms, iset{b}) && LateFrom(ms, iset{mid})
    ensures var s0 := Initial(k, maxDistance, maxDeviation);
      var t := After(k, s0, ms);
      Flagged(t.limiter, b) && t.autopilot == A.Load(A.INITIAL, b) && t.port == s0.port
  {
    var s0 := Initial(k, maxDistance, maxDeviation);
    ms := LoadedRun(k, s0, b);
    InvOverRuns(k, maxDistance, maxDeviation, ms);
    var late := L.DoTakeoff(mid, 0.0, None, L.GrantedTakeoff, L.OtherAnswer);
    LateRaises(k, After(k, s0, ms), b, late);
    FromSnoc(ms, LimiterInput(late), b, mid);
    ms := Extend(k, s0, ms, LimiterInput(late));
  }

  lemma FromSnoc(ms: seq<Move>, m: Move, b: Mission, mid: string)
    requires SubmitsFrom(ms, iset{b}) && (NoLate(ms) || LateFrom(ms, iset{mid})) && !m.Submit? && LateNames(m, iset{mid})
    ensures SubmitsFrom(ms + [m], iset{b}) && LateFrom(ms + [m], iset{mid})
  {
    forall i | 0 <= i < |ms + [m]|
      ensures SubmitFrom((ms + [m])[i], iset{b}) && LateNames((ms + [m])[i], iset{mid})
    {
      if i < |ms| {
        assert (ms + [m])[i] == ms[i] && SubmitFrom(ms[i], iset{b});
        assert NoLate(ms) ==> !ms[i].LimiterInput?;
      }
    }
  }

  /** Then START passes, on that grant. */
  lemma ForeignGrantRun(k: Setup, maxDistance: real, maxDeviation: real, b: Mission, mid: string) returns (ms: seq<Move>)
    requires Connected(k) && CanDepart(k.port) && Acceptable(k, b) && mid != "" && mid != b.id
    ensures KoverFree(ms) && SubmitsFrom(ms, iset{b}) && LateFrom(ms, iset{mid})
    ensures !OwnGrants(k, After(k, Initial(k, maxDistance, maxDeviation), ms).log)
  {
    var s0, start := Initial(k, maxDistance, maxDeviation), Command(A.Start, 0.0, Yes(k.port));
    ms := FlaggedRun(k, maxDistance, maxDeviation, b, mid);
    StartPasses(k, After(k, s0, ms), b, b);
    FromSnoc(ms, start, b, mid);
    ms := Extend(k, s0, ms, start);
    LastNote(k, After(k, s0, ms).log);
  }

  lemma LastNote(k: Setup, log: seq<Note>)
    requires Connected(k) && log != [] && log[|log| - 1].Passed? && !LT.OwnGrant(log[|log| - 1].limiter)
    ensures !OwnGrants(k, log)
  {
  }

  /** The exact condition, on the missions that may be submitted and the names that late
      takeoff requests may carry: in every run without the override each preflight
      passes on a grant for the mission the limiter stores, if and only if no late
      request can name a mission other than the acceptable ones, or nothing can pass. */
  lemma OwnGrantsExactlyWhen(k: Setup, S: iset<Mission>, T: iset<string>, maxDistance: real, maxDeviation: real)
    ensures (Connected(k) && CanDepart(k.port) ==> NamesAgree(k, S, T)) <==>
      forall ms :: KoverFree(ms) && SubmitsFrom(ms, S) && LateFrom(ms, T) ==>
        OwnGrants(k, After(k, Initial(k, maxDistance, maxDeviation), ms).log)
  {
    if Connected(k) && CanDepart(k.port) ==> NamesAgree(k, S, T) {
      forall ms | KoverFree(ms) && SubmitsFrom(ms, S) && LateFrom(ms, T)
        ensures OwnGrants(k, After(k, Initial(k, maxDistance, maxDeviation), ms).log)
      {
        if CanDepart(k.port) {
          GrantsOverRuns(k, S, T, maxDistance, maxDeviation, ms);
        } else {
          NothingPasses(k, S, maxDistance, maxDeviation, ms);
        }
      }
    } else {
      var mid, b :| mid in T && b in S && mid != "" && Acceptable(k, b) && mid != b.id;
      var ms := ForeignGrantRun(k, maxDistance, maxDeviation, b, mid);
      FromLarger(ms, b, mid, S, T);
    }
  }

  lemma FromLarger(ms: seq<Move>, b: Mission, mid: string, S: iset<Mission>, T: iset<string>)
    requires SubmitsFrom(ms, iset{b}) && LateFrom(ms, iset{mid}) && b in S && mid in T
    ensures SubmitsFrom(ms, S) && LateFrom(ms, T)
  {
    forall i | 0 <= i < |ms|
      ensures SubmitFrom(ms[i], S) && LateNames(ms[i], T)
    {
      assert SubmitFrom(ms[i], iset{b}) && LateNames(ms[i], iset{mid});
    }
  }
}
