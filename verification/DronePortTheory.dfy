/** What every DronePort session keeps. */
module DronePortTheory {
  import opened Common
  import opened DronePortReply
  import opened DronePortSpec

  // ---- what replies say --------------------------------------------------------------------

  /** The body found in a reply, if it says that nothing went wrong. */
  predicate Says(r: Resp, b: Body) {
    r.Reply? && r.body.Some? && b == Unwrap(r.body.value, DEPTH) && ("error" !in b || b["error"].Null?)
  }

  predicate ApprovesLanding(r: Resp) {
    && r.Reply? && r.body.Some?
    && var b := Unwrap(r.body.value, DEPTH);
       Says(r, b) && (("approved" in b && b["approved"] == Bool(true)) || "port_id" in b)
  }

  predicate ApprovesTakeoff(r: Resp) {
    ApprovesLanding(r) && "battery" in Unwrap(r.body.value, DEPTH)
  }

  /** An entry about this drone; a drone without a name is every entry without one. */
  predicate IsAbout(c: Config, d: Json) {
    && d.Obj?
    && if "drone_id" in d.fields && d.fields["drone_id"].Str? then d.fields["drone_id"] == Str(c.droneId) else c.droneId == ""
  }

  /** The entry gives a battery reading of `n`, as a number or in words. */
  predicate Reads(c: Config, d: Json, n: real) {
    && d.Obj? && "battery" in d.fields
    && (d.fields["battery"] == Num(n)
        || (d.fields["battery"].Str? && d.fields["battery"].s != "" && d.fields["battery"].s != "unknown"
            && c.scan(d.fields["battery"].s) == Some(n)))
  }

  /** The reply lists this drone with a battery reading above the minimum. */
  ghost predicate ListedAbove(c: Config, r: Resp) {
    && r.Reply? && r.body.Some?
    && var b := Unwrap(r.body.value, DEPTH);
       Says(r, b) && exists d, n :: IsEntry(b, d) && IsAbout(c, d) && Reads(c, d, n) && n > c.minBattery
  }

  predicate IsEntry(b: Body, d: Json) {
    "drones" in b && b["drones"].Arr? && d in b["drones"].items
  }

  lemma ClearsMeans(c: Config, d: Json)
    ensures Clears(c, d) <==> exists n :: IsAbout(c, d) && Reads(c, d, n) && n > c.minBattery
  {
    if Clears(c, d) {
      assert Reads(c, d, Battery(c, d.fields["battery"]).value);
    }
  }

  lemma ListsMeans(c: Config, r: Resp)
    ensures Lists(c, r) <==> ListedAbove(c, r)
  {
    if Lists(c, r) {
      var b := Unwrap(r.body.value, DEPTH);
      var i :| 0 <= i < |Drones(b)| && Clears(c, Drones(b)[i]);
      ClearsMeans(c, Drones(b)[i]);
      var n :| IsAbout(c, Drones(b)[i]) && Reads(c, Drones(b)[i], n) && n > c.minBattery;
      assert Says(r, b) && IsEntry(b, Drones(b)[i]);
    }
    if ListedAbove(c, r) {
      var b := Unwrap(r.body.value, DEPTH);
      var d, n :| IsEntry(b, d) && IsAbout(c, d) && Reads(c, d, n) && n > c.minBattery;
      ClearsMeans(c, d);
      var i :| 0 <= i < |Drones(b)| && Drones(b)[i] == d;
    }
  }

  lemma ApprovalsMean(r: Resp)
    ensures LandingApproved(r) <==> ApprovesLanding(r)
    ensures TakeoffApproved(r) <==> ApprovesTakeoff(r)
  {
  }

  /** The orchestrator is taken to say yes exactly when it lists the drone. */
  lemma ReadyMeansListed(c: Config, s: State, r: Resp)
    ensures AskReady(c, s, r).1.IsReady? <==> c.orchestrated && ListedAbove(c, r)
  {
    ListsMeans(c, r);
  }

  // ---- sessions ------------------------------------------------------------------------------

  datatype Op = NoOp | Landing | Takeoff

  function OpOf(e: Event): Op {
    match e
    case LandingCall(r) => if ApprovesLanding(r) then Landing else NoOp
    case TakeoffCall(r) => if ApprovesTakeoff(r) then Takeoff else NoOp
    case Available(_) => NoOp
  }

  /** The latest approved operation on a trace. */
  function LastOp(trace: seq<Event>): Op {
    if trace == [] then NoOp
    else if OpOf(trace[|trace| - 1]) != NoOp then OpOf(trace[|trace| - 1])
    else LastOp(trace[..|trace| - 1])
  }

  /** An approved landing strictly between two positions. */
  ghost predicate LandedBetween(trace: seq<Event>, i: nat, j: nat) {
    exists k :: i < k < j && k < |trace| && OpOf(trace[k]) == Landing
  }

  ghost predicate Alternates(trace: seq<Event>) {
    forall i: nat, j: nat :: i < j < |trace| && OpOf(trace[i]) == Takeoff && OpOf(trace[j]) == Takeoff
      ==> LandedBetween(trace, i, j)
  }

  /** Every takeoff request directly follows an orchestrator reply that listed
      this drone above the minimum battery. */
  ghost predicate AskedFirst(c: Config, trace: seq<Event>) {
    forall i :: 0 <= i < |trace| && trace[i].TakeoffCall? ==>
      i > 0 && trace[i - 1].Available? && ListedAbove(c, trace[i - 1].resp)
  }

  ghost predicate Sound(c: Config, s: State) {
    && (s.phase.Departed? <==> LastOp(s.trace) == Takeoff)
    && (s.phase.Charging? ==> LastOp(s.trace) == Landing)
    && Alternates(s.trace) && AskedFirst(c, s.trace)
  }

  lemma LastOpLog(s: State, e: Event)
    ensures LastOp(Log(s, e).trace) == if OpOf(e) != NoOp then OpOf(e) else LastOp(s.trace)
  {
    var t := s.trace + [e];
    assert t[..|t| - 1] == s.trace && t[|t| - 1] == e;
  }

  /** A trace whose latest operation is not a takeoff has a landing after every takeoff. */
  lemma {:induction false} LandedSince(trace: seq<Event>, i: nat)
    requires LastOp(trace) != Takeoff && i < |trace| && OpOf(trace[i]) == Takeoff
    ensures LandedBetween(trace, i, |trace|)
    decreases |trace|
  {
    var last := |trace| - 1;
    if OpOf(trace[last]) != Landing {
      var before := trace[..last];
      assert before[i] == trace[i];
      LandedSince(before, i);
      var k :| i < k < last && OpOf(before[k]) == Landing;
      assert OpOf(trace[k]) == Landing;
    }
  }

  lemma AlternatesLog(s: State, e: Event)
    requires Alternates(s.trace) && (OpOf(e) == Takeoff ==> LastOp(s.trace) != Takeoff)
    ensures Alternates(Log(s, e).trace)
  {
    var t := Log(s, e).trace;
    forall i: nat, j: nat | i < j < |t| && OpOf(t[i]) == Takeoff && OpOf(t[j]) == Takeoff
      ensures LandedBetween(t, i, j)
    {
      if j < |s.trace| {
        assert LandedBetween(s.trace, i, j);
        var k :| i < k < j && k < |s.trace| && OpOf(s.trace[k]) == Landing;
        assert OpOf(t[k]) == Landing;
      } else {
        LandedSince(s.trace, i);
        var k :| i < k < |s.trace| && OpOf(s.trace[k]) == Landing;
        assert OpOf(t[k]) == Landing;
      }
    }
  }

  lemma AskedFirstLog(c: Config, s: State, e: Event)
    requires AskedFirst(c, s.trace)
    requires e.TakeoffCall? ==>
      s.trace != [] && s.trace[|s.trace| - 1].Available? && Lists(c, s.trace[|s.trace| - 1].resp)
    ensures AskedFirst(c, Log(s, e).trace)
  {
    if s.trace != [] && s.trace[|s.trace| - 1].Available? {
      ListsMeans(c, s.trace[|s.trace| - 1].resp);
    }
  }

  /** The session facts while the phase is neither DEPARTED nor CHARGING. */
  ghost predicate Grounded(c: Config, s: State) {
    LastOp(s.trace) != Takeoff && Alternates(s.trace) && AskedFirst(c, s.trace)
  }

  ghost predicate JustListed(c: Config, s: State) {
    s.trace != [] && s.trace[|s.trace| - 1].Available? && Lists(c, s.trace[|s.trace| - 1].resp)
  }

  lemma AskReadySound(c: Config, s: State, r: Resp)
    requires Grounded(c, s)
    ensures var (s1, ready) := AskReady(c, s, r);
      && Grounded(c, s1) && s1.phase == s.phase && LastOp(s1.trace) == LastOp(s.trace)
      && (ready.IsReady? ==> JustListed(c, s1))
  {
    LastOpLog(s, Available(r));
    AlternatesLog(s, Available(r));
    AskedFirstLog(c, s, Available(r));
  }

  lemma LandSound(c: Config, s: State, r: Resp)
    requires c.managed && Alternates(s.trace) && AskedFirst(c, s.trace)
    ensures var (s1, refusal) := Land(c, s, r);
      && Alternates(s1.trace) && AskedFirst(c, s1.trace)
      && (refusal.None? ==> s1.phase.Charging? && LastOp(s1.trace) == Landing)
      && (refusal.Some? ==> s1.phase == s.phase && LastOp(s1.trace) == LastOp(s.trace))
  {
    ApprovalsMean(r);
    LastOpLog(s, LandingCall(r));
    AlternatesLog(s, LandingCall(r));
    AskedFirstLog(c, s, LandingCall(r));
  }

  lemma FinishTakeoffSound(c: Config, s: State, r: Resp)
    requires c.managed && Grounded(c, s) && JustListed(c, s) && s.phase.Ready?
    ensures var (s1, v) := FinishTakeoff(c, s, r);
      Sound(c, s1) && (v.Cleared? <==> s1.phase.Departed?) && !v.Waiting?
  {
    ApprovalsMean(r);
    LastOpLog(s, TakeoffCall(r));
    AlternatesLog(s, TakeoffCall(r));
    AskedFirstLog(c, s, TakeoffCall(r));
  }

  lemma WaitForChargeSound(c: Config, s: State, a: Answers)
    requires c.managed && Grounded(c, s) && s.phase.Charging? && LastOp(s.trace) == Landing
    ensures var (s1, v) := WaitForCharge(c, s, a); Sound(c, s1) && (v.Cleared? <==> s1.phase.Departed?)
  {
    var s0 := if s.waitAt.None? then s.(waitAt := Some(a.clock.recorded)) else s;
    AskReadySound(c, s0, a.availableAgain);
    var (s1, charge) := CheckCharge(c, s, a.clock, a.availableAgain);
    if charge.Charged? {
      FinishTakeoffSound(c, s1, a.takeoff);
    }
  }

  lemma PreflightSound(c: Config, s: State, mission: string, a: Answers)
    requires c.managed && !c.mock && Sound(c, s)
    ensures var (s1, v) := Preflight(c, s, mission, a);
      Sound(c, s1) && (v.Cleared? ==> s1.phase.Departed?)
  {
    if !s.phase.Departed? {
      var s0 := s.(lastMission := mission);
      AskReadySound(c, s0, a.available);
      var (s1, ready) := AskReady(c, s0, a.available);
      if ready.IsReady? {
        FinishTakeoffSound(c, s1.(phase := Ready), a.takeoff);
      } else if ready.NotReady? {
        if s.phase.Charging? {
          WaitForChargeSound(c, s1, a);
        } else {
          var s2 := s1.(phase := NotRegistered);
          LandSound(c, s2, a.landing);
          var (s3, refusal) := Land(c, s2, a.landing);
          if refusal.None? {
            WaitForChargeSound(c, s3.(phase := Charging), a);
          }
        }
      }
    }
  }

  lemma StepSound(c: Config, s: State, i: Input)
    requires c.managed && !c.mock && Sound(c, s)
    ensures Sound(c, Step(c, s, i))
  {
    match i
    case DoPreflight(m, a) => PreflightSound(c, s, m, a);
    case DoLand(r) => LandSound(c, s, r);
  }

  /** Over whole runs of a session with a drone manager and no mock: DEPARTED
      exactly when the latest approved operation is a takeoff, CHARGING only when it
      is a landing; between two approved takeoffs there is an approved landing; and
      every takeoff request directly follows a reply that listed this drone above
      the minimum battery. */
  lemma {:induction false} SessionOverRuns(c: Config, h: seq<Input>)
    requires c.managed && !c.mock
    ensures Sound(c, After(c, Initial(c), h))
    decreases |h|
  {
    if h != [] {
      SessionOverRuns(c, h[..|h| - 1]);
      StepSound(c, After(c, Initial(c), h[..|h| - 1]), h[|h| - 1]);
    }
  }

  /** Nothing before position `n` was touched, and every takeoff request after it
      directly follows a listing that is after it too. */
  ghost predicate AskedSince(c: Config, old': seq<Event>, t: seq<Event>) {
    && |old'| <= |t| && t[..|old'|] == old'
    && forall i :: |old'| <= i < |t| && t[i].TakeoffCall? ==>
         i > |old'| && t[i - 1].Available? && ListedAbove(c, t[i - 1].resp)
  }

  lemma AskedSinceLog(c: Config, old': seq<Event>, s: State, e: Event)
    requires AskedSince(c, old', s.trace)
    requires e.TakeoffCall? ==> |s.trace| > |old'| && JustListed(c, s)
    ensures AskedSince(c, old', Log(s, e).trace) && |Log(s, e).trace| > |old'|
  {
    if s.trace != [] && s.trace[|s.trace| - 1].Available? {
      ListsMeans(c, s.trace[|s.trace| - 1].resp);
    }
  }

  lemma AskedSinceTakeoff(c: Config, old': seq<Event>, s: State, r: Resp)
    requires AskedSince(c, old', s.trace) && |s.trace| > |old'| && JustListed(c, s)
    ensures AskedSince(c, old', FinishTakeoff(c, s, r).0.trace)
  {
    AskedSinceLog(c, old', s, TakeoffCall(r));
  }

  lemma AskedSinceCharge(c: Config, old': seq<Event>, s: State, a: Answers)
    requires AskedSince(c, old', s.trace)
    ensures AskedSince(c, old', WaitForCharge(c, s, a).0.trace)
  {
    AskedSinceLog(c, old', s, Available(a.availableAgain));
    var (s1, charge) := CheckCharge(c, s, a.clock, a.availableAgain);
    if charge.Charged? {
      AskedSinceTakeoff(c, old', s1, a.takeoff);
    }
  }

  lemma AskedSinceLanding(c: Config, old': seq<Event>, s: State, a: Answers)
    requires AskedSince(c, old', s.trace)
    ensures var (s1, refusal) := Land(c, s, a.landing);
      AskedSince(c, old', if refusal.Some? then s1.trace else WaitForCharge(c, s1.(phase := Charging), a).0.trace)
  {
    AskedSinceLog(c, old', s, LandingCall(a.landing));
    var (s1, refusal) := Land(c, s, a.landing);
    if refusal.None? {
      AskedSinceCharge(c, old', s1.(phase := Charging), a);
    }
  }

  /** The check before a takeoff request is made in the same call: a call that
      requests a takeoff has itself asked the orchestrator just before. */
  lemma AskedInTheSameCall(c: Config, s: State, mission: string, a: Answers)
    ensures AskedSince(c, s.trace, Preflight(c, s, mission, a).0.trace)
  {
    if (c.managed || c.orchestrated) && !c.mock && !s.phase.Departed? {
      var s0 := s.(lastMission := mission);
      var (s1, ready) := AskReady(c, s0, a.available);
      AskedSinceLog(c, s.trace, s0, Available(a.available));
      match ready
      case Unknown(_) =>
      case IsReady =>
        AskedSinceTakeoff(c, s.trace, s1.(phase := Ready), a.takeoff);
      case NotReady =>
        if s.phase.Charging? {
          AskedSinceCharge(c, s.trace, s1, a);
        } else {
          AskedSinceLanding(c, s.trace, s1.(phase := NotRegistered), a);
        }
    }
  }

  /** The trace grew without a takeoff request. */
  ghost predicate NoTakeoffSince(old': seq<Event>, t: seq<Event>) {
    |old'| <= |t| && t[..|old'|] == old' && forall i :: |old'| <= i < |t| ==> !t[i].TakeoffCall?
  }

  /** The converse: a preflight call whose orchestrator replies do not list this drone
      above the minimum requests no takeoff, and clears only a drone that has already
      departed, or where there is nothing to ask. */
  lemma UnlistedStays(c: Config, s: State, mission: string, a: Answers)
    requires !ListedAbove(c, a.available) && !ListedAbove(c, a.availableAgain)
    ensures var (s', v) := Preflight(c, s, mission, a);
      && NoTakeoffSince(s.trace, s'.trace)
      && (v.Cleared? ==> s.phase.Departed? || c.mock || (!c.managed && !c.orchestrated))
  {
    if (c.managed || c.orchestrated) && !c.mock && !s.phase.Departed? {
      var s0 := s.(lastMission := mission);
      var (s1, ready) := AskReady(c, s0, a.available);
      ReadyMeansListed(c, s0, a.available);
      assert NoTakeoffSince(s.trace, s1.trace);
      if ready.NotReady? {
        if s.phase.Charging? {
          UnlistedWaits(c, s1, a);
        } else {
          UnlistedTriesToLand(c, s1.(phase := NotRegistered), a);
        }
      }
    }
  }

  lemma UnlistedTriesToLand(c: Config, s: State, a: Answers)
    requires !ListedAbove(c, a.availableAgain)
    ensures var (s1, refusal) := Land(c, s, a.landing);
      && NoTakeoffSince(s.trace, s1.trace)
      && NoTakeoffSince(s.trace, WaitForCharge(c, s1.(phase := Charging), a).0.trace)
      && !WaitForCharge(c, s1.(phase := Charging), a).1.Cleared?
  {
    var (s1, refusal) := Land(c, s, a.landing);
    UnlistedWaits(c, s1.(phase := Charging), a);
    NoTakeoffTwice(s.trace, s1.trace, WaitForCharge(c, s1.(phase := Charging), a).0.trace);
  }

  lemma NoTakeoffTwice(t: seq<Event>, u: seq<Event>, v: seq<Event>)
    requires NoTakeoffSince(t, u) && NoTakeoffSince(u, v)
    ensures NoTakeoffSince(t, v)
  {
    assert v[..|t|] == v[..|u|][..|t|];
    forall i | |t| <= i < |v|
      ensures !v[i].TakeoffCall?
    {
      assert i < |u| ==> v[i] == v[..|u|][i] == u[i];
    }
  }

  /** An unlisted drone that is not charging asks to land first; it starts to charge
      exactly when that is approved. */
  lemma UnlistedLands(c: Config, s: State, mission: string, a: Answers)
    requires c.managed && c.orchestrated && !c.mock && !s.phase.Departed? && !s.phase.Charging?
    requires a.available.Reply? && !ListedAbove(c, a.available) && !ListedAbove(c, a.availableAgain)
    ensures var (s', v) := Preflight(c, s, mission, a);
      && |s'.trace| >= |s.trace| + 2 && s'.trace[|s.trace|] == Available(a.available) && s'.trace[|s.trace| + 1] == LandingCall(a.landing)
      && (s'.phase.Charging? <==> ApprovesLanding(a.landing))
  {
    var s0 := s.(lastMission := mission);
    ReadyMeansListed(c, s0, a.available);
    ApprovalsMean(a.landing);
    var s1 := Log(s0, Available(a.available)).(phase := NotRegistered);
    var (s2, refusal) := Land(c, s1, a.landing);
    assert s2.trace[|s.trace|] == Available(a.available) && s2.trace[|s.trace| + 1] == LandingCall(a.landing);
    if refusal.None? {
      UnlistedWaits(c, s2.(phase := Charging), a);
      ChargingStays(c, s2.(phase := Charging), a);
      var t := WaitForCharge(c, s2.(phase := Charging), a).0.trace;
      assert t[|s.trace|] == t[..|s2.trace|][|s.trace|] && t[|s.trace| + 1] == t[..|s2.trace|][|s.trace| + 1];
    }
  }

  lemma ChargingStays(c: Config, s: State, a: Answers)
    requires !ListedAbove(c, a.availableAgain) && s.phase.Charging?
    ensures WaitForCharge(c, s, a).0.phase.Charging?
  {
    ReadyMeansListed(c, if s.waitAt.None? then s.(waitAt := Some(a.clock.recorded)) else s, a.availableAgain);
  }

  /** A drone that has departed is cleared again for the same mission and for no other,
      without a call. */
  lemma DepartedMeans(c: Config, s: State, mission: string, a: Answers)
    requires (c.managed || c.orchestrated) && !c.mock && s.phase.Departed?
    ensures var (s', v) := Preflight(c, s, mission, a);
      && s'.trace == s.trace && s'.phase.Departed?
      && v == if mission == s.lastMission then Cleared else Refused("already_departed")
  {
  }

  /** The port is the one the approval names; a takeoff keeps it when none is named. */
  lemma PortsMean(c: Config, s: State, r: Resp)
    requires c.managed
    ensures ApprovesLanding(r) ==> Land(c, s, r).0.portId == NamedPort(r)
    ensures ApprovesTakeoff(r) ==> TakeOff(c, s, r).0.portId == if NamedPort(r) == "" then s.portId else NamedPort(r)
  {
    ApprovalsMean(r);
  }

  function NamedPort(r: Resp): string
    requires ApprovesLanding(r)
  {
    var b := Unwrap(r.body.value, DEPTH);
    if "port_id" in b && b["port_id"].Str? then b["port_id"].s else ""
  }

  lemma UnlistedWaits(c: Config, s: State, a: Answers)
    requires !ListedAbove(c, a.availableAgain)
    ensures var (s', v) := WaitForCharge(c, s, a); NoTakeoffSince(s.trace, s'.trace) && !v.Cleared?
  {
    ReadyMeansListed(c, if s.waitAt.None? then s.(waitAt := Some(a.clock.recorded)) else s, a.availableAgain);
  }

  // ---- the bounded wait --------------------------------------------------------------------

  /** The k-th input is a preflight call, and its answer is "pending". */
  predicate WaitsAt(c: Config, h: seq<Input>, k: nat) {
    && k < |h| && h[k].DoPreflight?
    && Preflight(c, After(c, Initial(c), h[..k]), h[k].mission, h[k].answers).1.Waiting?
  }

  ghost predicate ClockNeverBack(h: seq<Input>) {
    && (forall i :: 0 <= i < |h| && h[i].DoPreflight? ==> Ordered(h[i].answers.clock))
    && (forall i, j :: 0 <= i < j < |h| && h[i].DoPreflight? && h[j].DoPreflight? ==>
          h[i].answers.clock.tested <= h[j].answers.clock.recorded)
  }

  /** How a preflight call treats the wait on record: it keeps it, clears it or, if
      there is none, records its own time; "pending" means the deadline has not passed. */
  lemma PreflightWait(c: Config, s: State, mission: string, a: Answers)
    ensures var (s1, v) := Preflight(c, s, mission, a);
      && (s1.waitAt == s.waitAt || s1.waitAt.None? || (s.waitAt.None? && s1.waitAt == Some(a.clock.recorded)))
      && (v.Waiting? ==> s1.waitAt.Some? && (s.waitAt.Some? ==> s1.waitAt == s.waitAt))
      && (v.Waiting? && s.waitAt.Some? ==> a.clock.tested <= s.waitAt.value + WholeSeconds(c.chargeTimeout))
  {
  }

  /** A wait on record was recorded by some earlier preflight call. */
  lemma {:induction false} WaitWasRecorded(c: Config, h: seq<Input>)
    ensures var w := After(c, Initial(c), h).waitAt;
      w.Some? ==> exists k :: 0 <= k < |h| && h[k].DoPreflight? && h[k].answers.clock.recorded == w.value
    decreases |h|
  {
    if h != [] {
      var before, last := h[..|h| - 1], h[|h| - 1];
      WaitWasRecorded(c, before);
      var s := After(c, Initial(c), before);
      if last.DoPreflight? {
        PreflightWait(c, s, last.mission, last.answers);
      }
      var w := After(c, Initial(c), h).waitAt;
      if w.Some? && w == s.waitAt {
        var k :| 0 <= k < |before| && before[k].DoPreflight? && before[k].answers.clock.recorded == w.value;
        assert h[k] == before[k];
      }
    }
  }

  /** The wait on record before the k-th input. */
  function WaitBefore(c: Config, h: seq<Input>, k: nat): Option<real>
    requires k <= |h|
  {
    After(c, Initial(c), h[..k]).waitAt
  }

  function Tested(i: Input): real {
    if i.DoPreflight? then i.answers.clock.tested else 0.0
  }

  /** The k-th pending answer keeps a wait on record and comes before its deadline. */
  predicate Pends(before: Option<real>, after: Option<real>, tested: real, timeout: real) {
    after.Some? && (before.Some? ==> after == before && tested <= before.value + timeout)
  }

  lemma WaitPends(c: Config, h: seq<Input>, k: nat)
    requires WaitsAt(c, h, k)
    ensures Pends(WaitBefore(c, h, k), WaitBefore(c, h, k + 1), Tested(h[k]), WholeSeconds(c.chargeTimeout))
  {
    assert h[..k + 1][..k] == h[..k];
    PreflightWait(c, After(c, Initial(c), h[..k]), h[k].mission, h[k].answers);
  }

  /** After a pending answer the wait on record is no younger than that answer. */
  lemma WaitIsPast(c: Config, h: seq<Input>, i: nat)
    requires ClockNeverBack(h) && WaitsAt(c, h, i)
    ensures WaitBefore(c, h, i + 1).Some? && WaitBefore(c, h, i + 1).value <= Tested(h[i])
  {
    WaitPends(c, h, i);
    WaitWasRecorded(c, h[..i + 1]);
  }

  lemma {:induction false} StretchIsShort(waits: seq<Option<real>>, tested: seq<real>, timeout: real, i: nat, j: nat)
    requires |waits| == |tested| + 1 && i <= j < |tested|
    requires forall k :: i <= k <= j ==> Pends(waits[k], waits[k + 1], tested[k], timeout)
    requires waits[i + 1].Some?
    ensures waits[j + 1] == waits[i + 1]
    ensures i < j ==> tested[j] <= waits[i + 1].value + timeout
    decreases j
  {
    if i < j {
      StretchIsShort(waits, tested, timeout, i, j - 1);
    }
  }

  /** Inputs i to j are all preflight calls answered "pending". */
  ghost predicate Stretch(c: Config, h: seq<Input>, i: nat, j: nat) {
    forall k: nat :: i <= k <= j ==> WaitsAt(c, h, k)
  }

  function WaitsOf(c: Config, h: seq<Input>): (w: seq<Option<real>>)
    ensures |w| == |h| + 1
    ensures forall k :: 0 <= k <= |h| ==> w[k] == WaitBefore(c, h, k)
  {
    seq(|h| + 1, k requires 0 <= k <= |h| => WaitBefore(c, h, k))
  }

  function TestedOf(h: seq<Input>): (t: seq<real>)
    ensures |t| == |h|
    ensures forall k :: 0 <= k < |h| ==> t[k] == Tested(h[k])
  {
    seq(|h|, k requires 0 <= k < |h| => Tested(h[k]))
  }

  lemma StretchPends(c: Config, h: seq<Input>, i: nat, j: nat)
    requires i <= j < |h| && Stretch(c, h, i, j)
    ensures forall k :: i <= k <= j ==>
      Pends(WaitsOf(c, h)[k], WaitsOf(c, h)[k + 1], TestedOf(h)[k], WholeSeconds(c.chargeTimeout))
  {
    forall k | i <= k <= j
      ensures Pends(WaitsOf(c, h)[k], WaitsOf(c, h)[k + 1], TestedOf(h)[k], WholeSeconds(c.chargeTimeout))
    {
      WaitPends(c, h, k);
    }
  }

  lemma StretchStarts(c: Config, h: seq<Input>, i: nat, j: nat)
    requires i <= j < |h| && ClockNeverBack(h) && Stretch(c, h, i, j)
    ensures WaitsOf(c, h)[i + 1].Some? && WaitsOf(c, h)[i + 1].value <= Tested(h[i])
  {
    WaitIsPast(c, h, i);
  }

  /** The bounded wait: in any run, a stretch of consecutive pending answers ends
      no later than the charge timeout, in whole seconds, after its first answer. */
  lemma BoundedWait(c: Config, h: seq<Input>, i: nat, j: nat)
    requires i <= j < |h| && c.chargeTimeout >= 0.0 && ClockNeverBack(h) && Stretch(c, h, i, j)
    ensures Tested(h[j]) <= Tested(h[i]) + WholeSeconds(c.chargeTimeout)
  {
    StretchPends(c, h, i, j);
    StretchStarts(c, h, i, j);
    StretchIsShort(WaitsOf(c, h), TestedOf(h), WholeSeconds(c.chargeTimeout), i, j);
  }

  // ---- charging and landing -------------------------------------------------------------------

  /** The charge check: ready when listed, unknown without an answer; otherwise the wait,
      from its recorded start, either goes on or has lasted longer than the timeout. */
  lemma ChargeMeans(c: Config, s: State, t: Clock, r: Resp)
    ensures var (s', charge) := CheckCharge(c, s, t, r);
      var start := if s.waitAt.Some? then s.waitAt.value else t.started;
      var late := t.tested > start + c.chargeTimeout.Floor as real;
      if !c.orchestrated || r.Failed? then charge.ChargeUnknown? && s'.phase == s.phase
      else if ListedAbove(c, r) then charge == Charged && s'.phase == Ready && s'.waitAt == None
      else
        && charge == (if late then ChargeTimedOut else StillCharging) && s'.phase == s.phase
        && s'.waitAt == if late then None else Some(if s.waitAt.Some? then s.waitAt.value else t.recorded)
  {
    ListsMeans(c, r);
  }

  /** Landing after a mission: asked once, charging from then on exactly when approved. */
  lemma PostLandingMeans(c: Config, s: State, r: Resp)
    requires c.managed && !c.mock
    ensures var (s', ok) := PostMissionLand(c, s, r);
      && s'.trace == s.trace + [LandingCall(r)]
      && (ok <==> ApprovesLanding(r))
      && (ok ==> s'.phase == Charging && s'.waitAt == None) && (!ok ==> s'.phase == s.phase && s'.waitAt == s.waitAt)
  {
    ApprovalsMean(r);
  }
}
