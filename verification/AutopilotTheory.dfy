/** What every run of the autopilot keeps. */
module AutopilotTheory {
  import opened Common
  import opened Interval
  import opened Missions
  import opened AutopilotSpec

  // ---- reachable states ---------------------------------------------------------------

  predicate IndexFits(s: State) {
    match s.mission
    case None => s.index == 0
    case Some(m) => if m.steps == [] then s.index == -1 else 0 <= s.index <= |m.steps|
  }

  predicate Coherent(s: State) {
    && IndexFits(s)
    && (s.mode.Idle? ==> s.mission.None?)
    && (s.mode.Idle? || s.mode.Completed? || s.mode.EmergencyStop? ==> !s.kover)
    && (s.mode.MissionLoaded? || s.mode.PreFlight? || s.mode.Completed? ==> s.mission.Some?)
    && (s.mode.Completed? ==> s.index == |s.mission.value.steps|)
    && (s.mode.PreFlight? ==> s.startedAt.Some?)
  }

  lemma FlyCoherent(c: Config, s: State, m: Mission, n: Nav)
    requires Coherent(s) && s.mission == Some(m) && !s.kover && (s.mode.Executing? || s.mode.Paused?)
    ensures Coherent(Fly(c, s, m, n))
  {
  }

  lemma PreFlightCoherent(c: Config, s: State, now: real, g: Gates)
    ensures Coherent(s) ==> Coherent(StepPreFlight(c, s, now, g))
  {
  }

  lemma StepCoherent(c: Config, s: State, i: Input)
    requires Coherent(s)
    ensures Coherent(Step(c, s, i))
  {
    match i
    case DoLoad(_) =>
    case DoCommand(cmd, now, g) =>
      match cmd {
        case Start =>
          PreFlightCoherent(c, s.(lastError := "", startedAt := Some(now), mode := PreFlight), now, g);
        case _ =>
      }
    case DoTick(now, nav, g) =>
      var s1 := PollNavigation(c, s, now, nav);
      PreFlightCoherent(c, s1, now, g);
      if !s1.mode.PreFlight? && s1.nav.Some? && !s1.kover && s1.mission.Some? && (s1.mode.Executing? || s1.mode.Paused?) {
        FlyCoherent(c, s1, s1.mission.value, s1.nav.value);
      }
  }

  /** Reachable states: IDLE holds no mission; IDLE, COMPLETED and EMERGENCY_STOP
      have the descent override off; MISSION_LOADED, PRE_FLIGHT and COMPLETED hold a
      mission; the step index fits the mission, and COMPLETED means it ran to the end. */
  lemma {:induction false} ReachableStates(c: Config, h: seq<Input>)
    ensures Coherent(After(c, INITIAL, h))
    decreases |h|
  {
    if h != [] {
      ReachableStates(c, h[..|h| - 1]);
      StepCoherent(c, After(c, INITIAL, h[..|h| - 1]), h[|h| - 1]);
    }
  }

  /** The table allows START from IDLE, but no reachable IDLE state accepts it. */
  lemma StartFromIdleIsRefused(c: Config, h: seq<Input>, now: real, g: Gates)
    requires After(c, INITIAL, h).mode.Idle?
    ensures Handle(c, After(c, INITIAL, h), Start, now, g) == After(c, INITIAL, h)
  {
    ReachableStates(c, h);
  }

  // ---- waypoints in order -----------------------------------------------------------------

  /** In state `s` this tick finds the drone flying the mission within two metres of step k. */
  predicate Reaches(c: Config, s: State, i: Input, k: nat) {
    && i.DoTick? && s.mode.Executing? && !s.kover && s.mission.Some?
    && var n := PollNavigation(c, s, i.now, i.navReply).nav;
       n.Some? && k < |s.mission.value.steps| && s.mission.value.steps[k].Waypoint? && Near(c, n.value, s.mission.value.steps[k])
  }

  /** Position k of the history, as the step it takes. */
  predicate ReachesAt(c: Config, h: seq<Input>, p: nat, k: nat) {
    p < |h| && Reaches(c, After(c, INITIAL, h[..p]), h[p], k)
  }

  /** The positions are increasing, lie after the latest load, and the j-th of them
      is a tick that reaches step j. */
  ghost predicate Visited(c: Config, h: seq<Input>, ps: seq<nat>) {
    && Increasing(ps, |h|)
    && (forall j :: 0 <= j < |ps| ==> ReachesAt(c, h, ps[j], j))
    && (ps != [] ==> forall q :: ps[0] <= q < |h| ==> !h[q].DoLoad?)
  }

  predicate Increasing(ps: seq<nat>, n: nat) {
    && (forall j, k :: 0 <= j < k < |ps| ==> ps[j] < ps[k])
    && (forall j :: 0 <= j < |ps| ==> ps[j] < n)
  }

  /** Steps completed: a mission without steps counts as none. */
  function Progress(s: State): nat {
    if s.mission.None? || s.index < 0 then 0 else s.index
  }

  lemma FlyProgress(c: Config, s: State, m: Mission, n: Nav)
    requires Coherent(s) && s.mission == Some(m) && (s.mode.Executing? || s.mode.Paused?)
    ensures var s1, k := Fly(c, s, m, n), Progress(s);
      && s1.mission == s.mission
      && Progress(s1) == if s.mode.Executing? && k < |m.steps| && m.steps[k].Waypoint? && Near(c, n, m.steps[k])
                         then k + 1 else k
  {
  }

  lemma CommandProgress(c: Config, s: State, cmd: Command, now: real, g: Gates)
    requires Coherent(s)
    ensures var s1 := Handle(c, s, cmd, now, g);
      (Progress(s1) == Progress(s) && s1.mission == s.mission) || Progress(s1) == 0
  {
    if cmd.Start? {
      var s1 := s.(lastError := "", startedAt := Some(now), mode := PreFlight);
      assert Progress(StepPreFlight(c, s1, now, g)) == Progress(s);
    }
  }

  /** How one input moves the progress: one step on exactly when it reaches the
      current one, back to zero on a load or a reset, and otherwise not at all. */
  lemma ProgressStep(c: Config, s: State, i: Input)
    requires Coherent(s)
    ensures var s1 := Step(c, s, i);
      if Reaches(c, s, i, Progress(s)) then Progress(s1) == Progress(s) + 1 && s1.mission == s.mission
      else Progress(s1) == 0 || (Progress(s1) == Progress(s) && s1.mission == s.mission && !i.DoLoad?)
  {
    match i
    case DoLoad(_) =>
    case DoCommand(cmd, now, g) =>
      CommandProgress(c, s, cmd, now, g);
    case DoTick(now, nav, g) =>
      var s1 := PollNavigation(c, s, now, nav);
      if s1.mission.Some? && s1.nav.Some? && !s1.kover && (s1.mode.Executing? || s1.mode.Paused?) {
        FlyProgress(c, s1, s1.mission.value, s1.nav.value);
        assert Step(c, s, i) == Fly(c, s1, s1.mission.value, s1.nav.value);
      }
  }

  lemma VisitedExtends(c: Config, h: seq<Input>, i: Input, ps: seq<nat>)
    requires Visited(c, h, ps) && (ps != [] ==> !i.DoLoad?)
    ensures Visited(c, h + [i], ps)
  {
    var t := h + [i];
    forall j | 0 <= j < |ps|
      ensures ReachesAt(c, t, ps[j], j)
    {
      assert ReachesAt(c, h, ps[j], j);
      assert t[..ps[j]] == h[..ps[j]] && t[ps[j]] == h[ps[j]];
    }
  }

  lemma ChainGrows(ps: seq<nat>, n: nat, at: (nat, nat) -> bool)
    requires Increasing(ps, n) && at(n, |ps|) && forall j :: 0 <= j < |ps| ==> at(ps[j], j)
    ensures var qs := ps + [n]; Increasing(qs, n + 1) && forall j :: 0 <= j < |qs| ==> at(qs[j], j)
  {
  }

  lemma NoLoadGrows(h: seq<Input>, i: Input, ps: seq<nat>)
    requires !i.DoLoad? && (ps != [] ==> forall q :: ps[0] <= q < |h| ==> !h[q].DoLoad?)
    ensures forall q :: (ps + [|h|])[0] <= q < |h + [i]| ==> !(h + [i])[q].DoLoad?
  {
  }

  lemma ReachesNext(c: Config, h: seq<Input>, i: Input, k: nat)
    requires Reaches(c, After(c, INITIAL, h), i, k)
    ensures ReachesAt(c, h + [i], |h|, k)
  {
    assert (h + [i])[..|h|] == h;
  }

  lemma VisitedGrows(c: Config, h: seq<Input>, i: Input, ps: seq<nat>)
    requires Visited(c, h, ps) && !i.DoLoad? && ReachesAt(c, h + [i], |h|, |ps|)
    ensures Visited(c, h + [i], ps + [|h|])
  {
    VisitedExtends(c, h, i, ps);
    NoLoadGrows(h, i, ps);
    ChainGrows(ps, |h|, (p: nat, k: nat) => ReachesAt(c, h + [i], p, k));
  }

  /** The reaching ticks behind the present step index. */
  lemma {:induction false} ReachingTicks(c: Config, h: seq<Input>) returns (ps: seq<nat>)
    ensures Visited(c, h, ps) && |ps| == Progress(After(c, INITIAL, h))
    decreases |h|
  {
    if h == [] {
      return [];
    }
    var before, i := h[..|h| - 1], h[|h| - 1];
    assert h == before + [i];
    ps := ReachingTicks(c, before);
    var s := After(c, INITIAL, before);
    ReachableStates(c, before);
    ProgressStep(c, s, i);
    var now := Progress(Step(c, s, i));
    if Reaches(c, s, i, |ps|) {
      ReachesNext(c, before, i, |ps|);
      VisitedGrows(c, before, i, ps);
      ps := ps + [|before|];
    } else if now == 0 {
      ps := [];
    } else {
      VisitedExtends(c, before, i, ps);
    }
  }

  /** Waypoints in order: after any history, index k means that since the latest
      load there were k ticks, one after the other, that found the drone executing
      the mission within two metres of steps 0, 1, ..., k - 1; a completed mission
      has been found at every one of its steps. */
  lemma WaypointsInOrder(c: Config, h: seq<Input>)
    ensures var s := After(c, INITIAL, h);
      && (exists ps :: Visited(c, h, ps) && |ps| == Progress(s))
      && (s.mode.Completed? ==> s.mission.Some? && Progress(s) == |s.mission.value.steps|)
  {
    var ps := ReachingTicks(c, h);
    ReachableStates(c, h);
  }

  // ---- a mission completes once -----------------------------------------------------------

  predicate IsKover(i: Input) {
    i.DoCommand? && i.command.Kover?
  }

  predicate KoverFree(h: seq<Input>) {
    forall k :: 0 <= k < |h| ==> !IsKover(h[k])
  }

  /** The two notices of a completed mission stand next to each other: the landing
      request first, then the completion report, for the same mission. */
  ghost predicate NoticesPaired(trace: seq<Event>) {
    forall k: nat :: k < |trace| ==> PairedAt(trace, k)
  }

  predicate PairedAt(trace: seq<Event>, k: nat)
    requires k < |trace|
  {
    && (trace[k].OrvdComplete? ==> k > 0 && trace[k - 1] == DroneportLand(trace[k].id))
    && (trace[k].DroneportLand? ==> k > 0 && trace[k - 1] == MissionDone(trace[k].id))
  }

  function DoneSinceLoad(trace: seq<Event>): nat {
    if trace == [] || trace[|trace| - 1].Loaded? then 0
    else DoneSinceLoad(trace[..|trace| - 1]) + (if trace[|trace| - 1].MissionDone? then 1 else 0)
  }

  /** While the mission is still to be flown it has not completed; it never does twice. */
  ghost predicate CompletesOnce(s: State) {
    && !s.kover && DoneSinceLoad(s.trace) <= 1
    && (s.mode.MissionLoaded? || s.mode.PreFlight? || s.mode.Executing? || s.mode.Paused? ==> DoneSinceLoad(s.trace) == 0)
  }

  lemma DoneLog(s: State, e: Event)
    ensures DoneSinceLoad(Log(s, e).trace)
         == if e.Loaded? then 0 else DoneSinceLoad(s.trace) + (if e.MissionDone? then 1 else 0)
  {
    var t := s.trace + [e];
    assert t[..|t| - 1] == s.trace && t[|t| - 1] == e;
  }

  lemma FinishDone(s: State, id: string)
    ensures DoneSinceLoad(Finish(s, id).trace) == DoneSinceLoad(s.trace) + 1
  {
    var s1 := Log(s.(mode := Completed), MissionDone(id));
    DoneLog(s.(mode := Completed), MissionDone(id));
    DoneLog(s1, DroneportLand(id));
    DoneLog(Log(s1, DroneportLand(id)), OrvdComplete(id));
  }

  lemma HoldClosedDone(s: State, n: Nav)
    ensures DoneSinceLoad(HoldClosed(s, n).trace) == DoneSinceLoad(s.trace)
  {
    DoneLog(s, Hold(HoldAt(n)));
    DoneLog(Log(s, Hold(HoldAt(n))), Door(false));
  }

  lemma LegDone(s: State, i: nat, t: Target, drop: bool)
    ensures DoneSinceLoad(Log(Log(s, Leg(i, t)), Door(drop)).trace) == DoneSinceLoad(s.trace)
  {
    DoneLog(s, Leg(i, t));
    DoneLog(Log(s, Leg(i, t)), Door(drop));
  }

  lemma FlyCompletesOnce(c: Config, s: State, m: Mission, n: Nav)
    requires CompletesOnce(s) && s.mission == Some(m) && (s.mode.Executing? || s.mode.Paused?)
    ensures CompletesOnce(Fly(c, s, m, n))
  {
    var i, r := if s.index < 0 then 0 else s.index, Fly(c, s, m, n);
    if m.steps == [] || (i >= |m.steps| && s.mode.Paused?) || (i < |m.steps| && m.steps[i].NotObject?) {
      assert r == s;
    } else if i >= |m.steps| {
      assert r == Finish(s, m.id);
      FinishDone(s, m.id);
    } else if s.mode.Paused? {
      assert r == HoldClosed(s, n);
      HoldClosedDone(s, n);
    } else if !Near(c, n, m.steps[i]) {
      assert r == Log(Log(s, Leg(i, LegTarget(c, n, m.steps[i]))), Door(m.steps[i].drop));
      LegDone(s, i, LegTarget(c, n, m.steps[i]), m.steps[i].drop);
    } else if i >= |m.steps| - 1 {
      var s1 := s.(index := |m.steps|);
      assert r == HoldClosed(Finish(s1, m.id), n);
      FinishDone(s1, m.id);
      HoldClosedDone(Finish(s1, m.id), n);
    } else {
      assert r == s.(index := i + 1);
    }
  }

  lemma SafeStopDone(s: State)
    ensures DoneSinceLoad(SafeStop(s).trace) == DoneSinceLoad(s.trace)
  {
    if s.nav.Some? {
      DoneLog(s, Hold(HoldAt(s.nav.value)));
      DoneLog(Log(s, Hold(HoldAt(s.nav.value))), Door(false));
    } else {
      DoneLog(s, Door(false));
    }
  }

  lemma PreFlightCompletesOnce(c: Config, s: State, now: real, g: Gates)
    requires CompletesOnce(s)
    ensures CompletesOnce(StepPreFlight(c, s, now, g))
  {
    var r, passed := StepPreFlight(c, s, now, g), Log(s, PreflightPassed(MissionId(s)));
    if s.mode.PreFlight? && !TimedOut(c, s, now) && AllGates(s.mission, g) == Open {
      assert r == passed.(mode := Executing, lastError := "");
      DoneLog(s, PreflightPassed(MissionId(s)));
    } else {
      assert r.trace == s.trace;
    }
  }

  lemma StepCompletesOnce(c: Config, s: State, i: Input)
    requires Coherent(s) && CompletesOnce(s) && !IsKover(i)
    ensures CompletesOnce(Step(c, s, i))
  {
    match i
    case DoLoad(m) =>
      DoneLog(s, Loaded(m));
    case DoCommand(cmd, now, g) =>
      match cmd {
        case Start =>
          if s.mode.MissionLoaded? {
            PreFlightCompletesOnce(c, s.(lastError := "", startedAt := Some(now), mode := PreFlight), now, g);
          }
        case Abort =>
          SafeStopDone(s.(kover := false, mode := Aborted));
        case Stop =>
          SafeStopDone(s.(kover := false, mode := EmergencyStop));
        case _ =>
      }
    case DoTick(now, nav, g) =>
      var s1 := PollNavigation(c, s, now, nav);
      PreFlightCompletesOnce(c, s1, now, g);
      if s1.mission.Some? && s1.nav.Some? && (s1.mode.Executing? || s1.mode.Paused?) {
        FlyCompletesOnce(c, s1, s1.mission.value, s1.nav.value);
      }
  }

  /** In a run without the descent override, every loaded mission completes at most once. */
  lemma {:induction false} MissionCompletesOnce(c: Config, h: seq<Input>)
    requires KoverFree(h)
    ensures CompletesOnce(After(c, INITIAL, h))
    decreases |h|
  {
    if h != [] {
      MissionCompletesOnce(c, h[..|h| - 1]);
      ReachableStates(c, h[..|h| - 1]);
      StepCompletesOnce(c, After(c, INITIAL, h[..|h| - 1]), h[|h| - 1]);
    }
  }

  // ---- the notices --------------------------------------------------------------------------

  lemma PairedLog(s: State, e: Event)
    requires NoticesPaired(s.trace) && !e.OrvdComplete? && !e.DroneportLand?
    ensures NoticesPaired(Log(s, e).trace)
  {
    PairedAppend(s.trace, e);
  }

  lemma PairedAppend(trace: seq<Event>, e: Event)
    requires NoticesPaired(trace) && PairedAt(trace + [e], |trace|)
    ensures NoticesPaired(trace + [e])
  {
    var t := trace + [e];
    forall k: nat | k < |t|
      ensures PairedAt(t, k)
    {
      if k < |trace| {
        assert PairedAt(trace, k);
      }
    }
  }

  lemma PairedFinish(s: State, id: string)
    requires NoticesPaired(s.trace)
    ensures NoticesPaired(Finish(s, id).trace)
  {
    var t := s.trace + [MissionDone(id)];
    PairedAppend(s.trace, MissionDone(id));
    PairedAppend(t, DroneportLand(id));
    PairedAppend(t + [DroneportLand(id)], OrvdComplete(id));
  }

  lemma PairedStep(c: Config, s: State, i: Input)
    requires NoticesPaired(s.trace)
    ensures NoticesPaired(Step(c, s, i).trace)
  {
    match i
    case DoLoad(m) =>
      PairedLog(s, Loaded(m));
    case DoCommand(cmd, now, g) =>
      var t := s.(kover := false);
      PairedLog(s, PreflightPassed(MissionId(s)));
      PairedLog(t, Door(false));
      if s.nav.Some? {
        PairedLog(t, Hold(HoldAt(s.nav.value)));
        PairedLog(Log(t, Hold(HoldAt(s.nav.value))), Door(false));
      }
    case DoTick(now, nav, g) =>
      PairedControl(c, PollNavigation(c, s, now, nav), now, g);
  }

  lemma PairedControl(c: Config, s: State, now: real, g: Gates)
    requires NoticesPaired(s.trace)
    ensures NoticesPaired(StepControl(c, s, now, g).trace)
  {
    PairedLog(s, PreflightPassed(MissionId(s)));
    if s.nav.Some? {
      var n := s.nav.value;
      var e := Descend(Target(0.0, 0.0, -1.0, 0.0, n.lat, n.lon, n.heading, false));
      PairedLog(s, e);
      PairedLog(Log(s, e), Door(false));
      if s.mission.Some? {
        PairedFly(c, s, s.mission.value, n);
      }
    }
  }

  lemma PairedHold(s: State, n: Nav)
    requires NoticesPaired(s.trace)
    ensures NoticesPaired(HoldClosed(s, n).trace)
  {
    PairedLog(s, Hold(HoldAt(n)));
    PairedLog(Log(s, Hold(HoldAt(n))), Door(false));
  }

  lemma PairedFly(c: Config, s: State, m: Mission, n: Nav)
    requires NoticesPaired(s.trace)
    ensures NoticesPaired(Fly(c, s, m, n).trace)
  {
    var i := if s.index < 0 then 0 else s.index;
    PairedFinish(s, m.id);
    PairedFinish(s.(index := |m.steps|), m.id);
    PairedHold(s, n);
    PairedHold(Finish(s.(index := |m.steps|), m.id), n);
    if i < |m.steps| && m.steps[i].Waypoint? {
      var e := Leg(i, LegTarget(c, n, m.steps[i]));
      PairedLog(s, e);
      PairedLog(Log(s, e), Door(m.steps[i].drop));
    }
  }

  /** In every run the landing request and the completion report are sent together,
      in this order, and only right after the mission was declared completed. */
  lemma {:induction false} NoticesFollowCompletion(c: Config, h: seq<Input>)
    ensures NoticesPaired(After(c, INITIAL, h).trace)
    decreases |h|
  {
    if h != [] {
      NoticesFollowCompletion(c, h[..|h| - 1]);
      PairedStep(c, After(c, INITIAL, h[..|h| - 1]), h[|h| - 1]);
    }
  }

  // ---- stop quiescence ---------------------------------------------------------------------------

  /** Nothing that moves: the override is off and no mission is being flown. */
  predicate Quiet(s: State) {
    !s.kover && !s.mode.Executing? && !s.mode.Paused?
  }

  /** The input makes a preflight pass. */
  predicate Passes(c: Config, s: State, i: Input) {
    Step(c, s, i).trace == s.trace + [PreflightPassed(MissionId(s))]
  }

  lemma QuietStep(c: Config, s: State, i: Input)
    requires Quiet(s) && !IsKover(i)
    ensures Passes(c, s, i) || Quiet(Step(c, s, i))
    ensures i.DoTick? ==> Passes(c, s, i) || Step(c, s, i).trace == s.trace
  {
    match i
    case DoLoad(_) =>
    case DoCommand(cmd, now, g) =>
      if cmd.Start? && s.mission.Some? && (s.mode.MissionLoaded? || s.mode.Idle?) {
        var s1 := s.(lastError := "", startedAt := Some(now), mode := PreFlight);
        assert MissionId(s1) == MissionId(s);
      }
    case DoTick(now, nav, g) =>
      var s1 := PollNavigation(c, s, now, nav);
      assert MissionId(s1) == MissionId(s);
  }

  lemma CommandsQuieten(c: Config, s: State, cmd: Command, now: real, g: Gates)
    requires cmd.Stop? || cmd.Reset? || cmd.Abort?
    ensures Quiet(Handle(c, s, cmd, now, g))
  {
  }

  /** No input of the history is a KOVER command or makes a preflight pass. */
  predicate NoRelease(c: Config, s: State, h: seq<Input>)
    decreases |h|
  {
    h == [] || (NoRelease(c, s, h[..|h| - 1]) && !IsKover(h[|h| - 1]) && !Passes(c, After(c, s, h[..|h| - 1]), h[|h| - 1]))
  }

  lemma {:induction false} StaysQuiet(c: Config, s: State, h: seq<Input>)
    requires Quiet(s) && NoRelease(c, s, h)
    ensures Quiet(After(c, s, h))
    decreases |h|
  {
    if h != [] {
      StaysQuiet(c, s, h[..|h| - 1]);
      QuietStep(c, After(c, s, h[..|h| - 1]), h[|h| - 1]);
    }
  }

  /** Stop quiescence: whatever happened before, after EMERGENCY_STOP, RESET or
      ABORT no control tick sends anything, motor target or door command, until a
      KOVER command or a newly passed preflight. */
  lemma StopQuiescence(c: Config, s: State, cmd: Command, now: real, g: Gates, h: seq<Input>, tick: Input)
    requires cmd.Stop? || cmd.Reset? || cmd.Abort?
    requires var s1 := Handle(c, s, cmd, now, g);
      NoRelease(c, s1, h) && tick.DoTick? && !Passes(c, After(c, s1, h), tick)
    ensures var s2 := After(c, Handle(c, s, cmd, now, g), h);
      Step(c, s2, tick).trace == s2.trace
  {
    var s1 := Handle(c, s, cmd, now, g);
    CommandsQuieten(c, s, cmd, now, g);
    StaysQuiet(c, s1, h);
    QuietStep(c, After(c, s1, h), tick);
  }

  // ---- the preflight timeout ----------------------------------------------------------------------

  /** When START was last given while a mission was loaded. */
  function LastStart(c: Config, h: seq<Input>): Option<real>
    decreases |h|
  {
    if h == [] then None
    else
      var before, i := h[..|h| - 1], h[|h| - 1];
      if i.DoCommand? && i.command.Start? && After(c, INITIAL, before).mission.Some? then Some(i.now)
      else LastStart(c, before)
  }

  lemma StartedStep(c: Config, s: State, i: Input)
    ensures Step(c, s, i).startedAt
         == if i.DoCommand? && i.command.Start? && s.mission.Some? then Some(i.now) else s.startedAt
  {
    match i
    case DoLoad(_) =>
    case DoCommand(cmd, now, g) =>
    case DoTick(now, nav, g) =>
      var s1 := PollNavigation(c, s, now, nav);
      if s1.mission.Some? && s1.nav.Some? {
        assert Fly(c, s1, s1.mission.value, s1.nav.value).startedAt == s1.startedAt;
      }
  }

  lemma {:induction false} StartedAtIsLastStart(c: Config, h: seq<Input>)
    ensures After(c, INITIAL, h).startedAt == LastStart(c, h)
    decreases |h|
  {
    if h != [] {
      StartedAtIsLastStart(c, h[..|h| - 1]);
      StartedStep(c, After(c, INITIAL, h[..|h| - 1]), h[|h| - 1]);
    }
  }

  /** The bounded preflight: still in PRE_FLIGHT after a tick, the time since the
      last START has not exceeded the timeout. */
  lemma PreflightIsBounded(c: Config, h: seq<Input>, now: real, nav: Option<Nav>, g: Gates)
    requires c.preflightTimeout > 0.0
    requires Step(c, After(c, INITIAL, h), DoTick(now, nav, g)).mode.PreFlight?
    ensures LastStart(c, h).Some? && now - LastStart(c, h).value <= c.preflightTimeout
  {
    ReachableStates(c, h);
    StartedAtIsLastStart(c, h);
  }

  const PENDING := Gates(Some((LimiterPending, "")), false, false, false, DockFailed)

  /** A START that finds the limiter pending: the clock starts anew, also in PRE_FLIGHT. */
  lemma PendingStart(c: Config, s: State, now: real)
    requires s.mission.Some? && (s.mode.MissionLoaded? || s.mode.PreFlight?)
    ensures var s' := Step(c, s, DoCommand(Start, now, PENDING));
      s'.mode.PreFlight? && s'.mission == s.mission && s'.startedAt == Some(now)
  {
  }

  lemma PendingTick(c: Config, s: State, now: real)
    requires s.mission.Some? && s.mode.PreFlight? && s.startedAt == Some(now)
    ensures Step(c, s, DoTick(now, None, PENDING)).mode.PreFlight?
  {
  }

  lemma Append(c: Config, h: seq<Input>, i: Input) returns (h': seq<Input>)
    ensures h' == h + [i] && After(c, INITIAL, h') == Step(c, After(c, INITIAL, h), i)
  {
    h' := h + [i];
    assert h'[..|h|] == h;
  }

  /** The bound does not run from the first START: whatever the timeout, a history that
      starts a mission at time zero can be in PRE_FLIGHT after a tick at any later
      time, because a START in PRE_FLIGHT is timed like the first one. */
  lemma StartRestartsTheClock(c: Config, m: Mission, later: real) returns (h: seq<Input>)
    ensures |h| == 4 && h[..2] == [DoLoad(m), DoCommand(Start, 0.0, PENDING)] && h[3] == DoTick(later, None, PENDING)
    ensures After(c, INITIAL, h).mode.PreFlight?
  {
    h := Append(c, [], DoLoad(m));
    PendingStart(c, After(c, INITIAL, h), 0.0);
    h := Append(c, h, DoCommand(Start, 0.0, PENDING));
    PendingStart(c, After(c, INITIAL, h), later);
    h := Append(c, h, DoCommand(Start, later, PENDING));
    PendingTick(c, After(c, INITIAL, h), later);
    h := Append(c, h, DoTick(later, None, PENDING));
  }

  /** The climb command is limited, points at the target height and rests near it. */
  lemma ClimbIsLimited(alt: real, target: real)
    ensures var v := Vertical(alt, target);
      && -3.0 <= v <= 3.0
      && (v > 0.0 ==> target - alt >= 0.2) && (v < 0.0 ==> target - alt <= -0.2)
      && (v == 0.0 <==> Abs(target - alt) < 0.2)
  {
  }
}
