/** What every run of the monitor keeps: the concrete two-table machine is a
    function of the input history alone, and the history says why it is safe. */
module MonitorTheory {
  import opened Common
  import opened Text
  import opened MonitorSpec

  // ---- the abstract monitor: mode and edit history ------------------------

  datatype Edit = Add(key: PolicyKey) | Drop(key: PolicyKey) | Wipe

  /** The accepted admin edit of one input, if any. */
  function EditOf(c: Config, i: Input): Option<Edit> {
    match i
    case Deliver(SetPolicy(sender, Some(k)), _) => if CanManage(c, sender) then Some(Add(k)) else None
    case Deliver(RemovePolicy(sender, Some(k)), _) => if CanManage(c, sender) then Some(Drop(k)) else None
    case Deliver(ClearPolicies(sender), _) => if CanManage(c, sender) then Some(Wipe) else None
    case _ => None
  }

  function Edited(t: set<PolicyKey>, e: Option<Edit>): set<PolicyKey> {
    match e
    case None => t
    case Some(Add(k)) => t + {k}
    case Some(Drop(k)) => t - {k}
    case Some(Wipe) => {}
  }

  /** All admin edits since start, folded over the initial policies. */
  function EditedTable(c: Config, init: set<PolicyKey>, h: seq<Input>): set<PolicyKey>
    decreases |h|
  {
    if h == [] then init
    else Edited(EditedTable(c, init, h[..|h| - 1]), EditOf(c, h[|h| - 1]))
  }

  predicate IsProxy(i: Input) {
    i.Deliver? && i.req.Proxy?
  }

  /** The input counts as a sign of life of `name`. */
  predicate Hears(i: Input, name: string) {
    || (IsProxy(i) && i.req.name == name)
    || (i.Deliver? && i.req.SafetyHeartbeat? && i.req.sender == name
        && (name == "limiter" || name == "emergency"))
  }

  /** When `name` was last heard. */
  function LastHeard(h: seq<Input>, name: string): Option<int>
    decreases |h|
  {
    if h == [] then None
    else if Hears(h[|h| - 1], name) then Some(h[|h| - 1].now)
    else LastHeard(h[..|h| - 1], name)
  }

  predicate Silence(h: seq<Input>, name: string, now: int, timeout: int) {
    LastHeard(h, name).None? || now - LastHeard(h, name).value > timeout
  }

  /** The mode as a function of the history. */
  function ModeAfter(c: Config, h: seq<Input>): Mode
    decreases |h|
  {
    if h == [] then Normal
    else
      var i, before := h[|h| - 1], h[..|h| - 1];
      if i.Watchdog? then
        if WatchdogArmed(c) && (Silence(before, "limiter", i.now, c.heartbeatTimeout)
                                || Silence(before, "emergency", i.now, c.heartbeatTimeout))
        then Isolated else ModeAfter(c, before)
      else if i.req.IsolationStart? && MaySwitchMode(c, i.req.sender) then Isolated
      else if i.req.IsolationEnd? && MaySwitchMode(c, i.req.sender) then Normal
      else ModeAfter(c, before)
  }

  function Switches(c: Config, h: seq<Input>): nat
    decreases |h|
  {
    if h == [] then 0
    else Switches(c, h[..|h| - 1]) + if ModeAfter(c, h) == ModeAfter(c, h[..|h| - 1]) then 0 else 1
  }

  /** The table that governs forwarding after a history. */
  function Governing(c: Config, init: set<PolicyKey>, h: seq<Input>): set<PolicyKey> {
    if ModeAfter(c, h).Isolated? then EmergencyPolicies(c) else EditedTable(c, init, h)
  }

  /** The concrete state shows exactly what the history determines. */
  ghost predicate Represents(c: Config, init: set<PolicyKey>, h: seq<Input>, s: State) {
    && s.safety.mode == ModeAfter(c, h)
    && s.normal == EditedTable(c, init, h)
    && s.active == Governing(c, init, h)
    && s.safety.version == 1 + Switches(c, h)
    && Heard(h, s)
  }

  ghost predicate Heard(h: seq<Input>, s: State) {
    forall name :: name != "" ==>
      && (name in s.lastSeen <==> LastHeard(h, name).Some?)
      && (name in s.lastSeen ==> s.lastSeen[name] == LastHeard(h, name).value)
  }

  /** The mode that an input asks for, if any, given whether a watched sender is stale. */
  function Wanted(c: Config, i: Input, stale: bool): Option<Mode> {
    if i.Watchdog? then if WatchdogArmed(c) && stale then Some(Isolated) else None
    else if i.req.IsolationStart? && MaySwitchMode(c, i.req.sender) then Some(Isolated)
    else if i.req.IsolationEnd? && MaySwitchMode(c, i.req.sender) then Some(Normal)
    else None
  }

  predicate AnyStale(c: Config, s: State, now: int) {
    Stale(s, "limiter", now, c.heartbeatTimeout) || Stale(s, "emergency", now, c.heartbeatTimeout)
  }

  /** One step moves to the wanted mode, and counts exactly when that is another one. */
  lemma ModeOfStep(c: Config, s: State, i: Input)
    ensures var f, wanted := Step(c, s, i).state.safety, Wanted(c, i, AnyStale(c, s, i.now));
      && f.mode == (if wanted.Some? then wanted.value else s.safety.mode)
      && f.version == s.safety.version + if f.mode == s.safety.mode then 0 else 1
  {
  }

  lemma StaleIsSilence(h: seq<Input>, s: State, name: string, now: int, timeout: int)
    requires Heard(h, s) && name != ""
    ensures Stale(s, name, now, timeout) <==> Silence(h, name, now, timeout)
  {
  }

  lemma StepMode(c: Config, h: seq<Input>, s: State)
    requires h != [] && s.safety.mode == ModeAfter(c, h[..|h| - 1])
    requires s.safety.version == 1 + Switches(c, h[..|h| - 1])
    requires Heard(h[..|h| - 1], s)
    ensures var s1 := Step(c, s, h[|h| - 1]).state;
      s1.safety.mode == ModeAfter(c, h) && s1.safety.version == 1 + Switches(c, h)
  {
    var i := h[|h| - 1];
    ModeOfStep(c, s, i);
    if i.Watchdog? {
      StaleIsSilence(h[..|h| - 1], s, "limiter", i.now, c.heartbeatTimeout);
      StaleIsSilence(h[..|h| - 1], s, "emergency", i.now, c.heartbeatTimeout);
    }
  }

  lemma StepTables(c: Config, s: State, i: Input)
    requires s.active == if s.safety.mode.Isolated? then EmergencyPolicies(c) else s.normal
    ensures var s1 := Step(c, s, i).state;
      && s1.normal == Edited(s.normal, EditOf(c, i))
      && s1.active == if s1.safety.mode.Isolated? then EmergencyPolicies(c) else s1.normal
  {
  }

  lemma StepSeen(c: Config, h: seq<Input>, s: State)
    requires h != [] && Heard(h[..|h| - 1], s)
    ensures Heard(h, Step(c, s, h[|h| - 1]).state)
  {
  }

  /** Two-table refinement: every reachable state is the one the history determines. */
  lemma {:induction false} TwoTableRefinement(c: Config, init: set<PolicyKey>, t0: int, h: seq<Input>)
    ensures Represents(c, init, h, After(c, Initial(init, t0), h))
    decreases |h|
  {
    if h != [] {
      TwoTableRefinement(c, init, t0, h[..|h| - 1]);
      var s := After(c, Initial(init, t0), h[..|h| - 1]);
      StepMode(c, h, s);
      StepTables(c, s, h[|h| - 1]);
      StepSeen(c, h, s);
    }
  }

  // ---- isolation leaves no mark on the policies ---------------------------

  predicate TouchesMode(i: Input) {
    i.Watchdog? || i.req.IsolationStart? || i.req.IsolationEnd?
  }

  /** The same history had isolation never been possible. */
  function WithoutIsolation(h: seq<Input>): seq<Input>
    decreases |h|
  {
    if h == [] then []
    else if TouchesMode(h[|h| - 1]) then WithoutIsolation(h[..|h| - 1])
    else WithoutIsolation(h[..|h| - 1]) + [h[|h| - 1]]
  }

  lemma {:induction false} WithoutIsolationKeepsEdits(c: Config, init: set<PolicyKey>, h: seq<Input>)
    ensures EditedTable(c, init, WithoutIsolation(h)) == EditedTable(c, init, h)
    ensures ModeAfter(c, WithoutIsolation(h)) == Normal
    decreases |h|
  {
    if h != [] {
      WithoutIsolationKeepsEdits(c, init, h[..|h| - 1]);
      var w := WithoutIsolation(h[..|h| - 1]);
      if !TouchesMode(h[|h| - 1]) {
        assert (w + [h[|h| - 1]])[..|w|] == w;
      }
    }
  }

  /** Whenever the monitor is back in NORMAL, the active table is the one that
      would exist had isolation never happened. */
  lemma IsolationTransparent(c: Config, init: set<PolicyKey>, t0: int, h: seq<Input>)
    ensures var s, plain := After(c, Initial(init, t0), h), After(c, Initial(init, t0), WithoutIsolation(h));
      && s.normal == plain.normal == plain.active
      && (s.safety.mode.Normal? ==> s.active == plain.active)
      && (s.safety.mode.Isolated? ==> s.active == EmergencyPolicies(c))
  {
    TwoTableRefinement(c, init, t0, h);
    TwoTableRefinement(c, init, t0, WithoutIsolation(h));
    WithoutIsolationKeepsEdits(c, init, h);
  }

  // ---- forwarding ------------------------------------------------------------

  /** The triple a proxy message asks for, when it is well formed. */
  function Asked(r: Request): Option<PolicyKey>
    requires r.Proxy?
  {
    if r.target.To? then Some(PolicyKey(r.sender, r.target.topic, r.target.action)) else None
  }

  /** A proxy message is forwarded exactly when the governing table holds its
      triple; it then reaches the named topic once, under the monitor's name, with
      its data untouched. Nothing else makes the monitor publish to a component. */
  lemma ForwardsExactlyTheGoverned(c: Config, init: set<PolicyKey>, t0: int, h: seq<Input>, i: Input)
    ensures var o := Step(c, After(c, Initial(init, t0), h), i);
      if IsProxy(i) && Asked(i.req).Some? && Asked(i.req).value in Governing(c, init, h)
      then o.sent == [Forward(i.req.target.topic,
                              Msg(i.req.target.action, SECURITY_MONITOR, Some(i.req.target.data)))]
      else forall x :: x in o.sent ==> x.ModeLog?
  {
    TwoTableRefinement(c, init, t0, h);
  }

  // ---- version discipline -----------------------------------------------------

  /** The journal entries about mode transitions published over a history. */
  function ModeLogs(c: Config, s: State, h: seq<Input>): seq<Output>
    decreases |h|
  {
    if h == [] then []
    else
      var before := ModeLogs(c, s, h[..|h| - 1]);
      var sent := Step(c, After(c, s, h[..|h| - 1]), h[|h| - 1]).sent;
      if sent != [] && sent[0].ModeLog? then before + sent else before
  }

  predicate Parity(f: Safety) {
    f.mode.Normal? <==> f.version % 2 == 1
  }

  /** One step either logs the transition it made or leaves the safety state alone. */
  predicate LogsStep(f: Safety, sent: seq<Output>, f': Safety) {
    || (sent == [ModeLog(f')] && f'.version == f.version + 1 && f'.mode != f.mode)
    || (f' == f && (sent == [] || sent[0].Forward?))
  }

  lemma StepLogs(c: Config, s: State, i: Input)
    ensures LogsStep(s.safety, Step(c, s, i).sent, Step(c, s, i).state.safety)
  {
  }

  /** The entries carry the versions 2, 3, 4, ... in order, ISOLATED first and then
      alternating, and the safety state carries the next number. */
  ghost predicate Disciplined(f: Safety, logs: seq<Output>) {
    && Parity(f) && f.version == 1 + |logs|
    && forall k :: 0 <= k < |logs| ==>
         logs[k].ModeLog? && logs[k].safety.version == k + 2 && Parity(logs[k].safety)
  }

  lemma DisciplineGrows(f: Safety, logs: seq<Output>, sent: seq<Output>, f': Safety)
    requires Disciplined(f, logs) && LogsStep(f, sent, f')
    ensures Disciplined(f', if sent != [] && sent[0].ModeLog? then logs + sent else logs)
  {
  }

  /** Version discipline over every run. */
  lemma {:induction false} VersionDiscipline(c: Config, init: set<PolicyKey>, t0: int, h: seq<Input>)
    ensures Disciplined(After(c, Initial(init, t0), h).safety, ModeLogs(c, Initial(init, t0), h))
    decreases |h|
  {
    if h != [] {
      var s0 := Initial(init, t0);
      VersionDiscipline(c, init, t0, h[..|h| - 1]);
      var s := After(c, s0, h[..|h| - 1]);
      StepLogs(c, s, h[|h| - 1]);
      var o := Step(c, s, h[|h| - 1]);
      DisciplineGrows(s.safety, ModeLogs(c, s0, h[..|h| - 1]), o.sent, o.state.safety);
    }
  }

  /** Both inputs ask for the same mode. */
  predicate SameModeRequest(c: Config, i: Input, j: Input) {
    match (i, j)
    case (Watchdog(_), Watchdog(_)) => true
    case (Deliver(IsolationStart(a, _), _), Deliver(IsolationStart(_, _), _)) => MaySwitchMode(c, a)
    case (Deliver(IsolationEnd(a, _), _), Deliver(IsolationEnd(_, _), _)) => MaySwitchMode(c, a)
    case _ => false
  }

  /** Repeating a mode request changes nothing more and logs nothing more: a
      second ISOLATION_START or END at any later time, and a watchdog check after
      one that isolated. */
  lemma RepeatedRequestsAreIdle(c: Config, s: State, i: Input, j: Input)
    requires SameModeRequest(c, i, j)
    requires i.Watchdog? ==> Step(c, s, i).state.safety.mode.Isolated?
    ensures var s1 := Step(c, s, i).state; Step(c, s1, j).state == s1 && Step(c, s1, j).sent == []
  {
  }

  // ---- watchdog ---------------------------------------------------------------

  ghost predicate ClockNeverBack(h: seq<Input>) {
    forall j, k :: 0 <= j < k < |h| ==> h[j].now <= h[k].now
  }

  lemma {:induction false} LastHeardIsHeard(h: seq<Input>, name: string)
    ensures LastHeard(h, name).None? <==> forall k :: 0 <= k < |h| ==> !Hears(h[k], name)
    ensures LastHeard(h, name).Some? ==>
      exists k :: 0 <= k < |h| && Hears(h[k], name) && h[k].now == LastHeard(h, name).value
    ensures LastHeard(h, name).Some? && ClockNeverBack(h) ==>
      forall k :: 0 <= k < |h| && Hears(h[k], name) ==> h[k].now <= LastHeard(h, name).value
    decreases |h|
  {
    if h != [] {
      var before := h[..|h| - 1];
      LastHeardIsHeard(before, name);
      assert forall k :: 0 <= k < |before| ==> before[k] == h[k];
    }
  }

  /** `name` sent a proxy or heartbeat message no longer than the timeout ago. */
  ghost predicate HeardWithin(h: seq<Input>, name: string, now: int, timeout: int) {
    exists k :: 0 <= k < |h| && Hears(h[k], name) && now - h[k].now <= timeout
  }

  lemma SilenceMeansUnheard(h: seq<Input>, name: string, now: int, timeout: int)
    ensures !Silence(h, name, now, timeout) ==> HeardWithin(h, name, now, timeout)
    ensures ClockNeverBack(h) && Silence(h, name, now, timeout) ==> !HeardWithin(h, name, now, timeout)
  {
    LastHeardIsHeard(h, name);
  }

  /** After a watchdog check the monitor is in NORMAL only if both watched
      components were heard in time; on a clock that never runs back, the check
      isolates a NORMAL monitor exactly when one of them was not. */
  lemma WatchdogSound(c: Config, init: set<PolicyKey>, t0: int, h: seq<Input>, now: int)
    requires WatchdogArmed(c)
    ensures var s := After(c, Initial(init, t0), h);
      var s1 := Step(c, s, Watchdog(now)).state;
      var alive := HeardWithin(h, "limiter", now, c.heartbeatTimeout)
                && HeardWithin(h, "emergency", now, c.heartbeatTimeout);
      && (s1.safety.mode.Normal? ==> alive)
      && (ClockNeverBack(h) && s.safety.mode.Normal? ==> (s1.safety.mode.Isolated? <==> !alive))
  {
    TwoTableRefinement(c, init, t0, h);
    SilenceMeansUnheard(h, "limiter", now, c.heartbeatTimeout);
    SilenceMeansUnheard(h, "emergency", now, c.heartbeatTimeout);
  }
}
