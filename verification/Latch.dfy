/** The composed emergency path: the monitor, the motors and the cargo bay joined
    by first-in first-out topics. Anyone may put any message on the monitor's
    topic at any time; only the monitor publishes to the two actuators. */
module EmergencyLatch {
  import opened Common
  import opened Text
  import M = MonitorSpec
  import opened ActuatorSpec

  datatype Setup = Setup(monitor: M.Config, motors: MotorConfig)

  /** The queues hold messages as their receiver reads them. */
  datatype System = System(
    monitor: M.State, inbox: seq<M.Request>,
    motors: MotorState, motorQueue: seq<MotorCmd>,
    cargo: CargoState, cargoQueue: seq<CargoCmd>)

  /** One atomic step: a message arrives at the monitor, or one component takes
      the head of its queue, or the watchdog fires. */
  datatype Event =
    | Send(msg: Msg)
    | MonitorReads(now: int)
    | WatchdogFires(now: int)
    | MotorsRead(at: real)
    | CargoReads(at: real)

  function MotorsTopic(k: Setup): string { BrokerTopic(k.monitor.prefix, "motors") }
  function CargoTopic(k: Setup): string { BrokerTopic(k.monitor.prefix, "cargo") }
  function MonitorTopic(k: Setup): string { BrokerTopic(k.monitor.prefix, "security_monitor") }

  /** Put one publish call of the monitor on the queue of its topic. */
  function Route(k: Setup, s: System, o: M.Output): System {
    var x := M.OnBus(k.monitor, o);
    if x.topic == MotorsTopic(k) then s.(motorQueue := s.motorQueue + [ReadMotor(x.msg)])
    else if x.topic == CargoTopic(k) then s.(cargoQueue := s.cargoQueue + [ReadCargo(x.msg)])
    else if x.topic == MonitorTopic(k) then s.(inbox := s.inbox + [M.Read(x.msg)])
    else s
  }

  function RouteAll(k: Setup, s: System, sent: seq<M.Output>): System
    decreases |sent|
  {
    if sent == [] then s else RouteAll(k, Route(k, s, sent[0]), sent[1..])
  }

  function MonitorTakes(k: Setup, s: System, i: M.Input): System {
    var o := M.Step(k.monitor, s.monitor, i);
    RouteAll(k, s.(monitor := o.state), o.sent)
  }

  function Next(k: Setup, s: System, e: Event): System {
    match e
    case Send(m) => s.(inbox := s.inbox + [M.Read(m)])
    case MonitorReads(now) =>
      if s.inbox == [] then s
      else MonitorTakes(k, s.(inbox := s.inbox[1..]), M.Deliver(s.inbox[0], now))
    case WatchdogFires(now) => MonitorTakes(k, s, M.Watchdog(now))
    case MotorsRead(at) =>
      if s.motorQueue == [] then s
      else s.(motors := StepMotors(k.motors, s.motors, s.motorQueue[0], at),
              motorQueue := s.motorQueue[1..])
    case CargoReads(at) =>
      if s.cargoQueue == [] then s
      else s.(cargo := StepCargo(s.cargo, s.cargoQueue[0], at),
              cargoQueue := s.cargoQueue[1..])
  }

  function After(k: Setup, s: System, es: seq<Event>): System
    decreases |es|
  {
    if es == [] then s else After(k, Next(k, s, es[0]), es[1..])
  }

  // ---- the emergency cascade -----------------------------------------------------

  function ProxyPublish(sender: string, topic: string, action: string, data: Body): Msg {
    Msg("proxy_publish", sender,
        Some(map["target" := Obj(map["topic" := Str(topic), "action" := Str(action)]), "data" := Obj(data)]))
  }

  function IsolationMsg(missionId: string): Msg {
    Msg("ISOLATION_START", "emergency",
        Some(map["reason" := Str("LIMITER_EMERGENCY"), "mission_id" := Str(missionId)]))
  }

  function CloseMsg(k: Setup): Msg {
    ProxyPublish("emergency", CargoTopic(k), "CLOSE", map["reason" := Str("emergency")])
  }

  function LandMsg(k: Setup): Msg {
    ProxyPublish("emergency", MotorsTopic(k), "LAND",
                 map["mode" := Str("AUTO_LAND"), "reason" := Str("emergency")])
  }

  function JournalMsg(k: Setup, missionId: string, details: Body): Msg {
    ProxyPublish("emergency", BrokerTopic(k.monitor.prefix, "journal"), "LOG_EVENT",
                 map["event" := Str("EMERGENCY_PROTOCOL_STARTED"), "source" := Str("emergency"),
                     "details" := Obj(map["mission_id" := Str(missionId), "details" := Obj(details)])])
  }

  /** What the emergency component publishes on a limiter event, in order. */
  function Cascade(k: Setup, missionId: string, details: Body): seq<Msg> {
    [IsolationMsg(missionId), CloseMsg(k), LandMsg(k), JournalMsg(k, missionId, details)]
  }

  /** Topic prefixes are configured without surrounding blanks. */
  ghost predicate Configured(k: Setup) {
    TrimSpace(k.monitor.prefix) == k.monitor.prefix
  }

  lemma {:induction false} TrimShrinks(s: string)
    ensures |TrimSpace(s)| <= |s|
    ensures TrimSpace(s) == s ==> s == "" || !IsSpace(s[0])
    decreases |s|
  {
    if s != "" && IsSpace(s[0]) {
      TrimShrinks(s[1..]);
    } else if s != "" && IsSpace(s[|s| - 1]) {
      TrimShrinks(s[..|s| - 1]);
    }
  }

  lemma TopicIsTrimmed(k: Setup, name: string)
    requires Configured(k) && name != "" && !IsSpace(name[|name| - 1])
    ensures TrimSpace(BrokerTopic(k.monitor.prefix, name)) == BrokerTopic(k.monitor.prefix, name)
  {
    TrimShrinks(k.monitor.prefix);
    var t := BrokerTopic(k.monitor.prefix, name);
    assert t[|t| - 1] == name[|name| - 1];
    assert t[0] == if k.monitor.prefix == "" then '.' else k.monitor.prefix[0];
  }

  lemma ReadsProxyPublish(sender: string, topic: string, action: string, data: Body)
    requires sender != "" && topic != "" && action != ""
    requires TrimSpace(topic) == topic && TrimSpace(action) == action
    ensures M.Read(ProxyPublish(sender, topic, action, data))
         == M.Proxy(sender, TrimSpace(sender), M.To(topic, action, data))
  {
    var m := ProxyPublish(sender, topic, action, data);
    var b := m.payload.value;
    assert ObjField(b, "target") == Some(map["topic" := Str(topic), "action" := Str(action)]);
    assert ObjField(b, "data") == Some(data);
    assert M.ExtractTarget(m.payload) == M.To(topic, action, data);
  }

  /** The proxy request that the emergency component's forwards amount to. */
  predicate AsksFor(r: M.Request, topic: string, action: string) {
    && r.Proxy? && r.sender == "emergency"
    && r.target.To? && r.target.topic == topic && r.target.action == action
  }

  lemma CloseMeaning(k: Setup)
    requires Configured(k)
    ensures AsksFor(M.Read(CloseMsg(k)), CargoTopic(k), "CLOSE")
  {
    TopicIsTrimmed(k, "cargo");
    ReadsProxyPublish("emergency", CargoTopic(k), "CLOSE", map["reason" := Str("emergency")]);
  }

  lemma LandMeaning(k: Setup)
    requires Configured(k)
    ensures AsksFor(M.Read(LandMsg(k)), MotorsTopic(k), "LAND")
  {
    TopicIsTrimmed(k, "motors");
    ReadsProxyPublish("emergency", MotorsTopic(k), "LAND",
                      map["mode" := Str("AUTO_LAND"), "reason" := Str("emergency")]);
  }

  /** The last message of the cascade asks for a journal entry. */
  lemma JournalMeaning(k: Setup, missionId: string, details: Body)
    requires Configured(k)
    ensures AsksFor(M.Read(JournalMsg(k, missionId, details)), k.monitor.prefix + ".journal", "LOG_EVENT")
  {
    TopicIsTrimmed(k, "journal");
    assert BrokerTopic(k.monitor.prefix, "journal") == k.monitor.prefix + ".journal";
    ReadsProxyPublish("emergency", BrokerTopic(k.monitor.prefix, "journal"), "LOG_EVENT",
                      map["event" := Str("EMERGENCY_PROTOCOL_STARTED"), "source" := Str("emergency"),
                          "details" := Obj(map["mission_id" := Str(missionId), "details" := Obj(details)])]);
  }

  // ---- isolation restricts what reaches the actuators ------------------------------

  ghost predicate IsIsolated(k: Setup, s: System) {
    s.monitor.safety.mode.Isolated? && s.monitor.active == M.EmergencyPolicies(k.monitor)
  }

  /** The table invariant that holds in every reachable monitor state. */
  ghost predicate Coherent(k: Setup, s: System) {
    s.monitor.safety.mode.Isolated? ==> s.monitor.active == M.EmergencyPolicies(k.monitor)
  }

  predicate EndsIsolation(k: Setup, s: System, e: Event) {
    && e.MonitorReads? && s.inbox != []
    && s.inbox[0].IsolationEnd?
    && M.MaySwitchMode(k.monitor, s.inbox[0].sender)
  }

  /** No accepted ISOLATION_END in the whole run. */
  predicate NeverReleased(k: Setup, s: System, es: seq<Event>)
    decreases |es|
  {
    es == [] || (!EndsIsolation(k, s, es[0]) && NeverReleased(k, Next(k, s, es[0]), es[1..]))
  }

  lemma TopicsDiffer(k: Setup)
    ensures MotorsTopic(k) != CargoTopic(k) && MotorsTopic(k) != MonitorTopic(k) && CargoTopic(k) != MonitorTopic(k)
    ensures forall n :: n in {"navigation", "journal", "security_monitor"} ==>
      BrokerTopic(k.monitor.prefix, n) != MotorsTopic(k) && BrokerTopic(k.monitor.prefix, n) != CargoTopic(k)
  {
    var p := k.monitor.prefix;
    BrokerTopicInjective(p, "motors", "cargo");
    BrokerTopicInjective(p, "motors", "security_monitor");
    BrokerTopicInjective(p, "cargo", "security_monitor");
    BrokerTopicInjective(p, "motors", "navigation");
    BrokerTopicInjective(p, "cargo", "navigation");
    BrokerTopicInjective(p, "motors", "journal");
    BrokerTopicInjective(p, "cargo", "journal");
  }

  /** While isolated, the only message that can reach the motors is LAND and the
      only one that can reach the cargo bay is CLOSE. */
  lemma IsolatedOutput(k: Setup, st: M.State, i: M.Input)
    requires st.safety.mode.Isolated? && st.active == M.EmergencyPolicies(k.monitor)
    ensures var o := M.Step(k.monitor, st, i);
      && |o.sent| <= 1
      && (o.sent != [] ==>
            var x := M.OnBus(k.monitor, o.sent[0]);
            && x.msg.sender == SECURITY_MONITOR
            && (x.topic == MotorsTopic(k) ==> x.msg.action == "LAND")
            && (x.topic == CargoTopic(k) ==> x.msg.action == "CLOSE"))
  {
    TopicsDiffer(k);
    var o := M.Step(k.monitor, st, i);
    if o.sent != [] && o.sent[0].Forward? {
      assert M.PolicyKey(i.req.sender, o.sent[0].topic, o.sent[0].msg.action) in M.EmergencyPolicies(k.monitor);
    }
  }

  // ---- the latch ---------------------------------------------------------------------

  /** The first `n` queued messages end in LAND, and only LAND follows them. */
  predicate MotorsBound(k: Setup, s: System, n: nat) {
    && n <= |s.motorQueue|
    && (if n == 0 then Landed(k.motors, s.motors) else s.motorQueue[n - 1].Land?)
    && forall j :: n <= j < |s.motorQueue| ==> s.motorQueue[j].Land?
  }

  predicate CargoBound(s: System, n: nat) {
    && n <= |s.cargoQueue|
    && (if n == 0 then s.cargo.door.Closed? else s.cargoQueue[n - 1].CloseDoor?)
    && forall j :: n <= j < |s.cargoQueue| ==> s.cargoQueue[j].CloseDoor?
  }

  function Less(n: nat, used: bool): nat {
    if used && n > 0 then n - 1 else n
  }

  /** A queue grew by nothing or by one message. */
  predicate Grew<T(==)>(before: seq<T>, after: seq<T>) {
    after == before || (|after| == |before| + 1 && after[..|before|] == before)
  }

  lemma TakesWhileIsolated(k: Setup, s: System, i: M.Input)
    requires IsIsolated(k, s)
    ensures var t := MonitorTakes(k, s, i);
      && t.motors == s.motors && t.cargo == s.cargo
      && Grew(s.motorQueue, t.motorQueue) && Grew(s.cargoQueue, t.cargoQueue)
      && (t.motorQueue != s.motorQueue ==> t.motorQueue[|s.motorQueue|].Land?)
      && (t.cargoQueue != s.cargoQueue ==> t.cargoQueue[|s.cargoQueue|].CloseDoor?)
  {
    IsolatedOutput(k, s.monitor, i);
    var o := M.Step(k.monitor, s.monitor, i);
    var u := s.(monitor := o.state);
    if o.sent != [] {
      assert RouteAll(k, u, o.sent) == RouteAll(k, Route(k, u, o.sent[0]), []);
    }
  }

  lemma BoundsSurviveGrowth(k: Setup, s: System, t: System, n: nat)
    requires t.motors == s.motors && t.cargo == s.cargo
    requires Grew(s.motorQueue, t.motorQueue) && Grew(s.cargoQueue, t.cargoQueue)
    requires t.motorQueue != s.motorQueue ==> t.motorQueue[|s.motorQueue|].Land?
    requires t.cargoQueue != s.cargoQueue ==> t.cargoQueue[|s.cargoQueue|].CloseDoor?
    ensures MotorsBound(k, s, n) ==> MotorsBound(k, t, n)
    ensures CargoBound(s, n) ==> CargoBound(t, n)
  {
  }

  lemma TakingKeepsBounds(k: Setup, s: System, i: M.Input, n: nat)
    requires IsIsolated(k, s)
    ensures MotorsBound(k, s, n) ==> MotorsBound(k, MonitorTakes(k, s, i), n)
    ensures CargoBound(s, n) ==> CargoBound(MonitorTakes(k, s, i), n)
  {
    TakesWhileIsolated(k, s, i);
    BoundsSurviveGrowth(k, s, MonitorTakes(k, s, i), n);
  }

  lemma MotorsBoundKept(k: Setup, s: System, e: Event, n: nat)
    requires IsIsolated(k, s) && MotorsBound(k, s, n)
    ensures MotorsBound(k, Next(k, s, e), Less(n, e.MotorsRead?))
  {
    if e.MonitorReads? && s.inbox != [] {
      TakingKeepsBounds(k, s.(inbox := s.inbox[1..]), M.Deliver(s.inbox[0], e.now), n);
    } else if e.WatchdogFires? {
      TakingKeepsBounds(k, s, M.Watchdog(e.now), n);
    }
  }

  lemma CargoBoundKept(k: Setup, s: System, e: Event, n: nat)
    requires IsIsolated(k, s) && CargoBound(s, n)
    ensures CargoBound(Next(k, s, e), Less(n, e.CargoReads?))
  {
    if e.MonitorReads? && s.inbox != [] {
      TakingKeepsBounds(k, s.(inbox := s.inbox[1..]), M.Deliver(s.inbox[0], e.now), n);
    } else if e.WatchdogFires? {
      TakingKeepsBounds(k, s, M.Watchdog(e.now), n);
    }
  }

  lemma {:induction false} RouteAllKeepsMonitor(k: Setup, s: System, sent: seq<M.Output>)
    ensures RouteAll(k, s, sent).monitor == s.monitor
    decreases |sent|
  {
    if sent != [] {
      RouteAllKeepsMonitor(k, Route(k, s, sent[0]), sent[1..]);
    }
  }

  predicate Releases(c: M.Config, i: M.Input) {
    i.Deliver? && i.req.IsolationEnd? && M.MaySwitchMode(c, i.req.sender)
  }

  lemma MonitorKeepsIsolation(c: M.Config, st: M.State, i: M.Input)
    requires st.safety.mode.Isolated? ==> st.active == M.EmergencyPolicies(c)
    ensures var st' := M.Step(c, st, i).state;
      && (st'.safety.mode.Isolated? ==> st'.active == M.EmergencyPolicies(c))
      && (st.safety.mode.Isolated? && !Releases(c, i) ==> st'.safety.mode.Isolated?)
  {
  }

  lemma TakingKeepsIsolation(k: Setup, s: System, i: M.Input)
    requires Coherent(k, s)
    ensures Coherent(k, MonitorTakes(k, s, i))
    ensures IsIsolated(k, s) && !Releases(k.monitor, i) ==> IsIsolated(k, MonitorTakes(k, s, i))
  {
    MonitorKeepsIsolation(k.monitor, s.monitor, i);
    var o := M.Step(k.monitor, s.monitor, i);
    RouteAllKeepsMonitor(k, s.(monitor := o.state), o.sent);
  }

  lemma IsolationKept(k: Setup, s: System, e: Event)
    requires Coherent(k, s)
    ensures Coherent(k, Next(k, s, e))
    ensures IsIsolated(k, s) && !EndsIsolation(k, s, e) ==> IsIsolated(k, Next(k, s, e))
  {
    if e.MonitorReads? && s.inbox != [] {
      TakingKeepsIsolation(k, s.(inbox := s.inbox[1..]), M.Deliver(s.inbox[0], e.now));
    } else if e.WatchdogFires? {
      TakingKeepsIsolation(k, s, M.Watchdog(e.now));
    }
  }

  // ---- the monitor has processed the cascade ------------------------------------------

  /** The j-th message of the cascade, as the monitor reads it. */
  predicate Triggers(k: Setup, r: M.Request, j: nat) {
    match j
    case 0 => r.IsolationStart? && r.sender == "emergency"
    case 1 => AsksFor(r, CargoTopic(k), "CLOSE")
    case 2 => AsksFor(r, MotorsTopic(k), "LAND")
    case _ => false
  }

  /** The log holds the cascade from its j-th message on, in order. */
  predicate Cascaded(k: Setup, log: seq<M.Request>, j: nat)
    decreases |log|
  {
    j >= 3 || (log != [] && Cascaded(k, log[1..], if Triggers(k, log[0], j) then j + 1 else j))
  }

  /** The messages the monitor takes from its topic during a run. */
  function ReadLog(k: Setup, s: System, es: seq<Event>): seq<M.Request>
    decreases |es|
  {
    if es == [] then []
    else (if es[0].MonitorReads? && s.inbox != [] then [s.inbox[0]] else []) + ReadLog(k, Next(k, s, es[0]), es[1..])
  }

  /** What has been achieved once the first j messages were processed. */
  ghost predicate Staged(k: Setup, s: System, j: nat) {
    && Coherent(k, s)
    && (j >= 1 ==> IsIsolated(k, s))
    && (j >= 2 ==> exists n :: CargoBound(s, n))
    && (j >= 3 ==> exists n :: MotorsBound(k, s, n))
  }

  lemma StagedKept(k: Setup, s: System, e: Event, j: nat)
    requires Staged(k, s, j) && !EndsIsolation(k, s, e)
    ensures Staged(k, Next(k, s, e), j)
  {
    IsolationKept(k, s, e);
    if j >= 2 {
      var n :| CargoBound(s, n);
      CargoBoundKept(k, s, e, n);
    }
    if j >= 3 {
      var n :| MotorsBound(k, s, n);
      MotorsBoundKept(k, s, e, n);
    }
  }

  /** An isolated monitor forwards the emergency component's CLOSE and LAND. */
  lemma ForwardedWhileIsolated(k: Setup, s: System, r: M.Request, now: int)
    requires IsIsolated(k, s)
    ensures var t := MonitorTakes(k, s, M.Deliver(r, now));
      && (Triggers(k, r, 1) ==> t.cargoQueue == s.cargoQueue + [CloseDoor])
      && (Triggers(k, r, 2) ==> t.motorQueue == s.motorQueue + [Land])
  {
    TopicsDiffer(k);
    if Triggers(k, r, 1) || Triggers(k, r, 2) {
      var o := M.Step(k.monitor, s.monitor, M.Deliver(r, now));
      var x := M.Forward(r.target.topic, Msg(r.target.action, SECURITY_MONITOR, Some(r.target.data)));
      assert o.sent == [x];
      assert RouteAll(k, s.(monitor := o.state), [x]) == RouteAll(k, Route(k, s.(monitor := o.state), x), []);
    }
  }

  lemma StagedAdvances(k: Setup, s: System, e: Event, j: nat)
    requires Staged(k, s, j) && j < 3 && e.MonitorReads? && s.inbox != [] && Triggers(k, s.inbox[0], j)
    ensures Staged(k, Next(k, s, e), j + 1)
  {
    StagedKept(k, s, e, j);
    var t := Next(k, s, e);
    if j == 0 {
      var o := M.Step(k.monitor, s.monitor, M.Deliver(s.inbox[0], e.now));
      RouteAllKeepsMonitor(k, s.(inbox := s.inbox[1..], monitor := o.state), o.sent);
    } else {
      ForwardedWhileIsolated(k, s.(inbox := s.inbox[1..]), s.inbox[0], e.now);
      if j == 1 {
        assert CargoBound(t, |t.cargoQueue|);
      } else {
        assert MotorsBound(k, t, |t.motorQueue|);
      }
    }
  }

  lemma {:induction false} CascadeTakesHold(k: Setup, s: System, es: seq<Event>, j: nat)
    requires Staged(k, s, j) && j <= 3 && NeverReleased(k, s, es) && Cascaded(k, ReadLog(k, s, es), j)
    ensures Staged(k, After(k, s, es), 3)
    decreases |es|
  {
    if es != [] {
      var e, t := es[0], Next(k, s, es[0]);
      StagedKept(k, s, e, j);
      if e.MonitorReads? && s.inbox != [] {
        var rest := ReadLog(k, t, es[1..]);
        assert ReadLog(k, s, es) == [s.inbox[0]] + rest;
        assert ([s.inbox[0]] + rest)[1..] == rest;
        if j < 3 && Triggers(k, s.inbox[0], j) {
          StagedAdvances(k, s, e, j);
          CascadeTakesHold(k, t, es[1..], j + 1);
        } else {
          CascadeTakesHold(k, t, es[1..], j);
        }
      } else {
        assert ReadLog(k, s, es) == ReadLog(k, t, es[1..]);
        CascadeTakesHold(k, t, es[1..], j);
      }
    }
  }

  // ---- the forwarded messages are delivered ---------------------------------------------

  function MotorReads(es: seq<Event>): nat {
    if es == [] then 0 else (if es[0].MotorsRead? then 1 else 0) + MotorReads(es[1..])
  }

  function DoorReads(es: seq<Event>): nat {
    if es == [] then 0 else (if es[0].CargoReads? then 1 else 0) + DoorReads(es[1..])
  }

  function Left(n: nat, used: nat): nat {
    if used >= n then 0 else n - used
  }

  lemma {:induction false} BoundsRunDown(k: Setup, s: System, es: seq<Event>, motors: nat, cargo: nat)
    requires IsIsolated(k, s) && MotorsBound(k, s, motors) && CargoBound(s, cargo) && NeverReleased(k, s, es)
    ensures var t := After(k, s, es);
      IsIsolated(k, t) && MotorsBound(k, t, Left(motors, MotorReads(es))) && CargoBound(t, Left(cargo, DoorReads(es)))
    decreases |es|
  {
    if es != [] {
      IsolationKept(k, s, es[0]);
      MotorsBoundKept(k, s, es[0], motors);
      CargoBoundKept(k, s, es[0], cargo);
      BoundsRunDown(k, Next(k, s, es[0]), es[1..], Less(motors, es[0].MotorsRead?), Less(cargo, es[0].CargoReads?));
    }
  }

  lemma {:induction false} RunsCompose(k: Setup, s: System, a: seq<Event>, b: seq<Event>)
    ensures After(k, s, a + b) == After(k, After(k, s, a), b)
    ensures NeverReleased(k, s, a + b) <==> NeverReleased(k, s, a) && NeverReleased(k, After(k, s, a), b)
    decreases |a|
  {
    if a == [] {
      assert a + b == b;
    } else {
      assert (a + b)[1..] == a[1..] + b;
      RunsCompose(k, Next(k, s, a[0]), a[1..], b);
    }
  }

  lemma {:induction false} ReadsAdd(a: seq<Event>, b: seq<Event>)
    ensures MotorReads(a + b) == MotorReads(a) + MotorReads(b)
    ensures DoorReads(a + b) == DoorReads(a) + DoorReads(b)
  {
    if a == [] {
      assert a + b == b;
    } else {
      assert (a + b)[1..] == a[1..] + b;
      ReadsAdd(a[1..], b);
    }
  }

  /** The emergency latch. Start anywhere, with any policy table. Once the monitor
      has processed the cascade (during `a`) and the actuators have taken what was
      queued for them by then (during `b`), then in every continuation `c` without
      an accepted ISOLATION_END the motors are landing, their last command is the
      land command, and the cargo bay is closed. */
  lemma LatchHolds(k: Setup, s: System, a: seq<Event>, b: seq<Event>, c: seq<Event>)
    requires Coherent(k, s) && NeverReleased(k, s, a + (b + c))
    requires Cascaded(k, ReadLog(k, s, a), 0)
    requires MotorReads(b) >= |After(k, s, a).motorQueue|
    requires DoorReads(b) >= |After(k, s, a).cargoQueue|
    ensures var t := After(k, s, a + (b + c));
      Landed(k.motors, t.motors) && t.cargo.door.Closed? && IsIsolated(k, t)
  {
    RunsCompose(k, s, a, b + c);
    CascadeTakesHold(k, s, a, 0);
    var t := After(k, s, a);
    var motors :| MotorsBound(k, t, motors);
    var cargo :| CargoBound(t, cargo);
    BoundsRunDown(k, t, b + c, motors, cargo);
    ReadsAdd(b, c);
  }

  // ---- a cascade that was sent is a cascade that is read ----------------------------------

  /** Everything that reaches the monitor's topic during a run, in order. */
  function Arrivals(k: Setup, s: System, es: seq<Event>): seq<M.Request>
    decreases |es|
  {
    if es == [] then []
    else
      var t := Next(k, s, es[0]);
      var kept := if es[0].MonitorReads? && s.inbox != [] then |s.inbox| - 1 else |s.inbox|;
      (if kept <= |t.inbox| then t.inbox[kept..] else []) + Arrivals(k, t, es[1..])
  }

  /** The messages that components put on the monitor's topic during a run. */
  function SentDuring(es: seq<Event>): seq<Msg> {
    if es == [] then []
    else (if es[0].Send? then [es[0].msg] else []) + SentDuring(es[1..])
  }

  predicate Subsequence(xs: seq<Msg>, ys: seq<Msg>)
    decreases |ys|
  {
    xs == [] || (ys != [] && Subsequence(if xs[0] == ys[0] then xs[1..] else xs, ys[1..]))
  }

  lemma {:induction false} RouteAllAppends(k: Setup, s: System, sent: seq<M.Output>)
    ensures |s.inbox| <= |RouteAll(k, s, sent).inbox|
    ensures RouteAll(k, s, sent).inbox[..|s.inbox|] == s.inbox
    decreases |sent|
  {
    if sent != [] {
      RouteAllAppends(k, Route(k, s, sent[0]), sent[1..]);
    }
  }

  lemma InboxStep(k: Setup, s: System, e: Event)
    ensures var rest := if e.MonitorReads? && s.inbox != [] then s.inbox[1..] else s.inbox;
      |rest| <= |Next(k, s, e).inbox| && Next(k, s, e).inbox[..|rest|] == rest
  {
    if e.MonitorReads? && s.inbox != [] {
      var u := s.(inbox := s.inbox[1..]);
      var o := M.Step(k.monitor, u.monitor, M.Deliver(s.inbox[0], e.now));
      RouteAllAppends(k, u.(monitor := o.state), o.sent);
    } else if e.WatchdogFires? {
      var o := M.Step(k.monitor, s.monitor, M.Watchdog(e.now));
      RouteAllAppends(k, s.(monitor := o.state), o.sent);
    }
  }

  /** The bookkeeping of one step: `took` says whether the head was read. */
  lemma FifoAlgebra(inbox: seq<M.Request>, took: bool, inbox1: seq<M.Request>,
                    later: seq<M.Request>, logged: seq<M.Request>, left: seq<M.Request>)
    requires took ==> inbox != []
    requires var rest := if took then inbox[1..] else inbox; |rest| <= |inbox1| && inbox1[..|rest|] == rest
    requires inbox1 + later == logged + left
    ensures var kept := if took then |inbox| - 1 else |inbox|;
      inbox + (inbox1[kept..] + later) == (if took then [inbox[0]] else []) + logged + left
  {
    var head := if took then [inbox[0]] else [];
    var rest := if took then inbox[1..] else inbox;
    assert inbox == head + rest && inbox1 == rest + inbox1[|rest|..];
    assert inbox + (inbox1[|rest|..] + later) == head + (inbox1 + later);
    assert head + (logged + left) == head + logged + left;
  }

  /** First in, first out: what was queued and what arrived is what was read and
      what is still queued. */
  lemma {:induction false} FifoConservation(k: Setup, s: System, es: seq<Event>)
    ensures s.inbox + Arrivals(k, s, es) == ReadLog(k, s, es) + After(k, s, es).inbox
    decreases |es|
  {
    if es != [] {
      var t := Next(k, s, es[0]);
      InboxStep(k, s, es[0]);
      FifoConservation(k, t, es[1..]);
      FifoAlgebra(s.inbox, es[0].MonitorReads? && s.inbox != [], t.inbox,
                  Arrivals(k, t, es[1..]), ReadLog(k, t, es[1..]), After(k, t, es[1..]).inbox);
    }
  }

  lemma {:induction false} CascadedSkips(k: Setup, log: seq<M.Request>, j: nat)
    requires Cascaded(k, log, j)
    ensures Cascaded(k, log, j + 1)
    decreases |log|
  {
    if j < 3 && !Triggers(k, log[0], j) {
      CascadedSkips(k, log[1..], j);
      if Triggers(k, log[0], j + 1) {
        CascadedSkips(k, log[1..], j + 1);
      }
    }
  }

  lemma {:induction false} CascadedBehind(k: Setup, before: seq<M.Request>, log: seq<M.Request>, j: nat)
    requires Cascaded(k, log, j)
    ensures Cascaded(k, before + log, j)
    decreases |before|
  {
    if before == [] {
      assert before + log == log;
    } else {
      assert (before + log)[1..] == before[1..] + log;
      CascadedBehind(k, before[1..], log, j);
      if Triggers(k, before[0], j) {
        CascadedSkips(k, before[1..] + log, j);
      }
    }
  }

  /** The cascade messages from the j-th on. */
  function CascadeFrom(k: Setup, missionId: string, details: Body, j: nat): seq<Msg>
    requires j <= 4
  {
    Cascade(k, missionId, details)[j..]
  }

  lemma CascadeTriggers(k: Setup, missionId: string, details: Body, j: nat)
    requires Configured(k) && j < 3
    ensures Triggers(k, M.Read(CascadeFrom(k, missionId, details, j)[0]), j)
  {
    if j == 1 {
      CloseMeaning(k);
    } else if j == 2 {
      LandMeaning(k);
    }
    assert CascadeFrom(k, missionId, details, j)[0] == Cascade(k, missionId, details)[j];
  }

  /** One more message in front: the j-th of the cascade moves it on, any other may. */
  lemma CascadedSend(k: Setup, missionId: string, details: Body, msg: Msg, later: seq<M.Request>, j: nat)
    requires Configured(k) && j < 3
    requires Cascaded(k, later, if CascadeFrom(k, missionId, details, j)[0] == msg then j + 1 else j)
    ensures Cascaded(k, [M.Read(msg)] + later, j)
  {
    var r := M.Read(msg);
    assert ([r] + later)[1..] == later;
    if CascadeFrom(k, missionId, details, j)[0] == msg {
      CascadeTriggers(k, missionId, details, j);
    } else if Triggers(k, r, j) {
      CascadedSkips(k, later, j);
    }
  }

  lemma ArrivalsOfSend(k: Setup, s: System, es: seq<Event>)
    requires es != [] && es[0].Send?
    ensures Arrivals(k, s, es) == [M.Read(es[0].msg)] + Arrivals(k, Next(k, s, es[0]), es[1..])
  {
    assert Next(k, s, es[0]).inbox[|s.inbox|..] == [M.Read(es[0].msg)];
  }

  /** A cascade sent in order arrives in order, whatever arrives in between. */
  lemma {:induction false} SentCascadeArrives(k: Setup, missionId: string, details: Body, s: System, es: seq<Event>, j: nat)
    requires Configured(k) && j <= 3
    requires Subsequence(CascadeFrom(k, missionId, details, j), SentDuring(es))
    ensures Cascaded(k, Arrivals(k, s, es), j)
    decreases |es|
  {
    if j < 3 {
      var pattern := CascadeFrom(k, missionId, details, j);
      assert es != [];
      var t := Next(k, s, es[0]);
      var later := Arrivals(k, t, es[1..]);
      if es[0].Send? {
        ArrivalsOfSend(k, s, es);
        assert SentDuring(es)[1..] == SentDuring(es[1..]);
        if pattern[0] == es[0].msg {
          assert pattern[1..] == CascadeFrom(k, missionId, details, j + 1);
          SentCascadeArrives(k, missionId, details, t, es[1..], j + 1);
        } else {
          SentCascadeArrives(k, missionId, details, t, es[1..], j);
        }
        CascadedSend(k, missionId, details, es[0].msg, later, j);
      } else {
        assert SentDuring(es) == SentDuring(es[1..]);
        SentCascadeArrives(k, missionId, details, t, es[1..], j);
        var kept := if es[0].MonitorReads? && s.inbox != [] then |s.inbox| - 1 else |s.inbox|;
        CascadedBehind(k, if kept <= |t.inbox| then t.inbox[kept..] else [], later, j);
      }
    }
  }

  // ---- reading far enough -----------------------------------------------------------------------

  function MonitorReadings(es: seq<Event>): nat {
    if es == [] then 0 else (if es[0].MonitorReads? then 1 else 0) + MonitorReadings(es[1..])
  }

  /** Reading as often as there are messages waiting reads them all. */
  lemma {:induction false} WaitingAreRead(k: Setup, s: System, es: seq<Event>, n: nat)
    requires n <= |s.inbox| && n <= MonitorReadings(es)
    ensures |ReadLog(k, s, es)| >= n
    decreases |es|
  {
    if n > 0 {
      var t := Next(k, s, es[0]);
      InboxStep(k, s, es[0]);
      WaitingAreRead(k, t, es[1..], if es[0].MonitorReads? then n - 1 else n);
    }
  }

  lemma {:induction false} ReadLogsCompose(k: Setup, s: System, a: seq<Event>, b: seq<Event>)
    ensures ReadLog(k, s, a + b) == ReadLog(k, s, a) + ReadLog(k, After(k, s, a), b)
    decreases |a|
  {
    if a == [] {
      assert a + b == b;
    } else {
      assert (a + b)[1..] == a[1..] + b;
      ReadLogsCompose(k, Next(k, s, a[0]), a[1..], b);
    }
  }

  lemma {:induction false} CascadedBefore(k: Setup, log: seq<M.Request>, more: seq<M.Request>, j: nat)
    requires Cascaded(k, log, j)
    ensures Cascaded(k, log + more, j)
    decreases |log|
  {
    if j < 3 {
      assert (log + more)[1..] == log[1..] + more;
      CascadedBefore(k, log[1..], more, if Triggers(k, log[0], j) then j + 1 else j);
    }
  }

  /** The first of two splits of one sequence begins with a shorter one. */
  lemma Beginning(x: seq<M.Request>, y: seq<M.Request>, u: seq<M.Request>, v: seq<M.Request>)
    requires x + y == u + v && |x| <= |u|
    ensures u == x + u[|x|..]
  {
    assert u == (u + v)[..|u|] && x == (x + y)[..|x|];
    assert u[..|x|] == x;
  }

  /** A cascade that was sent is among what has been read and what is waiting. */
  lemma CascadeIsIn(k: Setup, s: System, missionId: string, details: Body, a: seq<Event>)
    requires Configured(k) && Subsequence(Cascade(k, missionId, details), SentDuring(a))
    ensures Cascaded(k, ReadLog(k, s, a) + After(k, s, a).inbox, 0)
  {
    assert CascadeFrom(k, missionId, details, 0) == Cascade(k, missionId, details);
    SentCascadeArrives(k, missionId, details, s, a, 0);
    CascadedBehind(k, s.inbox, Arrivals(k, s, a), 0);
    FifoConservation(k, s, a);
  }

  /** What was waiting is read first. */
  lemma WaitingIsReadFirst(k: Setup, s: System, r: seq<Event>) returns (rest: seq<M.Request>)
    requires MonitorReadings(r) >= |s.inbox|
    ensures ReadLog(k, s, r) == s.inbox + rest
  {
    FifoConservation(k, s, r);
    WaitingAreRead(k, s, r, |s.inbox|);
    Beginning(s.inbox, Arrivals(k, s, r), ReadLog(k, s, r), After(k, s, r).inbox);
    rest := ReadLog(k, s, r)[|s.inbox|..];
  }

  lemma Regroup(x: seq<M.Request>, y: seq<M.Request>, z: seq<M.Request>)
    ensures x + (y + z) == (x + y) + z
  {
  }

  /** A cascade that was sent and then waited for has been read. */
  lemma CascadeIsRead(k: Setup, s: System, missionId: string, details: Body, a: seq<Event>, r: seq<Event>)
    requires Configured(k) && Subsequence(Cascade(k, missionId, details), SentDuring(a))
    requires MonitorReadings(r) >= |After(k, s, a).inbox|
    ensures Cascaded(k, ReadLog(k, s, a + r), 0)
  {
    var t := After(k, s, a);
    CascadeIsIn(k, s, missionId, details, a);
    var rest := WaitingIsReadFirst(k, t, r);
    ReadLogsCompose(k, s, a, r);
    Regroup(ReadLog(k, s, a), t.inbox, rest);
    CascadedBefore(k, ReadLog(k, s, a) + t.inbox, rest, 0);
  }

  /** The latch, from the emergency component's point of view: it published its
      four messages in order during `a`; during `r` the monitor reads as many
      messages as were waiting by then, and during `b` the actuators read as many as
      were waiting for them. Anything else may still be queued anywhere. */
  lemma EmergencyCascadeLatches(
    k: Setup, s: System, missionId: string, details: Body, a: seq<Event>, r: seq<Event>, b: seq<Event>, c: seq<Event>)
    requires Configured(k) && Coherent(k, s) && NeverReleased(k, s, a + r + (b + c))
    requires Subsequence(Cascade(k, missionId, details), SentDuring(a))
    requires MonitorReadings(r) >= |After(k, s, a).inbox|
    requires MotorReads(b) >= |After(k, s, a + r).motorQueue|
    requires DoorReads(b) >= |After(k, s, a + r).cargoQueue|
    ensures var t := After(k, s, a + r + (b + c));
      Landed(k.motors, t.motors) && t.cargo.door.Closed? && IsIsolated(k, t)
  {
    CascadeIsRead(k, s, missionId, details, a, r);
    LatchHolds(k, s, a + r, b, c);
  }
}
