/** The security monitor as a pure machine: what each message and each watchdog
    check does to the two policy tables, the safety state and the bus. */
module MonitorSpec {
  import opened Common
  import opened Text

  datatype PolicyKey = PolicyKey(sender: string, topic: string, action: string)

  datatype Mode = Normal | Isolated

  /** `transitionId` is the nanosecond stamp that the printed id carries. */
  datatype Safety = Safety(
    mode: Mode, reason: string, source: string, transitionId: int,
    version: int, activatedAt: int, lastTransitionAt: int)

  datatype Config = Config(prefix: string, admin: string, heartbeatTimeout: int, failsafe: string)

  datatype State = State(
    active: set<PolicyKey>, normal: set<PolicyKey>, safety: Safety, lastSeen: map<string, int>)

  datatype Reply =
    | Silent
    | Error(code: string)
    | Updated(key: PolicyKey)
    | Removed(existed: bool, key: PolicyKey)
    | Cleared(count: nat)
    | Listing(mode: Mode, policies: set<PolicyKey>)
    | Transition(changed: bool, safety: Safety)
    | Status(safety: Safety)
    | Seen(sender: string)
    | Forwarded

  /** A publish call of the monitor: a message forwarded for a sender, or its own
      journal entry about a mode transition. */
  datatype Output = Forward(topic: string, msg: Msg) | ModeLog(safety: Safety)

  /** What one step yields: the new state, the publish calls in order, the answer. */
  datatype Outcome = Outcome(state: State, sent: seq<Output>, reply: Reply)

  /** What a proxy message asks for. */
  datatype Target = NoPayload | NoTarget | To(topic: string, action: string, data: Body)

  /** A message once its handler is known and its fields are read. An absent string
      field is the empty string; an incomplete policy is None. `name` is the
      sender without surrounding blanks, which is what the watchdog records. */
  datatype Request =
    | Proxy(sender: string, name: string, target: Target)
    | SetPolicy(sender: string, wellFormed: Option<PolicyKey>)
    | RemovePolicy(sender: string, wellFormed: Option<PolicyKey>)
    | ClearPolicies(sender: string)
    | ListPolicies
    | IsolationStart(sender: string, reason: string)
    | IsolationEnd(sender: string, reason: string)
    | IsolationStatus
    | SafetyHeartbeat(sender: string)
    | NoHandler

  datatype Input = Deliver(req: Request, now: int) | Watchdog(now: int)

  function EmergencyPolicies(c: Config): set<PolicyKey> {
    { PolicyKey("emergency", BrokerTopic(c.prefix, "navigation"), "get_state"),
      PolicyKey("emergency", BrokerTopic(c.prefix, "motors"), "LAND"),
      PolicyKey("emergency", BrokerTopic(c.prefix, "cargo"), "CLOSE"),
      PolicyKey("emergency", BrokerTopic(c.prefix, "journal"), "LOG_EVENT"),
      PolicyKey("emergency", BrokerTopic(c.prefix, "security_monitor"), "isolation_status"),
      PolicyKey("emergency", BrokerTopic(c.prefix, "security_monitor"), "ISOLATION_END") }
  }

  function InitialSafety(now: int): Safety {
    Safety(Normal, "startup", SECURITY_MONITOR, now, 1, now, now)
  }

  function Initial(policies: set<PolicyKey>, now: int): State {
    State(policies, policies, InitialSafety(now), map[])
  }

  // ---- mode transitions -------------------------------------------------

  function EnterIsolated(c: Config, s: State, reason: string, source: string, now: int): State {
    if s.safety.mode.Isolated? then s
    else s.(active := EmergencyPolicies(c),
            safety := Safety(Isolated, reason, source, now, s.safety.version + 1, now, now))
  }

  function EnterNormal(s: State, reason: string, source: string, now: int): State {
    if s.safety.mode.Normal? then s
    else s.(active := s.normal,
            safety := s.safety.(mode := Normal, reason := reason, source := source, transitionId := now,
                                version := s.safety.version + 1, lastTransitionAt := now))
  }

  /** The journal entry is sent exactly when the mode changed. */
  function LogIfChanged(before: State, after: State): seq<Output> {
    if before.safety.mode == after.safety.mode then [] else [ModeLog(after.safety)]
  }

  predicate CanManage(c: Config, sender: string) {
    c.admin != "" && sender == c.admin
  }

  predicate MaySwitchMode(c: Config, sender: string) {
    sender != "" && (sender == "emergency" || CanManage(c, sender))
  }

  function ReasonOr(reason: string, default: string): string {
    if reason != "" then reason else default
  }

  // ---- message handlers -------------------------------------------------

  function RecordSeen(s: State, name: string, now: int): State {
    if name == "" then s else s.(lastSeen := s.lastSeen[name := now])
  }

  /** Both proxy handlers: the sender is recorded before anything is checked. */
  function HandleProxy(s: State, sender: string, name: string, target: Target, now: int): Outcome {
    var s1 := RecordSeen(s, name, now);
    match target
    case NoPayload => Outcome(s1, [], Error("invalid_payload"))
    case NoTarget => Outcome(s1, [], Error("invalid_target"))
    case To(topic, action, data) =>
      if PolicyKey(sender, topic, action) !in s1.active then Outcome(s1, [], Error("forbidden"))
      else Outcome(s1, [Forward(topic, Msg(action, SECURITY_MONITOR, Some(data)))], Forwarded)
  }

  function HandleSet(c: Config, s: State, sender: string, policy: Option<PolicyKey>): Outcome {
    if !CanManage(c, sender) then Outcome(s, [], Error("forbidden"))
    else match policy
      case None => Outcome(s, [], Error("invalid_policy"))
      case Some(k) =>
        Outcome(if s.safety.mode.Normal? then s.(normal := s.normal + {k}, active := s.active + {k})
                else s.(normal := s.normal + {k}), [], Updated(k))
  }

  function HandleRemove(c: Config, s: State, sender: string, policy: Option<PolicyKey>): Outcome {
    if !CanManage(c, sender) then Outcome(s, [], Error("forbidden"))
    else match policy
      case None => Outcome(s, [], Error("invalid_policy"))
      case Some(k) =>
        Outcome(if s.safety.mode.Normal? then s.(normal := s.normal - {k}, active := s.active - {k})
                else s.(normal := s.normal - {k}), [], Removed(k in s.normal, k))
  }

  function HandleClear(c: Config, s: State, sender: string): Outcome {
    if !CanManage(c, sender) then Outcome(s, [], Error("forbidden"))
    else Outcome(if s.safety.mode.Normal? then s.(normal := {}, active := {}) else s.(normal := {}),
                 [], Cleared(|s.normal|))
  }

  function HandleIsolationStart(c: Config, s: State, sender: string, reason: string, now: int): Outcome {
    if !MaySwitchMode(c, sender) then Outcome(s, [], Error("forbidden"))
    else
      var s1 := EnterIsolated(c, s, ReasonOr(reason, "manual_isolation"), sender, now);
      Outcome(s1, LogIfChanged(s, s1), Transition(s.safety.mode != s1.safety.mode, s1.safety))
  }

  function HandleIsolationEnd(c: Config, s: State, sender: string, reason: string, now: int): Outcome {
    if !MaySwitchMode(c, sender) then Outcome(s, [], Error("forbidden"))
    else
      var s1 := EnterNormal(s, ReasonOr(reason, "manual_recovery"), sender, now);
      Outcome(s1, LogIfChanged(s, s1), Transition(s.safety.mode != s1.safety.mode, s1.safety))
  }

  function HandleHeartbeat(s: State, sender: string, now: int): Outcome {
    if sender != "limiter" && sender != "emergency" then Outcome(s, [], Error("forbidden"))
    else Outcome(RecordSeen(s, sender, now), [], Seen(sender))
  }

  /** Handler dispatch; a message without a handler changes nothing. */
  function Handle(c: Config, s: State, r: Request, now: int): Outcome {
    match r
    case Proxy(sender, name, target) => HandleProxy(s, sender, name, target, now)
    case SetPolicy(sender, policy) => HandleSet(c, s, sender, policy)
    case RemovePolicy(sender, policy) => HandleRemove(c, s, sender, policy)
    case ClearPolicies(sender) => HandleClear(c, s, sender)
    case ListPolicies =>
      Outcome(s, [], Listing(s.safety.mode, if s.safety.mode.Isolated? then s.active else s.normal))
    case IsolationStart(sender, reason) => HandleIsolationStart(c, s, sender, reason, now)
    case IsolationEnd(sender, reason) => HandleIsolationEnd(c, s, sender, reason, now)
    case IsolationStatus => Outcome(s, [], Status(s.safety))
    case SafetyHeartbeat(sender) => HandleHeartbeat(s, sender, now)
    case NoHandler => Outcome(s, [], Error("unknown_action"))
  }

  // ---- watchdog ----------------------------------------------------------

  predicate Stale(s: State, name: string, now: int, timeout: int) {
    name !in s.lastSeen || now - s.lastSeen[name] > timeout
  }

  predicate WatchdogArmed(c: Config) {
    c.heartbeatTimeout > 0 && c.failsafe == "isolate"
  }

  /** The limiter is examined before the emergency component. */
  function CheckHeartbeat(c: Config, s: State, now: int): Outcome {
    if !WatchdogArmed(c) || s.safety.mode.Isolated? then Outcome(s, [], Silent)
    else
      var s1 :=
        if Stale(s, "limiter", now, c.heartbeatTimeout)
        then EnterIsolated(c, s, "heartbeat_timeout:" + "limiter", SECURITY_MONITOR, now)
        else if Stale(s, "emergency", now, c.heartbeatTimeout)
        then EnterIsolated(c, s, "heartbeat_timeout:" + "emergency", SECURITY_MONITOR, now)
        else s;
      Outcome(s1, LogIfChanged(s, s1), Silent)
  }

  // ---- runs ----------------------------------------------------------------

  function Step(c: Config, s: State, i: Input): Outcome {
    match i
    case Deliver(r, now) => Handle(c, s, r, now)
    case Watchdog(now) => CheckHeartbeat(c, s, now)
  }

  /** The state after a whole history of inputs. */
  function After(c: Config, s: State, h: seq<Input>): State
    decreases |h|
  {
    if h == [] then s else Step(c, After(c, s, h[..|h| - 1]), h[|h| - 1]).state
  }

  /** A publish call as it appears on the bus. */
  function OnBus(c: Config, o: Output): Sent {
    match o
    case Forward(topic, msg) => Sent(topic, msg)
    case ModeLog(f) =>
      Sent(BrokerTopic(c.prefix, "journal"),
           Msg("LOG_EVENT", SECURITY_MONITOR, Some(map[
             "event" := Str("SECURITY_MONITOR_MODE_TRANSITION"),
             "source" := Str(SECURITY_MONITOR),
             "details" := Obj(map[
               "mode" := Str(if f.mode.Normal? then "NORMAL" else "ISOLATED"),
               "reason" := Str(f.reason),
               "transition_id" := Num(f.transitionId as real),
               "transition_at" := Num(f.lastTransitionAt as real),
               "state_version" := Num(f.version as real),
               "trigger_source" := Str(f.source)])])))
  }

  // ---- reading messages ---------------------------------------------------

  function ProxySender(m: Msg): string {
    if m.sender == "" then "unknown" else m.sender
  }

  /** The target of a proxy message; both names are trimmed and must be present. */
  function ExtractTarget(payload: Option<Body>): Target {
    if payload.None? then NoPayload
    else match ObjField(payload.value, "target")
      case None => NoTarget
      case Some(t) =>
        var topic, action := TrimSpace(StrField(t, "topic")), TrimSpace(StrField(t, "action"));
        if topic == "" || action == "" then NoTarget
        else To(topic, action, match ObjField(payload.value, "data") case None => map[] case Some(d) => d)
  }

  /** The policy named by an admin message, when it is complete. */
  function NamedPolicy(payload: Option<Body>): Option<PolicyKey> {
    if payload.None? then None
    else
      var k := PolicyKey(TrimSpace(StrField(payload.value, "sender")),
                         TrimSpace(StrField(payload.value, "topic")),
                         TrimSpace(StrField(payload.value, "action")));
      if k.sender == "" || k.topic == "" || k.action == "" then None else Some(k)
  }

  function ReasonField(payload: Option<Body>): string {
    if payload.None? then "" else StrField(payload.value, "reason")
  }

  /** Handler lookup by action, and the fields that handler reads. */
  function Read(m: Msg): Request {
    match m.action
    case "proxy_request" => Proxy(ProxySender(m), TrimSpace(ProxySender(m)), ExtractTarget(m.payload))
    case "proxy_publish" => Proxy(ProxySender(m), TrimSpace(ProxySender(m)), ExtractTarget(m.payload))
    case "set_policy" => SetPolicy(m.sender, NamedPolicy(m.payload))
    case "remove_policy" => RemovePolicy(m.sender, NamedPolicy(m.payload))
    case "clear_policies" => ClearPolicies(m.sender)
    case "list_policies" => ListPolicies
    case "ISOLATION_START" => IsolationStart(m.sender, ReasonField(m.payload))
    case "ISOLATION_END" => IsolationEnd(m.sender, ReasonField(m.payload))
    case "isolation_status" => IsolationStatus
    case "safety_heartbeat" => SafetyHeartbeat(m.sender)
    case _ => NoHandler
  }
}
