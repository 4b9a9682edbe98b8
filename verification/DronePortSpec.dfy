/** The DronePort session as a pure machine: landing, charging, ready, departed. */
module DronePortSpec {
  import opened Common
  import opened DronePortReply

  datatype Phase = Disabled | NotRegistered | Charging | Ready | Departed

  /** A request that failed, or its answer. */
  datatype Resp = Failed(error: string) | Reply(body: Option<Body>)

  /** The calls of the session with their answers. */
  datatype Event = Available(resp: Resp) | LandingCall(resp: Resp) | TakeoffCall(resp: Resp)

  /** `managed` is a configured drone-manager topic, `orchestrated` an orchestrator
      topic. Reading a number out of a battery string is a parameter. */
  datatype Config = Config(
    managed: bool, orchestrated: bool, mock: bool, droneId: string,
    minBattery: real, chargeTimeout: real, scan: string -> Option<real>)

  datatype State = State(
    phase: Phase, portId: string, lastError: string, lastMission: string, waitAt: Option<real>, trace: seq<Event>)

  function Initial(c: Config): State {
    State(if c.managed || c.orchestrated then NotRegistered else Disabled, "", "", "", None, [])
  }

  // ---- replies --------------------------------------------------------------------------

  function Battery(c: Config, v: Json): Option<real> {
    match v
    case Num(n) => Some(n)
    case Str(s) => if s == "" || s == "unknown" then None else c.scan(s)
    case _ => None
  }

  /** An entry of the list of available drones that clears this drone for takeoff. */
  predicate Clears(c: Config, d: Json) {
    && d.Obj? && StrField(d.fields, "drone_id") == c.droneId
    && "battery" in d.fields && Battery(c, d.fields["battery"]).Some?
    && Battery(c, d.fields["battery"]).value > c.minBattery
  }

  function Drones(b: Body): seq<Json> {
    if "drones" in b && b["drones"].Arr? then b["drones"].items else []
  }

  /** The reply lists this drone above the minimum battery. */
  predicate Lists(c: Config, r: Resp) {
    && r.Reply? && r.body.Some?
    && var b := Unwrap(r.body.value, DEPTH);
       !NonNull(b, "error") && exists i :: 0 <= i < |Drones(b)| && Clears(c, Drones(b)[i])
  }

  predicate LandingApproved(r: Resp) {
    r.Reply? && LandingOk(r.body)
  }

  predicate TakeoffApproved(r: Resp) {
    r.Reply? && TakeoffOk(r.body)
  }

  function Refusal(r: Resp, default: string): string {
    match r
    case Failed(e) => e
    case Reply(None) => default
    case Reply(Some(b)) =>
      var em := StrField(Unwrap(b, DEPTH), "error");
      if em != "" then em else default
  }

  function PortOf(r: Resp): string {
    if r.Reply? && r.body.Some? then StrField(Unwrap(r.body.value, DEPTH), "port_id") else ""
  }

  // ---- operations --------------------------------------------------------------------------

  function Log(s: State, e: Event): State {
    s.(trace := s.trace + [e])
  }

  /** The outcome of asking the orchestrator. */
  datatype Readiness = IsReady | NotReady | Unknown(error: string)

  function AskReady(c: Config, s: State, r: Resp): (State, Readiness) {
    if !c.orchestrated then (s, Unknown("orchestrator_topic_unset"))
    else
      (Log(s, Available(r)),
       if r.Failed? then Unknown(r.error) else if Lists(c, r) then IsReady else NotReady)
  }

  /** request_landing; None means approved. */
  function Land(c: Config, s: State, r: Resp): (State, Option<string>) {
    if !c.managed then (s, None)
    else
      var s1 := Log(s, LandingCall(r));
      if LandingApproved(r) then (s1.(portId := PortOf(r), phase := Charging), None)
      else (s1, Some(Refusal(r, "landing_denied")))
  }

  /** request_takeoff; None means approved. */
  function TakeOff(c: Config, s: State, r: Resp): (State, Option<string>) {
    if !c.managed then (s, None)
    else
      var s1 := Log(s, TakeoffCall(r));
      if TakeoffApproved(r)
      then (s1.(portId := if PortOf(r) != "" then PortOf(r) else s1.portId, phase := Departed, lastError := ""), None)
      else (s1, Some(Refusal(r, "takeoff_denied")))
  }

  datatype Charge = Charged | StillCharging | ChargeTimedOut | ChargeUnknown(error: string)

  /** Clock readings of one call: when the wait is recorded, when it is read back
      on the first call, and when the deadline is tested. */
  datatype Clock = Clock(recorded: real, started: real, tested: real)

  ghost predicate Ordered(t: Clock) {
    t.recorded <= t.started <= t.tested
  }

  function WholeSeconds(x: real): real {
    x.Floor as real
  }

  function CheckCharge(c: Config, s: State, t: Clock, r: Resp): (State, Charge) {
    var first := s.waitAt.None?;
    var s1 := if first then s.(waitAt := Some(t.recorded)) else s;
    var deadline := (if first then t.started else s.waitAt.value) + WholeSeconds(c.chargeTimeout);
    var (s2, ready) := AskReady(c, s1, r);
    match ready
    case Unknown(e) => (s2, ChargeUnknown(e))
    case IsReady => (s2.(phase := Ready, waitAt := None), Charged)
    case NotReady => if t.tested > deadline then (s2.(waitAt := None), ChargeTimedOut) else (s2, StillCharging)
  }

  datatype Verdict = Cleared | Waiting | Refused(error: string)

  /** What the outside world answers during one preflight call. */
  datatype Answers = Answers(available: Resp, landing: Resp, clock: Clock, availableAgain: Resp, takeoff: Resp)

  function Fail(s: State, error: string): (State, Verdict) {
    (s.(lastError := error), Refused(error))
  }

  function FinishTakeoff(c: Config, s: State, r: Resp): (State, Verdict) {
    var (s1, refusal) := TakeOff(c, s, r);
    if refusal.Some? then Fail(s1, refusal.value) else (s1, Cleared)
  }

  /** The charging half of a preflight: one orchestrator poll within the timed wait. */
  function WaitForCharge(c: Config, s: State, a: Answers): (State, Verdict) {
    var (s1, charge) := CheckCharge(c, s, a.clock, a.availableAgain);
    match charge
    case ChargeUnknown(e) => Fail(s1, e)
    case ChargeTimedOut => Fail(s1, "charge_timeout")
    case StillCharging => (s1, Waiting)
    case Charged => FinishTakeoff(c, s1, a.takeoff)
  }

  function Preflight(c: Config, s: State, mission: string, a: Answers): (State, Verdict) {
    if !c.managed && !c.orchestrated then (s.(phase := Disabled), Cleared)
    else if c.mock then (s.(phase := Departed), Cleared)
    else if s.phase.Departed? then
      if s.lastMission == mission then (s, Cleared) else Fail(s, "already_departed")
    else
      var (s1, ready) := AskReady(c, s.(lastMission := mission), a.available);
      match ready
      case Unknown(e) => Fail(s1, e)
      case IsReady => FinishTakeoff(c, s1.(phase := Ready), a.takeoff)
      case NotReady =>
        if s.phase.Charging? then WaitForCharge(c, s1, a)
        else
          var (s2, refusal) := Land(c, s1.(phase := NotRegistered), a.landing);
          if refusal.Some? then Fail(s2, refusal.value)
          else WaitForCharge(c, s2.(phase := Charging), a)
  }

  function PostMissionLand(c: Config, s: State, r: Resp): (State, bool) {
    if !c.managed then (s.(phase := Disabled), true)
    else if c.mock then (s.(phase := Charging, waitAt := None), true)
    else
      var (s1, refusal) := Land(c, s, r);
      if refusal.Some? then (s1.(lastError := refusal.value), false) else (s1.(waitAt := None), true)
  }

  datatype Input = DoPreflight(mission: string, answers: Answers) | DoLand(resp: Resp)

  function Step(c: Config, s: State, i: Input): State {
    match i
    case DoPreflight(m, a) => Preflight(c, s, m, a).0
    case DoLand(r) => PostMissionLand(c, s, r).0
  }

  function After(c: Config, s: State, h: seq<Input>): State
    decreases |h|
  {
    if h == [] then s else Step(c, After(c, s, h[..|h| - 1]), h[|h| - 1])
  }
}
