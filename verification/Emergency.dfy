/** The emergency component as the object that runs: the cascade that stops the
    drone, and the DronePort session. */
module Emergency {
  import opened Common
  import opened DronePortReply
  import opened DronePortSpec
  import DT = DronePortTheory
  import Latch = EmergencyLatch

  /** How many publish calls of the cascade succeed before the first failure. */
  function Succeeding(fates: seq<bool>): (n: nat)
    ensures n <= |fates|
    ensures forall i :: 0 <= i < n ==> fates[i]
    ensures n < |fates| ==> !fates[n]
  {
    if fates == [] || !fates[0] then 0 else 1 + Succeeding(fates[1..])
  }

  predicate IsAlarm(m: Msg) {
    && (TrustedSender(m, SECURITY_MONITOR) || TrustedSender(m, "limiter"))
    && m.payload.Some? && StrField(m.payload.value, "event") == "EMERGENCY_LAND_REQUIRED"
  }

  function AlarmMission(m: Msg): string
    requires IsAlarm(m)
  {
    StrField(m.payload.value, "mission_id")
  }

  function AlarmDetails(m: Msg): Body
    requires IsAlarm(m)
  {
    match ObjField(m.payload.value, "details") case None => map[] case Some(d) => d
  }

  /** An alarm comes from the monitor or the limiter itself and says that a landing is required. */
  lemma AlarmMeans(m: Msg)
    ensures IsAlarm(m) <==>
      && (m.sender == "security_monitor" || m.sender == "limiter") && m.payload.Some?
      && "event" in m.payload.value && m.payload.value["event"] == Str("EMERGENCY_LAND_REQUIRED")
  {
  }

  /** What the limiter publishes on a geofence violation or an ordered landing. */
  function LimiterAlarm(details: Body): Body {
    map["event" := Str("EMERGENCY_LAND_REQUIRED"), "details" := Obj(details)]
  }

  /** Forwarded by the monitor it is an alarm, and its details go into the cascade. */
  lemma LimiterAlarmIsHeard(details: Body)
    ensures var m := Msg("limiter_event", "security_monitor", Some(LimiterAlarm(details)));
      IsAlarm(m) && AlarmDetails(m) == details && AlarmMission(m) == ""
  {
    var b := LimiterAlarm(details);
    assert b["event"] == Str("EMERGENCY_LAND_REQUIRED") && b["details"] == Obj(details) && "mission_id" !in b;
  }

  class Emergency {
    const setup: Latch.Setup
    const config: Config
    var active: bool
    var outbox: seq<Msg>
    var phase: Phase
    var portId: string
    var lastError: string
    var lastMission: string
    var waitAt: Option<real>
    var trace: seq<Event>

    ghost function Session(): State
      reads this
    {
      State(phase, portId, lastError, lastMission, waitAt, trace)
    }

    constructor (setup: Latch.Setup, config: Config)
      ensures this.setup == setup && this.config == config
      ensures !active && outbox == [] && Session() == Initial(config)
    {
      this.setup, this.config := setup, config;
      active, outbox := false, [];
      phase := if config.managed || config.orchestrated then NotRegistered else Disabled;
      portId, lastError, lastMission, waitAt, trace := "", "", "", None, [];
    }

    /** On an alarm the cascade goes out in order; the first failing publish ends
        it, and the component stays active only after a complete one. */
    method HandleLimiterEvent(m: Msg, fates: seq<bool>) returns (ok: bool)
      requires |fates| == 4
      modifies this`active, this`outbox
      ensures !IsAlarm(m) ==> !ok && active == old(active) && outbox == old(outbox)
      ensures IsAlarm(m) ==>
        && outbox == old(outbox) + Latch.Cascade(setup, AlarmMission(m), AlarmDetails(m))[..Succeeding(fates)]
        && (active <==> ok) && (ok <==> Succeeding(fates) == 4)
    {
      if !IsAlarm(m) {
        return false;
      }
      var cascade := Latch.Cascade(setup, AlarmMission(m), AlarmDetails(m));
      active := true;
      var i := 0;
      while i < 4
        invariant 0 <= i <= 4 && active
        invariant outbox == old(outbox) + cascade[..i]
        invariant Succeeding(fates) == i + Succeeding(fates[i..])
      {
        if !fates[i] {
          active := false;
          return false;
        }
        assert cascade[..i + 1] == cascade[..i] + [cascade[i]];
        outbox := outbox + [cascade[i]];
        i := i + 1;
      }
      return true;
    }

    /** Scan of the listed drones: stops at the first entry that clears this drone. */
    method IsDroneReady(r: Resp) returns (ready: Readiness)
      modifies this`trace
      ensures (Session(), ready) == AskReady(config, old(Session()), r)
      ensures ready.IsReady? <==> config.orchestrated && DT.ListedAbove(config, r)
    {
      DT.ListsMeans(config, r);
      if !config.orchestrated {
        return Unknown("orchestrator_topic_unset");
      }
      trace := trace + [Available(r)];
      if r.Failed? {
        return Unknown(r.error);
      }
      if r.body.None? {
        return NotReady;
      }
      var body := UnwrapDroneportBody(r.body.value);
      if NonNull(body, "error") {
        return NotReady;
      }
      var drones := Drones(body);
      var i := 0;
      while i < |drones|
        invariant 0 <= i <= |drones|
        invariant forall j :: 0 <= j < i ==> !Clears(config, drones[j])
      {
        if Clears(config, drones[i]) {
          return IsReady;
        }
        i := i + 1;
      }
      return NotReady;
    }

    method RunLanding(r: Resp) returns (refusal: Option<string>)
      modifies this`trace, this`portId, this`phase
      ensures (Session(), refusal) == Land(config, old(Session()), r)
    {
      if !config.managed {
        return None;
      }
      trace := trace + [LandingCall(r)];
      if !LandingApproved(r) {
        return Some(Refusal(r, "landing_denied"));
      }
      portId := PortOf(r);
      phase := Charging;
      return None;
    }

    method RunTakeoff(r: Resp) returns (refusal: Option<string>)
      modifies this`trace, this`portId, this`phase, this`lastError
      ensures (Session(), refusal) == TakeOff(config, old(Session()), r)
    {
      if !config.managed {
        return None;
      }
      trace := trace + [TakeoffCall(r)];
      if !TakeoffApproved(r) {
        return Some(Refusal(r, "takeoff_denied"));
      }
      var port := PortOf(r);
      if port != "" {
        portId := port;
      }
      phase := Departed;
      lastError := "";
      return None;
    }

    method CheckChargeReady(t: Clock, r: Resp) returns (charge: Charge)
      modifies this
      ensures active == old(active) && outbox == old(outbox)
      ensures (Session(), charge) == CheckCharge(config, old(Session()), t, r)
    {
      var started: real;
      if waitAt.None? {
        waitAt := Some(t.recorded);
        started := t.started;
      } else {
        started := waitAt.value;
      }
      var deadline := started + WholeSeconds(config.chargeTimeout);
      var ready := IsDroneReady(r);
      match ready
      case Unknown(e) =>
        return ChargeUnknown(e);
      case IsReady =>
        phase := Ready;
        waitAt := None;
        return Charged;
      case NotReady =>
        if t.tested > deadline {
          waitAt := None;
          return ChargeTimedOut;
        }
        return StillCharging;
    }

    method TakeOffOrFail(r: Resp) returns (v: Verdict)
      modifies this
      ensures active == old(active) && outbox == old(outbox)
      ensures (Session(), v) == FinishTakeoff(config, old(Session()), r)
    {
      var refusal := RunTakeoff(r);
      if refusal.Some? {
        lastError := refusal.value;
        return Refused(refusal.value);
      }
      return Cleared;
    }

    method AwaitCharge(a: Answers) returns (v: Verdict)
      modifies this
      ensures active == old(active) && outbox == old(outbox)
      ensures (Session(), v) == WaitForCharge(config, old(Session()), a)
    {
      ghost var s := Session();
      var charge := CheckChargeReady(a.clock, a.availableAgain);
      ghost var s1 := Session();
      assert (s1, charge) == CheckCharge(config, s, a.clock, a.availableAgain);
      match charge
      case ChargeUnknown(e) =>
        lastError := e;
        v := Refused(e);
      case ChargeTimedOut =>
        lastError := "charge_timeout";
        v := Refused("charge_timeout");
      case StillCharging =>
        v := Waiting;
      case Charged =>
        v := TakeOffOrFail(a.takeoff);
        assert (Session(), v) == FinishTakeoff(config, s1, a.takeoff);
    }

    method RunPreflight(mission: string, a: Answers) returns (v: Verdict)
      modifies this
      ensures active == old(active) && outbox == old(outbox)
      ensures (Session(), v) == Preflight(config, old(Session()), mission, a)
    {
      if !config.managed && !config.orchestrated {
        phase := Disabled;
        return Cleared;
      }
      if config.mock {
        phase := Departed;
        return Cleared;
      }
      if phase == Departed {
        if lastMission == mission {
          return Cleared;
        }
        lastError := "already_departed";
        return Refused("already_departed");
      }
      var charging := phase == Charging;
      lastMission := mission;
      ghost var s0 := Session();
      var ready := IsDroneReady(a.available);
      ghost var s1 := Session();
      assert (s1, ready) == AskReady(config, s0, a.available);
      match ready
      case Unknown(e) =>
        lastError := e;
        v := Refused(e);
      case IsReady =>
        phase := Ready;
        v := TakeOffOrFail(a.takeoff);
      case NotReady =>
        if !charging {
          phase := NotRegistered;
          var refusal := RunLanding(a.landing);
          ghost var s2 := Session();
          assert (s2, refusal) == Land(config, s1.(phase := NotRegistered), a.landing);
          if refusal.Some? {
            lastError := refusal.value;
            return Refused(refusal.value);
          }
          phase := Charging;
        }
        v := AwaitCharge(a);
    }

    method RunPostMissionLand(r: Resp) returns (ok: bool)
      modifies this
      ensures active == old(active) && outbox == old(outbox)
      ensures (Session(), ok) == PostMissionLand(config, old(Session()), r)
    {
      if !config.managed {
        phase := Disabled;
        return true;
      }
      if config.mock {
        phase := Charging;
        waitAt := None;
        return true;
      }
      var refusal := RunLanding(r);
      if refusal.Some? {
        lastError := refusal.value;
        return false;
      }
      waitAt := None;
      return true;
    }
  }
}
