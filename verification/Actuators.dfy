/** The two actuators: motors and the cargo bay. They act only on messages that
    carry the monitor's name, and keep the last command they were given. */
module ActuatorSpec {
  import opened Common

  // ---- motors ----------------------------------------------------------------

  datatype MotorMode = IdleMotors | Tracking | Landing

  datatype Sitl = Sitl(droneId: string, vx: real, vy: real, vz: real, heading: real)

  /** `resolve` turns a heading and a ground speed into the two horizontal speeds;
      its trigonometry is not part of this model. */
  datatype MotorConfig = MotorConfig(droneId: string, resolve: (real, real) -> (real, real))

  /** `sitl` holds every command published to the simulator, oldest first. */
  datatype MotorState = MotorState(mode: MotorMode, lastTarget: Option<Body>, lastCmdTs: real, sitl: seq<Sitl>)

  datatype MotorCmd = SetTarget(payload: Option<Body>) | Land | IdleCmd

  datatype Sanitized = Target(target: Body) | Rejected(error: string)

  const TARGET_KEYS := ["heading_deg", "ground_speed_mps", "alt_m", "vx", "vy", "vz", "lat", "lon"]

  /** The first listed key that is present without a number. */
  function FirstNonNumber(payload: Body, keys: seq<string>): Option<string> {
    if keys == [] then None
    else if keys[0] in payload && !payload[keys[0]].Num? then Some(keys[0])
    else FirstNonNumber(payload, keys[1..])
  }

  function Restrict(payload: Body, keys: set<string>): Body {
    map k | k in payload && k in keys :: payload[k]
  }

  /** Keep the known keys, refuse a bad value under any of them, refuse nothing at all. */
  function Sanitize(payload: Body): Sanitized {
    match FirstNonNumber(payload, TARGET_KEYS)
    case Some(k) => Rejected("invalid_" + k)
    case None =>
      if "drop" in payload && !payload["drop"].Bool? then Rejected("invalid_drop")
      else
        var t := Restrict(payload, (set k | k in TARGET_KEYS) + {"drop"});
        if t == map[] then Rejected("empty_target") else Target(t)
  }

  function Clamp(v: real, lo: real, hi: real): real {
    if v < lo then lo else if v > hi then hi else v
  }

  function NumOr(t: Body, k: string, default: real): real {
    if k in t && t[k].Num? then t[k].n else default
  }

  predicate HasNum(t: Body, k: string) {
    k in t && t[k].Num?
  }

  function TargetToSitl(c: MotorConfig, t: Body): Sitl {
    var byHeading := !HasNum(t, "vx") && !HasNum(t, "vy") && HasNum(t, "heading_deg") && HasNum(t, "ground_speed_mps");
    var (vx, vy) :=
      if byHeading then c.resolve(t["heading_deg"].n, t["ground_speed_mps"].n)
      else (NumOr(t, "vx", 0.0), NumOr(t, "vy", 0.0));
    Sitl(c.droneId, Clamp(vx, -50.0, 50.0), Clamp(vy, -50.0, 50.0),
         Clamp(NumOr(t, "vz", 0.0), -10.0, 10.0), Clamp(NumOr(t, "heading_deg", 0.0), 0.0, 359.9))
  }

  function LandSitl(droneId: string): Sitl {
    Sitl(droneId, 0.0, 0.0, -0.5, 0.0)
  }

  /** What a message on the motors topic means to the motors. */
  function ReadMotor(m: Msg): MotorCmd {
    if !TrustedSender(m, SECURITY_MONITOR) then IdleCmd
    else match m.action
      case "SET_TARGET" => SetTarget(m.payload)
      case "LAND" => Land
      case _ => IdleCmd
  }

  function StepMotors(c: MotorConfig, s: MotorState, cmd: MotorCmd, now: real): MotorState {
    match cmd
    case IdleCmd => s
    case Land => s.(mode := Landing, lastCmdTs := now, sitl := s.sitl + [LandSitl(c.droneId)])
    case SetTarget(None) => s
    case SetTarget(Some(payload)) =>
      match Sanitize(payload)
      case Rejected(_) => s
      case Target(t) => MotorState(Tracking, Some(t), now, s.sitl + [TargetToSitl(c, t)])
  }

  /** Straight down at half a metre a second. */
  predicate Descends(x: Sitl, droneId: string) {
    x.droneId == droneId && x.vx == 0.0 && x.vy == 0.0 && x.vz == -0.5 && x.heading == 0.0
  }

  /** The motors' last word to the simulator is to descend. */
  predicate Landed(c: MotorConfig, s: MotorState) {
    s.mode == Landing && s.sitl != [] && Descends(s.sitl[|s.sitl| - 1], c.droneId)
  }

  /** `x` is the value nearest to `v` between two limits. */
  predicate Nearest(x: real, v: real, lo: real, hi: real) {
    lo <= x <= hi && (lo <= v <= hi ==> x == v) && (v < lo ==> x == lo) && (v > hi ==> x == hi)
  }

  /** The number under a key, or zero. */
  predicate Asks(t: Body, k: string, v: real) {
    v == if k in t && t[k].Num? then t[k].n else 0.0
  }

  predicate Steers(t: Body) {
    ("vx" in t && t["vx"].Num?) || ("vy" in t && t["vy"].Num?)
  }

  /** The command carries out the target: the asked speeds, or those of heading and
      ground speed when neither horizontal speed is asked for, each within its limits. */
  ghost predicate Tracks(c: MotorConfig, t: Body, x: Sitl) {
    && x.droneId == c.droneId
    && (exists vz :: Asks(t, "vz", vz) && Nearest(x.vz, vz, -10.0, 10.0))
    && (exists heading :: Asks(t, "heading_deg", heading) && Nearest(x.heading, heading, 0.0, 359.9))
    && (if !Steers(t) && "heading_deg" in t && t["heading_deg"].Num? && "ground_speed_mps" in t && t["ground_speed_mps"].Num?
        then var (vx, vy) := c.resolve(t["heading_deg"].n, t["ground_speed_mps"].n);
             Nearest(x.vx, vx, -50.0, 50.0) && Nearest(x.vy, vy, -50.0, 50.0)
        else (exists vx :: Asks(t, "vx", vx) && Nearest(x.vx, vx, -50.0, 50.0))
             && (exists vy :: Asks(t, "vy", vy) && Nearest(x.vy, vy, -50.0, 50.0)))
  }

  lemma ClampIsNearest(v: real, lo: real, hi: real)
    requires lo <= hi
    ensures Nearest(Clamp(v, lo, hi), v, lo, hi)
  {
  }

  lemma TargetIsTracked(c: MotorConfig, t: Body)
    ensures Tracks(c, t, TargetToSitl(c, t))
  {
    assert Asks(t, "vz", NumOr(t, "vz", 0.0)) && Asks(t, "heading_deg", NumOr(t, "heading_deg", 0.0));
    assert Asks(t, "vx", NumOr(t, "vx", 0.0)) && Asks(t, "vy", NumOr(t, "vy", 0.0));
    ClampIsNearest(NumOr(t, "vz", 0.0), -10.0, 10.0);
    ClampIsNearest(NumOr(t, "heading_deg", 0.0), 0.0, 359.9);
  }

  /** The command limits of the simulator interface. */
  predicate InEnvelope(x: Sitl) {
    -50.0 <= x.vx <= 50.0 && -50.0 <= x.vy <= 50.0 && -10.0 <= x.vz <= 10.0 && 0.0 <= x.heading <= 359.9
  }

  function RunMotors(c: MotorConfig, s: MotorState, cmds: seq<(MotorCmd, real)>): MotorState
    decreases |cmds|
  {
    if cmds == [] then s
    else
      var last := cmds[|cmds| - 1];
      StepMotors(c, RunMotors(c, s, cmds[..|cmds| - 1]), last.0, last.1)
  }

  const INITIAL_MOTORS := MotorState(IdleMotors, None, 0.0, [])

  /** Whatever the motors are sent, every command they publish is within the
      limits, and the mode tells what the last command was. */
  lemma {:induction false} MotorsStayInEnvelope(c: MotorConfig, cmds: seq<(MotorCmd, real)>)
    ensures var s := RunMotors(c, INITIAL_MOTORS, cmds);
      && (forall k :: 0 <= k < |s.sitl| ==> InEnvelope(s.sitl[k]) && s.sitl[k].droneId == c.droneId)
      && (s.mode == Landing ==> Landed(c, s))
      && (s.mode == IdleMotors <==> s.sitl == [])
      && (s.mode == Tracking ==> s.lastTarget.Some? && Tracks(c, s.lastTarget.value, s.sitl[|s.sitl| - 1]))
    decreases |cmds|
  {
    if cmds != [] {
      MotorsStayInEnvelope(c, cmds[..|cmds| - 1]);
      var cmd := cmds[|cmds| - 1].0;
      if cmd.SetTarget? && cmd.payload.Some? && Sanitize(cmd.payload.value).Target? {
        TargetIsTracked(c, Sanitize(cmd.payload.value).target);
      }
    }
  }

  /** The keys a target may carry besides the drop flag. */
  predicate IsTargetKey(k: string) {
    || k == "heading_deg" || k == "ground_speed_mps" || k == "alt_m"
    || k == "vx" || k == "vy" || k == "vz" || k == "lat" || k == "lon"
  }

  /** A payload that can be a target: numbers and a flag where they belong, and one at least. */
  ghost predicate IsTarget(payload: Body) {
    && (forall k :: k in payload && IsTargetKey(k) ==> payload[k].Num?)
    && ("drop" in payload ==> payload["drop"].Bool?)
    && exists k :: k in payload && (IsTargetKey(k) || k == "drop")
  }

  lemma {:induction false} FirstNonNumberMeans(payload: Body, keys: seq<string>)
    ensures FirstNonNumber(payload, keys).None? <==> forall k <- keys :: k in payload ==> payload[k].Num?
    decreases |keys|
  {
    if keys != [] {
      FirstNonNumberMeans(payload, keys[1..]);
      assert keys == [keys[0]] + keys[1..];
    }
  }

  lemma TargetKeys(k: string)
    ensures k in TARGET_KEYS <==> IsTargetKey(k)
  {
    if IsTargetKey(k) {
      var i := if k == "heading_deg" then 0 else if k == "ground_speed_mps" then 1 else if k == "alt_m" then 2
               else if k == "vx" then 3 else if k == "vy" then 4 else if k == "vz" then 5 else if k == "lat" then 6 else 7;
      assert TARGET_KEYS[i] == k;
    }
  }

  /** A target is accepted exactly when it is one, and then keeps every known key as
      it was given and no other. */
  lemma SanitizeMeans(payload: Body)
    ensures Sanitize(payload).Target? <==> IsTarget(payload)
    ensures Sanitize(payload).Target? ==> forall k ::
      && (k in Sanitize(payload).target <==> k in payload && (IsTargetKey(k) || k == "drop"))
      && (k in Sanitize(payload).target ==> Sanitize(payload).target[k] == payload[k])
  {
    NumbersMean(payload);
    RestrictMeans(payload);
    assert Sanitize(payload).Target? <==>
      FirstNonNumber(payload, TARGET_KEYS).None? && ("drop" in payload ==> payload["drop"].Bool?) && Kept(payload) != map[];
  }

  function Kept(payload: Body): Body {
    Restrict(payload, (set k | k in TARGET_KEYS) + {"drop"})
  }

  lemma NumbersMean(payload: Body)
    ensures FirstNonNumber(payload, TARGET_KEYS).None? <==> forall k :: k in payload && IsTargetKey(k) ==> payload[k].Num?
  {
    FirstNonNumberMeans(payload, TARGET_KEYS);
    forall k
      ensures k in TARGET_KEYS <==> IsTargetKey(k)
    {
      TargetKeys(k);
    }
  }

  lemma RestrictMeans(payload: Body)
    ensures forall k :: k in Kept(payload) <==> k in payload && (IsTargetKey(k) || k == "drop")
    ensures Kept(payload) != map[] <==> exists k :: k in payload && (IsTargetKey(k) || k == "drop")
  {
    forall k
      ensures k in Kept(payload) <==> k in payload && (IsTargetKey(k) || k == "drop")
    {
      TargetKeys(k);
    }
    if Kept(payload) != map[] {
      var k :| k in Kept(payload);
    }
  }

  // ---- cargo -------------------------------------------------------------------

  datatype Door = Closed | Open

  /** `journal` holds the logged state changes, oldest first. */
  datatype CargoState = CargoState(door: Door, lastChangeTs: real, journal: seq<(Door, Door)>)

  datatype CargoCmd = OpenDoor | CloseDoor | IdleDoor

  function ReadCargo(m: Msg): CargoCmd {
    if !TrustedSender(m, SECURITY_MONITOR) then IdleDoor
    else match m.action
      case "OPEN" => OpenDoor
      case "CLOSE" => CloseDoor
      case _ => IdleDoor
  }

  function SetDoor(s: CargoState, d: Door, now: real): CargoState {
    CargoState(d, now, if s.door == d then s.journal else s.journal + [(s.door, d)])
  }

  function StepCargo(s: CargoState, cmd: CargoCmd, now: real): CargoState {
    match cmd
    case OpenDoor => SetDoor(s, Open, now)
    case CloseDoor => SetDoor(s, Closed, now)
    case IdleDoor => s
  }

  function RunCargo(s: CargoState, cmds: seq<(CargoCmd, real)>): CargoState
    decreases |cmds|
  {
    if cmds == [] then s
    else
      var last := cmds[|cmds| - 1];
      StepCargo(RunCargo(s, cmds[..|cmds| - 1]), last.0, last.1)
  }

  /** The door after the last entry of a journal that starts with a closed door. */
  function JournalDoor(journal: seq<(Door, Door)>): Door {
    if journal == [] then Closed else journal[|journal| - 1].1
  }

  /** The last command other than an idle one. */
  function LastDoor(cmds: seq<(CargoCmd, real)>): Door
    decreases |cmds|
  {
    if cmds == [] then Closed
    else match cmds[|cmds| - 1].0
      case OpenDoor => Open
      case CloseDoor => Closed
      case IdleDoor => LastDoor(cmds[..|cmds| - 1])
  }

  /** The door is where the last command put it, and the journal is a chain of real
      changes that ends there: replaying it gives the door back. */
  lemma {:induction false} JournalTellsTheDoor(t0: real, cmds: seq<(CargoCmd, real)>)
    ensures var s := RunCargo(CargoState(Closed, t0, []), cmds);
      && s.door == LastDoor(cmds) && s.door == JournalDoor(s.journal)
      && (forall k :: 0 <= k < |s.journal| ==> s.journal[k].0 != s.journal[k].1)
      && (forall k :: 0 <= k < |s.journal| ==> s.journal[k].0 == JournalDoor(s.journal[..k]))
    decreases |cmds|
  {
    if cmds != [] {
      JournalTellsTheDoor(t0, cmds[..|cmds| - 1]);
      var s := RunCargo(CargoState(Closed, t0, []), cmds[..|cmds| - 1]);
      var s' := RunCargo(CargoState(Closed, t0, []), cmds);
      forall k | 0 <= k < |s'.journal|
        ensures s'.journal[k].0 != s'.journal[k].1 && s'.journal[k].0 == JournalDoor(s'.journal[..k])
      {
        assert s'.journal[..k] == s.journal[..k];
        if k == |s.journal| {
          assert s.journal[..k] == s.journal;
        }
      }
    }
  }
}

/** The actuators as the objects that run. */
module Actuators {
  import opened Common
  import opened ActuatorSpec

  /** The key loop of the target check: copies numbers, stops at the first bad key. */
  method CollectNumbers(payload: Body, keys: seq<string>) returns (target: Body, bad: Option<string>)
    ensures bad == FirstNonNumber(payload, keys)
    ensures bad.None? ==> target == Restrict(payload, set k | k in keys)
  {
    target := map[];
    var i := 0;
    while i < |keys|
      invariant 0 <= i <= |keys|
      invariant FirstNonNumber(payload, keys) == FirstNonNumber(payload, keys[i..])
      invariant target == Restrict(payload, set k | k in keys[..i])
    {
      var k := keys[i];
      assert keys[..i + 1] == keys[..i] + [k];
      if k in payload {
        if !payload[k].Num? {
          return target, Some(k);
        }
        target := target[k := payload[k]];
      }
      i := i + 1;
    }
    assert keys[..i] == keys;
    bad := None;
  }

  method SanitizeTarget(payload: Body) returns (r: Sanitized)
    ensures r == Sanitize(payload)
  {
    var target, bad := CollectNumbers(payload, TARGET_KEYS);
    if bad.Some? {
      return Rejected("invalid_" + bad.value);
    }
    if "drop" in payload {
      if !payload["drop"].Bool? {
        return Rejected("invalid_drop");
      }
      target := target["drop" := payload["drop"]];
    }
    assert target == Restrict(payload, (set k | k in TARGET_KEYS) + {"drop"});
    if target == map[] {
      return Rejected("empty_target");
    }
    r := Target(target);
  }

  class Motors {
    const config: MotorConfig
    var mode: MotorMode
    var lastTarget: Option<Body>
    var lastCmdTs: real
    var sitl: seq<Sitl>

    ghost function Now(): MotorState
      reads this
    {
      MotorState(mode, lastTarget, lastCmdTs, sitl)
    }

    constructor (config: MotorConfig)
      ensures this.config == config && Now() == INITIAL_MOTORS
    {
      this.config := config;
      mode, lastTarget, lastCmdTs, sitl := IdleMotors, None, 0.0, [];
    }

    method HandleSetTarget(m: Msg, now: real) returns (ok: bool)
      requires m.action == "SET_TARGET"
      modifies this
      ensures Now() == StepMotors(config, old(Now()), ReadMotor(m), now)
      ensures ok <==> TrustedSender(m, SECURITY_MONITOR) && m.payload.Some? && IsTarget(m.payload.value)
      ensures ok ==> |sitl| == |old(sitl)| + 1 && lastTarget.Some? && Tracks(config, lastTarget.value, sitl[|sitl| - 1])
    {
      if !TrustedSender(m, SECURITY_MONITOR) {
        return false;
      }
      if m.payload == None {
        return false;
      }
      var r := SanitizeTarget(m.payload.value);
      SanitizeMeans(m.payload.value);
      if r.Rejected? {
        return false;
      }
      TargetIsTracked(config, r.target);
      var cmd := TargetToSitl(config, r.target);
      lastTarget := Some(r.target);
      mode := Tracking;
      lastCmdTs := now;
      sitl := sitl + [cmd];
      ok := true;
    }

    method HandleLand(m: Msg, now: real) returns (ok: bool)
      requires m.action == "LAND"
      modifies this
      ensures Now() == StepMotors(config, old(Now()), ReadMotor(m), now)
      ensures ok <==> TrustedSender(m, SECURITY_MONITOR)
      ensures ok ==> mode == Landing && |sitl| == |old(sitl)| + 1 && Descends(sitl[|sitl| - 1], config.droneId)
    {
      if !TrustedSender(m, SECURITY_MONITOR) {
        return false;
      }
      mode := Landing;
      lastCmdTs := now;
      sitl := sitl + [LandSitl(config.droneId)];
      ok := true;
    }
  }

  class Cargo {
    var door: Door
    var lastChangeTs: real
    var journal: seq<(Door, Door)>

    ghost function Now(): CargoState
      reads this
    {
      CargoState(door, lastChangeTs, journal)
    }

    constructor (now: real)
      ensures Now() == CargoState(Closed, now, [])
    {
      door, lastChangeTs, journal := Closed, now, [];
    }

    method SetState(d: Door, now: real)
      modifies this
      ensures Now() == SetDoor(old(Now()), d, now)
    {
      var before := door;
      door := d;
      lastChangeTs := now;
      if before != d {
        journal := journal + [(before, d)];
      }
    }

    method Handle(m: Msg, now: real)
      modifies this
      ensures Now() == StepCargo(old(Now()), ReadCargo(m), now)
      ensures door == if !TrustedSender(m, SECURITY_MONITOR) then old(door)
                      else if m.action == "OPEN" then Open else if m.action == "CLOSE" then Closed else old(door)
    {
      if !TrustedSender(m, SECURITY_MONITOR) {
        return;
      }
      if m.action == "OPEN" {
        SetState(Open, now);
      } else if m.action == "CLOSE" {
        SetState(Closed, now);
      }
    }
  }
}
