# Delivery drone safety protocol, in Dafny

The delivery drone is a set of small services on a message bus. No service talks to
another directly: the security monitor forwards what its policy table allows, a mission
reaches the autopilot only after the limiter has cleared it, and an emergency isolates the
drone, closes the cargo bay and lands. This project models those services and proves what
they keep together: over every history of messages, ticks, replies and losses.

Each service is given twice. A pure machine (`...Spec`) says what one handler call or one
control tick does; a class with the service's own fields does it in place and is proved
equal to the machine, step by step. The theorems (`...Theory`, `EmergencyLatch`,
`Geofence`) are about runs of the machines, so they hold of the classes. What messages mean
and what commands carry is stated a second time, key by key and field by field, without the
functions of the machines (`MonitorMessages`, `AutopilotActs`, and the lemmas whose names end
in `Means` or `Mean`).

| files | what they hold |
|---|---|
| `Monitor`, `MonitorTheory`, `MonitorMessages`, `SecurityMonitor` | the policy gateway with two tables, isolation and the watchdog |
| `Actuators`, `Latch` | motors, cargo bay, and the monitor joined to them by first-in first-out topics |
| `Limiter*`, `TelemetryTheory`, `Geofence`, `Missions`, `Interval` | the handshake with the air traffic system (ORVD), mission bounds, geofence, polling |
| `DronePort*`, `Emergency` | the DronePort session and the emergency cascade |
| `Autopilot*` | commands, preflight gates, waypoints |
| `MissionHandler`, `Clearance`, `ClearanceTheory`, `ClearanceRoutes`, `ClearanceGrants`, `ClearanceWitness` | limiter-first loading, and the composed path from submission to flight |
| `Correlation*` | request and response over the bus under every interleaving |
| `Acl*` | the access-control compiler and the meaning of its output |
| `Wpl*`, `Numerals`, `Text` | the WPL mission parser and the string operations it rests on |

How the world is modelled. Handler calls and control ticks are atomic; in `Correlation*`
the steps are finer, one for each section under the lock and each channel operation. Time,
navigation readings, replies of external systems and the success of publish calls are
parameters, chosen freely at every step. Traces record the calls a service makes; whether
the broker then delivers is part of the run. Real numbers stand for floats. Sine, cosine, the
distance on the globe, the reading of a decimal fraction and the scan of a battery string
are function parameters: what is proved holds for every choice of them. Messages enter the
monitor and the actuators as decoded JSON; the other services take decoded commands and
statuses. Component names are those of the deployment ("limiter", "emergency",
"security_monitor").

Results that differ from what a reader might expect:

- The limiter raises its takeoff flag for any mission id a takeoff request names. A request
  keeps the flag a sign of a grant for the stored mission, whatever is answered, exactly
  when it names that mission or none, or the flag is already up, or the mission is not
  AUTHORIZED (`LimiterTheory.SafeRequestsExactly`). In the composed system a request that is
  served late is enough: every preflight passes on a grant for the stored mission, in all
  runs, exactly when late requests can name no other mission than the acceptable ones
  (`ClearanceGrants.OwnGrantsExactlyWhen`).
- Preflight compares mission ids, not missions. The mission flown is the one the limiter
  stores and the air traffic system authorized, in every run, exactly when no id stands for
  two acceptable missions (`ClearanceRoutes.MatchedExactlyWhen`); otherwise an id that is
  submitted again with another route, and not handed over, is enough.
- The command table allows START from IDLE, but IDLE never holds a mission, so it is always
  refused (`AutopilotTheory.StartFromIdleIsRefused`).
- A repeated START during PRE_FLIGHT restarts the preflight clock, so the timeout runs from
  the last START, and a mission can be in PRE_FLIGHT any time after its first one
  (`AutopilotTheory.StartRestartsTheClock`).
- An answer of the limiter without a payload counts as consent for the mission handler
  (`MissionHandler.LimiterFirst`).
- Five wrapping layers of a DronePort reply are invisible; at six the innermost body is
  taken as it is, beyond six nothing is approved (`DronePortReply.WrappingIsInvisible`).
- Correlation ids come from a clock. Two live requests with one id leave the second without
  a table entry once the first ends; a fresh id is exactly what is needed
  (`CorrelationTheory.FreshIdsAreNeeded`). With any ids no request gets a message with
  another id or a second message, and none is dropped (`CorrelationTheory.RepliesAreOwn`);
  but replies are known by id only, so with a shared id the second request can get the
  answer to the first.
- Default usernames replace `-`, `_` and `.` alike, so components such as `a-b` and `a_b`
  share a user and with it their grants (`Acl.SlugsCollide`, `AclTheory.SharedUsersShareGrants`,
  and the exact condition in `AclTheory.EntitledExactlyWhen`).
- The comment on the ACL generator (bus/auth/mqtt_acl.go:67-72) says that external parties only write and
  that the monitor does not write reply topics; the code also lets external parties read
  their reply topic and the monitor write reply topics. The model follows the code.
- docs/orvd_integration.md:226 gives the preflight timeout a value 0 for "none". The machine
  has that case; whether a configured 0 gets there is up to the configuration loader, which
  is not part of this model.
- The "empty_wpl" rejection, the two defensive exits of the geofence recalculation and the
  full-channel branch of the bus are dead code (`WplTheory.EmptyWplIsDead`,
  `Geofence.DefensiveExitsAreDead`, `CorrelationTheory.RepliesAreOwn`).

## Model

| member | source | states |
|---|---|---|
| `EmergencyLatch.EmergencyCascadeLatches` | emergency/src/emergency.go:154-208 | from any policy table: the cascade published in order, once the monitor and then the actuators have read as many messages as were waiting for them, leaves motors landing with the last simulator command for this drone straight down at 0.5 m/s, cargo closed, in every continuation without an accepted ISOLATION_END, whatever else is sent |
| `EmergencyLatch.LatchHolds` | security_monitor/src/isolation.go:10-36 | the same from the monitor's side: once it has read isolation, close and land in order, with anything in between |
| `EmergencyLatch.IsolatedOutput` | security_monitor/src/proxy_handlers.go:57-84 | while isolated, one step publishes at most one message; to the motors only LAND, to the cargo bay only CLOSE, under the monitor's name |
| `EmergencyLatch.CascadeTakesHold` | security_monitor/src/isolation.go:81-111 | reading the cascade in order isolates the monitor and bounds both actuator queues by a final LAND and CLOSE |
| `EmergencyLatch.BoundsRunDown` | motors/src/motors.go:101-138 | each actuator read brings the bound one message nearer; at zero the actuator is in its safe state and stays there |
| `EmergencyLatch.FifoConservation` | security_monitor/src/proxy_handlers.go:57-84 | queued plus arrived equals read plus still queued, in order, over every run |
| `EmergencyLatch.SentCascadeArrives` | emergency/src/emergency.go:171-203 | a cascade sent in order arrives in order, whatever arrives in between |
| `EmergencyLatch.JournalMeaning` | emergency/src/emergency.go:198-205 | the last message of the cascade asks for a journal entry |
| `MonitorTheory.TwoTableRefinement` | security_monitor/src/policy_store.go:76-151 | in every reachable state the active table is the emergency set if isolated and otherwise the fold of all admin edits; mode, version and last-seen times are functions of the history alone |
| `MonitorTheory.IsolationTransparent` | security_monitor/src/isolation.go:38-51 | in NORMAL the table is the one that would exist had isolation never happened |
| `MonitorTheory.ForwardsExactlyTheGoverned` | security_monitor/src/proxy_handlers.go:23-84 | a proxy message is forwarded exactly when the abstract table holds its triple, once, data untouched; nothing else reaches a component |
| `MonitorTheory.VersionDiscipline` | security_monitor/src/isolation.go:22-79 | over every run the version is odd exactly in NORMAL and is one plus the number of transition journal messages |
| `MonitorTheory.RepeatedRequestsAreIdle` | security_monitor/src/isolation.go:81-145 | repeated ISOLATION_START, ISOLATION_END or watchdog checks change nothing and log nothing |
| `MonitorTheory.WatchdogSound` | security_monitor/src/security_monitor.go:182-211 | after a check NORMAL only if limiter and emergency were both heard within the timeout; a NORMAL monitor is isolated exactly when one was not |
| `MonitorTheory.LastHeardIsHeard` | security_monitor/src/security_monitor.go:203-211 | the recorded time is that of the latest proxy or heartbeat message of the sender |
| `MonitorMessages.MessageRefinement` | security_monitor/src/policy_store.go:87-151 | over every history of messages and checks: the normal table is the initial one edited as set_policy, remove_policy and clear_policies of the admin say, by action and payload fields; the mode is what ISOLATION_START, ISOLATION_END and silent senders make it; in isolation exactly the six named policies are active, otherwise the normal table; the last-seen times are those of proxy and heartbeat messages |
| `MonitorMessages.TableHistoryIsUnique` | security_monitor/src/policy_store.go:87-151 | the edits leave no choice of tables |
| `MonitorMessages.MessageForwarding` | security_monitor/src/proxy_handlers.go:9-84 | proxy_request and proxy_publish forward the data to the requested topic exactly when the active table holds caller, topic and action; nothing else is forwarded |
| `MonitorMessages.MessageSwitches` | security_monitor/src/isolation.go:81-145 | who may send a mode message, the safety state it records and the journal entry |
| `MonitorMessages.MessageReplies` | security_monitor/src/policy_store.go:87-151 | what the admin and others are answered |
| `MonitorMessages.MessageQueries` | security_monitor/src/security_monitor.go:145-157 | queries answer and change nothing; an action without a handler changes nothing |
| `MonitorMessages.CheckNames` | security_monitor/src/security_monitor.go:182-201 | a watchdog isolation names the first unheard sender, the limiter before the emergency component |
| `MonitorMessages.JournalMessageMeans` | security_monitor/src/isolation.go:53-79 | the journal entry of a transition, field by field |
| `SecurityMonitor.Monitor.constructor` | security_monitor/src/security_monitor.go:64-143 | the initial tables are equal and do not alias; NORMAL, version one |
| `SecurityMonitor.Monitor.EnterIsolatedLocked` | security_monitor/src/isolation.go:22-36 | replaces the active table by a fresh emergency table, leaves the normal one; false and unchanged if already isolated |
| `SecurityMonitor.Monitor.EnterNormalLocked` | security_monitor/src/isolation.go:38-51 | the active table becomes a fresh copy of the normal one; false and unchanged if already normal |
| `SecurityMonitor.Monitor.IsolationStart` | security_monitor/src/isolation.go:81-111 | new state, journal message and reply, with the refusal of other senders |
| `SecurityMonitor.Monitor.IsolationEnd` | security_monitor/src/isolation.go:113-145 | new state, journal message and reply, with the refusal of other senders |
| `SecurityMonitor.Monitor.SetPolicy` | security_monitor/src/policy_store.go:87-110 | both tables in NORMAL, only the normal one in isolation; the refusals |
| `SecurityMonitor.Monitor.RemovePolicy` | security_monitor/src/policy_store.go:112-136 | as SetPolicy, and whether the policy existed |
| `SecurityMonitor.Monitor.ClearPolicies` | security_monitor/src/policy_store.go:138-151 | empties what SetPolicy fills and reports how many there were |
| `SecurityMonitor.Monitor.ProxyForward` | security_monitor/src/proxy_handlers.go:23-84 | records the sender, forwards exactly what the active table allows, tables untouched |
| `SecurityMonitor.Monitor.SafetyHeartbeat` | security_monitor/src/isolation.go:147-154 | records the sender and nothing else |
| `SecurityMonitor.Monitor.CheckHeartbeatTimeout` | security_monitor/src/security_monitor.go:182-201 | isolates on a stale watched sender, and only then |
| `SecurityMonitor.Monitor.HandleMessage` | security_monitor/src/security_monitor.go:145-157 | a message from the bus is one step of the machine; what that step is, action by action, is in `MonitorMessages` |
| `SecurityMonitor.PolicyTable.Clone` | security_monitor/src/policy_store.go:54-60 | a fresh table with the same policies |
| `ActuatorSpec.MotorsStayInEnvelope` | motors/src/motors.go:101-247 | whatever is sent, every published command is within the limits and names this drone; in mode landing the last one is straight down at 0.5 m/s, in mode tracking it carries out the last target, key by key |
| `ActuatorSpec.TargetIsTracked` | motors/src/motors.go:173-215 | which key feeds which speed, and heading with ground speed when neither horizontal speed is given |
| `ActuatorSpec.SanitizeMeans` | motors/src/motors.go:227-247 | a payload is accepted exactly when its known keys hold numbers and a flag and there is one, and keeps exactly those |
| `ActuatorSpec.JournalTellsTheDoor` | cargo/src/cargo.go:78-118 | over every run the door is where the last trusted command put it, and the journal is a gap-free chain of real changes ending there |
| `Actuators.SanitizeTarget` | motors/src/motors.go:227-247 | the known keys with their numbers, or the error for the first bad one |
| `Actuators.Motors.HandleSetTarget` | motors/src/motors.go:101-125 | new mode, target and published command that carries it out; nothing for other senders or bad targets |
| `Actuators.Motors.HandleLand` | motors/src/motors.go:127-138 | landing, and the command straight down at 0.5 m/s published |
| `Actuators.Cargo.Handle` | cargo/src/cargo.go:98-118 | the door by action and sender, its time stamp, and a journal entry only on change |
| `Interval.AcceptedAreSpaced` | component/src/loop.go:21-27 | accepted calls are at least the interval apart, on any clock |
| `Interval.RateBound` | component/src/loop.go:21-27 | a window of length w admits at most floor(w / interval) + 1 |
| `Interval.Stamp.ShouldRun` | component/src/loop.go:21-27 | the gate, writing through its cell |
| `TelemetryTheory.TelemetryRate` | limiter/src/opbd_client.go:336-373 | on the wire: in any stretch of any run whose ticks fall into a window of length w, the telemetry calls are at most floor(w / interval) + 1, and one more for each takeoff granted in it |
| `TelemetryTheory.PollRate` | limiter/src/limiter.go:168-183 | the bound of the gate for the polls of the control loop |
| `TelemetryTheory.CallsAreWithinPolls` | limiter/src/opbd_client.go:243-304 | every telemetry call of a run belongs to a poll or to a granted takeoff |
| `TelemetryTheory.OrdersAreObeyed` | limiter/src/opbd_client.go:336-398 | over every run each ordered landing is at once reported as an incident and published with its reason, each revocation is published, and no other event is |
| `TelemetryTheory.InputsAreCarriedOut` | limiter/src/limiter.go:392-409 | a revocation lowers the flag and is on the trace; due telemetry in flight is sent |
| `LimiterTheory.HandshakeOverRuns` | limiter/src/limiter.go:219-276 | over every run of a connected limiter: AUTHORIZED means stored mission, id and bounds agree and the three replies, the second for the very route of that mission, are on the wire trace in order after the latest load; at most one successful drone registration; the takeoff flag is up exactly while a grant is newer than the last in-bounds load, revocation or completion |
| `LimiterTheory.AuthorizedRouteIsWhole` | limiter/src/opbd_client.go:57-73 | over every run AUTHORIZED means the registered route holds every step of the stored mission, in order |
| `LimiterTheory.ClearanceIsForTheMission` | limiter/src/limiter.go:327-365 | over every run of safe requests a raised flag means a grant in force for the stored mission, also while a later load stands refused |
| `LimiterTheory.SafeRequestsExactly` | limiter/src/limiter.go:327-365 | after such a run a takeoff request keeps that, under every clock, position and answer, if and only if it is safe: it names the recorded mission or none, or the flag is up, or the mission is not AUTHORIZED |
| `LimiterTheory.RequestIsSafeExactly` | limiter/src/opbd_client.go:243-304 | the same equivalence in every state that satisfies the handshake facts |
| `LimiterTheory.ForeignGrantRaisesTheFlag` | limiter/src/opbd_client.go:243-304 | any unsafe request, once granted, raises the flag with no grant for the stored mission in force |
| `LimiterTheory.LoadMeans` | limiter/src/limiter.go:219-276 | status, stored mission, phase and flag after a load, by bounds and answers |
| `LimiterTheory.TakeoffAnswers` | limiter/src/limiter.go:327-365 | when a takeoff request is answered positively and when the air traffic system is asked |
| `LimiterTheory.CompletionMeans` | limiter/src/opbd_client.go:306-334 | which mission a completion is for and when it ends the clearance |
| `Limiter.Limiter.RunMissionLoad` | limiter/src/opbd_client.go:86-241 | the three calls, each only after the one before, with phase, flag and trace |
| `Limiter.Limiter.HandleMissionLoad` | limiter/src/limiter.go:219-276 | the whole new state; ok exactly when the mission ends up authorized |
| `Limiter.Limiter.HandleOrvdTakeoff` | limiter/src/limiter.go:327-365 | the whole new state and the answer |
| `Limiter.Limiter.RequestTakeoff` | limiter/src/opbd_client.go:243-304 | one request unless already cleared for this id; flag and phase on a grant |
| `Limiter.Limiter.SendTelemetry` | limiter/src/opbd_client.go:336-373 | sent only in flight; an ordered landing is reported and published |
| `Limiter.Limiter.HandleOrvdComplete` | limiter/src/limiter.go:367-390 | the flag falls on a confirmed completion |
| `Limiter.Limiter.HandleRevokeTakeoff` | limiter/src/limiter.go:392-409 | the flag falls and the emergency is published |
| `Limiter.Limiter.HandleUpdateConfig` | limiter/src/limiter.go:283-325 | positive offers replace limits, those under "constraints" last |
| `Limiter.Limiter.RecalculateZone` | limiter/src/limiter.go:452-528 | the zone of the current deviation, as `Geofence.BandsMean` spells it out, and alarms only on entry into EMERGENCY |
| `Missions.ValidateMissionBounds` | limiter/src/orvd.go:103-127 | accepts exactly the missions in bounds; otherwise the first faulty step, and each fault says what is wrong with it |
| `Missions.RouteIsComplete` | limiter/src/opbd_client.go:57-73 | no waypoint of an accepted mission is lost from its route |
| `Geofence.SeverityIsMonotone` | limiter/src/limiter.go:478-487 | more distance, more deviation or tighter limits are never less severe |
| `Geofence.GuardedOverRuns` | limiter/src/limiter.go:283-298 | limits stay positive and the guarded mission in bounds, over every run |
| `Geofence.DefensiveExitsAreDead` | limiter/src/limiter.go:452-476 | with a mission and a position there is always a target to compare with |
| `Geofence.AlarmsAreEntries` | limiter/src/limiter.go:452-528 | over any history the geofence alarms are as many as the entries of the band sequence into EMERGENCY |
| `Geofence.BandsMean` | limiter/src/limiter.go:452-499 | over every run a tick with mission and position ends in EMERGENCY exactly when the distance to the last step or the height deviation exceeds its own limit in force, in NORMAL exactly when both are within half of their own; an entry is reported with these distances |
| `Geofence.LimitsInForce` | limiter/src/limiter.go:283-298 | the limits in force are the last positive offers of the history, those under "constraints" first |
| `Geofence.ZoneScales` | limiter/src/limiter.go:481-488 | each distance counts against its own limit: scaling the two together changes nothing |
| `DronePortReply.WrappingIsInvisible` | emergency/src/droneport.go:93-129 | up to five silent layers change neither body nor verdicts; what six and more do |
| `DronePortReply.ErrorIsNeverApproved` | emergency/src/droneport_client.go:52-86 | a body with an error is never approved, at any depth |
| `DronePortReply.UnwrapDroneportBody` | emergency/src/droneport.go:93-129 | the loop finds the body that layer-by-layer unwrapping does |
| `DronePortReply.UnwrapMeans` | emergency/src/droneport.go:93-129 | which keys stop the unwrapping and what is unwrapped next |
| `DronePortTheory.SessionOverRuns` | emergency/src/droneport_client.go:140-342 | DEPARTED exactly when the latest approved operation is a takeoff, CHARGING only after a landing; approved takeoffs are separated by approved landings; every takeoff request follows a reply without error that has an entry of this drone with a battery reading above the minimum |
| `DronePortTheory.AskedInTheSameCall` | emergency/src/droneport_client.go:244-342 | and that reply came in the same call |
| `DronePortTheory.UnlistedStays` | emergency/src/droneport_client.go:244-342 | the converse: without such an entry no takeoff is requested and nothing is cleared that had not departed |
| `DronePortTheory.UnlistedLands` | emergency/src/droneport_client.go:284-306 | an unlisted drone that is not charging asks to land, and charges exactly when approved |
| `DronePortTheory.DepartedMeans` | emergency/src/droneport_client.go:244-282 | a departed drone is cleared again for its mission and no other |
| `DronePortTheory.ApprovalsMean` | emergency/src/droneport_client.go:52-86 | what counts as an approval, by key |
| `DronePortTheory.ChargeMeans` | emergency/src/droneport_client.go:176-205 | ready, unknown, still charging or timed out, and what happens to the wait |
| `DronePortTheory.PostLandingMeans` | emergency/src/droneport_client.go:344-382 | one landing request, charging exactly when approved |
| `DronePortTheory.PortsMean` | emergency/src/droneport_client.go:140-242 | the port is the one the approval names |
| `DronePortTheory.BoundedWait` | emergency/src/droneport_client.go:176-205 | a stretch of pending answers ends within the whole-second charge timeout of its first answer |
| `Emergency.Emergency.HandleLimiterEvent` | emergency/src/emergency.go:154-208 | publishes the cascade in order up to the first failure; active exactly after a complete one |
| `Emergency.AlarmMeans` | emergency/src/emergency.go:154-165 | what counts as an alarm, by sender and event |
| `Emergency.LimiterAlarmIsHeard` | limiter/src/limiter.go:520-527 | what the limiter publishes is one, once forwarded |
| `Emergency.Emergency.IsDroneReady` | emergency/src/droneport_client.go:110-138 | ready exactly when the reply, unwrapped and without error, has an entry of this drone with a battery reading above the minimum |
| `Emergency.Emergency.RunLanding` | emergency/src/droneport_client.go:140-174 | the call, the phase and port on approval, the refusal otherwise |
| `Emergency.Emergency.RunTakeoff` | emergency/src/droneport_client.go:207-242 | the call, the phase and port on approval, the refusal otherwise |
| `Emergency.Emergency.CheckChargeReady` | emergency/src/droneport_client.go:176-205 | the timed wait: recorded once, cleared when charged or timed out |
| `Emergency.Emergency.RunPreflight` | emergency/src/droneport_client.go:244-342 | session state and verdict of one preflight call |
| `Emergency.Emergency.RunPostMissionLand` | emergency/src/droneport_client.go:344-382 | session state after the landing request |
| `AutopilotTheory.ReachableStates` | autopilot/src/autopilot.go:40-48 | IDLE holds no mission; IDLE, COMPLETED and EMERGENCY_STOP have the override off; MISSION_LOADED, PRE_FLIGHT and COMPLETED hold a mission; the index fits it; COMPLETED means it ran to the end |
| `AutopilotTheory.StartFromIdleIsRefused` | autopilot/src/autopilot.go:255-261 | no reachable IDLE state accepts START |
| `AutopilotTheory.WaypointsInOrder` | autopilot/src/autopilot.go:577-614 | index k means k ticks since the latest load, in order, each executing and within two metres of steps 0 to k-1; COMPLETED means all of them |
| `AutopilotTheory.ProgressStep` | autopilot/src/autopilot.go:534-614 | one input moves the index on by one exactly when it reaches the current step, to zero on load or reset, and otherwise not |
| `AutopilotSpec.NearIsTwoMetres` | autopilot/src/autopilot.go:587-596 | the squared comparison is the comparison of the length with two metres |
| `AutopilotTheory.MissionCompletesOnce` | autopilot/src/autopilot.go:560-614 | without the override every loaded mission completes at most once |
| `AutopilotTheory.NoticesFollowCompletion` | autopilot/src/autopilot.go:402-457 | the landing request and the completion report go out together, in this order, right after completion |
| `AutopilotTheory.StopQuiescence` | autopilot/src/autopilot.go:534-576 | after EMERGENCY_STOP, RESET or ABORT no tick sends anything until KOVER or a newly passed preflight |
| `AutopilotTheory.PreflightIsBounded` | autopilot/src/autopilot.go:459-479 | still in PRE_FLIGHT after a tick, the timeout since the last START has not passed |
| `AutopilotTheory.StartRestartsTheClock` | autopilot/src/autopilot.go:262-265 | no bound runs from the first START: whatever the timeout, a history that starts a mission at time zero is in PRE_FLIGHT after a tick at any later time |
| `AutopilotTheory.ClimbIsLimited` | autopilot/src/autopilot.go:665-683 | at most three metres a second, towards the target height, zero exactly within the dead band |
| `AutopilotActs.ActsMean` | autopilot/src/autopilot.go:534-649 | for every input in any state what is sent, field by field: a leg with climb towards the step, heading and speed for it, the drone's own place and the door of that step; standing still; the descent of the override; the notices of completion |
| `AutopilotActs.EveryLegAims` | autopilot/src/autopilot.go:615-630 | over every run each leg was sent by a tick executing a mission, not yet at the current step, and aims there |
| `AutopilotActs.CommandsMean` | autopilot/src/autopilot.go:40-48 | the command table |
| `AutopilotActs.LoadMeans` | autopilot/src/autopilot.go:213-239 | mission, first step and state after a load |
| `AutopilotActs.OverrideEnds` | autopilot/src/autopilot.go:632-649 | the override ends exactly at half a metre or less |
| `AutopilotActs.PreflightMeans` | autopilot/src/autopilot.go:346-532 | by the answers: when a preflight passes, waits, or aborts and with which error |
| `AutopilotActs.TimeoutMeans` | autopilot/src/autopilot.go:459-479 | a preflight out of time aborts, whatever is answered |
| `Autopilot.Autopilot.HandleMissionLoad` | autopilot/src/autopilot.go:213-239 | the whole new state |
| `Autopilot.Autopilot.HandleCmd` | autopilot/src/autopilot.go:241-319 | the whole new state for each command, allowed or not |
| `Autopilot.Autopilot.CheckGates` | autopilot/src/autopilot.go:346-439 | the first of the three gates that is not open decides |
| `Autopilot.Autopilot.RunPreFlight` | autopilot/src/autopilot.go:459-532 | timeout, wait, refusal or passage, with the recorded error |
| `Autopilot.Autopilot.FlyMission` | autopilot/src/autopilot.go:560-630 | one waypoint step: leg, hold, next step or completion, as `AutopilotActs.ActsMean` spells it out |
| `Autopilot.Autopilot.Descending` | autopilot/src/autopilot.go:632-649 | the override descends and ends near the ground |
| `Autopilot.Autopilot.SafeActuatorStop` | autopilot/src/autopilot.go:685-694 | hold where the drone is and close the bay |
| `Autopilot.Autopilot.ControlTick` | autopilot/src/autopilot.go:176-197 | poll, then one control step |
| `MissionHandler.ValidateMission` | mission_handler/src/mission_handler.go:188-216 | valid exactly when well formed; otherwise the first step that lacks something, and what |
| `MissionHandler.LimiterFirst` | mission_handler/src/mission_handler.go:125-150 | what reaches the autopilot had reached the limiter; it was accepted there unless the answer had no payload |
| `MissionHandler.BoundsImplyStructure` | limiter/src/orvd.go:103-127 | what passes the bounds, with an id, passes the structural check |
| `MissionHandler.MissionHandler.HandleLoadMission` | mission_handler/src/mission_handler.go:92-172 | what is sent and in which order, the recorded mission and error, and when the answer is ok |
| `ClearanceTheory.EndToEndClearance` | autopilot/src/autopilot.go:459-630 | in every run of the composed system without KOVER, each flight leg and cargo opening belongs to a mission in bounds, loaded last, whose preflight passed since; that preflight saw the limiter AUTHORIZED for the same id, the handshake for the stored mission and a takeoff grant newer than the latest load, revocation and completion on the wire, and the DronePort session departed; the leg flies at the height of a step of that mission |
| `ClearanceTheory.LegsStayBelowTheCeiling` | limiter/src/orvd.go:103-127 | every leg is between the ground and the limiter's ceiling |
| `ClearanceTheory.OpenGates` | autopilot/src/autopilot.go:346-439 | a preflight pass that finds all gates open leaves that evidence with limiter and session |
| `ClearanceTheory.NextInv` | mission_handler/src/mission_handler.go:92-172 | every move of the composed system, with requests lost, unanswered, late or repeated, keeps the facts the clearance rests on |
| `ClearanceRoutes.MatchedExactlyWhen` | autopilot/src/autopilot.go:346-374 | for any set of missions that may be submitted: in all runs every preflight passes with the limiter storing the very mission that is flown, if and only if no id stands for two acceptable missions, or no session can depart |
| `ClearanceRoutes.MatchedOverRuns` | limiter/src/limiter.go:219-276 | one half of it, over every run |
| `ClearanceRoutes.AmbiguousRun` | mission_handler/src/mission_handler.go:125-150 | the other half: for any two acceptable missions with one id, a run that flies the first while the limiter stores the second |
| `ClearanceGrants.OwnGrantsExactlyWhen` | limiter/src/limiter.go:327-365 | for any set of missions that may be submitted and of names late takeoff requests may carry: in all runs every preflight passes on a grant for the mission the limiter stores, if and only if no late request can name another mission than the acceptable ones, or nothing can pass |
| `ClearanceGrants.GrantsOverRuns` | autopilot/src/autopilot.go:376-400 | one half of it, over every run |
| `ClearanceGrants.ForeignGrantRun` | limiter/src/opbd_client.go:243-304 | the other half: for any acceptable mission and any other name, a run whose preflight passes on the grant for that name |
| `ClearanceWitness.SomeRunDelivers` | autopilot/src/autopilot.go:213-319 | a run of the connected system, nothing mocked, that loads, passes with the full evidence, flies a leg and opens the bay |
| `CorrelationTheory.RepliesAreOwn` | bus/src/mqtt/bus.go:78-97 | under every interleaving, whatever the ids: a request is given at most one message, the first with its id after it began, and nothing is lost to a full channel |
| `CorrelationTheory.CorrelationOverRuns` | bus/src/kafka/bus.go:136-167 | under every interleaving with fresh ids a live request is listed exactly while no reply has come and then has its first reply; a finished one leaves no entry |
| `CorrelationTheory.TableIsUnanswered` | bus/src/kafka/bus.go:238-256 | with fresh ids the table is exactly the live requests without a reply |
| `CorrelationTheory.DistinctIdsAreFresh` | bus/src/kafka/bus.go:244-248 | ids that are pairwise distinct are fresh |
| `CorrelationTheory.LateRepliesAreHandled` | bus/src/kafka/bus.go:144-163 | late and duplicate replies go to the topic's handler and touch no request |
| `CorrelationTheory.FreshIdsAreNeeded` | bus/src/kafka/bus.go:244-253 | starting a request is safe in every continuation exactly when no live request has its id |
| `CorrelationTheory.CollisionOrphans` | bus/src/mqtt/bus.go:205-214 | with a shared id there is a continuation that leaves a live request without entry or reply |
| `Correlation.Bus.Claim` | bus/src/kafka/bus.go:144-157 | look-up and delete in one step |
| `Correlation.Bus.Dispatch` | bus/src/kafka/bus.go:143-163 | a consumer's whole turn with a message |
| `Correlation.Bus.ConsumeClaim` | bus/src/kafka/bus.go:136-167 | the consumer loop |
| `Correlation.Bus.Request` | bus/src/kafka/bus.go:238-272 | whatever its id: returns the first incoming message with that id unless publishing failed or the wait ended, and leaves no entry; with a fresh id the table stays exact |
| `AclTheory.CompilationPreservesMeaning` | bus/auth/mqtt_acl.go:73-123 | reading the generated text line by line grants exactly the intended relation, for any names free of line breaks |
| `AclTheory.OwnGrantsOnly` | bus/auth/mqtt_acl.go:67-123 | with a username of its own a party gets what it is entitled to and no more |
| `AclTheory.EntitledExactlyWhen` | bus/auth/mqtt_acl.go:52-123 | a party is granted its entitlement and nothing else if and only if everyone with its username is entitled to no more |
| `AclTheory.SharedUsersShareGrants` | bus/auth/mqtt_acl.go:52-57 | with a shared username it gets the other's grants too |
| `AclTheory.NothingForAnonymous` | bus/auth/mqtt_acl.go:81-121 | no grant precedes a user line |
| `AclTheory.OrderAndRepetitionDoNotMatter` | bus/auth/mqtt_acl.go:73-123 | same names and bindings in any order and number, same meaning |
| `AclTheory.TextIsCanonical` | bus/auth/mqtt_acl.go:74-75 | components in another order give the very same file |
| `AclTheory.TopicsMeetTheBus` | bus/auth/mqtt_acl.go:59-65 | the topics of the file are those of the bus |
| `Acl.GenerateAcl` | bus/auth/mqtt_acl.go:73-123 | the loops print that program, and the text means the intended relation |
| `Acl.Slug` | bus/auth/mqtt_acl.go:31-50 | never empty, only letters, digits and underscores |
| `Acl.SlugOfName` | bus/auth/mqtt_acl.go:31-50 | letters and digits are kept, the rest of a name becomes underscores |
| `Acl.DefaultUsernameOf` | bus/auth/mqtt_acl.go:27-29 | the username of plain names |
| `Acl.DefaultUsernames` | bus/auth/mqtt_acl.go:27-29 | free of line breaks; shared exactly when the slugs agree |
| `Acl.SlugsCollide` | bus/auth/mqtt_acl.go:31-50 | `a-b` and `a_b` share their slug and their default username |
| `Acl.BrokerUsers` | bus/auth/mqtt_acl.go:126-139 | every username exactly once, in ascending order |
| `WplParser.ParseWpl` | mission_handler/src/wpl_parser.go:13-89 | the outcome of a file: the reason of rejection, or home and numbered steps |
| `WplParser.ParseRow` | mission_handler/src/wpl_parser.go:36-57 | what one row says, with tabs or white space between columns |
| `WplTheory.RoundTrip` | mission_handler/src/wpl_parser.go:34-89 | a printed home row and any waypoints, with tabs or spaces, parse to the same home and coordinates in order |
| `WplTheory.AcceptedIsWellFormed` | mission_handler/src/mission_handler.go:188-216 | every accepted file passes the structural check and its step ids are pairwise distinct |
| `WplTheory.FirstBadRowIsNamed` | mission_handler/src/wpl_parser.go:36-51 | a rejection names row i exactly when i is the first bad row of a file with a header |
| `WplTheory.ParsesIsAFunction` | mission_handler/src/wpl_parser.go:13-89 | the specification allows one outcome for a file |
| `WplTheory.EmptyWplIsDead` | mission_handler/src/wpl_parser.go:14-28 | a file that is not blank has a line |
| `WplTheory.HeaderInAnyCase` | mission_handler/src/wpl_parser.go:29-32 | the header is recognized in any case |
| `WplTheory.MissionOfWaypoints` | mission_handler/src/wpl_parser.go:60-67 | speed and drop of accepted waypoints |
| `Numerals.Pad3` | mission_handler/src/wpl_parser.go:91-97 | at least three digits that stand for the number |
| `Numerals.AtoiSigned` | mission_handler/src/wpl_parser.go:44-52 | signs are read and numbers out of range are not |

## Left out

- Races inside a handler or tick: each is one step; a load that falls between the queries of a preflight and its commit is not modelled.
- Delivery through the monitor in the composed clearance path: components ask each other directly, and a request may be lost, late or repeated; that only the mission handler loads missions and only the autopilot asks for takeoff is taken from the shipped policies (security_monitor/security_monitor.env:7).
- `ClearanceTheory.EndToEndClearance`: runs with KOVER are excluded, because the override enters EXECUTING without a preflight.
- An answer of the limiter without a payload in the composed path: its load handler puts a payload into every answer (limiter/src/limiter.go:219-276).
- `WplTheory.RoundTrip`: the number of waypoints fits a 64-bit index, and the printer writes coordinates that the fraction reader reads back, as words.
- `MonitorTheory.VersionDiscipline`: the version is unbounded where the code has 64 bits.
- `AclTheory.CompilationPreservesMeaning`: topics are read literally; with wildcard characters in names a broker would grant more than the text says.
- Rounding, NaN and infinities, trigonometry, the great-circle formula, the battery-string scan: parameters or real arithmetic.
- Letter case and blanks of commands and reply statuses: they enter decoded.
- Broker failures of publish calls other than those of the emergency cascade and of bus requests.
- Journal entries other than mode transitions, door changes and the autopilot's milestones; battery fields and the cargo state kept by the autopilot.
- `applyORVDConstraints` (limiter/src/orvd.go:148-161), which nothing in the services calls.
- The validate-only and state-reading handlers, `handleDroneportEvent`, the navigation, telemetry and journal services: field copying.
- Environment and configuration loading, policy decoding with placeholders, connection set-up, authentication, JSON encoding, analytics and the regulator client.
- The handler tables of the buses: a message nobody waits for counts as handled, whether or not its topic has a handler.
