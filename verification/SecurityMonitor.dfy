/** The security monitor as the object that runs: two policy tables on the heap,
    a safety state, and handlers that update them in place. */
module SecurityMonitor {
  import opened Common
  import opened MonitorSpec

  /** A policy table. Tables are shared by reference, so the two tables of the
      monitor must be two objects. */
  class PolicyTable {
    var keys: set<PolicyKey>

    constructor ()
      ensures keys == {}
    {
      keys := {};
    }

    method Put(k: PolicyKey)
      modifies this
      ensures keys == old(keys) + {k}
    {
      keys := keys + {k};
    }

    method Delete(k: PolicyKey)
      modifies this
      ensures keys == old(keys) - {k}
    {
      keys := keys - {k};
    }

    /** A table with the same entries that shares nothing with this one. */
    method Clone() returns (t: PolicyTable)
      ensures fresh(t) && t.keys == keys
    {
      t := new PolicyTable();
      var todo := keys;
      while todo != {}
        invariant fresh(t) && t.keys + todo == keys
        decreases todo
      {
        var k :| k in todo;
        t.Put(k);
        todo := todo - {k};
      }
    }
  }

  class Monitor {
    const config: Config
    var policies: PolicyTable
    var normalPolicies: PolicyTable
    var safety: Safety
    var lastSeen: map<string, int>
    var outbox: seq<Output>

    /** The two tables never alias. */
    ghost predicate Valid()
      reads this
    {
      policies != normalPolicies
    }

    ghost function Now(): State
      reads this, policies, normalPolicies
    {
      State(policies.keys, normalPolicies.keys, safety, lastSeen)
    }

    ghost function Tables(): set<object>
      reads this
    {
      {policies, normalPolicies}
    }

    constructor (config: Config, initial: PolicyTable, now: int)
      ensures Valid() && fresh(Tables())
      ensures this.config == config && Now() == Initial(initial.keys, now) && outbox == []
    {
      this.config := config;
      var active := initial.Clone();
      var normal := initial.Clone();
      policies, normalPolicies := active, normal;
      safety := InitialSafety(now);
      lastSeen := map[];
      outbox := [];
    }

    method EmergencyTable() returns (t: PolicyTable)
      ensures fresh(t) && t.keys == EmergencyPolicies(config)
    {
      t := new PolicyTable();
      t.keys := EmergencyPolicies(config);
    }

    method EnterIsolatedLocked(reason: string, source: string, now: int) returns (changed: bool)
      requires Valid()
      modifies this
      ensures Valid() && fresh(Tables() - old(Tables())) && outbox == old(outbox)
      ensures Now() == EnterIsolated(config, old(Now()), reason, source, now)
      ensures changed <==> old(safety).mode.Normal?
    {
      if safety.mode == Isolated {
        return false;
      }
      policies := EmergencyTable();
      safety := safety.(mode := Isolated, reason := reason, source := source,
                        version := safety.version + 1, transitionId := now,
                        activatedAt := now, lastTransitionAt := now);
      return true;
    }

    method EnterNormalLocked(reason: string, source: string, now: int) returns (changed: bool)
      requires Valid()
      modifies this
      ensures Valid() && fresh(Tables() - old(Tables())) && outbox == old(outbox)
      ensures Now() == EnterNormal(old(Now()), reason, source, now)
      ensures changed <==> old(safety).mode.Isolated?
    {
      if safety.mode == Normal {
        return false;
      }
      policies := normalPolicies.Clone();
      safety := safety.(mode := Normal, reason := reason, source := source,
                        version := safety.version + 1, transitionId := now, lastTransitionAt := now);
      return true;
    }

    method IsolationStart(sender: string, reason: string, now: int) returns (reply: Reply)
      requires Valid()
      modifies this
      ensures Valid() && fresh(Tables() - old(Tables()))
      ensures var o := HandleIsolationStart(config, old(Now()), sender, reason, now);
        Now() == o.state && outbox == old(outbox) + o.sent && reply == o.reply
    {
      if sender == "" {
        return Error("forbidden");
      }
      if sender != "emergency" && !CanManage(config, sender) {
        return Error("forbidden");
      }
      var why := "manual_isolation";
      if reason != "" {
        why := reason;
      }
      var changed := EnterIsolatedLocked(why, sender, now);
      if changed {
        outbox := outbox + [ModeLog(safety)];
      }
      reply := Transition(changed, safety);
    }

    method IsolationEnd(sender: string, reason: string, now: int) returns (reply: Reply)
      requires Valid()
      modifies this
      ensures Valid() && fresh(Tables() - old(Tables()))
      ensures var o := HandleIsolationEnd(config, old(Now()), sender, reason, now);
        Now() == o.state && outbox == old(outbox) + o.sent && reply == o.reply
    {
      if sender == "" {
        return Error("forbidden");
      }
      if sender != "emergency" && !CanManage(config, sender) {
        return Error("forbidden");
      }
      var why := "manual_recovery";
      if reason != "" {
        why := reason;
      }
      var changed := EnterNormalLocked(why, sender, now);
      if changed {
        outbox := outbox + [ModeLog(safety)];
      }
      reply := Transition(changed, safety);
    }

    method SetPolicy(sender: string, policy: Option<PolicyKey>) returns (reply: Reply)
      requires Valid()
      modifies policies, normalPolicies
      ensures var o := HandleSet(config, old(Now()), sender, policy);
        Now() == o.state && reply == o.reply
    {
      if !CanManage(config, sender) {
        return Error("forbidden");
      }
      if policy == None {
        return Error("invalid_policy");
      }
      normalPolicies.Put(policy.value);
      if safety.mode == Normal {
        policies.Put(policy.value);
      }
      reply := Updated(policy.value);
    }

    method RemovePolicy(sender: string, policy: Option<PolicyKey>) returns (reply: Reply)
      requires Valid()
      modifies policies, normalPolicies
      ensures var o := HandleRemove(config, old(Now()), sender, policy);
        Now() == o.state && reply == o.reply
    {
      if !CanManage(config, sender) {
        return Error("forbidden");
      }
      if policy == None {
        return Error("invalid_policy");
      }
      var existed := policy.value in normalPolicies.keys;
      normalPolicies.Delete(policy.value);
      if safety.mode == Normal {
        policies.Delete(policy.value);
      }
      reply := Removed(existed, policy.value);
    }

    method ClearPolicies(sender: string) returns (reply: Reply)
      requires Valid()
      modifies this
      ensures Valid() && fresh(Tables() - old(Tables())) && outbox == old(outbox)
      ensures var o := HandleClear(config, old(Now()), sender);
        Now() == o.state && reply == o.reply
    {
      if !CanManage(config, sender) {
        return Error("forbidden");
      }
      var n := |normalPolicies.keys|;
      normalPolicies := new PolicyTable();
      if safety.mode == Normal {
        policies := new PolicyTable();
      }
      reply := Cleared(n);
    }

    method RecordSenderSeen(name: string, now: int)
      modifies this`lastSeen
      ensures lastSeen == RecordSeen(old(Now()), name, now).lastSeen
    {
      if name != "" {
        lastSeen := lastSeen[name := now];
      }
    }

    method SafetyHeartbeat(sender: string, now: int) returns (reply: Reply)
      modifies this`lastSeen
      ensures var o := HandleHeartbeat(old(Now()), sender, now);
        Now() == o.state && reply == o.reply
    {
      if sender != "limiter" && sender != "emergency" {
        return Error("forbidden");
      }
      RecordSenderSeen(sender, now);
      reply := Seen(sender);
    }

    /** Both proxy handlers: record the sender, check the active table, forward. */
    method ProxyForward(sender: string, name: string, target: Target, now: int) returns (reply: Reply)
      modifies this`lastSeen, this`outbox
      ensures var o := HandleProxy(old(Now()), sender, name, target, now);
        Now() == o.state && outbox == old(outbox) + o.sent && reply == o.reply
    {
      RecordSenderSeen(name, now);
      match target
      case NoPayload =>
        reply := Error("invalid_payload");
      case NoTarget =>
        reply := Error("invalid_target");
      case To(topic, action, data) =>
        if PolicyKey(sender, topic, action) !in policies.keys {
          return Error("forbidden");
        }
        outbox := outbox + [Forward(topic, Msg(action, SECURITY_MONITOR, Some(data)))];
        reply := Forwarded;
    }

    /** The handler that the action selects. */
    method Serve(r: Request, now: int) returns (reply: Reply)
      requires Valid()
      modifies this, policies, normalPolicies
      ensures Valid() && fresh(Tables() - old(Tables()))
      ensures var o := Handle(config, old(Now()), r, now);
        Now() == o.state && outbox == old(outbox) + o.sent && reply == o.reply
    {
      match r
      case Proxy(sender, name, target) => reply := ProxyForward(sender, name, target, now);
      case SetPolicy(sender, policy) => reply := SetPolicy(sender, policy);
      case RemovePolicy(sender, policy) => reply := RemovePolicy(sender, policy);
      case ClearPolicies(sender) => reply := ClearPolicies(sender);
      case ListPolicies =>
        var table := if safety.mode == Isolated then policies else normalPolicies;
        reply := Listing(safety.mode, table.keys);
      case IsolationStart(sender, reason) => reply := IsolationStart(sender, reason, now);
      case IsolationEnd(sender, reason) => reply := IsolationEnd(sender, reason, now);
      case IsolationStatus => reply := Status(safety);
      case SafetyHeartbeat(sender) => reply := SafetyHeartbeat(sender, now);
      case NoHandler => reply := Error("unknown_action");
    }

    /** A message from the bus: what the monitor does with it is one step of the
        machine, so every run of messages and watchdog checks is a run of it. */
    method HandleMessage(m: Msg, now: int) returns (reply: Reply)
      requires Valid()
      modifies this, policies, normalPolicies
      ensures Valid() && fresh(Tables() - old(Tables()))
      ensures var o := Step(config, old(Now()), Deliver(Read(m), now));
        Now() == o.state && outbox == old(outbox) + o.sent && reply == o.reply
    {
      reply := Serve(Read(m), now);
    }

    /** The watchdog loop over the two watched senders; the first silent one isolates. */
    method CheckHeartbeatTimeout(now: int)
      requires Valid()
      modifies this
      ensures Valid() && fresh(Tables() - old(Tables()))
      ensures var o := CheckHeartbeat(config, old(Now()), now);
        Now() == o.state && outbox == old(outbox) + o.sent
    {
      if config.heartbeatTimeout <= 0 {
        return;
      }
      if safety.mode == Isolated || config.failsafe != "isolate" {
        return;
      }
      var watched := ["limiter", "emergency"];
      var i := 0;
      while i < |watched|
        invariant 0 <= i <= |watched|
        invariant Now() == old(Now()) && Valid() && Tables() == old(Tables()) && outbox == old(outbox)
        invariant forall j :: 0 <= j < i ==> !Stale(Now(), watched[j], now, config.heartbeatTimeout)
      {
        var name := watched[i];
        if name !in lastSeen || now - lastSeen[name] > config.heartbeatTimeout {
          assert i == 0 || (i == 1 && !Stale(Now(), watched[0], now, config.heartbeatTimeout));
          var changed := EnterIsolatedLocked("heartbeat_timeout:" + name, SECURITY_MONITOR, now);
          if changed {
            outbox := outbox + [ModeLog(safety)];
          }
          return;
        }
        i := i + 1;
      }
      assert !Stale(Now(), watched[0], now, config.heartbeatTimeout)
          && !Stale(Now(), watched[1], now, config.heartbeatTimeout);
    }
  }
}
