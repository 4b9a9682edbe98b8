/** The monitor in terms of what is on the bus: action strings, senders and payload
    fields. Nothing here speaks of decoded requests except the proofs. */
module MonitorMessages {
  import opened Common
  import opened Text
  import opened MonitorSpec
  import opened MonitorTheory

  /** A message read from the bus, or a watchdog check. */
  datatype Event = Message(msg: Msg, now: int) | Check(now: int)

  function InputOf(e: Event): Input {
    match e
    case Message(m, now) => Deliver(Read(m), now)
    case Check(now) => Watchdog(now)
  }

  function Inputs(es: seq<Event>): (h: seq<Input>)
    ensures |h| == |es| && forall i :: 0 <= i < |es| ==> h[i] == InputOf(es[i])
  {
    seq(|es|, i requires 0 <= i < |es| => InputOf(es[i]))
  }

  // ---- what a message says ---------------------------------------------------------------

  predicate FromAdmin(c: Config, m: Msg) {
    c.admin != "" && m.sender == c.admin
  }

  predicate FromSwitcher(c: Config, m: Msg) {
    m.sender == "emergency" || FromAdmin(c, m)
  }

  /** A string field without surrounding blanks; anything else is blank. */
  function Word(b: Body, k: string): string {
    if k in b && b[k].Str? then TrimSpace(b[k].s) else ""
  }

  predicate NamesPolicy(m: Msg, key: PolicyKey) {
    && m.payload.Some?
    && key.sender == Word(m.payload.value, "sender") != ""
    && key.topic == Word(m.payload.value, "topic") != ""
    && key.action == Word(m.payload.value, "action") != ""
  }

  predicate IsProxyMessage(m: Msg) {
    m.action == "proxy_request" || m.action == "proxy_publish"
  }

  /** A nameless sender of a proxy message is called unknown. */
  function Caller(m: Msg): string {
    if m.sender == "" then "unknown" else m.sender
  }

  /** A proxy message that asks for an action at a topic, with data. */
  predicate Requests(m: Msg, topic: string, action: string, data: Body) {
    && IsProxyMessage(m) && m.payload.Some?
    && var b := m.payload.value;
       && "target" in b && b["target"].Obj?
       && topic == Word(b["target"].fields, "topic") != ""
       && action == Word(b["target"].fields, "action") != ""
       && data == if "data" in b && b["data"].Obj? then b["data"].fields else map[]
  }

  /** The message is a sign of life of `name`. */
  predicate Signs(m: Msg, name: string) {
    || (IsProxyMessage(m) && TrimSpace(Caller(m)) == name)
    || (m.action == "safety_heartbeat" && m.sender == name && (name == "limiter" || name == "emergency"))
  }

  // ---- the abstract monitor over messages -----------------------------------------------------

  /** The policies after all edits: "set_policy" adds the named policy, "remove_policy"
      drops it and "clear_policies" drops all, if the admin sent it. */
  ghost predicate EditsTable(c: Config, m: Msg, before: set<PolicyKey>, after: set<PolicyKey>) {
    && (forall key :: m.action == "set_policy" && FromAdmin(c, m) && NamesPolicy(m, key) ==> after == before + {key})
    && (forall key :: m.action == "remove_policy" && FromAdmin(c, m) && NamesPolicy(m, key) ==> after == before - {key})
    && (m.action == "clear_policies" && FromAdmin(c, m) ==> after == {})
    && (!Edits(c, m) ==> after == before)
  }

  ghost predicate Edits(c: Config, m: Msg) {
    FromAdmin(c, m)
    && (m.action == "clear_policies" || ((m.action == "set_policy" || m.action == "remove_policy") && exists key :: NamesPolicy(m, key)))
  }

  /** When `name` last gave a sign of life. */
  function LastSign(es: seq<Event>, name: string): Option<int> {
    if es == [] then None
    else
      var e := es[|es| - 1];
      if e.Message? && Signs(e.msg, name) then Some(e.now) else LastSign(es[..|es| - 1], name)
  }

  predicate Unheard(c: Config, es: seq<Event>, name: string, now: int) {
    LastSign(es, name).None? || now - LastSign(es, name).value > c.heartbeatTimeout
  }

  /** The mode after all messages and checks. */
  function ModeOf(c: Config, es: seq<Event>): Mode {
    if es == [] then Normal
    else
      var before, e := es[..|es| - 1], es[|es| - 1];
      match e
      case Check(now) =>
        if c.heartbeatTimeout > 0 && c.failsafe == "isolate" && (Unheard(c, before, "limiter", now) || Unheard(c, before, "emergency", now))
        then Isolated else ModeOf(c, before)
      case Message(m, _) =>
        if m.action == "ISOLATION_START" && FromSwitcher(c, m) then Isolated
        else if m.action == "ISOLATION_END" && FromSwitcher(c, m) then Normal
        else ModeOf(c, before)
  }

  /** What is allowed in isolation, by name. */
  predicate EmergencyAllows(c: Config, key: PolicyKey) {
    && key.sender == "emergency"
    && ((key.topic == c.prefix + ".navigation" && key.action == "get_state")
        || (key.topic == c.prefix + ".motors" && key.action == "LAND")
        || (key.topic == c.prefix + ".cargo" && key.action == "CLOSE")
        || (key.topic == c.prefix + ".journal" && key.action == "LOG_EVENT")
        || (key.topic == c.prefix + ".security_monitor" && (key.action == "isolation_status" || key.action == "ISOLATION_END")))
  }

  // ---- reading -----------------------------------------------------------------------------------

  lemma ReadsEdits(m: Msg)
    ensures m.action == "set_policy" ==> Read(m) == SetPolicy(m.sender, NamedPolicy(m.payload))
    ensures m.action == "remove_policy" ==> Read(m) == RemovePolicy(m.sender, NamedPolicy(m.payload))
    ensures m.action == "clear_policies" ==> Read(m) == ClearPolicies(m.sender)
    ensures Read(m).SetPolicy? ==> m.action == "set_policy"
    ensures Read(m).RemovePolicy? ==> m.action == "remove_policy"
    ensures Read(m).ClearPolicies? ==> m.action == "clear_policies"
  {
  }

  lemma ReadsModes(m: Msg)
    ensures m.action == "ISOLATION_START" ==> Read(m) == IsolationStart(m.sender, ReasonField(m.payload))
    ensures m.action == "ISOLATION_END" ==> Read(m) == IsolationEnd(m.sender, ReasonField(m.payload))
    ensures Read(m).IsolationStart? ==> m.action == "ISOLATION_START"
    ensures Read(m).IsolationEnd? ==> m.action == "ISOLATION_END"
  {
  }

  lemma ReadsSigns(m: Msg)
    ensures IsProxyMessage(m) ==> Read(m) == Proxy(Caller(m), TrimSpace(Caller(m)), ExtractTarget(m.payload))
    ensures m.action == "safety_heartbeat" ==> Read(m) == SafetyHeartbeat(m.sender)
    ensures Read(m).Proxy? ==> IsProxyMessage(m)
    ensures Read(m).SafetyHeartbeat? ==> m.action == "safety_heartbeat"
  {
  }

  lemma NamedPolicyMeans(m: Msg, key: PolicyKey)
    ensures NamedPolicy(m.payload) == Some(key) <==> NamesPolicy(m, key)
  {
  }

  lemma TargetMeans(m: Msg, topic: string, action: string, data: Body)
    requires IsProxyMessage(m)
    ensures ExtractTarget(m.payload) == To(topic, action, data) <==> Requests(m, topic, action, data)
  {
  }

  lemma EditOfMessage(c: Config, m: Msg, now: int, before: set<PolicyKey>)
    ensures EditsTable(c, m, before, Edited(before, EditOf(c, Deliver(Read(m), now))))
  {
    ReadsEdits(m);
    forall key
      ensures NamedPolicy(m.payload) == Some(key) <==> NamesPolicy(m, key)
    {
      NamedPolicyMeans(m, key);
    }
    var e := EditOf(c, Deliver(Read(m), now));
    if !Edits(c, m) && NamedPolicy(m.payload).Some? {
      assert NamesPolicy(m, NamedPolicy(m.payload).value);
    }
  }

  lemma HearsMessage(e: Event, name: string)
    ensures Hears(InputOf(e), name) <==> e.Message? && Signs(e.msg, name)
  {
    if e.Message? {
      ReadsSigns(e.msg);
    }
  }

  lemma {:induction false} SignsAreHeard(es: seq<Event>, name: string)
    ensures LastHeard(Inputs(es), name) == LastSign(es, name)
    decreases |es|
  {
    if es != [] {
      SignsAreHeard(es[..|es| - 1], name);
      assert Inputs(es)[..|es| - 1] == Inputs(es[..|es| - 1]);
      HearsMessage(es[|es| - 1], name);
    }
  }

  lemma {:induction false} ModesAgree(c: Config, es: seq<Event>)
    ensures ModeAfter(c, Inputs(es)) == ModeOf(c, es)
    decreases |es|
  {
    if es != [] {
      var before, e := es[..|es| - 1], es[|es| - 1];
      ModesAgree(c, before);
      assert Inputs(es)[..|es| - 1] == Inputs(before);
      SignsAreHeard(before, "limiter");
      SignsAreHeard(before, "emergency");
      if e.Message? {
        ReadsModes(e.msg);
      }
    }
  }

  lemma EmergencyTableMeans(c: Config, key: PolicyKey)
    ensures key in EmergencyPolicies(c) <==> EmergencyAllows(c, key)
  {
    var p := c.prefix;
    assert BrokerTopic(p, "navigation") == p + ".navigation" && BrokerTopic(p, "motors") == p + ".motors";
    assert BrokerTopic(p, "cargo") == p + ".cargo" && BrokerTopic(p, "journal") == p + ".journal";
    assert BrokerTopic(p, "security_monitor") == p + ".security_monitor";
  }

  // ---- the theorems ---------------------------------------------------------------------------------

  function Run(c: Config, init: set<PolicyKey>, t0: int, es: seq<Event>): State {
    After(c, Initial(init, t0), Inputs(es))
  }

  /** The tables, one message after the other: `ts` starts with the initial policies, and
      each message edits the one before as its action says. */
  ghost predicate TableHistory(c: Config, init: set<PolicyKey>, es: seq<Event>, ts: seq<set<PolicyKey>>) {
    && |ts| == |es| + 1 && ts[0] == init
    && forall i :: 0 <= i < |es| ==> TableStep(c, es[i], ts[i], ts[i + 1])
  }

  ghost predicate TableStep(c: Config, e: Event, before: set<PolicyKey>, after: set<PolicyKey>) {
    match e
    case Message(m, _) => EditsTable(c, m, before, after)
    case Check(_) => after == before
  }

  /** There is one such history of tables: an edit leaves no choice. */
  lemma {:induction false} TableHistoryIsUnique(
    c: Config, init: set<PolicyKey>, es: seq<Event>, ts: seq<set<PolicyKey>>, us: seq<set<PolicyKey>>, i: nat)
    requires TableHistory(c, init, es, ts) && TableHistory(c, init, es, us) && i <= |es|
    ensures ts[i] == us[i]
  {
    if i > 0 {
      TableHistoryIsUnique(c, init, es, ts, us, i - 1);
      assert TableStep(c, es[i - 1], ts[i - 1], ts[i]) && TableStep(c, es[i - 1], us[i - 1], us[i]);
      if es[i - 1].Message? {
        EditIsUnique(c, es[i - 1].msg, ts[i - 1], ts[i], us[i]);
      }
    }
  }

  lemma EditIsUnique(c: Config, m: Msg, before: set<PolicyKey>, a: set<PolicyKey>, b: set<PolicyKey>)
    requires EditsTable(c, m, before, a) && EditsTable(c, m, before, b)
    ensures a == b
  {
    if Edits(c, m) && m.action != "clear_policies" {
      var key :| NamesPolicy(m, key);
    }
  }

  lemma {:induction false} NormalTableHistory(c: Config, init: set<PolicyKey>, es: seq<Event>) returns (ts: seq<set<PolicyKey>>)
    ensures TableHistory(c, init, es, ts) && ts[|es|] == EditedTable(c, init, Inputs(es))
    decreases |es|
  {
    if es == [] {
      return [init];
    }
    var before, e := es[..|es| - 1], es[|es| - 1];
    ts := NormalTableHistory(c, init, before);
    var t := EditedTable(c, init, Inputs(before));
    assert Inputs(es)[..|es| - 1] == Inputs(before);
    if e.Message? {
      EditOfMessage(c, e.msg, e.now, t);
    }
    TableGrows(c, init, es, ts, Edited(t, EditOf(c, InputOf(e))));
    ts := ts + [Edited(t, EditOf(c, InputOf(e)))];
  }

  lemma TableGrows(c: Config, init: set<PolicyKey>, es: seq<Event>, ts: seq<set<PolicyKey>>, t: set<PolicyKey>)
    requires es != [] && TableHistory(c, init, es[..|es| - 1], ts) && TableStep(c, es[|es| - 1], ts[|es| - 1], t)
    ensures TableHistory(c, init, es, ts + [t])
  {
    var us := ts + [t];
    forall i | 0 <= i < |es|
      ensures TableStep(c, es[i], us[i], us[i + 1])
    {
      if i < |es| - 1 {
        assert TableStep(c, es[..|es| - 1][i], ts[i], ts[i + 1]);
      }
    }
  }

  /** The refinement, over histories of messages: the normal table is the initial one
      with the edits of the messages, the mode is what messages and checks make it, and
      the active table is the emergency list in isolation and the normal table otherwise. */
  lemma MessageRefinement(c: Config, init: set<PolicyKey>, t0: int, es: seq<Event>)
    ensures var s := Run(c, init, t0, es);
      && s.safety.mode == ModeOf(c, es)
      && (exists ts :: TableHistory(c, init, es, ts) && s.normal == ts[|es|])
      && (if ModeOf(c, es).Isolated? then forall key :: key in s.active <==> EmergencyAllows(c, key) else s.active == s.normal)
      && (forall name :: name != "" ==> (name in s.lastSeen <==> LastSign(es, name).Some?))
      && (forall name :: name != "" && name in s.lastSeen ==> s.lastSeen[name] == LastSign(es, name).value)
  {
    var s := Run(c, init, t0, es);
    TwoTableRefinement(c, init, t0, Inputs(es));
    ModesAgree(c, es);
    var ts := NormalTableHistory(c, init, es);
    forall key
      ensures key in EmergencyPolicies(c) <==> EmergencyAllows(c, key)
    {
      EmergencyTableMeans(c, key);
    }
    forall name
      ensures LastHeard(Inputs(es), name) == LastSign(es, name)
    {
      SignsAreHeard(es, name);
    }
  }

  /** Forwarding, by message: exactly when the active table holds the caller with the
      requested topic and action, the requested data go to that topic under the
      monitor's name; nothing else is published to a component. */
  lemma MessageForwarding(c: Config, s: State, m: Msg, now: int, topic: string, action: string, data: Body)
    ensures var sent := Step(c, s, Deliver(Read(m), now)).sent;
      && (Requests(m, topic, action, data) && PolicyKey(Caller(m), topic, action) in s.active ==>
            sent == [Forward(topic, Msg(action, "security_monitor", Some(data)))])
      && (forall x :: x in sent && x.Forward? ==>
            x.msg.payload.Some? && x.msg.sender == "security_monitor"
            && Requests(m, x.topic, x.msg.action, x.msg.payload.value)
            && PolicyKey(Caller(m), x.topic, x.msg.action) in s.active)
  {
    ReadsSigns(m);
    if IsProxyMessage(m) {
      TargetMeans(m, topic, action, data);
      var t := ExtractTarget(m.payload);
      if t.To? {
        TargetMeans(m, t.topic, t.action, t.data);
      }
    }
  }

  /** A mode message: who may send it, what it records, and that it is journalled. */
  lemma MessageSwitches(c: Config, s: State, m: Msg, now: int)
    requires m.action == "ISOLATION_START" || m.action == "ISOLATION_END"
    ensures var o, wanted := Step(c, s, Deliver(Read(m), now)), if m.action == "ISOLATION_START" then Isolated else Normal;
      if !FromSwitcher(c, m) then o.state == s && o.sent == [] && o.reply == Error("forbidden")
      else
        && o.state.safety.mode == wanted && o.state.normal == s.normal && o.state.lastSeen == s.lastSeen
        && o.reply == Transition(s.safety.mode != wanted, o.state.safety)
        && (s.safety.mode == wanted ==> o.state == s && o.sent == [])
        && (s.safety.mode != wanted ==>
              && o.sent == [ModeLog(o.state.safety)]
              && o.state.safety.source == m.sender && o.state.safety.version == s.safety.version + 1
              && o.state.safety.transitionId == now && o.state.safety.lastTransitionAt == now
              && o.state.safety.activatedAt == (if wanted.Isolated? then now else s.safety.activatedAt)
              && o.state.safety.reason == GivenReason(m, if wanted.Isolated? then "manual_isolation" else "manual_recovery"))
  {
    ReadsModes(m);
  }

  function GivenReason(m: Msg, default: string): string {
    if m.payload.Some? && "reason" in m.payload.value && m.payload.value["reason"].Str? && m.payload.value["reason"].s != ""
    then m.payload.value["reason"].s else default
  }

  /** The admin's messages are answered by what they did, or why they did nothing. */
  lemma MessageReplies(c: Config, s: State, m: Msg, now: int, key: PolicyKey)
    ensures var o := Step(c, s, Deliver(Read(m), now));
      && (m.action == "set_policy" && FromAdmin(c, m) && NamesPolicy(m, key) ==> o.reply == Updated(key))
      && (m.action == "remove_policy" && FromAdmin(c, m) && NamesPolicy(m, key) ==> o.reply == Removed(key in s.normal, key))
      && (m.action == "clear_policies" && FromAdmin(c, m) ==> o.reply == Cleared(|s.normal|))
      && (m.action in {"set_policy", "remove_policy", "clear_policies"} && !FromAdmin(c, m) ==> o == Outcome(s, [], Error("forbidden")))
  {
    ReadsEdits(m);
    NamedPolicyMeans(m, key);
  }

  predicate IsHandled(action: string) {
    || action == "proxy_request" || action == "proxy_publish"
    || action == "set_policy" || action == "remove_policy" || action == "clear_policies" || action == "list_policies"
    || action == "ISOLATION_START" || action == "ISOLATION_END" || action == "isolation_status"
    || action == "safety_heartbeat"
  }

  /** Status queries answer and change nothing; an action nobody handles changes nothing. */
  lemma MessageQueries(c: Config, s: State, m: Msg, now: int)
    ensures var o := Step(c, s, Deliver(Read(m), now));
      && (m.action == "list_policies" ==>
            o == Outcome(s, [], Listing(s.safety.mode, if s.safety.mode.Isolated? then s.active else s.normal)))
      && (m.action == "isolation_status" ==> o == Outcome(s, [], Status(s.safety)))
      && (m.action == "safety_heartbeat" && m.sender != "limiter" && m.sender != "emergency" ==> o == Outcome(s, [], Error("forbidden")))
      && (!IsHandled(m.action) ==> o.state == s && o.sent == [])
  {
  }

  /** A watchdog isolation names the first unheard sender, the limiter before the emergency component. */
  lemma CheckNames(c: Config, init: set<PolicyKey>, t0: int, es: seq<Event>, now: int)
    requires ModeOf(c, es).Normal? && ModeOf(c, es + [Check(now)]).Isolated?
    ensures var f := Run(c, init, t0, es + [Check(now)]).safety;
      && f.source == "security_monitor"
      && f.reason == "heartbeat_timeout:" + (if Unheard(c, es, "limiter", now) then "limiter" else "emergency")
  {
    var all := es + [Check(now)];
    assert all[..|es|] == es && Inputs(all)[..|es|] == Inputs(es);
    ModesAgree(c, es);
    SignsAreHeard(es, "limiter");
    SignsAreHeard(es, "emergency");
    TwoTableRefinement(c, init, t0, Inputs(es));
    CheckReason(c, Inputs(es), Run(c, init, t0, es), now);
  }

  lemma CheckReason(c: Config, h: seq<Input>, s: State, now: int)
    requires Heard(h, s) && s.safety.mode.Normal? && c.heartbeatTimeout > 0 && c.failsafe == "isolate"
    requires Silence(h, "limiter", now, c.heartbeatTimeout) || Silence(h, "emergency", now, c.heartbeatTimeout)
    ensures var f := Step(c, s, Watchdog(now)).state.safety;
      && f.source == "security_monitor"
      && f.reason == "heartbeat_timeout:" + (if Silence(h, "limiter", now, c.heartbeatTimeout) then "limiter" else "emergency")
  {
    StaleIsSilence(h, s, "limiter", now, c.heartbeatTimeout);
    StaleIsSilence(h, s, "emergency", now, c.heartbeatTimeout);
  }

  /** A mode transition is journalled under its own name with the new safety state. */
  lemma JournalMessageMeans(c: Config, f: Safety)
    ensures var x := OnBus(c, ModeLog(f));
      && x.topic == c.prefix + ".journal" && x.msg.action == "LOG_EVENT" && x.msg.sender == "security_monitor"
      && x.msg.payload.Some?
      && var b := x.msg.payload.value;
         && StrField(b, "event") == "SECURITY_MONITOR_MODE_TRANSITION" && ObjField(b, "details").Some?
         && var d := ObjField(b, "details").value;
            && StrField(d, "mode") == (if f.mode.Isolated? then "ISOLATED" else "NORMAL")
            && StrField(d, "reason") == f.reason && StrField(d, "trigger_source") == f.source
            && "state_version" in d && d["state_version"] == Num(f.version as real)
  {
    assert BrokerTopic(c.prefix, "journal") == c.prefix + ".journal";
  }
}
