/** Values shared by every component: optional results, decoded JSON bodies, bus messages. */
module Common {

  datatype Option<+T> = None | Some(value: T)

  /** A decoded JSON value, as `map[string]interface{}` payloads hold them.
      `Null` is a key that is present with no value, which several handlers
      treat differently from an absent key. */
  datatype Json =
    | Null
    | Bool(b: bool)
    | Num(n: real)
    | Str(s: string)
    | Arr(items: seq<Json>)
    | Obj(fields: Body)

  type Body = map<string, Json>

  /** An envelope on the bus. A missing or non-string sender is the empty string,
      and a missing or non-object payload is None, which is how the handlers read them. */
  datatype Msg = Msg(action: string, sender: string, payload: Option<Body>)

  /** A publish call: the topic and the message. */
  datatype Sent = Sent(topic: string, msg: Msg)

  function StrField(b: Body, k: string): string {
    if k in b && b[k].Str? then b[k].s else ""
  }

  function ObjField(b: Body, k: string): Option<Body> {
    if k in b && b[k].Obj? then Some(b[k].fields) else None
  }

  /** True when the key holds something other than JSON null. */
  predicate NonNull(b: Body, k: string) {
    k in b && !b[k].Null?
  }

  const SECURITY_MONITOR := "security_monitor"

  /** Components that act only on the monitor's word compare the sender exactly. */
  predicate TrustedSender(m: Msg, expected: string) {
    m.sender != "" && m.sender == expected
  }

  /** Topic of a component: the configured prefix, a dot and the component name. */
  function BrokerTopic(prefix: string, component: string): string {
    prefix + "." + component
  }

  lemma BrokerTopicInjective(prefix: string, a: string, b: string)
    ensures BrokerTopic(prefix, a) == BrokerTopic(prefix, b) <==> a == b
  {
    var n := |prefix| + 1;
    assert BrokerTopic(prefix, a)[n..] == a;
    assert BrokerTopic(prefix, b)[n..] == b;
  }
}
