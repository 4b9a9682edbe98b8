/** The access-control compiler: what the generated file is meant to say, its
    lines, and how a broker reads it back. */
module AclSpec {
  import opened Common
  import opened Text

  datatype External = External(username: string, component: string)

  /** `username` is the override, or the default one for the instance. */
  datatype Spec = Spec(
    prefix: string, instance: string, components: seq<string>, external: seq<External>, username: string -> string)

  datatype Access = Read | Write

  // ---- the intended relation ---------------------------------------------------------

  function MonitorTopic(sp: Spec): string {
    TrimSpace(sp.prefix) + "." + SECURITY_MONITOR
  }

  function Topic(sp: Spec, component: string): string {
    sp.prefix + "." + TrimSpace(component)
  }

  function Reply(sp: Spec, component: string): string {
    sp.prefix + ".replies." + TrimSpace(component)
  }

  /** Who may be granted anything. */
  datatype Party = Monitor | Component(name: string) | Outsider(ext: External)

  predicate IsParty(sp: Spec, p: Party) {
    match p
    case Monitor => true
    case Component(c) => c in sp.components && c != SECURITY_MONITOR
    case Outsider(e) => e in sp.external && TrimSpace(e.username) != "" && TrimSpace(e.component) != ""
  }

  function UserOf(sp: Spec, p: Party): string {
    match p
    case Monitor => sp.username(SECURITY_MONITOR)
    case Component(c) => sp.username(c)
    case Outsider(e) => TrimSpace(e.username)
  }

  predicate Guards(sp: Spec, cs: seq<string>, t: string) {
    exists c :: c in cs && c != SECURITY_MONITOR && (t == Topic(sp, c) || t == Reply(sp, c))
  }

  /** A component reads its own two topics and writes only to the monitor; the
      monitor reads and writes its topic and those of every other component; an
      external party writes the topic it is bound to and reads its replies. */
  predicate Entitled(sp: Spec, p: Party, a: Access, t: string) {
    match p
    case Monitor => t == MonitorTopic(sp) || Guards(sp, sp.components, t)
    case Component(c) => if a.Read? then t == Topic(sp, c) || t == Reply(sp, c) else t == MonitorTopic(sp)
    case Outsider(e) => t == if a.Write? then Topic(sp, TrimSpace(e.component)) else Reply(sp, TrimSpace(e.component))
  }

  /** A grant; a topic line before any user line speaks of anonymous clients. */
  datatype Grant = Grant(user: Option<string>, access: Access, topic: string)

  /** The grants of one party. */
  ghost predicate GrantOf(sp: Spec, p: Party, g: Grant) {
    g.user == Some(UserOf(sp, p)) && Entitled(sp, p, g.access, g.topic)
  }

  /** The relation to be compiled. */
  ghost predicate Intended(sp: Spec, g: Grant) {
    exists p :: IsParty(sp, p) && GrantOf(sp, p, g)
  }

  // ---- lines ----------------------------------------------------------------------------

  datatype Line = User(name: string) | Allow(access: Access, topic: string) | Remark(text: string)

  const USER := "user "
  const READ := "topic read "
  const WRITE := "topic write "

  function Print(l: Line): string {
    match l
    case User(u) => USER + u
    case Allow(Read, t) => READ + t
    case Allow(Write, t) => WRITE + t
    case Remark(t) => t
  }

  predicate StartsWith(s: string, p: string) {
    |p| <= |s| && s[..|p|] == p
  }

  function Parse(s: string): Line {
    if StartsWith(s, USER) then User(s[|USER|..])
    else if StartsWith(s, READ) then Allow(Read, s[|READ|..])
    else if StartsWith(s, WRITE) then Allow(Write, s[|WRITE|..])
    else Remark(s)
  }

  function Printed(ls: seq<Line>): string {
    if ls == [] then "" else Printed(ls[..|ls| - 1]) + (Print(ls[|ls| - 1]) + ['\n'])
  }

  // ---- reading ---------------------------------------------------------------------------

  /** The reader: the current user and the grants so far. */
  datatype Reader = Reader(user: Option<string>, grants: set<Grant>)

  function Take(r: Reader, l: Line): Reader {
    match l
    case User(u) => r.(user := Some(u))
    case Allow(a, t) => r.(grants := r.grants + {Grant(r.user, a, t)})
    case Remark(_) => r
  }

  function TakeAll(r: Reader, ls: seq<Line>): Reader {
    if ls == [] then r else Take(TakeAll(r, ls[..|ls| - 1]), ls[|ls| - 1])
  }

  function ParseAll(ss: seq<string>): (ls: seq<Line>)
    ensures |ls| == |ss| && forall i :: 0 <= i < |ss| ==> ls[i] == Parse(ss[i])
  {
    seq(|ss|, i requires 0 <= i < |ss| => Parse(ss[i]))
  }

  /** The meaning of a file: its lines in order. */
  function Meaning(text: string): set<Grant> {
    TakeAll(Reader(None, {}), ParseAll(Split(text, '\n'))).grants
  }

  // ---- the program -----------------------------------------------------------------------

  /** In parts, because single characters of a long literal are out of the verifier's reach. */
  const HEADER := "# Auto-generated" + " Mosquitto ACL" + " for deliverydron"
  const INSTANCE := "# Instance: "

  function Header(sp: Spec): seq<Line> {
    [Remark(HEADER), Remark(INSTANCE + sp.instance), Remark("")]
  }

  /** The monitor's grants on one component. */
  function GuardLines(sp: Spec, c: string): seq<Line> {
    if c == SECURITY_MONITOR then []
    else [Allow(Read, Topic(sp, c)), Allow(Write, Topic(sp, c)), Allow(Read, Reply(sp, c)), Allow(Write, Reply(sp, c))]
  }

  function GuardAll(sp: Spec, cs: seq<string>): seq<Line> {
    if cs == [] then [] else GuardAll(sp, cs[..|cs| - 1]) + GuardLines(sp, cs[|cs| - 1])
  }

  function MonitorHead(sp: Spec): seq<Line> {
    [User(sp.username(SECURITY_MONITOR)), Allow(Read, MonitorTopic(sp)), Allow(Write, MonitorTopic(sp))]
  }

  function ComponentLines(sp: Spec, c: string): seq<Line> {
    if c == SECURITY_MONITOR then []
    else [User(sp.username(c)), Allow(Read, Topic(sp, c)), Allow(Read, Reply(sp, c)),
          Allow(Write, MonitorTopic(sp)), Remark("")]
  }

  function ComponentAll(sp: Spec, cs: seq<string>): seq<Line> {
    if cs == [] then [] else ComponentAll(sp, cs[..|cs| - 1]) + ComponentLines(sp, cs[|cs| - 1])
  }

  function ExternalLines(sp: Spec, e: External): seq<Line> {
    var u, c := TrimSpace(e.username), TrimSpace(e.component);
    if u == "" || c == "" then []
    else [User(u), Allow(Write, Topic(sp, c)), Allow(Read, Reply(sp, c)), Remark("")]
  }

  function ExternalAll(sp: Spec, es: seq<External>): seq<Line> {
    if es == [] then [] else ExternalAll(sp, es[..|es| - 1]) + ExternalLines(sp, es[|es| - 1])
  }

  function Program(sp: Spec): seq<Line> {
    var cs := Sorted(sp.components);
    Header(sp) + MonitorHead(sp) + GuardAll(sp, cs) + [Remark("")] + ComponentAll(sp, cs) + ExternalAll(sp, sp.external)
  }

  /** No name holds a line break. */
  predicate Clean(sp: Spec) {
    && Free(sp.prefix, '\n') && Free(sp.instance, '\n') && Free(sp.username(SECURITY_MONITOR), '\n')
    && (forall c <- sp.components :: Free(TrimSpace(c), '\n') && Free(sp.username(c), '\n'))
    && (forall e <- sp.external :: Free(TrimSpace(e.username), '\n') && Free(TrimSpace(e.component), '\n'))
  }
}
