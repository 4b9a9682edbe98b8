/** Compilation to an access-control file preserves meaning. */
module AclTheory {
  import opened Common
  import opened Text
  import opened AclSpec

  // ---- reading back what was printed -------------------------------------------------------

  /** A line that reads back as itself. */
  predicate WellFormed(l: Line) {
    match l
    case User(u) => Free(u, '\n')
    case Allow(_, t) => Free(t, '\n')
    case Remark(t) => Free(t, '\n') && (t == "" || t[0] == '#')
  }

  predicate AllWellFormed(ls: seq<Line>) {
    forall l <- ls :: WellFormed(l)
  }

  lemma NotPrefix(s: string, p: string, k: nat)
    requires k < |p| && (k < |s| ==> s[k] != p[k])
    ensures !StartsWith(s, p)
  {
    if |p| <= |s| {
      assert s[..|p|][k] == s[k];
    }
  }

  lemma PrintParses(l: Line)
    requires WellFormed(l)
    ensures Parse(Print(l)) == l && Free(Print(l), '\n')
  {
    var s := Print(l);
    assert USER[0] == 'u' && READ[0] == 't' && WRITE[0] == 't' && READ[6] == 'r' && WRITE[6] == 'w';
    match l
    case User(u) =>
      assert s[..|USER|] == USER && s[|USER|..] == u;
    case Allow(Read, t) =>
      assert s[..|READ|] == READ && s[|READ|..] == t;
      NotPrefix(s, USER, 0);
    case Allow(Write, t) =>
      assert s[..|WRITE|] == WRITE && s[|WRITE|..] == t;
      NotPrefix(s, USER, 0);
      NotPrefix(s, READ, 6);
    case Remark(t) =>
      NotPrefix(s, USER, 0);
      NotPrefix(s, READ, 0);
      NotPrefix(s, WRITE, 0);
  }

  lemma ParseAllConcat(a: seq<string>, b: seq<string>)
    ensures ParseAll(a + b) == ParseAll(a) + ParseAll(b)
  {
  }

  lemma Associates(a: string, b: string, c: string)
    ensures (a + b) + c == a + (b + c)
  {
  }

  /** The last printed line reads back, and the rest follows. */
  lemma LineParses(init: seq<Line>, l: Line, rest: string) returns (more: string)
    requires WellFormed(l)
    ensures Printed(init + [l]) + rest == Printed(init) + more
    ensures ParseAll(Split(more, '\n')) == [l] + ParseAll(Split(rest, '\n'))
  {
    var p := Print(l);
    more := p + ['\n'] + rest;
    PrintParses(l);
    SplitFirst(p, '\n', rest);
    ParseAllConcat([p], Split(rest, '\n'));
    assert (init + [l])[..|init|] == init;
    Associates(Printed(init), p + ['\n'], rest);
  }

  lemma Regroup(init: seq<Line>, l: Line, rest: seq<Line>)
    ensures init + ([l] + rest) == (init + [l]) + rest
  {
  }

  /** Reading a printed program gives its lines, then whatever follows. */
  lemma {:induction false} PrintedParses(ls: seq<Line>, rest: string)
    requires AllWellFormed(ls)
    ensures ParseAll(Split(Printed(ls) + rest, '\n')) == ls + ParseAll(Split(rest, '\n'))
    decreases |ls|
  {
    if ls == [] {
      assert Printed(ls) + rest == rest;
    } else {
      var init, l := ls[..|ls| - 1], ls[|ls| - 1];
      assert ls == init + [l];
      var more := LineParses(init, l, rest);
      PrintedParses(init, more);
      Regroup(init, l, ParseAll(Split(rest, '\n')));
    }
  }

  lemma {:induction false} TakeAllConcat(r: Reader, a: seq<Line>, b: seq<Line>)
    ensures TakeAll(r, a + b) == TakeAll(TakeAll(r, a), b)
    decreases |b|
  {
    if b == [] {
      assert a + b == a;
    } else {
      TakeAllConcat(r, a, b[..|b| - 1]);
      assert (a + b)[..|a + b| - 1] == a + b[..|b| - 1];
    }
  }

  lemma TakeOne(r: Reader, l: Line)
    ensures TakeAll(r, [l]) == Take(r, l)
  {
    assert [l][..0] == [];
  }

  lemma TakeTwo(r: Reader, l: Line, m: Line)
    ensures TakeAll(r, [l, m]) == Take(Take(r, l), m)
  {
    TakeOne(r, l);
    assert [l, m][..1] == [l];
  }

  /** The meaning of printed lines is what a reader takes from them. */
  lemma MeaningOfPrinted(ls: seq<Line>)
    requires AllWellFormed(ls)
    ensures Meaning(Printed(ls)) == TakeAll(Reader(None, {}), ls).grants
  {
    PrintedParses(ls, "");
    assert Printed(ls) + "" == Printed(ls);
    assert ParseAll(Split("", '\n')) == [Remark("")];
    TakeAllConcat(Reader(None, {}), ls, [Remark("")]);
    TakeOne(TakeAll(Reader(None, {}), ls), Remark(""));
  }

  // ---- the blocks ------------------------------------------------------------------------------

  lemma ByAccess(g: Grant)
    ensures g == Grant(g.user, Read, g.topic) || g == Grant(g.user, Write, g.topic)
  {
    match g.access
    case Read =>
    case Write =>
  }

  function GuardGrants(sp: Spec, u: Option<string>, c: string): set<Grant> {
    {Grant(u, Read, Topic(sp, c)), Grant(u, Write, Topic(sp, c)),
     Grant(u, Read, Reply(sp, c)), Grant(u, Write, Reply(sp, c))}
  }

  lemma GuardLinesAdd(sp: Spec, r: Reader, c: string)
    ensures var r' := TakeAll(r, GuardLines(sp, c));
      && r'.user == r.user
      && (c == SECURITY_MONITOR ==> r'.grants == r.grants)
      && (c != SECURITY_MONITOR ==> r'.grants == r.grants + GuardGrants(sp, r.user, c))
  {
    if c != SECURITY_MONITOR {
      var a, b := [Allow(Read, Topic(sp, c)), Allow(Write, Topic(sp, c))], [Allow(Read, Reply(sp, c)), Allow(Write, Reply(sp, c))];
      assert GuardLines(sp, c) == a + b;
      TakeAllConcat(r, a, b);
      TakeTwo(r, a[0], a[1]);
      TakeTwo(TakeAll(r, a), b[0], b[1]);
    }
  }

  lemma GuardGrantsOf(sp: Spec, u: Option<string>, c: string, g: Grant)
    ensures g in GuardGrants(sp, u, c) <==> g.user == u && (g.topic == Topic(sp, c) || g.topic == Reply(sp, c))
  {
    ByAccess(g);
  }

  lemma GuardsGrow(sp: Spec, cs: seq<string>, c: string, t: string)
    ensures Guards(sp, cs + [c], t) <==>
      Guards(sp, cs, t) || (c != SECURITY_MONITOR && (t == Topic(sp, c) || t == Reply(sp, c)))
  {
    if Guards(sp, cs, t) {
      var d :| d in cs && d != SECURITY_MONITOR && (t == Topic(sp, d) || t == Reply(sp, d));
      assert d in cs + [c];
    }
    assert c in cs + [c];
  }

  lemma {:induction false} GuardAllAdds(sp: Spec, r: Reader, cs: seq<string>, g: Grant)
    ensures var r' := TakeAll(r, GuardAll(sp, cs));
      && r'.user == r.user
      && (g in r'.grants <==> g in r.grants || (g.user == r.user && Guards(sp, cs, g.topic)))
    decreases |cs|
  {
    if cs != [] {
      var init, c := cs[..|cs| - 1], cs[|cs| - 1];
      assert cs == init + [c];
      GuardAllAdds(sp, r, init, g);
      TakeAllConcat(r, GuardAll(sp, init), GuardLines(sp, c));
      var r1 := TakeAll(r, GuardAll(sp, init));
      GuardLinesAdd(sp, r1, c);
      if c != SECURITY_MONITOR {
        GuardGrantsOf(sp, r.user, c, g);
      }
      GuardsGrow(sp, init, c, g.topic);
    }
  }

  lemma ComponentLinesAdd(sp: Spec, r: Reader, c: string)
    requires c != SECURITY_MONITOR
    ensures TakeAll(r, ComponentLines(sp, c)).grants == r.grants +
      {Grant(Some(sp.username(c)), Read, Topic(sp, c)), Grant(Some(sp.username(c)), Read, Reply(sp, c)),
       Grant(Some(sp.username(c)), Write, MonitorTopic(sp))}
  {
    var a, b := [User(sp.username(c)), Allow(Read, Topic(sp, c))], [Allow(Read, Reply(sp, c)), Allow(Write, MonitorTopic(sp))];
    var d := [Remark("")];
    assert ComponentLines(sp, c) == a + b + d;
    TakeAllConcat(r, a + b, d);
    TakeAllConcat(r, a, b);
    TakeTwo(r, a[0], a[1]);
    TakeTwo(TakeAll(r, a), b[0], b[1]);
    TakeOne(TakeAll(r, a + b), Remark(""));
  }

  ghost predicate SomeComponent(sp: Spec, cs: seq<string>, g: Grant) {
    exists c :: c in cs && c != SECURITY_MONITOR && GrantOf(sp, Component(c), g)
  }

  lemma ComponentAdds(sp: Spec, r: Reader, c: string, g: Grant)
    ensures g in TakeAll(r, ComponentLines(sp, c)).grants <==>
      g in r.grants || (c != SECURITY_MONITOR && GrantOf(sp, Component(c), g))
  {
    if c != SECURITY_MONITOR {
      ComponentLinesAdd(sp, r, c);
      ByAccess(g);
    }
  }

  lemma ComponentsGrow(sp: Spec, cs: seq<string>, c: string, g: Grant)
    ensures SomeComponent(sp, cs + [c], g) <==>
      SomeComponent(sp, cs, g) || (c != SECURITY_MONITOR && GrantOf(sp, Component(c), g))
  {
    if SomeComponent(sp, cs, g) {
      var d :| d in cs && d != SECURITY_MONITOR && GrantOf(sp, Component(d), g);
      assert d in cs + [c];
    }
    assert c in cs + [c];
  }

  lemma {:induction false} ComponentAllAdds(sp: Spec, r: Reader, cs: seq<string>, g: Grant)
    ensures g in TakeAll(r, ComponentAll(sp, cs)).grants <==> g in r.grants || SomeComponent(sp, cs, g)
    decreases |cs|
  {
    if cs != [] {
      var init, c := cs[..|cs| - 1], cs[|cs| - 1];
      assert cs == init + [c];
      ComponentAllAdds(sp, r, init, g);
      TakeAllConcat(r, ComponentAll(sp, init), ComponentLines(sp, c));
      ComponentAdds(sp, TakeAll(r, ComponentAll(sp, init)), c, g);
      ComponentsGrow(sp, init, c, g);
    }
  }

  lemma ExternalLinesAdd(sp: Spec, r: Reader, e: External)
    requires TrimSpace(e.username) != "" && TrimSpace(e.component) != ""
    ensures var u, c := TrimSpace(e.username), TrimSpace(e.component);
      TakeAll(r, ExternalLines(sp, e)).grants == r.grants +
        {Grant(Some(u), Write, Topic(sp, c)), Grant(Some(u), Read, Reply(sp, c))}
  {
    var u, c := TrimSpace(e.username), TrimSpace(e.component);
    var a, b := [User(u), Allow(Write, Topic(sp, c))], [Allow(Read, Reply(sp, c)), Remark("")];
    assert ExternalLines(sp, e) == a + b;
    TakeAllConcat(r, a, b);
    TakeTwo(r, a[0], a[1]);
    TakeTwo(TakeAll(r, a), b[0], b[1]);
  }

  predicate Bound(e: External) {
    TrimSpace(e.username) != "" && TrimSpace(e.component) != ""
  }

  ghost predicate SomeOutsider(sp: Spec, es: seq<External>, g: Grant) {
    exists e :: e in es && Bound(e) && GrantOf(sp, Outsider(e), g)
  }

  lemma OutsidersGrow(sp: Spec, es: seq<External>, e: External, g: Grant)
    ensures SomeOutsider(sp, es + [e], g) <==> SomeOutsider(sp, es, g) || (Bound(e) && GrantOf(sp, Outsider(e), g))
  {
    if SomeOutsider(sp, es, g) {
      var d :| d in es && Bound(d) && GrantOf(sp, Outsider(d), g);
      assert d in es + [e];
    }
    assert e in es + [e];
  }

  lemma ExternalAdds(sp: Spec, r: Reader, e: External, g: Grant)
    ensures g in TakeAll(r, ExternalLines(sp, e)).grants <==>
      g in r.grants || (Bound(e) && GrantOf(sp, Outsider(e), g))
  {
    if Bound(e) {
      ExternalLinesAdd(sp, r, e);
      ByAccess(g);
    }
  }

  lemma {:induction false} ExternalAllAdds(sp: Spec, r: Reader, es: seq<External>, g: Grant)
    ensures g in TakeAll(r, ExternalAll(sp, es)).grants <==> g in r.grants || SomeOutsider(sp, es, g)
    decreases |es|
  {
    if es != [] {
      var init, e := es[..|es| - 1], es[|es| - 1];
      assert es == init + [e];
      ExternalAllAdds(sp, r, init, g);
      TakeAllConcat(r, ExternalAll(sp, init), ExternalLines(sp, e));
      ExternalAdds(sp, TakeAll(r, ExternalAll(sp, init)), e, g);
      OutsidersGrow(sp, init, e, g);
    }
  }

  /** Header and monitor block leave the monitor as the user and its grants. */
  lemma MonitorAdds(sp: Spec, cs: seq<string>, g: Grant)
    ensures var r := TakeAll(Reader(None, {}), Header(sp) + MonitorHead(sp) + GuardAll(sp, cs) + [Remark("")]);
      g in r.grants <==> g.user == Some(UserOf(sp, Monitor)) && (g.topic == MonitorTopic(sp) || Guards(sp, cs, g.topic))
  {
    var r0, h, m := Reader(None, {}), Header(sp), MonitorHead(sp);
    TakeAllConcat(r0, h + m + GuardAll(sp, cs), [Remark("")]);
    TakeAllConcat(r0, h + m, GuardAll(sp, cs));
    TakeAllConcat(r0, h, m);
    HeaderAdds(sp, r0);
    MonitorHeadAdds(sp, r0);
    var r1 := TakeAll(r0, h + m);
    GuardAllAdds(sp, r1, cs, g);
    TakeOne(TakeAll(r1, GuardAll(sp, cs)), Remark(""));
    ByAccess(g);
  }

  lemma HeaderAdds(sp: Spec, r: Reader)
    ensures TakeAll(r, Header(sp)) == r
  {
    var a := [Remark(HEADER), Remark(INSTANCE + sp.instance)];
    assert Header(sp) == a + [Remark("")];
    TakeAllConcat(r, a, [Remark("")]);
    TakeTwo(r, a[0], a[1]);
    TakeOne(r, Remark(""));
  }

  lemma MonitorHeadAdds(sp: Spec, r: Reader)
    ensures var u := Some(UserOf(sp, Monitor));
      TakeAll(r, MonitorHead(sp))
      == Reader(u, r.grants + {Grant(u, Read, MonitorTopic(sp))} + {Grant(u, Write, MonitorTopic(sp))})
  {
    var a := [User(sp.username(SECURITY_MONITOR)), Allow(Read, MonitorTopic(sp))];
    assert MonitorHead(sp) == a + [Allow(Write, MonitorTopic(sp))];
    TakeAllConcat(r, a, [Allow(Write, MonitorTopic(sp))]);
    TakeTwo(r, a[0], a[1]);
    TakeOne(TakeAll(r, a), Allow(Write, MonitorTopic(sp)));
  }

  lemma IntendedSplits(sp: Spec, g: Grant)
    ensures Intended(sp, g) <==>
      GrantOf(sp, Monitor, g) || SomeComponent(sp, sp.components, g) || SomeOutsider(sp, sp.external, g)
  {
    if Intended(sp, g) {
      var p :| IsParty(sp, p) && GrantOf(sp, p, g);
      match p {
        case Monitor =>
        case Component(c) => assert SomeComponent(sp, sp.components, g);
        case Outsider(e) => assert Bound(e) && SomeOutsider(sp, sp.external, g);
      }
    }
    if GrantOf(sp, Monitor, g) {
      assert IsParty(sp, Monitor);
    }
    if SomeComponent(sp, sp.components, g) {
      var c :| c in sp.components && c != SECURITY_MONITOR && GrantOf(sp, Component(c), g);
      assert IsParty(sp, Component(c));
    }
    if SomeOutsider(sp, sp.external, g) {
      var e :| e in sp.external && Bound(e) && GrantOf(sp, Outsider(e), g);
      assert IsParty(sp, Outsider(e));
    }
  }

  /** What a reader takes from the program is the intended relation. */
  lemma ProgramMeans(sp: Spec, g: Grant)
    ensures g in TakeAll(Reader(None, {}), Program(sp)).grants <==> Intended(sp, g)
  {
    var r0, cs := Reader(None, {}), Sorted(sp.components);
    var head := Header(sp) + MonitorHead(sp) + GuardAll(sp, cs) + [Remark("")];
    TakeAllConcat(r0, head + ComponentAll(sp, cs), ExternalAll(sp, sp.external));
    TakeAllConcat(r0, head, ComponentAll(sp, cs));
    MonitorAdds(sp, cs, g);
    ComponentAllAdds(sp, TakeAll(r0, head), cs, g);
    ExternalAllAdds(sp, TakeAll(r0, head + ComponentAll(sp, cs)), sp.external, g);
    SortedMembers(sp.components);
    assert Guards(sp, cs, g.topic) <==> Guards(sp, sp.components, g.topic);
    assert SomeComponent(sp, cs, g) <==> SomeComponent(sp, sp.components, g);
    IntendedSplits(sp, g);
  }

  // ---- every line reads back -----------------------------------------------------------------

  lemma {:induction false} TrimFree(s: string, c: char)
    requires Free(s, c)
    ensures Free(TrimSpace(s), c)
    decreases |s|
  {
    if s != "" {
      TrimFree(s[1..], c);
      TrimFree(s[..|s| - 1], c);
    }
  }

  predicate CleanNames(sp: Spec) {
    Free(sp.prefix, '\n') && Free(TrimSpace(sp.prefix), '\n') && Free(sp.username(SECURITY_MONITOR), '\n')
  }

  lemma TopicsClean(sp: Spec, c: string)
    requires CleanNames(sp) && Free(TrimSpace(c), '\n')
    ensures Free(Topic(sp, c), '\n') && Free(Reply(sp, c), '\n') && Free(MonitorTopic(sp), '\n')
  {
  }

  lemma {:induction false} GuardAllWellFormed(sp: Spec, cs: seq<string>)
    requires CleanNames(sp) && forall c <- cs :: Free(TrimSpace(c), '\n')
    ensures AllWellFormed(GuardAll(sp, cs))
    decreases |cs|
  {
    if cs != [] {
      GuardAllWellFormed(sp, cs[..|cs| - 1]);
      TopicsClean(sp, cs[|cs| - 1]);
    }
  }

  lemma {:induction false} ComponentAllWellFormed(sp: Spec, cs: seq<string>)
    requires CleanNames(sp) && forall c <- cs :: Free(TrimSpace(c), '\n') && Free(sp.username(c), '\n')
    ensures AllWellFormed(ComponentAll(sp, cs))
    decreases |cs|
  {
    if cs != [] {
      ComponentAllWellFormed(sp, cs[..|cs| - 1]);
      TopicsClean(sp, cs[|cs| - 1]);
    }
  }

  lemma {:induction false} ExternalAllWellFormed(sp: Spec, es: seq<External>)
    requires CleanNames(sp) && forall e <- es :: Free(TrimSpace(e.username), '\n') && Free(TrimSpace(e.component), '\n')
    ensures AllWellFormed(ExternalAll(sp, es))
    decreases |es|
  {
    if es != [] {
      ExternalAllWellFormed(sp, es[..|es| - 1]);
      var c := TrimSpace(es[|es| - 1].component);
      TrimFree(c, '\n');
      TopicsClean(sp, c);
    }
  }

  lemma HeaderClean()
    ensures WellFormed(Remark(HEADER))
  {
    assert HEADER[0] == '#';
  }

  lemma InstanceClean(instance: string)
    requires Free(instance, '\n')
    ensures WellFormed(Remark(INSTANCE + instance))
  {
    assert INSTANCE[0] == '#';
  }

  lemma HeadWellFormed(sp: Spec)
    requires CleanNames(sp) && Free(sp.instance, '\n')
    ensures AllWellFormed(Header(sp)) && AllWellFormed(MonitorHead(sp))
  {
    HeaderClean();
    InstanceClean(sp.instance);
    TopicsClean(sp, "");
  }

  lemma ProgramWellFormed(sp: Spec)
    requires Clean(sp)
    ensures AllWellFormed(Program(sp))
  {
    var cs := Sorted(sp.components);
    SortedMembers(sp.components);
    TrimFree(sp.prefix, '\n');
    HeadWellFormed(sp);
    GuardAllWellFormed(sp, cs);
    ComponentAllWellFormed(sp, cs);
    ExternalAllWellFormed(sp, sp.external);
  }

  // ---- the theorem and what follows -------------------------------------------------------------

  /** Compilation preserves meaning: reading the generated text line by line grants
      exactly the intended relation. */
  lemma CompilationPreservesMeaning(sp: Spec, g: Grant)
    requires Clean(sp)
    ensures g in Meaning(Printed(Program(sp))) <==> Intended(sp, g)
  {
    ProgramWellFormed(sp);
    MeaningOfPrinted(Program(sp));
    ProgramMeans(sp, g);
  }

  /** A party whose username nobody else has. */
  ghost predicate Exclusive(sp: Spec, p: Party) {
    forall q :: IsParty(sp, q) && UserOf(sp, q) == UserOf(sp, p) ==> q == p
  }

  /** With a username of its own, a party is granted what it is entitled to and no more. */
  lemma OwnGrantsOnly(sp: Spec, p: Party, a: Access, t: string)
    requires Clean(sp) && IsParty(sp, p) && Exclusive(sp, p)
    ensures Grant(Some(UserOf(sp, p)), a, t) in Meaning(Printed(Program(sp))) <==> Entitled(sp, p, a, t)
  {
    var g := Grant(Some(UserOf(sp, p)), a, t);
    CompilationPreservesMeaning(sp, g);
    if Intended(sp, g) {
      var q :| IsParty(sp, q) && GrantOf(sp, q, g);
      assert q == p;
    }
    if Entitled(sp, p, a, t) {
      assert GrantOf(sp, p, g);
    }
  }

  /** The condition is needed: parties that share a username share their grants. */
  lemma SharedUsersShareGrants(sp: Spec, p: Party, q: Party, a: Access, t: string)
    requires Clean(sp) && IsParty(sp, p) && IsParty(sp, q) && UserOf(sp, p) == UserOf(sp, q) && Entitled(sp, q, a, t)
    ensures Grant(Some(UserOf(sp, p)), a, t) in Meaning(Printed(Program(sp)))
  {
    var g := Grant(Some(UserOf(sp, p)), a, t);
    assert GrantOf(sp, q, g);
    CompilationPreservesMeaning(sp, g);
  }

  /** Party `q` may do nothing that party `p` may not. */
  ghost predicate NoMore(sp: Spec, q: Party, p: Party) {
    forall a, t :: Entitled(sp, q, a, t) ==> Entitled(sp, p, a, t)
  }

  /** The exact condition: a party is granted its entitlement and nothing else if and
      only if everyone with its username is entitled to no more than it is. */
  lemma EntitledExactlyWhen(sp: Spec, p: Party)
    requires Clean(sp) && IsParty(sp, p)
    ensures (forall a, t :: Grant(Some(UserOf(sp, p)), a, t) in Meaning(Printed(Program(sp))) <==> Entitled(sp, p, a, t))
       <==> (forall q :: IsParty(sp, q) && UserOf(sp, q) == UserOf(sp, p) ==> NoMore(sp, q, p))
  {
    var u, granted := UserOf(sp, p), Meaning(Printed(Program(sp)));
    forall a, t
      ensures Grant(Some(u), a, t) in granted <==>
        exists q :: IsParty(sp, q) && UserOf(sp, q) == u && Entitled(sp, q, a, t)
    {
      GrantedToUser(sp, u, a, t);
    }
    if forall a, t :: Grant(Some(u), a, t) in granted <==> Entitled(sp, p, a, t) {
      forall q | IsParty(sp, q) && UserOf(sp, q) == u
        ensures NoMore(sp, q, p)
      {
        forall a, t | Entitled(sp, q, a, t)
          ensures Entitled(sp, p, a, t)
        {
          assert Grant(Some(u), a, t) in granted;
        }
      }
    }
  }

  /** A user is granted what the parties with that name are entitled to. */
  lemma GrantedToUser(sp: Spec, u: string, a: Access, t: string)
    requires Clean(sp)
    ensures Grant(Some(u), a, t) in Meaning(Printed(Program(sp))) <==>
      exists q :: IsParty(sp, q) && UserOf(sp, q) == u && Entitled(sp, q, a, t)
  {
    var g := Grant(Some(u), a, t);
    CompilationPreservesMeaning(sp, g);
    if q :| IsParty(sp, q) && UserOf(sp, q) == u && Entitled(sp, q, a, t) {
      assert GrantOf(sp, q, g);
    }
    if Intended(sp, g) {
      var q :| IsParty(sp, q) && GrantOf(sp, q, g);
      assert UserOf(sp, q) == u && Entitled(sp, q, a, t);
    }
  }

  /** Anonymous clients are granted nothing. */
  lemma NothingForAnonymous(sp: Spec, a: Access, t: string)
    requires Clean(sp)
    ensures Grant(None, a, t) !in Meaning(Printed(Program(sp)))
  {
    CompilationPreservesMeaning(sp, Grant(None, a, t));
  }

  /** The same names and bindings, in any order and any number. */
  ghost predicate SameNames(sp: Spec, sp': Spec) {
    && sp'.prefix == sp.prefix && sp'.username == sp.username
    && (forall c :: c in sp.components <==> c in sp'.components)
    && (forall e :: e in sp.external <==> e in sp'.external)
  }

  lemma SameNamesIntend(sp: Spec, sp': Spec, g: Grant)
    requires SameNames(sp, sp') && Intended(sp, g)
    ensures Intended(sp', g)
  {
    var p :| IsParty(sp, p) && GrantOf(sp, p, g);
    if p.Monitor? && Guards(sp, sp.components, g.topic) {
      var c :| c in sp.components && c != SECURITY_MONITOR && (g.topic == Topic(sp, c) || g.topic == Reply(sp, c));
      assert c in sp'.components && (g.topic == Topic(sp', c) || g.topic == Reply(sp', c));
    }
    assert IsParty(sp', p) && GrantOf(sp', p, g);
  }

  /** The meaning does not depend on order or repetition. */
  lemma OrderAndRepetitionDoNotMatter(sp: Spec, sp': Spec)
    requires Clean(sp) && Clean(sp') && SameNames(sp, sp')
    ensures Meaning(Printed(Program(sp))) == Meaning(Printed(Program(sp')))
  {
    var a, b := Meaning(Printed(Program(sp))), Meaning(Printed(Program(sp')));
    forall g
      ensures g in a <==> g in b
    {
      CompilationPreservesMeaning(sp, g);
      CompilationPreservesMeaning(sp', g);
      if Intended(sp, g) {
        SameNamesIntend(sp, sp', g);
      }
      if Intended(sp', g) {
        SameNamesIntend(sp', sp, g);
      }
    }
  }

  /** Components in another order give the very same file. */
  lemma TextIsCanonical(sp: Spec, components: seq<string>)
    requires multiset(components) == multiset(sp.components)
    ensures Printed(Program(sp.(components := components))) == Printed(Program(sp))
  {
    var sp' := sp.(components := components);
    AscendingUnique(Sorted(sp.components), Sorted(components));
    GuardAllSame(sp, sp', Sorted(components));
    ComponentAllSame(sp, sp', Sorted(components));
    ExternalAllSame(sp, sp', sp.external);
  }

  ghost predicate SameTopics(sp: Spec, sp': Spec) {
    sp'.prefix == sp.prefix && sp'.username == sp.username
  }

  lemma {:induction false} GuardAllSame(sp: Spec, sp': Spec, cs: seq<string>)
    requires SameTopics(sp, sp')
    ensures GuardAll(sp, cs) == GuardAll(sp', cs)
    decreases |cs|
  {
    if cs != [] {
      GuardAllSame(sp, sp', cs[..|cs| - 1]);
    }
  }

  lemma {:induction false} ComponentAllSame(sp: Spec, sp': Spec, cs: seq<string>)
    requires SameTopics(sp, sp')
    ensures ComponentAll(sp, cs) == ComponentAll(sp', cs)
    decreases |cs|
  {
    if cs != [] {
      ComponentAllSame(sp, sp', cs[..|cs| - 1]);
    }
  }

  lemma {:induction false} ExternalAllSame(sp: Spec, sp': Spec, es: seq<External>)
    requires SameTopics(sp, sp')
    ensures ExternalAll(sp, es) == ExternalAll(sp', es)
    decreases |es|
  {
    if es != [] {
      ExternalAllSame(sp, sp', es[..|es| - 1]);
    }
  }

  /** The topics of the file are those the components use on the bus. */
  lemma TopicsMeetTheBus(sp: Spec, c: string)
    requires TrimSpace(sp.prefix) == sp.prefix && TrimSpace(c) == c
    ensures MonitorTopic(sp) == BrokerTopic(sp.prefix, "security_monitor")
    ensures Topic(sp, c) == BrokerTopic(sp.prefix, c)
    ensures Reply(sp, c) == BrokerTopic(BrokerTopic(sp.prefix, "replies"), c)
  {
    assert sp.prefix + "." + "replies" + "." == sp.prefix + ".replies.";
  }
}
