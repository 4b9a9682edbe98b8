/** Generating the access-control file and the list of users. */
module Acl {
  import opened Common
  import opened Text
  import opened AclSpec
  import opened AclTheory

  // ---- usernames --------------------------------------------------------------------------

  predicate IsAlphanumeric(c: char) {
    'a' <= c <= 'z' || 'A' <= c <= 'Z' || '0' <= c <= '9'
  }

  /** What one character of a name contributes to its slug. */
  function SlugChar(c: char): string {
    if IsAlphanumeric(c) then [c] else if c == '-' || c == '_' || c == '.' then "_" else ""
  }

  function SlugChars(s: string): string {
    if s == "" then "" else SlugChars(s[..|s| - 1]) + SlugChar(s[|s| - 1])
  }

  function SlugOf(s: string): string {
    var out := SlugChars(TrimSpace(s));
    if out == "" then "default" else out
  }

  predicate IsSlug(s: string) {
    s != "" && forall c <- s :: IsAlphanumeric(c) || c == '_'
  }

  method Slug(s: string) returns (out: string)
    ensures out == SlugOf(s) && IsSlug(out)
  {
    var t := TrimSpace(s);
    if t == "" {
      return "default";
    }
    out := "";
    var i := 0;
    while i < |t|
      invariant 0 <= i <= |t| && out == SlugChars(t[..i])
      invariant forall c <- out :: IsAlphanumeric(c) || c == '_'
    {
      assert t[..i + 1][..i] == t[..i];
      out := out + SlugChar(t[i]);
      i := i + 1;
    }
    assert t[..i] == t;
    if out == "" {
      return "default";
    }
  }

  lemma {:induction false} SlugCharsAreClean(s: string)
    ensures forall c <- SlugChars(s) :: IsAlphanumeric(c) || c == '_'
    decreases |s|
  {
    if s != "" {
      SlugCharsAreClean(s[..|s| - 1]);
    }
  }

  /** A slug is never empty and holds nothing but letters, digits and underscores. */
  lemma SlugIsClean(s: string)
    ensures IsSlug(SlugOf(s))
  {
    SlugCharsAreClean(TrimSpace(s));
  }

  function DefaultUsername(instance: string, component: string): string {
    "dd_" + SlugOf(instance) + "_" + SlugOf(component)
  }

  lemma SuffixInjective(head: string, a: string, b: string)
    ensures head + a == head + b <==> a == b
  {
    assert (head + a)[|head|..] == a && (head + b)[|head|..] == b;
  }

  lemma SlugHasNoBreak(s: string)
    ensures Free(SlugOf(s), '\n')
  {
    SlugIsClean(s);
  }

  /** Default usernames never break a line, and two components of an instance share
      one exactly when their slugs agree. */
  lemma DefaultUsernames(instance: string, a: string, b: string)
    ensures Free(DefaultUsername(instance, a), '\n')
    ensures DefaultUsername(instance, a) == DefaultUsername(instance, b) <==> SlugOf(a) == SlugOf(b)
  {
    SlugHasNoBreak(instance);
    SlugHasNoBreak(a);
    SuffixInjective("dd_" + SlugOf(instance) + "_", SlugOf(a), SlugOf(b));
  }

  predicate IsNameChar(c: char) {
    IsAlphanumeric(c) || c == '-' || c == '_' || c == '.'
  }

  lemma {:induction false} SlugCharsOfName(s: string)
    requires forall c <- s :: IsNameChar(c)
    ensures |SlugChars(s)| == |s|
    ensures forall i :: 0 <= i < |s| ==> SlugChars(s)[i] == if IsAlphanumeric(s[i]) then s[i] else '_'
    decreases |s|
  {
    if s != "" {
      SlugCharsOfName(s[..|s| - 1]);
      assert IsNameChar(s[|s| - 1]);
    }
  }

  /** The slug of an ordinary name keeps letters and digits and makes the rest underscores;
      a blank name gets the default. */
  lemma SlugOfName(s: string)
    requires forall c <- s :: IsNameChar(c)
    ensures s != "" ==> |SlugOf(s)| == |s| && forall i :: 0 <= i < |s| ==> SlugOf(s)[i] == if IsAlphanumeric(s[i]) then s[i] else '_'
    ensures s == "" ==> SlugOf(s) == "default"
  {
    if s != "" {
      assert IsNameChar(s[0]) && IsNameChar(s[|s| - 1]);
      TrimmedStays(s);
      SlugCharsOfName(s);
    }
  }

  /** The default username of an instance and a component that are slugs already. */
  lemma DefaultUsernameOf(instance: string, component: string)
    requires IsSlug(instance) && IsSlug(component)
    ensures DefaultUsername(instance, component) == "dd_" + instance + "_" + component
  {
    SlugOfSlug(instance);
    SlugOfSlug(component);
  }

  lemma SlugOfSlug(s: string)
    requires IsSlug(s)
    ensures SlugOf(s) == s
  {
    SlugOfName(s);
    assert forall i :: 0 <= i < |s| ==> SlugOf(s)[i] == s[i];
  }

  lemma SlugOfThree(x: char, y: char, z: char)
    requires !IsSpace(x) && !IsSpace(z)
    ensures TrimSpace([x, y, z]) == [x, y, z]
    ensures SlugChars([x, y, z]) == SlugChar(x) + SlugChar(y) + SlugChar(z)
  {
    assert [x, y, z][..2] == [x, y] && [x, y][..1] == [x] && [x][..0] == [];
    assert SlugChars([x]) == SlugChar(x);
    assert SlugChars([x, y]) == SlugChar(x) + SlugChar(y);
  }

  /** Different components may share their slug, and so their default username. */
  lemma SlugsCollide(instance: string)
    ensures "a-b" != "a_b" && SlugOf("a-b") == SlugOf("a_b")
    ensures DefaultUsername(instance, "a-b") == DefaultUsername(instance, "a_b")
  {
    SlugOfThree('a', '-', 'b');
    SlugOfThree('a', '_', 'b');
    DefaultUsernames(instance, "a-b", "a_b");
    assert "a-b"[1] != "a_b"[1];
  }

  // ---- the file -----------------------------------------------------------------------------

  lemma Regroups(a: seq<Line>, b: seq<Line>, c: seq<Line>)
    ensures (a + b) + c == a + (b + c)
  {
  }

  lemma PrintedSnoc(a: seq<Line>, l: Line)
    ensures Printed(a + [l]) == Printed(a) + (Print(l) + ['\n'])
  {
    assert (a + [l])[..|a|] == a;
  }

  method EmitLine(text: string, ghost before: seq<Line>, l: Line) returns (out: string)
    requires text == Printed(before)
    ensures out == Printed(before + [l])
  {
    PrintedSnoc(before, l);
    out := text + (Print(l) + ['\n']);
  }

  lemma OneMore(before: seq<Line>, ls: seq<Line>, i: nat)
    requires i < |ls|
    ensures before + ls[..i + 1] == before + ls[..i] + [ls[i]]
  {
  }

  /** Writes lines after those a text already holds. */
  method Emit(text: string, ghost before: seq<Line>, ls: seq<Line>) returns (out: string)
    requires text == Printed(before)
    ensures out == Printed(before + ls)
  {
    out := text;
    ghost var written := before;
    var i := 0;
    while i < |ls|
      invariant 0 <= i <= |ls|
      invariant written == before + ls[..i] && out == Printed(written)
    {
      OneMore(before, ls, i);
      out := EmitLine(out, written, ls[i]);
      written := written + [ls[i]];
      i := i + 1;
    }
    assert ls[..i] == ls;
  }

  lemma GuardAllGrows(before: seq<Line>, sp: Spec, xs: seq<string>, x: string)
    ensures before + GuardAll(sp, xs + [x]) == before + GuardAll(sp, xs) + GuardLines(sp, x)
  {
    assert (xs + [x])[..|xs|] == xs;
    Regroups(before, GuardAll(sp, xs), GuardLines(sp, x));
  }

  /** The lines of the monitor about component `i`, which continue those of the ones before. */
  method GuardBlock(ghost before: seq<Line>, sp: Spec, comps: seq<string>, i: nat) returns (ls: seq<Line>)
    requires i < |comps|
    ensures before + GuardAll(sp, comps[..i + 1]) == before + GuardAll(sp, comps[..i]) + ls
  {
    ls := GuardLines(sp, comps[i]);
    assert comps[..i + 1] == comps[..i] + [comps[i]];
    GuardAllGrows(before, sp, comps[..i], comps[i]);
  }

  method EmitGuards(text: string, ghost before: seq<Line>, sp: Spec, comps: seq<string>) returns (out: string)
    requires text == Printed(before)
    ensures out == Printed(before + GuardAll(sp, comps))
  {
    out := text;
    ghost var written := before;
    assert before + GuardAll(sp, comps[..0]) == before;
    var i := 0;
    while i < |comps|
      invariant 0 <= i <= |comps|
      invariant written == before + GuardAll(sp, comps[..i]) && out == Printed(written)
    {
      var ls := GuardBlock(before, sp, comps, i);
      out := Emit(out, written, ls);
      written := written + ls;
      i := i + 1;
    }
    assert comps[..i] == comps;
  }

  lemma ComponentAllGrows(before: seq<Line>, sp: Spec, xs: seq<string>, x: string)
    ensures before + ComponentAll(sp, xs + [x]) == before + ComponentAll(sp, xs) + ComponentLines(sp, x)
  {
    assert (xs + [x])[..|xs|] == xs;
    Regroups(before, ComponentAll(sp, xs), ComponentLines(sp, x));
  }

  /** The lines of component `i`, which continue those of the ones before. */
  method ComponentBlock(ghost before: seq<Line>, sp: Spec, comps: seq<string>, i: nat) returns (ls: seq<Line>)
    requires i < |comps|
    ensures before + ComponentAll(sp, comps[..i + 1]) == before + ComponentAll(sp, comps[..i]) + ls
  {
    ls := ComponentLines(sp, comps[i]);
    assert comps[..i + 1] == comps[..i] + [comps[i]];
    ComponentAllGrows(before, sp, comps[..i], comps[i]);
  }

  method EmitComponents(text: string, ghost before: seq<Line>, sp: Spec, comps: seq<string>) returns (out: string)
    requires text == Printed(before)
    ensures out == Printed(before + ComponentAll(sp, comps))
  {
    out := text;
    ghost var written := before;
    assert before + ComponentAll(sp, comps[..0]) == before;
    var i := 0;
    while i < |comps|
      invariant 0 <= i <= |comps|
      invariant written == before + ComponentAll(sp, comps[..i]) && out == Printed(written)
    {
      var ls := ComponentBlock(before, sp, comps, i);
      out := Emit(out, written, ls);
      written := written + ls;
      i := i + 1;
    }
    assert comps[..i] == comps;
  }

  lemma ExternalAllGrows(before: seq<Line>, sp: Spec, xs: seq<External>, x: External)
    ensures before + ExternalAll(sp, xs + [x]) == before + ExternalAll(sp, xs) + ExternalLines(sp, x)
  {
    assert (xs + [x])[..|xs|] == xs;
    Regroups(before, ExternalAll(sp, xs), ExternalLines(sp, x));
  }

  /** The lines of external party `i`, which continue those of the ones before. */
  method ExternalBlock(ghost before: seq<Line>, sp: Spec, es: seq<External>, i: nat) returns (ls: seq<Line>)
    requires i < |es|
    ensures before + ExternalAll(sp, es[..i + 1]) == before + ExternalAll(sp, es[..i]) + ls
  {
    ls := ExternalLines(sp, es[i]);
    assert es[..i + 1] == es[..i] + [es[i]];
    ExternalAllGrows(before, sp, es[..i], es[i]);
  }

  method EmitExternal(text: string, ghost before: seq<Line>, sp: Spec, es: seq<External>) returns (out: string)
    requires text == Printed(before)
    ensures out == Printed(before + ExternalAll(sp, es))
  {
    out := text;
    ghost var written := before;
    assert before + ExternalAll(sp, es[..0]) == before;
    var i := 0;
    while i < |es|
      invariant 0 <= i <= |es|
      invariant written == before + ExternalAll(sp, es[..i]) && out == Printed(written)
    {
      var ls := ExternalBlock(before, sp, es, i);
      out := Emit(out, written, ls);
      written := written + ls;
      i := i + 1;
    }
    assert es[..i] == es;
  }

  /** The generated file means exactly the intended relation. */
  method GenerateAcl(sp: Spec) returns (text: string)
    ensures text == Printed(Program(sp))
    ensures Clean(sp) ==> forall g :: g in Meaning(text) <==> Intended(sp, g)
  {
    var comps := Sorted(sp.components);
    var head := Header(sp) + MonitorHead(sp);
    ghost var guarded := head + GuardAll(sp, comps);
    ghost var monitor := guarded + [Remark("")];
    ghost var internal := monitor + ComponentAll(sp, comps);
    assert [] + head == head;
    text := Emit("", [], head);
    text := EmitGuards(text, head, sp, comps);
    text := Emit(text, guarded, [Remark("")]);
    text := EmitComponents(text, monitor, sp, comps);
    text := EmitExternal(text, internal, sp, sp.external);
    GeneratedMeans(sp);
  }

  lemma GeneratedMeans(sp: Spec)
    ensures Clean(sp) ==> forall g :: g in Meaning(Printed(Program(sp))) <==> Intended(sp, g)
  {
    if Clean(sp) {
      forall g
        ensures g in Meaning(Printed(Program(sp))) <==> Intended(sp, g)
      {
        CompilationPreservesMeaning(sp, g);
      }
    }
  }

  // ---- the users --------------------------------------------------------------------------------

  predicate StrictlyAscending(ss: seq<string>) {
    forall i, j :: 0 <= i < j < |ss| ==> ss[i] != ss[j] && AtMost(ss[i], ss[j])
  }

  predicate Distinct(ss: seq<string>) {
    forall i, j :: 0 <= i < j < |ss| ==> ss[i] != ss[j]
  }

  lemma {:induction false} DistinctCounts(ss: seq<string>, x: string)
    requires Distinct(ss)
    ensures multiset(ss)[x] <= 1
    decreases |ss|
  {
    if ss != [] {
      var init, last := ss[..|ss| - 1], ss[|ss| - 1];
      DistinctCounts(init, x);
      assert ss == init + [last];
      if x == last {
        assert x !in init;
      }
    }
  }

  lemma CountsDistinct(ss: seq<string>)
    requires forall x :: multiset(ss)[x] <= 1
    ensures Distinct(ss)
  {
    forall i, j | 0 <= i < j < |ss|
      ensures ss[i] != ss[j]
    {
      assert ss == ss[..j] + [ss[j]] + ss[j + 1..];
      assert multiset(ss) == multiset(ss[..j]) + multiset{ss[j]} + multiset(ss[j + 1..]);
      assert ss[i] in ss[..j] by {
        assert ss[..j][i] == ss[i];
      }
      assert multiset(ss)[ss[j]] <= 1;
    }
  }

  /** Every username once, in ascending order. */
  method BrokerUsers(sp: Spec) returns (out: seq<string>)
    ensures StrictlyAscending(out)
    ensures forall u :: u in out <==> exists c :: c in sp.components && sp.username(c) == u
  {
    var seen: set<string> := {};
    var users: seq<string> := [];
    var i := 0;
    while i < |sp.components|
      invariant 0 <= i <= |sp.components| && Distinct(users)
      invariant forall u :: u in seen <==> u in users
      invariant forall u :: u in users <==> exists c :: c in sp.components[..i] && sp.username(c) == u
    {
      var u := sp.username(sp.components[i]);
      assert sp.components[..i + 1] == sp.components[..i] + [sp.components[i]];
      if u !in seen {
        seen := seen + {u};
        users := users + [u];
      }
      i := i + 1;
    }
    assert sp.components[..i] == sp.components;
    out := Sorted(users);
    SortedMembers(users);
    forall x
      ensures multiset(out)[x] <= 1
    {
      DistinctCounts(users, x);
    }
    CountsDistinct(out);
  }
}
