/** The string operations of the Go standard library that the components rely on. */
module Text {

  /** White space as the Go unicode tables list it. */
  predicate IsSpace(c: char) {
    || '\t' <= c <= '\r' || c == ' ' || c == '\U{85}' || c == '\U{A0}' || c == '\U{1680}'
    || '\U{2000}' <= c <= '\U{200A}' || c == '\U{2028}' || c == '\U{2029}'
    || c == '\U{202F}' || c == '\U{205F}' || c == '\U{3000}'
  }

  function TrimSpace(s: string): string {
    if s == "" then s
    else if IsSpace(s[0]) then TrimSpace(s[1..])
    else if IsSpace(s[|s| - 1]) then TrimSpace(s[..|s| - 1])
    else s
  }

  predicate Free(s: string, c: char) {
    c !in s
  }

  /** The pieces of a string between the separators; one more than there are separators. */
  function Split(s: string, sep: char): (r: seq<string>)
    ensures r != []
  {
    if s == "" then [""]
    else
      var rest := Split(s[1..], sep);
      if s[0] == sep then [""] + rest else [[s[0]] + rest[0]] + rest[1..]
  }

  /** Splitting takes off the first piece. */
  lemma {:induction false} SplitFirst(piece: string, sep: char, rest: string)
    requires Free(piece, sep)
    ensures Split(piece + [sep] + rest, sep) == [piece] + Split(rest, sep)
    decreases |piece|
  {
    var s := piece + [sep] + rest;
    if piece == "" {
      assert s[1..] == rest;
    } else {
      SplitFirst(piece[1..], sep, rest);
      assert s[1..] == piece[1..] + [sep] + rest;
      assert [piece[0]] + piece[1..] == piece;
    }
  }

  lemma {:induction false} SplitNone(s: string, sep: char)
    requires Free(s, sep)
    ensures Split(s, sep) == [s]
    decreases |s|
  {
    if s != "" {
      SplitNone(s[1..], sep);
      assert [s[0]] + s[1..] == s;
    }
  }

  /** The pieces with the separator between them. */
  function Join(pieces: seq<string>, sep: char): string {
    if pieces == [] then "" else if |pieces| == 1 then pieces[0] else pieces[0] + [sep] + Join(pieces[1..], sep)
  }

  lemma {:induction false} SplitJoin(pieces: seq<string>, sep: char)
    requires pieces != [] && forall p <- pieces :: Free(p, sep)
    ensures Split(Join(pieces, sep), sep) == pieces
    decreases |pieces|
  {
    if |pieces| == 1 {
      SplitNone(pieces[0], sep);
    } else {
      SplitJoin(pieces[1..], sep);
      SplitFirst(pieces[0], sep, Join(pieces[1..], sep));
    }
  }

  // ---- words -----------------------------------------------------------------------

  predicate IsWord(s: string) {
    s != "" && forall c <- s :: !IsSpace(c)
  }

  /** Length of the leading run of characters that are no space. */
  function WordLength(s: string): (n: nat)
    ensures n <= |s|
  {
    if s == "" || IsSpace(s[0]) then 0 else 1 + WordLength(s[1..])
  }

  /** The runs of characters that are no space. */
  function Fields(s: string): seq<string>
    decreases |s|
  {
    if s == "" then []
    else if IsSpace(s[0]) then Fields(s[1..])
    else [s[..WordLength(s)]] + Fields(s[WordLength(s)..])
  }

  lemma {:induction false} WordLengthOf(w: string, rest: string)
    requires (forall c <- w :: !IsSpace(c)) && (rest == "" || IsSpace(rest[0]))
    ensures WordLength(w + rest) == |w|
    decreases |w|
  {
    if w == "" {
      assert w + rest == rest;
    } else {
      assert (w + rest)[1..] == w[1..] + rest;
      WordLengthOf(w[1..], rest);
    }
  }

  lemma FieldsFirst(w: string, rest: string)
    requires IsWord(w) && (rest == "" || IsSpace(rest[0]))
    ensures Fields(w + rest) == [w] + Fields(if rest == "" then "" else rest[1..])
  {
    WordLengthOf(w, rest);
    var s := w + rest;
    assert s[0] == w[0];
    assert s[..|w|] == w && s[|w|..] == rest;
  }

  lemma {:induction false} FieldsJoin(words: seq<string>, sep: char)
    requires IsSpace(sep) && words != [] && forall w <- words :: IsWord(w)
    ensures Fields(Join(words, sep)) == words
    decreases |words|
  {
    if |words| == 1 {
      FieldsFirst(words[0], "");
      assert words[0] + "" == words[0];
    } else {
      FieldsJoin(words[1..], sep);
      FieldsNext(words[0], sep, Join(words[1..], sep));
    }
  }

  lemma FieldsNext(w: string, sep: char, rest: string)
    requires IsWord(w) && IsSpace(sep)
    ensures Fields(w + [sep] + rest) == [w] + Fields(rest)
  {
    FieldsFirst(w, [sep] + rest);
    assert w + ([sep] + rest) == w + [sep] + rest;
    assert ([sep] + rest)[1..] == rest;
  }

  // ---- trimming ---------------------------------------------------------------------

  predicate IsTrimmed(s: string) {
    s != "" && !IsSpace(s[0]) && !IsSpace(s[|s| - 1])
  }

  lemma TrimmedStays(s: string)
    requires IsTrimmed(s)
    ensures TrimSpace(s) == s
  {
  }

  lemma {:induction false} TrimGives(s: string)
    ensures TrimSpace(s) == "" || IsTrimmed(TrimSpace(s))
    decreases |s|
  {
    if s != "" && IsSpace(s[0]) {
      TrimGives(s[1..]);
    } else if s != "" && IsSpace(s[|s| - 1]) {
      TrimGives(s[..|s| - 1]);
    }
  }

  /** A string that starts with something other than space is not trimmed to nothing. */
  lemma {:induction false} TrimKeepsFirst(s: string)
    requires s != "" && !IsSpace(s[0])
    ensures TrimSpace(s) != ""
    decreases |s|
  {
    if IsSpace(s[|s| - 1]) {
      TrimKeepsFirst(s[..|s| - 1]);
    }
  }

  // ---- ordering ---------------------------------------------------------------------

  /** Strings in the order of their code points. */
  predicate AtMost(a: string, b: string) {
    a == "" || (b != "" && (a[0] < b[0] || (a[0] == b[0] && AtMost(a[1..], b[1..]))))
  }

  lemma {:induction false} AtMostTotal(a: string, b: string)
    ensures AtMost(a, b) || AtMost(b, a)
  {
    if a != "" && b != "" {
      AtMostTotal(a[1..], b[1..]);
    }
  }

  lemma {:induction false} AtMostAntisymmetric(a: string, b: string)
    requires AtMost(a, b) && AtMost(b, a)
    ensures a == b
  {
    if a != "" {
      AtMostAntisymmetric(a[1..], b[1..]);
      assert a == [a[0]] + a[1..] && b == [b[0]] + b[1..];
    }
  }

  lemma {:induction false} AtMostTransitive(a: string, b: string, c: string)
    requires AtMost(a, b) && AtMost(b, c)
    ensures AtMost(a, c)
  {
    if a != "" && a[0] == c[0] {
      AtMostTransitive(a[1..], b[1..], c[1..]);
    }
  }

  predicate Ascending(ss: seq<string>) {
    forall i, j :: 0 <= i < j < |ss| ==> AtMost(ss[i], ss[j])
  }

  function Insert(x: string, ss: seq<string>): (r: seq<string>)
    requires Ascending(ss)
    ensures Ascending(r) && multiset(r) == multiset{x} + multiset(ss)
  {
    if ss == [] then [x]
    else if AtMost(x, ss[0]) then
      InsertFirst(x, ss);
      [x] + ss
    else
      AtMostTotal(x, ss[0]);
      var r := Insert(x, ss[1..]);
      InsertLater(x, ss, r);
      [ss[0]] + r
  }

  lemma InsertFirst(x: string, ss: seq<string>)
    requires Ascending(ss) && ss != [] && AtMost(x, ss[0])
    ensures Ascending([x] + ss)
  {
    forall j | 0 <= j < |ss|
      ensures AtMost(x, ss[j])
    {
      if j > 0 {
        AtMostTransitive(x, ss[0], ss[j]);
      }
    }
  }

  lemma InsertLater(x: string, ss: seq<string>, r: seq<string>)
    requires Ascending(ss) && ss != [] && AtMost(ss[0], x)
    requires Ascending(r) && multiset(r) == multiset{x} + multiset(ss[1..])
    ensures Ascending([ss[0]] + r) && multiset([ss[0]] + r) == multiset{x} + multiset(ss)
  {
    assert ss == [ss[0]] + ss[1..];
    forall j | 0 <= j < |r|
      ensures AtMost(ss[0], r[j])
    {
      assert r[j] in multiset(r);
      if r[j] != x {
        assert r[j] in multiset(ss[1..]);
      }
    }
  }

  /** The strings in ascending order. */
  function Sorted(ss: seq<string>): (r: seq<string>)
    ensures Ascending(r) && multiset(r) == multiset(ss)
  {
    if ss == [] then []
    else
      assert ss == [ss[0]] + ss[1..];
      Insert(ss[0], Sorted(ss[1..]))
  }

  lemma TailHolds(a: seq<string>)
    requires a != []
    ensures a == [a[0]] + a[1..] && multiset(a[1..]) == multiset(a) - multiset{a[0]}
  {
    assert a == [a[0]] + a[1..];
  }

  /** An ascending sequence is determined by what it holds. */
  lemma {:induction false} AscendingUnique(a: seq<string>, b: seq<string>)
    requires Ascending(a) && Ascending(b) && multiset(a) == multiset(b)
    ensures a == b
    decreases |a|
  {
    assert |a| == |multiset(a)| == |multiset(b)| == |b|;
    if a != [] {
      SmallestFirst(a, b);
      SmallestFirst(b, a);
      AtMostAntisymmetric(a[0], b[0]);
      TailHolds(a);
      TailHolds(b);
      AscendingUnique(a[1..], b[1..]);
    }
  }

  lemma SmallestFirst(a: seq<string>, b: seq<string>)
    requires Ascending(a) && a != [] && b != [] && multiset(a) == multiset(b)
    ensures AtMost(a[0], b[0])
  {
    assert b[0] in multiset(b);
    assert b[0] in a;
    AtMostTotal(a[0], a[0]);
  }

  lemma SortedMembers(ss: seq<string>)
    ensures forall x :: x in Sorted(ss) <==> x in ss
  {
    forall x
      ensures x in Sorted(ss) <==> x in ss
    {
      assert x in Sorted(ss) <==> x in multiset(Sorted(ss));
      assert x in ss <==> x in multiset(ss);
    }
  }
}
