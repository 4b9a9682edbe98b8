/** What the WPL parser accepts, names and gives back. */
module WplTheory {
  import opened Common
  import opened Text
  import opened Numerals
  import opened Missions
  import MH = MissionHandler
  import opened WplSpec

  // ---- every file has exactly one outcome ------------------------------------------------------

  /** The rows before the first bad one, or all of them. */
  lemma {:induction false} SomeFirstBad(rows: seq<Row>) returns (i: nat)
    ensures FirstBad(rows, i) || (NoneBad(rows) && i == |rows|)
    decreases |rows|
  {
    if rows == [] {
      return 0;
    }
    var init := rows[..|rows| - 1];
    i := SomeFirstBad(init);
    assert forall j :: 0 <= j < |init| ==> init[j] == rows[j];
    if i == |init| && !Bad(rows[|rows| - 1]) {
      i := |rows|;
    }
  }

  lemma RowsGiveOne(rows: seq<Row>, id: string, fallback: string, r: Wpl, r': Wpl)
    requires RowsGive(rows, id, fallback, r) && RowsGive(rows, id, fallback, r')
    ensures r == r'
  {
    var i := SomeFirstBad(rows);
  }

  /** The relation between files and outcomes is a function. */
  lemma ParsesIsAFunction(f: FloatReader, content: string, id: string, fallback: string, r: Wpl, r': Wpl)
    requires Parses(f, content, id, fallback, r) && Parses(f, content, id, fallback, r')
    ensures r == r'
  {
    var lines := LinesOf(content);
    if TrimSpace(content) != "" && lines != [] && IsHeader(lines[0]) {
      RowsGiveOne(ReadRows(f, lines[1..]), id, fallback, r, r');
    }
  }

  // ---- rejected files -----------------------------------------------------------------------------

  /** The line number a rejection names. */
  function Named(r: Wpl): Option<nat> {
    match r
    case Rejected(TooFewColumns(i)) => Some(i)
    case Rejected(ParseError(i)) => Some(i)
    case _ => None
  }

  lemma RowsNameFirstBad(rows: seq<Row>, id: string, fallback: string, r: Wpl, i: nat)
    requires RowsGive(rows, id, fallback, r)
    ensures Named(r) == Some(i + 1) <==> FirstBad(rows, i)
  {
    var k := SomeFirstBad(rows);
    if FirstBad(rows, k) {
      assert FirstBad(rows, i) ==> !(i < k) && !(k < i);
    }
  }

  /** A rejection names a line exactly when the file has a header and a bad row, and
      then it is the first one. */
  lemma FirstBadRowIsNamed(f: FloatReader, content: string, id: string, fallback: string, r: Wpl, i: nat)
    requires Parses(f, content, id, fallback, r)
    ensures var lines := LinesOf(content);
      Named(r) == Some(i + 1) <==>
        TrimSpace(content) != "" && lines != [] && IsHeader(lines[0]) && FirstBad(ReadRows(f, lines[1..]), i)
  {
    var lines := LinesOf(content);
    if TrimSpace(content) != "" && lines != [] && IsHeader(lines[0]) {
      RowsNameFirstBad(ReadRows(f, lines[1..]), id, fallback, r, i);
    }
  }

  lemma {:induction false} KeptFirst(lines: seq<string>)
    requires lines != [] && TrimSpace(lines[0]) != ""
    ensures Kept(lines) != []
    decreases |lines|
  {
    if |lines| > 1 {
      assert lines[..|lines| - 1][0] == lines[0];
      KeptFirst(lines[..|lines| - 1]);
    } else {
      assert lines[..0] == [];
    }
  }

  lemma SplitStarts(s: string)
    requires s != "" && s[0] != '\n'
    ensures Split(s, '\n')[0] != "" && Split(s, '\n')[0][0] == s[0]
  {
  }

  /** The second emptiness test is never reached: a file that is not blank has a line. */
  lemma EmptyWplIsDead(content: string)
    requires TrimSpace(content) != ""
    ensures LinesOf(content) != []
  {
    var t := TrimSpace(content);
    TrimGives(content);
    SplitStarts(t);
    TrimKeepsFirst(Split(t, '\n')[0]);
    KeptFirst(Split(t, '\n'));
  }

  // ---- accepted files ------------------------------------------------------------------------------

  lemma AcceptedComesFromRows(f: FloatReader, content: string, id: string, fallback: string, r: Wpl) returns (rows: seq<Row>)
    requires Parses(f, content, id, fallback, r) && r.Accepted?
    ensures NoneBad(rows) && StepsOf(rows) != []
    ensures r == Accepted(if id == "" then fallback else id, Home(rows), Numbered(StepsOf(rows)))
  {
    rows := ReadRows(f, LinesOf(content)[1..]);
    var i := SomeFirstBad(rows);
  }

  /** Every accepted file passes the structural check of the mission handler, and
      its step ids are pairwise distinct, however many there are. */
  lemma AcceptedIsWellFormed(f: FloatReader, content: string, id: string, fallback: string, r: Wpl)
    requires Parses(f, content, id, fallback, r) && r.Accepted? && fallback != ""
    ensures MH.WellFormed(AsMission(r))
    ensures forall i, j :: 0 <= i < j < |r.steps| ==> r.steps[i].id != r.steps[j].id
  {
    var rows := AcceptedComesFromRows(f, content, id, fallback, r);
    forall i, j | 0 <= i < j < |r.steps|
      ensures r.steps[i].id != r.steps[j].id
    {
      StepIdsDiffer(i, j);
    }
  }

  lemma StepIdsDiffer(i: nat, j: nat)
    requires i != j
    ensures StepId(i) != StepId(j)
  {
    assert StepId(i)[3..] == PadTo3(Itoa(i)) && StepId(j)[3..] == PadTo3(Itoa(j));
    if StepId(i) == StepId(j) {
      PaddedIsInjective(i, j);
    }
  }

  /** The same character, or the same letter in the other case. */
  predicate SameLetter(x: char, y: char) {
    || x == y
    || ('a' <= x <= 'z' && y as int == x as int - 32)
    || ('a' <= y <= 'z' && x as int == y as int - 32)
  }

  /** The header is recognized in any case. */
  lemma HeaderInAnyCase(s: string, t: string)
    requires |s| == |t| && forall i :: 0 <= i < |s| ==> SameLetter(s[i], t[i])
    ensures IsHeader(s) <==> IsHeader(t)
  {
    forall i: nat | i < |s|
      ensures MarkAt(s, i) <==> MarkAt(t, i)
    {
      assert SameLetter(s[i], t[i]);
      if i + 2 < |s| {
        assert SameLetter(s[i + 1], t[i + 1]) && SameLetter(s[i + 2], t[i + 2]);
      }
    }
  }

  // ---- the round trip ---------------------------------------------------------------------------------

  /** The number is printed as one word and reads back. */
  ghost predicate Shows(f: FloatReader, show: real -> string, x: real) {
    IsWord(show(x)) && f(show(x)) == Some(x)
  }

  ghost predicate ShowsAll(f: FloatReader, show: real -> string, c: Coord) {
    Shows(f, show, c.lat) && Shows(f, show, c.lon) && Shows(f, show, c.alt)
  }

  /** The columns of a row: index, current, frame, command, four parameters, the
      coordinates, autocontinue. */
  function RowColumns(show: real -> string, index: nat, current: nat, c: Coord): seq<string> {
    [Itoa(index), Itoa(current), "3", "16", "0", "0", "0", "0", show(c.lat), show(c.lon), show(c.alt), "1"]
  }

  predicate IsSeparator(sep: char) {
    sep == '\t' || sep == ' '
  }

  lemma {:induction false} DigitsAreWords(s: string)
    requires s != "" && AllDigits(s)
    ensures IsWord(s)
  {
    forall c <- s
      ensures !IsSpace(c)
    {
      assert IsDigit(c);
    }
  }

  lemma ColumnsAreWords(f: FloatReader, show: real -> string, index: nat, current: nat, c: Coord)
    requires ShowsAll(f, show, c)
    ensures forall w <- RowColumns(show, index, current, c) :: IsWord(w)
  {
    DigitsAreWords(Itoa(index));
    DigitsAreWords(Itoa(current));
  }

  /** Words joined by a separator: no line break, nothing to trim, no tab unless it
      is the separator. */
  lemma {:induction false} JoinIsClean(ws: seq<string>, sep: char, c: char)
    requires ws != [] && (forall w <- ws :: IsWord(w)) && IsSpace(c) && c != sep
    ensures Free(Join(ws, sep), c) && Join(ws, sep) != "" && !IsSpace(Join(ws, sep)[0])
    decreases |ws|
  {
    assert IsWord(ws[0]);
    if |ws| > 1 {
      JoinIsClean(ws[1..], sep, c);
    }
  }

  lemma {:induction false} JoinEnds(ws: seq<string>, sep: char)
    requires ws != [] && forall w <- ws :: IsWord(w)
    ensures Join(ws, sep) != "" && !IsSpace(Join(ws, sep)[|Join(ws, sep)| - 1])
    decreases |ws|
  {
    assert IsWord(ws[0]);
    if |ws| > 1 {
      JoinEnds(ws[1..], sep);
    }
  }

  /** The two ways of separating columns read back alike. */
  lemma ColumnsJoin(ws: seq<string>, sep: char)
    requires |ws| == COLUMNS && IsSeparator(sep) && forall w <- ws :: IsWord(w)
    ensures Columns(Join(ws, sep)) == ws
  {
    if sep == '\t' {
      forall w <- ws
        ensures Free(w, '\t')
      {
        assert IsWord(w);
      }
      SplitJoin(ws, sep);
    } else {
      JoinIsClean(ws, sep, '\t');
      SplitNone(Join(ws, sep), '\t');
      FieldsJoin(ws, sep);
    }
  }

  lemma WordsAreTrimmed(w: string)
    requires IsWord(w)
    ensures TrimSpace(w) == w
  {
    TrimmedStays(w);
  }

  lemma Atoi16()
    ensures Atoi("16") == Some(16) && IsWord("16")
  {
    assert AllDigits("16") && Value("16"[..1]) == 1;
    assert "16"[..1] == "1" && "1"[..0] == "";
  }

  lemma RowReadsBack(f: FloatReader, show: real -> string, index: nat, current: nat, c: Coord)
    requires ShowsAll(f, show, c) && index <= MAX_INT && current <= 1
    ensures RowOf(f, RowColumns(show, index, current, c)) ==
      if index == 0 && current == 1 then HomeRow(c) else StepRow(c)
  {
    DigitsAreWords(Itoa(index));
    DigitsAreWords(Itoa(current));
    Atoi16();
    WordsAreTrimmed(Itoa(index));
    WordsAreTrimmed(Itoa(current));
    WordsAreTrimmed("16");
    WordsAreTrimmed(show(c.lat));
    WordsAreTrimmed(show(c.lon));
    WordsAreTrimmed(show(c.alt));
    AtoiItoa(index);
    AtoiItoa(current);
  }

  function RowText(show: real -> string, sep: char, index: nat, current: nat, c: Coord): string {
    Join(RowColumns(show, index, current, c), sep)
  }

  predicate CleanLine(l: string) {
    IsTrimmed(l) && Free(l, '\n')
  }

  lemma RowTextReads(f: FloatReader, show: real -> string, sep: char, index: nat, current: nat, c: Coord)
    requires ShowsAll(f, show, c) && index <= MAX_INT && current <= 1 && IsSeparator(sep)
    ensures var line := RowText(show, sep, index, current, c);
      CleanLine(line) && ReadRow(f, line) == if index == 0 && current == 1 then HomeRow(c) else StepRow(c)
  {
    var ws := RowColumns(show, index, current, c);
    ColumnsAreWords(f, show, index, current, c);
    ColumnsJoin(ws, sep);
    RowReadsBack(f, show, index, current, c);
    JoinIsClean(ws, sep, '\n');
    JoinEnds(ws, sep);
  }

  const HEADER := "QGC WPL 110"

  /** A file: the header, the home row, and the waypoints numbered from one. */
  function FileLines(show: real -> string, sep: char, home: Coord, wps: seq<Coord>): (ls: seq<string>)
    ensures |ls| == |wps| + 2 && ls[0] == HEADER && ls[1] == RowText(show, sep, 0, 1, home)
    ensures forall k :: 0 <= k < |wps| ==> ls[k + 2] == RowText(show, sep, k + 1, 0, wps[k])
  {
    [HEADER, RowText(show, sep, 0, 1, home)]
    + seq(|wps|, k requires 0 <= k < |wps| => RowText(show, sep, k + 1, 0, wps[k]))
  }

  function FileText(show: real -> string, sep: char, home: Coord, wps: seq<Coord>): string {
    Join(FileLines(show, sep, home, wps), '\n')
  }

  lemma HeaderIsClean()
    ensures CleanLine(HEADER) && IsHeader(HEADER)
  {
    assert MarkAt(HEADER, 4);
  }

  lemma {:induction false} KeptClean(lines: seq<string>)
    requires forall l <- lines :: CleanLine(l)
    ensures Kept(lines) == lines
    decreases |lines|
  {
    if lines != [] {
      var init, l := lines[..|lines| - 1], lines[|lines| - 1];
      assert CleanLine(l) && lines == init + [l];
      KeptClean(init);
      TrimmedStays(l);
      assert Kept(lines) == Kept(init) + [l];
    }
  }

  lemma {:induction false} JoinIsTrimmed(lines: seq<string>)
    requires lines != [] && forall l <- lines :: CleanLine(l)
    ensures IsTrimmed(Join(lines, '\n'))
    decreases |lines|
  {
    assert CleanLine(lines[0]);
    if |lines| > 1 {
      JoinIsTrimmed(lines[1..]);
    }
  }

  /** Clean lines joined into a file are its lines again. */
  lemma LinesComeBack(lines: seq<string>)
    requires lines != [] && forall l <- lines :: CleanLine(l)
    ensures LinesOf(Join(lines, '\n')) == lines && TrimSpace(Join(lines, '\n')) != ""
  {
    JoinIsTrimmed(lines);
    TrimmedStays(Join(lines, '\n'));
    SplitJoin(lines, '\n');
    KeptClean(lines);
  }

  /** The rows of a printed file: the home, then the waypoints. */
  ghost predicate PrintedRows(rows: seq<Row>, home: Coord, wps: seq<Coord>) {
    && |rows| == |wps| + 1 && rows[0] == HomeRow(home)
    && forall k :: 0 <= k < |wps| ==> rows[k + 1] == StepRow(wps[k])
  }

  lemma {:induction false} RowsGiveBack(rows: seq<Row>, home: Coord, wps: seq<Coord>)
    requires PrintedRows(rows, home, wps)
    ensures StepsOf(rows) == wps && HomeOf(rows) == Some(home) && NoneBad(rows)
    decreases |wps|
  {
    var init := rows[..|rows| - 1];
    if wps == [] {
      assert init == [];
    } else {
      var wps' := wps[..|wps| - 1];
      assert PrintedRows(init, home, wps') by {
        forall k | 0 <= k < |wps'|
          ensures init[k + 1] == StepRow(wps'[k])
        {
          assert rows[k + 1] == StepRow(wps[k]);
        }
      }
      RowsGiveBack(init, home, wps');
      assert rows[|rows| - 1] == StepRow(wps[|wps| - 1]);
      assert wps == wps' + [wps[|wps| - 1]];
      forall j | 0 <= j < |rows|
        ensures !Bad(rows[j])
      {
        if j < |init| {
          assert init[j] == rows[j];
        }
      }
    }
  }

  /** All the coordinates print and read back. */
  ghost predicate Printable(f: FloatReader, show: real -> string, home: Coord, wps: seq<Coord>) {
    ShowsAll(f, show, home) && forall k :: 0 <= k < |wps| ==> ShowsAll(f, show, wps[k])
  }

  /** A line of a printed file that holds row `row`. */
  ghost predicate Holds(f: FloatReader, line: string, row: Row) {
    CleanLine(line) && ReadRow(f, line) == row
  }

  lemma HomeLineReads(f: FloatReader, show: real -> string, sep: char, c: Coord)
    requires IsSeparator(sep) && ShowsAll(f, show, c)
    ensures Holds(f, RowText(show, sep, 0, 1, c), HomeRow(c))
  {
    RowTextReads(f, show, sep, 0, 1, c);
  }

  lemma StepLineReads(f: FloatReader, show: real -> string, sep: char, index: nat, c: Coord)
    requires IsSeparator(sep) && ShowsAll(f, show, c) && 0 < index <= MAX_INT
    ensures Holds(f, RowText(show, sep, index, 0, c), StepRow(c))
  {
    RowTextReads(f, show, sep, index, 0, c);
  }

  lemma StepLineAt(f: FloatReader, show: real -> string, sep: char, home: Coord, wps: seq<Coord>, k: nat)
    requires IsSeparator(sep) && k < |wps| <= MAX_INT && ShowsAll(f, show, wps[k])
    ensures Holds(f, FileLines(show, sep, home, wps)[k + 2], StepRow(wps[k]))
  {
    StepLineReads(f, show, sep, k + 1, wps[k]);
  }

  lemma FileReads(f: FloatReader, show: real -> string, sep: char, home: Coord, wps: seq<Coord>)
    requires IsSeparator(sep) && Printable(f, show, home, wps) && |wps| <= MAX_INT
    ensures var lines := FileLines(show, sep, home, wps);
      Holds(f, lines[1], HomeRow(home)) && forall k :: 0 <= k < |wps| ==> Holds(f, lines[k + 2], StepRow(wps[k]))
  {
    HomeLineReads(f, show, sep, home);
    forall k | 0 <= k < |wps|
      ensures Holds(f, FileLines(show, sep, home, wps)[k + 2], StepRow(wps[k]))
    {
      StepLineAt(f, show, sep, home, wps, k);
    }
  }

  lemma LinesHold(f: FloatReader, lines: seq<string>, home: Coord, wps: seq<Coord>)
    requires |lines| == |wps| + 2 && CleanLine(lines[0]) && Holds(f, lines[1], HomeRow(home))
    requires forall k :: 0 <= k < |wps| ==> Holds(f, lines[k + 2], StepRow(wps[k]))
    ensures (forall l <- lines :: CleanLine(l)) && PrintedRows(ReadRows(f, lines[1..]), home, wps)
  {
    forall i | 0 <= i < |lines|
      ensures CleanLine(lines[i])
    {
      if i >= 2 {
        assert Holds(f, lines[(i - 2) + 2], StepRow(wps[i - 2]));
      }
    }
    var rest := lines[1..];
    var rows := ReadRows(f, rest);
    assert rest[0] == lines[1];
    forall k | 0 <= k < |wps|
      ensures rows[k + 1] == StepRow(wps[k])
    {
      assert rest[k + 1] == lines[k + 2];
      assert Holds(f, lines[k + 2], StepRow(wps[k]));
    }
  }

  /** The round trip: a header, a home row and any waypoints, printed with tabs or
      spaces, parse to the same home and the same coordinates in the same order. */
  lemma RoundTrip(f: FloatReader, show: real -> string, sep: char, home: Coord, wps: seq<Coord>,
                  id: string, fallback: string, r: Wpl)
    requires IsSeparator(sep) && Printable(f, show, home, wps) && 0 < |wps| <= MAX_INT
    requires Parses(f, FileText(show, sep, home, wps), id, fallback, r)
    ensures r == Accepted(if id == "" then fallback else id, home, Numbered(wps))
  {
    var lines := FileLines(show, sep, home, wps);
    FileReads(f, show, sep, home, wps);
    HeaderIsClean();
    LinesHold(f, lines, home, wps);
    LinesComeBack(lines);
    RowsGiveBack(ReadRows(f, lines[1..]), home, wps);
  }

  /** As a mission, accepted waypoints are flown at five metres a second and drop nothing. */
  lemma MissionOfWaypoints(id: string, home: Coord, wps: seq<Coord>)
    ensures var m := AsMission(Accepted(id, home, Numbered(wps)));
      && m.id == id && |m.steps| == |wps|
      && forall k :: 0 <= k < |wps| ==>
           m.steps[k] == Waypoint(Number(wps[k].lat), Number(wps[k].lon), Number(wps[k].alt), Number(5.0), false)
  {
  }
}
