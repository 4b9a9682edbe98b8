/** The QGC WPL mission format: what a file says, row by row. */
module WplSpec {
  import opened Common
  import opened Text
  import opened Numerals
  import opened Missions

  /** Reading a decimal fraction is a parameter; None is a number that does not parse. */
  type FloatReader = string -> Option<real>

  datatype Coord = Coord(lat: real, lon: real, alt: real)

  datatype Step = Step(id: string, at: Coord)

  datatype Reason =
    | EmptyOrInvalid | EmptyWpl | InvalidHeader
    | TooFewColumns(line: nat) | ParseError(line: nat)
    | NoWaypoints

  datatype Wpl = Rejected(reason: Reason) | Accepted(id: string, home: Coord, steps: seq<Step>)

  const NAV_WAYPOINT := 16
  const COLUMNS := 12

  // ---- lines ------------------------------------------------------------------------

  /** The lines of a file, trimmed, without the empty ones. */
  function Kept(lines: seq<string>): seq<string> {
    if lines == [] then []
    else Kept(lines[..|lines| - 1]) + (var l := TrimSpace(lines[|lines| - 1]); if l != "" then [l] else [])
  }

  function LinesOf(content: string): seq<string> {
    Kept(Split(TrimSpace(content), '\n'))
  }

  function Upper(c: char): char {
    if 'a' <= c <= 'z' then (c as int - 32) as char else c
  }

  /** The letters WPL from position i on, in either case. */
  predicate MarkAt(s: string, i: nat) {
    i + 3 <= |s| && Upper(s[i]) == 'W' && Upper(s[i + 1]) == 'P' && Upper(s[i + 2]) == 'L'
  }

  /** A header names the format; the longer form with QGC does too. */
  predicate IsHeader(s: string) {
    exists i: nat :: i < |s| && MarkAt(s, i)
  }

  // ---- rows --------------------------------------------------------------------------

  /** Columns are separated by tabs, or else by white space. */
  function Columns(line: string): seq<string> {
    var tabbed := Split(line, '\t');
    if |tabbed| < COLUMNS then Fields(line) else tabbed
  }

  datatype Row = Short | Unreadable | HomeRow(at: Coord) | StepRow(at: Coord) | OtherRow

  predicate Bad(r: Row) {
    r.Short? || r.Unreadable?
  }

  /** What the columns of a row say. */
  function Classified(idx: Option<int>, current: Option<int>, cmd: Option<int>,
                      lat: Option<real>, lon: Option<real>, alt: Option<real>): Row
  {
    if idx.None? || cmd.None? || lat.None? || lon.None? || alt.None? then Unreadable
    else
      var at := Coord(lat.value, lon.value, alt.value);
      if idx.value == 0 && current == Some(1) then HomeRow(at)
      else if cmd.value != NAV_WAYPOINT then OtherRow
      else StepRow(at)
  }

  function RowOf(f: FloatReader, parts: seq<string>): Row {
    if |parts| < COLUMNS then Short
    else Classified(Atoi(TrimSpace(parts[0])), Atoi(TrimSpace(parts[1])), Atoi(TrimSpace(parts[3])),
                    f(TrimSpace(parts[8])), f(TrimSpace(parts[9])), f(TrimSpace(parts[10])))
  }

  function ReadRow(f: FloatReader, line: string): Row {
    RowOf(f, Columns(line))
  }

  function ReadRows(f: FloatReader, lines: seq<string>): (rows: seq<Row>)
    ensures |rows| == |lines| && forall i :: 0 <= i < |lines| ==> rows[i] == ReadRow(f, lines[i])
  {
    seq(|lines|, i requires 0 <= i < |lines| => ReadRow(f, lines[i]))
  }

  // ---- the mission ---------------------------------------------------------------------

  /** The waypoints of the rows, in order. */
  function StepsOf(rows: seq<Row>): seq<Coord> {
    if rows == [] then []
    else StepsOf(rows[..|rows| - 1]) + (if rows[|rows| - 1].StepRow? then [rows[|rows| - 1].at] else [])
  }

  /** The last home row. */
  function HomeOf(rows: seq<Row>): Option<Coord> {
    if rows == [] then None
    else if rows[|rows| - 1].HomeRow? then Some(rows[|rows| - 1].at) else HomeOf(rows[..|rows| - 1])
  }

  function StepId(k: nat): string {
    "wp-" + PadTo3(Itoa(k))
  }

  function Numbered(cs: seq<Coord>): (steps: seq<Step>)
    ensures |steps| == |cs| && forall i :: 0 <= i < |cs| ==> steps[i] == Step(StepId(i), cs[i])
  {
    seq(|cs|, i requires 0 <= i < |cs| => Step(StepId(i), cs[i]))
  }

  /** `i` is the first bad row. */
  predicate FirstBad(rows: seq<Row>, i: nat) {
    i < |rows| && Bad(rows[i]) && forall j :: 0 <= j < i ==> !Bad(rows[j])
  }

  predicate NoneBad(rows: seq<Row>) {
    forall j :: 0 <= j < |rows| ==> !Bad(rows[j])
  }

  /** Home: its row, or the ground below the first waypoint. */
  function Home(rows: seq<Row>): Coord
    requires StepsOf(rows) != []
  {
    if HomeOf(rows).Some? then HomeOf(rows).value else StepsOf(rows)[0].(alt := 0.0)
  }

  /** `r` is what a file whose first line is a header, with these rows, comes to. */
  ghost predicate RowsGive(rows: seq<Row>, id: string, fallback: string, r: Wpl) {
    && (forall i: nat :: FirstBad(rows, i) ==>
          r == Rejected(if rows[i].Short? then TooFewColumns(i + 1) else ParseError(i + 1)))
    && (NoneBad(rows) && StepsOf(rows) == [] ==> r == Rejected(NoWaypoints))
    && (NoneBad(rows) && StepsOf(rows) != [] ==>
          r == Accepted(if id == "" then fallback else id, Home(rows), Numbered(StepsOf(rows))))
  }

  /** `r` is what the parser makes of a file. */
  ghost predicate Parses(f: FloatReader, content: string, id: string, fallback: string, r: Wpl) {
    var lines := LinesOf(content);
    if TrimSpace(content) == "" then r == Rejected(EmptyOrInvalid)
    else if lines == [] then r == Rejected(EmptyWpl)
    else if !IsHeader(lines[0]) then r == Rejected(InvalidHeader)
    else RowsGive(ReadRows(f, lines[1..]), id, fallback, r)
  }

  /** The mission as the mission handler passes it on: five metres a second, nothing dropped. */
  function AsMission(w: Wpl): Mission
    requires w.Accepted?
  {
    Mission(w.id, seq(|w.steps|, i requires 0 <= i < |w.steps| =>
      Waypoint(Number(w.steps[i].at.lat), Number(w.steps[i].at.lon), Number(w.steps[i].at.alt), Number(5.0), false)))
  }
}
