/** The WPL parser. */
module WplParser {
  import opened Common
  import opened Text
  import opened Numerals
  import opened WplSpec

  method KeepLines(lines: seq<string>) returns (kept: seq<string>)
    ensures kept == Kept(lines)
  {
    kept := [];
    var i := 0;
    while i < |lines|
      invariant 0 <= i <= |lines| && kept == Kept(lines[..i])
    {
      assert lines[..i + 1][..i] == lines[..i];
      var l := TrimSpace(lines[i]);
      if l != "" {
        kept := kept + [l];
      }
      i := i + 1;
    }
    assert lines[..i] == lines;
  }

  /** Look for the mark in any position. */
  method HasMark(s: string) returns (found: bool)
    ensures found <==> IsHeader(s)
  {
    var i := 0;
    while i < |s|
      invariant 0 <= i <= |s|
      invariant forall j: nat :: j < i ==> !MarkAt(s, j)
    {
      if MarkAt(s, i) {
        return true;
      }
      i := i + 1;
    }
    return false;
  }

  /** The rows up to and including `i` extend those before by one. */
  lemma RowsGrow(rows: seq<Row>, i: nat)
    requires i < |rows|
    ensures rows[..i + 1][..i] == rows[..i] && rows[..i + 1][i] == rows[i]
  {
  }

  /** The accumulation of one readable row. */
  method TakeRow(row: Row, home: Option<Coord>, steps: seq<Step>, ghost before: seq<Row>, ghost after: seq<Row>)
    returns (home': Option<Coord>, steps': seq<Step>)
    requires after != [] && after[..|after| - 1] == before && after[|after| - 1] == row
    requires home == HomeOf(before) && steps == Numbered(StepsOf(before))
    ensures home' == HomeOf(after) && steps' == Numbered(StepsOf(after))
  {
    home', steps' := home, steps;
    if row.HomeRow? {
      home' := Some(row.at);
    } else if row.StepRow? {
      var id := Pad3(|steps|);
      steps' := steps + [Step("wp-" + id, row.at)];
      assert StepsOf(after) == StepsOf(before) + [row.at];
    }
  }

  /** Split one line into columns and read it. */
  method ParseRow(f: FloatReader, line: string) returns (row: Row)
    ensures row == ReadRow(f, line)
  {
    var parts := Split(line, '\t');
    if |parts| < COLUMNS {
      parts := Fields(line);
    }
    if |parts| < COLUMNS {
      return Short;
    }
    var idx, cmd := Atoi(TrimSpace(parts[0])), Atoi(TrimSpace(parts[3]));
    var lat, lon, alt := f(TrimSpace(parts[8])), f(TrimSpace(parts[9])), f(TrimSpace(parts[10]));
    if idx.None? || cmd.None? || lat.None? || lon.None? || alt.None? {
      return Unreadable;
    }
    var at := Coord(lat.value, lon.value, alt.value);
    if idx.value == 0 && Atoi(TrimSpace(parts[1])) == Some(1) {
      return HomeRow(at);
    }
    return if cmd.value == NAV_WAYPOINT then StepRow(at) else OtherRow;
  }

  lemma BadGives(rows: seq<Row>, i: nat, id: string, fallback: string)
    requires FirstBad(rows, i)
    ensures RowsGive(rows, id, fallback, Rejected(if rows[i].Short? then TooFewColumns(i + 1) else ParseError(i + 1)))
  {
    forall j: nat | FirstBad(rows, j)
      ensures j == i
    {
      assert !(i < j) && !(j < i);
    }
  }

  /** What has been read when the loop stops at row `i`. */
  ghost predicate ReadUpTo(rows: seq<Row>, i: nat, home: Option<Coord>, steps: seq<Step>) {
    && i <= |rows| && NoneBad(rows[..i])
    && home == HomeOf(rows[..i]) && steps == Numbered(StepsOf(rows[..i]))
  }

  method AddRow(row: Row, home: Option<Coord>, steps: seq<Step>, ghost rows: seq<Row>, ghost i: nat)
    returns (home': Option<Coord>, steps': seq<Step>)
    requires ReadUpTo(rows, i, home, steps) && i < |rows| && row == rows[i] && !Bad(row)
    ensures ReadUpTo(rows, i + 1, home', steps')
  {
    RowsGrow(rows, i);
    home', steps' := TakeRow(row, home, steps, rows[..i], rows[..i + 1]);
  }

  /** Reads rows until one is bad or there are no more. */
  method ReadUntilBad(f: FloatReader, lines: seq<string>)
    returns (i: nat, row: Row, home: Option<Coord>, steps: seq<Step>)
    ensures ReadUpTo(ReadRows(f, lines), i, home, steps)
    ensures i < |lines| ==> Bad(row) && row == ReadRows(f, lines)[i]
  {
    ghost var rows := ReadRows(f, lines);
    home, steps, i, row := None, [], 0, OtherRow;
    while i < |lines|
      invariant i <= |lines| && ReadUpTo(rows, i, home, steps)
    {
      row := ParseRow(f, lines[i]);
      if Bad(row) {
        return;
      }
      home, steps := AddRow(row, home, steps, rows, i);
      i := i + 1;
    }
  }

  /** A bad row decides; otherwise the rows add up to a mission or to nothing. */
  method ParseRows(f: FloatReader, lines: seq<string>, id: string, fallback: string) returns (r: Wpl)
    ensures RowsGive(ReadRows(f, lines), id, fallback, r)
  {
    var i, row, home, steps := ReadUntilBad(f, lines);
    ghost var rows := ReadRows(f, lines);
    if i < |lines| {
      FirstBadAt(rows, i);
      BadGives(rows, i, id, fallback);
      return Rejected(if row.Short? then TooFewColumns(i + 1) else ParseError(i + 1));
    }
    assert rows[..i] == rows;
    r := Concluded(home, steps, id, fallback, rows);
  }

  lemma FirstBadAt(rows: seq<Row>, i: nat)
    requires i < |rows| && NoneBad(rows[..i]) && Bad(rows[i])
    ensures FirstBad(rows, i)
  {
    assert forall j :: 0 <= j < i ==> rows[..i][j] == rows[j];
  }

  /** The end of a file without bad rows. */
  method Concluded(home: Option<Coord>, steps: seq<Step>, id: string, fallback: string, ghost rows: seq<Row>)
    returns (r: Wpl)
    requires NoneBad(rows) && home == HomeOf(rows) && steps == Numbered(StepsOf(rows))
    ensures RowsGive(rows, id, fallback, r)
  {
    if |steps| == 0 {
      return Rejected(NoWaypoints);
    }
    var base := if home.Some? then home.value else steps[0].at.(alt := 0.0);
    return Accepted(if id == "" then fallback else id, base, steps);
  }

  method ParseWpl(f: FloatReader, content: string, id: string, fallback: string) returns (r: Wpl)
    ensures Parses(f, content, id, fallback, r)
  {
    var trimmed := TrimSpace(content);
    if trimmed == "" {
      return Rejected(EmptyOrInvalid);
    }
    var lines := KeepLines(Split(trimmed, '\n'));
    if |lines| == 0 {
      return Rejected(EmptyWpl);
    }
    var header := HasMark(lines[0]);
    if !header {
      return Rejected(InvalidHeader);
    }
    r := ParseRows(f, lines[1..], id, fallback);
  }
}
