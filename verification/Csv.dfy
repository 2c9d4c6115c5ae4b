/** CSV export (routes/payments.ts) against CSV import (services/dataImportService.ts). */
module Csv {
  import opened Wrappers
  import opened Decimal

  // ---------------------------------------------------------------------------
  // Export
  // ---------------------------------------------------------------------------

  predicate NeedsQuotes(v: string) { '"' in v || ',' in v || '\r' in v || '\n' in v }

  function Doubled(v: string): string {
    if v == "" then "" else (if v[0] == '"' then "\"\"" else [v[0]]) + Doubled(v[1..])
  }

  function EscapeCell(v: string): string {
    if NeedsQuotes(v) then "\"" + Doubled(v) + "\"" else v
  }

  function JoinCells(cells: seq<string>): string
    requires cells != []
  {
    if |cells| == 1 then EscapeCell(cells[0]) else EscapeCell(cells[0]) + "," + JoinCells(cells[1..])
  }

  function ToCsvRow(cells: seq<string>): string
    requires cells != []
  {
    JoinCells(cells) + "\r\n"
  }

  // ---------------------------------------------------------------------------
  // Import of one line
  // ---------------------------------------------------------------------------

  /** The cells that a scan of `rest` still pushes, given the cell so far and the quote state. */
  function Scan(rest: string, current: string, inQuotes: bool): seq<string>
    decreases |rest|
  {
    if rest == "" then [current]
    else if rest[0] == '"' then
      if inQuotes && |rest| > 1 && rest[1] == '"' then Scan(rest[2..], current + "\"", inQuotes)
      else Scan(rest[1..], current, !inQuotes)
    else if rest[0] == ',' && !inQuotes then [current] + Scan(rest[1..], "", inQuotes)
    else Scan(rest[1..], current + [rest[0]], inQuotes)
  }

  function SplitLine(line: string): seq<string> { Scan(line, "", false) }

  method SplitCsvLine(line: string) returns (result: seq<string>)
    ensures result == SplitLine(line)
  {
    result := [];
    var current, inQuotes, i := "", false, 0;
    while i < |line|
      invariant 0 <= i <= |line|
      invariant result + Scan(line[i..], current, inQuotes) == SplitLine(line)
    {
      var c := line[i];
      if c == '"' {
        if inQuotes && i + 1 < |line| && line[i + 1] == '"' {
          assert line[i..][2..] == line[i + 2..];
          current := current + "\"";
          i := i + 1;
        } else {
          inQuotes := !inQuotes;
        }
      } else if c == ',' && !inQuotes {
        result := result + [current];
        current := "";
      } else {
        current := current + [c];
      }
      i := i + 1;
    }
    result := result + [current];
  }

  lemma {:induction false} ScanPlain(v: string, tail: string, current: string)
    requires !NeedsQuotes(v)
    ensures Scan(v + tail, current, false) == Scan(tail, current + v, false)
  {
    if v == "" {
      assert v + tail == tail && current + v == current;
    } else {
      assert (v + tail)[1..] == v[1..] + tail;
      ScanPlain(v[1..], tail, current + [v[0]]);
      assert current + [v[0]] + v[1..] == current + v;
    }
  }

  lemma {:induction false} ScanQuoted(v: string, tail: string, current: string)
    requires tail == "" || tail[0] != '"'
    ensures Scan(Doubled(v) + "\"" + tail, current, true) == Scan(tail, current + v, false)
  {
    var line := Doubled(v) + "\"" + tail;
    if v == "" {
      assert line[1..] == tail && current + v == current;
    } else {
      var rest := Doubled(v[1..]) + "\"" + tail;
      ScanQuoted(v[1..], tail, current + [v[0]]);
      assert current + [v[0]] + v[1..] == current + v;
      if v[0] == '"' {
        assert line == "\"\"" + rest;
        assert line[2..] == rest;
      } else {
        assert line == [v[0]] + rest;
        assert line[1..] == rest;
      }
    }
  }

  lemma OpenQuote(inner: string)
    ensures Scan("\"" + inner, "", false) == Scan(inner, "", true)
  {
    assert ("\"" + inner)[1..] == inner;
  }

  lemma ScanCell(v: string, tail: string)
    requires tail == "" || tail[0] == ','
    ensures Scan(EscapeCell(v) + tail, "", false) == Scan(tail, v, false)
  {
    if NeedsQuotes(v) {
      var inner := Doubled(v) + "\"" + tail;
      assert EscapeCell(v) + tail == "\"" + inner;
      OpenQuote(inner);
      ScanQuoted(v, tail, "");
      assert "" + v == v;
    } else {
      ScanPlain(v, tail, "");
      assert "" + v == v;
    }
  }

  /** A cell is quoted exactly when it holds a quote, a comma or a line break; else it stays as it is. */
  lemma QuotedIffNeeded(v: string)
    ensures '"' in EscapeCell(v) <==> exists i :: 0 <= i < |v| && v[i] in {'"', ',', '\r', '\n'}
    ensures '"' !in EscapeCell(v) ==> EscapeCell(v) == v
  {
    if NeedsQuotes(v) {
      assert EscapeCell(v)[0] == '"';
      assert exists i :: 0 <= i < |v| && v[i] in {'"', ',', '\r', '\n'};
    }
  }

  // Any line, escaped or not

  /** Commas of `s` with an even number of quotes before them, counting one more if `odd`. */
  function FreeCommas(s: string, odd: bool): nat {
    if s == "" then 0
    else if s[0] == '"' then FreeCommas(s[1..], !odd)
    else (if s[0] == ',' && !odd then 1 else 0) + FreeCommas(s[1..], odd)
  }

  lemma {:induction false} ScanCount(rest: string, current: string, inQuotes: bool)
    ensures |Scan(rest, current, inQuotes)| == 1 + FreeCommas(rest, inQuotes)
    decreases |rest|
  {
    if rest == "" {
    } else if rest[0] == '"' {
      if inQuotes && |rest| > 1 && rest[1] == '"' {
        ScanCount(rest[2..], current + "\"", inQuotes);
        assert rest[1..][1..] == rest[2..];
      } else {
        ScanCount(rest[1..], current, !inQuotes);
      }
    } else if rest[0] == ',' && !inQuotes {
      ScanCount(rest[1..], "", inQuotes);
    } else {
      ScanCount(rest[1..], current + [rest[0]], inQuotes);
    }
  }

  function NoQuotes(s: string): string {
    if s == "" then "" else if s[0] == '"' then NoQuotes(s[1..]) else [s[0]] + NoQuotes(s[1..])
  }

  /** The cells with commas between them. */
  function Commas(cells: seq<string>): string {
    if cells == [] then "" else if |cells| == 1 then cells[0] else cells[0] + "," + Commas(cells[1..])
  }

  lemma {:induction false} NoQuotesConcat(a: string, b: string)
    ensures NoQuotes(a + b) == NoQuotes(a) + NoQuotes(b)
  {
    if a == "" {
      assert a + b == b;
    } else {
      assert (a + b)[1..] == a[1..] + b;
      NoQuotesConcat(a[1..], b);
    }
  }

  lemma CutKeepsText(cell: string, more: seq<string>)
    requires more != []
    ensures NoQuotes(Commas([cell] + more)) == NoQuotes(cell) + "," + NoQuotes(Commas(more))
  {
    assert ([cell] + more)[1..] == more;
    assert Commas([cell] + more) == cell + "," + Commas(more);
    NoQuotesConcat(cell + ",", Commas(more));
    NoQuotesConcat(cell, ",");
    assert NoQuotes(",") == ",";
  }

  /** Quotes aside, the cells spell the cell so far and the rest of the line. */
  predicate Spells(cells: seq<string>, current: string, rest: string) {
    NoQuotes(Commas(cells)) == NoQuotes(current) + NoQuotes(rest)
  }

  lemma SpellsQuote(cells: seq<string>, current: string, rest: string)
    requires rest != "" && rest[0] == '"' && Spells(cells, current, rest[1..])
    ensures Spells(cells, current, rest)
  {
  }

  lemma SpellsPair(cells: seq<string>, current: string, rest: string)
    requires |rest| > 1 && rest[0] == rest[1] == '"' && Spells(cells, current + "\"", rest[2..])
    ensures Spells(cells, current, rest)
  {
    NoQuotesConcat(current, "\"");
    assert rest[1..][1..] == rest[2..];
  }

  lemma SpellsChar(cells: seq<string>, current: string, rest: string)
    requires rest != "" && rest[0] != '"' && Spells(cells, current + [rest[0]], rest[1..])
    ensures Spells(cells, current, rest)
  {
    NoQuotesConcat(current, [rest[0]]);
    assert NoQuotes([rest[0]]) == [rest[0]];
  }

  lemma SpellsCut(more: seq<string>, current: string, rest: string)
    requires rest != "" && rest[0] == ',' && more != [] && Spells(more, "", rest[1..])
    ensures Spells([current] + more, current, rest)
  {
    CutKeepsText(current, more);
  }

  lemma {:induction false} ScanSpells(rest: string, current: string, inQuotes: bool)
    ensures Spells(Scan(rest, current, inQuotes), current, rest)
    decreases |rest|
  {
    var cells := Scan(rest, current, inQuotes);
    if rest == "" {
      assert cells == [current];
    } else if rest[0] == '"' {
      if inQuotes && |rest| > 1 && rest[1] == '"' {
        ScanSpells(rest[2..], current + "\"", inQuotes);
        SpellsPair(cells, current, rest);
      } else {
        ScanSpells(rest[1..], current, !inQuotes);
        SpellsQuote(cells, current, rest);
      }
    } else if rest[0] == ',' && !inQuotes {
      ScanSpells(rest[1..], "", inQuotes);
      ScanCount(rest[1..], "", inQuotes);
      SpellsCut(Scan(rest[1..], "", inQuotes), current, rest);
    } else {
      ScanSpells(rest[1..], current + [rest[0]], inQuotes);
      SpellsChar(cells, current, rest);
    }
  }

  /** However a line is quoted, it is cut at exactly the commas with an even number of quotes before
      them, and but for quotes no character is lost, added or moved. */
  lemma SplitReading(line: string)
    ensures |SplitLine(line)| == 1 + FreeCommas(line, false)
    ensures NoQuotes(Commas(SplitLine(line))) == NoQuotes(line)
  {
    ScanCount(line, "", false);
    ScanSpells(line, "", false);
  }

  /** Splitting a row of escaped cells gives back the cells, whatever characters they hold. */
  lemma {:induction false} SplitInvertsJoin(cells: seq<string>)
    requires cells != []
    ensures SplitLine(JoinCells(cells)) == cells
  {
    if |cells| == 1 {
      ScanCell(cells[0], "");
      assert EscapeCell(cells[0]) + "" == EscapeCell(cells[0]);
    } else {
      var tail := "," + JoinCells(cells[1..]);
      ScanCell(cells[0], tail);
      assert JoinCells(cells) == EscapeCell(cells[0]) + tail;
      assert tail[1..] == JoinCells(cells[1..]);
      SplitInvertsJoin(cells[1..]);
    }
  }

  // ---------------------------------------------------------------------------
  // Import of a file
  // ---------------------------------------------------------------------------

  function TrimEnd(s: string): string {
    if s != "" && IsSpace(s[|s| - 1]) then TrimEnd(s[..|s| - 1]) else s
  }

  function Trim(s: string): string { TrimEnd(SkipSpaces(s)) }

  /** The lines of a text; a line ends at a line feed, with or without a carriage return before it. */
  function SplitLines(s: string): (lines: seq<string>)
    ensures lines != []
    decreases |s|
  {
    if s == "" then [""]
    else if s[0] == '\n' then [""] + SplitLines(s[1..])
    else if s[0] == '\r' && |s| > 1 && s[1] == '\n' then [""] + SplitLines(s[2..])
    else
      var rest := SplitLines(s[1..]);
      [[s[0]] + rest[0]] + rest[1..]
  }

  type Row = map<string, Option<string>>

  /** On an object with the ordinary prototype this key is a setter and makes no entry. */
  const PROTO := "__proto__"

  /** A row object under construction.  `bare`: a short line gave the setter null, which removed
      the prototype and the setter with it. */
  datatype Draft = Draft(row: Row, bare: bool)

  function Assigned(d: Draft, key: string, value: Option<string>): Draft {
    if key == PROTO && !d.bare then d.(bare := value.None?) else d.(row := d.row[key := value])
  }

  function ValueAt(values: seq<string>, i: nat): Option<string> {
    if i < |values| then Some(Trim(values[i])) else None
  }

  /** Header i maps to value i, or to null when the line is too short. */
  function DraftOf(headers: seq<string>, values: seq<string>): Draft {
    if headers == [] then Draft(map[], false)
    else
      var i := |headers| - 1;
      Assigned(DraftOf(headers[..i], values), Trim(headers[i]), ValueAt(values, i))
  }

  function RowOf(headers: seq<string>, values: seq<string>): Row { DraftOf(headers, values).row }

  function ParseLine(headers: seq<string>, line: string): Row { RowOf(headers, SplitLine(Trim(line))) }

  function ParseRows(headers: seq<string>, lines: seq<string>): seq<Row> {
    if lines == [] then []
    else if Trim(lines[0]) == "" then ParseRows(headers, lines[1..])
    else [ParseLine(headers, lines[0])] + ParseRows(headers, lines[1..])
  }

  function Parse(content: string): seq<Row> {
    var lines := SplitLines(Trim(content));
    if |lines| < 2 then [] else ParseRows(SplitLine(lines[0]), lines[1..])
  }

  method BuildRow(headers: seq<string>, values: seq<string>) returns (row: Row)
    ensures row == RowOf(headers, values)
  {
    row := map[];
    var bare := false;
    for idx := 0 to |headers|
      invariant Draft(row, bare) == DraftOf(headers[..idx], values)
    {
      DraftSnoc(headers, idx, values);
      var key, value := Trim(headers[idx]), if idx < |values| then Some(Trim(values[idx])) else None;
      if key == PROTO && !bare {
        bare := value.None?;
      } else {
        row := row[key := value];
      }
    }
    assert headers[..|headers|] == headers;
  }

  lemma DraftSnoc(headers: seq<string>, i: nat, values: seq<string>)
    requires i < |headers|
    ensures DraftOf(headers[..i + 1], values) ==
            Assigned(DraftOf(headers[..i], values), Trim(headers[i]), ValueAt(values, i))
  {
    assert headers[..i + 1][..i] == headers[..i];
  }

  method ParseDataLines(headers: seq<string>, lines: seq<string>) returns (rows: seq<Row>)
    ensures rows == ParseRows(headers, lines)
  {
    rows := [];
    for i := 0 to |lines|
      invariant rows == ParseRows(headers, lines[..i])
    {
      ParseRowsSnoc(headers, lines[..i], lines[i]);
      assert lines[..i + 1] == lines[..i] + [lines[i]];
      var line := Trim(lines[i]);
      if line == "" {
        continue;
      }
      var values := SplitCsvLine(line);
      var row := BuildRow(headers, values);
      rows := rows + [row];
    }
    assert lines[..|lines|] == lines;
  }

  lemma {:induction false} ParseRowsSnoc(headers: seq<string>, lines: seq<string>, line: string)
    ensures ParseRows(headers, lines + [line]) ==
            ParseRows(headers, lines) + (if Trim(line) == "" then [] else [ParseLine(headers, line)])
  {
    if lines == [] {
      assert lines + [line] == [line];
    } else {
      assert (lines + [line])[1..] == lines[1..] + [line];
      ParseRowsSnoc(headers, lines[1..], line);
    }
  }

  lemma ParseRowsHead(headers: seq<string>, lines: seq<string>)
    requires lines != []
    ensures ParseRows(headers, lines) ==
            if Trim(lines[0]) == "" then ParseRows(headers, lines[1..])
            else [ParseLine(headers, lines[0])] + ParseRows(headers, lines[1..])
  {
  }

  method ParseCsv(content: string) returns (rows: seq<Row>)
    ensures rows == Parse(content)
  {
    var lines := SplitLines(Trim(content));
    rows := [];
    if |lines| < 2 {
      return;
    }
    var headers := SplitCsvLine(lines[0]);
    rows := ParseDataLines(headers, lines[1..]);
  }

  // ---------------------------------------------------------------------------
  // File round trip
  // ---------------------------------------------------------------------------

  /** No white space at either end. */
  predicate Tight(s: string) { s != "" ==> !IsSpace(s[0]) && !IsSpace(s[|s| - 1]) }

  /** No line feed; a lone carriage return inside a cell does not break a line. */
  predicate OneLine(s: string) { '\n' !in s }

  predicate CleanCells(cells: seq<string>) {
    forall i :: 0 <= i < |cells| ==> Tight(cells[i]) && OneLine(cells[i])
  }

  function ExportRows(rows: seq<seq<string>>): string
    requires forall i :: 0 <= i < |rows| ==> rows[i] != []
  {
    if rows == [] then "" else ToCsvRow(rows[0]) + ExportRows(rows[1..])
  }

  function Lines(rows: seq<seq<string>>): (lines: seq<string>)
    requires forall i :: 0 <= i < |rows| ==> rows[i] != []
    ensures |lines| == |rows| && forall i :: 0 <= i < |rows| ==> lines[i] == JoinCells(rows[i])
  {
    if rows == [] then [] else [JoinCells(rows[0])] + Lines(rows[1..])
  }

  /** Lines separated, not terminated, by CRLF. */
  function JoinLines(lines: seq<string>): string
    requires lines != []
  {
    if |lines| == 1 then lines[0] else lines[0] + "\r\n" + JoinLines(lines[1..])
  }

  lemma TrimTight(s: string)
    requires Tight(s)
    ensures Trim(s) == s
  {
  }

  lemma TrimTerminated(s: string)
    requires s != "" && Tight(s)
    ensures Trim(s + "\r\n") == s
  {
    var t := s + "\r\n";
    assert SkipSpaces(t) == t;
    assert t[..|t| - 1] == s + "\r";
    assert (s + "\r")[..|s|] == s;
    assert TrimEnd(s) == s;
    assert TrimEnd(s + "\r") == s;
  }

  lemma {:induction false} DoubledOneLine(v: string)
    requires OneLine(v)
    ensures OneLine(Doubled(v))
  {
    if v != "" { DoubledOneLine(v[1..]); }
  }

  /** A line of clean cells is itself clean; it is empty only for a single empty cell. */
  lemma {:induction false} LineClean(cells: seq<string>)
    requires cells != [] && CleanCells(cells)
    ensures OneLine(JoinCells(cells)) && Tight(JoinCells(cells))
    ensures JoinCells(cells) == "" <==> cells == [""]
  {
    EscapeClean(cells[0]);
    if |cells| > 1 {
      LineClean(cells[1..]);
      CommaClean(EscapeCell(cells[0]), JoinCells(cells[1..]));
    }
  }

  lemma EscapeClean(v: string)
    requires Tight(v) && OneLine(v)
    ensures Tight(EscapeCell(v)) && OneLine(EscapeCell(v))
  {
    DoubledOneLine(v);
  }

  lemma CommaClean(a: string, b: string)
    requires Tight(a) && OneLine(a) && Tight(b) && OneLine(b)
    ensures Tight(a + "," + b) && OneLine(a + "," + b)
  {
  }

  lemma {:induction false} SplitOneLine(s: string)
    requires OneLine(s)
    ensures SplitLines(s) == [s]
  {
    if s != "" {
      SplitOneLine(s[1..]);
      assert [s[0]] + s[1..] == s;
    }
  }

  lemma {:induction false} SplitAtBreak(s: string, rest: string)
    requires OneLine(s)
    ensures SplitLines(s + "\r\n" + rest) == [s] + SplitLines(rest)
  {
    var t := s + "\r\n" + rest;
    if s == "" {
      assert t[2..] == rest;
    } else {
      assert t[1..] == s[1..] + "\r\n" + rest;
      SplitAtBreak(s[1..], rest);
      assert [s[0]] + s[1..] == s;
    }
  }

  lemma {:induction false} SplitInvertsJoinLines(lines: seq<string>)
    requires lines != [] && forall i :: 0 <= i < |lines| ==> OneLine(lines[i])
    ensures SplitLines(JoinLines(lines)) == lines
  {
    SplitOneLine(lines[0]);
    if |lines| > 1 {
      SplitAtBreak(lines[0], JoinLines(lines[1..]));
      SplitInvertsJoinLines(lines[1..]);
    }
  }

  lemma {:induction false} ExportIsJoinedLines(rows: seq<seq<string>>)
    requires rows != [] && forall i :: 0 <= i < |rows| ==> rows[i] != []
    ensures ExportRows(rows) == JoinLines(Lines(rows)) + "\r\n"
  {
    if |rows| > 1 {
      ExportIsJoinedLines(rows[1..]);
      assert Lines(rows)[1..] == Lines(rows[1..]);
    } else {
      assert ExportRows(rows[1..]) == "";
      assert ExportRows(rows) == ToCsvRow(rows[0]);
    }
  }

  lemma {:induction false} JoinedLinesTight(lines: seq<string>)
    requires lines != [] && forall i :: 0 <= i < |lines| ==> lines[i] != "" && Tight(lines[i])
    ensures JoinLines(lines) != "" && Tight(JoinLines(lines))
  {
    if |lines| > 1 { JoinedLinesTight(lines[1..]); }
  }

  ghost predicate DistinctHeaders(headers: seq<string>) {
    forall i, j :: 0 <= i < j < |headers| ==> headers[i] != headers[j]
  }

  /** Each header maps to the cell of its column, or to null where the line has none, and there is
      nothing else. */
  ghost predicate RowHolds(row: Row, headers: seq<string>, cells: seq<string>) {
    && (forall i :: 0 <= i < |headers| ==>
          headers[i] in row && row[headers[i]] == if i < |cells| then Some(cells[i]) else None)
    && (forall k :: k in row ==> k in headers)
  }

  /** Adding the last column. */
  lemma RowHoldsNext(row: Row, headers: seq<string>, cells: seq<string>)
    requires 0 < |headers| && DistinctHeaders(headers)
    requires RowHolds(row, headers[..|headers| - 1], cells)
    ensures var i := |headers| - 1;
            RowHolds(row[headers[i] := if i < |cells| then Some(cells[i]) else None], headers, cells)
  {
    var i := |headers| - 1;
    var row' := row[headers[i] := if i < |cells| then Some(cells[i]) else None];
    forall j | 0 <= j < |headers|
      ensures headers[j] in row' && row'[headers[j]] == if j < |cells| then Some(cells[j]) else None
    {
      if j < i { assert headers[..i][j] == headers[j]; }
    }
    forall k | k in row'
      ensures k in headers
    {
      if k in headers[..i] { assert k in headers; }
    }
  }

  /** The row object of any line, short or long, under distinct headers. */
  lemma {:induction false} RowOfHolds(headers: seq<string>, cells: seq<string>)
    requires CleanCells(headers) && CleanCells(cells) && DistinctHeaders(headers)
    requires PROTO !in headers
    ensures RowHolds(RowOf(headers, cells), headers, cells)
  {
    if headers != [] {
      var i := |headers| - 1;
      assert PROTO !in headers[..i] && headers[i] != PROTO;
      RowOfHolds(headers[..i], cells);
      TrimTight(headers[i]);
      if i < |cells| { TrimTight(cells[i]); }
      RowHoldsNext(RowOf(headers[..i], cells), headers, cells);
    }
  }

  /** With as many cells as headers the setter never sees null, so no row has its key. */
  lemma {:induction false} NoProtoEntry(headers: seq<string>, cells: seq<string>)
    requires |headers| <= |cells|
    ensures PROTO !in RowOf(headers, cells) && !DraftOf(headers, cells).bare
  {
    if headers != [] { NoProtoEntry(headers[..|headers| - 1], cells); }
  }

  /** Header `i` is the setter and its line has no value for it. */
  predicate NullSetter(headers: seq<string>, values: seq<string>, i: int) {
    0 <= i < |headers| && |values| <= i && Trim(headers[i]) == PROTO
  }

  ghost predicate SomeNull(headers: seq<string>, values: seq<string>) {
    exists i :: NullSetter(headers, values, i)
  }

  ghost predicate TwoNulls(headers: seq<string>, values: seq<string>) {
    exists i, j :: i < j && NullSetter(headers, values, i) && NullSetter(headers, values, j)
  }

  lemma NullsSnoc(headers: seq<string>, values: seq<string>)
    requires headers != []
    ensures var n := |headers| - 1;
            && (SomeNull(headers, values) <==> SomeNull(headers[..n], values) || NullSetter(headers, values, n))
            && (TwoNulls(headers, values) <==>
                  TwoNulls(headers[..n], values) || (SomeNull(headers[..n], values) && NullSetter(headers, values, n)))
            && (SomeNull(headers[..n], values) ==> |values| < n)
  {
    var n := |headers| - 1;
    forall i | i < n
      ensures NullSetter(headers, values, i) <==> NullSetter(headers[..n], values, i)
    {
    }
    if i :| NullSetter(headers[..n], values, i) { assert NullSetter(headers, values, i); }
    if i, j :| i < j && NullSetter(headers[..n], values, i) && NullSetter(headers[..n], values, j) {
      assert NullSetter(headers, values, i) && NullSetter(headers, values, j);
    }
  }

  /** A row has an entry for the setter's key exactly when a short line gives it null twice, and that
      entry is null. */
  lemma {:induction false} ProtoReading(headers: seq<string>, values: seq<string>)
    ensures DraftOf(headers, values).bare <==> SomeNull(headers, values)
    ensures PROTO in RowOf(headers, values) <==> TwoNulls(headers, values)
    ensures PROTO in RowOf(headers, values) ==> RowOf(headers, values)[PROTO] == None
  {
    if headers != [] {
      ProtoReading(headers[..|headers| - 1], values);
      NullsSnoc(headers, values);
    }
  }

  lemma ParseLineIsRow(headers: seq<string>, cells: seq<string>)
    requires cells != [] && CleanCells(cells)
    ensures cells != [""] ==> Trim(JoinCells(cells)) != ""
    ensures ParseLine(headers, JoinCells(cells)) == RowOf(headers, cells)
  {
    LineClean(cells);
    TrimTight(JoinCells(cells));
    SplitInvertsJoin(cells);
  }

  lemma {:induction false} ParseRowsAll(headers: seq<string>, lines: seq<string>)
    requires forall i :: 0 <= i < |lines| ==> Trim(lines[i]) != ""
    ensures |ParseRows(headers, lines)| == |lines|
    ensures forall i :: 0 <= i < |lines| ==> ParseRows(headers, lines)[i] == ParseLine(headers, lines[i])
  {
    if lines != [] {
      ParseRowsAll(headers, lines[1..]);
      ParseRowsHead(headers, lines);
    }
  }

  /** The rows belong to a file with these headers: cells without line feeds or outer white space. */
  ghost predicate Fits(headers: seq<string>, rows: seq<seq<string>>) {
    && headers != [] && CleanCells(headers) && DistinctHeaders(headers)
    && forall i :: 0 <= i < |rows| ==> |rows[i]| == |headers| && CleanCells(rows[i])
  }

  /** Importing the exported file gives the rows, cell by cell. */
  ghost predicate ComesBack(headers: seq<string>, rows: seq<seq<string>>)
    requires Fits(headers, rows)
  {
    var imported := Parse(ExportRows([headers] + rows));
    && |imported| == |rows|
    && forall i :: 0 <= i < |rows| ==> RowHolds(imported[i], headers, rows[i])
  }

  /** No line of the file is a single empty cell. */
  ghost predicate NoEmptyLine(headers: seq<string>, rows: seq<seq<string>>) {
    headers != [""] && forall i :: 0 <= i < |rows| ==> rows[i] != [""]
  }

  /** Without empty lines, import builds one row object per row. */
  lemma FullLinesParse(headers: seq<string>, rows: seq<seq<string>>)
    requires Fits(headers, rows) && NoEmptyLine(headers, rows)
    ensures var imported := Parse(ExportRows([headers] + rows));
            |imported| == |rows| && forall i :: 0 <= i < |rows| ==> imported[i] == RowOf(headers, rows[i])
  {
    var all := [headers] + rows;
    var lines := Lines(all);
    forall i | 0 <= i < |lines|
      ensures OneLine(lines[i]) && lines[i] != "" && Tight(lines[i])
    {
      LineClean(all[i]);
    }
    ExportIsJoinedLines(all);
    JoinedLinesTight(lines);
    TrimTerminated(JoinLines(lines));
    SplitInvertsJoinLines(lines);
    SplitInvertsJoin(headers);
    var data := lines[1..];
    forall i | 0 <= i < |rows|
      ensures Trim(data[i]) != "" && ParseLine(headers, data[i]) == RowOf(headers, rows[i])
    {
      assert data[i] == lines[i + 1] && all[i + 1] == rows[i];
      ParseLineIsRow(headers, rows[i]);
    }
    ParseRowsAll(headers, data);
  }

  // ---------------------------------------------------------------------------
  // Lines that import drops
  // ---------------------------------------------------------------------------

  predicate Blank(s: string) { forall i :: 0 <= i < |s| ==> IsSpace(s[i]) }

  lemma {:induction false} SkipSpacesBlank(s: string)
    ensures SkipSpaces(s) == "" <==> Blank(s)
    ensures Blank(SkipSpaces(s)) ==> Blank(s)
  {
    if s != "" && IsSpace(s[0]) {
      SkipSpacesBlank(s[1..]);
      assert s == [s[0]] + s[1..];
    }
  }

  lemma {:induction false} TrimEndBlank(s: string)
    ensures TrimEnd(s) == "" <==> Blank(s)
  {
    if s != "" && IsSpace(s[|s| - 1]) {
      TrimEndBlank(s[..|s| - 1]);
      assert s == s[..|s| - 1] + [s[|s| - 1]];
    }
  }

  lemma TrimBlank(s: string)
    ensures Trim(s) == "" <==> Blank(s)
  {
    SkipSpacesBlank(s);
    TrimEndBlank(SkipSpaces(s));
  }

  /** How many lines are not blank. */
  function Filled(lines: seq<string>): nat {
    if lines == [] then 0 else (if Blank(lines[0]) then 0 else 1) + Filled(lines[1..])
  }

  /** The same count read off the text, when the current line already shows something or not. */
  function FilledIn(s: string, shown: bool): nat {
    if s == "" then if shown then 1 else 0
    else if s[0] == '\n' then (if shown then 1 else 0) + FilledIn(s[1..], false)
    else FilledIn(s[1..], shown || !IsSpace(s[0]))
  }

  lemma {:induction false} FilledOfSplit(s: string, shown: bool)
    ensures var lines := SplitLines(s);
            FilledIn(s, shown) == (if shown || !Blank(lines[0]) then 1 else 0) + Filled(lines[1..])
    decreases |s|
  {
    if s == "" {
    } else if s[0] == '\n' {
      FilledOfSplit(s[1..], false);
      assert SplitLines(s)[1..] == SplitLines(s[1..]);
    } else if s[0] == '\r' && |s| > 1 && s[1] == '\n' {
      FilledOfSplit(s[2..], false);
      assert s[1..][1..] == s[2..];
      assert SplitLines(s)[1..] == SplitLines(s[2..]);
    } else {
      var rest := SplitLines(s[1..]);
      FilledOfSplit(s[1..], shown || !IsSpace(s[0]));
      var line := [s[0]] + rest[0];
      assert line[0] == s[0] && rest[0] == line[1..];
      assert Blank(line) <==> IsSpace(s[0]) && Blank(rest[0]);
      assert SplitLines(s)[1..] == rest[1..];
    }
  }

  lemma {:induction false} FilledSnoc(s: string, c: char, shown: bool)
    requires IsSpace(c)
    ensures FilledIn(s + [c], shown) == FilledIn(s, shown)
  {
    if s == "" {
      assert (s + [c])[1..] == "";
    } else {
      assert (s + [c])[1..] == s[1..] + [c];
      FilledSnoc(s[1..], c, if s[0] == '\n' then false else shown || !IsSpace(s[0]));
    }
  }

  lemma {:induction false} FilledSkip(s: string)
    ensures FilledIn(SkipSpaces(s), false) == FilledIn(s, false)
  {
    if s != "" && IsSpace(s[0]) { FilledSkip(s[1..]); }
  }

  lemma {:induction false} FilledTrimEnd(s: string)
    ensures FilledIn(TrimEnd(s), false) == FilledIn(s, false)
  {
    if s != "" && IsSpace(s[|s| - 1]) {
      FilledTrimEnd(s[..|s| - 1]);
      FilledSnoc(s[..|s| - 1], s[|s| - 1], false);
      assert s == s[..|s| - 1] + [s[|s| - 1]];
    }
  }

  lemma {:induction false} RowsAreFilledLines(headers: seq<string>, lines: seq<string>)
    ensures |ParseRows(headers, lines)| == Filled(lines)
  {
    if lines != [] {
      TrimBlank(lines[0]);
      RowsAreFilledLines(headers, lines[1..]);
    }
  }

  /** Import takes the first line that is not blank for the header and drops every blank line. */
  lemma RowsOfContent(content: string)
    ensures |Parse(content)| == if FilledIn(content, false) == 0 then 0 else FilledIn(content, false) - 1
  {
    var text := Trim(content);
    var lines := SplitLines(text);
    FilledSkip(content);
    FilledTrimEnd(SkipSpaces(content));
    FilledOfSplit(text, false);
    RowsAreFilledLines(SplitLine(lines[0]), lines[1..]);
    if text != "" { FirstLineShows(content); }
  }

  lemma {:induction false} SkipSpacesHead(s: string)
    ensures SkipSpaces(s) != "" ==> !IsSpace(SkipSpaces(s)[0])
  {
    if s != "" && IsSpace(s[0]) { SkipSpacesHead(s[1..]); }
  }

  lemma {:induction false} TrimEndHead(s: string)
    ensures TrimEnd(s) != "" ==> s != "" && TrimEnd(s)[0] == s[0]
  {
    if s != "" && IsSpace(s[|s| - 1]) { TrimEndHead(s[..|s| - 1]); }
  }

  lemma FirstLineShows(content: string)
    requires Trim(content) != ""
    ensures !Blank(SplitLines(Trim(content))[0])
  {
    SkipSpacesHead(content);
    TrimEndHead(SkipSpaces(content));
    var text := Trim(content);
    assert !IsSpace(text[0]) && SplitLines(text)[0][0] == text[0];
  }

  lemma {:induction false} SplitExport(rows: seq<seq<string>>)
    requires forall i :: 0 <= i < |rows| ==> rows[i] != [] && CleanCells(rows[i])
    ensures SplitLines(ExportRows(rows)) == Lines(rows) + [""]
  {
    if rows != [] {
      LineClean(rows[0]);
      SplitExport(rows[1..]);
      SplitAtBreak(JoinCells(rows[0]), ExportRows(rows[1..]));
      assert ExportRows(rows) == JoinCells(rows[0]) + "\r\n" + ExportRows(rows[1..]);
    }
  }

  lemma {:induction false} FilledAtMost(lines: seq<string>)
    ensures Filled(lines) <= |lines|
    ensures (exists i :: 0 <= i < |lines| && Blank(lines[i])) ==> Filled(lines) < |lines|
  {
    if lines != [] {
      FilledAtMost(lines[1..]);
      if i :| 0 < i < |lines| && Blank(lines[i]) { assert lines[1..][i - 1] == lines[i]; }
    }
  }

  lemma FilledWithEnd(lines: seq<string>)
    ensures Filled(lines + [""]) == Filled(lines)
  {
    if lines != [] { assert (lines + [""])[1..] == lines[1..] + [""]; }
  }

  /** A file with an empty line comes back one row short, unless it has no rows. */
  lemma EmptyLineLosesRow(headers: seq<string>, rows: seq<seq<string>>)
    requires Fits(headers, rows) && !NoEmptyLine(headers, rows)
    ensures |Parse(ExportRows([headers] + rows))| <= if rows == [] then 0 else |rows| - 1
  {
    var all := [headers] + rows;
    var content, lines := ExportRows(all), Lines(all);
    SplitExport(all);
    FilledOfSplit(content, false);
    FilledWithEnd(lines);
    var i :| 0 <= i < |all| && all[i] == [""];
    assert Blank(lines[i]);
    FilledAtMost(lines);
    RowsOfContent(content);
  }

  lemma FullLinesComeBack(headers: seq<string>, rows: seq<seq<string>>)
    requires Fits(headers, rows) && NoEmptyLine(headers, rows)
    ensures ComesBack(headers, rows) <==> rows == [] || PROTO !in headers
  {
    FullLinesParse(headers, rows);
    if PROTO !in headers {
      forall i | 0 <= i < |rows|
        ensures RowHolds(RowOf(headers, rows[i]), headers, rows[i])
      {
        RowOfHolds(headers, rows[i]);
      }
    } else if rows != [] {
      var j :| 0 <= j < |headers| && headers[j] == PROTO;
      NoProtoEntry(headers, rows[0]);
      assert headers[j] !in RowOf(headers, rows[0]);
    }
  }

  /** A file comes back exactly when it has no rows, or no header is the prototype setter and it
      has two or more columns or no empty cell. */
  lemma FileRoundTrip(headers: seq<string>, rows: seq<seq<string>>)
    requires Fits(headers, rows)
    ensures ComesBack(headers, rows) <==>
            || rows == []
            || (PROTO !in headers &&
                (|headers| >= 2 || (headers != [""] && forall i :: 0 <= i < |rows| ==> rows[i] != [""])))
  {
    if NoEmptyLine(headers, rows) {
      FullLinesComeBack(headers, rows);
    } else {
      EmptyLineLosesRow(headers, rows);
    }
  }
}
