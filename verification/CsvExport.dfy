/** The CSV export of evaluation details, and the reader of quoted fields in section 2 of RFC 4180. */
module CsvExport {
  import opened Values

  const QUOTE := '"'
  const COMMA := ','
  const NEWLINE := '\n'

  /** `value.split(c)`: the parts between the occurrences of one character. */
  function Split(s: string, c: char): (parts: seq<string>)
    ensures parts != []
  {
    if s == "" then [""]
    else
      var rest := Split(s[1..], c);
      if s[0] == c then [""] + rest else [[s[0]] + rest[0]] + rest[1..]
  }

  function Join(parts: seq<string>, separator: string): string {
    if parts == [] then ""
    else if |parts| == 1 then parts[0]
    else parts[0] + separator + Join(parts[1..], separator)
  }

  function EscapeCell(value: string): string {
    [QUOTE] + Join(Split(value, QUOTE), [QUOTE, QUOTE]) + [QUOTE]
  }

  function EscapeAll(row: seq<string>): seq<string> {
    seq(|row|, i requires 0 <= i < |row| => EscapeCell(row[i]))
  }

  function PrintRow(row: seq<string>): string {
    Join(EscapeAll(row), [COMMA])
  }

  function PrintRows(table: seq<seq<string>>): seq<string> {
    seq(|table|, i requires 0 <= i < |table| => PrintRow(table[i]))
  }

  function PrintTable(table: seq<seq<string>>): string {
    Join(PrintRows(table), [NEWLINE])
  }

  // ----- the reader

  /** What is left of a field after its opening quote: two quotes stand for one, a single one closes it. */
  function ReadQuoted(s: string): Option<(string, string)> {
    if s == "" then None
    else if s[0] != QUOTE then
      match ReadQuoted(s[1..])
      case None => None
      case Some((cell, rest)) => Some(([s[0]] + cell, rest))
    else if |s| > 1 && s[1] == QUOTE then
      match ReadQuoted(s[2..])
      case None => None
      case Some((cell, rest)) => Some(([QUOTE] + cell, rest))
    else Some(("", s[1..]))
  }

  lemma {:induction false} ReadQuotedShortens(s: string)
    ensures ReadQuoted(s).Some? ==> |ReadQuoted(s).value.1| < |s|
  {
    if s != "" && s[0] != QUOTE {
      ReadQuotedShortens(s[1..]);
    } else if |s| > 1 && s[1] == QUOTE {
      ReadQuotedShortens(s[2..]);
    }
  }

  function ReadField(s: string): (r: Option<(string, string)>)
    ensures r.Some? ==> |r.value.1| < |s|
  {
    if s == "" || s[0] != QUOTE then None
    else
      ReadQuotedShortens(s[1..]);
      ReadQuoted(s[1..])
  }

  /** record = field *(COMMA field) */
  function ReadRecord(s: string): (r: Option<(seq<string>, string)>)
    ensures r.Some? ==> r.value.0 != [] && |r.value.1| < |s|
    decreases |s|
  {
    match ReadField(s)
    case None => None
    case Some((cell, rest)) =>
      if rest == "" || rest[0] != COMMA then Some(([cell], rest))
      else
        match ReadRecord(rest[1..])
        case None => None
        case Some((cells, after)) => Some(([cell] + cells, after))
  }

  /** file = record *(LF record) */
  function ReadTable(s: string): (r: Option<seq<seq<string>>>)
    ensures r.Some? ==> WellShaped(r.value)
    decreases |s|
  {
    match ReadRecord(s)
    case None => None
    case Some((row, rest)) =>
      if rest == "" then Some([row])
      else if rest[0] != NEWLINE then None
      else
        match ReadTable(rest[1..])
        case None => None
        case Some(rows) => Some([row] + rows)
  }

  /** At least one row, and at least one cell in every row. */
  predicate WellShaped(table: seq<seq<string>>) {
    table != [] && forall i :: 0 <= i < |table| ==> table[i] != []
  }

  // ----- printing and reading back

  /** What follows a field is not a quote. */
  ghost predicate Follows(rest: string) {
    rest == "" || rest[0] != QUOTE
  }

  ghost function Doubled(cell: string): string {
    if cell == "" then ""
    else (if cell[0] == QUOTE then [QUOTE, QUOTE] else [cell[0]]) + Doubled(cell[1..])
  }

  /** Splitting at the quotes and joining with two of them doubles each quote. */
  lemma {:induction false} SplitJoinDoubles(cell: string)
    ensures Join(Split(cell, QUOTE), [QUOTE, QUOTE]) == Doubled(cell)
  {
    if cell != "" {
      SplitJoinDoubles(cell[1..]);
      var rest := Split(cell[1..], QUOTE);
      if cell[0] == QUOTE {
        assert ([""] + rest)[1..] == rest;
      } else {
        var parts := [[cell[0]] + rest[0]] + rest[1..];
        assert parts[1..] == rest[1..];
        if |rest| == 1 {
          assert Join(parts, [QUOTE, QUOTE]) == [cell[0]] + rest[0];
        } else {
          var tail := Join(rest[1..], [QUOTE, QUOTE]);
          assert ([cell[0]] + rest[0]) + [QUOTE, QUOTE] + tail == [cell[0]] + (rest[0] + [QUOTE, QUOTE] + tail);
        }
      }
    }
  }

  lemma {:induction false} ReadsDoubled(cell: string, rest: string)
    requires Follows(rest)
    ensures ReadQuoted(Doubled(cell) + [QUOTE] + rest) == Some((cell, rest))
  {
    var s := Doubled(cell) + [QUOTE] + rest;
    if cell == "" {
      assert s == [QUOTE] + rest;
    } else {
      ReadsDoubled(cell[1..], rest);
      var tail := Doubled(cell[1..]) + [QUOTE] + rest;
      if cell[0] == QUOTE {
        assert s == [QUOTE, QUOTE] + tail && s[2..] == tail;
        assert cell == [QUOTE] + cell[1..];
      } else {
        assert s == [cell[0]] + tail && s[1..] == tail;
        assert cell == [cell[0]] + cell[1..];
      }
    }
  }

  lemma ReadsEscaped(cell: string, rest: string)
    requires Follows(rest)
    ensures ReadField(EscapeCell(cell) + rest) == Some((cell, rest))
  {
    SplitJoinDoubles(cell);
    ReadsDoubled(cell, rest);
    assert (EscapeCell(cell) + rest)[1..] == Doubled(cell) + [QUOTE] + rest;
  }

  lemma PrintRowUnfolds(row: seq<string>)
    requires |row| > 1
    ensures PrintRow(row) == EscapeCell(row[0]) + [COMMA] + PrintRow(row[1..])
  {
    assert EscapeAll(row)[1..] == EscapeAll(row[1..]);
  }

  lemma {:induction false} ReadsRow(row: seq<string>, rest: string)
    requires row != [] && (rest == "" || rest[0] == NEWLINE)
    ensures ReadRecord(PrintRow(row) + rest) == Some((row, rest))
  {
    if |row| == 1 {
      ReadsEscaped(row[0], rest);
      assert row == [row[0]];
    } else {
      PrintRowUnfolds(row);
      var after := [COMMA] + (PrintRow(row[1..]) + rest);
      assert PrintRow(row) + rest == EscapeCell(row[0]) + after;
      ReadsEscaped(row[0], after);
      assert after[1..] == PrintRow(row[1..]) + rest;
      ReadsRow(row[1..], rest);
      assert row == [row[0]] + row[1..];
    }
  }

  lemma PrintTableUnfolds(table: seq<seq<string>>)
    requires |table| > 1
    ensures PrintTable(table) == PrintRow(table[0]) + [NEWLINE] + PrintTable(table[1..])
  {
    assert PrintRows(table)[1..] == PrintRows(table[1..]);
  }

  lemma {:induction false} ReadsTable(table: seq<seq<string>>)
    requires WellShaped(table)
    ensures ReadTable(PrintTable(table)) == Some(table)
  {
    if |table| == 1 {
      ReadsRow(table[0], "");
      assert PrintRow(table[0]) + "" == PrintTable(table);
      assert table == [table[0]];
    } else {
      PrintTableUnfolds(table);
      var rest := [NEWLINE] + PrintTable(table[1..]);
      assert PrintTable(table) == PrintRow(table[0]) + rest;
      ReadsRow(table[0], rest);
      assert rest[1..] == PrintTable(table[1..]);
      ReadsTable(table[1..]);
      assert table == [table[0]] + table[1..];
    }
  }

  /** Reading the printed table gives it back, whatever quotes, commas and newlines its cells hold,
      exactly if the table has a row and no row is without cells. */
  lemma RoundTripExactlyWhen(table: seq<seq<string>>)
    ensures ReadTable(PrintTable(table)) == Some(table) <==> WellShaped(table)
  {
    if WellShaped(table) {
      ReadsTable(table);
    }
  }

  /** Different tables print differently. */
  lemma PrinterIsInjective(a: seq<seq<string>>, b: seq<seq<string>>)
    requires WellShaped(a) && WellShaped(b) && PrintTable(a) == PrintTable(b)
    ensures a == b
  {
    ReadsTable(a);
    ReadsTable(b);
  }

  /** Without that shape they need not: no row at all prints like one row without cells. */
  lemma EmptyTablesCollide()
    ensures PrintTable([]) == PrintTable([[]])
  {
    assert PrintRows([[]]) == [PrintRow([])] && PrintRow([]) == "";
  }

  // ----- the export

  const COLUMNS := 15

  /** `buildEvalDetailsCsv` on cells that are already formatted: one header row, one row per detail. */
  function BuildEvalDetailsCsv(header: seq<string>, rows: seq<seq<string>>): string {
    PrintTable([header] + rows)
  }

  /** Everything the export was given can be read out of it again. */
  lemma ExportRoundTrip(header: seq<string>, rows: seq<seq<string>>)
    requires |header| == COLUMNS && forall i :: 0 <= i < |rows| ==> |rows[i]| == COLUMNS
    ensures ReadTable(BuildEvalDetailsCsv(header, rows)) == Some([header] + rows)
  {
    ReadsTable([header] + rows);
  }
}
