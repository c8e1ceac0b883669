/** The CSV printer of the export service, and a parser for the grammar of section 2 of RFC 4180 with
    LF as the record separator, which is what the printer emits. */
module Csv {
  import opened Options

  type Row = seq<string>

  // ----- The printer --------------------------------------------------------------------------

  predicate NeedsQuotes(s: string) {
    ',' in s || '"' in s || '\n' in s
  }

  function DoubleQuotes(s: string): string {
    if s == [] then []
    else (if s[0] == '"' then ['"', '"'] else [s[0]]) + DoubleQuotes(s[1..])
  }

  function Escape(s: string): string {
    if NeedsQuotes(s) then ['"'] + DoubleQuotes(s) + ['"'] else s
  }

  /** `Array.prototype.join` */
  function Joined(parts: seq<string>, separator: char): string {
    if parts == [] then []
    else if |parts| == 1 then parts[0]
    else parts[0] + [separator] + Joined(parts[1..], separator)
  }

  function Escaped(row: Row): (r: seq<string>)
    ensures |r| == |row|
  {
    seq(|row|, i requires 0 <= i < |row| => Escape(row[i]))
  }

  function Line(row: Row): string {
    Joined(Escaped(row), ',')
  }

  function Lines(rows: seq<Row>): (lines: seq<string>)
    ensures |lines| == |rows|
  {
    seq(|rows|, i requires 0 <= i < |rows| => Line(rows[i]))
  }

  function Text(rows: seq<Row>): string {
    Joined(Lines(rows), '\n')
  }

  method Join(parts: seq<string>, separator: char) returns (text: string)
    ensures text == Joined(parts, separator)
  {
    text := [];
    var i := |parts|;
    while i > 0
      invariant 0 <= i <= |parts|
      invariant text == Joined(parts[i..], separator)
    {
      i := i - 1;
      assert parts[i..][1..] == parts[i + 1..];
      text := if i + 1 == |parts| then parts[i] else parts[i] + [separator] + text;
    }
  }

  method ToCSV(headers: Row, rows: seq<Row>) returns (text: string)
    ensures text == Text([headers] + rows)
  {
    var first := Join(Escaped(headers), ',');
    var lines := [first];
    var i := 0;
    while i < |rows|
      invariant 0 <= i <= |rows| && |lines| == i + 1
      invariant lines[0] == Line(headers)
      invariant forall k :: 0 <= k < i ==> lines[k + 1] == Line(rows[k])
    {
      var line := Join(Escaped(rows[i]), ',');
      lines := lines + [line];
      i := i + 1;
    }
    forall k | 0 <= k < |lines|
      ensures lines[k] == Line(([headers] + rows)[k])
    {
      if k > 0 { assert lines[(k - 1) + 1] == Line(rows[k - 1]); }
    }
    assert lines == Lines([headers] + rows);
    text := Join(lines, '\n');
  }

  // ----- The parser ---------------------------------------------------------------------------

  datatype Field = Field(value: string, rest: string)

  /** After an opening quote: text up to the closing one, a doubled quote standing for one quote. */
  function QuotedField(s: string): (r: Option<Field>)
    ensures r.Some? ==> |r.value.rest| < |s|
    decreases |s|
  {
    if s == [] then None
    else if s[0] != '"' then
      var more := QuotedField(s[1..]);
      if more.None? then None else Some(Field([s[0]] + more.value.value, more.value.rest))
    else if |s| > 1 && s[1] == '"' then
      var more := QuotedField(s[2..]);
      if more.None? then None else Some(Field(['"'] + more.value.value, more.value.rest))
    else Some(Field([], s[1..]))
  }

  /** Text without quotes, up to a separator or the end. This is wider than TEXTDATA in section 2 of
      RFC 4180: carriage returns, control characters and characters beyond ASCII are accepted unquoted,
      because the printer quotes only for commas, quotes and line feeds. */
  function BareField(s: string): (r: Option<Field>)
    ensures r.Some? ==> |r.value.rest| <= |s|
    decreases |s|
  {
    if s == [] || s[0] == ',' || s[0] == '\n' then Some(Field([], s))
    else if s[0] == '"' then None
    else
      var more := BareField(s[1..]);
      if more.None? then None else Some(Field([s[0]] + more.value.value, more.value.rest))
  }

  function ParseField(s: string): (r: Option<Field>)
    ensures r.Some? ==> |r.value.rest| <= |s|
  {
    if s != [] && s[0] == '"' then QuotedField(s[1..]) else BareField(s)
  }

  /** Fields separated by commas, records separated by line feeds; `row` holds the fields already read
      of the current record. */
  function ParseFrom(s: string, row: Row): Option<seq<Row>>
    decreases |s|, 1
  {
    var f := ParseField(s);
    if f.None? then None else AfterField(row + [f.value.value], f.value.rest)
  }

  /** Every line feed opens a record, the last one too: a row of one empty cell prints as nothing, so a
      final line break, which section 2 of RFC 4180 lets a file end with, has to be read as that row. */
  function AfterField(row: Row, rest: string): Option<seq<Row>>
    decreases |rest|, 0
  {
    if rest == [] then Some([row])
    else if rest[0] == ',' then ParseFrom(rest[1..], row)
    else if rest[0] == '\n' then
      var more := ParseFrom(rest[1..], []);
      if more.None? then None else Some([row] + more.value)
    else None
  }

  function Parse(s: string): Option<seq<Row>> {
    ParseFrom(s, [])
  }

  /** A cell is printed as it is exactly when it holds no comma, no quote and no line feed; any other one
      is printed between quotes. */
  lemma PrintedBareIff(v: string)
    ensures Escape(v) == v <==> forall k :: 0 <= k < |v| ==> v[k] != ',' && v[k] != '"' && v[k] != '\n'
    ensures Escape(v) != v ==> Escape(v)[0] == '"' && Escape(v)[|Escape(v)| - 1] == '"'
  {
    DoublingGrows(v);
  }

  lemma {:induction false} DoublingGrows(v: string)
    ensures |DoubleQuotes(v)| >= |v|
    decreases |v|
  {
    if v != [] { DoublingGrows(v[1..]); }
  }

  // ----- Round trip ---------------------------------------------------------------------------

  /** What may follow a printed field: nothing, a comma or a line feed. */
  predicate Terminated(rest: string) {
    rest == [] || rest[0] == ',' || rest[0] == '\n'
  }

  lemma {:induction false} QuotedInverse(v: string, rest: string)
    requires Terminated(rest)
    ensures QuotedField(DoubleQuotes(v) + ['"'] + rest) == Some(Field(v, rest))
    decreases |v|
  {
    if v == [] {
      assert (DoubleQuotes(v) + ['"'] + rest)[1..] == rest;
    } else {
      QuotedInverse(v[1..], rest);
      SplitQuoted(v, rest);
      var tail := DoubleQuotes(v[1..]) + ['"'] + rest;
      if v[0] == '"' { DoubledQuoteStep(tail, v[1..], rest); } else { QuotedCharStep(v[0], tail, v[1..], rest); }
      assert [v[0]] + v[1..] == v;
    }
  }

  lemma SplitQuoted(v: string, rest: string)
    requires v != []
    ensures DoubleQuotes(v) + ['"'] + rest ==
            (if v[0] == '"' then ['"', '"'] else [v[0]]) + (DoubleQuotes(v[1..]) + ['"'] + rest)
  {
  }

  lemma DoubledQuoteStep(tail: string, v: string, rest: string)
    requires QuotedField(tail) == Some(Field(v, rest))
    ensures QuotedField(['"', '"'] + tail) == Some(Field(['"'] + v, rest))
  {
    assert (['"', '"'] + tail)[2..] == tail;
  }

  lemma QuotedCharStep(c: char, tail: string, v: string, rest: string)
    requires c != '"' && QuotedField(tail) == Some(Field(v, rest))
    ensures QuotedField([c] + tail) == Some(Field([c] + v, rest))
  {
    assert ([c] + tail)[1..] == tail;
  }

  lemma {:induction false} BareInverse(v: string, rest: string)
    requires Terminated(rest) && !NeedsQuotes(v)
    ensures BareField(v + rest) == Some(Field(v, rest))
    decreases |v|
  {
    if v == [] {
      assert v + rest == rest;
    } else {
      BareInverse(v[1..], rest);
      assert (v + rest)[1..] == v[1..] + rest;
      assert [v[0]] + v[1..] == v;
    }
  }

  lemma QuotedFieldInverse(v: string, rest: string, s: string)
    requires Terminated(rest)
    requires s == ['"'] + DoubleQuotes(v) + ['"'] + rest
    ensures ParseField(s) == Some(Field(v, rest))
  {
    QuotedInverse(v, rest);
    assert s[1..] == DoubleQuotes(v) + ['"'] + rest;
  }

  lemma BareFieldInverse(v: string, rest: string, s: string)
    requires Terminated(rest) && !NeedsQuotes(v)
    requires s == v + rest
    ensures ParseField(s) == Some(Field(v, rest))
  {
    BareInverse(v, rest);
    if v != [] { assert s[0] in v; } else { assert s == rest; }
  }

  lemma FieldInverse(v: string, rest: string)
    requires Terminated(rest)
    ensures ParseField(Escape(v) + rest) == Some(Field(v, rest))
  {
    if NeedsQuotes(v) { QuotedFieldInverse(v, rest, Escape(v) + rest); }
    else { BareFieldInverse(v, rest, Escape(v) + rest); }
  }

  lemma CellInverse(before: Row, v: string, rest: string)
    requires Terminated(rest)
    ensures ParseFrom(Escape(v) + rest, before) == AfterField(before + [v], rest)
  {
    FieldInverse(v, rest);
  }

  lemma CommaStep(row: Row, t: string)
    ensures AfterField(row, [','] + t) == ParseFrom(t, row)
  {
    assert ([','] + t)[1..] == t;
  }

  lemma Regroup(a: string, c: string, t: string, r: string)
    ensures (a + c + t) + r == a + (c + (t + r))
  {
  }

  lemma SplitLine(row: Row, rest: string)
    requires |row| > 1
    ensures Line(row) + rest == Escape(row[0]) + ([','] + (Line(row[1..]) + rest))
  {
    assert Escaped(row)[1..] == Escaped(row[1..]);
    Regroup(Escape(row[0]), [','], Line(row[1..]), rest);
  }

  lemma {:induction false} LineInverse(before: Row, row: Row, rest: string)
    requires row != []
    requires rest == [] || rest[0] == '\n'
    ensures ParseFrom(Line(row) + rest, before) == AfterField(before + row, rest)
    decreases |row|
  {
    if |row| == 1 {
      LastCell(before, row[0], rest);
      assert row == [row[0]];
    } else {
      OtherCells(before, row, rest);
      LineInverse(before + [row[0]], row[1..], rest);
      assert before + [row[0]] + row[1..] == before + row;
    }
  }

  lemma LastCell(before: Row, v: string, rest: string)
    requires rest == [] || rest[0] == '\n'
    ensures ParseFrom(Line([v]) + rest, before) == AfterField(before + [v], rest)
  {
    CellInverse(before, v, rest);
  }

  lemma OtherCells(before: Row, row: Row, rest: string)
    requires |row| > 1
    ensures ParseFrom(Line(row) + rest, before) == ParseFrom(Line(row[1..]) + rest, before + [row[0]])
  {
    SplitLine(row, rest);
    FirstCell(before, row[0], Line(row[1..]) + rest);
  }

  lemma FirstCell(before: Row, v: string, t: string)
    ensures ParseFrom(Escape(v) + ([','] + t), before) == ParseFrom(t, before + [v])
  {
    CellInverse(before, v, [','] + t);
    CommaStep(before + [v], t);
  }

  lemma SplitText(rows: seq<Row>)
    requires |rows| > 1
    ensures Text(rows) == Line(rows[0]) + (['\n'] + Text(rows[1..]))
  {
    assert Lines(rows)[1..] == Lines(rows[1..]);
    Regroup(Line(rows[0]), ['\n'], Text(rows[1..]), []);
    assert Text(rows) + [] == Text(rows) && Text(rows[1..]) + [] == Text(rows[1..]);
  }

  lemma FirstLine(row: Row, t: string, more: seq<Row>)
    requires row != [] && Parse(t) == Some(more)
    ensures Parse(Line(row) + (['\n'] + t)) == Some([row] + more)
  {
    var none: Row := [];
    assert none + row == row;
    LineInverse(none, row, ['\n'] + t);
    NewlineStep(row, t, more);
  }

  lemma OnlyLine(row: Row)
    requires row != []
    ensures Parse(Line(row)) == Some([row])
  {
    var none: Row := [];
    assert none + row == row;
    LineInverse(none, row, []);
    assert Line(row) + [] == Line(row);
  }

  lemma {:induction false} TextInverse(rows: seq<Row>)
    requires rows != [] && forall i :: 0 <= i < |rows| ==> rows[i] != []
    ensures Parse(Text(rows)) == Some(rows)
    decreases |rows|
  {
    if |rows| == 1 {
      OnlyLine(rows[0]);
      assert [rows[0]] == rows;
    } else {
      TextInverse(rows[1..]);
      SplitText(rows);
      FirstLine(rows[0], Text(rows[1..]), rows[1..]);
      assert [rows[0]] + rows[1..] == rows;
    }
  }

  lemma NewlineStep(row: Row, t: string, more: seq<Row>)
    requires Parse(t) == Some(more)
    ensures AfterField(row, ['\n'] + t) == Some([row] + more)
  {
    assert (['\n'] + t)[1..] == t;
  }

  /** A row of one empty cell prints as a final line break. */
  lemma {:induction false} EmptyCellIsBreak(rows: seq<Row>)
    requires rows != []
    ensures Text(rows + [[""]]) == Text(rows) + ['\n']
    decreases |rows|
  {
    var all := rows + [[""]];
    SplitText(all);
    assert all[1..] == rows[1..] + [[""]];
    if |rows| == 1 {
      assert all[1..] == [[""]];
      assert Text([[""]]) == [];
    } else {
      EmptyCellIsBreak(rows[1..]);
      SplitText(rows);
      Regroup(Line(rows[0]), ['\n'], Text(rows[1..]), ['\n']);
      assert Text(rows) == Line(rows[0]) + ['\n'] + Text(rows[1..]);
    }
  }

  lemma FinalBreakIsRow(rows: seq<Row>)
    requires rows != [] && forall i :: 0 <= i < |rows| ==> rows[i] != []
    ensures Parse(Text(rows) + ['\n']) == Some(rows + [[""]])
  {
    EmptyCellIsBreak(rows);
    TextInverse(rows + [[""]]);
  }

  predicate Printable(headers: Row, rows: seq<Row>) {
    headers != [] && forall i :: 0 <= i < |rows| ==> rows[i] != []
  }

  /** Parsing what was printed gives back the header and every row, whatever characters they hold. */
  lemma RoundTrip(headers: Row, rows: seq<Row>)
    requires Printable(headers, rows)
    ensures Parse(Text([headers] + rows)) == Some([headers] + rows)
  {
    TextInverse([headers] + rows);
  }

  /** Two different tables never print to the same text. */
  lemma PrintingIsInjective(h1: Row, rows1: seq<Row>, h2: Row, rows2: seq<Row>)
    requires Printable(h1, rows1) && Printable(h2, rows2)
    requires Text([h1] + rows1) == Text([h2] + rows2)
    ensures h1 == h2 && rows1 == rows2
  {
    RoundTrip(h1, rows1);
    RoundTrip(h2, rows2);
    assert ([h1] + rows1)[0] == ([h2] + rows2)[0];
    assert ([h1] + rows1)[1..] == rows1 && ([h2] + rows2)[1..] == rows2;
  }

  /** An empty row prints like a row with one empty cell, so the exclusion is exact: a table is
      recovered if and only if none of its rows is empty. */
  lemma RoundTripIff(headers: Row, rows: seq<Row>)
    ensures Parse(Text([headers] + rows)) == Some([headers] + rows) <==> Printable(headers, rows)
  {
    if Printable(headers, rows) {
      RoundTrip(headers, rows);
    } else {
      var all := [headers] + rows;
      assert exists i :: 0 <= i < |all| && all[i] == [] by {
        if headers == [] {
          assert all[0] == [];
        } else {
          var i :| 0 <= i < |rows| && rows[i] == [];
          assert all[i + 1] == [];
        }
      }
      if Parse(Text(all)).Some? { ParsedRowsAreNonEmpty(Text(all), []); }
    }
  }

  lemma {:induction false} ParsedRowsAreNonEmpty(s: string, row: Row)
    requires ParseFrom(s, row).Some?
    ensures forall i :: 0 <= i < |ParseFrom(s, row).value| ==> ParseFrom(s, row).value[i] != []
    decreases |s|
  {
    var f := ParseField(s).value;
    if f.rest != [] {
      if f.rest[0] == ',' {
        ParsedRowsAreNonEmpty(f.rest[1..], row + [f.value]);
      } else {
        ParsedRowsAreNonEmpty(f.rest[1..], []);
      }
    }
  }
}
