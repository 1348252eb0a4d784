/**
 * The CSV export (src/common/csv/csv.util.ts) against a parser with the quoting rules of section 2 of
 * RFC 4180 and LF as the record separator: parsing what was printed gives back every cell.
 */
module Csv {
  import opened Wrappers

  // ----- the printer -----

  /** `null`/`undefined`, or anything else already turned into its string. */
  datatype Value = Null | Text(text: string)

  function CellText(v: Value): string {
    if v.Null? then "" else v.text
  }

  predicate Special(c: char) {
    c == ',' || c == '"' || c == '\n'
  }

  predicate Plain(s: string) {
    forall i | 0 <= i < |s| :: !Special(s[i])
  }

  /** `str.replace(/"/g, '""')` */
  function Doubled(s: string): string {
    if s == "" then "" else (if s[0] == '"' then "\"\"" else [s[0]]) + Doubled(s[1..])
  }

  function Quoted(s: string): string {
    "\"" + Doubled(s) + "\""
  }

  function Escape(s: string): string {
    if Plain(s) then s else Quoted(s)
  }

  function Join(parts: seq<string>, sep: string): string {
    if parts == [] then ""
    else if |parts| == 1 then parts[0]
    else parts[0] + sep + Join(parts[1..], sep)
  }

  function EscapeAll(cells: seq<string>): seq<string> {
    seq(|cells|, i requires 0 <= i < |cells| => Escape(cells[i]))
  }

  type Row = map<string, Value>

  function Cell(row: Row, column: string): string {
    if column in row then CellText(row[column]) else ""
  }

  function Cells(row: Row, columns: seq<string>): seq<string> {
    seq(|columns|, i requires 0 <= i < |columns| => Cell(row, columns[i]))
  }

  /** The printed lines: the header as it stands, then every row with its cells escaped. */
  function Lines(rows: seq<Row>, columns: seq<string>): seq<string> {
    if rows == [] then [Join(columns, ",")]
    else Lines(rows[..|rows| - 1], columns) + [Join(EscapeAll(Cells(rows[|rows| - 1], columns)), ",")]
  }

  method ToCsv(rows: seq<Row>, columns: seq<string>) returns (text: string)
    ensures text == Join(Lines(rows, columns), "\n")
  {
    var lines := [Join(columns, ",")];
    var i := 0;
    while i < |rows|
      invariant i <= |rows|
      invariant lines == Lines(rows[..i], columns)
    {
      assert rows[..i + 1][..i] == rows[..i];
      lines := lines + [Join(EscapeAll(Cells(rows[i], columns)), ",")];
      i := i + 1;
    }
    assert rows[..i] == rows;
    text := Join(lines, "\n");
  }

  /** A cell is left as it is exactly when it has no comma, quote or line feed; otherwise it is put in quotes. */
  lemma EscapesOnlyIfNeeded(s: string)
    ensures Escape(s) == s <==> ',' !in s && '"' !in s && '\n' !in s
    ensures Escape(s) != s ==> |Escape(s)| >= 2 && Escape(s)[0] == '"' && Escape(s)[|Escape(s)| - 1] == '"'
  {
    if !Plain(s) { DoubledGrows(s); }
  }

  lemma {:induction false} DoubledGrows(s: string)
    ensures |Doubled(s)| >= |s|
  {
    if s != "" { DoubledGrows(s[1..]); }
  }

  /** A null or missing value prints as nothing, any other as its string. */
  lemma CellIs(row: Row, column: string)
    ensures column in row && row[column].Text? ==> Cell(row, column) == row[column].text
    ensures column !in row || row[column].Null? ==> Cell(row, column) == "" && Escape(Cell(row, column)) == ""
  {
  }

  /** Without columns there is nothing to print but the ends of the lines. */
  lemma {:induction false} NoColumns(rows: seq<Row>)
    ensures Lines(rows, []) == seq(|rows| + 1, i => "")
    ensures |Join(Lines(rows, []), "\n")| == |rows|
  {
    if rows == [] {
      assert Lines(rows, []) == [""];
    } else {
      NoColumns(rows[..|rows| - 1]);
      assert EscapeAll(Cells(rows[|rows| - 1], [])) == [];
      assert Lines(rows, []) == Lines(rows[..|rows| - 1], []) + [""];
    }
    EmptyLines(|rows|);
  }

  lemma {:induction false} EmptyLines(n: nat)
    ensures |Join(seq(n + 1, i => ""), "\n")| == n
  {
    if n > 0 {
      EmptyLines(n - 1);
      assert seq<string>(n + 1, i => "")[1..] == seq<string>(n, i => "");
    }
  }

  // ----- the parser -----

  /** After the opening quote: up to the closing one, a doubled quote standing for itself. */
  function QuotedField(s: string): Option<(string, string)> {
    if s == "" then None
    else if s[0] == '"' then
      if |s| > 1 && s[1] == '"' then
        match QuotedField(s[2..])
        case None => None
        case Some(r) => Some(("\"" + r.0, r.1))
      else Some(("", s[1..]))
    else
      match QuotedField(s[1..])
      case None => None
      case Some(r) => Some(([s[0]] + r.0, r.1))
  }

  /** Up to the next separator; a quote is not allowed inside an unquoted field. */
  function BareField(s: string): Option<(string, string)> {
    if s == "" || s[0] == ',' || s[0] == '\n' then Some(("", s))
    else if s[0] == '"' then None
    else
      match BareField(s[1..])
      case None => None
      case Some(r) => Some(([s[0]] + r.0, r.1))
  }

  function Field(s: string): (r: Option<(string, string)>)
    ensures r.Some? ==> |r.value.1| <= |s|
  {
    if s != "" && s[0] == '"' then
      QuotedShrinks(s[1..]);
      QuotedField(s[1..])
    else
      BareShrinks(s);
      BareField(s)
  }

  lemma {:induction false} QuotedShrinks(s: string)
    ensures QuotedField(s).Some? ==> |QuotedField(s).value.1| <= |s|
  {
    if s != "" {
      if s[0] != '"' { QuotedShrinks(s[1..]); }
      else if |s| > 1 && s[1] == '"' { QuotedShrinks(s[2..]); }
    }
  }

  lemma {:induction false} BareShrinks(s: string)
    ensures BareField(s).Some? ==> |BareField(s).value.1| <= |s|
  {
    if s != "" && !Special(s[0]) { BareShrinks(s[1..]); }
  }

  /** One record, with the text from its line end on. */
  function Record(s: string): (r: Option<(seq<string>, string)>)
    ensures r.Some? ==> |r.value.1| <= |s|
    decreases |s|
  {
    match Field(s)
    case None => None
    case Some(f) =>
      if f.1 == "" || f.1[0] == '\n' then Some(([f.0], f.1))
      else if f.1[0] == ',' then
        match Record(f.1[1..])
        case None => None
        case Some(r) => Some(([f.0] + r.0, r.1))
      else None
  }

  function Parse(s: string): Option<seq<seq<string>>>
    decreases |s|
  {
    match Record(s)
    case None => None
    case Some(r) =>
      if r.1 == "" then Some([r.0])
      else
        match Parse(r.1[1..])
        case None => None
        case Some(rest) => Some([r.0] + rest)
  }

  // ----- the round trip -----

  /** What may follow a field: nothing, or a separator. */
  predicate Boundary(tail: string) {
    tail == "" || tail[0] == ',' || tail[0] == '\n'
  }

  lemma {:induction false} BareRoundTrip(s: string, tail: string)
    requires Plain(s) && Boundary(tail)
    ensures BareField(s + tail) == Some((s, tail))
  {
    if s == "" {
      assert s + tail == tail;
    } else {
      assert (s + tail)[1..] == s[1..] + tail;
      BareRoundTrip(s[1..], tail);
      assert [s[0]] + s[1..] == s;
    }
  }

  lemma {:induction false} QuotedRoundTrip(s: string, tail: string)
    requires Boundary(tail)
    ensures QuotedField(Doubled(s) + ("\"" + tail)) == Some((s, tail))
  {
    var t := Doubled(s) + ("\"" + tail);
    if s == "" {
      assert t == "\"" + tail;
      assert t[1..] == tail;
    } else {
      var rest := Doubled(s[1..]) + ("\"" + tail);
      QuotedRoundTrip(s[1..], tail);
      assert [s[0]] + s[1..] == s;
      if s[0] == '"' {
        assert t == "\"\"" + rest;
        assert t[2..] == rest;
      } else {
        assert t == [s[0]] + rest;
        assert t[1..] == rest;
      }
    }
  }

  lemma FieldRoundTrip(s: string, tail: string)
    requires Boundary(tail)
    ensures Field(Escape(s) + tail) == Some((s, tail))
  {
    if Plain(s) {
      BareRoundTrip(s, tail);
      if s + tail != "" { assert (s + tail)[0] == if s == "" then tail[0] else s[0]; }
    } else {
      QuotedRoundTrip(s, tail);
      assert (Quoted(s) + tail)[1..] == Doubled(s) + ("\"" + tail);
    }
  }

  predicate LineEnd(tail: string) {
    tail == "" || tail[0] == '\n'
  }

  /** `cells.map(escape).join(',')`, cell by cell. */
  function PrintRecord(cells: seq<string>): string
    requires cells != []
  {
    if |cells| == 1 then Escape(cells[0]) else Escape(cells[0]) + ("," + PrintRecord(cells[1..]))
  }

  lemma {:induction false} JoinPrintsRecord(cells: seq<string>)
    requires cells != []
    ensures Join(EscapeAll(cells), ",") == PrintRecord(cells)
  {
    var e := EscapeAll(cells);
    if |cells| > 1 {
      assert e[1..] == EscapeAll(cells[1..]);
      JoinPrintsRecord(cells[1..]);
      assert Join(e, ",") == e[0] + "," + Join(e[1..], ",");
    }
  }

  lemma Regroup(a: string, b: string, tail: string)
    ensures (a + ("," + b)) + tail == a + ("," + (b + tail))
  {
  }

  lemma RecordStep(cell: string, rest: string)
    requires Record(rest).Some?
    ensures Record(Escape(cell) + ("," + rest)) == Some(([cell] + Record(rest).value.0, Record(rest).value.1))
  {
    FieldRoundTrip(cell, "," + rest);
    assert ("," + rest)[1..] == rest;
  }

  lemma {:induction false} RecordRoundTrip(cells: seq<string>, tail: string)
    requires cells != [] && LineEnd(tail)
    ensures Record(PrintRecord(cells) + tail) == Some((cells, tail))
  {
    if |cells| == 1 {
      FieldRoundTrip(cells[0], tail);
      assert cells == [cells[0]];
    } else {
      RecordRoundTrip(cells[1..], tail);
      RecordStep(cells[0], PrintRecord(cells[1..]) + tail);
      Regroup(Escape(cells[0]), PrintRecord(cells[1..]), tail);
      assert PrintRecord(cells) == Escape(cells[0]) + ("," + PrintRecord(cells[1..]));
      assert [cells[0]] + cells[1..] == cells;
    }
  }

  /** `lines.join('\n')` of printed records, record by record. */
  function PrintRecords(records: seq<seq<string>>): string
    requires records != [] && forall i | 0 <= i < |records| :: records[i] != []
  {
    if |records| == 1 then PrintRecord(records[0]) else PrintRecord(records[0]) + ("\n" + PrintRecords(records[1..]))
  }

  lemma {:induction false} JoinPrintsRecords(records: seq<seq<string>>)
    requires records != [] && forall i | 0 <= i < |records| :: records[i] != []
    ensures Join(PrintAll(records), "\n") == PrintRecords(records)
  {
    var p := PrintAll(records);
    JoinPrintsRecord(records[0]);
    if |records| > 1 {
      assert p[1..] == PrintAll(records[1..]);
      JoinPrintsRecords(records[1..]);
      assert Join(p, "\n") == p[0] + "\n" + Join(p[1..], "\n");
    }
  }

  /** Records printed one below the other are parsed one after the other. */
  lemma {:induction false} RecordsRoundTrip(records: seq<seq<string>>)
    requires records != [] && forall i | 0 <= i < |records| :: records[i] != []
    ensures Parse(PrintRecords(records)) == Some(records)
  {
    if |records| == 1 {
      RecordRoundTrip(records[0], "");
      assert PrintRecord(records[0]) + "" == PrintRecord(records[0]);
      assert records == [records[0]];
    } else {
      var rest := PrintRecords(records[1..]);
      RecordRoundTrip(records[0], "\n" + rest);
      assert ("\n" + rest)[1..] == rest;
      RecordsRoundTrip(records[1..]);
      assert [records[0]] + records[1..] == records;
    }
  }

  function PrintAll(records: seq<seq<string>>): seq<string> {
    seq(|records|, i requires 0 <= i < |records| => Join(EscapeAll(records[i]), ","))
  }

  predicate PlainColumns(columns: seq<string>) {
    columns != [] && forall i | 0 <= i < |columns| :: Plain(columns[i])
  }

  /** The cells of every row, and the same below the header. */
  function Bodies(rows: seq<Row>, columns: seq<string>): seq<seq<string>> {
    seq(|rows|, i requires 0 <= i < |rows| => Cells(rows[i], columns))
  }

  function Table(rows: seq<Row>, columns: seq<string>): seq<seq<string>> {
    [columns] + Bodies(rows, columns)
  }

  lemma {:induction false} LinesAre(rows: seq<Row>, columns: seq<string>)
    ensures Lines(rows, columns) == [Join(columns, ",")] + PrintAll(Bodies(rows, columns))
  {
    if rows != [] {
      var front := rows[..|rows| - 1];
      LinesAre(front, columns);
      assert Bodies(rows, columns) == Bodies(front, columns) + [Cells(rows[|rows| - 1], columns)];
    }
  }

  /** Printing then parsing returns the header and every cell, whatever the cells contain. */
  lemma PrintThenParse(rows: seq<Row>, columns: seq<string>)
    requires PlainColumns(columns)
    ensures Parse(Join(Lines(rows, columns), "\n")) == Some(Table(rows, columns))
  {
    LinesAre(rows, columns);
    assert EscapeAll(columns) == columns;
    assert Lines(rows, columns) == PrintAll(Table(rows, columns));
    JoinPrintsRecords(Table(rows, columns));
    RecordsRoundTrip(Table(rows, columns));
  }

  /** The text is the header, and below it the printed cells. */
  function Below(rows: seq<Row>, columns: seq<string>): string
    requires columns != []
  {
    if rows == [] then "" else "\n" + PrintRecords(Bodies(rows, columns))
  }

  lemma TextIs(rows: seq<Row>, columns: seq<string>)
    requires columns != []
    ensures Join(Lines(rows, columns), "\n") == Join(columns, ",") + Below(rows, columns)
  {
    LinesAre(rows, columns);
    if rows != [] {
      JoinPrintsRecords(Bodies(rows, columns));
      JoinFirst(Join(columns, ","), PrintAll(Bodies(rows, columns)), "\n");
    }
  }

  lemma JoinFirst(first: string, rest: seq<string>, sep: string)
    requires rest != []
    ensures Join([first] + rest, sep) == first + (sep + Join(rest, sep))
  {
    assert ([first] + rest)[1..] == rest;
  }

  lemma SameTail(header: string, a: string, b: string)
    requires header + a == header + b
    ensures a == b
  {
    assert a == (header + a)[|header|..] && b == (header + b)[|header|..];
  }

  lemma SameBodies(rows: seq<Row>, other: seq<Row>, columns: seq<string>)
    requires columns != [] && Below(rows, columns) == Below(other, columns)
    ensures Bodies(rows, columns) == Bodies(other, columns)
  {
    if rows != [] && other != [] {
      var a, b := Bodies(rows, columns), Bodies(other, columns);
      SameTail("\n", PrintRecords(a), PrintRecords(b));
      RecordsRoundTrip(a);
      RecordsRoundTrip(b);
    }
  }

  lemma BodyCell(rows: seq<Row>, columns: seq<string>, i: nat, j: nat)
    requires i < |rows| && j < |columns|
    ensures |Bodies(rows, columns)[i]| == |columns| && Bodies(rows, columns)[i][j] == Cell(rows[i], columns[j])
  {
  }

  lemma SameCells(rows: seq<Row>, other: seq<Row>, columns: seq<string>)
    requires Bodies(rows, columns) == Bodies(other, columns)
    ensures |rows| == |other|
    ensures forall i, j | 0 <= i < |rows| && 0 <= j < |columns| ::
      Cell(rows[i], columns[j]) == Cell(other[i], columns[j])
  {
    assert |rows| == |Bodies(rows, columns)| == |Bodies(other, columns)| == |other|;
    forall i, j | 0 <= i < |rows| && 0 <= j < |columns|
      ensures Cell(rows[i], columns[j]) == Cell(other[i], columns[j])
    {
      BodyCell(rows, columns, i, j);
      BodyCell(other, columns, i, j);
    }
  }

  /** Whatever the column names, two tables that print alike have the same rows, cell by cell. */
  lemma PrintingIsInjective(rows: seq<Row>, other: seq<Row>, columns: seq<string>)
    requires columns != [] && Join(Lines(rows, columns), "\n") == Join(Lines(other, columns), "\n")
    ensures |rows| == |other|
    ensures forall i, j | 0 <= i < |rows| && 0 <= j < |columns| ::
      Cell(rows[i], columns[j]) == Cell(other[i], columns[j])
  {
    TextIs(rows, columns);
    TextIs(other, columns);
    SameTail(Join(columns, ","), Below(rows, columns), Below(other, columns));
    SameBodies(rows, other, columns);
    SameCells(rows, other, columns);
  }

  /** The header is not escaped, so a column name with a comma is read back as two. */
  lemma HeaderIsNotEscaped()
    ensures Parse(Join(Lines([], ["a,b"]), "\n")) == Some([["a", "b"]])
  {
    assert Join(Lines([], ["a,b"]), "\n") == "a,b";
    RecordsRoundTrip([["a", "b"]]);
    assert PrintRecord(["a", "b"]) == "a,b" by {
      assert ["a", "b"][1..] == ["b"];
      assert PrintRecord(["b"]) == "b";
    }
  }

  // ----- exactly which headers survive -----

  function LeadingQuotes(s: string): nat {
    if s != "" && s[0] == '"' then 1 + LeadingQuotes(s[1..]) else 0
  }

  lemma {:induction false} LeadingOfDoubled(x: string, tail: string)
    ensures LeadingQuotes(Doubled(x) + tail) >= 2 * LeadingQuotes(x)
  {
    if x != "" && x[0] == '"' {
      var rest := Doubled(x[1..]) + tail;
      LeadingOfDoubled(x[1..], tail);
      assert Doubled(x) + tail == ['"'] + (['"'] + rest);
      assert (['"'] + (['"'] + rest))[1..] == ['"'] + rest;
      assert (['"'] + rest)[1..] == rest;
    }
  }

  lemma {:induction false} LeadingBeforeBoundary(s: string, tail: string)
    requires Boundary(tail)
    ensures LeadingQuotes(s + tail) == LeadingQuotes(s)
  {
    if s == "" {
      assert s + tail == tail;
    } else {
      assert (s + tail)[1..] == s[1..] + tail;
      LeadingBeforeBoundary(s[1..], tail);
    }
  }

  /** What a quoted field was read from. */
  lemma {:induction false} QuotedInverse(s: string)
    requires QuotedField(s).Some?
    ensures s == Doubled(QuotedField(s).value.0) + ("\"" + QuotedField(s).value.1)
  {
    var x := QuotedField(s).value.0;
    if s[0] != '"' {
      QuotedInverse(s[1..]);
      assert s == [s[0]] + s[1..];
      assert x[1..] == QuotedField(s[1..]).value.0;
    } else if |s| > 1 && s[1] == '"' {
      QuotedInverse(s[2..]);
      assert s == "\"\"" + s[2..];
      assert x[1..] == QuotedField(s[2..]).value.0;
    } else {
      assert s == "\"" + s[1..];
    }
  }

  lemma {:induction false} BareIsPlain(s: string)
    requires BareField(s).Some?
    ensures Plain(BareField(s).value.0)
  {
    if s != "" && !Special(s[0]) { BareIsPlain(s[1..]); }
  }

  /** No text is its own quotation, so only a plain text is read back as itself. */
  lemma UnescapedIsPlain(c: string, tail: string)
    requires Boundary(tail) && Field(c + tail).Some? && Field(c + tail).value.0 == c
    ensures Plain(c) && Field(c + tail) == Some((c, tail))
  {
    var s := c + tail;
    if s != "" && s[0] == '"' {
      assert c != "" && c[0] == '"';
      assert s[1..] == c[1..] + tail;
      QuotedInverse(s[1..]);
      LeadingOfDoubled(c, "\"" + Field(s).value.1);
      LeadingBeforeBoundary(c[1..], tail);
      assert false;
    } else {
      BareIsPlain(s);
      BareRoundTrip(c, tail);
    }
  }

  lemma {:induction false} HeaderIsPlain(columns: seq<string>, tail: string)
    requires columns != [] && LineEnd(tail)
    requires Record(Join(columns, ",") + tail).Some? && Record(Join(columns, ",") + tail).value.0 == columns
    ensures PlainColumns(columns)
  {
    var s := Join(columns, ",") + tail;
    if |columns| == 1 {
      UnescapedIsPlain(columns[0], tail);
    } else {
      var rest := Join(columns[1..], ",") + tail;
      assert s == columns[0] + ("," + rest);
      UnescapedIsPlain(columns[0], "," + rest);
      assert ("," + rest)[1..] == rest;
      assert Record(rest).value.0 == columns[1..];
      HeaderIsPlain(columns[1..], tail);
      assert forall i | 1 <= i < |columns| :: columns[i] == columns[1..][i - 1];
    }
  }

  /** Whatever the rows, the text is read back as the table exactly when there is a column and no name needs quoting. */
  lemma PrintThenParseIff(rows: seq<Row>, columns: seq<string>)
    ensures Parse(Join(Lines(rows, columns), "\n")) == Some(Table(rows, columns)) <==> PlainColumns(columns)
  {
    if PlainColumns(columns) {
      PrintThenParse(rows, columns);
    } else {
      var text := Join(Lines(rows, columns), "\n");
      if Parse(text) == Some(Table(rows, columns)) {
        assert Table(rows, columns)[0] == columns;
        assert Record(text).Some? && Parse(text).value[0] == Record(text).value.0;
        assert Record(text).value.0 != [];
        TextIs(rows, columns);
        HeaderIsPlain(columns, Below(rows, columns));
        assert false;
      }
    }
  }
}
