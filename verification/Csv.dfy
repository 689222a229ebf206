/** The CSV exporter and, as its inverse, a reader for the format of section 2 of RFC 4180 that also
    accepts a bare line feed as line end. */
module Csv {
  import opened Text
  import opened Connections

  // ---------- writing ----------

  predicate NeedsQuotes(value: string) { ',' in value || '"' in value || '\n' in value || '\r' in value }

  /** Replace("\"", "\"\"") */
  function DoubleQuotes(value: string): string
  {
    if value == "" then "" else (if value[0] == '"' then "\"\"" else [value[0]]) + DoubleQuotes(value[1..])
  }

  function Escape(value: string): string
  {
    if NeedsQuotes(value) then "\"" + DoubleQuotes(value) + "\"" else value
  }

  /** The fields from index `i` on, escaped, with separators and the line end. */
  function FieldsText(row: seq<string>, i: nat): string
    requires i < |row|
    decreases |row| - i
  {
    if i == |row| - 1 then Escape(row[i]) + "\n" else Escape(row[i]) + "," + FieldsText(row, i + 1)
  }

  predicate NoEmptyRow(rows: seq<seq<string>>) { forall i :: 0 <= i < |rows| ==> |rows[i]| > 0 }

  function FileText(rows: seq<seq<string>>): string
    requires NoEmptyRow(rows)
  {
    if rows == [] then "" else FieldsText(rows[0], 0) + FileText(rows[1..])
  }

  // ---------- reading ----------

  /** Where the reader is within a field. `AfterQuote`: the quote just read either closes the field
      or is the first half of a doubled one. */
  datatype Mode = FieldStart | Plain | Quoted | AfterQuote

  function Prepend(row: seq<string>, rows: Option<seq<seq<string>>>): Option<seq<seq<string>>>
  {
    if rows.None? then None else Some([row] + rows.value)
  }

  /** Read the rest of the file; `field` and `row` hold what has been read of the current ones. */
  function Read(mode: Mode, s: string, field: string, row: seq<string>): Option<seq<seq<string>>>
    decreases |s|
  {
    if s == "" then
      if mode == Quoted then None
      else if mode == FieldStart && row == [] then Some([])
      else Some([row + [field]])
    else if mode == Quoted then
      if s[0] == '"' then Read(AfterQuote, s[1..], field, row) else Read(Quoted, s[1..], field + [s[0]], row)
    else if s[0] == ',' then Read(FieldStart, s[1..], "", row + [field])
    else if s[0] == '\n' then Prepend(row + [field], Read(FieldStart, s[1..], "", []))
    else if s[0] == '\r' then
      if |s| > 1 && s[1] == '\n' then Prepend(row + [field], Read(FieldStart, s[2..], "", [])) else None
    else if s[0] == '"' then
      if mode == FieldStart then Read(Quoted, s[1..], "", row)
      else if mode == AfterQuote then Read(Quoted, s[1..], field + "\"", row)
      else None
    else if mode == AfterQuote then None
    else Read(Plain, s[1..], field + [s[0]], row)
  }

  function ReadCsv(s: string): Option<seq<seq<string>>> { Read(FieldStart, s, "", []) }

  // ---------- reading what was written ----------

  /** What follows a complete field: the next field, or the next line. */
  function After(separator: char, rest: string, row: seq<string>): Option<seq<seq<string>>>
  {
    if separator == ',' then Read(FieldStart, rest, "", row) else Prepend(row, Read(FieldStart, rest, "", []))
  }

  lemma {:induction false} ReadPlain(mode: Mode, text: string, separator: char, rest: string, field: string,
                                     row: seq<string>)
    requires !NeedsQuotes(text) && (separator == ',' || separator == '\n')
    requires mode == Plain || (mode == FieldStart && field == "")
    ensures Read(mode, text + [separator] + rest, field, row) == After(separator, rest, row + [field + text])
    decreases |text|
  {
    var s := text + [separator] + rest;
    if text == "" {
      assert s[1..] == rest;
      assert field + text == field;
    } else {
      assert s[0] == text[0] && s[1..] == text[1..] + [separator] + rest;
      ReadPlain(Plain, text[1..], separator, rest, field + [text[0]], row);
      assert field + [text[0]] + text[1..] == field + text;
    }
  }

  lemma {:induction false} ReadQuoted(text: string, separator: char, rest: string, field: string, row: seq<string>)
    requires separator == ',' || separator == '\n'
    ensures Read(Quoted, DoubleQuotes(text) + "\"" + [separator] + rest, field, row)
         == After(separator, rest, row + [field + text])
  {
    var s := DoubleQuotes(text) + "\"" + [separator] + rest;
    if text == "" {
      assert s[1..] == [separator] + rest && s[1..][1..] == rest;
      assert field + text == field;
    } else {
      var tail := DoubleQuotes(text[1..]) + "\"" + [separator] + rest;
      ReadQuoted(text[1..], separator, rest, field + [text[0]], row);
      assert field + [text[0]] + text[1..] == field + text;
      if text[0] == '"' {
        assert s == "\"\"" + tail && s[1..] == "\"" + tail && s[1..][1..] == tail;
      } else {
        assert s == [text[0]] + tail && s[1..] == tail;
      }
    }
  }

  /** An escaped field is read back, whatever characters it holds. */
  lemma ReadEscaped(text: string, separator: char, rest: string, row: seq<string>)
    requires separator == ',' || separator == '\n'
    ensures Read(FieldStart, Escape(text) + [separator] + rest, "", row) == After(separator, rest, row + [text])
  {
    if NeedsQuotes(text) {
      var s := Escape(text) + [separator] + rest;
      assert s[0] == '"' && s[1..] == DoubleQuotes(text) + "\"" + [separator] + rest;
      ReadQuoted(text, separator, rest, "", row);
      assert "" + text == text;
    } else {
      ReadPlain(FieldStart, text, separator, rest, "", row);
      assert "" + text == text;
    }
  }

  lemma {:induction false} ReadFields(row: seq<string>, i: nat, rest: string)
    requires i < |row|
    ensures Read(FieldStart, FieldsText(row, i) + rest, "", row[..i]) == Prepend(row, Read(FieldStart, rest, "", []))
    decreases |row| - i
  {
    assert row[..i] + [row[i]] == row[..i + 1];
    if i == |row| - 1 {
      assert FieldsText(row, i) + rest == Escape(row[i]) + ['\n'] + rest;
      ReadEscaped(row[i], '\n', rest, row[..i]);
      assert row[..i + 1] == row;
    } else {
      assert FieldsText(row, i) + rest == Escape(row[i]) + [','] + (FieldsText(row, i + 1) + rest);
      ReadEscaped(row[i], ',', FieldsText(row, i + 1) + rest, row[..i]);
      ReadFields(row, i + 1, rest);
    }
  }

  /** Reading a written file returns exactly its rows. */
  lemma {:induction false} FileRoundTrip(rows: seq<seq<string>>)
    requires NoEmptyRow(rows)
    ensures ReadCsv(FileText(rows)) == Some(rows)
  {
    if rows != [] {
      ReadFields(rows[0], 0, FileText(rows[1..]));
      assert rows[0][..0] == [];
      FileRoundTrip(rows[1..]);
      assert [rows[0]] + rows[1..] == rows;
    }
  }

  // ---------- the exporter ----------

  const COLUMNS := ["Protocol", "LocalAddress", "LocalPort", "RemoteAddress", "RemotePort", "State", "PID",
                    "ProcessName", "UserName", "CommandLine", "CapturedAtUtc"]

  /** The header line, written without escaping. */
  const HEADER := Join(COLUMNS, ',')

  /** `stamp` renders a capture time in the round-trip format: digits, letters and `-:.+` only. */
  ghost predicate PlainStamp(stamp: int -> string) { forall t :: !NeedsQuotes(stamp(t)) }

  function Row(c: Conn, stamp: int -> string): (row: seq<string>)
    ensures |row| == |COLUMNS|
  {
    [c.protocol, c.localAddress, IntToString(c.localPort), c.remoteAddress, IntToString(c.remotePort), c.state,
     IntToString(c.processId), c.processName, c.userName, c.commandLine, stamp(c.capturedAt)]
  }

  function Rows(conns: seq<Conn>, stamp: int -> string): (rows: seq<seq<string>>)
    ensures |rows| == |conns|
    ensures forall i :: 0 <= i < |conns| ==> rows[i] == Row(conns[i], stamp)
  {
    seq(|conns|, i requires 0 <= i < |conns| => Row(conns[i], stamp))
  }

  lemma NumbersArePlain(n: int)
    ensures Escape(IntToString(n)) == IntToString(n)
  {}

  /** The first `n` fields, each followed by its separator. */
  function PrefixText(row: seq<string>, n: nat): string
    requires n <= |row|
  {
    if n == 0 then "" else PrefixText(row, n - 1) + Escape(row[n - 1]) + ","
  }

  lemma {:induction false} PrefixAndRest(row: seq<string>, n: nat)
    requires n < |row|
    ensures PrefixText(row, n) + FieldsText(row, n) == FieldsText(row, 0)
  {
    if n > 0 {
      PrefixAndRest(row, n - 1);
      Regroup(PrefixText(row, n - 1), Escape(row[n - 1]), ",", FieldsText(row, n));
    }
  }

  lemma Regroup(a: string, b: string, c: string, d: string)
    ensures a + b + c + d == a + (b + c + d)
  {}

  /** `sb.Append(field).Append(',')`, as the next field of a row. */
  method AppendField(sb: string, field: string, ghost start: string, ghost row: seq<string>, ghost n: nat)
    returns (after: string)
    requires n < |row| && sb == start + PrefixText(row, n) && field == Escape(row[n])
    ensures after == start + PrefixText(row, n + 1)
  {
    after := sb + field + ",";
  }

  method EndRow(sb: string, field: string, ghost start: string, ghost row: seq<string>) returns (after: string)
    requires row != [] && sb == start + PrefixText(row, |row| - 1) && field == Escape(row[|row| - 1])
    ensures after == start + FieldsText(row, 0)
  {
    after := sb + field + "\n";
    PrefixAndRest(row, |row| - 1);
    ghost var before, last := PrefixText(row, |row| - 1), FieldsText(row, |row| - 1);
    assert last == field + "\n";
    assert start + before + field + "\n" == start + (before + (field + "\n"));
  }

  /** The cells the exporter appends without escaping: ports, process id and time. */
  predicate RawCell(i: nat) { i == 2 || i == 4 || i == 6 || i == 10 }

  /** One row as the exporter appends it, cell by cell. */
  method AppendRow(sb: string, row: seq<string>) returns (after: string)
    requires |row| == 11 && forall i :: 0 <= i < 11 && RawCell(i) ==> Escape(row[i]) == row[i]
    ensures after == sb + FieldsText(row, 0)
  {
    after := AppendField(sb, Escape(row[0]), sb, row, 0);
    after := AppendField(after, Escape(row[1]), sb, row, 1);
    after := AppendField(after, row[2], sb, row, 2);
    after := AppendField(after, Escape(row[3]), sb, row, 3);
    after := AppendField(after, row[4], sb, row, 4);
    after := AppendField(after, Escape(row[5]), sb, row, 5);
    after := AppendField(after, row[6], sb, row, 6);
    after := AppendField(after, Escape(row[7]), sb, row, 7);
    after := AppendField(after, Escape(row[8]), sb, row, 8);
    after := AppendField(after, Escape(row[9]), sb, row, 9);
    after := EndRow(after, row[10], sb, row);
  }

  lemma RawCellsArePlain(c: Conn, stamp: int -> string)
    requires PlainStamp(stamp)
    ensures var row := Row(c, stamp); forall i :: 0 <= i < 11 && RawCell(i) ==> Escape(row[i]) == row[i]
  {
    NumbersArePlain(c.localPort);
    NumbersArePlain(c.remotePort);
    NumbersArePlain(c.processId);
  }

  /** The data rows, below whatever header line there is. */
  method AppendRows(sb: string, ghost header: seq<string>, conns: seq<Conn>, stamp: int -> string)
    returns (text: string)
    requires PlainStamp(stamp) && |header| > 0 && sb == FileText([header])
    ensures text == FileText([header] + Rows(conns, stamp))
  {
    text := sb;
    ghost var rows := [header];
    for i := 0 to |conns|
      invariant NoEmptyRow(rows) && text == FileText(rows)
      invariant rows == [header] + Rows(conns, stamp)[..i]
    {
      RawCellsArePlain(conns[i], stamp);
      text := AppendRow(text, Row(conns[i], stamp));
      FileTextSnoc(rows, Row(conns[i], stamp));
      rows := rows + [Row(conns[i], stamp)];
    }
    assert Rows(conns, stamp)[..|conns|] == Rows(conns, stamp);
  }

  // ---------- looking a field up in what was read ----------

  /** The first column of that name, or the number of columns. */
  function Column(header: seq<string>, name: string): (j: nat)
    ensures j <= |header| && (j < |header| ==> header[j] == name)
    ensures forall k :: 0 <= k < j ==> header[k] != name
  {
    if header == [] || header[0] == name then 0 else 1 + Column(header[1..], name)
  }

  /** The field of a data row under the named column of the header line. */
  function Field(table: seq<seq<string>>, i: nat, name: string): Option<string>
    requires |table| > 0
  {
    var j := Column(table[0], name);
    if i + 1 < |table| && j < |table[0]| && j < |table[i + 1]| then Some(table[i + 1][j]) else None
  }

  /** A field that reads as that number. */
  predicate IsNumber(field: Option<string>, n: int) { field.Some? && TryParse(field.value, n, n) == Some(n) }

  /** The data row shows the connection: under each name stands the field of that name. */
  predicate ShowsConn(table: seq<seq<string>>, i: nat, c: Conn, stamp: int -> string)
    requires |table| > 0
  {
    && Field(table, i, "Protocol") == Some(c.protocol)
    && Field(table, i, "LocalAddress") == Some(c.localAddress)
    && IsNumber(Field(table, i, "LocalPort"), c.localPort)
    && Field(table, i, "RemoteAddress") == Some(c.remoteAddress)
    && IsNumber(Field(table, i, "RemotePort"), c.remotePort)
    && Field(table, i, "State") == Some(c.state)
    && IsNumber(Field(table, i, "PID"), c.processId)
    && Field(table, i, "ProcessName") == Some(c.processName)
    && Field(table, i, "UserName") == Some(c.userName)
    && Field(table, i, "CommandLine") == Some(c.commandLine)
    && Field(table, i, "CapturedAtUtc") == Some(stamp(c.capturedAt))
  }

  /** One line per connection below the header, in order, each showing its connection. */
  ghost predicate ShowsConns(table: seq<seq<string>>, conns: seq<Conn>, stamp: int -> string)
  {
    && |table| == 1 + |conns| && (forall i :: 0 <= i <= |conns| ==> |table[i]| == 11)
    && forall i :: 0 <= i < |conns| ==> ShowsConn(table, i, conns[i], stamp)
  }

  /** The names differ in length or in their first letter. */
  lemma ColumnMarks()
    ensures |COLUMNS| == 11
    ensures forall k :: 0 <= k < 11 ==> |COLUMNS[k]| == [8, 12, 9, 13, 10, 5, 3, 11, 8, 11, 13][k]
    ensures COLUMNS[0][0] == 'P' && COLUMNS[8][0] == 'U' && COLUMNS[7][0] == 'P' && COLUMNS[9][0] == 'C'
    ensures COLUMNS[3][0] == 'R' && COLUMNS[10][0] == 'C'
  {}

  lemma ColumnsDiffer(k: nat, j: nat)
    requires k < j < 11
    ensures COLUMNS[k] != COLUMNS[j]
  {
    ColumnMarks();
    assert |COLUMNS[k]| == |COLUMNS[j]| ==> COLUMNS[k][0] != COLUMNS[j][0];
  }

  lemma FieldAt(table: seq<seq<string>>, i: nat, j: nat)
    requires |table| > i + 1 && table[0] == COLUMNS && j < 11 == |table[i + 1]|
    ensures Field(table, i, COLUMNS[j]) == Some(table[i + 1][j])
  {
    forall k | 0 <= k < j
      ensures COLUMNS[k] != COLUMNS[j]
    {
      ColumnsDiffer(k, j);
    }
    assert Column(COLUMNS, COLUMNS[j]) == j;
  }

  lemma NamedFields(table: seq<seq<string>>, i: nat, c: Conn, stamp: int -> string)
    requires |table| > i + 1 && table[0] == COLUMNS && table[i + 1] == Row(c, stamp)
    ensures ShowsConn(table, i, c, stamp)
  {
    FieldAt(table, i, 0);
    FieldAt(table, i, 1);
    FieldAt(table, i, 2);
    FieldAt(table, i, 3);
    FieldAt(table, i, 4);
    FieldAt(table, i, 5);
    FieldAt(table, i, 6);
    FieldAt(table, i, 7);
    FieldAt(table, i, 8);
    FieldAt(table, i, 9);
    FieldAt(table, i, 10);
    ParsePrinted(c.localPort, c.localPort, c.localPort);
    ParsePrinted(c.remotePort, c.remotePort, c.remotePort);
    ParsePrinted(c.processId, c.processId, c.processId);
  }

  lemma NamedRow(table: seq<seq<string>>, conns: seq<Conn>, stamp: int -> string, i: nat)
    requires table == [COLUMNS] + Rows(conns, stamp) && i < |conns|
    ensures |table[i + 1]| == 11 && ShowsConn(table, i, conns[i], stamp)
  {
    NamedFields(table, i, conns[i], stamp);
  }

  lemma NamedRows(table: seq<seq<string>>, conns: seq<Conn>, stamp: int -> string)
    requires table == [COLUMNS] + Rows(conns, stamp)
    ensures ShowsConns(table, conns, stamp)
  {
    forall i | 0 <= i < |conns|
      ensures |table[i + 1]| == 11 && ShowsConn(table, i, conns[i], stamp)
    {
      NamedRow(table, conns, stamp, i);
    }
    forall i | 0 <= i <= |conns|
      ensures |table[i]| == 11
    {
      if i > 0 { NamedRow(table, conns, stamp, i - 1); }
    }
  }

  lemma ReadsBack(conns: seq<Conn>, stamp: int -> string)
    ensures var read := ReadCsv(FileText([COLUMNS] + Rows(conns, stamp)));
            read.Some? && ShowsConns(read.value, conns, stamp)
  {
    TableRoundTrip(COLUMNS, Rows(conns, stamp));
    NamedRows([COLUMNS] + Rows(conns, stamp), conns, stamp);
  }

  /** Exporting any list of connections and reading the file back gives a header of eleven names and one line per
      connection, with each of its fields, exactly as it was, under its own name. */
  method Export(conns: seq<Conn>, stamp: int -> string) returns (text: string)
    requires PlainStamp(stamp)
    ensures text == FileText([COLUMNS] + Rows(conns, stamp))
    ensures ReadCsv(text).Some? && ShowsConns(ReadCsv(text).value, conns, stamp)
  {
    HeaderText();
    text := AppendRows(HEADER + "\n", COLUMNS, conns, stamp);
    ReadsBack(conns, stamp);
  }

  lemma TableRoundTrip(header: seq<string>, rows: seq<seq<string>>)
    requires header != [] && NoEmptyRow(rows)
    ensures ReadCsv(FileText([header] + rows)) == Some([header] + rows)
  {
    FileRoundTrip([header] + rows);
  }

  lemma {:induction false} PlainFields(row: seq<string>, i: nat)
    requires i < |row| && forall j :: 0 <= j < |row| ==> !NeedsQuotes(row[j])
    ensures FieldsText(row, i) == Join(row[i..], ',') + "\n"
    decreases |row| - i
  {
    if i == |row| - 1 {
      assert row[i..] == [row[i]];
    } else {
      PlainFields(row, i + 1);
      assert row[i..][1..] == row[i + 1..];
    }
  }

  lemma LettersArePlain(name: string)
    requires forall i :: 0 <= i < |name| ==> 'A' <= name[i] <= 'z'
    ensures !NeedsQuotes(name)
  {}

  lemma ColumnsArePlain()
    ensures forall i :: 0 <= i < |COLUMNS| ==> !NeedsQuotes(COLUMNS[i])
  {
    forall i | 0 <= i < |COLUMNS|
      ensures !NeedsQuotes(COLUMNS[i])
    {
      LettersArePlain(COLUMNS[i]);
    }
  }

  lemma OneRowText(row: seq<string>)
    requires |row| > 0
    ensures FileText([row]) == FieldsText(row, 0)
  {
    assert [row][1..] == [];
    assert FileText([]) == "";
  }

  lemma HeaderText()
    ensures FileText([COLUMNS]) == HEADER + "\n"
  {
    ColumnsArePlain();
    PlainFields(COLUMNS, 0);
    OneRowText(COLUMNS);
    assert COLUMNS[0..] == COLUMNS;
  }

  lemma {:induction false} FileTextSnoc(rows: seq<seq<string>>, row: seq<string>)
    requires row != [] && NoEmptyRow(rows)
    ensures FileText(rows + [row]) == FileText(rows) + FieldsText(row, 0)
  {
    if rows == [] {
      assert [row][1..] == [];
    } else {
      FileTextSnoc(rows[1..], row);
      assert (rows + [row])[1..] == rows[1..] + [row];
    }
  }

  lemma TablesApart(header: seq<string>, a: seq<seq<string>>, b: seq<seq<string>>)
    requires header != [] && NoEmptyRow(a) && NoEmptyRow(b)
    requires FileText([header] + a) == FileText([header] + b)
    ensures a == b
  {
    FileRoundTrip([header] + a);
    FileRoundTrip([header] + b);
    assert ([header] + a)[1..] == a && ([header] + b)[1..] == b;
  }

  /** A row fixes every exported field of its connection. */
  lemma RowFixesFields(c: Conn, d: Conn, stamp: int -> string)
    requires Row(c, stamp) == Row(d, stamp)
    requires forall s, t :: stamp(s) == stamp(t) ==> s == t
    ensures c.protocol == d.protocol && c.localAddress == d.localAddress && c.localPort == d.localPort
    ensures c.remoteAddress == d.remoteAddress && c.remotePort == d.remotePort && c.state == d.state
    ensures c.processId == d.processId && c.processName == d.processName && c.userName == d.userName
    ensures c.commandLine == d.commandLine && c.capturedAt == d.capturedAt
  {
    var r, q := Row(c, stamp), Row(d, stamp);
    assert forall i :: 0 <= i < 11 ==> r[i] == q[i];
    IntToStringInjective(c.localPort, d.localPort);
    IntToStringInjective(c.remotePort, d.remotePort);
    IntToStringInjective(c.processId, d.processId);
  }

  /** So different tables never give the same file. */
  lemma FilesTellTablesApart(a: seq<Conn>, b: seq<Conn>, stamp: int -> string)
    requires FileText([COLUMNS] + Rows(a, stamp)) == FileText([COLUMNS] + Rows(b, stamp))
    ensures Rows(a, stamp) == Rows(b, stamp)
  {
    TablesApart(COLUMNS, Rows(a, stamp), Rows(b, stamp));
  }
}
