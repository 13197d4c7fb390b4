/**
 The CSV writer of the metric export, and a reader for the format of section 2 of RFC 4180 that takes
 back what it wrote.
 */
module Csv {
  import opened Wrappers

  // ---------------------------------------------------------------- the writer

  /** Every quote of the text twice. */
  function Escape(value: string): string {
    if value == "" then "" else Escape(value[..|value| - 1]) + EscapeChar(value[|value| - 1])
  }

  function EscapeChar(c: char): string {
    if c == '"' then "\"\"" else [c]
  }

  function Field(value: string): string {
    "\"" + Escape(value) + "\""
  }

  function Fields(fields: seq<string>): string {
    if fields == [] then ""
    else Fields(fields[..|fields| - 1]) + (if |fields| > 1 then "," else "") + Field(fields[|fields| - 1])
  }

  function Row(fields: seq<string>): string {
    Fields(fields) + "\r\n"
  }

  function Document(rows: seq<seq<string>>): string {
    if rows == [] then "" else Document(rows[..|rows| - 1]) + Row(rows[|rows| - 1])
  }

  method CsvField(value: string) returns (escaped: string)
    ensures escaped == Field(value)
  {
    escaped := "\"";
    for i := 0 to |value|
      invariant escaped == "\"" + Escape(value[..i])
    {
      if value[i] == '"' {
        escaped := escaped + ['"'];
      }
      escaped := escaped + [value[i]];
      assert value[..i + 1][..i] == value[..i];
    }
    assert value[..|value|] == value;
    escaped := escaped + ['"'];
  }

  method AppendCsvRow(output: string, fields: seq<string>) returns (appended: string)
    ensures appended == output + Row(fields)
  {
    hide Field;
    appended := output;
    for index := 0 to |fields|
      invariant appended == output + Fields(fields[..index])
    {
      if index != 0 {
        appended := appended + [','];
      }
      var field := CsvField(fields[index]);
      appended := appended + field;
      assert fields[..index + 1][..index] == fields[..index];
    }
    assert fields[..|fields|] == fields;
    appended := appended + "\r\n";
  }

  // ---------------------------------------------------------------- the reader

  datatype Mode = RecordStart | FieldStart | Plain | Quoted | QuoteSeen | ReturnSeen

  datatype Reader = Reader(rows: seq<seq<string>>, row: seq<string>, field: string, mode: Mode)

  function Ended(r: Reader, mode: Mode): Reader {
    Reader(r.rows, r.row + [r.field], "", mode)
  }

  /** One character; `None` when the text does not follow the format. */
  function Take(r: Reader, c: char): Option<Reader> {
    match r.mode
    case Quoted =>
      if c == '"' then Some(r.(mode := QuoteSeen)) else Some(r.(field := r.field + [c]))
    case ReturnSeen =>
      if c == '\n' then Some(Reader(r.rows + [r.row], [], "", RecordStart)) else None
    case _ =>
      if c == ',' then Some(Ended(r, FieldStart))
      else if c == '\r' then Some(Ended(r, ReturnSeen))
      else if c == '\n' then None
      else if c == '"' then
        if r.mode.Plain? then None
        else if r.mode.QuoteSeen? then Some(r.(field := r.field + ['"'], mode := Quoted))
        else Some(r.(mode := Quoted))
      else if r.mode.QuoteSeen? then None
      else Some(r.(field := r.field + [c], mode := Plain))
  }

  function TakeAll(r: Reader, text: string): Option<Reader> {
    if text == "" then Some(r)
    else
      var before := TakeAll(r, text[..|text| - 1]);
      if before.None? then None else Take(before.value, text[|text| - 1])
  }

  /** The line break after the last record may be missing. */
  function Finish(r: Reader): Option<seq<seq<string>>> {
    match r.mode
    case RecordStart => Some(r.rows)
    case Quoted => None
    case ReturnSeen => None
    case _ => Some(r.rows + [r.row + [r.field]])
  }

  function Parse(text: string): Option<seq<seq<string>>> {
    var r := TakeAll(Reader([], [], "", RecordStart), text);
    if r.None? then None else Finish(r.value)
  }

  // ---------------------------------------------------------------- the reader takes back what was written

  lemma {:induction false} TakeAllAppends(r: Reader, a: string, b: string)
    requires TakeAll(r, a).Some?
    ensures TakeAll(r, a + b) == TakeAll(TakeAll(r, a).value, b)
  {
    if b == "" {
      assert a + b == a;
    } else {
      assert (a + b)[..|a + b| - 1] == a + b[..|b| - 1];
      TakeAllAppends(r, a, b[..|b| - 1]);
    }
  }

  lemma TakeTwo(r: Reader, a: char, b: char)
    ensures TakeAll(r, [a]) == Take(r, a)
    ensures Take(r, a).Some? ==> TakeAll(r, [a, b]) == Take(Take(r, a).value, b)
  {
    assert [a][..0] == "" && [a, b][..1] == [a];
  }

  lemma QuotedCharIsRead(r: Reader, c: char)
    requires r.mode.Quoted?
    ensures TakeAll(r, EscapeChar(c)) == Some(r.(field := r.field + [c]))
  {
    TakeTwo(r, c, c);
  }

  lemma {:induction false} QuotedTextIsRead(r: Reader, value: string)
    requires r.mode.Quoted?
    ensures TakeAll(r, Escape(value)) == Some(r.(field := r.field + value))
  {
    hide Take, EscapeChar;
    if value == "" {
      assert r.field + value == r.field;
    } else {
      hide TakeAll;
      var front, c := value[..|value| - 1], value[|value| - 1];
      QuotedTextIsRead(r, front);
      TakeAllAppends(r, Escape(front), EscapeChar(c));
      var inner := r.(field := r.field + front);
      QuotedCharIsRead(inner, c);
      assert inner.field + [c] == r.field + value;
    }
  }

  lemma FieldIsRead(r: Reader, value: string)
    requires (r.mode.RecordStart? || r.mode.FieldStart?) && r.field == ""
    ensures TakeAll(r, Field(value)) == Some(r.(field := value, mode := QuoteSeen))
  {
    var inside := r.(mode := Quoted);
    TakeTwo(r, '"', '"');
    QuotedTextIsRead(inside, value);
    TakeAllAppends(r, "\"", Escape(value));
    TakeAllAppends(r, "\"" + Escape(value), "\"");
    TakeTwo(inside.(field := value), '"', '"');
    assert "" + value == value;
  }

  lemma {:induction false} FieldsAreRead(rows: seq<seq<string>>, fields: seq<string>)
    requires fields != []
    ensures TakeAll(Reader(rows, [], "", RecordStart), Fields(fields))
         == Some(Reader(rows, fields[..|fields| - 1], fields[|fields| - 1], QuoteSeen))
  {
    var start, last := Reader(rows, [], "", RecordStart), |fields| - 1;
    if last == 0 {
      assert Fields(fields) == Field(fields[0]) by {
        assert fields[..0] == [];
      }
      FieldIsRead(start, fields[0]);
    } else {
      var front := fields[..last];
      FieldsAreRead(rows, front);
      var before := Reader(rows, front[..last - 1], front[last - 1], QuoteSeen);
      TakeAllAppends(start, Fields(front), ",");
      TakeTwo(before, ',', ',');
      assert front[..last - 1] + [front[last - 1]] == front;
      TakeAllAppends(start, Fields(front) + ",", Field(fields[last]));
      FieldIsRead(Reader(rows, front, "", FieldStart), fields[last]);
    }
  }

  /** A record without fields is read as one with a single empty field: the format has no empty records. */
  function Readable(fields: seq<string>): seq<string> {
    if fields == [] then [""] else fields
  }

  function ReadableRows(rows: seq<seq<string>>): (r: seq<seq<string>>)
    ensures |r| == |rows| && forall i | 0 <= i < |rows| :: r[i] == Readable(rows[i])
  {
    if rows == [] then [] else ReadableRows(rows[..|rows| - 1]) + [Readable(rows[|rows| - 1])]
  }

  lemma RowIsRead(rows: seq<seq<string>>, fields: seq<string>)
    ensures TakeAll(Reader(rows, [], "", RecordStart), Row(fields))
         == Some(Reader(rows + [Readable(fields)], [], "", RecordStart))
  {
    var start := Reader(rows, [], "", RecordStart);
    if fields == [] {
      assert Row(fields) == "\r\n";
      TakeTwo(start, '\r', '\n');
      assert [] + [""] == [""];
    } else {
      FieldsAreRead(rows, fields);
      var last := |fields| - 1;
      TakeAllAppends(start, Fields(fields), "\r\n");
      TakeTwo(Reader(rows, fields[..last], fields[last], QuoteSeen), '\r', '\n');
      assert fields[..last] + [fields[last]] == fields;
    }
  }

  lemma {:induction false} DocumentIsRead(rows: seq<seq<string>>)
    ensures TakeAll(Reader([], [], "", RecordStart), Document(rows))
         == Some(Reader(ReadableRows(rows), [], "", RecordStart))
  {
    if rows != [] {
      hide TakeAll, Row, Readable;
      var front, last := rows[..|rows| - 1], rows[|rows| - 1];
      DocumentIsRead(front);
      TakeAllAppends(Reader([], [], "", RecordStart), Document(front), Row(last));
      RowIsRead(ReadableRows(front), last);
    }
  }

  /**
   What was written is read back as it was, for any number of rows and any text in the fields, exactly
   when every row has a field.
   */
  lemma RoundTrip(rows: seq<seq<string>>)
    ensures Parse(Document(rows)) == Some(rows) <==> forall i | 0 <= i < |rows| :: rows[i] != []
  {
    DocumentIsRead(rows);
    assert Parse(Document(rows)) == Some(ReadableRows(rows));
    if forall i | 0 <= i < |rows| :: rows[i] != [] {
      assert ReadableRows(rows) == rows;
    } else {
      var i :| 0 <= i < |rows| && rows[i] == [];
      assert ReadableRows(rows)[i] == [""];
    }
  }
}
