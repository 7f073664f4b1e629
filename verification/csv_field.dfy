/**
 * Field-level CSV syntax of the sensor log: the quoting rule the writer applies
 * to every data field (section 2, rules 6 and 7, of RFC 4180), the comma join of
 * a record, and a reader for records in that syntax against which the quoting
 * is proved to round-trip.
 */
module CsvField {
  import opened Wrappers

  /** A field of a data row; `None` stands for a C# null entry. */
  type Cell = Option<string>

  /** The writer quotes a field exactly when it holds a comma, a double quote or a line feed. */
  predicate NeedsQuoting(s: string) {
    ',' in s || '"' in s || '\n' in s
  }

  /** What one character becomes under `DoubleQuotes`. */
  function Doubled(c: char): string {
    if c == '"' then "\"\"" else [c]
  }

  /** `Replace("\"", "\"\"")`: every double quote doubled, everything else kept. */
  function DoubleQuotes(s: string): (r: string)
    ensures |r| >= |s|
    ensures '"' !in s ==> r == s
  {
    if s == [] then []
    else Doubled(s[0]) + DoubleQuotes(s[1..])
  }

  /** The escaping step of `WriteDataRow` for one non-null field. */
  function Escape(s: string): (r: string)
    ensures NeedsQuoting(s) ==> |r| >= 2 && r[0] == '"' && r[|r| - 1] == '"'
    ensures NeedsQuoting(s) ==> r[1..|r| - 1] == DoubleQuotes(s)
    ensures !NeedsQuoting(s) ==> r == s
  {
    if NeedsQuoting(s) then "\"" + DoubleQuotes(s) + "\"" else s
  }

  /** A cell as it appears in the line: null is left null, which `string.Join` renders as empty. */
  function Render(c: Cell): (r: string)
    ensures c.None? ==> r == ""
    ensures c.Some? ==> r == Escape(c.value)
  {
    match c
    case None => ""
    case Some(s) => Escape(s)
  }

  /** `string.Join(",", fields)`. */
  function Join(fields: seq<string>): string {
    if |fields| == 0 then ""
    else if |fields| == 1 then fields[0]
    else fields[0] + "," + Join(fields[1..])
  }

  function RenderAll(cells: seq<Cell>): (r: seq<string>)
    ensures |r| == |cells|
    ensures forall i :: 0 <= i < |cells| ==> r[i] == Render(cells[i])
  {
    if cells == [] then [] else [Render(cells[0])] + RenderAll(cells[1..])
  }

  /** The text `WriteDataRow` hands to the buffer for one row (without the line terminator). */
  function DataLine(cells: seq<Cell>): string {
    Join(RenderAll(cells))
  }

  /** What a reader gets back for a cell: null reads back as the empty field. */
  function Value(c: Cell): string {
    c.GetOr("")
  }

  function Values(cells: seq<Cell>): (r: seq<string>)
    ensures |r| == |cells|
    ensures forall i :: 0 <= i < |cells| ==> r[i] == Value(cells[i])
  {
    if cells == [] then [] else [Value(cells[0])] + Values(cells[1..])
  }

  // ---------------------------------------------------------------------------
  // A reader for one record in RFC 4180-style syntax (quoting as in section 2
  // of RFC 4180; unquoted fields may hold any character but comma, quote and
  // line feed, so CR and non-ASCII text are accepted as they are)
  // ---------------------------------------------------------------------------

  /**
   * Reads the inside of a quoted field, starting just after its opening quote:
   * `""` stands for one quote, a lone `"` closes the field. Returns the field
   * and the text after the closing quote.
   */
  function ParseQuoted(t: string): (r: Option<(string, string)>)
    ensures r.Some? ==> |r.value.1| < |t|
    decreases |t|
  {
    if |t| == 0 then None
    else if t[0] == '"' then
      if |t| >= 2 && t[1] == '"' then
        match ParseQuoted(t[2..])
        case None => None
        case Some(p) => Some(("\"" + p.0, p.1))
      else Some(("", t[1..]))
    else
      match ParseQuoted(t[1..])
      case None => None
      case Some(p) => Some(([t[0]] + p.0, p.1))
  }

  /** Reads an unquoted field: everything up to the first comma. */
  function ParseUnquoted(t: string): (r: (string, string))
    ensures r.0 + r.1 == t
    ensures ',' !in r.0
    ensures r.1 == [] || r.1[0] == ','
  {
    if |t| == 0 || t[0] == ',' then ("", t)
    else
      var p := ParseUnquoted(t[1..]);
      ([t[0]] + p.0, p.1)
  }

  function ParseField(t: string): (r: Option<(string, string)>)
    ensures r.Some? ==> |r.value.1| <= |t|
  {
    if |t| > 0 && t[0] == '"' then ParseQuoted(t[1..])
    else Some(ParseUnquoted(t))
  }

  /** Reads one record: fields separated by commas, up to the end of the text. */
  function ParseRecord(t: string): Option<seq<string>>
    decreases |t|
  {
    match ParseField(t)
    case None => None
    case Some(p) =>
      if p.1 == [] then Some([p.0])
      else if p.1[0] != ',' then None
      else
        match ParseRecord(p.1[1..])
        case None => None
        case Some(rest) => Some([p.0] + rest)
  }

  // ---------------------------------------------------------------------------
  // Round trip
  // ---------------------------------------------------------------------------

  lemma {:induction false} ParseQuotedDoubled(s: string, rest: string)
    requires rest == [] || rest[0] != '"'
    ensures ParseQuoted(DoubleQuotes(s) + "\"" + rest) == Some((s, rest))
    decreases |s|
  {
    if s == [] {
      assert DoubleQuotes(s) + "\"" + rest == "\"" + rest;
      assert ("\"" + rest)[1..] == rest;
    } else {
      ParseQuotedDoubled(s[1..], rest);
      assert s == [s[0]] + s[1..];
      QuotedStep(s[0], s[1..], rest);
    }
  }

  /** One more character in front of a field that reads back keeps it reading back. */
  lemma QuotedStep(c: char, t: string, rest: string)
    requires ParseQuoted(DoubleQuotes(t) + "\"" + rest) == Some((t, rest))
    ensures ParseQuoted(DoubleQuotes([c] + t) + "\"" + rest) == Some(([c] + t, rest))
  {
    var tail := DoubleQuotes(t) + "\"" + rest;
    assert ([c] + t)[1..] == t;
    assert DoubleQuotes([c] + t) == Doubled(c) + DoubleQuotes(t);
    Regroup4(Doubled(c), DoubleQuotes(t), "\"", rest);
    if c == '"' {
      QuotedPair(tail);
    } else {
      QuotedChar(c, tail);
    }
  }

  /** A doubled quote inside a quoted field reads as one quote. */
  lemma QuotedPair(tail: string)
    ensures ParseQuoted(tail).Some? ==>
      ParseQuoted("\"\"" + tail) == Some(("\"" + ParseQuoted(tail).value.0, ParseQuoted(tail).value.1))
  {
    assert ("\"\"" + tail)[2..] == tail;
  }

  /** Any other character inside a quoted field reads as itself. */
  lemma QuotedChar(c: char, tail: string)
    requires c != '"'
    ensures ParseQuoted(tail).Some? ==>
      ParseQuoted([c] + tail) == Some(([c] + ParseQuoted(tail).value.0, ParseQuoted(tail).value.1))
  {
    assert ([c] + tail)[1..] == tail;
  }

  lemma {:induction false} ParseUnquotedPlain(s: string, rest: string)
    requires ',' !in s
    requires rest == [] || rest[0] == ','
    ensures ParseUnquoted(s + rest) == (s, rest)
    decreases |s|
  {
    if s == [] {
      assert s + rest == rest;
    } else {
      ParseUnquotedPlain(s[1..], rest);
      assert (s + rest)[1..] == s[1..] + rest;
      assert [s[0]] + s[1..] == s;
    }
  }

  /** An escaped field followed by a separator or the end of the line reads back as the original field. */
  lemma FieldRoundTrip(s: string, rest: string)
    requires rest == [] || rest[0] == ','
    ensures ParseField(Escape(s) + rest) == Some((s, rest))
  {
    if NeedsQuoting(s) {
      QuotedFieldRoundTrip(s, rest);
    } else {
      PlainFieldRoundTrip(s, rest);
    }
  }

  lemma QuotedFieldRoundTrip(s: string, rest: string)
    requires NeedsQuoting(s)
    requires rest == [] || rest[0] == ','
    ensures ParseField(Escape(s) + rest) == Some((s, rest))
  {
    var q := DoubleQuotes(s);
    QuotedRegroup(q, rest);
    OpenQuote(q + "\"" + rest);
    ParseQuotedDoubled(s, rest);
  }

  lemma QuotedRegroup(q: string, rest: string)
    ensures "\"" + q + "\"" + rest == "\"" + (q + "\"" + rest)
  {
  }

  /** A field opening with a quote is read as a quoted field. */
  lemma OpenQuote(b: string)
    ensures ParseField("\"" + b) == ParseQuoted(b)
  {
    assert ("\"" + b)[1..] == b;
  }

  lemma PlainFieldRoundTrip(s: string, rest: string)
    requires !NeedsQuoting(s)
    requires rest == [] || rest[0] == ','
    ensures ParseField(Escape(s) + rest) == Some((s, rest))
  {
    ParseUnquotedPlain(s, rest);
    if |s| > 0 {
      assert s[0] in s;
      assert (s + rest)[0] == s[0];
    } else if |rest| > 0 {
      assert (s + rest)[0] == ',';
    }
  }

  /**
   * Reading back a line written by `WriteDataRow` yields every field's value, in
   * order (nulls come back as empty fields). `string.Join` of no fields is the empty
   * line, which reads as one empty field, hence the non-empty requirement.
   */
  lemma {:induction false} RecordRoundTrip(cells: seq<Cell>)
    requires |cells| > 0
    ensures ParseRecord(DataLine(cells)) == Some(Values(cells))
    decreases |cells|
  {
    var first := Value(cells[0]);
    if |cells| == 1 {
      assert DataLine(cells) == Escape(first);
      FieldAloneRoundTrip(first);
      assert Values(cells) == [first];
    } else {
      var restLine := DataLine(cells[1..]);
      DataLineCons(cells);
      FieldRoundTrip(first, "," + restLine);
      RecordRoundTrip(cells[1..]);
      RecordStep(first, restLine, DataLine(cells));
      assert Values(cells) == [first] + Values(cells[1..]);
    }
  }

  /** The line of two or more cells is the first field, a comma, and the line of the others. */
  lemma DataLineCons(cells: seq<Cell>)
    requires |cells| > 1
    ensures DataLine(cells) == Escape(Value(cells[0])) + ("," + DataLine(cells[1..]))
  {
    var all := RenderAll(cells);
    assert all[0] == Escape(Value(cells[0]));
    assert all[1..] == RenderAll(cells[1..]);
    Regroup3(all[0], ",", Join(all[1..]));
  }

  /** A field followed by a comma is the head of the record read from the rest. */
  lemma RecordStep(f: string, tail: string, line: string)
    requires ParseField(line) == Some((f, "," + tail))
    ensures ParseRecord(tail).Some? ==> ParseRecord(line) == Some([f] + ParseRecord(tail).value)
  {
    assert ("," + tail)[1..] == tail;
  }

  lemma Regroup3(x: string, y: string, z: string)
    ensures x + y + z == x + (y + z)
  {
  }

  lemma Regroup4(x: string, y: string, q: string, r: string)
    ensures x + y + q + r == x + (y + q + r)
  {
  }

  /** An escaped field standing alone on a line reads back as itself. */
  lemma FieldAloneRoundTrip(s: string)
    ensures ParseRecord(Escape(s)) == Some([s])
  {
    FieldRoundTrip(s, "");
    assert Escape(s) + "" == Escape(s);
  }
}
