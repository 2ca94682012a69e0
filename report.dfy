/**
 * The CSV report of static/script.js:142-166 (`downloadReport`), and a reader
 * for the format it writes, used to state that the report can be read back.
 */
module Report {
  import opened Wrappers

  /** One row of the activity log: the four table cells, as displayed. */
  datatype LogRow = LogRow(time: string, src: string, classification: string, risk: string)

  /** The only way an export can fail: there are no rows to export. */
  datatype ExportError = NothingToExport

  /** The header line; it is written unquoted. */
  const Header: string := "Timestamp,Source IP,Classification,Risk Level\n"

  /** Doubles every `"` (the `replace(/"/g, '""')` of the field cleaner). */
  function Escape(v: string): string
  {
    if v == [] then []
    else (if v[0] == '"' then "\"\"" else [v[0]]) + Escape(v[1..])
  }

  /** A field wrapped in double quotes with its inner quotes doubled. */
  function Quote(v: string): string
  {
    "\"" + Escape(v) + "\""
  }

  /** One log row as a CSV line: four quoted fields joined by `,`, ended by `\n`. */
  function Line(r: LogRow): string
  {
    Quote(r.time) + "," + Quote(r.src) + "," + Quote(r.classification) + "," + Quote(r.risk) + "\n"
  }

  /** The lines of the rows, in the order given. */
  function Body(rows: seq<LogRow>): string
  {
    if rows == [] then [] else Line(rows[0]) + Body(rows[1..])
  }

  lemma {:induction false} BodyAppend(rows: seq<LogRow>, r: LogRow)
    ensures Body(rows + [r]) == Body(rows) + Line(r)
  {
    if rows == [] {
      assert rows + [r] == [r];
    } else {
      assert (rows + [r])[1..] == rows[1..] + [r];
      BodyAppend(rows[1..], r);
    }
  }

  lemma ExportStep(rows: seq<LogRow>, i: nat)
    requires i < |rows|
    ensures Header + Body(rows[..i + 1]) == Header + Body(rows[..i]) + Line(rows[i])
  {
    assert rows[..i + 1] == rows[..i] + [rows[i]];
    BodyAppend(rows[..i], rows[i]);
  }

  /**
   * downloadReport: an empty log is refused; otherwise the header and one
   * line per row, appended row by row in the log's (most-recent-first) order.
   */
  method Export(rows: seq<LogRow>) returns (r: Result<string, ExportError>)
    ensures rows == [] <==> r.Failure?
    ensures r.Success? ==> r.value == Header + Body(rows)
  {
    if |rows| == 0 {
      return Failure(NothingToExport);
    }
    var csv := Header;
    var i := 0;
    while i < |rows|
      invariant 0 <= i <= |rows|
      invariant csv == Header + Body(rows[..i])
    {
      ExportStep(rows, i);
      csv := csv + Line(rows[i]);
      i := i + 1;
    }
    assert rows[..i] == rows;
    return Success(csv);
  }

  // ---- Reading the format back ----

  /**
   * Reads the inside of a quoted field, after its opening quote: `""` stands
   * for one `"`, a single `"` closes the field. Returns the value and what follows.
   */
  function ReadQuoted(s: string): (r: Option<(string, string)>)
    ensures r.Some? ==> |r.value.1| < |s|
    decreases |s|
  {
    if s == [] then None
    else if s[0] == '"' then
      if |s| > 1 && s[1] == '"' then
        match ReadQuoted(s[2..])
        case None => None
        case Some(p) => Some(("\"" + p.0, p.1))
      else Some(([], s[1..]))
    else
      match ReadQuoted(s[1..])
      case None => None
      case Some(p) => Some(([s[0]] + p.0, p.1))
  }

  /** Reads one quoted field at the front of `s`. */
  function ReadField(s: string): (r: Option<(string, string)>)
    ensures r.Some? ==> |r.value.1| < |s|
  {
    if s != [] && s[0] == '"' then ReadQuoted(s[1..]) else None
  }

  /** Consumes the character `c` at the front of `s`. */
  function Skip(c: char, s: string): (r: Option<string>)
    ensures r.Some? ==> |r.value| < |s|
  {
    if s != [] && s[0] == c then Some(s[1..]) else None
  }

  /** Reads one line of four quoted fields. */
  function ReadLine(s: string): (r: Option<(LogRow, string)>)
    ensures r.Some? ==> |r.value.1| < |s|
  {
    var f0 :- ReadField(s);
    var s1 :- Skip(',', f0.1);
    var f1 :- ReadField(s1);
    var s2 :- Skip(',', f1.1);
    var f2 :- ReadField(s2);
    var s3 :- Skip(',', f2.1);
    var f3 :- ReadField(s3);
    var s4 :- Skip('\n', f3.1);
    Some((LogRow(f0.0, f1.0, f2.0, f3.0), s4))
  }

  /** Reads lines until the text is used up. */
  function ReadBody(s: string): Option<seq<LogRow>>
    decreases |s|
  {
    if s == [] then Some([])
    else
      var first :- ReadLine(s);
      var rest :- ReadBody(first.1);
      Some([first.0] + rest)
  }

  /** Reads a whole report: the header, then the lines. */
  function ReadReport(text: string): Option<seq<LogRow>>
  {
    if |Header| <= |text| && text[..|Header|] == Header then ReadBody(text[|Header|..]) else None
  }

  // ---- Round trip ----

  lemma {:induction false} ReadQuotedEscape(v: string, rest: string)
    requires rest == [] || rest[0] != '"'
    ensures ReadQuoted(Escape(v) + "\"" + rest) == Some((v, rest))
  {
    var s := Escape(v) + "\"" + rest;
    if v == [] {
      assert s == "\"" + rest;
      assert s[1..] == rest;
    } else if v[0] == '"' {
      assert s == "\"\"" + (Escape(v[1..]) + "\"" + rest);
      assert s[2..] == Escape(v[1..]) + "\"" + rest;
      ReadQuotedEscape(v[1..], rest);
      assert "\"" + v[1..] == v;
    } else {
      assert s == [v[0]] + (Escape(v[1..]) + "\"" + rest);
      assert s[1..] == Escape(v[1..]) + "\"" + rest;
      ReadQuotedEscape(v[1..], rest);
      assert [v[0]] + v[1..] == v;
    }
  }

  /** Unquoting a quoted field gives back the original text, whatever it contains. */
  lemma UnquoteQuote(v: string, rest: string)
    requires rest == [] || rest[0] != '"'
    ensures ReadField(Quote(v) + rest) == Some((v, rest))
  {
    var s := Quote(v) + rest;
    assert s[1..] == Escape(v) + "\"" + rest;
    ReadQuotedEscape(v, rest);
  }

  /** A quoted field followed by a separator reads back as the field, then the separator is consumed. */
  lemma FieldThen(s: string, v: string, c: char, rest: string)
    requires c != '"'
    requires s == Quote(v) + ([c] + rest)
    ensures ReadField(s) == Some((v, [c] + rest))
    ensures Skip(c, [c] + rest) == Some(rest)
  {
    UnquoteQuote(v, [c] + rest);
  }

  /** Reading a line whose four fields and separators have been read. */
  lemma ReadLineSteps(s: string, f0: (string, string), f1: (string, string), f2: (string, string),
                      f3: (string, string), s1: string, s2: string, s3: string, s4: string)
    requires ReadField(s) == Some(f0) && Skip(',', f0.1) == Some(s1)
    requires ReadField(s1) == Some(f1) && Skip(',', f1.1) == Some(s2)
    requires ReadField(s2) == Some(f2) && Skip(',', f2.1) == Some(s3)
    requires ReadField(s3) == Some(f3) && Skip('\n', f3.1) == Some(s4)
    ensures ReadLine(s) == Some((LogRow(f0.0, f1.0, f2.0, f3.0), s4))
  {
  }

  /** Four fields joined by `,` and ended by `\n`, followed by more text, regrouped field by field. */
  lemma Regroup(a: string, b: string, c: string, d: string, rest: string)
    ensures a + "," + b + "," + c + "," + d + "\n" + rest
         == a + ("," + (b + ("," + (c + ("," + (d + ("\n" + rest)))))))
  {
    var t3 := d + ("\n" + rest);
    var t2 := c + ("," + t3);
    var t1 := b + ("," + t2);
    assert d + "\n" + rest == t3;
    assert c + "," + d + "\n" + rest == t2;
    assert b + "," + c + "," + d + "\n" + rest == t1;
  }

  /** A line followed by more text, regrouped field by field. */
  lemma LineThen(r: LogRow, rest: string)
    ensures Line(r) + rest
         == Quote(r.time) + ("," + (Quote(r.src) + ("," + (Quote(r.classification) + ("," + (Quote(r.risk) + ("\n" + rest)))))))
  {
    Regroup(Quote(r.time), Quote(r.src), Quote(r.classification), Quote(r.risk), rest);
  }

  lemma ReadLineOfLine(r: LogRow, rest: string)
    ensures ReadLine(Line(r) + rest) == Some((r, rest))
  {
    var s3 := Quote(r.risk) + ("\n" + rest);
    var s2 := Quote(r.classification) + ("," + s3);
    var s1 := Quote(r.src) + ("," + s2);
    var s := Quote(r.time) + ("," + s1);
    LineThen(r, rest);
    FieldThen(s, r.time, ',', s1);
    FieldThen(s1, r.src, ',', s2);
    FieldThen(s2, r.classification, ',', s3);
    FieldThen(s3, r.risk, '\n', rest);
    ReadLineSteps(s, (r.time, "," + s1), (r.src, "," + s2), (r.classification, "," + s3),
                  (r.risk, "\n" + rest), s1, s2, s3, rest);
  }

  lemma {:induction false} ReadBodyOfBody(rows: seq<LogRow>)
    ensures ReadBody(Body(rows)) == Some(rows)
  {
    if rows != [] {
      ReadLineOfLine(rows[0], Body(rows[1..]));
      ReadBodyOfBody(rows[1..]);
      assert [rows[0]] + rows[1..] == rows;
    }
  }

  /**
   * A report holds exactly the exported rows, one line each, in order, with
   * every field recovered as it was.
   */
  lemma ReportRoundTrip(rows: seq<LogRow>)
    ensures ReadReport(Header + Body(rows)) == Some(rows)
  {
    var text := Header + Body(rows);
    assert text[..|Header|] == Header;
    assert text[|Header|..] == Body(rows);
    ReadBodyOfBody(rows);
  }
}
