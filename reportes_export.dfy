/**
 * The exports of a generated report: the grid every format shares, the CSV
 * text (Python's `csv` writer with its default `excel` dialect, whose quoting
 * follows section 2 of RFC 4180), the spreadsheet sheet, the print layout of
 * the PDF, and the `formato` query parameter with the download file name.
 */
module ReportesExport {
  import opened Wrappers
  import opened Text
  import opened ReportesCatalog
  import opened ReportesData

  // ---------------------------------------------------------------- the grid

  /** The column names: `campos`, or the first row's keys when there are rows but no `campos`. */
  function Header(campos: seq<string>, rows: seq<Row>): seq<string> {
    if rows != [] && campos == [] then Keys(rows[0]) else campos
  }

  /** `[r.get(c) for c in header]`: a missing key gives `None`. */
  function Cells(row: Row, header: seq<string>): (r: seq<Value>)
    ensures |r| == |header|
    ensures forall j :: 0 <= j < |header| && header[j] in Keys(row) ==> (header[j], r[j]) in row
    ensures forall j :: 0 <= j < |header| && header[j] !in Keys(row) ==> r[j] == VNull
  {
    seq(|header|, j requires 0 <= j < |header| => Lookup(row, header[j]))
  }

  /** The header record and one record of cells per row, in row order. */
  datatype Grid = Grid(header: seq<string>, body: seq<seq<Value>>)

  function GridOf(campos: seq<string>, rows: seq<Row>): (g: Grid)
    ensures g.header == campos || (campos == [] && rows != [] && g.header == Keys(rows[0]))
    ensures |g.body| == |rows|
    ensures forall i :: 0 <= i < |rows| ==> g.body[i] == Cells(rows[i], g.header)
  {
    var h := Header(campos, rows);
    Grid(h, seq(|rows|, i requires 0 <= i < |rows| => Cells(rows[i], h)))
  }

  /** The spreadsheet: one sheet named `Reporte` holding the grid (the file bytes are not modelled). */
  datatype Sheet = Sheet(title: string, grid: Grid)

  function ExcelSheet(campos: seq<string>, rows: seq<Row>): Sheet {
    Sheet("Reporte", GridOf(campos, rows))
  }

  /** The control characters openpyxl refuses in a cell text: 0x00-0x08, 0x0B, 0x0C and 0x0E-0x1F. */
  predicate IllegalChar(c: char) {
    var n := c as int;
    n <= 0x08 || n == 0x0B || n == 0x0C || (0x0E <= n <= 0x1F)
  }

  predicate LegalText(t: string) {
    forall k :: 0 <= k < |t| ==> !IllegalChar(t[k])
  }

  /**
   * Whether `ws.append` takes every record of the grid: each header name and each
   * text cell is free of illegal characters (numbers, booleans and `None` always are).
   */
  predicate SheetAccepts(g: Grid) {
    (forall t :: t in g.header ==> LegalText(t)) &&
    (forall i, j :: 0 <= i < |g.body| && 0 <= j < |g.body[i]| && g.body[i][j].VText? ==> LegalText(g.body[i][j].s))
  }

  /** A text cell holding a control character such as `\x01` makes the sheet refuse the grid. */
  lemma ControlCharRefused(g: Grid, i: nat, j: nat, k: nat)
    requires i < |g.body| && j < |g.body[i]| && g.body[i][j].VText?
    requires k < |g.body[i][j].s| && g.body[i][j].s[k] as int == 0x01
    ensures !SheetAccepts(g)
  {
    assert !LegalText(g.body[i][j].s);
  }

  /** Tab, newline and carriage return are allowed in a cell text; so is a grid of numbers only. */
  lemma LayoutCharsAccepted(g: Grid)
    requires forall t :: t in g.header ==> forall k :: 0 <= k < |t| ==> t[k] >= ' ' || t[k] == '\t' || t[k] == '\n' || t[k] == '\r'
    requires forall i, j :: 0 <= i < |g.body| && 0 <= j < |g.body[i]| ==> !g.body[i][j].VText?
    ensures SheetAccepts(g)
  {
  }

  // ---------------------------------------------------------------- CSV writing

  /**
   * The text the CSV writer gives a cell: `None` is an empty field, booleans are
   * `True`/`False`. `floatText` is Python's `repr` of a float, which the model takes as given.
   */
  function CsvText(v: Value, floatText: real -> string): string {
    match v
    case VNull => ""
    case VBool(b) => if b then "True" else "False"
    case VInt(i) => IntToString(i)
    case VNum(x) => floatText(x)
    case VText(s) => s
  }

  predicate Special(c: char) {
    c == ',' || c == '"' || c == '\r' || c == '\n'
  }

  /** A field is quoted when it holds the delimiter, the quote character or a line break. */
  predicate NeedsQuotes(f: string) {
    exists i :: 0 <= i < |f| && Special(f[i])
  }

  /** The field with every quote character doubled. */
  function Doubled(f: string): (r: string)
    ensures |r| >= |f|
  {
    if f == [] then [] else (if f[0] == '"' then "\"\"" else [f[0]]) + Doubled(f[1..])
  }

  function CsvField(f: string): string {
    if NeedsQuotes(f) then "\"" + Doubled(f) + "\"" else f
  }

  /** The fields of a record, separated by commas. */
  function Joined(fs: seq<string>): string
    requires fs != []
  {
    if |fs| == 1 then CsvField(fs[0]) else CsvField(fs[0]) + "," + Joined(fs[1..])
  }

  /**
   * One record and its `\r\n` terminator. A record made of one empty field is
   * written `""`, since an empty line reads back as a record with no fields.
   */
  function CsvRecord(fs: seq<string>): (r: string)
    ensures |r| >= 2
  {
    if fs == [] then "\r\n"
    else if fs == [""] then "\"\"\r\n"
    else Joined(fs) + "\r\n"
  }

  function CsvDocument(records: seq<seq<string>>): string {
    if records == [] then "" else CsvRecord(records[0]) + CsvDocument(records[1..])
  }

  lemma {:induction false} CsvDocumentSnoc(records: seq<seq<string>>, r: seq<string>)
    ensures CsvDocument(records + [r]) == CsvDocument(records) + CsvRecord(r)
  {
    if records == [] {
      assert records + [r] == [r];
    } else {
      assert (records + [r])[1..] == records[1..] + [r];
      CsvDocumentSnoc(records[1..], r);
    }
  }

  function CsvTexts(cells: seq<Value>, floatText: real -> string): (r: seq<string>)
    ensures |r| == |cells|
    ensures forall j :: 0 <= j < |cells| ==> r[j] == CsvText(cells[j], floatText)
  {
    seq(|cells|, j requires 0 <= j < |cells| => CsvText(cells[j], floatText))
  }

  /** The records of the CSV export: the header, then each row's texts. */
  function CsvRecords(g: Grid, floatText: real -> string): (r: seq<seq<string>>)
    ensures |r| == |g.body| + 1 && r[0] == g.header
    ensures forall i :: 0 <= i < |g.body| ==> r[i + 1] == CsvTexts(g.body[i], floatText)
  {
    [g.header] + seq(|g.body|, i requires 0 <= i < |g.body| => CsvTexts(g.body[i], floatText))
  }

  /** Writing one more record extends the text of the records before it. */
  lemma CsvPrefixStep(records: seq<seq<string>>, i: nat)
    requires i + 1 < |records|
    ensures CsvDocument(records[..i + 2]) == CsvDocument(records[..i + 1]) + CsvRecord(records[i + 1])
  {
    assert records[..i + 2] == records[..i + 1] + [records[i + 1]];
    CsvDocumentSnoc(records[..i + 1], records[i + 1]);
  }

  lemma ExportRecord(campos: seq<string>, rows: seq<Row>, floatText: real -> string, i: nat)
    requires i < |rows|
    ensures CsvRecords(GridOf(campos, rows), floatText)[i + 1] == CsvTexts(Cells(rows[i], Header(campos, rows)), floatText)
  {
  }

  /** `_export_csv`: the header record, then one record per row, each written as it comes. */
  method ExportCsv(campos: seq<string>, rows: seq<Row>, floatText: real -> string) returns (out: string)
    ensures out == CsvDocument(CsvRecords(GridOf(campos, rows), floatText))
  {
    var header := Header(campos, rows);
    ghost var records := CsvRecords(GridOf(campos, rows), floatText);
    out := CsvRecord(header);
    assert records[..1] == [header];
    assert out == CsvDocument(records[..1]);
    var i := 0;
    while i < |rows|
      invariant 0 <= i <= |rows|
      invariant out == CsvDocument(records[..i + 1])
    {
      var record := CsvTexts(Cells(rows[i], header), floatText);
      ExportRecord(campos, rows, floatText, i);
      CsvPrefixStep(records, i);
      out := out + CsvRecord(record);
      i := i + 1;
    }
    assert records[..|rows| + 1] == records;
  }

  // ---------------------------------------------------------------- CSV reading

  /** The rest of a quoted field after its opening quote: `""` is one quote, a lone quote closes it. */
  function ParseQuoted(s: string): (r: Option<(string, string)>)
    ensures r.Some? ==> |r.value.1| < |s|
  {
    if s == [] then None
    else if s[0] == '"' then
      if |s| >= 2 && s[1] == '"' then
        match ParseQuoted(s[2..])
        case None => None
        case Some(p) => Some(("\"" + p.0, p.1))
      else Some(("", s[1..]))
    else
      match ParseQuoted(s[1..])
      case None => None
      case Some(p) => Some(([s[0]] + p.0, p.1))
  }

  /** An unquoted field runs up to the next comma or carriage return. */
  function ParseBare(s: string): (r: (string, string))
    ensures |r.1| <= |s|
  {
    if s == [] || s[0] == ',' || s[0] == '\r' then ("", s)
    else
      var p := ParseBare(s[1..]);
      ([s[0]] + p.0, p.1)
  }

  function ParseField(s: string): (r: Option<(string, string)>)
    ensures r.Some? ==> |r.value.1| <= |s|
  {
    if s != [] && s[0] == '"' then ParseQuoted(s[1..]) else Some(ParseBare(s))
  }

  predicate StartsLineEnd(s: string) {
    |s| >= 2 && s[0] == '\r' && s[1] == '\n'
  }

  /** Fields separated by commas, up to and including the record's `\r\n`. */
  function ParseFields(s: string): (r: Option<(seq<string>, string)>)
    ensures r.Some? ==> |r.value.1| < |s|
    decreases |s|
  {
    match ParseField(s)
    case None => None
    case Some(p) =>
      if StartsLineEnd(p.1) then Some(([p.0], p.1[2..]))
      else if p.1 != [] && p.1[0] == ',' then
        match ParseFields(p.1[1..])
        case None => None
        case Some(q) => Some(([p.0] + q.0, q.1))
      else None
  }

  /** One record: an empty line has no fields. */
  function ParseRecord(s: string): (r: Option<(seq<string>, string)>)
    ensures r.Some? ==> |r.value.1| < |s|
  {
    if StartsLineEnd(s) then Some(([], s[2..])) else ParseFields(s)
  }

  /** The records of a CSV text, `None` when it is not well formed. */
  function ParseCsv(s: string): (r: Option<seq<seq<string>>>)
    decreases |s|
  {
    if s == [] then Some([])
    else
      match ParseRecord(s)
      case None => None
      case Some(p) =>
        match ParseCsv(p.1)
        case None => None
        case Some(rs) => Some([p.0] + rs)
  }

  /** What may follow a written field: a comma or the record terminator. */
  predicate FieldEnd(t: string) {
    t != [] && (t[0] == ',' || t[0] == '\r')
  }

  lemma {:induction false} ParseQuotedDoubled(f: string, t: string)
    requires FieldEnd(t)
    ensures ParseQuoted(Doubled(f) + "\"" + t) == Some((f, t))
  {
    var s := Doubled(f) + "\"" + t;
    if f == [] {
      assert s == "\"" + t;
      assert s[1..] == t;
    } else {
      var rest := Doubled(f[1..]) + "\"" + t;
      ParseQuotedDoubled(f[1..], t);
      if f[0] == '"' {
        assert s == "\"\"" + rest;
        ParseQuotedPair(rest, f[1..], t);
        assert "\"" + f[1..] == f;
      } else {
        assert s == [f[0]] + rest;
        ParseQuotedChar(f[0], rest, f[1..], t);
        assert [f[0]] + f[1..] == f;
      }
    }
  }

  /** A doubled quote inside a quoted field reads as one quote. */
  lemma ParseQuotedPair(rest: string, f: string, t: string)
    requires ParseQuoted(rest) == Some((f, t))
    ensures ParseQuoted("\"\"" + rest) == Some(("\"" + f, t))
  {
    assert ("\"\"" + rest)[2..] == rest;
  }

  /** Any other character inside a quoted field reads as itself. */
  lemma ParseQuotedChar(c: char, rest: string, f: string, t: string)
    requires c != '"' && ParseQuoted(rest) == Some((f, t))
    ensures ParseQuoted([c] + rest) == Some(([c] + f, t))
  {
    assert ([c] + rest)[1..] == rest;
  }

  lemma {:induction false} ParseBarePlain(f: string, t: string)
    requires !NeedsQuotes(f)
    requires FieldEnd(t)
    ensures ParseBare(f + t) == (f, t)
  {
    if f == [] {
      assert f + t == t;
    } else {
      assert !Special(f[0]);
      assert !NeedsQuotes(f[1..]) by {
        forall i | 0 <= i < |f[1..]| ensures !Special(f[1..][i]) {
          assert f[1..][i] == f[i + 1];
        }
      }
      assert (f + t)[1..] == f[1..] + t;
      ParseBarePlain(f[1..], t);
      assert [f[0]] + f[1..] == f;
    }
  }

  /** Reading a written field gives the field back and stops where the field ends. */
  lemma ParseFieldOf(f: string, t: string)
    requires FieldEnd(t)
    ensures ParseField(CsvField(f) + t) == Some((f, t))
  {
    if NeedsQuotes(f) {
      var s := "\"" + Doubled(f) + "\"" + t;
      assert s[1..] == Doubled(f) + "\"" + t;
      ParseQuotedDoubled(f, t);
    } else {
      ParseBarePlain(f, t);
      if f != [] {
        assert !Special(f[0]);
        assert (f + t)[0] == f[0];
      } else {
        assert f + t == t;
      }
    }
  }

  lemma {:induction false} ParseJoined(fs: seq<string>, t: string)
    requires fs != []
    ensures ParseFields(Joined(fs) + "\r\n" + t) == Some((fs, t))
  {
    if |fs| == 1 {
      ParseFieldsLast(fs[0], t);
      assert [fs[0]] == fs;
    } else {
      var more := Joined(fs[1..]) + "\r\n" + t;
      ParseJoined(fs[1..], t);
      ParseFieldsNext(fs[0], more, fs[1..], t);
      assert Joined(fs) + "\r\n" + t == CsvField(fs[0]) + "," + more;
      assert [fs[0]] + fs[1..] == fs;
    }
  }

  /** The last field of a record: the field, then the terminator. */
  lemma ParseFieldsLast(f: string, t: string)
    ensures ParseFields(CsvField(f) + "\r\n" + t) == Some(([f], t))
  {
    ParseFieldOf(f, "\r\n" + t);
    assert CsvField(f) + "\r\n" + t == CsvField(f) + ("\r\n" + t);
    assert StartsLineEnd("\r\n" + t);
    assert ("\r\n" + t)[2..] == t;
  }

  /** A field before a comma, then the fields that follow it. */
  lemma ParseFieldsNext(f: string, more: string, rest: seq<string>, t: string)
    requires ParseFields(more) == Some((rest, t))
    ensures ParseFields(CsvField(f) + "," + more) == Some(([f] + rest, t))
  {
    ParseFieldOf(f, "," + more);
    assert CsvField(f) + "," + more == CsvField(f) + ("," + more);
    assert ("," + more)[1..] == more;
  }

  /** Reading a written record gives the record back, whatever follows it. */
  lemma ParseRecordOf(fs: seq<string>, t: string)
    ensures ParseRecord(CsvRecord(fs) + t) == Some((fs, t))
  {
    if fs == [] {
      assert ("\r\n" + t)[2..] == t;
    } else if fs == [""] {
      var s := "\"\"\r\n" + t;
      assert s[1..] == "\"\r\n" + t;
      assert ("\"\r\n" + t)[1..] == "\r\n" + t;
      assert ("\r\n" + t)[2..] == t;
    } else {
      ParseJoined(fs, t);
      var s := Joined(fs) + "\r\n" + t;
      assert CsvRecord(fs) + t == s;
      if fs[0] == "" {
        assert !NeedsQuotes(fs[0]);
        assert |fs| > 1;
        assert Joined(fs) == "," + Joined(fs[1..]);
        assert s[0] == ',';
      } else if NeedsQuotes(fs[0]) {
        assert s[0] == '"';
      } else {
        assert !Special(fs[0][0]);
        assert Joined(fs)[0] == fs[0][0];
        assert s[0] == fs[0][0];
      }
    }
  }

  /** The CSV text reads back as exactly the records written. */
  lemma {:induction false} CsvRoundTrip(records: seq<seq<string>>)
    ensures ParseCsv(CsvDocument(records)) == Some(records)
  {
    if records != [] {
      var rest := CsvDocument(records[1..]);
      ParseRecordOf(records[0], rest);
      CsvRoundTrip(records[1..]);
      assert [records[0]] + records[1..] == records;
    }
  }

  /** Two different sets of records never give the same CSV text. */
  lemma CsvInjective(a: seq<seq<string>>, b: seq<seq<string>>)
    requires CsvDocument(a) == CsvDocument(b)
    ensures a == b
  {
    CsvRoundTrip(a);
    CsvRoundTrip(b);
  }

  /**
   * The CSV export reads back as the spreadsheet's grid written as text: the
   * header record first, then for each row the texts of its header-ordered cells,
   * with an empty field for every key the row lacks.
   */
  lemma CsvExportReadsBack(campos: seq<string>, rows: seq<Row>, floatText: real -> string)
    ensures var sheet := ExcelSheet(campos, rows);
      var recs := CsvRecords(sheet.grid, floatText);
      ParseCsv(CsvDocument(recs)) == Some(recs) &&
      recs[0] == sheet.grid.header &&
      |recs| == |rows| + 1 &&
      forall i, j :: 0 <= i < |rows| && 0 <= j < |sheet.grid.header| ==>
        |recs[i + 1]| == |sheet.grid.header| &&
        recs[i + 1][j] == CsvText(sheet.grid.body[i][j], floatText) &&
        (sheet.grid.header[j] !in Keys(rows[i]) ==> recs[i + 1][j] == "")
  {
    var g := GridOf(campos, rows);
    CsvRoundTrip(CsvRecords(g, floatText));
    forall i, j | 0 <= i < |rows| && 0 <= j < |g.header|
      ensures var recs := CsvRecords(g, floatText);
        |recs[i + 1]| == |g.header| && recs[i + 1][j] == CsvText(g.body[i][j], floatText) &&
        (g.header[j] !in Keys(rows[i]) ==> recs[i + 1][j] == "")
    {
      ExportCell(g, rows, floatText, i, j);
    }
  }

  /** Field `j` of the record of row `i` is the text of its cell, empty where the row lacks the key. */
  lemma ExportCell(g: Grid, rows: seq<Row>, floatText: real -> string, i: nat, j: nat)
    requires |g.body| == |rows| && i < |rows| && j < |g.header| && g.body[i] == Cells(rows[i], g.header)
    ensures var recs := CsvRecords(g, floatText);
      |recs[i + 1]| == |g.header| && recs[i + 1][j] == CsvText(g.body[i][j], floatText) &&
      (g.header[j] !in Keys(rows[i]) ==> recs[i + 1][j] == "")
  {
    var cells := g.body[i];
    assert CsvRecords(g, floatText)[i + 1] == CsvTexts(cells, floatText);
    if g.header[j] !in Keys(rows[i]) {
      assert cells[j] == VNull;
    }
  }

  // ---------------------------------------------------------------- the print layout

  const MaxColumns: nat := 8
  const MaxRows: nat := 200
  const MaxLine: nat := 140

  /** Vertical positions on a US letter page (792 points high), in points from the bottom. */
  const Top: int := 742
  const FirstRowY: int := 686
  const LineStep: int := 12
  const BottomMargin: int := 60

  /** `s[:n]`. */
  function Take<T>(s: seq<T>, n: nat): (r: seq<T>)
    ensures |r| <= n && |r| <= |s| && r == s[..|r|]
    ensures |s| <= n ==> r == s
  {
    if |s| <= n then s else s[..n]
  }

  function TotalLength(parts: seq<string>): nat {
    if parts == [] then 0 else |parts[0]| + TotalLength(parts[1..])
  }

  /** `' | '.join(parts)`. */
  function JoinBar(parts: seq<string>): (r: string)
    ensures parts != [] ==> |r| == TotalLength(parts) + 3 * (|parts| - 1)
    ensures parts != [] ==> r[..|parts[0]|] == parts[0]
  {
    if parts == [] then ""
    else if |parts| == 1 then parts[0]
    else parts[0] + " | " + JoinBar(parts[1..])
  }

  /** Python's `str()` of a cell: here `None` reads `None`. */
  function PyStr(v: Value, floatText: real -> string): string {
    match v
    case VNull => "None"
    case VBool(b) => if b then "True" else "False"
    case VInt(i) => IntToString(i)
    case VNum(x) => floatText(x)
    case VText(s) => s
  }

  /** `str(r.get(col, ''))`: a missing key prints as nothing, a present null as `None`. */
  function PdfCell(row: Row, col: string, floatText: real -> string): (r: string)
    ensures col !in Keys(row) ==> r == ""
    ensures col in Keys(row) ==> r == PyStr(Lookup(row, col), floatText)
  {
    if col in Keys(row) then PyStr(Lookup(row, col), floatText) else ""
  }

  /** The printed cells of a row, one per column. */
  function RowCells(row: Row, cols: seq<string>, floatText: real -> string): (cells: seq<string>)
    ensures |cells| == |cols|
    ensures forall j :: 0 <= j < |cols| ==> cells[j] == PdfCell(row, cols[j], floatText)
  {
    if cols == [] then []
    else
      var rest := RowCells(row, cols[1..], floatText);
      assert forall j :: 1 <= j < |cols| ==> cols[1..][j - 1] == cols[j];
      [PdfCell(row, cols[0], floatText)] + rest
  }

  /** The cells of a row joined by ` | `, cut to 140 characters. */
  function RowLine(row: Row, cols: seq<string>, floatText: real -> string): (r: string)
    ensures |r| <= MaxLine
    ensures var full := JoinBar(RowCells(row, cols, floatText));
      |r| <= |full| && r == full[..|r|] && (|full| <= MaxLine ==> r == full) && (|full| > MaxLine ==> |r| == MaxLine)
  {
    Take(JoinBar(RowCells(row, cols, floatText)), MaxLine)
  }

  datatype Font = Helvetica(size: nat) | HelveticaBold(size: nat)

  /** A line of text drawn at the left margin of `page` (counted from 0), `y` points from the bottom. */
  datatype Drawn = Drawn(page: nat, y: int, font: Font, text: string)

  /** Where the next row goes after one at `p`: 12 points lower, or the top of a new page below the margin. */
  function NextPosition(p: (nat, int)): (nat, int) {
    if p.1 - LineStep < BottomMargin then (p.0 + 1, Top) else (p.0, p.1 - LineStep)
  }

  /** The page and height of the row with index `k`. */
  function Position(k: nat): (nat, int) {
    if k == 0 then (0, FirstRowY) else NextPosition(Position(k - 1))
  }

  /** The first page holds 53 rows, below the title, the filters and the header; each later page 57. */
  lemma {:induction false} PositionClosedForm(k: nat)
    ensures k < 53 ==> Position(k) == (0, FirstRowY - LineStep * k)
    ensures k >= 53 ==> Position(k) == (1 + (k - 53) / 57, Top - LineStep * ((k - 53) % 57))
  {
    if k > 0 {
      PositionClosedForm(k - 1);
      if k - 1 >= 53 {
        var m := (k - 1 - 53) % 57;
        var q := (k - 1 - 53) / 57;
        assert k - 1 - 53 == 57 * q + m;
        if m == 56 {
          assert k - 53 == 57 * (q + 1);
          assert (k - 53) / 57 == q + 1 && (k - 53) % 57 == 0;
        } else {
          assert k - 53 == 57 * q + (m + 1);
          assert (k - 53) / 57 == q && (k - 53) % 57 == m + 1;
        }
      }
    }
  }

  /** Every row is drawn on the page, at or above the bottom margin and below the header. */
  lemma {:induction false} RowsInsideMargins(k: nat)
    ensures BottomMargin <= Position(k).1 <= Top
    ensures Position(k).0 == 0 ==> Position(k).1 <= FirstRowY
  {
    if k > 0 {
      RowsInsideMargins(k - 1);
    }
  }

  /** The title, the filters and the column header at the top of the first page. */
  function PdfHead(tipo: TipoReporte, filtrosText: string, cols: seq<string>): seq<Drawn> {
    [Drawn(0, Top, HelveticaBold(14), "Reporte: " + TipoCode(tipo)),
     Drawn(0, Top - 24, Helvetica(10), "Filtros: " + filtrosText),
     Drawn(0, Top - 42, HelveticaBold(9), JoinBar(cols))]
  }

  /** The printed line of each row, in row order. */
  function RowLines(rows: seq<Row>, cols: seq<string>, floatText: real -> string): (lines: seq<string>)
    ensures |lines| == |rows|
  {
    if rows == [] then [] else [RowLine(rows[0], cols, floatText)] + RowLines(rows[1..], cols, floatText)
  }

  lemma {:induction false} RowLinesAt(rows: seq<Row>, cols: seq<string>, floatText: real -> string, k: nat)
    requires k < |rows|
    ensures RowLines(rows, cols, floatText)[k] == RowLine(rows[k], cols, floatText)
  {
    if k > 0 {
      RowLinesAt(rows[1..], cols, floatText, k - 1);
    }
  }

  /** The first `n` lines, each drawn at its row's position in 9-point Helvetica. */
  function PdfRows(lines: seq<string>, n: nat): (r: seq<Drawn>)
    requires n <= |lines|
    ensures |r| == n
    ensures forall k :: 0 <= k < n ==> r[k] == Drawn(Position(k).0, Position(k).1, Helvetica(9), lines[k])
  {
    if n == 0 then [] else PdfRows(lines, n - 1) + [Drawn(Position(n - 1).0, Position(n - 1).1, Helvetica(9), lines[n - 1])]
  }

  /** The columns the print layout shows: the first 8 of the header. */
  function PdfColumns(campos: seq<string>, rows: seq<Row>): (cols: seq<string>)
    ensures |cols| <= MaxColumns && |cols| <= |Header(campos, rows)| && cols == Header(campos, rows)[..|cols|]
  {
    Take(Header(campos, rows), MaxColumns)
  }

  /** What the PDF canvas receives: the lines drawn and the number of pages emitted. */
  datatype PdfDoc = PdfDoc(drawn: seq<Drawn>, pages: nat)

  /**
   * The print layout of a report: the head, then one line per row among the
   * first 200, and one page per page break in the row loop plus the final one.
   * `filtrosText` is the `json.dumps` text of the filters, which the model takes as given.
   */
  function PdfLayout(tipo: TipoReporte, filtrosText: string, campos: seq<string>, rows: seq<Row>, floatText: real -> string): PdfDoc {
    var shown := Take(rows, MaxRows);
    var cols := PdfColumns(campos, rows);
    PdfDoc(PdfHead(tipo, filtrosText, cols) + PdfRows(RowLines(shown, cols, floatText), |shown|), Position(|shown|).0 + 1)
  }

  /** `_export_pdf`: draws the head, then each row, moving down a line and to a new page below the margin. */
  method ExportPdf(tipo: TipoReporte, filtrosText: string, campos: seq<string>, rows: seq<Row>, floatText: real -> string)
    returns (doc: PdfDoc)
    ensures doc == PdfLayout(tipo, filtrosText, campos, rows, floatText)
  {
    var cols := PdfColumns(campos, rows);
    var shown := Take(rows, MaxRows);
    var lines := RowLines(shown, cols, floatText);
    var body, last := DrawRows(lines);
    doc := PdfDoc(PdfHead(tipo, filtrosText, cols) + body, last.0 + 1);
  }

  /** The row loop of `_export_pdf`: one line per row, each below the last, breaking pages at the margin. */
  method DrawRows(lines: seq<string>) returns (body: seq<Drawn>, last: (nat, int))
    ensures body == PdfRows(lines, |lines|)
    ensures last == Position(|lines|)
  {
    body := [];
    var page: nat, y := 0, FirstRowY;
    var i := 0;
    while i < |lines|
      invariant 0 <= i <= |lines|
      invariant (page, y) == Position(i)
      invariant body == PdfRows(lines, i)
    {
      body := body + [Drawn(page, y, Helvetica(9), lines[i])];
      ghost var next := NextPosition((page, y));
      y := y - LineStep;
      if y < BottomMargin {
        page := page + 1;
        y := Top;
      }
      assert (page, y) == next;
      i := i + 1;
    }
    last := (page, y);
  }

  /**
   * The print layout's limits: the header line shows at most 8 columns; after
   * the three head lines come at most 200 row lines, the rows in order, each at
   * most 140 characters and drawn inside the page margins; at most four pages.
   */
  lemma PdfLimits(tipo: TipoReporte, filtrosText: string, campos: seq<string>, rows: seq<Row>, floatText: real -> string)
    ensures var doc := PdfLayout(tipo, filtrosText, campos, rows, floatText);
      var cols := PdfColumns(campos, rows);
      |cols| <= MaxColumns && doc.drawn[2].text == JoinBar(cols) &&
      |doc.drawn| == 3 + (if |rows| <= MaxRows then |rows| else MaxRows) &&
      (forall k :: 3 <= k < |doc.drawn| ==>
        doc.drawn[k].text == RowLine(rows[k - 3], cols, floatText) && |doc.drawn[k].text| <= MaxLine &&
        BottomMargin <= doc.drawn[k].y <= Top) &&
      1 <= doc.pages <= 4
  {
    var shown := Take(rows, MaxRows);
    var cols := PdfColumns(campos, rows);
    var doc := PdfLayout(tipo, filtrosText, campos, rows, floatText);
    var head := PdfHead(tipo, filtrosText, cols);
    var body := PdfRows(RowLines(shown, cols, floatText), |shown|);
    assert doc.drawn == head + body;
    forall k | 3 <= k < |doc.drawn|
      ensures doc.drawn[k].text == RowLine(rows[k - 3], cols, floatText) && BottomMargin <= doc.drawn[k].y <= Top
    {
      PdfBodyLine(head, body, shown, rows, cols, floatText, k);
    }
    PdfPages(|shown|);
  }

  /** Line `k` of the drawing is row `k - 3`, inside the margins. */
  lemma PdfBodyLine(head: seq<Drawn>, body: seq<Drawn>, shown: seq<Row>, rows: seq<Row>, cols: seq<string>, floatText: real -> string, k: nat)
    requires |head| == 3 && shown == Take(rows, MaxRows) && body == PdfRows(RowLines(shown, cols, floatText), |shown|)
    requires 3 <= k < 3 + |body|
    ensures (head + body)[k].text == RowLine(rows[k - 3], cols, floatText)
    ensures BottomMargin <= (head + body)[k].y <= Top
  {
    var j := k - 3;
    var lines := RowLines(shown, cols, floatText);
    assert (head + body)[k] == body[j];
    assert body[j] == Drawn(Position(j).0, Position(j).1, Helvetica(9), lines[j]);
    assert shown[j] == rows[j];
    RowLinesAt(shown, cols, floatText, j);
    RowsInsideMargins(j);
  }

  /** At most 200 rows fit on four pages. */
  lemma PdfPages(n: nat)
    requires n <= MaxRows
    ensures Position(n).0 <= 3
  {
    PositionClosedForm(n);
    if n >= 53 {
      assert n - 53 < 3 * 57;
    }
  }

  /** A full layout of 200 rows takes four pages: 53 rows, then 57, 57 and 33. */
  lemma FullLayoutPages()
    ensures Position(MaxRows).0 + 1 == 4
  {
    PositionClosedForm(MaxRows);
  }

  // ---------------------------------------------------------------- format and file name

  datatype Formato = Csv | Xlsx | Pdf

  /** `(formato or 'csv').lower()`, with `excel` meaning `xlsx`; `None` is the unsupported-format answer (400). */
  function FormatoOf(query: Option<string>): Option<Formato> {
    var f := if query.None? || query.value == "" then "csv" else Lower(query.value);
    if f == "csv" then Some(Csv)
    else if f == "xlsx" || f == "excel" then Some(Xlsx)
    else if f == "pdf" then Some(Pdf)
    else None
  }

  function Extension(f: Formato): string {
    match f
    case Csv => "csv"
    case Xlsx => "xlsx"
    case Pdf => "pdf"
  }

  function ContentType(f: Formato): string {
    match f
    case Csv => "text/csv; charset=utf-8"
    case Xlsx => "application/vnd.openxmlformats-officedocument.spreadsheetml.sheet"
    case Pdf => "application/pdf"
  }

  /** The format ignores letter case. */
  lemma FormatoIgnoresCase(a: string, b: string)
    requires Lower(a) == Lower(b)
    ensures FormatoOf(Some(a)) == FormatoOf(Some(b))
  {
    assert |a| == |Lower(a)| == |Lower(b)| == |b|;
  }

  /** Exactly five spellings (up to case) are accepted, and a missing format means CSV. */
  lemma FormatoAccepted(s: string)
    ensures FormatoOf(None) == Some(Csv)
    ensures FormatoOf(Some(s)).Some? <==> Lower(s) in {"", "csv", "xlsx", "excel", "pdf"}
  {
    if s == "" {
      assert Lower(s) == "";
    } else {
      assert |Lower(s)| == |s| > 0;
    }
  }

  /** Each format's extension names that format. */
  lemma ExtensionRoundTrip(f: Formato)
    ensures FormatoOf(Some(Extension(f))) == Some(f)
  {
    assert Lower("csv") == "csv";
    assert Lower("xlsx") == "xlsx";
    assert Lower("pdf") == "pdf";
  }

  /** `reporte_<tipo>_<stamp>.<ext>`; `stamp` is the UTC time as `%Y%m%d_%H%M%S`, read from the clock. */
  function Filename(t: TipoReporte, stamp: string, f: Formato): string {
    "reporte_" + TipoCode(t) + "_" + stamp + "." + Extension(f)
  }

  /** The report type can be read back from the file name. */
  lemma FilenameNamesType(t: TipoReporte, stamp: string, f: Formato)
    ensures var name := Filename(t, stamp, f);
      |name| > 8 && ParseTipo(BeforeFirst(name[8..], '_')) == Some(t)
  {
    var name := Filename(t, stamp, f);
    var code := TipoCode(t);
    var tail := stamp + "." + Extension(f);
    assert name[8..] == code + ['_'] + tail;
    assert '_' !in code by {
      match t
      case Reservas =>
      case Propiedades =>
      case Usuarios =>
      case Ingresos =>
      case Facturas =>
      case Ocupacion =>
    }
    BeforeFirstPrefix(code, '_', tail);
    TipoRoundTrip(t);
  }
}
