/**
 * Ingestion of spreadsheets. The file's extension selects the reader: a CSV
 * file is given as the rows the CSV reader yields from its decoded bytes, a
 * workbook as its sheets (or the error loading it raised). The table is
 * rendered as text, one line per data row that has a non-blank cell, and that
 * text is chunked and tagged.
 */
module IngestExcel {
  import opened Wrappers
  import opened PyStr
  import opened Records
  import opened Config
  import opened Chunker

  /** A worksheet: its name and its rows; an absent cell value is `None`, a present one is given as `str(value)`. */
  datatype Sheet = Sheet(name: string, rows: seq<seq<Option<string>>>)

  const CsvEmpty: string := "CSV file is empty"
  const NoData: string := "No data found in the file"
  const NoContent: string := "No content could be extracted from the file"

  function Unsupported(ext: string): string
  {
    "Unsupported file type: " + ext + ". Supported: .csv, .xlsx, .xls"
  }

  predicate AllDots(s: string)
  {
    forall i :: 0 <= i < |s| ==> s[i] == '.'
  }

  /** A one-character string that occurs nowhere after `lo` leaves no such character there. */
  lemma CharAbsent(s: string, sub: string, lo: nat)
    requires |sub| == 1
    requires forall j :: lo < j <= |s| - 1 ==> !HasAt(s, j, sub)
    ensures forall j :: lo < j < |s| ==> s[j] != sub[0]
  {
    forall j | lo < j < |s| ensures s[j] != sub[0] {
      if s[j] == sub[0] {
        assert s[j..j + 1] == sub;
        assert HasAt(s, j, sub);
      }
    }
  }

  /**
   * `os.path.splitext(filename)[1]`: from the last dot of the last path
   * component on, provided that component has something other than dots
   * before it; otherwise empty.
   */
  function SplitExt(filename: string): (r: string)
    ensures r == [] || (r[0] == '.' && EndsWith(filename, r))
    ensures r != [] ==> forall i :: 1 <= i < |r| ==> r[i] != '.' && r[i] != '/'
  {
    var sep := RFind(filename, "/", 0, |filename|);
    var dot := RFind(filename, ".", 0, |filename|);
    if dot > sep && !AllDots(filename[sep + 1..dot]) then
      DotSuffix(filename, dot);
      filename[dot..]
    else []
  }

  /** The text from the last dot on starts with that dot and holds no later dot or "/". */
  lemma DotSuffix(filename: string, dot: nat)
    requires dot < |filename| && HasAt(filename, dot, ".")
    requires forall j :: dot < j <= |filename| - 1 ==> !HasAt(filename, j, ".")
    requires forall j :: dot < j <= |filename| - 1 ==> !HasAt(filename, j, "/")
    ensures filename[dot..][0] == '.' && EndsWith(filename, filename[dot..])
    ensures forall i :: 1 <= i < |filename[dot..]| ==> filename[dot..][i] != '.' && filename[dot..][i] != '/'
  {
    CharAbsent(filename, ".", dot);
    CharAbsent(filename, "/", dot);
    assert filename[dot..dot + 1] == ".";
  }

  /** The column label of cell `j`: its header, or "Col<j+1>" past the last header. */
  function Label(headers: seq<string>, j: nat): string
  {
    if j < |headers| then headers[j] else "Col" + NatToString(j + 1)
  }

  /** The cell is rendered: it has a value and the value is not blank. */
  predicate Shown(cell: Option<string>)
  {
    cell.Some? && !IsBlank(cell.value)
  }

  /** The "label: value" pairs of a row's shown cells, left to right. */
  function RowPairs(headers: seq<string>, row: seq<Option<string>>): (r: seq<string>)
    ensures |r| <= |row|
    ensures forall k :: 0 <= k < |r| ==> r[k] != []
  {
    if row == [] then []
    else
      var j := |row| - 1;
      RowPairs(headers, row[..j])
      + (if Shown(row[j]) then [Label(headers, j) + ": " + row[j].value] else [])
  }

  /** The text of a data row: its pairs joined by " | ". */
  function RowText(headers: seq<string>, row: seq<Option<string>>): string
  {
    Join(RowPairs(headers, row), " | ")
  }

  /** The lines of the data rows, numbered from 1; rows with nothing to show give no line. */
  function RowLines(headers: seq<string>, data: seq<seq<Option<string>>>): seq<string>
  {
    if data == [] then []
    else
      var n := |data|;
      var text := RowText(headers, data[n - 1]);
      RowLines(headers, data[..n - 1]) + (if text != [] then ["Row " + NatToString(n) + ": " + text] else [])
  }

  /** The line row number `i` (1-based) of `data` contributes. */
  function RowLine(headers: seq<string>, data: seq<seq<Option<string>>>, i: int): string
    requires 1 <= i <= |data|
  {
    "Row " + NatToString(i) + ": " + RowText(headers, data[i - 1])
  }

  /** A CSV row as cells that are all present. */
  function CsvCells(row: seq<string>): (r: seq<Option<string>>)
    ensures |r| == |row| && forall j :: 0 <= j < |r| ==> r[j] == Some(row[j])
  {
    seq(|row|, j requires 0 <= j < |row| => Some(row[j]))
  }

  function CsvData(rows: seq<seq<string>>): (r: seq<seq<Option<string>>>)
    ensures |r| == |rows| && forall i :: 0 <= i < |r| ==> r[i] == CsvCells(rows[i])
  {
    seq(|rows|, i requires 0 <= i < |rows| => CsvCells(rows[i]))
  }

  /** The parts of the rendering of a non-empty CSV table: the summary, then the row lines. */
  function CsvParts(filename: string, rows: seq<seq<string>>): seq<string>
    requires rows != []
  {
    ["Data from: " + filename + "\n",
     "Columns: " + Join(rows[0], ", ") + "\n",
     "Total rows: " + NatToString(|rows| - 1) + "\n\n"]
    + RowLines(rows[0], CsvData(rows[1..]))
  }

  /** A header cell: `str(cell)`, or "" when the cell is empty. */
  function HeaderCells(row: seq<Option<string>>): (r: seq<string>)
    ensures |r| == |row|
    ensures forall j :: 0 <= j < |r| ==> r[j] == row[j].GetOr("")
  {
    seq(|row|, j requires 0 <= j < |row| => row[j].GetOr(""))
  }

  /** The non-empty strings, in order. */
  function NonEmpty(xs: seq<string>): (r: seq<string>)
    ensures |r| <= |xs|
    ensures forall k :: 0 <= k < |r| ==> r[k] != []
  {
    if xs == [] then []
    else NonEmpty(xs[..|xs| - 1]) + (if xs[|xs| - 1] != [] then [xs[|xs| - 1]] else [])
  }

  /**
   * `NonEmpty` is the filter that keeps exactly the non-empty strings, in
   * order: it distributes over concatenation and keeps a single string
   * exactly when it is non-empty.
   */
  lemma {:induction false} NonEmptyFilter(a: seq<string>, b: seq<string>, c: string)
    ensures NonEmpty(a + b) == NonEmpty(a) + NonEmpty(b)
    ensures NonEmpty([c]) == if c != [] then [c] else []
    decreases |b|
  {
    assert [c][..0] == [];
    if b == [] {
      assert a + b == a;
    } else {
      var init, x := b[..|b| - 1], b[|b| - 1];
      var tail := if x != [] then [x] else [];
      assert (a + b)[..|a + b| - 1] == a + init;
      assert (a + b)[|a + b| - 1] == x;
      assert NonEmpty(a + b) == NonEmpty(a + init) + tail;
      assert NonEmpty(b) == NonEmpty(init) + tail;
      NonEmptyFilter(a, init, c);
    }
  }

  /** The parts a worksheet contributes; an empty sheet contributes none. */
  function SheetParts(s: Sheet): seq<string>
  {
    if s.rows == [] then []
    else
      var headers := HeaderCells(s.rows[0]);
      ["\n--- Sheet: " + s.name + " ---\n",
       "Columns: " + Join(NonEmpty(headers), ", "),
       "Total rows: " + NatToString(|s.rows| - 1) + "\n"]
      + RowLines(headers, s.rows[1..])
  }

  function SheetsParts(sheets: seq<Sheet>): seq<string>
  {
    if sheets == [] then [] else SheetsParts(sheets[..|sheets| - 1]) + SheetParts(sheets[|sheets| - 1])
  }

  function WorkbookParts(filename: string, sheets: seq<Sheet>): seq<string>
  {
    ["Data from: " + filename + "\n"] + SheetsParts(sheets)
  }

  /** The rendered table, or the error raised before rendering completes. */
  function SpreadsheetText(filename: string, csvRows: seq<seq<string>>, workbook: Outcome<seq<Sheet>>): Outcome<string>
  {
    var ext := Lower(SplitExt(filename));
    if ext == ".csv" then
      if csvRows == [] then Failure(CsvEmpty) else Success(Join(CsvParts(filename, csvRows), "\n"))
    else if ext == ".xlsx" || ext == ".xls" then
      if workbook.Failure? then Failure(workbook.error)
      else Success(Join(WorkbookParts(filename, workbook.value), "\n"))
    else Failure(Unsupported(ext))
  }

  /** The chunks of the rendered text, tagged as a spreadsheet named `filename`. */
  function SpreadsheetChunks(text: string, filename: string, sourceId: string, settings: Settings): seq<Chunk>
    requires ValidWindow(settings.maxChunkSize, settings.chunkOverlap)
  {
    TagAll(TextChunks(text, settings.maxChunkSize, settings.chunkOverlap), SourceTags(sourceId, filename, "spreadsheet"))
  }

  // ---------------------------------------------------------------------
  // The rendering loops

  /** Renders one data row: the pairs of its shown cells joined by " | ". */
  method RenderRow(headers: seq<string>, row: seq<Option<string>>) returns (text: string)
    ensures text == RowText(headers, row)
  {
    var pairs: seq<string> := [];
    var j := 0;
    while j < |row|
      invariant 0 <= j <= |row|
      invariant pairs == RowPairs(headers, row[..j])
    {
      assert row[..j + 1][..j] == row[..j];
      var cell := row[j];
      if cell.Some? && Strip(cell.value) != [] {
        var columnLabel := if j < |headers| then headers[j] else "Col" + NatToString(j + 1);
        pairs := pairs + [columnLabel + ": " + cell.value];
      }
      j := j + 1;
    }
    assert row[..|row|] == row;
    text := Join(pairs, " | ");
  }

  /** Appends the line of every data row that has something to show, numbering rows from 1. */
  method RenderRows(headers: seq<string>, data: seq<seq<Option<string>>>) returns (lines: seq<string>)
    ensures lines == RowLines(headers, data)
  {
    lines := [];
    var i := 1;
    while i <= |data|
      invariant 1 <= i <= |data| + 1
      invariant lines == RowLines(headers, data[..i - 1])
    {
      assert data[..i][..i - 1] == data[..i - 1];
      var rowText := RenderRow(headers, data[i - 1]);
      if rowText != [] {
        lines := lines + ["Row " + NatToString(i) + ": " + rowText];
      }
      i := i + 1;
    }
    assert data[..|data|] == data;
  }

  /** The CSV branch: the summary lines, then one line per data row with something to show. */
  method RenderCsv(filename: string, rows: seq<seq<string>>) returns (fullText: string)
    requires rows != []
    ensures fullText == Join(CsvParts(filename, rows), "\n")
  {
    var headers := rows[0];
    var parts := ["Data from: " + filename + "\n"];
    parts := parts + ["Columns: " + Join(headers, ", ") + "\n"];
    parts := parts + ["Total rows: " + NatToString(|rows| - 1) + "\n\n"];
    var lines := RenderRows(headers, CsvData(rows[1..]));
    parts := parts + lines;
    assert parts == CsvParts(filename, rows);
    fullText := Join(parts, "\n");
  }

  /** One worksheet: its name, its non-empty header cells, its row count, then its row lines; nothing for an empty sheet. */
  method RenderSheet(sheet: Sheet) returns (sheetParts: seq<string>)
    ensures sheetParts == SheetParts(sheet)
  {
    hide Join, NonEmpty, RowLines;
    var rows := sheet.rows;
    if rows == [] {
      return [];
    }
    var headers := HeaderCells(rows[0]);
    sheetParts := ["\n--- Sheet: " + sheet.name + " ---\n"];
    sheetParts := sheetParts + ["Columns: " + Join(NonEmpty(headers), ", ")];
    sheetParts := sheetParts + ["Total rows: " + NatToString(|rows| - 1) + "\n"];
    var lines := RenderRows(headers, rows[1..]);
    sheetParts := sheetParts + lines;
  }

  /** Before any sheet, only the header line. */
  lemma WorkbookPartsStart(filename: string, sheets: seq<Sheet>)
    ensures WorkbookParts(filename, sheets[..0]) == ["Data from: " + filename + "\n"]
  {
    assert sheets[..0] == [];
  }

  /** Adding a sheet adds its parts at the end. */
  lemma WorkbookPartsStep(filename: string, sheets: seq<Sheet>, k: nat)
    requires k < |sheets|
    ensures WorkbookParts(filename, sheets[..k + 1]) == WorkbookParts(filename, sheets[..k]) + SheetParts(sheets[k])
  {
    hide SheetParts;
    assert sheets[..k + 1][..k] == sheets[..k];
  }

  /** The workbook branch: a header line, then for every non-empty sheet its summary and row lines. */
  method RenderWorkbook(filename: string, sheets: seq<Sheet>) returns (fullText: string)
    ensures fullText == Join(WorkbookParts(filename, sheets), "\n")
  {
    hide Join, SheetParts, WorkbookParts;
    var parts := ["Data from: " + filename + "\n"];
    WorkbookPartsStart(filename, sheets);
    var k := 0;
    while k < |sheets|
      invariant 0 <= k <= |sheets|
      invariant parts == WorkbookParts(filename, sheets[..k])
    {
      var sheetParts := RenderSheet(sheets[k]);
      WorkbookPartsStep(filename, sheets, k);
      parts := parts + sheetParts;
      k := k + 1;
    }
    assert sheets[..|sheets|] == sheets;
    fullText := Join(parts, "\n");
  }

  /**
   * `ingest_excel`: dispatch on the lower-cased extension, render the table,
   * reject blank text, chunk it with `chunk_text`, tag every chunk with the
   * source's id, the file name and the kind "spreadsheet", and reject an
   * empty result.
   */
  method IngestExcel(filename: string, csvRows: seq<seq<string>>, workbook: Outcome<seq<Sheet>>,
                     sourceId: string, settings: Settings)
    returns (r: Outcome<(string, int)>, stored: seq<Chunk>)
    requires ValidWindow(settings.maxChunkSize, settings.chunkOverlap)
    ensures var t := SpreadsheetText(filename, csvRows, workbook);
      (t.Failure? ==> r == Failure(t.error) && stored == [])
      && (t.Success? && IsBlank(t.value) ==> r == Failure(NoData) && stored == [])
      && (t.Success? && !IsBlank(t.value) ==>
            var cs := SpreadsheetChunks(t.value, filename, sourceId, settings);
            (cs == [] ==> r == Failure(NoContent) && stored == [])
            && (cs != [] ==> r == Success((sourceId, |cs|)) && stored == cs))
  {
    hide Join, CsvParts, WorkbookParts, TextChunks, Strip;
    var ext := Lower(SplitExt(filename));
    var fullText: string;
    if ext == ".csv" {
      if csvRows == [] {
        return Failure(CsvEmpty), [];
      }
      fullText := RenderCsv(filename, csvRows);
    } else if ext == ".xlsx" || ext == ".xls" {
      if workbook.Failure? {
        return Failure(workbook.error), [];
      }
      fullText := RenderWorkbook(filename, workbook.value);
    } else {
      return Failure(Unsupported(ext)), [];
    }
    assert SpreadsheetText(filename, csvRows, workbook) == Success(fullText);
    if fullText == [] || Strip(fullText) == [] {
      return Failure(NoData), [];
    }
    var chunks := ChunkText(fullText, None, None, settings);
    chunks := TagChunks(chunks, SourceTags(sourceId, filename, "spreadsheet"));
    if chunks == [] {
      return Failure(NoContent), [];
    }
    stored := chunks;
    r := Success((sourceId, |chunks|));
  }

  // ---------------------------------------------------------------------
  // Properties of the rendering

  lemma RowPairsStep(headers: seq<string>, row: seq<Option<string>>)
    requires row != []
    ensures RowPairs(headers, row)
      == RowPairs(headers, row[..|row| - 1])
         + (if Shown(row[|row| - 1]) then [Label(headers, |row| - 1) + ": " + row[|row| - 1].value] else [])
  {
  }

  /** A row has pairs exactly when one of its cells is shown. */
  lemma {:induction false} RowPairsEmptyIffNothingShown(headers: seq<string>, row: seq<Option<string>>)
    ensures RowPairs(headers, row) == [] <==> forall j :: 0 <= j < |row| ==> !Shown(row[j])
  {
    if row != [] {
      var n := |row|;
      RowPairsEmptyIffNothingShown(headers, row[..n - 1]);
      RowPairsStep(headers, row);
      var init := row[..n - 1];
      if forall j :: 0 <= j < n ==> !Shown(row[j]) {
        assert forall j :: 0 <= j < n - 1 ==> !Shown(init[j]);
      } else if !Shown(row[n - 1]) {
        var j :| 0 <= j < n && Shown(row[j]);
        assert init[j] == row[j];
      }
    }
  }

  /** Joining non-empty parts gives the empty string only for no parts. */
  lemma JoinEmpty(parts: seq<string>, sep: string)
    requires forall k :: 0 <= k < |parts| ==> parts[k] != []
    ensures Join(parts, sep) == [] <==> parts == []
  {
    if |parts| > 1 {
      assert |Join(parts, sep)| >= |parts[0]|;
    }
  }

  /** A data row renders to text exactly when it has a cell that is present and not blank. */
  lemma RowTextEmptyIffNothingShown(headers: seq<string>, row: seq<Option<string>>)
    ensures RowText(headers, row) == [] <==> forall j :: 0 <= j < |row| ==> !Shown(row[j])
  {
    RowPairsEmptyIffNothingShown(headers, row);
    JoinEmpty(RowPairs(headers, row), " | ");
  }

  /** The pairs of a row are those of its shown cells, each labelled by its header or "Col<j+1>". */
  lemma {:induction false} RowPairsLabelled(headers: seq<string>, row: seq<Option<string>>)
    ensures forall k :: 0 <= k < |RowPairs(headers, row)| ==>
      PairOf(headers, row, RowPairs(headers, row)[k])
  {
    if row != [] {
      var n := |row|;
      RowPairsLabelled(headers, row[..n - 1]);
      RowPairsStep(headers, row);
      var a := RowPairs(headers, row[..n - 1]);
      var all := RowPairs(headers, row);
      forall k | 0 <= k < |all| ensures PairOf(headers, row, all[k]) {
        if k < |a| {
          assert all[k] == a[k];
          assert PairOf(headers, row[..n - 1], a[k]);
          var j :| 0 <= j < n - 1 && Shown(row[..n - 1][j]) && a[k] == Label(headers, j) + ": " + row[..n - 1][j].value;
          assert row[..n - 1][j] == row[j];
        } else {
          assert all[k] == Label(headers, n - 1) + ": " + row[n - 1].value;
        }
      }
    }
  }

  /** `pair` is the "label: value" text of a shown cell of the row. */
  ghost predicate PairOf(headers: seq<string>, row: seq<Option<string>>, pair: string)
  {
    exists j :: 0 <= j < |row| && Shown(row[j]) && pair == Label(headers, j) + ": " + row[j].value
  }

  lemma RowLinesStep(headers: seq<string>, data: seq<seq<Option<string>>>)
    ensures data == [] ==> RowLines(headers, data) == []
    ensures data != [] ==>
      RowLines(headers, data)
      == RowLines(headers, data[..|data| - 1])
         + (if RowText(headers, data[|data| - 1]) != [] then [RowLine(headers, data, |data|)] else [])
    ensures data == [] ==> RowNumbers(headers, data) == []
    ensures data != [] ==>
      RowNumbers(headers, data)
      == RowNumbers(headers, data[..|data| - 1])
         + (if RowText(headers, data[|data| - 1]) != [] then [|data|] else [])
  {
  }

  /** The line is that of data row `i` (1-based), a row that has something to show. */
  predicate IsRowLine(headers: seq<string>, data: seq<seq<Option<string>>>, line: string, i: int)
  {
    1 <= i <= |data| && RowText(headers, data[i - 1]) != [] && line == RowLine(headers, data, i)
  }

  /**
   * Every rendered line is "Row <i>: <text>" for a data row `i` (numbered
   * from 1) whose text is not empty, in increasing row order, and every row
   * with a shown cell has its line.
   */
  lemma {:induction false} RowLinesNumbered(headers: seq<string>, data: seq<seq<Option<string>>>)
    ensures |RowLines(headers, data)| == |RowNumbers(headers, data)|
    ensures forall k :: 0 <= k < |RowLines(headers, data)| ==>
      IsRowLine(headers, data, RowLines(headers, data)[k], RowNumbers(headers, data)[k])
    ensures forall j, k :: 0 <= j < k < |RowNumbers(headers, data)| ==>
      RowNumbers(headers, data)[j] < RowNumbers(headers, data)[k]
    ensures forall i :: 1 <= i <= |data| && RowText(headers, data[i - 1]) != [] ==> i in RowNumbers(headers, data)
  {
    hide RowLines, RowText, RowNumbers;
    RowLinesStep(headers, data);
    if data != [] {
      var n := |data|;
      var init := data[..n - 1];
      RowLinesNumbered(headers, init);
      var a := RowLines(headers, init);
      var na := RowNumbers(headers, init);
      var all := RowLines(headers, data);
      var nums := RowNumbers(headers, data);
      assert forall j :: 0 <= j < n - 1 ==> data[j] == init[j];
      forall k | 0 <= k < |all| ensures IsRowLine(headers, data, all[k], nums[k]) {
        if k < |a| {
          assert all[k] == a[k] && nums[k] == na[k];
          assert IsRowLine(headers, init, a[k], na[k]);
          assert data[na[k] - 1] == init[na[k] - 1];
        } else {
          assert all[k] == RowLine(headers, data, n) && nums[k] == n;
        }
      }
      forall j, k | 0 <= j < k < |nums| ensures nums[j] < nums[k] {
        if k < |na| {
          assert nums[j] == na[j] && nums[k] == na[k];
        } else {
          assert nums[k] == n && nums[j] == na[j];
        }
      }
      forall i | 1 <= i <= n && RowText(headers, data[i - 1]) != [] ensures i in nums {
        if i < n {
          assert data[i - 1] == init[i - 1];
          assert i in na;
        } else {
          assert nums[|nums| - 1] == n;
        }
      }
    }
  }

  /** The numbers of the data rows that produce a line, in order. */
  function RowNumbers(headers: seq<string>, data: seq<seq<Option<string>>>): (r: seq<int>)
    ensures forall k :: 0 <= k < |r| ==> 1 <= r[k] <= |data|
  {
    if data == [] then []
    else
      var n := |data|;
      RowNumbers(headers, data[..n - 1]) + (if RowText(headers, data[n - 1]) != [] then [n] else [])
  }

  /** `sep.join(parts)` begins with the first part. */
  lemma JoinStartsWithFirst(parts: seq<string>, sep: string)
    requires parts != []
    ensures StartsWith(Join(parts, sep), parts[0])
  {
    if |parts| > 1 {
      assert Join(parts, sep) == parts[0] + (sep + Join(parts[1..], sep));
    }
  }

  /** Both renderings start with the "Data from: " line. */
  lemma RenderedTextHeader(filename: string, csvRows: seq<seq<string>>, workbook: Outcome<seq<Sheet>>)
    requires SpreadsheetText(filename, csvRows, workbook).Success?
    ensures StartsWith(SpreadsheetText(filename, csvRows, workbook).value, "Data from: ")
  {
    hide RowLines, SheetsParts, NatToString, Join, CsvData, Lower, SplitExt, IsBlank;
    var t := SpreadsheetText(filename, csvRows, workbook).value;
    var parts := if Lower(SplitExt(filename)) == ".csv" then CsvParts(filename, csvRows) else WorkbookParts(filename, workbook.value);
    assert parts[0] == "Data from: " + filename + "\n" && t == Join(parts, "\n");
    JoinStartsWithFirst(parts, "\n");
    assert t[..|parts[0]|] == parts[0];
    assert t[..11] == parts[0][..11] == "Data from: ";
  }

  /** A text that starts with a non-space character is not blank. */
  lemma StartsNonBlank(s: string, p: string)
    requires StartsWith(s, p) && p != [] && !IsSpace(p[0])
    ensures !IsBlank(s)
  {
    assert s[0] == p[0];
  }

  /** The rendered text always begins with "Data from: ", so it is never blank. */
  lemma RenderedTextNeverBlank(filename: string, csvRows: seq<seq<string>>, workbook: Outcome<seq<Sheet>>)
    ensures var t := SpreadsheetText(filename, csvRows, workbook);
      t.Success? ==> StartsWith(t.value, "Data from: ") && !IsBlank(t.value)
  {
    hide SpreadsheetText, IsBlank;
    var t := SpreadsheetText(filename, csvRows, workbook);
    if t.Success? {
      RenderedTextHeader(filename, csvRows, workbook);
      StartsNonBlank(t.value, "Data from: ");
    }
  }

  /**
   * With a non-negative overlap, a supported file whose reading succeeds is
   * always stored: the "No data found" and "No content could be extracted"
   * rejections cannot occur.
   */
  lemma SupportedFileIsStored(filename: string, csvRows: seq<seq<string>>, workbook: Outcome<seq<Sheet>>,
                              sourceId: string, settings: Settings)
    requires ValidWindow(settings.maxChunkSize, settings.chunkOverlap) && settings.chunkOverlap >= 0
    requires SpreadsheetText(filename, csvRows, workbook).Success?
    ensures SpreadsheetChunks(SpreadsheetText(filename, csvRows, workbook).value, filename, sourceId, settings) != []
  {
    RenderedTextNeverBlank(filename, csvRows, workbook);
    NonBlankTextHasChunks(SpreadsheetText(filename, csvRows, workbook).value, settings.maxChunkSize, settings.chunkOverlap);
  }

  /** The extension is compared lower-cased: "DATA.CSV" is read as CSV. */
  lemma UpperCaseCsvIsCsv()
    ensures Lower(SplitExt("DATA.CSV")) == ".csv"
  {
    SampleExtension();
    var low := Lower(".CSV");
    assert low[0] == '.' && low[1] == 'c' && low[2] == 's' && low[3] == 'v';
    assert low == ".csv";
    assert Lower(SplitExt("DATA.CSV")) == low;
  }

  lemma SampleExtension()
    ensures SplitExt("DATA.CSV") == ".CSV"
  {
    hide Lower;
    var sep := RFind("DATA.CSV", "/", 0, 8);
    var dot := RFind("DATA.CSV", ".", 0, 8);
    assert HasAt("DATA.CSV", 4, ".");
    assert dot == 4;
    assert sep == -1;
    assert !AllDots("DATA.CSV"[0..4]) by { assert "DATA.CSV"[0] == 'D'; }
  }
}
