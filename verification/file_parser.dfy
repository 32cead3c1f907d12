/**
 The document loaders of `utils/file_parser.py`: a workbook becomes one text
 document per sheet that has content, a PDF becomes the newline-joined text
 of its pages; both are then cut by the text splitter, which is a parameter
 here (`split`) and stays uninterpreted.

 Reading the file itself (openpyxl, PyMuPDF) and Python's `str()` of a cell
 value are outside the model: a sheet arrives as rows of cells that are
 either `None` or already the cell's string form, a PDF as its page texts.
 */
module FileParser {
  import opened Optional
  import opened Text

  /** A cell as read from the sheet: `None`, or the string form of its value. */
  type Cell = Option<string>
  type Row = seq<Cell>

  datatype Sheet = Sheet(name: string, rows: seq<Row>)

  /** A LangChain `Document`: the text and its metadata dictionary. */
  datatype Document = Document(pageContent: string, metadata: map<string, string>)

  const CellSeparator := " | "
  const LineSeparator := "\n"

  /** `" | "` and `"\n"` each have a character that occurs once in them. */
  lemma SeparatorMarkers()
    ensures IsMarker(CellSeparator, 1) && CellSeparator[1] == '|'
    ensures IsMarker(LineSeparator, 0) && LineSeparator[0] == '\n'
  {
  }

  // ---------------------------------------------------------------------
  // Rows

  /** A cell's text: its string form, and the empty string for `None`. */
  function RenderCell(c: Cell): (r: string)
    ensures c.None? ==> r == ""
    ensures c.Some? ==> r == c.value
  {
    match c
    case None => ""
    case Some(s) => s
  }

  /** The row's cells rendered one by one, in column order. */
  function RenderRow(row: Row): (r: seq<string>)
    ensures |r| == |row|
    ensures forall i :: 0 <= i < |row| ==> r[i] == RenderCell(row[i])
  {
    if |row| == 0 then [] else [RenderCell(row[0])] + RenderRow(row[1..])
  }

  /** Python's `any(strs)` on strings: some string is non-empty. */
  function AnyNonEmpty(strs: seq<string>): (r: bool)
    ensures r <==> exists i :: 0 <= i < |strs| && strs[i] != ""
  {
    |strs| > 0 && (strs[0] != "" || AnyNonEmpty(strs[1..]))
  }

  /** A row is kept when at least one rendered cell is non-empty. */
  predicate RowKept(row: Row)
  {
    AnyNonEmpty(RenderRow(row))
  }

  /** A row is dropped exactly when every cell is `None` or the empty string. */
  lemma RowKeptIff(row: Row)
    ensures RowKept(row) <==> exists i :: 0 <= i < |row| && row[i].Some? && row[i].value != ""
  {
    var rendered := RenderRow(row);
    if RowKept(row) {
      var i :| 0 <= i < |rendered| && rendered[i] != "";
      assert row[i].Some? && row[i].value != "";
    }
    if exists i :: 0 <= i < |row| && row[i].Some? && row[i].value != "" {
      var i :| 0 <= i < |row| && row[i].Some? && row[i].value != "";
      assert rendered[i] != "";
    }
  }

  /** The text of a row: all rendered cells, empty ones included, joined by `" | "`. */
  function RowText(row: Row): (r: string)
    ensures |row| > 0 ==> |r| == TotalLength(RenderRow(row)) + 3 * (|row| - 1)
  {
    Join(RenderRow(row), CellSeparator)
  }

  /** Rendering works cell by cell: the cells of `a + b` render as those of `a`, then those of `b`. */
  lemma RenderRowAppend(a: Row, b: Row)
    ensures RenderRow(a + b) == RenderRow(a) + RenderRow(b)
  {
    assert forall i :: 0 <= i < |a| ==> (a + b)[i] == a[i];
    assert forall i :: |a| <= i < |a| + |b| ==> (a + b)[i] == b[i - |a|];
  }

  /**
   A row's text is its cells' texts in column order with `" | "` between
   neighbours, whatever the cells contain.
   */
  lemma RowTextAppend(a: Row, b: Row)
    requires |a| > 0 && |b| > 0
    ensures RowText(a + b) == RowText(a) + CellSeparator + RowText(b)
  {
    RenderRowAppend(a, b);
    JoinAppend(RenderRow(a), RenderRow(b), CellSeparator);
  }

  /** The text of a one-cell row is that cell's text. */
  lemma RowTextSingle(c: Cell)
    ensures RowText([c]) == RenderCell(c)
  {
    assert RenderRow([c]) == [RenderCell(c)];
  }

  /** Joined text is non-empty when some part is. */
  lemma {:induction false} JoinNonEmpty(parts: seq<string>, sep: string, i: int)
    requires 0 <= i < |parts| && parts[i] != ""
    ensures Join(parts, sep) != ""
    decreases |parts|
  {
    if i == 0 {
      assert Join(parts, sep)[..|parts[0]|] == parts[0];
    } else {
      JoinNonEmpty(parts[1..], sep, i - 1);
    }
  }

  /** A kept row never produces an empty line. */
  lemma KeptRowTextNonEmpty(row: Row)
    requires RowKept(row)
    ensures RowText(row) != ""
  {
    var rendered := RenderRow(row);
    var i :| 0 <= i < |rendered| && rendered[i] != "";
    JoinNonEmpty(rendered, CellSeparator, i);
  }

  /**
   A row's text splits back at `" | "` into exactly its cells (so there is
   one cell more than separators) when no cell contains `'|'`.
   */
  lemma RowTextCells(row: Row)
    requires |row| > 0
    requires forall i :: 0 <= i < |row| ==> '|' !in RenderCell(row[i])
    ensures Split(RowText(row), CellSeparator) == RenderRow(row)
    ensures |Split(RowText(row), CellSeparator)| == |row|
  {
    SeparatorMarkers();
    SplitJoin(RenderRow(row), CellSeparator, 1);
  }

  // ---------------------------------------------------------------------
  // Sheets

  /** The lines of a sheet: the text of each kept row, in row order. */
  function SheetLines(rows: seq<Row>): (r: seq<string>)
    ensures |r| <= |rows|
    ensures forall k :: 0 <= k < |r| ==> r[k] != ""
    ensures |r| == 0 <==> forall i :: 0 <= i < |rows| ==> !RowKept(rows[i])
  {
    if |rows| == 0 then []
    else
      var rest := SheetLines(rows[1..]);
      assert forall i :: 1 <= i < |rows| ==> rows[i] == rows[1..][i - 1];
      if RowKept(rows[0]) then
        KeptRowTextNonEmpty(rows[0]);
        [RowText(rows[0])] + rest
      else rest
  }

  /** Lines are produced row by row: appending rows appends their lines. */
  lemma {:induction false} SheetLinesAppend(a: seq<Row>, b: seq<Row>)
    ensures SheetLines(a + b) == SheetLines(a) + SheetLines(b)
    decreases |a|
  {
    if |a| == 0 {
      assert a + b == b;
    } else {
      assert (a + b)[0] == a[0];
      assert (a + b)[1..] == a[1..] + b;
      SheetLinesAppend(a[1..], b);
    }
  }

  /** The lines of a single row: its text if kept, nothing otherwise. */
  lemma SheetLinesSingle(row: Row)
    ensures SheetLines([row]) == if RowKept(row) then [RowText(row)] else []
  {
    assert [row][1..] == [];
  }

  /** The metadata of a sheet's document. */
  function SheetMetadata(path: string, sheetName: string): map<string, string>
  {
    map["source" := path, "sheet" := sheetName]
  }

  /**
   The document of one sheet: its lines joined by newlines, tagged with the
   file and the sheet; no document when no row is kept.
   */
  function SheetDocument(path: string, sheet: Sheet): (r: Option<Document>)
    ensures r.None? <==> forall i :: 0 <= i < |sheet.rows| ==> !RowKept(sheet.rows[i])
    ensures r.Some? ==> r.value.pageContent != ""
    ensures r.Some? ==> r.value.metadata.Keys == {"source", "sheet"}
    ensures r.Some? ==> r.value.metadata["source"] == path && r.value.metadata["sheet"] == sheet.name
  {
    var lines := SheetLines(sheet.rows);
    if |lines| == 0 then None
    else
      JoinNonEmpty(lines, LineSeparator, 0);
      Some(Document(Join(lines, LineSeparator), SheetMetadata(path, sheet.name)))
  }

  /**
   A sheet document's text splits back at newlines into the kept rows' texts,
   in order, when no row text contains a newline.
   */
  lemma SheetDocumentLines(path: string, sheet: Sheet)
    requires SheetDocument(path, sheet).Some?
    requires forall k :: 0 <= k < |SheetLines(sheet.rows)| ==> '\n' !in SheetLines(sheet.rows)[k]
    ensures Split(SheetDocument(path, sheet).value.pageContent, LineSeparator) == SheetLines(sheet.rows)
  {
    SeparatorMarkers();
    SplitJoin(SheetLines(sheet.rows), LineSeparator, 0);
  }

  /**
   A sheet's text is its kept rows' texts in row order with one newline
   between neighbours, whatever the cells contain.
   */
  lemma SheetDocumentAppend(path: string, name: string, a: seq<Row>, b: seq<Row>)
    requires SheetDocument(path, Sheet(name, a)).Some? && SheetDocument(path, Sheet(name, b)).Some?
    ensures SheetDocument(path, Sheet(name, a + b)).Some?
    ensures SheetDocument(path, Sheet(name, a + b)).value.pageContent ==
      SheetDocument(path, Sheet(name, a)).value.pageContent + LineSeparator +
      SheetDocument(path, Sheet(name, b)).value.pageContent
  {
    SheetLinesAppend(a, b);
    JoinAppend(SheetLines(a), SheetLines(b), LineSeparator);
  }

  /** A sheet with one kept row has that row's text as its document. */
  lemma SheetDocumentSingle(path: string, name: string, row: Row)
    requires RowKept(row)
    ensures SheetDocument(path, Sheet(name, [row])) == Some(Document(RowText(row), SheetMetadata(path, name)))
  {
    SheetLinesSingle(row);
  }

  /** A sheet document's metadata is exactly `{source: path, sheet: name}`. */
  lemma SheetDocumentMetadata(path: string, sheet: Sheet)
    requires SheetDocument(path, sheet).Some?
    ensures SheetDocument(path, sheet).value.metadata == SheetMetadata(path, sheet.name)
  {
  }

  // ---------------------------------------------------------------------
  // Workbooks

  /** One document per sheet with content, in sheet order. */
  function WorkbookDocuments(path: string, sheets: seq<Sheet>): (r: seq<Document>)
    ensures |r| <= |sheets|
    ensures forall k :: 0 <= k < |r| ==>
      exists j :: 0 <= j < |sheets| && SheetDocument(path, sheets[j]) == Some(r[k])
    ensures |r| == 0 <==> forall j :: 0 <= j < |sheets| ==> SheetDocument(path, sheets[j]).None?
  {
    if |sheets| == 0 then []
    else
      var rest := WorkbookDocuments(path, sheets[1..]);
      assert forall j :: 1 <= j < |sheets| ==> sheets[j] == sheets[1..][j - 1];
      match SheetDocument(path, sheets[0])
      case None => rest
      case Some(d) => [d] + rest
  }

  /** Documents are produced sheet by sheet: appending sheets appends documents. */
  lemma {:induction false} WorkbookDocumentsAppend(path: string, a: seq<Sheet>, b: seq<Sheet>)
    ensures WorkbookDocuments(path, a + b) == WorkbookDocuments(path, a) + WorkbookDocuments(path, b)
    decreases |a|
  {
    if |a| == 0 {
      assert a + b == b;
    } else {
      assert (a + b)[0] == a[0];
      assert (a + b)[1..] == a[1..] + b;
      WorkbookDocumentsAppend(path, a[1..], b);
    }
  }

  /** The documents of a single sheet: its document if it has one, nothing otherwise. */
  lemma WorkbookDocumentsSingle(path: string, sheet: Sheet)
    ensures WorkbookDocuments(path, [sheet]) ==
      match SheetDocument(path, sheet)
      case None => []
      case Some(d) => [d]
  {
    assert [sheet][1..] == [];
  }

  // ---------------------------------------------------------------------
  // Splitting

  /** One document per chunk, in chunk order, each with the given metadata. */
  function Tag(chunks: seq<string>, metadata: map<string, string>): (r: seq<Document>)
    ensures |r| == |chunks|
    ensures forall i :: 0 <= i < |r| ==> r[i].pageContent == chunks[i] && r[i].metadata == metadata
  {
    if |chunks| == 0 then [] else [Document(chunks[0], metadata)] + Tag(chunks[1..], metadata)
  }

  /** The texts of a list of documents. */
  function Contents(docs: seq<Document>): (r: seq<string>)
    ensures |r| == |docs|
    ensures forall i :: 0 <= i < |r| ==> r[i] == docs[i].pageContent
  {
    if |docs| == 0 then [] else [docs[0].pageContent] + Contents(docs[1..])
  }

  /**
   The splitter applied document by document: each document's chunks, in
   order, each carrying that document's metadata.
   */
  function SplitDocuments(docs: seq<Document>, split: string -> seq<string>): (r: seq<Document>)
    ensures forall k :: 0 <= k < |r| ==>
      exists j :: 0 <= j < |docs| && r[k].metadata == docs[j].metadata
    ensures |docs| == 0 ==> r == []
  {
    if |docs| == 0 then []
    else
      var rest := SplitDocuments(docs[1..], split);
      assert forall j :: 1 <= j < |docs| ==> docs[j] == docs[1..][j - 1];
      Tag(split(docs[0].pageContent), docs[0].metadata) + rest
  }

  /** Splitting works document by document: appending documents appends chunks. */
  lemma {:induction false} SplitDocumentsAppend(a: seq<Document>, b: seq<Document>, split: string -> seq<string>)
    ensures SplitDocuments(a + b, split) == SplitDocuments(a, split) + SplitDocuments(b, split)
    decreases |a|
  {
    if |a| == 0 {
      assert a + b == b;
    } else {
      assert (a + b)[0] == a[0];
      assert (a + b)[1..] == a[1..] + b;
      SplitDocumentsAppend(a[1..], b, split);
    }
  }

  /** One document splits into the splitter's chunks of its text, each with its metadata. */
  lemma SplitDocumentsSingle(d: Document, split: string -> seq<string>)
    ensures SplitDocuments([d], split) == Tag(split(d.pageContent), d.metadata)
  {
    assert [d][1..] == [];
  }

  // ---------------------------------------------------------------------
  // Loaders

  /**
   `load_xlsx`: the sheet documents cut into chunks; every chunk names the
   file and the sheet it came from.
   */
  function LoadXlsx(path: string, sheets: seq<Sheet>, split: string -> seq<string>): (r: seq<Document>)
    ensures forall k :: 0 <= k < |r| ==>
      r[k].metadata.Keys == {"source", "sheet"} && r[k].metadata["source"] == path &&
      exists j :: 0 <= j < |sheets| && r[k].metadata["sheet"] == sheets[j].name
    ensures (forall i :: 0 <= i < |sheets| ==> SheetDocument(path, sheets[i]).None?) ==> r == []
  {
    var r := SplitDocuments(WorkbookDocuments(path, sheets), split);
    forall k | 0 <= k < |r|
      ensures exists j :: 0 <= j < |sheets| && r[k].metadata == SheetMetadata(path, sheets[j].name)
    {
      ChunkFromSheet(path, sheets, split, k);
    }
    r
  }

  /** Sheets are loaded one after another: the chunks of `a + b` are those of `a`, then those of `b`. */
  lemma LoadXlsxAppend(path: string, a: seq<Sheet>, b: seq<Sheet>, split: string -> seq<string>)
    ensures LoadXlsx(path, a + b, split) == LoadXlsx(path, a, split) + LoadXlsx(path, b, split)
  {
    WorkbookDocumentsAppend(path, a, b);
    SplitDocumentsAppend(WorkbookDocuments(path, a), WorkbookDocuments(path, b), split);
  }

  /**
   The chunks of one sheet: the splitter's chunks of the sheet's document
   text, each tagged with the file and the sheet; none for an empty sheet.
   */
  lemma LoadXlsxSingle(path: string, sheet: Sheet, split: string -> seq<string>)
    ensures LoadXlsx(path, [sheet], split) ==
      match SheetDocument(path, sheet)
      case None => []
      case Some(d) => Tag(split(d.pageContent), SheetMetadata(path, sheet.name))
  {
    WorkbookDocumentsSingle(path, sheet);
    match SheetDocument(path, sheet)
    case None =>
    case Some(d) =>
      SheetDocumentMetadata(path, sheet);
      SplitDocumentsSingle(d, split);
  }

  /** Every document of a workbook carries the metadata of one of its sheets. */
  lemma DocumentFromSheet(path: string, sheets: seq<Sheet>, d: int)
    requires 0 <= d < |WorkbookDocuments(path, sheets)|
    ensures exists j :: (0 <= j < |sheets| &&
      WorkbookDocuments(path, sheets)[d].metadata == SheetMetadata(path, sheets[j].name))
  {
    var docs := WorkbookDocuments(path, sheets);
    var j :| 0 <= j < |sheets| && SheetDocument(path, sheets[j]) == Some(docs[d]);
    SheetDocumentMetadata(path, sheets[j]);
  }

  /** Every chunk of a workbook carries the metadata of one of its sheets. */
  lemma ChunkFromSheet(path: string, sheets: seq<Sheet>, split: string -> seq<string>, k: int)
    requires 0 <= k < |SplitDocuments(WorkbookDocuments(path, sheets), split)|
    ensures exists j :: (0 <= j < |sheets| &&
      SplitDocuments(WorkbookDocuments(path, sheets), split)[k].metadata == SheetMetadata(path, sheets[j].name))
  {
    var docs := WorkbookDocuments(path, sheets);
    var r := SplitDocuments(docs, split);
    var d :| 0 <= d < |docs| && r[k].metadata == docs[d].metadata;
    DocumentFromSheet(path, sheets, d);
  }

  /** The text the PDF loader splits: the page texts joined by newlines, in page order. */
  function PdfText(pages: seq<string>): (r: string)
    ensures |pages| > 0 ==> |r| == TotalLength(pages) + |pages| - 1
  {
    Join(pages, LineSeparator)
  }

  /** Page order is kept: the text of two runs of pages is their texts, newline-joined. */
  lemma PdfTextAppend(a: seq<string>, b: seq<string>)
    requires |a| > 0 && |b| > 0
    ensures PdfText(a + b) == PdfText(a) + "\n" + PdfText(b)
  {
    JoinAppend(a, b, LineSeparator);
  }

  /** `load_pdf`: one document per chunk of the page text, each tagged with the file only. */
  function LoadPdf(path: string, pages: seq<string>, split: string -> seq<string>): (r: seq<Document>)
    ensures |r| == |split(PdfText(pages))|
    ensures forall k :: 0 <= k < |r| ==> r[k].metadata.Keys == {"source"} && r[k].metadata["source"] == path
  {
    Tag(split(PdfText(pages)), map["source" := path])
  }

  /** The PDF documents' texts are exactly the splitter's chunks, in split order. */
  lemma LoadPdfContents(path: string, pages: seq<string>, split: string -> seq<string>)
    ensures Contents(LoadPdf(path, pages, split)) == split(PdfText(pages))
  {
  }
}
