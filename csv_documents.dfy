/** The documents `CSVProcessor` (backend/services/csv_processor.py) builds
    from a table: one per row or per batch of ten rows for medical data,
    one per column for other data, and a summary of the whole table. */
module CsvDocuments {
  import opened Common
  import opened Text
  import opened Documents
  import opened CsvProcessor

  /** A document as the processor returns it: a dictionary with an id, the
      text and the metadata. */
  datatype CsvDoc = CsvDoc(id: string, text: string, metadata: Metadata)

  /** One cell of a row together with its column label (`row.index`). */
  datatype Entry = Entry(name: string, cell: Cell)

  /** Whether `iterrows` gives the rows one float64 dtype: every column is
      int64 or float64 and at least one is float64. */
  predicate FloatRows(frame: Frame) {
    && (forall j :: 0 <= j < |frame.columns| ==> frame.columns[j].dtype == "int64" || frame.columns[j].dtype == "float64")
    && (exists j :: 0 <= j < |frame.columns| && frame.columns[j].dtype == "float64")
  }

  /** Cell `i` of column `j` as the row holds it: in a float64 row an
      integer `v`, printed "v", is the float `v`, printed "v.0". */
  function RowCell(frame: Frame, j: nat, i: nat): Cell
    requires j < |frame.columns| && i < frame.nrows
  {
    var c := frame.columns[j].cells[i];
    if FloatRows(frame) && frame.columns[j].dtype == "int64" && c.Value? then Value(c.s + ".0") else c
  }

  /** Row `i` of the table, as `iterrows` yields it: each column's label
      with its cell, the integers of an all-numeric table with a float
      column turned into floats. */
  function RowOf(frame: Frame, i: nat): (r: seq<Entry>)
    requires i < frame.nrows
    ensures |r| == |frame.columns|
    ensures forall j :: 0 <= j < |r| ==> r[j].name == frame.columns[j].name
    ensures !FloatRows(frame) ==> forall j :: 0 <= j < |r| ==> r[j].cell == frame.columns[j].cells[i]
    ensures forall j :: 0 <= j < |r| && frame.columns[j].dtype != "int64" ==> r[j].cell == frame.columns[j].cells[i]
    ensures FloatRows(frame) ==>
      forall j :: 0 <= j < |r| && frame.columns[j].dtype == "int64" && frame.columns[j].cells[i].Value?
        ==> r[j].cell == Value(frame.columns[j].cells[i].s + ".0")
  {
    seq(|frame.columns|, j requires 0 <= j < |frame.columns| => Entry(frame.columns[j].name, RowCell(frame, j, i)))
  }

  /** The concatenation of `f(x)` over `xs`, in order: a text grown with
      `+=` in a loop. */
  function ConcatMap<T>(xs: seq<T>, f: T -> string): string
    decreases |xs|
  {
    if xs == [] then "" else ConcatMap(xs[..|xs| - 1], f) + f(xs[|xs| - 1])
  }

  lemma ConcatMapSnoc<T>(xs: seq<T>, x: T, f: T -> string)
    ensures ConcatMap(xs + [x], f) == ConcatMap(xs, f) + f(x)
  {
    assert (xs + [x])[..|xs|] == xs;
  }

  /** The loop step: one more element of `xs` adds its piece. */
  lemma ConcatMapStep<T>(xs: seq<T>, j: nat, f: T -> string)
    requires j < |xs|
    ensures ConcatMap(xs[..j + 1], f) == ConcatMap(xs[..j], f) + f(xs[j])
  {
    assert xs[..j + 1] == xs[..j] + [xs[j]];
    ConcatMapSnoc(xs[..j], xs[j], f);
  }

  lemma ConcatMapWhole<T>(xs: seq<T>, f: T -> string)
    ensures ConcatMap(xs[..|xs|], f) == ConcatMap(xs, f)
  {
    assert xs[..|xs|] == xs;
  }

  /** Every piece occurs in the concatenation. */
  lemma {:induction false} ConcatMapContains<T>(xs: seq<T>, f: T -> string)
    ensures forall i :: 0 <= i < |xs| ==> Contains(ConcatMap(xs, f), f(xs[i]))
    decreases |xs|
  {
    if xs != [] {
      var init := xs[..|xs| - 1];
      var last := xs[|xs| - 1];
      ConcatMapContains(init, f);
      forall i | 0 <= i < |xs| ensures Contains(ConcatMap(xs, f), f(xs[i])) {
        if i < |xs| - 1 {
          assert init[i] == xs[i];
          ContainsWithin("", ConcatMap(init, f), f(last), f(xs[i]));
          assert "" + ConcatMap(init, f) + f(last) == ConcatMap(xs, f);
        } else {
          ContainsMiddle(ConcatMap(init, f), f(last), "");
          assert ConcatMap(init, f) + f(last) + "" == ConcatMap(xs, f);
        }
      }
    }
  }

  /** `col.replace('_', ' ').title()`. */
  function Label(name: string): string {
    Title(ReplaceChar(name, '_', ' '))
  }

  // ----------------------------------------------------------------------
  // `_format_medical_row`

  const RowHeader := "Medical Record Entry:\n\n"

  /** The value a row shows for a cell: the stripped text, unless the cell
      is missing or strips to "", "nan" or "null" in any letter case. */
  function Shown(c: Cell): Option<string> {
    match c
    case Null => None
    case Value(s) =>
      var value := Strip(s);
      if value != "" && Lower(value) != "nan" && Lower(value) != "null" then Some(value) else None
  }

  /** The line an entry contributes ("" when its value is not shown). */
  function EntryLine(e: Entry): string {
    match Shown(e.cell)
    case None => ""
    case Some(value) => Label(e.name) + ": " + value + "\n"
  }

  predicate IsMedicalEntry(e: Entry, medicalCols: seq<string>) {
    Lower(e.name) in medicalCols
  }

  /** The entries of medical columns, in row order. */
  function MedicalEntries(es: seq<Entry>, medicalCols: seq<string>): seq<Entry>
    decreases |es|
  {
    if es == [] then []
    else MedicalEntries(es[..|es| - 1], medicalCols)
         + (if IsMedicalEntry(es[|es| - 1], medicalCols) then [es[|es| - 1]] else [])
  }

  /** The entries of the other columns, in row order. */
  function OtherEntries(es: seq<Entry>, medicalCols: seq<string>): seq<Entry>
    decreases |es|
  {
    if es == [] then []
    else OtherEntries(es[..|es| - 1], medicalCols)
         + (if IsMedicalEntry(es[|es| - 1], medicalCols) then [] else [es[|es| - 1]])
  }

  /** The text of one row: the header, the medical columns' lines, then the
      other columns' lines. */
  function FormatRow(es: seq<Entry>, medicalCols: seq<string>): string {
    RowHeader + ConcatMap(MedicalEntries(es, medicalCols), EntryLine)
    + ConcatMap(OtherEntries(es, medicalCols), EntryLine)
  }

  /** The two groups split the row: every entry is in exactly one of them,
      as often as in the row. */
  lemma {:induction false} EntriesPartition(es: seq<Entry>, medicalCols: seq<string>)
    ensures multiset(MedicalEntries(es, medicalCols)) + multiset(OtherEntries(es, medicalCols)) == multiset(es)
    ensures forall e :: e in MedicalEntries(es, medicalCols) <==> e in es && IsMedicalEntry(e, medicalCols)
    ensures forall e :: e in OtherEntries(es, medicalCols) <==> e in es && !IsMedicalEntry(e, medicalCols)
    decreases |es|
  {
    if es != [] {
      var init := es[..|es| - 1];
      EntriesPartition(init, medicalCols);
      assert es == init + [es[|es| - 1]];
    }
  }

  /** A row's text never strips to "": it starts with its header. */
  lemma RowTextVisible(es: seq<Entry>, medicalCols: seq<string>)
    ensures Strip(FormatRow(es, medicalCols)) != ""
  {
    var text := FormatRow(es, medicalCols);
    assert text[0] == 'M';
    StripNonBlank(text);
  }

  /** The line of a shown entry appears in the row's text. */
  lemma ShownLineInRow(es: seq<Entry>, medicalCols: seq<string>, e: Entry)
    requires e in es && Shown(e.cell).Some?
    ensures Contains(FormatRow(es, medicalCols), EntryLine(e))
  {
    var medical := MedicalEntries(es, medicalCols);
    var others := OtherEntries(es, medicalCols);
    var med := ConcatMap(medical, EntryLine);
    var other := ConcatMap(others, EntryLine);
    EntriesPartition(es, medicalCols);
    if IsMedicalEntry(e, medicalCols) {
      ConcatMapContains(medical, EntryLine);
      var i :| 0 <= i < |medical| && medical[i] == e;
      ContainsWithin(RowHeader, med, other, EntryLine(e));
    } else {
      ConcatMapContains(others, EntryLine);
      var i :| 0 <= i < |others| && others[i] == e;
      ContainsWithin(RowHeader + med, other, "", EntryLine(e));
      assert RowHeader + med + other + "" == FormatRow(es, medicalCols);
    }
  }

  /** A row's text starts with its header, so it is never blank and no row
      is ever dropped; every shown value appears on its own labelled
      line. */
  lemma FormatRowSpec(es: seq<Entry>, medicalCols: seq<string>)
    ensures StartsWith(FormatRow(es, medicalCols), RowHeader)
    ensures Strip(FormatRow(es, medicalCols)) != ""
    ensures forall e :: e in es && Shown(e.cell).Some? ==>
      Contains(FormatRow(es, medicalCols), Label(e.name) + ": " + Shown(e.cell).value + "\n")
  {
    var text := FormatRow(es, medicalCols);
    RowStartsWithHeader(es, medicalCols);
    RowTextVisible(es, medicalCols);
    forall e | e in es && Shown(e.cell).Some?
      ensures Contains(text, Label(e.name) + ": " + Shown(e.cell).value + "\n")
    {
      ShownLineInRow(es, medicalCols, e);
    }
  }

  lemma RowStartsWithHeader(es: seq<Entry>, medicalCols: seq<string>)
    ensures StartsWith(FormatRow(es, medicalCols), RowHeader)
  {
    StartsWithPrefix(RowHeader, ConcatMap(MedicalEntries(es, medicalCols), EntryLine));
    StartsWithPrefix(RowHeader + ConcatMap(MedicalEntries(es, medicalCols), EntryLine),
                     ConcatMap(OtherEntries(es, medicalCols), EntryLine));
  }

  /** The line for one entry, with the checks of the source's loop bodies. */
  method LineOf(e: Entry) returns (line: string)
    ensures line == EntryLine(e)
  {
    line := "";
    if e.cell.Value? {
      var value := Strip(e.cell.s);
      if value != "" && Lower(value) != "nan" && Lower(value) != "null" {
        line := Label(e.name) + ": " + value + "\n";
      }
    }
  }

  lemma EntriesSnoc(es: seq<Entry>, e: Entry, medicalCols: seq<string>)
    ensures MedicalEntries(es + [e], medicalCols)
      == MedicalEntries(es, medicalCols) + (if IsMedicalEntry(e, medicalCols) then [e] else [])
    ensures OtherEntries(es + [e], medicalCols)
      == OtherEntries(es, medicalCols) + (if IsMedicalEntry(e, medicalCols) then [] else [e])
  {
    assert (es + [e])[..|es|] == es;
  }

  /** `_format_medical_row`. */
  /** In a table of int64 and float64 columns, with at least one float64,
      an integer cell shows as a float: "Heart Rate: 72.0", not "72". */
  lemma IntegerShownAsFloat(frame: Frame, i: nat, j: nat, k: int, medicalCols: seq<string>)
    requires FloatRows(frame) && i < frame.nrows && j < |frame.columns|
    requires frame.columns[j].dtype == "int64" && frame.columns[j].cells[i] == Value(IntToString(k))
    ensures Contains(FormatRow(RowOf(frame, i), medicalCols), Label(frame.columns[j].name) + ": " + (IntToString(k) + ".0") + "\n")
  {
    var row := RowOf(frame, i);
    var e := Entry(frame.columns[j].name, Value(IntToString(k) + ".0"));
    assert row[j] == e;
    FloatTextShown(k);
    ShownLineInRow(row, medicalCols, e);
  }

  /** A float printed from an integer is shown as printed. */
  lemma FloatTextShown(k: int)
    ensures Shown(Value(IntToString(k) + ".0")) == Some(IntToString(k) + ".0")
  {
    var v := IntToString(k) + ".0";
    assert v[|v| - 1] == '0';
    assert !IsSpace(v[0]) by {
      if k >= 0 {
        assert v[0] == NatToString(k)[0];
      } else {
        assert v[0] == '-';
      }
    }
    StripVisibleEnds(v);
    assert Lower(v)[|v| - 1] == '0';
  }

  method FormatMedicalRow(row: seq<Entry>, medicalCols: seq<string>) returns (docText: string)
    ensures docText == FormatRow(row, medicalCols)
  {
    docText := RowHeader;
    var otherCols := OtherColumns(row, medicalCols);
    docText := AppendMedicalLines(docText, row, medicalCols);
    docText := AppendLines(docText, otherCols);
  }

  /** `other_cols`: the entries whose lowered label is not a medical
      column, in row order. */
  method OtherColumns(row: seq<Entry>, medicalCols: seq<string>) returns (otherCols: seq<Entry>)
    ensures otherCols == OtherEntries(row, medicalCols)
  {
    otherCols := [];
    for j := 0 to |row|
      invariant otherCols == OtherEntries(row[..j], medicalCols)
    {
      assert row[..j + 1] == row[..j] + [row[j]];
      EntriesSnoc(row[..j], row[j], medicalCols);
      if Lower(row[j].name) !in medicalCols {
        otherCols := otherCols + [row[j]];
      }
    }
    assert row[..|row|] == row;
  }

  /** The first loop of the row text: the line of each medical entry, in
      row order. */
  method AppendMedicalLines(text: string, row: seq<Entry>, medicalCols: seq<string>) returns (r: string)
    ensures r == text + ConcatMap(MedicalEntries(row, medicalCols), EntryLine)
  {
    r := text;
    ghost var medical: seq<Entry> := [];
    for j := 0 to |row|
      invariant medical == MedicalEntries(row[..j], medicalCols)
      invariant r == text + ConcatMap(medical, EntryLine)
    {
      assert row[..j + 1] == row[..j] + [row[j]];
      EntriesSnoc(row[..j], row[j], medicalCols);
      if Lower(row[j].name) in medicalCols {
        var line := LineOf(row[j]);
        ConcatMapSnoc(medical, row[j], EntryLine);
        AppendAssoc(text, ConcatMap(medical, EntryLine), line);
        medical := medical + [row[j]];
        r := r + line;
      }
    }
    assert row[..|row|] == row;
  }

  /** The loop over the other columns: each entry's line, in order. */
  method AppendLines(text: string, es: seq<Entry>) returns (r: string)
    ensures r == text + ConcatMap(es, EntryLine)
  {
    r := text;
    for j := 0 to |es|
      invariant r == text + ConcatMap(es[..j], EntryLine)
    {
      ConcatMapStep(es, j, EntryLine);
      var line := LineOf(es[j]);
      AppendAssoc(text, ConcatMap(es[..j], EntryLine), line);
      r := r + line;
    }
    ConcatMapWhole(es, EntryLine);
  }

  lemma AppendAssoc(a: string, b: string, c: string)
    ensures a + b + c == a + (b + c)
  {
  }

  function Min(a: nat, b: nat): nat {
    if a <= b then a else b
  }

  // ----------------------------------------------------------------------
  // Row batches

  /** Rows per batch document for tables of more than 1000 rows. */
  const BatchSize := 10
  /** The largest table that gets one document per row. */
  const RowDocumentLimit := 1000

  /** `(n + batch_size - 1) // batch_size`. */
  function TotalBatches(n: nat): nat {
    (n + BatchSize - 1) / BatchSize
  }

  function BatchStart(b: nat): nat {
    b * BatchSize
  }

  /** The number of rows batch `b` covers. */
  function BatchLength(b: nat, n: nat): int {
    BatchEnd(b, n) - BatchStart(b)
  }

  /** The batch that holds row `r`. */
  function BatchOf(r: nat): nat {
    r / BatchSize
  }

  function BatchEnd(b: nat, n: nat): nat {
    Min(BatchStart(b) + BatchSize, n)
  }

  /** The batches partition the rows: each batch is a non-empty run of at
      most ten rows, each starts where the previous one ends, the first
      starts at row 0, the last ends at the last row, and row `r` lies in
      batch `r / 10` and in no other. */
  lemma BatchPartition(n: nat)
    ensures forall b :: 0 <= b < TotalBatches(n) ==>
      BatchStart(b) < BatchEnd(b, n) && 0 < BatchLength(b, n) <= BatchSize
    ensures forall b :: 0 <= b && b + 1 < TotalBatches(n) ==> BatchEnd(b, n) == BatchStart(b + 1)
    ensures n > 0 ==> TotalBatches(n) > 0 && BatchStart(0) == 0 && BatchEnd(TotalBatches(n) - 1, n) == n
    ensures forall r :: 0 <= r < n ==>
      BatchOf(r) < TotalBatches(n) && BatchStart(BatchOf(r)) <= r < BatchEnd(BatchOf(r), n)
    ensures forall r, b :: 0 <= r < n && 0 <= b < TotalBatches(n) && BatchStart(b) <= r < BatchEnd(b, n) ==>
      b == BatchOf(r)
  {
    forall b | 0 <= b < TotalBatches(n)
      ensures BatchStart(b) < BatchEnd(b, n)
    {
      BatchStartInside(n, b);
    }
    if n > 0 {
      assert BatchStart(TotalBatches(n) - 1) + BatchSize >= n;
    }
  }

  lemma BatchStartInside(n: nat, b: nat)
    requires b < TotalBatches(n)
    ensures BatchStart(b) < n
  {
  }

  // ----------------------------------------------------------------------
  // `_create_medical_documents`

  /** The metadata of the document for row `i` of `n`. */
  function RowMeta(fileId: string, contentType: string, n: nat, i: nat): Metadata {
    map["file_id" := MStr(fileId), "source_type" := MStr("csv"), "content_type" := MStr(contentType),
        "row_index" := MInt(i), "is_medical" := MBool(true), "total_rows" := MInt(n),
        "chunk_index" := MInt(i), "total_chunks" := MInt(n)]
  }

  /** The document for row `i`. */
  function RowDoc(frame: Frame, fileId: string, info: MedicalInfo, i: nat): CsvDoc
    requires i < frame.nrows
  {
    CsvDoc(fileId + "_row_" + NatToString(i), FormatRow(RowOf(frame, i), info.medicalColumns),
           RowMeta(fileId, info.contentType, frame.nrows, i))
  }

  function RowDocs(frame: Frame, fileId: string, info: MedicalInfo): (r: seq<CsvDoc>)
    ensures |r| == frame.nrows
  {
    seq(frame.nrows, i requires 0 <= i < frame.nrows => RowDoc(frame, fileId, info, i))
  }

  /** `f"\n{'='*50}\n"`: the rule before each row of a batch. */
  const Separator := "\n" + Repeat('=', 50) + "\n"

  function SeparatedRow(rowText: string): string {
    Separator + rowText
  }

  /** The text of every row, in order. */
  function RowTexts(frame: Frame, medicalCols: seq<string>): (r: seq<string>)
    ensures |r| == frame.nrows
  {
    seq(frame.nrows, i requires 0 <= i < frame.nrows => FormatRow(RowOf(frame, i), medicalCols))
  }

  /** The rows `start .. end-1` of a batch, each behind the rule. */
  function BatchRows(frame: Frame, medicalCols: seq<string>, start: nat, end: nat): string
    requires start <= end <= frame.nrows
  {
    ConcatMap(RowTexts(frame, medicalCols)[start..end], SeparatedRow)
  }

  /** Every row of the batch appears in the batch's text. */
  lemma BatchRowsContains(frame: Frame, medicalCols: seq<string>, start: nat, end: nat)
    requires start <= end <= frame.nrows
    ensures forall r :: start <= r < end ==>
      Contains(BatchRows(frame, medicalCols, start, end), RowTexts(frame, medicalCols)[r])
  {
    var texts := RowTexts(frame, medicalCols)[start..end];
    ConcatMapContains(texts, SeparatedRow);
    forall r | start <= r < end
      ensures Contains(BatchRows(frame, medicalCols, start, end), RowTexts(frame, medicalCols)[r])
    {
      var t := texts[r - start];
      ContainsMiddle(Separator, t, "");
      assert Separator + t + "" == SeparatedRow(t);
      ContainsTransitive(BatchRows(frame, medicalCols, start, end), SeparatedRow(t), t);
    }
  }

  /** The two header lines of batch `b` of `total`, covering rows
      `start .. end-1`. */
  function BatchHead(b: nat, total: nat, start: nat, end: nat): string {
    "Medical Records Batch " + NatToString(b + 1) + " of " + NatToString(total) + ":\n"
    + "Records " + NatToString(start + 1) + " to " + NatToString(end) + ":\n\n"
  }

  function BatchMeta(fileId: string, contentType: string, n: nat, b: nat): Metadata {
    map["file_id" := MStr(fileId), "source_type" := MStr("csv"), "content_type" := MStr(contentType),
        "batch_index" := MInt(b), "batch_size" := MInt(BatchLength(b, n)),
        "is_medical" := MBool(true), "total_rows" := MInt(n),
        "chunk_index" := MInt(b), "total_chunks" := MInt(TotalBatches(n))]
  }

  lemma BatchMetaSpec(fileId: string, contentType: string, n: nat, b: nat)
    ensures var m := BatchMeta(fileId, contentType, n, b);
      && m["chunk_index"] == MInt(b)
      && m["total_chunks"] == MInt(TotalBatches(n))
      && m["batch_size"] == MInt(BatchLength(b, n))
  {
  }

  /** The document for batch `b`. */
  function BatchDoc(frame: Frame, fileId: string, info: MedicalInfo, b: nat): CsvDoc
    requires b < TotalBatches(frame.nrows)
  {
    BatchStartInside(frame.nrows, b);
    var start := BatchStart(b);
    var end := BatchEnd(b, frame.nrows);
    CsvDoc(fileId + "_batch_" + NatToString(b),
           BatchHead(b, TotalBatches(frame.nrows), start, end) + BatchRows(frame, info.medicalColumns, start, end),
           BatchMeta(fileId, info.contentType, frame.nrows, b))
  }

  function BatchDocs(frame: Frame, fileId: string, info: MedicalInfo): (r: seq<CsvDoc>)
    ensures |r| == TotalBatches(frame.nrows)
  {
    seq(TotalBatches(frame.nrows), b requires 0 <= b < TotalBatches(frame.nrows) => BatchDoc(frame, fileId, info, b))
  }

  /** The documents of a medical table: one per row up to 1000 rows, one
      per batch of ten rows beyond, then the summary. */
  function MedicalDocs(frame: Frame, fileId: string, info: MedicalInfo): seq<CsvDoc> {
    (if frame.nrows <= RowDocumentLimit then RowDocs(frame, fileId, info) else BatchDocs(frame, fileId, info))
    + [SummaryDoc(frame, fileId, info.contentType, info.isMedical)]
  }

  /** Up to 1000 rows: document `i` is row `i`, with id `{file_id}_row_{i}`,
      chunk index `i` of `n` chunks; then the summary. */
  lemma RowDocsSpec(frame: Frame, fileId: string, info: MedicalInfo)
    requires frame.nrows <= RowDocumentLimit
    ensures var docs := MedicalDocs(frame, fileId, info);
      && |docs| == frame.nrows + 1
      && docs[frame.nrows] == SummaryDoc(frame, fileId, info.contentType, info.isMedical)
      && forall i :: 0 <= i < frame.nrows ==>
           && docs[i].id == fileId + "_row_" + NatToString(i)
           && docs[i].text == RowTexts(frame, info.medicalColumns)[i]
           && "chunk_index" in docs[i].metadata && "total_chunks" in docs[i].metadata
           && "row_index" in docs[i].metadata
           && docs[i].metadata["chunk_index"] == MInt(i)
           && docs[i].metadata["total_chunks"] == MInt(frame.nrows)
           && docs[i].metadata["row_index"] == MInt(i)
  {
    var docs := MedicalDocs(frame, fileId, info);
    var rows := RowDocs(frame, fileId, info);
    assert docs == rows + [SummaryDoc(frame, fileId, info.contentType, info.isMedical)];
    forall i | 0 <= i < frame.nrows
      ensures docs[i].id == fileId + "_row_" + NatToString(i)
      ensures docs[i].text == RowTexts(frame, info.medicalColumns)[i]
      ensures "chunk_index" in docs[i].metadata && "total_chunks" in docs[i].metadata
      ensures "row_index" in docs[i].metadata
      ensures docs[i].metadata["chunk_index"] == MInt(i)
      ensures docs[i].metadata["total_chunks"] == MInt(frame.nrows)
      ensures docs[i].metadata["row_index"] == MInt(i)
    {
      assert docs[i] == rows[i] == RowDoc(frame, fileId, info, i);
      RowMetaSpec(fileId, info.contentType, frame.nrows, i);
    }
  }

  lemma RowMetaSpec(fileId: string, contentType: string, n: nat, i: nat)
    ensures var m := RowMeta(fileId, contentType, n, i);
      && m["chunk_index"] == MInt(i)
      && m["total_chunks"] == MInt(n)
      && m["row_index"] == MInt(i)
  {
  }

  /** Every row of batch `b` appears in the batch's text. */
  lemma BatchDocHoldsRows(frame: Frame, fileId: string, info: MedicalInfo, b: nat)
    requires b < TotalBatches(frame.nrows)
    ensures BatchStart(b) <= BatchEnd(b, frame.nrows)
    ensures forall r :: BatchStart(b) <= r < BatchEnd(b, frame.nrows) ==>
      Contains(BatchDoc(frame, fileId, info, b).text, RowTexts(frame, info.medicalColumns)[r])
  {
    BatchStartInside(frame.nrows, b);
    var start := BatchStart(b);
    var end := BatchEnd(b, frame.nrows);
    var rows := BatchRows(frame, info.medicalColumns, start, end);
    var head := BatchHead(b, TotalBatches(frame.nrows), start, end);
    BatchRowsContains(frame, info.medicalColumns, start, end);
    forall r | start <= r < end
      ensures Contains(BatchDoc(frame, fileId, info, b).text, RowTexts(frame, info.medicalColumns)[r])
    {
      ContainsWithin(head, rows, "", RowTexts(frame, info.medicalColumns)[r]);
      assert head + rows + "" == BatchDoc(frame, fileId, info, b).text;
    }
  }

  /** Beyond 1000 rows: `ceil(n / 10)` batch documents, then the summary;
      batch `b` has id `{file_id}_batch_{b}`, chunk index `b` of the batch
      count, and its size is the number of rows it covers. */
  lemma BatchDocsSpec(frame: Frame, fileId: string, info: MedicalInfo)
    requires frame.nrows > RowDocumentLimit
    ensures var docs := MedicalDocs(frame, fileId, info);
      && |docs| == TotalBatches(frame.nrows) + 1
      && docs[|docs| - 1] == SummaryDoc(frame, fileId, info.contentType, info.isMedical)
      && (forall b :: 0 <= b < TotalBatches(frame.nrows) ==>
           && docs[b].id == fileId + "_batch_" + NatToString(b)
           && "chunk_index" in docs[b].metadata && "total_chunks" in docs[b].metadata
           && "batch_size" in docs[b].metadata
           && docs[b].metadata["chunk_index"] == MInt(b)
           && docs[b].metadata["total_chunks"] == MInt(TotalBatches(frame.nrows))
           && docs[b].metadata["batch_size"] == MInt(BatchLength(b, frame.nrows)))
  {
    var docs := MedicalDocs(frame, fileId, info);
    var batches := BatchDocs(frame, fileId, info);
    var n := frame.nrows;
    assert docs == batches + [SummaryDoc(frame, fileId, info.contentType, info.isMedical)];
    forall b | 0 <= b < TotalBatches(n)
      ensures docs[b].id == fileId + "_batch_" + NatToString(b)
      ensures "chunk_index" in docs[b].metadata && "total_chunks" in docs[b].metadata
      ensures "batch_size" in docs[b].metadata
      ensures docs[b].metadata["chunk_index"] == MInt(b)
      ensures docs[b].metadata["total_chunks"] == MInt(TotalBatches(n))
      ensures docs[b].metadata["batch_size"] == MInt(BatchLength(b, n))
    {
      assert docs[b] == batches[b] == BatchDoc(frame, fileId, info, b);
      BatchMetaSpec(fileId, info.contentType, n, b);
    }
  }

  /** Beyond 1000 rows, the text of row `r` appears in batch `r / 10`. */
  lemma BatchesCoverRows(frame: Frame, fileId: string, info: MedicalInfo)
    requires frame.nrows > RowDocumentLimit
    ensures var docs := MedicalDocs(frame, fileId, info);
      forall r :: 0 <= r < frame.nrows ==>
        BatchOf(r) < TotalBatches(frame.nrows) && BatchOf(r) < |docs|
        && Contains(docs[BatchOf(r)].text, RowTexts(frame, info.medicalColumns)[r])
  {
    var docs := MedicalDocs(frame, fileId, info);
    var batches := BatchDocs(frame, fileId, info);
    var n := frame.nrows;
    assert docs == batches + [SummaryDoc(frame, fileId, info.contentType, info.isMedical)];
    BatchPartition(n);
    forall r | 0 <= r < n
      ensures BatchOf(r) < TotalBatches(n)
      ensures Contains(docs[BatchOf(r)].text, RowTexts(frame, info.medicalColumns)[r])
    {
      assert docs[BatchOf(r)] == batches[BatchOf(r)];
      BatchDocHoldsRows(frame, fileId, info, BatchOf(r));
    }
  }

  // ----------------------------------------------------------------------
  // `_create_dataset_summary`

  /** The bullet that prefixes column lines (U+2022 and a space). */
  const Bullet := "\U{2022} "

  /** `dropna().astype(str)`: the present values of a column, in row
      order. */
  function ColumnValues(cells: seq<Cell>): seq<string>
    decreases |cells|
  {
    if cells == [] then []
    else ColumnValues(cells[..|cells| - 1])
         + (match cells[|cells| - 1] case Null => [] case Value(s) => [s])
  }

  /** A column has a present value exactly when some cell is not missing. */
  lemma {:induction false} ColumnValuesNonEmpty(cells: seq<Cell>)
    ensures |ColumnValues(cells)| <= |cells|
    ensures |ColumnValues(cells)| > 0 <==> exists i :: 0 <= i < |cells| && cells[i].Value?
    decreases |cells|
  {
    if cells != [] {
      var init := cells[..|cells| - 1];
      ColumnValuesNonEmpty(init);
      if exists i :: 0 <= i < |init| && init[i].Value? {
        var i :| 0 <= i < |init| && init[i].Value?;
        assert cells[i].Value?;
      }
      if exists i :: 0 <= i < |cells| && cells[i].Value? {
        var i :| 0 <= i < |cells| && cells[i].Value?;
        if i < |init| {
          assert init[i].Value?;
        }
      }
    }
  }

  /** The line describing one column: its label, dtype and `count()`. */
  function ColumnInfoLine(c: Column): string {
    Bullet + Label(c.name) + ": " + c.dtype + ", " + NatToString(|ColumnValues(c.cells)|) + " non-null values\n"
  }

  /** `str(value)[:100]`, with "..." when something was cut. */
  function Clip(s: string): string {
    if |s| > 100 then s[..100] + "..." else s
  }

  /** The line a present value contributes to a sample record. */
  function ValueLine(e: Entry): string {
    match e.cell
    case Null => ""
    case Value(s) => "  " + e.name + ": " + Clip(s) + "\n"
  }

  function RecordBlock(frame: Frame, i: nat): string
    requires i < frame.nrows
  {
    "\nRecord " + NatToString(i + 1) + ":\n" + ConcatMap(RowOf(frame, i), ValueLine)
  }

  /** The records of the first `k` rows. */
  function SampleRecords(frame: Frame, k: nat): string
    requires k <= frame.nrows
  {
    if k == 0 then "" else SampleRecords(frame, k - 1) + RecordBlock(frame, k - 1)
  }

  function SummaryHead(n: nat, columns: nat, contentType: string, isMedical: bool): string {
    "Dataset Summary:\n\n" + "Total Records: " + NatToString(n) + "\n"
    + "Total Columns: " + NatToString(columns) + "\n"
    + "Content Type: " + contentType + "\n"
    + "Medical Content: " + (if isMedical then "Yes" else "No") + "\n\n"
    + "Column Information:\n"
  }

  /** The sample of the first three rows, for a table with rows. */
  function SampleBlock(frame: Frame): string {
    if frame.nrows > 0 then "\nSample Data (first 3 rows):\n" + SampleRecords(frame, Min(3, frame.nrows)) else ""
  }

  function SummaryText(frame: Frame, contentType: string, isMedical: bool): string {
    SummaryHead(frame.nrows, |frame.columns|, contentType, isMedical)
    + ConcatMap(frame.columns, ColumnInfoLine) + SampleBlock(frame)
  }

  function SummaryMeta(fileId: string, isMedical: bool, n: nat, columns: nat): Metadata {
    map["file_id" := MStr(fileId), "source_type" := MStr("csv"), "content_type" := MStr("dataset_summary"),
        "is_medical" := MBool(isMedical), "total_rows" := MInt(n), "total_columns" := MInt(columns),
        "chunk_index" := MInt(0), "total_chunks" := MInt(1)]
  }

  /** The summary document of a table. */
  function SummaryDoc(frame: Frame, fileId: string, contentType: string, isMedical: bool): CsvDoc {
    CsvDoc(fileId + "_summary", SummaryText(frame, contentType, isMedical),
           SummaryMeta(fileId, isMedical, frame.nrows, |frame.columns|))
  }

  /** The summary has id `{file_id}_summary` and is chunk 0 of 1; its text
      opens with the counts and describes every column; a table with rows
      shows a record for each of its first three rows. */
  lemma SummarySpec(frame: Frame, fileId: string, contentType: string, isMedical: bool)
    ensures var d := SummaryDoc(frame, fileId, contentType, isMedical);
      && d.id == fileId + "_summary"
      && d.metadata["chunk_index"] == MInt(0) && d.metadata["total_chunks"] == MInt(1)
      && d.metadata["content_type"] == MStr("dataset_summary")
      && d.metadata["total_rows"] == MInt(frame.nrows)
      && StartsWith(d.text, SummaryHead(frame.nrows, |frame.columns|, contentType, isMedical))
      && (forall j :: 0 <= j < |frame.columns| ==> Contains(d.text, ColumnInfoLine(frame.columns[j])))
      && (forall i :: 0 <= i < Min(3, frame.nrows) ==> Contains(d.text, RecordBlock(frame, i)))
  {
    var head := SummaryHead(frame.nrows, |frame.columns|, contentType, isMedical);
    var text := SummaryText(frame, contentType, isMedical);
    assert text[..|head|] == head;
    SummaryShowsColumns(frame, contentType, isMedical);
    SummaryShowsSamples(frame, contentType, isMedical);
  }

  lemma SummaryShowsColumns(frame: Frame, contentType: string, isMedical: bool)
    ensures forall j :: 0 <= j < |frame.columns| ==>
      Contains(SummaryText(frame, contentType, isMedical), ColumnInfoLine(frame.columns[j]))
  {
    var head := SummaryHead(frame.nrows, |frame.columns|, contentType, isMedical);
    var cols := ConcatMap(frame.columns, ColumnInfoLine);
    var sample := SampleBlock(frame);
    var text := SummaryText(frame, contentType, isMedical);
    ConcatMapContains(frame.columns, ColumnInfoLine);
    forall j | 0 <= j < |frame.columns| ensures Contains(text, ColumnInfoLine(frame.columns[j])) {
      ContainsWithin(head, cols, sample, ColumnInfoLine(frame.columns[j]));
    }
  }

  lemma SummaryShowsSamples(frame: Frame, contentType: string, isMedical: bool)
    ensures forall i :: 0 <= i < Min(3, frame.nrows) ==>
      Contains(SummaryText(frame, contentType, isMedical), RecordBlock(frame, i))
  {
    var head := SummaryHead(frame.nrows, |frame.columns|, contentType, isMedical);
    var cols := ConcatMap(frame.columns, ColumnInfoLine);
    var sample := SampleBlock(frame);
    var text := SummaryText(frame, contentType, isMedical);
    if frame.nrows > 0 {
      var k := Min(3, frame.nrows);
      SampleRecordsContains(frame, k);
      forall i | 0 <= i < k ensures Contains(text, RecordBlock(frame, i)) {
        var intro := "\nSample Data (first 3 rows):\n";
        ContainsWithin(intro, SampleRecords(frame, k), "", RecordBlock(frame, i));
        assert intro + SampleRecords(frame, k) + "" == sample;
        ContainsWithin(head + cols, sample, "", RecordBlock(frame, i));
        assert head + cols + sample + "" == text;
      }
    }
  }

  lemma {:induction false} SampleRecordsContains(frame: Frame, k: nat)
    requires k <= frame.nrows
    ensures forall i :: 0 <= i < k ==> Contains(SampleRecords(frame, k), RecordBlock(frame, i))
  {
    if k > 0 {
      SampleRecordsContains(frame, k - 1);
      var prev := SampleRecords(frame, k - 1);
      var last := RecordBlock(frame, k - 1);
      assert SampleRecords(frame, k) == prev + last;
      ContainsSuffix(prev, last);
      forall i | 0 <= i < k - 1 ensures Contains(prev + last, RecordBlock(frame, i)) {
        ContainsInPrefix(prev, last, RecordBlock(frame, i));
      }
    }
  }

  /** `_create_dataset_summary`. */
  method CreateDatasetSummary(df: Frame, fileId: string, contentType: string, isMedical: bool)
    returns (doc: CsvDoc)
    ensures doc == SummaryDoc(df, fileId, contentType, isMedical)
  {
    var summaryText := "Dataset Summary:\n\n";
    summaryText := summaryText + "Total Records: " + NatToString(df.nrows) + "\n";
    summaryText := summaryText + "Total Columns: " + NatToString(|df.columns|) + "\n";
    summaryText := summaryText + "Content Type: " + contentType + "\n";
    summaryText := summaryText + "Medical Content: " + (if isMedical then "Yes" else "No") + "\n\n";
    summaryText := summaryText + "Column Information:\n";
    ghost var head := summaryText;
    summaryText := AppendColumnInfo(summaryText, df.columns);
    if df.nrows > 0 {
      ghost var before := summaryText;
      summaryText := summaryText + "\nSample Data (first 3 rows):\n";
      summaryText := AppendSampleRecords(summaryText, df);
      AppendAssoc(before, "\nSample Data (first 3 rows):\n", SampleRecords(df, Min(3, df.nrows)));
    }
    AppendAssoc(head, ConcatMap(df.columns, ColumnInfoLine), SampleBlock(df));
    doc := CsvDoc(fileId + "_summary", summaryText, SummaryMeta(fileId, isMedical, df.nrows, |df.columns|));
  }

  /** The loop describing each column. */
  method AppendColumnInfo(text: string, columns: seq<Column>) returns (r: string)
    ensures r == text + ConcatMap(columns, ColumnInfoLine)
  {
    r := text;
    for j := 0 to |columns|
      invariant r == text + ConcatMap(columns[..j], ColumnInfoLine)
    {
      var col := columns[j];
      var nonNull := |ColumnValues(col.cells)|;
      var line := Bullet + Label(col.name) + ": " + col.dtype + ", " + NatToString(nonNull) + " non-null values\n";
      ConcatMapStep(columns, j, ColumnInfoLine);
      AppendAssoc(text, ConcatMap(columns[..j], ColumnInfoLine), line);
      r := r + line;
    }
    ConcatMapWhole(columns, ColumnInfoLine);
  }

  /** The loop over `df.head(3)`. */
  method AppendSampleRecords(text: string, df: Frame) returns (r: string)
    ensures r == text + SampleRecords(df, Min(3, df.nrows))
  {
    r := text;
    for idx := 0 to Min(3, df.nrows)
      invariant r == text + SampleRecords(df, idx)
    {
      var block := RecordText(df, idx);
      AppendAssoc(text, SampleRecords(df, idx), block);
      r := r + block;
    }
  }

  /** One sample record: its heading, then a line per present value. */
  method RecordText(df: Frame, idx: nat) returns (text: string)
    requires idx < df.nrows
    ensures text == RecordBlock(df, idx)
  {
    var row := RowOf(df, idx);
    text := "\nRecord " + NatToString(idx + 1) + ":\n";
    ghost var head := text;
    for j := 0 to |row|
      invariant text == head + ConcatMap(row[..j], ValueLine)
    {
      var line := "";
      if row[j].cell.Value? {
        var value := row[j].cell.s;
        line := "  " + row[j].name + ": " + (if |value| > 100 then value[..100] else value)
                + (if |value| > 100 then "..." else "") + "\n";
      }
      assert line == ValueLine(row[j]);
      ConcatMapStep(row, j, ValueLine);
      AppendAssoc(head, ConcatMap(row[..j], ValueLine), line);
      text := text + line;
    }
    assert row[..|row|] == row;
  }

  // ----------------------------------------------------------------------
  // The medical documents, built as the source builds them

  /** The text of a row never strips to "", so the source's check never
      drops a row or a batch. */
  lemma BatchHeadVisible(b: nat, total: nat, start: nat, end: nat, rows: string)
    ensures Strip(BatchHead(b, total, start, end) + rows) != ""
  {
    var text := BatchHead(b, total, start, end) + rows;
    assert text[0] == 'M';
    StripNonBlank(text);
  }

  /** The body of the inner loop for row `idx`: the rule and the row's
      text, when that text is not blank (which it never is). */
  method SeparatedRowText(df: Frame, medicalCols: seq<string>, idx: nat) returns (block: string)
    requires idx < df.nrows
    ensures block == SeparatedRow(FormatRow(RowOf(df, idx), medicalCols))
  {
    var rowText := FormatMedicalRow(RowOf(df, idx), medicalCols);
    RowTextVisible(RowOf(df, idx), medicalCols);
    block := "";
    if Strip(rowText) != "" {
      block := "\n" + Repeat('=', 50) + "\n" + rowText;
    }
  }

  lemma BatchRowsSnoc(df: Frame, medicalCols: seq<string>, start: nat, idx: nat)
    requires start <= idx < df.nrows
    ensures BatchRows(df, medicalCols, start, idx + 1)
      == BatchRows(df, medicalCols, start, idx) + SeparatedRow(FormatRow(RowOf(df, idx), medicalCols))
  {
    var texts := RowTexts(df, medicalCols);
    SliceSnoc(texts, start, idx);
    ConcatMapSnoc(texts[start..idx], texts[idx], SeparatedRow);
  }

  lemma SliceSnoc<T>(xs: seq<T>, i: nat, j: nat)
    requires i <= j < |xs|
    ensures xs[i..j + 1] == xs[i..j] + [xs[j]]
  {
  }

  lemma BatchRowsEmpty(df: Frame, medicalCols: seq<string>, start: nat)
    requires start <= df.nrows
    ensures BatchRows(df, medicalCols, start, start) == ""
  {
    assert RowTexts(df, medicalCols)[start..start] == [];
  }

  /** The inner loop over the rows of one batch. */
  method AppendBatchRows(text: string, df: Frame, medicalCols: seq<string>, start: nat, end: nat)
    returns (r: string)
    requires start <= end <= df.nrows
    ensures r == text + BatchRows(df, medicalCols, start, end)
  {
    r := text;
    BatchRowsEmpty(df, medicalCols, start);
    ghost var rows := "";
    for idx := start to end
      invariant rows == BatchRows(df, medicalCols, start, idx)
      invariant r == text + rows
    {
      var block := SeparatedRowText(df, medicalCols, idx);
      BatchRowsSnoc(df, medicalCols, start, idx);
      AppendAssoc(text, rows, block);
      r := r + block;
      rows := rows + block;
    }
  }

  /** The document for one row, or nothing if its text were blank (which
      it never is). */
  method RowDocument(df: Frame, fileId: string, info: MedicalInfo, idx: nat) returns (doc: Option<CsvDoc>)
    requires idx < df.nrows
    ensures doc == Some(RowDoc(df, fileId, info, idx))
  {
    var docText := FormatMedicalRow(RowOf(df, idx), info.medicalColumns);
    RowTextVisible(RowOf(df, idx), info.medicalColumns);
    doc := None;
    if Strip(docText) != "" {
      doc := Some(CsvDoc(fileId + "_row_" + NatToString(idx), docText,
                         RowMeta(fileId, info.contentType, df.nrows, idx)));
    }
  }

  /** Strategy 1: one document per row. */
  method RowDocuments(df: Frame, fileId: string, info: MedicalInfo) returns (documents: seq<CsvDoc>)
    ensures documents == RowDocs(df, fileId, info)
  {
    documents := [];
    for idx := 0 to df.nrows
      invariant documents == RowDocs(df, fileId, info)[..idx]
    {
      var doc := RowDocument(df, fileId, info, idx);
      if doc.Some? {
        assert RowDocs(df, fileId, info)[..idx + 1] == RowDocs(df, fileId, info)[..idx] + [doc.value];
        documents := documents + [doc.value];
      }
    }
    assert RowDocs(df, fileId, info)[..df.nrows] == RowDocs(df, fileId, info);
  }

  /** The document for one batch, or nothing if its text were blank (which
      it never is). */
  method BatchDocument(df: Frame, fileId: string, info: MedicalInfo, batchIdx: nat, totalBatches: nat)
    returns (doc: Option<CsvDoc>)
    requires totalBatches == TotalBatches(df.nrows) && batchIdx < totalBatches
    ensures doc == Some(BatchDoc(df, fileId, info, batchIdx))
  {
    BatchStartInside(df.nrows, batchIdx);
    var startIdx := batchIdx * BatchSize;
    var endIdx := Min(startIdx + BatchSize, df.nrows);
    var docText := "Medical Records Batch " + NatToString(batchIdx + 1) + " of " + NatToString(totalBatches) + ":\n";
    docText := docText + "Records " + NatToString(startIdx + 1) + " to " + NatToString(endIdx) + ":\n\n";
    assert docText == BatchHead(batchIdx, totalBatches, startIdx, endIdx);
    docText := AppendBatchRows(docText, df, info.medicalColumns, startIdx, endIdx);
    BatchHeadVisible(batchIdx, totalBatches, startIdx, endIdx, BatchRows(df, info.medicalColumns, startIdx, endIdx));
    doc := None;
    if Strip(docText) != "" {
      doc := Some(CsvDoc(fileId + "_batch_" + NatToString(batchIdx), docText,
                         BatchMeta(fileId, info.contentType, df.nrows, batchIdx)));
    }
  }

  /** Strategy 2: one document per batch of ten rows. */
  method BatchDocuments(df: Frame, fileId: string, info: MedicalInfo) returns (documents: seq<CsvDoc>)
    ensures documents == BatchDocs(df, fileId, info)
  {
    documents := [];
    var batchSize := 10;
    var totalBatches := (df.nrows + batchSize - 1) / batchSize;
    assert totalBatches == TotalBatches(df.nrows);
    for batchIdx := 0 to totalBatches
      invariant documents == BatchDocs(df, fileId, info)[..batchIdx]
    {
      var doc := BatchDocument(df, fileId, info, batchIdx, totalBatches);
      if doc.Some? {
        assert BatchDocs(df, fileId, info)[..batchIdx + 1] == BatchDocs(df, fileId, info)[..batchIdx] + [doc.value];
        documents := documents + [doc.value];
      }
    }
    assert BatchDocs(df, fileId, info)[..totalBatches] == BatchDocs(df, fileId, info);
  }

  /** `_create_medical_documents`. */
  method CreateMedicalDocuments(df: Frame, fileId: string, info: MedicalInfo) returns (documents: seq<CsvDoc>)
    ensures documents == MedicalDocs(df, fileId, info)
  {
    if df.nrows <= RowDocumentLimit {
      documents := RowDocuments(df, fileId, info);
    } else {
      documents := BatchDocuments(df, fileId, info);
    }
    var summaryDoc := CreateDatasetSummary(df, fileId, info.contentType, info.isMedical);
    documents := documents + [summaryDoc];
  }

  // ----------------------------------------------------------------------
  // `_create_general_documents`

  /** `col_data.sample(min(50, len(col_data)))`: a random choice of values,
      passed in. */
  type Sampler = seq<string> -> seq<string>

  function Bullets(values: seq<string>): (r: seq<string>)
    ensures |r| == |values|
  {
    seq(|values|, k requires 0 <= k < |values| => Bullet + values[k])
  }

  function ColumnHead(c: Column): string {
    "Data Column - " + Label(c.name) + ":\n\n"
  }

  /** The text of a column's document: every value as a bullet, or for more
      than 100 values the count and a sample. */
  function ColumnText(c: Column, sample: Sampler): string {
    var values := ColumnValues(c.cells);
    if |values| > 100 then
      ColumnHead(c) + "Sample entries from " + NatToString(|values|) + " total records:\n"
      + Join("\n", Bullets(sample(values)))
    else ColumnHead(c) + Join("\n", Bullets(values))
  }

  function ColumnMeta(fileId: string, name: string, entries: nat): Metadata {
    map["file_id" := MStr(fileId), "source_type" := MStr("csv"), "content_type" := MStr("general_data"),
        "column_name" := MStr(name), "is_medical" := MBool(false), "total_entries" := MInt(entries),
        "chunk_index" := MInt(0), "total_chunks" := MInt(1)]
  }

  function ColumnDoc(fileId: string, c: Column, sample: Sampler): CsvDoc {
    CsvDoc(fileId + "_column_" + c.name, ColumnText(c, sample), ColumnMeta(fileId, c.name, |ColumnValues(c.cells)|))
  }

  predicate HasValues(c: Column) {
    |ColumnValues(c.cells)| > 0
  }

  /** One document per column that has a present value, in column order. */
  function ColumnDocs(columns: seq<Column>, fileId: string, sample: Sampler): seq<CsvDoc>
    decreases |columns|
  {
    if columns == [] then []
    else ColumnDocs(columns[..|columns| - 1], fileId, sample)
         + (if HasValues(columns[|columns| - 1]) then [ColumnDoc(fileId, columns[|columns| - 1], sample)] else [])
  }

  /** The number of columns with a present value. */
  function CountWithValues(columns: seq<Column>): (r: nat)
    ensures r <= |columns|
    decreases |columns|
  {
    if columns == [] then 0
    else CountWithValues(columns[..|columns| - 1]) + (if HasValues(columns[|columns| - 1]) then 1 else 0)
  }

  /** The documents of a non-medical table: the column documents, then the
      summary. */
  function GeneralDocs(frame: Frame, fileId: string, sample: Sampler): seq<CsvDoc> {
    ColumnDocs(frame.columns, fileId, sample) + [SummaryDoc(frame, fileId, "general_data", false)]
  }

  /** There are as many column documents as columns with a present value,
      and so one per column when every column has one. */
  lemma {:induction false} ColumnDocsCount(columns: seq<Column>, fileId: string, sample: Sampler)
    ensures |ColumnDocs(columns, fileId, sample)| == CountWithValues(columns)
    ensures (forall j :: 0 <= j < |columns| ==> HasValues(columns[j])) ==> CountWithValues(columns) == |columns|
    decreases |columns|
  {
    if columns != [] {
      var init := columns[..|columns| - 1];
      ColumnDocsCount(init, fileId, sample);
      if forall j :: 0 <= j < |columns| ==> HasValues(columns[j]) {
        forall j | 0 <= j < |init| ensures HasValues(init[j]) {
          assert init[j] == columns[j];
        }
      }
    }
  }

  /** A column gets a document exactly when it has a present value. */
  lemma {:induction false} ColumnDocsMembers(columns: seq<Column>, fileId: string, sample: Sampler)
    ensures forall c :: c in columns && HasValues(c) ==> ColumnDoc(fileId, c, sample) in ColumnDocs(columns, fileId, sample)
    ensures forall d :: d in ColumnDocs(columns, fileId, sample) ==>
      exists c :: c in columns && HasValues(c) && d == ColumnDoc(fileId, c, sample)
    decreases |columns|
  {
    if columns != [] {
      var init := columns[..|columns| - 1];
      var last := columns[|columns| - 1];
      ColumnDocsMembers(init, fileId, sample);
      assert columns == init + [last];
      forall d | d in ColumnDocs(columns, fileId, sample)
        ensures exists c :: c in columns && HasValues(c) && d == ColumnDoc(fileId, c, sample)
      {
        if d in ColumnDocs(init, fileId, sample) {
          var c :| c in init && HasValues(c) && d == ColumnDoc(fileId, c, sample);
          assert c in columns;
        } else {
          assert last in columns;
        }
      }
    }
  }

  /** A column of at most 100 values lists every one of them as a bullet. */
  lemma ColumnTextListsValues(c: Column, sample: Sampler)
    requires |ColumnValues(c.cells)| <= 100
    ensures forall k :: 0 <= k < |ColumnValues(c.cells)| ==>
      Contains(ColumnText(c, sample), Bullet + ColumnValues(c.cells)[k])
  {
    var values := ColumnValues(c.cells);
    JoinContainsParts("\n", Bullets(values));
    forall k | 0 <= k < |values| ensures Contains(ColumnText(c, sample), Bullet + values[k]) {
      assert Bullets(values)[k] == Bullet + values[k];
      ContainsWithin(ColumnHead(c), Join("\n", Bullets(values)), "", Bullet + values[k]);
      assert ColumnHead(c) + Join("\n", Bullets(values)) + "" == ColumnText(c, sample);
    }
  }

  /** `_create_general_documents`. */
  method CreateGeneralDocuments(df: Frame, fileId: string, sample: Sampler) returns (documents: seq<CsvDoc>)
    ensures documents == GeneralDocs(df, fileId, sample)
  {
    documents := [];
    for j := 0 to |df.columns|
      invariant documents == ColumnDocs(df.columns[..j], fileId, sample)
    {
      var col := df.columns[j];
      assert df.columns[..j + 1][..j] == df.columns[..j];
      var colData := ColumnValues(col.cells);
      if |colData| > 0 {
        var docText;
        if |colData| > 100 {
          var sampleData := sample(colData);
          docText := "Data Column - " + Label(col.name) + ":\n\n";
          docText := docText + "Sample entries from " + NatToString(|colData|) + " total records:\n";
          docText := docText + Join("\n", Bullets(sampleData));
        } else {
          docText := "Data Column - " + Label(col.name) + ":\n\n";
          docText := docText + Join("\n", Bullets(colData));
        }
        var doc := CsvDoc(fileId + "_column_" + col.name, docText, ColumnMeta(fileId, col.name, |colData|));
        assert doc == ColumnDoc(fileId, col, sample);
        documents := documents + [doc];
      }
    }
    assert df.columns[..|df.columns|] == df.columns;
    var summaryDoc := CreateDatasetSummary(df, fileId, "general_data", false);
    documents := documents + [summaryDoc];
  }
}
