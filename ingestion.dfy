/** `DataIngestionService` (backend/services/data_injestion_service.py; the
    copy at rag_app/services/data_injestion_service.py is the same file):
    PDF text extraction, chunk annotation and the processing pipeline.
    PyPDF2 is replaced by the text of each page, and LangChain's splitter by
    the list of chunk texts it returns. */
module Ingestion {
  import opened Common
  import opened Text
  import opened Documents

  /** What PyPDF2 yields for a file: an exception message when the file
      cannot be opened or parsed, else the `extract_text()` of each page. */
  datatype PdfSource = Unreadable(reason: string) | Pages(pages: seq<string>)

  /** `RecursiveCharacterTextSplitter.split_text`, configured with the
      settings' chunk size and overlap. */
  type Splitter = string -> seq<string>

  /** The dictionary returned by `process_pdf_file`. */
  datatype Processed = Processed(fileId: string, documents: seq<Document>, totalChunks: nat, textLength: nat)

  /** The text of a document: every page's text followed by a newline, in
      page order. */
  function ConcatPages(pages: seq<string>): string
    decreases |pages|
  {
    if pages == [] then "" else pages[0] + "\n" + ConcatPages(pages[1..])
  }

  lemma {:induction false} ConcatPagesSnoc(pages: seq<string>, page: string)
    ensures ConcatPages(pages + [page]) == ConcatPages(pages) + page + "\n"
    decreases |pages|
  {
    if pages != [] {
      assert (pages + [page])[1..] == pages[1..] + [page];
      ConcatPagesSnoc(pages[1..], page);
    } else {
      assert ConcatPages([page]) == page + "\n" + ConcatPages([]);
    }
  }

  lemma {:induction false} SplitAfterLine(line: string, rest: string)
    requires '\n' !in line
    ensures Split(line + "\n" + rest, '\n') == [line] + Split(rest, '\n')
    decreases |line|
  {
    var s := line + "\n" + rest;
    if line == [] {
      assert s[1..] == rest;
    } else {
      assert s[1..] == line[1..] + "\n" + rest;
      SplitAfterLine(line[1..], rest);
      assert [line[0]] + line[1..] == line;
    }
  }

  /** When no page text holds a newline, the pages can be read back from the
      extracted text: splitting it on newlines gives the pages and a final
      empty piece. */
  lemma {:induction false} ConcatPagesSplit(pages: seq<string>)
    requires forall i :: 0 <= i < |pages| ==> '\n' !in pages[i]
    ensures Split(ConcatPages(pages), '\n') == pages + [""]
    decreases |pages|
  {
    if pages != [] {
      ConcatPagesSplit(pages[1..]);
      SplitAfterLine(pages[0], ConcatPages(pages[1..]));
      assert pages == [pages[0]] + pages[1..];
    }
  }

  /** The extracted text is empty exactly when the document has no page. */
  lemma ConcatPagesEmpty(pages: seq<string>)
    ensures ConcatPages(pages) == "" <==> pages == []
  {
    if pages != [] {
      assert |ConcatPages(pages)| >= 1;
    }
  }

  /** `extract_text_from_pdf`: the pages' text accumulated in page order. */
  method ExtractText(pdf: PdfSource) returns (r: Result<string>)
    ensures pdf.Unreadable? ==> r == Err("Failed to extract text from PDF: " + pdf.reason)
    ensures pdf.Pages? ==> r == Ok(ConcatPages(pdf.pages))
  {
    if pdf.Unreadable? {
      return Err("Failed to extract text from PDF: " + pdf.reason);
    }
    var text := "";
    for pageNum := 0 to |pdf.pages|
      invariant text == ConcatPages(pdf.pages[..pageNum])
    {
      ConcatPagesSnoc(pdf.pages[..pageNum], pdf.pages[pageNum]);
      assert pdf.pages[..pageNum + 1] == pdf.pages[..pageNum] + [pdf.pages[pageNum]];
      text := text + pdf.pages[pageNum] + "\n";
    }
    assert pdf.pages[..|pdf.pages|] == pdf.pages;
    r := Ok(text);
  }

  /** Chunk `i` of `n` as `chunk_text` leaves it: the splitter's metadata
      `{file_id, source: "pdf"}` plus its index and the chunk count. */
  function ChunkDoc(piece: string, fileId: string, i: nat, n: nat): Document {
    Document(piece, map["file_id" := MStr(fileId), "source" := MStr("pdf"),
                        "chunk_index" := MInt(i), "total_chunks" := MInt(n)])
  }

  /** The chunk documents of a file, one per splitter piece, in order. */
  function ChunkDocs(pieces: seq<string>, fileId: string): (r: seq<Document>)
    ensures |r| == |pieces|
  {
    seq(|pieces|, i requires 0 <= i < |pieces| => ChunkDoc(pieces[i], fileId, i, |pieces|))
  }

  /** The chunk indices of a file are exactly 0..n-1, every chunk agrees on
      the count n, and every chunk carries the file's id and source "pdf". */
  lemma ChunkIndicesDense(pieces: seq<string>, fileId: string)
    ensures var docs := ChunkDocs(pieces, fileId);
      && (set i | 0 <= i < |docs| :: docs[i].metadata["chunk_index"]) == (set j | 0 <= j < |pieces| :: MInt(j))
      && (forall i :: 0 <= i < |docs| ==> docs[i].metadata["total_chunks"] == MInt(|docs|))
      && (forall i :: 0 <= i < |docs| ==>
            docs[i].metadata["file_id"] == MStr(fileId) && docs[i].metadata["source"] == MStr("pdf"))
  {
    var docs := ChunkDocs(pieces, fileId);
    forall j | 0 <= j < |pieces|
      ensures MInt(j) in (set i | 0 <= i < |docs| :: docs[i].metadata["chunk_index"])
    {
      assert docs[j].metadata["chunk_index"] == MInt(j);
    }
  }

  /** `chunk_text`: the splitter's documents, then a loop that stamps each
      with its index and the chunk count. */
  method ChunkText(text: string, fileId: string, split: Splitter) returns (documents: seq<Document>)
    ensures documents == ChunkDocs(split(text), fileId)
  {
    var pieces := split(text);
    // `create_documents`: one document per piece, each with its own copy
    // of the metadata.
    documents := seq(|pieces|, i requires 0 <= i < |pieces| =>
      Document(pieces[i], map["file_id" := MStr(fileId), "source" := MStr("pdf")]));
    var n := |documents|;
    for i := 0 to n
      invariant |documents| == n
      invariant forall j :: 0 <= j < i ==> documents[j] == ChunkDoc(pieces[j], fileId, j, n)
      invariant forall j :: i <= j < n ==>
        documents[j] == Document(pieces[j], map["file_id" := MStr(fileId), "source" := MStr("pdf")])
    {
      var doc := documents[i];
      var meta := doc.metadata["chunk_index" := MInt(i)];
      meta := meta["total_chunks" := MInt(n)];
      documents := documents[i := Document(doc.pageContent, meta)];
    }
  }

  const EmptyPdfMessage := "Failed to process PDF file: PDF file appears to be empty or text extraction failed"

  /** The outcome of `process_pdf_file`, used by the services that call it. */
  function PdfResult(pdf: PdfSource, fileId: string, split: Splitter): Result<Processed> {
    match pdf
    case Unreadable(reason) =>
      Err("Failed to process PDF file: " + ("Failed to extract text from PDF: " + reason))
    case Pages(pages) =>
      var text := ConcatPages(pages);
      if IsBlank(text) then Err(EmptyPdfMessage)
      else Ok(Processed(fileId, ChunkDocs(split(text), fileId), |split(text)|, |text|))
  }

  /** `process_pdf_file`: extract, reject text that is empty or only
      whitespace before any chunking, then chunk under the given file id. */
  method ProcessPdfFile(pdf: PdfSource, fileId: string, split: Splitter) returns (r: Result<Processed>)
    ensures pdf.Unreadable? ==>
      r == Err("Failed to process PDF file: " + ("Failed to extract text from PDF: " + pdf.reason))
    ensures pdf.Pages? && IsBlank(ConcatPages(pdf.pages)) ==>
      r == Err(EmptyPdfMessage)
    ensures pdf.Pages? && !IsBlank(ConcatPages(pdf.pages)) ==>
      var text := ConcatPages(pdf.pages);
      r == Ok(Processed(fileId, ChunkDocs(split(text), fileId), |split(text)|, |text|))
    ensures r.Ok? ==> ValidatePdfFile(pdf) && r.value.totalChunks == |r.value.documents|
    ensures r == PdfResult(pdf, fileId, split)
  {
    var extracted := ExtractText(pdf);
    if extracted.Err? {
      assert extracted.message == "Failed to extract text from PDF: " + pdf.reason;
      return Err("Failed to process PDF file: " + extracted.message);
    }
    var text := extracted.value;
    assert text == ConcatPages(pdf.pages);
    StripEmptyIffBlank(text);
    if Strip(text) == "" {
      return Err(EmptyPdfMessage);
    }
    var documents := ChunkText(text, fileId, split);
    ConcatPagesEmpty(pdf.pages);
    r := Ok(Processed(fileId, documents, |documents|, |text|));
  }

  /** `validate_pdf_file`: the file opens and has at least one page. */
  predicate ValidatePdfFile(pdf: PdfSource) {
    pdf.Pages? && |pdf.pages| > 0
  }

  /** A file passes validation exactly when extraction succeeds with a
      non-empty text (each page contributes at least its newline). */
  lemma ValidIffTextNonEmpty(pdf: PdfSource)
    ensures ValidatePdfFile(pdf) <==> pdf.Pages? && ConcatPages(pdf.pages) != ""
  {
    if pdf.Pages? {
      ConcatPagesEmpty(pdf.pages);
    }
  }
}
