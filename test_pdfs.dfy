/** rag_app/create_test_pdfs.py: each sample text file that exists becomes
    a PDF whose story is built line by line; a missing file is reported
    and skipped. */
module TestPdfs {
  import opened Text
  import opened Story

  /** The bullet as the source file spells it: the UTF-8 bytes of U+2022
      read as Windows-1252 (U+00E2 U+20AC U+00A2), then a space. */
  const BulletMark := "\U{00E2}\U{20AC}\U{00A2} "

  /** Python's `line[2:-2]`: empty when the line is shorter than four
      characters. */
  function InnerText(line: string): (r: string)
    ensures |line| >= 4 ==> r == line[2..|line| - 2]
    ensures |line| < 4 ==> r == ""
  {
    if |line| < 4 then "" else line[2..|line| - 2]
  }

  /** The flowables for one line of a text file. */
  function TestLine(raw: string): seq<Flowable> {
    var line := Strip(raw);
    if line == "" then [Spacer(1, 6)]
    else if StartsWith(line, "# ") then [Paragraph(line[2..], "CustomTitle"), Spacer(1, 12)]
    else if StartsWith(line, "## ") then [Paragraph(line[3..], "CustomHeading"), Spacer(1, 8)]
    else if StartsWith(line, "### ") then [Paragraph(line[4..], "CustomHeading"), Spacer(1, 6)]
    else if StartsWith(line, "- ") then [Paragraph(BulletMark + line[2..], "CustomBody")]
    else if StartsWith(line, "**") && EndsWith(line, "**") then
      [Paragraph("<b>" + InnerText(line) + "</b>", "CustomBody")]
    else [Paragraph(line, "CustomBody")]
  }

  /** The story of a whole text: `content.split('\n')`, with no strip of
      the text as a whole. */
  function TestStory(content: string): seq<Flowable> {
    StoryOf(Split(content, '\n'), TestLine)
  }

  /** `create_pdf_from_text`: the story it builds before `doc.build`. */
  method CreatePdfFromText(content: string) returns (story: seq<Flowable>)
    ensures story == TestStory(content)
  {
    story := [];
    var lines := Split(content, '\n');
    for i := 0 to |lines|
      invariant story == StoryOf(lines[..i], TestLine)
    {
      var line := Strip(lines[i]);
      StoryStep(lines, i, TestLine);
      if line == "" {
        story := story + [Spacer(1, 6)];
      } else if StartsWith(line, "# ") {
        story := story + [Paragraph(line[2..], "CustomTitle"), Spacer(1, 12)];
      } else if StartsWith(line, "## ") {
        story := story + [Paragraph(line[3..], "CustomHeading"), Spacer(1, 8)];
      } else if StartsWith(line, "### ") {
        story := story + [Paragraph(line[4..], "CustomHeading"), Spacer(1, 6)];
      } else if StartsWith(line, "- ") {
        story := story + [Paragraph(BulletMark + line[2..], "CustomBody")];
      } else if StartsWith(line, "**") && EndsWith(line, "**") {
        var boldText := InnerText(line);
        story := story + [Paragraph("<b>" + boldText + "</b>", "CustomBody")];
      } else {
        story := story + [Paragraph(line, "CustomBody")];
      }
    }
    StoryWhole(lines, TestLine);
  }

  /** The `(text_file, pdf_file)` pairs `main` converts. */
  const Documents: seq<(string, string)> := [
    ("sample_documents/ai_ml_basics.txt", "sample_documents/ai_ml_basics.pdf"),
    ("sample_documents/rag_systems.txt", "sample_documents/rag_systems.pdf")
  ]

  /** The PDFs after converting, in order, each pair whose text file is on
      disk; a later pair with the same PDF path overwrites. */
  function ConvertedPdfs(pdfs: map<string, seq<Flowable>>, documents: seq<(string, string)>,
                         files: map<string, string>): map<string, seq<Flowable>>
    decreases |documents|
  {
    if documents == [] then pdfs
    else
      var prev := ConvertedPdfs(pdfs, documents[..|documents| - 1], files);
      var (textFile, pdfFile) := documents[|documents| - 1];
      if textFile in files then prev[pdfFile := TestStory(files[textFile])] else prev
  }

  /** The text files reported missing, in order. */
  function MissingFiles(documents: seq<(string, string)>, files: map<string, string>): seq<string>
    decreases |documents|
  {
    if documents == [] then []
    else
      var prev := MissingFiles(documents[..|documents| - 1], files);
      var textFile := documents[|documents| - 1].0;
      if textFile in files then prev else prev + [textFile]
  }

  /** The loop of `main` over `documents`: `files` is the disk and the
      warnings are the names in the "not found" messages. */
  method ConvertDocuments(documents: seq<(string, string)>, files: map<string, string>,
                          pdfs0: map<string, seq<Flowable>>)
    returns (pdfs: map<string, seq<Flowable>>, missing: seq<string>)
    ensures pdfs == ConvertedPdfs(pdfs0, documents, files)
    ensures missing == MissingFiles(documents, files)
  {
    pdfs := pdfs0;
    missing := [];
    for i := 0 to |documents|
      invariant pdfs == ConvertedPdfs(pdfs0, documents[..i], files)
      invariant missing == MissingFiles(documents[..i], files)
    {
      var (textFile, pdfFile) := documents[i];
      assert documents[..i + 1][..i] == documents[..i];
      if textFile in files {
        var story := CreatePdfFromText(files[textFile]);
        pdfs := pdfs[pdfFile := story];
      } else {
        missing := missing + [textFile];
      }
    }
    assert documents[..|documents|] == documents;
  }

  /** `main`, on the two sample documents. */
  method CreateTestPdfs(files: map<string, string>, pdfs0: map<string, seq<Flowable>>)
    returns (pdfs: map<string, seq<Flowable>>, missing: seq<string>)
    ensures pdfs == ConvertedPdfs(pdfs0, Documents, files)
    ensures missing == MissingFiles(Documents, files)
  {
    pdfs, missing := ConvertDocuments(Documents, files, pdfs0);
  }

  /** Every line adds one element, or two for a heading. */
  lemma TestLineSize(raw: string)
    ensures 1 <= |TestLine(raw)| <= 2
    ensures |TestLine(raw)| == 2 <==> var line := Strip(raw);
      line != "" && (StartsWith(line, "# ") || StartsWith(line, "## ") || StartsWith(line, "### "))
  {
  }

  /** The story has at least one element per line and at most two. */
  lemma {:induction false} StoryBounds(lines: seq<string>)
    ensures |lines| <= |StoryOf(lines, TestLine)| <= 2 * |lines|
    decreases |lines|
  {
    if lines != [] {
      StoryBounds(lines[..|lines| - 1]);
      TestLineSize(lines[|lines| - 1]);
    }
  }

  /** A text of `n` newlines gives at least `n + 1` elements. */
  lemma TestStoryBounds(content: string)
    ensures |Split(content, '\n')| <= |TestStory(content)| <= 2 * |Split(content, '\n')|
  {
    StoryBounds(Split(content, '\n'));
  }

  /** A line made of two stars, some text and two stars is a bold
      paragraph of the slice between the star pairs. */
  lemma StarredLine(line: string)
    requires |line| >= 2 && line[0] == '*' && line[1] == '*'
    requires line[|line| - 2] == '*' && line[|line| - 1] == '*'
    ensures TestLine(line) == [Paragraph("<b>" + InnerText(line) + "</b>", "CustomBody")]
  {
    StripVisibleEnds(line);
    assert line[..2] == "**";
    assert line[|line| - 2..] == "**";
    assert !StartsWith(line, "# ") && !StartsWith(line, "## ") && !StartsWith(line, "### ")
      && !StartsWith(line, "- ") by {
      assert line[0] == '*';
    }
  }

  /** Bold markup round trip: a line that is some text between two pairs
      of stars becomes a bold paragraph of exactly that text. */
  lemma BoldRoundTrip(text: string)
    ensures TestLine("**" + text + "**") == [Paragraph("<b>" + text + "</b>", "CustomBody")]
  {
    var line := "**" + text + "**";
    StarredLine(line);
    assert line[2..|line| - 2] == text;
  }

  /** "**" alone, or "***", is an empty bold paragraph: the slice
      `[2:-2]` has nothing left. */
  lemma ShortBoldIsEmpty(line: string)
    requires 2 <= |line| < 4 && forall k :: 0 <= k < |line| ==> line[k] == '*'
    ensures TestLine(line) == [Paragraph("<b></b>", "CustomBody")]
  {
    StarredLine(line);
    assert "<b>" + InnerText(line) + "</b>" == "<b></b>";
  }

  /** A document whose text file exists has its PDF, built from that
      text, unless a later pair writes the same PDF path. */
  lemma {:induction false} ConvertedWhenPresent(pdfs: map<string, seq<Flowable>>,
                                               documents: seq<(string, string)>,
                                               files: map<string, string>, i: nat)
    requires i < |documents| && documents[i].0 in files
    requires forall j :: i < j < |documents| ==> documents[j].1 != documents[i].1
    ensures documents[i].1 in ConvertedPdfs(pdfs, documents, files)
    ensures ConvertedPdfs(pdfs, documents, files)[documents[i].1] == TestStory(files[documents[i].0])
    decreases |documents|
  {
    var init := documents[..|documents| - 1];
    if i < |init| {
      assert init[i] == documents[i];
      forall j | i < j < |init| ensures init[j].1 != init[i].1 {
        assert init[j] == documents[j];
      }
      ConvertedWhenPresent(pdfs, init, files, i);
      assert documents[|documents| - 1].1 != documents[i].1;
    }
  }

  /** A document's text file is reported exactly when it does not exist. */
  lemma ReportedIffMissing(documents: seq<(string, string)>, files: map<string, string>, i: nat)
    requires i < |documents|
    ensures documents[i].0 in MissingFiles(documents, files) <==> documents[i].0 !in files
  {
    MissingHasOnlyMissing(documents, files);
  }

  /** On the two sample documents: each PDF holds the story of its text
      when the text exists, and each missing text is reported. */
  lemma SampleDocuments(files: map<string, string>, pdfs: map<string, seq<Flowable>>, i: nat)
    requires i < |Documents|
    ensures Documents[i].0 in files ==>
      Documents[i].1 in ConvertedPdfs(pdfs, Documents, files)
      && ConvertedPdfs(pdfs, Documents, files)[Documents[i].1] == TestStory(files[Documents[i].0])
    ensures Documents[i].0 in MissingFiles(Documents, files) <==> Documents[i].0 !in files
  {
    if Documents[i].0 in files {
      ConvertedWhenPresent(pdfs, Documents, files, i);
    }
    ReportedIffMissing(Documents, files, i);
  }

  /** Only names of missing files are reported, each from some pair. */
  lemma {:induction false} MissingHasOnlyMissing(documents: seq<(string, string)>, files: map<string, string>)
    ensures forall t :: t in MissingFiles(documents, files) ==> t !in files
    ensures forall i :: 0 <= i < |documents| && documents[i].0 !in files ==> documents[i].0 in MissingFiles(documents, files)
    decreases |documents|
  {
    if documents != [] {
      var init := documents[..|documents| - 1];
      MissingHasOnlyMissing(init, files);
      forall i | 0 <= i < |documents| && documents[i].0 !in files
        ensures documents[i].0 in MissingFiles(documents, files)
      {
        if i < |init| {
          assert init[i] == documents[i];
        }
      }
    }
  }
}
