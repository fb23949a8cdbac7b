/** `PDFGenerator._create_pdf_from_markdown` (scripts/create_dataset_pdfs.py):
    each stripped markdown line becomes reportlab flowables by the first
    rule that matches, and a dated footer closes the story. */
module DatasetPdfs {
  import opened Common
  import opened Text
  import opened Story

  /** The bullet as the source file spells it: the UTF-8 bytes of U+2022
      read as Mac Roman (U+201A U+00C4 U+00A2), then a space. */
  const BulletMark := "\U{201A}\U{00C4}\U{00A2} "

  /** `line.startswith('1. ') or any(line.startswith(f"{i}. ") for i in range(1, 10))`. */
  predicate IsNumbered(line: string) {
    StartsWith(line, "1. ") || exists i :: 1 <= i < 10 && StartsWith(line, NatToString(i) + ". ")
  }

  /** `line.replace('**', '<b>').replace('**', '</b>')`. */
  function BoldMarkup(line: string): string {
    ReplaceAll(ReplaceAll(line, "**", "<b>"), "**", "</b>")
  }

  /** The flowables for one line of the markdown. */
  function DatasetLine(raw: string): seq<Flowable> {
    var line := Strip(raw);
    if line == "" then [Spacer(1, 12)]
    else if StartsWith(line, "# ") then [Paragraph(Strip(line[2..]), "CustomTitle"), Spacer(1, 20)]
    else if StartsWith(line, "## ") then [Paragraph(Strip(line[3..]), "CustomHeading"), Spacer(1, 12)]
    else if StartsWith(line, "### ") then [Paragraph(Strip(line[4..]), "CustomSubheading"), Spacer(1, 8)]
    else if StartsWith(line, "#### ") then [Paragraph("<b>" + Strip(line[5..]) + "</b>", "CustomBody"), Spacer(1, 6)]
    else if StartsWith(line, "- ") || StartsWith(line, "* ") then [Paragraph(BulletMark + Strip(line[2..]), "CustomBody")]
    else if IsNumbered(line) then [Paragraph(line, "CustomBody")]
    else [Paragraph(BoldMarkup(line), "CustomBody")]
  }

  /** The footer: a spacer, then the generation date in italics; `date` is
      `datetime.now().strftime('%B %d, %Y')`. */
  function Footer(date: string): seq<Flowable> {
    [Spacer(1, 30), Paragraph("<i>Generated on " + date + "</i>", "Normal")]
  }

  function MarkdownLines(content: string): seq<string> {
    Split(Strip(content), '\n')
  }

  /** The whole story for a markdown text. */
  function DatasetStory(content: string, date: string): seq<Flowable> {
    StoryOf(MarkdownLines(content), DatasetLine) + Footer(date)
  }

  /** What the method leaves behind: the PDF was built, or the failure was
      logged and nothing was raised. */
  datatype PdfLog = Created(filename: string) | LoggedFailure(filename: string, message: string)

  /** `_create_pdf_from_markdown`; `build` stands for `doc.build(story)`
      writing the file. */
  method CreatePdfFromMarkdown(content: string, filename: string, date: string,
                               build: (string, seq<Flowable>) -> Outcome)
    returns (story: seq<Flowable>, log: PdfLog)
    ensures story == DatasetStory(content, date)
    ensures build(filename, story).Pass? ==> log == Created(filename)
    ensures build(filename, story).Fail? ==> log == LoggedFailure(filename, build(filename, story).message)
  {
    story := [];
    var lines := Split(Strip(content), '\n');
    for i := 0 to |lines|
      invariant story == StoryOf(lines[..i], DatasetLine)
    {
      var line := Strip(lines[i]);
      StoryStep(lines, i, DatasetLine);
      if line == "" {
        story := story + [Spacer(1, 12)];
      } else if StartsWith(line, "# ") {
        story := story + [Paragraph(Strip(line[2..]), "CustomTitle"), Spacer(1, 20)];
      } else if StartsWith(line, "## ") {
        story := story + [Paragraph(Strip(line[3..]), "CustomHeading"), Spacer(1, 12)];
      } else if StartsWith(line, "### ") {
        story := story + [Paragraph(Strip(line[4..]), "CustomSubheading"), Spacer(1, 8)];
      } else if StartsWith(line, "#### ") {
        story := story + [Paragraph("<b>" + Strip(line[5..]) + "</b>", "CustomBody"), Spacer(1, 6)];
      } else if StartsWith(line, "- ") || StartsWith(line, "* ") {
        story := story + [Paragraph(BulletMark + Strip(line[2..]), "CustomBody")];
      } else if IsNumbered(line) {
        story := story + [Paragraph(line, "CustomBody")];
      } else {
        var marked := BoldMarkup(line);
        story := story + [Paragraph(marked, "CustomBody")];
      }
    }
    StoryWhole(lines, DatasetLine);
    story := story + Footer(date);
    var outcome := build(filename, story);
    if outcome.Fail? {
      log := LoggedFailure(filename, outcome.message);
    } else {
      log := Created(filename);
    }
  }

  /** A line is numbered exactly when it is a single digit 1-9, a dot and a
      space: "10. " and longer numbers are not. */
  lemma NumberedIff(line: string)
    ensures IsNumbered(line) <==> |line| >= 3 && '1' <= line[0] <= '9' && line[1] == '.' && line[2] == ' '
  {
    if |line| >= 3 && '1' <= line[0] <= '9' && line[1] == '.' && line[2] == ' ' {
      var d := line[0] as int - '0' as int;
      assert NatToString(d) + ". " == [line[0], '.', ' '];
      assert StartsWith(line, NatToString(d) + ". ");
    }
  }

  lemma NotStartsWith(line: string, prefix: string)
    requires |prefix| > 0 && |line| > 0 && line[0] != prefix[0]
    ensures !StartsWith(line, prefix)
  {
    if |prefix| <= |line| {
      assert line[..|prefix|][0] == line[0];
    }
  }

  /** A line numbered 10 or more is a plain paragraph: its text goes
      through the bold replacement instead of being kept as is. */
  lemma TwoDigitNumberIsPlain(raw: string)
    requires var line := Strip(raw); |line| >= 4 && '1' <= line[0] <= '9' && '0' <= line[1] <= '9' && line[2] == '.'
    ensures DatasetLine(raw) == [Paragraph(BoldMarkup(Strip(raw)), "CustomBody")]
  {
    var line := Strip(raw);
    NotStartsWith(line, "# ");
    NotStartsWith(line, "## ");
    NotStartsWith(line, "### ");
    NotStartsWith(line, "#### ");
    NotStartsWith(line, "- ");
    NotStartsWith(line, "* ");
    NumberedIff(line);
  }

  /** No two stars in a row. */
  predicate NoDoubleStar(s: string) {
    forall i :: 0 <= i < |s| - 1 ==> !(s[i] == '*' && s[i + 1] == '*')
  }

  /** After "**" is replaced by "<b>", no "**" is left, and the result
      starts with a star only where the input did. */
  lemma {:induction false} OpenLeavesNoDoubleStar(s: string)
    ensures NoDoubleStar(ReplaceAll(s, "**", "<b>"))
    ensures var r := ReplaceAll(s, "**", "<b>"); |r| > 0 && r[0] == '*' ==> |s| > 0 && s[0] == '*'
    decreases |s|
  {
    var r := ReplaceAll(s, "**", "<b>");
    if |s| < 2 {
    } else if s[..2] == "**" {
      var rest := ReplaceAll(s[2..], "**", "<b>");
      OpenLeavesNoDoubleStar(s[2..]);
      assert r == "<b>" + rest;
      forall i | 0 <= i < |r| - 1 ensures !(r[i] == '*' && r[i + 1] == '*') {
        if i >= 3 {
          assert r[i] == rest[i - 3] && r[i + 1] == rest[i - 2];
        }
      }
    } else {
      var rest := ReplaceAll(s[1..], "**", "<b>");
      OpenLeavesNoDoubleStar(s[1..]);
      assert r == [s[0]] + rest;
      forall i | 0 <= i < |r| - 1 ensures !(r[i] == '*' && r[i + 1] == '*') {
        if i >= 1 {
          assert r[i] == rest[i - 1] && r[i + 1] == rest[i];
        } else if s[0] == '*' {
          assert s[1] != '*';
          assert s[1..][0] == s[1];
        }
      }
    }
  }

  /** Replacing "**" in a text that holds none changes nothing. */
  lemma {:induction false} ReplaceWithoutMatch(s: string, rep: string)
    requires NoDoubleStar(s)
    ensures ReplaceAll(s, "**", rep) == s
    decreases |s|
  {
    if |s| >= 2 {
      assert s[..2] != "**" by {
        assert !(s[0] == '*' && s[1] == '*');
      }
      ReplaceWithoutMatch(s[1..], rep);
      assert [s[0]] + s[1..] == s;
    }
  }

  /** The second replacement never fires: every "**" has become "<b>"
      and no "</b>" is added, so bold text is opened and never closed. */
  lemma BoldNeverCloses(line: string)
    ensures BoldMarkup(line) == ReplaceAll(line, "**", "<b>")
    ensures NoDoubleStar(BoldMarkup(line))
  {
    OpenLeavesNoDoubleStar(line);
    ReplaceWithoutMatch(ReplaceAll(line, "**", "<b>"), "</b>");
  }

  /** The last two elements of the story are always the 30-point spacer
      and the dated paragraph. */
  lemma StoryEndsWithFooter(content: string, date: string)
    ensures var story := DatasetStory(content, date);
      && |story| >= 2
      && story[|story| - 2] == Spacer(1, 30)
      && story[|story| - 1] == Paragraph("<i>Generated on " + date + "</i>", "Normal")
  {
  }
}
