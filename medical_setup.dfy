/** `MedicalRAGSetup` (scripts/medical_rag_setup.py): writes one knowledge
    text per specialty, converts those texts to PDFs, and writes a
    configuration and a setup report describing the sources. The disk is
    modelled as a map from path to text for the files the script reads
    and writes, plus a map from PDF path to the story it was built from. */
module MedicalSetup {
  import opened Common
  import opened Text
  import opened Story
  import opened Grouping

  /** `MedicalDataSource`. */
  datatype MedicalSource = MedicalSource(
    name: string,
    sourceType: string,
    license: string,
    hipaaCompliant: bool,
    contentType: string,
    specialty: string,
    url: Option<string>,
    filePath: Option<string>)

  function SpecialtyOf(source: MedicalSource): string {
    source.specialty
  }

  /** The keys of the `medical_content` dict, in insertion order. */
  const KnowledgeSpecialties: seq<string> := [
    "cardiology", "radiology", "oncology", "emergency_medicine",
    "pharmacology", "clinical_guidelines", "medical_terminology",
    "diagnostic_procedures"
  ]

  /** `base_dir / specialty / f"{specialty}_knowledge.txt"`. */
  function KnowledgePath(baseDir: string, specialty: string): string {
    baseDir + "/" + specialty + "/" + specialty + "_knowledge.txt"
  }

  /** The source recorded for a specialty's knowledge text. */
  function KnowledgeSource(baseDir: string, specialty: string): MedicalSource {
    MedicalSource(Title(specialty) + " Knowledge Base", "medical_textbook", "Educational Use",
                  true, "text", specialty, None, Some(KnowledgePath(baseDir, specialty)))
  }

  function KnowledgeSources(baseDir: string, specialties: seq<string>): seq<MedicalSource>
    decreases |specialties|
  {
    if specialties == [] then []
    else KnowledgeSources(baseDir, specialties[..|specialties| - 1])
         + [KnowledgeSource(baseDir, specialties[|specialties| - 1])]
  }

  /** The disk after writing each specialty's text, one after another. */
  function WrittenFiles(files: map<string, string>, baseDir: string, content: string -> string,
                        specialties: seq<string>): map<string, string>
    decreases |specialties|
  {
    if specialties == [] then files
    else
      var last := specialties[|specialties| - 1];
      WrittenFiles(files, baseDir, content, specialties[..|specialties| - 1])[KnowledgePath(baseDir, last) := content(last)]
  }

  /** `pdf_dir / f"{source.specialty}_medical_knowledge.pdf"`. */
  function PdfPath(baseDir: string, specialty: string): string {
    baseDir + "/pdfs/" + specialty + "_medical_knowledge.pdf"
  }

  /** `source.file_path and Path(source.file_path).exists()`: an empty
      path is false before the disk is asked. */
  predicate Convertible(source: MedicalSource, files: map<string, string>) {
    source.filePath.Some? && source.filePath.value != "" && source.filePath.value in files
  }

  /** The flowables for one line of a knowledge text. */
  function MedicalLine(raw: string): seq<Flowable> {
    var line := Strip(raw);
    if StartsWith(line, "# ") then [Paragraph(line[2..], "Title"), Spacer(1, 12)]
    else if StartsWith(line, "## ") then [Paragraph(line[3..], "Heading1"), Spacer(1, 8)]
    else if StartsWith(line, "### ") then [Paragraph(line[4..], "Heading2"), Spacer(1, 6)]
    else if line != "" then [Paragraph(line, "Normal"), Spacer(1, 4)]
    else []
  }

  /** The story of a whole knowledge text. */
  function MedicalStory(content: string): seq<Flowable> {
    StoryOf(Split(Strip(content), '\n'), MedicalLine)
  }

  /** The PDFs written after converting each source in turn: a later
      source of the same specialty overwrites the earlier one's PDF. */
  function BuiltPdfs(pdfs: map<string, seq<Flowable>>, baseDir: string, sources: seq<MedicalSource>,
                     files: map<string, string>): map<string, seq<Flowable>>
    decreases |sources|
  {
    if sources == [] then pdfs
    else
      var prev := BuiltPdfs(pdfs, baseDir, sources[..|sources| - 1], files);
      var source := sources[|sources| - 1];
      if Convertible(source, files) then
        prev[PdfPath(baseDir, source.specialty) := MedicalStory(files[source.filePath.value])]
      else prev
  }

  /** One entry of the configuration's `data_sources`. */
  datatype SourceEntry = SourceEntry(name: string, specialty: string, license: string, hipaaCompliant: bool)

  datatype Compliance = Compliance(hipaaCompliant: bool, phiHandling: string, auditLogging: bool)

  /** The configuration `create_medical_config` writes as JSON; the four
      `medical_features` flags, all true, are listed by name. */
  datatype SetupConfig = SetupConfig(
    systemType: string,
    specialties: seq<string>,
    compliance: Compliance,
    medicalFeatures: seq<string>,
    dataSources: seq<SourceEntry>)

  function ConfigOf(sources: seq<MedicalSource>): SetupConfig {
    SetupConfig(
      "medical_rag",
      seq(|sources|, i requires 0 <= i < |sources| => sources[i].specialty),
      Compliance(true, "anonymized", true),
      ["medical_terminology", "drug_interaction_checking", "clinical_decision_support", "evidence_based_responses"],
      seq(|sources|, i requires 0 <= i < |sources| =>
        SourceEntry(sources[i].name, sources[i].specialty, sources[i].license, sources[i].hipaaCompliant)))
  }

  /** The report's fixed text, cut at the values it quotes: the
      overview before the number of specialties, before the number of
      sources, before the date and after it; the closing sections before
      and after the number of documents. */
  datatype ReportProse = ReportProse(
    beforeCovered: string,
    beforeTotal: string,
    beforeDate: string,
    afterDate: string,
    beforeSize: string,
    afterSize: string)

  /** The report's opening, up to the specialty sections; `date` is the
      formatted setup time. */
  function ReportHead(covered: nat, total: nat, date: string, prose: ReportProse): string {
    prose.beforeCovered + NatToString(covered) + prose.beforeTotal + NatToString(total)
    + prose.beforeDate + date + prose.afterDate
  }

  function SectionHeading(specialty: string): string {
    "\n### " + Title(specialty) + "\n"
  }

  function BulletLine(name: string): string {
    "- " + name + "\n"
  }

  /** One bullet per source name, in order. */
  function BulletList(sources: seq<MedicalSource>): string
    decreases |sources|
  {
    if sources == [] then ""
    else BulletList(sources[..|sources| - 1]) + BulletLine(sources[|sources| - 1].name)
  }

  /** The specialty sections for the given keys, each listing its group. */
  function SpecialtySections(order: seq<string>, sources: seq<MedicalSource>): string
    decreases |order|
  {
    if order == [] then ""
    else
      var k := order[|order| - 1];
      SpecialtySections(order[..|order| - 1], sources)
      + SectionHeading(k) + BulletList(Members(sources, SpecialtyOf, k))
  }

  const OverviewBeforeCovered :=
    "\n# Medical RAG System Setup Report\n\n## System Overview\n"
    + "- **System Type**: Medical-focused Retrieval-Augmented Generation\n"
    + "- **Specialties Covered**: "
  const OverviewBeforeTotal := "\n- **Total Knowledge Sources**: "
  const OverviewBeforeDate := "\n- **HIPAA Compliance**: Enabled\n- **Setup Date**: "
  const OverviewAfterDate := "\n\n## Medical Specialties Included\n"

  const ClosingBeforeSize :=
    "\n\n## Compliance and Safety Features\n"
    + "- **HIPAA Compliance**: All data sources are HIPAA-compliant\n"
    + "- **PHI Handling**: No personal health information included\n"
    + "- **Data Sources**: Public medical literature and guidelines only\n"
    + "- **Audit Logging**: Enabled for all medical queries\n"
    + "- **Evidence-Based**: Responses based on peer-reviewed sources\n"
    + "\n## Technical Specifications\n"
    + "- **Knowledge Base Size**: "

  const ClosingAfterSize :=
    " specialized documents\n"
    + "- **Content Types**: Medical textbooks, clinical guidelines, diagnostic procedures\n"
    + "- **Terminology Support**: Comprehensive medical terminology database\n"
    + "- **Update Frequency**: Quarterly updates recommended\n"
    + "\n## Usage Guidelines\n"
    + "1. **Medical Queries**: System optimized for medical terminology and clinical scenarios\n"
    + "2. **Evidence-Based Responses**: All responses include source attribution\n"
    + "3. **Clinical Decision Support**: Provides information to support, not replace, clinical judgment\n"
    + "4. **Continuing Education**: Suitable for medical education and professional development\n"
    + "\n## Next Steps\n"
    + "1. Upload generated PDFs to RAG system\n"
    + "2. Configure medical-specific prompts and responses\n"
    + "3. Test with medical terminology and clinical scenarios\n"
    + "4. Implement user access controls for healthcare professionals\n"
    + "5. Set up audit logging for compliance tracking\n"
    + "\n## Disclaimer\n"
    + "This system is designed for educational and informational purposes only. \n"
    + "It should not be used as a substitute for professional medical advice, \n"
    + "diagnosis, or treatment. Always consult qualified healthcare professionals \n"
    + "for medical decisions.\n"

  /** The closing sections around the number of documents. */
  function ReportTail(total: nat, prose: ReportProse): string {
    prose.beforeSize + NatToString(total) + prose.afterSize
  }

  /** The report text as the script writes it. */
  const SetupReportProse := ReportProse(OverviewBeforeCovered, OverviewBeforeTotal, OverviewBeforeDate,
                                        OverviewAfterDate, ClosingBeforeSize, ClosingAfterSize)

  /** The number of distinct specialties, `len(set(...))`. */
  function CoveredCount(sources: seq<MedicalSource>): nat {
    |KeySet(sources, SpecialtyOf)|
  }

  /** The whole setup report. */
  function MedicalReport(sources: seq<MedicalSource>, date: string, prose: ReportProse): string {
    ReportHead(CoveredCount(sources), |sources|, date, prose)
    + SpecialtySections(KeysInOrder(sources, SpecialtyOf), sources)
    + ReportTail(|sources|, prose)
  }

  function ConfigPath(baseDir: string): string {
    baseDir + "/medical_rag_config.json"
  }

  function ReportPath(baseDir: string): string {
    baseDir + "/medical_rag_setup_report.md"
  }

  /** `MedicalRAGSetup`: `files` holds the text files on disk, `pdfs` the
      PDFs this setup has built and `config` the configuration it wrote;
      `prose` is the report's fixed text. */
  class MedicalRagSetup {
    const baseDir: string
    const prose: ReportProse
    var medicalSources: seq<MedicalSource>
    var files: map<string, string>
    var pdfs: map<string, seq<Flowable>>
    var config: Option<SetupConfig>

    constructor (baseDir: string, disk: map<string, string>)
      ensures this.baseDir == baseDir && medicalSources == []
      ensures files == disk && pdfs == map[] && config == None
      ensures prose == SetupReportProse
    {
      this.baseDir := baseDir;
      prose := SetupReportProse;
      medicalSources := [];
      files := disk;
      pdfs := map[];
      config := None;
    }

    /** `create_medical_knowledge_base`; `content` stands for the
        `_create_*_content` methods, which return fixed texts. */
    method CreateMedicalKnowledgeBase(content: string -> string)
      modifies this
      ensures medicalSources == old(medicalSources) + KnowledgeSources(baseDir, KnowledgeSpecialties)
      ensures files == WrittenFiles(old(files), baseDir, content, KnowledgeSpecialties)
      ensures pdfs == old(pdfs) && config == old(config)
    {
      WriteKnowledgeTexts(KnowledgeSpecialties, content);
    }

    /** The loop over `medical_content.items()`: each specialty's text is
        written and its source appended. */
    method WriteKnowledgeTexts(specialties: seq<string>, content: string -> string)
      modifies this
      ensures medicalSources == old(medicalSources) + KnowledgeSources(baseDir, specialties)
      ensures files == WrittenFiles(old(files), baseDir, content, specialties)
      ensures pdfs == old(pdfs) && config == old(config)
    {
      for i := 0 to |specialties|
        invariant medicalSources == old(medicalSources) + KnowledgeSources(baseDir, specialties[..i])
        invariant files == WrittenFiles(old(files), baseDir, content, specialties[..i])
        invariant pdfs == old(pdfs) && config == old(config)
      {
        var specialty := specialties[i];
        var textFile := baseDir + "/" + specialty + "/" + specialty + "_knowledge.txt";
        files := files[textFile := content(specialty)];
        var source := MedicalSource(Title(specialty) + " Knowledge Base", "medical_textbook",
                                    "Educational Use", true, "text", specialty, None, Some(textFile));
        medicalSources := medicalSources + [source];
        assert specialties[..i + 1][..i] == specialties[..i];
      }
      assert specialties[..|specialties|] == specialties;
    }

    /** The story of one knowledge text, built line by line. */
    static method StoryOfText(content: string) returns (story: seq<Flowable>)
      ensures story == MedicalStory(content)
    {
      story := [];
      var lines := Split(Strip(content), '\n');
      for j := 0 to |lines|
        invariant story == StoryOf(lines[..j], MedicalLine)
      {
        var line := Strip(lines[j]);
        StoryStep(lines, j, MedicalLine);
        if StartsWith(line, "# ") {
          story := story + [Paragraph(line[2..], "Title"), Spacer(1, 12)];
        } else if StartsWith(line, "## ") {
          story := story + [Paragraph(line[3..], "Heading1"), Spacer(1, 8)];
        } else if StartsWith(line, "### ") {
          story := story + [Paragraph(line[4..], "Heading2"), Spacer(1, 6)];
        } else if line != "" {
          story := story + [Paragraph(line, "Normal"), Spacer(1, 4)];
        }
      }
      StoryWhole(lines, MedicalLine);
    }

    /** `create_medical_pdfs`. */
    method CreateMedicalPdfs()
      modifies this
      ensures pdfs == BuiltPdfs(old(pdfs), baseDir, medicalSources, files)
      ensures medicalSources == old(medicalSources) && files == old(files) && config == old(config)
    {
      pdfs := BuildPdfs(pdfs, baseDir, medicalSources, files);
    }

    /** The conversion loop over the sources. */
    static method BuildPdfs(pdfs0: map<string, seq<Flowable>>, baseDir: string, sources: seq<MedicalSource>,
                            files: map<string, string>) returns (built: map<string, seq<Flowable>>)
      ensures built == BuiltPdfs(pdfs0, baseDir, sources, files)
    {
      built := pdfs0;
      for i := 0 to |sources|
        invariant built == BuiltPdfs(pdfs0, baseDir, sources[..i], files)
      {
        var source := sources[i];
        BuiltPdfsStep(pdfs0, baseDir, sources, files, i);
        if source.filePath.Some? && source.filePath.value != "" && source.filePath.value in files {
          var content := files[source.filePath.value];
          var pdfPath := baseDir + "/pdfs/" + source.specialty + "_medical_knowledge.pdf";
          var story := StoryOfText(content);
          built := built[pdfPath := story];
        }
      }
      assert sources[..|sources|] == sources;
    }

    /** `create_medical_config`. */
    method CreateMedicalConfig()
      modifies this
      ensures config == Some(ConfigOf(medicalSources))
      ensures medicalSources == old(medicalSources) && files == old(files) && pdfs == old(pdfs)
    {
      config := Some(ConfigOf(medicalSources));
    }

    /** `generate_medical_report`: the report is returned and written to
        the report file. */
    method GenerateMedicalReport(date: string) returns (report: string)
      modifies this
      ensures report == MedicalReport(medicalSources, date, prose)
      ensures files == old(files)[ReportPath(baseDir) := report]
      ensures medicalSources == old(medicalSources) && pdfs == old(pdfs) && config == old(config)
    {
      report := ReportText(medicalSources, date, prose);
      files := files[baseDir + "/medical_rag_setup_report.md" := report];
    }

    /** The report text: the overview, the specialty sections filled from
        the grouping dict, and the closing sections. */
    static method ReportText(sources: seq<MedicalSource>, date: string, prose: ReportProse) returns (report: string)
      ensures report == MedicalReport(sources, date, prose)
    {
      report := ReportHead(|KeySet(sources, SpecialtyOf)|, |sources|, date, prose);
      var order, specialties := GroupBy(sources, SpecialtyOf);
      report := AppendSections(report, sources, order, specialties);
      report := report + ReportTail(|sources|, prose);
    }

    /** The loop over the grouping dict: a heading per specialty, then a
        bullet per source name in its group. */
    static method AppendSections(text: string, sources: seq<MedicalSource>, order: seq<string>,
                                 specialties: map<string, seq<MedicalSource>>) returns (report: string)
      requires forall k :: k in order ==> k in specialties && specialties[k] == Members(sources, SpecialtyOf, k)
      ensures report == text + SpecialtySections(order, sources)
    {
      report := text;
      ghost var sections := "";
      for i := 0 to |order|
        invariant sections == SpecialtySections(order[..i], sources)
        invariant report == text + sections
      {
        var specialty := order[i];
        SectionsStep(order, sources, i);
        var group := specialties[specialty];
        report := report + SectionHeading(specialty);
        report := AppendBullets(report, group);
        AppendThree(text, sections, SectionHeading(specialty), BulletList(group));
        sections := sections + SectionHeading(specialty) + BulletList(group);
      }
      assert order[..|order|] == order;
    }

    /** The inner loop: one bullet per source name of a group. */
    static method AppendBullets(text: string, group: seq<MedicalSource>) returns (report: string)
      ensures report == text + BulletList(group)
    {
      report := text;
      ghost var bullets := "";
      for j := 0 to |group|
        invariant bullets == BulletList(group[..j])
        invariant report == text + bullets
      {
        BulletStep(group, j);
        report := report + BulletLine(group[j].name);
        bullets := bullets + BulletLine(group[j].name);
      }
      assert group[..|group|] == group;
    }
  }

  lemma AppendThree(a: string, b: string, c: string, d: string)
    ensures a + b + c + d == a + (b + c + d)
  {
  }

  lemma SectionsStep(order: seq<string>, sources: seq<MedicalSource>, i: nat)
    requires i < |order|
    ensures SpecialtySections(order[..i + 1], sources)
      == SpecialtySections(order[..i], sources) + SectionHeading(order[i])
         + BulletList(Members(sources, SpecialtyOf, order[i]))
  {
    assert order[..i + 1][..i] == order[..i];
  }

  lemma BulletStep(group: seq<MedicalSource>, j: nat)
    requires j < |group|
    ensures BulletList(group[..j + 1]) == BulletList(group[..j]) + BulletLine(group[j].name)
  {
    assert group[..j + 1][..j] == group[..j];
  }

  /** Two specialties never share a knowledge path. */
  lemma KnowledgePathInjective(baseDir: string, s: string, t: string)
    ensures KnowledgePath(baseDir, s) == KnowledgePath(baseDir, t) ==> s == t
  {
    if KnowledgePath(baseDir, s) == KnowledgePath(baseDir, t) {
      var p := KnowledgePath(baseDir, s);
      assert |s| == |t|;
      assert p[|baseDir| + 1..|baseDir| + 1 + |s|] == s;
      assert KnowledgePath(baseDir, t)[|baseDir| + 1..|baseDir| + 1 + |t|] == t;
    }
  }

  /** Two specialties never share a PDF path. */
  lemma PdfPathInjective(baseDir: string, s: string, t: string)
    ensures PdfPath(baseDir, s) == PdfPath(baseDir, t) ==> s == t
  {
    if PdfPath(baseDir, s) == PdfPath(baseDir, t) {
      var p := PdfPath(baseDir, s);
      assert |s| == |t|;
      assert p[|baseDir| + 6..|baseDir| + 6 + |s|] == s;
      assert PdfPath(baseDir, t)[|baseDir| + 6..|baseDir| + 6 + |t|] == t;
    }
  }

  /** One source per specialty, in list order, each naming its specialty
      and its knowledge text. */
  lemma {:induction false} KnowledgeSourcesShape(baseDir: string, specialties: seq<string>)
    ensures |KnowledgeSources(baseDir, specialties)| == |specialties|
    ensures forall i :: 0 <= i < |specialties| ==>
      KnowledgeSources(baseDir, specialties)[i] == KnowledgeSource(baseDir, specialties[i])
    decreases |specialties|
  {
    if specialties != [] {
      KnowledgeSourcesShape(baseDir, specialties[..|specialties| - 1]);
    }
  }

  /** After the writes, each specialty's path holds its text, other paths
      keep their contents, and no other path appears. */
  lemma {:induction false} WrittenFilesHold(files: map<string, string>, baseDir: string,
                                            content: string -> string, specialties: seq<string>)
    ensures forall s :: s in specialties ==>
      KnowledgePath(baseDir, s) in WrittenFiles(files, baseDir, content, specialties)
      && WrittenFiles(files, baseDir, content, specialties)[KnowledgePath(baseDir, s)] == content(s)
    ensures forall p :: p in files && (forall s :: s in specialties ==> p != KnowledgePath(baseDir, s)) ==>
      p in WrittenFiles(files, baseDir, content, specialties)
      && WrittenFiles(files, baseDir, content, specialties)[p] == files[p]
    ensures forall p :: p in WrittenFiles(files, baseDir, content, specialties) ==>
      p in files || exists s :: s in specialties && p == KnowledgePath(baseDir, s)
    decreases |specialties|
  {
    if specialties != [] {
      var init := specialties[..|specialties| - 1];
      var last := specialties[|specialties| - 1];
      WrittenFilesHold(files, baseDir, content, init);
      forall s | s in specialties
        ensures KnowledgePath(baseDir, s) in WrittenFiles(files, baseDir, content, specialties)
          && WrittenFiles(files, baseDir, content, specialties)[KnowledgePath(baseDir, s)] == content(s)
      {
        KnowledgePathInjective(baseDir, s, last);
        if s != last {
          assert s in init;
        }
      }
      forall p | p in WrittenFiles(files, baseDir, content, specialties)
        ensures p in files || exists s :: s in specialties && p == KnowledgePath(baseDir, s)
      {
        if p != KnowledgePath(baseDir, last) {
          assert p in WrittenFiles(files, baseDir, content, init);
          if p !in files {
            var s :| s in init && p == KnowledgePath(baseDir, s);
            assert s in specialties;
          }
        }
      }
    }
  }

  /** One more source: its PDF is written if it is converted. */
  lemma BuiltPdfsStep(pdfs: map<string, seq<Flowable>>, baseDir: string,
                      sources: seq<MedicalSource>, files: map<string, string>, i: nat)
    requires i < |sources|
    ensures BuiltPdfs(pdfs, baseDir, sources[..i + 1], files)
      == if Convertible(sources[i], files)
         then BuiltPdfs(pdfs, baseDir, sources[..i], files)[PdfPath(baseDir, sources[i].specialty)
                := MedicalStory(files[sources[i].filePath.value])]
         else BuiltPdfs(pdfs, baseDir, sources[..i], files)
  {
    assert sources[..i + 1][..i] == sources[..i];
  }

  /** A converted source whose specialty no later source shares leaves
      the story of its text as its specialty's PDF. */
  lemma {:induction false} BuiltPdfsLast(pdfs: map<string, seq<Flowable>>, baseDir: string,
                                         sources: seq<MedicalSource>, files: map<string, string>, i: nat)
    requires i < |sources| && Convertible(sources[i], files)
    requires forall j :: i < j < |sources| ==> sources[j].specialty != sources[i].specialty
    ensures PdfPath(baseDir, sources[i].specialty) in BuiltPdfs(pdfs, baseDir, sources, files)
    ensures BuiltPdfs(pdfs, baseDir, sources, files)[PdfPath(baseDir, sources[i].specialty)]
      == MedicalStory(files[sources[i].filePath.value])
    decreases |sources|
  {
    var init := sources[..|sources| - 1];
    var last := sources[|sources| - 1];
    if i < |init| {
      var key := PdfPath(baseDir, sources[i].specialty);
      var prev := BuiltPdfs(pdfs, baseDir, init, files);
      assert init[i] == sources[i];
      forall j | i < j < |init| ensures init[j].specialty != init[i].specialty {
        assert init[j] == sources[j];
      }
      BuiltPdfsLast(pdfs, baseDir, init, files, i);
      PdfPathInjective(baseDir, last.specialty, sources[i].specialty);
      BuiltPdfsKeep(pdfs, baseDir, sources, files, key);
    }
  }

  /** Converting the last source leaves every other PDF as it was. */
  lemma BuiltPdfsKeep(pdfs: map<string, seq<Flowable>>, baseDir: string,
                      sources: seq<MedicalSource>, files: map<string, string>, key: string)
    requires sources != [] && key != PdfPath(baseDir, sources[|sources| - 1].specialty)
    requires key in BuiltPdfs(pdfs, baseDir, sources[..|sources| - 1], files)
    ensures key in BuiltPdfs(pdfs, baseDir, sources, files)
    ensures BuiltPdfs(pdfs, baseDir, sources, files)[key] == BuiltPdfs(pdfs, baseDir, sources[..|sources| - 1], files)[key]
  {
  }

  /** A source that is not converted adds no PDF: every PDF built belongs
      to a converted source's specialty or was there before. */
  lemma {:induction false} BuiltPdfsOnlyConverted(pdfs: map<string, seq<Flowable>>, baseDir: string,
                                                  sources: seq<MedicalSource>, files: map<string, string>)
    ensures forall p :: p in BuiltPdfs(pdfs, baseDir, sources, files) ==>
      p in pdfs || exists i :: 0 <= i < |sources| && Convertible(sources[i], files)
                               && p == PdfPath(baseDir, sources[i].specialty)
    decreases |sources|
  {
    if sources != [] {
      var init := sources[..|sources| - 1];
      BuiltPdfsOnlyConverted(pdfs, baseDir, init, files);
      forall p | p in BuiltPdfs(pdfs, baseDir, sources, files)
        ensures p in pdfs || exists i :: 0 <= i < |sources| && Convertible(sources[i], files)
                                         && p == PdfPath(baseDir, sources[i].specialty)
      {
        if p in BuiltPdfs(pdfs, baseDir, init, files) && p !in pdfs {
          var i :| 0 <= i < |init| && Convertible(init[i], files) && p == PdfPath(baseDir, init[i].specialty);
          assert sources[i] == init[i];
        }
      }
    }
  }

  /** The knowledge base lists each specialty once. */
  lemma KnowledgeSpecialtiesDistinct()
    ensures Distinct(KnowledgeSpecialties)
  {
  }

  /** Writing one text per distinct specialty after any earlier sources
      and then converting them all gives each of those specialties a PDF
      whose story is that of its text. */
  lemma PdfsAfterWrites(pdfs: map<string, seq<Flowable>>, baseDir: string, prior: seq<MedicalSource>,
                        files: map<string, string>, content: string -> string, specialties: seq<string>, k: nat)
    requires Distinct(specialties) && k < |specialties|
    ensures var sources := prior + KnowledgeSources(baseDir, specialties);
      var disk := WrittenFiles(files, baseDir, content, specialties);
      var built := BuiltPdfs(pdfs, baseDir, sources, disk);
      && PdfPath(baseDir, specialties[k]) in built
      && built[PdfPath(baseDir, specialties[k])] == MedicalStory(content(specialties[k]))
  {
    var spec := specialties[k];
    var added := KnowledgeSources(baseDir, specialties);
    var sources := prior + added;
    var disk := WrittenFiles(files, baseDir, content, specialties);
    KnowledgeSourcesShape(baseDir, specialties);
    WrittenFilesHold(files, baseDir, content, specialties);
    var i := |prior| + k;
    assert sources[i] == KnowledgeSource(baseDir, spec);
    assert spec in specialties;
    assert Convertible(sources[i], disk);
    forall j | i < j < |sources| ensures sources[j].specialty != sources[i].specialty {
      assert sources[j] == added[j - |prior|];
      assert specialties[j - |prior|] != specialties[k];
    }
    BuiltPdfsLast(pdfs, baseDir, sources, disk, i);
  }

  /** Running the knowledge base and then the PDF conversion, whatever
      sources came before, gives every specialty a PDF whose story is that
      of its knowledge text. */
  lemma PdfsAfterKnowledgeBase(pdfs: map<string, seq<Flowable>>, baseDir: string, prior: seq<MedicalSource>,
                               files: map<string, string>, content: string -> string, k: nat)
    requires k < |KnowledgeSpecialties|
    ensures var sources := prior + KnowledgeSources(baseDir, KnowledgeSpecialties);
      var disk := WrittenFiles(files, baseDir, content, KnowledgeSpecialties);
      var built := BuiltPdfs(pdfs, baseDir, sources, disk);
      && PdfPath(baseDir, KnowledgeSpecialties[k]) in built
      && built[PdfPath(baseDir, KnowledgeSpecialties[k])] == MedicalStory(content(KnowledgeSpecialties[k]))
  {
    KnowledgeSpecialtiesDistinct();
    PdfsAfterWrites(pdfs, baseDir, prior, files, content, KnowledgeSpecialties, k);
  }

  /** The number of lines that are not blank once stripped. */
  function NonBlankCount(lines: seq<string>): nat
    decreases |lines|
  {
    if lines == [] then 0
    else NonBlankCount(lines[..|lines| - 1]) + (if Strip(lines[|lines| - 1]) != "" then 1 else 0)
  }

  /** A blank line adds nothing; any other line adds a paragraph followed
      by a spacer. */
  lemma MedicalLineShape(raw: string)
    ensures Strip(raw) == "" ==> MedicalLine(raw) == []
    ensures Strip(raw) != "" ==>
      (|MedicalLine(raw)| == 2 && MedicalLine(raw)[0].Paragraph? && MedicalLine(raw)[1].Spacer?)
  {
    var line := Strip(raw);
    if line == "" {
      assert !StartsWith(line, "# ") && !StartsWith(line, "## ") && !StartsWith(line, "### ");
    }
  }

  /** A non-blank line that does not start with "#" is a normal paragraph
      of the whole stripped line. */
  lemma PlainLineIsNormal(raw: string)
    requires Strip(raw) != "" && Strip(raw)[0] != '#'
    ensures MedicalLine(raw) == [Paragraph(Strip(raw), "Normal"), Spacer(1, 4)]
  {
    var line := Strip(raw);
    NotStartsWithHash(line, "# ");
    NotStartsWithHash(line, "## ");
    NotStartsWithHash(line, "### ");
  }

  lemma NotStartsWithHash(line: string, marker: string)
    requires |line| > 0 && line[0] != '#' && |marker| > 0 && marker[0] == '#'
    ensures !StartsWith(line, marker)
  {
    if |marker| <= |line| {
      assert line[..|marker|][0] == line[0];
    }
  }

  /** Each non-blank line adds exactly two story elements and blank lines
      add none. */
  lemma {:induction false} StoryLength(lines: seq<string>)
    ensures |StoryOf(lines, MedicalLine)| == 2 * NonBlankCount(lines)
    decreases |lines|
  {
    if lines != [] {
      StoryLength(lines[..|lines| - 1]);
      MedicalLineShape(lines[|lines| - 1]);
    }
  }

  /** The configuration has one specialty and one data-source entry per
      source, in source order. */
  lemma ConfigListsSources(sources: seq<MedicalSource>)
    ensures var c := ConfigOf(sources);
      && |c.specialties| == |sources| && |c.dataSources| == |sources|
      && (forall i :: 0 <= i < |sources| ==> c.specialties[i] == sources[i].specialty)
      && (forall i :: 0 <= i < |sources| ==> c.dataSources[i].name == sources[i].name
                                             && c.dataSources[i].specialty == sources[i].specialty)
  {
  }

  /** After the knowledge base on a fresh setup, the configuration lists
      exactly the supported specialties, in order. */
  lemma ConfigAfterKnowledgeBase(baseDir: string)
    ensures ConfigOf(KnowledgeSources(baseDir, KnowledgeSpecialties)).specialties == KnowledgeSpecialties
  {
    KnowledgeSourcesShape(baseDir, KnowledgeSpecialties);
  }

  /** "Specialties Covered" is the number of specialty sections. */
  lemma CoveredIsSectionCount(sources: seq<MedicalSource>)
    ensures CoveredCount(sources) == |KeysInOrder(sources, SpecialtyOf)|
  {
    DistinctKeysCount(sources, SpecialtyOf);
  }

  /** A member of the group has its bullet in the group's list. */
  lemma {:induction false} BulletListed(group: seq<MedicalSource>, x: MedicalSource)
    requires x in group
    ensures Contains(BulletList(group), BulletLine(x.name))
    decreases |group|
  {
    var init := group[..|group| - 1];
    var last := group[|group| - 1];
    if x == last {
      ContainsSuffix(BulletList(init), BulletLine(x.name));
    } else {
      assert x in init;
      BulletListed(init, x);
      ContainsInPrefix(BulletList(init), BulletLine(last.name), BulletLine(x.name));
    }
  }

  /** Each listed specialty's section holds its group's bullets. */
  lemma {:induction false} SectionListed(order: seq<string>, sources: seq<MedicalSource>, k: string)
    requires k in order
    ensures Contains(SpecialtySections(order, sources), BulletList(Members(sources, SpecialtyOf, k)))
    decreases |order|
  {
    var init := order[..|order| - 1];
    var last := order[|order| - 1];
    var prev := SpecialtySections(init, sources);
    if k == last {
      ContainsSuffix(prev + SectionHeading(k), BulletList(Members(sources, SpecialtyOf, k)));
    } else {
      assert k in init;
      SectionListed(init, sources, k);
      ContainsInPrefix(prev, SectionHeading(last), BulletList(Members(sources, SpecialtyOf, k)));
      ContainsInPrefix(prev + SectionHeading(last), BulletList(Members(sources, SpecialtyOf, last)),
                       BulletList(Members(sources, SpecialtyOf, k)));
    }
  }

  /** Every source's name is listed in the report, under its specialty's
      section. */
  lemma ReportListsEverySource(sources: seq<MedicalSource>, date: string, prose: ReportProse, i: nat)
    requires i < |sources|
    ensures Contains(MedicalReport(sources, date, prose), BulletLine(sources[i].name))
  {
    var x := sources[i];
    var order := KeysInOrder(sources, SpecialtyOf);
    var group := Members(sources, SpecialtyOf, x.specialty);
    KeysComplete(sources, SpecialtyOf);
    assert SpecialtyOf(sources[i]) == x.specialty;
    MembersPartition(sources, SpecialtyOf);
    assert x in group;
    BulletListed(group, x);
    SectionListed(order, sources, x.specialty);
    ContainsTransitive(SpecialtySections(order, sources), BulletList(group), BulletLine(x.name));
    ContainsWithin(ReportHead(CoveredCount(sources), |sources|, date, prose), SpecialtySections(order, sources),
                   ReportTail(|sources|, prose), BulletLine(x.name));
  }
}
