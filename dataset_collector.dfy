/** `DatasetCollector` (scripts/dataset_collector.py): the collector keeps a
    list of data sources; downloading a URL into a directory bumps the
    source's file and byte counters; the metadata file lists every source,
    and the collection report groups the sources by category. */
module DatasetCollector {
  import opened Common
  import opened Text
  import opened Grouping

  /** The downloaded bytes of a file. */
  type Bytes = seq<bv8>

  /** The `DataSource` dataclass: the six descriptive fields never change
      after construction; the last three are updated by downloads. */
  class DataSource {
    const name: string
    const url: string
    const license: string
    const contentType: string
    const category: string
    const description: string
    var lastUpdated: Option<string>
    var fileCount: nat
    var totalSize: nat

    constructor (name: string, url: string, license: string, contentType: string,
                 category: string, description: string)
      ensures this.name == name && this.url == url && this.license == license
      ensures this.contentType == contentType && this.category == category
      ensures this.description == description
      ensures lastUpdated == None && fileCount == 0 && totalSize == 0
    {
      this.name := name;
      this.url := url;
      this.license := license;
      this.contentType := contentType;
      this.category := category;
      this.description := description;
      lastUpdated := None;
      fileCount := 0;
      totalSize := 0;
    }
  }

  /** The three fields a download updates. */
  datatype Counters = Counters(lastUpdated: Option<string>, fileCount: nat, totalSize: nat)

  const NoDownloads := Counters(None, 0, 0)

  function CountersOf(s: DataSource): Counters
    reads s
  {
    Counters(s.lastUpdated, s.fileCount, s.totalSize)
  }

  /** A source's nine fields at one moment, as the metadata file and the
      report read them. */
  datatype SourceRecord = SourceRecord(
    name: string, url: string, license: string, contentType: string,
    category: string, description: string,
    lastUpdated: Option<string>, fileCount: nat, totalSize: nat)

  function RecordOf(s: DataSource): SourceRecord
    reads s
  {
    SourceRecord(s.name, s.url, s.license, s.contentType, s.category, s.description,
                 s.lastUpdated, s.fileCount, s.totalSize)
  }

  /** The records of a list of sources, in list order. */
  function Records(sources: seq<DataSource>): seq<SourceRecord>
    reads sources
    decreases |sources|
  {
    if sources == [] then []
    else Records(sources[..|sources| - 1]) + [RecordOf(sources[|sources| - 1])]
  }

  // ---------------------------------------------------------------------
  // Download file names

  /** `url.split('/')[-1]`: the text after the last '/', or the whole
      URL when it holds none. */
  function LastSegment(url: string): string
    decreases |url|
  {
    if url == [] then ""
    else if url[|url| - 1] == '/' then ""
    else LastSegment(url[..|url| - 1]) + [url[|url| - 1]]
  }

  /** `filename.endswith(('.pdf', '.html', '.txt', '.md'))`. */
  predicate HasKnownExtension(name: string) {
    EndsWith(name, ".pdf") || EndsWith(name, ".html") || EndsWith(name, ".txt") || EndsWith(name, ".md")
  }

  /** The name a URL is saved under: its last segment, with ".pdf" added
      when it does not already end in a known extension. */
  function DownloadFilename(url: string): string {
    var segment := LastSegment(url);
    if HasKnownExtension(segment) then segment else segment + ".pdf"
  }

  /** The path a URL is saved to in a directory. */
  function DownloadPath(dir: string, url: string): string {
    dir + "/" + DownloadFilename(url)
  }

  /** The last segment holds no '/'. */
  lemma {:induction false} LastSegmentNoSlash(url: string)
    ensures '/' !in LastSegment(url)
    decreases |url|
  {
    if url != [] && url[|url| - 1] != '/' {
      LastSegmentNoSlash(url[..|url| - 1]);
      var prev := LastSegment(url[..|url| - 1]);
      var segment := prev + [url[|url| - 1]];
      forall c | c in segment ensures c != '/' {
        if c != url[|url| - 1] {
          assert c in prev;
        }
      }
    }
  }

  /** The last segment ends the URL, and is the whole URL or comes right
      after a '/'. */
  lemma {:induction false} LastSegmentSuffix(url: string)
    ensures var segment := LastSegment(url);
      && |segment| <= |url|
      && url[|url| - |segment|..] == segment
      && (|segment| == |url| || url[|url| - |segment| - 1] == '/')
    decreases |url|
  {
    if url != [] && url[|url| - 1] != '/' {
      var init := url[..|url| - 1];
      LastSegmentSuffix(init);
      SnocSuffix(init, url[|url| - 1], |LastSegment(init)|);
      assert init + [url[|url| - 1]] == url;
    }
  }

  /** A suffix of `a`, extended by `c`, is the matching suffix of `a + [c]`,
      preceded by the same character. */
  lemma SnocSuffix(a: string, c: char, k: nat)
    requires k <= |a|
    ensures (a + [c])[|a| - k..] == a[|a| - k..] + [c]
    ensures k < |a| ==> (a + [c])[|a| - k - 1] == a[|a| - k - 1]
  {
  }

  /** A text without '/' is its own last segment. */
  lemma {:induction false} LastSegmentWithoutSlash(s: string)
    requires '/' !in s
    ensures LastSegment(s) == s
    decreases |s|
  {
    if s != [] {
      var init := s[..|s| - 1];
      assert '/' !in init by {
        forall c | c in init ensures c != '/' {
          assert c in s;
        }
      }
      LastSegmentWithoutSlash(init);
      assert init + [s[|s| - 1]] == s;
    }
  }

  lemma EndsWithAdded(s: string, ext: string)
    ensures EndsWith(s + ext, ext)
  {
    assert (s + ext)[|s + ext| - |ext|..] == ext;
  }

  /** The file name is the text after the URL's last "/" (the whole URL
      when it has none), extended by ".pdf" exactly when that text has none
      of the four known extensions; it always has one, and never holds a
      "/". */
  lemma DownloadFilenameShape(url: string)
    ensures var segment := LastSegment(url);
      && '/' !in segment
      && EndsWith(url, segment)
      && (|segment| == |url| || url[|url| - |segment| - 1] == '/')
      && (DownloadFilename(url) == segment <==> HasKnownExtension(segment))
      && (!HasKnownExtension(segment) ==> DownloadFilename(url) == segment + ".pdf")
    ensures HasKnownExtension(DownloadFilename(url))
    ensures '/' !in DownloadFilename(url)
  {
    var segment := LastSegment(url);
    LastSegmentNoSlash(url);
    LastSegmentSuffix(url);
    EndsWithAdded(segment, ".pdf");
    if !HasKnownExtension(segment) {
      assert DownloadFilename(url) != segment by {
        assert |DownloadFilename(url)| == |segment| + 4;
      }
      assert DownloadFilename(url) == segment + ".pdf";
      forall c | c in segment + ".pdf" ensures c != '/' {
        if c !in segment {
          assert c in ".pdf";
        }
      }
    }
  }

  /** A saved file's name derives to itself: deriving the name again
      changes nothing. */
  lemma DownloadFilenameIdempotent(url: string)
    ensures DownloadFilename(DownloadFilename(url)) == DownloadFilename(url)
  {
    var name := DownloadFilename(url);
    DownloadFilenameShape(url);
    LastSegmentWithoutSlash(name);
  }

  // ---------------------------------------------------------------------
  // Downloads on values

  /** One `_download_file` on the files on disk and the source's counters:
      an existing file is left alone, a failed request changes nothing, a
      fetched body is written and counted. */
  function Download(files: map<string, Bytes>, c: Counters, path: string,
                    response: Result<Bytes>, now: string): (map<string, Bytes>, Counters)
  {
    if path in files then (files, c)
    else match response
      case Err(_) => (files, c)
      case Ok(content) =>
        (files[path := content], Counters(Some(now), c.fileCount + 1, c.totalSize + |content|))
  }

  /** `for url in urls: self._download_file(url, directory, source)`. */
  function DownloadAll(files: map<string, Bytes>, c: Counters, dir: string, urls: seq<string>,
                       fetch: string -> Result<Bytes>, now: string): (map<string, Bytes>, Counters)
    decreases |urls|
  {
    if urls == [] then (files, c)
    else
      var before := DownloadAll(files, c, dir, urls[..|urls| - 1], fetch, now);
      var url := urls[|urls| - 1];
      Download(before.0, before.1, DownloadPath(dir, url), fetch(url), now)
  }

  /** The bookkeeping of one download: files on disk are never rewritten,
      and the file counter rises by one exactly when a new file appears,
      its byte counter by that file's size. */
  lemma DownloadCounts(files: map<string, Bytes>, c: Counters, path: string,
                       response: Result<Bytes>, now: string)
    ensures var result := Download(files, c, path, response, now);
      && files.Keys <= result.0.Keys
      && (forall p :: p in files ==> result.0[p] == files[p])
      && result.1.fileCount == c.fileCount + |result.0| - |files|
      && result.1.totalSize >= c.totalSize
      && (result.1.fileCount == c.fileCount ==> result.0 == files && result.1 == c)
      && (result.1.fileCount != c.fileCount ==>
            path !in files && response.Ok? && result.0 == files[path := response.value]
            && result.1 == Counters(Some(now), c.fileCount + 1, c.totalSize + |response.value|))
  {
  }

  /** Over a list of URLs: every file already on disk keeps its bytes, the
      file counter rises by the number of new files, the byte counter never
      falls, and nothing changes when no file was added. */
  lemma {:induction false} DownloadAllCounts(files: map<string, Bytes>, c: Counters, dir: string,
                                             urls: seq<string>, fetch: string -> Result<Bytes>, now: string)
    ensures var result := DownloadAll(files, c, dir, urls, fetch, now);
      && files.Keys <= result.0.Keys
      && (forall p :: p in files ==> result.0[p] == files[p])
      && result.1.fileCount == c.fileCount + |result.0| - |files|
      && result.1.totalSize >= c.totalSize
      && (result.1.fileCount == c.fileCount ==> result.0 == files && result.1 == c)
    decreases |urls|
  {
    if urls != [] {
      var init := urls[..|urls| - 1];
      var url := urls[|urls| - 1];
      DownloadAllCounts(files, c, dir, init, fetch, now);
      var before := DownloadAll(files, c, dir, init, fetch, now);
      DownloadCounts(before.0, before.1, DownloadPath(dir, url), fetch(url), now);
      var after := Download(before.0, before.1, DownloadPath(dir, url), fetch(url), now);
      assert DownloadAll(files, c, dir, urls, fetch, now) == after;
      assert |before.0| >= |files| by {
        assert files.Keys <= before.0.Keys;
        assert |files.Keys| <= |before.0.Keys| by { SubsetCard(files.Keys, before.0.Keys); }
      }
    }
  }

  lemma SubsetCard(a: set<string>, b: set<string>)
    requires a <= b
    ensures |a| <= |b|
  {
    assert b == a + (b - a);
  }

  /** A download into a directory that already holds the URL's file
      changes nothing, whatever the server would answer. */
  lemma ExistingFileSkipped(files: map<string, Bytes>, c: Counters, dir: string, url: string,
                            fetch: string -> Result<Bytes>, now: string)
    requires DownloadPath(dir, url) in files
    ensures DownloadAll(files, c, dir, [url], fetch, now) == (files, c)
  {
    assert [url][..0] == [];
  }

  // ---------------------------------------------------------------------
  // Metadata

  /** The JSON document `save_metadata` writes. */
  datatype CollectionMetadata = CollectionMetadata(
    collectionDate: string, totalSources: nat, sources: seq<SourceRecord>)

  function MetadataOf(date: string, records: seq<SourceRecord>): CollectionMetadata {
    CollectionMetadata(date, |records|, records)
  }

  /** The records follow the sources one for one. */
  lemma {:induction false} RecordsShape(sources: seq<DataSource>)
    ensures |Records(sources)| == |sources|
    ensures forall i :: 0 <= i < |sources| ==> Records(sources)[i] == RecordOf(sources[i])
    decreases |sources|
  {
    if sources != [] {
      RecordsShape(sources[..|sources| - 1]);
    }
  }

  /** The metadata counts the sources and holds one entry per source, in
      order, with all nine of its fields. */
  lemma MetadataListsSources(date: string, sources: seq<DataSource>)
    ensures MetadataOf(date, Records(sources)).totalSources == |sources|
    ensures |MetadataOf(date, Records(sources)).sources| == |sources|
    ensures forall i :: 0 <= i < |sources| ==>
      var e := MetadataOf(date, Records(sources)).sources[i];
      && e.name == sources[i].name && e.url == sources[i].url && e.license == sources[i].license
      && e.contentType == sources[i].contentType && e.category == sources[i].category
      && e.description == sources[i].description && e.lastUpdated == sources[i].lastUpdated
      && e.fileCount == sources[i].fileCount && e.totalSize == sources[i].totalSize
  {
    RecordsShape(sources);
  }

  // ---------------------------------------------------------------------
  // Report

  /** `sum(measure(source) for source in sources)`. */
  function SumOf(records: seq<SourceRecord>, measure: SourceRecord -> nat): nat
    decreases |records|
  {
    if records == [] then 0 else SumOf(records[..|records| - 1], measure) + measure(records[|records| - 1])
  }

  function FileCountOf(r: SourceRecord): nat { r.fileCount }
  function TotalSizeOf(r: SourceRecord): nat { r.totalSize }
  function CategoryOf(r: SourceRecord): string { r.category }

  function TotalFiles(records: seq<SourceRecord>): nat { SumOf(records, FileCountOf) }
  function TotalSize(records: seq<SourceRecord>): nat { SumOf(records, TotalSizeOf) }

  /** The sum over the groups listed in `order` of each group's sum. */
  function GroupSum(order: seq<string>, records: seq<SourceRecord>, measure: SourceRecord -> nat): nat
    decreases |order|
  {
    if order == [] then 0
    else GroupSum(order[..|order| - 1], records, measure)
         + SumOf(Members(records, CategoryOf, order[|order| - 1]), measure)
  }

  lemma SumAppend(records: seq<SourceRecord>, r: SourceRecord, measure: SourceRecord -> nat)
    ensures SumOf(records + [r], measure) == SumOf(records, measure) + measure(r)
  {
    assert (records + [r])[..|records|] == records;
  }

  lemma MembersAppend(records: seq<SourceRecord>, r: SourceRecord, k: string)
    ensures Members(records + [r], CategoryOf, k)
      == Members(records, CategoryOf, k) + (if r.category == k then [r] else [])
  {
    assert (records + [r])[..|records|] == records;
  }

  /** A new record leaves the sums of the other categories' groups alone. */
  lemma {:induction false} GroupSumOther(order: seq<string>, records: seq<SourceRecord>, r: SourceRecord,
                                         measure: SourceRecord -> nat)
    requires r.category !in order
    ensures GroupSum(order, records + [r], measure) == GroupSum(order, records, measure)
    decreases |order|
  {
    if order != [] {
      GroupSumOther(order[..|order| - 1], records, r, measure);
      MembersAppend(records, r, order[|order| - 1]);
    }
  }

  /** A new record adds its measure to the one group of its category. */
  lemma {:induction false} GroupSumAddOne(order: seq<string>, records: seq<SourceRecord>, r: SourceRecord,
                                          measure: SourceRecord -> nat)
    requires Distinct(order) && r.category in order
    ensures GroupSum(order, records + [r], measure) == GroupSum(order, records, measure) + measure(r)
    decreases |order|
  {
    var init := order[..|order| - 1];
    var last := order[|order| - 1];
    MembersAppend(records, r, last);
    if last == r.category {
      assert r.category !in init by {
        forall i | 0 <= i < |init| ensures init[i] != r.category {
          assert order[i] != order[|order| - 1];
        }
      }
      GroupSumOther(init, records, r, measure);
      SumAppend(Members(records, CategoryOf, last), r, measure);
    } else {
      assert order == init + [last];
      assert r.category in init;
      assert Members(records + [r], CategoryOf, last) == Members(records, CategoryOf, last);
      assert Distinct(init) by {
        forall i, j | 0 <= i < j < |init| ensures init[i] != init[j] {
          assert order[i] != order[j];
        }
      }
      GroupSumAddOne(init, records, r, measure);
    }
  }

  /** A record of a category not seen before opens a section of its own
      holding just that record. */
  lemma NewCategoryStep(init: seq<SourceRecord>, r: SourceRecord, measure: SourceRecord -> nat)
    requires r.category !in KeysInOrder(init, CategoryOf)
    ensures GroupSum(KeysInOrder(init + [r], CategoryOf), init + [r], measure)
      == GroupSum(KeysInOrder(init, CategoryOf), init, measure) + measure(r)
  {
    var records := init + [r];
    var before := KeysInOrder(init, CategoryOf);
    var order := KeysInOrder(records, CategoryOf);
    assert records[..|records| - 1] == init;
    assert order == before + [r.category];
    assert order[..|order| - 1] == before;
    GroupSumOther(before, init, r, measure);
    UnseenHasNoMembers(init, CategoryOf, r.category);
    MembersAppend(init, r, r.category);
    assert [r][..0] == [];
    assert SumOf([r], measure) == measure(r);
  }

  /** Summing per category, over the report's category sections, gives
      the overall total: each source is counted in exactly one section. */
  lemma {:induction false} GroupsSumToTotal(records: seq<SourceRecord>, measure: SourceRecord -> nat)
    ensures GroupSum(KeysInOrder(records, CategoryOf), records, measure) == SumOf(records, measure)
    decreases |records|
  {
    if records != [] {
      var init := records[..|records| - 1];
      var r := records[|records| - 1];
      var before := KeysInOrder(init, CategoryOf);
      assert records == init + [r];
      GroupsSumToTotal(init, measure);
      if r.category in before {
        KeysDistinct(init, CategoryOf);
        assert KeysInOrder(records, CategoryOf) == before;
        GroupSumAddOne(before, init, r, measure);
      } else {
        NewCategoryStep(init, r, measure);
      }
    }
  }

  /** The report's totals: the total file count and byte count are the
      sums over the category sections of each section's sources. */
  lemma TotalsByCategory(records: seq<SourceRecord>)
    ensures TotalFiles(records) == GroupSum(KeysInOrder(records, CategoryOf), records, FileCountOf)
    ensures TotalSize(records) == GroupSum(KeysInOrder(records, CategoryOf), records, TotalSizeOf)
  {
    GroupsSumToTotal(records, FileCountOf);
    GroupsSumToTotal(records, TotalSizeOf);
  }

  /** The fixed text of the summary, around its four figures. */
  datatype SummaryText = SummaryText(beforeSources: string, beforeFiles: string, beforeSize: string,
                                     beforeDate: string, afterDate: string)

  /** The summary text as `generate_report` writes it. */
  const CollectionSummaryText := SummaryText(
    "\n# Dataset Collection Report\n\n## Summary\n- **Total Sources**: ",
    "\n- **Total Files**: ", "\n- **Total Size**: ", " MB\n- **Collection Date**: ",
    "\n\n## Sources by Category\n")

  /** The summary; `sizeMb` is the size in megabytes as the report prints
      it, `date` the collection time. */
  function ReportHead(total: nat, files: nat, sizeMb: string, date: string, summary: SummaryText): string {
    summary.beforeSources + NatToString(total) + summary.beforeFiles + NatToString(files)
    + summary.beforeSize + sizeMb + summary.beforeDate + date + summary.afterDate
  }

  function CategoryHeading(category: string): string {
    "\n### " + Title(category) + "\n"
  }

  function SourceLine(r: SourceRecord): string {
    "- **" + r.name + "**: " + NatToString(r.fileCount) + " files, " + r.license + "\n"
  }

  /** One line per source of a group, in order. */
  function SourceLines(group: seq<SourceRecord>): string
    decreases |group|
  {
    if group == [] then ""
    else SourceLines(group[..|group| - 1]) + SourceLine(group[|group| - 1])
  }

  /** The sections for the given categories, each listing its group. */
  function CategorySections(order: seq<string>, records: seq<SourceRecord>): string
    decreases |order|
  {
    if order == [] then ""
    else
      var k := order[|order| - 1];
      CategorySections(order[..|order| - 1], records)
      + CategoryHeading(k) + SourceLines(Members(records, CategoryOf, k))
  }

  /** The whole report; `formatMb` renders a byte count in megabytes. */
  function CollectionReport(records: seq<SourceRecord>, date: string, formatMb: nat -> string,
                            summary: SummaryText): string {
    ReportHead(|records|, TotalFiles(records), formatMb(TotalSize(records)), date, summary)
    + CategorySections(KeysInOrder(records, CategoryOf), records)
  }

  lemma SectionsStep(order: seq<string>, records: seq<SourceRecord>, i: nat)
    requires i < |order|
    ensures CategorySections(order[..i + 1], records)
      == CategorySections(order[..i], records) + CategoryHeading(order[i])
         + SourceLines(Members(records, CategoryOf, order[i]))
  {
    assert order[..i + 1][..i] == order[..i];
  }

  lemma LinesStep(group: seq<SourceRecord>, j: nat)
    requires j < |group|
    ensures SourceLines(group[..j + 1]) == SourceLines(group[..j]) + SourceLine(group[j])
  {
    assert group[..j + 1][..j] == group[..j];
  }

  lemma AppendTwo(a: string, b: string, c: string)
    ensures a + b + c == a + (b + c)
  {
  }

  lemma AppendThree(a: string, b: string, c: string, d: string)
    ensures a + b + c + d == a + (b + c + d)
  {
  }

  /** The sum of a measure, as the loop `sum(...)` runs it. */
  method Sum(records: seq<SourceRecord>, measure: SourceRecord -> nat) returns (total: nat)
    ensures total == SumOf(records, measure)
  {
    total := 0;
    for i := 0 to |records|
      invariant total == SumOf(records[..i], measure)
    {
      assert records[..i + 1][..i] == records[..i];
      total := total + measure(records[i]);
    }
    assert records[..|records|] == records;
  }

  /** The report text: the summary with both totals, then a section per
      category in first-appearance order. */
  method ReportText(records: seq<SourceRecord>, date: string, formatMb: nat -> string, summary: SummaryText)
    returns (report: string)
    ensures report == CollectionReport(records, date, formatMb, summary)
  {
    var totalFiles := Sum(records, FileCountOf);
    var totalSize := Sum(records, TotalSizeOf);
    report := ReportHead(|records|, totalFiles, formatMb(totalSize), date, summary);
    var order, categories := GroupBy(records, CategoryOf);
    report := AppendSections(report, records, order, categories);
  }

  /** The loop over the category dict: a heading per category, then a
      line per source of its group. */
  method AppendSections(text: string, records: seq<SourceRecord>, order: seq<string>,
                        categories: map<string, seq<SourceRecord>>) returns (report: string)
    requires forall k :: k in order ==> k in categories && categories[k] == Members(records, CategoryOf, k)
    ensures report == text + CategorySections(order, records)
  {
    report := text;
    ghost var sections := "";
    for i := 0 to |order|
      invariant sections == CategorySections(order[..i], records)
      invariant report == text + sections
    {
      var category := order[i];
      SectionsStep(order, records, i);
      var group := categories[category];
      report := report + CategoryHeading(category);
      report := AppendLines(report, group);
      AppendThree(text, sections, CategoryHeading(category), SourceLines(group));
      sections := sections + CategoryHeading(category) + SourceLines(group);
    }
    assert order[..|order|] == order;
  }

  /** The inner loop: one line per source of a group. */
  method AppendLines(text: string, group: seq<SourceRecord>) returns (report: string)
    ensures report == text + SourceLines(group)
  {
    report := text;
    ghost var lines := "";
    for j := 0 to |group|
      invariant lines == SourceLines(group[..j])
      invariant report == text + lines
    {
      LinesStep(group, j);
      var line := SourceLine(group[j]);
      AppendTwo(text, lines, line);
      report := report + line;
      lines := lines + line;
    }
    assert group[..|group|] == group;
  }

  /** A member of a group has its line in the group's lines. */
  lemma {:induction false} LineListed(group: seq<SourceRecord>, x: SourceRecord)
    requires x in group
    ensures Contains(SourceLines(group), SourceLine(x))
    decreases |group|
  {
    var init := group[..|group| - 1];
    var last := group[|group| - 1];
    if x == last {
      ContainsSuffix(SourceLines(init), SourceLine(x));
    } else {
      assert x in init;
      LineListed(init, x);
      ContainsInPrefix(SourceLines(init), SourceLine(last), SourceLine(x));
    }
  }

  /** Each listed category's section holds its group's lines. */
  lemma {:induction false} SectionListed(order: seq<string>, records: seq<SourceRecord>, k: string)
    requires k in order
    ensures Contains(CategorySections(order, records), SourceLines(Members(records, CategoryOf, k)))
    decreases |order|
  {
    var init := order[..|order| - 1];
    var last := order[|order| - 1];
    var prev := CategorySections(init, records);
    if k == last {
      ContainsSuffix(prev + CategoryHeading(k), SourceLines(Members(records, CategoryOf, k)));
    } else {
      assert k in init;
      SectionListed(init, records, k);
      ContainsInPrefix(prev, CategoryHeading(last), SourceLines(Members(records, CategoryOf, k)));
      ContainsInPrefix(prev + CategoryHeading(last), SourceLines(Members(records, CategoryOf, last)),
                       SourceLines(Members(records, CategoryOf, k)));
    }
  }

  /** Every source has its line, with its file count and license, in the
      report, inside its category's section. */
  lemma ReportListsEverySource(records: seq<SourceRecord>, date: string, formatMb: nat -> string,
                               summary: SummaryText, i: nat)
    requires i < |records|
    ensures Contains(CollectionReport(records, date, formatMb, summary), SourceLine(records[i]))
  {
    var x := records[i];
    var order := KeysInOrder(records, CategoryOf);
    var group := Members(records, CategoryOf, x.category);
    var head := ReportHead(|records|, TotalFiles(records), formatMb(TotalSize(records)), date, summary);
    KeysComplete(records, CategoryOf);
    assert CategoryOf(records[i]) == x.category;
    MembersPartition(records, CategoryOf);
    assert x in group;
    LineListed(group, x);
    SectionListed(order, records, x.category);
    ContainsTransitive(CategorySections(order, records), SourceLines(group), SourceLine(x));
    ContainsWithin(head, CategorySections(order, records), "", SourceLine(x));
    assert head + CategorySections(order, records) + "" == CollectionReport(records, date, formatMb, summary);
  }

  // ---------------------------------------------------------------------
  // The collector

  /** `DatasetCollector`: the sources collected so far, the files on disk,
      and the metadata and report files once written. */
  class Collector {
    const baseDir: string
    const metadataPath: string
    const summary: SummaryText
    var sources: seq<DataSource>
    var downloads: map<string, Bytes>
    var metadata: Option<CollectionMetadata>
    var report: Option<string>

    /** `__init__`; `disk` is what the file system already holds. */
    constructor (baseDir: string, disk: map<string, Bytes>)
      ensures this.baseDir == baseDir && metadataPath == baseDir + "/dataset_metadata.json"
      ensures summary == CollectionSummaryText
      ensures sources == [] && downloads == disk && metadata == None && report == None
    {
      this.baseDir := baseDir;
      summary := CollectionSummaryText;
      metadataPath := baseDir + "/dataset_metadata.json";
      sources := [];
      downloads := disk;
      metadata := None;
      report := None;
    }

    function ReportPath(): string
      reads this
    {
      baseDir + "/collection_report.md"
    }

    /** `add_source`: the list grows by the source, at the end, and both
        totals grow by the source's counters. */
    method AddSource(source: DataSource)
      modifies this
      ensures sources == old(sources) + [source]
      ensures Records(sources) == old(Records(sources)) + [RecordOf(source)]
      ensures TotalFiles(Records(sources)) == old(TotalFiles(Records(sources))) + source.fileCount
      ensures TotalSize(Records(sources)) == old(TotalSize(Records(sources))) + source.totalSize
      ensures downloads == old(downloads) && metadata == old(metadata) && report == old(report)
    {
      sources := sources + [source];
      assert sources[..|sources| - 1] == old(sources);
      SumAppend(old(Records(sources)), RecordOf(source), FileCountOf);
      SumAppend(old(Records(sources)), RecordOf(source), TotalSizeOf);
    }

    /** `_download_file`: `fetch` stands for the HTTP request, an `Err`
        for any failure it raises (connection, timeout, error status), and
        `now` for the time stamp. */
    method DownloadFile(url: string, destinationDir: string, source: DataSource,
                        fetch: string -> Result<Bytes>, now: string)
      modifies this, source
      ensures (downloads, CountersOf(source))
        == Download(old(downloads), old(CountersOf(source)), DownloadPath(destinationDir, url), fetch(url), now)
      ensures sources == old(sources) && metadata == old(metadata) && report == old(report)
    {
      var filename := LastSegment(url);
      if !HasKnownExtension(filename) {
        filename := filename + ".pdf";
      }
      var filePath := destinationDir + "/" + filename;
      if filePath in downloads {
        return;
      }
      var response := fetch(url);
      if response.Err? {
        return;
      }
      downloads := downloads[filePath := response.value];
      source.fileCount := source.fileCount + 1;
      source.totalSize := source.totalSize + |response.value|;
      source.lastUpdated := Some(now);
    }

    /** The body of the `collect_*_dataset` loops for one source: a new
        PDF source with no URL of its own, each of its URLs downloaded into
        its category directory, then the source added. */
    method CollectSource(name: string, category: string, urls: seq<string>, license: string,
                         description: string, categoryDir: string,
                         fetch: string -> Result<Bytes>, now: string) returns (source: DataSource)
      modifies this
      ensures fresh(source)
      ensures source.name == name && source.url == "" && source.license == license
      ensures source.contentType == "PDF" && source.category == category && source.description == description
      ensures (downloads, CountersOf(source))
        == DownloadAll(old(downloads), NoDownloads, categoryDir, urls, fetch, now)
      ensures sources == old(sources) + [source]
      ensures metadata == old(metadata) && report == old(report)
    {
      source := new DataSource(name, "", license, "PDF", category, description);
      for i := 0 to |urls|
        invariant (downloads, CountersOf(source))
          == DownloadAll(old(downloads), NoDownloads, categoryDir, urls[..i], fetch, now)
        invariant sources == old(sources) && metadata == old(metadata) && report == old(report)
      {
        assert urls[..i + 1][..i] == urls[..i];
        DownloadFile(urls[i], categoryDir, source, fetch, now);
      }
      assert urls[..|urls|] == urls;
      AddSource(source);
    }

    /** `save_metadata`; `now` is the collection time stamp. */
    method SaveMetadata(now: string)
      modifies this
      ensures metadata == Some(MetadataOf(now, Records(sources)))
      ensures sources == old(sources) && downloads == old(downloads) && report == old(report)
    {
      metadata := Some(MetadataOf(now, Records(sources)));
    }

    /** `generate_report`: the report is returned and written to the
        report file. */
    method GenerateReport(date: string, formatMb: nat -> string) returns (text: string)
      modifies this
      ensures text == CollectionReport(old(Records(sources)), date, formatMb, summary)
      ensures report == Some(text)
      ensures sources == old(sources) && downloads == old(downloads) && metadata == old(metadata)
    {
      var records := Records(sources);
      text := ReportText(records, date, formatMb, summary);
      report := Some(text);
    }
  }
}
