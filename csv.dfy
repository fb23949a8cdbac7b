/** `CSVProcessor` (backend/services/csv_processor.py): medical-content
    detection, removal of columns that may hold protected health
    information, and the conversion of a table into documents for the index.
    pandas is replaced by a column-major table whose cells are either
    missing or the text `str()` gives for the value. */
module CsvProcessor {
  import opened Common
  import opened Text
  import opened Documents

  /** A cell: missing (NaN/None) or the `str()` of its value. */
  datatype Cell = Null | Value(s: string)

  /** A column: its label, its pandas dtype name ("object", "int64", ...)
      and its cells. */
  datatype Column = Column(name: string, dtype: string, cells: seq<Cell>)

  datatype RawFrame = RawFrame(columns: seq<Column>, nrows: nat)

  /** A DataFrame: every column has one cell per row. */
  type Frame = f: RawFrame | forall j :: 0 <= j < |f.columns| ==> |f.columns[j].cells| == f.nrows
    witness RawFrame([], 0)

  predicate IsObject(c: Column) {
    c.dtype == "object"
  }

  /** `astype(str)`: a missing value becomes "nan". */
  function AsStr(c: Cell): string {
    match c
    case Null => "nan"
    case Value(s) => s
  }

  function Names(columns: seq<Column>): (r: seq<string>)
    ensures |r| == |columns|
  {
    seq(|columns|, j requires 0 <= j < |columns| => columns[j].name)
  }

  /** `sub in s` for some `sub` of the list. */
  predicate AnyIn(s: string, subs: seq<string>) {
    exists i :: 0 <= i < |subs| && Contains(s, subs[i])
  }

  /** The scan `for keyword in keywords: if keyword in s: ...; break`. */
  method FindAny(s: string, subs: seq<string>) returns (found: bool)
    ensures found <==> AnyIn(s, subs)
  {
    found := false;
    var i := 0;
    while i < |subs|
      invariant 0 <= i <= |subs|
      invariant forall k :: 0 <= k < i ==> !Contains(s, subs[k])
    {
      if Contains(s, subs[i]) {
        found := true;
        break;
      }
      i := i + 1;
    }
  }

  // ----------------------------------------------------------------------
  // Medical content detection

  const MedicalKeywords := [
    "patient", "diagnosis", "symptom", "treatment", "medication", "drug",
    "disease", "condition", "clinical", "medical", "health", "hospital",
    "doctor", "physician", "nurse", "therapy", "procedure", "surgery",
    "lab", "test", "result", "blood", "pressure", "heart", "cancer",
    "diabetes", "infection", "pain", "fever", "chronic", "acute"]

  /** The detection result, without the floating-point confidence. */
  datatype MedicalInfo = MedicalInfo(isMedical: bool, medicalColumns: seq<string>, contentType: string)

  /** The lowercased column names that contain a medical keyword, in column
      order. */
  function MedicalColumns(lowered: seq<string>): seq<string>
    decreases |lowered|
  {
    if lowered == [] then []
    else (if AnyIn(lowered[0], MedicalKeywords) then [lowered[0]] else []) + MedicalColumns(lowered[1..])
  }

  /** Each column is counted at most once, and a name is listed exactly when
      it is a column name with a medical keyword. */
  lemma {:induction false} MedicalColumnsSpec(lowered: seq<string>)
    ensures |MedicalColumns(lowered)| <= |lowered|
    ensures forall x :: x in MedicalColumns(lowered) <==> x in lowered && AnyIn(x, MedicalKeywords)
    decreases |lowered|
  {
    if lowered != [] {
      MedicalColumnsSpec(lowered[1..]);
      assert lowered == [lowered[0]] + lowered[1..];
    }
  }

  /** The first 100 values of a column, as `str`, joined with spaces and
      lowercased. */
  function SampleText(c: Column): string {
    var n := if |c.cells| <= 100 then |c.cells| else 100;
    Lower(Join(" ", seq(n, i requires 0 <= i < n => AsStr(c.cells[i]))))
  }

  /** The number of object columns whose sample mentions a medical keyword. */
  function ContentScore(columns: seq<Column>): nat
    decreases |columns|
  {
    if columns == [] then 0
    else (if IsObject(columns[0]) && AnyIn(SampleText(columns[0]), MedicalKeywords) then 1 else 0)
         + ContentScore(columns[1..])
  }

  function LowerNames(columns: seq<Column>): (r: seq<string>)
    ensures |r| == |columns|
  {
    seq(|columns|, j requires 0 <= j < |columns| => Lower(columns[j].name))
  }

  predicate SomeContains(names: seq<string>, sub: string) {
    exists j :: 0 <= j < |names| && Contains(names[j], sub)
  }

  /** The content type, by the first rule that applies. */
  function ContentType(lowered: seq<string>, isMedical: bool): string {
    if SomeContains(lowered, "diagnosis") then "diagnostic_data"
    else if SomeContains(lowered, "medication") || SomeContains(lowered, "drug") then "medication_data"
    else if SomeContains(lowered, "symptom") then "symptom_data"
    else if SomeContains(lowered, "lab") || SomeContains(lowered, "test") then "laboratory_data"
    else if isMedical then "general_medical"
    else "unknown"
  }

  /** The result of `detect_medical_content`; a table without columns
      divides by zero. */
  function Detect(frame: Frame): Result<MedicalInfo> {
    if |frame.columns| == 0 then Err("division by zero")
    else
      var lowered := LowerNames(frame.columns);
      var total := |MedicalColumns(lowered)| + ContentScore(frame.columns);
      var isMedical := 10 * total > 3 * |frame.columns|;
      Ok(MedicalInfo(isMedical, MedicalColumns(lowered), ContentType(lowered, isMedical)))
  }

  /** The source's test `min(total / columns, 1.0) > 0.3`, on exact reals,
      is the integer test `10 * total > 3 * columns`. */
  lemma ConfidenceTest(total: nat, columns: nat)
    requires columns > 0
    ensures (var ratio := (total as real) / (columns as real);
             (if ratio < 1.0 then ratio else 1.0) > 0.3) <==> 10 * total > 3 * columns
  {
    var c := columns as real;
    var t := total as real;
    var ratio := t / c;
    assert ratio * c == t;
    if ratio > 0.3 {
      MulMonotone(0.3, ratio, c);
    } else {
      MulMonotone(ratio, 0.3, c);
    }
    assert (10 * total) as real == 10.0 * t && (3 * columns) as real == 3.0 * c;
  }

  lemma MulMonotone(a: real, b: real, c: real)
    requires a <= b && c > 0.0
    ensures a * c <= b * c && (a < b ==> a * c < b * c)
  {
  }

  /** A column with a "diagnosis" name makes the data diagnostic whatever
      else holds; "general_medical" needs the data to be medical and no
      column to name a diagnosis, medication, drug, symptom, lab or test. */
  lemma ContentTypePriority(lowered: seq<string>, isMedical: bool)
    ensures SomeContains(lowered, "diagnosis") ==> ContentType(lowered, isMedical) == "diagnostic_data"
    ensures ContentType(lowered, isMedical) == "general_medical" <==>
      isMedical && !SomeContains(lowered, "diagnosis") && !SomeContains(lowered, "medication")
      && !SomeContains(lowered, "drug") && !SomeContains(lowered, "symptom")
      && !SomeContains(lowered, "lab") && !SomeContains(lowered, "test")
    ensures ContentType(lowered, isMedical) == "unknown" ==> !isMedical
  {
    assert "general_medical"[0] == 'g' && "diagnostic_data"[0] == 'd' && "medication_data"[0] == 'm';
    assert "symptom_data"[0] == 's' && "laboratory_data"[0] == 'l' && "unknown"[0] == 'u';
  }

  /** `detect_medical_content`. */
  method DetectMedicalContent(frame: Frame) returns (r: Result<MedicalInfo>)
    ensures r == Detect(frame)
  {
    var columns := frame.columns;
    var columnsLower: seq<string> := [];
    for j := 0 to |columns|
      invariant |columnsLower| == j
      invariant forall k :: 0 <= k < j ==> columnsLower[k] == Lower(columns[k].name)
    {
      columnsLower := columnsLower + [Lower(columns[j].name)];
    }
    assert columnsLower == LowerNames(columns);
    var medicalScore := 0;
    var medicalColumns: seq<string> := [];
    assert columnsLower[0..] == columnsLower;
    for j := 0 to |columnsLower|
      invariant medicalColumns + MedicalColumns(columnsLower[j..]) == MedicalColumns(columnsLower)
      invariant medicalScore == |medicalColumns|
    {
      assert columnsLower[j..][1..] == columnsLower[j + 1..];
      var found := FindAny(columnsLower[j], MedicalKeywords);
      if found {
        medicalScore := medicalScore + 1;
        medicalColumns := medicalColumns + [columnsLower[j]];
      }
    }
    assert columnsLower[|columnsLower|..] == [];
    var contentScore := 0;
    assert columns[0..] == columns;
    for j := 0 to |columns|
      invariant contentScore + ContentScore(columns[j..]) == ContentScore(columns)
    {
      assert columns[j..][1..] == columns[j + 1..];
      if IsObject(columns[j]) {
        var found := FindAny(SampleText(columns[j]), MedicalKeywords);
        if found {
          contentScore := contentScore + 1;
        }
      }
    }
    assert columns[|columns|..] == [];
    if |columns| == 0 {
      return Err("division by zero");
    }
    assert medicalColumns == MedicalColumns(columnsLower);
    assert contentScore == ContentScore(columns);
    var isMedical := 10 * (medicalScore + contentScore) > 3 * |columns|;
    r := Ok(MedicalInfo(isMedical, medicalColumns, ContentType(columnsLower, isMedical)));
  }

  // ----------------------------------------------------------------------
  // Anonymization

  const PhiPatterns := [
    "name", "id", "ssn", "social", "phone", "email", "address",
    "zip", "postal", "birth", "dob", "age", "mrn", "patient_id"]

  /** The column's lowercased name contains a PHI pattern (the patterns have
      no regular-expression metacharacters, so `re.search` is a substring
      test). */
  predicate IsPhi(c: Column) {
    AnyIn(Lower(c.name), PhiPatterns)
  }

  /** An object column after `astype(str)` and the name scrub. */
  function CleanColumn(c: Column, scrub: string -> string): Column {
    if IsObject(c) then
      Column(c.name, c.dtype, seq(|c.cells|, i requires 0 <= i < |c.cells| => Value(scrub(AsStr(c.cells[i])))))
    else c
  }

  /** The columns that are not PHI, in order. */
  function KeptColumns(columns: seq<Column>): seq<Column>
    decreases |columns|
  {
    if columns == [] then []
    else (if IsPhi(columns[0]) then [] else [columns[0]]) + KeptColumns(columns[1..])
  }

  lemma {:induction false} KeptColumnsShape(columns: seq<Column>, n: nat)
    requires forall j :: 0 <= j < |columns| ==> |columns[j].cells| == n
    ensures |KeptColumns(columns)| <= |columns|
    ensures forall j :: 0 <= j < |KeptColumns(columns)| ==> |KeptColumns(columns)[j].cells| == n
    ensures forall c :: c in KeptColumns(columns) <==> c in columns && !IsPhi(c)
    decreases |columns|
  {
    if columns != [] {
      KeptColumnsShape(columns[1..], n);
      assert columns == [columns[0]] + columns[1..];
    }
  }

  /** The table `anonymize_data` returns. */
  function Anonymize(frame: Frame, scrub: string -> string): (r: Frame)
    ensures r.nrows == frame.nrows && |r.columns| <= |frame.columns|
  {
    KeptColumnsShape(frame.columns, frame.nrows);
    var kept := KeptColumns(frame.columns);
    RawFrame(seq(|kept|, j requires 0 <= j < |kept| => CleanColumn(kept[j], scrub)), frame.nrows)
  }

  /** Anonymization removes exactly the PHI columns and keeps the others in
      order under their names; no PHI column survives, the row count is
      unchanged, and non-object columns keep their values. */
  lemma AnonymizeSpec(frame: Frame, scrub: string -> string)
    ensures Names(Anonymize(frame, scrub).columns) == Names(KeptColumns(frame.columns))
    ensures forall j :: 0 <= j < |Anonymize(frame, scrub).columns| ==> !IsPhi(Anonymize(frame, scrub).columns[j])
    ensures forall c :: c in frame.columns && !IsPhi(c) && !IsObject(c) ==> c in Anonymize(frame, scrub).columns
  {
    var kept := KeptColumns(frame.columns);
    KeptColumnsShape(frame.columns, frame.nrows);
    var clean := Anonymize(frame, scrub).columns;
    forall j | 0 <= j < |clean| ensures !IsPhi(clean[j]) {
      assert kept[j] in kept;
      assert Lower(clean[j].name) == Lower(kept[j].name);
    }
    forall c | c in frame.columns && !IsPhi(c) && !IsObject(c) ensures c in clean {
      var j :| 0 <= j < |kept| && kept[j] == c;
      assert clean[j] == c;
    }
  }

  /** `anonymize_data`: collect the PHI columns, drop them, then replace
      every object column by its scrubbed text. */
  method AnonymizeData(frame: Frame, scrub: string -> string) returns (clean: Frame)
    ensures clean == Anonymize(frame, scrub)
  {
    var columnsToRemove: seq<string> := [];
    for j := 0 to |frame.columns|
      invariant forall k :: 0 <= k < j ==> (IsPhi(frame.columns[k]) ==> frame.columns[k].name in columnsToRemove)
      invariant forall x :: x in columnsToRemove ==> exists k :: 0 <= k < j && frame.columns[k].name == x && IsPhi(frame.columns[k])
    {
      var found := FindAny(Lower(frame.columns[j].name), PhiPatterns);
      if found {
        columnsToRemove := columnsToRemove + [frame.columns[j].name];
      }
    }
    // `drop(columns=...)`: every column whose label was collected goes.
    var kept: seq<Column> := [];
    for j := 0 to |frame.columns|
      invariant kept == KeptColumns(frame.columns[..j])
    {
      assert frame.columns[..j + 1] == frame.columns[..j] + [frame.columns[j]];
      KeptColumnsAppend(frame.columns[..j], frame.columns[j]);
      var c := frame.columns[j];
      if c.name !in columnsToRemove {
        kept := kept + [c];
      } else {
        assert IsPhi(c) by {
          var k :| 0 <= k < |frame.columns| && frame.columns[k].name == c.name && IsPhi(frame.columns[k]);
          assert Lower(frame.columns[k].name) == Lower(c.name);
        }
      }
    }
    assert frame.columns[..|frame.columns|] == frame.columns;
    KeptColumnsShape(frame.columns, frame.nrows);
    var columns := kept;
    for j := 0 to |columns|
      invariant |columns| == |kept|
      invariant forall k :: 0 <= k < j ==> columns[k] == CleanColumn(kept[k], scrub)
      invariant forall k :: j <= k < |columns| ==> columns[k] == kept[k]
    {
      columns := columns[j := CleanColumn(columns[j], scrub)];
    }
    clean := RawFrame(columns, frame.nrows);
  }

  lemma {:induction false} KeptColumnsAppend(columns: seq<Column>, c: Column)
    ensures KeptColumns(columns + [c]) == KeptColumns(columns) + (if IsPhi(c) then [] else [c])
    decreases |columns|
  {
    if columns == [] {
      assert KeptColumns([c]) == (if IsPhi(c) then [] else [c]) + KeptColumns([]);
    } else {
      assert (columns + [c])[1..] == columns[1..] + [c];
      KeptColumnsAppend(columns[1..], c);
    }
  }

  /** With no PHI column, every column is kept. */
  lemma {:induction false} KeptAllWhenNoPhi(columns: seq<Column>)
    requires forall j :: 0 <= j < |columns| ==> !IsPhi(columns[j])
    ensures KeptColumns(columns) == columns
    decreases |columns|
  {
    if columns != [] {
      assert !IsPhi(columns[0]);
      KeptAllWhenNoPhi(columns[1..]);
      assert columns == [columns[0]] + columns[1..];
    }
  }

  /** The patterns are matched as substrings of the whole name: a "dosage"
      column goes because it contains "age". */
  lemma PhiMatchesInsideWords(dtype: string, cells: seq<Cell>)
    ensures IsPhi(Column("dosage", dtype, cells))
  {
    var name := Lower("dosage");
    assert name[3] == 'a' && name[4] == 'g' && name[5] == 'e';
    assert name[3..6] == "age";
    ContainsAt(name, "age");
    assert PhiPatterns[11] == "age";
  }

  /** Likewise a "side_effects" column goes because it contains "id". */
  lemma PhiMatchesShortPatterns(dtype: string, cells: seq<Cell>)
    ensures IsPhi(Column("side_effects", dtype, cells))
  {
    var name := Lower("side_effects");
    assert name[1] == 'i' && name[2] == 'd';
    assert name[1..3] == "id";
    ContainsAt(name, "id");
    assert PhiPatterns[1] == "id";
  }
}
