/** `MedicalRAGConfig` (backend/medical_config.py): the classification of a
    medical query and the medical prompt template. */
module MedicalConfig {
  import opened Text

  /** The supported specialties, in the order they are tried. */
  const MedicalSpecialties: seq<string> := [
    "cardiology", "radiology", "oncology", "emergency_medicine",
    "pharmacology", "clinical_guidelines", "medical_terminology",
    "diagnostic_procedures"
  ]

  const EmergencyKeywords: seq<string> := [
    "emergency", "urgent", "critical", "life-threatening",
    "cardiac arrest", "stroke", "heart attack", "overdose",
    "severe bleeding", "anaphylaxis", "respiratory failure"
  ]

  const DrugKeywords: seq<string> := ["medication", "drug", "prescription", "dosage", "side effects"]

  const GeneralSpecialty := "general"

  /** What `validate_medical_query` reports about a query. */
  datatype QueryClass = QueryClass(
    isEmergency: bool,
    specialty: string,
    isDrugRelated: bool,
    requiresDisclaimer: bool,
    complexity: string)

  /** Python's `any(k in s for k in keywords)`. */
  predicate AnyOccurs(keywords: seq<string>, s: string) {
    exists i :: 0 <= i < |keywords| && Contains(s, keywords[i])
  }

  /** A specialty as it is looked for in a query: underscores read as spaces. */
  function Spaced(spec: string): string {
    ReplaceChar(spec, '_', ' ')
  }

  /** The first of `specs` whose spaced form occurs in `lowered`, or
      "general" when none does. */
  function MatchSpecialty(specs: seq<string>, lowered: string): string
    decreases |specs|
  {
    if specs == [] then GeneralSpecialty
    else if Contains(lowered, Spaced(specs[0])) then specs[0]
    else MatchSpecialty(specs[1..], lowered)
  }

  /** The classification of a query, on its lower-cased form. */
  function Classify(query: string): QueryClass {
    var lowered := Lower(query);
    var isEmergency := AnyOccurs(EmergencyKeywords, lowered);
    QueryClass(isEmergency, MatchSpecialty(MedicalSpecialties, lowered),
               AnyOccurs(DrugKeywords, lowered), true,
               if isEmergency then "high" else "medium")
  }

  /** `validate_medical_query`, with the specialty search as the source's
      loop that stops at the first match. */
  method ValidateMedicalQuery(query: string) returns (r: QueryClass)
    ensures r == Classify(query)
  {
    var queryLower := Lower(query);
    var isEmergency := AnyOccurs(EmergencyKeywords, queryLower);
    var specialty := GeneralSpecialty;
    var i := 0;
    while i < |MedicalSpecialties|
      invariant 0 <= i <= |MedicalSpecialties|
      invariant MatchSpecialty(MedicalSpecialties[i..], queryLower) == MatchSpecialty(MedicalSpecialties, queryLower)
      invariant specialty == GeneralSpecialty
    {
      if Contains(queryLower, Spaced(MedicalSpecialties[i])) {
        specialty := MedicalSpecialties[i];
        break;
      }
      assert MedicalSpecialties[i..][1..] == MedicalSpecialties[i + 1..];
      i := i + 1;
    }
    var isDrugRelated := AnyOccurs(DrugKeywords, queryLower);
    r := QueryClass(isEmergency, specialty, isDrugRelated, true, if isEmergency then "high" else "medium");
  }

  /** The first-match search returns the first specialty whose spaced form
      occurs, or "general" exactly when none occurs. */
  lemma {:induction false} MatchIsFirst(specs: seq<string>, lowered: string)
    requires forall i :: 0 <= i < |specs| ==> specs[i] != GeneralSpecialty
    ensures MatchSpecialty(specs, lowered) == GeneralSpecialty
      <==> forall i :: 0 <= i < |specs| ==> !Contains(lowered, Spaced(specs[i]))
    ensures MatchSpecialty(specs, lowered) != GeneralSpecialty ==>
      exists i :: 0 <= i < |specs| && MatchSpecialty(specs, lowered) == specs[i]
        && Contains(lowered, Spaced(specs[i]))
        && forall j :: 0 <= j < i ==> !Contains(lowered, Spaced(specs[j]))
    decreases |specs|
  {
    if specs != [] && !Contains(lowered, Spaced(specs[0])) {
      var rest := specs[1..];
      MatchIsFirst(rest, lowered);
      assert forall i :: 1 <= i < |specs| ==> specs[i] == rest[i - 1];
      if MatchSpecialty(rest, lowered) != GeneralSpecialty {
        var k :| 0 <= k < |rest| && MatchSpecialty(rest, lowered) == rest[k]
          && Contains(lowered, Spaced(rest[k]))
          && forall j :: 0 <= j < k ==> !Contains(lowered, Spaced(rest[j]));
        assert MatchSpecialty(specs, lowered) == specs[k + 1];
      }
    }
  }

  /** The reported specialty is "general" exactly when no supported
      specialty occurs in the lower-cased query; otherwise it is the first
      supported specialty, in list order, that occurs. */
  lemma SpecialtyIsFirstMatch(query: string)
    ensures Classify(query).specialty == GeneralSpecialty
      <==> forall i :: 0 <= i < |MedicalSpecialties| ==> !Contains(Lower(query), Spaced(MedicalSpecialties[i]))
    ensures Classify(query).specialty != GeneralSpecialty ==>
      exists i :: 0 <= i < |MedicalSpecialties| && Classify(query).specialty == MedicalSpecialties[i]
        && Contains(Lower(query), Spaced(MedicalSpecialties[i]))
        && forall j :: 0 <= j < i ==> !Contains(Lower(query), Spaced(MedicalSpecialties[j]))
  {
    MatchIsFirst(MedicalSpecialties, Lower(query));
  }

  /** Every query needs the disclaimer, and it is of high complexity
      exactly when it is an emergency; the two flags are the keyword
      tests on the lower-cased query. */
  lemma ClassFlags(query: string)
    ensures Classify(query).requiresDisclaimer
    ensures Classify(query).complexity == "high" <==> Classify(query).isEmergency
    ensures Classify(query).complexity == "high" || Classify(query).complexity == "medium"
    ensures Classify(query).isEmergency
      <==> exists i :: 0 <= i < |EmergencyKeywords| && Contains(Lower(query), EmergencyKeywords[i])
    ensures Classify(query).isDrugRelated
      <==> exists i :: 0 <= i < |DrugKeywords| && Contains(Lower(query), DrugKeywords[i])
  {
  }

  lemma LowerTwice(s: string)
    ensures Lower(Lower(s)) == Lower(s)
  {
  }

  /** Only the lower-cased query matters: a query and its lower-cased form
      are classified alike. */
  lemma CaseInsensitive(query: string)
    ensures Classify(Lower(query)) == Classify(query)
  {
    LowerTwice(query);
  }

  /** A specialty other than "general" is found only where it occurs. */
  lemma {:induction false} MatchOccurs(specs: seq<string>, lowered: string)
    ensures MatchSpecialty(specs, lowered) != GeneralSpecialty ==>
      Contains(lowered, Spaced(MatchSpecialty(specs, lowered)))
    decreases |specs|
  {
    if specs != [] && !Contains(lowered, Spaced(specs[0])) {
      MatchOccurs(specs[1..], lowered);
    }
  }

  lemma EmergencyInSpecialty()
    ensures Contains(Spaced("emergency_medicine"), "emergency")
  {
    var spaced := Spaced("emergency_medicine");
    assert spaced[..9] == "emergency";
    assert StartsWith(spaced, "emergency");
  }

  /** A query found to be about emergency medicine always counts as an
      emergency, since "emergency medicine" holds the keyword "emergency". */
  lemma EmergencyMedicineIsEmergency(query: string)
    ensures Classify(query).specialty == "emergency_medicine" ==> Classify(query).isEmergency
  {
    var lowered := Lower(query);
    if Classify(query).specialty == "emergency_medicine" {
      MatchOccurs(MedicalSpecialties, lowered);
      EmergencyInSpecialty();
      ContainsTransitive(lowered, Spaced("emergency_medicine"), "emergency");
      assert Contains(lowered, EmergencyKeywords[0]);
    }
  }

  const MedicalSystemPrompt :=
    "\nYou are a medical AI assistant designed to provide evidence-based information "
    + "from peer-reviewed medical literature and clinical guidelines. \n"
    + "\nIMPORTANT DISCLAIMERS:\n"
    + "- This system is for educational and informational purposes only\n"
    + "- Do not provide specific medical advice, diagnosis, or treatment recommendations\n"
    + "- Always recommend consulting qualified healthcare professionals for medical decisions\n"
    + "- Responses should be based on established medical knowledge and guidelines\n"
    + "\nWhen responding to medical queries:\n"
    + "1. Provide accurate, evidence-based information\n"
    + "2. Include relevant medical terminology with explanations\n"
    + "3. Cite sources when possible\n"
    + "4. Emphasize the importance of professional medical consultation\n"
    + "5. Use appropriate medical formatting and structure\n"
    + "\nRemember: You are a tool to support medical education and information access, "
    + "not a replacement for professional medical judgment.\n"

  const ContextHeading := "\n\nContext from medical literature:\n"
  const QueryHeading := "\n\nMedical Query: "
  const TemplateClosing :=
    "\n\nPlease provide an evidence-based response following medical standards "
    + "and include appropriate disclaimers.\n"

  /** `get_medical_prompt_template`: the system prompt, then the literal
      `{context}` placeholder, then the literal `{query}` placeholder. */
  function MedicalPromptTemplate(): string {
    PromptTemplate(MedicalSystemPrompt)
  }

  /** The template's layout around a given system prompt. */
  function PromptTemplate(systemPrompt: string): string {
    "\n" + systemPrompt + ContextHeading + "{context}" + QueryHeading + "{query}" + TemplateClosing
  }

  /** The template opens with the system prompt and holds "{context}" and,
      after it, "{query}", each at a known position; it ends with the
      instruction to include disclaimers. */
  lemma TemplateLayout(systemPrompt: string)
    ensures var t := PromptTemplate(systemPrompt);
      var c := 1 + |systemPrompt| + |ContextHeading|;
      var q := c + |"{context}"| + |QueryHeading|;
      && StartsWith(t, "\n" + systemPrompt)
      && OccursAt(t, "{context}", c)
      && OccursAt(t, "{query}", q)
      && c < q
      && EndsWith(t, TemplateClosing)
  {
    var t := PromptTemplate(systemPrompt);
    var head := "\n" + systemPrompt;
    var beforeContext := head + ContextHeading;
    var beforeQuery := beforeContext + "{context}" + QueryHeading;
    assert t == beforeContext + "{context}" + QueryHeading + "{query}" + TemplateClosing;
    assert t[..|head|] == head;
    assert t[|beforeContext|..|beforeContext| + 9] == "{context}";
    assert t == beforeQuery + "{query}" + TemplateClosing;
    assert t[|beforeQuery|..|beforeQuery| + 7] == "{query}";
    assert t[|t| - |TemplateClosing|..] == TemplateClosing;
  }

  /** The medical template in particular: the medical system prompt comes
      first, "{context}" follows it and "{query}" follows "{context}". */
  lemma TemplatePlaceholders()
    ensures var t := MedicalPromptTemplate();
      var c := 1 + |MedicalSystemPrompt| + |ContextHeading|;
      && StartsWith(t, "\n" + MedicalSystemPrompt)
      && OccursAt(t, "{context}", c)
      && OccursAt(t, "{query}", c + |"{context}"| + |QueryHeading|)
      && EndsWith(t, TemplateClosing)
  {
    TemplateLayout(MedicalSystemPrompt);
  }
}
