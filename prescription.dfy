/** The prescription formatter `generate_prescription`: it extracts a primary
    condition from a free-text diagnosis, looks the condition up in a
    two-level treatment table (condition, then language) with a multilingual
    fallback, and fills in a language-selected template. The date the code
    reads from the clock is a parameter, already formatted as `dd/mm/yyyy`. */
module Prescription {
  import opened Results
  import opened PyStrings
  import Languages

  datatype Treatment = Treatment(medications: seq<string>, instructions: seq<string>, followUp: string)

  /** The labelled lines of a prescription template, in template order. */
  datatype Template = Template(
    title: string,
    dateLabel: string,
    patientLine: string,
    diagnosisLabel: string,
    medicationsLabel: string,
    instructionsLabel: string,
    followUpLabel: string,
    doctorLine: string)

  const Marker := "condition identified"

  const DiagnosisError := "Diagnosis must be a non-empty string"

  // ---------------------------------------------------------------------
  // Primary condition

  /** The line names the condition: it contains the marker, in any case. */
  predicate HasMarker(line: string) {
    Contains(AsciiLower(line), Marker)
  }

  /** `line.strip()` is truthy. */
  predicate HasContent(line: string) {
    !Blank(line)
  }

  /** The index of the first line satisfying `p`. */
  function FirstMatch(lines: seq<string>, p: string -> bool): (r: Option<nat>)
    ensures r.Some? ==> r.value < |lines| && p(lines[r.value])
    ensures r.Some? ==> forall i :: 0 <= i < r.value ==> !p(lines[i])
    ensures r.None? ==> forall i :: 0 <= i < |lines| ==> !p(lines[i])
  {
    if lines == [] then None
    else if p(lines[0]) then Some(0)
    else
      match FirstMatch(lines[1..], p)
      case None => None
      case Some(k) => Some(k + 1)
  }

  /** `line.split(":")[-1]`: the text after the last colon. */
  function AfterLastColon(line: string): (r: string)
    ensures ':' !in r
    ensures |r| <= |line| && r == line[|line| - |r|..]
    ensures |r| < |line| ==> line[|line| - |r| - 1] == ':'
  {
    if line == [] then []
    else if line[|line| - 1] == ':' then []
    else AfterLastColon(line[..|line| - 1]) + [line[|line| - 1]]
  }

  /** The condition the diagnosis names: after the last colon of the first
      marker line, trimmed; else the first line with content; else the whole
      diagnosis. In every case a piece of the diagnosis text. */
  function PrimaryCondition(diagnosis: string): (r: string)
    ensures Contains(diagnosis, r)
  {
    var lines := SplitLines(diagnosis);
    match FirstMatch(lines, HasMarker)
    case Some(i) =>
      SplitLinesContained(diagnosis, i);
      LabelledPartContained(diagnosis, lines[i]);
      Strip(AfterLastColon(lines[i]))
    case None =>
      match FirstMatch(lines, HasContent)
      case Some(j) =>
        SplitLinesContained(diagnosis, j);
        lines[j]
      case None =>
        ContainsInfix([], diagnosis, []);
        assert [] + diagnosis + [] == diagnosis;
        diagnosis
  }

  /** The trimmed text after the last colon of a piece of the text is a
      piece of the text. */
  lemma {:induction false} LabelledPartContained(text: string, line: string)
    requires Contains(text, line)
    ensures Contains(text, Strip(AfterLastColon(line)))
  {
    var part := AfterLastColon(line);
    ContainsSlice(line, |line| - |part|, |line|);
    assert line[|line| - |part|..|line|] == part;
    ContainsTransitive(text, line, part);
    StripContained(part);
    ContainsTransitive(text, part, Strip(part));
  }

  // ---------------------------------------------------------------------
  // Tables

  /** The treatments known by condition, then by language. */
  const Conditions: map<string, map<string, Treatment>> := map[
    "Dandruff" := map[
      "English" := Treatment(
        ["Ketoconazole 2% shampoo", "Selenium sulfide 2.5% shampoo"],
        ["Use medicated shampoo twice weekly.", "Leave on scalp for 5-10 minutes."],
        "Follow up in 2 weeks if condition persists."),
      "Hindi" := Treatment(
        ["कीटोकोनाज़ोल 2% शैम्पू", "सेलेनियम सल्फाइड 2.5% शैम्पू"],
        ["सप्ताह में दो बार मेडिकेटेड शैम्पू का उपयोग करें।", "5-10 मिनट तक स्कैल्प पर लगा रहने दें।"],
        "यदि स्थिति बनी रहती है तो 2 सप्ताह में फॉलो-अप करें।"),
      "Marathi" := Treatment(
        ["कीटोकोनाझोल २% शाम्पू", "सेलेनियम सल्फाइड २.५% शाम्पू"],
        ["आठवड्यातून दोनदा औषधी शाम्पू वापरावा.", "५-१० मिनिटे स्कॅल्पवर ठेवा."],
        "स्थिती कायम राहिल्यास २ आठवड्यांनी पुन्हा संपर्क साधा.")
    ]
  ]

  /** The "consult a professional" treatment used for unknown conditions. */
  const Fallback: map<string, Treatment> := map[
    "English" := Treatment(
      ["No specific medication found for this diagnosis."],
      ["Please consult a healthcare professional for a personalized treatment plan."],
      "Follow up with a doctor as soon as possible."),
    "Hindi" := Treatment(
      ["इस निदान के लिए कोई विशिष्ट दवा नहीं मिली।"],
      ["व्यक्तिगत उपचार योजना के लिए कृपया किसी स्वास्थ्य देखभाल पेशेवर से परामर्श लें।"],
      "यथाशीघ्र डॉक्टर से संपर्क करें।"),
    "Marathi" := Treatment(
      ["या निदानासाठी कोणतेही विशिष्ट औषध सापडले नाही."],
      ["वैयक्तिकृत उपचार योजनेसाठी कृपया आरोग्यसेवा व्यावसायिकाचा सल्ला घ्या."],
      "शक्य तितक्या लवकर डॉक्टरांशी संपर्क साधा.")
  ]

  const Templates: map<string, Template> := map[
    "English" := Template(
      "PRESCRIPTION", "Date", "Patient: [Patient Name]", "Diagnosis",
      "Medications", "Instructions", "Follow-up", "Doctor: AI Doctor"),
    "Hindi" := Template(
      "नुस्खा", "दिनांक", "रोगी: [रोगी का नाम]", "निदान",
      "दवाइयां", "निर्देश", "फॉलो-अप", "डॉक्टर: AI Doctor"),
    "Marathi" := Template(
      "औषधोपचार", "दिनांक", "रुग्ण: [रुग्णाचे नाव]", "निदान",
      "औषधे", "सूचना", "पुन्हा तपासणी", "डॉक्टर: AI Doctor")
  ]

  /** `meds_map.get(condition, fallback_treatment)`: exact, case-sensitive. */
  function TreatmentOptions(condition: string): map<string, Treatment> {
    if condition in Conditions then Conditions[condition] else Fallback
  }

  /** `options.get(language, options.get("English"))`; no entry of either
      table has an empty section. */
  function SelectTreatment(condition: string, language: string): (t: Treatment)
    ensures |t.medications| > 0 && |t.instructions| > 0
    ensures condition in Conditions ==> t == Conditions[condition][Languages.Resolve(language)]
    ensures condition !in Conditions ==> t == Fallback[Languages.Resolve(language)]
  {
    var options := TreatmentOptions(condition);
    if language in options then options[language] else options["English"]
  }

  /** `templates.get(language, templates["English"])`. */
  function SelectTemplate(language: string): (t: Template)
    ensures t == Templates[Languages.Resolve(language)]
  {
    if language in Templates then Templates[language] else Templates["English"]
  }

  // ---------------------------------------------------------------------
  // Rendering

  /** One `- item` line per item. */
  function Bullets(items: seq<string>): (lines: seq<string>)
    ensures |lines| == |items|
    ensures forall k :: 0 <= k < |items| ==> lines[k] == "- " + items[k]
  {
    if items == [] then [] else ["- " + items[0]] + Bullets(items[1..])
  }

  /** `"\n".join(f"- {item}" for item in items)`. */
  function BulletList(items: seq<string>): string {
    JoinLines(Bullets(items))
  }

  /** The template up to the diagnosis: title, date, patient and the
      diagnosis label. */
  function Header(t: Template, date: string): string {
    "\n" + t.title + "\n" + t.dateLabel + ": " + date + "\n" + t.patientLine + "\n" + t.diagnosisLabel + ": "
  }

  /** A heading line followed by one bullet line per item, each ended by a
      line break, after an empty line. */
  function Section(heading: string, items: seq<string>): string {
    "\n" + heading + ":\n" + BulletList(items) + "\n"
  }

  /** The follow-up line, after an empty line. */
  function FollowUpLine(t: Template, followUp: string): string {
    "\n" + t.followUpLabel + ": " + followUp + "\n"
  }

  /** `template.format(date=..., diagnosis=..., medications=..., ...)`: the
      template's text, cut at its placeholders. */
  function Render(t: Template, date: string, diagnosis: string, treatment: Treatment): string {
    Header(t, date) + diagnosis + "\n"
    + Section(t.medicationsLabel, treatment.medications)
    + Section(t.instructionsLabel, treatment.instructions)
    + FollowUpLine(t, treatment.followUp) + "\n" + t.doctorLine + "\n"
  }

  /** `generate_prescription(diagnosis, language)` on the given date. The
      error is raised exactly for an empty or non-string diagnosis. */
  function GeneratePrescription(diagnosis: PyValue, language: string, date: string): (r: Result<string>)
    ensures r.Error? <==> diagnosis == Str("") || diagnosis.Obj?
    ensures r.Error? ==> r.message == DiagnosisError
  {
    if !IsNonEmptyStr(diagnosis) then Error(DiagnosisError)
    else
      var d := diagnosis.s;
      Ok(Render(SelectTemplate(language), date, d, SelectTreatment(PrimaryCondition(d), language)))
  }

  // ---------------------------------------------------------------------
  // Properties

  /** The first marker line decides the condition. */
  lemma MarkerLineDecides(diagnosis: string, i: nat)
    requires i < |SplitLines(diagnosis)|
    requires HasMarker(SplitLines(diagnosis)[i])
    requires forall j :: 0 <= j < i ==> !HasMarker(SplitLines(diagnosis)[j])
    ensures PrimaryCondition(diagnosis) == Strip(AfterLastColon(SplitLines(diagnosis)[i]))
  {
    var r := FirstMatch(SplitLines(diagnosis), HasMarker);
    assert r.Some? && r.value == i;
  }

  /** A line without a colon is taken whole. */
  lemma {:induction false} AfterLastColonWhole(line: string)
    requires ':' !in line
    ensures AfterLastColon(line) == line
  {
  }

  /** After a labelled prefix such as `- Condition identified`, the text
      after the colon is taken, and a colon inside the prefix does not
      matter. */
  lemma {:induction false} AfterLastColonLabel(prefix: string, rest: string)
    requires ':' !in rest
    ensures AfterLastColon(prefix + ":" + rest) == rest
  {
    var line := prefix + ":" + rest;
    if rest != [] {
      var last := |rest| - 1;
      assert line[..|line| - 1] == prefix + ":" + rest[..last];
      assert rest[last] in rest;
      AfterLastColonLabel(prefix, rest[..last]);
      assert rest == rest[..last] + [rest[last]];
    }
  }

  /** Without a marker line, the first line with content is the condition,
      untrimmed. */
  lemma FirstContentLineDecides(diagnosis: string, j: nat)
    requires forall i :: 0 <= i < |SplitLines(diagnosis)| ==> !HasMarker(SplitLines(diagnosis)[i])
    requires j < |SplitLines(diagnosis)| && !Blank(SplitLines(diagnosis)[j])
    requires forall i :: 0 <= i < j ==> Blank(SplitLines(diagnosis)[i])
    ensures PrimaryCondition(diagnosis) == SplitLines(diagnosis)[j]
  {
    var lines := SplitLines(diagnosis);
    assert FirstMatch(lines, HasMarker).None?;
    assert FirstMatch(lines, HasContent) == Some(j);
  }

  /** Without a marker line or a line with content, the whole diagnosis is
      the condition. */
  lemma NoLineDecides(diagnosis: string)
    requires forall i :: 0 <= i < |SplitLines(diagnosis)| ==>
      !HasMarker(SplitLines(diagnosis)[i]) && Blank(SplitLines(diagnosis)[i])
    ensures PrimaryCondition(diagnosis) == diagnosis
  {
    var lines := SplitLines(diagnosis);
    assert FirstMatch(lines, HasMarker).None?;
    assert FirstMatch(lines, HasContent).None?;
  }

  /** Only "Dandruff" has treatments of its own. */
  lemma OnlyDandruffKnown()
    ensures Conditions.Keys == {"Dandruff"}
    ensures forall c :: c in Conditions ==> Conditions[c].Keys == Languages.Known
    ensures Fallback.Keys == Languages.Known && Templates.Keys == Languages.Known
  {
  }

  /** Any condition other than "Dandruff", such as "dandruff", gets the
      fallback block in the requested language, or in English. */
  lemma UnknownConditionFallsBack(condition: string, language: string)
    requires condition != "Dandruff"
    ensures SelectTreatment(condition, language) ==
      Fallback[Languages.Resolve(language)]
  {
  }

  /** An unknown language gets the English entry and the English template. */
  lemma UnknownLanguageIsEnglish(condition: string, language: string)
    requires language !in Languages.Known
    ensures SelectTreatment(condition, language) == SelectTreatment(condition, "English")
    ensures SelectTemplate(language) == SelectTemplate("English")
  {
  }

  /** The English treatment of dandruff. */
  lemma DandruffInEnglish()
    ensures SelectTreatment("Dandruff", "English").medications
      == ["Ketoconazole 2% shampoo", "Selenium sulfide 2.5% shampoo"]
    ensures SelectTreatment("Dandruff", "English").instructions
      == ["Use medicated shampoo twice weekly.", "Leave on scalp for 5-10 minutes."]
    ensures SelectTreatment("Dandruff", "English").followUp
      == "Follow up in 2 weeks if condition persists."
  {
  }

  /** The bullet list splits back into one `- item` line per item, in order. */
  lemma {:induction false} BulletListLines(items: seq<string>)
    requires forall k :: 0 <= k < |items| ==> NoLineBreak(items[k])
    ensures SplitLines(BulletList(items)) == Bullets(items)
  {
    var lines := Bullets(items);
    forall k | 0 <= k < |lines| ensures NoLineBreak(lines[k]) {
      assert lines[k] == "- " + items[k];
    }
    if lines != [] {
      assert lines[|lines| - 1][0] == '-';
    }
    SplitJoinLines(lines);
  }

  /** The rendered prescription holds the diagnosis verbatim, each list as
      a heading line followed by its bullet lines, and the follow-up line. */
  lemma {:induction false} RenderedSections(t: Template, date: string, diagnosis: string, treatment: Treatment)
    ensures Contains(Render(t, date, diagnosis, treatment), diagnosis)
    ensures Contains(Render(t, date, diagnosis, treatment), Section(t.medicationsLabel, treatment.medications))
    ensures Contains(Render(t, date, diagnosis, treatment), Section(t.instructionsLabel, treatment.instructions))
    ensures Contains(Render(t, date, diagnosis, treatment), FollowUpLine(t, treatment.followUp))
  {
    var h := Header(t, date);
    var meds := Section(t.medicationsLabel, treatment.medications);
    var instrs := Section(t.instructionsLabel, treatment.instructions);
    var follow := FollowUpLine(t, treatment.followUp);
    var p0 := h + diagnosis;
    var p1 := p0 + "\n";
    var p2 := p1 + meds;
    var p3 := p2 + instrs;
    var p4 := p3 + follow;
    var p5 := p4 + "\n";
    var p6 := p5 + t.doctorLine;
    ContainsInfix(h, diagnosis, []);
    assert h + diagnosis + [] == p0;
    ContainsAppend(p0, "\n", diagnosis);
    ContainsAppend(p1, meds, diagnosis);
    ContainsInfix(p1, meds, []);
    assert p1 + meds + [] == p2;
    ContainsAppend(p2, instrs, diagnosis);
    ContainsAppend(p2, instrs, meds);
    ContainsInfix(p2, instrs, []);
    assert p2 + instrs + [] == p3;
    ContainsInfix(p3, follow, []);
    assert p3 + follow + [] == p4;
    forall x | x in [diagnosis, meds, instrs] ensures Contains(p4, x) {
      ContainsAppend(p3, follow, x);
    }
    forall x | x in [diagnosis, meds, instrs, follow] ensures Contains(p6 + "\n", x) {
      ContainsAppend(p4, "\n", x);
      ContainsAppend(p5, t.doctorLine, x);
      ContainsAppend(p6, "\n", x);
    }
  }

  /** A non-empty string diagnosis always gives a prescription, holding the
      diagnosis verbatim and, under the selected template's headings, the
      (never empty) medication and instruction lists of the selected
      treatment as bullet lines, and its follow-up line. */
  lemma PrescriptionContents(diagnosis: string, language: string, date: string)
    requires diagnosis != []
    ensures var r := GeneratePrescription(Str(diagnosis), language, date);
      var t := SelectTemplate(language);
      var treatment := SelectTreatment(PrimaryCondition(diagnosis), language);
      r.Ok?
      && Contains(r.value, diagnosis)
      && Contains(r.value, Section(t.medicationsLabel, treatment.medications))
      && Contains(r.value, Section(t.instructionsLabel, treatment.instructions))
      && Contains(r.value, FollowUpLine(t, treatment.followUp))
      && treatment.medications != [] && treatment.instructions != []
  {
    var t := SelectTemplate(language);
    var treatment := SelectTreatment(PrimaryCondition(diagnosis), language);
    RenderedSections(t, date, diagnosis, treatment);
  }
}
