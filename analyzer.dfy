/**
 * The offline, rule-based symptom engine: a free-text classifier with two
 * ordered first-match tables (emergency phrases, then symptom phrases) and a
 * fixed fallback, and the formatter that renders an analysis as the doctor's
 * reply.
 */
module Analyzer {
  import opened Options
  import opened Text

  datatype Severity = Low | Medium | High | Emergency

  datatype Analysis = Analysis(
    condition: string,
    severity: Severity,
    guidance: string,
    precautions: seq<string>,
    whenToSeekHelp: string,
    isEmergency: bool,
    emergencyMessage: Option<string>)

  /** The agreement every analysis the engine produces keeps. */
  predicate Consistent(a: Analysis) {
    && a.isEmergency == (a.severity == Emergency)
    && a.isEmergency == a.emergencyMessage.Some?
  }

  // --------------------------------------------------------------- tables

  /** Emergency phrases, in the precedence order in which they are tried. */
  const EmergencyKeywords: seq<string> := [
    "chest pain", "heart attack", "can't breathe", "difficulty breathing",
    "unconscious", "unresponsive", "severe bleeding", "stroke", "paralysis",
    "seizure", "convulsion", "poisoning", "overdose", "suicidal", "severe burn",
    "head injury", "drowning", "choking", "anaphylaxis", "allergic reaction severe"
  ]

  datatype SymptomEntry = SymptomEntry(symptom: string, analysis: Analysis)

  const FeverRecord := Analysis(
    "Fever / Viral Infection", Medium,
    "You seem to have fever. This is often caused " +
      "by viral infections. Please take adequate " +
      "rest and stay hydrated.",
    ["Drink plenty of fluids - water, ORS, coconut water",
     "Take paracetamol (500mg) for fever above 100\U{C2}\U{B0}F",
     "Use a cool damp cloth on forehead",
     "Eat light, easily digestible food",
     "Take complete bed rest"],
    "If fever persists beyond 3 days, exceeds " +
      "103\U{C2}\U{B0}F, or is accompanied by " +
      "severe headache, rash, or difficulty " +
      "breathing.",
    false, None)

  const ColdRecord := Analysis(
    "Common Cold", Low,
    "You appear to have a common cold. This is " +
      "usually self-limiting and will improve in " +
      "5-7 days.",
    ["Steam inhalation 2-3 times daily",
     "Warm water with honey and ginger",
     "Gargle with warm salt water",
     "Avoid cold drinks and ice cream",
     "Get adequate sleep"],
    "If symptoms worsen, fever develops, or you " +
      "experience breathing difficulty.",
    false, None)

  const CoughRecord := Analysis(
    "Cough / Respiratory Infection", Low,
    "Cough is your body's way of clearing the " +
      "airways. Let me suggest some remedies.",
    ["Honey with warm water provides relief",
     "Steam inhalation helps loosen mucus",
     "Avoid dust and smoke exposure",
     "Keep yourself warm",
     "Stay hydrated"],
    "If cough persists beyond 2 weeks, produces " +
      "blood, or is accompanied by high fever and " +
      "chest pain.",
    false, None)

  const HeadacheRecord := Analysis(
    "Headache / Tension Headache", Low,
    "Headaches are common and usually not " +
      "serious. Let me help you manage it.",
    ["Rest in a quiet, dark room",
     "Apply cold compress to forehead",
     "Take paracetamol if needed",
     "Stay hydrated",
     "Reduce screen time"],
    "If headache is sudden and severe, " +
      "accompanied by vision changes, stiff neck, " +
      "or confusion.",
    false, None)

  const StomachPainRecord := Analysis(
    "Abdominal Pain / Gastric Issue", Medium,
    "Stomach pain can have various causes. Let me " +
      "suggest some initial measures.",
    ["Avoid spicy and oily food",
     "Eat small, frequent meals",
     "Take antacid if gastric in nature",
     "Stay hydrated with ORS",
     "Apply warm compress if cramps"],
    "If pain is severe, persistent, or " +
      "accompanied by blood in stool, vomiting " +
      "blood, or high fever.",
    false, None)

  const DiarrheaRecord := Analysis(
    "Diarrhea / Gastroenteritis", Medium,
    "Diarrhea leads to dehydration. The most " +
      "important thing is to replace lost fluids.",
    ["Drink ORS after every loose motion",
     "Continue breastfeeding for infants",
     "Eat easily digestible food like khichdi",
     "Avoid milk and dairy products",
     "Maintain hygiene - wash hands frequently"],
    "If you notice blood in stool, high fever, " +
      "signs of severe dehydration, or symptoms " +
      "persist beyond 2 days.",
    false, None)

  const VomitingRecord := Analysis(
    "Vomiting / Nausea", Medium,
    "Vomiting can lead to dehydration. Let's " +
      "focus on keeping you hydrated.",
    ["Take small sips of water frequently",
     "Try ginger tea for nausea",
     "Avoid solid food until vomiting stops",
     "Rest in a propped up position",
     "Start ORS once vomiting reduces"],
    "If vomiting blood, severe abdominal pain, " +
      "signs of dehydration, or vomiting persists " +
      "beyond 24 hours.",
    false, None)

  const BodyPainRecord := Analysis(
    "Body Ache / Myalgia", Low,
    "Body pain is often associated with viral " +
      "infections or physical strain.",
    ["Take adequate rest",
     "Gentle massage with warm oil",
     "Paracetamol for pain relief",
     "Stay hydrated",
     "Warm compress on affected areas"],
    "If accompanied by high fever, rash, severe " +
      "weakness, or pain is localized and severe.",
    false, None)

  const SkinRashRecord := Analysis(
    "Skin Rash / Allergic Reaction", Medium,
    "Skin rashes can be due to allergies or " +
      "infections. Let me guide you.",
    ["Avoid scratching the affected area",
     "Apply calamine lotion for itching",
     "Wear loose cotton clothes",
     "Identify and avoid potential allergens",
     "Take antihistamine if allergic"],
    "If rash spreads rapidly, is accompanied by " +
      "breathing difficulty, swelling, or fever.",
    false, None)

  const WeaknessRecord := Analysis(
    "General Weakness / Fatigue", Low,
    "Feeling weak can be due to various reasons " +
      "including inadequate nutrition or illness.",
    ["Ensure adequate sleep and rest",
     "Eat nutritious, balanced meals",
     "Stay hydrated",
     "Light exercise when feeling better",
     "Check for anemia if persistent"],
    "If weakness is sudden, severe, or " +
      "accompanied by other symptoms like chest " +
      "pain or confusion.",
    false, None)

  const DiabetesRecord := Analysis(
    "Diabetes Management Query", Medium,
    "Managing diabetes requires consistent " +
      "attention to diet, medication, and lifestyle.",
    ["Monitor blood sugar regularly",
     "Take medications as prescribed",
     "Follow a low-sugar, balanced diet",
     "Regular physical activity",
     "Regular check-ups for complications"],
    "If blood sugar is very high or low, symptoms " +
      "of diabetic emergency, or wounds that don't " +
      "heal.",
    false, None)

  const BloodPressureRecord := Analysis(
    "Blood Pressure Concern", Medium,
    "Blood pressure management is important for heart health.",
    ["Reduce salt intake",
     "Take prescribed medications regularly",
     "Regular monitoring at home",
     "Maintain healthy weight",
     "Avoid stress, practice relaxation"],
    "If BP is very high (above 180/120), severe " +
      "headache, chest pain, or vision changes.",
    false, None)

  /** The symptom table in declaration order, which is the order it is scanned in. */
  const SymptomDatabase: seq<SymptomEntry> := [
    SymptomEntry("fever", FeverRecord),
    SymptomEntry("cold", ColdRecord),
    SymptomEntry("cough", CoughRecord),
    SymptomEntry("headache", HeadacheRecord),
    SymptomEntry("stomach pain", StomachPainRecord),
    SymptomEntry("diarrhea", DiarrheaRecord),
    SymptomEntry("vomiting", VomitingRecord),
    SymptomEntry("body pain", BodyPainRecord),
    SymptomEntry("skin rash", SkinRashRecord),
    SymptomEntry("weakness", WeaknessRecord),
    SymptomEntry("diabetes", DiabetesRecord),
    SymptomEntry("blood pressure", BloodPressureRecord)
  ]

  /** The symptom phrases of a table, in table order. */
  function PhrasesOf(entries: seq<SymptomEntry>): (keys: seq<string>)
    ensures |keys| == |entries|
    ensures forall i :: 0 <= i < |keys| ==> keys[i] == entries[i].symptom
  {
    if entries == [] then [] else [entries[0].symptom] + PhrasesOf(entries[1..])
  }

  /** The record returned when neither table matches. */
  const Fallback := Analysis(
    "General Health Concern", Low,
    "I understand you're not feeling well. While " +
      "I couldn't identify a specific condition, " +
      "let me provide general guidance.",
    ["Take adequate rest",
     "Stay hydrated with water and fluids",
     "Eat light, nutritious food",
     "Monitor your symptoms",
     "Maintain hygiene and cleanliness"],
    "If symptoms persist beyond 2-3 days, worsen, " +
      "or you develop new symptoms like high fever " +
      "or severe pain.",
    false, None)

  /** The warning-sign characters that open the emergency message, kept as the code points the source holds. */
  const AlertSign := "\U{E2}\U{161}\U{A0}\U{EF}\U{B8}"

  const AlertHead := AlertSign + " EMERGENCY ALERT: Symptoms like "
  const AlertTail := " require immediate medical attention. Please " +
    "visit the nearest hospital immediately or " +
    "call 108 for ambulance. Do not delay!"

  /** The emergency message, quoting the phrase that triggered it. */
  function EmergencyMessage(keyword: string): (m: string)
    ensures Contains(m, "\"" + keyword + "\"")
  {
    ContainsMiddle(AlertHead, "\"" + keyword + "\"", AlertTail);
    AlertHead + ("\"" + keyword + "\"") + AlertTail
  }

  const EmergencyCondition := "Medical Emergency Detected"
  const EmergencyGuidance := "This appears to be a medical emergency " +
    "requiring immediate attention."
  const EmergencyPrecautions := [
    "Call emergency services immediately (108 or 102)",
    "Do not delay seeking hospital care",
    "Keep the patient calm and comfortable",
    "Do not give any food or water",
    "Note down the symptoms and time of onset"]
  const EmergencyWhenToSeekHelp := "IMMEDIATELY - Please go to the nearest " +
    "hospital or call emergency services right " +
    "now."

  /** The synthesised record for an emergency phrase. */
  function EmergencyAnalysis(keyword: string): (a: Analysis)
    ensures Consistent(a) && a.isEmergency
    ensures a.emergencyMessage == Some(EmergencyMessage(keyword))
  {
    Analysis(EmergencyCondition, Emergency, EmergencyGuidance, EmergencyPrecautions,
      EmergencyWhenToSeekHelp, true, Some(EmergencyMessage(keyword)))
  }

  // ------------------------------------------------------------- matching

  /** The index of the first phrase of `phrases`, in list order, that `text` includes. */
  function FirstIncluded(text: string, phrases: seq<string>): (r: Option<nat>)
    ensures r.Some? ==> r.value < |phrases| && Contains(text, phrases[r.value])
    ensures r.Some? ==> forall j :: 0 <= j < r.value ==> !Contains(text, phrases[j])
    ensures r.None? <==> forall j :: 0 <= j < |phrases| ==> !Contains(text, phrases[j])
    decreases |phrases|
  {
    if phrases == [] then None
    else if Contains(text, phrases[0]) then Some(0)
    else match FirstIncluded(text, phrases[1..])
      case None => None
      case Some(i) => Some(i + 1)
  }

  /** No phrase of a table is an emergency: every record has the flag off and no message. */
  predicate NonEmergencyTable(table: seq<SymptomEntry>) {
    forall j :: 0 <= j < |table| ==> !table[j].analysis.isEmergency && Consistent(table[j].analysis)
  }

  /**
   * The two scans of `analyzeSymptoms` over given tables, on text that is
   * already lower-cased: the first emergency phrase in list order, else the
   * record of the first symptom phrase in table order, else the fallback.
   */
  function Classify(text: string, keywords: seq<string>, table: seq<SymptomEntry>, fallback: Analysis): (r: Analysis)
    requires NonEmergencyTable(table) && Consistent(fallback) && !fallback.isEmergency
    ensures Consistent(r)
    ensures r.isEmergency <==> exists k :: 0 <= k < |keywords| && Contains(text, keywords[k])
  {
    match FirstIncluded(text, keywords)
    case Some(i) => EmergencyAnalysis(keywords[i])
    case None =>
      match FirstIncluded(text, PhrasesOf(table))
      case Some(j) => table[j].analysis
      case None => fallback
  }

  lemma ClassifyEmergency(text: string, keywords: seq<string>, table: seq<SymptomEntry>, fallback: Analysis, i: nat)
    requires NonEmergencyTable(table) && Consistent(fallback) && !fallback.isEmergency
    requires i < |keywords| && Contains(text, keywords[i])
    requires forall j :: 0 <= j < i ==> !Contains(text, keywords[j])
    ensures Classify(text, keywords, table, fallback) == EmergencyAnalysis(keywords[i])
  {
    var r := FirstIncluded(text, keywords);
    assert r.Some? && r.value == i;
  }

  lemma ClassifySymptom(text: string, keywords: seq<string>, table: seq<SymptomEntry>, fallback: Analysis, j: nat)
    requires NonEmergencyTable(table) && Consistent(fallback) && !fallback.isEmergency
    requires forall k :: 0 <= k < |keywords| ==> !Contains(text, keywords[k])
    requires j < |table| && Contains(text, table[j].symptom)
    requires forall m :: 0 <= m < j ==> !Contains(text, table[m].symptom)
    ensures Classify(text, keywords, table, fallback) == table[j].analysis
  {
    var r := FirstIncluded(text, PhrasesOf(table));
    assert r.Some? && r.value == j;
  }

  lemma ClassifyFallback(text: string, keywords: seq<string>, table: seq<SymptomEntry>, fallback: Analysis)
    requires NonEmergencyTable(table) && Consistent(fallback) && !fallback.isEmergency
    requires forall k :: 0 <= k < |keywords| ==> !Contains(text, keywords[k])
    requires forall m :: 0 <= m < |table| ==> !Contains(text, table[m].symptom)
    ensures Classify(text, keywords, table, fallback) == fallback
  {
    assert FirstIncluded(text, PhrasesOf(table)).None?;
  }

  lemma ClassifyOutcomes(text: string, keywords: seq<string>, table: seq<SymptomEntry>, fallback: Analysis)
    requires NonEmergencyTable(table) && Consistent(fallback) && !fallback.isEmergency
    ensures var r := Classify(text, keywords, table, fallback);
      || r == fallback
      || (exists j :: 0 <= j < |table| && r == table[j].analysis)
      || (exists k :: 0 <= k < |keywords| && r == EmergencyAnalysis(keywords[k]))
  {
    match FirstIncluded(text, keywords)
    case Some(i) =>
    case None =>
      match FirstIncluded(text, PhrasesOf(table))
      case Some(j) =>
        assert Classify(text, keywords, table, fallback) == table[j].analysis;
      case None =>
  }

  /** The symptom table and the fallback hold no emergency record. */
  lemma TablesAreNonEmergency()
    ensures NonEmergencyTable(SymptomDatabase) && Consistent(Fallback) && !Fallback.isEmergency
  {
  }

  /** `analyzeSymptoms`: lower-case the input, then classify it against the two tables. */
  function AnalyzeSymptoms(input: string): (r: Analysis)
    ensures Consistent(r)
    ensures r.isEmergency <==> exists k :: 0 <= k < |EmergencyKeywords| && Contains(Lower(input), EmergencyKeywords[k])
  {
    TablesAreNonEmergency();
    Classify(Lower(input), EmergencyKeywords, SymptomDatabase, Fallback)
  }

  /** No emergency phrase is included in the lower-cased input. */
  predicate NoEmergencyPhrase(input: string) {
    forall k :: 0 <= k < |EmergencyKeywords| ==> !Contains(Lower(input), EmergencyKeywords[k])
  }

  /** The first-listed matching emergency phrase decides, whatever symptom words are also present. */
  lemma EmergencyQuotesFirstListedPhrase(input: string, i: nat)
    requires i < |EmergencyKeywords| && Contains(Lower(input), EmergencyKeywords[i])
    requires forall j :: 0 <= j < i ==> !Contains(Lower(input), EmergencyKeywords[j])
    ensures AnalyzeSymptoms(input) == EmergencyAnalysis(EmergencyKeywords[i])
    ensures AnalyzeSymptoms(input).severity == Emergency
    ensures Contains(AnalyzeSymptoms(input).emergencyMessage.value, "\"" + EmergencyKeywords[i] + "\"")
  {
    TablesAreNonEmergency();
    ClassifyEmergency(Lower(input), EmergencyKeywords, SymptomDatabase, Fallback, i);
  }

  /** Without an emergency phrase, the first-declared symptom phrase the input includes gives its record verbatim. */
  lemma FirstDeclaredSymptomWins(input: string, j: nat)
    requires NoEmergencyPhrase(input)
    requires j < |SymptomDatabase| && Contains(Lower(input), SymptomDatabase[j].symptom)
    requires forall m :: 0 <= m < j ==> !Contains(Lower(input), SymptomDatabase[m].symptom)
    ensures AnalyzeSymptoms(input) == SymptomDatabase[j].analysis
  {
    TablesAreNonEmergency();
    ClassifySymptom(Lower(input), EmergencyKeywords, SymptomDatabase, Fallback, j);
  }

  /** An input that includes no phrase of either table gets the fallback record. */
  lemma NoPhraseGivesFallback(input: string)
    requires NoEmergencyPhrase(input)
    requires forall m :: 0 <= m < |SymptomDatabase| ==> !Contains(Lower(input), SymptomDatabase[m].symptom)
    ensures AnalyzeSymptoms(input) == Fallback
  {
    TablesAreNonEmergency();
    ClassifyFallback(Lower(input), EmergencyKeywords, SymptomDatabase, Fallback);
  }

  /** The empty input never fails: it gets the fallback, of low severity. */
  lemma EmptyInputGivesFallback()
    ensures AnalyzeSymptoms("") == Fallback
    ensures AnalyzeSymptoms("").severity == Low
  {
    forall k | 0 <= k < |EmergencyKeywords| ensures !Contains(Lower(""), EmergencyKeywords[k]) {
      AbsentCharNotContained("", EmergencyKeywords[k], EmergencyKeywords[k][0]);
    }
    forall m | 0 <= m < |SymptomDatabase| ensures !Contains(Lower(""), SymptomDatabase[m].symptom) {
      AbsentCharNotContained("", SymptomDatabase[m].symptom, SymptomDatabase[m].symptom[0]);
    }
    NoPhraseGivesFallback("");
  }

  /** Classification ignores ASCII letter case. */
  lemma CaseInsensitive(input: string)
    ensures AnalyzeSymptoms(input) == AnalyzeSymptoms(Lower(input))
  {
    LowerIdempotent(input);
  }

  /** Every result is the fallback, a table record or an emergency record. */
  lemma ResultIsTabledOrEmergency(input: string)
    ensures var r := AnalyzeSymptoms(input);
      || r == Fallback
      || (exists j :: 0 <= j < |SymptomDatabase| && r == SymptomDatabase[j].analysis)
      || (exists k :: 0 <= k < |EmergencyKeywords| && r == EmergencyAnalysis(EmergencyKeywords[k]))
  {
    TablesAreNonEmergency();
    ClassifyOutcomes(Lower(input), EmergencyKeywords, SymptomDatabase, Fallback);
  }

  /** Every emergency phrase holds one of the letters c, s, j and w: a text without them raises no alert. */
  lemma {:induction false} NoEmergencyPhraseWithoutItsLetters(text: string)
    requires 'c' !in text && 's' !in text && 'j' !in text && 'w' !in text
    ensures forall k :: 0 <= k < |EmergencyKeywords| ==> !Contains(text, EmergencyKeywords[k])
  {
    var letters := "cccccssssscssssjwcsc";
    forall k | 0 <= k < |EmergencyKeywords| ensures !Contains(text, EmergencyKeywords[k]) {
      AbsentCharNotContained(text, EmergencyKeywords[k], letters[k]);
    }
  }

  /**
   * "I have fever and body pain": both phrases are in the table, and "fever",
   * declared first, decides.
   */
  lemma FeverOutranksBodyPain(input: string)
    requires NoEmergencyPhrase(input)
    requires Contains(Lower(input), "fever") && Contains(Lower(input), "body pain")
    ensures AnalyzeSymptoms(input) == FeverRecord
    ensures AnalyzeSymptoms(input).condition == "Fever / Viral Infection"
    ensures AnalyzeSymptoms(input).severity == Medium
  {
    FirstDeclaredSymptomWins(input, 0);
  }

  /**
   * "I can't breathe, chest pain": the order of the phrase list, not the
   * order in the text, picks the phrase the alert quotes.
   */
  lemma ListOrderPicksQuotedPhrase(input: string)
    requires Contains(Lower(input), "can't breathe") && Contains(Lower(input), "chest pain")
    ensures AnalyzeSymptoms(input) == EmergencyAnalysis("chest pain")
  {
    EmergencyQuotesFirstListedPhrase(input, 0);
  }

  /** "i have fever and body pain" has none of the letters c, s, j and w. */
  lemma FeverSentenceLetters(text: string)
    requires text == "i have fever and body pain"
    ensures 'c' !in text && 's' !in text && 'j' !in text && 'w' !in text
  {
  }

  /** Where the two phrases sit in "i have fever and body pain". */
  lemma FeverSentencePhrases(text: string)
    requires text == "i have fever and body pain"
    ensures OccursAt(text, "fever", 7) && OccursAt(text, "body pain", 17)
  {
  }

  /** Lower-casing "I have Fever and Body Pain". */
  lemma FeverSentenceLowered(input: string)
    requires input == "I have Fever and Body Pain"
    ensures Lower(input) == "i have fever and body pain"
  {
  }

  /** The sentence "I have Fever and Body Pain" gets the fever record. */
  lemma FeverSentence(input: string)
    requires input == "I have Fever and Body Pain"
    ensures AnalyzeSymptoms(input) == FeverRecord
  {
    var text := Lower(input);
    FeverSentenceLowered(input);
    FeverSentenceLetters(text);
    FeverSentencePhrases(text);
    NoEmergencyPhraseWithoutItsLetters(text);
    OccursAtContains(text, "fever", 7);
    OccursAtContains(text, "body pain", 17);
    FeverOutranksBodyPain(input);
  }

  /** Lower-casing "I can't breathe, Chest Pain". */
  lemma BreathSentenceLowered(input: string)
    requires input == "I can't breathe, Chest Pain"
    ensures Lower(input) == "i can't breathe, chest pain"
  {
  }

  /** Where the two emergency phrases sit in "i can't breathe, chest pain". */
  lemma BreathSentencePhrases(text: string)
    requires text == "i can't breathe, chest pain"
    ensures OccursAt(text, "can't breathe", 2) && OccursAt(text, "chest pain", 17)
  {
    var phrase := "can't breathe";
    forall k | 0 <= k < |phrase| ensures text[2 + k] == phrase[k] {
    }
    assert text[2..15] == phrase;
    assert text[17..27] == "chest pain";
  }

  /**
   * The sentence "I can't breathe, Chest Pain" raises the alert for
   * "chest pain", which comes later in the sentence but first in the list.
   */
  lemma BreathSentence(input: string)
    requires input == "I can't breathe, Chest Pain"
    ensures AnalyzeSymptoms(input) == EmergencyAnalysis("chest pain")
  {
    var text := Lower(input);
    BreathSentenceLowered(input);
    BreathSentencePhrases(text);
    OccursAtContains(text, "can't breathe", 2);
    OccursAtContains(text, "chest pain", 17);
    ListOrderPicksQuotedPhrase(input);
  }

  // ----------------------------------------------------------- formatting

  /** Closes every reply, on both branches. */
  const Disclaimer := "\n\nDisclaimer: This is AI-assisted guidance " +
    "and not a substitute for professional " +
    "medical consultation. Please consult a " +
    "qualified doctor for proper diagnosis and " +
    "treatment."

  /** The siren characters that open an emergency reply, kept as the code points the source holds. */
  const SirenSign := "\U{F0}\U{178}\U{161}\U{A8}"

  /** How a template literal renders an optional string: a missing value prints as "undefined". */
  function Interpolate(m: Option<string>): string {
    match m
    case Some(s) => s
    case None => "undefined"
  }

  /** Line `i` of a numbered list: "i+1. p". */
  function NumberedLine(i: nat, p: string): string {
    DecimalString(i + 1) + ". " + p
  }

  /**
   * Reads a list line back: the digits before the first '.', then ". ",
   * then the text of the entry.
   */
  function ReadNumberedLine(line: string): Option<(nat, string)> {
    if '.' !in line then None
    else
      var dot := IndexOf(line, '.');
      var digits := line[..dot];
      if digits != [] && (forall k :: 0 <= k < |digits| ==> IsDigit(digits[k]))
         && dot + 2 <= |line| && line[dot + 1] == ' '
      then Some((DecimalValue(digits), line[dot + 2..]))
      else None
  }

  /** A list line reads back as its one-based number and its precaution, whatever the precaution holds. */
  lemma NumberedLineReadsBack(i: nat, p: string)
    ensures ReadNumberedLine(NumberedLine(i, p)) == Some((i + 1, p))
  {
    var n := DecimalString(i + 1);
    var line := NumberedLine(i, p);
    assert line == n + ". " + p;
    assert line[..|n|] == n;
    assert line[|n|] == '.' && line[|n| + 1] == ' ';
    assert '.' !in n by {
      forall k | 0 <= k < |n| ensures n[k] != '.' {
        assert IsDigit(n[k]);
      }
    }
    var dot := IndexOf(line, '.');
    assert line[dot + 2..] == p;
    DecimalRoundTrip(i + 1);
  }

  function NumberedLines(ps: seq<string>): (lines: seq<string>)
    ensures |lines| == |ps|
  {
    seq(|ps|, i requires 0 <= i < |ps| => NumberedLine(i, ps[i]))
  }

  /** The precautions as "1. p0", "2. p1", ... joined by newlines. */
  function NumberedList(ps: seq<string>): string {
    Join(NumberedLines(ps), "\n")
  }

  /**
   * A numbered list splits back, at its newlines, into one line per precaution,
   * line `k` carrying the number k + 1 and then the precaution itself.
   */
  lemma NumberedListLines(ps: seq<string>)
    requires |ps| >= 1
    requires forall k :: 0 <= k < |ps| ==> '\n' !in ps[k]
    ensures Split(NumberedList(ps), '\n') == NumberedLines(ps)
    ensures forall k :: 0 <= k < |ps| ==>
      var line := NumberedLines(ps)[k];
      var n := DecimalString(k + 1);
      && line == n + ". " + ps[k]
      && DecimalValue(n) == k + 1
  {
    var lines := NumberedLines(ps);
    forall k | 0 <= k < |lines| ensures '\n' !in lines[k] {
      var n := DecimalString(k + 1);
      assert lines[k] == n + ". " + ps[k];
      assert forall i :: 0 <= i < |n| ==> IsDigit(n[i]);
    }
    SplitJoin(lines, '\n');
    forall n | 1 <= n <= |ps| ensures DecimalValue(DecimalString(n)) == n {
      DecimalRoundTrip(n);
    }
  }

  const Greeting := "Namaste, I am Dr. AI from Medi Sarthi. I've " +
    "listened to your symptoms " +
    "carefully.\n\nBased on what you've " +
    "described, this appears to be: "
  const StepsHeading := "\n\nImmediate Steps:\n"
  const RecommendHeading := "\n\nHere's what I recommend:\n"
  const HelpHeading := "\n\nWhen to visit a doctor: "
  const Gap := "\n\n"

  /** The pieces of the reply template, in order. */
  function ResponsePieces(a: Analysis): seq<string> {
    var steps := NumberedList(a.precautions);
    if a.isEmergency then
      [SirenSign + " " + Interpolate(a.emergencyMessage), Gap, a.guidance,
       StepsHeading, steps, Gap, Disclaimer]
    else
      [Greeting, a.condition, Gap, a.guidance, RecommendHeading, steps,
       HelpHeading, a.whenToSeekHelp, Gap, Disclaimer]
  }

  /** The doctor's reply for an analysis; the branch is chosen by `isEmergency` alone. */
  function GenerateDoctorResponse(a: Analysis): (r: string)
    ensures a.isEmergency ==> StartsWith(r, SirenSign + " " + Interpolate(a.emergencyMessage))
    ensures !a.isEmergency ==> StartsWith(r, Greeting)
    ensures Contains(r, a.guidance)
    ensures Contains(r, NumberedList(a.precautions))
    ensures !a.isEmergency ==> Contains(r, a.condition) && Contains(r, a.whenToSeekHelp)
    ensures EndsWith(r, Disclaimer)
  {
    var pieces := ResponsePieces(a);
    var r := Concat(pieces);
    ConcatStartsWithFirst(pieces);
    ConcatEndsWithLast(pieces);
    if a.isEmergency then
      ConcatContainsPiece(pieces, 2);
      ConcatContainsPiece(pieces, 4);
      r
    else
      ConcatContainsPiece(pieces, 1);
      ConcatContainsPiece(pieces, 3);
      ConcatContainsPiece(pieces, 5);
      ConcatContainsPiece(pieces, 7);
      r
  }

  /** Replies to emergencies do not depend on the condition or the escalation line. */
  lemma EmergencyReplyIgnoresConditionAndHelp(a: Analysis, condition: string, help: string)
    requires a.isEmergency
    ensures GenerateDoctorResponse(a) == GenerateDoctorResponse(a.(condition := condition, whenToSeekHelp := help))
  {
  }

  /** Apart from `isEmergency`, neither the severity nor the emergency message choose a non-emergency reply. */
  lemma BranchChosenByFlagAlone(a: Analysis, severity: Severity, message: Option<string>)
    requires !a.isEmergency
    ensures GenerateDoctorResponse(a) == GenerateDoctorResponse(a.(severity := severity, emergencyMessage := message))
  {
  }
}
