/**
 * The symptom checker: a selection of symptom ids that clicks toggle, and a
 * first-match table of diagnoses, each keyed by a comma-separated list of ids
 * and chosen when at least two of its ids are selected.
 */
module Checker {
  import opened Options
  import opened Text

  /** The ids the checker offers, in display order. */
  const SymptomIds: seq<string> := [
    "fever", "cough", "headache", "fatigue", "body_pain", "breathing", "chest_pain",
    "nausea", "diarrhea", "cold", "sore_throat", "dizziness", "joint_pain", "skin_rash",
    "abdominal_pain", "loss_appetite", "chills", "muscle_weakness", "back_pain",
    "eye_irritation", "ear_pain", "urination_pain", "swelling", "palpitations",
    "anxiety", "insomnia", "weight_loss", "night_sweats"
  ]

  datatype Diagnosis = Diagnosis(condition: string, severity: string, advice: string, color: string)

  /** One row of the table; its key in the source is `Join(ids, ",")`. */
  datatype Entry = Entry(ids: seq<string>, diagnosis: Diagnosis)

  /** The key string under which the row is declared. */
  function Key(e: Entry): string {
    Join(e.ids, ",")
  }

  /** The diagnoses, in declaration order, which is the order they are tried in. */
  const Diagnoses: seq<Entry> := [
    Entry(["fever", "cough", "cold"], Diagnosis("Common Cold / Flu", "Mild",
      "Rest, stay hydrated, take paracetamol for fever. Consult a doctor if symptoms persist beyond 5 days.",
      "text-amber-600")),
    Entry(["fever", "headache", "body_pain"], Diagnosis("Viral Fever", "Mild to Moderate",
      "Take rest, drink plenty of fluids, use paracetamol. Seek medical attention if fever exceeds 103\U{B0}F.",
      "text-amber-600")),
    Entry(["fever", "cough", "breathing"], Diagnosis("Respiratory Infection (Possible)", "Moderate",
      "Seek medical consultation soon. This could indicate pneumonia or other respiratory conditions.",
      "text-orange-600")),
    Entry(["chest_pain", "breathing"], Diagnosis("Cardiac Concern", "High",
      "Seek immediate medical attention. Do not ignore chest pain with breathing difficulty.",
      "text-destructive")),
    Entry(["nausea", "diarrhea"], Diagnosis("Gastroenteritis", "Mild to Moderate",
      "Stay hydrated with ORS. Avoid spicy/oily food. Consult doctor if symptoms persist over 48 hours.",
      "text-amber-600")),
    Entry(["joint_pain", "fever", "chills"], Diagnosis("Dengue / Chikungunya (Possible)", "Moderate to High",
      "Seek medical attention immediately. Monitor platelet count and stay hydrated. Avoid self-medication.",
      "text-orange-600")),
    Entry(["skin_rash", "fever", "joint_pain"], Diagnosis("Viral Exanthem / Allergic Reaction", "Moderate",
      "Consult a dermatologist or physician. Avoid scratching and keep the area clean.",
      "text-amber-600")),
    Entry(["abdominal_pain", "nausea", "loss_appetite"], Diagnosis("Gastritis / Digestive Issue", "Mild to Moderate",
      "Eat light meals, avoid spicy food. Take antacids if needed. See a doctor if pain is severe.",
      "text-amber-600")),
    Entry(["back_pain", "muscle_weakness"], Diagnosis("Musculoskeletal Strain", "Mild",
      "Rest, apply heat/cold packs. Consider physiotherapy if pain persists beyond a week.",
      "text-primary")),
    Entry(["urination_pain", "fever", "abdominal_pain"], Diagnosis("Urinary Tract Infection (UTI)", "Moderate",
      "Drink plenty of water. See a doctor for antibiotics. Do not delay treatment.",
      "text-orange-600")),
    Entry(["palpitations", "anxiety", "insomnia"], Diagnosis("Anxiety / Stress Disorder", "Mild to Moderate",
      "Practice relaxation techniques. Consider counseling. Seek help if symptoms affect daily life.",
      "text-amber-600")),
    Entry(["weight_loss", "night_sweats", "fatigue"], Diagnosis("Chronic Condition (Requires Evaluation)", "High",
      "These symptoms require thorough medical evaluation. Please consult a doctor immediately.",
      "text-destructive")),
    Entry(["ear_pain", "fever", "headache"], Diagnosis("Ear Infection (Otitis)", "Mild to Moderate",
      "Keep ear dry. Take pain relievers. See an ENT specialist if symptoms persist.",
      "text-amber-600")),
    Entry(["eye_irritation", "headache"], Diagnosis("Eye Strain / Conjunctivitis", "Mild",
      "Rest your eyes, avoid screens. Use lubricating eye drops. Consult if redness persists.",
      "text-primary")),
    Entry(["swelling", "joint_pain", "fatigue"], Diagnosis("Inflammatory Condition", "Moderate",
      "Could indicate arthritis or autoimmune condition. Medical evaluation recommended.",
      "text-orange-600"))
  ]

  /** What the checker shows when no row matches. */
  const GeneralCheck := Diagnosis("General Health Check Required", "Low",
    "Based on your symptoms, we recommend a general health consultation for proper diagnosis.",
    "text-primary")

  predicate NoDuplicates(s: seq<string>) {
    forall i, j :: 0 <= i < j < |s| ==> s[i] != s[j]
  }

  /** How many of a row's ids are selected, counting positions of `ids`. */
  function MatchCount(ids: seq<string>, selected: seq<string>): (n: nat)
    ensures n <= |ids|
    decreases |ids|
  {
    if ids == [] then 0
    else (if ids[0] in selected then 1 else 0) + MatchCount(ids[1..], selected)
  }

  /** A row matches when at least two of its ids are selected. */
  predicate Matches(e: Entry, selected: seq<string>) {
    MatchCount(e.ids, selected) >= 2
  }

  /** The index of the first row that matches, in table order. */
  function FirstMatching(entries: seq<Entry>, selected: seq<string>): (r: Option<nat>)
    ensures r.Some? ==> r.value < |entries| && Matches(entries[r.value], selected)
    ensures r.Some? ==> forall j :: 0 <= j < r.value ==> !Matches(entries[j], selected)
    ensures r.None? <==> forall j :: 0 <= j < |entries| ==> !Matches(entries[j], selected)
    decreases |entries|
  {
    if entries == [] then None
    else if Matches(entries[0], selected) then Some(0)
    else match FirstMatching(entries[1..], selected)
      case None => None
      case Some(i) => Some(i + 1)
  }

  /** The diagnosis the checker reaches for a selection. */
  function Diagnose(selected: seq<string>): Diagnosis {
    match FirstMatching(Diagnoses, selected)
    case Some(i) => Diagnoses[i].diagnosis
    case None => GeneralCheck
  }

  /** The diagnosis of row `k`, if there is such a row. */
  function RowDiagnosis(entries: seq<Entry>, k: int): Option<Diagnosis> {
    if 0 <= k < |entries| then Some(entries[k].diagnosis) else None
  }

  /** The matching loop: try the rows in order and stop at the first with two selected ids. */
  method FirstMatchIn(entries: seq<Entry>, selected: seq<string>) returns (matched: Option<Diagnosis>)
    ensures matched.None? <==> FirstMatching(entries, selected).None?
    ensures matched.Some? ==> matched.value == entries[FirstMatching(entries, selected).value].diagnosis
  {
    matched := None;
    var i := 0;
    while i < |entries|
      invariant 0 <= i <= |entries|
      invariant matched.None? ==> forall j :: 0 <= j < i ==> !Matches(entries[j], selected)
      invariant matched.Some? ==> 0 < i && FirstMatching(entries, selected) == Some(i - 1)
      invariant matched.Some? ==> matched == RowDiagnosis(entries, i - 1)
      decreases |entries| - i, if matched.None? then 1 else 0
    {
      var count := MatchCount(entries[i].ids, selected);
      if count >= 2 {
        matched := Some(entries[i].diagnosis);
        i := i + 1;
        break;
      }
      i := i + 1;
    }
  }

  /** The diagnosis step: the first matching row of the table, or the general check when none matches. */
  method MatchDiagnosis(selected: seq<string>) returns (d: Diagnosis)
    ensures d == Diagnose(selected)
  {
    var matched := FirstMatchIn(Diagnoses, selected);
    if matched.None? {
      d := GeneralCheck;
    } else {
      d := matched.value;
    }
  }

  // ------------------------------------------------------- matching lemmas

  /** The count depends only on which ids are selected, not on the order or repetition of the selection. */
  lemma {:induction false} MatchCountBySet(ids: seq<string>, s1: seq<string>, s2: seq<string>)
    requires forall x :: x in s1 <==> x in s2
    ensures MatchCount(ids, s1) == MatchCount(ids, s2)
    decreases |ids|
  {
    if ids != [] {
      MatchCountBySet(ids[1..], s1, s2);
    }
  }

  /** Two selections with the same members reach the same diagnosis. */
  lemma SelectionOrderIrrelevant(s1: seq<string>, s2: seq<string>)
    requires forall x :: x in s1 <==> x in s2
    ensures Diagnose(s1) == Diagnose(s2)
  {
    forall j | 0 <= j < |Diagnoses| ensures Matches(Diagnoses[j], s1) == Matches(Diagnoses[j], s2) {
      MatchCountBySet(Diagnoses[j].ids, s1, s2);
    }
    FirstMatchingBySet(Diagnoses, s1, s2);
  }

  lemma {:induction false} FirstMatchingBySet(entries: seq<Entry>, s1: seq<string>, s2: seq<string>)
    requires forall j :: 0 <= j < |entries| ==> Matches(entries[j], s1) == Matches(entries[j], s2)
    ensures FirstMatching(entries, s1) == FirstMatching(entries, s2)
    decreases |entries|
  {
    if entries != [] && !Matches(entries[0], s1) {
      FirstMatchingBySet(entries[1..], s1, s2);
    }
  }

  /** A row matches exactly when two of its ids, at different places in the row, are selected. */
  lemma {:induction false} MatchesIffTwoSelected(ids: seq<string>, selected: seq<string>)
    ensures MatchCount(ids, selected) >= 2 <==>
      exists a, b :: 0 <= a < b < |ids| && ids[a] in selected && ids[b] in selected
    decreases |ids|
  {
    if MatchCount(ids, selected) >= 2 {
      var tail := ids[1..];
      if ids[0] in selected {
        var b := AnySelected(tail, selected);
        assert ids[0] in selected && ids[b + 1] in selected;
      } else {
        MatchesIffTwoSelected(tail, selected);
        var a, b :| 0 <= a < b < |tail| && tail[a] in selected && tail[b] in selected;
        assert ids[a + 1] == tail[a] && ids[b + 1] == tail[b];
      }
    } else {
      forall a, b | 0 <= a < b < |ids| && ids[a] in selected
        ensures ids[b] !in selected
      {
        if ids[b] in selected {
          TwoSelectedCount(ids, selected, a, b);
        }
      }
    }
  }

  /** Two selected ids at different places make a count of at least two. */
  lemma {:induction false} TwoSelectedCount(ids: seq<string>, selected: seq<string>, a: nat, b: nat)
    requires a < b < |ids| && ids[a] in selected && ids[b] in selected
    ensures MatchCount(ids, selected) >= 2
    decreases |ids|
  {
    if a == 0 {
      OneSelectedCounts(ids[1..], selected, b - 1);
    } else {
      TwoSelectedCount(ids[1..], selected, a - 1, b - 1);
    }
  }

  /** A positive count has a selected id to show for it. */
  lemma {:induction false} AnySelected(ids: seq<string>, selected: seq<string>) returns (b: nat)
    requires MatchCount(ids, selected) >= 1
    ensures b < |ids| && ids[b] in selected
    decreases |ids|
  {
    if ids[0] in selected {
      b := 0;
    } else {
      var c := AnySelected(ids[1..], selected);
      b := c + 1;
    }
  }

  /** A selected id counts. */
  lemma {:induction false} OneSelectedCounts(ids: seq<string>, selected: seq<string>, b: nat)
    requires b < |ids| && ids[b] in selected
    ensures MatchCount(ids, selected) >= 1
    decreases |ids|
  {
    if b > 0 {
      OneSelectedCounts(ids[1..], selected, b - 1);
    }
  }

  /** No row repeats an id. */
  lemma RowsHaveNoDuplicates()
    ensures forall j :: 0 <= j < |Diagnoses| ==> NoDuplicates(Diagnoses[j].ids)
  {
  }

  /** Every id a row names is one the checker offers, so every row can be reached by clicks. */
  lemma RowIdsAreOffered()
    ensures forall j, k :: 0 <= j < |Diagnoses| && 0 <= k < |Diagnoses[j].ids| ==> Diagnoses[j].ids[k] in SymptomIds
  {
  }

  /** No offered id holds a comma. */
  lemma NoCommaInOfferedIds()
    ensures forall k :: 0 <= k < |SymptomIds| ==> ',' !in SymptomIds[k]
  {
  }

  /** No id holds a comma, so each key splits back into the row's ids. */
  lemma KeysSplitBack()
    ensures forall j :: 0 <= j < |Diagnoses| ==> Split(Key(Diagnoses[j]), ',') == Diagnoses[j].ids
  {
    RowIdsAreOffered();
    NoCommaInOfferedIds();
    forall j | 0 <= j < |Diagnoses| ensures Split(Key(Diagnoses[j]), ',') == Diagnoses[j].ids {
      SplitJoin(Diagnoses[j].ids, ',');
    }
  }

  /** One selected symptom, however often repeated, never matches a row: the general check is shown. */
  lemma SingleSymptomFallsBack(selected: seq<string>, id: string)
    requires forall x :: x in selected ==> x == id
    ensures Diagnose(selected) == GeneralCheck
  {
    RowsHaveNoDuplicates();
    forall j | 0 <= j < |Diagnoses| ensures !Matches(Diagnoses[j], selected) {
      MatchesIffTwoSelected(Diagnoses[j].ids, selected);
    }
  }

  /**
   * Fever and cough together always give the first row, whatever else is
   * selected: the later rows with fever and cough (a respiratory infection)
   * or with chest pain and breathing difficulty (a cardiac concern) are then
   * never shown.
   */
  lemma FeverAndCoughGiveCommonCold(selected: seq<string>)
    requires "fever" in selected && "cough" in selected
    ensures Diagnose(selected) == Diagnoses[0].diagnosis
    ensures Diagnose(selected).condition == "Common Cold / Flu"
  {
    assert MatchCount(Diagnoses[0].ids, selected) >= 2;
  }

  // ------------------------------------------------------------ selection

  /** The selection after a click on `id`: removed when present, appended otherwise. */
  function Toggled(selected: seq<string>, id: string): seq<string> {
    if id in selected then Without(selected, id) else selected + [id]
  }

  /** `filter(s => s !== id)`. */
  function Without(s: seq<string>, id: string): (r: seq<string>)
    ensures forall x :: x in r <==> x in s && x != id
    ensures |r| <= |s|
    decreases |s|
  {
    if s == [] then []
    else if s[0] == id then Without(s[1..], id)
    else [s[0]] + Without(s[1..], id)
  }

  /** A click flips the clicked id and leaves every other id as it was. */
  lemma ToggleFlips(selected: seq<string>, id: string)
    ensures id in Toggled(selected, id) <==> id !in selected
    ensures forall x :: x != id ==> (x in Toggled(selected, id) <==> x in selected)
  {
  }

  lemma {:induction false} WithoutKeepsNoDuplicates(s: seq<string>, id: string)
    requires NoDuplicates(s)
    ensures NoDuplicates(Without(s, id))
    decreases |s|
  {
    if s != [] {
      WithoutKeepsNoDuplicates(s[1..], id);
      if s[0] != id {
        var r := Without(s, id);
        forall j | 0 < j < |r| ensures r[0] != r[j] {
          assert r[j] in Without(s[1..], id);
        }
      }
    }
  }

  /** Clicks never repeat an id in the selection. */
  lemma ToggleKeepsNoDuplicates(selected: seq<string>, id: string)
    requires NoDuplicates(selected)
    ensures NoDuplicates(Toggled(selected, id))
  {
    if id in selected {
      WithoutKeepsNoDuplicates(selected, id);
    }
  }

  lemma {:induction false} WithoutAbsent(s: seq<string>, id: string)
    requires id !in s
    ensures Without(s, id) == s
    decreases |s|
  {
    if s != [] {
      WithoutAbsent(s[1..], id);
    }
  }

  lemma {:induction false} WithoutAppended(s: seq<string>, id: string)
    ensures Without(s + [id], id) == Without(s, id)
    decreases |s|
  {
    if s == [] {
      assert Without([id], id) == Without([], id);
    } else {
      assert (s + [id])[1..] == s[1..] + [id];
      WithoutAppended(s[1..], id);
    }
  }

  /** Clicking an unselected id twice restores the selection exactly. */
  lemma ToggleTwiceRestores(selected: seq<string>, id: string)
    requires id !in selected
    ensures Toggled(Toggled(selected, id), id) == selected
  {
    WithoutAppended(selected, id);
    WithoutAbsent(selected, id);
  }

  /** Clicking a selected id twice keeps the members but moves the id to the end. */
  lemma ToggleTwiceMovesToEnd(selected: seq<string>, id: string)
    requires id in selected
    ensures Toggled(Toggled(selected, id), id) == Without(selected, id) + [id]
    ensures forall x :: x in Toggled(Toggled(selected, id), id) <==> x in selected
  {
  }

  /** The checker's state: the selection, and the diagnosis shown, if any. */
  class SymptomChecker {
    var selected: seq<string>
    var result: Option<Diagnosis>

    /** The selection never repeats an id. */
    predicate Valid()
      reads this
    {
      NoDuplicates(selected)
    }

    constructor ()
      ensures selected == [] && result == None
      ensures Valid()
    {
      selected := [];
      result := None;
    }

    /** `toggleSymptom`: flips the id in the selection and hides the diagnosis. */
    method ToggleSymptom(id: string)
      requires Valid()
      modifies this
      ensures selected == Toggled(old(selected), id) && result == None
      ensures Valid()
    {
      ToggleKeepsNoDuplicates(selected, id);
      if id in selected {
        selected := Without(selected, id);
      } else {
        selected := selected + [id];
      }
      result := None;
    }

    /** `analyzeSymptoms`: nothing happens on an empty selection; otherwise the first matching row is shown. */
    method Analyze()
      requires Valid()
      modifies this
      ensures Valid()
      ensures selected == old(selected)
      ensures result == if selected == [] then old(result) else Some(Diagnose(selected))
    {
      if |selected| == 0 {
        return;
      }
      var d := MatchDiagnosis(selected);
      result := Some(d);
    }

    /** `reset`: clears the selection and the diagnosis. */
    method Reset()
      modifies this
      ensures selected == [] && result == None
      ensures Valid()
    {
      selected := [];
      result := None;
    }
  }
}
