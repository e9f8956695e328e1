# Medi Sarthi: the offline consultation core, in Dafny

Medi Sarthi is a web front end for rural healthcare. Its logic lives in four
places, and this project models each of them:

- **The rule-based symptom engine** (`src/lib/symptomAnalyzer.ts`, module `Analyzer`).
  - `analyzeSymptoms` lower-cases free text and scans it twice: first for emergency phrases, in list order, then for symptom phrases, in table order. It returns the record of the first hit, or a fixed fallback.
  - `generateDoctorResponse` renders an analysis as the doctor's reply.
- **The consultation history in local storage** (same file, module `Store`): saving newest-first and keeping fifty, reading, clearing.
- **The symptom checker** (`src/components/SymptomChecker.tsx`, module `Checker`).
  - Clicks toggle symptom ids in a selection.
  - A loop picks the first diagnosis row that shares at least two ids with the selection, else a general-check fallback.
- **The AI doctor session** (`src/components/AIDoctor.tsx`, module `Session`).
  - A class holding the transcript, input box, processing flag, emergency alert and history panel.
  - The turns that change them: start, end, process symptoms and send.
- **The testimonials carousel** (`src/components/TestimonialsSection.tsx`, module `Carousel`): an index that the arrows move with JavaScript's `%`, and that the dots set.

Module `Text` holds the JavaScript string operations the code relies on:
- `toLowerCase` (ASCII letters only) and `includes`;
- `trim`, with ECMAScript's set of white-space and line-terminator characters;
- `join`, `split` on one character, and integer-to-decimal conversion.

Module `Options` holds an `Option` type.

How the source's form carries over:
- **State becomes classes.** Values that React state or the storage slot updates in place are classes: `Store.HistoryStore`, `Checker.SymptomChecker`, `Session.Consultation` and `Carousel.TestimonialCarousel`.
- **Pure code becomes functions.** The pure parts (the engine, the formatter, the overlap count) are functions.
- **The diagnosis loop stays a loop.** It is a method with a `while` loop and a `break`, proved against a first-match specification function.
- **Runtime values are parameters.** Record ids (`crypto.randomUUID`) and clock readings (`new Date()`) are passed in.
- **Storage is an abstract slot.** It is absent, holds unreadable text, or holds a list of records.

The source's mis-decoded emoji prefixes are kept as the code points the file holds:
- the alert prefix is U+00E2 U+0161 U+00A0 U+00EF U+00B8;
- the siren is U+00F0 U+0178 U+0161 U+00A8;
- the analyzer's degree sign is U+00C2 U+00B0.

When the emergency message is missing, the template prints it as `undefined`.

Long string constants are written as concatenations of shorter literals; the strings are the same.

## Model

| member | source | states |
|---|---|---|
| Text.Lower | src/lib/symptomAnalyzer.ts:195 | `toLowerCase` keeps the length, maps every ASCII capital to its lower-case letter and leaves every other character alone, so no capital remains |
| Text.LowerIdempotent | src/lib/symptomAnalyzer.ts:195 | lower-casing twice is lower-casing once |
| Text.ContainsIff | src/lib/symptomAnalyzer.ts:199 | `includes` holds exactly when the part occurs at some index of the text (both directions) |
| Text.AbsentCharNotContained | src/lib/symptomAnalyzer.ts:199 | a text lacking one of the part's characters does not include the part |
| Text.BlankIffAllWhitespace | src/components/AIDoctor.tsx:141 | `!s.trim()` holds exactly when every character is JavaScript white space or a line terminator |
| Text.TrimStart | src/components/AIDoctor.tsx:141 | the result is a suffix that starts with a non-space, and only white space was removed |
| Text.TrimEnd | src/components/AIDoctor.tsx:141 | the result is a prefix that ends with a non-space, and only white space was removed |
| Text.DecimalRoundTrip | src/lib/symptomAnalyzer.ts:245 | the decimal rendering of `i + 1` in a list line reads back as the same number |
| Text.SplitJoin | src/components/SymptomChecker.tsx:160 | `split` on the separator undoes `join` when no part holds the separator |
| Text.JoinSplit | src/components/SymptomChecker.tsx:160 | `join` undoes `split` for every string |
| Text.Split | src/components/SymptomChecker.tsx:160 | `split` yields at least one piece, and no piece holds the separator |
| Analyzer.FirstIncluded | src/lib/symptomAnalyzer.ts:198-223 | the first-match scan: the index found is included and every earlier phrase is not; no index exactly when no phrase is included |
| Analyzer.EmergencyMessage | src/lib/symptomAnalyzer.ts:213 | the alert text quotes the phrase that triggered it |
| Analyzer.EmergencyAnalysis | src/lib/symptomAnalyzer.ts:200-214 | the synthesised emergency record is consistent, flagged, and carries the quoting message |
| Analyzer.Classify | src/lib/symptomAnalyzer.ts:198-239 | over any tables without emergency records, the result is consistent, and it is an emergency exactly when some emergency phrase is included |
| Analyzer.ClassifyEmergency | src/lib/symptomAnalyzer.ts:198-216 | the first-listed included emergency phrase decides, before any symptom phrase |
| Analyzer.ClassifySymptom | src/lib/symptomAnalyzer.ts:219-223 | with no emergency phrase, the first-declared included symptom phrase gives its record |
| Analyzer.ClassifyFallback | src/lib/symptomAnalyzer.ts:226-239 | with no phrase of either table, the fallback is returned |
| Analyzer.ClassifyOutcomes | src/lib/symptomAnalyzer.ts:198-239 | every result is the fallback, a table record or an emergency record |
| Analyzer.TablesAreNonEmergency | src/lib/symptomAnalyzer.ts:23-192 | every record of the symptom table and the fallback is unflagged, not of emergency severity, and has no message |
| Analyzer.AnalyzeSymptoms | src/lib/symptomAnalyzer.ts:194-240 | `isEmergency`, emergency severity and a present message always agree; the result is an emergency exactly when the lower-cased input includes an emergency phrase |
| Analyzer.EmergencyQuotesFirstListedPhrase | src/lib/symptomAnalyzer.ts:198-216 | with the first-listed included emergency phrase, the result is that phrase's emergency record, of emergency severity, quoting it, whatever symptom words are present |
| Analyzer.FirstDeclaredSymptomWins | src/lib/symptomAnalyzer.ts:219-223 | with no emergency phrase, the result is exactly the table record of the first-declared included symptom phrase |
| Analyzer.NoPhraseGivesFallback | src/lib/symptomAnalyzer.ts:226-239 | an input that includes no phrase gets the fallback |
| Analyzer.EmptyInputGivesFallback | src/lib/symptomAnalyzer.ts:226-239 | the empty input gets the fallback, of low severity |
| Analyzer.CaseInsensitive | src/lib/symptomAnalyzer.ts:195 | the result ignores ASCII letter case |
| Analyzer.ResultIsTabledOrEmergency | src/lib/symptomAnalyzer.ts:194-240 | every result is the fallback, a record of the table or the emergency record of a listed phrase |
| Analyzer.NoEmergencyPhraseWithoutItsLetters | src/lib/symptomAnalyzer.ts:15-20 | every emergency phrase holds c, s, j or w, so a text without those letters includes none |
| Analyzer.FeverOutranksBodyPain | src/lib/symptomAnalyzer.ts:24-37 | an input with "fever" and "body pain" and no emergency phrase gets the fever record ("Fever / Viral Infection", medium) |
| Analyzer.ListOrderPicksQuotedPhrase | src/lib/symptomAnalyzer.ts:15-20 | an input with both "can't breathe" and "chest pain" gets the alert for "chest pain", the earlier-listed phrase, wherever each occurs in the text |
| Analyzer.FeverSentence | src/lib/symptomAnalyzer.ts:194-223 | the sentence "I have Fever and Body Pain" gets the fever record: it has no emergency phrase, and "fever" is declared before "body pain" |
| Analyzer.BreathSentence | src/lib/symptomAnalyzer.ts:198-216 | the sentence "I can't breathe, Chest Pain" raises the alert quoting "chest pain", which is listed first though it comes later in the sentence |
| Analyzer.NumberedLineReadsBack | src/lib/symptomAnalyzer.ts:246 | a rendered list line reads back, as the digits before its first "." and the text after ". ", to its one-based number and its precaution, whatever the precaution holds |
| Analyzer.NumberedListLines | src/lib/symptomAnalyzer.ts:246 | the rendered precautions split at newlines into one line per precaution, in order; line k is the number k + 1, ". ", then precaution k |
| Analyzer.GenerateDoctorResponse | src/lib/symptomAnalyzer.ts:242-250 | an emergency reply opens with the siren and the message; any other reply opens with the greeting. Both contain the guidance and the numbered precautions and end with the disclaimer. Only the non-emergency reply is shown to contain the condition and the escalation line |
| Analyzer.EmergencyReplyIgnoresConditionAndHelp | src/lib/symptomAnalyzer.ts:245-246 | an emergency reply does not depend on the condition or the escalation line |
| Analyzer.BranchChosenByFlagAlone | src/lib/symptomAnalyzer.ts:245-249 | a non-emergency reply depends on neither the severity nor the emergency message |
| Store.Prepended | src/lib/symptomAnalyzer.ts:268-272 | after `unshift` and `slice(0, 50)`: length min(old + 1, 50), the new record first, the older records after it in their order |
| Store.ReplayKeepsNewest | src/lib/symptomAnalyzer.ts:261-276 | any run of saves leaves the newest fifty records, newest first, followed by what was there before |
| Store.FiftyOneSaves | src/lib/symptomAnalyzer.ts:271-273 | after fifty-one saves from empty, the first record is gone and the other fifty are kept, newest first |
| Store.SavedRecordLifetime | src/lib/symptomAnalyzer.ts:271-273 | a saved record moves back one place per later save, and is gone after fifty more saves |
| Store.HistoryStore.constructor | src/lib/symptomAnalyzer.ts:280 | the store starts from the slot's contents |
| Store.HistoryStore.GetHistory | src/lib/symptomAnalyzer.ts:278-291 | the stored list, or empty when the slot is absent or unreadable |
| Store.HistoryStore.Save | src/lib/symptomAnalyzer.ts:261-276 | returns the record built from the arguments, id and time; the slot then holds `Prepended` of the history as read before, so at most fifty records with the new one first |
| Store.HistoryStore.Clear | src/lib/symptomAnalyzer.ts:293-295 | the slot is removed, and the history then reads as empty |
| Checker.MatchCount | src/components/SymptomChecker.tsx:160-161 | the overlap count never exceeds the row's length |
| Checker.FirstMatching | src/components/SymptomChecker.tsx:159-166 | the first row, in declared order, with at least two selected ids; none exactly when no row has two |
| Checker.FirstMatchIn | src/components/SymptomChecker.tsx:158-166 | the loop with `break` finds the row `FirstMatching` names, or none |
| Checker.MatchDiagnosis | src/components/SymptomChecker.tsx:158-175 | the loop plus the fallback yield `Diagnose(selected)` |
| Checker.MatchCountBySet | src/components/SymptomChecker.tsx:161 | the count depends only on which ids are selected |
| Checker.SelectionOrderIrrelevant | src/components/SymptomChecker.tsx:155-166 | selections with the same members reach the same diagnosis; the sorted string is never used |
| Checker.FirstMatchingBySet | src/components/SymptomChecker.tsx:159-166 | rows that match alike give the same first match |
| Checker.MatchesIffTwoSelected | src/components/SymptomChecker.tsx:161-162 | a row matches exactly when two of its ids, at different places, are selected (both directions) |
| Checker.RowsHaveNoDuplicates | src/components/SymptomChecker.tsx:39-130 | no key repeats an id |
| Checker.RowIdsAreOffered | src/components/SymptomChecker.tsx:8-37 | every id in a key is one the checker offers |
| Checker.NoCommaInOfferedIds | src/components/SymptomChecker.tsx:8-37 | no offered id holds a comma |
| Checker.KeysSplitBack | src/components/SymptomChecker.tsx:160 | each key splits back into the row's ids |
| Checker.SingleSymptomFallsBack | src/components/SymptomChecker.tsx:168-175 | a selection of one id, however repeated, gets "General Health Check Required" |
| Checker.FeverAndCoughGiveCommonCold | src/components/SymptomChecker.tsx:40-57 | any selection with fever and cough gets "Common Cold / Flu", so the later respiratory and cardiac rows never show for it |
| Checker.Without | src/components/SymptomChecker.tsx:142 | the filter keeps exactly the members other than the id (all occurrences removed) |
| Checker.ToggleFlips | src/components/SymptomChecker.tsx:139-144 | a click flips the clicked id's membership and no other |
| Checker.ToggleKeepsNoDuplicates | src/components/SymptomChecker.tsx:139-144 | clicks never repeat an id |
| Checker.ToggleTwiceRestores | src/components/SymptomChecker.tsx:139-144 | two clicks on an unselected id restore the selection exactly |
| Checker.ToggleTwiceMovesToEnd | src/components/SymptomChecker.tsx:139-144 | two clicks on a selected id keep the members and move it to the end |
| Checker.SymptomChecker.constructor | src/components/SymptomChecker.tsx:133-134 | empty selection, no result |
| Checker.SymptomChecker.ToggleSymptom | src/components/SymptomChecker.tsx:139-146 | the selection becomes `Toggled`, the result is hidden, and no id is repeated |
| Checker.SymptomChecker.Analyze | src/components/SymptomChecker.tsx:148-180 | an empty selection changes nothing; otherwise the result is `Diagnose(selected)` |
| Checker.SymptomChecker.Reset | src/components/SymptomChecker.tsx:182-185 | the selection and the result are cleared |
| Session.ReplyFlagsEmergencyPhrase | src/components/AIDoctor.tsx:173-178 | the doctor message is flagged exactly when the user's text includes an emergency phrase |
| Session.Consultation.constructor | src/components/AIDoctor.tsx:31-64 | an idle session with no messages, no alert and the stored history loaded |
| Session.Consultation.StartConsultation | src/components/AIDoctor.tsx:109-125 | the session is active and its only message is the doctor's greeting; nothing else changes |
| Session.Consultation.EndConsultation | src/components/AIDoctor.tsx:128-137 | the session is inactive, with no messages and an empty input; nothing else changes |
| Session.Consultation.SetInputText | src/components/AIDoctor.tsx:492 | the input box holds the typed text; nothing else changes |
| Session.Consultation.DismissEmergencyAlert | src/components/AIDoctor.tsx:574 | the alert is hidden; nothing else changes |
| Session.Consultation.RecordTurn | src/components/AIDoctor.tsx:143-187 | two messages appended, the user's then the flagged reply. The alert is raised for an emergency and otherwise left alone. One record is saved, the history reloaded, processing off, the input emptied, and the alert invariant kept |
| Session.Consultation.ProcessSymptoms | src/components/AIDoctor.tsx:140-188 | blank text changes nothing, neither the session nor the store. Any other text runs a turn whose analysis is `AnalyzeSymptoms(symptoms)` and whose reply is `GenerateDoctorResponse` of it |
| Session.Consultation.HandleSend | src/components/AIDoctor.tsx:191-195 | blank input changes nothing. Otherwise the input text runs the whole turn, as `ProcessSymptoms` states it: both messages, the saved record, the reloaded history, processing off, the input emptied, `active` kept, and the alert raised with the analysis for an emergency and left alone otherwise |
| Carousel.JsRemainder | src/components/TestimonialsSection.tsx:39 | JavaScript's `%` takes the dividend's sign: in [0, b) for a non-negative dividend, in (-b, 0] for a negative one, and the dividend itself when it is above -b |
| Carousel.JsRemainderIsCongruent | src/components/TestimonialsSection.tsx:39 | the remainder differs from the dividend by a multiple of the length |
| Carousel.ArrowsStayInRange | src/components/TestimonialsSection.tsx:38-44 | both arrows keep the index in [0, 4) |
| Carousel.ArrowsAreInverse | src/components/TestimonialsSection.tsx:38-44 | left undoes right and right undoes left |
| Carousel.ArrowsWrap | src/components/TestimonialsSection.tsx:38-44 | left from 0 gives 3, right from 3 gives 0 |
| Carousel.FourNextsAreIdentity | src/components/TestimonialsSection.tsx:39 | four right clicks return to the start |
| Carousel.PrevNeedsTheAddedLength | src/components/TestimonialsSection.tsx:43 | without adding the length, left from 0 would give -1, outside the list |
| Carousel.TestimonialCarousel.constructor | src/components/TestimonialsSection.tsx:34 | the carousel starts on the first testimonial |
| Carousel.TestimonialCarousel.Next | src/components/TestimonialsSection.tsx:38-40 | the index becomes `NextIndex` of the old one and stays in range |
| Carousel.TestimonialCarousel.Prev | src/components/TestimonialsSection.tsx:42-44 | the index becomes `PrevIndex` of the old one and stays in range |
| Carousel.TestimonialCarousel.Select | src/components/TestimonialsSection.tsx:107-110 | a dot sets the index to its own position, always a valid testimonial |

## Left out

- **Browser APIs.** Local storage, `JSON.stringify`/`JSON.parse`, `Date` and `crypto.randomUUID` are not modelled.
  - Storage is an abstract slot; ids and times are parameters.
  - A stored list that parses but holds malformed records is not distinguished from a good one.
  - The time stamp's trip through JSON is the identity.
- **Case folding.** `toLowerCase` is modelled on ASCII letters only; other letters are left unchanged.
- **Device and UI.** Not modelled:
  - the camera (`startVideo`/`stopVideo`), speech recognition and synthesis (`speak`, transcripts, `toggleVoiceInput`), the mute switch;
  - toasts, animations, scrolling and the history dialog's open state;
  - the emergency dialog's choice of showing only the first three precautions.
- **Timing.** The one-second reply delay and the checker's 1.5-second analysis timer are not modelled; each turn and each analysis is one atomic step. So:
  - the checker's `isAnalyzing` flag is not modelled;
  - overlapping turns are not modelled.
- **Session fields.** `ProcessSymptoms` does not require an active consultation, as in the source. Likewise, `StartConsultation` and `EndConsultation` leave the emergency alert and the history as they were.
- **`Analyzer.GenerateDoctorResponse`.** Two points are stated weaker than the template:
  - the reply is stated to contain its parts, to open with the right prefix and to end with the disclaimer, not to equal the template character for character;
  - that an emergency reply omits the condition and the escalation line is stated as independence from them (`EmergencyReplyIgnoresConditionAndHelp`), because the guidance text could itself contain those strings.
- **`Store.HistoryStore.Save`.** A failed write is not modelled: in the model every write succeeds. `localStorage.setItem` can throw, when the quota is exceeded or storage is blocked, and `saveConsultation` does not catch it.
- **`Session.Consultation.RecordTurn`.** The turn that a failed save would cut short is not modelled. `processSymptoms` would stop after adding the user's message. No reply is added, `isProcessing` stays true and the input keeps its text.
- **`Checker.ToggleTwiceRestores`.** It covers an id that was not selected. For a selected id the source does not restore the list: the id moves to the end (`Checker.ToggleTwiceMovesToEnd`).
- **`Carousel.JsRemainder`.** The congruence with the dividend is proved for the carousel's divisor (`Carousel.JsRemainderIsCongruent`), not for every divisor.
