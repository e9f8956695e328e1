/**
 * The AI doctor consultation: the chat transcript, the input box, the
 * emergency alert and the history panel, and the turns that move them.
 * Clock readings and the ids of saved records are parameters; the camera,
 * speech, toasts and the artificial reply delay are not modelled.
 */
module Session {
  import opened Options
  import opened Text
  import opened Analyzer
  import opened Store

  datatype Role = User | Doctor

  /** A chat message; only doctor replies to a described symptom carry the emergency flag. */
  datatype Message = Message(role: Role, content: string, timestamp: int, isEmergency: Option<bool>)

  /** The doctor's opening line. */
  const OpeningLine := "Namaste! I am Dr. AI from Medi Sarthi. How may I help you today? Please describe your symptoms. You can type or use the microphone to speak."

  /** The two messages a turn adds to the transcript: the user's text, then the reply to its analysis. */
  function TurnMessages(symptoms: string, analysis: Analysis, sentAt: int, repliedAt: int): seq<Message> {
    [Message(User, symptoms, sentAt, None),
     Message(Doctor, GenerateDoctorResponse(analysis), repliedAt, Some(analysis.isEmergency))]
  }

  /** The doctor's message flags an emergency exactly when the user's text holds an emergency phrase. */
  lemma ReplyFlagsEmergencyPhrase(symptoms: string, sentAt: int, repliedAt: int)
    ensures TurnMessages(symptoms, AnalyzeSymptoms(symptoms), sentAt, repliedAt)[1].isEmergency
      == Some(exists k :: 0 <= k < |EmergencyKeywords| && Contains(Lower(symptoms), EmergencyKeywords[k]))
  {
  }

  class Consultation {
    var active: bool
    var messages: seq<Message>
    var inputText: string
    var processing: bool
    var showEmergencyAlert: bool
    var currentEmergency: Option<Analysis>
    var history: seq<ConsultationRecord>
    /** The browser storage the history lives in. */
    const store: HistoryStore

    /**
     * The alert only ever shows an emergency analysis, and the history panel
     * shows what the store holds.
     */
    predicate Valid()
      reads this, store
    {
      && (showEmergencyAlert ==> currentEmergency.Some?)
      && (currentEmergency.Some? ==> currentEmergency.value.isEmergency && Consistent(currentEmergency.value))
      && history == ReadHistory(store.slot)
    }

    /** Mounting the component: an idle session that has loaded the stored history. */
    constructor (store: HistoryStore)
      ensures this.store == store
      ensures !active && messages == [] && inputText == "" && !processing
      ensures !showEmergencyAlert && currentEmergency == None
      ensures history == ReadHistory(store.slot)
      ensures Valid()
    {
      var h := store.GetHistory();
      this.store := store;
      active := false;
      messages := [];
      inputText := "";
      processing := false;
      showEmergencyAlert := false;
      currentEmergency := None;
      history := h;
    }

    /** `startConsultation`: the session becomes active with the greeting as its only message. */
    method StartConsultation(now: int)
      requires Valid()
      modifies this
      ensures Valid()
      ensures active && messages == [Message(Doctor, OpeningLine, now, None)]
      ensures inputText == old(inputText) && processing == old(processing)
      ensures showEmergencyAlert == old(showEmergencyAlert) && currentEmergency == old(currentEmergency)
      ensures history == old(history)
    {
      active := true;
      messages := [Message(Doctor, OpeningLine, now, None)];
    }

    /** `endConsultation`: the session becomes inactive with no messages and an empty input. */
    method EndConsultation()
      requires Valid()
      modifies this
      ensures Valid()
      ensures !active && messages == [] && inputText == ""
      ensures processing == old(processing)
      ensures showEmergencyAlert == old(showEmergencyAlert) && currentEmergency == old(currentEmergency)
      ensures history == old(history)
    {
      active := false;
      messages := [];
      inputText := "";
    }

    /** Typing into the input box (or a speech transcript arriving). */
    method SetInputText(text: string)
      requires Valid()
      modifies this
      ensures Valid()
      ensures inputText == text
      ensures active == old(active) && messages == old(messages) && processing == old(processing)
      ensures showEmergencyAlert == old(showEmergencyAlert) && currentEmergency == old(currentEmergency)
      ensures history == old(history)
    {
      inputText := text;
    }

    /** Closing the emergency alert. */
    method DismissEmergencyAlert()
      requires Valid()
      modifies this
      ensures Valid()
      ensures !showEmergencyAlert
      ensures active == old(active) && messages == old(messages) && inputText == old(inputText)
      ensures processing == old(processing) && currentEmergency == old(currentEmergency)
      ensures history == old(history)
    {
      showEmergencyAlert := false;
    }

    /** The state changes of a turn whose text is not blank, given its analysis and the reply to it. */
    method RecordTurn(symptoms: string, analysis: Analysis, response: string,
                      id: string, sentAt: int, savedAt: int, repliedAt: int)
      requires Valid() && Consistent(analysis)
      modifies this, store
      ensures Valid()
      ensures messages == old(messages) + [Message(User, symptoms, sentAt, None),
        Message(Doctor, response, repliedAt, Some(analysis.isEmergency))]
      ensures store.slot == Stored(Prepended(ReadHistory(old(store.slot)),
        ConsultationRecord(id, savedAt, symptoms, analysis, response)))
      ensures history == ReadHistory(store.slot)
      ensures !processing && inputText == "" && active == old(active)
      ensures analysis.isEmergency ==> showEmergencyAlert && currentEmergency == Some(analysis)
      ensures !analysis.isEmergency ==>
        showEmergencyAlert == old(showEmergencyAlert) && currentEmergency == old(currentEmergency)
    {
      processing := true;
      messages := messages + [Message(User, symptoms, sentAt, None)];
      if analysis.isEmergency {
        currentEmergency := Some(analysis);
        showEmergencyAlert := true;
      }
      var saved := store.Save(symptoms, analysis, response, id, savedAt);
      history := store.GetHistory();
      messages := messages + [Message(Doctor, response, repliedAt, Some(analysis.isEmergency))];
      processing := false;
      inputText := "";
    }

    /**
     * `processSymptoms`: blank text changes nothing; otherwise the turn adds
     * the user's message and the doctor's reply, raises the alert for an
     * emergency, saves one record and reloads the history.
     */
    method ProcessSymptoms(symptoms: string, id: string, sentAt: int, savedAt: int, repliedAt: int)
      requires Valid()
      modifies this, store
      ensures Valid()
      ensures IsBlank(symptoms) ==> unchanged(this) && unchanged(store)
      ensures !IsBlank(symptoms) ==>
        var analysis := AnalyzeSymptoms(symptoms);
        && messages == old(messages) + TurnMessages(symptoms, analysis, sentAt, repliedAt)
        && store.slot == Stored(Prepended(ReadHistory(old(store.slot)),
             ConsultationRecord(id, savedAt, symptoms, analysis, GenerateDoctorResponse(analysis))))
        && history == ReadHistory(store.slot)
        && !processing && inputText == "" && active == old(active)
        && (analysis.isEmergency ==> showEmergencyAlert && currentEmergency == Some(analysis))
        && (!analysis.isEmergency ==>
              showEmergencyAlert == old(showEmergencyAlert) && currentEmergency == old(currentEmergency))
    {
      if IsBlank(symptoms) {
        return;
      }
      var analysis := AnalyzeSymptoms(symptoms);
      var response := GenerateDoctorResponse(analysis);
      RecordTurn(symptoms, analysis, response, id, sentAt, savedAt, repliedAt);
    }

    /** `handleSend`: processes the input text when it is not blank. */
    method HandleSend(id: string, sentAt: int, savedAt: int, repliedAt: int)
      requires Valid()
      modifies this, store
      ensures Valid()
      ensures IsBlank(old(inputText)) ==> unchanged(this) && unchanged(store)
      ensures !IsBlank(old(inputText)) ==>
        var analysis := AnalyzeSymptoms(old(inputText));
        && messages == old(messages) + TurnMessages(old(inputText), analysis, sentAt, repliedAt)
        && store.slot == Stored(Prepended(ReadHistory(old(store.slot)),
             ConsultationRecord(id, savedAt, old(inputText), analysis, GenerateDoctorResponse(analysis))))
        && history == ReadHistory(store.slot)
        && !processing && inputText == "" && active == old(active)
        && (analysis.isEmergency ==> showEmergencyAlert && currentEmergency == Some(analysis))
        && (!analysis.isEmergency ==>
              showEmergencyAlert == old(showEmergencyAlert) && currentEmergency == old(currentEmergency))
    {
      if !IsBlank(inputText) {
        ProcessSymptoms(inputText, id, sentAt, savedAt, repliedAt);
      }
    }
  }
}
