/** The chat panel (components/ChatInterface.tsx): the message box, its
    synchronisation with the speech-to-text transcript, submission, the
    microphone button and which controls are disabled. */
module Chat {
  import opened Types
  import opened JsString
  import opened SpeechRecognition
  import opened Conversation

  class ChatInput {
    /** The hook the panel listens through. */
    const speech: RecognitionHook
    var inputText: string
    /** The transcript the synchronising effect last ran for (its dependency). */
    var seenTranscript: string

    ghost predicate Valid()
      reads this, speech, speech.handles
    {
      speech.Valid()
    }

    /** The first render and its effects: a non-empty transcript fills the box. */
    constructor (speech: RecognitionHook)
      requires speech.Valid()
      ensures Valid() && this.speech == speech
      ensures seenTranscript == speech.transcript
      ensures inputText == (if speech.transcript != "" then speech.transcript else "")
    {
      this.speech := speech;
      seenTranscript := speech.transcript;
      inputText := if speech.transcript != "" then speech.transcript else "";
    }

    /** The transcript effect, after a render: it runs only when the transcript
        has changed, and then a non-empty transcript replaces what was typed; an
        emptied transcript leaves the box alone. */
    method SyncTranscript()
      requires Valid()
      modifies this
      ensures Valid() && seenTranscript == speech.transcript
      ensures old(seenTranscript) != speech.transcript && speech.transcript != "" ==> inputText == speech.transcript
      ensures old(seenTranscript) == speech.transcript || speech.transcript == "" ==> inputText == old(inputText)
    {
      if seenTranscript != speech.transcript {
        seenTranscript := speech.transcript;
        if speech.transcript != "" {
          inputText := speech.transcript;
        }
      }
    }

    /** Typing in the box. */
    method OnInputChange(value: string)
      requires Valid()
      modifies this
      ensures Valid() && inputText == value && seenTranscript == old(seenTranscript)
    {
      inputText := value;
    }

    /** The send button is disabled while the box is blank or the tutor is typing. */
    function SendDisabled(isAiTyping: bool): (disabled: bool)
      reads this
      ensures disabled <==> IsBlank(inputText) || isAiTyping
    {
      Trim(inputText) == "" || isAiTyping
    }

    /** The text box is disabled while the tutor is typing or the microphone
        is listening, and so, when the tutor is not typing, only while the
        hook's current recognizer is running. */
    function InputDisabled(isAiTyping: bool): (disabled: bool)
      reads this, speech, speech.handles
      ensures disabled <==> isAiTyping || speech.isListening
      ensures Valid() && disabled && !isAiTyping ==> speech.recognition != null && speech.recognition.state == Running
    {
      isAiTyping || speech.isListening
    }

    /** `handleSubmit`: text that is not blank is handed on as typed (untrimmed)
        and the box is cleared; blank text is neither sent nor cleared. */
    method HandleSubmit() returns (sent: Option<string>)
      requires Valid()
      modifies this
      ensures Valid() && seenTranscript == old(seenTranscript)
      ensures sent.None? <==> IsBlank(old(inputText))
      ensures sent.Some? ==> sent.value == old(inputText) && inputText == ""
      ensures sent.None? ==> inputText == old(inputText)
    {
      if Trim(inputText) != "" {
        sent := Some(inputText);
        inputText := "";
      } else {
        sent := None;
      }
    }

    /** `handleVoiceClick`: stop while listening, start otherwise. */
    method HandleVoiceClick(lang: string, outcome: StartOutcome)
      requires Valid()
      modifies speech, speech.handles
      ensures Valid() && fresh(speech.handles - old(speech.handles))
      ensures speech.LiveHandles() <= (if speech.recognition == null then {} else {speech.recognition})
      ensures forall h :: h in old(speech.handles) && h != old(speech.recognition) ==> h.state == old(h.state)
      ensures old(speech.isListening) ==>
        !speech.isListening && speech.recognition == null && speech.handles == old(speech.handles) &&
        speech.transcript == old(speech.transcript) && speech.error == old(speech.error) &&
        old(speech.recognition).state == Stopping
      ensures !old(speech.isListening) && speech.supported ==>
        speech.transcript == "" &&
        (old(speech.recognition) != null ==>
          old(speech.recognition).state == (if old(speech.recognition.state) == Ended then Ended else Aborted))
      ensures !old(speech.isListening) && speech.supported && outcome == Starts ==>
        speech.isListening && speech.error == None &&
        speech.recognition != null && speech.recognition !in old(speech.handles) &&
        speech.handles == old(speech.handles) + {speech.recognition} &&
        speech.recognition.state == Running && !speech.recognition.continuous &&
        speech.recognition.interimResults && speech.recognition.lang == lang &&
        speech.LiveHandles() == {speech.recognition}
      ensures !old(speech.isListening) && speech.supported && outcome != Starts ==>
        !speech.isListening && speech.error == Some(InitFailedMessage) && speech.recognition == null
      ensures !old(speech.isListening) && !speech.supported ==>
        !speech.isListening && speech.error == Some(NotSupportedMessage) &&
        speech.transcript == old(speech.transcript) && speech.handles == old(speech.handles) &&
        speech.recognition == old(speech.recognition)
    {
      if speech.isListening {
        speech.StopListening();
      } else {
        speech.StartListening(lang, outcome);
      }
    }
  }

  /** Submitting from the panel into the app: with the send button enabled
      the text is sent, and then it always joins the conversation, since the
      panel's blank test and the app's are the same. */
  method Submit(chat: ChatInput, app: App, now: nat) returns (call: Option<Call>)
    requires chat.Valid() && app.Valid() && !chat.SendDisabled(app.isAiTyping)
    modifies chat, app
    ensures chat.Valid() && app.Valid() && chat.inputText == ""
    ensures call.Some? && app.isAiTyping
    ensures app.messages == old(app.messages) + [Message(now, old(chat.inputText), User, None)]
    ensures call.value.request.history == app.messages
  {
    var sent := chat.HandleSubmit();
    call := app.SendMessage(sent.value, now);
  }
}
