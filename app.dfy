/** The application shell (App.tsx): the conversation state, the practice
    settings, the voice chosen for the tutor's replies, and the two
    conversation handlers. Calls to the tutor service are split in two: the
    handler returns the request it sends, and a completion method receives the
    service's outcome and the clock reading taken when it arrived. */
module Conversation {
  import opened Types
  import opened JsString
  import opened SpeechSynthesis

  const TopicFailureText: string := "I'm sorry, I couldn't start our conversation. Please try again."
  const SendFailureText: string := "I'm sorry, an error occurred. Please try again."

  // ---------------------------------------------------------------------------
  // Voices

  /** `languageVoices`: the voices whose language tag starts with the selected
      language's code, in the platform's order. */
  function LanguageVoices(voices: seq<Voice>, code: string): (lv: seq<Voice>)
    ensures forall v :: v in lv <==> v in voices && StartsWith(v.lang, code)
    ensures |lv| <= |voices|
  {
    if voices == [] then []
    else (if StartsWith(voices[0].lang, code) then [voices[0]] else []) + LanguageVoices(voices[1..], code)
  }

  /** Filtering a concatenation filters each part. */
  lemma {:induction false} LanguageVoicesAppend(a: seq<Voice>, b: seq<Voice>, code: string)
    ensures LanguageVoices(a + b, code) == LanguageVoices(a, code) + LanguageVoices(b, code)
    decreases |a|
  {
    if a != [] {
      assert (a + b)[1..] == a[1..] + b;
      LanguageVoicesAppend(a[1..], b, code);
    } else {
      assert a + b == b;
    }
  }

  /** The voice the app prefers among `lv`: the first default voice, else the
      first voice, and none when `lv` is empty. */
  function PreferredVoice(lv: seq<Voice>): (r: Option<Voice>)
    ensures r.None? <==> lv == []
    ensures r.Some? ==> r.value in lv
    ensures r.Some? && !r.value.isDefault ==> r.value == lv[0] && forall i :: 0 <= i < |lv| ==> !lv[i].isDefault
    ensures r.Some? && r.value.isDefault ==> exists k :: 0 <= k < |lv| && lv[k] == r.value && forall j :: 0 <= j < k ==> !lv[j].isDefault
  {
    if lv == [] then None
    else
      match Find(lv, (v: Voice) => v.isDefault)
      case Some(v) => Some(v)
      case None => Some(lv[0])
  }

  /** The voice the app holds, as written, once the render that follows a
      selection of `chosen` has run its effects. The voice effect depends on
      `languageVoices`, a fresh array in every render, so it runs again and puts
      the preferred voice back: any other choice is undone. */
  function VoiceAfterSelectionAsWritten(voices: seq<Voice>, code: string, chosen: Option<Voice>): (v: Option<Voice>)
    ensures chosen != PreferredVoice(LanguageVoices(voices, code)) ==> v != chosen
    ensures v.None? <==> forall w :: w in voices ==> !StartsWith(w.lang, code)
  {
    PreferredVoiceNone(voices, code);
    PreferredVoice(LanguageVoices(voices, code))
  }

  /** No voice is preferred exactly when no voice speaks the language. */
  lemma PreferredVoiceNone(voices: seq<Voice>, code: string)
    ensures PreferredVoice(LanguageVoices(voices, code)).None? <==> forall w :: w in voices ==> !StartsWith(w.lang, code)
  {
    if w :| w in voices && StartsWith(w.lang, code) {
      assert w in LanguageVoices(voices, code);
    }
  }

  /** A concrete case: of two American English voices, choosing the one that is
      not the default leaves the default selected. */
  lemma ChosenVoiceDiscardedExample()
    ensures var samantha, alex := Voice("Samantha", "en-US", true), Voice("Alex", "en-US", false);
      VoiceAfterSelectionAsWritten([samantha, alex], "en-US", Some(alex)) == Some(samantha)
  {
    var samantha, alex := Voice("Samantha", "en-US", true), Voice("Alex", "en-US", false);
    var lv := LanguageVoices([samantha, alex], "en-US");
    assert StartsWith(samantha.lang, "en-US") && StartsWith(alex.lang, "en-US");
    assert [samantha, alex][1..] == [alex];
    assert lv == [samantha, alex];
  }

  // ---------------------------------------------------------------------------
  // Requests to the tutor service

  /** What a handler sends to the tutor service. */
  datatype AiRequest = AiRequest(
    history: seq<Message>,
    language: Language,
    difficulty: Difficulty,
    partner: ConversationPartner,
    topic: Option<string>)

  /** What the handler's closure holds for speaking the reply: the values of the
      render in which it was called. */
  datatype Captured = Captured(language: Language, voice: Option<Voice>, rate: real)

  /** A call in flight. */
  datatype Call = Call(request: AiRequest, captured: Captured)

  /** The service's answer: a reply with optional feedback, or a thrown error. */
  datatype AiOutcome = AiReplied(reply: string, feedback: Option<string>) | AiFailed

  // ---------------------------------------------------------------------------
  // The component

  class App {
    const synth: SynthesisHook
    var messages: seq<Message>
    var selectedLanguage: Language
    var selectedDifficulty: Difficulty
    var selectedPartner: ConversationPartner
    var selectedTopic: Option<string>
    var isAiTyping: bool
    var speakingRate: real
    var selectedVoice: Option<Voice>

    /** The voices offered for the selected language. */
    function Offered(): seq<Voice>
      reads this, synth
    {
      LanguageVoices(synth.voices, selectedLanguage.code)
    }

    /** The selected language is one of `LANGUAGES`, and the selected voice, when
        there is one, is one offered for it. */
    ghost predicate Valid()
      reads this, synth, synth.service
    {
      synth.Valid() &&
      selectedLanguage in LANGUAGES &&
      (selectedVoice.Some? ==> selectedVoice.value in Offered())
    }

    /** The first render and its effects. */
    constructor (synth: SynthesisHook, initialPartner: ConversationPartner)
      requires synth.Valid()
      ensures Valid() && this.synth == synth
      ensures messages == [] && selectedTopic == None && !isAiTyping
      ensures selectedLanguage == LANGUAGES[0] && selectedDifficulty == DIFFICULTIES[0]
      ensures selectedPartner == initialPartner && speakingRate == 1.0
      ensures selectedVoice == PreferredVoice(Offered())
    {
      this.synth := synth;
      messages, selectedTopic, isAiTyping := [], None, false;
      selectedLanguage, selectedDifficulty, selectedPartner := LANGUAGES[0], DIFFICULTIES[0], initialPartner;
      speakingRate := 1.0;
      selectedVoice := PreferredVoice(LanguageVoices(synth.voices, LANGUAGES[0].code));
    }

    /** `isSessionActive`: a conversation is under way. */
    function IsSessionActive(): (active: bool)
      reads this
      ensures active <==> messages != []
    {
      |messages| > 0
    }

    /** The synthesis hook's mount effect, then the voice effect its new voice
        list triggers. */
    method MountSpeech()
      requires Valid() && !synth.supported
      modifies this, synth
      ensures Valid()
      ensures synth.voices == (if synth.service.available then synth.service.voices else [])
      ensures synth.supported == synth.service.available && synth.subscribed == synth.service.available
      ensures selectedVoice == (if synth.service.available then PreferredVoice(Offered()) else old(selectedVoice))
      ensures messages == old(messages) && selectedLanguage == old(selectedLanguage) && selectedTopic == old(selectedTopic)
      ensures selectedDifficulty == old(selectedDifficulty) && selectedPartner == old(selectedPartner)
      ensures isAiTyping == old(isAiTyping) && speakingRate == old(speakingRate) && synth.speaking == old(synth.speaking)
    {
      synth.Mount();
      if synth.service.available {
        selectedVoice := PreferredVoice(Offered());
      }
    }

    /** A new voice list from the platform, then the voice effect it triggers. */
    method OnVoicesChanged()
      requires Valid()
      modifies this, synth
      ensures Valid()
      ensures synth.voices == (if synth.subscribed then synth.service.voices else old(synth.voices))
      ensures synth.speaking == old(synth.speaking) && synth.supported == old(synth.supported)
      ensures synth.subscribed == old(synth.subscribed)
      ensures selectedVoice == (if synth.subscribed then PreferredVoice(Offered()) else old(selectedVoice))
      ensures messages == old(messages) && selectedLanguage == old(selectedLanguage) && selectedTopic == old(selectedTopic)
      ensures selectedDifficulty == old(selectedDifficulty) && selectedPartner == old(selectedPartner)
      ensures isAiTyping == old(isAiTyping) && speakingRate == old(speakingRate)
    {
      synth.OnVoicesChanged();
      if synth.subscribed {
        selectedVoice := PreferredVoice(Offered());
      }
    }

    /** Selecting a language. A different one ends the conversation (the reset
        effect) and picks the preferred voice for it (the voice effect); the
        same one changes nothing. */
    method ChangeLanguage(language: Language)
      requires Valid() && language in LANGUAGES
      modifies this
      ensures Valid() && selectedLanguage == language
      ensures language == old(selectedLanguage) ==>
        messages == old(messages) && selectedTopic == old(selectedTopic) && selectedVoice == old(selectedVoice)
      ensures language != old(selectedLanguage) ==>
        messages == [] && selectedTopic == None && selectedVoice == PreferredVoice(Offered()) && !IsSessionActive()
      ensures selectedDifficulty == old(selectedDifficulty) && selectedPartner == old(selectedPartner)
      ensures isAiTyping == old(isAiTyping) && speakingRate == old(speakingRate)
    {
      if language != selectedLanguage {
        selectedLanguage := language;
        selectedVoice := PreferredVoice(Offered());
        messages, selectedTopic := [], None;
      }
    }

    /** Selecting a difficulty: a different one ends the conversation. */
    method ChangeDifficulty(difficulty: Difficulty)
      requires Valid()
      modifies this
      ensures Valid() && selectedDifficulty == difficulty
      ensures difficulty == old(selectedDifficulty) ==> messages == old(messages) && selectedTopic == old(selectedTopic)
      ensures difficulty != old(selectedDifficulty) ==> messages == [] && selectedTopic == None && !IsSessionActive()
      ensures selectedLanguage == old(selectedLanguage) && selectedPartner == old(selectedPartner)
      ensures selectedVoice == old(selectedVoice) && isAiTyping == old(isAiTyping) && speakingRate == old(speakingRate)
    {
      if difficulty != selectedDifficulty {
        selectedDifficulty := difficulty;
        messages, selectedTopic := [], None;
      }
    }

    /** Selecting a conversation partner: a different one ends the conversation. */
    method ChangePartner(partner: ConversationPartner)
      requires Valid()
      modifies this
      ensures Valid() && selectedPartner == partner
      ensures partner == old(selectedPartner) ==> messages == old(messages) && selectedTopic == old(selectedTopic)
      ensures partner != old(selectedPartner) ==> messages == [] && selectedTopic == None && !IsSessionActive()
      ensures selectedLanguage == old(selectedLanguage) && selectedDifficulty == old(selectedDifficulty)
      ensures selectedVoice == old(selectedVoice) && isAiTyping == old(isAiTyping) && speakingRate == old(speakingRate)
    {
      if partner != selectedPartner {
        selectedPartner := partner;
        messages, selectedTopic := [], None;
      }
    }

    /** Selecting a voice among those offered (or none), with the voice effect
        corrected to run only when the language or the voice list changes, so
        the choice stays. As written, the effect runs after every render and
        undoes the choice (`VoiceAfterSelectionAsWritten`). */
    method ChangeVoice(voice: Option<Voice>)
      requires Valid() && (voice.Some? ==> voice.value in Offered())
      modifies this
      ensures Valid() && selectedVoice == voice
      ensures messages == old(messages) && selectedLanguage == old(selectedLanguage) && selectedTopic == old(selectedTopic)
      ensures selectedDifficulty == old(selectedDifficulty) && selectedPartner == old(selectedPartner)
      ensures isAiTyping == old(isAiTyping) && speakingRate == old(speakingRate)
    {
      selectedVoice := voice;
    }

    /** Moving the speaking-rate slider. */
    method ChangeRate(rate: real)
      requires Valid()
      modifies this
      ensures Valid() && speakingRate == rate
      ensures messages == old(messages) && selectedVoice == old(selectedVoice) && selectedTopic == old(selectedTopic)
      ensures selectedLanguage == old(selectedLanguage) && isAiTyping == old(isAiTyping)
      ensures selectedDifficulty == old(selectedDifficulty) && selectedPartner == old(selectedPartner)
    {
      speakingRate := rate;
    }

    /** `handleTopicSelect`, up to the call: start a fresh conversation on the
        topic and ask the service to open it, with an empty history. */
    method TopicSelect(topic: string) returns (call: Call)
      requires Valid()
      modifies this
      ensures Valid()
      ensures selectedTopic == Some(topic) && messages == [] && isAiTyping && !IsSessionActive()
      ensures call.request == AiRequest([], selectedLanguage, selectedDifficulty, selectedPartner, Some(topic))
      ensures call.captured == Captured(selectedLanguage, selectedVoice, speakingRate)
      ensures selectedLanguage == old(selectedLanguage) && selectedDifficulty == old(selectedDifficulty)
      ensures selectedPartner == old(selectedPartner) && selectedVoice == old(selectedVoice) && speakingRate == old(speakingRate)
    {
      selectedTopic := Some(topic);
      messages := [];
      isAiTyping := true;
      call := Call(AiRequest([], selectedLanguage, selectedDifficulty, selectedPartner, Some(topic)),
                   Captured(selectedLanguage, selectedVoice, speakingRate));
    }

    /** `handleTopicSelect`, after the call: the conversation becomes the single
        tutor message (the reply, stamped `now`, and spoken) or the apology
        (stamped `now + 1`); the tutor is no longer typing either way. */
    method CompleteTopic(captured: Captured, outcome: AiOutcome, now: nat)
      requires Valid()
      modifies this, synth.service
      ensures Valid() && !isAiTyping
      ensures outcome.AiReplied? ==> messages == [Message(now, outcome.reply, AI, outcome.feedback)]
      ensures outcome.AiFailed? ==> messages == [Message(now + 1, TopicFailureText, AI, None)]
      ensures outcome.AiReplied? && synth.supported && !synth.speaking ==>
        synth.service.queue == [Utterance(outcome.reply, captured.language.code, captured.rate, captured.voice)]
      ensures outcome.AiFailed? || !synth.supported || synth.speaking ==> synth.service.queue == old(synth.service.queue)
      ensures IsSessionActive()
      ensures selectedLanguage == old(selectedLanguage) && selectedTopic == old(selectedTopic)
      ensures selectedDifficulty == old(selectedDifficulty) && selectedPartner == old(selectedPartner)
      ensures selectedVoice == old(selectedVoice) && speakingRate == old(speakingRate)
      ensures synth.service.voices == old(synth.service.voices)
    {
      isAiTyping := false;
      match outcome
      case AiReplied(reply, feedback) =>
        messages := [Message(now, reply, AI, feedback)];
        synth.Speak(reply, captured.language.code, captured.voice, captured.rate);
      case AiFailed =>
        messages := [Message(now + 1, TopicFailureText, AI, None)];
    }

    /** `handleSendMessage`, up to the call: blank text is ignored; otherwise the
        text, untrimmed and stamped `now`, joins the conversation, and the whole
        conversation goes to the service. */
    method SendMessage(text: string, now: nat) returns (call: Option<Call>)
      requires Valid()
      modifies this
      ensures Valid()
      ensures IsBlank(text) ==> call == None && messages == old(messages) && isAiTyping == old(isAiTyping)
      ensures !IsBlank(text) ==>
        messages == old(messages) + [Message(now, text, User, None)] && isAiTyping && IsSessionActive() &&
        call == Some(Call(AiRequest(messages, selectedLanguage, selectedDifficulty, selectedPartner, selectedTopic),
                          Captured(selectedLanguage, selectedVoice, speakingRate)))
      ensures selectedLanguage == old(selectedLanguage) && selectedDifficulty == old(selectedDifficulty)
      ensures selectedPartner == old(selectedPartner) && selectedTopic == old(selectedTopic)
      ensures selectedVoice == old(selectedVoice) && speakingRate == old(speakingRate)
    {
      if Trim(text) == "" {
        return None;
      }
      messages := messages + [Message(now, text, User, None)];
      isAiTyping := true;
      call := Some(Call(AiRequest(messages, selectedLanguage, selectedDifficulty, selectedPartner, selectedTopic),
                        Captured(selectedLanguage, selectedVoice, speakingRate)));
    }

    /** `handleSendMessage`, after the call: one tutor message, stamped `now + 1`,
        is appended to the conversation as it is now (the reply, which is also
        spoken, or the apology); the tutor is no longer typing. */
    method CompleteSend(captured: Captured, outcome: AiOutcome, now: nat)
      requires Valid()
      modifies this, synth.service
      ensures Valid() && !isAiTyping
      ensures outcome.AiReplied? ==> messages == old(messages) + [Message(now + 1, outcome.reply, AI, outcome.feedback)]
      ensures outcome.AiFailed? ==> messages == old(messages) + [Message(now + 1, SendFailureText, AI, None)]
      ensures outcome.AiReplied? && synth.supported && !synth.speaking ==>
        synth.service.queue == [Utterance(outcome.reply, captured.language.code, captured.rate, captured.voice)]
      ensures outcome.AiFailed? || !synth.supported || synth.speaking ==> synth.service.queue == old(synth.service.queue)
      ensures IsSessionActive()
      ensures selectedLanguage == old(selectedLanguage) && selectedTopic == old(selectedTopic)
      ensures selectedDifficulty == old(selectedDifficulty) && selectedPartner == old(selectedPartner)
      ensures selectedVoice == old(selectedVoice) && speakingRate == old(speakingRate)
      ensures synth.service.voices == old(synth.service.voices)
    {
      isAiTyping := false;
      match outcome
      case AiReplied(reply, feedback) =>
        messages := messages + [Message(now + 1, reply, AI, feedback)];
        synth.Speak(reply, captured.language.code, captured.voice, captured.rate);
      case AiFailed =>
        messages := messages + [Message(now + 1, SendFailureText, AI, None)];
    }
  }

  /** A message sent and answered grows the conversation by exactly the user's
      message and one tutor message, in that order. */
  method SendAndComplete(app: App, text: string, sent: nat, outcome: AiOutcome, received: nat)
      returns (call: Option<Call>)
    requires app.Valid() && !IsBlank(text)
    modifies app, app.synth.service
    ensures app.Valid() && !app.isAiTyping && call.Some?
    ensures call.value.request.history == old(app.messages) + [Message(sent, text, User, None)]
    ensures |app.messages| == |old(app.messages)| + 2
    ensures app.messages[..|old(app.messages)| + 1] == call.value.request.history
    ensures app.messages[|app.messages| - 1].sender == AI
  {
    call := app.SendMessage(text, sent);
    app.CompleteSend(call.value.captured, outcome, received);
  }
}
