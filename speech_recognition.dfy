/** The speech-to-text hook (hooks/useSpeechRecognition.ts). The browser's
    recognizer is an abstract handle whose state the model tracks; its events
    (`onresult`, `onend`, `onerror`) are methods the environment calls. The
    hook's React state and `recognitionRef` are the fields of one object. */
module SpeechRecognition {
  import opened Types

  const NotSupportedMessage: string := "Speech recognition is not supported in this browser."
  const InitFailedMessage: string := "Failed to initialize speech recognition. This browser may not be fully compatible."
  const PermissionMessage: string := "Microphone permission was denied. Please allow microphone access in your browser's settings and refresh the page."
  const NoSpeechMessage: string := "No speech was detected. Please check your microphone and try again."
  const NetworkMessage: string := "A network error occurred with the speech recognition service. Please check your internet connection."
  const AudioCaptureMessage: string := "Failed to capture audio. Please ensure your microphone is connected and not in use by another application."

  // ---------------------------------------------------------------------------
  // Error classification

  /** The platform error codes with a fixed message of their own. */
  const KnownErrors: map<string, string> := map[
    "not-allowed" := PermissionMessage,
    "service-not-allowed" := PermissionMessage,
    "no-speech" := NoSpeechMessage,
    "network" := NetworkMessage,
    "audio-capture" := AudioCaptureMessage
  ]

  const UnknownPrefix: string := "An unknown error occurred: "

  /** The message for a code without one of its own: the code, and the
      platform's message when it is non-empty. */
  function UnknownErrorMessage(code: string, message: string): string {
    UnknownPrefix + code + "." + (if message != "" then " Message: " + message else "")
  }

  /** `onerror`'s message: starts from the unknown-code text and overrides it for
      the five known codes. */
  function ErrorMessage(code: string, message: string): (text: string)
    ensures code in KnownErrors ==> text == KnownErrors[code]
    ensures code !in KnownErrors ==> text == UnknownErrorMessage(code, message)
  {
    var text := UnknownErrorMessage(code, message);
    if code == "not-allowed" || code == "service-not-allowed" then PermissionMessage
    else if code == "no-speech" then NoSpeechMessage
    else if code == "network" then NetworkMessage
    else if code == "audio-capture" then AudioCaptureMessage
    else text
  }

  /** The message for a code without a fixed one names that code, right after
      the fixed prefix, and carries the platform's message when there is one. */
  lemma UnknownMessageNamesCode(code: string, message: string)
    requires code !in KnownErrors
    ensures var text := ErrorMessage(code, message);
      var head := UnknownPrefix + code + ".";
      |head| <= |text| && text[..|head|] == head &&
      (message == "" <==> |text| == |head|) &&
      (message != "" ==> text[|text| - |message|..] == message)
  {
    var text := ErrorMessage(code, message);
    var head := UnknownPrefix + code + ".";
    if message == "" {
      assert text == head;
    } else {
      assert text == head + (" Message: " + message);
      assert |" Message: "| == 10;
    }
  }

  // ---------------------------------------------------------------------------
  // Transcript

  /** One recognition result: whether it is final, and its alternatives' texts
      (the platform always supplies at least one). */
  datatype RecognitionResult = RecognitionResult(isFinal: bool, alternatives: seq<string>)

  predicate WellFormed(results: seq<RecognitionResult>) {
    forall i :: 0 <= i < |results| ==> |results[i].alternatives| > 0
  }

  /** The transcript of a result list: the first alternative of every result,
      final or interim, concatenated in order. */
  function Transcript(results: seq<RecognitionResult>): string
    requires WellFormed(results)
  {
    if results == [] then ""
    else Transcript(results[..|results| - 1]) + results[|results| - 1].alternatives[0]
  }

  /** The transcript of a list is the transcripts of its two halves, joined. */
  lemma {:induction false} TranscriptAppend(a: seq<RecognitionResult>, b: seq<RecognitionResult>)
    requires WellFormed(a) && WellFormed(b)
    ensures WellFormed(a + b) && Transcript(a + b) == Transcript(a) + Transcript(b)
    decreases |b|
  {
    assert WellFormed(a + b) by {
      forall i | 0 <= i < |a + b| ensures |(a + b)[i].alternatives| > 0 {
        if i >= |a| { assert (a + b)[i] == b[i - |a|]; }
      }
    }
    if b != [] {
      var b' := b[..|b| - 1];
      assert (a + b)[..|a + b| - 1] == a + b';
      TranscriptAppend(a, b');
    } else {
      assert a + b == a;
    }
  }

  /** Whether a result is final plays no part: only the first alternatives count. */
  lemma {:induction false} TranscriptIgnoresFinality(rs: seq<RecognitionResult>, qs: seq<RecognitionResult>)
    requires WellFormed(rs) && WellFormed(qs) && |rs| == |qs|
    requires forall i :: 0 <= i < |rs| ==> rs[i].alternatives[0] == qs[i].alternatives[0]
    ensures Transcript(rs) == Transcript(qs)
    decreases |rs|
  {
    if rs != [] {
      TranscriptIgnoresFinality(rs[..|rs| - 1], qs[..|qs| - 1]);
    }
  }

  /** The `onresult` loop: accumulate the first alternative of each result
      from index 0 on. */
  method JoinTranscript(results: seq<RecognitionResult>) returns (finalTranscript: string)
    requires WellFormed(results)
    ensures finalTranscript == Transcript(results)
  {
    finalTranscript := "";
    var i := 0;
    while i < |results|
      invariant 0 <= i <= |results|
      invariant finalTranscript == Transcript(results[..i])
    {
      assert results[..i + 1][..i] == results[..i];
      finalTranscript := finalTranscript + results[i].alternatives[0];
      i := i + 1;
    }
    assert results[..|results|] == results;
  }

  // ---------------------------------------------------------------------------
  // The platform handle

  /** Where a recognizer is in its life: configured but not started, capturing,
      asked to stop (it may still deliver its last results), aborted, ended. */
  datatype RecognizerState = Created | Running | Stopping | Aborted | Ended

  /** A browser `SpeechRecognition` object. */
  class Recognizer {
    var continuous: bool
    var interimResults: bool
    var lang: string
    var state: RecognizerState

    /** Still capturing audio, or about to. */
    predicate Live()
      reads this
    {
      state == Created || state == Running
    }

    /** `new SpeechRecognition()` with the platform defaults. */
    constructor ()
      ensures state == Created && !continuous && !interimResults && lang == ""
    {
      continuous, interimResults, lang, state := false, false, "", Created;
    }

    /** `start()`. */
    method Start()
      requires state == Created
      modifies this
      ensures state == Running
      ensures continuous == old(continuous) && interimResults == old(interimResults) && lang == old(lang)
    {
      state := Running;
    }

    /** `stop()`: a live recognizer winds down; otherwise nothing happens. */
    method Stop()
      modifies this
      ensures state == (if old(Live()) then Stopping else old(state))
      ensures continuous == old(continuous) && interimResults == old(interimResults) && lang == old(lang)
      ensures !Live()
    {
      if Live() { state := Stopping; }
    }

    /** `abort()`: a recognizer that has not ended is cut off at once. */
    method Abort()
      modifies this
      ensures state == (if old(state) == Ended then Ended else Aborted)
      ensures continuous == old(continuous) && interimResults == old(interimResults) && lang == old(lang)
      ensures !Live()
    {
      if state != Ended { state := Aborted; }
    }
  }

  /** How the platform answers a start: the recognizer starts, its constructor
      throws, or its `start()` throws. */
  datatype StartOutcome = Starts | ConstructorThrows | StartThrows

  // ---------------------------------------------------------------------------
  // The hook

  class RecognitionHook {
    /** Whether the browser offers a recognizer at all (`hasRecognitionSupport`). */
    const supported: bool
    var isListening: bool
    var transcript: string
    var error: Option<string>
    /** `recognitionRef.current`. */
    var recognition: Recognizer?
    /** Every recognizer this hook has created. */
    ghost var handles: set<Recognizer>

    /** The hook's invariant: the current recognizer is one of its own, every
        other one is no longer live, and the hook listens only while its
        current recognizer runs. */
    ghost predicate Valid()
      reads this, handles
    {
      (recognition != null ==> recognition in handles) &&
      (forall h :: h in handles && h != recognition ==> !h.Live()) &&
      (isListening ==> recognition != null && recognition.state == Running) &&
      (!supported ==> handles == {})
    }

    /** The recognizers still capturing audio, or about to. */
    ghost function LiveHandles(): set<Recognizer>
      reads this, handles
    {
      set h | h in handles && h.Live()
    }

    /** At most one recognizer is live, and it is the current one. */
    lemma AtMostOneLive()
      requires Valid()
      ensures LiveHandles() <= (if recognition == null then {} else {recognition})
      ensures |LiveHandles()| <= 1
    {
      var live := LiveHandles();
      if recognition == null {
        assert live == {};
      } else if live != {} {
        assert live == {recognition};
      }
    }

    /** The hook's first render. */
    constructor (supported: bool)
      ensures Valid() && fresh(this)
      ensures this.supported == supported
      ensures !isListening && transcript == "" && error == None && recognition == null && handles == {}
    {
      this.supported := supported;
      isListening, transcript, error, recognition := false, "", None, null;
      handles := {};
    }

    /** `stopListening`: stop and forget the current recognizer, if any; the hook
        is then not listening. Nothing else changes, so a second call changes
        nothing at all. */
    method StopListening()
      requires Valid()
      modifies this, handles
      ensures Valid() && handles == old(handles)
      ensures recognition == null && !isListening
      ensures transcript == old(transcript) && error == old(error)
      ensures old(recognition) != null ==>
        old(recognition).state == (if old(recognition.Live()) then Stopping else old(recognition.state))
      ensures forall h :: h in handles && h != old(recognition) ==> h.state == old(h.state)
      ensures old(recognition) == null ==> unchanged(handles)
      ensures LiveHandles() == {}
    {
      if recognition != null {
        recognition.Stop();
        recognition := null;
      }
      isListening := false;
    }

    /** `startListening`. While listening it is `stopListening`. Without
        platform support it only reports so. Otherwise it aborts the previous
        recognizer, clears the transcript and the error, and creates, configures
        and starts a new one; if the platform throws on the way, it reports the
        failure and stops. */
    method StartListening(lang: string, outcome: StartOutcome)
      requires Valid()
      modifies this, handles
      ensures Valid() && fresh(handles - old(handles))
      ensures LiveHandles() <= (if recognition == null then {} else {recognition})
      // a toggle while listening: exactly `stopListening`
      ensures old(isListening) ==>
        recognition == null && !isListening && handles == old(handles) &&
        transcript == old(transcript) && error == old(error) &&
        old(recognition).state == Stopping &&
        (forall h :: h in handles && h != old(recognition) ==> h.state == old(h.state))
      // no recognizer in this browser
      ensures !old(isListening) && !supported ==>
        error == Some(NotSupportedMessage) && transcript == old(transcript) &&
        isListening == old(isListening) && recognition == old(recognition) &&
        handles == old(handles) && unchanged(handles)
      // any real start aborts the old recognizer and discards the old transcript
      ensures !old(isListening) && supported ==>
        transcript == "" && (old(recognition) != null ==> old(recognition).state == (if old(recognition.state) == Ended then Ended else Aborted))
      // no other recognizer is touched
      ensures forall h :: h in old(handles) && h != old(recognition) ==> h.state == old(h.state)
      ensures !old(isListening) && supported && outcome == Starts ==>
        error == None && isListening && recognition != null &&
        recognition !in old(handles) && handles == old(handles) + {recognition} &&
        recognition.state == Running && !recognition.continuous &&
        recognition.interimResults && recognition.lang == lang &&
        LiveHandles() == {recognition}
      ensures !old(isListening) && supported && outcome == ConstructorThrows ==>
        error == Some(InitFailedMessage) && !isListening && recognition == null &&
        handles == old(handles) && LiveHandles() == {}
      ensures !old(isListening) && supported && outcome == StartThrows ==>
        error == Some(InitFailedMessage) && !isListening && recognition == null &&
        |handles - old(handles)| == 1 && LiveHandles() == {}
    {
      if isListening {
        StopListening();
      } else if !supported {
        error := Some(NotSupportedMessage);
      } else {
        StartFresh(lang, outcome);
      }
    }

    /** The body of `startListening` in a supporting browser while not listening:
        abort the previous recognizer, clear the transcript and the error, then
        create, configure and start a new one (the catch block reports a throw
        and stops). */
    method StartFresh(lang: string, outcome: StartOutcome)
      requires Valid() && supported && !isListening
      modifies this, handles
      ensures Valid() && fresh(handles - old(handles))
      ensures transcript == "" && (old(recognition) != null ==> old(recognition).state == (if old(recognition.state) == Ended then Ended else Aborted))
      ensures forall h :: h in old(handles) && h != old(recognition) ==> h.state == old(h.state)
      ensures LiveHandles() <= (if recognition == null then {} else {recognition})
      ensures outcome == Starts ==>
        error == None && isListening && recognition != null &&
        recognition !in old(handles) && handles == old(handles) + {recognition} &&
        recognition.state == Running && !recognition.continuous &&
        recognition.interimResults && recognition.lang == lang &&
        LiveHandles() == {recognition}
      ensures outcome == ConstructorThrows ==>
        error == Some(InitFailedMessage) && !isListening && recognition == null &&
        handles == old(handles) && LiveHandles() == {}
      ensures outcome == StartThrows ==>
        error == Some(InitFailedMessage) && !isListening && recognition == null &&
        |handles - old(handles)| == 1 && LiveHandles() == {}
    {
      if recognition != null {
        recognition.Abort();
      }
      transcript := "";
      error := None;
      if outcome == ConstructorThrows {
        InitFailed();
        return;
      }
      var r := Create(lang);
      if outcome == StartThrows {
        InitFailed();
        return;
      }
      r.Start();
      isListening := true;
      AtMostOneLive();
      assert r in LiveHandles();
    }

    /** `new SpeechRecognition()` and its configuration: the new recognizer
        becomes the current one. */
    method Create(lang: string) returns (r: Recognizer)
      requires Valid() && supported && !isListening
      requires recognition != null ==> !recognition.Live()
      modifies this
      ensures Valid() && fresh(r) && handles == old(handles) + {r} && recognition == r
      ensures r.state == Created && !r.continuous && r.interimResults && r.lang == lang
      ensures !isListening && transcript == old(transcript) && error == old(error)
    {
      r := new Recognizer();
      handles := handles + {r};
      recognition := r;
      r.continuous := false;
      r.interimResults := true;
      r.lang := lang;
    }

    /** The catch block: report the failure, then `stopListening`. */
    method InitFailed()
      requires Valid()
      modifies this, handles
      ensures Valid() && handles == old(handles)
      ensures error == Some(InitFailedMessage) && !isListening && recognition == null
      ensures transcript == old(transcript) && LiveHandles() == {}
      ensures old(recognition) != null ==>
        old(recognition).state == (if old(recognition.Live()) then Stopping else old(recognition.state))
      ensures forall h :: h in handles && h != old(recognition) ==> h.state == old(h.state)
    {
      error := Some(InitFailedMessage);
      StopListening();
    }

    /** `onresult`: the transcript becomes that of the whole result list,
        replacing the previous one rather than extending it. */
    method OnResult(results: seq<RecognitionResult>)
      requires Valid() && WellFormed(results)
      modifies this
      ensures Valid()
      ensures transcript == Transcript(results)
      ensures isListening == old(isListening) && error == old(error) && recognition == old(recognition)
      ensures handles == old(handles)
    {
      var t := JoinTranscript(results);
      transcript := t;
    }

    /** `onend` from recognizer `source` (the platform has ended it): the hook
        stops listening but keeps its current recognizer. */
    method OnEnd(source: Recognizer)
      requires Valid() && source in handles
      modifies this, source
      ensures Valid()
      ensures source.state == Ended && !isListening
      ensures recognition == old(recognition) && transcript == old(transcript) && error == old(error)
      ensures handles == old(handles)
    {
      source.state := Ended;
      isListening := false;
    }

    /** `onerror`: record the classified message, then `stopListening`. */
    method OnError(code: string, message: string)
      requires Valid()
      modifies this, handles
      ensures Valid() && handles == old(handles)
      ensures error == Some(ErrorMessage(code, message))
      ensures recognition == null && !isListening && transcript == old(transcript)
      ensures LiveHandles() == {}
      ensures old(recognition) != null ==>
        old(recognition).state == (if old(recognition.Live()) then Stopping else old(recognition.state))
      ensures forall h :: h in handles && h != old(recognition) ==> h.state == old(h.state)
    {
      error := Some(ErrorMessage(code, message));
      StopListening();
    }

    /** `clearTranscript`. */
    method ClearTranscript()
      requires Valid()
      modifies this
      ensures Valid() && transcript == ""
      ensures isListening == old(isListening) && error == old(error) && recognition == old(recognition)
      ensures handles == old(handles)
    {
      transcript := "";
    }

    /** The unmount cleanup: abort the current recognizer, if any. The hook's
        fields are left as they are. */
    method Unmount()
      requires Valid()
      modifies handles
      ensures LiveHandles() == {}
      ensures recognition != null ==> recognition.state == (if old(recognition.state) == Ended then Ended else Aborted)
      ensures forall h :: h in handles && h != recognition ==> h.state == old(h.state)
    {
      if recognition != null {
        recognition.Abort();
      }
    }
  }
}
