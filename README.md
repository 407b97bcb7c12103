# CapyBlaBla tutor core, modelled in Dafny

CapyBlaBla is a browser app for practising a foreign language by chatting with an
AI tutor. The learner picks a language, a level and a conversation partner
persona. They start a session from a topic, then type or dictate messages. The
tutor answers, optionally with feedback on the learner's last message, and its
replies are read aloud.

This project models the core of that app:

- **The edge handler** (`api/gemini.ts`, module `GeminiApi`). It checks the
  method, the body and the API key. It builds the model's chat: the persona
  instruction, the history minus its last message, and the outgoing message.
  It then splits the model's answer at `---` into a reply and feedback.
- **The speech-to-text hook** (`hooks/useSpeechRecognition.ts`, module
  `SpeechRecognition`). The hook is a class. Browser recognizers are handle
  objects with a life cycle. Platform events are methods.
- **The text-to-speech hook** (`hooks/useSpeechSynthesis.ts`, module
  `SpeechSynthesis`). The browser service is an object with a voice list and an
  utterance queue.
- **The app shell** (`App.tsx`, module `Conversation`). It holds the session
  state, the settings, the voice selection and the two conversation handlers.
  Each call to the tutor service is split in two: the handler returns the
  `Call` it sends, and a completion method receives the outcome.
- **The settings panel's value mappings** (`components/SettingsPanel.tsx`,
  module `Settings`).
- **The chat input** (`components/ChatInterface.tsx`, module `Chat`).

The JavaScript string operations these files rely on are modelled in
`JsString`: `trim` with the ECMAScript white-space set, `split` with a
non-empty separator, and `startsWith`. `Types` holds the shared records and
`Array.prototype.find`.

Main results proved:

- `split` followed by `join` gives back the original text.
- For a conversation under way, neither the reply nor the feedback contains
  the separator.
- For a conversation under way (`!IsNewConversation`) that ends with the
  learner's message, the SDK history plus the outgoing message, sent as the
  user's turn, is exactly the conversation sent.
- The handler's status codes are characterised both ways.
- The `onresult` loop computes the transcript function.
- At most one recognizer is ever live, and it is the current one.
- The synthesis hook never queues more than one utterance, and `speak` does
  nothing while the hook's speaking flag is set.
- Every select option maps back to the value it shows (for voices, when the
  voice names are distinct).
- A submission from the chat box always reaches the conversation.

## Model

| member | source | states |
|---|---|---|
| JsString.Trim | api/gemini.ts:146-147 | the result is the slice left after removing white space at both ends: only white space lies outside it, it neither starts nor ends with white space, and it is empty exactly when the input is blank |
| JsString.TrimIdempotent | api/gemini.ts:146 | trimming twice is trimming once |
| JsString.IndexOf | api/gemini.ts:145 | the result is the first occurrence of the separator; there is none exactly when the text is free of it |
| JsString.Split | api/gemini.ts:145 | `split` always yields at least one piece |
| JsString.JoinSplit | api/gemini.ts:145 | joining the pieces with the separator restores the text |
| JsString.SplitPiecesFree | api/gemini.ts:145 | no piece contains the separator |
| JsString.SplitHead | api/gemini.ts:145-147 | piece 0 is the text before the first separator; piece 1 runs from there to the second separator or the end; with no separator the result is the whole text |
| Types.FirstIndex | components/SettingsPanel.tsx:30 | the first index whose element satisfies the predicate; none exactly when no element does |
| Types.Find | components/SettingsPanel.tsx:30 | the first element satisfying the predicate; none exactly when no element does |
| GeminiApi.PartnerValuesDistinct | types.ts:26-30 | the three partner values are pairwise different strings |
| GeminiApi.PartnerOf | api/gemini.ts:38-39 | the partner whose value is the given string; none exactly when no partner has that value |
| GeminiApi.SystemInstruction | api/gemini.ts:35-98 | a partner value selects that persona's template, built on the base intro for the language name and level; every other value, and only those, gets the fallback |
| GeminiApi.ToTurns | api/gemini.ts:124-127 | one turn per message, in order, carrying that message's text and the role "user" for the learner's messages, "model" for the tutor's |
| GeminiApi.ToTurnsAppend | api/gemini.ts:124-127 | mapping messages to turns distributes over concatenation |
| GeminiApi.HistoryForSdk | api/gemini.ts:118-127 | empty for a new conversation (`IsNewConversation`: no history, or an empty one); otherwise all messages but the last, converted in order |
| GeminiApi.Prepare | api/gemini.ts:129-139 | the chat uses the fixed model and the persona instruction; a new conversation sends the topic prompt with no history (`LastMessageText` picks the prompt, which renders a null topic as "null" and a missing one as "undefined"); otherwise it sends the last message's text after a history one shorter than the conversation |
| GeminiApi.PrepareKeepsConversation | api/gemini.ts:122-131 | for a conversation under way (`!IsNewConversation`), the SDK history plus the outgoing message, as a turn with the last message's role, equals the whole conversation converted to turns: nothing lost, duplicated or reordered; when the last message is the learner's, the user's turn the SDK sends completes it exactly (for a new conversation the history is empty and the message is the topic prompt instead) |
| GeminiApi.ExtractReply | api/gemini.ts:145-147 | the reply is never empty. For a new conversation, or an answer without `---`, it is the trimmed whole text (or the fallback) with no feedback. Otherwise the reply is the trimmed text before the first `---` (or the fallback), and the feedback is the trimmed text up to the second `---` or the end |
| GeminiApi.ExtractedHasNoSeparator | api/gemini.ts:145-147 | once a conversation is under way, neither the reply nor the feedback contains `---` |
| GeminiApi.Handle | api/gemini.ts:106-156 | non-POST gives 405 with "Method not allowed", and 405 occurs only then. 200 occurs exactly for a POST with a parsed body, an API key and an SDK answer, and then carries the extracted reply, with no feedback for a new conversation. A bad body, a missing key or an SDK failure each give 500 with their own payload |
| SpeechRecognition.ErrorMessage | hooks/useSpeechRecognition.ts:112-125 | each of the five known codes gets its fixed message; every other code gets the unknown-error text |
| SpeechRecognition.UnknownMessageNamesCode | hooks/useSpeechRecognition.ts:113-116 | an unknown code's message starts with the prefix and the code; it is longer exactly when the platform message is non-empty, and then ends with that message |
| SpeechRecognition.TranscriptAppend | hooks/useSpeechRecognition.ts:100-103 | the transcript of a concatenation is the two transcripts joined |
| SpeechRecognition.TranscriptIgnoresFinality | hooks/useSpeechRecognition.ts:101-102 | only first alternatives count; finality plays no part |
| SpeechRecognition.JoinTranscript | hooks/useSpeechRecognition.ts:100-103 | the loop's result is the transcript of the whole result list |
| SpeechRecognition.Recognizer.constructor | hooks/useSpeechRecognition.ts:90 | a fresh recognizer has not started and has the platform defaults |
| SpeechRecognition.Recognizer.Start | hooks/useSpeechRecognition.ts:131 | a created recognizer starts running; its configuration is kept |
| SpeechRecognition.Recognizer.Stop | hooks/useSpeechRecognition.ts:64 | a live recognizer winds down; afterwards it is not live |
| SpeechRecognition.Recognizer.Abort | hooks/useSpeechRecognition.ts:83 | a recognizer that has not ended is aborted; afterwards it is not live |
| SpeechRecognition.RecognitionHook.AtMostOneLive | hooks/useSpeechRecognition.ts:81-84 | under the hook invariant, at most one recognizer is live, and that is the current one |
| SpeechRecognition.RecognitionHook.constructor | hooks/useSpeechRecognition.ts:57-60 | not listening, empty transcript, no error, no recognizer |
| SpeechRecognition.RecognitionHook.StopListening | hooks/useSpeechRecognition.ts:62-68 | the current recognizer, if any, is stopped and forgotten; the hook is not listening; nothing else changes, so a second call changes nothing; no recognizer stays live |
| SpeechRecognition.RecognitionHook.StartListening | hooks/useSpeechRecognition.ts:70-139 | while listening it acts as stop. Without support it only sets the not-supported error. Otherwise the old recognizer is aborted (unless it had ended) and the transcript is cleared. No other recognizer changes state. On a start, exactly one new recognizer runs, configured non-continuous, with interim results and the language, and the error is cleared. On a throw, the init-failed error is set and nothing is live |
| SpeechRecognition.RecognitionHook.StartFresh | hooks/useSpeechRecognition.ts:81-138 | the supported, not-listening part of the above, case by case for each platform outcome |
| SpeechRecognition.RecognitionHook.Create | hooks/useSpeechRecognition.ts:90-97 | a fresh recognizer, configured non-continuous, with interim results and the language, becomes the current one; the hook is otherwise unchanged |
| SpeechRecognition.RecognitionHook.InitFailed | hooks/useSpeechRecognition.ts:134-138 | the init-failed error is set and the hook stops as `stopListening` does: the current recognizer, if live, is stopping, no other recognizer changes state, and none stays live |
| SpeechRecognition.RecognitionHook.OnResult | hooks/useSpeechRecognition.ts:99-105 | the transcript becomes that of the whole result list, replacing the old one; nothing else changes |
| SpeechRecognition.RecognitionHook.OnEnd | hooks/useSpeechRecognition.ts:107-110 | the source recognizer has ended; the hook stops listening but keeps its current recognizer |
| SpeechRecognition.RecognitionHook.OnError | hooks/useSpeechRecognition.ts:112-129 | the error is the classified message; the hook then stops as `stopListening` does: the current recognizer, if live, is stopping, no other recognizer changes state, and none stays live |
| SpeechRecognition.RecognitionHook.ClearTranscript | hooks/useSpeechRecognition.ts:141-143 | the transcript is empty; nothing else changes |
| SpeechRecognition.RecognitionHook.Unmount | hooks/useSpeechRecognition.ts:146-152 | the current recognizer is aborted; no recognizer stays live; others are untouched |
| SpeechSynthesis.SynthesisService.constructor | hooks/useSpeechSynthesis.ts:10 | a service with its voice list and an empty queue |
| SpeechSynthesis.SynthesisService.Cancel | hooks/useSpeechSynthesis.ts:41 | the queue is emptied |
| SpeechSynthesis.SynthesisService.Enqueue | hooks/useSpeechSynthesis.ts:42 | the utterance joins the end of the queue |
| SpeechSynthesis.SynthesisService.ReplaceVoices | hooks/useSpeechSynthesis.ts:19 | the platform's new voice list; the queue is kept |
| SpeechSynthesis.SynthesisHook.constructor | hooks/useSpeechSynthesis.ts:5-7 | not speaking, not supported, no voices |
| SpeechSynthesis.SynthesisHook.Mount | hooks/useSpeechSynthesis.ts:9-20 | where the service exists, the hook becomes supported, takes the service's voices and subscribes to changes; otherwise nothing changes |
| SpeechSynthesis.SynthesisHook.OnVoicesChanged | hooks/useSpeechSynthesis.ts:13-15 | while subscribed, the hook's voices become the service's |
| SpeechSynthesis.SynthesisHook.Unmount | hooks/useSpeechSynthesis.ts:21-23 | the voice-change handler is removed |
| SpeechSynthesis.SynthesisHook.Speak | hooks/useSpeechSynthesis.ts:27-43 | when unsupported or already speaking, the queue is untouched. Otherwise the queue becomes exactly the one utterance with the text, language, rate and voice given. The invariant keeps the queue at most one long |
| SpeechSynthesis.SynthesisHook.OnUtteranceStart | hooks/useSpeechSynthesis.ts:37 | the hook is speaking |
| SpeechSynthesis.SynthesisHook.OnUtteranceEnd | hooks/useSpeechSynthesis.ts:38-39 | the hook is not speaking; a finished utterance leaves the queue |
| SpeechSynthesis.SynthesisHook.Cancel | hooks/useSpeechSynthesis.ts:45-48 | the call throws exactly when there is no service, and then nothing changes; otherwise the queue is empty and the hook is not speaking |
| Conversation.LanguageVoices | App.tsx:26 | a voice is kept exactly when its language tag starts with the code |
| Conversation.LanguageVoicesAppend | App.tsx:26 | the filter distributes over concatenation, so the platform order is kept |
| Conversation.PreferredVoice | App.tsx:29-34 | none exactly for an empty list. Otherwise the first default voice, or the first voice when there is no default; always a member of the list |
| Conversation.PreferredVoiceNone | App.tsx:29-34 | no voice is preferred exactly when no platform voice speaks the language |
| Conversation.VoiceAfterSelectionAsWritten | App.tsx:28-35 | as written, any choice other than the preferred voice is undone by the next run of the voice effect |
| Conversation.ChosenVoiceDiscardedExample | App.tsx:28-35 | with a default and a non-default voice for American English, choosing the non-default one leaves the default selected |
| Conversation.App.constructor | App.tsx:13-22 | empty conversation, no topic, first language and level, rate 1, and the preferred voice |
| Conversation.App.IsSessionActive | App.tsx:128 | a session is active exactly when there are messages; the partner clauses are on the handlers: a first reply or apology, or a sent message, makes it active, a new topic or a changed language, level or partner makes it inactive |
| Conversation.App.MountSpeech | App.tsx:28-35 | after the synthesis hook's mount, the preferred voice for the new voice list is selected; the hook is supported and subscribed exactly when the platform has a speech service; the conversation, the other settings, the typing flag and the speaking flag are unchanged |
| Conversation.App.OnVoicesChanged | App.tsx:28-35 | while the hook is subscribed, a new voice list is taken over and reselects the preferred voice; the hook's speaking, supported and subscribed flags, the conversation and the settings are unchanged |
| Conversation.App.ChangeLanguage | App.tsx:38-41 | a different language clears the conversation and the topic, and selects the preferred voice for it; the same language changes nothing |
| Conversation.App.ChangeDifficulty | App.tsx:38-41 | a different level clears the conversation and the topic; the same one changes nothing |
| Conversation.App.ChangePartner | App.tsx:38-41 | a different partner clears the conversation and the topic; the same one changes nothing |
| Conversation.App.ChangeVoice | App.tsx:123 | the chosen voice, one offered for the language or none, becomes the selected voice and stays (corrected; see Findings) |
| Conversation.App.ChangeRate | App.tsx:125 | the rate is set; nothing else changes |
| Conversation.App.TopicSelect | App.tsx:44-56 | the topic is set, the conversation is empty and the tutor is typing; the request has an empty history and the topic; the reply will be spoken with this render's language, voice and rate |
| Conversation.App.CompleteTopic | App.tsx:57-70 | the conversation becomes the single reply, stamped with the clock and spoken, or the apology stamped one later; the tutor stops typing and the session is active; the settings and the voice list are unchanged |
| Conversation.App.SendMessage | App.tsx:73-82 | blank text changes nothing and sends nothing. Other text, untrimmed, is appended as the user's message, the tutor is typing, and the whole conversation goes out with the settings and the topic |
| Conversation.App.CompleteSend | App.tsx:83-96 | one tutor message, stamped one after the clock, is appended: the reply (also spoken) or the apology; the tutor stops typing and the session is active; the settings and the voice list are unchanged |
| Conversation.SendAndComplete | App.tsx:73-96 | a message sent and answered grows the conversation by the user's message, then one tutor message |
| Settings.LanguageForCode | components/SettingsPanel.tsx:29-32 | the language carrying the code, from the list; none exactly when no language has it |
| Settings.LanguageCodesDistinct | constants.ts:4-11 | the language codes are pairwise distinct |
| Settings.LanguageRoundTrip | components/SettingsPanel.tsx:51-57 | each language's option leads back to that language |
| Settings.DifficultyForValue | components/SettingsPanel.tsx:34-36 | the level whose value was selected |
| Settings.DifficultyRoundTrip | components/SettingsPanel.tsx:66-72 | each level's option leads back to that level |
| Settings.VoiceForName | components/SettingsPanel.tsx:38-41 | the first offered voice with that name; none exactly when no voice has it |
| Settings.VoiceSelectDisabled | components/SettingsPanel.tsx:83 | the voice select is disabled exactly when no voice is offered, which is exactly when the app has no preferred voice to select |
| Settings.VoiceRoundTrip | components/SettingsPanel.tsx:81-91 | with distinct names, the option the select shows for a voice (its name, via `VoiceSelectValue`, which shows the empty string for no voice) selects that voice again |
| Chat.ChatInput.constructor | components/ChatInterface.tsx:16-24 | the box starts empty, or with the transcript if there is one |
| Chat.ChatInput.SyncTranscript | components/ChatInterface.tsx:20-24 | only a changed, non-empty transcript replaces the typed text; otherwise the box is kept |
| Chat.ChatInput.OnInputChange | components/ChatInterface.tsx:75 | the box holds the typed value |
| Chat.ChatInput.SendDisabled | components/ChatInterface.tsx:87 | send is disabled exactly when the box is blank or the tutor is typing |
| Chat.ChatInput.InputDisabled | components/ChatInterface.tsx:78 | the box is disabled exactly while the tutor is typing or the microphone listens; when the tutor is not typing, a disabled box means the hook's current recognizer is running |
| Chat.ChatInput.HandleSubmit | components/ChatInterface.tsx:30-36 | nothing is sent exactly when the box is blank, and the box is then kept; otherwise the untrimmed text is sent and the box is cleared |
| Chat.ChatInput.HandleVoiceClick | components/ChatInterface.tsx:38-44 | at most the current recognizer is live afterwards, and recognizers other than the old current one keep their state. While listening the hook stops: the old recognizer is stopping and is forgotten, and the transcript and error are kept. Without support it only reports so. Otherwise the old recognizer is aborted (unless it had ended) and the transcript is cleared; on a start exactly one new recognizer runs, non-continuous, with interim results and the language, and the error is cleared; when the platform throws, the init failure is reported and no recognizer is current |
| Chat.Submit | components/ChatInterface.tsx:30-36 | with send enabled, the typed text reaches the conversation as the user's message, and the request carries the whole conversation |

## Left out

- The Gemini SDK, the network and the JSON codec are not modelled. The SDK is a function from the prepared chat to its outcome. A body that fails to parse is `Malformed`, carrying the error's message. The response body is a datatype, not serialised JSON.
- A request's `topic` is a string, `null` or absent (`GeminiApi.TopicField`). Other JSON values, which the prompt would render through their own string conversion, are not modelled.
- Strings are sequences of Unicode scalar values, while JavaScript strings are UTF-16 code units. `trim`, `split`, `indexOf` and `startsWith` agree on well-formed text; lone surrogates cannot be represented.
- `process.env.API_KEY` is reduced to whether it is set and truthy. The key itself never affects the outcome.
- The persona prompt texts (api/gemini.ts:40-95) are the `Instruction` datatype: a persona template applied to the base intro's language name and level. The prose itself is not reproduced.
- GeminiApi.Handle: the SDK's `result.text` is taken to be a string. An undefined text, which would make `split` throw, is not modelled.
- Message ids are `Date.now()` rendered as a string. The model keeps the clock reading as a number, passed in as `now`.
- Floating point is not modelled. The speaking rate is a `real` passed through unchanged. The slider's `parseFloat` (components/SettingsPanel.tsx:108) is not modelled.
- React scheduling is not modelled. Each handler's state updates and the effects they trigger are applied as one step. Completions are separate methods that the environment may call at any time.
- Conversation.App.CompleteTopic: speaking uses the synthesis hook's current `supported`/`speaking` flags, not those captured by the handler's closure.
- Conversation.App.CompleteSend: the same closure simplification as CompleteTopic.
- `services/geminiService.ts` is not part of this model. The app's side of a call ends at the `Call` it issues and resumes at the outcome it receives.
- The app's and chat panel's markup are not modelled: the sidebar toggle, the scrolling effect, the microphone button's visibility and classes, the logo and theme switcher.
- The initial conversation partner is a constructor parameter, because `CONVERSATION_PARTNERS` is not defined in constants.ts. The language's `flag` field (types.ts:17) is not modelled, because constants.ts does not set it.
- The topic buttons and the partner select are not part of components/SettingsPanel.tsx as given, though App.tsx passes props for them. `Conversation.App.TopicSelect` and `Conversation.App.ChangePartner` model the handlers those props carry.
- SpeechRecognition.RecognitionHook.OnResult: results are assumed to carry at least one alternative each, as the platform guarantees.
- The recognizer's `start()` on an already-started object and late events from aborted recognizers are not distinguished. Any `onresult`/`onerror` may arrive and is handled as the source handles it.
- The synthesis model assumes the hook is the only user of the browser's speech service; the at-most-one-utterance invariant depends on it.

## Findings

| source | as written | input that shows it | evidently intended | confidence | as-written member | corrected member |
|---|---|---|---|---|---|---|
| App.tsx:28-35 | the voice effect lists `languageVoices` as a dependency, but that array is rebuilt by `filter` on every render, so the effect runs after every render and resets the voice to the preferred one | voices Samantha (en-US, default) and Alex (en-US); the learner selects Alex; the next render selects Samantha again | reselect the preferred voice only when the language or the voice list changes, and otherwise keep the learner's choice | high; not executed | Conversation.ChosenVoiceDiscardedExample | Conversation.App.ChangeVoice |
