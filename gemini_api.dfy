/** The edge handler behind `POST /api/gemini` (api/gemini.ts): the method
    check, the choice of system instruction per conversation partner, the
    conversion of the chat history into the SDK's turns, the choice of the
    message to send, and the split of the model's output into a reply and
    optional feedback. The SDK is a parameter: a function from the chat request
    the handler builds to what `chat.sendMessage` yields. */
module GeminiApi {
  import opened Types
  import opened JsString

  /** The marker the system instruction asks the model to put between its
      reply and its feedback. */
  const Separator: string := "---"
  const FallbackReply: string := "I'm sorry, I didn't understand that."
  const ModelName: string := "gemini-2.5-flash"

  /** One turn of SDK chat history: a role ("user" or "model") and its text parts. */
  datatype Turn = Turn(role: string, parts: seq<string>)

  /** What the handler hands to the SDK: `ai.chats.create` plus `chat.sendMessage`. */
  datatype ChatRequest = ChatRequest(model: string, history: seq<Turn>, systemInstruction: Instruction, message: string)

  /** The `topic` field of a request body: a string, `null`, or absent. */
  datatype TopicField = Given(text: string) | Null | Missing

  /** The JSON body of a request; `history` may be missing or null (both are
      `None`, which the handler treats alike). */
  datatype Body = Body(history: Option<seq<Message>>, language: Language, difficulty: string,
                       partner: string, topic: TopicField)

  /** `req.json()` either yields a body or throws (its message is kept). */
  datatype Parsed = Malformed(message: string) | Parsed(body: Body)

  /** A value thrown inside the handler: an `Error` with a message, or anything else. */
  datatype Thrown = ErrorObject(message: string) | OtherValue

  /** What `chat.sendMessage` does: resolve with the model's text, or throw. */
  datatype SdkOutcome = Replied(text: string) | Threw(thrown: Thrown)

  datatype Payload = ErrorPayload(error: string, details: Option<string>)
                   | ReplyPayload(reply: string, feedback: Option<string>)

  datatype Response = Response(status: nat, payload: Payload)

  /** The opening paragraph every persona template shares. */
  datatype Intro = BaseIntro(languageName: string, difficulty: string)

  /** A system instruction: one template per persona, opening with the base
      intro, or the one-line fallback. The templates' prose is not modelled. */
  datatype Instruction = PersonaTemplate(persona: ConversationPartner, intro: Intro) | Fallback

  /** The post-processed model output. */
  datatype Reply = Reply(reply: string, feedback: Option<string>)

  // ---------------------------------------------------------------------------
  // System instruction

  /** The three partners' string values are pairwise different. */
  lemma PartnerValuesDistinct(p: ConversationPartner, q: ConversationPartner)
    requires p != q
    ensures p.Value() != q.Value()
  {
    assert p.Value()[0] != q.Value()[0] || p.Value()[1] != q.Value()[1];
  }

  /** The partner a string value denotes, if any. */
  function PartnerOf(value: string): (r: Option<ConversationPartner>)
    ensures r.Some? ==> r.value.Value() == value
    ensures r.None? <==> forall p: ConversationPartner :: p.Value() != value
  {
    if value == Teacher.Value() then Some(Teacher)
    else if value == Friend.Value() then Some(Friend)
    else if value == Colleague.Value() then Some(Colleague)
    else None
  }

  /** `getSystemInstruction`: the partner's string value picks that persona's
      template, which opens with the base intro naming the language and the
      level; any other value gets the one-line fallback. */
  function SystemInstruction(language: Language, difficulty: string, partner: string): (ins: Instruction)
    ensures forall p: ConversationPartner :: partner == p.Value() ==>
      ins == PersonaTemplate(p, BaseIntro(language.name, difficulty))
    ensures (forall p: ConversationPartner :: partner != p.Value()) <==> ins == Fallback
  {
    forall p: ConversationPartner, q: ConversationPartner | p != q ensures p.Value() != q.Value() {
      PartnerValuesDistinct(p, q);
    }
    match PartnerOf(partner)
    case Some(p) => PersonaTemplate(p, BaseIntro(language.name, difficulty))
    case None => Fallback
  }

  // ---------------------------------------------------------------------------
  // Chat history and outgoing message

  /** A conversation is new when the history is missing, null or empty. */
  predicate IsNewConversation(history: Option<seq<Message>>) {
    history.None? || |history.value| == 0
  }

  /** The SDK role for a sender. */
  function Role(sender: Sender): string {
    if sender == User then "user" else "model"
  }

  /** `msgs.map(msg => ({ role, parts: [{ text }] }))`: one turn per message, in
      order, carrying that message's role and text. */
  function ToTurns(msgs: seq<Message>): (turns: seq<Turn>)
    ensures |turns| == |msgs|
    ensures forall i :: 0 <= i < |msgs| ==> turns[i] == Turn(Role(msgs[i].sender), [msgs[i].text])
  {
    if msgs == [] then [] else [Turn(Role(msgs[0].sender), [msgs[0].text])] + ToTurns(msgs[1..])
  }

  /** Mapping messages to turns distributes over concatenation. */
  lemma ToTurnsAppend(a: seq<Message>, b: seq<Message>)
    ensures ToTurns(a + b) == ToTurns(a) + ToTurns(b)
  {
    var l, r := ToTurns(a + b), ToTurns(a) + ToTurns(b);
    forall i | 0 <= i < |l| ensures l[i] == r[i] {
      assert (a + b)[i] == if i < |a| then a[i] else b[i - |a|];
    }
  }

  /** `historyForSDK`: empty for a new conversation; otherwise every message but
      the last, in order, each with its text and the role "user" exactly for
      the user's messages. */
  function HistoryForSdk(history: Option<seq<Message>>): (turns: seq<Turn>)
    ensures IsNewConversation(history) ==> turns == []
    ensures !IsNewConversation(history) ==>
      |turns| == |history.value| - 1 &&
      forall i :: 0 <= i < |turns| ==>
        turns[i].parts == [history.value[i].text] &&
        (turns[i].role == "user" <==> history.value[i].sender == User) &&
        (turns[i].role == "model" <==> history.value[i].sender != User)
  {
    if IsNewConversation(history) then [] else ToTurns(history.value[..|history.value| - 1])
  }

  /** How a template literal renders the topic: a null topic prints as "null"
      and a missing one (`undefined`) as "undefined". */
  function TopicText(topic: TopicField): string {
    match topic
    case Given(t) => t
    case Null => "null"
    case Missing => "undefined"
  }

  /** The message that opens a new conversation on a topic. */
  function IntroPrompt(topic: TopicField): string {
    "You are starting the conversation. The chosen topic is \"" + TopicText(topic)
    + "\". Introduce yourself by your persona's name and ask a friendly, open-ended question to begin the conversation about this topic."
  }

  /** `lastMessageText`. */
  function LastMessageText(history: Option<seq<Message>>, topic: TopicField): string {
    if IsNewConversation(history) then IntroPrompt(topic) else history.value[|history.value| - 1].text
  }

  /** The chat the handler opens for a request body. */
  function Prepare(body: Body): (req: ChatRequest)
    ensures req.model == ModelName
    ensures req.systemInstruction == SystemInstruction(body.language, body.difficulty, body.partner)
    ensures IsNewConversation(body.history) ==> req.history == [] && req.message == IntroPrompt(body.topic)
    ensures !IsNewConversation(body.history) ==>
      |req.history| == |body.history.value| - 1 &&
      req.message == body.history.value[|body.history.value| - 1].text
  {
    ChatRequest(ModelName, HistoryForSdk(body.history),
                SystemInstruction(body.language, body.difficulty, body.partner),
                LastMessageText(body.history, body.topic))
  }

  /** For a conversation under way, the SDK history followed by the outgoing
      message, as a turn with the last message's role, is the whole
      conversation: no message is lost, duplicated or reordered. The SDK sends
      the outgoing message as the user's turn, so when the conversation ends
      with the learner's message (as the app's always does) the chat the model
      sees is exactly the conversation. */
  lemma PrepareKeepsConversation(body: Body)
    requires !IsNewConversation(body.history)
    ensures var h := body.history.value; var req := Prepare(body);
      req.history + [Turn(Role(h[|h| - 1].sender), [req.message])] == ToTurns(h)
    ensures var h := body.history.value; var req := Prepare(body);
      h[|h| - 1].sender == User ==> req.history + [Turn("user", [req.message])] == ToTurns(h)
  {
    var h := body.history.value;
    var init, last := h[..|h| - 1], h[|h| - 1];
    assert Prepare(body).history == ToTurns(init);
    assert Prepare(body).message == last.text;
    assert ToTurns([last]) == [Turn(Role(last.sender), [last.text])];
    assert h == init + [last];
    ToTurnsAppend(init, [last]);
  }

  // ---------------------------------------------------------------------------
  // Reply post-processing

  /** A trimmed reply, or the fallback when trimming left nothing. */
  function ReplyOrFallback(trimmed: string): string {
    if trimmed == "" then FallbackReply else trimmed
  }

  /** `parts`, `reply` and `feedback`: for a new conversation the whole output is
      the reply and there is no feedback. Otherwise the reply is the text
      before the first "---" and the feedback the text between the first and
      the second (or the end), both trimmed; anything after a second "---" is
      dropped, and there is no feedback when the output has no "---". An
      empty reply becomes the fallback. */
  function ExtractReply(fullText: string, isNew: bool): (r: Reply)
    ensures r.reply != ""
    ensures isNew ==> r == Reply(ReplyOrFallback(Trim(fullText)), None)
    ensures !isNew && IndexOf(fullText, Separator).NotFound? ==>
      r == Reply(ReplyOrFallback(Trim(fullText)), None)
    ensures !isNew && IndexOf(fullText, Separator).FoundAt? ==>
      var i := IndexOf(fullText, Separator).index;
      var j := i + |Separator|;
      r.reply == ReplyOrFallback(Trim(fullText[..i])) &&
      r.feedback == Some(Trim(match IndexOfFrom(fullText, Separator, j)
                              case NotFound => fullText[j..]
                              case FoundAt(k) => fullText[j..k]))
  {
    SplitHead(fullText, Separator);
    var parts := if isNew then [fullText] else Split(fullText, Separator);
    var head := Trim(parts[0]);
    Reply(if head == "" then FallbackReply else head,
          if isNew || |parts| < 2 then None else Some(Trim(parts[1])))
  }

  /** A piece of a string free of `sep` is free of `sep`. */
  lemma FreeSlice(s: string, sep: string, lo: nat, hi: nat)
    requires lo <= hi <= |s| && Free(s, sep)
    ensures Free(s[lo..hi], sep)
  {
    forall j | 0 <= j <= hi - lo ensures !OccursAt(s[lo..hi], sep, j) {
      if OccursAt(s[lo..hi], sep, j) {
        OccursInPiece(s, sep, lo, hi, j);
      }
    }
  }

  /** An occurrence of the separator puts a '-' into the text. */
  lemma DashAt(s: string, j: int)
    requires OccursAt(s, Separator, j)
    ensures 0 <= j < |s| && s[j] == '-'
  {
    assert s[j..j + |Separator|][0] == s[j];
  }

  /** The fallback reply has no '-', so no separator. */
  lemma FallbackReplyFree()
    ensures Free(FallbackReply, Separator)
  {
    forall j | 0 <= j <= |FallbackReply| ensures !OccursAt(FallbackReply, Separator, j) {
      if OccursAt(FallbackReply, Separator, j) {
        DashAt(FallbackReply, j);
        assert false;
      }
    }
  }

  /** Trimming a string free of `sep` leaves it free of `sep`. */
  lemma TrimFree(s: string, sep: string)
    requires Free(s, sep)
    ensures Free(Trim(s), sep)
  {
    var k := KeepFrom(s, 0);
    FreeSlice(s, sep, k, k + |Trim(s)|);
  }

  /** Once the conversation is under way, neither the reply nor the feedback
      contains the separator. */
  lemma ExtractedHasNoSeparator(fullText: string)
    ensures var r := ExtractReply(fullText, false);
      Free(r.reply, Separator) && (r.feedback.Some? ==> Free(r.feedback.value, Separator))
  {
    var parts := Split(fullText, Separator);
    SplitPiecesFree(fullText, Separator);
    TrimFree(parts[0], Separator);
    FallbackReplyFree();
    if |parts| >= 2 {
      TrimFree(parts[1], Separator);
    }
  }

  // ---------------------------------------------------------------------------
  // The handler

  /** `details` of a 500 response: an `Error`'s message, else a fixed text. */
  function Details(t: Thrown): string {
    match t
    case ErrorObject(m) => m
    case OtherValue => "An unknown error occurred"
  }

  function Failed(details: string): Response {
    Response(500, ErrorPayload("Failed to get response from AI.", Some(details)))
  }

  /** `handler`. Anything but POST is refused with 405 before anything else is
      looked at; a body that does not parse, a missing API key and an SDK
      failure give 500; otherwise 200 with the extracted reply, and with no
      feedback for a new conversation. */
  function Handle(httpMethod: string, apiKeySet: bool, request: Parsed, sdk: ChatRequest -> SdkOutcome): (resp: Response)
    ensures httpMethod != "POST" ==> resp == Response(405, ErrorPayload("Method not allowed", None))
    ensures resp.status == 405 <==> httpMethod != "POST"
    ensures resp.status == 200 <==>
      httpMethod == "POST" && request.Parsed? && apiKeySet && sdk(Prepare(request.body)).Replied?
    ensures resp.status == 200 ==>
      var isNew := IsNewConversation(request.body.history);
      var r := ExtractReply(sdk(Prepare(request.body)).text, isNew);
      resp.payload == ReplyPayload(r.reply, r.feedback) && (isNew ==> r.feedback == None)
    ensures resp.status != 405 && resp.status != 200 ==> resp.status == 500
    ensures httpMethod == "POST" && request.Malformed? ==> resp == Failed(request.message)
    ensures httpMethod == "POST" && request.Parsed? && !apiKeySet ==>
      resp == Response(500, ErrorPayload("API_KEY environment variable not set.", None))
    ensures httpMethod == "POST" && request.Parsed? && apiKeySet && sdk(Prepare(request.body)).Threw? ==>
      resp == Failed(Details(sdk(Prepare(request.body)).thrown))
  {
    if httpMethod != "POST" then Response(405, ErrorPayload("Method not allowed", None))
    else
      match request
      case Malformed(m) => Failed(m)
      case Parsed(body) =>
        if !apiKeySet then Response(500, ErrorPayload("API_KEY environment variable not set.", None))
        else
          match sdk(Prepare(body))
          case Threw(t) => Failed(Details(t))
          case Replied(text) =>
            var r := ExtractReply(text, IsNewConversation(body.history));
            Response(200, ReplyPayload(r.reply, if IsNewConversation(body.history) then None else r.feedback))
  }
}
