/**
 * The floating health-assistant chat: the keyword demo responder used when no API key
 * is configured, the reply chosen for each outcome of the model call, and the chat
 * window's transcript, input box and send latch.
 */
module ChatBot {
  import opened Wrappers
  import opened Text

  const Greeting := "Hello! I am IASO AI, your personal health assistant. How can I help you today?"

  const BloodReply :=
    "I can help you understand blood test results! In a real scenario, I would analyze your specific values and explain what they mean. "
    + "Common blood tests include CBC (Complete Blood Count), cholesterol panels, and glucose levels. "
    + "For personalized insights, please add OpenAI credits to enable AI analysis or consult with a doctor."
  const ReportReply :=
    "I can analyze medical reports and provide patient-friendly explanations. Upload your report through the 'Upload Report' section, "
    + "and once OpenAI credits are added, I'll provide detailed AI-powered insights. For now, you can view your uploaded reports in the Reports section."
  const AppointmentReply :=
    "You can book appointments with doctors through our platform! Go to the 'Find Doctors' section to search for specialists based on your needs. "
    + "I'd provide personalized doctor recommendations with full AI capabilities enabled."
  const HelpReply :=
    "I'm IASO AI, your medical assistant! I can help you:\n\U{2022} Understand medical reports\n\U{2022} Explain blood test results\n"
    + "\U{2022} Find the right doctors\n\U{2022} Book appointments\n\U{2022} Answer health questions\n\n"
    + "Note: Full AI analysis requires OpenAI credits. Please add credits at platform.openai.com or ask your questions and I'll provide helpful guidance!"
  const DefaultReply :=
    "Thank you for your question! I'm currently in demo mode as the OpenAI API quota has been exceeded. "
    + "To enable full AI-powered responses, please add credits to your OpenAI account. "
    + "In the meantime, I can still help you navigate the IASO Med platform, upload reports, and book appointments with doctors. How else can I assist you?"

  const GenericError := "I'm sorry, I encountered an error. Please try again later."
  const KeyWarning := "\U{26A0}\U{FE0F} API key issue detected. Please check your Gemini API configuration."
  const MissingErrorMessage := "Gemini API error"
  const InvalidResponse := "Invalid response from AI"

  const ChatPreamble :=
    "You are IASO AI, a helpful and professional medical assistant for the IASO Med platform. "
    + "You help patients understand their medical reports and symptoms. "
    + "Always include a disclaimer that you are an AI and not a replacement for professional medical advice."

  // ---------------------------------------------------------------------------
  // The demo responder
  // ---------------------------------------------------------------------------

  /** The topics `getDemoResponse` recognises, in the order its tests are tried; `Other`
      is the fall-through. */
  datatype Topic = Blood | Report | Appointment | Help | Other

  /** The keyword buckets of the first four topics, in the order they are tried. */
  const Keywords: seq<seq<string>> := [["blood", "test", "lab"], ["report", "analysis"], ["appointment", "doctor"], ["help", "how"]]
  const Topics: seq<Topic> := [Blood, Report, Appointment, Help, Other]

  /** The chain of substring tests of `getDemoResponse`, on the lowercased input. */
  function DemoTopic(input: string): Topic {
    if Contains(input, "blood") || Contains(input, "test") || Contains(input, "lab") then Blood
    else if Contains(input, "report") || Contains(input, "analysis") then Report
    else if Contains(input, "appointment") || Contains(input, "doctor") then Appointment
    else if Contains(input, "help") || Contains(input, "how") then Help
    else Other
  }

  /** The fixed reply of each topic. */
  function ReplyFor(t: Topic): string {
    match t
    case Blood => BloodReply
    case Report => ReportReply
    case Appointment => AppointmentReply
    case Help => HelpReply
    case Other => DefaultReply
  }

  /** `getDemoResponse`. */
  function DemoResponse(userInput: string): string {
    ReplyFor(DemoTopic(ToLower(userInput)))
  }

  /** Some keyword of bucket `k` occurs in `t`. */
  predicate Hits(t: string, k: nat)
    requires k < |Keywords|
  {
    exists i :: 0 <= i < |Keywords[k]| && Contains(t, Keywords[k][i])
  }

  /** The first bucket, from `k` on, that `t` hits; `|Keywords|` when there is none. */
  function FirstHit(t: string, k: nat): (r: nat)
    requires k <= |Keywords|
    ensures k <= r <= |Keywords|
    ensures r < |Keywords| ==> Hits(t, r)
    ensures forall j :: k <= j < r ==> !Hits(t, j)
    decreases |Keywords| - k
  {
    if k == |Keywords| then k
    else if Hits(t, k) then k
    else FirstHit(t, k + 1)
  }

  lemma HitsTwo(t: string, k: nat, a: string, b: string)
    requires k < |Keywords| && Keywords[k] == [a, b]
    ensures Hits(t, k) <==> Contains(t, a) || Contains(t, b)
  {
    if Contains(t, a) {
      assert Contains(t, Keywords[k][0]);
    }
    if Contains(t, b) {
      assert Contains(t, Keywords[k][1]);
    }
  }

  /** The buckets are tried in their fixed order and the first one hit decides the topic;
      no hit at all gives the default reply. */
  lemma DemoTopicIsFirstHit(userInput: string)
    ensures DemoTopic(ToLower(userInput)) == Topics[FirstHit(ToLower(userInput), 0)]
    ensures DemoResponse(userInput) == ReplyFor(Topics[FirstHit(ToLower(userInput), 0)])
  {
    var t := ToLower(userInput);
    assert Hits(t, 0) <==> Contains(t, "blood") || Contains(t, "test") || Contains(t, "lab") by {
      if Contains(t, "blood") {
        assert Contains(t, Keywords[0][0]);
      }
      if Contains(t, "test") {
        assert Contains(t, Keywords[0][1]);
      }
      if Contains(t, "lab") {
        assert Contains(t, Keywords[0][2]);
      }
    }
    HitsTwo(t, 1, "report", "analysis");
    HitsTwo(t, 2, "appointment", "doctor");
    HitsTwo(t, 3, "help", "how");
  }

  /** The reply depends only on the lowercased input, so letter case never changes it. */
  lemma DemoResponseIgnoresCase(a: string, b: string)
    requires ToLower(a) == ToLower(b)
    ensures DemoResponse(a) == DemoResponse(b)
  {
  }

  lemma DemoResponseOfLowercased(userInput: string)
    ensures DemoResponse(ToLower(userInput)) == DemoResponse(userInput)
  {
    ToLowerIdempotent(userInput);
  }

  /** Keywords are matched as substrings, not whole words: "latest" holds "test". */
  lemma LatestHitsBlood()
    ensures DemoTopic(ToLower("Is my LATEST result fine?")) == Blood
  {
    var t := ToLower("Is my LATEST result fine?");
    assert t[8..12] == "test";
    assert OccursAt(t, "test", 8);
  }

  // ---------------------------------------------------------------------------
  // The reply to a send when an API key is configured
  // ---------------------------------------------------------------------------

  /** What the model call produced: a parsed body with the first candidate's text and the
      `error` object's message (if the body has an `error` object), or a thrown error. */
  datatype ChatReply = ChatBody(text: Option<string>, error: Option<Option<string>>) | ChatThrown(message: Option<string>)

  /** The text shown for a caught error: a warning when its message mentions the API key. */
  function ErrorReply(message: Option<string>): (r: string)
    ensures r == KeyWarning <==> message.Some? && Contains(message.value, "API key")
    ensures r == GenericError <==> !(message.Some? && Contains(message.value, "API key"))
  {
    if message.Some? && Contains(message.value, "API key") then KeyWarning else GenericError
  }

  /** The assistant message appended once the model call settles. */
  function AssistantContent(reply: ChatReply): (r: string)
    ensures reply.ChatBody? && Truthy(reply.text) ==> r == reply.text.value
    ensures reply.ChatBody? && !Truthy(reply.text) && reply.error.Some? ==> r == ErrorReply(Some(OrElse(reply.error.value, MissingErrorMessage)))
    ensures reply.ChatBody? && !Truthy(reply.text) && reply.error.None? ==> r == ErrorReply(Some(InvalidResponse))
    ensures reply.ChatThrown? ==> r == ErrorReply(reply.message)
  {
    match reply
    case ChatBody(text, error) =>
      if Truthy(text) then text.value
      else if error.Some? then ErrorReply(Some(OrElse(error.value, MissingErrorMessage)))
      else ErrorReply(Some(InvalidResponse))
    case ChatThrown(message) => ErrorReply(message)
  }

  /** A body with neither text nor an error message, and a body with neither text nor an
      error, both end in the generic apology: neither fallback message mentions the key. */
  lemma FallbackMessagesGiveApology(reply: ChatReply)
    requires reply.ChatBody? && !Truthy(reply.text)
    requires reply.error.Some? ==> !Truthy(reply.error.value)
    ensures AssistantContent(reply) == GenericError
  {
    forall i | 0 <= i <= |MissingErrorMessage| - |"API key"| ensures !OccursAt(MissingErrorMessage, "API key", i) {
      assert MissingErrorMessage[i + 4] != "API key"[4];
    }
    forall i | 0 <= i <= |InvalidResponse| - |"API key"| ensures !OccursAt(InvalidResponse, "API key", i) {
      assert InvalidResponse[i..i + 7][0] == InvalidResponse[i] != 'A';
    }
  }

  // ---------------------------------------------------------------------------
  // The chat window
  // ---------------------------------------------------------------------------

  datatype Role = User | Assistant

  datatype Message = Message(role: Role, content: string)

  /** The number of messages of one role. */
  function CountRole(ms: seq<Message>, role: Role): nat
  {
    if ms == [] then 0
    else CountRole(ms[..|ms| - 1], role) + (if ms[|ms| - 1].role == role then 1 else 0)
  }

  lemma CountRoleAppend(ms: seq<Message>, m: Message, role: Role)
    ensures CountRole(ms + [m], role) == CountRole(ms, role) + (if m.role == role then 1 else 0)
  {
    assert (ms + [m])[..|ms|] == ms;
  }

  /** Appending keeps the first message and adds one to the count of the appended role. */
  lemma AppendKeepsHead(ms: seq<Message>, m: Message)
    requires |ms| >= 1
    ensures |ms + [m]| >= 1 && (ms + [m])[0] == ms[0]
    ensures CountRole(ms + [m], m.role) == CountRole(ms, m.role) + 1
    ensures forall r :: r != m.role ==> CountRole(ms + [m], r) == CountRole(ms, r)
  {
    CountRoleAppend(ms, m, User);
    CountRoleAppend(ms, m, Assistant);
  }

  /** `User: …` / `Model: …` lines, one per message. */
  function History(ms: seq<Message>): string
  {
    if ms == [] then ""
    else
      var m := ms[|ms| - 1];
      var line := (if m.role == User then "User" else "Model") + ": " + m.content;
      if |ms| == 1 then line else History(ms[..|ms| - 1]) + "\n" + line
  }

  /** The prompt: the instructions, the transcript as it was rendered when send was pressed,
      and the new user message. */
  function ChatPrompt(history: seq<Message>, content: string): string
  {
    ChatPreamble + "\n\n" + History(history) + "\nUser: " + content + "\nModel:"
  }

  class ChatSession {
    /** Whether `VITE_GEMINI_API_KEY` holds a non-empty value. */
    const keyConfigured: bool
    var isOpen: bool
    var isMinimized: bool
    var input: string
    var messages: seq<Message>
    var isLoading: bool
    /** The user messages whose one-second demo-reply timers have not fired yet, oldest first. */
    var pendingDemo: seq<string>

    /** Every user message has, or will get, exactly one assistant message after it:
        the greeting, plus one per user message answered, per timer pending and per
        call in flight. */
    predicate Valid()
      reads this
    {
      |messages| >= 1 && messages[0] == Message(Assistant, Greeting)
      && CountRole(messages, User) + 1 == CountRole(messages, Assistant) + |pendingDemo| + (if isLoading then 1 else 0)
      && (keyConfigured ==> pendingDemo == [])
      && (!keyConfigured ==> !isLoading)
    }

    constructor(keyConfigured: bool)
      ensures Valid()
      ensures this.keyConfigured == keyConfigured
      ensures !isOpen && !isMinimized && input == ""
      ensures messages == [Message(Assistant, Greeting)] && !isLoading && pendingDemo == []
    {
      this.keyConfigured := keyConfigured;
      isOpen := false;
      isMinimized := false;
      input := "";
      messages := [Message(Assistant, Greeting)];
      isLoading := false;
      pendingDemo := [];
      assert [Message(Assistant, Greeting)][..0] == [];
    }

    /** The text field's `onChange`. */
    method Type(text: string)
      requires Valid()
      modifies this
      ensures Valid()
      ensures input == text
      ensures messages == old(messages) && isLoading == old(isLoading) && pendingDemo == old(pendingDemo)
      ensures isOpen == old(isOpen) && isMinimized == old(isMinimized)
    {
      input := text;
    }

    /** The `open-iaso-chat` window event: opens the window and prefills a non-empty message. */
    method OpenChat(message: Option<string>)
      requires Valid()
      modifies this
      ensures Valid()
      ensures isOpen && !isMinimized
      ensures input == OrElse(message, old(input))
      ensures messages == old(messages) && isLoading == old(isLoading) && pendingDemo == old(pendingDemo)
    {
      isOpen := true;
      isMinimized := false;
      if Truthy(message) {
        input := message.value;
      }
    }

    /** `handleSend` up to its first `await`: a blank input or a pending call ignores the
        press; otherwise the trimmed input is appended as a user message and the input is
        cleared. Without a key a demo timer is started and the early `return` runs the
        `finally` block, releasing the latch at once; with a key the prompt is sent and the
        latch holds until the reply arrives. */
    method Send() returns (accepted: bool, prompt: Option<string>)
      requires Valid()
      modifies this
      ensures Valid()
      ensures accepted <==> Trim(old(input)) != "" && !old(isLoading)
      ensures !accepted ==> (input == old(input) && messages == old(messages) && isLoading == old(isLoading)
        && pendingDemo == old(pendingDemo) && prompt.None?)
      ensures accepted ==> messages == old(messages) + [Message(User, Trim(old(input)))] && input == ""
      ensures accepted && !keyConfigured ==> pendingDemo == old(pendingDemo) + [Trim(old(input))] && !isLoading && prompt.None?
      ensures accepted && keyConfigured ==> isLoading && prompt == Some(ChatPrompt(old(messages), Trim(old(input))))
      ensures isOpen == old(isOpen) && isMinimized == old(isMinimized)
    {
      var content := Trim(input);
      if content == "" || isLoading {
        accepted, prompt := false, None;
      } else {
        var history := messages;
        AppendKeepsHead(history, Message(User, content));
        messages := history + [Message(User, content)];
        input := "";
        accepted := true;
        if keyConfigured {
          isLoading := true;
          prompt := Some(ChatPrompt(history, content));
        } else {
          pendingDemo := pendingDemo + [content];
          prompt := None;
        }
      }
    }

    /** The oldest pending demo timer fires: its reply is appended and the latch cleared. */
    method DemoTimerFires()
      requires Valid() && pendingDemo != []
      modifies this
      ensures Valid()
      ensures messages == old(messages) + [Message(Assistant, DemoResponse(old(pendingDemo)[0]))]
      ensures pendingDemo == old(pendingDemo)[1..] && !isLoading
      ensures input == old(input) && isOpen == old(isOpen) && isMinimized == old(isMinimized)
    {
      var reply := Message(Assistant, DemoResponse(pendingDemo[0]));
      CountRoleAppend(messages, reply, User);
      CountRoleAppend(messages, reply, Assistant);
      assert (messages + [reply])[0] == messages[0];
      messages := messages + [reply];
      pendingDemo := pendingDemo[1..];
      isLoading := false;
    }

    /** The model call settles: the text or the error reply is appended and `finally`
        clears the latch. */
    method ReplyArrives(reply: ChatReply)
      requires Valid() && isLoading
      modifies this
      ensures Valid()
      ensures messages == old(messages) + [Message(Assistant, AssistantContent(reply))]
      ensures !isLoading && pendingDemo == old(pendingDemo)
      ensures input == old(input) && isOpen == old(isOpen) && isMinimized == old(isMinimized)
    {
      var m := Message(Assistant, AssistantContent(reply));
      CountRoleAppend(messages, m, User);
      CountRoleAppend(messages, m, Assistant);
      assert (messages + [m])[0] == messages[0];
      messages := messages + [m];
      isLoading := false;
    }

    /** Once every timer has fired and no call is in flight, each user message has been
        answered exactly once. */
    lemma Settled()
      requires Valid() && pendingDemo == [] && !isLoading
      ensures CountRole(messages, Assistant) == CountRole(messages, User) + 1
    {
    }
  }
}
