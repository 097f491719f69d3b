/**
 * The tutor chat widget: the message list, the input buffer, the session
 * message counter, the canned-response lookup and the two voice flags
 * (listening for speech input, speaking a reply).
 *
 * Each handler is one atomic state transition. Clock readings and the random
 * response index are parameters; the browser's speech recognition and speech
 * synthesis objects are reduced to whether they exist and to the flags and
 * calls they drive.
 */
module TutorChat {
  import opened Wrappers

  datatype Author = User | Tutor

  /** The tutor's modes, selected by the quick-action buttons. */
  datatype Mode = Explain | Quiz | Practice | Help {
    /** The mode's key in the response table. */
    function Name(): string
    {
      match this
      case Explain => "explain"
      case Quiz => "quiz"
      case Practice => "practice"
      case Help => "help"
    }
  }

  /**
   * A chat message. `id` is the millisecond clock reading whose decimal
   * spelling the widget uses as the id; only tutor messages carry a mode.
   */
  datatype Message = Message(id: nat, author: Author, content: string, mode: Option<Mode>)

  const GreetingText: string :=
    "Hello! I'm your AI tutor. I've analyzed your uploaded notes and I'm here to help you learn more effectively. What would you like to study today?"

  /** The one message the chat starts with. */
  const Greeting: Message := Message(1, Tutor, GreetingText, Some(Help))

  // ---------------------------------------------------------------------
  // Canned responses
  // ---------------------------------------------------------------------

  /** The canned replies of the response table, three per mode. */
  function ReplyText(mode: Mode, k: nat): string
    requires k < 3
  {
    match mode
    case Explain =>
      if k == 0 then
        "Let me break this down for you step by step. Based on your notes, I can see you're working on this concept. Here's a clear explanation that I'll also speak aloud for better understanding..."
      else if k == 1 then
        "Great question! From what I've learned about your study materials, this topic connects to several concepts you've already covered. Listen as I explain the connections..."
      else
        "I notice from your uploaded notes that you might find this easier if we approach it from a different angle. Let me explain this concept in a way that's easy to follow..."
    case Quiz =>
      if k == 0 then
        "Perfect! Let me test your understanding with a question based on your notes. You can answer by speaking or typing: What is the main principle behind this concept?"
      else if k == 1 then
        "Time for a quick quiz! Based on the material you've uploaded, can you explain how these two concepts relate? Feel free to use voice input for your answer."
      else
        "Let's see how well you've grasped this. Here's a question from your study materials. You can respond using voice or text..."
    case Practice =>
      if k == 0 then
        "Excellent! Let's practice this together. I'll guide you through a problem similar to what you have in your notes. Listen carefully to my instructions."
      else if k == 1 then
        "Practice makes perfect! Based on your uploaded materials, let's work through this step by step. I'll speak through each step clearly."
      else
        "Let's apply what you've learned. I'll create a practice scenario using concepts from your notes and guide you through it verbally..."
    case Help =>
      if k == 0 then
        "I'm here to help! Based on your study history and notes, I can assist you with explanations, practice problems, or quick quizzes. You can ask me questions using voice or text."
      else if k == 1 then
        "How can I support your learning today? I have access to your uploaded notes and can adapt to your preferred learning style. Try using voice commands for a more interactive experience."
      else
        "I'm ready to help you master this material. What specific area would you like to focus on? You can speak your questions naturally."
  }

  /** One mode's entry in the response table. */
  function Pool(mode: Mode): (pool: seq<string>)
    ensures |pool| == 3
  {
    seq(3, k requires 0 <= k < 3 => ReplyText(mode, k))
  }

  /**
   * The table entry a mode name selects: the mode of that name, or help for a
   * name the table lacks (`responses[mode] || responses.help`).
   */
  function TableEntry(name: string): (m: Mode)
    ensures name in {"explain", "quiz", "practice", "help"} ==> m.Name() == name
    ensures name !in {"explain", "quiz", "practice", "help"} ==> m == Help
  {
    match name
    case "explain" => Explain
    case "quiz" => Quiz
    case "practice" => Practice
    case _ => Help
  }

  /** Every mode's own name selects that mode. */
  lemma TableEntryOfName(m: Mode)
    ensures TableEntry(m.Name()) == m
  {
  }

  /**
   * The reply `generateTutorResponse` returns when the random draw
   * `floor(random() * 3)` comes out as `pick`.
   */
  function TutorReply(mode: string, pick: nat): (reply: string)
    requires pick < 3
    ensures reply in Pool(TableEntry(mode))
  {
    Pool(TableEntry(mode))[pick]
  }

  /** Every reply in a pool is drawn by some index, so the draw can reach all of them. */
  lemma EveryReplyReachable(mode: string, reply: string)
    requires reply in Pool(TableEntry(mode))
    ensures exists pick: nat :: pick < 3 && TutorReply(mode, pick) == reply
  {
    var pool := Pool(TableEntry(mode));
    var i :| 0 <= i < |pool| && pool[i] == reply;
    assert TutorReply(mode, i) == reply;
  }

  // ---------------------------------------------------------------------
  // Blank input
  // ---------------------------------------------------------------------

  /** The characters `String.prototype.trim` removes: white space and line terminators. */
  predicate IsJsWhitespace(c: char)
  {
    || c in {'\t', '\n', '\U{000B}', '\U{000C}', '\r', ' ', '\U{00A0}', '\U{1680}',
             '\U{2028}', '\U{2029}', '\U{202F}', '\U{205F}', '\U{3000}', '\U{FEFF}'}
    || ('\U{2000}' <= c <= '\U{200A}')
  }

  /** `s` without its leading white space. */
  function TrimStart(s: string): string
  {
    if s != [] && IsJsWhitespace(s[0]) then TrimStart(s[1..]) else s
  }

  /** `s` without its trailing white space. */
  function TrimEnd(s: string): string
  {
    if s != [] && IsJsWhitespace(s[|s| - 1]) then TrimEnd(s[..|s| - 1]) else s
  }

  /**
   * `String.prototype.trim`: no longer than the input, and a non-empty result
   * neither starts nor ends with white space.
   */
  function Trim(s: string): (t: string)
    ensures |t| <= |s|
    ensures t != [] ==> !IsJsWhitespace(t[0]) && !IsJsWhitespace(t[|t| - 1])
  {
    var u := TrimStart(s);
    TrimStartSpec(s);
    TrimEndSpec(u);
    TrimEnd(u)
  }

  /** Trimming the front drops a white-space prefix and stops at the first other character. */
  lemma {:induction false} TrimStartSpec(s: string)
    ensures |TrimStart(s)| <= |s| && TrimStart(s) == s[|s| - |TrimStart(s)|..]
    ensures TrimStart(s) != [] ==> !IsJsWhitespace(TrimStart(s)[0])
    ensures forall i :: 0 <= i < |s| - |TrimStart(s)| ==> IsJsWhitespace(s[i])
  {
    if s != [] && IsJsWhitespace(s[0]) {
      var t := TrimStart(s[1..]);
      TrimStartSpec(s[1..]);
      assert TrimStart(s) == t;
      assert s[1..][|s| - 1 - |t|..] == s[|s| - |t|..];
      forall i | 0 <= i < |s| - |t|
        ensures IsJsWhitespace(s[i])
      {
        if i > 0 {
          assert s[i] == s[1..][i - 1];
        }
      }
    }
  }

  /** Trimming the back drops a white-space suffix and stops at the last other character. */
  lemma {:induction false} TrimEndSpec(s: string)
    ensures |TrimEnd(s)| <= |s| && TrimEnd(s) == s[..|TrimEnd(s)|]
    ensures TrimEnd(s) != [] ==> !IsJsWhitespace(TrimEnd(s)[|TrimEnd(s)| - 1])
    ensures forall i :: |TrimEnd(s)| <= i < |s| ==> IsJsWhitespace(s[i])
  {
    if s != [] && IsJsWhitespace(s[|s| - 1]) {
      var t := TrimEnd(s[..|s| - 1]);
      TrimEndSpec(s[..|s| - 1]);
      assert TrimEnd(s) == t;
      assert s[..|s| - 1][..|t|] == s[..|t|];
      forall i | |t| <= i < |s|
        ensures IsJsWhitespace(s[i])
      {
        if i < |s| - 1 {
          assert s[i] == s[..|s| - 1][i];
        }
      }
    }
  }

  /** The send guard `!input.trim()` holds exactly when every character is white space. */
  lemma BlankIffAllWhitespace(s: string)
    ensures Trim(s) == "" <==> forall i :: 0 <= i < |s| ==> IsJsWhitespace(s[i])
  {
    var t := TrimStart(s);
    TrimStartSpec(s);
    TrimEndSpec(t);
    assert forall i :: |s| - |t| <= i < |s| ==> s[i] == t[i - (|s| - |t|)];
    assert t != [] ==> !IsJsWhitespace(s[|s| - |t|]);
  }

  // ---------------------------------------------------------------------
  // The message list
  // ---------------------------------------------------------------------

  /**
   * The chat opens with the greeting, then alternates user and tutor
   * messages, and every later tutor message is one of the replies `table`
   * holds for its mode.
   */
  ghost predicate WellFormedChat(messages: seq<Message>, table: Mode -> seq<string>)
  {
    && |messages| % 2 == 1
    && messages[0].author == Tutor
    && (forall i :: 0 < i < |messages| ==>
          messages[i].author == (if i % 2 == 1 then User else Tutor))
    && (forall i :: 0 < i < |messages| && messages[i].author == Tutor ==>
          messages[i].mode.Some? && messages[i].content in table(messages[i].mode.value))
  }

  /** One exchange (a user message, then a reply from its mode's entry) keeps the chat well formed. */
  lemma ExchangeKeepsChatWellFormed(messages: seq<Message>, table: Mode -> seq<string>,
                                    question: Message, answer: Message)
    requires WellFormedChat(messages, table)
    requires question.author == User && answer.author == Tutor
    requires answer.mode.Some? && answer.content in table(answer.mode.value)
    ensures WellFormedChat(messages + [question, answer], table)
  {
    var next := messages + [question, answer];
    forall i | 0 < i < |next|
      ensures next[i].author == (if i % 2 == 1 then User else Tutor)
    {
      if i < |messages| {
        assert next[i] == messages[i];
      }
    }
  }

  // ---------------------------------------------------------------------
  // The widget
  // ---------------------------------------------------------------------

  class ChatWidget {
    var messages: seq<Message>
    var input: string
    var isListening: bool
    var isSpeaking: bool
    var voiceEnabled: bool
    var tutorMode: Mode
    /** The session's message counter. */
    var messagesCount: int
    /** The texts handed to speech synthesis, oldest first. */
    var spoken: seq<string>
    /** Whether the browser offers speech recognition / speech synthesis. */
    const hasRecognition: bool
    const hasSynthesis: bool
    /** The response table replies are drawn from; the constructor sets it to `Pool`. */
    const responses: Mode -> seq<string>

    /**
     * Every table entry holds three replies, the message list is well formed
     * and the session counter equals its length. The widget only speaks
     * through synthesis and only listens through recognition.
     */
    ghost predicate Valid()
      reads this
    {
      && (forall m :: |responses(m)| == 3)
      && messagesCount == |messages|
      && WellFormedChat(messages, responses)
      && (isSpeaking ==> hasSynthesis)
      && (isListening ==> hasRecognition)
    }

    /** The state after mounting, once the capability checks have run. */
    constructor (hasRecognition: bool, hasSynthesis: bool)
      ensures Valid()
      ensures messages == [Greeting] && messagesCount == 1 && tutorMode == Help
      ensures input == "" && !isListening && !isSpeaking && voiceEnabled && spoken == []
      ensures this.hasRecognition == hasRecognition && this.hasSynthesis == hasSynthesis
      ensures responses == Pool
    {
      messages := [Greeting];
      input := "";
      isListening := false;
      isSpeaking := false;
      voiceEnabled := true;
      tutorMode := Help;
      messagesCount := 1;
      spoken := [];
      this.hasRecognition := hasRecognition;
      this.hasSynthesis := hasSynthesis;
      responses := Pool;
    }

    /** Typing into the box, or clicking a suggested question. */
    method SetInput(text: string)
      requires Valid()
      modifies this`input
      ensures Valid()
      ensures input == text
    {
      input := text;
    }

    method SetTutorMode(mode: Mode)
      requires Valid()
      modifies this`tutorMode
      ensures Valid()
      ensures tutorMode == mode
    {
      tutorMode := mode;
    }

    /** The "Voice On" / "Voice Off" button. */
    method ToggleVoice()
      requires Valid()
      modifies this`voiceEnabled
      ensures Valid()
      ensures voiceEnabled == !old(voiceEnabled)
    {
      voiceEnabled := !voiceEnabled;
    }

    /**
     * `handleSendMessage`: blank input is ignored; otherwise the user message
     * and then one tutor reply in the current mode are appended, the input is
     * cleared, the reply is spoken when voice is on, and the counter moves by 2.
     * `sentAt` and `repliedAt` are the clock readings before and after the
     * simulated delay; `pick` is the random draw.
     */
    method SendMessage(sentAt: nat, repliedAt: nat, pick: nat)
      requires Valid() && pick < 3
      modifies this`messages, this`input, this`messagesCount, this`spoken
      ensures Valid()
      ensures Trim(old(input)) == "" ==>
        messages == old(messages) && input == old(input)
        && messagesCount == old(messagesCount) && spoken == old(spoken)
      ensures Trim(old(input)) != "" ==>
        var reply := responses(TableEntry(tutorMode.Name()))[pick];
        && messages == old(messages) + [Message(sentAt, User, old(input), None),
                                        Message(repliedAt + 1, Tutor, reply, Some(tutorMode))]
        && input == ""
        && messagesCount == old(messagesCount) + 2
        && spoken == old(spoken) + (if voiceEnabled && hasSynthesis then [reply] else [])
    {
      if Trim(input) == "" {
        return;
      }
      var before := messages;
      var question := Message(sentAt, User, input, None);
      TableEntryOfName(tutorMode);
      var reply := responses(TableEntry(tutorMode.Name()))[pick];
      var answer := Message(repliedAt + 1, Tutor, reply, Some(tutorMode));
      ExchangeKeepsChatWellFormed(before, responses, question, answer);
      messages := messages + [question];
      input := "";
      messages := messages + [answer];
      assert messages == before + [question, answer];
      // The handler's own test `voiceEnabled && speechSynthesis` is the one
      // `speakText` repeats, so the call is made unconditionally here.
      SpeakText(reply);
      messagesCount := messagesCount + 2;
    }

    /**
     * `speakText`: hands the text to speech synthesis, unless synthesis is
     * missing or voice is off. The speaking flag itself follows the
     * utterance's start, end and error events.
     */
    method SpeakText(text: string)
      modifies this`spoken
      ensures spoken == old(spoken) + (if hasSynthesis && voiceEnabled then [text] else [])
    {
      if !hasSynthesis || !voiceEnabled {
        return;
      }
      spoken := spoken + [text];
    }

    /** The utterance's start event; utterances exist only when synthesis does. */
    method OnSpeechStart()
      requires Valid() && hasSynthesis
      modifies this`isSpeaking
      ensures Valid()
      ensures isSpeaking
    {
      isSpeaking := true;
    }

    method OnSpeechEnd()
      requires Valid()
      modifies this`isSpeaking
      ensures Valid()
      ensures !isSpeaking
    {
      isSpeaking := false;
    }

    method OnSpeechError()
      requires Valid()
      modifies this`isSpeaking
      ensures Valid()
      ensures !isSpeaking
    {
      isSpeaking := false;
    }

    /** The stop button; it is only shown while speaking, which needs synthesis. */
    method StopSpeaking()
      requires Valid()
      modifies this`isSpeaking
      ensures Valid()
      ensures !isSpeaking
    {
      if hasSynthesis {
        isSpeaking := false;
      }
    }

    /**
     * `startVoiceInput`: without recognition it only raises the alert
     * (`alerted`); otherwise it toggles listening.
     */
    method StartVoiceInput() returns (alerted: bool)
      requires Valid()
      modifies this`isListening
      ensures Valid()
      ensures alerted == !hasRecognition
      ensures isListening == (if hasRecognition then !old(isListening) else old(isListening))
    {
      if !hasRecognition {
        return true;
      }
      if isListening {
        isListening := false;
      } else {
        isListening := true;
      }
      return false;
    }

    /** A recognised utterance replaces the input and ends listening. */
    method OnRecognitionResult(transcript: string)
      requires Valid()
      modifies this`input, this`isListening
      ensures Valid()
      ensures input == transcript && !isListening
    {
      input := transcript;
      isListening := false;
    }

    method OnRecognitionError()
      requires Valid()
      modifies this`isListening
      ensures Valid()
      ensures !isListening
    {
      isListening := false;
    }

    method OnRecognitionEnd()
      requires Valid()
      modifies this`isListening
      ensures Valid()
      ensures !isListening
    {
      isListening := false;
    }
  }
}
