/**
 * The assistant page: a chat log that only grows (until cleared), an
 * empty-input guard, and a canned reply chosen by the first topic whose
 * keywords appear in the question.
 */
module Assistant {
  import opened Options
  import opened Text

  // ------------------------------------------------------- classification

  /** The four topics with a canned reply. */
  datatype Topic = SpeechTopic | BehaviorTopic | SensoryTopic | MotorTopic

  /** The order in which the topics are tried. */
  const TopicOrder: seq<Topic> := [SpeechTopic, BehaviorTopic, SensoryTopic, MotorTopic]

  function Rank(t: Topic): nat {
    match t
    case SpeechTopic => 0
    case BehaviorTopic => 1
    case SensoryTopic => 2
    case MotorTopic => 3
  }

  /** The trigger words of each topic, all lower-case. */
  function Keywords(t: Topic): seq<string> {
    match t
    case SpeechTopic => ["speech", "language", "articulation"]
    case BehaviorTopic => ["behavior", "management", "conduct"]
    case SensoryTopic => ["sensory", "integration"]
    case MotorTopic => ["motor", "fine", "gross"]
  }

  /** Some keyword in `ks` occurs in `q`. */
  predicate AnyIn(q: string, ks: seq<string>) {
    |ks| > 0 && (Contains(q, ks[0]) || AnyIn(q, ks[1..]))
  }

  lemma {:induction false} AnyInIff(q: string, ks: seq<string>)
    ensures AnyIn(q, ks) <==> exists j :: 0 <= j < |ks| && Contains(q, ks[j])
  {
    if |ks| > 0 {
      AnyInIff(q, ks[1..]);
      if AnyIn(q, ks[1..]) {
        var j :| 0 <= j < |ks[1..]| && Contains(q, ks[1..][j]);
        assert Contains(q, ks[j + 1]);
      }
      if exists j :: 0 <= j < |ks| && Contains(q, ks[j]) {
        var j :| 0 <= j < |ks| && Contains(q, ks[j]);
        if j > 0 {
          assert Contains(q, ks[1..][j - 1]);
        }
      }
    }
  }

  /** Some keyword of `t` occurs in the lower-cased question. */
  predicate Mentions(question: string, t: Topic) {
    AnyIn(Lower(question), Keywords(t))
  }

  /** `Mentions` read as "one of the listed keywords is a substring". */
  lemma MentionsIff(question: string, t: Topic)
    ensures Mentions(question, t) <==> exists k :: k in Keywords(t) && Contains(Lower(question), k)
  {
    AnyInIff(Lower(question), Keywords(t));
    if exists k :: k in Keywords(t) && Contains(Lower(question), k) {
      var k :| k in Keywords(t) && Contains(Lower(question), k);
      var j :| 0 <= j < |Keywords(t)| && Keywords(t)[j] == k;
    }
  }

  /** The dispatch in the reply timer: `None` selects the fallback reply. */
  function Classify(question: string): Option<Topic> {
    var q := Lower(question);
    if Contains(q, "speech") || Contains(q, "language") || Contains(q, "articulation") then Some(SpeechTopic)
    else if Contains(q, "behavior") || Contains(q, "management") || Contains(q, "conduct") then Some(BehaviorTopic)
    else if Contains(q, "sensory") || Contains(q, "integration") then Some(SensoryTopic)
    else if Contains(q, "motor") || Contains(q, "fine") || Contains(q, "gross") then Some(MotorTopic)
    else None
  }

  /** Reference lookup: walk a topic list and take the first topic mentioned. */
  function FirstMentioned(question: string, order: seq<Topic>): Option<Topic> {
    if |order| == 0 then None
    else if Mentions(question, order[0]) then Some(order[0])
    else FirstMentioned(question, order[1..])
  }

  /** Each topic's `Mentions` spelled out keyword by keyword. */
  lemma MentionsCases(question: string)
    ensures var q := Lower(question);
      && (Mentions(question, SpeechTopic) <==> Contains(q, "speech") || Contains(q, "language") || Contains(q, "articulation"))
      && (Mentions(question, BehaviorTopic) <==> Contains(q, "behavior") || Contains(q, "management") || Contains(q, "conduct"))
      && (Mentions(question, SensoryTopic) <==> Contains(q, "sensory") || Contains(q, "integration"))
      && (Mentions(question, MotorTopic) <==> Contains(q, "motor") || Contains(q, "fine") || Contains(q, "gross"))
  {
    var q := Lower(question);
    forall t
      ensures AnyIn(q, Keywords(t)) == (Contains(q, Keywords(t)[0]) || AnyIn(q, Keywords(t)[1..]))
    {
    }
    assert AnyIn(q, ["language", "articulation"]) == (Contains(q, "language") || AnyIn(q, ["articulation"]));
    assert AnyIn(q, ["articulation"]) == (Contains(q, "articulation") || AnyIn(q, []));
    assert AnyIn(q, ["management", "conduct"]) == (Contains(q, "management") || AnyIn(q, ["conduct"]));
    assert AnyIn(q, ["conduct"]) == (Contains(q, "conduct") || AnyIn(q, []));
    assert AnyIn(q, ["integration"]) == (Contains(q, "integration") || AnyIn(q, []));
    assert AnyIn(q, ["fine", "gross"]) == (Contains(q, "fine") || AnyIn(q, ["gross"]));
    assert AnyIn(q, ["gross"]) == (Contains(q, "gross") || AnyIn(q, []));
  }

  /** The if-chain is the ordered first-match lookup over the keyword table. */
  lemma ClassifyIsFirstMentioned(question: string)
    ensures Classify(question) == FirstMentioned(question, TopicOrder)
  {
    MentionsCases(question);
    var o1 := [BehaviorTopic, SensoryTopic, MotorTopic];
    var o2 := [SensoryTopic, MotorTopic];
    var o3 := [MotorTopic];
    assert TopicOrder[1..] == o1 && o1[1..] == o2 && o2[1..] == o3 && o3[1..] == [];
    assert FirstMentioned(question, o3)
        == if Mentions(question, MotorTopic) then Some(MotorTopic) else None;
    assert FirstMentioned(question, o2)
        == if Mentions(question, SensoryTopic) then Some(SensoryTopic) else FirstMentioned(question, o3);
    assert FirstMentioned(question, o1)
        == if Mentions(question, BehaviorTopic) then Some(BehaviorTopic) else FirstMentioned(question, o2);
  }

  /** A topic is chosen exactly when it is mentioned and no earlier topic is. */
  lemma ClassifyPriority(question: string, t: Topic)
    ensures Classify(question) == Some(t)
        <==> Mentions(question, t) && forall u :: Rank(u) < Rank(t) ==> !Mentions(question, u)
  {
    MentionsCases(question);
    var earlier := forall u :: Rank(u) < Rank(t) ==> !Mentions(question, u);
    match t
    case SpeechTopic =>
    case BehaviorTopic =>
      assert earlier <==> !Mentions(question, SpeechTopic) by {
        if !Mentions(question, SpeechTopic) {
          forall u | Rank(u) < Rank(t) ensures !Mentions(question, u) { }
        }
      }
    case SensoryTopic =>
      assert earlier <==> !Mentions(question, SpeechTopic) && !Mentions(question, BehaviorTopic) by {
        if !Mentions(question, SpeechTopic) && !Mentions(question, BehaviorTopic) {
          forall u | Rank(u) < Rank(t) ensures !Mentions(question, u) { }
        }
      }
    case MotorTopic =>
      assert earlier <==> !Mentions(question, SpeechTopic) && !Mentions(question, BehaviorTopic)
                          && !Mentions(question, SensoryTopic) by {
        if !Mentions(question, SpeechTopic) && !Mentions(question, BehaviorTopic) && !Mentions(question, SensoryTopic) {
          forall u | Rank(u) < Rank(t) ensures !Mentions(question, u) { }
        }
      }
  }

  /** The fallback is chosen exactly when none of the eleven keywords occurs. */
  lemma ClassifyFallback(question: string)
    ensures Classify(question) == None <==> forall t :: !Mentions(question, t)
  {
    MentionsCases(question);
    if Classify(question) == None {
      forall t
        ensures !Mentions(question, t)
      {
      }
    } else {
      assert Mentions(question, Classify(question).value);
    }
  }

  /** Matching ignores ASCII case. */
  lemma ClassifyIgnoresCase(question: string)
    ensures Classify(Lower(question)) == Classify(question)
  {
    LowerIdempotent(question);
  }

  /** Without `u`, `b`, `m` or "speech", no speech or behavior keyword can occur. */
  lemma NoSpeechOrBehaviorKeyword(q: string)
    requires 'u' !in q && 'b' !in q && 'm' !in q && !Contains(q, "speech")
    ensures !Contains(q, "language") && !Contains(q, "articulation") && !Contains(q, "behavior")
    ensures !Contains(q, "management") && !Contains(q, "conduct")
  {
    MissingCharExcludes(q, "language", 4);
    MissingCharExcludes(q, "articulation", 5);
    MissingCharExcludes(q, "behavior", 0);
    MissingCharExcludes(q, "management", 0);
    MissingCharExcludes(q, "conduct", 4);
  }

  /** Every keyword contains `c`, `n` or `o`, so a question without them gets the fallback. */
  lemma FallbackWithoutCNO(question: string)
    requires 'c' !in Lower(question) && 'n' !in Lower(question) && 'o' !in Lower(question)
    ensures Classify(question) == None
  {
    var q := Lower(question);
    MissingCharExcludes(q, "speech", 4);
    MissingCharExcludes(q, "language", 2);
    MissingCharExcludes(q, "articulation", 4);
    MissingCharExcludes(q, "behavior", 6);
    MissingCharExcludes(q, "management", 2);
    MissingCharExcludes(q, "conduct", 0);
    MissingCharExcludes(q, "sensory", 2);
    MissingCharExcludes(q, "integration", 1);
    MissingCharExcludes(q, "motor", 1);
    MissingCharExcludes(q, "fine", 2);
    MissingCharExcludes(q, "gross", 2);
  }

  /** "Integration", capitalised and on its own, selects the sensory reply. */
  lemma CapitalisedIntegrationIsSensory(question: string)
    requires question == "Integration"
    ensures Classify(question) == Some(SensoryTopic)
  {
    var q := Lower(question);
    assert q == "integration";
    assert 'u' !in q && 'b' !in q && 'm' !in q && 's' !in q;
    MissingCharExcludes(q, "speech", 0);
    ContainsSelf(q);
    NoSpeechOrBehaviorKeyword(q);
  }

  lemma SensoryQuestionLetters(q: string)
    requires q == "how can i help with sensory integration?"
    ensures forall i :: 0 <= i < |q| ==> q[i] != 'u' && q[i] != 'b' && q[i] != 'm' && !IsUpper(q[i])
  {
  }

  lemma SensoryQuestionLacksSpeech(q: string)
    requires q == "how can i help with sensory integration?"
    ensures !Contains(q, "speech")
  {
    MissingPairExcludes(q, "speech", 0);
  }

  lemma SensoryQuestionHasSensory(q: string)
    requires q == "how can i help with sensory integration?"
    ensures Contains(q, "sensory")
  {
    OccurrenceContains(q, "sensory", 20);
  }

  /** A question about sensory integration gets the sensory reply although it contains "help" and "can". */
  lemma SensoryQuestion(question: string)
    requires question == "how can i help with sensory integration?"
    ensures Classify(question) == Some(SensoryTopic)
  {
    SensoryQuestionLetters(question);
    SensoryQuestionLacksSpeech(question);
    SensoryQuestionHasSensory(question);
    LowerOfLowercase(question);
    NoSpeechOrBehaviorKeyword(question);
  }

  lemma LowercaseTail(d: string)
    requires d == " help with sensory integration?"
    ensures Lower(d) == d
  {
    assert forall i :: 0 <= i < |d| ==> !IsUpper(d[i]);
    LowerOfLowercase(d);
  }

  lemma LowerHead(head: string, low: string)
    requires head == "How can I" && low == "how can i"
    ensures Lower(head) == low
  {
    assert |Lower(head)| == |low|;
    forall i | 0 <= i < |low|
      ensures Lower(head)[i] == low[i]
    {
    }
  }

  lemma SplitSensoryQuestion(question: string, head: string, tail: string)
    requires question == "How can I help with sensory integration?"
    requires head == "How can I" && tail == " help with sensory integration?"
    ensures question == head + tail
  {
  }

  lemma JoinSensoryQuestion(low: string, head: string, tail: string)
    requires low == "how can i help with sensory integration?"
    requires head == "how can i" && tail == " help with sensory integration?"
    ensures low == head + tail
  {
  }

  /** The same question as typed, capitalised, gets the same reply. */
  lemma CapitalisedSensoryQuestion(question: string)
    requires question == "How can I help with sensory integration?"
    ensures Classify(question) == Some(SensoryTopic)
  {
    var head, tail := "How can I", " help with sensory integration?";
    var low := "how can i help with sensory integration?";
    SplitSensoryQuestion(question, head, tail);
    JoinSensoryQuestion(low, "how can i", tail);
    LowerHead(head, "how can i");
    LowercaseTail(tail);
    LowerConcat(head, tail);
    assert Lower(question) == low;
    ClassifyIgnoresCase(question);
    SensoryQuestion(low);
  }

  /** A question with no keyword gets the fallback. */
  lemma WeatherQuestion(question: string)
    requires question == "What's the weather?"
    ensures Classify(question) == None
  {
    var q := Lower(question);
    assert q == "what's the weather?";
    assert 'c' !in q && 'n' !in q && 'o' !in q;
    FallbackWithoutCNO(question);
  }

  // ------------------------------------------------------------ replies

  const SpeechReply := "For a 5-year-old in speech therapy, I recommend these activities:\n\n1. **Sound Sorting Games**: Have the child sort pictures based on starting sounds.\n\n2. **Tongue Twisters**: Start with simple ones like \"She sells seashells.\"\n\n3. **Story Sequence Cards**: Have the child arrange cards in order and tell the story.\n\n4. **Rhyming Pairs**: Match pictures that rhyme and practice saying them.\n\n5. **Mirror Work**: Practice making specific sounds while looking in a mirror.\n\nThese activities can be adjusted based on the child's specific speech goals. Would you like more specific activities for particular speech sounds?"
  const BehaviorReply := "Effective behavior management techniques include:\n\n1. **Positive Reinforcement**: Reward good behavior immediately to strengthen it.\n\n2. **Clear Expectations**: Set and communicate consistent rules and boundaries.\n\n3. **Visual Schedules**: Use picture schedules to help with transitions and routines.\n\n4. **Token Economy**: Implement a system where tokens are earned for good behavior and exchanged for rewards.\n\n5. **Redirection**: Guide the child away from problematic behavior toward more appropriate activities.\n\n6. **First-Then Boards**: \"First complete this task, then you can do the preferred activity.\"\n\nThe key is consistency and positive approaches. Would you like more details about implementing any of these techniques?"
  const SensoryReply := "To improve sensory integration exercises, consider these approaches:\n\n1. **Sensory Bins**: Create themed bins with rice, beans, or water beads for tactile exploration.\n\n2. **Obstacle Courses**: Combine jumping, crawling, and balance elements for vestibular and proprioceptive input.\n\n3. **Deep Pressure Activities**: Weighted blankets, compression clothing, or bear hugs can be calming.\n\n4. **Oral-Motor Activities**: Blowing bubbles, using straws, or chewing tools for oral sensory input.\n\n5. **Visual Tracking Games**: Follow moving objects to improve visual processing.\n\n6. **Resistive Activities**: Push/pull games or therapy putty for proprioceptive feedback.\n\nAlways ensure activities match the child's sensory profile - avoid overwhelming them. Would you like some specific examples tailored to a particular sensory need?"
  const MotorReply := "For fine motor skill development, try these activities:\n\n1. **Bead Threading**: Start with larger beads and gradually decrease size as skills improve.\n\n2. **Playdough Manipulation**: Rolling, pinching, and cutting playdough strengthens hand muscles.\n\n3. **Scissors Skills**: Begin with thicker paper and progress to more complex cutting patterns.\n\n4. **Tweezers Activities**: Pick up small objects (pom-poms, cereal) with tweezers.\n\n5. **Lacing Cards**: Develop hand-eye coordination and bilateral coordination.\n\n6. **Finger Painting**: Promotes finger isolation and sensory exploration.\n\n7. **Drawing in Sand/Shaving Cream**: Tactile writing practice before using pencil and paper.\n\nThese activities can be made into games to keep the child engaged. Would you like more activity ideas or adaptations for specific age groups?"
  const FallbackReply := "I'm not sure how to help with that specific query. Could you provide more details or ask about a specific therapy type like speech, behavior, sensory integration, or motor skills?"

  /** The canned answer for a classification result. */
  function ReplyText(topic: Option<Topic>): string {
    match topic
    case Some(SpeechTopic) => SpeechReply
    case Some(BehaviorTopic) => BehaviorReply
    case Some(SensoryTopic) => SensoryReply
    case Some(MotorTopic) => MotorReply
    case None => FallbackReply
  }

  // ------------------------------------------------------------ chat log

  datatype Sender = User | Ai

  /**
   * What a message shows: the user's own words, the canned reply for a
   * classification result, or the greeting. Keeping the canned texts behind
   * `Content` lets the chat logic be reasoned about without them.
   */
  datatype Body = Typed(text: string) | Canned(topic: Option<Topic>) | Greeting

  const GreetingText := "Hello! I'm your AI Therapy Assistant. I can help you with therapy recommendations, activity suggestions, and answer questions about therapy techniques. How can I assist you today?"

  function Content(b: Body): string {
    match b
    case Typed(text) => text
    case Canned(topic) => ReplyText(topic)
    case Greeting => GreetingText
  }

  /** A chat message; ids and timestamps come from the clock and are left out. */
  datatype Message = Message(body: Body, sender: Sender)

  const WelcomeMessage := Message(Greeting, Ai)

  /** The reply logged for a question. */
  function ReplyTo(question: string): Message {
    Message(Canned(Classify(question)), Ai)
  }

  const InitialSuggestions: seq<string> := [
    "Suggest activities for speech therapy for a 5-year-old",
    "What are effective behavior management techniques?",
    "How can I improve sensory integration exercises?",
    "Give me ideas for fine motor skill development"
  ]

  const FollowUpSuggestions: seq<string> := [
    "How do I adapt these for a child with autism?",
    "What materials do I need for these activities?",
    "How often should these exercises be practiced?",
    "Can you explain how to track progress?"
  ]

  /**
   * The page state. `pending` holds, oldest first, the question captured by
   * each reply timer that has not fired yet.
   */
  datatype Chat = Chat(
    messages: seq<Message>,
    input: string,
    typing: bool,
    suggestions: seq<string>,
    pending: seq<string>)

  const InitialChat := Chat([WelcomeMessage], "", false, InitialSuggestions, [])

  /** Typing in the text area. */
  function EditInput(c: Chat, text: string): Chat {
    c.(input := text)
  }

  /** `handleSend`: ignore a blank input; else log it, clear the box and start the reply timer. */
  function Send(c: Chat): (r: Chat)
    ensures IsBlank(c.input) ==> r == c
    ensures !IsBlank(c.input) ==> r.messages == c.messages + [Message(Typed(c.input), User)]
    ensures !IsBlank(c.input) ==> r.input == "" && r.typing && r.pending == c.pending + [c.input]
    ensures r.suggestions == c.suggestions
  {
    TrimEmptyIffBlank(c.input);
    if Trim(c.input) == "" then c
    else c.(messages := c.messages + [Message(Typed(c.input), User)], input := "", typing := true,
            pending := c.pending + [c.input])
  }

  /** The oldest reply timer fires: log the canned reply to its captured question. */
  function ReplyArrives(c: Chat): (r: Chat)
    requires |c.pending| > 0
    ensures r.messages == c.messages + [ReplyTo(c.pending[0])]
    ensures !r.typing && r.suggestions == FollowUpSuggestions
    ensures r.pending == c.pending[1..] && r.input == c.input
  {
    c.(messages := c.messages + [ReplyTo(c.pending[0])], typing := false,
       suggestions := FollowUpSuggestions, pending := c.pending[1..])
  }

  /** A suggestion chip fills the input box and logs nothing. */
  function PickSuggestion(c: Chat, text: string): (r: Chat)
    ensures r.input == text && r.messages == c.messages && r.pending == c.pending
  {
    c.(input := text)
  }

  /** "Clear chat": back to the welcome message and the first suggestions; timers already started still fire. */
  function ClearChat(c: Chat): (r: Chat)
    ensures r.messages == [WelcomeMessage] && r.suggestions == InitialSuggestions
    ensures r.input == c.input && r.typing == c.typing && r.pending == c.pending
  {
    c.(messages := [WelcomeMessage], suggestions := InitialSuggestions)
  }

  datatype Event =
    | Type(text: string)
    | SendClicked
    | KeyDown(key: string, shift: bool)
    | SuggestionClicked(text: string)
    | ReplyTimer
    | ClearClicked

  /** The timer fires only while one is running; only the chips on screen can be clicked. */
  predicate Enabled(c: Chat, e: Event) {
    && (e.ReplyTimer? ==> |c.pending| > 0)
    && (e.SuggestionClicked? ==> e.text in c.suggestions)
  }

  function Step(c: Chat, e: Event): Chat
    requires Enabled(c, e)
  {
    match e
    case Type(text) => EditInput(c, text)
    case SendClicked => Send(c)
    case KeyDown(key, shift) => if key == "Enter" && !shift then Send(c) else c
    case SuggestionClicked(text) => PickSuggestion(c, text)
    case ReplyTimer => ReplyArrives(c)
    case ClearClicked => ClearChat(c)
  }

  /** Enter sends; Shift+Enter and every other key leave the chat as it is. */
  lemma KeyDownSendsOnPlainEnter(c: Chat, key: string, shift: bool)
    ensures !IsBlank(c.input) && key == "Enter" && !shift
            ==> Step(c, KeyDown(key, shift)).messages == c.messages + [Message(Typed(c.input), User)]
    ensures shift || key != "Enter" ==> Step(c, KeyDown(key, shift)) == c
  {
  }

  /** The log is append-only: every event but "Clear chat" keeps earlier messages as a prefix. */
  lemma StepAppendsOnly(c: Chat, e: Event)
    requires Enabled(c, e) && !e.ClearClicked?
    ensures |Step(c, e).messages| >= |c.messages|
    ensures Step(c, e).messages[..|c.messages|] == c.messages
    ensures |Step(c, e).messages| <= |c.messages| + 1
  {
  }

  /** The typing indicator only shows while a reply timer is running. */
  predicate TypingInvariant(c: Chat) {
    c.typing ==> |c.pending| > 0
  }

  lemma StepKeepsTypingInvariant(c: Chat, e: Event)
    requires Enabled(c, e) && TypingInvariant(c)
    ensures TypingInvariant(Step(c, e))
  {
  }

  /** A question sent on an idle page is answered by exactly one user and one reply message. */
  lemma SendThenReply(c: Chat)
    requires !IsBlank(c.input) && |c.pending| == 0
    ensures ReplyArrives(Send(c)).messages
         == c.messages + [Message(Typed(c.input), User), ReplyTo(c.input)]
    ensures !ReplyArrives(Send(c)).typing && ReplyArrives(Send(c)).pending == []
    ensures ReplyArrives(Send(c)).input == ""
  {
  }

  /** The reply answers the question captured at send time, not what is typed meanwhile. */
  lemma ReplyUsesCapturedQuestion(c: Chat, typed: string)
    requires !IsBlank(c.input) && |c.pending| == 0
    ensures ReplyArrives(EditInput(Send(c), typed)).messages[|c.messages| + 1]
         == ReplyTo(c.input)
  {
  }

  /** Two quick questions: after the first reply the indicator is off while the second is pending. */
  lemma TypingClearsEarly(c: Chat, second: string)
    requires !IsBlank(c.input) && !IsBlank(second) && |c.pending| == 0
    ensures var r := ReplyArrives(Send(EditInput(Send(c), second)));
            !r.typing && r.pending == [second]
  {
  }

  /** Clearing while a reply is pending leaves that reply to land after the welcome message. */
  lemma ReplyAfterClear(c: Chat)
    requires |c.pending| > 0
    ensures ReplyArrives(ClearChat(c)).messages
         == [WelcomeMessage, ReplyTo(c.pending[0])]
  {
  }
}
