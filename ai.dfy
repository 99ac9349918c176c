/**
 * `generateReply` of ai.js: whether to consult the retriever, the message list
 * sent to the chat-completion engine, and the choice between the engine's answer
 * and the two fixed apologies. The engine is an abstract function from the
 * message list to what the HTTP call yields; the knowledge-base file is given as
 * its content, or `None` when it cannot be read.
 */
module Ai {
  import opened Wrappers
  import Rag
  import Store

  /** With this many history entries or more, retrieval is skipped. */
  const RagHistoryThreshold: nat := 3
  const RagTopK: nat := 5
  const RagMaxChars: nat := 2000

  const DefaultKnowledgeBase := "You are a helpful customer support agent for YoForex."
  const NoChoicesReply := "I apologize, I am having trouble connecting to my brain right now. Please try again later."
  const FailureReply := "I apologize, but I'm currently experiencing technical difficulties."

  /**
   * A message's content: plain text, a text-and-image part list, or the system
   * prompt, whose fixed sales text is not modelled; it embeds the knowledge base
   * and, when retrieval was used, the retrieved context.
   */
  datatype Content = Plain(text: string) | Parts(text: string, imageUrl: string) | SystemPrompt(knowledgeBase: string, ragContext: Option<string>)

  datatype ChatMessage = ChatMessage(role: string, content: Content)

  /** A choice of the engine's answer: without a `message`, or with one whose `content` may be missing. */
  datatype Choice = MessageLess | WithMessage(content: Option<string>)

  /** `response.data`, with `choices` absent (`None`) or a list. */
  datatype EngineData = EngineData(choices: Option<seq<Choice>>)

  /** What the HTTP call gives: an exception, or a response whose `data` may be missing. */
  datatype EngineResponse = Threw | Returned(data: Option<EngineData>)

  /** The object `generateReply` resolves to; `text` is `None` where the engine's `content` was missing. */
  datatype Reply = Reply(text: Option<string>, ragUsed: bool, ragChunks: seq<Rag.UsedChunk>)

  /** The values of `ragContext`, `ragUsed` and `ragChunks` after the gating branch. */
  datatype RagState = RagState(context: string, used: bool, chunks: seq<Rag.UsedChunk>)

  function RagGate(corpus: Rag.Corpus, userMessage: string, history: seq<Store.Entry>): RagState {
    if |history| >= RagHistoryThreshold then RagState("", false, [])
    else
      var r := Rag.RetrievalFor(corpus, userMessage, RagTopK, RagMaxChars);
      if r.used then RagState(r.context, true, r.chunks) else RagState("", false, [])
  }

  /** A history entry as the engine sees it: 'assistant' stays, every other role becomes 'user'. */
  function HistoryMessage(e: Store.Entry): ChatMessage {
    ChatMessage(if e.role == Store.AssistantRole then Store.AssistantRole else Store.UserRole, Plain(e.content))
  }

  function HistoryMessages(history: seq<Store.Entry>): (ms: seq<ChatMessage>)
    ensures |ms| == |history| && forall i | 0 <= i < |history| :: ms[i] == HistoryMessage(history[i])
  {
    if history == [] then [] else HistoryMessages(history[..|history| - 1]) + [HistoryMessage(history[|history| - 1])]
  }

  /** The user's message: plain, or a text part and an image part when an image URL is given. */
  function UserContent(userMessage: string, imageUrl: Option<string>): Content {
    if imageUrl.Some? && imageUrl.value != "" then Parts(userMessage, imageUrl.value) else Plain(userMessage)
  }

  function KnowledgeBase(file: Option<string>): string {
    file.GetOr(DefaultKnowledgeBase)
  }

  /** The message list: the system prompt, the history, the user's message. */
  function Messages(kb: string, rag: RagState, history: seq<Store.Entry>, userMessage: string, imageUrl: Option<string>): seq<ChatMessage> {
    [ChatMessage("system", SystemPrompt(kb, if rag.used then Some(rag.context) else None))]
    + HistoryMessages(history)
    + [ChatMessage(Store.UserRole, UserContent(userMessage, imageUrl))]
  }

  /** The branch on the engine's response, and the `catch` around it. */
  function SelectReply(response: EngineResponse, rag: RagState): Reply {
    match response
    case Threw => Reply(Some(FailureReply), false, [])
    case Returned(data) =>
      if data.None? || data.value.choices.None? || |data.value.choices.value| == 0 then Reply(Some(NoChoicesReply), false, [])
      else
        match data.value.choices.value[0]
        case MessageLess => Reply(Some(FailureReply), false, [])
        case WithMessage(content) => Reply(content, rag.used, rag.chunks)
  }

  /** `generateReply(userMessage, history, imageUrl)` against the given corpus, knowledge-base file and engine. */
  function GenerateReply(corpus: Rag.Corpus, kbFile: Option<string>, engine: seq<ChatMessage> -> EngineResponse,
                         userMessage: string, history: seq<Store.Entry>, imageUrl: Option<string>): Reply
  {
    var rag := RagGate(corpus, userMessage, history);
    SelectReply(engine(Messages(KnowledgeBase(kbFile), rag, history, userMessage, imageUrl)), rag)
  }

  // ---------------------------------------------------------------------------
  // Properties

  /**
   * Retrieval is consulted only for a history shorter than three entries, with
   * top 5 and 2000 characters; the context and chunks are kept only when the
   * retriever reports it used something, and are otherwise empty.
   */
  lemma RagGateSpec(corpus: Rag.Corpus, userMessage: string, history: seq<Store.Entry>)
    ensures var g, r := RagGate(corpus, userMessage, history), Rag.RetrievalFor(corpus, userMessage, 5, 2000);
      && (g.used <==> |history| < 3 && r.used)
      && (g.used ==> g.context == r.context && g.chunks == r.chunks && g.chunks != [])
      && (!g.used ==> g.context == "" && g.chunks == [])
  {
    Rag.RetrieveUsedIff(corpus, userMessage, 5, 2000);
  }

  /**
   * The list has |history| + 2 messages: the system prompt holding the knowledge
   * base (and the retrieved context exactly when retrieval was used), every history
   * entry in order with its content unchanged and its role coerced, and last the
   * user's message, with an image part exactly when a non-empty URL is given.
   */
  lemma MessagesShape(kb: string, rag: RagState, history: seq<Store.Entry>, userMessage: string, imageUrl: Option<string>)
    ensures var ms := Messages(kb, rag, history, userMessage, imageUrl);
      && |ms| == |history| + 2
      && ms[0].role == "system" && ms[0].content.SystemPrompt? && ms[0].content.knowledgeBase == kb
      && (ms[0].content.ragContext.Some? <==> rag.used)
      && (rag.used ==> ms[0].content.ragContext == Some(rag.context))
      && (forall i | 0 <= i < |history| ::
            ms[i + 1].content == Plain(history[i].content)
            && (ms[i + 1].role == "assistant" <==> history[i].role == "assistant")
            && (ms[i + 1].role == "assistant" || ms[i + 1].role == "user"))
      && ms[|ms| - 1].role == "user"
      && (ms[|ms| - 1].content == Plain(userMessage) <==> imageUrl.None? || imageUrl.value == "")
      && (imageUrl.Some? && imageUrl.value != "" ==> ms[|ms| - 1].content == Parts(userMessage, imageUrl.value))
  {
    var ms := Messages(kb, rag, history, userMessage, imageUrl);
    var hs := HistoryMessages(history);
    forall i | 0 <= i < |history| ensures ms[i + 1] == hs[i] {
    }
  }

  /**
   * The reply is the first choice's content when the engine returned a non-empty
   * choice list whose first entry has a message, and the "technical difficulties"
   * apology when that entry has none; an empty or missing list gives the "trouble
   * connecting" apology, any exception the "technical difficulties" one, and the
   * apologies report no retrieval. Conversely, a reply that is not an apology is
   * the first choice's content, with the gate's retrieval flags.
   */
  lemma ReplySelection(response: EngineResponse, rag: RagState)
    ensures var r := SelectReply(response, rag);
      && (response.Threw? ==> r == Reply(Some(FailureReply), false, []))
      && (response.Returned? && (response.data.None? || response.data.value.choices.None? || response.data.value.choices.value == [])
          ==> r == Reply(Some(NoChoicesReply), false, []))
      && (r.text != Some(FailureReply) && r.text != Some(NoChoicesReply) ==>
          response.Returned? && response.data.Some? && response.data.value.choices.Some?
          && |response.data.value.choices.value| > 0
          && response.data.value.choices.value[0] == WithMessage(r.text)
          && r.ragUsed == rag.used && r.ragChunks == rag.chunks)
      && (response.Returned? && response.data.Some? && response.data.value.choices.Some?
          && |response.data.value.choices.value| > 0 ==>
            var first := response.data.value.choices.value[0];
            && (first.WithMessage? ==> r == Reply(first.content, rag.used, rag.chunks))
            && (first.MessageLess? ==> r == Reply(Some(FailureReply), false, [])))
      && (r.ragUsed ==> rag.used && r.ragChunks == rag.chunks)
  {
  }

  /** Retrieval is never even attempted for an established conversation. */
  lemma RagSkippedForLongHistory(corpus: Rag.Corpus, kbFile: Option<string>, engine: seq<ChatMessage> -> EngineResponse,
                                 userMessage: string, history: seq<Store.Entry>, imageUrl: Option<string>)
    requires |history| >= RagHistoryThreshold
    ensures var r := GenerateReply(corpus, kbFile, engine, userMessage, history, imageUrl);
      !r.ragUsed && r.ragChunks == []
    ensures GenerateReply(corpus, kbFile, engine, userMessage, history, imageUrl)
         == GenerateReply(Rag.Corpus([], false), kbFile, engine, userMessage, history, imageUrl)
  {
  }

  /** An engine that always throws makes the reply the "technical difficulties" apology, without retrieval. */
  lemma EngineThrowApologises(corpus: Rag.Corpus, kbFile: Option<string>, engine: seq<ChatMessage> -> EngineResponse,
                              userMessage: string, history: seq<Store.Entry>, imageUrl: Option<string>)
    requires forall ms :: engine(ms) == Threw
    ensures GenerateReply(corpus, kbFile, engine, userMessage, history, imageUrl) == Reply(Some(FailureReply), false, [])
  {
  }
}
