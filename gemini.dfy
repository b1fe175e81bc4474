/**
  `GeminiLlmClient` of src/llm.py and of llm.py: the adapter that turns the
  agent's conversation into a Gemini chat. The chat starts from the system
  prompt as a user message and a fixed priming reply from the model; every
  turn but the last follows with its role mapped to Gemini's `user`/`model`,
  and the last turn is the message that is sent. The Gemini service itself
  is not modelled.
*/
module Gemini {
  import opened Wrappers
  import opened Conversation

  /** `{"role": ..., "parts": [...]}`. */
  datatype ChatMessage = ChatMessage(role: string, parts: seq<string>)

  /** What `call_llm` hands to the service: the chat history to start from
      and the message to send in it. */
  datatype ChatRequest = ChatRequest(history: seq<ChatMessage>, message: string)

  const Priming: string := "Understood. I'm ready to start the task."

  /** Gemini knows only two roles: the agent's `assistant` becomes `model`,
      every other role becomes `user`. */
  function GeminiRole(role: string): string {
    if role == "assistant" then "model" else "user"
  }

  function Formatted(t: Turn): ChatMessage {
    ChatMessage(GeminiRole(t.role), [t.content])
  }

  /** The two messages every chat starts from. */
  function Preamble(systemPrompt: string): seq<ChatMessage> {
    [ChatMessage("user", [systemPrompt]), ChatMessage("model", [Priming])]
  }

  /** The turns in Gemini's format, in order. */
  function FormattedAll(turns: seq<Turn>): seq<ChatMessage>
  {
    if |turns| == 0 then [] else FormattedAll(turns[..|turns| - 1]) + [Formatted(turns[|turns| - 1])]
  }

  /** Python's `history[:-1]`: everything but the last element, nothing for
      an empty list. */
  function AllButLast(history: seq<Turn>): seq<Turn> {
    if |history| == 0 then [] else history[..|history| - 1]
  }

  /** The value `_prepare_chat_history` returns. */
  function ChatHistory(systemPrompt: string, history: seq<Turn>): seq<ChatMessage> {
    Preamble(systemPrompt) + FormattedAll(AllButLast(history))
  }

  lemma {:induction false} FormattedAllShape(turns: seq<Turn>)
    ensures |FormattedAll(turns)| == |turns|
    ensures forall i | 0 <= i < |turns| :: FormattedAll(turns)[i] == Formatted(turns[i])
    decreases |turns|
  {
    if |turns| > 0 {
      FormattedAllShape(turns[..|turns| - 1]);
    }
  }

  /** The chat starts with the system prompt from the user and the priming
      reply from the model; then come all turns but the last, one message
      each, in order, with their contents unchanged and their roles mapped. */
  lemma ChatHistoryShape(systemPrompt: string, history: seq<Turn>)
    ensures var r := ChatHistory(systemPrompt, history);
      && |r| == 2 + (if |history| == 0 then 0 else |history| - 1)
      && r[0] == ChatMessage("user", [systemPrompt])
      && r[1] == ChatMessage("model", [Priming])
      && forall i | 0 <= i < |history| - 1 ::
           r[i + 2].parts == [history[i].content]
           && (r[i + 2].role == "model" <==> history[i].role == "assistant")
           && r[i + 2].role in {"user", "model"}
  {
    FormattedAllShape(AllButLast(history));
  }

  /** `_prepare_chat_history` of src/llm.py: the list starts as the two-message
      preamble and one message is appended per turn. */
  method PrepareChatHistory(systemPrompt: string, history: seq<Turn>) returns (formatted: seq<ChatMessage>)
    ensures formatted == ChatHistory(systemPrompt, history)
  {
    formatted := [ChatMessage("user", [systemPrompt]), ChatMessage("model", [Priming])];
    var earlier := AllButLast(history);
    for i := 0 to |earlier|
      invariant formatted == Preamble(systemPrompt) + FormattedAll(earlier[..i])
    {
      var role := if earlier[i].role == "assistant" then "model" else "user";
      formatted := formatted + [ChatMessage(role, [earlier[i].content])];
      assert earlier[..i + 1][..i] == earlier[..i];
    }
    assert earlier[..|earlier|] == earlier;
  }

  /** `_prepare_chat_history` of llm.py: the list starts empty and the two
      preamble messages are appended before the turns. */
  method LegacyPrepareChatHistory(systemPrompt: string, history: seq<Turn>) returns (formatted: seq<ChatMessage>)
    ensures formatted == ChatHistory(systemPrompt, history)
  {
    formatted := [];
    formatted := formatted + [ChatMessage("user", [systemPrompt])];
    formatted := formatted + [ChatMessage("model", [Priming])];
    var earlier := AllButLast(history);
    for i := 0 to |earlier|
      invariant formatted == Preamble(systemPrompt) + FormattedAll(earlier[..i])
    {
      var role := if earlier[i].role == "assistant" then "model" else "user";
      formatted := formatted + [ChatMessage(role, [earlier[i].content])];
      assert earlier[..i + 1][..i] == earlier[..i];
    }
    assert earlier[..|earlier|] == earlier;
  }

  /** The request `call_llm` makes: the chat history and the content of the
      last turn; None for an empty conversation, where `conversation_history[-1]`
      raises `IndexError` before anything is sent. */
  function Request(systemPrompt: string, history: seq<Turn>): (r: Option<ChatRequest>)
    ensures r.Some? <==> |history| > 0
    ensures r.Some? ==> r.value.message == history[|history| - 1].content
  {
    if |history| == 0 then None
    else Some(ChatRequest(ChatHistory(systemPrompt, history), history[|history| - 1].content))
  }

  /** Nothing of the conversation is lost or reordered: the contents of the
      chat history after the preamble, followed by the message sent, are the
      contents of the conversation's turns. */
  lemma {:induction false} RequestCoversConversation(systemPrompt: string, history: seq<Turn>)
    requires |history| > 0
    ensures var r := Request(systemPrompt, history).value;
      |r.history| == |history| + 1
      && (forall i | 0 <= i < |history| - 1 :: r.history[i + 2].parts == [history[i].content])
      && r.message == history[|history| - 1].content
  {
    ChatHistoryShape(systemPrompt, history);
  }
}
