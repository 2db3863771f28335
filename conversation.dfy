/**
 * Role-tagged chat messages, the prompt sent to the conversational service and the
 * bounded conversation history of sonia.py (SpeechInteractionSystem).
 */
module Conversation {

  datatype Role = System | User | Assistant

  /** One `{"role": ..., "content": ...}` dictionary of the chat message list. */
  datatype Message = Message(role: Role, content: string)

  /** `MAX_HISTORY_LENGTH`: the number of exchanges kept in the history. */
  const MaxHistoryLength: nat := 1000

  /** The history keeps at most two messages (user, assistant) per exchange. */
  const MaxMessages: nat := MaxHistoryLength * 2

  /** The fixed instruction that opens every prompt. */
  const SystemInstruction: string :=
    "You are a soft skills teacher name 'Sonia'. Your role is to help improve the user's "
    + "grammar, language, and communication. Provide concise but detailed feedback. "
    + "Suggest better word choices and explain improvements where necessary. "
    + "Ignore Punctuations in sentences as audio is transcribed to text. "
    + "Be Strict and maintain the context of the ongoing conversation."

  const SystemMessage: Message := Message(System, SystemInstruction)

  function UserMessage(text: string): Message { Message(User, text) }

  function AssistantMessage(text: string): Message { Message(Assistant, text) }

  /** No message of the history speaks with the system role. */
  predicate NoSystemMessages(history: seq<Message>)
  {
    forall i :: 0 <= i < |history| ==> history[i].role != System
  }

  // ---------------------------------------------------------------------------
  // Prompt assembly

  /** The message list sent for `prompt`: the system message, the history, the new user message. */
  function Prompt(history: seq<Message>, prompt: string): seq<Message>
  {
    [SystemMessage] + history + [UserMessage(prompt)]
  }

  /** The prompt is two longer than the history, opens with the system message, holds the
      history in order and ends with the user's new message. */
  lemma PromptLayout(history: seq<Message>, prompt: string)
    ensures |Prompt(history, prompt)| == |history| + 2
    ensures Prompt(history, prompt)[0] == SystemMessage
    ensures Prompt(history, prompt)[0].role == System
    ensures forall i :: 0 <= i < |history| ==> Prompt(history, prompt)[i + 1] == history[i]
    ensures Prompt(history, prompt)[|history| + 1] == UserMessage(prompt)
  {
  }

  /** When the history holds no system message, the prompt holds exactly one, at its head. */
  lemma PromptHasOneSystemMessage(history: seq<Message>, prompt: string, i: nat)
    requires NoSystemMessages(history)
    requires i < |Prompt(history, prompt)|
    ensures Prompt(history, prompt)[i].role == System <==> i == 0
  {
    if 0 < i <= |history| {
      assert Prompt(history, prompt)[i] == history[i - 1];
    }
  }

  // ---------------------------------------------------------------------------
  // Bounded history

  /** `history[-(MAX_HISTORY_LENGTH * 2):]`, taken only when the history is over the bound. */
  function Trimmed(history: seq<Message>): seq<Message>
  {
    if |history| > MaxMessages then history[|history| - MaxMessages..] else history
  }

  /** The history after recording one exchange: append the user message, then the
      assistant message, then drop the oldest messages beyond the bound. */
  function Appended(history: seq<Message>, userInput: string, aiResponse: string): seq<Message>
  {
    Trimmed(history + [UserMessage(userInput), AssistantMessage(aiResponse)])
  }

  /** Trimming keeps the most recent messages, in order, and never exceeds the bound. */
  lemma TrimmedIsRecentSuffix(history: seq<Message>)
    ensures |Trimmed(history)| == if |history| <= MaxMessages then |history| else MaxMessages
    ensures Trimmed(history) == history[|history| - |Trimmed(history)|..]
  {
  }

  /** Whatever the history was, it is within the bound after an exchange is recorded. */
  lemma AppendedWithinBound(history: seq<Message>, userInput: string, aiResponse: string)
    ensures |Appended(history, userInput, aiResponse)| <= MaxMessages
  {
  }

  /** From a history within the bound, the new length is min(old length + 2, bound). */
  lemma AppendedLength(history: seq<Message>, userInput: string, aiResponse: string)
    requires |history| <= MaxMessages
    ensures |Appended(history, userInput, aiResponse)|
         == if |history| + 2 <= MaxMessages then |history| + 2 else MaxMessages
  {
  }

  /** FIFO eviction: the new history is the old one with its `dropped` oldest messages
      removed, followed by the user message and then the assistant message; messages are
      dropped only when the bound is exceeded. */
  lemma AppendedEvictsOldestFirst(history: seq<Message>, userInput: string, aiResponse: string)
    requires |history| <= MaxMessages
    ensures var dropped := |history| + 2 - |Appended(history, userInput, aiResponse)|;
      && 0 <= dropped <= |history|
      && (dropped > 0 <==> |history| + 2 > MaxMessages)
      && Appended(history, userInput, aiResponse)
         == history[dropped..] + [UserMessage(userInput), AssistantMessage(aiResponse)]
  {
    var full := history + [UserMessage(userInput), AssistantMessage(aiResponse)];
    if |full| > MaxMessages {
      var dropped := |full| - MaxMessages;
      assert full[dropped..] == history[dropped..] + [UserMessage(userInput), AssistantMessage(aiResponse)];
    }
  }

  /** The two most recent messages are the exchange just recorded, user first. */
  lemma AppendedEndsWithExchange(history: seq<Message>, userInput: string, aiResponse: string)
    ensures var r := Appended(history, userInput, aiResponse);
      && |r| >= 2
      && r[|r| - 2] == UserMessage(userInput)
      && r[|r| - 1] == AssistantMessage(aiResponse)
  {
  }

  /** Recording an exchange never brings a system message into the history. */
  lemma AppendedKeepsNoSystemMessages(history: seq<Message>, userInput: string, aiResponse: string)
    requires NoSystemMessages(history)
    ensures NoSystemMessages(Appended(history, userInput, aiResponse))
  {
  }

  // ---------------------------------------------------------------------------
  // Many exchanges

  /** One user/assistant exchange as the history records it. */
  datatype Exchange = Exchange(userInput: string, aiResponse: string)

  /** All messages of the exchanges, in order, without any bound. */
  function Transcript(exchanges: seq<Exchange>): (r: seq<Message>)
    ensures |r| == 2 * |exchanges|
  {
    if exchanges == [] then []
    else [UserMessage(exchanges[0].userInput), AssistantMessage(exchanges[0].aiResponse)]
         + Transcript(exchanges[1..])
  }

  /** The history after recording the exchanges one by one, oldest first. */
  function Replay(history: seq<Message>, exchanges: seq<Exchange>): seq<Message>
    decreases |exchanges|
  {
    if exchanges == [] then history
    else Replay(Appended(history, exchanges[0].userInput, exchanges[0].aiResponse), exchanges[1..])
  }

  /** Recording one more exchange after a replay is replaying it with the others. */
  lemma {:induction false} ReplayThenAppend(history: seq<Message>, exchanges: seq<Exchange>, last: Exchange)
    ensures Replay(history, exchanges + [last])
         == Appended(Replay(history, exchanges), last.userInput, last.aiResponse)
    decreases |exchanges|
  {
    if exchanges == [] {
      assert exchanges + [last] == [last];
    } else {
      assert (exchanges + [last])[1..] == exchanges[1..] + [last];
      ReplayThenAppend(Appended(history, exchanges[0].userInput, exchanges[0].aiResponse), exchanges[1..], last);
    }
  }

  /** Trimming an intermediate history loses nothing that a later trim would keep. */
  lemma {:induction false} TrimmedAbsorbs(prefix: seq<Message>, suffix: seq<Message>)
    ensures Trimmed(Trimmed(prefix) + suffix) == Trimmed(prefix + suffix)
  {
    if |prefix| > MaxMessages {
      var kept := prefix[|prefix| - MaxMessages..];
      var gone := prefix[..|prefix| - MaxMessages];
      assert prefix + suffix == gone + (kept + suffix);
      var whole := prefix + suffix;
      var part := kept + suffix;
      assert whole[|whole| - MaxMessages..] == part[|part| - MaxMessages..];
    }
  }

  /** Recording exchanges one at a time keeps exactly the most recent messages of the whole
      conversation, in their original order. */
  lemma {:induction false} ReplayKeepsMostRecent(history: seq<Message>, exchanges: seq<Exchange>)
    requires |history| <= MaxMessages
    ensures Replay(history, exchanges) == Trimmed(history + Transcript(exchanges))
    decreases |exchanges|
  {
    if exchanges != [] {
      var e := exchanges[0];
      var pair := [UserMessage(e.userInput), AssistantMessage(e.aiResponse)];
      var rest := Transcript(exchanges[1..]);
      AppendedWithinBound(history, e.userInput, e.aiResponse);
      calc {
        Replay(history, exchanges);
        Replay(Trimmed(history + pair), exchanges[1..]);
        { ReplayKeepsMostRecent(Trimmed(history + pair), exchanges[1..]); }
        Trimmed(Trimmed(history + pair) + rest);
        { TrimmedAbsorbs(history + pair, rest); }
        Trimmed((history + pair) + rest);
        { assert (history + pair) + rest == history + Transcript(exchanges); }
        Trimmed(history + Transcript(exchanges));
      }
    }
  }

  /** From an empty history, N exchanges leave min(2N, bound) messages: the most recent ones. */
  lemma ConversationLength(exchanges: seq<Exchange>)
    ensures |Replay([], exchanges)| == if 2 * |exchanges| <= MaxMessages then 2 * |exchanges| else MaxMessages
    ensures Replay([], exchanges) == Transcript(exchanges)[2 * |exchanges| - |Replay([], exchanges)|..]
  {
    ReplayKeepsMostRecent([], exchanges);
    assert [] + Transcript(exchanges) == Transcript(exchanges);
  }
}
