/**
 * The session controller of sonia.py (class SpeechInteractionSystem): the bounded
 * conversation history, the exchange with the conversational service, one turn of the
 * interactive session and its final cleanup. The speech-to-text and chat services are
 * fallible oracles given as parameters; the transcript of the session is kept as the
 * `output` list of lines.
 */
module Session {
  import opened Wrappers
  import opened Conversation
  import opened Playback

  /** Why the conversational service failed (the exception it raised). */
  datatype ChatError = ChatError(reason: string)

  /** The conversational service: given the message list, a reply or a failure. */
  type ChatService = seq<Message> -> Result<string, ChatError>

  /** How one turn of the session ended: no usable input, a reply that is now being spoken,
      or a failed exchange, whose exception ends the session. */
  datatype TurnOutcome = Skipped | Spoken(response: string) | Aborted(error: ChatError)

  const NoInputLine: string := "No valid input detected. Please try again."
  const FetchingLine: string := "Fetching response from Groq..."
  const TerminatedLine: string := "\nProgram terminated by user."

  /** What happens in one turn: the speech-to-text service's answer, what happens while the
      reply is played, and the operator's answer to the continue prompt. */
  datatype TurnScript = TurnScript(speech: Result<string, string>, playback: seq<Event>, answer: string)

  /** Why the session ended: the operator typed `exit`, the operator interrupted it, or an
      exchange with the chat service raised. */
  datatype SessionEnd = ExitRequested | Interrupted | Crashed(error: ChatError)

  /** `str.lower()` on ASCII letters. */
  function Lower(s: string): string
  {
    if s == [] then []
    else [if 'A' <= s[0] <= 'Z' then (s[0] - 'A' + 'a') as char else s[0]] + Lower(s[1..])
  }

  /** Python's truth test on the transcription: `None` and the empty string are false. */
  predicate IsUsableInput(transcription: Option<string>)
  {
    transcription.Some? && transcription.value != ""
  }

  /** The transcription of a speech-to-text answer: its text, or `None` when it failed. */
  function Transcription(speech: Result<string, string>): Option<string>
  {
    if speech.Success? then Some(speech.value) else None
  }

  /** The transcript line logged for a failed speech-to-text call. */
  function SpeechLines(speech: Result<string, string>): seq<string>
  {
    if speech.Success? then [] else ["Transcription error: " + speech.error]
  }

  /** What one turn leads to: whether it ends the session (and how), the exchange it records,
      the transcript lines it logs and the player's state after it. */
  datatype TurnEffect = TurnEffect(stop: Option<SessionEnd>, exchange: Option<Exchange>, lines: seq<string>, player: PlayerState)

  /** One turn from the given history and player state: a turn without usable input is
      skipped; otherwise the chat service is asked, a failure ends the session, and a reply is
      played; playback still going when the turn's events run out is an interrupt, and after
      playback the operator's `exit` ends the session. */
  function TurnFrom(history: seq<Message>, player: PlayerState, turn: TurnScript, chat: ChatService): TurnEffect
  {
    var input := Transcription(turn.speech);
    var heard := SpeechLines(turn.speech);
    if !IsUsableInput(input) then TurnEffect(None, None, heard + [NoInputLine], player)
    else
      var asked := heard + ["Your input: " + input.value, FetchingLine];
      var reply := chat(Prompt(history, input.value));
      if reply.Failure? then TurnEffect(Some(Crashed(reply.error)), None, asked, player)
      else
        var after := Run(AfterPlay(player, reply.value), turn.playback);
        var stop := if after.playing then Some(Interrupted)
                    else if Lower(turn.answer) == "exit" then Some(ExitRequested)
                    else None;
        TurnEffect(stop, Some(Exchange(input.value, reply.value)), asked + ["Groq Response: " + reply.value], after)
  }

  /** The history after a turn: updated only when the turn recorded an exchange. */
  function HistoryAfter(history: seq<Message>, effect: TurnEffect): seq<Message>
  {
    if effect.exchange.Some? then Appended(history, effect.exchange.value.userInput, effect.exchange.value.aiResponse)
    else history
  }

  /** The exchange of a turn, as a list of at most one. */
  function Recorded(effect: TurnEffect): seq<Exchange>
  {
    if effect.exchange.Some? then [effect.exchange.value] else []
  }

  /** What a session leads to: how it ended, the exchanges recorded in the history, the
      number of turns begun, the transcript lines logged (before the final cleanup) and the
      player's state. */
  datatype SessionRun = SessionRun(
    ending: SessionEnd, exchanges: seq<Exchange>, turns: nat, transcript: seq<string>, player: PlayerState)

  /** The session that runs the script from the given history and player state: turns
      follow one another until one ends the session; a script that runs out is an interrupt. */
  function SessionFrom(history: seq<Message>, player: PlayerState, script: seq<TurnScript>, chat: ChatService)
    : (r: SessionRun)
    ensures |r.exchanges| <= r.turns <= |script|
    decreases |script|
  {
    if script == [] then SessionRun(Interrupted, [], 0, [], player)
    else
      var effect := TurnFrom(history, player, script[0], chat);
      if effect.stop.Some? then SessionRun(effect.stop.value, Recorded(effect), 1, effect.lines, effect.player)
      else
        var rest := SessionFrom(HistoryAfter(history, effect), effect.player, script[1..], chat);
        SessionRun(rest.ending, Recorded(effect) + rest.exchanges, rest.turns + 1,
                   effect.lines + rest.transcript, rest.player)
  }

  /** What a turn can lead to: an exchange is recorded only for a usable transcription the
      chat service answered; a crash only when it failed on one; a turn without usable input
      neither records nor ends anything; `exit` ends the session only after playback is over,
      and an interrupt only while a reply is playing. */
  lemma TurnOutcomes(history: seq<Message>, player: PlayerState, turn: TurnScript, chat: ChatService)
    ensures var effect := TurnFrom(history, player, turn, chat);
      var input := Transcription(turn.speech);
      && (!IsUsableInput(input) ==> effect.exchange.None? && effect.stop.None? && effect.player == player)
      && (effect.exchange.Some? ==>
            && IsUsableInput(input) && effect.exchange.value.userInput == input.value
            && chat(Prompt(history, input.value)) == Success(effect.exchange.value.aiResponse))
      && (effect.stop.Some? && effect.stop.value.Crashed? ==>
            && IsUsableInput(input) && effect.exchange.None?
            && chat(Prompt(history, input.value)) == Failure(effect.stop.value.error))
      && (effect.stop == Some(ExitRequested) ==>
            effect.exchange.Some? && Lower(turn.answer) == "exit" && !effect.player.playing)
      && (effect.stop == Some(Interrupted) ==> effect.exchange.Some? && effect.player.playing)
      && (effect.stop.None? && IsUsableInput(input) ==> effect.exchange.Some? && !effect.player.playing)
  {
  }

  /** The usable inputs of the first k turns: those of the first turn, then of the k - 1 next. */
  lemma UsableInputsOfPrefix(script: seq<TurnScript>, k: nat)
    requires 0 < k <= |script|
    ensures var input := Transcription(script[0].speech);
      UsableInputs(script[..k]) == (if IsUsableInput(input) then [input.value] else []) + UsableInputs(script[1..][..k - 1])
  {
    assert script[..k][0] == script[0];
    assert script[..k][1..] == script[1..][..k - 1];
  }

  /** A session whose first turn ends it. */
  lemma SessionStops(history: seq<Message>, player: PlayerState, script: seq<TurnScript>, chat: ChatService)
    requires script != []
    requires TurnFrom(history, player, script[0], chat).stop.Some?
    ensures var effect := TurnFrom(history, player, script[0], chat);
      SessionFrom(history, player, script, chat)
      == SessionRun(effect.stop.value, Recorded(effect), 1, effect.lines, effect.player)
  {
  }

  /** A session whose first turn lets it go on. */
  lemma SessionContinues(history: seq<Message>, player: PlayerState, script: seq<TurnScript>, chat: ChatService)
    requires script != []
    requires TurnFrom(history, player, script[0], chat).stop.None?
    ensures var effect := TurnFrom(history, player, script[0], chat);
      var rest := SessionFrom(HistoryAfter(history, effect), effect.player, script[1..], chat);
      SessionFrom(history, player, script, chat)
      == SessionRun(rest.ending, Recorded(effect) + rest.exchanges, rest.turns + 1, effect.lines + rest.transcript, rest.player)
  {
  }

  /** A session begun with `exchanges` recorded and `logged` lines after i turns goes on with
      turn i: either that turn ends it, or the rest of the script follows. */
  lemma SessionResumes(
    whole: SessionRun, exchanges: seq<Exchange>, i: nat, logged: seq<string>,
    history: seq<Message>, player: PlayerState, script: seq<TurnScript>, chat: ChatService,
    exchanges': seq<Exchange>, logged': seq<string>, history': seq<Message>, player': PlayerState)
    requires i < |script|
    requires var rest := SessionFrom(history, player, script[i..], chat);
      whole == SessionRun(rest.ending, exchanges + rest.exchanges, i + rest.turns, logged + rest.transcript, rest.player)
    requires var effect := TurnFrom(history, player, script[i], chat);
      && exchanges' == exchanges + Recorded(effect) && logged' == logged + effect.lines
      && history' == HistoryAfter(history, effect) && player' == effect.player
    ensures var effect := TurnFrom(history, player, script[i], chat);
      effect.stop.Some? ==> whole == SessionRun(effect.stop.value, exchanges', i + 1, logged', player')
    ensures var effect := TurnFrom(history, player, script[i], chat);
      effect.stop.None? ==>
        var rest := SessionFrom(history', player', script[i + 1..], chat);
        whole == SessionRun(rest.ending, exchanges' + rest.exchanges, i + 1 + rest.turns, logged' + rest.transcript, rest.player)
  {
    var effect := TurnFrom(history, player, script[i], chat);
    assert script[i..][0] == script[i] && script[i..][1..] == script[i + 1..];
    if effect.stop.Some? {
      SessionStops(history, player, script[i..], chat);
    } else {
      SessionContinues(history, player, script[i..], chat);
      var rest := SessionFrom(history', player', script[i + 1..], chat);
      ConcatAssociates(exchanges, Recorded(effect), rest.exchanges);
      ConcatAssociates(logged, effect.lines, rest.transcript);
    }
  }

  /** The usable transcriptions of the turns, in order. */
  function UsableInputs(script: seq<TurnScript>): seq<string>
  {
    if script == [] then []
    else
      var input := Transcription(script[0].speech);
      (if IsUsableInput(input) then [input.value] else []) + UsableInputs(script[1..])
  }

  /** The user inputs of the exchanges, in order. */
  function UserInputs(exchanges: seq<Exchange>): (r: seq<string>)
    ensures |r| == |exchanges|
  {
    if exchanges == [] then [] else [exchanges[0].userInput] + UserInputs(exchanges[1..])
  }

  /** The k-th user input is that of the k-th exchange. */
  lemma {:induction false} UserInputsAt(exchanges: seq<Exchange>, k: nat)
    requires k < |exchanges|
    ensures UserInputs(exchanges)[k] == exchanges[k].userInput
  {
    if k > 0 {
      UserInputsAt(exchanges[1..], k - 1);
    }
  }

  /** Concatenation is associative. */
  lemma ConcatAssociates<T>(a: seq<T>, b: seq<T>, c: seq<T>)
    ensures (a + b) + c == a + (b + c)
  {
  }

  /** A list one longer than a prefix it starts with keeps that shape when both gain a head. */
  lemma PrefixWithOneMore<T>(head: T, longer: seq<T>, prefix: seq<T>)
    requires |longer| == |prefix| + 1 && longer[..|prefix|] == prefix
    ensures ([head] + longer)[..|prefix| + 1] == [head] + prefix
    ensures ([head] + longer)[|prefix| + 1] == longer[|prefix|]
  {
  }

  /** Replaying a first exchange and then the others is replaying from the updated history. */
  lemma ReplayFirst(history: seq<Message>, first: Exchange, others: seq<Exchange>)
    ensures Replay(history, [first] + others) == Replay(Appended(history, first.userInput, first.aiResponse), others)
  {
    assert ([first] + others)[1..] == others;
  }

  /** Every recorded reply is the chat service's answer to the prompt built from the history
      as it stood just before that exchange. */
  lemma {:induction false} SessionRepliesComeFromChat(
    history: seq<Message>, player: PlayerState, script: seq<TurnScript>, chat: ChatService, j: nat)
    requires j < |SessionFrom(history, player, script, chat).exchanges|
    ensures var r := SessionFrom(history, player, script, chat);
      chat(Prompt(Replay(history, r.exchanges[..j]), r.exchanges[j].userInput)) == Success(r.exchanges[j].aiResponse)
    decreases |script|
  {
    var r := SessionFrom(history, player, script, chat);
    assert script != [];
    var effect := TurnFrom(history, player, script[0], chat);
    var next := HistoryAfter(history, effect);
    if effect.stop.Some? {
      SessionStops(history, player, script, chat);
      assert j == 0 && effect.exchange.Some?;
      assert r.exchanges[..0] == [];
    } else {
      SessionContinues(history, player, script, chat);
      var rest := SessionFrom(next, effect.player, script[1..], chat);
      if effect.exchange.None? {
        assert r.exchanges == rest.exchanges && next == history;
        SessionRepliesComeFromChat(history, effect.player, script[1..], chat, j);
      } else if j == 0 {
        assert r.exchanges[..0] == [];
      } else {
        assert r.exchanges == [effect.exchange.value] + rest.exchanges;
        SessionRepliesComeFromChat(next, effect.player, script[1..], chat, j - 1);
        assert r.exchanges[..j] == [effect.exchange.value] + rest.exchanges[..j - 1];
        ReplayFirst(history, effect.exchange.value, rest.exchanges[..j - 1]);
      }
    }
  }

  /** The exchanges are made from the usable transcriptions of the turns begun, in order and
      with none skipped, unless the session crashed. */
  lemma {:induction false} SessionInputsInOrder(
    history: seq<Message>, player: PlayerState, script: seq<TurnScript>, chat: ChatService)
    ensures var r := SessionFrom(history, player, script, chat);
      !r.ending.Crashed? ==> UsableInputs(script[..r.turns]) == UserInputs(r.exchanges)
    decreases |script|
  {
    var r := SessionFrom(history, player, script, chat);
    if script != [] && !r.ending.Crashed? {
      var input := Transcription(script[0].speech);
      var effect := TurnFrom(history, player, script[0], chat);
      TurnOutcomes(history, player, script[0], chat);
      UsableInputsOfPrefix(script, r.turns);
      if effect.stop.Some? {
        SessionStops(history, player, script, chat);
        assert script[1..][..0] == [];
        assert r.exchanges == Recorded(effect);
      } else {
        SessionContinues(history, player, script, chat);
        var next := HistoryAfter(history, effect);
        var rest := SessionFrom(next, effect.player, script[1..], chat);
        SessionInputsInOrder(next, effect.player, script[1..], chat);
        if effect.exchange.Some? {
          assert r.exchanges == [effect.exchange.value] + rest.exchanges;
          assert UserInputs(r.exchanges) == [input.value] + UserInputs(rest.exchanges);
        } else {
          assert r.exchanges == rest.exchanges;
        }
      }
    }
  }

  /** What explains a crash: besides the recorded exchanges, whose inputs are the first of the
      usable transcriptions `asked`, one more transcription was sent, and the chat service
      failed on it, given the history those exchanges had built. */
  ghost predicate CrashExplained(history: seq<Message>, asked: seq<string>, r: SessionRun, chat: ChatService)
  {
    r.ending.Crashed? ==>
      && |asked| == |r.exchanges| + 1
      && asked[..|r.exchanges|] == UserInputs(r.exchanges)
      && chat(Prompt(Replay(history, r.exchanges), asked[|r.exchanges|])) == Failure(r.ending.error)
  }

  /** A session that crashes does so because the chat service failed on the usable
      transcription that follows those of the recorded exchanges. */
  lemma {:induction false} SessionCrashCause(
    history: seq<Message>, player: PlayerState, script: seq<TurnScript>, chat: ChatService)
    ensures var r := SessionFrom(history, player, script, chat);
      CrashExplained(history, UsableInputs(script[..r.turns]), r, chat)
    decreases |script|
  {
    var r := SessionFrom(history, player, script, chat);
    if script != [] && r.ending.Crashed? {
      var effect := TurnFrom(history, player, script[0], chat);
      if effect.stop.Some? {
        TurnOutcomes(history, player, script[0], chat);
        UsableInputsOfPrefix(script, r.turns);
        SessionStops(history, player, script, chat);
        assert script[1..][..0] == [];
        assert r.exchanges == [];
      } else {
        var next := HistoryAfter(history, effect);
        SessionCrashCause(next, effect.player, script[1..], chat);
        CrashExplainedAfterFirstTurn(history, player, script, chat);
      }
    }
  }

  /** The session sends one chat request per usable transcription among the turns it begins,
      the k-th with the history built by the first k exchanges; it ends `Crashed` exactly when
      one of those requests fails. */
  lemma SessionCrashesExactlyWhenChatFails(
    history: seq<Message>, player: PlayerState, script: seq<TurnScript>, chat: ChatService)
    ensures var r := SessionFrom(history, player, script, chat);
      var asked := UsableInputs(script[..r.turns]);
      r.ending.Crashed? <==>
        exists k :: 0 <= k <= |r.exchanges| && k < |asked| && chat(Prompt(Replay(history, r.exchanges[..k]), asked[k])).Failure?
  {
    var r := SessionFrom(history, player, script, chat);
    var asked := UsableInputs(script[..r.turns]);
    SessionCrashCause(history, player, script, chat);
    SessionInputsInOrder(history, player, script, chat);
    if r.ending.Crashed? {
      assert r.exchanges[..|r.exchanges|] == r.exchanges;
    } else {
      forall k | 0 <= k <= |r.exchanges| && k < |asked|
        ensures chat(Prompt(Replay(history, r.exchanges[..k]), asked[k])).Success?
      {
        UserInputsAt(r.exchanges, k);
        SessionRepliesComeFromChat(history, player, script, chat, k);
      }
    }
  }

  /** A crash after a first turn that lets the session go on is explained as the crash of the
      rest of the session. */
  lemma CrashExplainedAfterFirstTurn(history: seq<Message>, player: PlayerState, script: seq<TurnScript>, chat: ChatService)
    requires script != []
    requires TurnFrom(history, player, script[0], chat).stop.None?
    requires var effect := TurnFrom(history, player, script[0], chat);
      var rest := SessionFrom(HistoryAfter(history, effect), effect.player, script[1..], chat);
      CrashExplained(HistoryAfter(history, effect), UsableInputs(script[1..][..rest.turns]), rest, chat)
    ensures var r := SessionFrom(history, player, script, chat);
      CrashExplained(history, UsableInputs(script[..r.turns]), r, chat)
  {
    var r := SessionFrom(history, player, script, chat);
    var effect := TurnFrom(history, player, script[0], chat);
    var rest := SessionFrom(HistoryAfter(history, effect), effect.player, script[1..], chat);
    TurnOutcomes(history, player, script[0], chat);
    SessionContinues(history, player, script, chat);
    UsableInputsOfPrefix(script, r.turns);
    var restAsked := UsableInputs(script[1..][..rest.turns]);
    if effect.exchange.Some? {
      var exchange := effect.exchange.value;
      assert r.exchanges == [exchange] + rest.exchanges;
      assert UsableInputs(script[..r.turns]) == [exchange.userInput] + restAsked;
      CrashExplainedAfterExchange(history, exchange, restAsked, rest, r, chat);
    } else {
      assert r.exchanges == rest.exchanges && HistoryAfter(history, effect) == history;
      assert UsableInputs(script[..r.turns]) == restAsked;
    }
  }

  /** A crash explained after a first exchange is explained from before it. */
  lemma CrashExplainedAfterExchange(
    history: seq<Message>, exchange: Exchange, asked: seq<string>, rest: SessionRun, r: SessionRun, chat: ChatService)
    requires r.ending == rest.ending && r.exchanges == [exchange] + rest.exchanges
    requires CrashExplained(Appended(history, exchange.userInput, exchange.aiResponse), asked, rest, chat)
    ensures CrashExplained(history, [exchange.userInput] + asked, r, chat)
  {
    if r.ending.Crashed? {
      assert UserInputs(r.exchanges) == [exchange.userInput] + UserInputs(rest.exchanges);
      PrefixWithOneMore(exchange.userInput, asked, UserInputs(rest.exchanges));
      ReplayFirst(history, exchange, rest.exchanges);
    }
  }




  /** How a session can end: on `exit` the last turn begun was spoken and answered with
      `exit`, and playback is over; an interrupt comes either when the script has run out or
      while a reply is still playing. */
  lemma {:induction false} SessionEndings(
    history: seq<Message>, player: PlayerState, script: seq<TurnScript>, chat: ChatService)
    ensures var r := SessionFrom(history, player, script, chat);
      && (r.ending == ExitRequested ==>
            && 0 < |r.exchanges|
            && Lower(script[r.turns - 1].answer) == "exit"
            && Transcription(script[r.turns - 1].speech) == Some(r.exchanges[|r.exchanges| - 1].userInput)
            && !r.player.playing)
      && (r.ending == Interrupted ==> r.turns == |script| || r.player.playing)
    decreases |script|
  {
    var r := SessionFrom(history, player, script, chat);
    if script != [] {
      var effect := TurnFrom(history, player, script[0], chat);
      TurnOutcomes(history, player, script[0], chat);
      if effect.stop.Some? {
        SessionStops(history, player, script, chat);
      } else {
        SessionContinues(history, player, script, chat);
        var next := HistoryAfter(history, effect);
        var rest := SessionFrom(next, effect.player, script[1..], chat);
        SessionEndings(next, effect.player, script[1..], chat);
        if r.ending == ExitRequested {
          assert script[1..][rest.turns - 1] == script[r.turns - 1];
          assert r.exchanges[|r.exchanges| - 1] == rest.exchanges[|rest.exchanges| - 1];
        }
      }
    }
  }

  class SpeechInteractionSystem {
    var conversationHistory: seq<Message>
    /** Lines of the session transcript, written to a file when the session ends. */
    var output: seq<string>
    const ttsPlayer: TTSPlayer

    /** The history stays within its bound and holds only user and assistant messages. */
    ghost predicate Valid()
      reads this
    {
      |conversationHistory| <= MaxMessages && NoSystemMessages(conversationHistory)
    }

    constructor ()
      ensures Valid()
      ensures conversationHistory == [] && output == []
      ensures fresh(ttsPlayer) && ttsPlayer.State() == Initial
    {
      conversationHistory := [];
      output := [];
      ttsPlayer := new TTSPlayer();
    }

    /** Records one exchange: the user message, then the assistant message, then the
        oldest messages beyond the bound are dropped. */
    method UpdateConversationHistory(userInput: string, aiResponse: string)
      requires Valid()
      modifies this`conversationHistory
      ensures Valid()
      ensures conversationHistory == Appended(old(conversationHistory), userInput, aiResponse)
    {
      conversationHistory := conversationHistory + [UserMessage(userInput)];
      conversationHistory := conversationHistory + [AssistantMessage(aiResponse)];
      if |conversationHistory| > MaxHistoryLength * 2 {
        conversationHistory := conversationHistory[|conversationHistory| - MaxHistoryLength * 2..];
      }
      AppendedWithinBound(old(conversationHistory), userInput, aiResponse);
      AppendedKeepsNoSystemMessages(old(conversationHistory), userInput, aiResponse);
    }

    /** Builds the message list for `prompt`: the system message, each message of the
        history in turn, then the new user message. */
    method BuildMessages(prompt: string) returns (messages: seq<Message>)
      ensures messages == Prompt(conversationHistory, prompt)
    {
      messages := [SystemMessage];
      for i := 0 to |conversationHistory|
        invariant messages == [SystemMessage] + conversationHistory[..i]
      {
        messages := messages + [conversationHistory[i]];
      }
      assert conversationHistory[..|conversationHistory|] == conversationHistory;
      messages := messages + [UserMessage(prompt)];
    }

    /** Asks the conversational service for a reply to `prompt`. The history is updated only
        after the service has answered; a failure leaves it as it was. */
    method FetchGroqResponse(prompt: string, chat: ChatService) returns (reply: Result<string, ChatError>)
      requires Valid()
      modifies this`conversationHistory, this`output
      ensures Valid()
      ensures output == old(output) + [FetchingLine]
      ensures reply == chat(Prompt(old(conversationHistory), prompt))
      ensures conversationHistory
           == if reply.Success? then Appended(old(conversationHistory), prompt, reply.value)
              else old(conversationHistory)
    {
      output := output + [FetchingLine];
      var messages := BuildMessages(prompt);
      reply := chat(messages);
      if reply.Success? {
        UpdateConversationHistory(prompt, reply.value);
      }
    }

    /** Turns the speech-to-text service's answer into the transcription, or `None` after
        logging the error it raised. */
    method TranscribeAudio(attempt: Result<string, string>) returns (transcription: Option<string>)
      modifies this`output
      ensures transcription == if attempt.Success? then Some(attempt.value) else None
      ensures output == old(output) + if attempt.Success? then [] else ["Transcription error: " + attempt.error]
    {
      if attempt.Success? {
        transcription := Some(attempt.value);
      } else {
        output := output + ["Transcription error: " + attempt.error];
        transcription := None;
      }
    }

    /** One turn of the interactive session, from the speech-to-text answer to the start of
        playback. Without usable input nothing is asked of the chat service, and the history
        and the player are left alone. */
    method RunTurn(attempt: Result<string, string>, chat: ChatService) returns (outcome: TurnOutcome)
      requires Valid()
      modifies this`conversationHistory, this`output, ttsPlayer
      ensures Valid()
      ensures var transcription := if attempt.Success? then Some(attempt.value) else None;
        var logged := old(output) + if attempt.Success? then [] else ["Transcription error: " + attempt.error];
        if !IsUsableInput(transcription) then
          && outcome == Skipped
          && output == logged + [NoInputLine]
          && conversationHistory == old(conversationHistory)
          && ttsPlayer.State() == old(ttsPlayer.State())
        else
          var userInput := transcription.value;
          var reply := chat(Prompt(old(conversationHistory), userInput));
          if reply.Success? then
            && outcome == Spoken(reply.value)
            && output == logged + ["Your input: " + userInput, FetchingLine, "Groq Response: " + reply.value]
            && conversationHistory == Appended(old(conversationHistory), userInput, reply.value)
            && ttsPlayer.State() == AfterPlay(old(ttsPlayer.State()), reply.value)
          else
            && outcome == Aborted(reply.error)
            && output == logged + ["Your input: " + userInput, FetchingLine]
            && conversationHistory == old(conversationHistory)
            && ttsPlayer.State() == old(ttsPlayer.State())
    {
      var userInput := TranscribeAudio(attempt);
      if !IsUsableInput(userInput) {
        output := output + [NoInputLine];
        outcome := Skipped;
        return;
      }
      output := output + ["Your input: " + userInput.value];
      var response := FetchGroqResponse(userInput.value, chat);
      if response.Failure? {
        outcome := Aborted(response.error);
        return;
      }
      output := output + ["Groq Response: " + response.value];
      ttsPlayer.Play(response.value);
      outcome := Spoken(response.value);
    }

    /** One pass of the session loop: a turn, then, when a reply was played, waiting for
        playback to end and reading the operator's answer. */
    method PlayTurn(turn: TurnScript, chat: ChatService) returns (stop: Option<SessionEnd>, exchange: Option<Exchange>)
      requires Valid()
      modifies this`conversationHistory, this`output, ttsPlayer
      ensures Valid()
      ensures var effect := TurnFrom(old(conversationHistory), old(ttsPlayer.State()), turn, chat);
        && stop == effect.stop
        && exchange == effect.exchange
        && output == old(output) + effect.lines
        && ttsPlayer.State() == effect.player
        && conversationHistory == HistoryAfter(old(conversationHistory), effect)
    {
      var outcome := RunTurn(turn.speech, chat);
      stop, exchange := None, None;
      if outcome.Aborted? {
        stop := Some(Crashed(outcome.error));
      } else if outcome.Spoken? {
        exchange := Some(Exchange(turn.speech.value, outcome.response));
        var _ := ttsPlayer.Drive(turn.playback);
        if ttsPlayer.playing {
          stop := Some(Interrupted);
        } else if Lower(turn.answer) == "exit" {
          stop := Some(ExitRequested);
        }
      }
    }

    /** The interactive session: turns follow one another until the operator types `exit`,
        an exchange fails, or the operator interrupts. The script holds what happens before
        the interrupt: when it runs out, or a reply is still playing when its events run out,
        the session is interrupted. Every ending stops the player and hands back the
        transcript. The ending, the exchanges recorded in the history, the transcript and the
        player's state are those of `SessionFrom`. */
    method InteractiveSession(script: seq<TurnScript>, chat: ChatService)
      returns (ending: SessionEnd, exchanges: seq<Exchange>, lines: seq<string>)
      requires Valid()
      modifies this`conversationHistory, this`output, ttsPlayer
      ensures Valid()
      ensures var run := SessionFrom(old(conversationHistory), old(ttsPlayer.State()), script, chat);
        && ending == run.ending
        && exchanges == run.exchanges
        && output == old(output) + run.transcript + (if ending == Interrupted then [TerminatedLine] else [])
        && ttsPlayer.State() == AfterStop(run.player)
      ensures conversationHistory == Replay(old(conversationHistory), exchanges)
      ensures lines == output
      ensures ending == Interrupted ==> |lines| > 0 && lines[|lines| - 1] == TerminatedLine
      ensures ttsPlayer.stopSignal
    {
      ending, exchanges := RunTurns(script, chat);
      lines := Close(ending == Interrupted);
    }

    /** The loop of the session, up to its cleanup: one turn after another until a turn
        stops the session or the script runs out. */
    method RunTurns(script: seq<TurnScript>, chat: ChatService) returns (ending: SessionEnd, exchanges: seq<Exchange>)
      requires Valid()
      modifies this`conversationHistory, this`output, ttsPlayer
      ensures Valid()
      ensures var run := SessionFrom(old(conversationHistory), old(ttsPlayer.State()), script, chat);
        && ending == run.ending
        && exchanges == run.exchanges
        && output == old(output) + run.transcript
        && ttsPlayer.State() == run.player
      ensures conversationHistory == Replay(old(conversationHistory), exchanges)
    {
      ghost var whole := SessionFrom(conversationHistory, ttsPlayer.State(), script, chat);
      ghost var startHistory, startOutput := conversationHistory, output;
      ghost var logged: seq<string> := [];
      exchanges := [];
      ending := Interrupted;
      var i := 0;
      while i < |script|
        invariant i <= |script|
        invariant Valid()
        invariant conversationHistory == Replay(startHistory, exchanges)
        invariant output == startOutput + logged
        invariant var rest := SessionFrom(conversationHistory, ttsPlayer.State(), script[i..], chat);
          whole == SessionRun(rest.ending, exchanges + rest.exchanges, i + rest.turns, logged + rest.transcript, rest.player)
      {
        var stop;
        stop, exchanges, logged := TakeTurn(script, i, chat, whole, startHistory, exchanges, startOutput, logged);
        i := i + 1;
        if stop.Some? {
          ending := stop.value;
          break;
        }
      }
      if i == |script| && ending == Interrupted {
        assert script[i..] == [];
      }
    }

    /** Turn i of the session's loop. Before it, the first i turns have recorded `exchanges`
        after `startHistory` and printed `logged` after `startOutput`, and `whole` is the
        session's run; after it, either the turn has stopped the session, and `whole` ends
        here, or the rest of the script still accounts for the rest of `whole`. */
    method TakeTurn(
      script: seq<TurnScript>, i: nat, chat: ChatService, ghost whole: SessionRun,
      ghost startHistory: seq<Message>, exchanges: seq<Exchange>,
      ghost startOutput: seq<string>, ghost logged: seq<string>)
      returns (stop: Option<SessionEnd>, exchanges': seq<Exchange>, ghost logged': seq<string>)
      requires Valid()
      requires i < |script|
      requires conversationHistory == Replay(startHistory, exchanges)
      requires output == startOutput + logged
      requires var rest := SessionFrom(conversationHistory, ttsPlayer.State(), script[i..], chat);
        whole == SessionRun(rest.ending, exchanges + rest.exchanges, i + rest.turns, logged + rest.transcript, rest.player)
      modifies this`conversationHistory, this`output, ttsPlayer
      ensures Valid()
      ensures conversationHistory == Replay(startHistory, exchanges')
      ensures output == startOutput + logged'
      ensures stop.Some? ==> whole == SessionRun(stop.value, exchanges', i + 1, logged', ttsPlayer.State())
      ensures stop.None? ==>
        var rest := SessionFrom(conversationHistory, ttsPlayer.State(), script[i + 1..], chat);
        whole == SessionRun(rest.ending, exchanges' + rest.exchanges, i + 1 + rest.turns, logged' + rest.transcript, rest.player)
    {
      ghost var history, player := conversationHistory, ttsPlayer.State();
      ghost var effect := TurnFrom(history, player, script[i], chat);
      var exchange;
      stop, exchange := PlayTurn(script[i], chat);
      logged' := logged + effect.lines;
      ConcatAssociates(startOutput, logged, effect.lines);
      exchanges' := exchanges;
      if exchange.Some? {
        ReplayThenAppend(startHistory, exchanges, exchange.value);
        exchanges' := exchanges + [exchange.value];
      }
      SessionResumes(whole, exchanges, i, logged, history, player, script, chat,
                     exchanges', logged', conversationHistory, ttsPlayer.State());
    }

    /** The cleanup that ends every session: note an operator interrupt, stop the player, and
        hand back the transcript lines to be saved. */
    method Close(interrupted: bool) returns (lines: seq<string>)
      modifies this`output, ttsPlayer
      ensures output == old(output) + if interrupted then [TerminatedLine] else []
      ensures lines == output
      ensures ttsPlayer.State() == AfterStop(old(ttsPlayer.State()))
      ensures conversationHistory == old(conversationHistory)
    {
      if interrupted {
        output := output + [TerminatedLine];
      }
      ttsPlayer.Stop();
      lines := output;
    }
  }
}
