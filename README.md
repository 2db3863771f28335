# SONIA session core in Dafny

SONIA (`sonia.py`) is a spoken-conversation loop: it records the operator, transcribes the
recording, sends the text with the conversation so far to a chat service and speaks the reply,
letting the operator pause, resume or quit playback from the keyboard. This project models the
sequential core of that loop and proves its properties:

- `Conversation` (conversation.dfy): role-tagged messages, the prompt sent to the chat service
  (the fixed system message, the history in order, the new user message) and the bounded
  history: each exchange appends a user and an assistant message, then only the last
  `2 * MAX_HISTORY_LENGTH` = 2000 messages are kept. Lemmas prove the bound, the exact new
  length, FIFO eviction with order kept, and that replaying N exchanges keeps exactly the most
  recent `min(2N, 2000)` messages of the whole conversation.
- `Playback` (playback.dfy): the `TTSPlayer` class with its three flags `playing`, `paused` and
  `stop_signal`, the playback loop as a `PlaybackStep` method, and a log of the calls made on the
  speech stream. The stream's `is_playing()` answer is an input. The playback thread and the
  key-listening thread are modelled as one interleaved sequence of events (a poll of the stream,
  a pause-key press, a quit-key press, a stream error), handled by `Drive` while `playing` holds.
  Lemmas prove that quitting ends playback at the next poll, that every normal exit stops the
  stream, and that toggling twice changes nothing.
- `Session` (session.dfy): the `SpeechInteractionSystem` class with its history, its transcript
  of output lines and its player. It covers `update_conversation_history`, the message-list
  construction of `fetch_groq_response`, one turn of `interactive_session` (including the rule
  that skips a turn whose transcription is `None` or empty), the whole session loop and its
  `finally` cleanup. The speech-to-text service and the chat service are fallible oracles: a
  `Result` value and a function parameter.
- `Wrappers` (wrappers.dfy): `Option` and `Result`.

Notes on the code's behaviour:
- The code does not catch a failure of the chat call. The exception leaves `interactive_session`
  after its `finally` block has run, so a failed exchange ends the session (`Crashed`). It is not
  a recoverable per-turn error. The history is left unchanged, because the update comes after
  the call.
- The player has only the three boolean flags. There is no Idle/Paused/Stopping/Stopped enum.
- A transcription that is only whitespace is truthy in Python, so it is not skipped.

## Model

| member | source | states |
|---|---|---|
| Conversation.PromptLayout | sonia.py:140-158 | the prompt has the history's length plus two; it opens with the system message, holds every history message in order at the next positions, and ends with the new user message |
| Conversation.PromptHasOneSystemMessage | sonia.py:140-158 | when the history holds no system message, position i of the prompt has the system role exactly when i is 0 |
| Conversation.TrimmedIsRecentSuffix | sonia.py:199-202 | trimming keeps min(length, 2000) messages, and they are the last ones of the list in order |
| Conversation.AppendedWithinBound | sonia.py:199-202 | after any update the history holds at most 2 * MAX_HISTORY_LENGTH messages |
| Conversation.AppendedLength | sonia.py:187-202 | from a history within the bound, the new length is min(old length + 2, 2000) |
| Conversation.AppendedEvictsOldestFirst | sonia.py:187-202 | the new history is the old one minus its d oldest messages, followed by user(input) and then assistant(response); d > 0 exactly when old length + 2 exceeds the bound |
| Conversation.AppendedEndsWithExchange | sonia.py:187-197 | the last two messages are the user message with the input and then the assistant message with the response |
| Conversation.AppendedKeepsNoSystemMessages | sonia.py:187-197 | an update only adds user and assistant messages, so no system message enters the history |
| Conversation.ReplayThenAppend | sonia.py:179-202 | recording one more exchange after a sequence of them equals replaying the longer sequence |
| Conversation.TrimmedAbsorbs | sonia.py:200-202 | trimming an intermediate history and then trimming after more messages gives the same result as trimming once at the end |
| Conversation.ReplayKeepsMostRecent | sonia.py:179-202 | from a history within the bound, recording exchanges one by one leaves exactly the most recent messages of the history followed by all their messages, cut to the bound |
| Conversation.ConversationLength | sonia.py:179-202 | from the empty history (line 25), N exchanges leave min(2N, 2000) messages, which are the last ones of the full transcript in order |
| Playback.PlayStartsFresh | sonia.py:295-301 | play sets playing, clears paused and the stop event, and feeds the text to the stream |
| Playback.StopOnlySetsSignal | sonia.py:318-320 | stop sets the stop event and changes no other flag and no stream call |
| Playback.ToggleIsInvolution | sonia.py:322-324 | toggle_pause negates paused, leaves the rest alone, and applied twice is the identity |
| Playback.StepExitsExactlyWhenSignalledOrDone | sonia.py:302-313 | a loop pass clears playing and stops the stream exactly when the stop event is set or the stream is done; otherwise it pauses when paused and resumes when not; paused and the stop event are unchanged |
| Playback.SignalledPlaybackEndsAtPoll | sonia.py:302-313 | once the stop event is set, playback is over by the first poll of the stream and stays over |
| Playback.QuitEndsPlaybackAtNextPoll | sonia.py:302-320 | after the quit key calls stop, playback is over no later than the next poll, whatever events came before or between |
| Playback.UninterruptedPlaybackContinues | sonia.py:302-308 | while the stream keeps playing and nothing stops or breaks it, playback stays active, the stop event stays clear, and each poll issues exactly one pause or resume call |
| Playback.PlaybackEndsWithStopOrFailure | sonia.py:302-313 | when active playback ends, either a stream error was handled while playback was still active, or the last call issued on the stream is stop |
| Playback.TTSPlayer.constructor | sonia.py:276-286 | a new player is not playing, not paused, with the stop event clear and no stream calls |
| Playback.TTSPlayer.Play | sonia.py:288-301 | the new state is the old one after play |
| Playback.TTSPlayer.Stop | sonia.py:318-320 | the new state is the old one with the stop event set |
| Playback.TTSPlayer.TogglePause | sonia.py:322-324 | the new state is the old one with paused negated |
| Playback.TTSPlayer.PlaybackStep | sonia.py:302-309 | reports an exit exactly when the stop event was set or the stream was done; the new state is the old one after one loop pass |
| Playback.TTSPlayer.OnStreamError | sonia.py:310-313 | a stream error clears playing and changes nothing else |
| Playback.TTSPlayer.Drive | sonia.py:299-313 | the events take effect in order while playing holds; the new state is the run of the events from the old one; unhandled events remain only once playback is over |
| Session.SpeechInteractionSystem.constructor | sonia.py:13-29 | the history and the transcript start empty, the history invariant holds, and the player is new and idle |
| Session.SpeechInteractionSystem.UpdateConversationHistory | sonia.py:179-202 | the new history is the old one with the exchange appended and trimmed to the bound; the bound and the absence of system messages are preserved |
| Session.SpeechInteractionSystem.BuildMessages | sonia.py:139-158 | the message list built by the loop is the system message, the history in order, and the user's prompt |
| Session.SpeechInteractionSystem.FetchGroqResponse | sonia.py:126-177 | the chat service receives the prompt built from the history before the call; the history is updated with the exchange only when the call succeeds and is unchanged otherwise; one progress line is logged |
| Session.SpeechInteractionSystem.TranscribeAudio | sonia.py:102-124 | a successful transcription is returned; a failed one logs its error and gives None |
| Session.SpeechInteractionSystem.RunTurn | sonia.py:211-231 | with a None or empty transcription the turn is skipped: the chat service is not consulted, the history and the player are unchanged, and only the no-input line is logged; otherwise a successful reply is recorded in the history, logged and played, and a failed one leaves history and player unchanged |
| Session.TurnOutcomes | sonia.py:212-256 | a turn without usable input neither records, stops nor plays; a recorded exchange pairs the usable transcription with the chat service's successful reply to the prompt from the current history; a crash comes only from a usable transcription on which the chat service failed, and records nothing; exit is requested only after an exchange, when the answer lower-cased is `exit` and playback is over; an interrupt comes only after an exchange whose reply is still playing; a usable turn that goes on has recorded its exchange and finished playing |
| Session.SessionFrom | sonia.py:210-256 | a session begins no more turns than the script holds and records at most one exchange per turn begun |
| Session.SessionRepliesComeFromChat | sonia.py:222-228 | the j-th recorded reply is the chat service's successful answer to the j-th recorded input, prompted with the history that the first j exchanges built |
| Session.SessionInputsInOrder | sonia.py:212-228 | unless the session crashed, the recorded inputs are exactly the usable transcriptions of the turns it began, in order, none skipped |
| Session.SessionCrashCause | sonia.py:222-228 | in a crashed session, one usable transcription follows those of the recorded exchanges, and the chat service failed on it, given the history those exchanges built |
| Session.SessionCrashesExactlyWhenChatFails | sonia.py:222-228 | the session ends crashed if and only if one of its chat requests, the k-th sent with the history built by the first k exchanges, fails |
| Session.SessionEndings | sonia.py:250-258 | exit is requested only after at least one exchange, when the last turn's answer lower-cased is `exit`, that turn's transcription is the last recorded input, and playback is over; an interrupt happens only when the script ran out or a reply is still playing |
| Session.SpeechInteractionSystem.PlayTurn | sonia.py:212-256 | one pass of the loop body does exactly what `TurnFrom` says: the stop and the exchange it reports, the lines it logs, the player's new state and the new history |
| Session.SpeechInteractionSystem.RunTurns | sonia.py:210-256 | the loop's ending, recorded exchanges, logged lines and player state are those of `SessionFrom` from the state before it; the history is the replay of those exchanges |
| Session.SpeechInteractionSystem.InteractiveSession | sonia.py:204-271 | the ending, the recorded exchanges and the logged lines are those of `SessionFrom`, plus the termination line exactly when interrupted; the player ends in `SessionFrom`'s state, stopped; the history is the replay of the exchanges and stays within the bound |
| Session.SpeechInteractionSystem.Close | sonia.py:258-271 | cleanup logs the termination line only on an interrupt, stops the player, leaves the history alone and returns the whole transcript |

## Left out

- Audio capture (`record_audio`, sonia.py:38-100): the microphone, the wall clock, the keyboard thread and the WAV file are I/O. Its "Saved audio to ..." transcript line is not modelled either.
- The speech-to-text and chat network calls: they are oracles. Transcription is a `Result<string, string>` input, and the chat service is a function from the message list to a reply or an error. The model, temperature, token limit and top-p arguments are not modelled. The chat service is one pure function for the whole session, so identical prompts get identical replies, whereas the source samples with temperature 0.8 (sonia.py:165); no contract relies on this.
- The speech engine (`EdgeEngine`, `TextToAudioStream`): only its `is_playing()` answers and a log of feed, pause, resume and stop calls are kept. `feed([text]).play_async()` is logged as one `Feed` call.
- Threads, `time.sleep` polling, the 0.5 s debounce and the busy-wait on `playing`: concurrency and timing are not modelled. The two threads that act during playback become one interleaved event sequence. A key press handled after quit can still flip `paused`; this has no effect, since the loop exits at its next poll.
- Console `print`, the continue prompt `input(...)` and writing the transcript file with a timestamped name. The continue answer is part of the script, and `Close` returns the lines to be written.
- Lower: lower-cases ASCII letters only, where Python's `str.lower` also folds other Unicode letters.
- InteractiveSession: a finite script stands for the operator's input. The session counts as interrupted when the script runs out, or when a reply is still playing after its turn's events. Exceptions from audio capture or from the speech engine outside the playback thread are not modelled.
