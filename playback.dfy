/**
 * The text-to-speech player of sonia.py (class TTSPlayer): three flags, `playing`, `paused`
 * and `stop_signal`, changed by `play`, `stop`, `toggle_pause` and by the playback loop.
 * The speech stream is a foreign library; the model keeps only the answers of its
 * `is_playing()` query and a log of the calls the player makes on it.
 */
module Playback {

  /** A call the player makes on the speech stream. `Feed` stands for `feed([text]).play_async()`. */
  datatype StreamCall = Feed(text: string) | Pause | Resume | Stop

  /** The player's flags, and the calls issued on the stream so far. */
  datatype PlayerState = PlayerState(playing: bool, paused: bool, stopSignal: bool, calls: seq<StreamCall>)

  /** What can happen while playback is active: the playback loop polls the stream (which
      answers whether it is still playing), the operator presses the pause key or the quit
      key, or a stream call raises. */
  datatype Event = Poll(streamPlaying: bool) | TogglePress | QuitPress | StreamFailure

  /** A fresh player: nothing playing, not paused, the stop event clear. */
  const Initial: PlayerState := PlayerState(false, false, false, [])

  /** `play(text)`: mark playing, clear the stop event and the pause flag, and start the
      playback thread, whose first act is to feed the text to the stream. */
  function AfterPlay(s: PlayerState, text: string): PlayerState
  {
    s.(playing := true, stopSignal := false, paused := false, calls := s.calls + [Feed(text)])
  }

  /** `stop()`: set the stop event. */
  function AfterStop(s: PlayerState): PlayerState
  {
    s.(stopSignal := true)
  }

  /** `toggle_pause()`: flip the pause flag. */
  function AfterToggle(s: PlayerState): PlayerState
  {
    s.(paused := !s.paused)
  }

  /** One pass of the playback loop: when the stop event is set or the stream has finished,
      stop the stream and leave the loop, clearing `playing`; otherwise pause or resume the
      stream according to the pause flag. */
  function AfterStep(s: PlayerState, streamPlaying: bool): PlayerState
  {
    if s.stopSignal || !streamPlaying then s.(playing := false, calls := s.calls + [Stop])
    else s.(calls := s.calls + [if s.paused then Pause else Resume])
  }

  /** A stream call raised: the error is caught and `finally` clears `playing`. */
  function AfterFailure(s: PlayerState): PlayerState
  {
    s.(playing := false)
  }

  function AfterEvent(s: PlayerState, e: Event): PlayerState
  {
    match e
    case Poll(streamPlaying) => AfterStep(s, streamPlaying)
    case TogglePress => AfterToggle(s)
    case QuitPress => AfterStop(s)
    case StreamFailure => AfterFailure(s)
  }

  /** The events take effect in order for as long as playback is active; both the playback
      thread and the key-listening thread end once `playing` is clear. */
  function Run(s: PlayerState, events: seq<Event>): PlayerState
    decreases |events|
  {
    if events == [] || !s.playing then s else Run(AfterEvent(s, events[0]), events[1..])
  }

  // ---------------------------------------------------------------------------
  // Properties of single transitions

  /** `play` starts playing, unpaused, with the stop event clear, and feeds the text. */
  lemma PlayStartsFresh(s: PlayerState, text: string)
    ensures var t := AfterPlay(s, text);
      t.playing && !t.paused && !t.stopSignal && t.calls == s.calls + [Feed(text)]
  {
  }

  /** `stop` sets the stop event and changes nothing else. */
  lemma StopOnlySetsSignal(s: PlayerState)
    ensures AfterStop(s).stopSignal
    ensures AfterStop(s).playing == s.playing && AfterStop(s).paused == s.paused
    ensures AfterStop(s).calls == s.calls
  {
  }

  /** `toggle_pause` negates the pause flag, leaves the rest alone, and undoes itself. */
  lemma ToggleIsInvolution(s: PlayerState)
    ensures AfterToggle(s).paused == !s.paused
    ensures AfterToggle(s).playing == s.playing && AfterToggle(s).stopSignal == s.stopSignal
    ensures AfterToggle(s).calls == s.calls
    ensures AfterToggle(AfterToggle(s)) == s
  {
  }

  /** A loop pass leaves the loop, clearing `playing` and stopping the stream, exactly when the
      stop event is set or the stream is done; otherwise it issues pause when paused and resume
      when not, and playback goes on. The flags other than `playing` never change. */
  lemma StepExitsExactlyWhenSignalledOrDone(s: PlayerState, streamPlaying: bool)
    requires s.playing
    ensures var t := AfterStep(s, streamPlaying);
      && t.paused == s.paused && t.stopSignal == s.stopSignal
      && (!t.playing <==> s.stopSignal || !streamPlaying)
      && t.calls == s.calls + [if !t.playing then Stop else if s.paused then Pause else Resume]
  {
  }

  // ---------------------------------------------------------------------------
  // Properties of whole runs

  /** Running two batches of events one after the other is running them together. */
  lemma {:induction false} RunAppend(s: PlayerState, first: seq<Event>, second: seq<Event>)
    ensures Run(s, first + second) == Run(Run(s, first), second)
    decreases |first|
  {
    if first == [] {
      assert first + second == second;
    } else if s.playing {
      assert (first + second)[0] == first[0];
      assert (first + second)[1..] == first[1..] + second;
      RunAppend(AfterEvent(s, first[0]), first[1..], second);
    }
  }

  /** The log of stream calls only grows. */
  lemma {:induction false} RunExtendsCalls(s: PlayerState, events: seq<Event>)
    ensures |s.calls| <= |Run(s, events).calls|
    ensures Run(s, events).calls[..|s.calls|] == s.calls
    decreases |events|
  {
    if events != [] && s.playing {
      var t := AfterEvent(s, events[0]);
      RunExtendsCalls(t, events[1..]);
      assert t.calls[..|s.calls|] == s.calls;
    }
  }

  /** Once the stop event is set, playback ends at the next poll of the stream. */
  lemma {:induction false} SignalledPlaybackEndsAtPoll(s: PlayerState, events: seq<Event>, k: nat)
    requires s.stopSignal
    requires k < |events| && events[k].Poll?
    ensures !Run(s, events[..k + 1]).playing
    ensures !Run(s, events).playing
    decreases k
  {
    if s.playing {
      var t := AfterEvent(s, events[0]);
      if k == 0 {
        assert !t.playing;
      } else {
        assert t.stopSignal;
        SignalledPlaybackEndsAtPoll(t, events[1..], k - 1);
        assert events[1..][..k] == events[..k + 1][1..];
      }
    }
  }

  /** Pressing the quit key ends playback no later than the first poll after it, whatever
      happened before or happens in between. */
  lemma QuitEndsPlaybackAtNextPoll(s: PlayerState, before: seq<Event>, after: seq<Event>, k: nat)
    requires k < |after| && after[k].Poll?
    ensures !Run(s, before + [QuitPress] + after[..k + 1]).playing
  {
    RunAppend(s, before + [QuitPress], after[..k + 1]);
    RunAppend(s, before, [QuitPress]);
    var m := Run(s, before + [QuitPress]);
    if m.playing {
      assert m.stopSignal;
      assert after[..k + 1][..k + 1] == after[..k + 1];
      SignalledPlaybackEndsAtPoll(m, after[..k + 1], k);
    }
  }

  /** While the stream keeps playing and nothing stops or breaks it, playback stays active and
      every poll issues exactly one call on the stream, a pause or a resume. */
  lemma {:induction false} UninterruptedPlaybackContinues(s: PlayerState, events: seq<Event>)
    requires s.playing && !s.stopSignal
    requires forall i :: 0 <= i < |events| ==> events[i] == Poll(true) || events[i] == TogglePress
    ensures Run(s, events).playing && !Run(s, events).stopSignal
    ensures |Run(s, events).calls| == |s.calls| + Polls(events)
    ensures forall i :: |s.calls| <= i < |Run(s, events).calls| ==> Run(s, events).calls[i] in {Pause, Resume}
    decreases |events|
  {
    if events != [] {
      var t := AfterEvent(s, events[0]);
      UninterruptedPlaybackContinues(t, events[1..]);
      RunExtendsCalls(t, events[1..]);
      var r := Run(s, events);
      forall i | |s.calls| <= i < |r.calls|
        ensures r.calls[i] in {Pause, Resume}
      {
        if i < |t.calls| {
          assert r.calls[i] == r.calls[..|t.calls|][i];
        }
      }
    }
  }

  /** The number of polls among the events. */
  function Polls(events: seq<Event>): nat
  {
    if events == [] then 0 else (if events[0].Poll? then 1 else 0) + Polls(events[1..])
  }

  /** When active playback ends, either a stream error was handled while playback was still
      active, or the stream was stopped: the last call issued is then the stop call. */
  lemma {:induction false} PlaybackEndsWithStopOrFailure(s: PlayerState, events: seq<Event>)
    requires s.playing
    ensures var t := Run(s, events);
      !t.playing ==>
        || (exists j :: 0 <= j < |events| && events[j] == StreamFailure && Run(s, events[..j]).playing)
        || (|t.calls| > 0 && t.calls[|t.calls| - 1] == Stop)
    decreases |events|
  {
    if events != [] {
      var t := AfterEvent(s, events[0]);
      assert events[..0] == [] && Run(s, events[..0]) == s;
      if t.playing {
        PlaybackEndsWithStopOrFailure(t, events[1..]);
        var r := Run(t, events[1..]);
        assert r == Run(s, events);
        if !r.playing && !(|r.calls| > 0 && r.calls[|r.calls| - 1] == Stop) {
          var j :| 0 <= j < |events[1..]| && events[1..][j] == StreamFailure && Run(t, events[1..][..j]).playing;
          assert events[..j + 1][0] == events[0] && events[..j + 1][1..] == events[1..][..j];
          assert Run(s, events[..j + 1]).playing;
          assert events[j + 1] == StreamFailure;
        }
      } else {
        assert Run(t, events[1..]) == t;
      }
    }
  }

  // ---------------------------------------------------------------------------
  // The player object

  class TTSPlayer {
    var playing: bool
    var paused: bool
    var stopSignal: bool
    /** The calls issued on the speech stream, oldest first. */
    var calls: seq<StreamCall>

    function State(): PlayerState
      reads this
    {
      PlayerState(playing, paused, stopSignal, calls)
    }

    constructor ()
      ensures State() == Initial
    {
      playing := false;
      paused := false;
      stopSignal := false;
      calls := [];
    }

    method Play(text: string)
      modifies this
      ensures State() == AfterPlay(old(State()), text)
    {
      playing := true;
      stopSignal := false;
      paused := false;
      calls := calls + [Feed(text)];
    }

    method Stop()
      modifies this
      ensures State() == AfterStop(old(State()))
    {
      stopSignal := true;
    }

    method TogglePause()
      modifies this
      ensures State() == AfterToggle(old(State()))
    {
      paused := !paused;
    }

    /** One pass of the playback loop; `exited` tells whether the loop was left. */
    method PlaybackStep(streamPlaying: bool) returns (exited: bool)
      modifies this
      ensures exited <==> old(stopSignal) || !streamPlaying
      ensures State() == AfterStep(old(State()), streamPlaying)
    {
      exited := stopSignal || !streamPlaying;
      if exited {
        calls := calls + [StreamCall.Stop];
        playing := false;
      } else if paused {
        calls := calls + [Pause];
      } else {
        calls := calls + [Resume];
      }
    }

    /** The `except`/`finally` path of the playback thread. */
    method OnStreamError()
      modifies this
      ensures State() == AfterFailure(old(State()))
    {
      playing := false;
    }

    /** Plays out the events in order while playback is active; `handled` counts those that
        took effect. */
    method Drive(events: seq<Event>) returns (handled: nat)
      modifies this
      ensures handled <= |events|
      ensures State() == Run(old(State()), events)
      ensures handled < |events| ==> !playing
    {
      handled := 0;
      while handled < |events| && playing
        invariant handled <= |events|
        invariant Run(old(State()), events) == Run(State(), events[handled..])
        decreases |events| - handled
      {
        var before := State();
        match events[handled] {
          case Poll(streamPlaying) =>
            var _ := PlaybackStep(streamPlaying);
          case TogglePress =>
            TogglePause();
          case QuitPress =>
            Stop();
          case StreamFailure =>
            OnStreamError();
        }
        assert State() == AfterEvent(before, events[handled]);
        assert events[handled..][1..] == events[handled + 1..];
        handled := handled + 1;
      }
    }
  }
}
