/**
 * The audio message cell: the state it shows, the visibility pattern its
 * `state` observer applies to the play button, pause button, progress bar and
 * timer label, the repeating progress timer it schedules and invalidates, the
 * URL it captures from its message, and what reuse resets.
 */
module AudioMessageCells {
  import opened Foundation

  datatype State = Playing | Paused | Stopped

  /** The `isHidden` flags of the cell's four playback subviews. */
  datatype Visibility = Visibility(
    playButtonHidden: bool,
    pauseButtonHidden: bool,
    progressHidden: bool,
    timerLabelHidden: bool)

  /**
   * What `playingStateView`, `pauseStateView` and `stopStateView` show: one
   * button at a time, the pause button only while playing, and the progress
   * bar and timer label except when stopped.
   */
  function StateView(s: State): (v: Visibility)
    ensures v.playButtonHidden != v.pauseButtonHidden
    ensures !v.pauseButtonHidden <==> s == Playing
    ensures v.progressHidden <==> s == Stopped
    ensures v.timerLabelHidden == v.progressHidden
  {
    match s
    case Playing => Visibility(true, false, false, false)
    case Paused => Visibility(false, true, false, false)
    case Stopped => Visibility(false, true, true, true)
  }

  /** The interval, in seconds, of the timer that refreshes the progress display. */
  const ProgressInterval: real := 0.1

  /** A scheduled timer; `serial` tells apart the timers one cell has scheduled. */
  datatype Timer = Timer(serial: nat, interval: real, repeats: bool)

  /**
   * The cell's timer bookkeeping: the handle held in its `timer` property,
   * the timers scheduled for this cell that the run loop still fires (not
   * invalidated), and how many timers the cell has scheduled so far.
   */
  datatype TimerBook = TimerBook(timer: Option<Timer>, live: set<Timer>, scheduled: nat)

  /** Serials are handed out in order: every timer the book knows was scheduled before. */
  ghost predicate WellFormed(b: TimerBook)
  {
    && (forall t | t in b.live :: t.serial < b.scheduled)
    && (b.timer.Some? ==> b.timer.value.serial < b.scheduled)
  }

  /**
   * The timers after the `state` observer ran for `s`: entering `playing`
   * schedules a new repeating timer and stores it in `timer` WITHOUT
   * invalidating the one held before; `paused` and `stopped` invalidate the
   * held timer and keep the handle.
   */
  function TimersAfter(b: TimerBook, s: State): (r: TimerBook)
    ensures s == Playing ==>
      && r.timer.Some? && r.timer.value in r.live
      && r.timer.value.interval == ProgressInterval && r.timer.value.repeats
      && r.live == b.live + {r.timer.value} && r.scheduled == b.scheduled + 1
    ensures s == Playing && WellFormed(b) ==> r.timer.value !in b.live && r.timer != b.timer
    ensures s != Playing ==>
      && r.timer == b.timer && r.scheduled == b.scheduled
      && r.live <= b.live && (r.timer.Some? ==> r.timer.value !in r.live)
      && (forall t | t in b.live && Some(t) != b.timer :: t in r.live)
    ensures WellFormed(b) ==> WellFormed(r)
  {
    if s == Playing then
      var t := Timer(b.scheduled, ProgressInterval, true);
      TimerBook(Some(t), b.live + {t}, b.scheduled + 1)
    else
      TimerBook(b.timer, if b.timer.Some? then b.live - {b.timer.value} else b.live, b.scheduled)
  }

  /** The timers after the observer ran for each state of `states` in turn. */
  function TimersAfterAll(b: TimerBook, states: seq<State>): (r: TimerBook)
    decreases |states|
  {
    if states == [] then b else TimersAfterAll(TimersAfter(b, states[0]), states[1..])
  }

  /** The timers are tidy for state `s`: exactly the held timer runs while playing, none otherwise. */
  ghost predicate Tidy(b: TimerBook, s: State)
  {
    if s == Playing then b.timer.Some? && b.live == {b.timer.value} else b.live == {}
  }

  /** `states` never enters `playing` twice in a row, counting `prev` as the state before them. */
  ghost predicate NoRepeatedPlaying(prev: State, states: seq<State>)
  {
    && (|states| > 0 && states[0] == Playing ==> prev != Playing)
    && (forall i | 0 < i < |states| && states[i] == Playing :: states[i - 1] != Playing)
  }

  function LastState(prev: State, states: seq<State>): (r: State)
  {
    if states == [] then prev else states[|states| - 1]
  }

  /**
   * As long as `playing` is never set twice in a row, the observer keeps the
   * timers tidy: one running timer while playing, none otherwise.
   */
  lemma {:induction false} TidyWithoutRepeatedPlaying(b: TimerBook, prev: State, states: seq<State>)
    requires WellFormed(b) && Tidy(b, prev)
    requires NoRepeatedPlaying(prev, states)
    ensures Tidy(TimersAfterAll(b, states), LastState(prev, states))
    decreases |states|
  {
    if states != [] {
      var b' := TimersAfter(b, states[0]);
      assert Tidy(b', states[0]) by {
        if states[0] == Playing {
          assert prev != Playing;
          var t := Timer(b.scheduled, ProgressInterval, true);
          assert b'.live == {} + {t};
        }
      }
      assert NoRepeatedPlaying(states[0], states[1..]) by {
        forall i | 0 < i < |states[1..]| && states[1..][i] == Playing
          ensures states[1..][i - 1] != Playing
        {
          assert states[i + 1] == Playing;
        }
        if |states| > 1 && states[1] == Playing {
          assert states[1 - 1] != Playing;
        }
      }
      TidyWithoutRepeatedPlaying(b', states[0], states[1..]);
      assert LastState(states[0], states[1..]) == LastState(prev, states);
    }
  }

  /**
   * A timer whose handle has been overwritten is never invalidated again:
   * whatever states follow, the run loop keeps firing it.
   */
  lemma {:induction false} OverwrittenTimerKeepsRunning(b: TimerBook, t: Timer, states: seq<State>)
    requires WellFormed(b) && t in b.live && b.timer != Some(t)
    ensures t in TimersAfterAll(b, states).live
    decreases |states|
  {
    if states != [] {
      var b' := TimersAfter(b, states[0]);
      assert b'.timer != Some(t) by {
        if states[0] == Playing {
          assert t.serial < b.scheduled;
        }
      }
      OverwrittenTimerKeepsRunning(b', t, states[1..]);
    }
  }

  /** Entering `playing` twice in a row leaves the first timer running for good. */
  lemma RepeatedPlayingLeaksTimer(b: TimerBook, states: seq<State>)
    requires WellFormed(b)
    ensures var first := TimersAfter(b, Playing);
      first.timer.value in TimersAfterAll(TimersAfter(first, Playing), states).live
  {
    var first := TimersAfter(b, Playing);
    var second := TimersAfter(first, Playing);
    assert second.timer != first.timer;
    OverwrittenTimerKeepsRunning(second, first.timer.value, states);
  }

  /** The data a message carries, as far as the cell looks at it. */
  datatype MessageData =
    | Text(text: string)
    | Emoji(text: string)
    | Photo
    | Video
    | Location
    | Audio(url: Url)

  class AudioMessageCell {
    var url: Option<Url>
    var state: State
    var timer: Option<Timer>
    /** Timers scheduled by this cell that the run loop still fires. */
    var liveTimers: set<Timer>
    var timersScheduled: nat
    var playButtonHidden: bool
    var pauseButtonHidden: bool
    var progressHidden: bool
    var timerLabelHidden: bool
    /** The weak `audioDelegate`: the handler that taps are forwarded to, if any. */
    var audioDelegate: object?

    function View(): (v: Visibility)
      reads this
    {
      Visibility(playButtonHidden, pauseButtonHidden, progressHidden, timerLabelHidden)
    }

    function Timers(): (b: TimerBook)
      reads this
    {
      TimerBook(timer, liveTimers, timersScheduled)
    }

    /**
     * Since the old state the cell has been configured by `handler`: it is
     * that handler's delegate, shows its state, updated its timers for it,
     * and kept its URL.
     */
    twostate predicate ConfiguredBy(handler: object)
      reads this
    {
      && audioDelegate == handler && url == old(url)
      && View() == StateView(state) && Timers() == TimersAfter(old(Timers()), state)
    }

    /**
     * A new cell is `stopped` with no URL, timer or delegate; the observer does
     * not run for the initial value, so no subview is hidden yet.
     */
    constructor ()
      ensures state == Stopped && url == None && audioDelegate == null
      ensures Timers() == TimerBook(None, {}, 0) && WellFormed(Timers())
      ensures View() == Visibility(false, false, false, false)
    {
      url := None;
      state := Stopped;
      timer := None;
      liveTimers := {};
      timersScheduled := 0;
      playButtonHidden, pauseButtonHidden, progressHidden, timerLabelHidden := false, false, false, false;
      audioDelegate := null;
    }

    /** Assigning `state`, which runs its `didSet` observer (its deferred work applied at once). */
    method SetState(s: State)
      modifies this
      ensures state == s && View() == StateView(s)
      ensures Timers() == TimersAfter(old(Timers()), s)
      ensures url == old(url) && audioDelegate == old(audioDelegate)
    {
      state := s;
      if s == Playing {
        PlayingStateView();
        var t := Timer(timersScheduled, ProgressInterval, true);
        liveTimers := liveTimers + {t};
        timersScheduled := timersScheduled + 1;
        timer := Some(t);
      } else if s == Paused {
        PauseStateView();
        InvalidateTimer();
      } else {
        InvalidateTimer();
        StopStateView();
      }
    }

    method InvalidateTimer()
      modifies this`liveTimers
      ensures liveTimers == if timer.Some? then old(liveTimers) - {timer.value} else old(liveTimers)
    {
      if timer.Some? {
        liveTimers := liveTimers - {timer.value};
      }
    }

    method PlayingStateView()
      modifies this`playButtonHidden, this`pauseButtonHidden, this`progressHidden, this`timerLabelHidden
      ensures View() == StateView(Playing)
    {
      pauseButtonHidden := false;
      playButtonHidden := true;
      progressHidden := false;
      timerLabelHidden := false;
    }

    method PauseStateView()
      modifies this`playButtonHidden, this`pauseButtonHidden, this`progressHidden, this`timerLabelHidden
      ensures View() == StateView(Paused)
    {
      pauseButtonHidden := true;
      playButtonHidden := false;
      progressHidden := false;
      timerLabelHidden := false;
    }

    method StopStateView()
      modifies this`playButtonHidden, this`pauseButtonHidden, this`progressHidden, this`timerLabelHidden
      ensures View() == StateView(Stopped)
    {
      playButtonHidden := false;
      pauseButtonHidden := true;
      progressHidden := true;
      timerLabelHidden := true;
    }

    /**
     * `configure(with:at:and:)`: an audio message's URL is captured; any other
     * kind of message leaves the URL the cell had.
     */
    method Configure(data: MessageData)
      modifies this`url
      ensures url == if data.Audio? then Some(data.url) else old(url)
    {
      match data
      case Audio(audio) => url := Some(audio);
      case _ =>
    }

    /** `prepareForReuse`: hides the timer label and nothing else. */
    method PrepareForReuse()
      modifies this`timerLabelHidden
      ensures timerLabelHidden
    {
      timerLabelHidden := true;
    }
  }
}
