/**
 * The audio handler: the one shared player, the index path of the message
 * tied to it, and the operations the cells call: configure on bind or reuse,
 * the tap toggle, the progress queries, and the player's finish callback.
 */
module AudioHandlers {
  import opened Foundation
  import opened AudioPlayer
  import opened AudioMessageCells
  import opened MessagesCollectionViews
  import opened Playback

  class AudioHandler {
    /** The unowned collection view whose cells the handler drives. */
    const collectionView: MessagesCollectionView
    var audioPlayer: Option<Player>
    var currentIndexPath: Option<IndexPath>

    /** The handler's two fields as a value. */
    function Fields(): (s: Snapshot)
      reads this
    {
      Snapshot(currentIndexPath, audioPlayer)
    }

    /** The states shown by the visible audio cells. */
    ghost function Shown(): (s: Screen)
      reads collectionView, collectionView.cells.Values
    {
      map ip | ip in collectionView.cells :: collectionView.cells[ip].state
    }

    constructor (collectionView: MessagesCollectionView)
      ensures this.collectionView == collectionView
      ensures Fields() == Snapshot(None, None)
    {
      this.collectionView := collectionView;
      audioPlayer := None;
      currentIndexPath := None;
    }

    /**
     * `configure(cell:at:)`: makes this handler the cell's delegate and sets
     * its state from the handler's fields, which it does not change.
     */
    method Configure(cell: AudioMessageCell, ip: IndexPath)
      modifies cell
      ensures cell.audioDelegate == this && cell.url == old(cell.url)
      ensures cell.state == ConfiguredState(Fields(), ip)
      ensures cell.View() == StateView(cell.state)
      ensures cell.Timers() == TimersAfter(old(cell.Timers()), cell.state)
    {
      cell.audioDelegate := this;
      if Some(ip) == currentIndexPath && audioPlayer.Some? {
        if audioPlayer.value.isPlaying {
          cell.SetState(Playing);
        } else {
          cell.SetState(Paused);
        }
      } else {
        cell.SetState(Stopped);
      }
    }

    /**
     * `playSound(with:)`: without a URL nothing happens; a file that fails to
     * open is only logged; otherwise a new player on the URL replaces the old
     * one and plays.
     */
    method PlaySound(url: Option<Url>, opening: Opening)
      modifies this`audioPlayer
      ensures audioPlayer == AfterPlaySound(old(audioPlayer), url, opening)
    {
      if url.None? {
        return;
      }
      match opening
      case OpenFailed =>
      case Opened(duration) =>
        audioPlayer := Some(Player(url.value, false, 0.0, duration));
        var player := audioPlayer.value;
        audioPlayer := Some(player.(isPlaying := true));
    }

    /** `resumeSound()`. */
    method ResumeSound()
      modifies this`audioPlayer
      ensures audioPlayer == AfterResume(old(audioPlayer))
    {
      if audioPlayer.Some? {
        audioPlayer := Some(audioPlayer.value.(isPlaying := true));
      }
    }

    /** `pauseSound()`. */
    method PauseSound()
      modifies this`audioPlayer
      ensures audioPlayer == AfterPause(old(audioPlayer))
    {
      if audioPlayer.Some? && audioPlayer.value.isPlaying {
        audioPlayer := Some(audioPlayer.value.(isPlaying := false));
      }
    }

    /** `stopSound()`. */
    method StopSound()
      modifies this`audioPlayer
      ensures audioPlayer == AfterStop(old(audioPlayer))
    {
      if audioPlayer.Some? && audioPlayer.value.isPlaying {
        audioPlayer := Some(audioPlayer.value.(isPlaying := false));
      }
    }

    /**
     * `reloadSections` on one section, as the handler experiences it: every
     * visible audio cell of that section is configured again.
     */
    method ReloadSection(section: nat)
      requires collectionView.Valid()
      modifies collectionView.cells.Values
      ensures Shown() == Reconfigured(Fields(), old(Shown()), section)
      ensures forall ip | ip in collectionView.cells && ip.section == section :: collectionView.cells[ip].ConfiguredBy(this)
      ensures forall ip | ip in collectionView.cells && ip.section != section :: unchanged(collectionView.cells[ip])
    {
      var cells := collectionView.cells;
      var todo := set ip | ip in cells && ip.section == section;
      while todo != {}
        invariant todo <= cells.Keys
        invariant forall ip | ip in todo :: ip.section == section
        invariant forall ip | ip in cells && ip.section == section && ip !in todo ::
          cells[ip].state == ConfiguredState(Fields(), ip) && cells[ip].ConfiguredBy(this)
        invariant forall ip | ip in cells && (ip.section != section || ip in todo) :: unchanged(cells[ip])
        decreases todo
      {
        var ip :| ip in todo;
        Configure(cells[ip], ip);
        todo := todo - {ip};
      }
      assert forall ip | ip in cells :: Shown()[ip] == Reconfigured(Fields(), old(Shown()), section)[ip];
    }

    /**
     * `audioStateDidChange(for:)`, the tap toggle. `opening` is what opening
     * the cell's URL would yield, should this tap open it. A tap away from the
     * current cell configures the previous one's section again, which may
     * include the tapped cell itself before it is set playing.
     */
    method AudioStateDidChange(cell: AudioMessageCell, opening: Opening)
      requires collectionView.Valid()
      modifies this, cell, collectionView.cells.Values
      ensures Fields() == AfterTap(old(Fields()), collectionView.IndexPathFor(cell), old(cell.state), old(cell.url), opening)
      ensures Shown() == ScreenAfterTap(old(Fields()), old(Shown()), collectionView.IndexPathFor(cell), old(cell.state))
      ensures cell.state == TappedState(old(Fields()), collectionView.IndexPathFor(cell), old(cell.state))
      ensures cell.View() == StateView(cell.state) && cell.url == old(cell.url)
      ensures var t := collectionView.IndexPathFor(cell);
        var reloaded := t.Some? && Reloads(old(Fields()), t, t.value);
        && cell.audioDelegate == (if reloaded then this else old(cell.audioDelegate))
        && cell.Timers() == TimersAfter(
             if reloaded then TimersAfter(old(cell.Timers()), ConfiguredState(Snapshot(t, old(audioPlayer)), t.value))
             else old(cell.Timers()),
             cell.state)
      ensures cell.state == Playing ==> cell.timer.Some? && cell.timer.value in cell.liveTimers
      ensures OnlyCurrentActive(old(Fields()), old(Shown())) ==> OnlyCurrentActive(Fields(), Shown())
      ensures forall ip | ip in collectionView.cells && collectionView.cells[ip] != cell
        && Reloads(old(Fields()), collectionView.IndexPathFor(cell), ip) ::
        collectionView.cells[ip].ConfiguredBy(this)
      ensures forall ip | ip in collectionView.cells && collectionView.cells[ip] != cell
        && !Reloads(old(Fields()), collectionView.IndexPathFor(cell), ip) ::
        unchanged(collectionView.cells[ip])
    {
      var tapped := collectionView.IndexPathFor(cell);
      if currentIndexPath.None? {
        PlayFirst(cell, tapped, opening);
      } else if currentIndexPath == tapped {
        ToggleCurrent(cell, tapped);
      } else {
        PlayOther(cell, tapped, opening);
      }
      assert (if tapped.Some? && tapped.value in old(Shown()) then old(Shown())[tapped.value] else old(cell.state)) == old(cell.state);
      if OnlyCurrentActive(old(Fields()), old(Shown())) {
        StepKeepsOnlyCurrentActive(World(old(Fields()), old(Shown())), Tap(tapped, old(cell.state), old(cell.url), opening));
      }
    }

    /** The first-tap branch of `audioStateDidChange(for:)`: no index path is current yet. */
    method PlayFirst(cell: AudioMessageCell, tapped: Option<IndexPath>, opening: Opening)
      requires collectionView.Valid() && tapped == collectionView.IndexPathFor(cell)
      requires currentIndexPath.None?
      modifies this, cell
      ensures Fields() == AfterTap(old(Fields()), tapped, old(cell.state), old(cell.url), opening)
      ensures Shown() == ScreenAfterTap(old(Fields()), old(Shown()), tapped, old(cell.state))
      ensures cell.state == Playing && cell.View() == StateView(Playing)
      ensures cell.url == old(cell.url) && cell.audioDelegate == old(cell.audioDelegate)
      ensures cell.Timers() == TimersAfter(old(cell.Timers()), Playing)
    {
      currentIndexPath := tapped;
      PlayTapped(cell, opening);
    }

    /** The re-tap branch of `audioStateDidChange(for:)`: the tapped cell is the current one. */
    method ToggleCurrent(cell: AudioMessageCell, tapped: Option<IndexPath>)
      requires collectionView.Valid() && tapped == collectionView.IndexPathFor(cell)
      requires currentIndexPath.Some? && currentIndexPath == tapped
      modifies this`audioPlayer, cell
      ensures currentIndexPath == old(currentIndexPath)
      ensures audioPlayer == if old(cell.state) == Playing then AfterPause(old(audioPlayer)) else AfterResume(old(audioPlayer))
      ensures Shown() == ScreenAfterTap(old(Fields()), old(Shown()), tapped, old(cell.state))
      ensures cell.state == TappedState(old(Fields()), tapped, old(cell.state))
      ensures cell.View() == StateView(cell.state)
      ensures cell.url == old(cell.url) && cell.audioDelegate == old(cell.audioDelegate)
      ensures cell.Timers() == TimersAfter(old(cell.Timers()), cell.state)
    {
      if cell.state == Playing {
        ShowState(cell, Paused);
        PauseSound();
      } else {
        ShowState(cell, Playing);
        ResumeSound();
      }
    }

    /**
     * The branch of `audioStateDidChange(for:)` for a tap away from the
     * current cell: the current index path moves, the previous one's section
     * is reloaded, and the tapped cell plays.
     */
    method PlayOther(cell: AudioMessageCell, tapped: Option<IndexPath>, opening: Opening)
      requires collectionView.Valid() && tapped == collectionView.IndexPathFor(cell)
      requires currentIndexPath.Some? && currentIndexPath != tapped
      modifies this, cell, collectionView.cells.Values
      ensures Fields() == AfterTap(old(Fields()), tapped, old(cell.state), old(cell.url), opening)
      ensures Shown() == ScreenAfterTap(old(Fields()), old(Shown()), tapped, old(cell.state))
      ensures cell.state == Playing && cell.View() == StateView(Playing) && cell.url == old(cell.url)
      ensures var reloaded := tapped.Some? && tapped.value.section == old(currentIndexPath).value.section;
        && cell.audioDelegate == (if reloaded then this else old(cell.audioDelegate))
        && cell.Timers() == TimersAfter(
             if reloaded then TimersAfter(old(cell.Timers()), ConfiguredState(Snapshot(tapped, old(audioPlayer)), tapped.value))
             else old(cell.Timers()),
             Playing)
      ensures cell.timer.Some? && cell.timer.value in cell.liveTimers
      ensures forall ip | ip in collectionView.cells && collectionView.cells[ip] != cell
        && ip.section == old(currentIndexPath).value.section ::
        collectionView.cells[ip].ConfiguredBy(this)
      ensures forall ip | ip in collectionView.cells && collectionView.cells[ip] != cell
        && ip.section != old(currentIndexPath).value.section ::
        unchanged(collectionView.cells[ip])
    {
      ghost var screen := old(Shown());
      var previousSection := currentIndexPath.value.section;
      currentIndexPath := tapped;
      assert Shown() == screen;
      ReloadSection(previousSection);
      assert Fields() == Snapshot(tapped, old(audioPlayer));
      ghost var reloaded := Shown();
      assert tapped.Some? && tapped.value.section == previousSection ==>
        cell.Timers() == TimersAfter(old(cell.Timers()), ConfiguredState(Snapshot(tapped, old(audioPlayer)), tapped.value)) by {
        if tapped.Some? && tapped.value.section == previousSection {
          assert collectionView.cells[tapped.value] == cell;
          assert cell.state == reloaded[tapped.value];
        }
      }
      PlayTapped(cell, opening);
      ScreenAfterTapOther(old(Fields()), screen, tapped, old(cell.state));
    }

    /**
     * The end of a tap away from the current cell: the tapped cell is set
     * playing and its URL goes to `playSound(with:)`.
     */
    method PlayTapped(cell: AudioMessageCell, opening: Opening)
      requires collectionView.Valid()
      modifies this`audioPlayer, cell
      ensures var t := collectionView.IndexPathFor(cell);
        Shown() == if t.Some? then old(Shown())[t.value := Playing] else old(Shown())
      ensures audioPlayer == AfterPlaySound(old(audioPlayer), old(cell.url), opening)
      ensures cell.state == Playing && cell.View() == StateView(Playing)
      ensures cell.Timers() == TimersAfter(old(cell.Timers()), Playing)
      ensures cell.url == old(cell.url) && cell.audioDelegate == old(cell.audioDelegate)
    {
      ShowState(cell, Playing);
      PlaySound(cell.url, opening);
    }

    /** Assigns a cell's `state`; a visible cell shows the new state on screen. */
    method ShowState(cell: AudioMessageCell, s: State)
      requires collectionView.Valid()
      modifies cell
      ensures var t := collectionView.IndexPathFor(cell);
        Shown() == if t.Some? then old(Shown())[t.value := s] else old(Shown())
      ensures cell.state == s && cell.View() == StateView(s)
      ensures cell.Timers() == TimersAfter(old(cell.Timers()), s)
      ensures cell.url == old(cell.url) && cell.audioDelegate == old(cell.audioDelegate)
    {
      cell.SetState(s);
      ghost var t := collectionView.IndexPathFor(cell);
      ghost var expected := if t.Some? then old(Shown())[t.value := s] else old(Shown());
      assert forall ip | ip in collectionView.cells :: Shown()[ip] == expected[ip];
      SameScreen(Shown(), expected);
    }

    /** `currentDuration()`: the player's duration, or 0 when there is no player. */
    function CurrentDuration(): (d: real)
      reads this
      ensures audioPlayer.None? ==> d == 0.0
      ensures audioPlayer.Some? ==> d == audioPlayer.value.duration
    {
      if audioPlayer.None? then 0.0 else audioPlayer.value.duration
    }

    /** `currentTime()`: the player's position, or 0 when there is no player. */
    function CurrentTime(): (t: real)
      reads this
      ensures audioPlayer.None? ==> t == 0.0
      ensures audioPlayer.Some? ==> t == audioPlayer.value.currentTime
    {
      if audioPlayer.None? then 0.0 else audioPlayer.value.currentTime
    }

    /**
     * `audioPlayerDidFinishPlaying(_:successfully:)`. The player has stopped by
     * itself at the end of its file (the first assignment records that change
     * of the player object); the handler then stops the visible cell at the
     * current index path, keeping the index path and the player.
     */
    method AudioPlayerDidFinishPlaying(successfully: bool)
      requires collectionView.Valid()
      modifies this`audioPlayer, collectionView.cells.Values
      ensures Fields() == Finished(old(Fields()))
      ensures Shown() == ScreenAfterFinish(old(Fields()), old(Shown()))
      ensures currentIndexPath.Some? && currentIndexPath.value in collectionView.cells ==>
        var c := collectionView.cells[currentIndexPath.value];
        && c.View() == StateView(Stopped) && c.Timers() == TimersAfter(old(c.Timers()), Stopped)
        && c.url == old(c.url) && c.audioDelegate == old(c.audioDelegate)
      ensures forall ip | ip in collectionView.cells && Some(ip) != currentIndexPath :: unchanged(collectionView.cells[ip])
      ensures OnlyCurrentActive(old(Fields()), old(Shown())) ==> OnlyCurrentActive(Fields(), Shown())
    {
      audioPlayer := AudioPlayer.AfterFinish(audioPlayer);
      if currentIndexPath.Some? {
        var cell := collectionView.CellForItem(currentIndexPath.value);
        if cell.Some? {
          cell.value.SetState(Stopped);
        }
      }
      assert forall ip | ip in collectionView.cells ::
        Shown()[ip] == ScreenAfterFinish(old(Fields()), old(Shown()))[ip];
    }
  }

  /**
   * `didTapMessage()` on a cell: the tap goes to the cell's delegate, when it
   * has one. The model has a single handler, so the delegate is that handler
   * or nothing. This member belongs to the cell, but it lives here because
   * the cell module cannot import the handler's module without a cycle.
   */
  method DidTapMessage(cell: AudioMessageCell, handler: AudioHandler, opening: Opening)
    requires cell.audioDelegate == null || cell.audioDelegate == handler
    requires handler.collectionView.Valid()
    modifies handler, cell, handler.collectionView.cells.Values
    ensures old(cell.audioDelegate) == null ==>
      && unchanged(handler) && unchanged(cell)
      && forall ip | ip in handler.collectionView.cells :: unchanged(handler.collectionView.cells[ip])
    ensures old(cell.audioDelegate) == handler ==>
      var cv := handler.collectionView;
      var t := cv.IndexPathFor(cell);
      var reloaded := t.Some? && Reloads(old(handler.Fields()), t, t.value);
      && handler.Fields() == AfterTap(old(handler.Fields()), t, old(cell.state), old(cell.url), opening)
      && handler.Shown() == ScreenAfterTap(old(handler.Fields()), old(handler.Shown()), t, old(cell.state))
      && cell.state == TappedState(old(handler.Fields()), t, old(cell.state))
      && cell.View() == StateView(cell.state) && cell.url == old(cell.url) && cell.audioDelegate == handler
      && cell.Timers() == TimersAfter(
           if reloaded then TimersAfter(old(cell.Timers()), ConfiguredState(Snapshot(t, old(handler.audioPlayer)), t.value))
           else old(cell.Timers()),
           cell.state)
      && (OnlyCurrentActive(old(handler.Fields()), old(handler.Shown())) ==> OnlyCurrentActive(handler.Fields(), handler.Shown()))
      && (forall ip | ip in cv.cells && cv.cells[ip] != cell && Reloads(old(handler.Fields()), t, ip) ::
            cv.cells[ip].ConfiguredBy(handler))
      && (forall ip | ip in cv.cells && cv.cells[ip] != cell && !Reloads(old(handler.Fields()), t, ip) ::
            unchanged(cv.cells[ip]))
  {
    if cell.audioDelegate == handler {
      handler.AudioStateDidChange(cell, opening);
    }
  }
}
