/**
 * The handler's coordination logic as values: the handler's two fields, the
 * states shown by the visible audio cells, and how configuring, tapping and
 * the player's finish notification change them. The handler class is proved
 * to follow these functions; the lemmas here state what the coordination
 * guarantees over any sequence of events.
 */
module Playback {
  import opened Foundation
  import opened AudioPlayer
  import opened AudioMessageCells

  /** The handler's `currentIndexPath` and `audioPlayer`. */
  datatype Snapshot = Snapshot(currentIndexPath: Option<IndexPath>, audioPlayer: Option<Player>)

  /** The state shown by the visible audio cell at each index path. */
  type Screen = map<IndexPath, State>

  /**
   * The state `configure(cell:at:)` gives a cell at `ip`: the cell at the
   * current index path follows the player, if there is one; every other cell
   * is stopped.
   */
  function ConfiguredState(h: Snapshot, ip: IndexPath): (s: State)
    ensures s != Stopped <==> Some(ip) == h.currentIndexPath && h.audioPlayer.Some?
    ensures s == Playing <==> Some(ip) == h.currentIndexPath && h.audioPlayer.Some? && h.audioPlayer.value.isPlaying
  {
    if Some(ip) == h.currentIndexPath && h.audioPlayer.Some? then
      if h.audioPlayer.value.isPlaying then Playing else Paused
    else
      Stopped
  }

  /** `reloadSections` on `section`: every visible cell of it is configured again. */
  function Reconfigured(h: Snapshot, screen: Screen, section: nat): (r: Screen)
    ensures r.Keys == screen.Keys
    ensures forall ip | ip in screen && ip.section != section :: r[ip] == screen[ip]
    ensures forall ip | ip in r && ip.section == section :: r[ip] == ConfiguredState(h, ip)
    ensures forall ip | ip in r && ip.section == section && r[ip] != Stopped :: Some(ip) == h.currentIndexPath
  {
    map ip | ip in screen :: if ip.section == section then ConfiguredState(h, ip) else screen[ip]
  }

  /**
   * The state the tapped cell ends in: a re-tap of the current cell toggles
   * between playing and paused (anything but playing resumes); every other
   * tap plays.
   */
  function TappedState(h: Snapshot, tapped: Option<IndexPath>, shown: State): (s: State)
    ensures s != Stopped
    ensures s == Paused <==> h.currentIndexPath.Some? && h.currentIndexPath == tapped && shown == Playing
  {
    if h.currentIndexPath.Some? && h.currentIndexPath == tapped && shown == Playing then Paused else Playing
  }

  /**
   * The handler after `audioStateDidChange(for:)` on a cell at `tapped`
   * (nothing if it is not visible) that showed `shown` and holds `url`.
   */
  function AfterTap(h: Snapshot, tapped: Option<IndexPath>, shown: State, url: Option<Url>, opening: Opening): (r: Snapshot)
    ensures r.currentIndexPath == tapped
    ensures h.audioPlayer.Some? ==> r.audioPlayer.Some?
    ensures h.currentIndexPath.Some? && h.currentIndexPath == tapped ==>
      r.audioPlayer.Some? == h.audioPlayer.Some?
      && (r.audioPlayer.Some? ==> r.audioPlayer.value.url == h.audioPlayer.value.url && r.audioPlayer.value.isPlaying == (shown != Playing))
    ensures h.currentIndexPath.None? || h.currentIndexPath != tapped ==>
      r.audioPlayer == AfterPlaySound(h.audioPlayer, url, opening)
  {
    if h.currentIndexPath.None? then
      Snapshot(tapped, AfterPlaySound(h.audioPlayer, url, opening))
    else if h.currentIndexPath == tapped then
      Snapshot(h.currentIndexPath, if shown == Playing then AfterPause(h.audioPlayer) else AfterResume(h.audioPlayer))
    else
      Snapshot(tapped, AfterPlaySound(h.audioPlayer, url, opening))
  }

  /**
   * The screen after that tap: a tap away from the current cell first moves
   * the current index path and reloads the previous one's section, then the
   * tapped cell takes its new state.
   */
  function ScreenAfterTap(h: Snapshot, screen: Screen, tapped: Option<IndexPath>, shown: State): (r: Screen)
    ensures r.Keys == screen.Keys
    ensures tapped.Some? && tapped.value in screen ==> r[tapped.value] == TappedState(h, tapped, shown)
    ensures forall ip | ip in screen && Some(ip) != tapped && !Reloads(h, tapped, ip) :: r[ip] == screen[ip]
    ensures forall ip | ip in screen && Some(ip) != tapped && Reloads(h, tapped, ip) :: r[ip] == ConfiguredState(Snapshot(tapped, h.audioPlayer), ip)
  {
    var reloaded :=
      if h.currentIndexPath.Some? && h.currentIndexPath != tapped then
        Reconfigured(Snapshot(tapped, h.audioPlayer), screen, h.currentIndexPath.value.section)
      else
        screen;
    if tapped.Some? && tapped.value in reloaded then reloaded[tapped.value := TappedState(h, tapped, shown)] else reloaded
  }

  /**
   * Whether a tap at `tapped` configures the cell at `ip` again: the tap is
   * away from the current cell, and `ip` lies in that cell's section.
   */
  predicate Reloads(h: Snapshot, tapped: Option<IndexPath>, ip: IndexPath)
  {
    h.currentIndexPath.Some? && h.currentIndexPath != tapped && ip.section == h.currentIndexPath.value.section
  }

  lemma SameScreen(a: Screen, b: Screen)
    requires a.Keys == b.Keys && forall ip | ip in a :: a[ip] == b[ip]
    ensures a == b
  {
  }

  /** How a tap away from the current cell changes the screen, spelled out. */
  lemma ScreenAfterTapOther(h: Snapshot, screen: Screen, tapped: Option<IndexPath>, shown: State)
    requires h.currentIndexPath.Some? && h.currentIndexPath != tapped
    ensures var reloaded := Reconfigured(Snapshot(tapped, h.audioPlayer), screen, h.currentIndexPath.value.section);
      ScreenAfterTap(h, screen, tapped, shown) ==
        if tapped.Some? && tapped.value in screen then reloaded[tapped.value := Playing] else reloaded
  {
  }

  /** The handler after the player finished: only the player's own flag changes. */
  function Finished(h: Snapshot): (r: Snapshot)
    ensures r.currentIndexPath == h.currentIndexPath
    ensures r.audioPlayer.Some? == h.audioPlayer.Some?
    ensures r.audioPlayer.Some? ==> r.audioPlayer.value.(isPlaying := h.audioPlayer.value.isPlaying) == h.audioPlayer.value
    ensures forall ip :: ConfiguredState(r, ip) != Playing
  {
    Snapshot(h.currentIndexPath, AudioPlayer.AfterFinish(h.audioPlayer))
  }

  /** The screen after the finish notification: the cell at the current index path, if visible, stops. */
  function ScreenAfterFinish(h: Snapshot, screen: Screen): (r: Screen)
    ensures r.Keys == screen.Keys
    ensures forall ip | ip in screen && Some(ip) != h.currentIndexPath :: r[ip] == screen[ip]
    ensures h.currentIndexPath.Some? && h.currentIndexPath.value in screen ==> r[h.currentIndexPath.value] == Stopped
    ensures OnlyCurrentActive(h, screen) ==> forall ip | ip in r :: r[ip] == Stopped
  {
    var c := h.currentIndexPath;
    if c.Some? && c.value in screen then screen[c.value := Stopped] else screen
  }

  datatype World = World(handler: Snapshot, screen: Screen)

  /** What can happen to the handler and the visible cells. */
  datatype Event =
    /** The container shows a cell at `ip` and has the handler configure it. */
    | Bind(ip: IndexPath)
    /** The cell at `ip` leaves the screen. */
    | Unbind(ip: IndexPath)
    /**
     * A tap on a cell at `tapped` (nothing when it is off screen, in which case
     * it shows `offscreen`), holding `url`; `opening` is what opening would yield.
     */
    | Tap(tapped: Option<IndexPath>, offscreen: State, url: Option<Url>, opening: Opening)
    /** The player reached the end of its file. */
    | Finish

  /** The world after one event. */
  function Step(w: World, e: Event): (r: World)
    ensures e.Bind? ==> r.handler == w.handler && r.screen.Keys == w.screen.Keys + {e.ip} && r.screen[e.ip] == ConfiguredState(w.handler, e.ip)
    ensures e.Unbind? ==> r.handler == w.handler && r.screen.Keys == w.screen.Keys - {e.ip}
    ensures e.Bind? ==> forall ip | ip in w.screen && ip != e.ip :: r.screen[ip] == w.screen[ip]
    ensures e.Unbind? ==> forall ip | ip in r.screen :: r.screen[ip] == w.screen[ip]
    ensures e.Tap? || e.Finish? ==> r.screen.Keys == w.screen.Keys
  {
    match e
    case Bind(ip) => World(w.handler, w.screen[ip := ConfiguredState(w.handler, ip)])
    case Unbind(ip) => World(w.handler, w.screen - {ip})
    case Tap(tapped, offscreen, url, opening) =>
      var shown := if tapped.Some? && tapped.value in w.screen then w.screen[tapped.value] else offscreen;
      World(AfterTap(w.handler, tapped, shown, url, opening), ScreenAfterTap(w.handler, w.screen, tapped, shown))
    case Finish => World(Finished(w.handler), ScreenAfterFinish(w.handler, w.screen))
  }

  /** The world after each event of `events` in turn. */
  function Run(w: World, events: seq<Event>): (r: World)
    decreases |events|
  {
    if events == [] then w else Run(Step(w, events[0]), events[1..])
  }

  lemma RunPair(w: World, e1: Event, e2: Event)
    ensures Run(w, [e1, e2]) == Step(Step(w, e1), e2)
  {
    assert [e1, e2][1..] == [e2];
    assert Run(w, [e1, e2]) == Run(Step(w, e1), [e2]);
    assert [e2][1..] == [];
    assert Run(Step(w, e1), [e2]) == Run(Step(Step(w, e1), e2), []);
  }

  /** Every visible cell away from the current index path shows `stopped`. */
  ghost predicate OnlyCurrentActive(h: Snapshot, screen: Screen)
  {
    forall ip | ip in screen && Some(ip) != h.currentIndexPath :: screen[ip] == Stopped
  }

  /** Nothing is shown at all, as when the handler is created. */
  ghost predicate Initial(w: World)
  {
    w.handler == Snapshot(None, None) && w.screen == map[]
  }

  /** Configuring never makes two index paths active. */
  lemma AtMostOneConfiguredActive(h: Snapshot, ip1: IndexPath, ip2: IndexPath)
    requires ConfiguredState(h, ip1) != Stopped && ConfiguredState(h, ip2) != Stopped
    ensures ip1 == ip2
  {
  }

  /** Configuring the same index path again changes nothing more. */
  lemma BindIdempotent(w: World, ip: IndexPath)
    ensures Step(Step(w, Bind(ip)), Bind(ip)) == Step(w, Bind(ip))
    ensures Step(w, Bind(ip)).handler == w.handler
  {
  }

  lemma ReconfiguredKeepsOnlyCurrentActive(h: Snapshot, screen: Screen, section: nat)
    requires OnlyCurrentActive(h, screen)
    requires h.currentIndexPath.Some? ==> h.currentIndexPath.value.section == section
    ensures forall other: Snapshot :: OnlyCurrentActive(other, Reconfigured(other, screen, section))
  {
  }

  /** Each event keeps every visible cell away from the current index path stopped. */
  lemma StepKeepsOnlyCurrentActive(w: World, e: Event)
    requires OnlyCurrentActive(w.handler, w.screen)
    ensures OnlyCurrentActive(Step(w, e).handler, Step(w, e).screen)
  {
    match e
    case Tap(tapped, offscreen, url, opening) =>
      var h := w.handler;
      var shown := if tapped.Some? && tapped.value in w.screen then w.screen[tapped.value] else offscreen;
      var w' := Step(w, e);
      assert w'.handler.currentIndexPath == tapped;
      if h.currentIndexPath.Some? && h.currentIndexPath != tapped {
        ReconfiguredKeepsOnlyCurrentActive(h, w.screen, h.currentIndexPath.value.section);
      }
    case _ =>
  }

  /**
   * Over any sequence of binds, unbinds, taps and finish notifications, at
   * most one visible cell shows `playing` or `paused`, and it is the one at
   * the current index path.
   */
  lemma {:induction false} RunKeepsOnlyCurrentActive(w: World, events: seq<Event>)
    requires OnlyCurrentActive(w.handler, w.screen)
    ensures OnlyCurrentActive(Run(w, events).handler, Run(w, events).screen)
    ensures forall i, j | i in Run(w, events).screen && j in Run(w, events).screen
      && Run(w, events).screen[i] != Stopped && Run(w, events).screen[j] != Stopped :: i == j
    decreases |events|
  {
    if events != [] {
      StepKeepsOnlyCurrentActive(w, events[0]);
      RunKeepsOnlyCurrentActive(Step(w, events[0]), events[1..]);
    }
  }

  /** From an empty screen and a fresh handler the invariant holds from the start. */
  lemma InitialOnlyCurrentActive(w: World, events: seq<Event>)
    requires Initial(w)
    ensures OnlyCurrentActive(Run(w, events).handler, Run(w, events).screen)
  {
    RunKeepsOnlyCurrentActive(w, events);
  }

  /**
   * The first tap (no current index path) makes the tapped cell current and
   * playing and hands its URL to the player.
   */
  lemma FirstTap(h: Snapshot, tapped: Option<IndexPath>, shown: State, url: Option<Url>, opening: Opening)
    requires h.currentIndexPath.None?
    ensures AfterTap(h, tapped, shown, url, opening) == Snapshot(tapped, AfterPlaySound(h.audioPlayer, url, opening))
    ensures TappedState(h, tapped, shown) == Playing
  {
  }

  /**
   * A re-tap on the current cell toggles playing and paused and pauses or
   * resumes the player it already has: no player is created, dropped or
   * re-targeted, and the current index path stays.
   */
  lemma RetapToggles(h: Snapshot, t: IndexPath, shown: State, url: Option<Url>, opening: Opening)
    requires h.currentIndexPath == Some(t)
    ensures TappedState(h, Some(t), shown) == if shown == Playing then Paused else Playing
    ensures AfterTap(h, Some(t), shown, url, opening).currentIndexPath == Some(t)
    ensures AfterTap(h, Some(t), shown, url, opening).audioPlayer.Some? == h.audioPlayer.Some?
    ensures h.audioPlayer.Some? ==>
      AfterTap(h, Some(t), shown, url, opening).audioPlayer.value.(isPlaying := h.audioPlayer.value.isPlaying) == h.audioPlayer.value
    ensures h.audioPlayer.Some? ==>
      AfterTap(h, Some(t), shown, url, opening).audioPlayer.value.isPlaying == (shown != Playing)
  {
  }

  /** Tapping a playing current cell twice comes back to where it started, with the same player. */
  lemma TapTwiceResumes(w: World, t: IndexPath, url: Option<Url>, opening: Opening)
    requires w.handler.currentIndexPath == Some(t) && t in w.screen && w.screen[t] == Playing
    requires w.handler.audioPlayer.Some? ==> w.handler.audioPlayer.value.isPlaying
    ensures Step(w, Tap(Some(t), Stopped, url, opening)).screen[t] == Paused
    ensures Run(w, [Tap(Some(t), Stopped, url, opening), Tap(Some(t), Stopped, url, opening)]) == w
  {
    var w1 := Step(w, Tap(Some(t), Stopped, url, opening));
    assert w1.screen == w.screen[t := Paused];
    var w2 := Step(w1, Tap(Some(t), Stopped, url, opening));
    assert w2.screen == w.screen;
    RunPair(w, Tap(Some(t), Stopped, url, opening), Tap(Some(t), Stopped, url, opening));
  }

  /**
   * A tap on another visible cell while one is active stops the previous
   * cell, plays the tapped one, moves the current index path to it and opens
   * its URL in place of the old player.
   */
  lemma Displacement(w: World, a: IndexPath, b: IndexPath, url: Option<Url>, opening: Opening)
    requires OnlyCurrentActive(w.handler, w.screen)
    requires w.handler.currentIndexPath == Some(a) && a != b && a in w.screen && b in w.screen
    ensures var w' := Step(w, Tap(Some(b), Stopped, url, opening));
      && w'.screen[a] == Stopped && w'.screen[b] == Playing
      && w'.handler == Snapshot(Some(b), AfterPlaySound(w.handler.audioPlayer, url, opening))
      && w'.screen.Keys == w.screen.Keys
      && (forall ip | ip in w.screen && ip != b :: w'.screen[ip] == Stopped)
  {
  }

  /**
   * When there is no URL or the file does not open, the tapped cell still
   * shows `playing` and becomes current, while the player is left as it was:
   * nothing at all, or the previous cell's player.
   */
  lemma FailedOpenStillPlays(w: World, tapped: Option<IndexPath>, shown: State, url: Option<Url>, opening: Opening)
    requires url.None? || opening.OpenFailed?
    requires w.handler.currentIndexPath != tapped || w.handler.currentIndexPath.None?
    ensures AfterTap(w.handler, tapped, shown, url, opening) == Snapshot(tapped, w.handler.audioPlayer)
    ensures TappedState(w.handler, tapped, shown) == Playing
  {
  }

  /**
   * A switch to a cell whose file does not open while the previous message is
   * paused: the tapped cell shows `playing`, yet the only player is the
   * paused one.
   */
  lemma NothingPlaysAfterFailedSwitch(w: World, a: IndexPath, b: IndexPath, url: Option<Url>, opening: Opening)
    requires w.handler.currentIndexPath == Some(a) && a != b && b in w.screen
    requires w.handler.audioPlayer.Some? && !w.handler.audioPlayer.value.isPlaying
    requires url.None? || opening.OpenFailed?
    ensures var w' := Step(w, Tap(Some(b), Stopped, url, opening));
      && w'.screen[b] == Playing
      && w'.handler == Snapshot(Some(b), w.handler.audioPlayer)
      && !w'.handler.audioPlayer.value.isPlaying
  {
  }

  /**
   * The finish notification stops the visible current cell but keeps the
   * current index path and the player, so configuring that index path again
   * shows `paused`, not `stopped`.
   */
  lemma FinishKeepsCurrent(w: World, c: IndexPath)
    requires w.handler.currentIndexPath == Some(c) && w.handler.audioPlayer.Some?
    ensures Step(w, Finish).handler.currentIndexPath == Some(c)
    ensures c in w.screen ==> Step(w, Finish).screen[c] == Stopped
    ensures Step(Step(w, Finish), Bind(c)).screen[c] == Paused
  {
  }
}
