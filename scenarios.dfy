/**
 * Clients of the handler and cells that use nothing but their contracts:
 * each method walks through a short sequence of events and asserts what the
 * cells and the handler hold along the way.
 */
module Scenarios {
  import opened Foundation
  import opened AudioPlayer
  import opened AudioMessageCells
  import opened MessagesCollectionViews
  import opened AudioHandlers

  /** Two audio messages on screen, in sections 0 and 1, both configured by a new handler. */
  method TwoMessages(url1: Url, url2: Url) returns (c1: AudioMessageCell, c2: AudioMessageCell, h: AudioHandler)
    ensures fresh(c1) && fresh(c2) && fresh(h) && fresh(h.collectionView)
    ensures c1 != c2 && h.collectionView.Valid()
    ensures h.collectionView.cells == map[IndexPath(0, 0) := c1, IndexPath(1, 0) := c2]
    ensures h.collectionView.IndexPathFor(c1) == Some(IndexPath(0, 0))
    ensures h.collectionView.IndexPathFor(c2) == Some(IndexPath(1, 0))
    ensures h.currentIndexPath == None && h.audioPlayer == None
    ensures c1.state == Stopped && c1.url == Some(url1) && c1.audioDelegate == h && c1.liveTimers == {}
    ensures WellFormed(c1.Timers())
    ensures c2.state == Stopped && c2.url == Some(url2) && c2.audioDelegate == h && c2.liveTimers == {}
  {
    c1 := new AudioMessageCell();
    c2 := new AudioMessageCell();
    var cv := new MessagesCollectionView(map[IndexPath(0, 0) := c1, IndexPath(1, 0) := c2]);
    h := new AudioHandler(cv);
    c1.Configure(Audio(url1));
    c2.Configure(Audio(url2));
    h.Configure(c1, IndexPath(0, 0));
    h.Configure(c2, IndexPath(1, 0));
  }

  /** The same two messages after a tap on the first, whose file opens. */
  method FirstPlaying(url1: Url, url2: Url, d: real) returns (c1: AudioMessageCell, c2: AudioMessageCell, h: AudioHandler)
    ensures fresh(c1) && fresh(c2) && fresh(h) && fresh(h.collectionView)
    ensures c1 != c2 && h.collectionView.Valid()
    ensures h.collectionView.cells == map[IndexPath(0, 0) := c1, IndexPath(1, 0) := c2]
    ensures h.collectionView.IndexPathFor(c1) == Some(IndexPath(0, 0))
    ensures h.collectionView.IndexPathFor(c2) == Some(IndexPath(1, 0))
    ensures h.currentIndexPath == Some(IndexPath(0, 0)) && h.audioPlayer == Some(Player(url1, true, 0.0, d))
    ensures c1.state == Playing && c1.View() == StateView(Playing) && c1.url == Some(url1) && c1.audioDelegate == h
    ensures c1.timer.Some? && c1.liveTimers == {c1.timer.value} && WellFormed(c1.Timers())
    ensures c2.state == Stopped && c2.url == Some(url2) && c2.audioDelegate == h && c2.liveTimers == {}
  {
    c1, c2, h := TwoMessages(url1, url2);
    h.AudioStateDidChange(c1, Opened(d));
  }

  /** The first tap plays the cell and opens its file; the second pauses both. */
  method PlayThenPause(d: real)
  {
    var c1, c2, h := FirstPlaying("first.m4a", "second.m4a", d);
    assert h.CurrentDuration() == d && h.CurrentTime() == 0.0;

    h.AudioStateDidChange(c1, Opened(d));
    assert c1.state == Paused && c1.liveTimers == {};
    assert h.audioPlayer == Some(Player("first.m4a", false, 0.0, d));
  }

  /** Playing the second message stops the first and replaces the player. */
  method SwitchStopsPrevious(d1: real, d2: real)
  {
    var c1, c2, h := FirstPlaying("first.m4a", "second.m4a", d1);
    h.AudioStateDidChange(c2, Opened(d2));
    assert h.Shown()[IndexPath(0, 0)] == Stopped;
    assert c1.state == Stopped && c1.liveTimers == {} && c2.state == Playing;
    assert h.currentIndexPath == Some(IndexPath(1, 0)) && h.audioPlayer == Some(Player("second.m4a", true, 0.0, d2));
  }

  /**
   * The finish notification stops the cell but keeps the index path and the
   * player, so configuring the cell again shows it paused.
   */
  method FinishThenConfigure(d: real)
  {
    var c1, c2, h := FirstPlaying("first.m4a", "second.m4a", d);
    h.AudioPlayerDidFinishPlaying(true);
    assert h.Shown()[IndexPath(0, 0)] == Stopped;
    assert c1.state == Stopped && c1.liveTimers == {} && c1.url == Some("first.m4a");
    assert h.currentIndexPath == Some(IndexPath(0, 0)) && h.audioPlayer == Some(Player("first.m4a", false, 0.0, d));
    h.Configure(c1, IndexPath(0, 0));
    assert c1.state == Paused;
  }

  /**
   * The container configures the playing cell again (a reload, say): the
   * observer schedules a second timer over the first, and the pause that
   * follows invalidates only the second.
   */
  method ReconfigureWhilePlayingLeaksTimer(d: real)
  {
    var c1, c2, h := FirstPlaying("first.m4a", "second.m4a", d);
    var first := c1.timer.value;
    h.Configure(c1, IndexPath(0, 0));
    assert c1.state == Playing && c1.timer != Some(first) && first in c1.liveTimers;
    h.AudioStateDidChange(c1, Opened(d));
    assert c1.state == Paused && c1.timer.value !in c1.liveTimers;
    assert first in c1.liveTimers;
  }

  /**
   * A playing cell scrolls away and is reused for another audio message: the
   * new configuration shows it stopped, invalidates its timer and takes the
   * new URL, while the handler still plays the first message.
   */
  method ReuseWhilePlaying(d: real)
  {
    var c1, c2, h := FirstPlaying("first.m4a", "second.m4a", d);
    var t := c1.timer.value;
    var ip3 := IndexPath(3, 0);
    h.collectionView.Hide(IndexPath(0, 0));
    h.collectionView.Show(c1, ip3);
    c1.PrepareForReuse();
    c1.Configure(Audio("third.m4a"));
    assert c1.timer == Some(t) && c1.liveTimers == {t};
    h.Configure(c1, ip3);
    assert c1.state == Stopped && c1.View() == StateView(Stopped) && c1.liveTimers == {};
    assert c1.url == Some("third.m4a");
    assert h.currentIndexPath == Some(IndexPath(0, 0)) && h.audioPlayer.value.isPlaying;
  }

  /**
   * A tap on a cell with no URL: the cell shows `playing` and becomes
   * current, yet there is no player, so configuring it again shows `stopped`.
   */
  method TapWithoutUrl()
  {
    var c := new AudioMessageCell();
    var ip := IndexPath(0, 0);
    var cv := new MessagesCollectionView(map[ip := c]);
    var h := new AudioHandler(cv);
    c.Configure(Text("no audio here"));
    h.Configure(c, ip);
    assert cv.IndexPathFor(c) == Some(ip);
    h.AudioStateDidChange(c, OpenFailed);
    assert c.state == Playing && h.currentIndexPath == Some(ip) && h.audioPlayer == None;
    assert h.CurrentTime() == 0.0 && h.CurrentDuration() == 0.0;
    h.Configure(c, ip);
    assert c.state == Stopped;
  }

  /**
   * Switching to a cell whose file fails to open: the previous cell stops
   * and the tapped one shows `playing`, but the previous player is still the
   * one that plays, and it now counts as the tapped cell's.
   */
  method SwitchToUnopenableFile(d: real)
  {
    var c1, c2, h := FirstPlaying("first.m4a", "broken.m4a", d);
    h.AudioStateDidChange(c2, OpenFailed);
    assert h.Shown()[IndexPath(0, 0)] == Stopped;
    assert c1.state == Stopped && c2.state == Playing;
    assert h.currentIndexPath == Some(IndexPath(1, 0)) && h.audioPlayer == Some(Player("first.m4a", true, 0.0, d));
    h.Configure(c2, IndexPath(1, 0));
    assert c2.state == Playing;
  }

  /** A tap on a configured cell reaches the handler through the cell's delegate. */
  method TapForwarded(d: real)
  {
    var c1, c2, h := TwoMessages("first.m4a", "second.m4a");
    DidTapMessage(c2, h, Opened(d));
    assert c2.state == Playing && c2.View() == StateView(Playing);
    assert h.currentIndexPath == Some(IndexPath(1, 0)) && h.audioPlayer == Some(Player("second.m4a", true, 0.0, d));
  }

  /** Two taps forwarded to the second message: the first plays it, the second pauses it. */
  method SecondPausedByTaps(d: real) returns (c1: AudioMessageCell, c2: AudioMessageCell, h: AudioHandler)
    ensures fresh(c1) && fresh(c2) && fresh(h) && fresh(h.collectionView)
    ensures c1 != c2 && h.collectionView.Valid()
    ensures h.collectionView.cells == map[IndexPath(0, 0) := c1, IndexPath(1, 0) := c2]
    ensures h.collectionView.IndexPathFor(c1) == Some(IndexPath(0, 0))
    ensures h.currentIndexPath == Some(IndexPath(1, 0)) && h.audioPlayer == Some(Player("second.m4a", false, 0.0, d))
    ensures c1.state == Stopped && c1.url == Some("first.m4a") && c1.audioDelegate == h
    ensures c2.state == Paused && c2.liveTimers == {} && c2.audioDelegate == h
  {
    c1, c2, h := TwoMessages("first.m4a", "second.m4a");
    DidTapMessage(c2, h, Opened(d));
    DidTapMessage(c2, h, Opened(d));
  }

  /** After the second message was paused by taps, a tap on the first plays it and stops the second. */
  method TapsForwardedInTurn(d1: real, d2: real)
  {
    var c1, c2, h := SecondPausedByTaps(d2);
    DidTapMessage(c1, h, Opened(d1));
    assert c1.state == Playing && h.currentIndexPath == Some(IndexPath(0, 0));
    assert h.Shown()[IndexPath(1, 0)] == Stopped;
    assert c2.state == Stopped && c2.audioDelegate == h;
  }

  /** Switching between messages in two sections leaves a third section's cell as it was. */
  method OtherSectionsUntouched(d1: real, d2: real)
  {
    var c1, c2, h := FirstPlaying("first.m4a", "second.m4a", d1);
    var c3 := new AudioMessageCell();
    h.collectionView.Show(c3, IndexPath(2, 0));
    assert h.collectionView.IndexPathFor(c2) == Some(IndexPath(1, 0));
    h.Configure(c3, IndexPath(2, 0));
    var view, timers := c3.View(), c3.Timers();
    ghost var before := h.Fields();
    assert !Playback.Reloads(before, Some(IndexPath(1, 0)), IndexPath(2, 0));
    assert h.collectionView.cells[IndexPath(2, 0)] == c3 != c2;
    label beforeTap:
    h.AudioStateDidChange(c2, Opened(d2));
    assert unchanged@beforeTap(c3);
    assert c3.View() == view && c3.Timers() == timers && c3.audioDelegate == h;
  }

  /** A tap on a cell that no handler has configured goes nowhere. */
  method TapUnconfiguredCell()
  {
    var c := new AudioMessageCell();
    var ip := IndexPath(0, 0);
    var cv := new MessagesCollectionView(map[ip := c]);
    var h := new AudioHandler(cv);
    DidTapMessage(c, h, OpenFailed);
    assert c.state == Stopped && h.currentIndexPath == None;
  }
}
