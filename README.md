# Audio message playback in MessageKit, modelled in Dafny

This project models how MessageKit's audio messages coordinate playback. One
`AudioHandler` owns the single shared audio player and the index path of the
message tied to it. Many recyclable `AudioMessageCell`s show a play button, a
pause button, a progress bar and a timer label, and forward taps to the
handler.

The model has seven modules, one per file:

- `Foundation` (foundation.dfy): `Option`, `IndexPath` and `Url`.
- `AudioPlayer` (audio_player.dfy): the shared player as a value. It records
  its URL, whether it is playing, and the times it reports. It also gives
  pure functions for what `playSound`, `pauseSound`, `resumeSound`,
  `stopSound` and reaching the end of the file do to that value. The result
  of activating the audio session and decoding a file (`Opening`) is an input.
- `AudioMessageCells` (audio_message_cell.dfy): the cell as a class. It holds
  the `state` observer with its fixed visibility pattern (`StateView`), the
  repeating progress timer, URL capture in `configure(with:at:and:)`, and
  `prepareForReuse`. Timers are values. The cell keeps the handle it holds
  (`timer`) and the timers it scheduled that the run loop still fires
  (`liveTimers`).
- `MessagesCollectionViews` (messages_collection_view.dfy): the collection
  view as a map from index path to visible audio cell, with no cell at two
  index paths. It provides `indexPath(for:)` and `cellForItem(at:)`.
- `Playback` (playback.dfy): the handler's logic as values. A `Snapshot` holds
  the handler's two fields. A `Screen` maps each index path to the state its
  visible cell shows. `Step` and `Run` apply binds, unbinds, taps and finish
  notifications. The invariants are proved over any sequence of these events.
- `AudioHandlers` (audio_handler.dfy): the handler as a class. `Configure`,
  `ReloadSection`, `AudioStateDidChange` and the finish callback are proved
  to follow the `Playback` functions. `PlaySound`, `PauseSound`,
  `ResumeSound` and `StopSound` are proved to follow the `AudioPlayer`
  functions. `CurrentTime` and `CurrentDuration` state their results
  directly. This module also holds `DidTapMessage`, the cell's tap
  forwarding.
- `Scenarios` (scenarios.dfy): client methods that play, pause, switch
  messages, finish, reuse a cell and fail to open a file. They use only the
  contracts.

The model follows the code where it departs from the intended design of a
playback coordinator:

- The finish callback does not clear `currentIndexPath`. Configuring that
  cell again therefore shows `paused`, not `stopped`.
- A tap whose file cannot be opened, or whose cell has no URL, still leaves
  the cell `playing` and makes it current. On a switch, the previous player
  stays in place in whatever state it was in. If it was playing, it keeps
  playing the previous message. If it was paused, the tapped cell shows
  `playing` while nothing plays (`NothingPlaysAfterFailedSwitch`).
- The previous session is never stopped explicitly. A new player replaces it
  only when the new file opens.
- Entering `playing` schedules a new timer without invalidating the one
  already held. So configuring a playing cell again, or reloading its
  section, leaves a timer running that no later state change invalidates.
  `RepeatedPlayingLeaksTimer` and the `ReconfigureWhilePlayingLeaksTimer`
  scenario prove this.
- Reuse (`prepareForReuse`) only hides the timer label. State, URL and timer
  are reset by the next `configure`, and only to the extent `configure` does.

## Model

| member | source | states |
|---|---|---|
| `AudioMessageCells.StateView` | Sources/Views/Cells/AudioMessageCell.swift:49-68 | Exactly one of the play and pause buttons is visible. The pause button is visible exactly when playing. The progress bar and the timer label are hidden exactly when stopped. |
| `AudioMessageCells.TimersAfter` | Sources/Views/Cells/AudioMessageCell.swift:23-47 | Entering `playing` schedules a repeating 0.1 s timer, holds it, and adds exactly it to the live timers. With well-formed bookkeeping that timer is new: it was not live before, and it differs from the held one. `paused` and `stopped` invalidate only the held timer and keep its handle. Well-formed bookkeeping stays well-formed. |
| `AudioMessageCells.TidyWithoutRepeatedPlaying` | Sources/Views/Cells/AudioMessageCell.swift:23-47 | Over any sequence of states that never enters `playing` twice in a row, exactly the held timer runs while playing and none runs otherwise. |
| `AudioMessageCells.OverwrittenTimerKeepsRunning` | Sources/Views/Cells/AudioMessageCell.swift:31 | A live timer whose handle was overwritten stays live whatever states follow. |
| `AudioMessageCells.RepeatedPlayingLeaksTimer` | Sources/Views/Cells/AudioMessageCell.swift:31 | After `playing` is set twice in a row, the first timer is never invalidated. |
| `AudioMessageCells.AudioMessageCell.constructor` | Sources/Views/Cells/AudioMessageCell.swift:20-23 | A new cell is `stopped` with no URL, timer or delegate. The observer does not run for the initial value, so no subview is hidden. |
| `AudioMessageCells.AudioMessageCell.SetState` | Sources/Views/Cells/AudioMessageCell.swift:23-47 | Assigning `state` sets it, applies `StateView` of the new state, and updates the timers as `TimersAfter` says. URL and delegate are kept. |
| `AudioMessageCells.AudioMessageCell.PlayingStateView` | Sources/Views/Cells/AudioMessageCell.swift:49-54 | Applies the `playing` pattern. |
| `AudioMessageCells.AudioMessageCell.PauseStateView` | Sources/Views/Cells/AudioMessageCell.swift:56-61 | Applies the `paused` pattern. |
| `AudioMessageCells.AudioMessageCell.StopStateView` | Sources/Views/Cells/AudioMessageCell.swift:63-68 | Applies the `stopped` pattern. |
| `AudioMessageCells.AudioMessageCell.InvalidateTimer` | Sources/Views/Cells/AudioMessageCell.swift:35 | Invalidates the held timer, if any, and only that one. |
| `AudioMessageCells.AudioMessageCell.Configure` | Sources/Views/Cells/AudioMessageCell.swift:171-180 | The URL becomes the audio message's URL. Any other kind of message leaves the URL unchanged. |
| `AudioMessageCells.AudioMessageCell.PrepareForReuse` | Sources/Views/Cells/AudioMessageCell.swift:182-184 | Hides the timer label and changes nothing else. |
| `AudioHandlers.DidTapMessage` | Sources/Views/Cells/AudioMessageCell.swift:157-162 | A tap on a cell whose delegate is the handler has the whole effect of `AudioStateDidChange`: fields, screen, tapped cell, reloaded cells, and every other cell unchanged. The cell stays the handler's delegate, so taps can be chained. With no delegate, the handler, the cell and every visible cell are unchanged. |
| `MessagesCollectionViews.MessagesCollectionView.IndexPathFor` | Sources/Controllers/AudioHandler.swift:75 | Gives the unique index path at which a visible cell shows, or nothing for a cell that is not on screen. |
| `MessagesCollectionViews.MessagesCollectionView.CellForItem` | Sources/Controllers/AudioHandler.swift:110 | Gives the visible cell at an index path, or nothing when no audio cell shows there. The cell it gives is found again at that index path by `IndexPathFor`. |
| `AudioHandlers.AudioHandler.constructor` | Sources/Controllers/AudioHandler.swift:13-21 | A new handler has no player and no current index path. |
| `AudioHandlers.AudioHandler.Configure` | Sources/Controllers/AudioHandler.swift:23-34 | Makes the handler the cell's delegate and sets the cell's state to `ConfiguredState` of the handler's fields, with the matching view and timers. The handler's fields and the cell's URL do not change. |
| `AudioHandlers.AudioHandler.PlaySound` | Sources/Controllers/AudioHandler.swift:36-52 | Without a URL, or when the file fails to open, the player is unchanged. Otherwise a new player on the URL replaces the old one and plays from the start. |
| `AudioHandlers.AudioHandler.ResumeSound` | Sources/Controllers/AudioHandler.swift:54-58 | Any existing player is made to play. |
| `AudioHandlers.AudioHandler.PauseSound` | Sources/Controllers/AudioHandler.swift:60-64 | Only a playing player is paused. |
| `AudioHandlers.AudioHandler.StopSound` | Sources/Controllers/AudioHandler.swift:66-70 | Only a playing player is stopped. |
| `AudioHandlers.AudioHandler.ReloadSection` | Sources/Controllers/AudioHandler.swift:87-91 | Reloading a section configures each of its visible cells again. Each one gets the handler as delegate, the state from `ConfiguredState`, the matching view and timers, and keeps its URL. Cells in other sections are unchanged. |
| `AudioHandlers.AudioHandler.AudioStateDidChange` | Sources/Controllers/AudioHandler.swift:73-95 | The tap moves the handler's fields as `AfterTap` says and the screen as `ScreenAfterTap` says. The tapped cell ends in `TappedState` with the matching view and keeps its URL. Its timers and delegate are exact: when its own section is the one reloaded, it is configured first and then set playing. Cells of the reloaded previous section are configured by the handler. Every other cell is unchanged. Every visible cell away from the current index path stays stopped. |
| `AudioHandlers.AudioHandler.PlayFirst` | Sources/Controllers/AudioHandler.swift:74-77 | With no current index path, the tapped cell becomes current and `playing`, with one new timer, and its URL is handed to `playSound`. Its URL and delegate are kept, and no other cell is touched. |
| `AudioHandlers.AudioHandler.ToggleCurrent` | Sources/Controllers/AudioHandler.swift:78-85 | On the current cell, `playing` becomes `paused` and the player is paused. Any other state becomes `playing` and the player is resumed. The current index path, the cell's URL and its delegate are kept, and no other cell is touched. |
| `AudioHandlers.AudioHandler.PlayOther` | Sources/Controllers/AudioHandler.swift:86-94 | On another cell, the current index path moves to it and the previous section is configured again. The tapped cell then plays and its URL goes to `playSound`. Its delegate and timers are exact, including a reload of its own section. Cells of other sections are unchanged. |
| `AudioHandlers.AudioHandler.PlayTapped` | Sources/Controllers/AudioHandler.swift:92-93 | The tapped cell is set `playing`, with one new timer, and shows it on screen. The player becomes `AfterPlaySound` of the cell's URL. The cell keeps its URL and delegate. |
| `AudioHandlers.AudioHandler.CurrentDuration` | Sources/Controllers/AudioHandler.swift:97-100 | Returns 0 without a player and the player's duration otherwise, whichever cell asks. |
| `AudioHandlers.AudioHandler.CurrentTime` | Sources/Controllers/AudioHandler.swift:102-105 | Returns 0 without a player and the player's position otherwise, whichever cell asks. |
| `AudioHandlers.AudioHandler.AudioPlayerDidFinishPlaying` | Sources/Controllers/AudioHandler.swift:109-113 | The visible cell at the current index path becomes `stopped` and its timer is invalidated, and it keeps its URL and delegate. The current index path and the player are kept; only the player's own playing flag goes false. Other cells are unchanged. |
| `Playback.ConfiguredState` | Sources/Controllers/AudioHandler.swift:25-33 | A cell is non-stopped exactly when it is at the current index path and a player exists. It is `playing` exactly when that player is playing. |
| `Playback.Reconfigured` | Sources/Controllers/AudioHandler.swift:87-91 | Reloading a section keeps the set of visible index paths. Other sections keep their states, and the section's cells take `ConfiguredState`. Afterwards a non-stopped cell of that section sits at the current index path. |
| `Playback.TappedState` | Sources/Controllers/AudioHandler.swift:73-95 | A tap never leaves the cell stopped. It shows `paused` exactly when the playing current cell is tapped again. |
| `Playback.AfterTap` | Sources/Controllers/AudioHandler.swift:73-95 | After any tap, the tapped index path is current (nothing, for a cell that is off screen), and an existing player is never dropped. A re-tap keeps the player's presence and URL and makes it play exactly when the cell was not playing. Any other tap hands the URL to `playSound`. |
| `Playback.ScreenAfterTap` | Sources/Controllers/AudioHandler.swift:73-95 | A tap keeps the set of visible index paths and gives the tapped cell `TappedState`. A tap away from the current cell configures the cells of the previous section again, for the new current index path and the old player. All other cells keep their states. |
| `Playback.Finished` | Sources/Controllers/AudioHandler.swift:109-113 | The finish notification keeps the current index path and the player, changing only its playing flag. Afterwards no configured cell shows `playing`. |
| `Playback.ScreenAfterFinish` | Sources/Controllers/AudioHandler.swift:109-113 | The visible cell at the current index path stops and every other cell keeps its state. Under the invariant, every visible cell is then stopped. |
| `Playback.Step` | Sources/Controllers/AudioHandler.swift:23-113 | A bind adds the index path with its `ConfiguredState` and an unbind removes it. Both leave the handler's fields and every other index path's state alone. A tap or a finish keeps the set of visible index paths. |
| `Playback.AtMostOneConfiguredActive` | Sources/Controllers/AudioHandler.swift:25-33 | Configuring never gives two index paths a non-stopped state. |
| `Playback.BindIdempotent` | Sources/Controllers/AudioHandler.swift:23-34 | Configuring the same index path twice shows the same as once and never changes the handler's fields. |
| `Playback.ReconfiguredKeepsOnlyCurrentActive` | Sources/Controllers/AudioHandler.swift:87-91 | Reloading the previous current cell's section keeps every visible cell away from the current index path stopped, whatever the handler's fields are after the reload. |
| `Playback.StepKeepsOnlyCurrentActive` | Sources/Controllers/AudioHandler.swift:23-113 | A bind, unbind, tap or finish keeps every visible cell away from the current index path stopped. |
| `Playback.RunKeepsOnlyCurrentActive` | Sources/Controllers/AudioHandler.swift:23-113 | Over any sequence of events, every visible cell away from the current index path stays stopped, so at most one visible cell is playing or paused. |
| `Playback.InitialOnlyCurrentActive` | Sources/Controllers/AudioHandler.swift:19-21 | Starting from a new handler and an empty screen, the invariant holds after any sequence of events. |
| `Playback.FirstTap` | Sources/Controllers/AudioHandler.swift:74-77 | The first tap makes the tapped index path current, plays the cell and opens its URL. |
| `Playback.RetapToggles` | Sources/Controllers/AudioHandler.swift:78-85 | A re-tap toggles `playing` and `paused` and pauses or resumes the same player. No player is created, dropped or re-targeted, and the current index path stays. |
| `Playback.TapTwiceResumes` | Sources/Controllers/AudioHandler.swift:78-85 | Tapping a playing current cell shows `paused`. Tapping it again restores the screen and the handler exactly, with the same player. |
| `Playback.Displacement` | Sources/Controllers/AudioHandler.swift:86-94 | A tap on another visible cell stops the previous one and plays the tapped one. It moves the current index path and opens the new URL in place of the old player. Every other visible cell is stopped. |
| `Playback.FailedOpenStillPlays` | Sources/Controllers/AudioHandler.swift:74-94 | With no URL or a file that fails to open, the tapped cell still plays and becomes current. The player stays as it was: none, or the previous message's. |
| `Playback.NothingPlaysAfterFailedSwitch` | Sources/Controllers/AudioHandler.swift:86-94 | When the file of the tapped cell cannot be opened, or it has no URL, and the previous player is paused, the tapped cell shows `playing` and becomes current. The paused player stays as the handler's only player, so nothing plays. |
| `Playback.FinishKeepsCurrent` | Sources/Controllers/AudioHandler.swift:109-113 | The finish notification stops the visible current cell but keeps the current index path, so configuring it again shows `paused`. |
| `AudioPlayer.AfterPlaySound` | Sources/Controllers/AudioHandler.swift:36-52 | The player changes only when a URL is given and the file opens. It is then a player on that URL, playing from the start, with the duration found on opening. |
| `AudioPlayer.AfterPause` | Sources/Controllers/AudioHandler.swift:60-64 | Pausing keeps the player, if any, changes only its playing flag, and leaves it not playing. |
| `AudioPlayer.AfterResume` | Sources/Controllers/AudioHandler.swift:54-58 | Resuming keeps the player, if any, changes only its playing flag, and leaves it playing. |
| `AudioPlayer.AfterStop` | Sources/Controllers/AudioHandler.swift:66-70 | Stopping keeps the player, if any, changes only its playing flag, and leaves it not playing. |
| `AudioPlayer.AfterFinish` | Sources/Controllers/AudioHandler.swift:109 | A player that has played its file to the end is still there, changed only in its playing flag, and not playing. |
| `AudioPlayer.PauseThenResume` | Sources/Controllers/AudioHandler.swift:54-64 | Pausing and then resuming a playing player (or no player) gives back the same value. |

## Left out

- AVFoundation: the audio session category and activation, decoding, `prepareToPlay` and the player's delegate wiring. Whether opening succeeds, and the duration it finds, are an input (`Opening`). Failures are not told apart, because the code only logs the error.
- The playback clock: a player's `currentTime` is the value the platform reports. The model never advances it. The `Float` conversion of the times is not modelled.
- `updateProgress` (Sources/Views/Cells/AudioMessageCell.swift:91-108): the percentage `currentTime / currentDuration` is floating-point division, possibly by zero, and the mm:ss label comes from a platform formatter. A timer firing is not modelled; `liveTimers` records which timers would fire.
- `DispatchQueue.main.async` deferral in the `state` observer and in `didTapMessage`: the deferred work is applied immediately, in program order.
- `setNeedsDisplay`, Auto Layout constraints, `setupSubviews`, `makeProgressView` and colours (Sources/Views/Cells/AudioMessageCell.swift:110-169): these are UI geometry.
- Sources/Views/PauseButtonView.swift and Sources/Protocols/AudioMessageLayoutDelegate.swift: drawing and floating-point layout, with no behaviour to verify.
- Sources/Protocols/AudioCellDelegate.swift and Sources/Protocols/AudioMessageEventHandler.swift: signatures only. The handler is the only delegate, so the cell's `audioDelegate` is an untyped reference.
- `DidTapMessage`: requires the cell's delegate to be the handler or nothing, because the model has a single handler.
- `super.configure(with:at:and:)` and `super.didTapMessage()`: the base message cell is not part of this model.
- `MessagesCollectionView` internals: `reloadSections` is modelled as configuring the section's visible audio cells again, immediately. Cells that are not audio message cells are not represented, which is what the `as? AudioMessageCell` cast filters out. The real collection view may bring other cell objects on screen for a reload; the model reuses the visible ones.
- Object lifetimes: a player that `playSound` replaces is released by reference counting, which silences it. The model holds only the current player and does not model the released one. The weak `audioDelegate` and the unowned `collectionView` never become dangling in the model.
- `AudioHandlers.AudioHandler.AudioPlayerDidFinishPlaying`: the `player` argument is not modelled. The notification is taken to come from the handler's current player, the only live player whose delegate is the handler. The player's playing flag going false is recorded in the same step.
