/**
 * The shared audio player the handler owns, seen as a value: which file it
 * holds, whether it is playing, and the times it reports. Decoding and audio
 * output belong to the platform; the outcome of opening a file is an input.
 */
module AudioPlayer {
  import opened Foundation

  datatype Player = Player(url: Url, isPlaying: bool, currentTime: real, duration: real)

  /** What activating the audio session and decoding a file yields. */
  datatype Opening = Opened(duration: real) | OpenFailed

  /**
   * The player after `playSound(with:)`: no URL leaves the player as it was;
   * a failed open leaves it as it was (the error is only logged); a
   * successful open replaces it by a new player on that URL, already playing
   * from the start.
   */
  function AfterPlaySound(p: Option<Player>, url: Option<Url>, opening: Opening): (r: Option<Player>)
    ensures r != p ==> url.Some? && opening.Opened?
    ensures url.Some? && opening.Opened? ==>
      && r.Some? && r.value.url == url.value && r.value.isPlaying
      && r.value.currentTime == 0.0 && r.value.duration == opening.duration
  {
    if url.None? || opening.OpenFailed? then p
    else Some(Player(url.value, true, 0.0, opening.duration))
  }

  /** The player after `pauseSound()`: only a playing player is paused. */
  function AfterPause(p: Option<Player>): (r: Option<Player>)
    ensures r.Some? == p.Some?
    ensures r.Some? ==> !r.value.isPlaying && r.value.(isPlaying := p.value.isPlaying) == p.value
  {
    if p.Some? && p.value.isPlaying then Some(p.value.(isPlaying := false)) else p
  }

  /** The player after `resumeSound()`: any existing player is told to play. */
  function AfterResume(p: Option<Player>): (r: Option<Player>)
    ensures r.Some? == p.Some?
    ensures r.Some? ==> r.value.isPlaying && r.value.(isPlaying := p.value.isPlaying) == p.value
  {
    if p.Some? then Some(p.value.(isPlaying := true)) else p
  }

  /**
   * The player after `stopSound()`: only a playing player is stopped. The
   * handler's `stopSound()` has the same body as `pauseSound()`, so this is
   * `AfterPause` again. Nothing in the handler calls `stopSound()`.
   */
  function AfterStop(p: Option<Player>): (r: Option<Player>)
    ensures r.Some? == p.Some?
    ensures r.Some? ==> !r.value.isPlaying && r.value.(isPlaying := p.value.isPlaying) == p.value
  {
    if p.Some? && p.value.isPlaying then Some(p.value.(isPlaying := false)) else p
  }

  /** The player after it has played its file to the end: it is no longer playing. */
  function AfterFinish(p: Option<Player>): (r: Option<Player>)
    ensures r.Some? == p.Some?
    ensures r.Some? ==> !r.value.isPlaying && r.value.(isPlaying := p.value.isPlaying) == p.value
  {
    if p.Some? then Some(p.value.(isPlaying := false)) else p
  }

  /** A pause followed by a resume puts a playing player back exactly as it was. */
  lemma PauseThenResume(p: Option<Player>)
    requires p.Some? ==> p.value.isPlaying
    ensures AfterResume(AfterPause(p)) == p
  {
  }
}
