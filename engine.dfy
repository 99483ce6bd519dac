/** The boundary with the media engine: the commands the coordinator issues to
    it, the raw status it reports, the four coarse playback states that status
    is reduced to, and the events pushed to the host page. */
module Engine {
  import opened Wrappers

  /** The source handed to `replace`. */
  datatype Source = Source(uri: string, headers: Option<string>)

  /** What the lock screen shows for the active track. */
  datatype LockScreenInfo = LockScreenInfo(title: string, artist: string, artworkUrl: string)

  /** One call into the engine (or the audio session), in the order issued. */
  datatype Command =
    | SetAudioMode(playsInSilentMode: bool, shouldPlayInBackground: bool, interruptionMode: string)
    | CreatePlayer
    | Replace(source: Option<Source>)
    | SetPlaybackRate(rate: real)
    | SetActiveForLockScreen(active: bool, info: Option<LockScreenInfo>)
    | Play
    | Pause
    | SeekTo(position: real)
    | AddStatusListener
    | RemoveStatusListener

  /** The fields of a playback status update the listener looks at. */
  datatype Status = Status(
    isLoaded: bool,
    isBuffering: bool,
    playing: bool,
    didJustFinish: bool,
    currentTime: real)

  datatype PlaybackState = Loading | Buffering | Playing | Paused

  /** Outbound notifications: `playbackState`, `trackChanged`, `queueEnded`. */
  datatype Event =
    | PlaybackStateEvent(state: PlaybackState)
    | TrackChanged(index: int, lastIndex: int)
    | QueueEnded(track: int, position: real)

  /** The priority chain: not loaded is `loading` whatever else holds, then a
      stall is `buffering`, then advancing is `playing`, and the rest `paused`. */
  function MapStatus(st: Status): (state: PlaybackState)
    ensures state == Loading <==> !st.isLoaded
    ensures state == Buffering <==> st.isLoaded && st.isBuffering
    ensures state == Playing <==> st.isLoaded && !st.isBuffering && st.playing
    ensures state == Paused <==> st.isLoaded && !st.isBuffering && !st.playing
  {
    if !st.isLoaded then Loading
    else if st.isBuffering then Buffering
    else if st.playing then Playing
    else Paused
  }
}
