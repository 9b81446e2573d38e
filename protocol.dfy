/** The messages the page and its service worker exchange with `postMessage`:
    `{type, data}` records. Only the values are modelled; delivery is not. */
module Protocol {
  import opened Common
  import opened BlobStore

  /** The `data` part of a message, one shape per kind that carries one. */
  datatype Payload =
    | NoData
      /** TRACK_CHANGED: what the lock screen shows (`album` and `artwork` may be absent). */
    | TrackInfo(title: string, artist: string, album: Option<string>, artwork: Option<Url>)
      /** PLAYBACK_STATE_CHANGED: `position`, `duration` and `playbackRate` may be absent. */
    | StateInfo(isPlaying: bool, position: Option<real>, duration: Option<real>, playbackRate: Option<real>)
      /** SEEK: a relative jump in seconds. */
    | SeekOffset(offset: real)
      /** SEEK_TO: an absolute position in seconds. */
    | SeekTime(time: real)

  datatype Message = Message(kind: string, data: Payload)

  // Page to service worker.
  const TrackChanged := "TRACK_CHANGED"
  const PlaybackStateChanged := "PLAYBACK_STATE_CHANGED"
  const KeepAlive := "KEEP_ALIVE"

  // Service worker to page.
  const PlayCommand := "PLAY"
  const PauseCommand := "PAUSE"
  const PreviousCommand := "PREVIOUS"
  const NextCommand := "NEXT"
  const SeekCommand := "SEEK"
  const SeekToCommand := "SEEK_TO"
}
