/** The service worker's side of the protocol (sw.js:27-106): the `message` switch, the Media
    Session state its handlers assign, and the messages its media-action handlers send back.
    The Media Session is a value; `None` stands for a browser without `navigator.mediaSession`,
    where both handlers do nothing. */
module ServiceWorker {
  import opened Common
  import opened BlobStore
  import opened Protocol

  datatype Artwork = Artwork(src: Url, sizes: string, mime: string)

  datatype Metadata = Metadata(title: string, artist: string, album: string, artwork: seq<Artwork>)

  datatype PositionState = PositionState(duration: real, playbackRate: real, position: real)

  /** What the handlers write into `navigator.mediaSession`: the metadata, whether the seven
      action handlers are installed, `playbackState` and the last position state. */
  datatype MediaSession = MediaSession(
    metadata: Option<Metadata>,
    handlersInstalled: bool,
    playbackState: string,
    positionState: Option<PositionState>)

  /** A media key or lock-screen control, with the details the browser passes. */
  datatype MediaAction =
    | PlayAction
    | PauseAction
    | PreviousTrackAction
    | NextTrackAction
    | SeekBackward(seekOffset: Option<real>)
    | SeekForward(seekOffset: Option<real>)
    | SeekTo(seekTime: real)

  const DefaultAlbum := "Неизвестный альбом"
  const ArtworkMime := "image/jpeg"
  const ArtworkSizes: seq<string> := ["96x96", "128x128", "192x192", "256x256", "384x384", "512x512"]
  const DefaultSeekOffset: real := 10.0
  const DefaultPlaybackRate: real := 1.0

  /** `album || "Неизвестный альбом"`: an absent or empty album falls back to the default. */
  function AlbumOf(album: Option<string>): (r: string)
    ensures album.Some? && album.value != "" ==> r == album.value
    ensures album.None? || album.value == "" ==> r == DefaultAlbum
  {
    if album.Some? && album.value != "" then album.value else DefaultAlbum
  }

  /** The artwork list (sw.js:52-61): none without a cover, otherwise the same image at every
      size from 96x96 up to 512x512. */
  function ArtworkList(artwork: Option<Url>): (r: seq<Artwork>)
    ensures artwork.None? ==> r == []
    ensures artwork.Some? ==> |r| == |ArtworkSizes| && forall i :: 0 <= i < |r| ==>
      r[i] == Artwork(artwork.value, ArtworkSizes[i], ArtworkMime)
  {
    match artwork
    case None => []
    case Some(src) =>
      [Artwork(src, "96x96", ArtworkMime), Artwork(src, "128x128", ArtworkMime),
       Artwork(src, "192x192", ArtworkMime), Artwork(src, "256x256", ArtworkMime),
       Artwork(src, "384x384", ArtworkMime), Artwork(src, "512x512", ArtworkMime)]
  }

  /** `details.seekOffset || 10`: an absent or zero offset means ten seconds. */
  function SeekStep(seekOffset: Option<real>): (r: real)
    ensures seekOffset.None? || seekOffset.value == 0.0 ==> r == DefaultSeekOffset
    ensures seekOffset.Some? && seekOffset.value != 0.0 ==> r == seekOffset.value
  {
    if seekOffset.Some? && seekOffset.value != 0.0 then seekOffset.value else DefaultSeekOffset
  }

  /** The message each installed action handler sends to the page (sw.js:63-89). */
  function ActionMessage(action: MediaAction): (m: Message)
    ensures action == PlayAction <==> m == Message(PlayCommand, NoData)
    ensures action == PauseAction <==> m == Message(PauseCommand, NoData)
    ensures action == PreviousTrackAction <==> m == Message(PreviousCommand, NoData)
    ensures action == NextTrackAction <==> m == Message(NextCommand, NoData)
    ensures action.SeekBackward? ==> m == Message(SeekCommand, SeekOffset(-SeekStep(action.seekOffset)))
    ensures action.SeekForward? ==> m == Message(SeekCommand, SeekOffset(SeekStep(action.seekOffset)))
    ensures action.SeekTo? <==> m.kind == SeekToCommand
    ensures action.SeekTo? ==> m.data == SeekTime(action.seekTime)
  {
    match action
    case PlayAction => Message(PlayCommand, NoData)
    case PauseAction => Message(PauseCommand, NoData)
    case PreviousTrackAction => Message(PreviousCommand, NoData)
    case NextTrackAction => Message(NextCommand, NoData)
    case SeekBackward(o) => Message(SeekCommand, SeekOffset(-SeekStep(o)))
    case SeekForward(o) => Message(SeekCommand, SeekOffset(SeekStep(o)))
    case SeekTo(t) => Message(SeekToCommand, SeekTime(t))
  }

  /** A media action reaches the page only once `updateMediaSession` has installed the
      handlers. */
  function OnAction(session: Option<MediaSession>, action: MediaAction): (r: Option<Message>)
    ensures r.Some? <==> session.Some? && session.value.handlersInstalled
    ensures r.Some? ==> r.value == ActionMessage(action)
  {
    if session.Some? && session.value.handlersInstalled then Some(ActionMessage(action)) else None
  }

  /** `updateMediaSession(trackData)` (sw.js:44-91) on an existing session: new metadata with
      the album and artwork defaults, and the action handlers installed. A message without
      track data makes the handler throw before it assigns anything. */
  function UpdateMediaSession(session: MediaSession, data: Payload): (r: MediaSession)
    ensures !data.TrackInfo? ==> r == session
    ensures data.TrackInfo? ==>
      r.handlersInstalled && r.playbackState == session.playbackState && r.positionState == session.positionState
    ensures data.TrackInfo? ==> r.metadata == Some(Metadata(data.title, data.artist, AlbumOf(data.album), ArtworkList(data.artwork)))
  {
    match data
    case TrackInfo(title, artist, album, artwork) =>
      session.(metadata := Some(Metadata(title, artist, AlbumOf(album), ArtworkList(artwork))), handlersInstalled := true)
    case _ => session
  }

  /** `updatePlaybackState(stateData)` (sw.js:94-106): `playbackState` follows `isPlaying`, and
      the position state is replaced only when both position and duration are given, with the
      rate defaulting to 1. */
  function UpdatePlaybackState(session: MediaSession, data: Payload): (r: MediaSession)
    ensures !data.StateInfo? ==> r == session
    ensures data.StateInfo? ==> (r.playbackState == "playing" <==> data.isPlaying)
    ensures data.StateInfo? ==> (r.playbackState == "paused" <==> !data.isPlaying)
    ensures r.metadata == session.metadata && r.handlersInstalled == session.handlersInstalled
    ensures data.StateInfo? && data.position.Some? && data.duration.Some? ==>
      r.positionState == Some(PositionState(data.duration.value, RateOf(data.playbackRate), data.position.value))
    ensures data.StateInfo? && (data.position.None? || data.duration.None?) ==> r.positionState == session.positionState
  {
    match data
    case StateInfo(isPlaying, position, duration, rate) =>
      var state := if isPlaying then "playing" else "paused";
      if position.Some? && duration.Some? then
        session.(playbackState := state, positionState := Some(PositionState(duration.value, RateOf(rate), position.value)))
      else session.(playbackState := state)
    case _ => session
  }

  /** `stateData.playbackRate || 1.0` */
  function RateOf(rate: Option<real>): (r: real)
    ensures rate.None? || rate.value == 0.0 ==> r == DefaultPlaybackRate
    ensures rate.Some? && rate.value != 0.0 ==> r == rate.value
  {
    if rate.Some? && rate.value != 0.0 then rate.value else DefaultPlaybackRate
  }

  /** The `message` listener (sw.js:27-41): two kinds update the session, KEEP_ALIVE and every
      other kind leave it as it was. */
  function OnMessage(session: Option<MediaSession>, msg: Message): (r: Option<MediaSession>)
    ensures session.None? ==> r.None?
    ensures msg.kind != TrackChanged && msg.kind != PlaybackStateChanged ==> r == session
    ensures session.Some? && msg.kind == TrackChanged ==> r == Some(UpdateMediaSession(session.value, msg.data))
    ensures session.Some? && msg.kind == PlaybackStateChanged ==> r == Some(UpdatePlaybackState(session.value, msg.data))
  {
    match session
    case None => None
    case Some(ms) =>
      if msg.kind == TrackChanged then Some(UpdateMediaSession(ms, msg.data))
      else if msg.kind == PlaybackStateChanged then Some(UpdatePlaybackState(ms, msg.data))
      else session
  }

  /** The session before any message: no metadata, no handlers. */
  const InitialSession := MediaSession(None, false, "none", None)

  /** After a track change every media action comes back to the page as its message, and a
      KEEP_ALIVE in between changes nothing. */
  lemma {:induction false} TrackChangeEnablesActions(session: MediaSession, info: Payload, action: MediaAction)
    requires info.TrackInfo?
    ensures var s1 := OnMessage(Some(session), Message(TrackChanged, info));
      OnAction(OnMessage(s1, Message(KeepAlive, NoData)), action) == Some(ActionMessage(action))
  {
    var s1 := OnMessage(Some(session), Message(TrackChanged, info));
    assert s1 == Some(UpdateMediaSession(session, info));
    assert OnMessage(s1, Message(KeepAlive, NoData)) == s1;
  }

  /** Before the first track change no action reaches the page. */
  lemma NoActionsBeforeTrackChange(action: MediaAction)
    ensures OnAction(Some(InitialSession), action).None?
  {
  }

  /** The two directions of seeking are opposite jumps of the same size. */
  lemma SeekDirectionsOpposite(o: Option<real>)
    ensures ActionMessage(SeekBackward(o)).data.offset == -ActionMessage(SeekForward(o)).data.offset
    ensures ActionMessage(SeekForward(o)).data.offset != 0.0
  {
  }
}
