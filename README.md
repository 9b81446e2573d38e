# Music player core in Dafny

A model of the core of a browser music player. The page keeps a library of audio files in
IndexedDB, groups them into playlists, and plays them through one `<audio>` element. A service
worker relays lock-screen and media-key controls.

The model covers:

- the `MusicPlayer` class of `script.js`:
  - the playback state machine (play, pause, previous, next, track end, shuffle, repeat, volume,
    mute);
  - the library: uploads, playlists, track editing and covers, the cascading track delete, the
    full reset, and the active track list;
  - opening and upgrading the IndexedDB schema;
  - the `localStorage` snapshot written by `saveData` and read back by `loadData`;
  - the messages exchanged with the service worker;
  - `formatTime`.
- the message handling of `sw.js`: the `message` switch, the Media Session state it writes, and
  the messages its media-action handlers send back.

Modules:

- `Common`: optional values, results, identifiers, `NoDup`.
- `Json`: stored JSON values, JavaScript truthiness, property reads.
- `Text`: decimal numerals, `trim`, the file-extension regular expression, `formatTime`.
- `BlobStore`: the database as a version and named object stores, with open/upgrade, save, get,
  delete and clear.
- `Library`: tracks and playlists; how a playlist's id list resolves against the library;
  `indexOf`/`splice`; the snapshot encoding and the restore loop.
- `Protocol`: the `{type, data}` messages.
- `ServiceWorker`: `sw.js` as functions over a Media Session value.
- `Engine`: the whole player state as a value, with one transition function per operation. This
  is the specification. Its lemmas state what the player promises.
- `Player`: `class MusicPlayer`, with the source's fields and one method per operation. Each
  method is proved to leave `State()` equal to the matching `Engine` transition of the old
  state, and to keep `Valid()`. The source's loops stay loops: the upload loop, the `loadData`
  restore loop, the `saveAddToPlaylist` push loop and the `deleteTrack` `forEach`. They are
  written as value-level methods proved against `Engine`/`Library` functions.

Four behaviours of the code worth knowing, each stated as a lemma:

- `toggleMute` restores a fixed 70 percent, not the volume from before muting
  (`Engine.MuteTwiceForgetsVolume`).
- `handleImageFile` leaves the previous cover blob in the image store
  (`Engine.ReplacedCoverStays`).
- `deleteTrack` removes only the first occurrence of the track's id from each playlist
  (`Library.RemoveFirstKeepsLaterCopies`).
- `removeFromPlaylist(index)` splices the playlist's id list at the index of the displayed
  list. The two differ once an id matches no track (`Engine.RemoveWithDanglingId`).

## Model

| member | source | states |
|---|---|---|
| BlobStore.Upgrade | script.js:62-79 | both stores exist and are empty afterwards; every other store is kept as it was |
| BlobStore.OpenDatabase | script.js:50-86 | opens exactly when there is no database or its version is at most 2; the result is version 2; a missing or older database comes back with both stores empty; a version-2 database opens unchanged |
| BlobStore.InitializeDatabase | script.js:30-48 | fails only on a newer version; otherwise the database has both stores at version 2; an intact version-2 database keeps its contents; one missing a store is recreated empty |
| BlobStore.SaveFile | script.js:100-141 | succeeds exactly when the store is open and the key is unused; the record is added under the key and every other (store, key) lookup is unchanged; no database gives NotInitialized |
| BlobStore.GetFile | script.js:143-172 | succeeds exactly when the store is open; gives a URL exactly when a record exists, and that URL names the record |
| BlobStore.DeleteFile | script.js:174-183 | succeeds exactly when the store is open; the key is absent afterwards and every other lookup is unchanged |
| BlobStore.ClearStore | script.js:1004-1010 | succeeds exactly when the store is open; the store is empty afterwards and the other stores are unchanged |
| BlobStore.GetAfterSave | script.js:100-172 | a file that was saved can be fetched back at once as a URL for its key |
| BlobStore.GetAfterDelete | script.js:143-183 | a deleted key fetches as null |
| Text.NatToString | script.js:1058 | decimal digits, no leading zero, one digit exactly below 10 |
| Text.ParseNatToString | script.js:1058 | reading the printed numeral gives the number back |
| Text.PadStart2 | script.js:1058 | the string is kept as a suffix, padded on the left with '0' to length 2 |
| Text.PaddedSeconds | script.js:1057-1058 | the seconds field is two digits that read back as the value |
| Text.FormatTime | script.js:1053-1059 | "M:SS": the colon sits third from the end |
| Text.FormatTimeRoundTrip | script.js:1053-1059 | parsing the printed duration gives back the seconds |
| Text.FormatTimeInjective | script.js:1053-1059 | different durations never print alike |
| Text.Trim | script.js:823 | empty exactly when the input is all white space; otherwise it starts and ends with a non-space character; it is a slice of the input with only white space before and after it |
| Text.TrimStart | script.js:823 | drops exactly the leading white space |
| Text.TrimEnd | script.js:823 | drops exactly the trailing white space |
| Text.ExtensionUnique | script.js:1470 | `/\.[^/.]+$/` can match at only one position |
| Text.StripExtension | script.js:1470 | the name is kept exactly when the pattern matches nowhere; otherwise the result is the prefix before the match |
| Text.StripKnownExtension | script.js:1470 | `base.ext`, with `ext` free of dots and slashes, gives `base` |
| Library.OrDefault | script.js:948-949 | the string itself unless it is empty, otherwise the fallback |
| Library.IndexOf | script.js:972 | None exactly when `x` is absent; otherwise the first position holding `x` |
| Library.Positions | script.js:1046-1051 | the resolved positions are in range and at most one per listed id |
| Library.KeepPresent | script.js:1046-1051 | holds exactly the listed ids that some track carries |
| Library.PositionsMatchKeepPresent | script.js:1046-1051 | resolving a playlist yields, in list order, the first track for each id some track carries, and nothing else |
| Library.KeepPresentWhole | script.js:1046-1051 | a list without dangling ids keeps all its ids |
| Library.PositionsWhole | script.js:1046-1051 | without dangling ids, element `i` of the list is shown at position `i` |
| Library.PositionsAll | script.js:1046-1051 | without dangling ids, every id resolves to its first track |
| Library.PositionsSplice | script.js:910-921 | without dangling ids, splicing id `index` removes the displayed position `index` |
| Library.SpliceOne | script.js:913 | `splice(index, 1)`: one element fewer, the rest in order; an index past the end changes nothing |
| Library.RemoveFirst | script.js:971-976 | when `x` is there, the result is the list with its first `x` cut out (the multiset loses one `x`); otherwise nothing changes |
| Library.RemoveFirstNoDup | script.js:971-976 | in a list without repeats, `x` is gone afterwards and there are still no repeats |
| Library.SpliceNoDup | script.js:974 | splicing one position out of a list without repeats drops that id entirely |
| Library.RemoveFirstKeepsLaterCopies | script.js:971-976 | with a repeated id, a later copy stays in the list |
| Library.Unlisted | script.js:861-863 | holds exactly the library ids the playlist does not list |
| Library.AppendCandidatesNoDup | script.js:898-905 | appending distinct ids chosen from the unlisted candidates keeps the list free of repeats |
| Library.TrackToJson | script.js:1065-1072 | exactly the six saved fields; `coverId` is null exactly when there is no cover |
| Library.SnapshotIgnoresUrls | script.js:1065-1072 | the object URLs of a track never reach the snapshot |
| Library.DecodeTrack | script.js:1100-1104 | a restored track gets the new URL, no cover, and the entry's audio id |
| Library.DecodeSavedTrack | script.js:1065-1104 | a saved track decodes as itself, with a fresh URL and no cover |
| Library.LoadEntry | script.js:1097-1106 | a kept track has its own audio URL and a stored blob; the loop stops exactly on a null entry, or on a truthy audio id while the audio store is not open or when the id is not a valid key |
| Library.LoadTracks | script.js:1096-1107 | the kept tracks have their own audio URL, no cover and a stored blob; there are at most as many as entries |
| Library.LoadTracksStopped | script.js:1096-1107 | once the loop has stopped, later entries are never read |
| Library.LoadSavedTracks | script.js:1065-1107 | loading what `saveData` wrote never stops, and keeps exactly the tracks whose blob is stored, in order |
| Library.ReloadedWhole | script.js:1096-1107 | when every blob is stored, every track comes back, with its own URL and no cover |
| Library.FillCover | script.js:718-721 | a track with a cover id and no cover gets the URL of its stored cover blob, or stays without one when the blob is missing; the fetch throws exactly when the image store is not open, and then nothing could have been found |
| Library.FillCovers | script.js:707-721 | the loop leaves every track from the start position filled in, even though it ends at the first fetch that throws; the tracks before it are unchanged |
| Library.FillCoversResolves | script.js:707-721 | after the loop no cover is left to fill, and running it again changes nothing |
| Library.ResolvedFillChangesNothing | script.js:707-721 | on a list with no cover left to fill, the loop changes nothing |
| Library.DecodeSavedIds | script.js:1075-1113 | a saved id list decodes to itself |
| Library.DecodeSavedPlaylist | script.js:1075-1113 | a saved playlist decodes to itself |
| Library.DecodeSavedPlaylists | script.js:1075-1113 | the saved playlists decode to themselves, every field, and the id lists in order |
| Library.SliderValue | script.js:1120 | the slider holds 0..100: numbers and numerals are clamped into that range |
| Library.RepeatValue | script.js:1122 | the stored repeat mode read as 0, 1 or 2: nonzero exactly for the stored numbers 1 and 2 |
| Library.ReadSettings | script.js:1117-1123 | a stored null throws; otherwise the volume is 70 for a falsy stored value and the slider's reading of it otherwise, shuffle holds exactly when the stored value is truthy, and repeat is the stored mode read as 0..2 |
| Library.ReadSavedSettings | script.js:1077-1123 | saved settings read back as they were |
| Library.ReadEmptySettings | script.js:1119-1122 | an empty settings record gives volume 70, shuffle off and repeat off |
| Library.Persist | script.js:1062-1087 | the three keys hold the tracks, the playlists and the settings; every other key is kept |
| ServiceWorker.AlbumOf | sw.js:49 | a missing or empty album becomes "Неизвестный альбом" |
| ServiceWorker.ArtworkList | sw.js:50-59 | no artwork gives an empty list; otherwise the same image at each of the six sizes, as JPEG |
| ServiceWorker.SeekStep | sw.js:79-85 | the given offset, or 10 when it is absent or zero |
| ServiceWorker.ActionMessage | sw.js:63-89 | each media action sends its own command; seeks go back or forward by the offset; seekto carries the time |
| ServiceWorker.OnAction | sw.js:62-90 | an action reaches the page exactly when a session exists and its handlers are installed |
| ServiceWorker.UpdateMediaSession | sw.js:44-91 | track data sets the metadata with the defaults and installs the handlers; nothing else changes; no track data leaves the session as it was |
| ServiceWorker.RateOf | sw.js:101 | the given rate, or 1.0 when it is absent or zero |
| ServiceWorker.UpdatePlaybackState | sw.js:94-106 | "playing" exactly when isPlaying, otherwise "paused"; the position state is replaced only when both position and duration are given; metadata and handlers are kept |
| ServiceWorker.OnMessage | sw.js:27-41 | without a session nothing happens; the two kinds update the session; KEEP_ALIVE and unknown kinds change nothing |
| ServiceWorker.TrackChangeEnablesActions | sw.js:27-91 | after a track change, even with a KEEP_ALIVE in between, every action reaches the page as its message |
| ServiceWorker.NoActionsBeforeTrackChange | sw.js:62-90 | before the first track change no action reaches the page |
| ServiceWorker.SeekDirectionsOpposite | sw.js:79-85 | the backward and forward seeks are opposite nonzero jumps |
| Engine.Initial | script.js:2-22 | empty library, no playlist, index 0, not playing, no shuffle, no repeat, no database |
| Engine.CurrentPositions | script.js:1046-1051 | positions into the library; with no playlist open, the whole library in order |
| Engine.CurrentTrackListIsLibrary | script.js:1046-1051 | with no playlist open, the active list is the library |
| Engine.CurrentTrackListOfPlaylist | script.js:1046-1051 | an open playlist shows the ids that match a track, in list order, each as the first track with that id |
| Engine.Play | script.js:529-561 | nothing without a current track; only the current track's URL and cover, the source and the playing flag change; a track with a stored blob becomes the source, and the player plays when it was already playing or playback starts; without a blob nothing starts; once playback starts, `updateCurrentTrackInfo` fills in the current track's missing cover from the image store |
| Engine.PlayShowsStoredCover | script.js:1309-1324 | after a play that starts, TRACK_CHANGED carries the current track's cover: the one it had, or the URL of its stored cover blob |
| Engine.PlayKeepsCoversResolved | script.js:700-721 | when no track has a cover left to fill, none has after `play`, so its closing `updateTrackList` changes no track |
| Engine.PlayIdempotent | script.js:529-561 | playing twice in a row is playing once |
| Engine.Pause | script.js:563-572 | stops playing and changes nothing else |
| Engine.TogglePlay | script.js:518-527 | nothing on an empty list; pauses when playing, plays otherwise |
| Engine.PreviousTrack | script.js:575-581 | on a non-empty list, index (i - 1 + n) mod n, then play; nothing on an empty list |
| Engine.PreviousIndex | script.js:575-581 | from the first track to the last, otherwise one step back |
| Engine.ShuffleIndex | script.js:588 | `Math.floor(Math.random() * n)` lies in [0, n) |
| Engine.ShuffleReachesEvery | script.js:588 | every position is drawn for some random value |
| Engine.NextTrack | script.js:583-593 | on a non-empty list, the shuffled index or (i + 1) mod n, then play; nothing on an empty list |
| Engine.NextIndex | script.js:583-593 | without shuffle, one step forward, from the last track to the first |
| Engine.NextThenPrevious | script.js:575-593 | without shuffle, next then previous returns to the same index |
| Engine.NextTimesSteps | script.js:583-593 | `k` nexts are `k` wrapping steps |
| Engine.NextTimesIndex | script.js:583-593 | `k` nexts without shuffle land at (i + k) mod n |
| Engine.NextWrapsAround | script.js:583-593 | `n` nexts without shuffle come back to the start |
| Engine.HandleTrackEnd | script.js:595-608 | repeat-one replays the same index; repeat-all is next; with no repeat, next before the last track, otherwise pause at the same index |
| Engine.ToggleShuffle | script.js:610-613 | flips shuffle, nothing else |
| Engine.ToggleShuffleTwice | script.js:610-613 | toggling twice restores the state |
| Engine.ToggleRepeat | script.js:615-621 | cycles off, all, one, off; nothing else changes |
| Engine.ToggleRepeatThrice | script.js:615-621 | three toggles restore the state |
| Engine.SetVolume | script.js:629-632 | the volume becomes the slider level, nothing else changes |
| Engine.ToggleMute | script.js:634-643 | a sounding player goes to 0, a silent one to 70; nothing else changes |
| Engine.MuteTwiceForgetsVolume | script.js:634-643 | muting and unmuting gives 70, so any other volume is lost |
| Engine.OpenPlaylist | script.js:840-847 | that playlist is open and the index is 0; nothing else changes |
| Engine.BackToPlaylists | script.js:849-854 | the library is the active list; the index is kept |
| Engine.SaveData | script.js:1062-1087 | only the storage changes, to the snapshot of tracks, playlists and settings |
| Engine.SaveCreatePlaylist | script.js:822-838 | a blank name does nothing; otherwise one empty playlist is appended, with the trimmed name and description, and saved; its name does not start with white space |
| Engine.Candidates | script.js:861-863 | exactly the library ids the open playlist does not list |
| Engine.SaveAddToPlaylist | script.js:898-908 | no open playlist or no selection does nothing; otherwise the selection is appended to the open playlist in order and saved |
| Engine.AddCandidatesKeepsNoDup | script.js:855-908 | a selection from the candidates keeps the playlist free of repeats |
| Engine.AdjustIndex | script.js:915-917 | `Math.max(0, i - 1)` when the removed position is at or before `i`; otherwise `i` |
| Engine.RemoveFromPlaylist | script.js:910-921 | the id at `index` of the open playlist goes, the index is adjusted, and the result is saved; no open playlist does nothing |
| Engine.RemovedPositions | script.js:910-921 | afterwards the open playlist resolves its spliced list against the same tracks |
| Engine.RemoveShownPosition | script.js:910-921 | without dangling ids, the displayed position `index` is removed |
| Engine.RemoveShownTrack | script.js:910-921 | without dangling ids, the track shown at `index` disappears from the active list |
| Engine.RemoveWithDanglingId | script.js:910-921 | with a dangling first id, removing the first shown track leaves the active list unchanged |
| Engine.SaveTrackEdit | script.js:946-956 | only the edited track changes: trimmed title and artist, blanks falling back to "Без названия" and "Неизвестный исполнитель"; then saved; no edited track does nothing |
| Engine.HandleImageFile | script.js:482-496 | the image is stored under the new id and becomes the edited track's cover; a failing save, no file or no edited track does nothing |
| Engine.ReplacedCoverStays | script.js:482-496 | the old cover's blob is still stored afterwards |
| Engine.DeleteBlobs | script.js:963-969 | both deletions go through exactly when their stores are open; a failed audio deletion changes nothing; when both succeed, both blobs are gone and every other record is kept |
| Engine.PruneAll | script.js:971-976 | each playlist loses the first occurrence of the id and nothing else |
| Engine.DeleteTrack | script.js:958-990 | unconfirmed does nothing; a failing deletion stops there; otherwise the blobs go, playlists are pruned, the track is spliced out, the index is adjusted, and the result is saved; nothing else changes |
| Engine.DeleteTrackKeepsIndexInRange | script.js:978-982 | an index that was in range stays in range, or is 0 in an empty library |
| Engine.DeleteTrackLeavesNoReference | script.js:971-976 | with no repeats in the playlists, the deleted id is gone from every playlist |
| Engine.ClearStores | script.js:1004-1010 | both clears go through exactly when both stores are open; on success both stores are empty |
| Engine.ConfirmReset | script.js:1001-1043 | stores cleared, the three keys removed, library and playlists empty, index 0, no playlist, stopped, no source; the settings stay; a store that cannot be cleared stops the reset there |
| Engine.ResetThenReload | script.js:1001-1139 | after a reset, a reload brings nothing back |
| Engine.RestoreTracks | script.js:1092-1108 | restored tracks have their own audio URL and no cover |
| Engine.SavedTracks | script.js:1092-1108 | nothing when the key is absent; restored tracks have their own URL and no cover |
| Engine.LoadSettings | script.js:1110-1123 | only the playlists, volume, shuffle and repeat change; nothing changes when both keys are absent |
| Engine.LoadData | script.js:1089-1139 | the library is the old one followed by the restored tracks; when nothing threw, the closing `updateTrackList` gives every track without a cover the URL of its stored cover blob, and no cover is left to fill; when something threw, no cover is filled; index, database and storage are kept; a storage without the three keys changes only covers |
| Engine.SaveThenLoad | script.js:1062-1139 | a reload restores the tracks whose audio blobs survive, in order, each with the URL of its cover blob exactly when that blob survives; the playlists exactly; and the settings |
| Engine.InitializeDatabase | script.js:30-48 | a database that cannot be opened changes nothing; otherwise it holds both stores and the snapshot is loaded by `Engine.LoadData`, covers included |
| Engine.NewTrack | script.js:1467-1476 | file name without its extension, the default artist, "0:00", the given ids and URL, no cover |
| Engine.IngestFile | script.js:1462-1490 | a save that fails skips the file; otherwise the blob is stored and its track appended |
| Engine.IngestAll | script.js:1458-1490 | the earlier tracks stay as a prefix; at most one track is added per file |
| Engine.IngestAllKeeps | script.js:1458-1490 | every appended track is fresh and its blob is stored; every earlier record is kept |
| Engine.IngestFileComplete | script.js:1462-1490 | with the store open and an unused id, the track is appended and exactly that record is added |
| Engine.IngestAllStore | script.js:1458-1490 | with the store open and fresh distinct ids, each file is stored under its id and no other key changes |
| Engine.IngestAllComplete | script.js:1458-1490 | with the store open and fresh distinct ids, every file becomes its track, in order |
| Engine.IngestCoherent | script.js:1458-1490 | every cached URL is still its own track's blob |
| Engine.ProcessAudioFiles | script.js:1453-1497 | nothing for no files; otherwise ingestion, then a save |
| Engine.IngestedTracksReload | script.js:1453-1497 | with every earlier blob stored, a reload after uploading restores every track |
| Engine.PatchDuration | script.js:1482-1487 | the track with that id gets `formatTime(duration)`, nothing else changes, and the snapshot is saved |
| Engine.HandleServiceWorkerMessage | script.js:1334-1357 | PLAY plays unless already playing; PAUSE pauses only when playing; PREVIOUS and NEXT step; SEEK and SEEK_TO move the position; anything else does nothing |
| Engine.PlayPauseCommandsIdempotent | script.js:1334-1357 | a repeated PLAY or PAUSE does nothing more |
| Engine.MediaActionEffect | sw.js:63-89 | a media action relayed by the worker acts like the matching button; seeks default to ten seconds |
| Engine.TrackChangedMessage | script.js:1309-1324 | sent exactly when there is a current track; it is a TRACK_CHANGED carrying track data |
| Engine.PlaybackStateMessage | script.js:663-671 | PLAYBACK_STATE_CHANGED with the playing flag, the position and the duration |
| Engine.LockScreenShowsTrack | script.js:1309-1324 | the lock screen shows the current track's title and artist under "Мой плейлист", with its cover at every size, and the handlers are installed |
| Engine.SessionFollowsPlayback | script.js:663-671 | the session's playback state follows the player, and its position state is the player's position at rate 1 |
| Player.MusicPlayer.constructor | script.js:2-22 | the object's state is `Engine.Initial` |
| Player.MusicPlayer.Play | script.js:529-561 | the new state is `Engine.Play` of the old one, with the cover fetched by `Library.FillCover`; the object stays valid |
| Player.MusicPlayer.Pause | script.js:563-572 | the new state is `Engine.Pause` of the old one |
| Player.MusicPlayer.TogglePlay | script.js:518-527 | the new state is `Engine.TogglePlay` of the old one |
| Player.MusicPlayer.PreviousTrack | script.js:575-581 | the new state is `Engine.PreviousTrack` of the old one |
| Player.MusicPlayer.NextTrack | script.js:583-593 | the new state is `Engine.NextTrack` of the old one |
| Player.MusicPlayer.HandleTrackEnd | script.js:595-608 | the new state is `Engine.HandleTrackEnd` of the old one |
| Player.MusicPlayer.ToggleShuffle | script.js:610-613 | the new state is `Engine.ToggleShuffle` of the old one |
| Player.MusicPlayer.ToggleRepeat | script.js:615-621 | the new state is `Engine.ToggleRepeat` of the old one |
| Player.MusicPlayer.SetVolume | script.js:629-632 | the new state is `Engine.SetVolume` of the old one |
| Player.MusicPlayer.ToggleMute | script.js:634-643 | the new state is `Engine.ToggleMute` of the old one |
| Player.MusicPlayer.OpenPlaylist | script.js:840-847 | the new state is `Engine.OpenPlaylist` of the old one |
| Player.MusicPlayer.BackToPlaylists | script.js:849-854 | the new state is `Engine.BackToPlaylists` of the old one |
| Player.MusicPlayer.SaveData | script.js:1062-1087 | the new state is `Engine.SaveData` of the old one |
| Player.MusicPlayer.SaveCreatePlaylist | script.js:822-838 | the new state is `Engine.SaveCreatePlaylist` of the old one |
| Player.MusicPlayer.SaveAddToPlaylist | script.js:898-908 | the new state is `Engine.SaveAddToPlaylist` of the old one |
| Player.MusicPlayer.RemoveFromPlaylist | script.js:910-921 | the new state is `Engine.RemoveFromPlaylist` of the old one |
| Player.MusicPlayer.SaveTrackEdit | script.js:946-956 | the new state is `Engine.SaveTrackEdit` of the old one |
| Player.MusicPlayer.HandleImageFile | script.js:482-496 | the new state is `Engine.HandleImageFile` of the old one |
| Player.MusicPlayer.DeleteTrack | script.js:958-990 | the new state is `Engine.DeleteTrack` of the old one |
| Player.MusicPlayer.DeleteBlobs | script.js:963-969 | the database and the completion flag are `Engine.DeleteBlobs`; nothing else changes |
| Player.MusicPlayer.RemoveTrackAt | script.js:978-982 | the track is spliced out and the index adjusted; nothing else changes |
| Player.MusicPlayer.ConfirmReset | script.js:1001-1043 | the new state is `Engine.ConfirmReset` of the old one |
| Player.MusicPlayer.ClearStores | script.js:1004-1010 | the database and the completion flag are `Engine.ClearStores`; nothing else changes |
| Player.MusicPlayer.ResetLibrary | script.js:1012-1030 | keys removed, library and playlists emptied, index 0, stopped, no source; the settings stay |
| Player.MusicPlayer.LoadData | script.js:1089-1139 | the new state is `Engine.LoadData` of the old one, with the closing cover loop run as `Player.FillListCovers` |
| Player.MusicPlayer.RestoreLibrary | script.js:1092-1108 | the tracks of `Engine.SavedTracks` are appended, and the flag tells whether the block threw |
| Player.MusicPlayer.LoadSettings | script.js:1110-1123 | the new state is `Engine.LoadSettings` of the old one |
| Player.MusicPlayer.InitializeDatabase | script.js:30-48 | the new state is `Engine.InitializeDatabase` of the old one |
| Player.MusicPlayer.ProcessAudioFiles | script.js:1453-1497 | the new state is `Engine.ProcessAudioFiles` of the old one |
| Player.MusicPlayer.PatchDuration | script.js:1482-1487 | the new state is `Engine.PatchDuration` of the old one |
| Player.MusicPlayer.HandleServiceWorkerMessage | script.js:1334-1357 | the new state is `Engine.HandleServiceWorkerMessage` of the old one |
| Player.AppendSelected | script.js:901-905 | the push loop leaves the ids followed by the selection, in order |
| Player.PrunePlaylists | script.js:971-976 | the `forEach` loop gives `Engine.PruneAll` |
| Player.RestoreEntries | script.js:1096-1107 | the restore loop keeps what `Library.LoadTracks` keeps, and stops where it stops |
| Player.FillListCovers | script.js:707-721 | the cover loop of `updateTrackList` gives `Library.FillCovers` |
| Player.IngestFiles | script.js:1458-1490 | the upload loop leaves the database and library of `Engine.IngestAll` |

## Left out

- The audio element itself is not modelled: decoding, the Web Audio visualiser and seeking by
  slider. The outcome of `audio.play()` is the parameter `started`; `audio.src` and
  `audio.currentTime` are fields.
- The DOM is not modelled: rendering, modals, tabs, drag and drop, the progress bar and alerts.
  The background mode, mini player, notifications and wake lock are left out too. None of them
  changes the player's state, except the cover step of `updateTrackList` and
  `updateCurrentTrackInfo`, which stores a fetched cover URL on the track. That step is
  modelled where `loadData` and `play` run it.
- The other render calls are left out. They are `updateTrackList` in `switchToTracksView`,
  `openPlaylist`, `saveAddToPlaylist`, `removeFromPlaylist`, `saveTrackEdit`, `deleteTrack`,
  `confirmReset` and `processAudioFilesWithProgress`, `updateTrackList` at the end of `play`,
  and `updateCurrentTrackInfo` in `saveTrackEdit`, `deleteTrack` and `confirmReset`. They fill
  only a cover whose blob is stored on a track without one. A completed `loadData` leaves no
  such track (Engine.LoadData), and `play` keeps it so (Engine.PlayKeepsCoversResolved). The
  model does not prove the same for the other operations. The case where they differ is a
  `loadData` that threw: then it filled no cover, and the source's next render fills them,
  while the model does not. `currentView` is not modelled; at `loadData` it is the
  constructor's "tracks", so its `updateTrackList` renders the library.
- The install and fetch handlers of `sw.js` (lines 1-24) are left out: they only cache files.
  Message delivery through `postMessage`/`clients.matchAll` is not modelled. A message is a
  value handed from one side to the other.
- Asynchrony is not modelled. Every `await` completes before the next statement, so a click
  that interleaves with a pending operation is not covered. The `loadedmetadata` listener is
  the separate operation `PatchDuration`, called whenever the event fires.
- Nondeterministic inputs are parameters:
  - fresh ids (`Date.now() + Math.random()`): `blobIds`, `trackIds`, `id`, `imageId`;
  - the creation date: `created`;
  - `Math.random()` for shuffle: `random`;
  - the answer to `confirm`: `confirmed`;
  - the database found on disk: `disk`;
  - the initial slider volume and `localStorage` contents: constructor parameters.
- Ids are positive integers. The source's are positive floats, and only their equality is used.
- `URL.createObjectURL` is modelled as the (store, key) pair a URL was made from. Whether a URL
  is fresh, and URL revocation, are not modelled.
- `JSON.stringify`/`JSON.parse` are taken as the identity on stored JSON trees. Numbers in the
  snapshot are integers. A `localStorage.setItem` that fails on quota is not modelled.
- Player.MusicPlayer.constructor: it does not start `initializeDatabase`. That is the separate
  method `InitializeDatabase`.
- The volume is a whole percentage of the slider, and `audio.volume` is that value over 100.
  Fractional slider values are not modelled.
- Text.FormatTime: takes a whole number of seconds. The caller's `Math.floor` of a fractional
  duration, and NaN (which prints "0:00"), are not modelled.
- `currentPlaylist` is a position in `playlists`; the source holds a reference to the playlist
  object. Engine.LoadData requires that no playlist is open: the source calls it only from
  `initializeDatabase`, before any playlist can be opened.
- The edited track is given as its position `editing`; the source holds a reference in
  `currentEditingTrack`.
- `selectedTracks` (a `Set`) is a sequence in insertion order. Freedom from repeats is a
  precondition where it matters.
- Engine.ShuffleIndex: promises only that the index lies in [0, n) and that every index can
  occur. The distribution of `Math.random` is not modelled.
- Library.RepeatValue: a stored repeat mode other than the numbers 1 and 2 reads as 0. The
  source would keep any truthy value, a string "2" or a 3 for instance, and would then display
  an unexpected repeat mode.
- Library.ReadSettings: a truthy stored `isShuffled` reads as `true`. The source keeps the stored
  value itself, which acts the same in every later test.
- Library.DecodeTrack: a saved entry whose fields do not have the shapes `saveData` writes is
  skipped. The source would push it with whatever fields it has, once its audio id has found a
  blob; an audio id that is not a valid key ends the block as a throw in both. A tracks value that is a
  string restores nothing, and any other non-array value ends the block as a throw, as in the
  source.
- Library.SliderValue: a value that is not a number or a natural numeral takes the range
  input's midpoint, 50. The source reads any valid floating-point string, so "-5" would give 0
  and "1e2" 100 there.
- Engine.LoadSettings: the playlists are replaced only when the stored value is a list of
  well-formed playlists; otherwise the old list stays. The source assigns whatever it parsed
  (script.js:1113), and a malformed value would break later playlist operations.
- Engine.HandleServiceWorkerMessage: SEEK and SEEK_TO set the position without clamping it to
  [0, duration], which the media element does (script.js:1351, 1354). Installing a new `src`
  in `play` does not reset the position to 0 (script.js:540-541). A negative position, which
  would make `setPositionState` throw, is not excluded.
- Engine.PatchDuration: finds the track by its id, the first track with that id. The source
  patches the object it created, even after that object has left the library; then only the
  save is visible, as in the model.
- Where several field updates happen in one method, they are made one after another. A
  reentrant call during an `await` is not modelled.
