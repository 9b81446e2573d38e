/** The `MusicPlayer` class of script.js as an object whose methods update its fields in
    place. Each method is proved to leave the object valid and in the state the matching
    `Engine` transition prescribes, so every lemma proved about `Engine` holds of the object.

    The loops of the source stay loops here: ingestion of uploaded files, the restore loop of
    `loadData`, the append loop of `saveAddToPlaylist` and the `forEach` of `deleteTrack`. */
module Player {
  import opened Common
  import opened Json
  import opened Text
  import opened BlobStore
  import opened Library
  import opened Protocol
  import Engine

  class MusicPlayer {
    var tracks: seq<Track>
    var playlists: seq<Playlist>
    var currentTrackIndex: nat
    var currentPlaylist: Option<nat>
    var isPlaying: bool
    var isShuffled: bool
    var repeatMode: nat
    var volume: nat
    var db: Option<Database>
    var storage: map<string, Json>
    var audioSrc: Option<Url>
    var currentTime: real

    /** The object's fields as an `Engine` state. */
    function State(): Engine.PlayerState
      reads this
    {
      Engine.PlayerState(tracks, playlists, currentTrackIndex, currentPlaylist, isPlaying, isShuffled,
                         repeatMode, volume, db, storage, audioSrc, currentTime)
    }

    predicate Valid()
      reads this
    {
      Engine.Valid(State())
    }

    /** The constructor (script.js:1-28): an empty library, no playlist open, nothing
        playing, the database not yet open. */
    constructor(initialVolume: nat, savedStorage: map<string, Json>)
      requires initialVolume <= Engine.MaxVolume
      ensures State() == Engine.Initial(initialVolume, savedStorage)
      ensures Valid()
    {
      tracks := [];
      playlists := [];
      currentTrackIndex := 0;
      currentPlaylist := None;
      isPlaying := false;
      isShuffled := false;
      repeatMode := 0;
      volume := initialVolume;
      db := None;
      storage := savedStorage;
      audioSrc := None;
      currentTime := 0.0;
    }

    /* ---------------- Transport ---------------- */

    /** `play()` (script.js:529-561), with the cover step of `updateCurrentTrackInfo` once
        playback has started. */
    method Play(started: bool)
      requires Valid()
      modifies this
      ensures State() == Engine.Play(old(State()), started)
      ensures Valid()
    {
      var p := Engine.CurrentPositions(State());
      if currentTrackIndex >= |p| {
        return;
      }
      var k := p[currentTrackIndex];
      var t := tracks[k];
      var url := t.url;
      if url.None? {
        var fetched := GetFile(db, t.audioId, AudioStore);
        if fetched.Err? {
          return;
        }
        url := fetched.value;
      }
      var shown := t.(url := url);
      audioSrc := url;
      if started && url.Some? {
        isPlaying := true;
        var filled := FillCover(db, shown);
        if filled.Ok? {
          shown := filled.value;
        }
      }
      Engine.CoherentUpdate(tracks, k, shown);
      tracks := tracks[k := shown];
    }

    /** `pause()` (script.js:563-572) */
    method Pause()
      requires Valid()
      modifies this
      ensures State() == Engine.Pause(old(State()))
      ensures Valid()
    {
      isPlaying := false;
    }

    /** `togglePlay()` (script.js:518-527) */
    method TogglePlay(started: bool)
      requires Valid()
      modifies this
      ensures State() == Engine.TogglePlay(old(State()), started)
      ensures Valid()
    {
      if |Engine.CurrentPositions(State())| == 0 {
        return;
      }
      if isPlaying {
        Pause();
      } else {
        Play(started);
      }
    }

    /** `previousTrack()` (script.js:575-581) */
    method PreviousTrack(started: bool)
      requires Valid()
      modifies this
      ensures State() == Engine.PreviousTrack(old(State()), started)
      ensures Valid()
    {
      var n := |Engine.CurrentPositions(State())|;
      if n == 0 {
        return;
      }
      MoveTo((currentTrackIndex - 1 + n) % n);
      Play(started);
    }

    /** Points `currentTrackIndex` at another position of the current list. */
    method MoveTo(i: nat)
      requires Valid()
      modifies this
      ensures State() == old(State()).(currentTrackIndex := i)
      ensures Valid()
    {
      currentTrackIndex := i;
    }

    /** `nextTrack()` (script.js:583-593); `random` is the value of `Math.random()`. */
    method NextTrack(random: real, started: bool)
      requires Valid() && 0.0 <= random < 1.0
      modifies this
      ensures State() == Engine.NextTrack(old(State()), random, started)
      ensures Valid()
    {
      var n := |Engine.CurrentPositions(State())|;
      if n == 0 {
        return;
      }
      if isShuffled {
        MoveTo(Engine.ShuffleIndex(random, n));
      } else {
        MoveTo((currentTrackIndex + 1) % n);
      }
      Play(started);
    }

    /** `handleTrackEnd()` (script.js:595-608) */
    method HandleTrackEnd(random: real, started: bool)
      requires Valid() && 0.0 <= random < 1.0
      modifies this
      ensures State() == Engine.HandleTrackEnd(old(State()), random, started)
      ensures Valid()
    {
      if repeatMode == 2 {
        Play(started);
      } else if repeatMode == 1 {
        NextTrack(random, started);
      } else if currentTrackIndex < |Engine.CurrentPositions(State())| - 1 {
        NextTrack(random, started);
      } else {
        Pause();
      }
    }

    /* ---------------- Modes and volume ---------------- */

    /** `toggleShuffle()` (script.js:610-613) */
    method ToggleShuffle()
      requires Valid()
      modifies this
      ensures State() == Engine.ToggleShuffle(old(State()))
      ensures Valid()
    {
      isShuffled := !isShuffled;
    }

    /** `toggleRepeat()` (script.js:615-622) */
    method ToggleRepeat()
      requires Valid()
      modifies this
      ensures State() == Engine.ToggleRepeat(old(State()))
      ensures Valid()
    {
      repeatMode := (repeatMode + 1) % 3;
    }

    /** `setVolume()` (script.js:629-632) with the slider at `level`. */
    method SetVolume(level: nat)
      requires Valid() && level <= Engine.MaxVolume
      modifies this
      ensures State() == Engine.SetVolume(old(State()), level)
      ensures Valid()
    {
      volume := level;
    }

    /** `toggleMute()` (script.js:634-643) */
    method ToggleMute()
      requires Valid()
      modifies this
      ensures State() == Engine.ToggleMute(old(State()))
      ensures Valid()
    {
      if volume > 0 {
        volume := 0;
      } else {
        volume := Engine.UnmuteVolume;
      }
    }

    /* ---------------- Playlists ---------------- */

    /** `openPlaylist(playlist)` (script.js:840-847) for the playlist at `k`. */
    method OpenPlaylist(k: nat)
      requires Valid() && k < |playlists|
      modifies this
      ensures State() == Engine.OpenPlaylist(old(State()), k)
      ensures Valid()
    {
      currentPlaylist := Some(k);
      currentTrackIndex := 0;
    }

    /** `backToPlaylists()` (script.js:849-854) */
    method BackToPlaylists()
      requires Valid()
      modifies this
      ensures State() == Engine.BackToPlaylists(old(State()))
      ensures Valid()
    {
      currentPlaylist := None;
    }

    /** `saveData()` (script.js:1062-1087) */
    method SaveData()
      requires Valid()
      modifies this
      ensures State() == Engine.SaveData(old(State()))
      ensures Valid()
    {
      storage := Persist(storage, tracks, playlists, Settings(volume, isShuffled, repeatMode));
    }

    /** `saveCreatePlaylist()` (script.js:822-838); `id` and `created` stand for
        `Date.now()` and the current date. */
    method SaveCreatePlaylist(name: string, description: string, id: Id, created: string)
      requires Valid()
      modifies this
      ensures State() == Engine.SaveCreatePlaylist(old(State()), name, description, id, created)
      ensures Valid()
    {
      var trimmed := Trim(name);
      if trimmed == "" {
        return;
      }
      SetPlaylists(playlists + [Playlist(id, trimmed, Trim(description), [], created)]);
      SaveData();
    }

    /** Replaces the playlist list, keeping the open playlist's position valid. */
    method SetPlaylists(ps: seq<Playlist>)
      requires Valid() && (currentPlaylist.Some? ==> currentPlaylist.value < |ps|)
      modifies this
      ensures State() == old(State()).(playlists := ps)
      ensures Valid()
    {
      playlists := ps;
    }

    /** `saveAddToPlaylist()` (script.js:898-908) */
    method SaveAddToPlaylist(selected: seq<Id>)
      requires Valid()
      modifies this
      ensures State() == Engine.SaveAddToPlaylist(old(State()), selected)
      ensures Valid()
    {
      if currentPlaylist.None? || |selected| == 0 {
        return;
      }
      var k := currentPlaylist.value;
      var ids := AppendSelected(playlists[k].trackIds, selected);
      SetPlaylists(playlists[k := playlists[k].(trackIds := ids)]);
      SaveData();
    }

    /** `removeFromPlaylist(index)` (script.js:910-921) */
    method RemoveFromPlaylist(index: nat)
      requires Valid()
      modifies this
      ensures State() == Engine.RemoveFromPlaylist(old(State()), index)
      ensures Valid()
    {
      if currentPlaylist.None? {
        return;
      }
      var k := currentPlaylist.value;
      SetPlaylists(playlists[k := playlists[k].(trackIds := SpliceOne(playlists[k].trackIds, index))]);
      MoveTo(Engine.AdjustIndex(currentTrackIndex, index));
      SaveData();
    }

    /* ---------------- Editing and covers ---------------- */

    /** `saveTrackEdit()` (script.js:946-956) for the track at `editing`, if any. */
    method SaveTrackEdit(editing: Option<nat>, title: string, artist: string)
      requires Valid() && (editing.Some? ==> editing.value < |tracks|)
      modifies this
      ensures State() == Engine.SaveTrackEdit(old(State()), editing, title, artist)
      ensures Valid()
    {
      if editing.None? {
        return;
      }
      var k := editing.value;
      Engine.CoherentUpdate(tracks, k, tracks[k].(title := OrDefault(Trim(title), Untitled), artist := OrDefault(Trim(artist), UnknownArtist)));
      tracks := tracks[k := tracks[k].(title := OrDefault(Trim(title), Untitled), artist := OrDefault(Trim(artist), UnknownArtist))];
      SaveData();
    }

    /** `handleImageFile(e)` (script.js:482-496); `imageId` stands for the new key. */
    method HandleImageFile(editing: Option<nat>, file: Option<File>, imageId: Id)
      requires Valid() && (editing.Some? ==> editing.value < |tracks|)
      modifies this
      ensures State() == Engine.HandleImageFile(old(State()), editing, file, imageId)
      ensures Valid()
    {
      if file.None? || editing.None? {
        return;
      }
      var k := editing.value;
      var saved := SaveFile(db, ImageStore, file.value, imageId);
      if saved.Err? {
        return;
      }
      db := Some(saved.value);
      var url := GetFile(db, imageId, ImageStore).value;
      tracks := tracks[k := tracks[k].(cover := url, coverId := Some(imageId))];
    }

    /* ---------------- Deletion and reset ---------------- */

    /** `deleteTrack(index)` (script.js:958-990); `confirmed` is the answer to `confirm`. */
    method DeleteTrack(index: nat, confirmed: bool)
      requires Valid() && index < |tracks|
      modifies this
      ensures State() == Engine.DeleteTrack(old(State()), index, confirmed)
      ensures Valid()
    {
      if !confirmed {
        return;
      }
      var t := tracks[index];
      var complete := DeleteBlobs(t);
      if !complete {
        return;
      }
      playlists := PrunePlaylists(playlists, t.id);
      RemoveTrackAt(index);
      SaveData();
    }

    /** The library side of `deleteTrack` (script.js:978-982): the track leaves the list and
        the index steps back when it was at or after it. */
    method RemoveTrackAt(index: nat)
      requires Valid() && index < |tracks|
      modifies this
      ensures State() == old(State()).(tracks := old(tracks)[..index] + old(tracks)[index + 1..],
                                       currentTrackIndex := Engine.AdjustIndex(old(currentTrackIndex), index))
      ensures Valid()
    {
      Engine.CoherentRemove(tracks, index);
      tracks := tracks[..index] + tracks[index + 1..];
      if index <= currentTrackIndex {
        currentTrackIndex := if currentTrackIndex - 1 > 0 then currentTrackIndex - 1 else 0;
      }
    }

    /** The blob deletions of `deleteTrack` (script.js:963-969); `complete` tells whether both
        went through. */
    method DeleteBlobs(t: Track) returns (complete: bool)
      requires Valid()
      modifies this
      ensures Engine.Cleanup(db, complete) == Engine.DeleteBlobs(old(db), t)
      ensures State() == old(State()).(db := db)
      ensures Valid()
    {
      var audioDeleted := DeleteFile(db, t.audioId, AudioStore);
      if audioDeleted.Err? {
        return false;
      }
      db := Some(audioDeleted.value);
      if t.coverId.Some? {
        var coverDeleted := DeleteFile(db, t.coverId.value, ImageStore);
        if coverDeleted.Err? {
          return false;
        }
        db := Some(coverDeleted.value);
      }
      return true;
    }

    /** `confirmReset()` (script.js:1001-1043) */
    method ConfirmReset()
      requires Valid()
      modifies this
      ensures State() == Engine.ConfirmReset(old(State()))
      ensures Valid()
    {
      var complete := ClearStores();
      if !complete {
        return;
      }
      ResetLibrary();
    }

    /** The two `clear` requests of `confirmReset` (script.js:1004-1010); `complete` tells
        whether both went through. */
    method ClearStores() returns (complete: bool)
      requires Valid()
      modifies this
      ensures Engine.Cleanup(db, complete) == Engine.ClearStores(old(db))
      ensures State() == old(State()).(db := db)
      ensures Valid()
    {
      var audioCleared := ClearStore(db, AudioStore);
      if audioCleared.Err? {
        return false;
      }
      db := Some(audioCleared.value);
      var imagesCleared := ClearStore(db, ImageStore);
      if imagesCleared.Err? {
        return false;
      }
      db := Some(imagesCleared.value);
      return true;
    }

    /** What `confirmReset` resets once the stores are cleared (script.js:1012-1030). */
    method ResetLibrary()
      requires Valid()
      modifies this
      ensures State() == old(State()).(storage := old(storage) - {TracksKey, PlaylistsKey, SettingsKey},
                                       tracks := [], playlists := [], currentTrackIndex := 0,
                                       currentPlaylist := None, isPlaying := false, audioSrc := None)
      ensures Valid()
    {
      storage := storage - {TracksKey, PlaylistsKey, SettingsKey};
      tracks := [];
      playlists := [];
      currentTrackIndex := 0;
      currentPlaylist := None;
      isPlaying := false;
      audioSrc := None;
    }

    /* ---------------- Loading and ingestion ---------------- */

    /** `loadData()` (script.js:1089-1139) */
    method LoadData()
      requires Valid() && currentPlaylist.None?
      modifies this
      ensures State() == Engine.LoadData(old(State()))
      ensures Valid()
    {
      var stopped := RestoreLibrary();
      if !stopped {
        LoadSettings();
        if !(SettingsKey in storage && storage[SettingsKey].JNull?) {
          var filled := FillListCovers(db, tracks);
          Engine.CoherentFill(db, tracks);
          tracks := filled;
        }
      }
    }

    /** The first block of `loadData` (script.js:1092-1108): each saved entry is restored in
        turn; `stopped` tells whether the block threw. */
    method RestoreLibrary() returns (stopped: bool)
      requires Valid()
      modifies this
      ensures stopped == Engine.SavedTracks(old(State())).stopped
      ensures State() == old(State()).(tracks := old(tracks) + Engine.SavedTracks(old(State())).kept)
      ensures Valid()
    {
      if TracksKey !in storage {
        assert tracks + [] == tracks;
        return false;
      }
      var saved := storage[TracksKey];
      if !saved.JArr? {
        assert tracks + [] == tracks;
        return !saved.JStr?;
      }
      var restored;
      restored, stopped := RestoreEntries(db, saved.items);
      Engine.CoherentAppend(tracks, restored);
      tracks := tracks + restored;
    }

    /** The playlists and settings blocks of `loadData` (script.js:1110-1123). */
    method LoadSettings()
      requires Valid() && currentPlaylist.None?
      modifies this
      ensures State() == Engine.LoadSettings(old(State()))
      ensures Valid()
    {
      if PlaylistsKey in storage {
        var decoded := DecodePlaylists(storage[PlaylistsKey]);
        if decoded.Some? {
          playlists := decoded.value;
        }
      }
      if SettingsKey in storage {
        var settings := ReadSettings(storage[SettingsKey]);
        if settings.Some? {
          volume := settings.value.volume;
          isShuffled := settings.value.isShuffled;
          repeatMode := settings.value.repeatMode;
        }
      }
    }

    /** `initializeDatabase()` (script.js:30-48) against the database found on `disk`. */
    method InitializeDatabase(disk: Option<Database>)
      requires Valid() && currentPlaylist.None?
      modifies this
      ensures State() == Engine.InitializeDatabase(old(State()), disk)
      ensures Valid()
    {
      var result := BlobStore.InitializeDatabase(disk);
      if result.Err? {
        return;
      }
      db := Some(result.value);
      LoadData();
    }

    /** `processAudioFilesWithProgress(files)` (script.js:1453-1497); `blobIds[i]` and
        `trackIds[i]` stand for the keys drawn for `files[i]`. */
    method ProcessAudioFiles(files: seq<File>, blobIds: seq<Id>, trackIds: seq<Id>)
      requires Valid() && |blobIds| == |files| && |trackIds| == |files|
      modifies this
      ensures State() == Engine.ProcessAudioFiles(old(State()), files, blobIds, trackIds)
      ensures Valid()
    {
      if |files| == 0 {
        return;
      }
      var store, library := IngestFiles(db, tracks, files, blobIds, trackIds);
      Engine.IngestCoherent(db, tracks, files, blobIds, trackIds);
      db := store;
      tracks := library;
      SaveData();
    }
    /** The `loadedmetadata` listener of ingestion (script.js:1482-1487). */
    method PatchDuration(trackId: Id, seconds: nat)
      requires Valid()
      modifies this
      ensures State() == Engine.PatchDuration(old(State()), trackId, seconds)
      ensures Valid()
    {
      ghost var s0 := State();
      var k := IndexOf(Ids(tracks), trackId);
      if k.Some? {
        var patched := tracks[k.value].(duration := FormatTime(seconds));
        Engine.CoherentUpdate(tracks, k.value, patched);
        tracks := tracks[k.value := patched];
      }
      assert State() == s0.(tracks := tracks) && Valid();
      SaveData();
      assert State() == Engine.SaveData(s0.(tracks := tracks));
    }

    /* ---------------- Messages ---------------- */

    /** `handleServiceWorkerMessage(event)` (script.js:1334-1357) */
    method HandleServiceWorkerMessage(msg: Message, random: real, started: bool)
      requires Valid() && 0.0 <= random < 1.0
      modifies this
      ensures State() == Engine.HandleServiceWorkerMessage(old(State()), msg, random, started)
      ensures Valid()
    {
      if msg.kind == PlayCommand {
        if !isPlaying {
          Play(started);
        }
      } else if msg.kind == PauseCommand {
        if isPlaying {
          Pause();
        }
      } else if msg.kind == PreviousCommand {
        PreviousTrack(started);
      } else if msg.kind == NextCommand {
        NextTrack(random, started);
      } else if msg.kind == SeekCommand {
        if msg.data.SeekOffset? {
          currentTime := currentTime + msg.data.offset;
        }
      } else if msg.kind == SeekToCommand {
        if msg.data.SeekTime? {
          currentTime := msg.data.time;
        }
      }
    }
  }

  /* ---------------- The loops, over values ---------------- */

  /** The push loop of `saveAddToPlaylist` (script.js:901-905): each selected id is appended
      in turn. */
  method AppendSelected(ids: seq<Id>, selected: seq<Id>) returns (r: seq<Id>)
    ensures r == ids + selected
  {
    r := ids;
    var i := 0;
    while i < |selected|
      invariant 0 <= i <= |selected|
      invariant r == ids + selected[..i]
    {
      assert selected[..i + 1] == selected[..i] + [selected[i]];
      r := r + [selected[i]];
      i := i + 1;
    }
    assert selected[..i] == selected;
  }

  /** The `forEach` of `deleteTrack` (script.js:971-976): from each playlist the first
      occurrence of `id` is spliced out. */
  method PrunePlaylists(ps: seq<Playlist>, id: Id) returns (pruned: seq<Playlist>)
    ensures pruned == Engine.PruneAll(ps, id)
  {
    pruned := ps;
    var j := 0;
    while j < |pruned|
      invariant 0 <= j <= |pruned| == |ps|
      invariant forall m :: 0 <= m < j ==> pruned[m] == ps[m].(trackIds := RemoveFirst(ps[m].trackIds, id))
      invariant forall m :: j <= m < |pruned| ==> pruned[m] == ps[m]
    {
      var trackIndex := IndexOf(pruned[j].trackIds, id);
      if trackIndex.Some? {
        pruned := pruned[j := pruned[j].(trackIds := SpliceOne(pruned[j].trackIds, trackIndex.value))];
      }
      j := j + 1;
    }
  }

  /** The loop of `loadData` over the saved entries (script.js:1096-1107): each entry is
      restored, skipped, or ends the loop by throwing. */
  method RestoreEntries(db: Option<Database>, entries: seq<Json>) returns (restored: seq<Track>, stopped: bool)
    ensures LoadResult(restored, stopped) == LoadTracks(db, entries)
  {
    restored, stopped := [], false;
    var i := 0;
    assert entries[..0] == [];
    while i < |entries|
      invariant 0 <= i <= |entries|
      invariant LoadResult(restored, false) == LoadTracks(db, entries[..i])
    {
      assert entries[..i + 1][..i] == entries[..i];
      var outcome := LoadEntry(db, entries[i]);
      if outcome.Stop? {
        LoadTracksStopped(db, entries, i + 1);
        return restored, true;
      }
      if outcome.Keep? {
        restored := restored + [outcome.track];
      }
      i := i + 1;
    }
    assert entries[..i] == entries;
  }

  /** The cover loop of `updateTrackList` (script.js:708-721): each listed track that has a
      cover id and no cover fetches it, and the loop ends at the first fetch that throws. */
  method FillListCovers(db: Option<Database>, ts: seq<Track>) returns (r: seq<Track>)
    ensures r == FillCovers(db, ts, 0)
  {
    r := ts;
    var i := 0;
    while i < |r|
      invariant i <= |r| == |ts|
      invariant FillCovers(db, r, i) == FillCovers(db, ts, 0)
    {
      var f := FillCover(db, r[i]);
      if f.Err? {
        return;
      }
      r := r[i := f.value];
      i := i + 1;
    }
  }

  /** The loop of `processAudioFilesWithProgress` (script.js:1458-1490): each file is saved,
      read back as a URL and pushed as a track; a file whose save throws is skipped. */
  method IngestFiles(db: Option<Database>, tracks: seq<Track>, files: seq<File>, blobIds: seq<Id>, trackIds: seq<Id>)
    returns (store: Option<Database>, library: seq<Track>)
    requires |blobIds| == |files| && |trackIds| == |files|
    ensures Engine.Ingested(store, library) == Engine.IngestAll(db, tracks, files, blobIds, trackIds)
  {
    store, library := db, tracks;
    var i := 0;
    while i < |files|
      invariant 0 <= i <= |files|
      invariant Engine.Ingested(store, library) == Engine.IngestAll(db, tracks, files[..i], blobIds[..i], trackIds[..i])
    {
      assert files[..i + 1][..i] == files[..i] && blobIds[..i + 1][..i] == blobIds[..i] && trackIds[..i + 1][..i] == trackIds[..i];
      var saved := SaveFile(store, AudioStore, files[i], blobIds[i]);
      if saved.Ok? {
        store := Some(saved.value);
        var url := GetFile(store, blobIds[i], AudioStore).value;
        library := library + [Engine.NewTrack(trackIds[i], files[i], blobIds[i], url)];
      }
      i := i + 1;
    }
    assert files[..i] == files && blobIds[..i] == blobIds && trackIds[..i] == trackIds;
  }
}
