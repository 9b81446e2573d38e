/** The player's library (script.js): track and playlist records, how a playlist's id list
    resolves against the tracks, and the metadata snapshot `saveData` writes to
    `localStorage` and `loadData` reads back. */
module Library {
  import opened Common
  import opened Json
  import opened Text
  import opened BlobStore

  /** A track as the page holds it; `url` and `cover` are object URLs made on demand and never
      saved. */
  datatype Track = Track(
    id: Id,
    title: string,
    artist: string,
    duration: string,
    audioId: Id,
    coverId: Option<Id>,
    url: Option<Url>,
    cover: Option<Url>)

  datatype Playlist = Playlist(id: Id, name: string, description: string, trackIds: seq<Id>, created: string)

  const UnknownArtist := "Неизвестный исполнитель"
  const Untitled := "Без названия"
  const UnknownDuration := "0:00"

  // The three localStorage keys of the snapshot.
  const TracksKey := "musicPlayerTracks"
  const PlaylistsKey := "musicPlayerPlaylists"
  const SettingsKey := "musicPlayerSettings"

  /** `s || fallback` for a string. */
  function OrDefault(s: string, fallback: string): (r: string)
    ensures s != "" ==> r == s
    ensures s == "" ==> r == fallback
  {
    if s != "" then s else fallback
  }

  /* ---------------- Ids and lookups ---------------- */

  function Ids(tracks: seq<Track>): (r: seq<Id>)
    ensures |r| == |tracks| && forall i :: 0 <= i < |r| ==> r[i] == tracks[i].id
  {
    seq(|tracks|, i requires 0 <= i < |tracks| => tracks[i].id)
  }

  /** `indexOf`/`find`: the first position holding `x`. */
  function IndexOf(s: seq<Id>, x: Id): (r: Option<nat>)
    ensures r.None? <==> x !in s
    ensures r.Some? ==> r.value < |s| && s[r.value] == x && x !in s[..r.value]
    decreases |s|
  {
    if |s| == 0 then None
    else if s[0] == x then Some(0)
    else match IndexOf(s[1..], x)
      case None => None
      case Some(k) =>
        assert s[..k + 1] == [s[0]] + s[1..][..k];
        Some(k + 1)
  }

  /** The positions in the library of the tracks a playlist lists, in list order, as
      `trackIds.map(id => tracks.find(...)).filter(Boolean)` (script.js:1046-1051) yields them:
      each id stands for the first track carrying it, and an id no track carries is dropped. */
  function Positions(ids: seq<Id>, library: seq<Id>): (r: seq<nat>)
    ensures |r| <= |ids|
    ensures forall i :: 0 <= i < |r| ==> r[i] < |library|
    decreases |ids|
  {
    if |ids| == 0 then []
    else
      var rest := Positions(ids[1..], library);
      match IndexOf(library, ids[0])
      case None => rest
      case Some(k) => [k] + rest
  }

  /** The ids of a list that some track carries, in list order: the reference for what a
      playlist displays. */
  function KeepPresent(ids: seq<Id>, library: seq<Id>): (r: seq<Id>)
    ensures forall x :: x in r <==> x in ids && x in library
    decreases |ids|
  {
    if |ids| == 0 then []
    else if ids[0] in library then [ids[0]] + KeepPresent(ids[1..], library)
    else KeepPresent(ids[1..], library)
  }

  /** Resolving a playlist shows exactly its ids that match a track, in order, each as the
      first track with that id. */
  lemma {:induction false} PositionsMatchKeepPresent(ids: seq<Id>, library: seq<Id>)
    ensures |Positions(ids, library)| == |KeepPresent(ids, library)|
    ensures forall i :: 0 <= i < |Positions(ids, library)| ==>
      IndexOf(library, KeepPresent(ids, library)[i]) == Some(Positions(ids, library)[i])
    decreases |ids|
  {
    if |ids| > 0 {
      PositionsMatchKeepPresent(ids[1..], library);
    }
  }

  /** A list without dangling ids resolves to all of its ids. */
  lemma {:induction false} KeepPresentWhole(ids: seq<Id>, library: seq<Id>)
    requires forall i :: 0 <= i < |ids| ==> ids[i] in library
    ensures KeepPresent(ids, library) == ids
    decreases |ids|
  {
    if |ids| > 0 {
      KeepPresentWhole(ids[1..], library);
    }
  }

  /** The element `i` of a list without dangling ids is shown at position `i`. */
  lemma {:induction false} PositionsWhole(ids: seq<Id>, library: seq<Id>)
    requires forall i :: 0 <= i < |ids| ==> ids[i] in library
    ensures |Positions(ids, library)| == |ids|
    ensures forall i :: 0 <= i < |ids| ==> library[Positions(ids, library)[i]] == ids[i]
  {
    PositionsMatchKeepPresent(ids, library);
    KeepPresentWhole(ids, library);
  }

  /** A list without dangling ids resolves id by id, each to its first track. */
  lemma {:induction false} PositionsAll(ids: seq<Id>, library: seq<Id>)
    requires forall i :: 0 <= i < |ids| ==> ids[i] in library
    ensures |Positions(ids, library)| == |ids|
    ensures forall i :: 0 <= i < |ids| ==> IndexOf(library, ids[i]) == Some(Positions(ids, library)[i])
    decreases |ids|
  {
    if |ids| > 0 {
      assert ids[0] in library;
      var tail := ids[1..];
      PositionsAll(tail, library);
      forall i | 1 <= i < |ids| ensures IndexOf(library, ids[i]) == Some(Positions(ids, library)[i]) {
        assert ids[i] == tail[i - 1];
      }
    }
  }

  /** Without dangling ids, removing the id at `index` removes the position shown at
      `index`. */
  lemma PositionsSplice(ids: seq<Id>, library: seq<Id>, index: nat)
    requires forall i :: 0 <= i < |ids| ==> ids[i] in library
    requires index < |ids|
    ensures var p := Positions(ids, library);
      |p| == |ids| && Positions(SpliceOne(ids, index), library) == p[..index] + p[index + 1..]
  {
    var cut := SpliceOne(ids, index);
    assert forall i :: 0 <= i < |cut| ==> cut[i] == ids[if i < index then i else i + 1];
    PositionsAll(ids, library);
    PositionsAll(cut, library);
    var p, q := Positions(ids, library), Positions(cut, library);
    forall i | 0 <= i < |q| ensures q[i] == (p[..index] + p[index + 1..])[i] {
      var j := if i < index then i else i + 1;
      assert IndexOf(library, cut[i]) == Some(q[i]) && IndexOf(library, ids[j]) == Some(p[j]);
    }
  }

  /** `splice(index, 1)`: removes the element at `index`; an index past the end changes
      nothing. */
  function SpliceOne(s: seq<Id>, index: nat): (r: seq<Id>)
    ensures index < |s| ==> |r| == |s| - 1 && r == s[..index] + s[index + 1..]
    ensures index >= |s| ==> r == s
  {
    if index < |s| then s[..index] + s[index + 1..] else s
  }

  /** `const k = ids.indexOf(x); if (k > -1) ids.splice(k, 1)`: one occurrence of `x` goes,
      the first one, and nothing else. */
  function RemoveFirst(ids: seq<Id>, x: Id): (r: seq<Id>)
    ensures multiset(r) == multiset(ids) - multiset{x}
    ensures x in ids ==> |r| == |ids| - 1
    ensures x !in ids ==> r == ids
    ensures x in ids ==> exists k :: 0 <= k < |ids| && ids[k] == x && x !in ids[..k] && r == ids[..k] + ids[k + 1..]
  {
    match IndexOf(ids, x)
    case None => ids
    case Some(k) =>
      assert ids == ids[..k] + [x] + ids[k + 1..];
      SpliceOne(ids, k)
  }

  /** In a list without repeats the removal leaves no trace of `x` and still no repeats. */
  lemma RemoveFirstNoDup(ids: seq<Id>, x: Id)
    requires NoDup(ids)
    ensures x !in RemoveFirst(ids, x)
    ensures NoDup(RemoveFirst(ids, x))
  {
    if x in ids {
      SpliceNoDup(ids, IndexOf(ids, x).value);
    }
  }

  /** Splicing one position out of a list without repeats drops that id entirely. */
  lemma SpliceNoDup(ids: seq<Id>, k: nat)
    requires NoDup(ids) && k < |ids|
    ensures ids[k] !in SpliceOne(ids, k)
    ensures NoDup(SpliceOne(ids, k))
  {
    var r := SpliceOne(ids, k);
    forall i, j | 0 <= i < j < |r| ensures r[i] != r[j] {
      var i' := if i < k then i else i + 1;
      var j' := if j < k then j else j + 1;
      assert r[i] == ids[i'] && r[j] == ids[j'];
    }
    forall i | 0 <= i < |r| ensures r[i] != ids[k] {
      if i >= k {
        assert r[i] == ids[i + 1];
      }
    }
  }

  /** With a repeated id only the first copy goes: the rest still lists it. */
  lemma RemoveFirstKeepsLaterCopies()
    ensures RemoveFirst([7, 3, 7], 7) == [3, 7]
  {
    assert IndexOf([7, 3, 7], 7) == Some(0);
  }

  /** The ids of library tracks a playlist does not list yet: the candidates the add dialog
      offers (script.js:861-863). */
  function Unlisted(library: seq<Id>, listed: seq<Id>): (r: seq<Id>)
    ensures forall x :: x in r <==> x in library && x !in listed
    decreases |library|
  {
    if |library| == 0 then []
    else
      var rest := Unlisted(library[..|library| - 1], listed);
      var x := library[|library| - 1];
      if x in listed then rest else rest + [x]
  }

  /** Appending candidates chosen once each keeps a list free of repeats, which is how the
      add dialog keeps playlist membership free of duplicates. */
  lemma AppendCandidatesNoDup(listed: seq<Id>, selected: seq<Id>, library: seq<Id>)
    requires NoDup(listed) && NoDup(selected)
    requires forall i :: 0 <= i < |selected| ==> selected[i] in Unlisted(library, listed)
    ensures NoDup(listed + selected)
  {
    var r := listed + selected;
    forall i, j | 0 <= i < j < |r| ensures r[i] != r[j] {
      if i < |listed| && j >= |listed| {
        assert r[j] == selected[j - |listed|];
        assert r[j] !in listed;
      }
    }
  }

  /* ---------------- The snapshot: tracks ---------------- */

  function OptIdJson(o: Option<Id>): Json
  {
    match o
    case None => JNull
    case Some(i) => JNum(i)
  }

  /** The fields `saveData` keeps of a track (script.js:1065-1072). */
  const SavedTrackFields: set<string> := {"id", "title", "artist", "duration", "audioId", "coverId"}

  /** A track as `saveData` projects it: the stored fields and nothing of its object URLs. */
  function TrackToJson(t: Track): (j: Json)
    ensures j.JObj? && j.fields.Keys == SavedTrackFields
    ensures j.fields["coverId"] == JNull <==> t.coverId.None?
  {
    JObj(map["id" := JNum(t.id), "title" := JStr(t.title), "artist" := JStr(t.artist),
             "duration" := JStr(t.duration), "audioId" := JNum(t.audioId), "coverId" := OptIdJson(t.coverId)])
  }

  /** The object URLs of a track never reach the snapshot. */
  lemma SnapshotIgnoresUrls(t: Track, url: Option<Url>, cover: Option<Url>)
    ensures TrackToJson(t.(url := url, cover := cover)) == TrackToJson(t)
  {
  }

  function TrackEntries(tracks: seq<Track>): (r: seq<Json>)
    ensures |r| == |tracks| && forall i :: 0 <= i < |r| ==> r[i] == TrackToJson(tracks[i])
  {
    seq(|tracks|, i requires 0 <= i < |tracks| => TrackToJson(tracks[i]))
  }

  function AsId(j: Json): Option<Id>
  {
    if j.JNum? && j.n > 0 then Some(j.n) else None
  }

  function AsString(j: Json): Option<string>
  {
    if j.JStr? then Some(j.s) else None
  }

  /** `null` for no id, or a positive number. */
  function AsOptId(j: Json): Option<Option<Id>>
  {
    if j.JNull? then Some(None) else if j.JNum? && j.n > 0 then Some(Some(j.n)) else None
  }

  /** A valid IndexedDB key among JSON values: a number, a string, or an array of valid keys.
      `store.get` throws a `DataError` on anything else. */
  predicate IsKey(j: Json)
  {
    match j
    case JNum(_) => true
    case JStr(_) => true
    case JArr(items) => forall k | k in items :: IsKey(k)
    case _ => false
  }

  /** `{...trackData, url, cover: null}` for an entry carrying the fields `saveData` writes. */
  function DecodeTrack(entry: Json, url: Url): (r: Option<Track>)
    ensures r.Some? ==> r.value.url == Some(url) && r.value.cover.None?
    ensures r.Some? ==> AsId(Field(entry, "audioId")) == Some(r.value.audioId)
  {
    var id := AsId(Field(entry, "id"));
    var title := AsString(Field(entry, "title"));
    var artist := AsString(Field(entry, "artist"));
    var duration := AsString(Field(entry, "duration"));
    var audioId := AsId(Field(entry, "audioId"));
    var coverId := AsOptId(Field(entry, "coverId"));
    if id.Some? && title.Some? && artist.Some? && duration.Some? && audioId.Some? && coverId.Some? then
      Some(Track(id.value, title.value, artist.value, duration.value, audioId.value, coverId.value, Some(url), None))
    else None
  }

  /** What one entry of the saved track list does in the loading loop (script.js:1097-1106). */
  datatype EntryOutcome =
    | Skip          // no usable audio id, or no blob under it: the entry is passed over
    | Stop          // the read throws: loading ends here
    | Keep(track: Track)

  /** One step of the loading loop: a `null` entry throws on `.audioId`; a falsy audio id is
      skipped; reading the blob throws when the database or its audio store is missing, or
      when the audio id is not a valid key; a missing blob is skipped; otherwise the entry is
      restored with its audio URL and no cover. */
  function LoadEntry(db: Option<Database>, entry: Json): (r: EntryOutcome)
    ensures r.Keep? ==> r.track.url == Some(ObjectUrl(AudioStore, r.track.audioId)) && r.track.cover.None?
    ensures r.Keep? ==> Lookup(db, AudioStore, r.track.audioId).Some?
    ensures r == Stop <==> entry.JNull? || (Truthy(Field(entry, "audioId")) && (!StoreReady(db, AudioStore) || !IsKey(Field(entry, "audioId"))))
  {
    if entry.JNull? then Stop
    else
      var a := Field(entry, "audioId");
      if !Truthy(a) then Skip
      else if !StoreReady(db, AudioStore) || !IsKey(a) then Stop
      else match AsId(a)
        case None => Skip
        case Some(audioId) =>
          match GetFile(db, audioId, AudioStore)
          case Ok(Some(url)) =>
            (match DecodeTrack(entry, url)
             case Some(t) => Keep(t)
             case None => Skip)
          case _ => Skip
  }

  datatype LoadResult = LoadResult(kept: seq<Track>, stopped: bool)

  /** The tracks the loading loop pushes for a list of entries, in order, and whether it
      stopped at an entry that threw. */
  function LoadTracks(db: Option<Database>, entries: seq<Json>): (r: LoadResult)
    ensures forall t :: t in r.kept ==> t.url == Some(ObjectUrl(AudioStore, t.audioId)) && t.cover.None?
    ensures forall t :: t in r.kept ==> Lookup(db, AudioStore, t.audioId).Some?
    ensures |r.kept| <= |entries|
    decreases |entries|
  {
    if |entries| == 0 then LoadResult([], false)
    else
      var prev := LoadTracks(db, entries[..|entries| - 1]);
      if prev.stopped then prev
      else match LoadEntry(db, entries[|entries| - 1])
        case Skip => prev
        case Stop => prev.(stopped := true)
        case Keep(t) => prev.(kept := prev.kept + [t])
  }

  /** Once the loop has stopped, later entries are never read. */
  lemma {:induction false} LoadTracksStopped(db: Option<Database>, entries: seq<Json>, n: nat)
    requires n <= |entries| && LoadTracks(db, entries[..n]).stopped
    ensures LoadTracks(db, entries) == LoadTracks(db, entries[..n])
    decreases |entries| - n
  {
    if n < |entries| {
      assert entries[..n + 1][..n] == entries[..n];
      LoadTracksStopped(db, entries, n + 1);
    } else {
      assert entries[..n] == entries;
    }
  }

  /** The tracks a reload brings back from a saved list: exactly those whose audio blob is in
      the store, in order, with their audio URL made afresh and no cover. */
  function Reloaded(db: Database, tracks: seq<Track>): (r: seq<Track>)
    decreases |tracks|
  {
    if |tracks| == 0 then []
    else
      var rest := Reloaded(db, tracks[..|tracks| - 1]);
      var t := tracks[|tracks| - 1];
      if Lookup(Some(db), AudioStore, t.audioId).Some? then rest + [t.(url := Some(ObjectUrl(AudioStore, t.audioId)), cover := None)]
      else rest
  }

  lemma DecodeSavedTrack(t: Track, url: Url)
    ensures DecodeTrack(TrackToJson(t), url) == Some(t.(url := Some(url), cover := None))
  {
    var j := TrackToJson(t);
    assert Field(j, "coverId") == OptIdJson(t.coverId);
  }

  /** What loading a saved track gives: the track with a fresh URL and no cover while its
      blob is stored, otherwise nothing. */
  function SavedOutcome(db: Database, t: Track): EntryOutcome
  {
    if Lookup(Some(db), AudioStore, t.audioId).Some? then Keep(t.(url := Some(ObjectUrl(AudioStore, t.audioId)), cover := None))
    else Skip
  }

  /** A saved entry is restored when its audio blob is stored and skipped otherwise. */
  lemma LoadSavedEntry(db: Database, t: Track)
    requires AudioStore in db.stores
    ensures LoadEntry(Some(db), TrackToJson(t)) == SavedOutcome(db, t)
  {
    DecodeSavedTrack(t, ObjectUrl(AudioStore, t.audioId));
    assert Field(TrackToJson(t), "audioId") == JNum(t.audioId);
  }

  /** Entries that each load as their track would list the tracks `Reloaded` keeps. */
  lemma {:induction false} LoadTracksEach(db: Database, entries: seq<Json>, tracks: seq<Track>)
    requires |entries| == |tracks|
    requires forall i :: 0 <= i < |entries| ==> LoadEntry(Some(db), entries[i]) == SavedOutcome(db, tracks[i])
    ensures LoadTracks(Some(db), entries) == LoadResult(Reloaded(db, tracks), false)
    decreases |entries|
  {
    if |entries| > 0 {
      var n := |entries| - 1;
      LoadTracksEach(db, entries[..n], tracks[..n]);
    }
  }

  /** Loading what `saveData` wrote restores every track whose audio blob survives, and never
      stops early. */
  lemma LoadSavedTracks(db: Database, tracks: seq<Track>)
    requires AudioStore in db.stores
    ensures LoadTracks(Some(db), TrackEntries(tracks)) == LoadResult(Reloaded(db, tracks), false)
  {
    var e := TrackEntries(tracks);
    forall i | 0 <= i < |e| ensures LoadEntry(Some(db), e[i]) == SavedOutcome(db, tracks[i]) {
      LoadSavedEntry(db, tracks[i]);
    }
    LoadTracksEach(db, e, tracks);
  }


  /** Every track of the library comes back when all their audio blobs are stored. */
  lemma {:induction false} ReloadedWhole(db: Database, tracks: seq<Track>)
    requires forall t :: t in tracks ==> Lookup(Some(db), AudioStore, t.audioId).Some?
    ensures |Reloaded(db, tracks)| == |tracks|
    ensures forall i :: 0 <= i < |tracks| ==>
      Reloaded(db, tracks)[i] == tracks[i].(url := Some(ObjectUrl(AudioStore, tracks[i].audioId)), cover := None)
    decreases |tracks|
  {
    if |tracks| > 0 {
      var n := |tracks| - 1;
      assert forall t :: t in tracks[..n] ==> t in tracks;
      ReloadedWhole(db, tracks[..n]);
    }
  }

  /* ---------------- Covers ---------------- */

  /** The URL of the cover blob stored under `coverId`: none for no id, a missing blob, or an
      image store that is not open. */
  function StoredCover(db: Option<Database>, coverId: Option<Id>): Option<Url>
  {
    if coverId.Some? && Lookup(db, ImageStore, coverId.value).Some? then Some(ObjectUrl(ImageStore, coverId.value)) else None
  }

  /** A track whose missing cover has been looked up: a cover already held is kept, otherwise
      the stored cover blob's URL, if any. */
  function Filled(db: Option<Database>, t: Track): Track
  {
    t.(cover := if t.cover.Some? then t.cover else StoredCover(db, t.coverId))
  }

  /** The cover step that `updateTrackList` (script.js:718-721) takes for each listed track
      and `updateCurrentTrackInfo` (script.js:689-692) for the current one: a track with a
      cover id and no cover fetches it from the image store, and is left without one when the
      blob is missing (`null`); the fetch throws when the image store is not open. */
  function FillCover(db: Option<Database>, t: Track): (r: Result<Track, DbError>)
    ensures r.Err? <==> t.coverId.Some? && t.cover.None? && !StoreReady(db, ImageStore)
    ensures r.Ok? ==> r.value == Filled(db, t)
    ensures r.Err? ==> Filled(db, t) == t
  {
    if t.coverId.None? || t.cover.Some? then Ok(t)
    else match GetFile(db, t.coverId.value, ImageStore)
      case Err(e) => Err(e)
      case Ok(url) => Ok(t.(cover := url))
  }

  /** The cover loop of `updateTrackList` over `ts` from position `i` on, which ends at the
      first fetch that throws. Since a fetch throws only when the image store is not open,
      and then no cover could have been found, every track from `i` on ends up `Filled`. */
  function FillCovers(db: Option<Database>, ts: seq<Track>, i: nat): (r: seq<Track>)
    requires i <= |ts|
    ensures |r| == |ts|
    ensures forall k :: 0 <= k < i ==> r[k] == ts[k]
    ensures forall k :: i <= k < |ts| ==> r[k] == Filled(db, ts[k])
    decreases |ts| - i
  {
    if i == |ts| then ts
    else match FillCover(db, ts[i])
      case Err(_) =>
        assert forall k :: i <= k < |ts| ==> Filled(db, ts[k]) == ts[k];
        ts
      case Ok(t) => FillCovers(db, ts[i := t], i + 1)
  }

  /** Nothing is left for the cover loop to do: every track without a cover has no stored
      cover blob. */
  predicate CoversResolved(db: Option<Database>, ts: seq<Track>)
  {
    forall k :: 0 <= k < |ts| ==> Filled(db, ts[k]) == ts[k]
  }

  /** After the cover loop has run once, running it again changes nothing. */
  lemma FillCoversResolves(db: Option<Database>, ts: seq<Track>)
    ensures CoversResolved(db, FillCovers(db, ts, 0))
    ensures FillCovers(db, FillCovers(db, ts, 0), 0) == FillCovers(db, ts, 0)
  {
    var r := FillCovers(db, ts, 0);
    var r2 := FillCovers(db, r, 0);
    assert forall k :: 0 <= k < |r| ==> Filled(db, r[k]) == r[k];
    assert forall k :: 0 <= k < |r| ==> r2[k] == r[k];
  }

  /** On a list with nothing left to fill the cover loop changes nothing. */
  lemma ResolvedFillChangesNothing(db: Option<Database>, ts: seq<Track>)
    requires CoversResolved(db, ts)
    ensures FillCovers(db, ts, 0) == ts
  {
    var r := FillCovers(db, ts, 0);
    assert forall k :: 0 <= k < |ts| ==> r[k] == ts[k];
  }

  /* ---------------- The snapshot: playlists ---------------- */

  function IdsJson(ids: seq<Id>): Json
  {
    JArr(seq(|ids|, i requires 0 <= i < |ids| => JNum(ids[i])))
  }

  function PlaylistToJson(p: Playlist): Json
  {
    JObj(map["id" := JNum(p.id), "name" := JStr(p.name), "description" := JStr(p.description),
             "trackIds" := IdsJson(p.trackIds), "created" := JStr(p.created)])
  }

  function PlaylistEntries(ps: seq<Playlist>): (r: seq<Json>)
    ensures |r| == |ps| && forall i :: 0 <= i < |r| ==> r[i] == PlaylistToJson(ps[i])
  {
    seq(|ps|, i requires 0 <= i < |ps| => PlaylistToJson(ps[i]))
  }

  function DecodeIds(items: seq<Json>): (r: Option<seq<Id>>)
    ensures r.Some? ==> |r.value| == |items|
    decreases |items|
  {
    if |items| == 0 then Some([])
    else match (DecodeIds(items[..|items| - 1]), AsId(items[|items| - 1]))
      case (Some(ids), Some(x)) => Some(ids + [x])
      case _ => None
  }

  function DecodePlaylist(j: Json): Option<Playlist>
  {
    var id := AsId(Field(j, "id"));
    var name := AsString(Field(j, "name"));
    var description := AsString(Field(j, "description"));
    var created := AsString(Field(j, "created"));
    var ids := Field(j, "trackIds");
    var trackIds := if ids.JArr? then DecodeIds(ids.items) else None;
    if id.Some? && name.Some? && description.Some? && created.Some? && trackIds.Some? then
      Some(Playlist(id.value, name.value, description.value, trackIds.value, created.value))
    else None
  }

  /** `JSON.parse` of the saved playlists, read as a list of playlist records. */
  function DecodePlaylists(j: Json): (r: Option<seq<Playlist>>)
  {
    if j.JArr? then DecodePlaylistItems(j.items) else None
  }

  function DecodePlaylistItems(items: seq<Json>): (r: Option<seq<Playlist>>)
    ensures r.Some? ==> |r.value| == |items|
    decreases |items|
  {
    if |items| == 0 then Some([])
    else match (DecodePlaylistItems(items[..|items| - 1]), DecodePlaylist(items[|items| - 1]))
      case (Some(ps), Some(p)) => Some(ps + [p])
      case _ => None
  }

  lemma {:induction false} DecodeSavedIds(ids: seq<Id>)
    ensures DecodeIds(IdsJson(ids).items) == Some(ids)
    decreases |ids|
  {
    if |ids| > 0 {
      var n := |ids| - 1;
      assert IdsJson(ids).items[..n] == IdsJson(ids[..n]).items;
      DecodeSavedIds(ids[..n]);
      assert ids[..n] + [ids[n]] == ids;
    }
  }

  /** One playlist comes back exactly as saved. */
  lemma DecodeSavedPlaylist(p: Playlist)
    ensures DecodePlaylist(PlaylistToJson(p)) == Some(p)
  {
    DecodeSavedIds(p.trackIds);
    assert Field(PlaylistToJson(p), "trackIds") == IdsJson(p.trackIds);
  }

  /** A list of items decodes element by element. */
  lemma {:induction false} DecodeItemsEach(items: seq<Json>, ps: seq<Playlist>)
    requires |items| == |ps| && forall i :: 0 <= i < |items| ==> DecodePlaylist(items[i]) == Some(ps[i])
    ensures DecodePlaylistItems(items) == Some(ps)
    decreases |items|
  {
    if |items| > 0 {
      var n := |items| - 1;
      DecodeItemsEach(items[..n], ps[..n]);
      assert ps[..n] + [ps[n]] == ps;
    }
  }

  /** Playlists come back exactly as saved: every field, and the id lists in order. */
  lemma DecodeSavedPlaylists(ps: seq<Playlist>)
    ensures DecodePlaylists(JArr(PlaylistEntries(ps))) == Some(ps)
  {
    var e := PlaylistEntries(ps);
    forall i | 0 <= i < |e| ensures DecodePlaylist(e[i]) == Some(ps[i]) {
      DecodeSavedPlaylist(ps[i]);
    }
    DecodeItemsEach(e, ps);
  }


  /* ---------------- The snapshot: settings ---------------- */

  datatype Settings = Settings(volume: nat, isShuffled: bool, repeatMode: nat)

  const DefaultVolume: nat := 70
  /** The value a range input from 0 to 100 takes when given something that is not a number. */
  const SliderFallback: nat := 50

  /** `{volume: volumeSlider.value, isShuffled, repeatMode}`; the slider's value is a string. */
  function EncodeSettings(st: Settings): Json
  {
    JObj(map["volume" := JStr(NatToString(st.volume)), "isShuffled" := JBool(st.isShuffled),
             "repeatMode" := JNum(st.repeatMode)])
  }

  /** The value the volume slider (a range input from 0 to 100) holds after being assigned
      `v`: a numeral or a number is clamped into range, anything else sanitises to the
      midpoint. */
  function SliderValue(v: Json): (r: nat)
    ensures r <= 100
    ensures v.JStr? && ParseNat(v.s).Some? ==> r == if ParseNat(v.s).value > 100 then 100 else ParseNat(v.s).value
    ensures v.JNum? ==> r == if v.n < 0 then 0 else if v.n > 100 then 100 else v.n
  {
    match v
    case JStr(s) =>
      (match ParseNat(s)
       case Some(n) => if n > 100 then 100 else n
       case None => SliderFallback)
    case JNum(n) => if n < 0 then 0 else if n > 100 then 100 else n
    case _ => SliderFallback
  }

  /** The repeat mode `settings.repeatMode || 0` leaves: 1 and 2 are kept, and everything else
      acts as 0. */
  function RepeatValue(v: Json): (r: nat)
    ensures r <= 2
    ensures v == JNum(1) || v == JNum(2) <==> r != 0
    ensures r != 0 ==> v == JNum(r)
  {
    if v == JNum(1) then 1 else if v == JNum(2) then 2 else 0
  }

  /** The settings block of `loadData` (script.js:1117-1123) with its defaults: volume 70,
      shuffle off and repeat off. A stored `null` throws on the first property read. */
  function ReadSettings(j: Json): (r: Option<Settings>)
    ensures r.None? <==> j.JNull?
    ensures r.Some? ==> r.value.volume <= 100 && r.value.repeatMode <= 2
    ensures r.Some? && !Truthy(Field(j, "volume")) ==> r.value.volume == DefaultVolume
    ensures r.Some? && Truthy(Field(j, "volume")) ==> r.value.volume == SliderValue(Field(j, "volume"))
    ensures r.Some? ==> r.value.repeatMode == RepeatValue(Field(j, "repeatMode"))
    ensures r.Some? ==> (r.value.isShuffled <==> Truthy(Field(j, "isShuffled")))
  {
    if j.JNull? then None
    else
      var v := Field(j, "volume");
      Some(Settings(if Truthy(v) then SliderValue(v) else DefaultVolume,
                    Truthy(Field(j, "isShuffled")),
                    RepeatValue(Field(j, "repeatMode"))))
  }

  /** Settings that were saved read back as they were. */
  lemma ReadSavedSettings(st: Settings)
    requires st.volume <= 100 && st.repeatMode <= 2
    ensures ReadSettings(EncodeSettings(st)) == Some(st)
  {
    ParseNatToString(st.volume);
    var j := EncodeSettings(st);
    assert Field(j, "volume") == JStr(NatToString(st.volume));
    assert Field(j, "isShuffled") == JBool(st.isShuffled);
    assert Field(j, "repeatMode") == JNum(st.repeatMode);
  }

  /** A settings record with none of the fields yields the defaults. */
  lemma ReadEmptySettings()
    ensures ReadSettings(JObj(map[])) == Some(Settings(DefaultVolume, false, 0))
  {
  }

  /* ---------------- The snapshot as a whole ---------------- */

  /** `saveData` (script.js:1062-1087): the three keys are overwritten, every other key of
      the storage is kept. */
  function Persist(storage: map<string, Json>, tracks: seq<Track>, playlists: seq<Playlist>, st: Settings): (r: map<string, Json>)
    ensures r.Keys == storage.Keys + {TracksKey, PlaylistsKey, SettingsKey}
    ensures r[TracksKey] == JArr(TrackEntries(tracks))
    ensures r[PlaylistsKey] == JArr(PlaylistEntries(playlists))
    ensures r[SettingsKey] == EncodeSettings(st)
    ensures forall k :: k in storage && k !in {TracksKey, PlaylistsKey, SettingsKey} ==> r[k] == storage[k]
  {
    storage[TracksKey := JArr(TrackEntries(tracks))][PlaylistsKey := JArr(PlaylistEntries(playlists))][SettingsKey := EncodeSettings(st)]
  }
}
