/** The `MusicPlayer` (script.js) as a state value and one transition function per
    operation. These functions are the specification the `Player.MusicPlayer` class is proved
    against, and the lemmas below are what the player promises about them.

    The audio element is reduced to its source and position; whether `audio.play()`
    resolves is the parameter `started`, the value of `Math.random()` is `random`, and the
    ids the player would draw from `Date.now() + Math.random()` are parameters too. */
module Engine {
  import opened Common
  import opened Json
  import opened Text
  import opened BlobStore
  import opened Library
  import opened Protocol
  import ServiceWorker

  datatype PlayerState = PlayerState(
    tracks: seq<Track>,
    playlists: seq<Playlist>,
    currentTrackIndex: nat,
    /** The open playlist, by position in `playlists`. */
    currentPlaylist: Option<nat>,
    isPlaying: bool,
    isShuffled: bool,
    repeatMode: nat,
    /** The volume slider, in percent. */
    volume: nat,
    db: Option<Database>,
    storage: map<string, Json>,
    /** `audio.src` */
    audioSrc: Option<Url>,
    /** `audio.currentTime`, in seconds */
    currentTime: real)

  const MaxVolume: nat := 100
  /** The volume `toggleMute` restores, whatever it was before muting. */
  const UnmuteVolume: nat := 70
  /** The album name the page reports for every track. */
  const PlaylistAlbum := "Мой плейлист"

  function AudioUrl(t: Track): Url
  {
    ObjectUrl(AudioStore, t.audioId)
  }

  /** What every operation keeps: the repeat mode is one of 0, 1, 2, the volume a percentage,
      the open playlist exists, and a cached audio URL is the one of the track's own blob. */
  predicate Valid(s: PlayerState)
  {
    && s.repeatMode <= 2
    && s.volume <= MaxVolume
    && (s.currentPlaylist.Some? ==> s.currentPlaylist.value < |s.playlists|)
    && UrlsCoherent(s.tracks)
  }

  /** Every cached audio URL is the one of the track's own blob. */
  predicate UrlsCoherent(tracks: seq<Track>)
  {
    forall i :: 0 <= i < |tracks| && tracks[i].url.Some? ==> tracks[i].url.value == AudioUrl(tracks[i])
  }

  lemma CoherentUpdate(tracks: seq<Track>, k: nat, t: Track)
    requires UrlsCoherent(tracks) && k < |tracks| && (t.url.Some? ==> t.url.value == AudioUrl(t))
    ensures UrlsCoherent(tracks[k := t])
  {
  }

  lemma CoherentRemove(tracks: seq<Track>, index: nat)
    requires UrlsCoherent(tracks) && index < |tracks|
    ensures UrlsCoherent(tracks[..index] + tracks[index + 1..])
  {
    var r := tracks[..index] + tracks[index + 1..];
    forall j | 0 <= j < |r| ensures r[j] == tracks[if j < index then j else j + 1] {
    }
  }

  /** The state the constructor builds, before the database is open. */
  function Initial(volume: nat, storage: map<string, Json>): (r: PlayerState)
    requires volume <= MaxVolume
    ensures Valid(r)
    ensures r.tracks == [] && r.playlists == [] && r.currentTrackIndex == 0 && r.currentPlaylist.None?
    ensures !r.isPlaying && !r.isShuffled && r.repeatMode == 0 && r.db.None?
  {
    PlayerState([], [], 0, None, false, false, 0, volume, None, storage, None, 0.0)
  }

  /* ---------------- The active list ---------------- */

  /** Positions in `tracks` of the tracks `getCurrentTrackList` (script.js:1046-1051) returns:
      the whole library, or the open playlist resolved against it. */
  function CurrentPositions(s: PlayerState): (r: seq<nat>)
    requires Valid(s)
    ensures forall i :: 0 <= i < |r| ==> r[i] < |s.tracks|
    ensures s.currentPlaylist.None? ==> |r| == |s.tracks| && forall i :: 0 <= i < |r| ==> r[i] == i
  {
    match s.currentPlaylist
    case None => seq(|s.tracks|, i requires 0 <= i < |s.tracks| => i)
    case Some(k) => Positions(s.playlists[k].trackIds, Ids(s.tracks))
  }

  function CurrentTrackList(s: PlayerState): (r: seq<Track>)
    requires Valid(s)
    ensures |r| == |CurrentPositions(s)|
  {
    TracksAt(s.tracks, CurrentPositions(s))
  }

  /** The tracks at the positions `p`, in order. */
  function TracksAt(tracks: seq<Track>, p: seq<nat>): (r: seq<Track>)
    requires forall i :: 0 <= i < |p| ==> p[i] < |tracks|
    ensures |r| == |p| && forall i :: 0 <= i < |p| ==> r[i] == tracks[p[i]]
  {
    seq(|p|, i requires 0 <= i < |p| => tracks[p[i]])
  }

  lemma TracksAtSplice(tracks: seq<Track>, p: seq<nat>, index: nat)
    requires forall i :: 0 <= i < |p| ==> p[i] < |tracks|
    requires index < |p|
    ensures TracksAt(tracks, p[..index] + p[index + 1..]) == TracksAt(tracks, p)[..index] + TracksAt(tracks, p)[index + 1..]
  {
    var q := p[..index] + p[index + 1..];
    assert forall i :: 0 <= i < |q| ==> q[i] == p[if i < index then i else i + 1];
  }

  /** Without an open playlist the active list is the library. */
  lemma CurrentTrackListIsLibrary(s: PlayerState)
    requires Valid(s) && s.currentPlaylist.None?
    ensures CurrentTrackList(s) == s.tracks
  {
  }

  /** With a playlist open the active list holds, in list order, a track for exactly those of
      its ids that some track carries, each the first track with that id. */
  lemma CurrentTrackListOfPlaylist(s: PlayerState)
    requires Valid(s) && s.currentPlaylist.Some?
    ensures Ids(CurrentTrackList(s)) == KeepPresent(s.playlists[s.currentPlaylist.value].trackIds, Ids(s.tracks))
    ensures forall i :: 0 <= i < |CurrentTrackList(s)| ==>
      IndexOf(Ids(s.tracks), CurrentTrackList(s)[i].id) == Some(CurrentPositions(s)[i])
  {
    var ids := s.playlists[s.currentPlaylist.value].trackIds;
    PositionsMatchKeepPresent(ids, Ids(s.tracks));
  }

  predicate HasCurrent(s: PlayerState)
    requires Valid(s)
  {
    s.currentTrackIndex < |CurrentPositions(s)|
  }

  /** `tracks[currentTrackIndex]` of the active list, as a position in the library. */
  function CurrentPosition(s: PlayerState): (k: nat)
    requires Valid(s) && HasCurrent(s)
    ensures k < |s.tracks|
  {
    CurrentPositions(s)[s.currentTrackIndex]
  }

  /** The current track can be given a source: its URL is cached or its blob is stored. */
  predicate AudioAvailable(s: PlayerState)
    requires Valid(s) && HasCurrent(s)
  {
    var t := s.tracks[CurrentPosition(s)];
    t.url.Some? || Lookup(s.db, AudioStore, t.audioId).Some?
  }

  lemma IdsUpdate(tracks: seq<Track>, k: nat, t: Track)
    requires k < |tracks| && tracks[k].id == t.id
    ensures Ids(tracks[k := t]) == Ids(tracks)
  {
  }

  /* ---------------- Transport ---------------- */

  /** `play()` (script.js:529-561): resolve the current track's URL (cached, or fetched and
      cached), make it the source, and mark the player as playing once playback starts. An
      empty list, an index past its end or a failing fetch leave everything unchanged; a
      track without a blob gets no source and never starts. Once playback has started,
      `updateCurrentTrackInfo` fills in the current track's missing cover. */
  function Play(s: PlayerState, started: bool): (r: PlayerState)
    requires Valid(s)
    ensures Valid(r)
    ensures !HasCurrent(s) ==> r == s
    ensures r == s.(tracks := r.tracks, audioSrc := r.audioSrc, isPlaying := r.isPlaying)
    ensures r.currentTrackIndex == s.currentTrackIndex && r.isShuffled == s.isShuffled
    ensures Ids(r.tracks) == Ids(s.tracks) && CurrentPositions(r) == CurrentPositions(s)
    ensures r.isPlaying ==> s.isPlaying || started
    ensures HasCurrent(s) && AudioAvailable(s) ==>
      r.audioSrc == Some(AudioUrl(s.tracks[CurrentPosition(s)])) && r.isPlaying == (s.isPlaying || started)
    ensures HasCurrent(s) && !AudioAvailable(s) ==> r.isPlaying == s.isPlaying && r.tracks == s.tracks
    ensures forall i :: 0 <= i < |s.tracks| ==> r.tracks[i] == s.tracks[i].(url := r.tracks[i].url, cover := r.tracks[i].cover)
    ensures forall i :: 0 <= i < |s.tracks| && (!HasCurrent(s) || i != CurrentPosition(s)) ==> r.tracks[i] == s.tracks[i]
    ensures HasCurrent(s) && AudioAvailable(s) && started ==>
      r.tracks[CurrentPosition(s)].cover == Filled(s.db, s.tracks[CurrentPosition(s)]).cover
    ensures !(HasCurrent(s) && AudioAvailable(s) && started) ==>
      forall i :: 0 <= i < |s.tracks| ==> r.tracks[i].cover == s.tracks[i].cover
  {
    var p := CurrentPositions(s);
    if s.currentTrackIndex >= |p| then s
    else
      var k := p[s.currentTrackIndex];
      var t := s.tracks[k];
      var fetched := if t.url.Some? then Ok(t.url) else GetFile(s.db, t.audioId, AudioStore);
      match fetched
      case Err(_) => s
      case Ok(url) =>
        assert HasCurrent(s) && CurrentPosition(s) == k;
        assert AudioAvailable(s) <==> url.Some?;
        Played(s, k, url, started)
  }

  /** The rest of `play()` once the track at library position `k` has its URL: it becomes the
      source, and when playback starts the player is playing and the track's missing cover
      is filled in. */
  function Played(s: PlayerState, k: nat, url: Option<Url>, started: bool): (r: PlayerState)
    requires Valid(s) && k < |s.tracks| && (url.Some? ==> url.value == AudioUrl(s.tracks[k]))
    ensures Valid(r)
    ensures r == s.(tracks := r.tracks, audioSrc := url, isPlaying := s.isPlaying || (started && url.Some?))
    ensures Ids(r.tracks) == Ids(s.tracks) && CurrentPositions(r) == CurrentPositions(s)
    ensures |r.tracks| == |s.tracks| && forall i :: 0 <= i < |s.tracks| && i != k ==> r.tracks[i] == s.tracks[i]
    ensures r.tracks[k] == if started && url.Some? then Filled(s.db, s.tracks[k].(url := url)) else s.tracks[k].(url := url)
  {
    var t := s.tracks[k];
    var shown := if started && url.Some? then Filled(s.db, t.(url := url)) else t.(url := url);
    IdsUpdate(s.tracks, k, shown);
    CoherentUpdate(s.tracks, k, shown);
    var r := s.(tracks := s.tracks[k := shown], audioSrc := url, isPlaying := s.isPlaying || (started && url.Some?));
    assert CurrentPositions(r) == CurrentPositions(s);
    r
  }

  /** Once playback starts, the current track shows its cover: the one it had, or the URL
      of its stored cover blob. */
  lemma PlayShowsStoredCover(s: PlayerState, started: bool)
    requires Valid(s) && HasCurrent(s) && AudioAvailable(s) && started
    ensures var t := s.tracks[CurrentPosition(s)];
      var m := TrackChangedMessage(Play(s, started));
      m.Some? && m.value.data.artwork == if t.cover.Some? then t.cover else StoredCover(s.db, t.coverId)
  {
    var r := Play(s, started);
    assert HasCurrent(r) && CurrentPosition(r) == CurrentPosition(s);
  }

  /** When no track is left whose cover could be filled in, none is after `play()` either, so
      the `updateTrackList` that `play()` ends with (script.js:558) changes no track. */
  lemma PlayKeepsCoversResolved(s: PlayerState, started: bool)
    requires Valid(s) && CoversResolved(s.db, s.tracks)
    ensures var r := Play(s, started);
      CoversResolved(r.db, r.tracks) && FillCovers(r.db, r.tracks, 0) == r.tracks
  {
    var r := Play(s, started);
    forall i | 0 <= i < |r.tracks| ensures Filled(r.db, r.tracks[i]) == r.tracks[i] {
      assert Filled(s.db, s.tracks[i]) == s.tracks[i];
    }
    ResolvedFillChangesNothing(r.db, r.tracks);
  }

  /** Playing twice in a row is playing once: the second call finds the URL cached. */
  lemma PlayIdempotent(s: PlayerState, started: bool)
    requires Valid(s)
    ensures Play(Play(s, started), started) == Play(s, started)
  {
    var r := Play(s, started);
    if HasCurrent(s) {
      var k := CurrentPosition(s);
      assert CurrentPosition(r) == k;
      if r.tracks[k].url.None? {
        assert r.db == s.db && r.tracks[k].audioId == s.tracks[k].audioId;
      }
      assert r.tracks[k := r.tracks[k]] == r.tracks;
    }
  }

  /** `pause()` (script.js:563-572) */
  function Pause(s: PlayerState): (r: PlayerState)
    ensures !r.isPlaying && r.(isPlaying := s.isPlaying) == s
  {
    s.(isPlaying := false)
  }

  /** `togglePlay()` (script.js:518-527): nothing on an empty list, otherwise pause when
      playing and play when not. */
  function TogglePlay(s: PlayerState, started: bool): (r: PlayerState)
    requires Valid(s)
    ensures Valid(r)
    ensures |CurrentPositions(s)| == 0 ==> r == s
    ensures |CurrentPositions(s)| > 0 && s.isPlaying ==> !r.isPlaying && r == Pause(s)
    ensures |CurrentPositions(s)| > 0 && !s.isPlaying ==> r == Play(s, started)
  {
    if |CurrentPositions(s)| == 0 then s
    else if s.isPlaying then Pause(s)
    else Play(s, started)
  }

  /** `previousTrack()` (script.js:575-581): one step back, wrapping from the first track to
      the last, whether or not shuffle is on. */
  function PreviousTrack(s: PlayerState, started: bool): (r: PlayerState)
    requires Valid(s)
    ensures Valid(r) && CurrentPositions(r) == CurrentPositions(s)
    ensures |CurrentPositions(s)| == 0 ==> r == s
    ensures |CurrentPositions(s)| > 0 ==>
      var n := |CurrentPositions(s)|;
      r.currentTrackIndex == (s.currentTrackIndex + n - 1) % n && r == Play(s.(currentTrackIndex := r.currentTrackIndex), started)
  {
    var n := |CurrentPositions(s)|;
    if n == 0 then s
    else Play(s.(currentTrackIndex := (s.currentTrackIndex - 1 + n) % n), started)
  }

  /** Euclidean remainder is fixed by any decomposition `x == q * n + r` with `0 <= r < n`. */
  lemma ModOfDecomposition(x: int, n: int, q: int, r: int)
    requires n > 0 && 0 <= r < n && x == q * n + r
    ensures x % n == r
  {
    var d := q - x / n;
    assert d * n == q * n - (x / n) * n;
    MulSign(d, n);
  }

  /** A non-zero multiple of `n` is at least `n` away from zero. */
  lemma MulSign(d: int, n: int)
    requires n > 0
    ensures d >= 1 ==> d * n >= n
    ensures d <= -1 ==> d * n <= -n
  {
    if d >= 1 {
      assert d * n == (d - 1) * n + n;
      MulNonNeg(d - 1, n);
    } else if d <= -1 {
      assert d * n == n - (-d + 1) * n;
      MulNonNeg(-d + 1, n);
    }
  }

  lemma MulNonNeg(a: int, n: int)
    requires a >= 0 && n > 0
    ensures a * n >= 0
  {
  }

  /** Stepping the remainder is stepping the number. */
  lemma ModSuccessor(x: nat, n: nat)
    requires n > 0
    ensures (x % n + 1) % n == (x + 1) % n
  {
    var q, r := x / n, x % n;
    if r + 1 < n {
      ModOfDecomposition(r + 1, n, 0, r + 1);
      ModOfDecomposition(x + 1, n, q, r + 1);
    } else {
      ModOfDecomposition(r + 1, n, 1, 0);
      ModOfDecomposition(x + 1, n, q + 1, 0);
    }
  }

  /** `Math.floor(Math.random() * n)` */
  function ShuffleIndex(random: real, n: nat): (r: nat)
    requires 0.0 <= random < 1.0 && n > 0
    ensures r < n
  {
    assert random * n as real < n as real;
    (random * n as real).Floor
  }

  /** Every position can come out of the shuffle. */
  lemma ShuffleReachesEvery(n: nat, j: nat)
    requires j < n
    ensures 0.0 <= j as real / n as real < 1.0
    ensures ShuffleIndex(j as real / n as real, n) == j
  {
    assert (j as real / n as real) * n as real == j as real;
  }

  /** `nextTrack()` (script.js:583-593): with shuffle on, the index is drawn in [0, n); with
      shuffle off, one step forward wrapping from the last track to the first. */
  function NextTrack(s: PlayerState, random: real, started: bool): (r: PlayerState)
    requires Valid(s) && 0.0 <= random < 1.0
    ensures Valid(r) && CurrentPositions(r) == CurrentPositions(s) && r.isShuffled == s.isShuffled
    ensures |CurrentPositions(s)| == 0 ==> r == s
    ensures |CurrentPositions(s)| > 0 ==>
      r.currentTrackIndex < |CurrentPositions(s)| && r == Play(s.(currentTrackIndex := r.currentTrackIndex), started)
    ensures |CurrentPositions(s)| > 0 && !s.isShuffled ==>
      r.currentTrackIndex == (s.currentTrackIndex + 1) % |CurrentPositions(s)|
    ensures |CurrentPositions(s)| > 0 && s.isShuffled ==> r.currentTrackIndex == ShuffleIndex(random, |CurrentPositions(s)|)
  {
    var n := |CurrentPositions(s)|;
    if n == 0 then s
    else
      var i := if s.isShuffled then ShuffleIndex(random, n) else (s.currentTrackIndex + 1) % n;
      Play(s.(currentTrackIndex := i), started)
  }

  /** `handleTrackEnd()` (script.js:595-608): repeat-one replays the same track, repeat-all
      moves on as `nextTrack` does, and without repeat the player moves on only before the
      last track and otherwise stops where it is. */
  function HandleTrackEnd(s: PlayerState, random: real, started: bool): (r: PlayerState)
    requires Valid(s) && 0.0 <= random < 1.0
    ensures Valid(r)
    ensures s.repeatMode == 2 ==> r == Play(s, started) && r.currentTrackIndex == s.currentTrackIndex
    ensures s.repeatMode == 1 ==> r == NextTrack(s, random, started)
    ensures s.repeatMode == 0 && s.currentTrackIndex + 1 < |CurrentPositions(s)| ==> r == NextTrack(s, random, started)
    ensures s.repeatMode == 0 && s.currentTrackIndex + 1 < |CurrentPositions(s)| && !s.isShuffled ==>
      r.currentTrackIndex == s.currentTrackIndex + 1
    ensures s.repeatMode == 0 && s.currentTrackIndex + 1 >= |CurrentPositions(s)| ==>
      r == Pause(s) && r.currentTrackIndex == s.currentTrackIndex && !r.isPlaying
  {
    if s.repeatMode == 2 then Play(s, started)
    else if s.repeatMode == 1 then NextTrack(s, random, started)
    else if s.currentTrackIndex < |CurrentPositions(s)| - 1 then
      var i := s.currentTrackIndex;
      ModOfDecomposition(i + 1, |CurrentPositions(s)|, 0, i + 1);
      NextTrack(s, random, started)
    else Pause(s)
  }

  /** Going forward and back again returns to the same index without shuffle. */
  lemma NextThenPrevious(s: PlayerState, random: real, started: bool)
    requires Valid(s) && 0.0 <= random < 1.0 && !s.isShuffled
    requires s.currentTrackIndex < |CurrentPositions(s)|
    ensures PreviousTrack(NextTrack(s, random, started), started).currentTrackIndex == s.currentTrackIndex
  {
    var n := |CurrentPositions(s)|;
    var i := s.currentTrackIndex;
    var r := NextTrack(s, random, started);
    assert r.currentTrackIndex == Advance(i, n) && CurrentPositions(r) == CurrentPositions(s) by {
      NextIndex(s, random, started);
    }
    PreviousIndex(r, started);
  }

  /** `NextTrack` applied `k` times, each time playing with the same verdict. */
  function NextTimes(s: PlayerState, random: real, started: bool, k: nat): (r: PlayerState)
    requires Valid(s) && 0.0 <= random < 1.0
    ensures Valid(r) && CurrentPositions(r) == CurrentPositions(s) && r.isShuffled == s.isShuffled
    decreases k
  {
    if k == 0 then s
    else
      var prev := NextTimes(s, random, started, k - 1);
      var r := NextTrack(prev, random, started);
      assert CurrentPositions(r) == CurrentPositions(prev);
      r
  }

  /** One wrapping step forward in a list of `n`. */
  function Advance(i: nat, n: nat): nat
  {
    if i + 1 < n then i + 1 else 0
  }

  /** The index part of `NextTrack` without shuffle. */
  lemma NextIndex(s: PlayerState, random: real, started: bool)
    requires Valid(s) && 0.0 <= random < 1.0 && !s.isShuffled && HasCurrent(s)
    ensures NextTrack(s, random, started).currentTrackIndex == Advance(s.currentTrackIndex, |CurrentPositions(s)|)
  {
    var n := |CurrentPositions(s)|;
    var i := s.currentTrackIndex;
    if i + 1 < n {
      ModOfDecomposition(i + 1, n, 0, i + 1);
    } else {
      ModOfDecomposition(i + 1, n, 1, 0);
    }
  }

  /** The index part of `PreviousTrack`: one step back, from the first to the last. */
  lemma PreviousIndex(s: PlayerState, started: bool)
    requires Valid(s) && HasCurrent(s)
    ensures var n := |CurrentPositions(s)|;
      PreviousTrack(s, started).currentTrackIndex == if s.currentTrackIndex == 0 then n - 1 else s.currentTrackIndex - 1
  {
    var n := |CurrentPositions(s)|;
    var i := s.currentTrackIndex;
    if i == 0 {
      ModOfDecomposition(i + n - 1, n, 0, n - 1);
    } else {
      ModOfDecomposition(i + n - 1, n, 1, i - 1);
    }
  }

  /** One more step forward is one more `NextTrack`. */
  lemma NextTimesStep(s: PlayerState, random: real, started: bool, k: nat)
    requires Valid(s) && 0.0 <= random < 1.0 && !s.isShuffled && HasCurrent(s) && k > 0
    requires NextTimes(s, random, started, k - 1).currentTrackIndex < |CurrentPositions(s)|
    ensures NextTimes(s, random, started, k).currentTrackIndex ==
      Advance(NextTimes(s, random, started, k - 1).currentTrackIndex, |CurrentPositions(s)|)
  {
    var prev := NextTimes(s, random, started, k - 1);
    NextIndex(prev, random, started);
  }

  /** `k` wrapping steps from `i` in a list of `n`. */
  function Steps(i: nat, n: nat, k: nat): (r: nat)
    ensures i < n ==> r < n
  {
    if k == 0 then i else Advance(Steps(i, n, k - 1), n)
  }

  lemma {:induction false} StepsMod(i: nat, n: nat, k: nat)
    requires i < n
    ensures Steps(i, n, k) == (i + k) % n
  {
    if k == 0 {
      ModOfDecomposition(i, n, 0, i);
    } else {
      StepsMod(i, n, k - 1);
      var x: nat := i + k - 1;
      assert Steps(i, n, k - 1) == x % n;
      ModSuccessor(x, n);
      if x % n + 1 < n {
        ModOfDecomposition(x % n + 1, n, 0, x % n + 1);
      } else {
        ModOfDecomposition(x % n + 1, n, 1, 0);
      }
      assert x + 1 == i + k;
    }
  }

  lemma {:induction false} NextTimesSteps(s: PlayerState, random: real, started: bool, k: nat)
    requires Valid(s) && 0.0 <= random < 1.0 && !s.isShuffled && HasCurrent(s)
    ensures NextTimes(s, random, started, k).currentTrackIndex == Steps(s.currentTrackIndex, |CurrentPositions(s)|, k)
  {
    if k > 0 {
      NextTimesSteps(s, random, started, k - 1);
      NextTimesStep(s, random, started, k);
    }
  }

  /** Without shuffle, `k` steps forward land `k` places on, modulo the length. */
  lemma NextTimesIndex(s: PlayerState, random: real, started: bool, k: nat)
    requires Valid(s) && 0.0 <= random < 1.0 && !s.isShuffled
    requires s.currentTrackIndex < |CurrentPositions(s)|
    ensures NextTimes(s, random, started, k).currentTrackIndex == (s.currentTrackIndex + k) % |CurrentPositions(s)|
  {
    var n := |CurrentPositions(s)|;
    var a := NextTimes(s, random, started, k).currentTrackIndex;
    var b := Steps(s.currentTrackIndex, n, k);
    assert a == b by {
      NextTimesSteps(s, random, started, k);
    }
    assert b == (s.currentTrackIndex + k) % n by {
      StepsMod(s.currentTrackIndex, n, k);
    }
  }

  /** `n` steps forward come back to the start. */
  lemma NextWrapsAround(s: PlayerState, random: real, started: bool)
    requires Valid(s) && 0.0 <= random < 1.0 && !s.isShuffled
    requires s.currentTrackIndex < |CurrentPositions(s)|
    ensures NextTimes(s, random, started, |CurrentPositions(s)|).currentTrackIndex == s.currentTrackIndex
  {
    var n := |CurrentPositions(s)|;
    var a := NextTimes(s, random, started, n).currentTrackIndex;
    assert a == (s.currentTrackIndex + n) % n by {
      NextTimesIndex(s, random, started, n);
    }
    assert (s.currentTrackIndex + n) % n == s.currentTrackIndex by {
      ModOfDecomposition(s.currentTrackIndex + n, n, 1, s.currentTrackIndex);
    }
  }

  /* ---------------- Modes and volume ---------------- */

  /** `toggleShuffle()` (script.js:610-613) */
  function ToggleShuffle(s: PlayerState): (r: PlayerState)
    requires Valid(s)
    ensures Valid(r)
    ensures r.isShuffled != s.isShuffled && r.(isShuffled := s.isShuffled) == s
  {
    s.(isShuffled := !s.isShuffled)
  }

  /** `toggleRepeat()` (script.js:615-621): off, all, one, off again. */
  function ToggleRepeat(s: PlayerState): (r: PlayerState)
    requires Valid(s)
    ensures Valid(r)
    ensures s.repeatMode == 0 ==> r.repeatMode == 1
    ensures s.repeatMode == 1 ==> r.repeatMode == 2
    ensures s.repeatMode == 2 ==> r.repeatMode == 0
    ensures r.(repeatMode := s.repeatMode) == s
  {
    s.(repeatMode := (s.repeatMode + 1) % 3)
  }

  lemma ToggleShuffleTwice(s: PlayerState)
    requires Valid(s)
    ensures ToggleShuffle(ToggleShuffle(s)) == s
  {
  }

  lemma ToggleRepeatThrice(s: PlayerState)
    requires Valid(s)
    ensures ToggleRepeat(ToggleRepeat(ToggleRepeat(s))) == s
  {
  }

  /** `setVolume()` (script.js:629-632) for a slider position in percent. */
  function SetVolume(s: PlayerState, level: nat): (r: PlayerState)
    requires Valid(s) && level <= MaxVolume
    ensures Valid(r) && r.volume == level && r.(volume := s.volume) == s
  {
    s.(volume := level)
  }

  /** `toggleMute()` (script.js:634-643): a sounding player goes silent; a silent one comes
      back at 70 percent. */
  function ToggleMute(s: PlayerState): (r: PlayerState)
    requires Valid(s)
    ensures Valid(r)
    ensures s.volume > 0 ==> r.volume == 0
    ensures s.volume == 0 ==> r.volume == UnmuteVolume
    ensures r.(volume := s.volume) == s
  {
    if s.volume > 0 then s.(volume := 0) else s.(volume := UnmuteVolume)
  }

  /** Muting and unmuting does not give back the earlier volume: it gives 70. */
  lemma MuteTwiceForgetsVolume(s: PlayerState)
    requires Valid(s) && s.volume > 0
    ensures ToggleMute(ToggleMute(s)).volume == UnmuteVolume
    ensures s.volume != UnmuteVolume ==> ToggleMute(ToggleMute(s)) != s
  {
  }

  /* ---------------- Playlists ---------------- */

  /** `openPlaylist(playlist)` (script.js:840-847) */
  function OpenPlaylist(s: PlayerState, k: nat): (r: PlayerState)
    requires Valid(s) && k < |s.playlists|
    ensures Valid(r) && r.currentPlaylist == Some(k) && r.currentTrackIndex == 0
    ensures r.(currentPlaylist := s.currentPlaylist, currentTrackIndex := s.currentTrackIndex) == s
  {
    s.(currentPlaylist := Some(k), currentTrackIndex := 0)
  }

  /** `backToPlaylists()` (script.js:849-854): the library is the active list again; the index
      is left as it was. */
  function BackToPlaylists(s: PlayerState): (r: PlayerState)
    requires Valid(s)
    ensures Valid(r) && CurrentTrackList(r) == s.tracks
    ensures r.currentTrackIndex == s.currentTrackIndex && r.(currentPlaylist := s.currentPlaylist) == s
  {
    s.(currentPlaylist := None)
  }

  /** `saveData()` (script.js:1062-1087) */
  function SaveData(s: PlayerState): (r: PlayerState)
    ensures r.storage == Persist(s.storage, s.tracks, s.playlists, Settings(s.volume, s.isShuffled, s.repeatMode))
    ensures r.(storage := s.storage) == s
  {
    s.(storage := Persist(s.storage, s.tracks, s.playlists, Settings(s.volume, s.isShuffled, s.repeatMode)))
  }

  /** `saveCreatePlaylist()` (script.js:822-838): a blank name does nothing; otherwise a new
      empty playlist with the trimmed name and description is appended and saved. */
  function SaveCreatePlaylist(s: PlayerState, name: string, description: string, id: Id, created: string): (r: PlayerState)
    requires Valid(s)
    ensures Valid(r)
    ensures Trim(name) == "" ==> r == s
    ensures Trim(name) != "" ==>
      r == SaveData(s.(playlists := s.playlists + [Playlist(id, Trim(name), Trim(description), [], created)]))
    ensures Trim(name) != "" ==>
      && |r.playlists| == |s.playlists| + 1 && r.playlists[..|s.playlists|] == s.playlists
      && r.playlists[|s.playlists|].name != "" && !IsSpace(r.playlists[|s.playlists|].name[0])
  {
    var trimmed := Trim(name);
    if trimmed == "" then s
    else
      var ps := s.playlists + [Playlist(id, trimmed, Trim(description), [], created)];
      assert ps[..|s.playlists|] == s.playlists;
      SaveData(s.(playlists := ps))
  }

  /** The tracks the add dialog offers for the open playlist (script.js:861-863): those not
      listed in it yet. */
  function Candidates(s: PlayerState): (r: seq<Id>)
    requires Valid(s)
    ensures s.currentPlaylist.None? ==> r == []
    ensures s.currentPlaylist.Some? ==> forall x :: x in r <==>
      x in Ids(s.tracks) && x !in s.playlists[s.currentPlaylist.value].trackIds
  {
    match s.currentPlaylist
    case None => []
    case Some(k) => Unlisted(Ids(s.tracks), s.playlists[k].trackIds)
  }

  /** `saveAddToPlaylist()` (script.js:898-908): the selected ids are appended to the open
      playlist in selection order and saved; without an open playlist or a selection nothing
      happens. */
  function SaveAddToPlaylist(s: PlayerState, selected: seq<Id>): (r: PlayerState)
    requires Valid(s)
    ensures Valid(r)
    ensures s.currentPlaylist.None? || |selected| == 0 ==> r == s
    ensures s.currentPlaylist.Some? && |selected| > 0 ==>
      var k := s.currentPlaylist.value;
      r == SaveData(s.(playlists := s.playlists[k := s.playlists[k].(trackIds := s.playlists[k].trackIds + selected)]))
  {
    match s.currentPlaylist
    case None => s
    case Some(k) =>
      if |selected| == 0 then s
      else SaveData(s.(playlists := s.playlists[k := s.playlists[k].(trackIds := s.playlists[k].trackIds + selected)]))
  }

  /** Adding a selection made from the candidates keeps a playlist free of repeated ids. */
  lemma AddCandidatesKeepsNoDup(s: PlayerState, selected: seq<Id>)
    requires Valid(s) && s.currentPlaylist.Some?
    requires NoDup(s.playlists[s.currentPlaylist.value].trackIds) && NoDup(selected)
    requires forall i :: 0 <= i < |selected| ==> selected[i] in Candidates(s)
    ensures NoDup(SaveAddToPlaylist(s, selected).playlists[s.currentPlaylist.value].trackIds)
  {
    var k := s.currentPlaylist.value;
    AppendCandidatesNoDup(s.playlists[k].trackIds, selected, Ids(s.tracks));
  }

  /** `Math.max(0, i - 1)` when the removed position is at or before the current one. */
  function AdjustIndex(current: nat, removed: nat): (r: nat)
    ensures removed <= current ==> r == if current == 0 then 0 else current - 1
    ensures removed > current ==> r == current
  {
    if removed <= current then (if current - 1 > 0 then current - 1 else 0) else current
  }

  /** `removeFromPlaylist(index)` (script.js:910-921): the id at `index` of the open
      playlist's `trackIds` goes, the index steps back when it was at or after it, and the
      result is saved. */
  function RemoveFromPlaylist(s: PlayerState, index: nat): (r: PlayerState)
    requires Valid(s)
    ensures Valid(r)
    ensures s.currentPlaylist.None? ==> r == s
    ensures s.currentPlaylist.Some? ==>
      var k := s.currentPlaylist.value;
      r == SaveData(s.(playlists := s.playlists[k := s.playlists[k].(trackIds := SpliceOne(s.playlists[k].trackIds, index))],
                       currentTrackIndex := AdjustIndex(s.currentTrackIndex, index)))
  {
    match s.currentPlaylist
    case None => s
    case Some(k) =>
      var p := s.playlists[k];
      SaveData(s.(playlists := s.playlists[k := p.(trackIds := SpliceOne(p.trackIds, index))],
                  currentTrackIndex := AdjustIndex(s.currentTrackIndex, index)))
  }

  /** After a removal the open playlist resolves its spliced id list against the same
      tracks. */
  lemma RemovedPositions(s: PlayerState, index: nat)
    requires Valid(s) && s.currentPlaylist.Some?
    ensures var r := RemoveFromPlaylist(s, index);
      && r.tracks == s.tracks
      && CurrentPositions(r) == Positions(SpliceOne(s.playlists[s.currentPlaylist.value].trackIds, index), Ids(s.tracks))
  {
  }

  /** Where every listed id matches a track, removing the id at `index` removes the
      position shown at `index`. */
  lemma RemoveShownPosition(s: PlayerState, index: nat)
    requires Valid(s) && s.currentPlaylist.Some?
    requires forall i :: 0 <= i < |s.playlists[s.currentPlaylist.value].trackIds| ==>
      s.playlists[s.currentPlaylist.value].trackIds[i] in Ids(s.tracks)
    requires index < |CurrentPositions(s)|
    ensures var r := RemoveFromPlaylist(s, index);
      r.tracks == s.tracks && CurrentPositions(r) == CurrentPositions(s)[..index] + CurrentPositions(s)[index + 1..]
  {
    var k := s.currentPlaylist.value;
    PositionsSplice(s.playlists[k].trackIds, Ids(s.tracks), index);
  }

  /** Where every listed id matches a track, the track at the chosen position of the active
      list is the one that disappears from it. */
  lemma RemoveShownTrack(s: PlayerState, index: nat)
    requires Valid(s) && s.currentPlaylist.Some?
    requires forall i :: 0 <= i < |s.playlists[s.currentPlaylist.value].trackIds| ==>
      s.playlists[s.currentPlaylist.value].trackIds[i] in Ids(s.tracks)
    requires index < |CurrentTrackList(s)|
    ensures CurrentTrackList(RemoveFromPlaylist(s, index)) == CurrentTrackList(s)[..index] + CurrentTrackList(s)[index + 1..]
  {
    RemoveShownPosition(s, index);
    TracksAtSplice(s.tracks, CurrentPositions(s), index);
  }

  /** With an id that matches no track the list and the display disagree: when the open
      playlist starts with a dangling id, removing the first track shown takes out the
      dangling id instead and the track stays on screen. */
  lemma RemoveWithDanglingId(s: PlayerState)
    requires Valid(s) && s.currentPlaylist.Some?
    requires var ids := s.playlists[s.currentPlaylist.value].trackIds;
      |ids| > 0 && ids[0] !in Ids(s.tracks)
    ensures CurrentTrackList(RemoveFromPlaylist(s, 0)) == CurrentTrackList(s)
  {
    var ids := s.playlists[s.currentPlaylist.value].trackIds;
    RemovedPositions(s, 0);
    assert SpliceOne(ids, 0) == ids[1..];
  }


  /* ---------------- Editing and covers ---------------- */

  /** `saveTrackEdit()` (script.js:946-956): the edited track takes the trimmed title and
      artist, blank ones falling back to "Без названия" and "Неизвестный исполнитель"; no
      track open for editing means nothing happens. */
  function SaveTrackEdit(s: PlayerState, editing: Option<nat>, title: string, artist: string): (r: PlayerState)
    requires Valid(s) && (editing.Some? ==> editing.value < |s.tracks|)
    ensures Valid(r)
    ensures editing.None? ==> r == s
    ensures editing.Some? ==> |r.tracks| == |s.tracks| && Ids(r.tracks) == Ids(s.tracks)
    ensures editing.Some? ==> forall i :: 0 <= i < |s.tracks| && i != editing.value ==> r.tracks[i] == s.tracks[i]
    ensures editing.Some? ==>
      r.tracks[editing.value] == s.tracks[editing.value].(title := OrDefault(Trim(title), Untitled), artist := OrDefault(Trim(artist), UnknownArtist))
    ensures editing.Some? ==> r.tracks[editing.value].title != "" && r.tracks[editing.value].artist != ""
    ensures editing.Some? ==> r == SaveData(s.(tracks := r.tracks))
  {
    match editing
    case None => s
    case Some(k) =>
      var t := s.tracks[k];
      var edited := t.(title := OrDefault(Trim(title), Untitled), artist := OrDefault(Trim(artist), UnknownArtist));
      IdsUpdate(s.tracks, k, edited);
      CoherentUpdate(s.tracks, k, edited);
      SaveData(s.(tracks := s.tracks[k := edited]))
  }

  /** `handleImageFile(e)` (script.js:482-496): the picture is stored under a new id and
      becomes the edited track's cover. The previous cover blob stays in the store and the
      snapshot is not saved. */
  function HandleImageFile(s: PlayerState, editing: Option<nat>, file: Option<File>, imageId: Id): (r: PlayerState)
    requires Valid(s) && (editing.Some? ==> editing.value < |s.tracks|)
    ensures Valid(r)
    ensures file.None? || editing.None? || SaveFile(s.db, ImageStore, file.value, imageId).Err? ==> r == s
    ensures file.Some? && editing.Some? && SaveFile(s.db, ImageStore, file.value, imageId).Ok? ==>
      var d := SaveFile(s.db, ImageStore, file.value, imageId).value;
      r == s.(db := Some(d), tracks := s.tracks[editing.value := s.tracks[editing.value].(cover := Some(ObjectUrl(ImageStore, imageId)), coverId := Some(imageId))])
  {
    if file.None? || editing.None? then s
    else
      var k := editing.value;
      match SaveFile(s.db, ImageStore, file.value, imageId)
      case Err(_) => s
      case Ok(d) =>
        var url := GetFile(Some(d), imageId, ImageStore).value;
        var edited := s.tracks[k].(cover := url, coverId := Some(imageId));
        CoherentUpdate(s.tracks, k, edited);
        s.(db := Some(d), tracks := s.tracks[k := edited])
  }

  /** A replaced cover's blob is not deleted. */
  lemma ReplacedCoverStays(s: PlayerState, k: nat, file: File, imageId: Id)
    requires Valid(s) && k < |s.tracks| && s.tracks[k].coverId.Some?
    requires Lookup(s.db, ImageStore, s.tracks[k].coverId.value).Some?
    ensures var r := HandleImageFile(s, Some(k), Some(file), imageId);
      Lookup(r.db, ImageStore, s.tracks[k].coverId.value) == Lookup(s.db, ImageStore, s.tracks[k].coverId.value)
  {
  }

  /* ---------------- Cleanup and reset ---------------- */

  /** Both blob deletions of `deleteTrack` can be issued. */
  predicate DeleteSucceeds(s: PlayerState, index: nat)
    requires index < |s.tracks|
  {
    StoreReady(s.db, AudioStore) && (s.tracks[index].coverId.Some? ==> StoreReady(s.db, ImageStore))
  }

  /** The database after the blob deletions of `deleteTrack`, and whether both went through. */
  datatype Cleanup = Cleanup(db: Option<Database>, complete: bool)

  /** The blob deletions of `deleteTrack` (script.js:963-969): the audio blob, then the cover
      blob when there is one. The first that cannot be issued throws and ends the operation. */
  function DeleteBlobs(db: Option<Database>, t: Track): (r: Cleanup)
    ensures r.complete <==> StoreReady(db, AudioStore) && (t.coverId.Some? ==> StoreReady(db, ImageStore))
    ensures !StoreReady(db, AudioStore) ==> r.db == db
    ensures StoreReady(db, AudioStore) && !r.complete ==> r.db == Some(DeleteFile(db, t.audioId, AudioStore).value)
    ensures r.complete ==>
      && Lookup(r.db, AudioStore, t.audioId).None?
      && (t.coverId.Some? ==> Lookup(r.db, ImageStore, t.coverId.value).None?)
      && forall n, k :: (n != AudioStore || k != t.audioId) && (t.coverId.None? || n != ImageStore || k != t.coverId.value) ==>
           Lookup(r.db, n, k) == Lookup(db, n, k)
  {
    match DeleteFile(db, t.audioId, AudioStore)
    case Err(_) => Cleanup(db, false)
    case Ok(d1) =>
      if t.coverId.None? then Cleanup(Some(d1), true)
      else
        match DeleteFile(Some(d1), t.coverId.value, ImageStore)
        case Err(_) => Cleanup(Some(d1), false)
        case Ok(d) => Cleanup(Some(d), true)
  }

  /** The `forEach` of `deleteTrack` (script.js:971-976): the track's first occurrence goes
      from every playlist. */
  function PruneAll(ps: seq<Playlist>, id: Id): (r: seq<Playlist>)
    ensures |r| == |ps|
    ensures forall i :: 0 <= i < |ps| ==> r[i] == ps[i].(trackIds := RemoveFirst(ps[i].trackIds, id))
  {
    seq(|ps|, i requires 0 <= i < |ps| => ps[i].(trackIds := RemoveFirst(ps[i].trackIds, id)))
  }

  /** `deleteTrack(index)` (script.js:958-990): once confirmed, the track's audio blob and its
      cover blob are deleted, its id leaves every playlist once, the track leaves the library,
      the index steps back when it was at or after it, and the result is saved. A deletion that
      cannot be issued stops the operation where it throws. */
  function DeleteTrack(s: PlayerState, index: nat, confirmed: bool): (r: PlayerState)
    requires Valid(s) && index < |s.tracks|
    ensures Valid(r)
    ensures !confirmed || !StoreReady(s.db, AudioStore) ==> r == s
    ensures confirmed && StoreReady(s.db, AudioStore) && !DeleteSucceeds(s, index) ==>
      r == s.(db := Some(DeleteFile(s.db, s.tracks[index].audioId, AudioStore).value))
    ensures confirmed && DeleteSucceeds(s, index) ==>
      var t := s.tracks[index];
      && r.tracks == s.tracks[..index] + s.tracks[index + 1..]
      && r.playlists == PruneAll(s.playlists, t.id)
      && r.currentTrackIndex == AdjustIndex(s.currentTrackIndex, index)
      && Lookup(r.db, AudioStore, t.audioId).None?
      && (t.coverId.Some? ==> Lookup(r.db, ImageStore, t.coverId.value).None?)
      && r == SaveData(r.(storage := s.storage))
      && r == s.(tracks := r.tracks, playlists := r.playlists, currentTrackIndex := r.currentTrackIndex, db := r.db, storage := r.storage)
  {
    if !confirmed then s
    else
      var t := s.tracks[index];
      var deletion := DeleteBlobs(s.db, t);
      if !deletion.complete then s.(db := deletion.db)
      else
        var tracks := s.tracks[..index] + s.tracks[index + 1..];
        CoherentRemove(s.tracks, index);
        SaveData(s.(db := deletion.db, playlists := PruneAll(s.playlists, t.id), tracks := tracks,
                    currentTrackIndex := AdjustIndex(s.currentTrackIndex, index)))
  }

  /** An index that pointed into the library still does after a deletion, or is 0 once the
      library is empty. */
  lemma DeleteTrackKeepsIndexInRange(s: PlayerState, index: nat)
    requires Valid(s) && index < |s.tracks| && s.currentTrackIndex < |s.tracks|
    requires DeleteSucceeds(s, index)
    ensures var r := DeleteTrack(s, index, true);
      r.currentTrackIndex < |r.tracks| || (|r.tracks| == 0 && r.currentTrackIndex == 0)
  {
  }

  /** Where no playlist repeats an id, a deleted track is gone from all of them. */
  lemma DeleteTrackLeavesNoReference(s: PlayerState, index: nat)
    requires Valid(s) && index < |s.tracks| && DeleteSucceeds(s, index)
    requires forall i :: 0 <= i < |s.playlists| ==> NoDup(s.playlists[i].trackIds)
    ensures var r := DeleteTrack(s, index, true);
      forall i :: 0 <= i < |r.playlists| ==> s.tracks[index].id !in r.playlists[i].trackIds && NoDup(r.playlists[i].trackIds)
  {
    var r := DeleteTrack(s, index, true);
    forall i | 0 <= i < |r.playlists|
      ensures s.tracks[index].id !in r.playlists[i].trackIds && NoDup(r.playlists[i].trackIds)
    {
      RemoveFirstNoDup(s.playlists[i].trackIds, s.tracks[index].id);
    }
  }

  /** The two `clear` requests of `confirmReset` (script.js:1004-1010), audio files first; the
      first that cannot be issued throws and ends the reset. */
  function ClearStores(db: Option<Database>): (r: Cleanup)
    ensures r.complete <==> StoreReady(db, AudioStore) && StoreReady(db, ImageStore)
    ensures !StoreReady(db, AudioStore) ==> r.db == db
    ensures StoreReady(db, AudioStore) && !r.complete ==> r.db == Some(ClearStore(db, AudioStore).value)
    ensures r.complete ==> forall n, k :: n == AudioStore || n == ImageStore ==> Lookup(r.db, n, k).None?
  {
    match ClearStore(db, AudioStore)
    case Err(_) => Cleanup(db, false)
    case Ok(d1) =>
      match ClearStore(Some(d1), ImageStore)
      case Err(_) => Cleanup(Some(d1), false)
      case Ok(d) => Cleanup(Some(d), true)
  }

  /** `confirmReset()` (script.js:1001-1043): both stores are cleared, the three snapshot keys
      removed, and the library, playlists, index and transport reset; the settings stay. A
      store that cannot be cleared stops the reset where it throws. */
  function ConfirmReset(s: PlayerState): (r: PlayerState)
    requires Valid(s)
    ensures Valid(r)
    ensures !StoreReady(s.db, AudioStore) ==> r == s
    ensures StoreReady(s.db, AudioStore) && !StoreReady(s.db, ImageStore) ==>
      r == s.(db := Some(ClearStore(s.db, AudioStore).value))
    ensures StoreReady(s.db, AudioStore) && StoreReady(s.db, ImageStore) ==>
      && r.tracks == [] && r.playlists == [] && r.currentTrackIndex == 0 && r.currentPlaylist.None?
      && !r.isPlaying && r.audioSrc.None?
      && r.storage == s.storage - {TracksKey, PlaylistsKey, SettingsKey}
      && (forall n, k :: n == AudioStore || n == ImageStore ==> Lookup(r.db, n, k).None?)
      && r.volume == s.volume && r.isShuffled == s.isShuffled && r.repeatMode == s.repeatMode
  {
    var cleared := ClearStores(s.db);
    if !cleared.complete then s.(db := cleared.db)
    else
      s.(db := cleared.db, storage := s.storage - {TracksKey, PlaylistsKey, SettingsKey},
         tracks := [], playlists := [], currentTrackIndex := 0, currentPlaylist := None,
         isPlaying := false, audioSrc := None)
  }

  /* ---------------- Loading ---------------- */

  /** The first block of `loadData` (script.js:1092-1108): an array of entries goes through
      the loading loop; a string is iterated character by character, none of which has an
      audio id; any other value is not iterable and throws. */
  function RestoreTracks(db: Option<Database>, saved: Json): (r: LoadResult)
    ensures forall t :: t in r.kept ==> t.url == Some(ObjectUrl(AudioStore, t.audioId)) && t.cover.None?
  {
    match saved
    case JArr(entries) => LoadTracks(db, entries)
    case JStr(_) => LoadResult([], false)
    case _ => LoadResult([], true)
  }

  /** The tracks the first block of `loadData` restores: none when the key is absent. */
  function SavedTracks(s: PlayerState): (r: LoadResult)
    ensures TracksKey !in s.storage ==> r == LoadResult([], false)
    ensures forall t :: t in r.kept ==> t.url == Some(AudioUrl(t)) && t.cover.None?
  {
    if TracksKey in s.storage then RestoreTracks(s.db, s.storage[TracksKey]) else LoadResult([], false)
  }

  /** Appending tracks whose URLs are their own keeps the URLs coherent. */
  lemma CoherentAppend(tracks: seq<Track>, more: seq<Track>)
    requires UrlsCoherent(tracks)
    requires forall t :: t in more ==> t.url == Some(AudioUrl(t))
    ensures UrlsCoherent(tracks + more)
  {
    var all := tracks + more;
    forall j | 0 <= j < |all| && all[j].url.Some? ensures all[j].url.value == AudioUrl(all[j]) {
      if j >= |tracks| {
        assert all[j] == more[j - |tracks|];
      }
    }
  }

  /** The second and third blocks of `loadData` (script.js:1110-1123): saved playlists replace
      the current ones, and the settings are read with their defaults. */
  function LoadSettings(s: PlayerState): (r: PlayerState)
    requires Valid(s) && s.currentPlaylist.None?
    ensures Valid(r) && r.currentPlaylist.None?
    ensures r == s.(playlists := r.playlists, volume := r.volume, isShuffled := r.isShuffled, repeatMode := r.repeatMode)
    ensures PlaylistsKey !in s.storage && SettingsKey !in s.storage ==> r == s
  {
    var playlists := if PlaylistsKey in s.storage then DecodePlaylists(s.storage[PlaylistsKey]) else None;
    var s1 := if playlists.Some? then s.(playlists := playlists.value) else s;
    var settings := if SettingsKey in s.storage then ReadSettings(s.storage[SettingsKey]) else None;
    if settings.None? then s1
    else s1.(volume := settings.value.volume, isShuffled := settings.value.isShuffled, repeatMode := settings.value.repeatMode)
  }

  /** Filling in covers leaves the URLs as they were. */
  lemma CoherentFill(db: Option<Database>, tracks: seq<Track>)
    requires UrlsCoherent(tracks)
    ensures UrlsCoherent(FillCovers(db, tracks, 0))
  {
    var r := FillCovers(db, tracks, 0);
    assert forall j :: 0 <= j < |r| ==> r[j].url == tracks[j].url && r[j].audioId == tracks[j].audioId;
  }

  /** `loadData` reaches its closing `updateTrackList` (script.js:1134): neither the tracks
      block nor the settings block threw (a stored `null` throws on `settings.volume`). */
  predicate LoadCompletes(s: PlayerState)
  {
    !SavedTracks(s).stopped && !(SettingsKey in s.storage && s.storage[SettingsKey].JNull?)
  }

  /** `loadData()` (script.js:1089-1139): restored tracks are appended to the library; then,
      unless that threw, the playlists are replaced by the saved ones and the settings read
      with their defaults. Keys that are absent are passed over. When nothing threw, the
      closing `updateTrackList` renders the library (the view is still the constructor's
      "tracks") and so fills in every cover that has a stored blob. */
  function LoadData(s: PlayerState): (r: PlayerState)
    requires Valid(s) && s.currentPlaylist.None?
    ensures Valid(r)
    ensures r.currentPlaylist.None? && r.currentTrackIndex == s.currentTrackIndex && r.db == s.db && r.storage == s.storage
    ensures var all := s.tracks + SavedTracks(s).kept;
      && |r.tracks| == |all|
      && (LoadCompletes(s) ==> forall k :: 0 <= k < |all| ==> r.tracks[k] == Filled(s.db, all[k]))
      && (!LoadCompletes(s) ==> r.tracks == all)
    ensures LoadCompletes(s) ==> CoversResolved(r.db, r.tracks)
    ensures TracksKey !in s.storage && PlaylistsKey !in s.storage && SettingsKey !in s.storage ==> r == s.(tracks := r.tracks)
  {
    var loaded := SavedTracks(s);
    var s1 := s.(tracks := s.tracks + loaded.kept);
    CoherentAppend(s.tracks, loaded.kept);
    if loaded.stopped then s1
    else
      var s2 := LoadSettings(s1);
      if SettingsKey in s.storage && s.storage[SettingsKey].JNull? then s2
      else
        CoherentFill(s2.db, s2.tracks);
        FillCoversResolves(s2.db, s2.tracks);
        s2.(tracks := FillCovers(s2.db, s2.tracks, 0))
  }

  /** A reload restores the snapshot: the tracks whose audio blobs are still stored, each
      with its cover exactly when the cover blob is still stored, the playlists exactly, and
      the settings. */
  lemma SaveThenLoad(s: PlayerState, page: PlayerState)
    requires Valid(s) && Valid(page) && page.tracks == [] && page.currentPlaylist.None?
    requires page.storage == SaveData(s).storage
    requires page.db.Some? && AudioStore in page.db.value.stores
    ensures var r := LoadData(page);
      var restored := Reloaded(page.db.value, s.tracks);
      && |r.tracks| == |restored|
      && (forall k :: 0 <= k < |r.tracks| ==> r.tracks[k] == restored[k].(cover := StoredCover(page.db, restored[k].coverId)))
      && r.playlists == s.playlists
      && r.volume == s.volume && r.isShuffled == s.isShuffled && r.repeatMode == s.repeatMode
  {
    var storage := page.storage;
    var restored := Reloaded(page.db.value, s.tracks);
    assert storage[TracksKey] == JArr(TrackEntries(s.tracks));
    LoadSavedTracks(page.db.value, s.tracks);
    assert SavedTracks(page) == LoadResult(restored, false);
    assert storage[SettingsKey] == EncodeSettings(Settings(s.volume, s.isShuffled, s.repeatMode));
    assert LoadCompletes(page);
    DecodeSavedPlaylists(s.playlists);
    ReadSavedSettings(Settings(s.volume, s.isShuffled, s.repeatMode));
    var r := LoadData(page);
    assert page.tracks + restored == restored;
    forall k | 0 <= k < |r.tracks| ensures r.tracks[k] == restored[k].(cover := StoredCover(page.db, restored[k].coverId)) {
      assert restored[k] in SavedTracks(page).kept;
    }
  }

  /** `initializeDatabase()` (script.js:30-48): open the database, recreating it when a store
      is missing, then load the snapshot; a database that cannot be opened leaves the player
      as it was. */
  function InitializeDatabase(s: PlayerState, disk: Option<Database>): (r: PlayerState)
    requires Valid(s) && s.currentPlaylist.None?
    ensures Valid(r)
    ensures BlobStore.InitializeDatabase(disk).Err? ==> r == s
    ensures BlobStore.InitializeDatabase(disk).Ok? ==>
      r.db == Some(BlobStore.InitializeDatabase(disk).value) && HasStores(r.db.value)
      && r == LoadData(s.(db := r.db))
  {
    match BlobStore.InitializeDatabase(disk)
    case Err(_) => s
    case Ok(d) => LoadData(s.(db := Some(d)))
  }

  /** After a reset a reload brings nothing back. */
  lemma ResetThenReload(s: PlayerState)
    requires Valid(s) && StoreReady(s.db, AudioStore) && StoreReady(s.db, ImageStore)
    ensures var r := ConfirmReset(s);
      LoadData(r) == r && r.tracks == [] && r.playlists == []
  {
  }

  /* ---------------- Ingestion ---------------- */

  /** The track `processAudioFilesWithProgress` makes for a stored file (script.js:1467-1476):
      titled by the file name without its extension, with the default artist and duration and
      no cover. */
  function NewTrack(id: Id, file: File, audioId: Id, url: Option<Url>): (t: Track)
    ensures t.title == StripExtension(file.name) && t.artist == UnknownArtist && t.duration == UnknownDuration
    ensures t.id == id && t.audioId == audioId && t.url == url && t.coverId.None? && t.cover.None?
  {
    Track(id, StripExtension(file.name), UnknownArtist, UnknownDuration, audioId, None, url, None)
  }

  datatype Ingested = Ingested(db: Option<Database>, tracks: seq<Track>)

  /** One iteration of the ingestion loop (script.js:1462-1490): the blob is saved under a
      new id, read back as a URL, and only then the track is pushed; a save that throws
      skips the file. */
  function IngestFile(db: Option<Database>, tracks: seq<Track>, file: File, blobId: Id, trackId: Id): (g: Ingested)
    ensures SaveFile(db, AudioStore, file, blobId).Err? ==> g == Ingested(db, tracks)
    ensures SaveFile(db, AudioStore, file, blobId).Ok? ==>
      g == Ingested(Some(SaveFile(db, AudioStore, file, blobId).value),
                    tracks + [NewTrack(trackId, file, blobId, Some(ObjectUrl(AudioStore, blobId)))])
  {
    match SaveFile(db, AudioStore, file, blobId)
    case Err(_) => Ingested(db, tracks)
    case Ok(d) => Ingested(Some(d), tracks + [NewTrack(trackId, file, blobId, GetFile(Some(d), blobId, AudioStore).value)])
  }

  /** A track as ingestion makes it: defaults in place and the URL of its own audio blob. */
  predicate FreshlyIngested(t: Track)
  {
    t.artist == UnknownArtist && t.duration == UnknownDuration && t.coverId.None? && t.cover.None?
    && t.url == Some(AudioUrl(t))
  }

  /** The ingestion loop over a list of files, with the new ids for each. */
  function IngestAll(db: Option<Database>, tracks: seq<Track>, files: seq<File>, blobIds: seq<Id>, trackIds: seq<Id>): (g: Ingested)
    requires |blobIds| == |files| && |trackIds| == |files|
    ensures |tracks| <= |g.tracks| <= |tracks| + |files| && g.tracks[..|tracks|] == tracks
    decreases |files|
  {
    if |files| == 0 then Ingested(db, tracks)
    else
      var n := |files| - 1;
      var prev := IngestAll(db, tracks, files[..n], blobIds[..n], trackIds[..n]);
      var g := IngestFile(prev.db, prev.tracks, files[n], blobIds[n], trackIds[n]);
      assert g.tracks[..|prev.tracks|] == prev.tracks;
      assert g.tracks[..|tracks|] == prev.tracks[..|tracks|];
      g
  }

  /** Whatever fails, ingestion only appends fresh tracks whose blobs are stored, and keeps
      every record that was stored before. */
  lemma {:induction false} IngestAllKeeps(db: Option<Database>, tracks: seq<Track>, files: seq<File>, blobIds: seq<Id>, trackIds: seq<Id>)
    requires |blobIds| == |files| && |trackIds| == |files|
    ensures var g := IngestAll(db, tracks, files, blobIds, trackIds);
      && (forall j :: |tracks| <= j < |g.tracks| ==>
            FreshlyIngested(g.tracks[j]) && Lookup(g.db, AudioStore, g.tracks[j].audioId).Some?)
      && (forall n, k :: Lookup(db, n, k).Some? ==> Lookup(g.db, n, k) == Lookup(db, n, k))
      && (db.Some? <==> g.db.Some?)
    decreases |files|
  {
    if |files| > 0 {
      var n := |files| - 1;
      IngestAllKeeps(db, tracks, files[..n], blobIds[..n], trackIds[..n]);
      var prev := IngestAll(db, tracks, files[..n], blobIds[..n], trackIds[..n]);
      var g := IngestAll(db, tracks, files, blobIds, trackIds);
      assert g == IngestFile(prev.db, prev.tracks, files[n], blobIds[n], trackIds[n]);
      forall j | |tracks| <= j < |g.tracks|
        ensures FreshlyIngested(g.tracks[j]) && Lookup(g.db, AudioStore, g.tracks[j].audioId).Some?
      {
        if j < |prev.tracks| {
          assert g.tracks[j] == prev.tracks[j];
        }
      }
    }
  }

  /** One file ingested into an open store under an unused blob id. */
  lemma IngestFileComplete(db: Option<Database>, tracks: seq<Track>, file: File, blobId: Id, trackId: Id)
    requires StoreReady(db, AudioStore) && Lookup(db, AudioStore, blobId).None?
    ensures var g := IngestFile(db, tracks, file, blobId, trackId);
      && g.tracks == tracks + [NewTrack(trackId, file, blobId, Some(ObjectUrl(AudioStore, blobId)))]
      && StoreReady(g.db, AudioStore)
      && Lookup(g.db, AudioStore, blobId) == Some(BlobRecord(blobId, file.name, file.mime, file.data))
      && forall k :: k != blobId ==> Lookup(g.db, AudioStore, k) == Lookup(db, AudioStore, k)
  {
  }

  /** The blob store side of ingestion: every blob is saved under its id, nothing else in
      the audio store changes. */
  lemma {:induction false} IngestAllStore(db: Option<Database>, tracks: seq<Track>, files: seq<File>, blobIds: seq<Id>, trackIds: seq<Id>)
    requires |blobIds| == |files| && |trackIds| == |files|
    requires StoreReady(db, AudioStore) && NoDup(blobIds)
    requires forall i :: 0 <= i < |blobIds| ==> Lookup(db, AudioStore, blobIds[i]).None?
    ensures var g := IngestAll(db, tracks, files, blobIds, trackIds);
      && StoreReady(g.db, AudioStore)
      && (forall i :: 0 <= i < |files| ==> Lookup(g.db, AudioStore, blobIds[i]) == Some(BlobRecord(blobIds[i], files[i].name, files[i].mime, files[i].data)))
      && (forall k :: k !in blobIds ==> Lookup(g.db, AudioStore, k) == Lookup(db, AudioStore, k))
    decreases |files|
  {
    if |files| > 0 {
      var n := |files| - 1;
      var fs, bs, ts := files[..n], blobIds[..n], trackIds[..n];
      assert NoDup(bs);
      IngestAllStore(db, tracks, fs, bs, ts);
      var prev := IngestAll(db, tracks, fs, bs, ts);
      assert blobIds[n] !in bs by {
        assert forall i :: 0 <= i < n ==> bs[i] != blobIds[n];
      }
      IngestFileComplete(prev.db, prev.tracks, files[n], blobIds[n], trackIds[n]);
      var g := IngestAll(db, tracks, files, blobIds, trackIds);
      assert g == IngestFile(prev.db, prev.tracks, files[n], blobIds[n], trackIds[n]);
      forall i | 0 <= i < n
        ensures Lookup(g.db, AudioStore, blobIds[i]) == Some(BlobRecord(blobIds[i], files[i].name, files[i].mime, files[i].data))
      {
        assert fs[i] == files[i] && bs[i] == blobIds[i];
      }
      forall k | k !in blobIds ensures Lookup(g.db, AudioStore, k) == Lookup(db, AudioStore, k) {
        assert k !in bs && k != blobIds[n];
      }
    }
  }

  /** When the audio store is open and the blob ids are new, every file becomes a track, in
      order, named after its file, with its blob saved under its id. */
  lemma {:induction false} IngestAllComplete(db: Option<Database>, tracks: seq<Track>, files: seq<File>, blobIds: seq<Id>, trackIds: seq<Id>)
    requires |blobIds| == |files| && |trackIds| == |files|
    requires StoreReady(db, AudioStore) && NoDup(blobIds)
    requires forall i :: 0 <= i < |blobIds| ==> Lookup(db, AudioStore, blobIds[i]).None?
    ensures var g := IngestAll(db, tracks, files, blobIds, trackIds);
      |g.tracks| == |tracks| + |files|
      && forall i :: 0 <= i < |files| ==> g.tracks[|tracks| + i] == NewTrack(trackIds[i], files[i], blobIds[i], Some(ObjectUrl(AudioStore, blobIds[i])))
    decreases |files|
  {
    if |files| > 0 {
      var n := |files| - 1;
      var fs, bs, ts := files[..n], blobIds[..n], trackIds[..n];
      assert NoDup(bs);
      IngestAllComplete(db, tracks, fs, bs, ts);
      IngestAllStore(db, tracks, fs, bs, ts);
      var prev := IngestAll(db, tracks, fs, bs, ts);
      assert blobIds[n] !in bs by {
        assert forall i :: 0 <= i < n ==> bs[i] != blobIds[n];
      }
      IngestFileComplete(prev.db, prev.tracks, files[n], blobIds[n], trackIds[n]);
      var g := IngestAll(db, tracks, files, blobIds, trackIds);
      assert g.tracks == prev.tracks + [NewTrack(trackIds[n], files[n], blobIds[n], Some(ObjectUrl(AudioStore, blobIds[n])))];
      forall i | 0 <= i < n
        ensures g.tracks[|tracks| + i] == NewTrack(trackIds[i], files[i], blobIds[i], Some(ObjectUrl(AudioStore, blobIds[i])))
      {
        assert fs[i] == files[i] && bs[i] == blobIds[i] && ts[i] == trackIds[i];
      }
    }
  }

  /** Ingestion keeps every cached audio URL the one of its track's own blob. */
  lemma IngestCoherent(db: Option<Database>, tracks: seq<Track>, files: seq<File>, blobIds: seq<Id>, trackIds: seq<Id>)
    requires |blobIds| == |files| && |trackIds| == |files| && UrlsCoherent(tracks)
    ensures UrlsCoherent(IngestAll(db, tracks, files, blobIds, trackIds).tracks)
  {
    var g := IngestAll(db, tracks, files, blobIds, trackIds);
    IngestAllKeeps(db, tracks, files, blobIds, trackIds);
    forall j | 0 <= j < |g.tracks| && g.tracks[j].url.Some? ensures g.tracks[j].url.value == AudioUrl(g.tracks[j]) {
      if j < |tracks| { assert g.tracks[..|tracks|][j] == g.tracks[j]; }
    }
  }

  /** `processAudioFilesWithProgress(files)` (script.js:1453-1497): nothing for an empty list;
      otherwise the files are ingested one by one and the snapshot is saved at the end. */
  function ProcessAudioFiles(s: PlayerState, files: seq<File>, blobIds: seq<Id>, trackIds: seq<Id>): (r: PlayerState)
    requires Valid(s) && |blobIds| == |files| && |trackIds| == |files|
    ensures Valid(r)
    ensures |files| == 0 ==> r == s
    ensures |files| > 0 ==>
      var g := IngestAll(s.db, s.tracks, files, blobIds, trackIds);
      r == SaveData(s.(db := g.db, tracks := g.tracks))
  {
    if |files| == 0 then s
    else
      var g := IngestAll(s.db, s.tracks, files, blobIds, trackIds);
      IngestCoherent(s.db, s.tracks, files, blobIds, trackIds);
      SaveData(s.(db := g.db, tracks := g.tracks))
  }

  /** Every track ingested comes back after a reload, provided the earlier ones did. */
  lemma IngestedTracksReload(s: PlayerState, files: seq<File>, blobIds: seq<Id>, trackIds: seq<Id>)
    requires Valid(s) && |blobIds| == |files| && |trackIds| == |files| && |files| > 0
    requires s.db.Some? && forall t :: t in s.tracks ==> Lookup(s.db, AudioStore, t.audioId).Some?
    ensures var r := ProcessAudioFiles(s, files, blobIds, trackIds);
      r.db.Some? && |Reloaded(r.db.value, r.tracks)| == |r.tracks|
  {
    var r := ProcessAudioFiles(s, files, blobIds, trackIds);
    var g := IngestAll(s.db, s.tracks, files, blobIds, trackIds);
    IngestAllKeeps(s.db, s.tracks, files, blobIds, trackIds);
    forall t | t in r.tracks ensures Lookup(r.db, AudioStore, t.audioId).Some? {
      var j :| 0 <= j < |r.tracks| && r.tracks[j] == t;
      if j < |s.tracks| {
        assert g.tracks[..|s.tracks|][j] == t;
      }
    }
    ReloadedWhole(r.db.value, r.tracks);
  }

  /** The `loadedmetadata` listener (script.js:1482-1487): once the file's length is known the
      track's duration becomes its `formatTime` and the snapshot is saved. The track is found
      by its id. */
  function PatchDuration(s: PlayerState, trackId: Id, seconds: nat): (r: PlayerState)
    requires Valid(s)
    ensures Valid(r)
    ensures Ids(r.tracks) == Ids(s.tracks)
    ensures IndexOf(Ids(s.tracks), trackId).None? ==> r.tracks == s.tracks
    ensures IndexOf(Ids(s.tracks), trackId).Some? ==>
      var k := IndexOf(Ids(s.tracks), trackId).value;
      r.tracks == s.tracks[k := s.tracks[k].(duration := FormatTime(seconds))]
    ensures r == SaveData(s.(tracks := r.tracks))
  {
    match IndexOf(Ids(s.tracks), trackId)
    case None => SaveData(s)
    case Some(k) =>
      var t := s.tracks[k].(duration := FormatTime(seconds));
      IdsUpdate(s.tracks, k, t);
      CoherentUpdate(s.tracks, k, t);
      SaveData(s.(tracks := s.tracks[k := t]))
  }

  /* ---------------- Messages ---------------- */

  /** `handleServiceWorkerMessage(event)` (script.js:1334-1357) */
  function HandleServiceWorkerMessage(s: PlayerState, msg: Message, random: real, started: bool): (r: PlayerState)
    requires Valid(s) && 0.0 <= random < 1.0
    ensures Valid(r)
    ensures msg.kind == PlayCommand ==> r == if s.isPlaying then s else Play(s, started)
    ensures msg.kind == PauseCommand ==> r == if s.isPlaying then Pause(s) else s
    ensures msg.kind == PreviousCommand ==> r == PreviousTrack(s, started)
    ensures msg.kind == NextCommand ==> r == NextTrack(s, random, started)
    ensures msg.kind == SeekCommand && msg.data.SeekOffset? ==> r == s.(currentTime := s.currentTime + msg.data.offset)
    ensures msg.kind == SeekToCommand && msg.data.SeekTime? ==> r == s.(currentTime := msg.data.time)
    ensures msg.kind == SeekCommand && !msg.data.SeekOffset? ==> r == s
    ensures msg.kind == SeekToCommand && !msg.data.SeekTime? ==> r == s
    ensures msg.kind !in {PlayCommand, PauseCommand, PreviousCommand, NextCommand, SeekCommand, SeekToCommand} ==> r == s
  {
    if msg.kind == PlayCommand then (if !s.isPlaying then Play(s, started) else s)
    else if msg.kind == PauseCommand then (if s.isPlaying then Pause(s) else s)
    else if msg.kind == PreviousCommand then PreviousTrack(s, started)
    else if msg.kind == NextCommand then NextTrack(s, random, started)
    else if msg.kind == SeekCommand then
      (match msg.data
       case SeekOffset(offset) => s.(currentTime := s.currentTime + offset)
       case _ => s)
    else if msg.kind == SeekToCommand then
      (match msg.data
       case SeekTime(time) => s.(currentTime := time)
       case _ => s)
    else s
  }

  /** A repeated PLAY or PAUSE command does nothing more than the first. */
  lemma PlayPauseCommandsIdempotent(s: PlayerState, random: real, started: bool)
    requires Valid(s) && 0.0 <= random < 1.0
    ensures var play := Message(PlayCommand, NoData);
      var once := HandleServiceWorkerMessage(s, play, random, started);
      HandleServiceWorkerMessage(once, play, random, started) == once
    ensures var pause := Message(PauseCommand, NoData);
      var once := HandleServiceWorkerMessage(s, pause, random, started);
      HandleServiceWorkerMessage(once, pause, random, started) == once
  {
    if !s.isPlaying {
      PlayIdempotent(s, started);
    }
  }

  /** A media action, carried through the service worker, has the matching effect on the
      player: transport commands as the buttons do, seeks of ten seconds by default. */
  lemma MediaActionEffect(s: PlayerState, action: ServiceWorker.MediaAction, random: real, started: bool)
    requires Valid(s) && 0.0 <= random < 1.0
    ensures var r := HandleServiceWorkerMessage(s, ServiceWorker.ActionMessage(action), random, started);
      match action
      case PlayAction => r == if s.isPlaying then s else Play(s, started)
      case PauseAction => r == if s.isPlaying then Pause(s) else s
      case PreviousTrackAction => r == PreviousTrack(s, started)
      case NextTrackAction => r == NextTrack(s, random, started)
      case SeekBackward(o) => r == s.(currentTime := s.currentTime - ServiceWorker.SeekStep(o))
      case SeekForward(o) => r == s.(currentTime := s.currentTime + ServiceWorker.SeekStep(o))
      case SeekTo(t) => r == s.(currentTime := t)
  {
  }

  /** The TRACK_CHANGED message `updateMediaSession()` sends (script.js:1309-1324), when there
      is a current track. */
  function TrackChangedMessage(s: PlayerState): (m: Option<Message>)
    requires Valid(s)
    ensures m.Some? <==> HasCurrent(s)
    ensures m.Some? ==> m.value.kind == TrackChanged && m.value.data.TrackInfo?
  {
    if !HasCurrent(s) then None
    else
      var t := s.tracks[CurrentPosition(s)];
      Some(Message(TrackChanged, TrackInfo(t.title, t.artist, Some(PlaylistAlbum), t.cover)))
  }

  /** The PLAYBACK_STATE_CHANGED message of `updateProgress` and `enterBackgroundMode`
      (script.js:663-671, 1189-1196), for an audio length of `duration` seconds. */
  function PlaybackStateMessage(s: PlayerState, duration: real): (m: Message)
    ensures m.kind == PlaybackStateChanged
    ensures m.data == StateInfo(s.isPlaying, Some(s.currentTime), Some(duration), None)
  {
    Message(PlaybackStateChanged, StateInfo(s.isPlaying, Some(s.currentTime), Some(duration), None))
  }

  /** The lock screen shows the current track, under the page's album name, with its cover
      at every size, and the media keys are live. */
  lemma LockScreenShowsTrack(s: PlayerState, session: ServiceWorker.MediaSession)
    requires Valid(s) && HasCurrent(s)
    ensures var t := s.tracks[CurrentPosition(s)];
      var r := ServiceWorker.OnMessage(Some(session), TrackChangedMessage(s).value);
      r.Some? && r.value.handlersInstalled
      && r.value.metadata == Some(ServiceWorker.Metadata(t.title, t.artist, PlaylistAlbum, ServiceWorker.ArtworkList(t.cover)))
  {
  }

  /** The lock screen's playback state follows the player, and its position state is the
      player's position at rate 1. */
  lemma SessionFollowsPlayback(s: PlayerState, session: ServiceWorker.MediaSession, duration: real)
    ensures ServiceWorker.OnMessage(Some(session), PlaybackStateMessage(s, duration)) ==
      Some(session.(playbackState := if s.isPlaying then "playing" else "paused",
                    positionState := Some(ServiceWorker.PositionState(duration, 1.0, s.currentTime))))
  {
  }
}
