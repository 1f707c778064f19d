/**
 * The library reducer (librarySlice.ts): the in-memory copy of the offline
 * library, the playback queue with its cursor, the cache-size report and the
 * download progress. Each reducer case is one method of `LibraryState`; the
 * queue cases are specified by functions on a `Playback` value, and the
 * lemmas at the end relate the reducer's copy of the library to the index
 * the content store keeps.
 */
module LibrarySlice {
  import opened Spotify
  import DownloadService

  datatype DownloadProgress = DownloadProgress(isDownloading: bool, total: int, completed: int, currentItem: string)

  const IdleProgress := DownloadProgress(false, 0, 0, "")

  /** The queue part of the state: the current track, the cursor and the queue. */
  datatype Playback = Playback(currentlyPlaying: Option<DownloadedTrack>, currentTrackIndex: int,
                               currentPlaylist: Option<seq<DownloadedTrack>>)

  const Stopped := Playback(None, -1, None)

  /** The cursor is -1 without a queue, and -1 or a position of the queue with one. */
  predicate QueueValid(p: Playback)
  {
    match p.currentPlaylist
    case None => p.currentTrackIndex == -1
    case Some(q) => -1 <= p.currentTrackIndex < |q|
  }

  /** The cursor is on a position of the queue and the current track is the record there. */
  predicate OnQueue(p: Playback)
  {
    && p.currentPlaylist.Some?
    && 0 <= p.currentTrackIndex < |p.currentPlaylist.value|
    && p.currentlyPlaying == Some(p.currentPlaylist.value[p.currentTrackIndex])
  }

  /** setCurrentPlaylist: the new queue, with the cursor on the current track's id in it. */
  function SetCurrentPlaylistSpec(p: Playback, queue: Option<seq<DownloadedTrack>>): Playback
  {
    var k := if p.currentlyPlaying.Some? && queue.Some?
             then FindIndex(queue.value, TrackId, p.currentlyPlaying.value.info.id)
             else -1;
    p.(currentPlaylist := queue, currentTrackIndex := k)
  }

  /** playNext: one step forward when the cursor is before the last position. */
  function PlayNextSpec(p: Playback): Playback
    requires QueueValid(p)
  {
    match p.currentPlaylist
    case Some(q) =>
      if p.currentTrackIndex < |q| - 1 then Playback(Some(q[p.currentTrackIndex + 1]), p.currentTrackIndex + 1, Some(q))
      else p
    case None => p
  }

  /** playPrevious: one step back when the cursor is past the first position. */
  function PlayPreviousSpec(p: Playback): Playback
    requires QueueValid(p)
  {
    match p.currentPlaylist
    case Some(q) =>
      if p.currentTrackIndex > 0 then Playback(Some(q[p.currentTrackIndex - 1]), p.currentTrackIndex - 1, Some(q))
      else p
    case None => p
  }

  /** `action.error.message || fallback`: a missing or empty message gives the fallback text. */
  function ErrorText(message: Option<string>, fallback: string): (r: string)
    ensures message.Some? && message.value != "" ==> r == message.value
    ensures message.None? || message.value == "" ==> r == fallback
  {
    match message
    case Some(m) => if m != "" then m else fallback
    case None => fallback
  }

  /** The fallback text of each rejected download. */
  function DownloadFailure(c: Category): string
  {
    match c
    case Tracks => "Failed to download track"
    case Albums => "Failed to download album"
    case Playlists => "Failed to download playlist"
  }

  // ---------------------------------------------------------------------
  // Properties of the queue
  // ---------------------------------------------------------------------

  /**
   * setCurrentPlaylist keeps the cursor invariant, and the cursor is on a
   * position exactly when there is a current track and the new queue holds
   * its id; it is then the first such position.
   */
  lemma SetCurrentPlaylistLocates(p: Playback, queue: Option<seq<DownloadedTrack>>)
    ensures var p' := SetCurrentPlaylistSpec(p, queue);
      && QueueValid(p')
      && p'.currentlyPlaying == p.currentlyPlaying
      && (p'.currentTrackIndex >= 0 <==>
            p.currentlyPlaying.Some? && queue.Some?
            && exists j | 0 <= j < |queue.value| :: queue.value[j].info.id == p.currentlyPlaying.value.info.id)
      && (p'.currentTrackIndex >= 0 ==>
            queue.value[p'.currentTrackIndex].info.id == p.currentlyPlaying.value.info.id)
      && (p'.currentTrackIndex >= 0 ==>
            forall j | 0 <= j < p'.currentTrackIndex :: queue.value[j].info.id != p.currentlyPlaying.value.info.id)
  {
  }

  /**
   * playNext keeps the cursor invariant and keeps the current track on the
   * queue; it moves exactly when there is a queue and the cursor is before
   * its last position, and then it moves by one.
   */
  lemma {:induction false} PlayNextSteps(p: Playback)
    requires QueueValid(p)
    ensures var p' := PlayNextSpec(p);
      && QueueValid(p')
      && p'.currentPlaylist == p.currentPlaylist
      && (OnQueue(p) ==> OnQueue(p'))
      && (p' != p <==> p.currentPlaylist.Some? && p.currentTrackIndex < |p.currentPlaylist.value| - 1)
      && (p' != p ==> p'.currentTrackIndex == p.currentTrackIndex + 1 && OnQueue(p'))
  {
  }

  /** playPrevious, the mirror image: it moves exactly when the cursor is past the first position. */
  lemma {:induction false} PlayPreviousSteps(p: Playback)
    requires QueueValid(p)
    ensures var p' := PlayPreviousSpec(p);
      && QueueValid(p')
      && p'.currentPlaylist == p.currentPlaylist
      && (OnQueue(p) ==> OnQueue(p'))
      && (p' != p <==> p.currentPlaylist.Some? && p.currentTrackIndex > 0)
      && (p' != p ==> p'.currentTrackIndex == p.currentTrackIndex - 1 && OnQueue(p'))
  {
  }

  /** Inside the queue, playPrevious undoes playNext and playNext undoes playPrevious. */
  lemma NextPreviousRoundTrip(p: Playback)
    requires OnQueue(p)
    ensures QueueValid(p)
    ensures p.currentTrackIndex < |p.currentPlaylist.value| - 1 ==>
              QueueValid(PlayNextSpec(p)) && PlayPreviousSpec(PlayNextSpec(p)) == p
    ensures p.currentTrackIndex > 0 ==>
              QueueValid(PlayPreviousSpec(p)) && PlayNextSpec(PlayPreviousSpec(p)) == p
  {
  }

  /** `n` presses of playNext in a row. */
  function PlayNextTimes(p: Playback, n: nat): (r: Playback)
    requires QueueValid(p)
    ensures QueueValid(r)
    decreases n
  {
    if n == 0 then p
    else
      PlayNextSteps(p);
      PlayNextTimes(PlayNextSpec(p), n - 1)
  }

  /**
   * From a position of the queue, `n` presses of playNext end `n` positions
   * further on, clamped to the last position, still on the queue.
   */
  lemma {:induction false} PlayNextClamps(p: Playback, n: nat)
    requires OnQueue(p)
    ensures QueueValid(p)
    ensures var r := PlayNextTimes(p, n);
      && OnQueue(r)
      && r.currentTrackIndex == Min(p.currentTrackIndex + n, |p.currentPlaylist.value| - 1)
    decreases n
  {
    if n > 0 {
      PlayNextSteps(p);
      PlayNextClamps(PlayNextSpec(p), n - 1);
    }
  }

  function Min(a: int, b: int): int
  {
    if a <= b then a else b
  }

  // ---------------------------------------------------------------------
  // The reducer's library beside the content store's index
  // ---------------------------------------------------------------------

  /**
   * A fulfilled track download files the returned record; when the reducer's
   * copy agreed with the index before the download, it agrees after it.
   */
  lemma TrackDownloadMirrorsIndex(s: DownloadService.Store, lib: Library, track: Track, audio: Blob, now: int)
    requires DownloadService.Consistent(s)
    requires lib == s.library
    ensures var (s', r) := DownloadService.DownloadTrackSpec(s, track, audio, now);
            Put(lib, TrackEntry(r)) == s'.library
  {
    var (s', r) := DownloadService.DownloadTrackSpec(s, track, audio, now);
    if track.id in s.metadata.tracks {
      assert s.library.tracks[track.id] == r;
      assert Put(lib, TrackEntry(r)).tracks == lib.tracks;
    }
  }

  /**
   * A fulfilled album or playlist download files only the collection: a
   * track the collection brought in that was not stored before is in the
   * index but not in the reducer's copy.
   */
  lemma CollectionDownloadMissesItsTracks(s: DownloadService.Store, lib: Library, kind: CollectionKind,
                                          c: Collection, fetch: Track -> Blob, now: int, i: nat)
    requires DownloadService.Consistent(s)
    requires lib == s.library
    requires c.id !in Collections(s.metadata, kind)
    requires i < |c.tracks| && c.tracks[i].id !in s.library.tracks
    ensures var (s', r) := DownloadService.DownloadCollectionSpec(s, kind, c.id, Ok(c), fetch, now);
      && r.Ok?
      && c.tracks[i].id in s'.library.tracks
      && c.tracks[i].id !in Put(lib, CollectionEntry(kind, r.value)).tracks
  {
    DownloadService.DownloadCollectionRecord(s, kind, c.id, c, fetch, now);
  }

  /** A fulfilled track delete removes the same key the content store removed. */
  lemma TrackDeleteMirrorsIndex(s: DownloadService.Store, lib: Library, id: string)
    requires DownloadService.Consistent(s)
    requires lib == s.library
    ensures Remove(lib, Tracks, id) == DownloadService.DeleteTrackSpec(s, id).library
  {
    if id !in s.metadata.tracks {
      assert Lookup(lib, Tracks, id) == None;
    }
  }

  /**
   * A fulfilled album delete removes only the album key: the album's tracks,
   * gone from the content store, stay in the reducer's copy.
   */
  lemma AlbumDeleteLeavesStaleTracks(s: DownloadService.Store, lib: Library, albumId: string, id: string)
    requires DownloadService.Consistent(s)
    requires lib == s.library
    requires albumId in s.library.albums && DownloadService.Lists(s.library.albums[albumId].tracks, id)
    requires id in s.library.tracks
    ensures var s' := DownloadService.DeleteAlbumSpec(s, albumId);
      && id !in s'.library.tracks
      && id in Remove(lib, Albums, albumId).tracks
      && albumId !in Remove(lib, Albums, albumId).albums
  {
    DownloadService.DeleteAlbumRemovesAllItsTracks(s, albumId, id);
  }

  // ---------------------------------------------------------------------
  // The reducer
  // ---------------------------------------------------------------------

  class LibraryState {
    var library: Library
    var currentlyPlaying: Option<DownloadedTrack>
    var currentTrackIndex: int
    var currentPlaylist: Option<seq<DownloadedTrack>>
    var isLoading: bool
    var cacheSize: CacheSize
    var downloadProgress: DownloadProgress
    var error: Option<string>

    function Playing(): Playback
      reads this
    {
      Playback(currentlyPlaying, currentTrackIndex, currentPlaylist)
    }

    ghost predicate Valid()
      reads this
    {
      QueueValid(Playing())
    }

    /** initialState */
    constructor ()
      ensures Valid()
      ensures library == EmptyLibrary && Playing() == Stopped && !isLoading
      ensures cacheSize == ZeroCacheSize && downloadProgress == IdleProgress && error == None
    {
      library := EmptyLibrary;
      currentlyPlaying, currentTrackIndex, currentPlaylist := None, -1, None;
      isLoading := false;
      cacheSize := ZeroCacheSize;
      downloadProgress := IdleProgress;
      error := None;
    }

    /** setCurrentlyPlaying: the cursor and the queue are left as they are. */
    method SetCurrentlyPlaying(track: Option<DownloadedTrack>)
      requires Valid()
      modifies this`currentlyPlaying
      ensures Valid()
      ensures currentlyPlaying == track
    {
      currentlyPlaying := track;
    }

    method SetCurrentPlaylist(queue: Option<seq<DownloadedTrack>>)
      requires Valid()
      modifies this`currentPlaylist, this`currentTrackIndex
      ensures Valid()
      ensures Playing() == SetCurrentPlaylistSpec(old(Playing()), queue)
    {
      currentPlaylist := queue;
      currentTrackIndex := if currentlyPlaying.Some? && currentPlaylist.Some?
                           then FindIndex(currentPlaylist.value, TrackId, currentlyPlaying.value.info.id)
                           else -1;
    }

    method PlayNext()
      requires Valid()
      modifies this`currentTrackIndex, this`currentlyPlaying
      ensures Valid()
      ensures Playing() == PlayNextSpec(old(Playing()))
      ensures old(OnQueue(Playing())) ==> OnQueue(Playing())
    {
      PlayNextSteps(Playing());
      if currentPlaylist.Some? && currentTrackIndex < |currentPlaylist.value| - 1 {
        currentTrackIndex := currentTrackIndex + 1;
        currentlyPlaying := Some(currentPlaylist.value[currentTrackIndex]);
      }
    }

    method PlayPrevious()
      requires Valid()
      modifies this`currentTrackIndex, this`currentlyPlaying
      ensures Valid()
      ensures Playing() == PlayPreviousSpec(old(Playing()))
      ensures old(OnQueue(Playing())) ==> OnQueue(Playing())
    {
      PlayPreviousSteps(Playing());
      if currentPlaylist.Some? && currentTrackIndex > 0 {
        currentTrackIndex := currentTrackIndex - 1;
        currentlyPlaying := Some(currentPlaylist.value[currentTrackIndex]);
      }
    }

    method SetDownloadProgress(progress: DownloadProgress)
      modifies this`downloadProgress
      ensures downloadProgress == progress
    {
      downloadProgress := progress;
    }

    method ResetError()
      modifies this`error
      ensures error == None
    {
      error := None;
    }

    method FetchLibraryPending()
      modifies this`isLoading, this`error
      ensures isLoading && error == None
    {
      isLoading := true;
      error := None;
    }

    method FetchLibraryFulfilled(lib: Library)
      modifies this`library, this`isLoading
      ensures library == lib && !isLoading
    {
      library := lib;
      isLoading := false;
    }

    method FetchLibraryRejected(message: Option<string>)
      modifies this`isLoading, this`error
      ensures !isLoading && error == Some(ErrorText(message, "Failed to fetch library"))
    {
      isLoading := false;
      error := Some(ErrorText(message, "Failed to fetch library"));
    }

    method FetchCacheSizeFulfilled(sizes: CacheSize)
      modifies this`cacheSize
      ensures cacheSize == sizes
    {
      cacheSize := sizes;
    }

    /** The pending case of each of the three downloads. */
    method DownloadPending()
      modifies this`error
      ensures error == None
    {
      error := None;
    }

    /** downloadTrackThunk.fulfilled: the record is filed under its id; the progress stops. */
    method DownloadTrackFulfilled(track: DownloadedTrack)
      modifies this`library, this`downloadProgress
      ensures library == Put(old(library), TrackEntry(track))
      ensures downloadProgress == old(downloadProgress).(isDownloading := false)
    {
      library := library.(tracks := library.tracks[track.info.id := track]);
      downloadProgress := downloadProgress.(isDownloading := false);
    }

    /** downloadAlbumThunk.fulfilled and downloadPlaylistThunk.fulfilled. */
    method DownloadCollectionFulfilled(kind: CollectionKind, c: DownloadedCollection)
      modifies this`library, this`downloadProgress
      ensures library == Put(old(library), CollectionEntry(kind, c))
      ensures downloadProgress == old(downloadProgress).(isDownloading := false)
    {
      match kind {
        case Album => library := library.(albums := library.albums[c.id := c]);
        case Playlist => library := library.(playlists := library.playlists[c.id := c]);
      }
      downloadProgress := downloadProgress.(isDownloading := false);
    }

    /** The rejected case of each of the three downloads. */
    method DownloadRejected(c: Category, message: Option<string>)
      modifies this`error, this`downloadProgress
      ensures error == Some(ErrorText(message, DownloadFailure(c)))
      ensures downloadProgress == old(downloadProgress).(isDownloading := false)
    {
      error := Some(ErrorText(message, DownloadFailure(c)));
      downloadProgress := downloadProgress.(isDownloading := false);
    }

    /**
     * deleteTrackThunk.fulfilled: the key goes, and the current track is
     * cleared when it has that id; the queue and the cursor stay.
     */
    method DeleteTrackFulfilled(trackId: string)
      requires Valid()
      modifies this`library, this`currentlyPlaying
      ensures Valid()
      ensures library == Remove(old(library), Tracks, trackId)
      ensures old(currentlyPlaying).Some? && old(currentlyPlaying).value.info.id == trackId ==> currentlyPlaying == None
      ensures !(old(currentlyPlaying).Some? && old(currentlyPlaying).value.info.id == trackId) ==>
                currentlyPlaying == old(currentlyPlaying)
    {
      library := library.(tracks := library.tracks - {trackId});
      if currentlyPlaying.Some? && currentlyPlaying.value.info.id == trackId {
        currentlyPlaying := None;
      }
    }

    /** deleteAlbumThunk.fulfilled and deletePlaylistThunk.fulfilled: only that one key goes. */
    method DeleteCollectionFulfilled(kind: CollectionKind, id: string)
      modifies this`library
      ensures library == Remove(old(library), CategoryOf(kind), id)
      ensures library.tracks == old(library.tracks)
    {
      match kind {
        case Album => library := library.(albums := library.albums - {id});
        case Playlist => library := library.(playlists := library.playlists - {id});
      }
    }

    /** clearAllCacheThunk.fulfilled */
    method ClearAllFulfilled()
      modifies this`library, this`currentlyPlaying, this`currentPlaylist, this`currentTrackIndex, this`cacheSize
      ensures Valid()
      ensures library == EmptyLibrary && Playing() == Stopped && cacheSize == ZeroCacheSize
    {
      library := EmptyLibrary;
      currentlyPlaying := None;
      currentPlaylist := None;
      currentTrackIndex := -1;
      cacheSize := ZeroCacheSize;
    }
  }
}
