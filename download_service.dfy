/**
 * The offline content store (downloadService.ts): a blob store of audio bytes
 * keyed by track id, a metadata store of saved records, and the library
 * index kept beside them. Every storage call is a get, set or remove on one
 * of these, so each is a map here, and each operation is one atomic step.
 *
 * The operations are specified twice: as functions from one `Store` value to
 * the next (the lemmas below are about these), and as the methods of
 * `ContentManager`, which do the work step by step as the service does and
 * are proved to end in the state the functions give.
 */
module DownloadService {
  import opened Spotify

  /**
   * The whole persistent state. `blobs` is the tracks store. `metadata` is the
   * metadata store, one map per key form: the bare track id, `album:<id>` and
   * `playlist:<id>`. `library` is the index saved under `library_cache`.
   */
  datatype Store = Store(blobs: map<string, Blob>, metadata: Library, library: Library)

  const EmptyStore := Store(map[], EmptyLibrary, EmptyLibrary)

  /**
   * What every operation keeps: the index mirrors the metadata store, a track
   * has audio exactly when it has a record, the record's size is the length
   * of that audio, and every record is filed under its own id.
   */
  ghost predicate Consistent(s: Store)
  {
    && s.metadata == s.library
    && s.blobs.Keys == s.library.tracks.Keys
    && (forall id | id in s.library.tracks ::
          s.library.tracks[id].info.id == id && s.library.tracks[id].sizeBytes == |s.blobs[id]|)
    && (forall id | id in s.library.albums :: s.library.albums[id].id == id)
    && (forall id | id in s.library.playlists :: s.library.playlists[id].id == id)
  }

  function OfflineUrl(id: string): string
  {
    "idb://" + id
  }

  function FailurePrefix(kind: CollectionKind): string
  {
    match kind
    case Album => "Failed to download album: "
    case Playlist => "Failed to download playlist: "
  }

  // ---------------------------------------------------------------------
  // Downloads
  // ---------------------------------------------------------------------

  /**
   * downloadTrack: a track that already has metadata is returned as stored;
   * otherwise its audio is written, then its record, then the index entry.
   */
  function DownloadTrackSpec(s: Store, track: Track, audio: Blob, now: int): (Store, DownloadedTrack)
  {
    if track.id in s.metadata.tracks then (s, s.metadata.tracks[track.id])
    else
      var rec := DownloadedTrack(track, OfflineUrl(track.id), now, |audio|);
      (Store(s.blobs[track.id := audio],
             s.metadata.(tracks := s.metadata.tracks[track.id := rec]),
             s.library.(tracks := s.library.tracks[track.id := rec])),
       rec)
  }

  /** The loop of downloadAlbum and downloadPlaylist: one downloadTrack per track, in order. */
  function DownloadAll(s: Store, ts: seq<Track>, fetch: Track -> Blob, now: int): (Store, seq<DownloadedTrack>)
    decreases |ts|
  {
    if ts == [] then (s, [])
    else
      var prev := DownloadAll(s, ts[..|ts| - 1], fetch, now);
      var last := ts[|ts| - 1];
      var step := DownloadTrackSpec(prev.0, last, fetch(last), now);
      (step.0, prev.1 + [step.1])
  }

  /** The running `totalSize` of the download loop. */
  function TotalBytes(rs: seq<DownloadedTrack>): nat
  {
    if rs == [] then 0 else TotalBytes(rs[..|rs| - 1]) + rs[|rs| - 1].sizeBytes
  }

  /**
   * downloadAlbum / downloadPlaylist: a collection whose `album:<id>` or
   * `playlist:<id>` record exists is returned as stored; otherwise the
   * catalogue answer `fetched` is downloaded track by track and the record is
   * saved and indexed. A failed catalogue call changes nothing.
   */
  function DownloadCollectionSpec(s: Store, kind: CollectionKind, id: string, fetched: Result<Collection>,
                                  fetch: Track -> Blob, now: int): (Store, Result<DownloadedCollection>)
  {
    if id in Collections(s.metadata, kind) then (s, Ok(Collections(s.metadata, kind)[id]))
    else
      match fetched
      case Err(msg) => (s, Err(FailurePrefix(kind) + msg))
      case Ok(c) =>
        var all := DownloadAll(s, c.tracks, fetch, now);
        var rec := DownloadedCollection(c.id, c.name, all.1, now, TotalBytes(all.1));
        (Store(all.0.blobs,
               File(all.0.metadata, kind, id, rec),
               Put(all.0.library, CollectionEntry(kind, rec))),
         Ok(rec))
  }

  /** `metadataStore.setItem('album:<id>' or 'playlist:<id>', record)` */
  function File(meta: Library, kind: CollectionKind, id: string, rec: DownloadedCollection): Library
  {
    match kind
    case Album => meta.(albums := meta.albums[id := rec])
    case Playlist => meta.(playlists := meta.playlists[id := rec])
  }

  // ---------------------------------------------------------------------
  // Deletions
  // ---------------------------------------------------------------------

  /** Removes a set of track ids from the blob store, the metadata store and the index. */
  function DropTracks(s: Store, ids: set<string>): Store
  {
    Store(s.blobs - ids,
          s.metadata.(tracks := s.metadata.tracks - ids),
          s.library.(tracks := s.library.tracks - ids))
  }

  /** Removes a collection's record and its index entry. */
  function DropCollection(s: Store, kind: CollectionKind, id: string): Store
  {
    Store(s.blobs, Remove(s.metadata, CategoryOf(kind), id), Remove(s.library, CategoryOf(kind), id))
  }

  function IdsOf(ts: seq<DownloadedTrack>): set<string>
  {
    set t | t in ts :: t.info.id
  }

  /** deleteTrack: unconditional once the track has metadata; no collection is consulted. */
  function DeleteTrackSpec(s: Store, id: string): Store
  {
    if id in s.metadata.tracks then DropTracks(s, {id}) else s
  }

  /** deleteAlbum: every track the album lists goes, whoever else lists it. */
  function DeleteAlbumSpec(s: Store, id: string): Store
  {
    if id in s.metadata.albums then
      DropCollection(DropTracks(s, IdsOf(s.metadata.albums[id].tracks)), Album, id)
    else s
  }

  /** `.some(track => track.id === trackId)` */
  predicate Lists(ts: seq<DownloadedTrack>, trackId: string)
  {
    exists i | 0 <= i < |ts| :: ts[i].info.id == trackId
  }

  /**
   * isTrackInOtherCollections: some album of the index lists the track (the
   * album's own id is not compared with anything), or some playlist other
   * than `excludeId` does.
   */
  ghost predicate InOtherCollections(lib: Library, trackId: string, excludeId: string)
  {
    || (exists a | a in lib.albums :: Lists(lib.albums[a].tracks, trackId))
    || (exists p | p in lib.playlists && p != excludeId :: Lists(lib.playlists[p].tracks, trackId))
  }

  /** The tracks of `ts` that deletePlaylist removes: those no album and no other playlist lists. */
  ghost function Unshared(lib: Library, ts: seq<DownloadedTrack>, playlistId: string): set<string>
  {
    set t | t in ts && !InOtherCollections(lib, t.info.id, playlistId) :: t.info.id
  }

  /** deletePlaylist: a track goes only when the reference scan finds no other holder. */
  ghost function DeletePlaylistSpec(s: Store, id: string): Store
  {
    if id in s.metadata.playlists then
      DropCollection(DropTracks(s, Unshared(s.library, s.metadata.playlists[id].tracks, id)), Playlist, id)
    else s
  }

  // ---------------------------------------------------------------------
  // Cache size
  // ---------------------------------------------------------------------

  /** The sum of `size` over the values of `m` (the `forEach` totals of getCacheSize). */
  ghost function MapSum<V>(m: map<string, V>, size: V -> nat): nat
    decreases |m|
  {
    if m == map[] then 0
    else
      var k :| k in m;
      assert |m - {k}| < |m| by { assert (m - {k}).Keys == m.Keys - {k}; }
      size(m[k]) + MapSum(m - {k}, size)
  }

  function TrackSize(t: DownloadedTrack): nat { t.sizeBytes }

  function CollectionSize(c: DownloadedCollection): nat { c.sizeBytes }

  /** The sum does not depend on the order the keys are visited in. */
  lemma {:induction false} MapSumRemove<V>(m: map<string, V>, size: V -> nat, k: string)
    requires k in m
    ensures MapSum(m, size) == size(m[k]) + MapSum(m - {k}, size)
    decreases |m|
  {
    var j :| j in m && MapSum(m, size) == size(m[j]) + MapSum(m - {j}, size);
    if j != k {
      assert |m - {j}| < |m| by { assert (m - {j}).Keys == m.Keys - {j}; }
      assert |m - {k}| < |m| by { assert (m - {k}).Keys == m.Keys - {k}; }
      MapSumRemove(m - {j}, size, k);
      MapSumRemove(m - {k}, size, j);
      assert m - {j} - {k} == m - {k} - {j};
    }
  }

  lemma MapSumInsert<V>(m: map<string, V>, size: V -> nat, k: string, v: V)
    requires k !in m
    ensures MapSum(m[k := v], size) == MapSum(m, size) + size(v)
  {
    MapSumRemove(m[k := v], size, k);
    assert m[k := v] - {k} == m;
  }

  /** One `forEach` accumulation of getCacheSize. */
  method CategorySum<V>(m: map<string, V>, size: V -> nat) returns (total: nat)
    ensures total == MapSum(m, size)
  {
    total := 0;
    var rest := m;
    while rest != map[]
      invariant total + MapSum(rest, size) == MapSum(m, size)
      decreases |rest|
    {
      var k :| k in rest;
      MapSumRemove(rest, size, k);
      assert |rest - {k}| < |rest| by { assert (rest - {k}).Keys == rest.Keys - {k}; }
      total := total + size(rest[k]);
      rest := rest - {k};
    }
  }

  /**
   * The reference scan, as the service runs it: first every album of the
   * index, then every playlist except `excludeId`.
   */
  method IsTrackInOtherCollections(library: Library, trackId: string, excludeId: string) returns (found: bool)
    ensures found <==> InOtherCollections(library, trackId, excludeId)
  {
    var albums := library.albums.Keys;
    while albums != {}
      invariant albums <= library.albums.Keys
      invariant forall a | a in library.albums && a !in albums :: !Lists(library.albums[a].tracks, trackId)
      decreases albums
    {
      var a :| a in albums;
      if Lists(library.albums[a].tracks, trackId) {
        return true;
      }
      albums := albums - {a};
    }
    var playlists := library.playlists.Keys;
    while playlists != {}
      invariant playlists <= library.playlists.Keys
      invariant forall p | p in library.playlists && p !in playlists && p != excludeId ::
                  !Lists(library.playlists[p].tracks, trackId)
      decreases playlists
    {
      var p :| p in playlists;
      if p != excludeId && Lists(library.playlists[p].tracks, trackId) {
        return true;
      }
      playlists := playlists - {p};
    }
    return false;
  }

  // ---------------------------------------------------------------------
  // Properties of the specification
  // ---------------------------------------------------------------------

  /** Downloading a track twice: the second call writes nothing and returns the first record. */
  lemma DownloadTrackIdempotent(s: Store, track: Track, audio: Blob, audio': Blob, now: int, now': int)
    ensures var first := DownloadTrackSpec(s, track, audio, now);
            DownloadTrackSpec(first.0, track, audio', now') == first
  {
  }

  lemma DownloadTrackKeepsConsistent(s: Store, track: Track, audio: Blob, now: int)
    requires Consistent(s)
    ensures Consistent(DownloadTrackSpec(s, track, audio, now).0)
  {
  }

  /** A fresh download grows the track total by the audio's length; a repeated one leaves it. */
  lemma DownloadTrackCacheSize(s: Store, track: Track, audio: Blob, now: int)
    requires Consistent(s)
    ensures var s' := DownloadTrackSpec(s, track, audio, now).0;
            MapSum(s'.library.tracks, TrackSize)
              == MapSum(s.library.tracks, TrackSize) + (if track.id in s.library.tracks then 0 else |audio|)
  {
    if track.id !in s.library.tracks {
      var rec := DownloadTrackSpec(s, track, audio, now).1;
      MapSumInsert(s.library.tracks, TrackSize, track.id, rec);
    }
  }

  /**
   * What the download loop leaves behind: one record per catalogue track, in
   * catalogue order, each being the record now stored for that id; records
   * already stored are kept as they were; collections are not touched.
   */
  lemma {:induction false} DownloadAllRecords(s: Store, ts: seq<Track>, fetch: Track -> Blob, now: int)
    requires Consistent(s)
    ensures var all := DownloadAll(s, ts, fetch, now);
      && Consistent(all.0)
      && |all.1| == |ts|
      && (forall i | 0 <= i < |ts| ::
            all.1[i].info.id == ts[i].id && ts[i].id in all.0.library.tracks && all.0.library.tracks[ts[i].id] == all.1[i])
      && (forall id | id in s.library.tracks :: id in all.0.library.tracks && all.0.library.tracks[id] == s.library.tracks[id])
      && all.0.library.albums == s.library.albums
      && all.0.library.playlists == s.library.playlists
    decreases |ts|
  {
    if ts != [] {
      var init, last := ts[..|ts| - 1], ts[|ts| - 1];
      var prev := DownloadAll(s, init, fetch, now);
      var step := DownloadTrackSpec(prev.0, last, fetch(last), now);
      var all := DownloadAll(s, ts, fetch, now);
      DownloadAllRecords(s, init, fetch, now);
      DownloadTrackStep(prev.0, last, fetch(last), now);
      assert all == (step.0, prev.1 + [step.1]);
      forall i | 0 <= i < |ts|
        ensures all.1[i].info.id == ts[i].id && ts[i].id in all.0.library.tracks
        ensures all.0.library.tracks[ts[i].id] == all.1[i]
      {
        if i < |init| {
          assert all.1[i] == prev.1[i] && ts[i] == init[i];
        }
      }
    }
  }

  /** One download step: the record for the track is stored, every earlier record is kept. */
  lemma DownloadTrackStep(s: Store, track: Track, audio: Blob, now: int)
    requires Consistent(s)
    ensures var (s', r) := DownloadTrackSpec(s, track, audio, now);
      && Consistent(s')
      && r.info.id == track.id && track.id in s'.library.tracks && s'.library.tracks[track.id] == r
      && (forall id | id in s.library.tracks :: id in s'.library.tracks && s'.library.tracks[id] == s.library.tracks[id])
      && s'.library.albums == s.library.albums
      && s'.library.playlists == s.library.playlists
  {
  }

  /**
   * A catalogue track whose id is neither stored beforehand nor listed
   * earlier in the collection is saved with the catalogue record and the
   * length of the bytes fetched for it.
   */
  lemma {:induction false} DownloadAllFresh(s: Store, ts: seq<Track>, fetch: Track -> Blob, now: int, i: nat)
    requires Consistent(s)
    requires i < |ts|
    requires ts[i].id !in s.library.tracks
    requires forall j | 0 <= j < i :: ts[j].id != ts[i].id
    ensures var all := DownloadAll(s, ts, fetch, now);
      |all.1| == |ts| && all.1[i].info == ts[i] && all.1[i].sizeBytes == |fetch(ts[i])|
    decreases |ts|
  {
    var init := ts[..|ts| - 1];
    DownloadAllRecords(s, init, fetch, now);
    if i < |ts| - 1 {
      DownloadAllFresh(s, init, fetch, now, i);
    } else {
      var prev := DownloadAll(s, init, fetch, now);
      assert ts[i].id !in prev.0.library.tracks by {
        DownloadAllKeys(s, init, fetch, now);
        forall t | t in init
          ensures t.id != ts[i].id
        {
          var j :| 0 <= j < |init| && init[j] == t;
          assert ts[j] == t;
        }
      }
    }
  }

  function CatalogIds(ts: seq<Track>): set<string>
  {
    set t | t in ts :: t.id
  }

  /** The download loop adds exactly the ids of the catalogue tracks to the track map. */
  lemma {:induction false} DownloadAllKeys(s: Store, ts: seq<Track>, fetch: Track -> Blob, now: int)
    requires Consistent(s)
    ensures DownloadAll(s, ts, fetch, now).0.library.tracks.Keys == s.library.tracks.Keys + CatalogIds(ts)
    decreases |ts|
  {
    if ts != [] {
      var init := ts[..|ts| - 1];
      var last := ts[|ts| - 1];
      var prev := DownloadAll(s, init, fetch, now);
      DownloadAllKeys(s, init, fetch, now);
      DownloadAllRecords(s, init, fetch, now);
      DownloadTrackKeys(prev.0, last, fetch(last), now);
      CatalogIdsSnoc(init, last);
      assert ts == init + [last];
    }
  }

  lemma DownloadTrackKeys(s: Store, track: Track, audio: Blob, now: int)
    requires Consistent(s)
    ensures DownloadTrackSpec(s, track, audio, now).0.library.tracks.Keys == s.library.tracks.Keys + {track.id}
  {
  }

  lemma CatalogIdsSnoc(ts: seq<Track>, t: Track)
    ensures CatalogIds(ts + [t]) == CatalogIds(ts) + {t.id}
  {
  }

  /**
   * A newly downloaded album or playlist: its record lists one downloaded
   * track per catalogue track in catalogue order, its size is the sum of
   * theirs, and it is filed in the metadata store and the index.
   */
  lemma DownloadCollectionRecord(s: Store, kind: CollectionKind, id: string, c: Collection,
                                 fetch: Track -> Blob, now: int)
    requires Consistent(s)
    requires id !in Collections(s.metadata, kind)
    ensures var (s', r) := DownloadCollectionSpec(s, kind, id, Ok(c), fetch, now);
      && r.Ok?
      && |r.value.tracks| == |c.tracks|
      && (forall i | 0 <= i < |c.tracks| ::
            && r.value.tracks[i].info.id == c.tracks[i].id
            && c.tracks[i].id in s'.library.tracks && s'.library.tracks[c.tracks[i].id] == r.value.tracks[i])
      && r.value.sizeBytes == TotalBytes(r.value.tracks)
      && Lookup(s'.library, CategoryOf(kind), c.id) == Some(CollectionEntry(kind, r.value))
      && id in Collections(s'.metadata, kind) && Collections(s'.metadata, kind)[id] == r.value
  {
    DownloadAllRecords(s, c.tracks, fetch, now);
  }

  /** Downloading a collection twice: the second call returns the stored record and writes nothing. */
  lemma DownloadCollectionIdempotent(s: Store, kind: CollectionKind, id: string, fetched: Result<Collection>,
                                     fetched': Result<Collection>, fetch: Track -> Blob, fetch': Track -> Blob,
                                     now: int, now': int)
    ensures var first := DownloadCollectionSpec(s, kind, id, fetched, fetch, now);
            first.1.Ok? ==> DownloadCollectionSpec(first.0, kind, id, fetched', fetch', now') == first
  {
  }

  lemma DownloadCollectionKeepsConsistent(s: Store, kind: CollectionKind, id: string, fetched: Result<Collection>,
                                          fetch: Track -> Blob, now: int)
    requires Consistent(s)
    requires fetched.Ok? ==> fetched.value.id == id
    ensures Consistent(DownloadCollectionSpec(s, kind, id, fetched, fetch, now).0)
  {
    if id !in Collections(s.metadata, kind) && fetched.Ok? {
      DownloadAllRecords(s, fetched.value.tracks, fetch, now);
    }
  }

  lemma DropTracksKeepsConsistent(s: Store, ids: set<string>)
    requires Consistent(s)
    ensures Consistent(DropTracks(s, ids))
  {
  }

  lemma DeleteKeepsConsistent(s: Store, id: string)
    requires Consistent(s)
    ensures Consistent(DeleteTrackSpec(s, id))
    ensures Consistent(DeleteAlbumSpec(s, id))
    ensures Consistent(DeletePlaylistSpec(s, id))
  {
  }

  /**
   * Direct track deletion does not look at collections: an album or playlist
   * that lists the track keeps listing it after the track is gone.
   */
  lemma DeleteTrackLeavesReferences(s: Store, id: string, kind: CollectionKind, holder: string)
    requires Consistent(s)
    requires id in s.library.tracks
    requires holder in Collections(s.library, kind) && Lists(Collections(s.library, kind)[holder].tracks, id)
    ensures var s' := DeleteTrackSpec(s, id);
      && id !in s'.blobs && id !in s'.metadata.tracks && id !in s'.library.tracks
      && Collections(s'.library, kind) == Collections(s.library, kind)
  {
  }

  /**
   * deleteAlbum removes every track its record lists from all three places,
   * even one that another album or a playlist still lists; nothing else is
   * removed.
   */
  lemma DeleteAlbumRemovesAllItsTracks(s: Store, albumId: string, id: string)
    requires albumId in s.metadata.albums
    ensures var s' := DeleteAlbumSpec(s, albumId);
      && (Lists(s.metadata.albums[albumId].tracks, id) ==>
            id !in s'.blobs && id !in s'.metadata.tracks && id !in s'.library.tracks)
      && (!Lists(s.metadata.albums[albumId].tracks, id) ==>
            (id in s'.blobs <==> id in s.blobs) && (id in s'.library.tracks <==> id in s.library.tracks))
      && albumId !in s'.library.albums && albumId !in s'.metadata.albums
      && s'.library.playlists == s.library.playlists
  {
    var ts := s.metadata.albums[albumId].tracks;
    if Lists(ts, id) {
      var i :| 0 <= i < |ts| && ts[i].info.id == id;
      assert id in IdsOf(ts) by { assert ts[i] in ts; }
    } else {
      assert id !in IdsOf(ts);
    }
  }

  /**
   * The asymmetry of deleteAlbum: a playlist that shares a track with the
   * deleted album keeps listing it, while the track's audio, record and
   * index entry are gone.
   */
  lemma DeleteAlbumBreaksSharedPlaylist(s: Store, albumId: string, playlistId: string, id: string)
    requires Consistent(s)
    requires albumId in s.library.albums && Lists(s.library.albums[albumId].tracks, id)
    requires playlistId in s.library.playlists && Lists(s.library.playlists[playlistId].tracks, id)
    ensures var s' := DeleteAlbumSpec(s, albumId);
      && playlistId in s'.library.playlists && Lists(s'.library.playlists[playlistId].tracks, id)
      && id !in s'.library.tracks && id !in s'.blobs
  {
    DeleteAlbumRemovesAllItsTracks(s, albumId, id);
  }

  /**
   * deletePlaylist removes a track it lists exactly when no album and no
   * other playlist of the index lists it. A track saved on its own as well
   * is not protected by that; tracks the playlist does not list are kept.
   */
  lemma DeletePlaylistRemovesOnlyUnshared(s: Store, playlistId: string, id: string)
    requires Consistent(s)
    requires playlistId in s.library.playlists
    requires id in s.library.tracks
    ensures var s' := DeletePlaylistSpec(s, playlistId);
      && (Lists(s.library.playlists[playlistId].tracks, id) ==>
            && (id in s'.library.tracks <==> InOtherCollections(s.library, id, playlistId))
            && (id in s'.blobs <==> InOtherCollections(s.library, id, playlistId))
            && (id in s'.metadata.tracks <==> InOtherCollections(s.library, id, playlistId)))
      && (!Lists(s.library.playlists[playlistId].tracks, id) ==>
            id in s'.library.tracks && s'.library.tracks[id] == s.library.tracks[id] && id in s'.blobs)
      && playlistId !in s'.library.playlists
      && s'.library.albums == s.library.albums
  {
    var ts := s.library.playlists[playlistId].tracks;
    var gone := Unshared(s.library, ts, playlistId);
    if Lists(ts, id) {
      var i :| 0 <= i < |ts| && ts[i].info.id == id;
      assert ts[i] in ts;
      assert id in gone <==> !InOtherCollections(s.library, id, playlistId);
    } else {
      assert id !in gone;
    }
  }

  /** A collection whose tracks are all stored already writes no track: the loop only reads records. */
  lemma {:induction false} DownloadAllStored(s: Store, ts: seq<Track>, fetch: Track -> Blob, now: int)
    requires forall t | t in ts :: t.id in s.metadata.tracks
    ensures var all := DownloadAll(s, ts, fetch, now);
      && all.0 == s
      && |all.1| == |ts|
      && forall i | 0 <= i < |ts| :: all.1[i] == s.metadata.tracks[ts[i].id]
    decreases |ts|
  {
    if ts != [] {
      var init := ts[..|ts| - 1];
      assert forall t | t in init :: t in ts;
      DownloadAllStored(s, init, fetch, now);
      assert ts[|ts| - 1] in ts;
    }
  }

  /**
   * The category totals of getCacheSize overlap: saving an album whose
   * tracks are all stored leaves the track total as it was and adds their
   * bytes once more, to the album total.
   */
  lemma CacheTotalsOverlap(s: Store, c: Collection, fetch: Track -> Blob, now: int)
    requires Consistent(s)
    requires c.id !in s.metadata.albums
    requires forall t | t in c.tracks :: t.id in s.library.tracks
    ensures var (s', r) := DownloadCollectionSpec(s, Album, c.id, Ok(c), fetch, now);
      && r.Ok?
      && MapSum(s'.library.tracks, TrackSize) == MapSum(s.library.tracks, TrackSize)
      && MapSum(s'.library.albums, CollectionSize) == MapSum(s.library.albums, CollectionSize) + r.value.sizeBytes
      && r.value.sizeBytes == TotalBytes(r.value.tracks)
      && |r.value.tracks| == |c.tracks|
      && forall i | 0 <= i < |c.tracks| :: r.value.tracks[i] == s.library.tracks[c.tracks[i].id]
  {
    DownloadAllStored(s, c.tracks, fetch, now);
    var (s', r) := DownloadCollectionSpec(s, Album, c.id, Ok(c), fetch, now);
    MapSumInsert(s.library.albums, CollectionSize, c.id, r.value);
    assert s'.library.albums == s.library.albums[c.id := r.value];
  }

  lemma DownloadAllSnoc(s: Store, ts: seq<Track>, fetch: Track -> Blob, now: int, i: nat)
    requires i < |ts|
    ensures var prev := DownloadAll(s, ts[..i], fetch, now);
            var step := DownloadTrackSpec(prev.0, ts[i], fetch(ts[i]), now);
            DownloadAll(s, ts[..i + 1], fetch, now) == (step.0, prev.1 + [step.1])
  {
    assert ts[..i + 1][..i] == ts[..i];
  }

  lemma TotalBytesSnoc(rs: seq<DownloadedTrack>, r: DownloadedTrack)
    ensures TotalBytes(rs + [r]) == TotalBytes(rs) + r.sizeBytes
  {
    assert (rs + [r])[..|rs|] == rs;
  }

  lemma DropTracksTwice(s: Store, ids: set<string>, more: set<string>)
    ensures DropTracks(DropTracks(s, ids), more) == DropTracks(s, ids + more)
  {
    assert s.blobs - ids - more == s.blobs - (ids + more);
    assert s.metadata.tracks - ids - more == s.metadata.tracks - (ids + more);
    assert s.library.tracks - ids - more == s.library.tracks - (ids + more);
  }

  lemma IdsOfSnoc(ts: seq<DownloadedTrack>, i: nat)
    requires i < |ts|
    ensures IdsOf(ts[..i + 1]) == IdsOf(ts[..i]) + {ts[i].info.id}
  {
    assert ts[..i + 1] == ts[..i] + [ts[i]];
  }

  lemma UnsharedSnoc(lib: Library, ts: seq<DownloadedTrack>, i: nat, playlistId: string)
    requires i < |ts|
    ensures Unshared(lib, ts[..i + 1], playlistId)
            == Unshared(lib, ts[..i], playlistId)
               + (if InOtherCollections(lib, ts[i].info.id, playlistId) then {} else {ts[i].info.id})
  {
    assert ts[..i + 1] == ts[..i] + [ts[i]];
  }

  /** clearAllCache leaves an empty, consistent store whose every category total is 0. */
  lemma ClearedStoreIsEmpty()
    ensures Consistent(EmptyStore)
    ensures EmptyStore.library == EmptyLibrary
    ensures MapSum(EmptyStore.library.tracks, TrackSize) == 0
    ensures MapSum(EmptyStore.library.albums, CollectionSize) == 0
    ensures MapSum(EmptyStore.library.playlists, CollectionSize) == 0
  {
  }

  // ---------------------------------------------------------------------
  // The service
  // ---------------------------------------------------------------------

  /** The module-level state of downloadService.ts: the two stores and the index. */
  class ContentManager {
    var blobs: map<string, Blob>
    var metadata: Library
    var library: Library

    function State(): Store
      reads this
    {
      Store(blobs, metadata, library)
    }

    ghost predicate Valid()
      reads this
    {
      Consistent(State())
    }

    constructor ()
      ensures Valid() && State() == EmptyStore
    {
      blobs, metadata, library := map[], EmptyLibrary, EmptyLibrary;
    }

    /** getLibrary: the index (an absent index reads as the empty library). */
    method GetLibrary() returns (lib: Library)
      ensures lib == library
    {
      lib := library;
    }

    /** getTrackAudio: the stored bytes, or nothing. */
    method GetTrackAudio(trackId: string) returns (audio: Option<Blob>)
      ensures audio.Some? <==> trackId in blobs
      ensures audio.Some? ==> audio.value == blobs[trackId]
    {
      audio := if trackId in blobs then Some(blobs[trackId]) else None;
    }

    /** updateLibraryCache: read the index, file the entry, write the index back. */
    method UpdateLibraryCache(e: Entry)
      modifies this`library
      ensures library == Put(old(library), e)
    {
      var lib := GetLibrary();
      library := Put(lib, e);
    }

    /** removeFromLibraryCache */
    method RemoveFromLibraryCache(c: Category, id: string)
      modifies this`library
      ensures library == Remove(old(library), c, id)
    {
      var lib := GetLibrary();
      library := Remove(lib, c, id);
    }

    /** downloadTrack, with `audio` the bytes the download proxy answers with. */
    method DownloadTrack(track: Track, audio: Blob, now: int) returns (r: DownloadedTrack)
      requires Valid()
      modifies this
      ensures Valid()
      ensures (State(), r) == DownloadTrackSpec(old(State()), track, audio, now)
      ensures track.id in old(metadata.tracks) ==> r == old(metadata.tracks[track.id]) && State() == old(State())
      ensures track.id !in old(metadata.tracks) ==>
                && r.info == track && r.sizeBytes == |audio|
                && blobs == old(blobs)[track.id := audio]
                && metadata.tracks == old(metadata.tracks)[track.id := r]
                && library.tracks == old(library.tracks)[track.id := r]
    {
      if track.id in metadata.tracks {
        return metadata.tracks[track.id];
      }
      blobs := blobs[track.id := audio];
      r := DownloadedTrack(track, OfflineUrl(track.id), now, |audio|);
      metadata := metadata.(tracks := metadata.tracks[track.id := r]);
      UpdateLibraryCache(TrackEntry(r));
    }

    /** The shared body of downloadAlbum and downloadPlaylist. */
    method DownloadCollection(kind: CollectionKind, id: string, fetched: Result<Collection>,
                              fetch: Track -> Blob, now: int) returns (r: Result<DownloadedCollection>)
      requires Valid()
      requires fetched.Ok? ==> fetched.value.id == id
      modifies this
      ensures Valid()
      ensures (State(), r) == DownloadCollectionSpec(old(State()), kind, id, fetched, fetch, now)
    {
      if id in Collections(metadata, kind) {
        return Ok(Collections(metadata, kind)[id]);
      }
      if fetched.Err? {
        return Err(FailurePrefix(kind) + fetched.message);
      }
      var c := fetched.value;
      var records: seq<DownloadedTrack> := [];
      var totalSize: nat := 0;
      ghost var s0 := State();
      for i := 0 to |c.tracks|
        invariant Valid()
        invariant (State(), records) == DownloadAll(s0, c.tracks[..i], fetch, now)
        invariant totalSize == TotalBytes(records)
      {
        DownloadAllSnoc(s0, c.tracks, fetch, now, i);
        var rec := DownloadTrack(c.tracks[i], fetch(c.tracks[i]), now);
        TotalBytesSnoc(records, rec);
        records := records + [rec];
        totalSize := totalSize + rec.sizeBytes;
      }
      assert c.tracks[..|c.tracks|] == c.tracks;
      DownloadCollectionKeepsConsistent(s0, kind, id, fetched, fetch, now);
      var rec := DownloadedCollection(c.id, c.name, records, now, totalSize);
      metadata := File(metadata, kind, id, rec);
      UpdateLibraryCache(CollectionEntry(kind, rec));
      r := Ok(rec);
    }

    /** downloadAlbum, with `fetched` the catalogue's answer to getAlbum. */
    method DownloadAlbum(albumId: string, fetched: Result<Collection>, fetch: Track -> Blob, now: int)
      returns (r: Result<DownloadedCollection>)
      requires Valid()
      requires fetched.Ok? ==> fetched.value.id == albumId
      modifies this
      ensures Valid()
      ensures (State(), r) == DownloadCollectionSpec(old(State()), Album, albumId, fetched, fetch, now)
    {
      r := DownloadCollection(Album, albumId, fetched, fetch, now);
    }

    /** downloadPlaylist, with `fetched` the catalogue's answer to getPlaylist. */
    method DownloadPlaylist(playlistId: string, fetched: Result<Collection>, fetch: Track -> Blob, now: int)
      returns (r: Result<DownloadedCollection>)
      requires Valid()
      requires fetched.Ok? ==> fetched.value.id == playlistId
      modifies this
      ensures Valid()
      ensures (State(), r) == DownloadCollectionSpec(old(State()), Playlist, playlistId, fetched, fetch, now)
    {
      r := DownloadCollection(Playlist, playlistId, fetched, fetch, now);
    }

    /** Removes one track's audio, record and index entry: the body of every deletion loop. */
    method DropTrack(id: string)
      modifies this
      ensures State() == DropTracks(old(State()), {id})
    {
      blobs := blobs - {id};
      metadata := metadata.(tracks := metadata.tracks - {id});
      RemoveFromLibraryCache(Tracks, id);
    }

    /** deleteTrack */
    method DeleteTrack(trackId: string)
      requires Valid()
      modifies this
      ensures Valid()
      ensures State() == DeleteTrackSpec(old(State()), trackId)
      ensures trackId !in old(metadata.tracks) ==> State() == old(State())
    {
      if trackId !in metadata.tracks {
        return;
      }
      DropTrack(trackId);
      DeleteKeepsConsistent(old(State()), trackId);
    }

    /** deleteAlbum */
    method DeleteAlbum(albumId: string)
      requires Valid()
      modifies this
      ensures Valid()
      ensures State() == DeleteAlbumSpec(old(State()), albumId)
      ensures albumId !in old(metadata.albums) ==> State() == old(State())
    {
      if albumId !in metadata.albums {
        return;
      }
      var album := metadata.albums[albumId];
      ghost var s0 := State();
      for i := 0 to |album.tracks|
        invariant State() == DropTracks(s0, IdsOf(album.tracks[..i]))
      {
        var id := album.tracks[i].info.id;
        IdsOfSnoc(album.tracks, i);
        DropTracksTwice(s0, IdsOf(album.tracks[..i]), {id});
        DropTrack(id);
      }
      assert album.tracks[..|album.tracks|] == album.tracks;
      metadata := Remove(metadata, Albums, albumId);
      RemoveFromLibraryCache(Albums, albumId);
      DeleteKeepsConsistent(old(State()), albumId);
    }

    /** deletePlaylist */
    method DeletePlaylist(playlistId: string)
      requires Valid()
      modifies this
      ensures Valid()
      ensures State() == DeletePlaylistSpec(old(State()), playlistId)
      ensures playlistId !in old(metadata.playlists) ==> State() == old(State())
    {
      if playlistId !in metadata.playlists {
        return;
      }
      var playlist := metadata.playlists[playlistId];
      ghost var s0 := State();
      for i := 0 to |playlist.tracks|
        invariant State() == DropTracks(s0, Unshared(s0.library, playlist.tracks[..i], playlistId))
      {
        var id := playlist.tracks[i].info.id;
        ghost var done := Unshared(s0.library, playlist.tracks[..i], playlistId);
        UnsharedSnoc(s0.library, playlist.tracks, i, playlistId);
        assert library.albums == s0.library.albums && library.playlists == s0.library.playlists;
        var shared := IsTrackInOtherCollections(library, id, playlistId);
        assert InOtherCollections(library, id, playlistId) == InOtherCollections(s0.library, id, playlistId);
        if !shared {
          DropTracksTwice(s0, done, {id});
          DropTrack(id);
        } else {
          assert done + {} == done;
        }
      }
      assert playlist.tracks[..|playlist.tracks|] == playlist.tracks;
      metadata := Remove(metadata, Playlists, playlistId);
      RemoveFromLibraryCache(Playlists, playlistId);
      DeleteKeepsConsistent(old(State()), playlistId);
    }

    /** getCacheSize: one total per category, and their sum. */
    method GetCacheSize() returns (sizes: CacheSize)
      ensures sizes.tracks == MapSum(library.tracks, TrackSize)
      ensures sizes.albums == MapSum(library.albums, CollectionSize)
      ensures sizes.playlists == MapSum(library.playlists, CollectionSize)
      ensures sizes.total == sizes.tracks + sizes.albums + sizes.playlists
      ensures library == EmptyLibrary ==> sizes == ZeroCacheSize
    {
      var lib := GetLibrary();
      var tracks := CategorySum(lib.tracks, TrackSize);
      var albums := CategorySum(lib.albums, CollectionSize);
      var playlists := CategorySum(lib.playlists, CollectionSize);
      sizes := CacheSize(tracks, albums, playlists, tracks + albums + playlists);
    }

    /** clearAllCache: both stores wiped, the index reset to the empty library. */
    method ClearAllCache()
      modifies this
      ensures Valid()
      ensures State() == EmptyStore
    {
      blobs := map[];
      metadata := EmptyLibrary;
      library := EmptyLibrary;
    }
  }
}
