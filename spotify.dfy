/**
 * The records that the offline content store, the library reducer, the
 * settings reducer and the playback engine exchange (src/types/spotify.ts),
 * reduced to the fields the core reads or writes.
 */
module Spotify {

  datatype Option<T> = None | Some(value: T)

  /** A rejected operation carries the message the service throws. */
  datatype Result<T> = Ok(value: T) | Err(message: string)

  /** The raw audio bytes of one track, as kept in the blob store. */
  type Blob = seq<bv8>

  /** A catalogue track (SpotifyTrack). */
  datatype Track = Track(id: string, name: string, artists: seq<string>, durationMs: nat)

  /**
   * A track saved for offline use (DownloadedTrack): the catalogue record,
   * the `idb://` address of its audio, when it was saved and how many bytes
   * its audio takes.
   */
  datatype DownloadedTrack = DownloadedTrack(info: Track, offlineUrl: string, downloadedAt: int, sizeBytes: nat)

  /** An album or a playlist as the catalogue returns it, tracks in catalogue order. */
  datatype Collection = Collection(id: string, name: string, tracks: seq<Track>)

  function TrackId(t: DownloadedTrack): string { t.info.id }

  /**
   * `findIndex(x => key(x) === id)`: the first position whose key is `id`,
   * or -1 when no element has that key.
   */
  function FindIndex<T>(s: seq<T>, key: T -> string, id: string): (k: int)
    ensures -1 <= k < |s|
    ensures k == -1 <==> forall j | 0 <= j < |s| :: key(s[j]) != id
    ensures k >= 0 ==> key(s[k]) == id && forall j | 0 <= j < k :: key(s[j]) != id
  {
    if s == [] then -1
    else if key(s[0]) == id then 0
    else
      var k := FindIndex(s[1..], key, id);
      if k == -1 then -1 else k + 1
  }

  /** A saved album or playlist (DownloadedAlbum, DownloadedPlaylist). */
  datatype DownloadedCollection =
    DownloadedCollection(id: string, name: string, tracks: seq<DownloadedTrack>, downloadedAt: int, sizeBytes: nat)

  datatype CollectionKind = Album | Playlist

  /** The three record categories of the library ('tracks' | 'albums' | 'playlists'). */
  datatype Category = Tracks | Albums | Playlists

  function CategoryOf(kind: CollectionKind): Category
  {
    match kind
    case Album => Albums
    case Playlist => Playlists
  }

  /** The offline library (OfflineLibrary): one id-keyed map per category. */
  datatype Library = Library(
    tracks: map<string, DownloadedTrack>,
    albums: map<string, DownloadedCollection>,
    playlists: map<string, DownloadedCollection>)

  const EmptyLibrary := Library(map[], map[], map[])

  /** A record together with the category it is filed under. */
  datatype Entry = TrackEntry(track: DownloadedTrack) | CollectionEntry(kind: CollectionKind, collection: DownloadedCollection)
  {
    function Id(): string
    {
      match this
      case TrackEntry(t) => t.info.id
      case CollectionEntry(_, c) => c.id
    }

    function Kind(): Category
    {
      match this
      case TrackEntry(_) => Tracks
      case CollectionEntry(k, _) => CategoryOf(k)
    }
  }

  function Collections(lib: Library, kind: CollectionKind): map<string, DownloadedCollection>
  {
    match kind
    case Album => lib.albums
    case Playlist => lib.playlists
  }

  /** The record filed under `id` in category `c`, if any. */
  function Lookup(lib: Library, c: Category, id: string): Option<Entry>
  {
    match c
    case Tracks => if id in lib.tracks then Some(TrackEntry(lib.tracks[id])) else None
    case Albums => if id in lib.albums then Some(CollectionEntry(Album, lib.albums[id])) else None
    case Playlists => if id in lib.playlists then Some(CollectionEntry(Playlist, lib.playlists[id])) else None
  }

  /**
   * Files an entry under its own id in its own category, replacing what was
   * there (`library[type][item.id] = item`).
   */
  function Put(lib: Library, e: Entry): (r: Library)
    ensures Lookup(r, e.Kind(), e.Id()) == Some(e)
    ensures forall c, id | c != e.Kind() || id != e.Id() :: Lookup(r, c, id) == Lookup(lib, c, id)
  {
    match e
    case TrackEntry(t) => lib.(tracks := lib.tracks[t.info.id := t])
    case CollectionEntry(Album, a) => lib.(albums := lib.albums[a.id := a])
    case CollectionEntry(Playlist, p) => lib.(playlists := lib.playlists[p.id := p])
  }

  /**
   * Deletes `id` from category `c` when it is there (`delete library[type][id]`);
   * an absent id leaves the library as it was.
   */
  function Remove(lib: Library, c: Category, id: string): (r: Library)
    ensures Lookup(r, c, id) == None
    ensures forall c', id' | c' != c || id' != id :: Lookup(r, c', id') == Lookup(lib, c', id')
    ensures Lookup(lib, c, id) == None ==> r == lib
  {
    match c
    case Tracks => lib.(tracks := lib.tracks - {id})
    case Albums => lib.(albums := lib.albums - {id})
    case Playlists => lib.(playlists := lib.playlists - {id})
  }

  /** The per-category byte totals reported by getCacheSize. */
  datatype CacheSize = CacheSize(tracks: nat, albums: nat, playlists: nat, total: nat)

  const ZeroCacheSize := CacheSize(0, 0, 0, 0)

  /** An equalizer preset (EQPreset); band gains are whole decibels. */
  datatype EQPreset = EQPreset(id: string, name: string, bass: int, mid: int, treble: int, isDefault: bool)
}
