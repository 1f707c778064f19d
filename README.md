# Offline music library core, in Dafny

This project models the four stateful parts of a Spotify offline web player and proves properties of them.

- **Offline content store** (`downloadService.ts`), in `download_service.dfy`. It has three parts:
  - a blob store of track audio keyed by track id;
  - a metadata store of saved track, album and playlist records;
  - the library index saved under `library_cache`.

  Downloads are idempotent. Albums and playlists are downloaded track by track. Deletions remove tracks, albums and playlists. `isTrackInOtherCollections` scans for other references to a track. The store also reports per-category cache sizes and can be cleared.

  Each operation is a pure function from one `Store` value to the next. The methods of `ContentManager` do the work step by step, as the service does, and each method is proved to end in the state its function gives. `Consistent` is the invariant every operation keeps: the index mirrors the metadata store, a track has audio exactly when it has a record, a record's `size_bytes` is its audio's length, and every record is filed under its own id.
- **Library reducer** (`librarySlice.ts`), in `library_slice.dfy`.
  - It holds the reducer's copy of the library, the playback queue with its cursor, the cache-size report, the download progress and the error text.
  - The queue cases are functions on a `Playback` value. The cursor invariant `QueueValid` is proved to be kept: the cursor is -1 with no queue, and -1 or a position of the queue otherwise.
  - Further lemmas compare the reducer's copy of the library with the content store's index.
- **Equalizer preset manager** (`settingsSlice.ts`), in `settings_slice.dfy`.
  - It holds the preset list, the current preset id and the slider gains.
  - Its invariant is that a `'default'` preset exists, every preset carrying that id is protected, and there is at most one `'custom'` preset.
  - The id of a saved preset is the decimal form of a timestamp. That decimal form is proved to read back to the timestamp, and never to be `'default'` or `'custom'`.
- **Playback engine** (`audioService.ts`), in `audio_service.dfy`. It keeps these fields:
  - whether the audio graph exists;
  - the loaded audio and the playback position;
  - the gain, clamped to [0, 1];
  - the three filter gains;
  - the current track id and the playing flag;
  - the listener set.

`spotify.dfy` holds the shared records, which are reduced to the fields the core reads or writes. It also holds `Put`, `Remove` and `Lookup` on the three id-keyed maps of a library, and `FindIndex`, which models `findIndex`.

## Behaviour the model states as it is

These behaviours of the code are proved as they are, not corrected:

- **Track deletion ignores references.** `deleteTrack` removes a track without looking at collections (`DeleteTrackLeavesReferences`).
- **Album deletion ignores references.** `deleteAlbum` removes every track its record lists, even one that a playlist or another album still lists (`DeleteAlbumRemovesAllItsTracks`, `DeleteAlbumBreaksSharedPlaylist`).
- **Playlist deletion checks references.** `deletePlaylist` removes a track exactly when no album and no other playlist of the index lists it (`DeletePlaylistRemovesOnlyUnshared`). The reference scan counts every album and skips only the playlist whose id is `excludeId`.
- **Cache totals overlap.** `getCacheSize`'s `total` is `tracks + albums + playlists`, and bytes shared by a track and its album are counted in both (`CacheTotalsOverlap`).
- **The reducer's library drifts from the index until the next `fetchLibrary` replaces it.**
  - A fulfilled album or playlist download files only the collection, not the tracks the service indexed with it (`CollectionDownloadMissesItsTracks`).
  - A fulfilled album delete removes only the album key, while the service removed its tracks too (`AlbumDeleteLeavesStaleTracks`).
- **`updateCustomEQ` quirks.**
  - Coming from another preset, it re-selects an existing `'custom'` preset without copying the new slider values into it.
  - While `'custom'` is current but no `'custom'` preset exists (reached by `applyEQPreset('custom')`), it creates none. `SettingsSlice.SettingsState.UpdateCustomEQ` states exactly when a `'custom'` preset exists afterwards.
- **`saveEQPreset` leaves the sliders alone.** It does not change `customEQ`. Two saves in the same millisecond give two presets the same id.

The comments in `deletePlaylist` (downloadService.ts:227-229) speak of tracks "only in this playlist" and of checking "any other playlists or albums". The scan it calls, `isTrackInOtherCollections`, counts every album and skips only a playlist whose id is the one being deleted, and `deleteAlbum` makes no such check at all. The model follows the code.

## Model

| member | source | states |
|---|---|---|
| Spotify.Put | project-bolt-sb1-c4hj8qrs/src/services/downloadService.ts:293-299 | the entry is then filed under its own id in its own category and every other (category, id) lookup is unchanged |
| Spotify.Remove | project-bolt-sb1-c4hj8qrs/src/services/downloadService.ts:315-321 | the id is then absent from that category, every other lookup is unchanged, and removing an absent id leaves the library as it was |
| Spotify.FindIndex | src/store/slices/librarySlice.ts:185-186 | the result is the first position whose key is the id, or -1 exactly when no element has that key |
| DownloadService.MapSumRemove | project-bolt-sb1-c4hj8qrs/src/services/downloadService.ts:343-355 | a category total is the size of any one record plus the total of the rest, so the visiting order of `forEach` does not matter |
| DownloadService.MapSumInsert | project-bolt-sb1-c4hj8qrs/src/services/downloadService.ts:343-345 | filing a new record grows its category total by that record's size |
| DownloadService.CategorySum | project-bolt-sb1-c4hj8qrs/src/services/downloadService.ts:343-355 | the accumulating loop ends with the sum of the sizes over the category |
| DownloadService.IsTrackInOtherCollections | project-bolt-sb1-c4hj8qrs/src/services/downloadService.ts:250-269 | true exactly when some album lists the track, or some playlist whose id is not `excludeId` lists it |
| DownloadService.DownloadTrackIdempotent | project-bolt-sb1-c4hj8qrs/src/services/downloadService.ts:47-51 | a second download of the same track writes nothing and returns the first record, whatever bytes and time it is given |
| DownloadService.DownloadTrackKeepsConsistent | project-bolt-sb1-c4hj8qrs/src/services/downloadService.ts:53-71 | a track download keeps the store consistent: index equal to metadata, audio present exactly for recorded tracks, size equal to audio length |
| DownloadService.DownloadTrackCacheSize | project-bolt-sb1-c4hj8qrs/src/services/downloadService.ts:57-71 | a fresh download grows the track total by the audio's length; a repeated one leaves it |
| DownloadService.DownloadTrackStep | project-bolt-sb1-c4hj8qrs/src/services/downloadService.ts:47-71 | after one track download the record for that id is stored, every earlier record is kept, collections are untouched and consistency is kept |
| DownloadService.DownloadTrackKeys | project-bolt-sb1-c4hj8qrs/src/services/downloadService.ts:57-71 | after a track download the indexed track ids are the old ones plus this one |
| DownloadService.DownloadAllRecords | project-bolt-sb1-c4hj8qrs/src/services/downloadService.ts:96-100 | the download loop yields one record per catalogue track in catalogue order, each the record now stored for that id; earlier records and all collections are untouched; consistency is kept |
| DownloadService.DownloadAllFresh | project-bolt-sb1-c4hj8qrs/src/services/downloadService.ts:96-100 | a catalogue track not stored before and not listed earlier in the collection gets the catalogue record and the length of the bytes fetched for it |
| DownloadService.DownloadAllKeys | project-bolt-sb1-c4hj8qrs/src/services/downloadService.ts:96-100 | the loop adds exactly the catalogue's track ids to the index |
| DownloadService.DownloadAllStored | project-bolt-sb1-c4hj8qrs/src/services/downloadService.ts:47-51 | over tracks that are all stored already, the loop changes nothing and returns the stored records |
| DownloadService.DownloadCollectionRecord | project-bolt-sb1-c4hj8qrs/src/services/downloadService.ts:93-114 | a new album or playlist lists one downloaded track per catalogue track in catalogue order, its size is the sum of theirs, and it is filed in the index and in the metadata store under the requested id |
| DownloadService.DownloadCollectionIdempotent | project-bolt-sb1-c4hj8qrs/src/services/downloadService.ts:84-87 | a second download of a saved collection returns the stored record and writes nothing, whatever the catalogue answers |
| DownloadService.DownloadCollectionKeepsConsistent | project-bolt-sb1-c4hj8qrs/src/services/downloadService.ts:81-121 | an album or playlist download, failed or not, keeps the store consistent |
| DownloadService.CacheTotalsOverlap | project-bolt-sb1-c4hj8qrs/src/services/downloadService.ts:357-362 | saving an album of already-stored tracks leaves the track total and adds the same bytes to the album total, so `total` counts them twice |
| DownloadService.DropTracksKeepsConsistent | project-bolt-sb1-c4hj8qrs/src/services/downloadService.ts:184-188 | removing tracks from all three places keeps the store consistent |
| DownloadService.DeleteKeepsConsistent | project-bolt-sb1-c4hj8qrs/src/services/downloadService.ts:177-247 | track, album and playlist deletion each keep the store consistent |
| DownloadService.DeleteTrackLeavesReferences | project-bolt-sb1-c4hj8qrs/src/services/downloadService.ts:177-193 | a deleted track is gone from all three places while every album and playlist still lists it |
| DownloadService.DeleteAlbumRemovesAllItsTracks | project-bolt-sb1-c4hj8qrs/src/services/downloadService.ts:196-218 | every track the album lists is gone from all three places whoever else lists it; no other track goes; the album goes; playlists are untouched |
| DownloadService.DeleteAlbumBreaksSharedPlaylist | project-bolt-sb1-c4hj8qrs/src/services/downloadService.ts:203-207 | a playlist sharing a track with a deleted album still lists it while its audio and index entry are gone |
| DownloadService.DeletePlaylistRemovesOnlyUnshared | project-bolt-sb1-c4hj8qrs/src/services/downloadService.ts:227-236 | a listed track is kept in each of the three places exactly when the scan finds it in another collection; unlisted tracks are kept; the playlist goes; albums are untouched |
| DownloadService.ClearedStoreIsEmpty | project-bolt-sb1-c4hj8qrs/src/services/downloadService.ts:366-370 | the cleared store is consistent, its index is the empty library and every category total is 0 |
| DownloadService.ContentManager.constructor | project-bolt-sb1-c4hj8qrs/src/services/downloadService.ts:14-22 | the stores start empty and consistent |
| DownloadService.ContentManager.GetLibrary | project-bolt-sb1-c4hj8qrs/src/services/downloadService.ts:275-283 | returns the index |
| DownloadService.ContentManager.GetTrackAudio | project-bolt-sb1-c4hj8qrs/src/services/downloadService.ts:167-174 | the stored bytes when the id has audio, nothing otherwise |
| DownloadService.ContentManager.UpdateLibraryCache | project-bolt-sb1-c4hj8qrs/src/services/downloadService.ts:286-305 | the index becomes the old index with the entry filed; nothing else changes |
| DownloadService.ContentManager.RemoveFromLibraryCache | project-bolt-sb1-c4hj8qrs/src/services/downloadService.ts:308-327 | the index becomes the old index without the id; nothing else changes |
| DownloadService.ContentManager.DownloadTrack | project-bolt-sb1-c4hj8qrs/src/services/downloadService.ts:45-78 | an already recorded track is returned with no write; otherwise audio, record and index entry are written with size equal to the audio length; consistency is kept |
| DownloadService.ContentManager.DownloadCollection | project-bolt-sb1-c4hj8qrs/src/services/downloadService.ts:81-164 | the loop of per-track downloads and the running total end in the state and record the collection function gives |
| DownloadService.ContentManager.DownloadAlbum | project-bolt-sb1-c4hj8qrs/src/services/downloadService.ts:81-121 | downloadAlbum ends in the state the collection function gives; a failed catalogue call changes nothing and reports the album failure text |
| DownloadService.ContentManager.DownloadPlaylist | project-bolt-sb1-c4hj8qrs/src/services/downloadService.ts:124-164 | the same for downloadPlaylist |
| DownloadService.ContentManager.DropTrack | project-bolt-sb1-c4hj8qrs/src/services/downloadService.ts:204-206 | one track's audio, record and index entry are removed |
| DownloadService.ContentManager.DeleteTrack | project-bolt-sb1-c4hj8qrs/src/services/downloadService.ts:177-193 | ends in the track deletion state; an id with no record changes nothing |
| DownloadService.ContentManager.DeleteAlbum | project-bolt-sb1-c4hj8qrs/src/services/downloadService.ts:196-218 | the loop over the album's tracks ends in the album deletion state; an id with no record changes nothing |
| DownloadService.ContentManager.DeletePlaylist | project-bolt-sb1-c4hj8qrs/src/services/downloadService.ts:221-247 | the loop with the reference scan ends in the playlist deletion state; an id with no record changes nothing |
| DownloadService.ContentManager.GetCacheSize | project-bolt-sb1-c4hj8qrs/src/services/downloadService.ts:330-363 | one sum per category, `total` their sum, all 0 for the empty library |
| DownloadService.ContentManager.ClearAllCache | project-bolt-sb1-c4hj8qrs/src/services/downloadService.ts:366-375 | both stores empty and the index the empty library |
| LibrarySlice.ErrorText | src/store/slices/librarySlice.ts:225 | a present non-empty message is kept; a missing or empty one gives the fallback text |
| LibrarySlice.SetCurrentPlaylistLocates | src/store/slices/librarySlice.ts:183-187 | the cursor is on a position exactly when there is a current track and the new queue holds its id, and then it is the first such position; the cursor invariant holds |
| LibrarySlice.PlayNextSteps | src/store/slices/librarySlice.ts:188-193 | moves exactly when there is a queue and the cursor is before its last position, then by one onto the record there; keeps the cursor invariant and an on-queue current track |
| LibrarySlice.PlayPreviousSteps | src/store/slices/librarySlice.ts:194-199 | moves exactly when there is a queue and the cursor is past 0, then back by one onto the record there; keeps both invariants |
| LibrarySlice.NextPreviousRoundTrip | src/store/slices/librarySlice.ts:188-199 | inside the queue, playPrevious undoes playNext and playNext undoes playPrevious |
| LibrarySlice.PlayNextTimes | src/store/slices/librarySlice.ts:188-193 | any number of playNext presses keeps the cursor invariant |
| LibrarySlice.PlayNextClamps | src/store/slices/librarySlice.ts:188-193 | n presses from a queue position end at that position plus n, clamped to the last position, still on the queue |
| LibrarySlice.TrackDownloadMirrorsIndex | src/store/slices/librarySlice.ts:237-241 | if the reducer's copy agreed with the index, it still agrees after a fulfilled track download |
| LibrarySlice.CollectionDownloadMissesItsTracks | src/store/slices/librarySlice.ts:251-255 | after a fulfilled album or playlist download a newly saved track is in the index but not in the reducer's copy |
| LibrarySlice.TrackDeleteMirrorsIndex | src/store/slices/librarySlice.ts:276-278 | a fulfilled track delete removes the same key the service removed |
| LibrarySlice.AlbumDeleteLeavesStaleTracks | src/store/slices/librarySlice.ts:287-290 | after a fulfilled album delete the album's tracks, gone from the index, remain in the reducer's copy |
| LibrarySlice.LibraryState.constructor | src/store/slices/librarySlice.ts:44-63 | the initial state: empty library, no track, cursor -1, no queue, zero sizes, idle progress, no error |
| LibrarySlice.LibraryState.SetCurrentlyPlaying | src/store/slices/librarySlice.ts:180-182 | only the current track changes |
| LibrarySlice.LibraryState.SetCurrentPlaylist | src/store/slices/librarySlice.ts:183-187 | the queue is replaced and the cursor located as the queue function says; nothing else changes |
| LibrarySlice.LibraryState.PlayNext | src/store/slices/librarySlice.ts:188-193 | the cursor and current track follow the playNext function; an on-queue track stays on the queue |
| LibrarySlice.LibraryState.PlayPrevious | src/store/slices/librarySlice.ts:194-199 | the same for playPrevious |
| LibrarySlice.LibraryState.SetDownloadProgress | src/store/slices/librarySlice.ts:200-207 | the progress is replaced by the payload |
| LibrarySlice.LibraryState.ResetError | src/store/slices/librarySlice.ts:208-210 | the error is cleared |
| LibrarySlice.LibraryState.FetchLibraryPending | src/store/slices/librarySlice.ts:215-218 | loading, with no error |
| LibrarySlice.LibraryState.FetchLibraryFulfilled | src/store/slices/librarySlice.ts:219-222 | the library is replaced and loading stops |
| LibrarySlice.LibraryState.FetchLibraryRejected | src/store/slices/librarySlice.ts:223-226 | loading stops and the error is the message or the fallback text |
| LibrarySlice.LibraryState.FetchCacheSizeFulfilled | src/store/slices/librarySlice.ts:229-231 | the cache-size report is replaced |
| LibrarySlice.LibraryState.DownloadPending | src/store/slices/librarySlice.ts:234-236 | the error is cleared (the same for the album and playlist pending cases) |
| LibrarySlice.LibraryState.DownloadTrackFulfilled | src/store/slices/librarySlice.ts:237-241 | the record is filed under its id and the progress stops downloading; nothing else changes |
| LibrarySlice.LibraryState.DownloadCollectionFulfilled | src/store/slices/librarySlice.ts:251-269 | the album or playlist is filed under its id in its own map and the progress stops downloading |
| LibrarySlice.LibraryState.DownloadRejected | src/store/slices/librarySlice.ts:242-273 | the error is the message or the category's fallback text and the progress stops downloading |
| LibrarySlice.LibraryState.DeleteTrackFulfilled | src/store/slices/librarySlice.ts:276-284 | the id leaves the track map; the current track is cleared exactly when it has that id; queue and cursor stay |
| LibrarySlice.LibraryState.DeleteCollectionFulfilled | src/store/slices/librarySlice.ts:287-296 | only that key leaves its own map; the track map is untouched |
| LibrarySlice.LibraryState.ClearAllFulfilled | src/store/slices/librarySlice.ts:299-310 | empty library, no track, no queue, cursor -1, zero sizes |
| SettingsSlice.WithBand | project-bolt-sb1-c4hj8qrs/src/store/slices/settingsSlice.ts:129 | the edited band takes the value and the other two keep theirs |
| SettingsSlice.PresetWithBand | project-bolt-sb1-c4hj8qrs/src/store/slices/settingsSlice.ts:148-151 | the preset keeps its id, name and protection, and its bands change in the edited band only |
| SettingsSlice.FindPreset | project-bolt-sb1-c4hj8qrs/src/store/slices/settingsSlice.ts:101 | nothing exactly when no preset carries the id; otherwise the first listed preset carrying it, as `find` returns |
| SettingsSlice.WithoutId | project-bolt-sb1-c4hj8qrs/src/store/slices/settingsSlice.ts:104 | no kept preset carries the id, every preset with another id is kept, and the length drops by the number carrying it |
| SettingsSlice.DecimalString | project-bolt-sb1-c4hj8qrs/src/store/slices/settingsSlice.ts:87 | the id is a non-empty string of decimal digits |
| SettingsSlice.DecimalRoundTrip | project-bolt-sb1-c4hj8qrs/src/store/slices/settingsSlice.ts:87 | reading the id back as a decimal number gives the timestamp |
| SettingsSlice.DistinctTimesDistinctIds | project-bolt-sb1-c4hj8qrs/src/store/slices/settingsSlice.ts:87 | saves at different timestamps get different ids |
| SettingsSlice.SavedIdIsNotReserved | project-bolt-sb1-c4hj8qrs/src/store/slices/settingsSlice.ts:87 | a saved preset's id is never 'default' or 'custom' |
| SettingsSlice.DefaultTableShape | project-bolt-sb1-c4hj8qrs/src/store/slices/settingsSlice.ts:19-49 | 'default' is the only protected preset of the table, it is found first, and the table meets the preset invariant |
| SettingsSlice.CountWithoutId | project-bolt-sb1-c4hj8qrs/src/store/slices/settingsSlice.ts:104 | after the filter no preset carries the id and every other id keeps its count |
| SettingsSlice.WithoutIdIdempotent | project-bolt-sb1-c4hj8qrs/src/store/slices/settingsSlice.ts:104 | filtering the same id twice is filtering once |
| SettingsSlice.CountIdReplace | project-bolt-sb1-c4hj8qrs/src/store/slices/settingsSlice.ts:148-151 | replacing a preset by one with the same id keeps every id's count |
| SettingsSlice.SaveKeepsValid | project-bolt-sb1-c4hj8qrs/src/store/slices/settingsSlice.ts:93 | appending a preset whose id is neither 'default' nor 'custom' keeps the preset invariant |
| SettingsSlice.DeleteKeepsValid | project-bolt-sb1-c4hj8qrs/src/store/slices/settingsSlice.ts:101-104 | when the first preset with the id is not protected the id is not 'default', and the filter keeps the preset invariant |
| SettingsSlice.AddCustomKeepsValid | project-bolt-sb1-c4hj8qrs/src/store/slices/settingsSlice.ts:133-142 | appending a 'custom' preset where there is none keeps the preset invariant |
| SettingsSlice.EditCustomKeepsValid | project-bolt-sb1-c4hj8qrs/src/store/slices/settingsSlice.ts:146-152 | editing the 'custom' preset in place keeps the preset invariant |
| SettingsSlice.SettingsState.constructor | project-bolt-sb1-c4hj8qrs/src/store/slices/settingsSlice.ts:51-62 | volume 0.8, the default table, 'default' current, flat sliders, invariant holds |
| SettingsSlice.SettingsState.SetVolume | project-bolt-sb1-c4hj8qrs/src/store/slices/settingsSlice.ts:82-85 | the volume is stored as given, unclamped |
| SettingsSlice.SettingsState.SaveEQPreset | project-bolt-sb1-c4hj8qrs/src/store/slices/settingsSlice.ts:86-98 | one preset with the timestamp id and the given name and bands is appended and becomes current; sliders unchanged; invariant kept |
| SettingsSlice.SettingsState.DeleteEQPreset | project-bolt-sb1-c4hj8qrs/src/store/slices/settingsSlice.ts:99-114 | nothing changes when the first preset with the id is protected; otherwise every preset with the id goes and a deleted current preset falls back to 'default'; invariant kept |
| SettingsSlice.SettingsState.ApplyEQPreset | project-bolt-sb1-c4hj8qrs/src/store/slices/settingsSlice.ts:115-127 | the id always becomes current; the sliders take the first matching preset's bands only when one exists |
| SettingsSlice.SettingsState.UpdateCustomEQ | project-bolt-sb1-c4hj8qrs/src/store/slices/settingsSlice.ts:128-161 | the band takes the value; 'custom' becomes current; a 'custom' preset is appended only when none exists, or edited in that band when 'custom' was current; one exists afterwards exactly when 'custom' was not current or one existed; never two |
| AudioService.Clamp | project-bolt-sb1-c4hj8qrs/src/services/audioService.ts:140 | the level in [0, 1] unchanged, below 0 as 0, above 1 as 1 |
| AudioService.AudioPlayer.constructor | project-bolt-sb1-c4hj8qrs/src/services/audioService.ts:5-17 | no graph, no current track, not playing, no listeners |
| AudioService.AudioPlayer.Initialize | project-bolt-sb1-c4hj8qrs/src/services/audioService.ts:20-72 | builds the graph with unit gain and flat filters once; a second call changes nothing |
| AudioService.AudioPlayer.PlayTrack | project-bolt-sb1-c4hj8qrs/src/services/audioService.ts:75-112 | the same track while playing is left alone; no stored audio changes neither track, playing flag, loaded audio nor position; the gain and filter gains are kept on a built graph and are unit and flat on a new one; otherwise the audio is loaded from the start, the id becomes current and it plays when play goes through |
| AudioService.AudioPlayer.TogglePlayPause | project-bolt-sb1-c4hj8qrs/src/services/audioService.ts:115-123 | a playing engine pauses; a paused one plays when play goes through; nothing without a graph |
| AudioService.AudioPlayer.Stop | project-bolt-sb1-c4hj8qrs/src/services/audioService.ts:126-133 | not playing and the position is 0 |
| AudioService.AudioPlayer.SetVolume | project-bolt-sb1-c4hj8qrs/src/services/audioService.ts:136-143 | the gain becomes the clamped level once the graph exists, and is always in [0, 1] |
| AudioService.AudioPlayer.ApplyEQPreset | project-bolt-sb1-c4hj8qrs/src/services/audioService.ts:146-152 | the three filter gains become the preset's once the filters exist |
| AudioService.AudioPlayer.SetEQBands | project-bolt-sb1-c4hj8qrs/src/services/audioService.ts:155-161 | the three filter gains become the given ones once the filters exist |
| AudioService.AudioPlayer.Seek | project-bolt-sb1-c4hj8qrs/src/services/audioService.ts:174-178 | the position becomes the given one once the graph exists |
| AudioService.AudioPlayer.Ended | project-bolt-sb1-c4hj8qrs/src/services/audioService.ts:58-61 | the engine is no longer playing |
| AudioService.AudioPlayer.Subscribe | project-bolt-sb1-c4hj8qrs/src/services/audioService.ts:200-202 | the callback joins the listener set |
| AudioService.AudioPlayer.Unsubscribe | project-bolt-sb1-c4hj8qrs/src/services/audioService.ts:204-206 | that callback, and only it, leaves the listener set |
| AudioService.AudioPlayer.Dispose | project-bolt-sb1-c4hj8qrs/src/services/audioService.ts:215-236 | no graph, nothing loaded, position 0, no current track, not playing, no listeners |

## Left out

- `mockDownloadTrack`'s random bytes, delay and logging are left out. The bytes a download yields are the `fetch` parameter (or `audio` for a single track).
- Persistence through `localforage` is left out. Its asynchronous calls become map updates, and a storage failure is not modelled. This covers the `catch` blocks that rethrow "Failed to delete …" or "Failed to download track: …" after a store error, and the ones that log and carry on.
- Interleaving of concurrent operations is left out, including the read-modify-write of `library_cache`. Every operation is one sequential step.
- The metadata store keeps bare track ids, `album:<id>`, `playlist:<id>` and `library_cache` apart. A track id that spells one of the other key forms would collide in the source, and the model does not capture that.
- DownloadService.ContentManager.DownloadCollection requires the catalogue's answer to carry the requested id, because the catalogue returns the collection it was asked for. The same holds for `DownloadAlbum` and `DownloadPlaylist`.
- DownloadService.ContentManager.DownloadCollection takes one `now` for the whole operation. The source reads `Date.now()` once per track and once more for the collection.
- `Valid()`, the invariant kept from construction, is a precondition of the state-changing methods. States the operations cannot reach are not modelled.
- The thunks of `librarySlice.ts` are left out. They are the dispatch order of pending, progress, service call and fulfilled or rejected, and only the reducer cases they trigger are modelled.
- The settings reducer's calls into the playback engine are left out: `setVolume`, `applyEQPreset` and `setEQBands` on `audioPlayer`. Each audio method is modelled on its own in `AudioService`.
- `setTheme`, `setHomeScreenPromptShown` and their fields are left out. They toggle DOM classes and a UI flag.
- Band gains are whole numbers, as the sliders produce them with `parseInt`. Volume and playback position are reals. NaN and floating-point rounding are not modelled.
- SettingsSlice.WithoutId states membership and count of the kept presets. It does not state that they keep their relative order.
- The Web Audio graph is left out: the context and its resume, the filters' frequencies and Q, the analyser, blob URLs, `getFrequencyData`, `getCurrentTime`, `getDuration`, `getAnalyzer` and the `isPlaying` getter. `notifyListeners` is left out too: listeners are handles in a set, and calling them is not modelled.
- AudioService.AudioPlayer.PlayTrack folds the media element's asynchronous 'play' event into the call, through `starts`. A 'pause' that the browser might raise while a new source loads is not modelled.
