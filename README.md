# Playlist app core in Dafny

A verified model of the core of the Playlist Android music player: the Room
library store (playlists, playlist membership, downloaded tracks), the
entity conversions that give Deezer tracks, downloaded tracks and playlist
rows one song identity, the download bookkeeping, the local-song discovery
over MediaStore, the playback view model that drives the media controller,
and the pure rules of the home and player screens.

Layout, one module per source file:

| file | module | models |
|---|---|---|
| optional.dfy | `Optional` | Kotlin nullables (`?:` is `GetOr`) |
| decimal.dfy | `Decimal` | `Long.toString()` and `String.format("%02d")` |
| song.dfy | `Songs` | the `Song` record and `Playlist` entity |
| deezer_models.dfy | `DeezerModels` | `DeezerTrack.toSong()` |
| downloaded_song.dfy | `DownloadedSongs` | the `downloaded_songs` row and its `toSong()` |
| playlist_song.dfy | `PlaylistSongs` | the `playlist_songs` row and its `toSong()` |
| order_by.dfy | `OrderBy` | what `ORDER BY key DESC` returns |
| playlist_dao.dfy | `Library` | `PlaylistDao` as a class over three tables |
| music_download_manager.dfy | `Downloads` | file names, paths, `isDownloaded`, the one-shot completion receiver |
| song_repository.dfy | `SongRepository` | folder name, selection, cursor rows to songs, sample songs |
| music_view_model.dfy | `Playback` | `MusicViewModel` as a class |
| home_screen.dfy | `Home` | greeting, top artists, quick-play grid, banner, download marks |
| player_screen.dfy | `Player` | `formatTime`, the "PLAYING FROM" label, artwork, download button |

The DAO is a class whose fields are the tables: `playlists` keyed by id,
`playlistSongs` keyed by the composite primary key `(playlistId, songId)`,
`downloadedSongs` keyed by Deezer track id, plus the counter standing for
SQLite's auto-generated ids. Its invariant `Valid()` states the keys, the
foreign key from playlist rows to playlists, and the id counter. Every
`OnConflictStrategy.REPLACE` insert is an upsert on the key, and deleting a
playlist cascades to its rows. The queries are functions of the current
tables. `ORDER BY ... DESC` results are ghost sequences that enumerate the
selected rows exactly once in descending key order. Ties are left to the
database.

The view model is a class whose fields are its observable state. The
media controller is a value holding what the view model reads from it (the
current media id and the playing flag) and the commands sent to it so far,
in order. The player's own changes reach the view model only through the
listener callbacks.

Song ids reach the player as text (`id.toString()`), and the view model
matches the reported media id by comparing that text. `Decimal` proves the
text injective, so the lookup finds exactly the songs with that numeric id.

Where the system's design notes and the code disagree, this model follows
the code. `playSong` hands the controller a single media item, not a queue
built from the list the song came from. The current song is looked up only
in the view model's `songs` list, not in trending, search or playlist
lists. Search is not part of this core.

## Model

| member | source | states |
|---|---|---|
| Decimal.IntToString | app/src/main/java/com/rawen/playlist/ui/MusicViewModel.kt:153 | `Long.toString()` is non-empty and starts with '-' exactly for negative ids |
| Decimal.NatToStringInjective | app/src/main/java/com/rawen/playlist/ui/MusicViewModel.kt:138 | two non-negative numbers with the same decimal text are equal |
| Decimal.IntToStringInjective | app/src/main/java/com/rawen/playlist/ui/MusicViewModel.kt:138 | two ids with the same `toString()` are equal, so matching media ids by text is matching by id |
| Decimal.TwoDigits | app/src/main/java/com/rawen/playlist/ui/PlayerScreen.kt:399 | `%02d` of 0..99 is exactly the tens digit then the units digit; a negative value starts with '-' |
| Songs.LocalSong | app/src/main/java/com/rawen/playlist/data/SongRepository.kt:91-98 | a song built without the Deezer fields is local, has no Deezer id and no album name |
| DeezerModels.ToSong | app/src/main/java/com/rawen/playlist/models/DeezerModels.kt:51-63 | a streamed track is not local, keeps its Deezer id, and its song id is that id plus 100000 |
| DeezerModels.ToSongCopiesMetadata | app/src/main/java/com/rawen/playlist/models/DeezerModels.kt:54-61 | title, artist name, album title and preview URL carry over; duration in seconds becomes milliseconds, a whole multiple of 1000 |
| DeezerModels.ToSongCoverFallback | app/src/main/java/com/rawen/playlist/models/DeezerModels.kt:58 | album art is the big cover, else the medium cover, and absent only when both are |
| DeezerModels.ToSongIdInjective | app/src/main/java/com/rawen/playlist/models/DeezerModels.kt:53 | two tracks get the same song id exactly when they have the same Deezer id |
| DownloadedSongs.ToSong | app/src/main/java/com/rawen/playlist/models/DownloadedSong.kt:18-30 | a downloaded track plays locally from its file and keeps the Deezer identity |
| DownloadedSongs.ToSongCopiesMetadata | app/src/main/java/com/rawen/playlist/models/DownloadedSong.kt:21-28 | title, artist, duration, album name carry over; the album art URL becomes the art URI |
| DownloadedSongs.SameIdStreamedOrDownloaded | app/src/main/java/com/rawen/playlist/models/DownloadedSong.kt:20 | a track has the same song id streamed or downloaded |
| PlaylistSongs.PlaylistSong.Key | app/src/main/java/com/rawen/playlist/models/PlaylistSong.kt:9 | the primary key is (playlistId, songId) |
| PlaylistSongs.NewPlaylistSong | app/src/main/java/com/rawen/playlist/models/PlaylistSong.kt:20-31 | the defaults: no art, local, no Deezer id, no album, added now |
| PlaylistSongs.ToSong | app/src/main/java/com/rawen/playlist/models/PlaylistSong.kt:33-45 | the song id is the row's songId |
| PlaylistSongs.FromSong | app/src/main/java/com/rawen/playlist/models/PlaylistSong.kt:20-31 | the row for a song in a playlist has key (playlist, song id) and the given time |
| PlaylistSongs.ToSongFromSong | app/src/main/java/com/rawen/playlist/models/PlaylistSong.kt:33-45 | storing a song in a playlist and reading it back gives the same song |
| PlaylistSongs.FromSongToSong | app/src/main/java/com/rawen/playlist/models/PlaylistSong.kt:33-45 | a row is determined by its song, playlist and time |
| PlaylistSongs.ToSongCopiesFields | app/src/main/java/com/rawen/playlist/models/PlaylistSong.kt:34-44 | every song field comes from the matching row field |
| OrderBy.Desc | app/src/main/java/com/rawen/playlist/data/db/PlaylistDao.kt:14 | a sequence holding each row of a set once, in descending key order |
| Library.UpsertStoredPair | app/src/main/java/com/rawen/playlist/data/db/PlaylistDao.kt:26-27 | re-adding a stored pair swaps the old row for the new one in that playlist |
| Library.UpsertNewPair | app/src/main/java/com/rawen/playlist/data/db/PlaylistDao.kt:26-27 | adding a new pair adds exactly that row to the playlist |
| Library.UpsertRows | app/src/main/java/com/rawen/playlist/data/db/PlaylistDao.kt:26-27 | the playlist's row count grows by one for a new pair and stays for a stored one |
| Library.OtherPlaylistRows | app/src/main/java/com/rawen/playlist/data/db/PlaylistDao.kt:23-24 | a change confined to one playlist's keys leaves every other playlist's rows alone |
| Library.RemoveRows | app/src/main/java/com/rawen/playlist/data/db/PlaylistDao.kt:29-30 | removing a pair drops the count by one if it was stored, else leaves it |
| Library.PlaylistDao.Valid | app/src/main/java/com/rawen/playlist/models/PlaylistSong.kt:7-19 | rows stored under their primary keys (the (playlistId, songId) pair, the Deezer track id of `DownloadedSong.kt`:8-9), every membership row's playlist exists (the foreign key), so the next generated playlist id is unused |
| Library.PlaylistDao.constructor | app/src/main/java/com/rawen/playlist/data/db/PlaylistDao.kt:10-58 | a new database has empty tables and satisfies the invariant |
| Library.PlaylistDao.GetAllPlaylists | app/src/main/java/com/rawen/playlist/data/db/PlaylistDao.kt:14-15 | every stored playlist once, newest `createdAt` first |
| Library.PlaylistDao.InsertPlaylist | app/src/main/java/com/rawen/playlist/data/db/PlaylistDao.kt:17-18 | a fresh positive id is returned and the playlist stored under it; nothing else changes |
| Library.PlaylistDao.DeletePlaylist | app/src/main/java/com/rawen/playlist/data/db/PlaylistDao.kt:20-21 | the playlist and all its rows go (cascade); its count is 0; other playlists' rows and downloads are unchanged |
| Library.PlaylistDao.RowsOf | app/src/main/java/com/rawen/playlist/data/db/PlaylistDao.kt:23 | the rows of a playlist are exactly the stored rows with that playlistId |
| Library.PlaylistDao.GetSongsForPlaylist | app/src/main/java/com/rawen/playlist/data/db/PlaylistDao.kt:23-24 | each row of the playlist once, most recently added first |
| Library.PlaylistDao.AddSongToPlaylist | app/src/main/java/com/rawen/playlist/data/db/PlaylistDao.kt:26-27 | succeeds iff the playlist exists; then upserts on (playlist, song): `hasSong` is 1, count +1 for a new pair and +0 for a re-add, other playlists unchanged |
| Library.PlaylistDao.RemoveSongFromPlaylist | app/src/main/java/com/rawen/playlist/data/db/PlaylistDao.kt:29-30 | only that pair is removed; `hasSong` is 0; count −1 if it was present, else unchanged |
| Library.PlaylistDao.GetPlaylistSongCount | app/src/main/java/com/rawen/playlist/data/db/PlaylistDao.kt:32-33 | the count is the length of the playlist's song list, and 0 iff no row has that playlist |
| Library.PlaylistDao.GetPlaylistIdsForSong | app/src/main/java/com/rawen/playlist/data/db/PlaylistDao.kt:35-36 | a playlist is listed iff it holds the song |
| Library.PlaylistDao.HasSong | app/src/main/java/com/rawen/playlist/data/db/PlaylistDao.kt:56-57 | 0 or 1, and 1 iff the pair is stored |
| Library.PlaylistDao.GetAllDownloadedSongs | app/src/main/java/com/rawen/playlist/data/db/PlaylistDao.kt:40-41 | every download record once, latest first |
| Library.PlaylistDao.InsertDownloadedSong | app/src/main/java/com/rawen/playlist/data/db/PlaylistDao.kt:43-44 | upsert on the track id (a second download overwrites); the track then counts as downloaded |
| Library.PlaylistDao.DeleteDownloadedSong | app/src/main/java/com/rawen/playlist/data/db/PlaylistDao.kt:46-47 | only that track's record goes; it then counts as not downloaded |
| Library.PlaylistDao.IsTrackDownloaded | app/src/main/java/com/rawen/playlist/data/db/PlaylistDao.kt:49-50 | 0 or 1, and 1 iff a record exists |
| Library.PlaylistDao.GetAllDownloadedTrackIds | app/src/main/java/com/rawen/playlist/data/db/PlaylistDao.kt:52-53 | exactly the ids of the stored records |
| Library.AddDetectAndRemove | app/src/androidTest/java/com/rawen/playlist/db/PlaylistDaoTest.kt:38-71 | absent, present once after adding, present once after re-adding with the new title, absent after removing |
| Downloads.Sanitize | app/src/main/java/com/rawen/playlist/data/MusicDownloadManager.kt:23-24 | same length; each character outside letters, digits, '.', '-', '_' and space becomes '_' |
| Downloads.SanitizeIsClean | app/src/main/java/com/rawen/playlist/data/MusicDownloadManager.kt:24 | the result is clean, sanitising twice changes nothing, and a clean name is kept as is |
| Downloads.SanitizeAppend | app/src/main/java/com/rawen/playlist/data/MusicDownloadManager.kt:23-24 | sanitising works piece by piece over concatenation |
| Downloads.FileName | app/src/main/java/com/rawen/playlist/data/MusicDownloadManager.kt:23-24 | title + " - " + artist + ".mp3" sanitised: title + artist + 7 characters, every one allowed |
| Downloads.FileNameShape | app/src/main/java/com/rawen/playlist/data/MusicDownloadManager.kt:23-24 | the file name has title + artist + 7 characters, ends in ".mp3" and is clean |
| Downloads.DestinationSubpath | app/src/main/java/com/rawen/playlist/data/MusicDownloadManager.kt:30 | downloads go to "Playlist/" + file name |
| Downloads.DownloadedFilePath | app/src/main/java/com/rawen/playlist/data/MusicDownloadManager.kt:94-101 | the path is the music directory plus the same subpath the download uses, ending in the file name |
| Downloads.IsDownloaded | app/src/main/java/com/rawen/playlist/data/MusicDownloadManager.kt:103-112 | a local song counts as downloaded; another song iff the file at its download path exists |
| Downloads.RequestFor | app/src/main/java/com/rawen/playlist/data/MusicDownloadManager.kt:26-30 | the request fetches the song's path into the same file `getDownloadedFilePath` names |
| Downloads.TrackedRow | app/src/main/java/com/rawen/playlist/data/MusicDownloadManager.kt:60-70 | the record is keyed by the Deezer id, else the song id, and points at the downloaded file |
| Downloads.TrackedRowRoundTrip | app/src/main/java/com/rawen/playlist/data/MusicDownloadManager.kt:60-70 | for a Deezer song, reading the record back gives the same song, now local and at the file path |
| Downloads.TrackedRowWithoutDeezerId | app/src/main/java/com/rawen/playlist/data/MusicDownloadManager.kt:60 | a song without a Deezer id comes back with its id shifted by 100000 |
| Downloads.Handle | app/src/main/java/com/rawen/playlist/data/MusicDownloadManager.kt:49-81 | a completion is handled iff its id matches; a record is written iff it matches and the status is successful |
| Downloads.AtMostOneWrite | app/src/main/java/com/rawen/playlist/data/MusicDownloadManager.kt:76-81 | over any sequence of completions at most one record is written, exactly when the first matching one succeeded |
| Downloads.CompletionReceiver.constructor | app/src/main/java/com/rawen/playlist/data/MusicDownloadManager.kt:44-47 | the receiver starts registered and targets the download path |
| Downloads.CompletionReceiver.OnReceive | app/src/main/java/com/rawen/playlist/data/MusicDownloadManager.kt:48-83 | other ids are ignored; the matching one upserts the record on success and always unregisters; playlists untouched |
| Downloads.DownloadAndTrack | app/src/main/java/com/rawen/playlist/data/MusicDownloadManager.kt:41-92 | the request and a registered receiver for that download id, whose file is the request's destination |
| SongRepository.SubstringAfterLast | app/src/main/java/com/rawen/playlist/data/SongRepository.kt:17 | the text after the last delimiter, a suffix without that delimiter; the whole text when it has none |
| SongRepository.FolderName | app/src/main/java/com/rawen/playlist/data/SongRepository.kt:12-23 | "Download" without a URI; after the last ':' of the path if there is one; else the last segment or "Download" |
| SongRepository.FolderPattern | app/src/main/java/com/rawen/playlist/data/SongRepository.kt:54-57 | the LIKE argument: the name between '%' wildcards from Android 10, between "%/" and "/%" (a whole path component) before |
| SongRepository.BuildSelection | app/src/main/java/com/rawen/playlist/data/SongRepository.kt:44-59 | always the music filter; the folder clause and one LIKE argument iff the name is non-empty, on `relative_path` from Android 10 and `_data` before; otherwise no arguments |
| SongRepository.SelectionFor | app/src/main/java/com/rawen/playlist/data/SongRepository.kt:45-67 | arguments are passed iff the folder name is non-empty |
| SongRepository.WithAppendedId | app/src/main/java/com/rawen/playlist/data/SongRepository.kt:87-88 | the collection URI, '/', then the id's decimal text |
| SongRepository.WithAppendedIdInjective | app/src/main/java/com/rawen/playlist/data/SongRepository.kt:87-88 | under one collection, different ids give different URIs |
| SongRepository.RowToSong | app/src/main/java/com/rawen/playlist/data/SongRepository.kt:79-99 | same id and duration, "Unknown" / "Unknown Artist" for missing title / artist, plays from its content URI, art from its album |
| SongRepository.ReadCursor | app/src/main/java/com/rawen/playlist/data/SongRepository.kt:69-102 | one song per row in row order; none for a null cursor |
| SongRepository.MediaStoreSongs | app/src/main/java/com/rawen/playlist/data/SongRepository.kt:27-103 | no songs for a null cursor; otherwise one song per row of the query's answer to the folder's selection, in row order |
| SongRepository.FolderSongs | app/src/main/java/com/rawen/playlist/data/SongRepository.kt:11-25 | without a saved URI the "Download" folder; in every case the query is filtered by some folder name |
| SongRepository.GetSongsFromMediaStore | app/src/main/java/com/rawen/playlist/data/SongRepository.kt:27-103 | the songs of the rows the query returns for the folder's selection |
| SongRepository.GetSongs | app/src/main/java/com/rawen/playlist/data/SongRepository.kt:11-25 | the songs of the folder derived from the URI |
| SongRepository.GetRemoteSongs | app/src/main/java/com/rawen/playlist/data/SongRepository.kt:105-131 | three songs with ids 1001, 1002, 1003, none from Deezer |
| Playback.MediaIdOf | app/src/main/java/com/rawen/playlist/ui/MusicViewModel.kt:138-153 | the id's `toString()`: non-empty, starting with '-' iff the id is negative, and the text of no other number |
| Playback.ItemFor | app/src/main/java/com/rawen/playlist/ui/MusicViewModel.kt:152-162 | the item carries the id's text as media id, the path as URI and the song's metadata |
| Playback.FindSong | app/src/main/java/com/rawen/playlist/ui/MusicViewModel.kt:138 | the first song whose id text is the media id; none iff no song matches |
| Playback.FindSongById | app/src/main/java/com/rawen/playlist/ui/MusicViewModel.kt:138 | looking up an id's text finds a song with that id, and none iff no song has it |
| Playback.PlayedItemResolves | app/src/main/java/com/rawen/playlist/ui/MusicViewModel.kt:138-153 | when ids are unique, the item built for a song resolves back to that song |
| Playback.MusicViewModel.constructor | app/src/main/java/com/rawen/playlist/ui/MusicViewModel.kt:27-47 | no controller, no songs, nothing current, not playing, no folder, no context |
| Playback.MusicViewModel.StoredFolder | app/src/main/java/com/rawen/playlist/ui/MusicViewModel.kt:56-59 | the saved folder URI, or none when the key is absent |
| Playback.MusicViewModel.LoadSongs | app/src/main/java/com/rawen/playlist/ui/MusicViewModel.kt:68-74 | nothing without a context; otherwise the songs become those of the current folder |
| Playback.MusicViewModel.SetContext | app/src/main/java/com/rawen/playlist/ui/MusicViewModel.kt:49-54 | only the first call acts: it reads the saved folder and loads its songs |
| Playback.MusicViewModel.SetCustomFolder | app/src/main/java/com/rawen/playlist/ui/MusicViewModel.kt:61-66 | records the folder; with a context saves it (null removes it) and reloads |
| Playback.MusicViewModel.LoadRemoteSongs | app/src/main/java/com/rawen/playlist/ui/MusicViewModel.kt:76-81 | the songs become the three sample songs |
| Playback.MusicViewModel.UpdateCurrentSong | app/src/main/java/com/rawen/playlist/ui/MusicViewModel.kt:135-141 | no media id leaves the current song; otherwise it becomes the first match, which is one of the songs, or none |
| Playback.MusicViewModel.InitializeController | app/src/main/java/com/rawen/playlist/ui/MusicViewModel.kt:88-122 | once connected, a second call does nothing; the first adopts the controller and restores current song and playing flag from it |
| Playback.MusicViewModel.OnMediaItemTransition | app/src/main/java/com/rawen/playlist/ui/MusicViewModel.kt:98-100 | the current song follows the player's new item |
| Playback.MusicViewModel.OnIsPlayingChanged | app/src/main/java/com/rawen/playlist/ui/MusicViewModel.kt:102-104 | the playing flag mirrors the player |
| Playback.MusicViewModel.ProgressTick | app/src/main/java/com/rawen/playlist/ui/MusicViewModel.kt:124-133 | with a controller the progress becomes its position; without one it stays |
| Playback.MusicViewModel.PlaySong | app/src/main/java/com/rawen/playlist/ui/MusicViewModel.kt:143-167 | no controller: nothing; same media id: only `play`, and only when paused; else set the song's item, prepare, play |
| Playback.MusicViewModel.SeekTo | app/src/main/java/com/rawen/playlist/ui/MusicViewModel.kt:169-171 | forwarded only when a controller is present |
| Playback.MusicViewModel.Stop | app/src/main/java/com/rawen/playlist/ui/MusicViewModel.kt:173-175 | forwarded only when a controller is present |
| Playback.MusicViewModel.Pause | app/src/main/java/com/rawen/playlist/ui/MusicViewModel.kt:177-179 | forwarded only when a controller is present |
| Playback.MusicViewModel.Resume | app/src/main/java/com/rawen/playlist/ui/MusicViewModel.kt:181-183 | `play` forwarded only when a controller is present |
| Playback.MusicViewModel.SkipToNext | app/src/main/java/com/rawen/playlist/ui/MusicViewModel.kt:185-187 | forwarded only when a controller is present |
| Playback.MusicViewModel.SkipToPrevious | app/src/main/java/com/rawen/playlist/ui/MusicViewModel.kt:189-191 | forwarded only when a controller is present |
| Player.Quot | app/src/main/java/com/rawen/playlist/ui/PlayerScreen.kt:397-398 | Kotlin's `/` on Long: divisor times quotient plus remainder gives back the dividend, and that multiple lies between 0 and the dividend, so the quotient truncates toward zero for either sign |
| Player.DivisionOfNat | app/src/main/java/com/rawen/playlist/ui/PlayerScreen.kt:397-398 | for a non-negative dividend the multiple of the divisor plus the remainder rebuilds it, and the multiple lies between 0 and the dividend |
| Player.Rem | app/src/main/java/com/rawen/playlist/ui/PlayerScreen.kt:397-398 | Kotlin's `%` takes the dividend's sign |
| Player.Seconds | app/src/main/java/com/rawen/playlist/ui/PlayerScreen.kt:397 | the seconds field lies strictly between -60 and 60; for ms ≥ 0 it is the whole seconds mod 60 |
| Player.Minutes | app/src/main/java/com/rawen/playlist/ui/PlayerScreen.kt:398 | the minutes field lies strictly between -60 and 60; for ms ≥ 0 it is the whole minutes mod 60 |
| Player.FormatTime | app/src/main/java/com/rawen/playlist/ui/PlayerScreen.kt:396-400 | for ms ≥ 0 five characters: the minutes as two digits, ':', the seconds as two digits |
| Player.MinutesFromSeconds | app/src/main/java/com/rawen/playlist/ui/PlayerScreen.kt:398 | dividing by 60000 is dividing the whole seconds by 60 |
| Player.NonNegativeParts | app/src/main/java/com/rawen/playlist/ui/PlayerScreen.kt:397-398 | for ms ≥ 0 seconds and minutes are the usual remainders, in 0..59 |
| Player.FormatTimeShape | app/src/main/java/com/rawen/playlist/ui/PlayerScreen.kt:396-400 | for ms ≥ 0 the text is exactly two digits, ':', two digits |
| Player.FormatTimeExample | app/src/main/java/com/rawen/playlist/ui/PlayerScreen.kt:399 | 61000 ms reads "01:01" |
| Player.HourLaterParts | app/src/main/java/com/rawen/playlist/ui/PlayerScreen.kt:397-398 | an hour later, seconds and minutes are the same |
| Player.HourLaterSeconds | app/src/main/java/com/rawen/playlist/ui/PlayerScreen.kt:397 | an hour later is 3600 whole seconds later |
| Player.HourInSeconds | app/src/main/java/com/rawen/playlist/ui/PlayerScreen.kt:397-398 | adding 3600 seconds keeps seconds mod 60 and minutes mod 60 |
| Player.FormatTimeDropsHours | app/src/main/java/com/rawen/playlist/ui/PlayerScreen.kt:398 | the text is the same an hour later |
| Player.WholeSecondParts | app/src/main/java/com/rawen/playlist/ui/PlayerScreen.kt:397 | dropping the milliseconds keeps seconds and minutes |
| Player.NegativeWholeSecondParts | app/src/main/java/com/rawen/playlist/ui/PlayerScreen.kt:397 | for a negative position, dropping the milliseconds keeps seconds and minutes |
| Player.NegatedParts | app/src/main/java/com/rawen/playlist/ui/PlayerScreen.kt:397-398 | a negative position shows the negated parts of its absolute value |
| Player.FormatTimeIgnoresMillis | app/src/main/java/com/rawen/playlist/ui/PlayerScreen.kt:397 | the text ignores the sub-second part, for any sign |
| Player.PlayingFrom | app/src/main/java/com/rawen/playlist/ui/PlayerScreen.kt:160 | the album name, else "Local Music" for local songs and "Deezer" otherwise |
| Player.PlayingFromBySource | app/src/main/java/com/rawen/playlist/ui/PlayerScreen.kt:160 | a streamed track shows its album, a device song "Local Music", a download its saved album or "Local Music" |
| Player.ShowsDownloadButton | app/src/main/java/com/rawen/playlist/ui/PlayerScreen.kt:250 | shown iff the song is not local |
| Player.DownloadButtonBySource | app/src/main/java/com/rawen/playlist/ui/PlayerScreen.kt:250-258 | offered for streamed tracks, never for device songs or downloads |
| Player.ArtworkOf | app/src/main/java/com/rawen/playlist/ui/PlayerScreen.kt:65-69 | local songs with art show the art embedded in their file; others load their art URI |
| Home.Greeting | app/src/main/java/com/rawen/playlist/ui/HomeScreen.kt:45-52 | morning iff before 12, afternoon iff 12 to 17, evening iff 18 or later |
| Home.Take | app/src/main/java/com/rawen/playlist/ui/HomeScreen.kt:60 | a prefix of length min(n, size) |
| Home.ArtistEntries | app/src/main/java/com/rawen/playlist/ui/HomeScreen.kt:58 | one (artist, art) pair per trending song, in order |
| Home.KeptIndices | app/src/main/java/com/rawen/playlist/ui/HomeScreen.kt:59 | the increasing indices of the entries whose artist has not appeared before |
| Home.DistinctByArtist | app/src/main/java/com/rawen/playlist/ui/HomeScreen.kt:59 | the entries at those indices, in order |
| Home.DistinctArtistsDiffer | app/src/main/java/com/rawen/playlist/ui/HomeScreen.kt:59 | no artist appears twice |
| Home.EveryArtistKept | app/src/main/java/com/rawen/playlist/ui/HomeScreen.kt:59 | every artist of the input appears |
| Home.DistinctKeepsFirst | app/src/main/java/com/rawen/playlist/ui/HomeScreen.kt:57-59 | each kept entry is the first entry of its artist |
| Home.TopArtists | app/src/main/java/com/rawen/playlist/ui/HomeScreen.kt:56-61 | the first min(10, n) of the artists in order of first appearance among the trending songs |
| Home.TopArtistsBounded | app/src/main/java/com/rawen/playlist/ui/HomeScreen.kt:56-61 | at most ten entries, distinct artists, each from a trending song |
| Home.FewArtistsAllShown | app/src/main/java/com/rawen/playlist/ui/HomeScreen.kt:56-61 | with at most ten distinct artists every trending artist is shown |
| Home.Pairs | app/src/main/java/com/rawen/playlist/ui/HomeScreen.kt:220 | `chunked(2)`: half the input count rounded up rows, each of one or two items |
| Home.PairsShape | app/src/main/java/com/rawen/playlist/ui/HomeScreen.kt:220 | `chunked(2)` rows join back to the input; all rows but the last have two; the last has one iff the count is odd |
| Home.QuickPlayRows | app/src/main/java/com/rawen/playlist/ui/HomeScreen.kt:219-238 | the rows hold the first six local songs; at most three rows; only the last row can need a spacer, and does iff the count is odd |
| Home.Carousel | app/src/main/java/com/rawen/playlist/ui/HomeScreen.kt:138 | the first min(20, n) trending songs |
| Home.FeaturedBanner | app/src/main/java/com/rawen/playlist/ui/HomeScreen.kt:95-107 | a placeholder iff loading; the first trending song iff not loading and the list is non-empty |
| Home.PopularTrailing | app/src/main/java/com/rawen/playlist/ui/HomeScreen.kt:273-288 | "Downloaded" iff the Deezer id is in the downloaded set; otherwise a download button iff not local |
| Home.CardIsDownloaded | app/src/main/java/com/rawen/playlist/ui/HomeScreen.kt:143 | marked iff the song has a Deezer id in the downloaded set |
| Home.DeezerTrackMarks | app/src/main/java/com/rawen/playlist/ui/HomeScreen.kt:143 | for a streamed track the card and the list agree: marked iff its id is downloaded, else a download button |

## Left out

- Room, `Flow` and coroutines: queries are functions of the current tables, and suspending writes happen at once. `AppDatabase` (the singleton and the table set-up) is not part of this model.
- Library.PlaylistDao.InsertPlaylist: only the auto-generated id case is modelled. A `Playlist` passed with an explicit id that already exists would be replaced under REPLACE, and that cascade is not modelled.
- Library.PlaylistDao.AddSongToPlaylist: SQLite rejects a row whose playlist does not exist with an exception. The model returns `ok = false` and changes nothing instead.
- Library.PlaylistDao.GetPlaylistIdsForSong: the query has no ORDER BY, so the result is a set. The same holds for `GetAllDownloadedTrackIds`.
- Library.PlaylistDao.GetAllPlaylists: the order among rows with equal keys is left to the database. The same holds for `GetSongsForPlaylist` and `GetAllDownloadedSongs`.
- `Song` carries `isLocal`, `deezerTrackId` and `albumName`, as every caller uses them. The repository's `Song.kt` declares only six fields. Constructors that leave them out get the defaults local / none / none, as `PlaylistSong` declares them.
- `System.currentTimeMillis()`, the download id from `DownloadManager.enqueue`, the device's file system and the controller's state are parameters.
- Downloads.CompletionReceiver.OnReceive: registration with the OS is the `registered` flag. The status query is part of the `Completion` value. The record is inserted at once, not on the IO dispatcher. Exceptions from `unregisterReceiver` are not modelled.
- `Environment.getExternalStoragePublicDirectory(DIRECTORY_MUSIC)` is the constant `/storage/emulated/0/Music`.
- `MediaStore` queries, `Uri.parse` and the Android version check are the inputs of `SongRepository.MediaStore`. The model does not check that rows are sorted by title.
- Playback: the `MediaController` future, the session token and `onCleared` are left out. The controller's own reaction to commands is left out too: it reports back through the callbacks.
- Playback.MusicViewModel.InitializeController: connecting is one atomic step here. In `MusicViewModel.kt`:89 the guard looks only at the connected controller, so a second call before the first connection completes builds a second future, overwrites `mediaControllerFuture`, registers the listener twice and starts a second progress loop (lines 92-117). That duplicate initialisation is not modelled.
- Playback.MusicViewModel.LoadSongs: the load runs on an IO coroutine (`MusicViewModel.kt`:70-73), so overlapping loads can finish out of order and the last one to finish wins. The model loads at once, so the last call wins.
- Playback.MusicViewModel.ProgressTick: one turn of the endless polling loop. The one-second delay is not modelled.
- Playback.MusicViewModel.SetContext: the shared preferences are the `preferences` map, and the Android `Context` is a flag.
- `Long` arithmetic is unbounded here: `id + 100000` and `duration * 1000` do not wrap.
- Player.FormatTime assumes a locale with ASCII digits.
- Compose layout, theming, images, palette extraction, navigation and the Deezer HTTP client are not part of this model.
