/**
 * The canonical song record and the playlist record.
 *
 * `Song` is the superset record the rest of the application reads: besides
 * id, title, artist, duration (ms), path and album art it carries `isLocal`,
 * `deezerTrackId` and `albumName`. Kotlin `Long` and `Int` become `int`.
 */
module Songs {
  import opened Optional

  /** Offset added to a Deezer track id to form a song id (written as the
      literal 100000 both in `DeezerTrack.toSong` and `DownloadedSong.toSong`). */
  const DeezerIdOffset: int := 100000

  datatype Song = Song(
    id: int,
    title: string,
    artist: string,
    duration: int,           // milliseconds
    path: string,            // playable URI or path
    albumArtUri: Option<string>,
    isLocal: bool,
    deezerTrackId: Option<int>,
    albumName: Option<string>)

  /** A song constructed without the optional arguments: album art, Deezer id
      and album name absent, `isLocal = true`. */
  function LocalSong(id: int, title: string, artist: string, duration: int, path: string,
                     albumArtUri: Option<string>): (s: Song)
    ensures s.isLocal && s.deezerTrackId == None && s.albumName == None
    ensures s.id == id && s.path == path && s.albumArtUri == albumArtUri
  {
    Song(id, title, artist, duration, path, albumArtUri, true, None, None)
  }

  /** A song whose id is derived from a Deezer track id: the identity scheme
      shared by streamed and downloaded Deezer tracks. */
  predicate HasDeezerIdentity(s: Song) {
    s.deezerTrackId.Some? && s.id == s.deezerTrackId.value + DeezerIdOffset
  }

  /** A user playlist: `id` is allocated by the database on insert. */
  datatype Playlist = Playlist(id: int, name: string, createdAt: int)
}
