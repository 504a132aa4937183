/**
 * A row of the `playlist_songs` table (PlaylistSong.kt): the primary key is
 * the pair (playlistId, songId); playlistId references `playlists.id` with
 * ON DELETE CASCADE (enforced by `Library.PlaylistDao.Valid`).
 */
module PlaylistSongs {
  import opened Optional
  import opened Songs

  datatype PlaylistSong = PlaylistSong(
    playlistId: int,
    songId: int,
    title: string,
    artist: string,
    duration: int,
    path: string,
    albumArtUri: Option<string>,
    isLocal: bool,
    deezerTrackId: Option<int>,
    albumName: Option<string>,
    addedAt: int)
  {
    /** The composite primary key. */
    function Key(): (k: (int, int))
      ensures k.0 == playlistId && k.1 == songId
    {
      (playlistId, songId)
    }
  }

  /** The constructor with its defaults: no album art, `isLocal = true`, no
      Deezer id, no album name; `addedAt` is the clock reading passed in. */
  function NewPlaylistSong(playlistId: int, songId: int, title: string, artist: string,
                           duration: int, path: string, now: int): (ps: PlaylistSong)
    ensures ps.Key() == (playlistId, songId) && ps.addedAt == now
    ensures ps.albumArtUri.None? && ps.isLocal && ps.deezerTrackId.None? && ps.albumName.None?
  {
    PlaylistSong(playlistId, songId, title, artist, duration, path, None, true, None, None, now)
  }

  /** `PlaylistSong.toSong()`: the song id is the row's songId. */
  function ToSong(ps: PlaylistSong): (s: Song)
    ensures s.id == ps.songId
  {
    Song(ps.songId, ps.title, ps.artist, ps.duration, ps.path, ps.albumArtUri,
         ps.isLocal, ps.deezerTrackId, ps.albumName)
  }

  /** The membership row that stores song `x` in a playlist, every denormalised
      field taken from `x`. */
  function FromSong(x: Song, playlistId: int, addedAt: int): (ps: PlaylistSong)
    ensures ps.Key() == (playlistId, x.id) && ps.addedAt == addedAt
  {
    PlaylistSong(playlistId, x.id, x.title, x.artist, x.duration, x.path, x.albumArtUri,
                 x.isLocal, x.deezerTrackId, x.albumName, addedAt)
  }

  /** Storing a song in a playlist and reading it back gives the same song. */
  lemma ToSongFromSong(x: Song, playlistId: int, addedAt: int)
    ensures ToSong(FromSong(x, playlistId, addedAt)) == x
  {
  }

  /** Conversely, a row is determined by the song it shows, its playlist and
      its timestamp. */
  lemma FromSongToSong(ps: PlaylistSong)
    ensures FromSong(ToSong(ps), ps.playlistId, ps.addedAt) == ps
  {
  }

  /** `toSong` copies every denormalised field unchanged. */
  lemma ToSongCopiesFields(ps: PlaylistSong)
    ensures var s := ToSong(ps);
      s.title == ps.title && s.artist == ps.artist && s.duration == ps.duration
      && s.path == ps.path && s.albumArtUri == ps.albumArtUri && s.isLocal == ps.isLocal
      && s.deezerTrackId == ps.deezerTrackId && s.albumName == ps.albumName
  {
  }
}
