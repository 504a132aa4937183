/** A row of the `downloaded_songs` table, keyed by the Deezer track id
    (DownloadedSong.kt). */
module DownloadedSongs {
  import opened Optional
  import opened Songs
  import DeezerModels

  datatype DownloadedSong = DownloadedSong(
    deezerTrackId: int,
    title: string,
    artist: string,
    albumName: Option<string>,
    albumArtUrl: Option<string>,
    localFilePath: string,
    duration: int,           // milliseconds
    downloadedAt: int)

  /** `DownloadedSong.toSong()`: the song now plays from the local file, yet
      keeps the Deezer identity (same id offset as a streamed track). */
  function ToSong(d: DownloadedSong): (s: Song)
    ensures HasDeezerIdentity(s) && s.deezerTrackId == Some(d.deezerTrackId)
    ensures s.isLocal && s.path == d.localFilePath
  {
    Song(
      id := d.deezerTrackId + DeezerIdOffset,
      title := d.title,
      artist := d.artist,
      duration := d.duration,
      path := d.localFilePath,
      albumArtUri := d.albumArtUrl,
      isLocal := true,
      deezerTrackId := Some(d.deezerTrackId),
      albumName := d.albumName)
  }

  /** The metadata fields are carried over; the album art URL becomes the
      song's album art URI. */
  lemma ToSongCopiesMetadata(d: DownloadedSong)
    ensures var s := ToSong(d);
      s.title == d.title && s.artist == d.artist && s.duration == d.duration
      && s.albumArtUri == d.albumArtUrl && s.albumName == d.albumName
  {
  }

  /** A track has the same song id whether it is streamed from Deezer or
      played from its downloaded copy. */
  lemma SameIdStreamedOrDownloaded(t: DeezerModels.DeezerTrack, d: DownloadedSong)
    requires d.deezerTrackId == t.id
    ensures ToSong(d).id == DeezerModels.ToSong(t).id
    ensures ToSong(d).deezerTrackId == DeezerModels.ToSong(t).deezerTrackId
  {
  }
}
