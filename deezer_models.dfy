/** Deezer API records and their conversion to `Song` (DeezerModels.kt). */
module DeezerModels {
  import opened Optional
  import opened Songs

  datatype DeezerArtist = DeezerArtist(
    id: int, name: string, pictureMedium: Option<string>, pictureBig: Option<string>)

  datatype DeezerAlbum = DeezerAlbum(
    id: int, title: string, coverMedium: Option<string>, coverBig: Option<string>,
    coverXl: Option<string>)

  datatype DeezerTrack = DeezerTrack(
    id: int,
    title: string,
    titleShort: Option<string>,
    duration: int,           // seconds
    preview: string,         // 30-second preview URL
    artist: DeezerArtist,
    album: DeezerAlbum)

  /** `DeezerTrack.toSong()`: a streamed, non-local song whose id is the
      track id plus the offset. */
  function ToSong(t: DeezerTrack): (s: Song)
    ensures HasDeezerIdentity(s) && s.deezerTrackId == Some(t.id)
    ensures !s.isLocal
  {
    Song(
      id := t.id + DeezerIdOffset,
      title := t.title,
      artist := t.artist.name,
      duration := t.duration * 1000,
      path := t.preview,
      albumArtUri := if t.album.coverBig.Some? then t.album.coverBig else t.album.coverMedium,
      isLocal := false,
      deezerTrackId := Some(t.id),
      albumName := Some(t.album.title))
  }

  /** What the song shows of the track: its title, artist name, album title,
      preview URL, and duration converted from seconds to milliseconds. */
  lemma ToSongCopiesMetadata(t: DeezerTrack)
    ensures ToSong(t).title == t.title && ToSong(t).artist == t.artist.name
    ensures ToSong(t).albumName == Some(t.album.title)
    ensures ToSong(t).path == t.preview
    ensures ToSong(t).duration == 1000 * t.duration
    ensures t.duration >= 0 ==> ToSong(t).duration / 1000 == t.duration && ToSong(t).duration % 1000 == 0
  {
  }

  /** The album art is the big cover when the album has one, otherwise the
      medium cover, which may itself be absent. */
  lemma ToSongCoverFallback(t: DeezerTrack)
    ensures t.album.coverBig.Some? ==> ToSong(t).albumArtUri == t.album.coverBig
    ensures t.album.coverBig.None? ==> ToSong(t).albumArtUri == t.album.coverMedium
    ensures ToSong(t).albumArtUri.None? <==> t.album.coverBig.None? && t.album.coverMedium.None?
  {
  }

  /** Distinct tracks give distinct song ids, and the track id can be
      recovered from the song id. */
  lemma ToSongIdInjective(a: DeezerTrack, b: DeezerTrack)
    ensures ToSong(a).id == ToSong(b).id <==> a.id == b.id
    ensures ToSong(a).id - DeezerIdOffset == a.id
  {
  }
}
