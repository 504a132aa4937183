/**
 * Download bookkeeping (MusicDownloadManager.kt): the file name a song is
 * saved under, the request handed to the platform's download service, the
 * `isDownloaded` rule, and the one-shot completion receiver that records a
 * finished download in the library store.
 */
module Downloads {
  import opened Optional
  import opened Songs
  import opened DownloadedSongs
  import Library

  /** The characters the regex `[^a-zA-Z0-9.\-_ ]` leaves alone. */
  predicate Allowed(c: char) {
    ('a' <= c <= 'z') || ('A' <= c <= 'Z') || ('0' <= c <= '9')
    || c == '.' || c == '-' || c == '_' || c == ' '
  }

  /** `replace("[^a-zA-Z0-9.\\-_ ]".toRegex(), "_")`: every character outside
      the allowed class becomes one underscore. */
  function Sanitize(s: string): (r: string)
    ensures |r| == |s|
    ensures forall i :: 0 <= i < |s| ==> r[i] == (if Allowed(s[i]) then s[i] else '_')
  {
    if s == [] then [] else [if Allowed(s[0]) then s[0] else '_'] + Sanitize(s[1..])
  }

  /** A sanitised name holds only allowed characters, sanitising it again
      changes nothing, and a name that is already clean is left as is. */
  lemma SanitizeIsClean(s: string)
    ensures forall i :: 0 <= i < |Sanitize(s)| ==> Allowed(Sanitize(s)[i])
    ensures Sanitize(Sanitize(s)) == Sanitize(s)
    ensures (forall i :: 0 <= i < |s| ==> Allowed(s[i])) <==> Sanitize(s) == s
  {
    if !(forall i :: 0 <= i < |s| ==> Allowed(s[i])) {
      var i :| 0 <= i < |s| && !Allowed(s[i]);
      assert Sanitize(s)[i] != s[i];
    }
  }

  /** Sanitising works character by character, so it distributes over
      concatenation. */
  lemma SanitizeAppend(a: string, b: string)
    ensures Sanitize(a + b) == Sanitize(a) + Sanitize(b)
  {
    assert forall i :: 0 <= i < |a + b| ==> Sanitize(a + b)[i] == (Sanitize(a) + Sanitize(b))[i];
  }

  /** `"${song.title} - ${song.artist}.mp3"`, sanitised (written out
      identically at lines 23-24, 95-96 and 105-106). */
  function FileName(song: Song): (name: string)
    ensures |name| == |song.title| + |song.artist| + 7
    ensures forall i :: 0 <= i < |name| ==> Allowed(name[i])
  {
    SanitizeIsClean(song.title + " - " + song.artist + ".mp3");
    Sanitize(song.title + " - " + song.artist + ".mp3")
  }

  /** The file name keeps one character per character of title and artist,
      still ends in ".mp3", and is already clean. */
  lemma FileNameShape(song: Song)
    ensures |FileName(song)| == |song.title| + |song.artist| + 7
    ensures FileName(song)[|FileName(song)| - 4..] == ".mp3"
    ensures Sanitize(FileName(song)) == FileName(song)
    ensures forall i :: 0 <= i < |FileName(song)| ==> Allowed(FileName(song)[i])
  {
    var stem := song.title + " - " + song.artist;
    assert song.title + " - " + song.artist + ".mp3" == stem + ".mp3";
    SanitizeAppend(stem, ".mp3");
    assert Sanitize(".mp3") == ".mp3";
    SanitizeIsClean(song.title + " - " + song.artist + ".mp3");
  }

  /** `Environment.getExternalStoragePublicDirectory(DIRECTORY_MUSIC)` on
      the primary external volume. */
  const MusicDirectory: string := "/storage/emulated/0/Music"

  /** `"Playlist/$fileName"`, relative to the public music directory. */
  function DestinationSubpath(song: Song): (p: string)
    ensures p == "Playlist/" + FileName(song)
  {
    "Playlist/" + FileName(song)
  }

  /** `getDownloadedFilePath(song)`: the absolute path of the destination
      the download was enqueued with. */
  function DownloadedFilePath(song: Song): (p: string)
    ensures p == MusicDirectory + "/" + DestinationSubpath(song)
    ensures p[|p| - |FileName(song)|..] == FileName(song)
  {
    MusicDirectory + "/" + DestinationSubpath(song)
  }

  /** `isDownloaded(song)`: a local song counts as downloaded without looking
      at the disk; otherwise the file at the derived path must exist.
      `existingFiles` stands for the file system. */
  function IsDownloaded(song: Song, existingFiles: set<string>): (r: bool)
    ensures song.isLocal ==> r
    ensures !song.isLocal ==> (r <==> DownloadedFilePath(song) in existingFiles)
  {
    if song.isLocal then true
    else
      var file := MusicDirectory + "/" + "Playlist/" + FileName(song);
      assert file == DownloadedFilePath(song);
      file in existingFiles
  }

  /** The request `downloadSong` enqueues. */
  datatype DownloadRequest = DownloadRequest(
    sourceUri: string, title: string, description: string, destinationSubpath: string)

  /** `downloadSong(song)`'s request: fetch the song's path into the
      music directory under `Playlist/<file name>`. */
  function RequestFor(song: Song): (r: DownloadRequest)
    ensures r.sourceUri == song.path
    ensures r.destinationSubpath == DestinationSubpath(song)
    ensures MusicDirectory + "/" + r.destinationSubpath == DownloadedFilePath(song)
  {
    DownloadRequest(
      song.path,
      "Downloading " + song.title,
      song.artist + " - " + song.albumName.GetOr("Unknown Album"),
      "Playlist/" + FileName(song))
  }

  /** `DownloadManager.STATUS_SUCCESSFUL`. */
  const StatusSuccessful: int := 8

  /** The row recorded for a finished download: keyed by the Deezer track id,
      or by the song id when the song has none. */
  function TrackedRow(song: Song, filePath: string, now: int): (d: DownloadedSong)
    ensures d.deezerTrackId == song.deezerTrackId.GetOr(song.id)
    ensures d.localFilePath == filePath && d.downloadedAt == now
  {
    DownloadedSong(
      deezerTrackId := song.deezerTrackId.GetOr(song.id),
      title := song.title,
      artist := song.artist,
      albumName := song.albumName,
      albumArtUrl := song.albumArtUri,
      localFilePath := filePath,
      duration := song.duration,
      downloadedAt := now)
  }

  /** A downloaded Deezer track reads back as the same song, now local and
      playing from the downloaded file: the song id survives the download. */
  lemma TrackedRowRoundTrip(song: Song, filePath: string, now: int)
    requires HasDeezerIdentity(song)
    ensures DownloadedSongs.ToSong(TrackedRow(song, filePath, now))
            == song.(isLocal := true, path := filePath)
  {
  }

  /** A song without a Deezer id is recorded under its own id, so reading
      the record back shifts its id by the Deezer offset. */
  lemma TrackedRowWithoutDeezerId(song: Song, filePath: string, now: int)
    requires song.deezerTrackId.None?
    ensures DownloadedSongs.ToSong(TrackedRow(song, filePath, now)).id == song.id + DeezerIdOffset
  {
  }

  /** A completion broadcast: the finished download's id and the status the
      download service reports for it (`None` when its query yields no row;
      a missing status column reads as `Some(-1)`). */
  datatype Completion = Completion(completedId: int, status: Option<int>)

  /** What the receiver does with one delivered broadcast: whether it
      unregisters, and the row it writes, if any. */
  function Handle(downloadId: int, song: Song, filePath: string, c: Completion, now: int)
    : (r: (bool, Option<DownloadedSong>))
    ensures r.0 <==> c.completedId == downloadId
    ensures r.1.Some? <==> c.completedId == downloadId && c.status == Some(StatusSuccessful)
    ensures r.1.Some? ==> r.1.value == TrackedRow(song, filePath, now)
  {
    if c.completedId != downloadId then (false, None)
    else if c.status == Some(StatusSuccessful) then (true, Some(TrackedRow(song, filePath, now)))
    else (true, None)
  }

  /** The rows written when `events` (with their clock readings) are
      broadcast in order: once the receiver has unregistered it is no longer
      delivered anything. */
  function Writes(downloadId: int, song: Song, filePath: string, events: seq<(Completion, int)>)
    : seq<DownloadedSong>
  {
    if events == [] then []
    else
      var (unregister, write) := Handle(downloadId, song, filePath, events[0].0, events[0].1);
      var here := if write.Some? then [write.value] else [];
      if unregister then here else here + Writes(downloadId, song, filePath, events[1..])
  }

  /** The receiver writes at most one row per download; it writes one exactly
      when the first broadcast for this download reports success, and that row
      is the tracked row for the song. */
  lemma {:induction false} AtMostOneWrite(downloadId: int, song: Song, filePath: string,
                                          events: seq<(Completion, int)>)
    ensures var w := Writes(downloadId, song, filePath, events);
      && |w| <= 1
      && (|w| == 1 <==> exists i :: 0 <= i < |events| && events[i].0.completedId == downloadId
                                   && events[i].0.status == Some(StatusSuccessful)
                                   && forall j :: 0 <= j < i ==> events[j].0.completedId != downloadId)
      && (|w| == 1 ==> w[0].deezerTrackId == song.deezerTrackId.GetOr(song.id)
                       && w[0].localFilePath == filePath)
  {
    if events != [] {
      var c := events[0].0;
      if c.completedId != downloadId {
        AtMostOneWrite(downloadId, song, filePath, events[1..]);
        var w := Writes(downloadId, song, filePath, events);
        assert w == Writes(downloadId, song, filePath, events[1..]);
        if |w| == 1 {
          var i :| 0 <= i < |events[1..]| && events[1..][i].0.completedId == downloadId
                   && events[1..][i].0.status == Some(StatusSuccessful)
                   && forall j :: 0 <= j < i ==> events[1..][j].0.completedId != downloadId;
          assert events[i + 1] == events[1..][i];
          assert forall j :: 0 <= j < i + 1 ==> events[j].0.completedId != downloadId by {
            forall j | 0 <= j < i + 1 ensures events[j].0.completedId != downloadId {
              if j > 0 { assert events[j] == events[1..][j - 1]; }
            }
          }
        }
        if exists i :: 0 <= i < |events| && events[i].0.completedId == downloadId
                       && events[i].0.status == Some(StatusSuccessful)
                       && forall j :: 0 <= j < i ==> events[j].0.completedId != downloadId {
          var i :| 0 <= i < |events| && events[i].0.completedId == downloadId
                   && events[i].0.status == Some(StatusSuccessful)
                   && forall j :: 0 <= j < i ==> events[j].0.completedId != downloadId;
          assert i > 0;
          assert events[1..][i - 1] == events[i];
          assert forall j :: 0 <= j < i - 1 ==> events[1..][j].0.completedId != downloadId by {
            forall j | 0 <= j < i - 1 ensures events[1..][j].0.completedId != downloadId {
              assert events[1..][j] == events[j + 1];
            }
          }
        }
      }
    }
  }

  /**
   * The receiver `downloadAndTrack` registers for one download: it remembers
   * the download id, the song and its destination path, and the store it
   * records into.
   */
  class CompletionReceiver {
    const downloadId: int
    const song: Song
    const filePath: string
    const dao: Library.PlaylistDao
    var registered: bool

    constructor (downloadId: int, song: Song, dao: Library.PlaylistDao)
      ensures this.downloadId == downloadId && this.song == song && this.dao == dao
      ensures filePath == DownloadedFilePath(song)
      ensures registered
    {
      this.downloadId := downloadId;
      this.song := song;
      this.filePath := DownloadedFilePath(song);
      this.dao := dao;
      registered := true;
    }

    /** `onReceive`: a broadcast for another download is ignored and the
        receiver stays registered. For this download, a successful status
        upserts the tracked row; in every case the receiver then unregisters. */
    method OnReceive(c: Completion, now: int)
      requires registered && dao.Valid()
      modifies this, dao
      ensures dao.Valid()
      ensures registered <==> c.completedId != downloadId
      ensures dao.downloadedSongs
              == if c.completedId == downloadId && c.status == Some(StatusSuccessful)
                 then old(dao.downloadedSongs)[song.deezerTrackId.GetOr(song.id) := TrackedRow(song, filePath, now)]
                 else old(dao.downloadedSongs)
      ensures dao.playlists == old(dao.playlists) && dao.playlistSongs == old(dao.playlistSongs)
      ensures dao.nextPlaylistId == old(dao.nextPlaylistId)
    {
      if c.completedId != downloadId {
        return;
      }
      if c.status == Some(StatusSuccessful) {
        dao.InsertDownloadedSong(TrackedRow(song, filePath, now));
      }
      registered := false;
    }
  }

  /** `downloadAndTrack(song, dao)`: enqueues the download (the platform
      hands back `downloadId`) and registers a receiver for its completion. */
  method DownloadAndTrack(song: Song, dao: Library.PlaylistDao, downloadId: int)
    returns (request: DownloadRequest, receiver: CompletionReceiver)
    ensures request == RequestFor(song)
    ensures fresh(receiver) && receiver.registered
    ensures receiver.downloadId == downloadId && receiver.song == song && receiver.dao == dao
    ensures receiver.filePath == MusicDirectory + "/" + request.destinationSubpath
  {
    request := RequestFor(song);
    receiver := new CompletionReceiver(downloadId, song, dao);
  }
}
