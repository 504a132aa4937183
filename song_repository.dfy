/**
 * Local song discovery (SongRepository.kt): the folder name derived from the
 * user's folder URI, the MediaStore selection built from it, and the mapping
 * of cursor rows to songs. The platform's URI parser and content resolver
 * are inputs: a parsed URI, and a function from (selection, arguments) to
 * the rows the query returns (`None` for a null cursor).
 */
module SongRepository {
  import opened Optional
  import opened Songs
  import Decimal

  /** What `Uri.parse(folderUri)` reports: its path and last path segment. */
  datatype ParsedUri = ParsedUri(path: Option<string>, lastPathSegment: Option<string>)

  /** The index of the last `c` in `s`, or -1 when there is none. */
  function LastIndexOf(s: string, c: char): (i: int)
    ensures -1 <= i < |s|
    ensures i >= 0 ==> s[i] == c
    ensures forall j :: i < j < |s| ==> s[j] != c
  {
    if |s| == 0 then -1
    else if s[|s| - 1] == c then |s| - 1
    else LastIndexOf(s[..|s| - 1], c)
  }

  /** Kotlin's `substringAfterLast(delimiter)`: the text after the last
      delimiter, or the whole string when there is none. */
  function SubstringAfterLast(s: string, c: char): (r: string)
    ensures c !in s ==> r == s
    ensures c in s ==> |r| < |s| && s[|s| - |r| - 1] == c && s[|s| - |r|..] == r && c !in r
  {
    var i := LastIndexOf(s, c);
    if i < 0 then s else s[i + 1..]
  }

  const DefaultFolder: string := "Download"

  /** The folder name `getSongs` filters by. */
  function FolderName(folderUri: Option<string>, parsed: ParsedUri): (name: string)
    ensures folderUri.None? ==> name == DefaultFolder
    ensures folderUri.Some? && ':' in parsed.path.GetOr("") ==>
              name == SubstringAfterLast(parsed.path.value, ':')
              && ':' !in name && |name| < |parsed.path.value|
              && parsed.path.value[|parsed.path.value| - |name| - 1] == ':'
              && parsed.path.value[|parsed.path.value| - |name|..] == name
    ensures folderUri.Some? && ':' !in parsed.path.GetOr("") ==>
              name == parsed.lastPathSegment.GetOr(DefaultFolder)
  {
    if folderUri.Some? then
      var path := parsed.path.GetOr("");
      if ':' in path then SubstringAfterLast(path, ':')
      else parsed.lastPathSegment.GetOr(DefaultFolder)
    else DefaultFolder
  }

  /** `MediaStore.Audio.Media` column names. */
  const IsMusicColumn: string := "is_music"
  const RelativePathColumn: string := "relative_path"
  const DataColumn: string := "_data"

  /** The base selection: music files only. */
  const MusicOnly: string := IsMusicColumn + " != 0"

  /** The LIKE argument for a folder: any relative path containing the name
      on Android 10 (API 29, Q) and later, a `/<name>/` path component before. */
  function FolderPattern(folderName: string, atLeastQ: bool): (p: string)
    ensures atLeastQ ==> |p| == |folderName| + 2 && p[0] == '%' && p[|p| - 1] == '%'
                         && p[1..|p| - 1] == folderName
    ensures !atLeastQ ==> |p| == |folderName| + 4 && p[..2] == "%/" && p[|p| - 2..] == "/%"
                          && p[2..|p| - 2] == folderName
  {
    if atLeastQ then "%" + folderName + "%" else "%/" + folderName + "/%"
  }

  /** The selection and arguments `getSongsFromMediaStore` passes to the
      query. The folder clause and its one argument are added exactly when
      the folder name is present and non-empty; otherwise the arguments are
      null. */
  method BuildSelection(folderName: Option<string>, atLeastQ: bool)
    returns (selection: string, selectionArgs: Option<seq<string>>)
    ensures |selection| >= |MusicOnly| && selection[..|MusicOnly|] == MusicOnly
    ensures selectionArgs.Some? <==> folderName.Some? && folderName.value != ""
    ensures selectionArgs.None? ==> selection == MusicOnly
    ensures selectionArgs.Some? ==>
              selectionArgs.value == [FolderPattern(folderName.value, atLeastQ)]
              && selection == MusicOnly + " AND " + (if atLeastQ then RelativePathColumn else DataColumn) + " LIKE ?"
  {
    selection := MusicOnly;
    var args: seq<string> := [];
    if folderName.Some? && folderName.value != "" {
      if atLeastQ {
        selection := selection + " AND " + RelativePathColumn + " LIKE ?";
        args := args + ["%" + folderName.value + "%"];
      } else {
        selection := selection + " AND " + DataColumn + " LIKE ?";
        args := args + ["%/" + folderName.value + "/%"];
      }
    }
    selectionArgs := if |args| == 0 then None else Some(args);
  }

  /** One row of the audio cursor: `_ID`, `TITLE`, `ARTIST`, `DURATION`,
      `DATA`, `ALBUM_ID`. */
  datatype CursorRow = CursorRow(
    id: int, title: Option<string>, artist: Option<string>, duration: int,
    data: Option<string>, albumId: int)

  /** The audio collection (`getContentUri(VOLUME_EXTERNAL)` on API 29 and
      later, `EXTERNAL_CONTENT_URI` before; both name the same URI). */
  const AudioCollection: string := "content://media/external/audio/media"
  const AlbumArtCollection: string := "content://media/external/audio/albumart"

  /** `ContentUris.withAppendedId(base, id).toString()`. */
  function WithAppendedId(base: string, id: int): (u: string)
    ensures |u| > |base| + 1 && u[..|base| + 1] == base + "/"
    ensures u[|base| + 1..] == Decimal.IntToString(id)
  {
    base + "/" + Decimal.IntToString(id)
  }

  /** Two rows with different ids get different content URIs under the same
      collection. */
  lemma WithAppendedIdInjective(base: string, a: int, b: int)
    requires WithAppendedId(base, a) == WithAppendedId(base, b)
    ensures a == b
  {
    assert Decimal.IntToString(a) == WithAppendedId(base, a)[|base| + 1..];
    Decimal.IntToStringInjective(a, b);
  }

  /** The song built from one row: a missing title reads "Unknown", a missing
      artist "Unknown Artist"; the song plays from its content URI (the DATA
      column is read but not used) and shows its album's art. */
  function RowToSong(row: CursorRow): (s: Song)
    ensures s.id == row.id && s.duration == row.duration
    ensures s.title == row.title.GetOr("Unknown") && s.artist == row.artist.GetOr("Unknown Artist")
    ensures s.path == WithAppendedId(AudioCollection, row.id)
    ensures s.albumArtUri == Some(WithAppendedId(AlbumArtCollection, row.albumId))
    ensures s.isLocal && s.deezerTrackId.None? && s.albumName.None?
  {
    LocalSong(row.id, row.title.GetOr("Unknown"), row.artist.GetOr("Unknown Artist"),
              row.duration, WithAppendedId(AudioCollection, row.id),
              Some(WithAppendedId(AlbumArtCollection, row.albumId)))
  }

  /** The songs a cursor yields, one per row in row order; none for a null
      cursor. */
  function SongsOf(cursor: Option<seq<CursorRow>>): seq<Song> {
    if cursor.None? then []
    else seq(|cursor.value|, i requires 0 <= i < |cursor.value| => RowToSong(cursor.value[i]))
  }

  /** The `while (cursor.moveToNext())` loop: one song per row, in row order;
      a null cursor gives no songs. */
  method ReadCursor(cursor: Option<seq<CursorRow>>) returns (songs: seq<Song>)
    ensures cursor.None? ==> songs == []
    ensures cursor.Some? ==> |songs| == |cursor.value|
    ensures cursor.Some? ==> forall i :: 0 <= i < |songs| ==> songs[i] == RowToSong(cursor.value[i])
    ensures songs == SongsOf(cursor)
  {
    songs := [];
    if cursor.Some? {
      var rows := cursor.value;
      var n := 0;
      while n < |rows|
        invariant 0 <= n <= |rows|
        invariant |songs| == n
        invariant forall i :: 0 <= i < n ==> songs[i] == RowToSong(rows[i])
      {
        songs := songs + [RowToSong(rows[n])];
        n := n + 1;
      }
    }
  }

  /** The selection and arguments as values, for stating what a query
      received. */
  function SelectionFor(folderName: Option<string>, atLeastQ: bool): (r: (string, Option<seq<string>>))
    ensures r.1.Some? <==> folderName.Some? && folderName.value != ""
  {
    if folderName.Some? && folderName.value != "" then
      (MusicOnly + " AND " + (if atLeastQ then RelativePathColumn else DataColumn) + " LIKE ?",
       Some([FolderPattern(folderName.value, atLeastQ)]))
    else (MusicOnly, None)
  }

  /** The device side of a MediaStore query: the platform level, the URI
      parser, and the content resolver answering a selection and its
      arguments with the matching rows (sorted by title) or a null cursor. */
  datatype MediaStore = MediaStore(
    atLeastQ: bool,
    parse: string -> ParsedUri,
    query: (string, Option<seq<string>>) -> Option<seq<CursorRow>>)

  /** What `getSongsFromMediaStore` returns for a folder name. */
  function MediaStoreSongs(store: MediaStore, folderName: Option<string>): (songs: seq<Song>)
    ensures var (selection, args) := SelectionFor(folderName, store.atLeastQ);
      var cursor := store.query(selection, args);
      (cursor.None? ==> songs == [])
      && (cursor.Some? ==>
            |songs| == |cursor.value| && forall i :: 0 <= i < |songs| ==> songs[i] == RowToSong(cursor.value[i]))
  {
    var (selection, args) := SelectionFor(folderName, store.atLeastQ);
    SongsOf(store.query(selection, args))
  }

  /** What `getSongs` returns for the saved folder URI. */
  function FolderSongs(store: MediaStore, folderUri: Option<string>): (songs: seq<Song>)
    ensures folderUri.None? ==> songs == MediaStoreSongs(store, Some(DefaultFolder))
    ensures exists name :: songs == MediaStoreSongs(store, Some(name))
  {
    var parsed := if folderUri.Some? then store.parse(folderUri.value) else ParsedUri(None, None);
    MediaStoreSongs(store, Some(FolderName(folderUri, parsed)))
  }

  /** `getSongsFromMediaStore(context, folderName)`: the query receives the
      selection built for the folder, and each returned row becomes a song. */
  method GetSongsFromMediaStore(store: MediaStore, folderName: Option<string>)
    returns (songs: seq<Song>)
    ensures var (selection, args) := SelectionFor(folderName, store.atLeastQ);
      var cursor := store.query(selection, args);
      (cursor.None? ==> songs == [])
      && (cursor.Some? ==>
            |songs| == |cursor.value| && forall i :: 0 <= i < |songs| ==> songs[i] == RowToSong(cursor.value[i]))
    ensures songs == MediaStoreSongs(store, folderName)
  {
    var selection, args := BuildSelection(folderName, store.atLeastQ);
    songs := ReadCursor(store.query(selection, args));
  }

  /** `getSongs(context, folderUri)`: always passes a folder name, so the
      folder filter is left out only when the derived name is empty. */
  method GetSongs(store: MediaStore, folderUri: Option<string>) returns (songs: seq<Song>)
    ensures var parsed := if folderUri.Some? then store.parse(folderUri.value) else ParsedUri(None, None);
      var (selection, args) := SelectionFor(Some(FolderName(folderUri, parsed)), store.atLeastQ);
      songs == SongsOf(store.query(selection, args))
    ensures songs == FolderSongs(store, folderUri)
  {
    var parsed := if folderUri.Some? then store.parse(folderUri.value) else ParsedUri(None, None);
    songs := GetSongsFromMediaStore(store, Some(FolderName(folderUri, parsed)));
  }

  /** `getRemoteSongs()`: three fixed sample songs. */
  function GetRemoteSongs(): (r: seq<Song>)
    ensures |r| == 3 && r[0].id == 1001 && r[1].id == 1002 && r[2].id == 1003
    ensures forall i :: 0 <= i < |r| ==> r[i].deezerTrackId.None?
  {
    [ LocalSong(1001, "Al-Fatiha", "Mishary Alafasy", 50000,
                "https://server8.mp3quran.net/afs/001.mp3",
                Some("https://i1.sndcdn.com/artworks-000236666873-u32v67-t500x500.jpg")),
      LocalSong(1002, "SoundHelix Song 1", "SoundHelix", 372000,
                "https://www.soundhelix.com/examples/mp3/SoundHelix-Song-1.mp3", None),
      LocalSong(1003, "SoundHelix Song 2", "SoundHelix", 430000,
                "https://www.soundhelix.com/examples/mp3/SoundHelix-Song-2.mp3", None) ]
  }
}
