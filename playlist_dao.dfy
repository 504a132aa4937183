/**
 * The library store (PlaylistDao.kt): three tables held as maps from primary
 * key to row. Every insert is INSERT OR REPLACE, so it is an upsert by key;
 * deleting a playlist cascades to its `playlist_songs` rows. Flow-returning
 * queries are modelled as reads of the tables at one point in time.
 */
module Library {
  import opened Optional
  import opened Songs
  import opened PlaylistSongs
  import opened DownloadedSongs
  import OrderBy

  /** The `playlist_songs` rows whose playlistId is `playlistId`. */
  function Rows(m: map<(int, int), PlaylistSong>, playlistId: int): set<PlaylistSong> {
    set k | k in m && k.0 == playlistId :: m[k]
  }

  /** Every membership row is stored under its own composite key. */
  ghost predicate Keyed(m: map<(int, int), PlaylistSong>) {
    forall k :: k in m ==> m[k].Key() == k
  }

  /** Replacing the row of a stored pair swaps that one row. */
  lemma UpsertStoredPair(m: map<(int, int), PlaylistSong>, ps: PlaylistSong)
    requires Keyed(m) && ps.Key() in m
    ensures Rows(m[ps.Key() := ps], ps.playlistId) == Rows(m, ps.playlistId) - {m[ps.Key()]} + {ps}
  {
    var k, p := ps.Key(), ps.playlistId;
    var m' := m[k := ps];
    forall r | r in Rows(m', p) ensures r in Rows(m, p) - {m[k]} + {ps} {
      var j :| j in m' && j.0 == p && m'[j] == r;
      if j != k {
        assert m[j] == r && r.Key() == j;
      }
    }
    forall r | r in Rows(m, p) - {m[k]} + {ps} ensures r in Rows(m', p) {
      if r != ps {
        var j :| j in m && j.0 == p && m[j] == r;
        assert m'[j] == r;
      }
    }
  }

  /** Inserting a new pair adds its row. */
  lemma UpsertNewPair(m: map<(int, int), PlaylistSong>, ps: PlaylistSong)
    requires Keyed(m) && ps.Key() !in m
    ensures Rows(m[ps.Key() := ps], ps.playlistId) == Rows(m, ps.playlistId) + {ps}
  {
    var k, p := ps.Key(), ps.playlistId;
    var m' := m[k := ps];
    forall r | r in Rows(m, p) ensures r in Rows(m', p) {
      var j :| j in m && j.0 == p && m[j] == r;
      assert m'[j] == r;
    }
  }

  /** Upserting a membership row adds one row to its playlist when the pair
      was absent and replaces the existing row otherwise. */
  lemma UpsertRows(m: map<(int, int), PlaylistSong>, ps: PlaylistSong)
    requires Keyed(m)
    ensures |Rows(m[ps.Key() := ps], ps.playlistId)|
            == |Rows(m, ps.playlistId)| + (if ps.Key() in m then 0 else 1)
  {
    var k, p := ps.Key(), ps.playlistId;
    var before := Rows(m, p);
    if k in m {
      UpsertStoredPair(m, ps);
      assert m[k] in before;
      assert ps !in before - {m[k]};
    } else {
      UpsertNewPair(m, ps);
      assert ps !in before;
    }
  }

  /** Writing or deleting a row of one playlist leaves the rows of every
      other playlist as they were. */
  lemma OtherPlaylistRows(m: map<(int, int), PlaylistSong>, m': map<(int, int), PlaylistSong>,
                          playlistId: int, other: int)
    requires other != playlistId
    requires forall k: (int, int) :: k.0 != playlistId ==> (k in m <==> k in m') && (k in m ==> m[k] == m'[k])
    ensures Rows(m', other) == Rows(m, other)
  {
  }

  /** Removing a pair removes exactly its row, if there was one. */
  lemma RemoveRows(m: map<(int, int), PlaylistSong>, playlistId: int, songId: int)
    requires Keyed(m)
    ensures |Rows(m - {(playlistId, songId)}, playlistId)|
            == |Rows(m, playlistId)| - (if (playlistId, songId) in m then 1 else 0)
  {
    var k := (playlistId, songId);
    var before, after := Rows(m, playlistId), Rows(m - {k}, playlistId);
    if k in m {
      assert m[k] in before;
      assert after == before - {m[k]} by {
        forall r | r in before - {m[k]} ensures r in after {
          var j :| j in m && j.0 == playlistId && m[j] == r;
          assert j != k;
        }
        forall r | r in after ensures r in before - {m[k]} {
          var j :| j in m - {k} && j.0 == playlistId && (m - {k})[j] == r;
          assert r.Key() == j;
        }
      }
    } else {
      assert m - {k} == m;
    }
  }

  class PlaylistDao {
    /** `playlists`, keyed by id. */
    var playlists: map<int, Playlist>
    /** `playlist_songs`, keyed by (playlistId, songId). */
    var playlistSongs: map<(int, int), PlaylistSong>
    /** `downloaded_songs`, keyed by deezerTrackId. */
    var downloadedSongs: map<int, DownloadedSong>
    /** The next id the database hands out to an inserted playlist. */
    var nextPlaylistId: int

    /** Every row is stored under its own primary key, every membership row
        references an existing playlist, and allocated ids are below the
        next one. */
    ghost predicate Valid()
      reads this
      ensures Valid() ==> nextPlaylistId !in playlists
    {
      && 1 <= nextPlaylistId
      && (forall id :: id in playlists ==> playlists[id].id == id && 1 <= id < nextPlaylistId)
      && Keyed(playlistSongs)
      && (forall k :: k in playlistSongs ==> k.0 in playlists)
      && (forall t :: t in downloadedSongs ==> downloadedSongs[t].deezerTrackId == t)
    }

    /** An empty database. */
    constructor ()
      ensures Valid()
      ensures playlists == map[] && playlistSongs == map[] && downloadedSongs == map[]
    {
      playlists, playlistSongs, downloadedSongs := map[], map[], map[];
      nextPlaylistId := 1;
    }

    // ---- Playlists ----

    /** The rows of `playlists`. */
    ghost function PlaylistRows(): set<Playlist>
      reads this
    {
      set id | id in playlists :: playlists[id]
    }

    /** `getAllPlaylists()`: every playlist, newest `createdAt` first. */
    ghost function GetAllPlaylists(): (r: seq<Playlist>)
      reads this
      requires Valid()
      ensures OrderBy.Enumerates(r, PlaylistRows())
      ensures OrderBy.Descending(r, (p: Playlist) => p.createdAt)
      ensures forall p :: p in r <==> p.id in playlists && playlists[p.id] == p
    {
      OrderBy.Desc(PlaylistRows(), (p: Playlist) => p.createdAt)
    }

    /** `insertPlaylist(Playlist(name = name, createdAt = now))`: the id is
        generated by the database and is not used by any existing playlist. */
    method InsertPlaylist(name: string, now: int) returns (id: int)
      requires Valid()
      modifies this
      ensures Valid()
      ensures id !in old(playlists) && id >= 1
      ensures playlists == old(playlists)[id := Playlist(id, name, now)]
      ensures playlistSongs == old(playlistSongs) && downloadedSongs == old(downloadedSongs)
    {
      id := nextPlaylistId;
      playlists := playlists[id := Playlist(id, name, now)];
      nextPlaylistId := nextPlaylistId + 1;
    }

    /** `deletePlaylist(playlist)`: deletes the row with the playlist's primary
        key and, by ON DELETE CASCADE, every membership row of that playlist;
        nothing else changes. */
    method DeletePlaylist(playlist: Playlist)
      requires Valid()
      modifies this
      ensures Valid()
      ensures playlists == old(playlists) - {playlist.id}
      ensures playlistSongs == map k | k in old(playlistSongs) && k.0 != playlist.id :: old(playlistSongs)[k]
      ensures downloadedSongs == old(downloadedSongs) && nextPlaylistId == old(nextPlaylistId)
      ensures GetPlaylistSongCount(playlist.id) == 0
      ensures forall q :: q != playlist.id ==> RowsOf(q) == old(RowsOf(q))
    {
      playlists := playlists - {playlist.id};
      playlistSongs := map k | k in playlistSongs && k.0 != playlist.id :: playlistSongs[k];
    }

    // ---- Playlist songs ----

    /** The rows of one playlist, as a set. */
    ghost function RowsOf(playlistId: int): (rows: set<PlaylistSong>)
      reads this
      requires Valid()
      ensures rows == Rows(playlistSongs, playlistId)
      ensures forall r :: r in rows <==> r.playlistId == playlistId && r.Key() in playlistSongs && playlistSongs[r.Key()] == r
    {
      Rows(playlistSongs, playlistId)
    }

    /** `getSongsForPlaylist(playlistId)`: the playlist's rows, most recently
        added first. */
    ghost function GetSongsForPlaylist(playlistId: int): (r: seq<PlaylistSong>)
      reads this
      requires Valid()
      ensures OrderBy.Enumerates(r, RowsOf(playlistId))
      ensures OrderBy.Descending(r, (ps: PlaylistSong) => ps.addedAt)
    {
      OrderBy.Desc(RowsOf(playlistId), (ps: PlaylistSong) => ps.addedAt)
    }

    /** `addSongToPlaylist(playlistSong)`: an upsert keyed by
        (playlistId, songId). The foreign key makes SQLite reject a row whose
        playlist does not exist (`ok == false`, nothing written). */
    method AddSongToPlaylist(ps: PlaylistSong) returns (ok: bool)
      requires Valid()
      modifies this
      ensures Valid()
      ensures ok <==> ps.playlistId in old(playlists)
      ensures playlistSongs == if ok then old(playlistSongs)[ps.Key() := ps] else old(playlistSongs)
      ensures playlists == old(playlists) && downloadedSongs == old(downloadedSongs)
      ensures nextPlaylistId == old(nextPlaylistId)
      ensures ok ==> HasSong(ps.playlistId, ps.songId) == 1
      ensures ok ==> GetPlaylistSongCount(ps.playlistId)
                     == old(GetPlaylistSongCount(ps.playlistId)) + (if ps.Key() in old(playlistSongs) then 0 else 1)
      ensures forall q :: q != ps.playlistId ==> RowsOf(q) == old(RowsOf(q))
    {
      ok := ps.playlistId in playlists;
      if ok {
        forall q | q != ps.playlistId ensures Rows(playlistSongs[ps.Key() := ps], q) == Rows(playlistSongs, q) {
          OtherPlaylistRows(playlistSongs, playlistSongs[ps.Key() := ps], ps.playlistId, q);
        }
        UpsertRows(playlistSongs, ps);
        playlistSongs := playlistSongs[ps.Key() := ps];
      }
    }

    /** `removeSongFromPlaylist(playlistId, songId)`: deletes that one row if
        present; a no-op otherwise. */
    method RemoveSongFromPlaylist(playlistId: int, songId: int)
      requires Valid()
      modifies this
      ensures Valid()
      ensures playlistSongs == old(playlistSongs) - {(playlistId, songId)}
      ensures playlists == old(playlists) && downloadedSongs == old(downloadedSongs)
      ensures nextPlaylistId == old(nextPlaylistId)
      ensures HasSong(playlistId, songId) == 0
      ensures GetPlaylistSongCount(playlistId)
              == old(GetPlaylistSongCount(playlistId)) - (if (playlistId, songId) in old(playlistSongs) then 1 else 0)
      ensures forall q :: q != playlistId ==> RowsOf(q) == old(RowsOf(q))
    {
      forall q | q != playlistId ensures Rows(playlistSongs - {(playlistId, songId)}, q) == Rows(playlistSongs, q) {
        OtherPlaylistRows(playlistSongs, playlistSongs - {(playlistId, songId)}, playlistId, q);
      }
      RemoveRows(playlistSongs, playlistId, songId);
      playlistSongs := playlistSongs - {(playlistId, songId)};
    }

    /** `getPlaylistSongCount(playlistId)`: COUNT(*) of the playlist's rows. */
    function GetPlaylistSongCount(playlistId: int): (n: int)
      reads this
      requires Valid()
      ensures n == |GetSongsForPlaylist(playlistId)|
      ensures n == 0 <==> forall k :: k in playlistSongs ==> k.0 != playlistId
    {
      var rows := Rows(playlistSongs, playlistId);
      assert (exists k :: k in playlistSongs && k.0 == playlistId) ==> rows != {} by {
        if k :| k in playlistSongs && k.0 == playlistId {
          assert playlistSongs[k] in rows;
        }
      }
      |rows|
    }

    /** `getPlaylistIdsForSong(songId)`: the playlists holding the song. The
        query has no ORDER BY, so the model keeps the ids as a set. */
    function GetPlaylistIdsForSong(songId: int): (ids: set<int>)
      reads this
      requires Valid()
      ensures forall p :: p in ids <==> (p, songId) in playlistSongs
    {
      var ids := set k | k in playlistSongs && playlistSongs[k].songId == songId :: playlistSongs[k].playlistId;
      assert forall p :: (p, songId) in playlistSongs ==> p in ids by {
        forall p | (p, songId) in playlistSongs ensures p in ids {
          var k := (p, songId);
          assert playlistSongs[k].songId == songId;
        }
      }
      ids
    }

    /** `hasSong(playlistId, songId)`: COUNT(*) of rows with that pair, which
        the composite key keeps at 0 or 1. */
    function HasSong(playlistId: int, songId: int): (n: int)
      reads this
      requires Valid()
      ensures n == 0 || n == 1
      ensures n == 1 <==> (playlistId, songId) in playlistSongs
    {
      var k := (playlistId, songId);
      var rows := set k' | k' in playlistSongs && playlistSongs[k'].playlistId == playlistId
                                               && playlistSongs[k'].songId == songId :: playlistSongs[k'];
      if k in playlistSongs then
        assert rows == {playlistSongs[k]};
        |rows|
      else
        assert rows == {};
        |rows|
    }

    // ---- Downloaded songs ----

    /** The rows of `downloaded_songs`. */
    ghost function DownloadRows(): set<DownloadedSong>
      reads this
    {
      set t | t in downloadedSongs :: downloadedSongs[t]
    }

    /** `getAllDownloadedSongs()`: every download, most recent first. */
    ghost function GetAllDownloadedSongs(): (r: seq<DownloadedSong>)
      reads this
      requires Valid()
      ensures OrderBy.Enumerates(r, DownloadRows())
      ensures OrderBy.Descending(r, (d: DownloadedSong) => d.downloadedAt)
      ensures forall d :: d in r <==> d.deezerTrackId in downloadedSongs && downloadedSongs[d.deezerTrackId] == d
    {
      OrderBy.Desc(DownloadRows(), (d: DownloadedSong) => d.downloadedAt)
    }

    /** `insertDownloadedSong(song)`: an upsert keyed by deezerTrackId. */
    method InsertDownloadedSong(d: DownloadedSong)
      requires Valid()
      modifies this
      ensures Valid()
      ensures downloadedSongs == old(downloadedSongs)[d.deezerTrackId := d]
      ensures playlists == old(playlists) && playlistSongs == old(playlistSongs)
      ensures nextPlaylistId == old(nextPlaylistId)
      ensures IsTrackDownloaded(d.deezerTrackId) == 1
    {
      downloadedSongs := downloadedSongs[d.deezerTrackId := d];
    }

    /** `deleteDownloadedSong(deezerTrackId)`: removes that key only. */
    method DeleteDownloadedSong(deezerTrackId: int)
      requires Valid()
      modifies this
      ensures Valid()
      ensures downloadedSongs == old(downloadedSongs) - {deezerTrackId}
      ensures playlists == old(playlists) && playlistSongs == old(playlistSongs)
      ensures nextPlaylistId == old(nextPlaylistId)
      ensures IsTrackDownloaded(deezerTrackId) == 0
    {
      downloadedSongs := downloadedSongs - {deezerTrackId};
    }

    /** `isTrackDownloaded(deezerTrackId)`: COUNT(*) of rows with that key,
        0 or 1. */
    function IsTrackDownloaded(deezerTrackId: int): (n: int)
      reads this
      requires Valid()
      ensures n == 0 || n == 1
      ensures n == 1 <==> deezerTrackId in downloadedSongs
    {
      var rows := set t | t in downloadedSongs && downloadedSongs[t].deezerTrackId == deezerTrackId :: downloadedSongs[t];
      if deezerTrackId in downloadedSongs then
        assert rows == {downloadedSongs[deezerTrackId]};
        |rows|
      else
        assert rows == {};
        |rows|
    }

    /** `getAllDownloadedTrackIds()`: exactly the keys of the table (no ORDER
        BY, so kept as a set). */
    function GetAllDownloadedTrackIds(): (ids: set<int>)
      reads this
      requires Valid()
      ensures forall t :: t in ids <==> t in downloadedSongs
    {
      var ids := set t | t in downloadedSongs :: downloadedSongs[t].deezerTrackId;
      assert forall t :: t in downloadedSongs ==> t in ids by {
        forall t | t in downloadedSongs ensures t in ids {
          assert downloadedSongs[t].deezerTrackId == t;
        }
      }
      assert forall x :: x in ids ==> x in downloadedSongs;
      ids
    }
  }

  /** The scenario of the instrumented DAO test: in an empty database, a new
      playlist does not hold song 42; after adding it the pair is counted once
      and the playlist is listed for the song; re-adding it with a new title
      still counts once and keeps the latest title; removing it leaves none. */
  method AddDetectAndRemove(now: int)
    returns (initially: int, afterAdd: int, listed: bool, afterReAdd: int, rows: int,
             title: string, afterRemove: int)
    ensures initially == 0 && afterAdd == 1 && listed
    ensures afterReAdd == 1 && rows == 1 && title == "Song Updated"
    ensures afterRemove == 0
  {
    var dao := new PlaylistDao();
    var playlistId := dao.InsertPlaylist("Test", now);
    var songId := 42;
    var ps := PlaylistSong(playlistId, songId, "Song", "Artist", 1000,
                           "content://media/external/audio/media/1", None, true, None, None, now);
    initially := dao.HasSong(playlistId, songId);
    var ok := dao.AddSongToPlaylist(ps);
    afterAdd := dao.HasSong(playlistId, songId);
    listed := playlistId in dao.GetPlaylistIdsForSong(songId);
    ok := dao.AddSongToPlaylist(ps.(title := "Song Updated"));
    afterReAdd := dao.HasSong(playlistId, songId);
    rows := dao.GetPlaylistSongCount(playlistId);
    title := dao.playlistSongs[(playlistId, songId)].title;
    dao.RemoveSongFromPlaylist(playlistId, songId);
    afterRemove := dao.HasSong(playlistId, songId);
  }
}
