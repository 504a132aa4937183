/**
 * The data the home screen derives from its inputs (HomeScreen.kt): the
 * greeting, the "Top Artists" row, the featured banner, the trending
 * carousel, the quick-play grid and the download marks.
 */
module Home {
  import opened Optional
  import opened Songs
  import DeezerModels

  /** The greeting for an hour of the day (0 to 23). */
  function Greeting(hour: int): (g: string)
    ensures g == "Good morning" <==> hour < 12
    ensures g == "Good afternoon" <==> 12 <= hour < 18
    ensures g == "Good evening" <==> 18 <= hour
  {
    if hour < 12 then "Good morning"
    else if hour < 18 then "Good afternoon"
    else "Good evening"
  }

  /** Kotlin's `take(n)`. */
  function Take<T>(s: seq<T>, n: nat): (r: seq<T>)
    ensures |r| <= n && (|s| <= n ==> r == s)
    ensures |r| == if |s| < n then |s| else n
    ensures r == s[..|r|]
  {
    if |s| <= n then s else s[..n]
  }

  /** An artist and the album art of the track it was taken from. */
  type ArtistEntry = (string, Option<string>)

  function ArtistEntries(songs: seq<Song>): (r: seq<ArtistEntry>)
    ensures |r| == |songs|
    ensures forall i :: 0 <= i < |r| ==> r[i] == (songs[i].artist, songs[i].albumArtUri)
  {
    seq(|songs|, i requires 0 <= i < |songs| => (songs[i].artist, songs[i].albumArtUri))
  }

  /** `distinctBy { it.first }` keeps the entry at index k exactly when no
      earlier entry has the same artist. */
  predicate FirstOfItsArtist(entries: seq<ArtistEntry>, k: int)
    requires 0 <= k < |entries|
  {
    forall j :: 0 <= j < k ==> entries[j].0 != entries[k].0
  }

  /** The indices `distinctBy` keeps among the first n entries, in order. */
  function KeptIndices(entries: seq<ArtistEntry>, n: nat): (idx: seq<int>)
    requires n <= |entries|
    ensures forall i :: 0 <= i < |idx| ==> 0 <= idx[i] < n
    ensures forall i, j :: 0 <= i < j < |idx| ==> idx[i] < idx[j]
    ensures forall k :: 0 <= k < n ==> (k in idx <==> FirstOfItsArtist(entries, k))
  {
    if n == 0 then []
    else
      var prev := KeptIndices(entries, n - 1);
      if FirstOfItsArtist(entries, n - 1) then prev + [n - 1] else prev
  }

  /** `distinctBy { it.first }`: the entries that are first of their
      artist, in their original order. */
  function DistinctByArtist(entries: seq<ArtistEntry>): (r: seq<ArtistEntry>)
    ensures var idx := KeptIndices(entries, |entries|);
      |r| == |idx| && forall i :: 0 <= i < |r| ==> r[i] == entries[idx[i]]
  {
    var idx := KeptIndices(entries, |entries|);
    seq(|idx|, i requires 0 <= i < |idx| => entries[idx[i]])
  }

  /** The "Top Artists" row: the first ten distinct artists of the trending
      list with the art of their first track. */
  function TopArtists(trending: seq<Song>): (top: seq<ArtistEntry>)
    ensures var distinct := DistinctByArtist(ArtistEntries(trending));
      |top| == (if |distinct| < 10 then |distinct| else 10) && top == distinct[..|top|]
  {
    Take(DistinctByArtist(ArtistEntries(trending)), 10)
  }

  /** No artist appears twice among the distinct entries. */
  lemma DistinctArtistsDiffer(entries: seq<ArtistEntry>)
    ensures var r := DistinctByArtist(entries);
      forall i, j :: 0 <= i < j < |r| ==> r[i].0 != r[j].0
  {
    var idx := KeptIndices(entries, |entries|);
    forall i, j | 0 <= i < j < |idx| ensures entries[idx[i]].0 != entries[idx[j]].0 {
      assert idx[j] in idx;
      assert FirstOfItsArtist(entries, idx[j]);
    }
  }

  /** Every artist of the input keeps exactly one entry: the first one. */
  lemma {:induction false} EveryArtistKept(entries: seq<ArtistEntry>, k: int)
    requires 0 <= k < |entries|
    ensures exists i :: 0 <= i < |DistinctByArtist(entries)|
                        && DistinctByArtist(entries)[i].0 == entries[k].0
    decreases k
  {
    var idx := KeptIndices(entries, |entries|);
    if FirstOfItsArtist(entries, k) {
      var i :| 0 <= i < |idx| && idx[i] == k;
      assert DistinctByArtist(entries)[i] == entries[k];
    } else {
      var j :| 0 <= j < k && entries[j].0 == entries[k].0;
      EveryArtistKept(entries, j);
    }
  }

  /** The entry at some index is the first of its artist. */
  predicate IsFirstEntry(entries: seq<ArtistEntry>, x: ArtistEntry) {
    exists k :: 0 <= k < |entries| && x == entries[k] && FirstOfItsArtist(entries, k)
  }

  /** Each entry kept is the first entry of its artist (and, by
      `KeptIndices`, they come in order of first appearance). */
  lemma DistinctKeepsFirst(entries: seq<ArtistEntry>)
    ensures var r := DistinctByArtist(entries);
      forall i :: 0 <= i < |r| ==> IsFirstEntry(entries, r[i])
  {
    var r := DistinctByArtist(entries);
    var idx := KeptIndices(entries, |entries|);
    forall i | 0 <= i < |r| ensures IsFirstEntry(entries, r[i]) {
      var k := idx[i];
      assert k in idx;
      assert 0 <= k < |entries| && r[i] == entries[k] && FirstOfItsArtist(entries, k);
    }
  }

  /** The "Top Artists" row has at most ten entries, all with different
      artists, each an artist of the trending list. */
  lemma TopArtistsBounded(trending: seq<Song>)
    ensures var top := TopArtists(trending);
      |top| <= 10
      && (forall i, j :: 0 <= i < j < |top| ==> top[i].0 != top[j].0)
      && (forall i :: 0 <= i < |top| ==>
            exists k :: 0 <= k < |trending| && top[i] == (trending[k].artist, trending[k].albumArtUri))
  {
    var entries := ArtistEntries(trending);
    DistinctArtistsDiffer(entries);
    DistinctKeepsFirst(entries);
    forall i | 0 <= i < |TopArtists(trending)|
      ensures exists k :: 0 <= k < |trending| && TopArtists(trending)[i] == (trending[k].artist, trending[k].albumArtUri)
    {
      assert IsFirstEntry(entries, DistinctByArtist(entries)[i]);
    }
  }

  /** With ten or fewer distinct artists, every trending artist shows. */
  lemma FewArtistsAllShown(trending: seq<Song>, k: int)
    requires 0 <= k < |trending|
    requires |DistinctByArtist(ArtistEntries(trending))| <= 10
    ensures exists i :: 0 <= i < |TopArtists(trending)| && TopArtists(trending)[i].0 == trending[k].artist
  {
    var entries := ArtistEntries(trending);
    EveryArtistKept(entries, k);
    var i :| 0 <= i < |DistinctByArtist(entries)| && DistinctByArtist(entries)[i].0 == entries[k].0;
    assert TopArtists(trending) == DistinctByArtist(entries);
    assert TopArtists(trending)[i].0 == trending[k].artist;
  }

  /** Kotlin's `chunked(2)`: consecutive pairs, the last one possibly a
      single song. */
  function Pairs<T>(s: seq<T>): (rows: seq<seq<T>>)
    ensures |rows| == (|s| + 1) / 2
    ensures forall i :: 0 <= i < |rows| ==> 1 <= |rows[i]| <= 2
    decreases |s|
  {
    if |s| == 0 then []
    else if |s| == 1 then [s]
    else [s[..2]] + Pairs(s[2..])
  }

  function Flatten<T>(rows: seq<seq<T>>): seq<T> {
    if |rows| == 0 then [] else rows[0] + Flatten(rows[1..])
  }

  /** Joining the rows gives back the songs, every row but the last has two
      songs, and the last has one exactly when the count is odd. */
  lemma {:induction false} PairsShape<T>(s: seq<T>)
    ensures Flatten(Pairs(s)) == s
    ensures |Pairs(s)| == (|s| + 1) / 2
    ensures forall i :: 0 <= i < |Pairs(s)| - 1 ==> |Pairs(s)[i]| == 2
    ensures |Pairs(s)| > 0 ==> |Pairs(s)[|Pairs(s)| - 1]| == 2 - |s| % 2
    decreases |s|
  {
    if |s| >= 2 {
      PairsShape(s[2..]);
      var rows := Pairs(s);
      assert rows[1..] == Pairs(s[2..]);
      assert Flatten(rows) == s[..2] + s[2..];
      forall i | 0 <= i < |rows| - 1 ensures |rows[i]| == 2 {
        if i > 0 { assert rows[i] == Pairs(s[2..])[i - 1]; }
      }
    }
  }

  /** A row pads with a spacer exactly when it holds a single song. */
  predicate HasSpacer(row: seq<Song>) {
    |row| == 1
  }

  /** The quick-play grid: the first six local songs, two per row; only the
      last row can need a spacer, and it does when the count shown is odd. */
  function QuickPlayRows(local: seq<Song>): (rows: seq<seq<Song>>)
    ensures Flatten(rows) == Take(local, 6)
    ensures |rows| <= 3
    ensures forall i :: 0 <= i < |rows| ==> 1 <= |rows[i]| <= 2
    ensures forall i :: 0 <= i < |rows| && HasSpacer(rows[i]) ==> i == |rows| - 1
    ensures |rows| > 0 ==> (HasSpacer(rows[|rows| - 1]) <==> |Take(local, 6)| % 2 == 1)
  {
    PairsShape(Take(local, 6));
    Pairs(Take(local, 6))
  }

  /** The trending carousel: the first twenty trending songs. */
  function Carousel(trending: seq<Song>): (shown: seq<Song>)
    ensures |shown| == if |trending| < 20 then |trending| else 20
    ensures shown == trending[..|shown|]
  {
    Take(trending, 20)
  }

  datatype Banner = Shimmer | Featured(song: Song) | NoBanner

  /** The featured banner: a placeholder while loading, then the top
      trending song if there is one. */
  function FeaturedBanner(isLoading: bool, trending: seq<Song>): (b: Banner)
    ensures b.Shimmer? <==> isLoading
    ensures b.Featured? <==> !isLoading && |trending| > 0
    ensures b.Featured? ==> b.song == trending[0]
  {
    if isLoading then Shimmer
    else if |trending| > 0 then Featured(trending[0])
    else NoBanner
  }

  /** What a "Popular Tracks" row shows after its add-to-playlist button. */
  datatype Trailing = DownloadedMark | DownloadButton | Nothing

  function PopularTrailing(song: Song, downloadedTrackIds: set<int>): (t: Trailing)
    ensures t.DownloadedMark? <==> song.deezerTrackId.Some? && song.deezerTrackId.value in downloadedTrackIds
    ensures t.DownloadButton? <==> !t.DownloadedMark? && !song.isLocal
  {
    if song.deezerTrackId.Some? && song.deezerTrackId.value in downloadedTrackIds then DownloadedMark
    else if !song.isLocal then DownloadButton
    else Nothing
  }

  /** `song.deezerTrackId in downloadedTrackIds` on a trending card: a song
      without a Deezer id is never marked. */
  function CardIsDownloaded(song: Song, downloadedTrackIds: set<int>): (marked: bool)
    ensures marked <==> song.deezerTrackId.Some? && song.deezerTrackId.value in downloadedTrackIds
  {
    match song.deezerTrackId
    case Some(id) => id in downloadedTrackIds
    case None => false
  }

  /** For a streamed Deezer track the card and the list agree: marked when
      its track id is downloaded, offered for download otherwise. */
  lemma DeezerTrackMarks(t: DeezerModels.DeezerTrack, downloadedTrackIds: set<int>)
    ensures CardIsDownloaded(DeezerModels.ToSong(t), downloadedTrackIds) <==> t.id in downloadedTrackIds
    ensures PopularTrailing(DeezerModels.ToSong(t), downloadedTrackIds)
            == if t.id in downloadedTrackIds then DownloadedMark else DownloadButton
  {
  }
}
