/**
 * The pure rules of the full-screen player (PlayerScreen.kt): the
 * minutes:seconds text under the progress slider, the "PLAYING FROM" label,
 * the artwork source and when the download button shows.
 */
module Player {
  import opened Optional
  import opened Songs
  import Decimal
  import DeezerModels
  import DownloadedSongs
  import SongRepository

  /** Euclid's division of a non-negative number: the multiple of the
      divisor plus the remainder rebuilds it. */
  lemma DivisionOfNat(n: int, b: int)
    requires n >= 0 && b > 0
    ensures b * (n / b) + n % b == n
    ensures 0 <= b * (n / b) <= n
  {
  }

  /** Kotlin's `/` on Long: the quotient truncated toward zero. With the
      remainder it rebuilds the dividend, and the multiple of the divisor it
      names lies between zero and the dividend. */
  function Quot(a: int, b: int): (q: int)
    requires b > 0
    ensures b * q + Rem(a, b) == a
    ensures a >= 0 ==> 0 <= b * q <= a
    ensures a < 0 ==> a <= b * q <= 0
  {
    if a >= 0 then
      DivisionOfNat(a, b);
      a / b
    else
      DivisionOfNat(-a, b);
      var q := (-a) / b;
      assert b * -q == -(b * q);
      -q
  }

  /** Kotlin's `%` on Long: the remainder takes the sign of the dividend. */
  function Rem(a: int, b: int): (r: int)
    requires b > 0
    ensures a >= 0 ==> r == a % b && 0 <= r < b
    ensures a < 0 ==> r == -((-a) % b) && -b < r <= 0
  {
    if a >= 0 then a % b else -((-a) % b)
  }

  /** The seconds shown: `(ms / 1000) % 60`, between -59 and 59, and the
      whole seconds modulo a minute when the position is not negative. */
  function Seconds(ms: int): (s: int)
    ensures -60 < s < 60
    ensures ms >= 0 ==> s == (ms / 1000) % 60 && 0 <= s
  {
    Rem(Quot(ms, 1000), 60)
  }

  /** The minutes shown: `(ms / (1000 * 60)) % 60`, between -59 and 59, and
      the whole minutes modulo an hour when the position is not negative. */
  function Minutes(ms: int): (m: int)
    ensures -60 < m < 60
    ensures ms >= 0 ==> m == (ms / 60000) % 60 && 0 <= m
  {
    Rem(Quot(ms, 1000 * 60), 60)
  }

  /** `formatTime(ms)`: minutes and seconds, each written as `%02d`,
      joined by ':'; for a position that is not negative, five characters
      with the ':' in the middle. */
  function FormatTime(ms: int): (t: string)
    ensures ms >= 0 ==> |t| == 5 && t[2] == ':'
    ensures ms >= 0 ==> t[..2] == Decimal.TwoDigits(Minutes(ms)) && t[3..] == Decimal.TwoDigits(Seconds(ms))
  {
    Decimal.TwoDigits(Minutes(ms)) + ":" + Decimal.TwoDigits(Seconds(ms))
  }

  /** Dividing by a minute's worth of milliseconds is dividing the whole
      seconds by 60. */
  lemma MinutesFromSeconds(a: int)
    requires a >= 0
    ensures a / 60000 == (a / 1000) / 60
  {
    var q := a / 1000;
    var p := q / 60;
    assert a == 1000 * q + a % 1000;
    assert q == 60 * p + q % 60;
    assert a == 60000 * p + (1000 * (q % 60) + a % 1000);
  }

  /** For a position that is not negative, the minutes and seconds shown are
      the whole minutes and seconds modulo an hour and a minute. */
  lemma NonNegativeParts(ms: int)
    requires ms >= 0
    ensures Seconds(ms) == (ms / 1000) % 60 && 0 <= Seconds(ms) < 60
    ensures Minutes(ms) == ((ms / 1000) / 60) % 60 && 0 <= Minutes(ms) < 60
  {
    MinutesFromSeconds(ms);
  }

  /** For a position that is not negative the text is always five
      characters: two digits of minutes, ':', two digits of seconds. */
  lemma FormatTimeShape(ms: int)
    requires ms >= 0
    ensures var t := FormatTime(ms);
      var m := Minutes(ms);
      var s := Seconds(ms);
      0 <= m < 60 && 0 <= s < 60
      && |t| == 5 && t[2] == ':'
      && t == [Decimal.DigitChar(m / 10), Decimal.DigitChar(m % 10), ':',
               Decimal.DigitChar(s / 10), Decimal.DigitChar(s % 10)]
      && Decimal.IsDigit(t[0]) && Decimal.IsDigit(t[1]) && Decimal.IsDigit(t[3]) && Decimal.IsDigit(t[4])
  {
    NonNegativeParts(ms);
  }

  /** One minute and one second reads "01:01". */
  lemma FormatTimeExample()
    ensures FormatTime(61000) == "01:01"
  {
    FormatTimeShape(61000);
    assert Seconds(61000) == 1 && Minutes(61000) == 1;
  }

  /** Whole hours are dropped: the text wraps every hour. */
  lemma FormatTimeDropsHours(ms: int)
    requires ms >= 0
    ensures FormatTime(ms + 3600000) == FormatTime(ms)
  {
    HourLaterParts(ms);
  }

  lemma HourLaterParts(ms: int)
    requires ms >= 0
    ensures Seconds(ms + 3600000) == Seconds(ms) && Minutes(ms + 3600000) == Minutes(ms)
  {
    NonNegativeParts(ms);
    NonNegativeParts(ms + 3600000);
    HourLaterSeconds(ms);
    HourInSeconds(ms / 1000);
  }

  /** An hour later is 3600 whole seconds later. */
  lemma HourLaterSeconds(ms: int)
    requires ms >= 0
    ensures (ms + 3600000) / 1000 == ms / 1000 + 3600
  {
  }

  /** 3600 seconds change neither the seconds nor the minutes of an hour. */
  lemma HourInSeconds(q: int)
    requires q >= 0
    ensures (q + 3600) % 60 == q % 60
    ensures ((q + 3600) / 60) % 60 == (q / 60) % 60
  {
    assert (q + 3600) / 60 == q / 60 + 60;
  }

  /** The sub-second part never shows, on either side of zero. */
  lemma FormatTimeIgnoresMillis(ms: int)
    ensures FormatTime(ms - Rem(ms, 1000)) == FormatTime(ms)
  {
    if ms >= 0 {
      WholeSecondParts(ms);
    } else {
      NegativeWholeSecondParts(ms);
    }
  }

  /** Dropping the milliseconds of a negative position keeps its parts:
      both truncate toward zero. */
  lemma NegativeWholeSecondParts(ms: int)
    requires ms < 0
    ensures Seconds(ms - Rem(ms, 1000)) == Seconds(ms) && Minutes(ms - Rem(ms, 1000)) == Minutes(ms)
  {
    var w := ms - Rem(ms, 1000);
    var n := -ms;
    assert Rem(ms, 1000) == -Rem(n, 1000);
    assert w == -(n - Rem(n, 1000));
    WholeSecondParts(n);
    NegatedParts(ms);
    NegatedParts(w);
  }

  /** Dropping the milliseconds of a non-negative position keeps its parts. */
  lemma WholeSecondParts(ms: int)
    requires ms >= 0
    ensures Seconds(ms - Rem(ms, 1000)) == Seconds(ms) && Minutes(ms - Rem(ms, 1000)) == Minutes(ms)
  {
    var w := ms - Rem(ms, 1000);
    assert w == 1000 * (ms / 1000);
    assert w / 1000 == ms / 1000;
    NonNegativeParts(ms);
    NonNegativeParts(w);
  }

  /** Truncating division makes the parts of a negative position the
      negated parts of its absolute value. */
  lemma NegatedParts(ms: int)
    requires ms <= 0
    ensures Seconds(ms) == -Seconds(-ms) && Minutes(ms) == -Minutes(-ms)
  {
  }

  /** The "PLAYING FROM" text: the album name when there is one, otherwise
      where the song comes from. */
  function PlayingFrom(song: Song): (text: string)
    ensures song.albumName.Some? ==> text == song.albumName.value
    ensures song.albumName.None? && song.isLocal ==> text == "Local Music"
    ensures song.albumName.None? && !song.isLocal ==> text == "Deezer"
  {
    song.albumName.GetOr(if song.isLocal then "Local Music" else "Deezer")
  }

  /** A streamed Deezer track shows its album; a song found on the device
      shows "Local Music"; a downloaded track shows the album it was saved
      with. */
  lemma PlayingFromBySource(t: DeezerModels.DeezerTrack, row: SongRepository.CursorRow,
                            d: DownloadedSongs.DownloadedSong)
    ensures PlayingFrom(DeezerModels.ToSong(t)) == t.album.title
    ensures PlayingFrom(SongRepository.RowToSong(row)) == "Local Music"
    ensures PlayingFrom(DownloadedSongs.ToSong(d)) == d.albumName.GetOr("Local Music")
  {
    DeezerModels.ToSongCopiesMetadata(t);
    DownloadedSongs.ToSongCopiesMetadata(d);
  }

  /** The download button shows only for songs that are not on the device. */
  function ShowsDownloadButton(song: Song): (shown: bool)
    ensures shown <==> !song.isLocal
  {
    !song.isLocal
  }

  /** A streamed track offers the download; once downloaded, or when found
      on the device, it does not. */
  lemma DownloadButtonBySource(t: DeezerModels.DeezerTrack, row: SongRepository.CursorRow,
                               d: DownloadedSongs.DownloadedSong)
    ensures ShowsDownloadButton(DeezerModels.ToSong(t))
    ensures !ShowsDownloadButton(SongRepository.RowToSong(row))
    ensures !ShowsDownloadButton(DownloadedSongs.ToSong(d))
  {
  }

  /** Where the artwork is loaded from: the picture embedded in the audio
      file, or an image URI. */
  datatype Artwork = Embedded(audioUri: string) | Image(uri: Option<string>)

  /** A local song that has album art shows the picture embedded in its
      audio file; any other song loads its art URI (possibly none). */
  function ArtworkOf(song: Song): (a: Artwork)
    ensures a.Embedded? <==> song.isLocal && song.albumArtUri.Some?
    ensures a.Embedded? ==> a.audioUri == song.path
    ensures a.Image? ==> a.uri == song.albumArtUri
  {
    if song.isLocal && song.albumArtUri.Some? then Embedded(song.path) else Image(song.albumArtUri)
  }
}
