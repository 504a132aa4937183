/**
 * The playback view model (MusicViewModel.kt): the song list, the current
 * song and playing flag mirrored from the media controller, the custom
 * folder preference, and the commands it forwards to the controller.
 *
 * The controller lives in another process; here it is a value holding what
 * the view model can read from it (its current media id and whether it is
 * playing) and the commands sent to it so far, in order. Changes on the
 * player side reach the view model only through the listener callbacks
 * `OnMediaItemTransition` and `OnIsPlayingChanged`.
 */
module Playback {
  import opened Optional
  import opened Songs
  import Decimal
  import SongRepository

  /** The media item built for a song. */
  datatype MediaItem = MediaItem(
    mediaId: string, uri: string, title: string, artist: string, artworkUri: Option<string>)

  datatype Command =
    | SetMediaItem(item: MediaItem)
    | Prepare
    | Play
    | Pause
    | Stop
    | SeekTo(positionMs: int)
    | SeekToNextMediaItem
    | SeekToPreviousMediaItem

  /** The connected media controller as the view model sees it. */
  datatype Controller = Controller(currentMediaId: Option<string>, isPlaying: bool, issued: seq<Command>)

  /** The preferences file key holding the custom folder URI. */
  const CustomFolderKey: string := "custom_folder_uri"

  /** The id under which a song is handed to the player. */
  function MediaIdOf(song: Song): (m: string)
    ensures |m| >= 1 && (song.id < 0 <==> m[0] == '-')
    ensures forall n :: Decimal.IntToString(n) == m ==> n == song.id
  {
    assert forall n :: Decimal.IntToString(n) == Decimal.IntToString(song.id) ==> n == song.id by {
      forall n | Decimal.IntToString(n) == Decimal.IntToString(song.id) ensures n == song.id {
        Decimal.IntToStringInjective(n, song.id);
      }
    }
    Decimal.IntToString(song.id)
  }

  /** The media item `playSong` builds: the song's id as media id, its path
      as URI, its title, artist and album art as metadata. */
  function ItemFor(song: Song): (item: MediaItem)
    ensures item.mediaId == MediaIdOf(song) && item.uri == song.path
    ensures item.title == song.title && item.artist == song.artist && item.artworkUri == song.albumArtUri
  {
    MediaItem(MediaIdOf(song), song.path, song.title, song.artist, song.albumArtUri)
  }

  /** `songs.find { it.id.toString() == mediaId }`: the first song whose id
      reads as the media id. */
  function FindSong(songs: seq<Song>, mediaId: string): (r: Option<Song>)
    ensures r.None? <==> forall i :: 0 <= i < |songs| ==> MediaIdOf(songs[i]) != mediaId
    ensures r.Some? ==> exists i :: 0 <= i < |songs| && songs[i] == r.value
                                    && MediaIdOf(songs[i]) == mediaId
                                    && forall j :: 0 <= j < i ==> MediaIdOf(songs[j]) != mediaId
  {
    if |songs| == 0 then None
    else if MediaIdOf(songs[0]) == mediaId then Some(songs[0])
    else
      var r := FindSong(songs[1..], mediaId);
      if r.Some? then
        var i :| 0 <= i < |songs[1..]| && songs[1..][i] == r.value
                 && MediaIdOf(songs[1..][i]) == mediaId
                 && forall j :: 0 <= j < i ==> MediaIdOf(songs[1..][j]) != mediaId;
        assert songs[i + 1] == r.value;
        assert forall j :: 0 <= j < i + 1 ==> MediaIdOf(songs[j]) != mediaId by {
          forall j | 0 <= j < i + 1 ensures MediaIdOf(songs[j]) != mediaId {
            if j > 0 { assert songs[j] == songs[1..][j - 1]; }
          }
        }
        r
      else
        assert forall i :: 0 <= i < |songs| ==> MediaIdOf(songs[i]) != mediaId by {
          forall i | 0 <= i < |songs| ensures MediaIdOf(songs[i]) != mediaId {
            if i > 0 { assert songs[i] == songs[1..][i - 1]; }
          }
        }
        r
  }

  /** Looking up a song's own media id finds the first song with the same
      numeric id: the string comparison is an id comparison. */
  lemma FindSongById(songs: seq<Song>, id: int)
    ensures var r := FindSong(songs, Decimal.IntToString(id));
      (r.None? <==> forall i :: 0 <= i < |songs| ==> songs[i].id != id)
      && (r.Some? ==> r.value.id == id && r.value in songs)
  {
    var r := FindSong(songs, Decimal.IntToString(id));
    forall i | 0 <= i < |songs| && MediaIdOf(songs[i]) == Decimal.IntToString(id)
      ensures songs[i].id == id
    {
      Decimal.IntToStringInjective(songs[i].id, id);
    }
    if r.Some? {
      var i :| 0 <= i < |songs| && songs[i] == r.value && MediaIdOf(songs[i]) == Decimal.IntToString(id);
      assert songs[i].id == id;
    }
  }

  /** When the player reports the item `playSong` built, the view model
      resolves it back to that song, provided the list has no other song
      with the same id. */
  lemma PlayedItemResolves(songs: seq<Song>, song: Song)
    requires song in songs
    requires forall i :: 0 <= i < |songs| && songs[i].id == song.id ==> songs[i] == song
    ensures FindSong(songs, ItemFor(song).mediaId) == Some(song)
  {
    FindSongById(songs, song.id);
  }

  class MusicViewModel {
    var controller: Option<Controller>
    var songs: seq<Song>
    var currentSong: Option<Song>
    var isPlaying: bool
    var progress: int
    var customFolderUri: Option<string>
    /** Whether `setContext` has run (the application context is set). */
    var hasContext: bool
    /** The "music_prefs" shared preferences. */
    var preferences: map<string, string>

    /** A fresh view model over the preferences stored on the device. */
    constructor (preferences: map<string, string>)
      ensures this.controller.None? && this.songs == [] && this.currentSong.None?
      ensures !this.isPlaying && this.progress == 0
      ensures this.customFolderUri.None? && !this.hasContext
      ensures this.preferences == preferences
    {
      this.controller := None;
      this.songs := [];
      this.currentSong := None;
      this.isPlaying := false;
      this.progress := 0;
      this.customFolderUri := None;
      this.hasContext := false;
      this.preferences := preferences;
    }

    /** The stored custom folder, as `loadPreferences` reads it. */
    function StoredFolder(): (uri: Option<string>)
      reads this
      ensures uri.Some? <==> CustomFolderKey in preferences
      ensures uri.Some? ==> uri.value == preferences[CustomFolderKey]
    {
      if CustomFolderKey in preferences then Some(preferences[CustomFolderKey]) else None
    }

    /** `loadSongs()`: without a context nothing happens; otherwise the song
        list becomes the songs of the current folder. */
    method LoadSongs(store: SongRepository.MediaStore)
      modifies this
      ensures !old(hasContext) ==> unchanged(this)
      ensures old(hasContext) ==> songs == SongRepository.FolderSongs(store, customFolderUri)
      ensures controller == old(controller) && currentSong == old(currentSong)
      ensures isPlaying == old(isPlaying) && progress == old(progress)
      ensures customFolderUri == old(customFolderUri) && hasContext == old(hasContext)
      ensures preferences == old(preferences)
    {
      if !hasContext {
        return;
      }
      songs := SongRepository.GetSongs(store, customFolderUri);
    }

    /** `setContext(context)`: only the first call counts; it reads the
        stored folder and loads its songs. */
    method SetContext(store: SongRepository.MediaStore)
      modifies this
      ensures old(hasContext) ==> unchanged(this)
      ensures !old(hasContext) ==>
                hasContext && customFolderUri == old(StoredFolder())
                && songs == SongRepository.FolderSongs(store, customFolderUri)
      ensures controller == old(controller) && currentSong == old(currentSong)
      ensures isPlaying == old(isPlaying) && progress == old(progress)
      ensures preferences == old(preferences)
    {
      if hasContext {
        return;
      }
      hasContext := true;
      customFolderUri := StoredFolder();
      LoadSongs(store);
    }

    /** `setCustomFolder(uri)`: records the folder, saves it when a context
        is set (a null URI removes the stored key), and reloads the songs. */
    method SetCustomFolder(uri: Option<string>, store: SongRepository.MediaStore)
      modifies this
      ensures customFolderUri == uri
      ensures !old(hasContext) ==> preferences == old(preferences) && songs == old(songs)
      ensures old(hasContext) && uri.Some? ==> preferences == old(preferences)[CustomFolderKey := uri.value]
      ensures old(hasContext) && uri.None? ==> preferences == old(preferences) - {CustomFolderKey}
      ensures old(hasContext) ==> songs == SongRepository.FolderSongs(store, uri)
      ensures old(hasContext) ==> StoredFolder() == uri
      ensures controller == old(controller) && currentSong == old(currentSong)
      ensures isPlaying == old(isPlaying) && progress == old(progress) && hasContext == old(hasContext)
    {
      customFolderUri := uri;
      if hasContext {
        if uri.Some? {
          preferences := preferences[CustomFolderKey := uri.value];
        } else {
          preferences := preferences - {CustomFolderKey};
        }
      }
      LoadSongs(store);
    }

    /** `loadRemoteSongs()`: the song list becomes the sample songs. */
    method LoadRemoteSongs()
      modifies this
      ensures songs == SongRepository.GetRemoteSongs()
      ensures controller == old(controller) && currentSong == old(currentSong)
      ensures isPlaying == old(isPlaying) && progress == old(progress)
      ensures customFolderUri == old(customFolderUri) && hasContext == old(hasContext)
      ensures preferences == old(preferences)
    {
      songs := SongRepository.GetRemoteSongs();
    }

    /** `updateCurrentSong(mediaItem)`: a null media id leaves the current
        song alone; otherwise it becomes the first song with that id, or
        none when the list has no such song. */
    method UpdateCurrentSong(mediaId: Option<string>)
      modifies this
      ensures mediaId.None? ==> currentSong == old(currentSong)
      ensures mediaId.Some? ==> currentSong == FindSong(songs, mediaId.value)
      ensures mediaId.Some? && currentSong.Some? ==> currentSong.value in songs
      ensures controller == old(controller) && songs == old(songs)
      ensures isPlaying == old(isPlaying) && progress == old(progress)
      ensures customFolderUri == old(customFolderUri) && hasContext == old(hasContext)
      ensures preferences == old(preferences)
    {
      if mediaId.Some? {
        currentSong := FindSong(songs, mediaId.value);
        if currentSong.Some? {
          var i :| 0 <= i < |songs| && songs[i] == currentSong.value && MediaIdOf(songs[i]) == mediaId.value;
        }
      }
    }

    /** `initializeController(context)` once the controller is connected:
        a second call is ignored; otherwise the view model adopts the
        controller and restores the current song and playing flag from it. */
    method InitializeController(connected: Controller)
      modifies this
      ensures old(controller).Some? ==> unchanged(this)
      ensures old(controller).None? ==>
                controller == Some(connected) && isPlaying == connected.isPlaying
                && (connected.currentMediaId.None? ==> currentSong == old(currentSong))
                && (connected.currentMediaId.Some? ==> currentSong == FindSong(songs, connected.currentMediaId.value))
      ensures songs == old(songs) && progress == old(progress)
      ensures customFolderUri == old(customFolderUri) && hasContext == old(hasContext)
      ensures preferences == old(preferences)
    {
      if controller.Some? {
        return;
      }
      controller := Some(connected);
      UpdateCurrentSong(connected.currentMediaId);
      isPlaying := connected.isPlaying;
    }

    /** The `onMediaItemTransition` callback: the player moved to another
        item (or to none). */
    method OnMediaItemTransition(mediaId: Option<string>)
      requires controller.Some?
      modifies this
      ensures controller == Some(old(controller).value.(currentMediaId := mediaId))
      ensures mediaId.None? ==> currentSong == old(currentSong)
      ensures mediaId.Some? ==> currentSong == FindSong(songs, mediaId.value)
      ensures songs == old(songs) && isPlaying == old(isPlaying) && progress == old(progress)
      ensures customFolderUri == old(customFolderUri) && hasContext == old(hasContext)
      ensures preferences == old(preferences)
    {
      controller := Some(controller.value.(currentMediaId := mediaId));
      UpdateCurrentSong(mediaId);
    }

    /** The `onIsPlayingChanged` callback. */
    method OnIsPlayingChanged(playing: bool)
      requires controller.Some?
      modifies this
      ensures controller == Some(old(controller).value.(isPlaying := playing))
      ensures isPlaying == playing
      ensures songs == old(songs) && currentSong == old(currentSong) && progress == old(progress)
      ensures customFolderUri == old(customFolderUri) && hasContext == old(hasContext)
      ensures preferences == old(preferences)
    {
      controller := Some(controller.value.(isPlaying := playing));
      isPlaying := playing;
    }

    /** One turn of the progress loop: with a controller, the progress
        becomes the player's current position. */
    method ProgressTick(currentPosition: int)
      modifies this
      ensures controller.Some? ==> progress == currentPosition
      ensures controller.None? ==> progress == old(progress)
      ensures controller == old(controller) && songs == old(songs) && currentSong == old(currentSong)
      ensures isPlaying == old(isPlaying)
      ensures customFolderUri == old(customFolderUri) && hasContext == old(hasContext)
      ensures preferences == old(preferences)
    {
      if controller.Some? {
        progress := currentPosition;
      }
    }

    /** Sends commands to the controller, if there is one. */
    method Issue(commands: seq<Command>)
      modifies this
      ensures old(controller).None? ==> controller.None?
      ensures old(controller).Some? ==>
                controller == Some(old(controller).value.(issued := old(controller).value.issued + commands))
      ensures songs == old(songs) && currentSong == old(currentSong)
      ensures isPlaying == old(isPlaying) && progress == old(progress)
      ensures customFolderUri == old(customFolderUri) && hasContext == old(hasContext)
      ensures preferences == old(preferences)
    {
      if controller.Some? {
        controller := Some(controller.value.(issued := controller.value.issued + commands));
      }
    }

    /** `playSong(song)`: without a controller nothing happens. When the
        controller is already on this song it is only resumed (and left alone
        if playing); otherwise the song replaces the controller's items and
        is prepared and played. */
    method PlaySong(song: Song)
      modifies this
      ensures old(controller).None? ==> controller.None?
      ensures old(controller).Some? && old(controller).value.currentMediaId == Some(MediaIdOf(song)) ==>
                controller == Some(old(controller).value.(issued := old(controller).value.issued
                                     + (if old(controller).value.isPlaying then [] else [Play])))
      ensures old(controller).Some? && old(controller).value.currentMediaId != Some(MediaIdOf(song)) ==>
                controller == Some(old(controller).value.(issued := old(controller).value.issued
                                     + [SetMediaItem(ItemFor(song)), Prepare, Play]))
      ensures songs == old(songs) && currentSong == old(currentSong)
      ensures isPlaying == old(isPlaying) && progress == old(progress)
      ensures customFolderUri == old(customFolderUri) && hasContext == old(hasContext)
      ensures preferences == old(preferences)
    {
      if controller.None? {
        return;
      }
      if controller.value.currentMediaId == Some(MediaIdOf(song)) {
        if !controller.value.isPlaying {
          Issue([Play]);
        } else {
          assert controller.value.issued + [] == controller.value.issued;
        }
        return;
      }
      Issue([SetMediaItem(ItemFor(song)), Prepare, Play]);
    }

    method SeekTo(positionMs: int)
      modifies this
      ensures old(controller).None? ==> controller.None?
      ensures old(controller).Some? ==>
                controller == Some(old(controller).value.(issued := old(controller).value.issued + [Command.SeekTo(positionMs)]))
      ensures songs == old(songs) && currentSong == old(currentSong)
      ensures isPlaying == old(isPlaying) && progress == old(progress)
      ensures customFolderUri == old(customFolderUri) && hasContext == old(hasContext)
      ensures preferences == old(preferences)
    {
      Issue([Command.SeekTo(positionMs)]);
    }

    method Stop()
      modifies this
      ensures old(controller).None? ==> controller.None?
      ensures old(controller).Some? ==>
                controller == Some(old(controller).value.(issued := old(controller).value.issued + [Command.Stop]))
      ensures songs == old(songs) && currentSong == old(currentSong)
      ensures isPlaying == old(isPlaying) && progress == old(progress)
      ensures customFolderUri == old(customFolderUri) && hasContext == old(hasContext)
      ensures preferences == old(preferences)
    {
      Issue([Command.Stop]);
    }

    method Pause()
      modifies this
      ensures old(controller).None? ==> controller.None?
      ensures old(controller).Some? ==>
                controller == Some(old(controller).value.(issued := old(controller).value.issued + [Command.Pause]))
      ensures songs == old(songs) && currentSong == old(currentSong)
      ensures isPlaying == old(isPlaying) && progress == old(progress)
      ensures customFolderUri == old(customFolderUri) && hasContext == old(hasContext)
      ensures preferences == old(preferences)
    {
      Issue([Command.Pause]);
    }

    method Resume()
      modifies this
      ensures old(controller).None? ==> controller.None?
      ensures old(controller).Some? ==>
                controller == Some(old(controller).value.(issued := old(controller).value.issued + [Play]))
      ensures songs == old(songs) && currentSong == old(currentSong)
      ensures isPlaying == old(isPlaying) && progress == old(progress)
      ensures customFolderUri == old(customFolderUri) && hasContext == old(hasContext)
      ensures preferences == old(preferences)
    {
      Issue([Play]);
    }

    method SkipToNext()
      modifies this
      ensures old(controller).None? ==> controller.None?
      ensures old(controller).Some? ==>
                controller == Some(old(controller).value.(issued := old(controller).value.issued + [SeekToNextMediaItem]))
      ensures songs == old(songs) && currentSong == old(currentSong)
      ensures isPlaying == old(isPlaying) && progress == old(progress)
      ensures customFolderUri == old(customFolderUri) && hasContext == old(hasContext)
      ensures preferences == old(preferences)
    {
      Issue([SeekToNextMediaItem]);
    }

    method SkipToPrevious()
      modifies this
      ensures old(controller).None? ==> controller.None?
      ensures old(controller).Some? ==>
                controller == Some(old(controller).value.(issued := old(controller).value.issued + [SeekToPreviousMediaItem]))
      ensures songs == old(songs) && currentSong == old(currentSong)
      ensures isPlaying == old(isPlaying) && progress == old(progress)
      ensures customFolderUri == old(customFolderUri) && hasContext == old(hasContext)
      ensures preferences == old(preferences)
    {
      Issue([SeekToPreviousMediaItem]);
    }
  }
}
