/** The `Player` facade of SiMP over vlc's media-list player.

    vlc itself is not modelled: its `MediaListPlayer` (the "queue") and the
    `MediaList` installed in it are one record, `Queue`, holding the media list
    the queue plays from, whether vlc reports it as playing, its playback mode,
    the last index handed to `play_item_at_index`, and the log of commands the
    player has issued to it, in order. Commands whose effect vlc alone decides
    (playing an item, pausing, moving to the next or previous item) are recorded
    in the log and leave the playing flag to vlc. */
module VlcBackend {
  import opened PathNames

  datatype Option<T> = None | Some(value: T)

  // ---------- Constants ----------

  /** A vlc `PlaybackMode` value: 0 default (play through once), 1 loop, 2 repeat. */
  type ModeCode = m: int | 0 <= m <= 2

  const NORMAL: ModeCode := 0
  const LOOP: ModeCode := 1
  const REPEAT: ModeCode := 2

  /** The file extensions a playlist may supply, compared after lower-casing. */
  const SUPPORTED_MEDIA_FILETYPES: set<string> := {".mp3", ".wav"}

  /** The mode names `set_mode` accepts, exactly as spelled. */
  const MODE_TOKENS: set<string> := {"NORMAL", "LOOP", "REPEAT"}

  // ---------- Exceptions ----------

  /** The exceptions the player raises. `PlaylistNotLoadedError` and
      `InvalidPlaylistError` are subclasses of `PlayerError`, so a caller that
      catches `PlayerError` catches all three. */
  datatype Error = PlayerError | PlaylistNotLoadedError | InvalidPlaylistError

  /** The outcome of a player operation: it returns normally or raises. */
  datatype Outcome = Pass | Fail(error: Error)

  // ---------- The directory snapshot and the playlist filter ----------

  /** One item yielded by `Path.iterdir()`: its POSIX path and whether it is a directory. */
  datatype Entry = Entry(path: string, isDir: bool)

  /** Whether the file at `path` has a supported extension: the lower-cased
      suffix of its name is one of `SUPPORTED_MEDIA_FILETYPES` (the suffix is
      computed by `Extension`, equal to `Suffix(Name(path))`). */
  predicate IsSupported(path: string)
  {
    Lower(Extension(path)) in SUPPORTED_MEDIA_FILETYPES
  }

  /** A file named `stem.ext` in any directory is supported exactly when
      the lower-cased ".ext" is one of the supported extensions. */
  lemma SupportedByExtension(dir: string, stem: string, ext: string)
    requires stem != "" && '/' !in stem
    requires ext != "" && '/' !in ext && '.' !in ext
    ensures IsSupported(dir + "/" + stem + "." + ext) <==> Lower("." + ext) in SUPPORTED_MEDIA_FILETYPES
  {
    var path := dir + "/" + (stem + "." + ext);
    assert dir + "/" + stem + "." + ext == path;
    NameOfJoin(dir, stem + "." + ext);
    SuffixOfStemAndExtension(stem, ext);
    ExtensionIsSuffixOfName(path);
  }

  /** A file whose name has no dot after its first character (such as the
      hidden file ".mp3") is never supported. */
  lemma UnsupportedWithoutExtension(dir: string, name: string)
    requires '/' !in name
    requires forall k :: 0 < k < |name| ==> name[k] != '.'
    ensures !IsSupported(dir + "/" + name)
  {
    NameOfJoin(dir, name);
    NoSuffixWithoutInnerDot(name);
    ExtensionIsSuffixOfName(dir + "/" + name);
  }

  /** The `songlist` comprehension of `set_playlist`: the paths of the entries
      with a supported extension, in iteration order. */
  function Songs(entries: seq<Entry>): (r: seq<string>)
    ensures |r| <= |entries|
  {
    if entries == [] then []
    else if IsSupported(entries[0].path) then [entries[0].path] + Songs(entries[1..])
    else Songs(entries[1..])
  }

  /** Every path the filter keeps has a supported extension. */
  lemma {:induction false} SongsAreSupported(entries: seq<Entry>)
    ensures forall k :: 0 <= k < |Songs(entries)| ==> IsSupported(Songs(entries)[k])
  {
    if entries != [] {
      SongsAreSupported(entries[1..]);
    }
  }

  /** A path is kept exactly when some entry has it and it is supported. */
  lemma {:induction false} SongsMembership(entries: seq<Entry>, p: string)
    ensures p in Songs(entries) <==> IsSupported(p) && exists k :: 0 <= k < |entries| && entries[k].path == p
  {
    if entries != [] {
      SongsMembership(entries[1..], p);
      assert forall k :: 1 <= k < |entries| ==> entries[k] == entries[1..][k - 1];
      if p in Songs(entries[1..]) {
        var k :| 0 <= k < |entries[1..]| && entries[1..][k].path == p;
        assert entries[k + 1].path == p;
      }
    }
  }

  /** Filtering a listing in two parts filters each part, in order. */
  lemma {:induction false} SongsAppend(a: seq<Entry>, b: seq<Entry>)
    ensures Songs(a + b) == Songs(a) + Songs(b)
  {
    if a == [] {
      assert a + b == b;
    } else {
      assert (a + b)[1..] == a[1..] + b;
      SongsAppend(a[1..], b);
    }
  }

  /** A listing of supported files only is kept whole, in order. */
  lemma {:induction false} SongsKeepAllSupported(entries: seq<Entry>)
    requires forall k :: 0 <= k < |entries| ==> IsSupported(entries[k].path)
    ensures Songs(entries) == Paths(entries)
  {
    if entries != [] {
      assert Paths(entries) == [entries[0].path] + Paths(entries[1..]);
      SongsKeepAllSupported(entries[1..]);
    }
  }

  /** A listing without supported files yields no songs. */
  lemma {:induction false} SongsDropAllUnsupported(entries: seq<Entry>)
    requires forall k :: 0 <= k < |entries| ==> !IsSupported(entries[k].path)
    ensures Songs(entries) == []
  {
    if entries != [] {
      SongsDropAllUnsupported(entries[1..]);
    }
  }

  /** The paths of all entries, in iteration order. */
  function Paths(entries: seq<Entry>): (r: seq<string>)
    ensures |r| == |entries|
    ensures forall k :: 0 <= k < |entries| ==> r[k] == entries[k].path
  {
    seq(|entries|, k requires 0 <= k < |entries| => entries[k].path)
  }

  /** `any([path.is_dir() for path in playlist.iterdir()])`. */
  function AnyDirectory(entries: seq<Entry>): (r: bool)
    ensures r <==> exists k :: 0 <= k < |entries| && entries[k].isDir
  {
    if entries == [] then false else entries[0].isDir || AnyDirectory(entries[1..])
  }

  /** `_is_valid_playlist`: a playlist is a directory none of whose entries is
      a directory; anything else is an `InvalidPlaylistError`. */
  function CheckPlaylist(isDirectory: bool, entries: seq<Entry>): (r: Outcome)
    ensures r == Pass <==> isDirectory && forall k :: 0 <= k < |entries| ==> !entries[k].isDir
    ensures r != Pass ==> r == Fail(InvalidPlaylistError)
  {
    if !isDirectory || AnyDirectory(entries) then Fail(InvalidPlaylistError) else Pass
  }

  /** The start-index test of `set_playlist`, as written: it also admits
      `index == count`, one past the last item. */
  predicate StartIndexAccepted(index: int, count: nat)
  {
    0 <= index <= count
  }

  // ---------- Mode tokens ----------

  /** The `match` of `set_mode`: the mode a token selects, if any. */
  function ModeOfToken(token: string): (r: Option<ModeCode>)
    ensures r.Some? <==> token in MODE_TOKENS
  {
    match token
    case "NORMAL" => Some(NORMAL)
    case "LOOP" => Some(LOOP)
    case "REPEAT" => Some(REPEAT)
    case _ => None
  }

  /** The token that names a mode. */
  function TokenOf(mode: ModeCode): (t: string)
    ensures t in MODE_TOKENS
  {
    if mode == NORMAL then "NORMAL" else if mode == LOOP then "LOOP" else "REPEAT"
  }

  /** Every mode has a token that selects it. */
  lemma TokenSelectsMode(mode: ModeCode)
    ensures ModeOfToken(TokenOf(mode)) == Some(mode)
  {
  }

  /** A token selects at most one mode, and only the mode's own token selects it. */
  lemma OnlyTokenSelectsMode(token: string, mode: ModeCode)
    requires ModeOfToken(token) == Some(mode)
    ensures token == TokenOf(mode)
  {
  }

  // ---------- The vlc queue ----------

  /** A command the player issues to vlc's media-list player. */
  datatype Command =
    | SetPlaybackMode(mode: ModeCode)
    | SetMediaList(media: seq<string>)
    | PlayItemAtIndex(index: int)
    | Pause
    | Next
    | Previous
    | Stop

  /** vlc's media-list player as the player sees it. */
  datatype Queue = Queue(
    mediaList: seq<string>,
    playing: bool,
    mode: ModeCode,
    lastIndex: Option<int>,
    issued: seq<Command>)

  /** `media_list_new()` followed by `add_media` for each song, in order. */
  method NewMediaList(songs: seq<string>) returns (media: seq<string>)
    ensures media == songs
  {
    media := [];
    for i := 0 to |songs|
      invariant media == songs[..i]
    {
      media := media + [songs[i]];
    }
  }

  // ---------- The player ----------

  class Player {
    /** `_playlist`: the media list last committed by a successful `set_playlist`. */
    var playlist: seq<string>
    /** `queue`: vlc's media-list player. */
    var queue: Queue

    /** Every path in the committed playlist and in the queue's media list has a
        supported extension. */
    ghost predicate Valid()
      reads this
    {
      && (forall k :: 0 <= k < |playlist| ==> IsSupported(playlist[k]))
      && (forall k :: 0 <= k < |queue.mediaList| ==> IsSupported(queue.mediaList[k]))
    }

    /** A fresh player: nothing committed, a queue with no media, and the
        queue's mode set to NORMAL. */
    constructor ()
      ensures Valid()
      ensures playlist == []
      ensures queue == Queue([], false, NORMAL, None, [SetPlaybackMode(NORMAL)])
    {
      playlist := [];
      queue := Queue([], false, NORMAL, None, [SetPlaybackMode(NORMAL)]);
    }

    /** `set_playlist(playlist_path, index)`, the directory being given as
        whether it is a directory and the entries it lists. */
    method SetPlaylist(isDirectory: bool, entries: seq<Entry>, index: int) returns (r: Outcome)
      requires Valid()
      modifies this
      ensures Valid()
      // an invalid directory changes nothing
      ensures CheckPlaylist(isDirectory, entries) != Pass ==>
                r == Fail(InvalidPlaylistError) && playlist == old(playlist) && queue == old(queue)
      // a valid one stops a playing queue, then installs the filtered list
      ensures CheckPlaylist(isDirectory, entries) == Pass ==>
                && queue.mediaList == Songs(entries)
                && queue.mode == old(queue.mode)
                && queue.issued == old(queue.issued)
                                   + (if old(queue.playing) then [Command.Stop] else [])
                                   + [SetMediaList(Songs(entries))]
                                   + (if StartIndexAccepted(index, |Songs(entries)|)
                                      then [PlayItemAtIndex(index)] else [])
      // an accepted start index starts playback there and commits the list
      ensures CheckPlaylist(isDirectory, entries) == Pass && StartIndexAccepted(index, |Songs(entries)|) ==>
                r == Pass && playlist == Songs(entries) && queue.lastIndex == Some(index)
      // a rejected one keeps the old playlist, but the queue already has the new list
      ensures CheckPlaylist(isDirectory, entries) == Pass && !StartIndexAccepted(index, |Songs(entries)|) ==>
                && r == Fail(PlayerError) && playlist == old(playlist)
                && queue.lastIndex == old(queue.lastIndex) && !queue.playing
    {
      r := CheckPlaylist(isDirectory, entries);
      if r.Fail? {
        return;
      }
      var songlist := Songs(entries);
      SongsAreSupported(entries);
      var media := NewMediaList(songlist);
      if queue.playing {
        queue := queue.(playing := false, issued := queue.issued + [Command.Stop]);
      }
      queue := queue.(mediaList := media, issued := queue.issued + [SetMediaList(media)]);
      if StartIndexAccepted(index, |media|) {
        var nowPlaying: bool := *;
        queue := queue.(playing := nowPlaying, lastIndex := Some(index),
                        issued := queue.issued + [PlayItemAtIndex(index)]);
        playlist := media;
      } else {
        r := Fail(PlayerError);
      }
    }

    /** `get_current_song`: "" when nothing is committed; otherwise the MRL
        vlc reports for its current media (`reported`, "" when it has none). */
    method GetCurrentSong(reported: string) returns (song: string)
      ensures playlist == [] ==> song == ""
      ensures playlist != [] ==> song == reported
    {
      if |playlist| == 0 {
        return "";
      }
      song := reported;
    }

    /** `get_current_index`: -1 when nothing is committed; otherwise the
        position vlc reports for its current media in the committed list
        (`reported`, -1 when it has none). */
    method GetCurrentIndex(reported: int) returns (index: int)
      ensures playlist == [] ==> index == -1
      ensures playlist != [] ==> index == reported
    {
      if |playlist| == 0 {
        return -1;
      }
      index := reported;
    }

    /** `set_mode(mode)`: an exact token selects a mode; anything else is a
        `PlayerError` and the queue's mode stays as it was. */
    method SetMode(token: string) returns (r: Outcome)
      requires Valid()
      modifies this
      ensures Valid()
      ensures r == Pass <==> token in MODE_TOKENS
      ensures r != Pass ==> r == Fail(PlayerError) && queue == old(queue)
      ensures r == Pass ==> queue == old(queue).(mode := ModeOfToken(token).value,
                                   issued := old(queue.issued) + [SetPlaybackMode(ModeOfToken(token).value)])
      ensures playlist == old(playlist)
    {
      match token {
        case "NORMAL" =>
          queue := queue.(mode := NORMAL, issued := queue.issued + [SetPlaybackMode(NORMAL)]);
          r := Pass;
        case "LOOP" =>
          queue := queue.(mode := LOOP, issued := queue.issued + [SetPlaybackMode(LOOP)]);
          r := Pass;
        case "REPEAT" =>
          queue := queue.(mode := REPEAT, issued := queue.issued + [SetPlaybackMode(REPEAT)]);
          r := Pass;
        case _ =>
          r := Fail(PlayerError);
      }
    }

    /** `play(index)`: with a committed playlist, hands `index` to
        `play_item_at_index` unchecked; without one, raises and sends nothing. */
    method Play(index: int) returns (r: Outcome)
      requires Valid()
      modifies this
      ensures Valid()
      ensures r == Fail(PlaylistNotLoadedError) <==> old(playlist) == []
      ensures r != Fail(PlaylistNotLoadedError) ==> r == Pass
      ensures playlist == old(playlist)
      ensures queue.mediaList == old(queue.mediaList) && queue.mode == old(queue.mode)
      ensures r != Pass ==> queue == old(queue)
      ensures r == Pass ==> queue.lastIndex == Some(index)
                            && queue.issued == old(queue.issued) + [PlayItemAtIndex(index)]
    {
      if |playlist| == 0 {
        return Fail(PlaylistNotLoadedError);
      }
      var nowPlaying: bool := *;
      queue := queue.(playing := nowPlaying, lastIndex := Some(index),
                      issued := queue.issued + [PlayItemAtIndex(index)]);
      r := Pass;
    }

    /** `toggle_pause`: forwards `pause` (vlc toggles). */
    method TogglePause() returns (r: Outcome)
      requires Valid()
      modifies this
      ensures Valid()
      ensures r == Fail(PlaylistNotLoadedError) <==> old(playlist) == []
      ensures r != Fail(PlaylistNotLoadedError) ==> r == Pass
      ensures playlist == old(playlist)
      ensures queue.mediaList == old(queue.mediaList) && queue.mode == old(queue.mode)
      ensures queue.lastIndex == old(queue.lastIndex)
      ensures r != Pass ==> queue == old(queue)
      ensures r == Pass ==> queue.issued == old(queue.issued) + [Pause]
    {
      if |playlist| == 0 {
        return Fail(PlaylistNotLoadedError);
      }
      var nowPlaying: bool := *;
      queue := queue.(playing := nowPlaying, issued := queue.issued + [Pause]);
      r := Pass;
    }

    /** `next`: forwards `next`. */
    method Next() returns (r: Outcome)
      requires Valid()
      modifies this
      ensures Valid()
      ensures r == Fail(PlaylistNotLoadedError) <==> old(playlist) == []
      ensures r != Fail(PlaylistNotLoadedError) ==> r == Pass
      ensures playlist == old(playlist)
      ensures queue.mediaList == old(queue.mediaList) && queue.mode == old(queue.mode)
      ensures queue.lastIndex == old(queue.lastIndex)
      ensures r != Pass ==> queue == old(queue)
      ensures r == Pass ==> queue.issued == old(queue.issued) + [Command.Next]
    {
      if |playlist| == 0 {
        return Fail(PlaylistNotLoadedError);
      }
      var nowPlaying: bool := *;
      queue := queue.(playing := nowPlaying, issued := queue.issued + [Command.Next]);
      r := Pass;
    }

    /** `prev`: forwards `previous`. */
    method Prev() returns (r: Outcome)
      requires Valid()
      modifies this
      ensures Valid()
      ensures r == Fail(PlaylistNotLoadedError) <==> old(playlist) == []
      ensures r != Fail(PlaylistNotLoadedError) ==> r == Pass
      ensures playlist == old(playlist)
      ensures queue.mediaList == old(queue.mediaList) && queue.mode == old(queue.mode)
      ensures queue.lastIndex == old(queue.lastIndex)
      ensures r != Pass ==> queue == old(queue)
      ensures r == Pass ==> queue.issued == old(queue.issued) + [Previous]
    {
      if |playlist| == 0 {
        return Fail(PlaylistNotLoadedError);
      }
      var nowPlaying: bool := *;
      queue := queue.(playing := nowPlaying, issued := queue.issued + [Previous]);
      r := Pass;
    }

    /** `stop`: never raises; always forwards `stop`, after which vlc is not playing. */
    method Stop()
      requires Valid()
      modifies this
      ensures Valid()
      ensures playlist == old(playlist)
      ensures queue == old(queue).(playing := false, issued := old(queue.issued) + [Command.Stop])
    {
      queue := queue.(playing := false, issued := queue.issued + [Command.Stop]);
    }
  }
}
