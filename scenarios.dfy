/** The situations exercised by tests/test_vlc_backend.py, each run on a fresh
    player, with what the model proves about their outcome. */
module PlayerScenarios {
  import opened PathNames
  import opened VlcBackend

  /** A directory path that does not exist is not a directory: loading it is
      an `InvalidPlaylistError` and nothing changes. */
  method LoadMissingDirectory() returns (r: Outcome, committed: seq<string>, queue: Queue)
    ensures r == Fail(InvalidPlaylistError)
    ensures committed == [] && queue == Queue([], false, NORMAL, None, [SetPlaybackMode(NORMAL)])
  {
    var player := new Player();
    r := player.SetPlaylist(false, [], 0);
    committed, queue := player.playlist, player.queue;
  }

  /** A directory holding a subdirectory is an `InvalidPlaylistError`, even
      when it also holds supported files. */
  method LoadDirectoryWithSubdirectory(dir: string) returns (r: Outcome, committed: seq<string>, queue: Queue)
    ensures r == Fail(InvalidPlaylistError)
    ensures committed == [] && queue == Queue([], false, NORMAL, None, [SetPlaybackMode(NORMAL)])
  {
    var player := new Player();
    r := player.SetPlaylist(true, [Entry(dir + "/a.mp3", false), Entry(dir + "/subdir", true)], 0);
    committed, queue := player.playlist, player.queue;
  }

  /** An empty directory loads: the queue gets an empty list and, since the
      start index 0 passes the test `0 <= 0 <= 0`, is told to play item 0.
      The committed playlist is then empty, so `play` afterwards raises. */
  method LoadEmptyDirectory() returns (r: Outcome, committed: seq<string>, queue: Queue, play: Outcome)
    ensures r == Pass && committed == []
    ensures queue.mediaList == [] && queue.lastIndex == Some(0)
    ensures queue.issued == [SetPlaybackMode(NORMAL), SetMediaList([]), PlayItemAtIndex(0)]
    ensures play == Fail(PlaylistNotLoadedError)
  {
    var player := new Player();
    r := player.SetPlaylist(true, [], 0);
    committed, queue := player.playlist, player.queue;
    play := player.Play(0);
  }

  /** A directory `dir` with `a.mp3`, `B.WAV` and `c.txt` loads the first two,
      in that order; the text file is skipped without an error. */
  method LoadMixedDirectory(dir: string) returns (r: Outcome, committed: seq<string>)
    ensures r == Pass && committed == [dir + "/a.mp3", dir + "/B.WAV"]
  {
    var entries := [Entry(dir + "/a.mp3", false), Entry(dir + "/B.WAV", false), Entry(dir + "/c.txt", false)];
    MixedDirectorySongs(dir, entries);
    var player := new Player();
    r := player.SetPlaylist(true, entries, 0);
    committed := player.playlist;
  }

  lemma MixedDirectorySongs(dir: string, entries: seq<Entry>)
    requires entries == [Entry(dir + "/a.mp3", false), Entry(dir + "/B.WAV", false), Entry(dir + "/c.txt", false)]
    ensures Songs(entries) == [dir + "/a.mp3", dir + "/B.WAV"]
  {
    MixedDirectoryFiles(dir, entries[0].path, entries[1].path, entries[2].path);
    SongsOfTwoSupportedAndOneNot(entries[0], entries[1], entries[2]);
  }

  /** Which of the three files of `LoadMixedDirectory` are supported.
      Extensions are compared after lower-casing, so ".WAV" counts as ".wav". */
  lemma MixedDirectoryFiles(dir: string, a: string, b: string, c: string)
    requires a == dir + "/a.mp3" && b == dir + "/B.WAV" && c == dir + "/c.txt"
    ensures IsSupported(a) && IsSupported(b) && !IsSupported(c)
  {
    LowerOfExtensions();
    assert IsSupported(a) by {
      assert a == dir + "/" + "a" + "." + "mp3";
      SupportedByExtension(dir, "a", "mp3");
    }
    assert IsSupported(b) by {
      assert b == dir + "/" + "B" + "." + "WAV";
      SupportedByExtension(dir, "B", "WAV");
    }
    assert !IsSupported(c) by {
      assert c == dir + "/" + "c" + "." + "txt";
      SupportedByExtension(dir, "c", "txt");
    }
  }

  /** Three files, of which the first two are supported, yield those two in order. */
  lemma SongsOfTwoSupportedAndOneNot(a: Entry, b: Entry, c: Entry)
    requires IsSupported(a.path) && IsSupported(b.path) && !IsSupported(c.path)
    ensures Songs([a, b, c]) == [a.path, b.path]
  {
    assert [a, b, c] == [a] + ([b] + [c]);
    SongsAppend([a], [b] + [c]);
    SongsAppend([b], [c]);
    assert [a][1..] == [] && [b][1..] == [] && [c][1..] == [];
  }

  /** The lower-cased extensions of the files used above. */
  lemma LowerOfExtensions()
    ensures Lower("." + "mp3") == ".mp3" && Lower("." + "WAV") == ".wav" && Lower("." + "txt") == ".txt"
  {
  }

  /** A start index past the end of the new list is a `PlayerError`: the
      committed playlist stays empty, but the queue already holds the new
      one-song list and is not playing. */
  method LoadWithOutOfRangeIndex(dir: string) returns (r: Outcome, committed: seq<string>, installed: seq<string>)
    ensures r == Fail(PlayerError) && committed == [] && installed == [dir + "/a.mp3"]
  {
    var entries := [Entry(dir + "/a.mp3", false), Entry(dir + "/c.txt", false)];
    MixedDirectoryFiles(dir, dir + "/a.mp3", dir + "/B.WAV", dir + "/c.txt");
    SongsOfOneSupportedAndOneNot(entries[0], entries[1]);
    var player := new Player();
    r := player.SetPlaylist(true, entries, 5);
    committed, installed := player.playlist, player.queue.mediaList;
  }

  /** Two files, of which the first is supported, yield that one. */
  lemma SongsOfOneSupportedAndOneNot(a: Entry, c: Entry)
    requires IsSupported(a.path) && !IsSupported(c.path)
    ensures Songs([a, c]) == [a.path]
  {
    assert [a, c][1..] == [c];
    assert [c][1..] == [];
  }

  /** The three mode names are accepted, and repeating one is harmless;
      "SHUFFLE" is a `PlayerError` that leaves the mode as it was. */
  method SetModes() returns (normal: Outcome, loop: Outcome, repeat: Outcome, shuffle: Outcome,
                             modeAfterShuffle: ModeCode, again: Outcome, mode: ModeCode)
    ensures normal == Pass && loop == Pass && repeat == Pass && again == Pass
    ensures shuffle == Fail(PlayerError) && modeAfterShuffle == REPEAT
    ensures mode == REPEAT
  {
    var player := new Player();
    normal := player.SetMode("NORMAL");
    loop := player.SetMode("LOOP");
    repeat := player.SetMode("REPEAT");
    shuffle := player.SetMode("SHUFFLE");
    modeAfterShuffle := player.queue.mode;
    again := player.SetMode("REPEAT");
    mode := player.queue.mode;
  }

  /** With nothing loaded, play, pause, next and previous are
      `PlaylistNotLoadedError`s that send nothing, the queries report "" and
      -1 whatever vlc would answer, and stop is the one command sent. */
  method CommandsWithoutPlaylist(reportedSong: string, reportedIndex: int)
    returns (play: Outcome, pause: Outcome, next: Outcome, prev: Outcome,
             song: string, index: int, issued: seq<Command>)
    ensures play == Fail(PlaylistNotLoadedError) && pause == Fail(PlaylistNotLoadedError)
    ensures next == Fail(PlaylistNotLoadedError) && prev == Fail(PlaylistNotLoadedError)
    ensures song == "" && index == -1
    ensures issued == [SetPlaybackMode(NORMAL), Command.Stop]
  {
    var player := new Player();
    play := player.Play(0);
    pause := player.TogglePause();
    next := player.Next();
    prev := player.Prev();
    song := player.GetCurrentSong(reportedSong);
    index := player.GetCurrentIndex(reportedIndex);
    player.Stop();
    issued := player.queue.issued;
  }
}
