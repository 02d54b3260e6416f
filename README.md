# SiMP player core, modelled in Dafny

SiMP is a command-line music player. Its only logic of its own is the `Player`
facade in `src/simp/vlc_backend.py`. It loads a flat directory of `.mp3` and
`.wav` files as a playlist, selects a playback mode, and forwards
play/pause/next/previous/stop to vlc's media-list player (the "queue").

The model has three modules:

- `PathNames` (`pathnames.dfy`): the parts of Python's `pathlib` and `str` that
  the playlist filter uses. These are `str.rfind`, `PurePosixPath.name`,
  `PurePath.suffix` and `str.lower`.
- `VlcBackend` (`vlc_backend.dfy`): the source file itself, in these pieces.
  - `Constants`: the mode codes 0/1/2 and the supported extensions.
  - The exception hierarchy, as the `Error` datatype. A raised exception is a
    `Fail` outcome.
  - The flat-directory check `_is_valid_playlist`, as `CheckPlaylist` over
    `AnyDirectory`.
  - The `songlist` comprehension, as the recursive filter `Songs`.
  - The `add_media` loop, as `NewMediaList`.
  - The vlc queue, as a record `Queue`. It holds the installed media list, the
    playing flag vlc reports, the playback mode, the last index given to
    `play_item_at_index`, and the log of commands sent to vlc, in order.
  - The `Player` class. Its fields are the committed playlist (`_playlist`) and
    the queue. Each public method is a Dafny method with a contract over those
    fields. `Valid()` is the invariant that every path in the committed playlist
    and in the queue's media list has a supported extension.
- `PlayerScenarios` (`scenarios.dfy`): the cases of `tests/test_vlc_backend.py`,
  each run on a fresh player, plus one mixed directory. Each is a method whose
  postcondition states the outcome.

A directory is given as two things: whether the path is a directory, and the
sequence of `Entry(path, isDir)` that `iterdir()` yields.

Points of the code's behaviour that the model keeps as written:

- The start-index test is `0 <= index <= count`, so `index == count` passes and
  is sent to vlc.
- A rejected start index raises `PlayerError`.
- When the start index is rejected, the new media list is already installed in
  the queue. Only `_playlist` keeps its old value. There is no rollback.
- `play(index)` forwards the index with no bounds check.
- `next`, `prev` and `toggle_pause` have no boundary, wrap-around or resume
  policy of their own. They forward one vlc call each.

## Model

| member | source | states |
|---|---|---|
| `PathNames.RFind` | src/simp/vlc_backend.py:36 | the index returned holds the character searched for and no later index does; -1 means it does not occur |
| `PathNames.NameIsLastComponent` | src/simp/vlc_backend.py:35-36 | a path's name is its longest tail without '/', preceded by a '/' when shorter than the path |
| `PathNames.SuffixIsLastExtension` | src/simp/vlc_backend.py:36 | a non-empty suffix is a tail of the name that starts with its only '.', has at least one more character and is shorter than the name; the suffix is empty exactly when the name has no dot after its first character or ends with a dot |
| `PathNames.Lower` | src/simp/vlc_backend.py:36 | lower-casing keeps the length, maps 'A'..'Z' to 'a'..'z' and leaves every other character alone |
| `PathNames.ExtensionIsSuffixOfName` | src/simp/vlc_backend.py:36 | the suffix computed on the whole path equals `Suffix(Name(path))`, pathlib's definition |
| `PathNames.SuffixOfStemAndExtension` | src/simp/vlc_backend.py:36 | `stem.ext`, with a non-empty stem and a non-empty dot-free ext, has suffix `.ext`, whatever dots the stem holds |
| `PathNames.NoSuffixWithoutInnerDot` | src/simp/vlc_backend.py:36 | a name whose only dot is leading (a hidden file such as `.mp3`) has no suffix |
| `PathNames.NameOfJoin` | src/simp/vlc_backend.py:35 | the name of `dir/component` is `component` |
| `VlcBackend.SupportedByExtension` | src/simp/vlc_backend.py:34-37 | a file `stem.ext` is kept exactly when `.ext`, lower-cased, is `.mp3` or `.wav` |
| `VlcBackend.UnsupportedWithoutExtension` | src/simp/vlc_backend.py:34-37 | a file with no dot after the first character of its name is never kept |
| `VlcBackend.Songs` | src/simp/vlc_backend.py:34-37 | the filter returns no more paths than there are entries (contents and order are stated by the lemmas below) |
| `VlcBackend.SongsAreSupported` | src/simp/vlc_backend.py:34-37 | every kept path has a supported extension |
| `VlcBackend.SongsMembership` | src/simp/vlc_backend.py:34-37 | a path is kept if and only if some entry has it and it is supported |
| `VlcBackend.SongsAppend` | src/simp/vlc_backend.py:34-37 | filtering a listing in two parts gives the two filtered parts, concatenated in order |
| `VlcBackend.SongsKeepAllSupported` | src/simp/vlc_backend.py:34-37 | a listing of supported files only is kept whole, in listing order |
| `VlcBackend.SongsDropAllUnsupported` | src/simp/vlc_backend.py:34-37 | a listing without supported files gives an empty list, with no error |
| `VlcBackend.AnyDirectory` | src/simp/vlc_backend.py:25 | true exactly when some entry is a directory |
| `VlcBackend.CheckPlaylist` | src/simp/vlc_backend.py:24-28 | passes exactly when the path is a directory and no entry is one; otherwise an `InvalidPlaylistError` |
| `VlcBackend.ModeOfToken` | src/simp/vlc_backend.py:78-87 | a token selects a mode exactly when it is one of NORMAL, LOOP, REPEAT |
| `VlcBackend.TokenOf` | src/simp/vlc_backend.py:78-87 | every mode is named by one of the three accepted tokens |
| `VlcBackend.TokenSelectsMode` | src/simp/vlc_backend.py:78-87 | each mode's token selects that mode (NORMAL to 0, LOOP to 1, REPEAT to 2) |
| `VlcBackend.OnlyTokenSelectsMode` | src/simp/vlc_backend.py:78-87 | only a mode's own token selects it, so the mapping is one-to-one |
| `VlcBackend.NewMediaList` | src/simp/vlc_backend.py:33-46 | adding every song to a new media list gives exactly the song list, in order |
| `VlcBackend.Player.constructor` | src/simp/vlc_backend.py:9-15 | a new player has an empty committed playlist and a queue with no media, not playing, whose mode was set to NORMAL (0) |
| `VlcBackend.Player.SetPlaylist` | src/simp/vlc_backend.py:30-56 | an invalid directory raises `InvalidPlaylistError` and changes nothing. A valid one stops a playing queue first, then installs exactly the filtered list. An index with `0 <= index <= count` is then played and the list committed. Any other index raises `PlayerError`: the old playlist stays, the queue keeps the new list and is not playing. The invariant is kept |
| `VlcBackend.Player.GetCurrentSong` | src/simp/vlc_backend.py:58-68 | returns "" without raising when the committed playlist is empty; otherwise returns what vlc reports |
| `VlcBackend.Player.GetCurrentIndex` | src/simp/vlc_backend.py:70-75 | returns -1 without raising when the committed playlist is empty; otherwise returns what vlc reports |
| `VlcBackend.Player.SetMode` | src/simp/vlc_backend.py:78-87 | succeeds exactly on the three tokens and sets the queue's mode to the token's code; any other token raises `PlayerError` and leaves the queue as it was. Setting the same token again leaves the same mode |
| `VlcBackend.Player.Play` | src/simp/vlc_backend.py:89-94 | raises `PlaylistNotLoadedError` exactly when the committed playlist is empty, and then sends nothing; otherwise sends `play_item_at_index(index)` for any index |
| `VlcBackend.Player.TogglePause` | src/simp/vlc_backend.py:96-101 | raises `PlaylistNotLoadedError` exactly when the committed playlist is empty, and then sends nothing; otherwise sends `pause` only |
| `VlcBackend.Player.Next` | src/simp/vlc_backend.py:103-108 | raises `PlaylistNotLoadedError` exactly when the committed playlist is empty, and then sends nothing; otherwise sends `next` only |
| `VlcBackend.Player.Prev` | src/simp/vlc_backend.py:110-115 | raises `PlaylistNotLoadedError` exactly when the committed playlist is empty, and then sends nothing; otherwise sends `previous` only |
| `VlcBackend.Player.Stop` | src/simp/vlc_backend.py:117-118 | never raises; always sends `stop`, after which the queue is not playing; nothing else changes |
| `PlayerScenarios.LoadMissingDirectory` | tests/test_vlc_backend.py:17-19 | a path that is not a directory raises `InvalidPlaylistError` and leaves a fresh player as it was |
| `PlayerScenarios.LoadDirectoryWithSubdirectory` | tests/test_vlc_backend.py:22-26 | a directory holding a subdirectory raises `InvalidPlaylistError` and leaves a fresh player as it was |
| `PlayerScenarios.LoadEmptyDirectory` | tests/test_vlc_backend.py:29-40 | an empty directory loads with no error. The queue is told to play index 0 of an empty list. A later `play` raises `PlaylistNotLoadedError` |
| `PlayerScenarios.LoadMixedDirectory` | src/simp/vlc_backend.py:30-56 | a directory with `a.mp3`, `B.WAV` and `c.txt` commits exactly the first two, in that order |
| `PlayerScenarios.LoadWithOutOfRangeIndex` | tests/test_vlc_backend.py:92-100 | start index 5 with one song raises `PlayerError`. The committed playlist stays empty, but the queue holds the one-song list |
| `PlayerScenarios.SetModes` | tests/test_vlc_backend.py:44-51 | NORMAL, LOOP and REPEAT are accepted. SHUFFLE raises `PlayerError` and keeps the last mode. Repeating REPEAT keeps REPEAT |
| `PlayerScenarios.CommandsWithoutPlaylist` | tests/test_vlc_backend.py:54-89 | with nothing loaded, play, pause, next and prev raise `PlaylistNotLoadedError` and send nothing. The queries return "" and -1. Stop works and is the only command sent |

## Left out

- vlc itself is left out: decoding, output, the media-list player's own auto-advance, and what `play_item_at_index`, `pause`, `next` and `previous` do inside vlc. These include behaviour at the ends of the list, while stopped, and for an out-of-range index. Each call is only recorded in the queue's command log.
- The playing flag vlc reports after `play_item_at_index`, `pause`, `next` and `previous` is left unconstrained, since only vlc decides it. `stop` is modelled as leaving vlc not playing, which `set_playlist` relies on.
- `VlcBackend.Player.GetCurrentSong`: the media player and MRL lookups are vlc queries. vlc's answer is a parameter (`reported`, "" when vlc has no media).
- `VlcBackend.Player.GetCurrentIndex`: `index_of_item` is a vlc query. vlc's answer is a parameter (`reported`, -1 when vlc has no media).
- File-system access is left out. `is_dir()`, `iterdir()` and `as_posix()` become the given flag and entries. One listing serves both the validity check and the filter, so a directory that changes between its two `iterdir()` calls is not modelled.
- `PathNames.Lower`: only ASCII letters are lower-cased, not all of Unicode. For the membership test against `.mp3` and `.wav` this gives the same answer. No non-ASCII character lower-cases to any of the letters m, p, w, a or v.
- `PathNames.Suffix` follows CPython 3.12's `PurePath.suffix`, where a name ending in a dot has no suffix. A later rule for such names would not change which files are kept.
- Python's default arguments (`index=0`, `mode="NORMAL"`) are not modelled. Callers pass both values explicitly.
- Exception message texts are left out, including the listing of supported file types.
- `NoActiveTrackError` is left out. It is declared but never raised.
- `src/simp/__main__.py` is not part of this model. It is an interactive input/print loop that only dispatches commands.
- vlc's playback threads and any concurrency are left out.
