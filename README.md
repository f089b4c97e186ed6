# Music player playlist, modelled in Dafny

A model of `MusicPlayer`, the playlist manager of a small console music player
written in C++. The playlist is a doubly linked list of songs (name, file path,
duration in seconds) with `head`, `tail` and `current` pointers. Around it sit
three independent mode flags (shuffle, repeat-one, repeat-all), a stack of the
names played so far, a case-insensitive substring search, and a `name,path`
line format for saving and reloading the playlist.

Layout:

- `common.dfy` (`Common`): `Option`, which stands for a nullable `Song*` and
  for `npos`; `Min`, used to clamp a `substr` length; and `AppendAssoc`, the
  regrouping of a concatenation that the load loop uses.
- `text.dfy` (`Text`): `::tolower` over a string and `std::string::find`.
- `duration.dfy` (`Duration`): the minutes and seconds printed for a duration.
- `playlist.dfy` (`Playlist`): the `Song` node, the list invariant and a walk
  along `next` links.
- `playlist_file.dfy` (`PlaylistFile`): the save/load line format and its
  round trip.
- `player.dfy` (`Player`): `class MusicPlayer` and its operations, plus a
  builder `TwoSongPlayer` and four client methods (`ListSession`,
  `SearchSession`, `StepSession`, `RepeatAllSession`) that replay a two-song
  session using only the operations' contracts.

Pointers are indices into an arena `songs: seq<Song>`. The program only ever
appends nodes and never unlinks them, so a node's index is also its position
in the list. `MusicPlayer.Valid()` says the arena is linked in order, `head`
and `tail` are its ends, and `current` is NULL or a node of the list.
`Playlist.LinkedIsDoublyLinked` derives the list invariant from that on the
links alone:

- every `next` link is mirrored by a `prev` link, and the other way round;
- `head` has no predecessor and `tail` no successor;
- `head` and `tail` are NULL together, exactly when the list is empty.

Two behaviours of the code are easy to get wrong, and the model keeps them as
written:

- A line with no comma does not load with an empty path. `line.find(",")` is
  `npos`, and `npos + 1` wraps to 0. So the name and the path are both the
  whole line.
- Durations are printed as `d / 60` and `d % 60` with no zero padding, so
  180 seconds shows as `3:0`, not `3:00`. The model keeps the pair of numbers.

## Model

| member | source | states |
|---|---|---|
| `Text.Lower` | musicplayer.cpp:83-88 | lower-casing keeps the length, leaves no ASCII capital, moves each capital to its lower-case letter (+32) and keeps every other character |
| `Text.Find` | musicplayer.cpp:90 | `find` returns a position at or after the start where the pattern occurs, with no earlier occurrence; `npos` (None) means it occurs nowhere at or after the start |
| `Text.MatchesIff` | musicplayer.cpp:83-90 | a name matches a keyword exactly when the lower-cased keyword occurs somewhere in the lower-cased name |
| `Text.LowerIdempotent` | musicplayer.cpp:83-88 | lower-casing an already lower-cased string changes nothing |
| `Duration.Clock` | musicplayer.cpp:74-76 | the printed minutes and seconds give back the duration (`minutes*60 + seconds == d`) and the seconds are below 60 |
| `Duration.ClockUnique` | musicplayer.cpp:65-66 | any minutes/seconds pair with seconds below 60 that sums to the duration is the printed one |
| `Playlist.LinkedIsDoublyLinked` | musicplayer.cpp:57-63 | the in-order arena is a consistent doubly linked list: links mirrored both ways, head without predecessor, tail without successor, head and tail NULL exactly when empty |
| `Playlist.WalkFromHead` | musicplayer.cpp:71-78 | following `next` from `head` reaches node k after k steps and NULL after the last node: the `while (temp)` walks visit every song once, in list order, and stop |
| `PlaylistFile.ParseLine` | musicplayer.cpp:190-193 | a line with a comma splits into a comma-free name and the rest, with `name + "," + path == line`; a line with no comma gives name and path both equal to the whole line (`npos + 1` wraps to 0) |
| `PlaylistFile.ParseSaveLine` | musicplayer.cpp:179 | a saved line `name,path` parses back to `(name, path)` when the name has no comma; the path may contain commas |
| `PlaylistFile.ParseSaveLineCommaInName` | musicplayer.cpp:191-193 | any name containing a comma does not survive the round trip: the saved line parses to the name up to its first comma, and the rest of the name, a comma and the path as the path |
| `PlaylistFile.LoadLinesCount` | musicplayer.cpp:190-195 | loading adds at most one song per line, and exactly one per line when every path probes successfully |
| `PlaylistFile.SaveThenLoad` | musicplayer.cpp:175-197 | loading the lines a playlist was saved as gives back the same songs in the same order, when no name holds a comma and every file still probes to its duration |
| `PlaylistFile.SaveThenLoadKeepsNamesAndPaths` | musicplayer.cpp:175-197 | when no name holds a comma and every file can still be opened, every saved line is shorter than `npos` and loading the saved lines gives back as many songs as were saved, with the same names and paths in the same order, each with the duration its file reports now |
| `PlaylistFile.LoadLinesAt` | musicplayer.cpp:190-195 | when every line's path probes successfully, loading gives exactly one song per line, the i-th holding the i-th line's split name and path and that path's probed duration |
| `Player.MusicPlayer.constructor` | musicplayer.cpp:42-44 | a new player has an empty list, no current song, an empty history and all modes off |
| `Player.MusicPlayer.AddSong` | musicplayer.cpp:47-63 | a failed probe changes nothing; a successful one appends exactly one entry at the tail, keeping the earlier songs in order; an empty list gets head = tail = the new node; otherwise the old tail's `next` and the new node's `prev` link the two and the new node becomes `tail`; the list invariant is kept; `current`, history and flags are untouched |
| `Player.MusicPlayer.DisplayPlaylist` | musicplayer.cpp:70-79 | one row per song, in list order, with its name and the minutes/seconds of its duration |
| `Player.MusicPlayer.SearchSong` | musicplayer.cpp:82-96 | returns the first song in list order whose name matches the keyword ignoring case, or NULL when no song matches; nothing changes |
| `Player.MusicPlayer.PlaySong` | musicplayer.cpp:99-109 | NULL is a no-op; otherwise `current` becomes the song and exactly its name is pushed on the history |
| `Player.MusicPlayer.NextSong` | musicplayer.cpp:112-138 | priority order: repeat-one with a current song replays it; else shuffle plays some song of the list; else the song after `current`; else repeat-all plays the head; otherwise `current` and history stay; each play pushes that song's name |
| `Player.MusicPlayer.PrevSong` | musicplayer.cpp:141-146 | moves `current` to the song before it and records it; with no current song or at the head nothing changes; the flags play no part |
| `Player.MusicPlayer.ToggleShuffle` | musicplayer.cpp:149-152 | flips shuffle only and reports the new state |
| `Player.MusicPlayer.ToggleRepeatOne` | musicplayer.cpp:154-157 | flips repeat-one only and reports the new state |
| `Player.MusicPlayer.ToggleRepeatAll` | musicplayer.cpp:159-162 | flips repeat-all only and reports the new state |
| `Player.MusicPlayer.ShowRecentlyPlayed` | musicplayer.cpp:165-172 | lists every played name most recent first; the history itself is unchanged |
| `Player.MusicPlayer.SaveToFile` | musicplayer.cpp:175-183 | writes one `name,path` line per song, in list order |
| `Player.MusicPlayer.AddFromLine` | musicplayer.cpp:190-194 | one pass of the load loop: splits the line at its first comma and appends what `addSong` adds for that name and path; the list invariant is kept |
| `Player.MusicPlayer.LoadFromFile` | musicplayer.cpp:186-197 | appends, behind the songs already listed, what each line's split name and path add through `addSong`, in file order; the list invariant is kept |

## Left out

- Audio playback (`sf::Music::openFromFile`, `play`): a foreign library. Opening a file to probe it is an input. `AddSong` takes the probed duration as an `Option`. `LoadFromFile` takes a `probe` function from path to duration. Playing has no effect beyond setting `current` and recording the name.
- The float-to-`int` conversion of the duration: floating point. Durations are taken as whole seconds (`nat`), so the 32-bit `int` width never matters.
- Shuffle's randomness (`std::shuffle` seeded with `time(0)`): `NextSong` picks any song of the list, with no claim about distribution or coverage.
- `Player.MusicPlayer.NextSong`: requires a non-empty list when the shuffle branch is reached. The program then reads `songs[0]` of an empty vector, which is undefined behaviour, so this case has no behaviour to model.
- Strings are modelled as sequences of characters, not of the bytes a `std::string` holds. `::tolower` is taken to change only `A`-`Z`; its undefined behaviour on negative `char` values (bytes of multi-byte characters) is not modelled. For valid UTF-8 text the comma split, the substring test and the lower-casing agree with the byte-level program.
- File handling (`ofstream`/`ifstream`, `getline`): a file is its sequence of lines. A name or path containing a line break, which would split one record in two, is not modelled.
- `PlaylistFile.ParseLine`: takes a `Line`, a string shorter than `npos`, and so do `LoadLine`, `LoadLines` and `LoadFromFile`. A `std::string` can never be that long, so this excludes no line the program can read.
- Console output (`cout`), the menu loop in `main` and its `cin` parsing: user interface only. The toggles return the state they print. `DisplayPlaylist` and `ShowRecentlyPlayed` return the values they print.
- The unused `playNextQueue` member: no operation touches it.
- Heap allocation and the missing `delete`: pointers are arena indices. Aliasing between nodes and memory lifetime are not modelled.
