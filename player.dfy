/** `class MusicPlayer`: the playlist as a doubly linked list with `head`,
    `tail` and `current`, the three mode flags and the recently-played stack. */
module Player {
  import opened Common
  import opened Text
  import opened Duration
  import opened Playlist
  import opened PlaylistFile

  /** One line of `displayPlaylist`: a name with its minutes and seconds. */
  datatype Row = Row(name: string, minutes: nat, seconds: nat)

  class MusicPlayer {
    /** The nodes allocated so far; `head`, `tail`, `current` and the links in
        each node are indices into it. */
    var songs: seq<Song>
    var head: Option<nat>
    var tail: Option<nat>
    var current: Option<nat>
    /** `recentlyPlayed`: the top of the stack is the last element. */
    var history: seq<string>
    var shuffleMode: bool
    var repeatOne: bool
    var repeatAll: bool

    /** The list is linked in order, `head` and `tail` are its ends, and
        `current` is NULL or one of its nodes. */
    ghost predicate Valid()
      reads this
    {
      Linked(songs) && head == HeadOf(songs) && tail == TailOf(songs) && InList(current, songs)
    }

    constructor ()
      ensures Valid()
      ensures songs == [] && head.None? && tail.None? && current.None? && history == []
      ensures !shuffleMode && !repeatOne && !repeatAll
    {
      songs, head, tail, current := [], None, None, None;
      history := [];
      shuffleMode, repeatOne, repeatAll := false, false, false;
    }

    /** `addSong(name, path)`; `probed` is the duration the audio library reads
        from the file, or `None` when it cannot open it. */
    method AddSong(name: string, path: string, probed: Option<nat>)
      requires Valid()
      modifies this`songs, this`head, this`tail
      ensures Valid()
      ensures probed.None? ==> songs == old(songs) && head == old(head) && tail == old(tail)
      ensures Entries(songs) == old(Entries(songs)) + Added(name, path, probed)
      ensures probed.Some? && old(head).None? ==> head == tail == Some(0)
      ensures probed.Some? && old(head).Some? ==>
                head == old(head) && tail == Some(|old(songs)|) &&
                songs[old(tail).value].next == tail && songs[tail.value].prev == old(tail)
    {
      if probed.None? {
        return;
      }
      var duration := probed.value;
      songs := songs + [Song(name, path, duration, None, None)];
      var newSong := |songs| - 1;
      if head.None? {
        head, tail := Some(newSong), Some(newSong);
      } else {
        var last := tail.value;
        songs := songs[last := songs[last].(next := Some(newSong))];
        songs := songs[newSong := songs[newSong].(prev := tail)];
        tail := Some(newSong);
      }
      forall i | 0 <= i < |songs|
        ensures Entries(songs)[i] == (old(Entries(songs)) + [Entry(name, path, duration)])[i]
      {
      }
    }

    /** `displayPlaylist`: every song, head to tail, with its duration as
        minutes and seconds. */
    method DisplayPlaylist() returns (rows: seq<Row>)
      requires Valid()
      ensures |rows| == |songs|
      ensures forall i :: 0 <= i < |songs| ==>
                rows[i].name == songs[i].name && (rows[i].minutes, rows[i].seconds) == Clock(songs[i].duration)
    {
      rows := [];
      var temp := head;
      ghost var k := 0;
      while temp.Some?
        invariant k <= |songs| && temp == Walk(songs, head, k)
        invariant |rows| == k
        invariant forall i :: 0 <= i < k ==>
                    rows[i].name == songs[i].name && (rows[i].minutes, rows[i].seconds) == Clock(songs[i].duration)
        decreases |songs| - k
      {
        WalkFromHead(songs, k);
        var song := songs[temp.value];
        var (minutes, seconds) := Clock(song.duration);
        rows := rows + [Row(song.name, minutes, seconds)];
        temp := song.next;
        k := k + 1;
      }
      WalkFromHead(songs, k);
    }

    /** `searchSong(keyword)`: the first node, head to tail, whose name contains
        the keyword ignoring case; `None` when there is none. */
    method SearchSong(keyword: string) returns (found: Option<nat>)
      requires Valid()
      ensures found.Some? ==> found.value < |songs| && Matches(songs[found.value].name, keyword)
      ensures found.Some? ==> forall j :: 0 <= j < found.value ==> !Matches(songs[j].name, keyword)
      ensures found.None? ==> forall j :: 0 <= j < |songs| ==> !Matches(songs[j].name, keyword)
    {
      var key := Lower(keyword);
      var temp := head;
      ghost var k := 0;
      while temp.Some?
        invariant k <= |songs| && temp == Walk(songs, head, k)
        invariant forall j :: 0 <= j < k ==> !Matches(songs[j].name, keyword)
        decreases |songs| - k
      {
        WalkFromHead(songs, k);
        var tempName := Lower(songs[temp.value].name);
        if Find(tempName, key, 0).Some? {
          return temp;
        }
        temp := songs[temp.value].next;
        k := k + 1;
      }
      WalkFromHead(songs, k);
      return None;
    }

    /** `playSong(song)`: NULL does nothing; otherwise the song becomes current
        and its name is pushed onto the recently-played stack. */
    method PlaySong(song: Option<nat>)
      requires Valid()
      requires InList(song, songs)
      modifies this`current, this`history
      ensures Valid()
      ensures song.None? ==> current == old(current) && history == old(history)
      ensures song.Some? ==> current == song && history == old(history) + [songs[song.value].name]
    {
      if song.None? {
        return;
      }
      current := song;
      history := history + [songs[song.value].name];
    }

    /** `nextSong`: repeat-one replays the current song; otherwise shuffle plays
        some song of the list; otherwise the song after the current one;
        otherwise, under repeat-all, the first song; otherwise nothing. With
        shuffle on and an empty list the program reads `songs[0]` of an empty
        vector, so callers must not do that. */
    method NextSong()
      requires Valid()
      requires shuffleMode && !(repeatOne && current.Some?) ==> |songs| > 0
      modifies this`current, this`history
      ensures Valid()
      ensures var was, played := old(current), old(history);
        if repeatOne && was.Some? then
          current == was && history == played + [songs[was.value].name]
        else if shuffleMode then
          current.Some? && history == played + [songs[current.value].name]
        else if was.Some? && was.value + 1 < |songs| then
          current == Some(was.value + 1) && history == played + [songs[was.value + 1].name]
        else if repeatAll && |songs| > 0 then
          current == Some(0) && history == played + [songs[0].name]
        else
          current == was && history == played
    {
      if repeatOne && current.Some? {
        PlaySong(current);
        return;
      }
      if shuffleMode {
        var order: seq<nat> := [];
        var temp := head;
        ghost var k := 0;
        while temp.Some?
          invariant k <= |songs| && temp == Walk(songs, head, k)
          invariant |order| == k && forall j :: 0 <= j < k ==> order[j] == j
          invariant current == old(current) && history == old(history)
          decreases |songs| - k
        {
          WalkFromHead(songs, k);
          order := order + [temp.value];
          temp := songs[temp.value].next;
          k := k + 1;
        }
        WalkFromHead(songs, k);
        // The first song of a random permutation: any song of the list.
        var pick :| 0 <= pick < |order|;
        assert k == |songs| && order[pick] == pick;
        PlaySong(Some(order[pick]));
        return;
      }
      if current.Some? && songs[current.value].next.Some? {
        PlaySong(songs[current.value].next);
      } else if repeatAll {
        PlaySong(head);
      }
    }

    /** `prevSong`: the song before the current one, if there is one; the mode
        flags play no part. */
    method PrevSong()
      requires Valid()
      modifies this`current, this`history
      ensures Valid()
      ensures var was, played := old(current), old(history);
        if was.Some? && was.value > 0 then
          current == Some(was.value - 1) && history == played + [songs[was.value - 1].name]
        else
          current == was && history == played
    {
      if current.Some? && songs[current.value].prev.Some? {
        PlaySong(songs[current.value].prev);
      }
    }

    /** `toggleShuffle`; returns the state it reports. */
    method ToggleShuffle() returns (on: bool)
      requires Valid()
      modifies this`shuffleMode
      ensures Valid()
      ensures shuffleMode == !old(shuffleMode) && on == shuffleMode
    {
      shuffleMode := !shuffleMode;
      on := shuffleMode;
    }

    /** `toggleRepeatOne`; returns the state it reports. */
    method ToggleRepeatOne() returns (on: bool)
      requires Valid()
      modifies this`repeatOne
      ensures Valid()
      ensures repeatOne == !old(repeatOne) && on == repeatOne
    {
      repeatOne := !repeatOne;
      on := repeatOne;
    }

    /** `toggleRepeatAll`; returns the state it reports. */
    method ToggleRepeatAll() returns (on: bool)
      requires Valid()
      modifies this`repeatAll
      ensures Valid()
      ensures repeatAll == !old(repeatAll) && on == repeatAll
    {
      repeatAll := !repeatAll;
      on := repeatAll;
    }

    /** `showRecentlyPlayed`: drains a copy of the stack, so the names come out
        most recent first and the stack itself is left as it was. */
    method ShowRecentlyPlayed() returns (shown: seq<string>)
      ensures |shown| == |history|
      ensures forall i :: 0 <= i < |shown| ==> shown[i] == history[|history| - 1 - i]
    {
      var temp := history;
      shown := [];
      while temp != []
        invariant |temp| + |shown| == |history|
        invariant temp == history[..|temp|]
        invariant forall i :: 0 <= i < |shown| ==> shown[i] == history[|history| - 1 - i]
      {
        shown := shown + [temp[|temp| - 1]];
        temp := temp[..|temp| - 1];
      }
    }

    /** `saveToFile`: the lines written to `playlist.txt`, one per song in list
        order. */
    method SaveToFile() returns (lines: seq<string>)
      requires Valid()
      ensures lines == SaveLines(Entries(songs))
    {
      lines := [];
      var temp := head;
      ghost var k := 0;
      while temp.Some?
        invariant k <= |songs| && temp == Walk(songs, head, k)
        invariant lines == SaveLines(Entries(songs)[..k])
        decreases |songs| - k
      {
        WalkFromHead(songs, k);
        var song := songs[temp.value];
        lines := lines + [SaveLine(song.name, song.path)];
        temp := song.next;
        k := k + 1;
      }
      WalkFromHead(songs, k);
    }

    /** One pass of `loadFromFile`'s loop: split the line at its first comma
        and hand name and path to `addSong`, which probes the path. */
    method AddFromLine(line: Line, probe: string -> Option<nat>)
      requires Valid()
      modifies this`songs, this`head, this`tail
      ensures Valid()
      ensures Entries(songs) == old(Entries(songs)) + LoadLine(line, probe)
    {
      var (name, path) := ParseLine(line);
      AddSong(name, path, probe(path));
    }

    /** `loadFromFile`: each line of `playlist.txt`, split at its first comma,
        goes through `addSong`; `probe` stands for the audio library opening
        the path. Songs already in the list stay in front. */
    method LoadFromFile(lines: seq<Line>, probe: string -> Option<nat>)
      requires Valid()
      modifies this`songs, this`head, this`tail
      ensures Valid()
      ensures Entries(songs) == old(Entries(songs)) + LoadLines(lines, probe)
    {
      ghost var before := Entries(songs);
      ghost var added: seq<Entry> := [];
      var i := 0;
      while i < |lines|
        invariant i <= |lines|
        invariant Valid()
        invariant added == LoadLines(lines[..i], probe)
        invariant Entries(songs) == before + added
      {
        AddFromLine(lines[i], probe);
        LoadLinesStep(lines, i, probe);
        AppendAssoc(before, added, LoadLine(lines[i], probe));
        added := added + LoadLine(lines[i], probe);
        i := i + 1;
      }
      assert lines[..i] == lines;
    }
  }

  /** A fresh player after adding two playable songs, A of three minutes and
      B of ninety seconds, and one file the audio library rejects. */
  method TwoSongPlayer() returns (player: MusicPlayer)
    ensures fresh(player) && player.Valid()
    ensures Entries(player.songs) == [Entry("A", "a.mp3", 180), Entry("B", "b.mp3", 90)]
    ensures player.current.None? && player.history == []
    ensures !player.shuffleMode && !player.repeatOne && !player.repeatAll
  {
    player := new MusicPlayer();
    player.AddSong("A", "a.mp3", Some(180));
    player.AddSong("B", "b.mp3", Some(90));
    player.AddSong("C", "missing.mp3", None);
  }

  /** Listing and saving the two songs. */
  method ListSession()
  {
    var player := TwoSongPlayer();
    var rows := player.DisplayPlaylist();
    assert player.songs[0].name == Entries(player.songs)[0].name == "A";
    assert player.songs[1].name == Entries(player.songs)[1].name == "B";
    assert player.songs[0].duration == Entries(player.songs)[0].duration == 180;
    assert player.songs[1].duration == Entries(player.songs)[1].duration == 90;
    assert rows == [Row("A", 3, 0), Row("B", 1, 30)];

    var lines := player.SaveToFile();
    assert lines == SaveLines([Entry("A", "a.mp3", 180), Entry("B", "b.mp3", 90)]);
    assert lines[0] == "A,a.mp3" && lines[1] == "B,b.mp3";
  }

  /** Searching with a lower-case keyword finds the upper-case name. */
  method SearchSession()
  {
    var player := TwoSongPlayer();
    var found := player.SearchSong("b");
    assert player.songs[0].name == Entries(player.songs)[0].name == "A";
    assert player.songs[1].name == Entries(player.songs)[1].name == "B";
    assert Lower("A") == "a" && Lower("B") == "b" && Lower("b") == "b";
    assert OccursAt("b", "b", 0);
    OccursAtChar("a", 'b', 0);
    assert found == Some(1);
  }

  /** Stepping with no mode set: nothing plays until a song is chosen, and
      "next" at the last song and "previous" at the first leave it there. */
  method StepSession()
  {
    var player := TwoSongPlayer();
    assert player.songs[0].name == Entries(player.songs)[0].name == "A";
    assert player.songs[1].name == Entries(player.songs)[1].name == "B";

    player.NextSong();
    assert player.current.None? && player.history == [];
    player.PlaySong(Some(0));
    player.NextSong();
    assert player.current == Some(1) && player.history == ["A", "B"];
    player.NextSong();
    assert player.current == Some(1) && player.history == ["A", "B"];
    player.PrevSong();
    player.PrevSong();
    assert player.current == Some(0) && player.history == ["A", "B", "A"];
  }

  /** With repeat-all on, "next" wraps from the last song to the first, and
      the history lists the plays most recent first. */
  method RepeatAllSession()
  {
    var player := TwoSongPlayer();
    assert player.songs[0].name == Entries(player.songs)[0].name == "A";
    assert player.songs[1].name == Entries(player.songs)[1].name == "B";

    var on := player.ToggleRepeatAll();
    assert on;
    player.PlaySong(Some(1));
    player.NextSong();
    player.NextSong();
    assert player.current == Some(1) && player.history == ["B", "A", "B"];

    var recent := player.ShowRecentlyPlayed();
    assert recent == ["B", "A", "B"];
  }
}
