/** The line format of `playlist.txt`: `saveToFile` writes one line `name,path`
    per song, and `loadFromFile` splits each line it reads at its first comma
    and adds the song again, which probes the file a second time for its
    duration. Files are modelled as their sequences of lines. */
module PlaylistFile {
  import opened Common
  import opened Text
  import opened Playlist

  /** `size_t` is a 64-bit unsigned integer; `std::string::npos` is its largest
      value, and `npos + 1` wraps to 0. */
  const SIZE_T_MODULUS: nat := 0x1_0000_0000_0000_0000
  const NPOS: nat := SIZE_T_MODULUS - 1

  /** A line as a `std::string` holds it: never as long as `npos`. */
  type Line = s: string | |s| < NPOS

  /** The line `saveToFile` writes for one song (the line break is the file's
      line structure). */
  function SaveLine(name: string, path: string): string {
    name + "," + path
  }

  /** `pos = line.find(",")`, `name = line.substr(0, pos)`,
      `path = line.substr(pos + 1)`: `substr(0, pos)` clips the count to the
      string's length, and without a comma `pos + 1` wraps to 0, so both fields
      are then the whole line. */
  function ParseLine(line: Line): (r: (string, string))
    ensures ',' !in line ==> r.0 == line && r.1 == line
    ensures ',' in line ==> ',' !in r.0 && line == r.0 + "," + r.1
  {
    var pos: nat := match Find(line, ",", 0) case Some(i) => i case None => NPOS;
    // `pos + 1` in `size_t`: `pos` is at most `npos`, so it wraps only from `npos` to 0.
    var start := if pos + 1 == SIZE_T_MODULUS then 0 else pos + 1;
    assert Find(line, ",", 0).Some? ==> pos < |line| && line[pos] == ',' by {
      if Find(line, ",", 0).Some? {
        OccursAtChar(line, ',', pos);
      }
    }
    assert Find(line, ",", 0).Some? ==> ',' !in line[..pos] by {
      if Find(line, ",", 0).Some? {
        forall j | 0 <= j < pos ensures line[j] != ',' {
          OccursAtChar(line, ',', j);
        }
      }
    }
    assert Find(line, ",", 0).None? ==> ',' !in line by {
      if Find(line, ",", 0).None? {
        forall j | 0 <= j < |line| ensures line[j] != ',' {
          OccursAtChar(line, ',', j);
        }
      }
    }
    (line[..Min(pos, |line|)], line[start..])
  }

  /** A saved line reads back as the name and path it was written from, as long
      as the name has no comma (the path may hold any number of them). */
  lemma ParseSaveLine(name: string, path: string)
    requires ',' !in name
    requires |name| + 1 + |path| < NPOS
    ensures ParseLine(SaveLine(name, path)) == (name, path)
  {
    var line := SaveLine(name, path);
    assert line[|name|] == ',';
    var r := ParseLine(line);
    assert line == r.0 + "," + r.1;
    if |r.0| < |name| {
      assert false;
    } else if |r.0| > |name| {
      assert false;
    }
    assert r.0 == line[..|name|] == name;
    assert r.1 == line[|name| + 1..] == path;
  }

  /** A name with a comma in it does not survive the round trip: it is cut at
      its first comma, and the rest of the name joins the path. */
  lemma ParseSaveLineCommaInName(name: string, path: string, i: nat)
    requires i < |name| && name[i] == ',' && ',' !in name[..i]
    requires |name| + 1 + |path| < NPOS
    ensures ParseLine(SaveLine(name, path)) == (name[..i], name[i + 1..] + "," + path)
    ensures ParseLine(SaveLine(name, path)) != (name, path)
  {
    assert SaveLine(name, path) == SaveLine(name[..i], name[i + 1..] + "," + path);
    ParseSaveLine(name[..i], name[i + 1..] + "," + path);
    assert |name[..i]| < |name|;
  }

  /** What `saveToFile` writes: one line per song, in list order. */
  function SaveLines(entries: seq<Entry>): (lines: seq<string>) {
    seq(|entries|, i requires 0 <= i < |entries| => SaveLine(entries[i].name, entries[i].path))
  }

  /** What one line read by `loadFromFile` adds: the split name and path, with
      the duration the probe reports, or nothing when the probe fails. */
  function LoadLine(line: Line, probe: string -> Option<nat>): seq<Entry>
  {
    var (name, path) := ParseLine(line);
    Added(name, path, probe(path))
  }

  /** Everything `loadFromFile` appends, line by line. */
  function LoadLines(lines: seq<Line>, probe: string -> Option<nat>): seq<Entry>
  {
    if lines == [] then []
    else LoadLines(lines[..|lines| - 1], probe) + LoadLine(lines[|lines| - 1], probe)
  }

  /** Loading one more line appends what that line adds. */
  lemma LoadLinesStep(lines: seq<Line>, i: nat, probe: string -> Option<nat>)
    requires i < |lines|
    ensures LoadLines(lines[..i + 1], probe) == LoadLines(lines[..i], probe) + LoadLine(lines[i], probe)
  {
    assert lines[..i + 1][..i] == lines[..i];
  }

  /** Loading never adds more songs than the file has lines, and adds exactly
      one per line when every path still probes successfully. */
  lemma {:induction false} LoadLinesCount(lines: seq<Line>, probe: string -> Option<nat>)
    ensures |LoadLines(lines, probe)| <= |lines|
    ensures (forall line :: line in lines ==> probe(ParseLine(line).1).Some?) ==>
              |LoadLines(lines, probe)| == |lines|
  {
    if lines != [] {
      LoadLinesCount(lines[..|lines| - 1], probe);
    }
  }

  /** Saving a playlist and loading the file gives back the same songs in the
      same order, provided no name holds a comma and every file still probes
      to the duration it had. */
  lemma SaveThenLoad(entries: seq<Entry>, probe: string -> Option<nat>)
    requires forall e :: e in entries ==>
               ',' !in e.name && |e.name| + 1 + |e.path| < NPOS && probe(e.path) == Some(e.duration)
    ensures forall line :: line in SaveLines(entries) ==> |line| < NPOS
    ensures LoadLines(SaveLines(entries), probe) == entries
  {
    SaveThenLoadKeepsNamesAndPaths(entries, probe);
    var loaded := LoadLines(SaveLines(entries), probe);
    forall i | 0 <= i < |entries| ensures loaded[i] == entries[i] {
      assert entries[i] in entries;
    }
  }

  /** When every line's path probes successfully, loading adds one song per
      line, in file order, with the line's split name and path and the
      duration the probe reports. */
  lemma {:induction false} LoadLinesAt(lines: seq<Line>, probe: string -> Option<nat>)
    requires forall i :: 0 <= i < |lines| ==> probe(ParseLine(lines[i]).1).Some?
    ensures |LoadLines(lines, probe)| == |lines|
    ensures forall i :: 0 <= i < |lines| ==>
              LoadLines(lines, probe)[i] ==
                Entry(ParseLine(lines[i]).0, ParseLine(lines[i]).1, probe(ParseLine(lines[i]).1).value)
  {
    if lines != [] {
      var n := |lines| - 1;
      var front := lines[..n];
      forall i | 0 <= i < |front| ensures probe(ParseLine(front[i]).1).Some? {
        assert front[i] == lines[i];
      }
      LoadLinesAt(front, probe);
      var loaded := LoadLines(lines, probe);
      assert loaded == LoadLines(front, probe) + LoadLine(lines[n], probe);
      forall i | 0 <= i < |lines|
        ensures loaded[i] == Entry(ParseLine(lines[i]).0, ParseLine(lines[i]).1, probe(ParseLine(lines[i]).1).value)
      {
        if i < n {
          assert front[i] == lines[i];
        }
      }
    }
  }

  /** Saving and loading keeps every song's name and path, in order, as long as
      no name holds a comma and every file can still be opened; each duration
      is whatever the file reports now. */
  lemma SaveThenLoadKeepsNamesAndPaths(entries: seq<Entry>, probe: string -> Option<nat>)
    requires forall e :: e in entries ==>
               ',' !in e.name && |e.name| + 1 + |e.path| < NPOS && probe(e.path).Some?
    ensures forall line :: line in SaveLines(entries) ==> |line| < NPOS
    ensures |LoadLines(SaveLines(entries), probe)| == |entries|
    ensures forall i :: 0 <= i < |entries| ==>
              LoadLines(SaveLines(entries), probe)[i].name == entries[i].name &&
              LoadLines(SaveLines(entries), probe)[i].path == entries[i].path &&
              LoadLines(SaveLines(entries), probe)[i].duration == probe(entries[i].path).value
  {
    var saved := SaveLines(entries);
    forall i | 0 <= i < |saved| ensures |saved[i]| < NPOS && ParseLine(saved[i]) == (entries[i].name, entries[i].path) {
      assert entries[i] in entries;
      ParseSaveLine(entries[i].name, entries[i].path);
    }
    var lines: seq<Line> := saved;
    LoadLinesAt(lines, probe);
  }
}
