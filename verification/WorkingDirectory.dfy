/**
 The folder a flattened project name stands for, searched for on disk. Directories are nodes of a graph that links
 may make cyclic; one that cannot be read has no entries to give.
 */
module WorkingDirectory {
  import opened Options
  import opened Sequences

  type Dir = nat

  /** What a directory lists, in the order it lists it. `target` is what the name leads to. */
  datatype Entry = Entry(name: string, target: Dir)

  type Disk = map<Dir, seq<Entry>>

  const ROOT: Dir := 0

  predicate IsAsciiAlphanumeric(c: char) {
    'a' <= c <= 'z' || 'A' <= c <= 'Z' || '0' <= c <= '9'
  }

  /** How a name appears in a folder name: only ASCII letters and digits survive. */
  function Flatten(text: string): (r: string)
    ensures |r| == |text|
    ensures forall k :: 0 <= k < |text| ==>
              if 'a' <= text[k] <= 'z' || 'A' <= text[k] <= 'Z' || '0' <= text[k] <= '9' then r[k] == text[k] else r[k] == '-'
  {
    seq(|text|, k requires 0 <= k < |text| => if IsAsciiAlphanumeric(text[k]) then text[k] else '-')
  }

  /** Names from the root, as a path is written. */
  function PathText(names: seq<string>): string {
    if names == [] then "" else "/" + names[0] + PathText(names[1..])
  }

  predicate StartsWith(text: string, prefix: string) {
    |prefix| <= |text| && text[..|prefix|] == prefix
  }

  /** What is left after a flattened segment and a `-`, if the name goes on that way. */
  function RestAfter(remaining: string, flattened: string): (rest: Option<string>)
    ensures rest.Some? ==> remaining == flattened + "-" + rest.value && |rest.value| < |remaining|
    ensures rest.None? ==> forall r: string :: remaining != flattened + "-" + r
  {
    if StartsWith(remaining, flattened + "-") then
      assert remaining == flattened + "-" + remaining[|flattened| + 1..];
      Some(remaining[|flattened| + 1..])
    else
      assert forall r: string :: (flattened + "-" + r)[..|flattened| + 1] == flattened + "-";
      None
  }

  /** Depth-first: an entry that flattens to a start of the name is tried, and given up for the next when nothing below it fits. */
  function Descend(disk: Disk, directory: Dir, remaining: string): Option<seq<string>>
    decreases |remaining|, 1, 0
  {
    if directory !in disk then None else DescendIn(disk, disk[directory], remaining)
  }

  function DescendIn(disk: Disk, entries: seq<Entry>, remaining: string): Option<seq<string>>
    decreases |remaining|, 0, |entries|
  {
    if entries == [] then None
    else
      var entry := entries[0];
      var flattened := Flatten(entry.name);
      if remaining == flattened then Some([entry.name])
      else
        var rest := RestAfter(remaining, flattened);
        if rest.None? then DescendIn(disk, entries[1..], remaining)
        else
          var found := Descend(disk, entry.target, rest.value);
          if found.Some? then Some([entry.name] + found.value) else DescendIn(disk, entries[1..], remaining)
  }

  /** `found_on_disk`: the path, as text. */
  function FoundOnDisk(disk: Disk, folder: string): Option<string> {
    if !StartsWith(folder, "-") then None
    else
      var found := Descend(disk, ROOT, folder[1..]);
      if found.Some? then Some(PathText(found.value)) else None
  }

  // ------------------------------------------------------------------ walks

  ghost predicate LeadsOn(disk: Disk, e: Entry, names: seq<string>)
    requires names != []
    decreases |names|, 0
  {
    e.name == names[0] && (|names| == 1 || StepsDown(disk, e.target, names[1..]))
  }

  /** `names` leads down from `directory` through directories that can be read. */
  ghost predicate StepsDown(disk: Disk, directory: Dir, names: seq<string>)
    requires names != []
    decreases |names|, 1
  {
    directory in disk && exists e :: e in disk[directory] && LeadsOn(disk, e, names)
  }

  /** The flattened segments, joined by `-`. */
  ghost function Joined(names: seq<string>): string
    requires names != []
  {
    if |names| == 1 then Flatten(names[0]) else Flatten(names[0]) + "-" + Joined(names[1..])
  }

  /** A path is its names, each after a slash: a path below another is written after it. */
  lemma {:induction false} PathsAreWrittenOut(names: seq<string>, below: seq<string>, name: string)
    ensures PathText([name]) == "/" + name && PathText(names + below) == PathText(names) + PathText(below)
  {
    assert [name][1..] == [];
    if names == [] {
      assert names + below == below;
    } else {
      PathsAreWrittenOut(names[1..], below, name);
      assert (names + below)[0] == names[0] && (names + below)[1..] == names[1..] + below;
      ConcatAssociates("/" + names[0], PathText(names[1..]), PathText(below));
    }
  }

  lemma SegmentFlattens(name: string, rest: string)
    ensures Flatten("/" + name + rest) == "-" + Flatten(name) + Flatten(rest)
  {
  }

  lemma {:induction false} PathFlattensToJoined(names: seq<string>)
    requires names != []
    ensures Flatten(PathText(names)) == "-" + Joined(names)
  {
    SegmentFlattens(names[0], PathText(names[1..]));
    if |names| == 1 {
      assert Flatten(PathText(names[1..])) == "";
    } else {
      PathFlattensToJoined(names[1..]);
      assert "-" + Flatten(names[0]) + ("-" + Joined(names[1..])) == "-" + (Flatten(names[0]) + "-" + Joined(names[1..]));
    }
  }

  // ------------------------------------------------------------------ what is found

  /** What the search returns is a walk whose segments flatten to what was asked. */
  lemma {:induction false} DescendIsSound(disk: Disk, directory: Dir, remaining: string)
    requires Descend(disk, directory, remaining).Some?
    ensures var names := Descend(disk, directory, remaining).value;
            names != [] && StepsDown(disk, directory, names) && Joined(names) == remaining
    decreases |remaining|, 1, 0
  {
    var e := DescendInIsSound(disk, disk[directory], remaining);
  }

  lemma {:induction false} DescendInIsSound(disk: Disk, entries: seq<Entry>, remaining: string) returns (e: Entry)
    requires DescendIn(disk, entries, remaining).Some?
    ensures var names := DescendIn(disk, entries, remaining).value;
            names != [] && e in entries && LeadsOn(disk, e, names) && Joined(names) == remaining
    decreases |remaining|, 0, |entries|
  {
    e := entries[0];
    var flattened := Flatten(e.name);
    var rest := RestAfter(remaining, flattened);
    if remaining != flattened {
      if rest.Some? && Descend(disk, e.target, rest.value).Some? {
        DescendIsSound(disk, e.target, rest.value);
        var names := DescendIn(disk, entries, remaining).value;
        assert names[1..] == Descend(disk, e.target, rest.value).value;
      } else {
        e := DescendInIsSound(disk, entries[1..], remaining);
      }
    }
  }

  /** Whenever some walk flattens to what is asked, the search finds one. */
  lemma {:induction false} DescendIsComplete(disk: Disk, directory: Dir, names: seq<string>)
    requires names != [] && StepsDown(disk, directory, names)
    ensures Descend(disk, directory, Joined(names)).Some?
    decreases |names|, 1, 0
  {
    var e :| e in disk[directory] && LeadsOn(disk, e, names);
    var at :| 0 <= at < |disk[directory]| && disk[directory][at] == e;
    DescendInIsComplete(disk, disk[directory], at, names);
  }

  lemma {:induction false} DescendInIsComplete(disk: Disk, entries: seq<Entry>, at: nat, names: seq<string>)
    requires names != [] && at < |entries| && LeadsOn(disk, entries[at], names)
    ensures DescendIn(disk, entries, Joined(names)).Some?
    decreases |names|, 0, |entries|
  {
    if at > 0 {
      DescendInIsComplete(disk, entries[1..], at - 1, names);
    } else if |names| > 1 {
      DescendIsComplete(disk, entries[0].target, names[1..]);
      var rest := RestAfter(Joined(names), Flatten(names[0]));
      assert Joined(names) == Flatten(names[0]) + "-" + Joined(names[1..]);
      assert rest == Some(Joined(names[1..])) by {
        assert rest.Some?;
        assert (Flatten(names[0]) + "-" + rest.value)[|Flatten(names[0])| + 1..] == rest.value;
        assert (Flatten(names[0]) + "-" + Joined(names[1..]))[|Flatten(names[0])| + 1..] == Joined(names[1..]);
      }
    }
  }

  /** A path found on disk is there and flattens to the folder's name. */
  lemma FoundFlattensToTheName(disk: Disk, folder: string)
    requires FoundOnDisk(disk, folder).Some?
    ensures Flatten(FoundOnDisk(disk, folder).value) == folder
    ensures exists names :: names != [] && StepsDown(disk, ROOT, names) && FoundOnDisk(disk, folder).value == PathText(names)
  {
    var names := Descend(disk, ROOT, folder[1..]).value;
    DescendIsSound(disk, ROOT, folder[1..]);
    PathFlattensToJoined(names);
    assert folder == "-" + folder[1..];
  }

  /** One is found exactly when some path through readable directories flattens to the name. */
  lemma FoundExactlyWhenThere(disk: Disk, folder: string)
    ensures FoundOnDisk(disk, folder).Some?
            <==> exists names :: names != [] && StepsDown(disk, ROOT, names) && Flatten(PathText(names)) == folder
  {
    if FoundOnDisk(disk, folder).Some? {
      FoundFlattensToTheName(disk, folder);
    }
    if names :| names != [] && StepsDown(disk, ROOT, names) && Flatten(PathText(names)) == folder {
      PathFlattensToJoined(names);
      DescendIsComplete(disk, ROOT, names);
      assert folder[1..] == Joined(names);
    }
  }
}
