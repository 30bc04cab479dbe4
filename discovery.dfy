/**
 * `find_files` (analyze.py:58-71): walk a directory tree and create one
 * fresh record per file whose name ends in ".py".
 *
 * The directory walk is an input: the sequence of (directory, file names)
 * steps the walk yields, in walk order.  The sub-directory list each step
 * also yields is not read by the source and is not part of an entry.
 * Joining a directory and a file name into a path is an abstract function.
 */
module Discovery {
  import opened Records

  /** One step of the walk: a directory and the names of the files directly in it. */
  datatype WalkEntry = WalkEntry(root: string, fileNames: seq<string>)

  /** One selected file: the directory it was found in and its name. */
  datatype Match = Match(root: string, name: string)

  /**
   * Python's `str.endswith`: the last `|suffix|` characters of `s` are
   * `suffix`.  With ".py" it is the filter of analyze.py:62: case-sensitive,
   * and the bare name ".py" is included.
   */
  predicate EndsWith(s: string, suffix: string)
    ensures EndsWith(s, suffix) <==> |suffix| <= |s| && s == s[..|s| - |suffix|] + suffix
  {
    |suffix| <= |s| && s[|s| - |suffix|..] == suffix
  }

  lemma PythonFileExamples()
    ensures EndsWith("analyze.py", ".py") && EndsWith(".py", ".py")
    ensures !EndsWith("notes.txt", ".py") && !EndsWith("cache.pyc", ".py") && !EndsWith("setup.PY", ".py")
    ensures !EndsWith("py", ".py")
  {
    assert "cache.pyc"[6..] != ".py" by { assert "cache.pyc"[6..][2] == 'c'; }
    assert "setup.PY"[5..] != ".py" by { assert "setup.PY"[5..][1] == 'P'; }
  }

  /** The selected files of one directory, in the order the walk lists them. */
  function PyFilesIn(root: string, names: seq<string>): (ms: seq<Match>)
    ensures |ms| <= |names|
    ensures forall k :: 0 <= k < |ms| ==> ms[k].root == root && EndsWith(ms[k].name, ".py") && ms[k].name in names
  {
    if names == [] then []
    else
      var last := names[|names| - 1];
      PyFilesIn(root, names[..|names| - 1]) + (if EndsWith(last, ".py") then [Match(root, last)] else [])
  }

  /** The selected files of the whole walk, directory after directory in walk order. */
  function PyFiles(walk: seq<WalkEntry>): (ms: seq<Match>)
    ensures forall k :: 0 <= k < |ms| ==> EndsWith(ms[k].name, ".py")
  {
    if walk == [] then []
    else
      var last := walk[|walk| - 1];
      PyFiles(walk[..|walk| - 1]) + PyFilesIn(last.root, last.fileNames)
  }

  /** Every selected entry has a ".py" name that some step of the walk lists under its root. */
  lemma {:induction false} PyFilesSound(walk: seq<WalkEntry>, k: nat)
    requires k < |PyFiles(walk)|
    ensures EndsWith(PyFiles(walk)[k].name, ".py")
    ensures exists e :: e in walk && e.root == PyFiles(walk)[k].root && PyFiles(walk)[k].name in e.fileNames
  {
    var init, last := walk[..|walk| - 1], walk[|walk| - 1];
    if k < |PyFiles(init)| {
      PyFilesSound(init, k);
      var e :| e in init && e.root == PyFiles(init)[k].root && PyFiles(init)[k].name in e.fileNames;
      assert e in walk;
    } else {
      assert PyFiles(walk)[k] == PyFilesIn(last.root, last.fileNames)[k - |PyFiles(init)|];
    }
  }

  /** Selection within a directory keeps list order: it distributes over concatenation. */
  lemma {:induction false} PyFilesInAppend(root: string, n1: seq<string>, n2: seq<string>)
    ensures PyFilesIn(root, n1 + n2) == PyFilesIn(root, n1) + PyFilesIn(root, n2)
  {
    if n2 != [] {
      var init := n2[..|n2| - 1];
      assert (n1 + n2)[..|n1 + n2| - 1] == n1 + init;
      PyFilesInAppend(root, n1, init);
    } else {
      assert n1 + n2 == n1;
    }
  }

  /** Selection over the walk keeps walk order: it distributes over concatenation. */
  lemma {:induction false} PyFilesAppend(w1: seq<WalkEntry>, w2: seq<WalkEntry>)
    ensures PyFiles(w1 + w2) == PyFiles(w1) + PyFiles(w2)
  {
    if w2 != [] {
      var init := w2[..|w2| - 1];
      assert (w1 + w2)[..|w1 + w2| - 1] == w1 + init;
      PyFilesAppend(w1, init);
    } else {
      assert w1 + w2 == w1;
    }
  }

  /**
   * Exactly one selected entry per occurrence of a ".py" name in the
   * directory listing, and none for any other name.
   */
  lemma {:induction false} PyFilesInCount(root: string, names: seq<string>, name: string)
    ensures multiset(PyFilesIn(root, names))[Match(root, name)] ==
            if EndsWith(name, ".py") then multiset(names)[name] else 0
  {
    if names != [] {
      var init := names[..|names| - 1];
      assert names == init + [names[|names| - 1]];
      PyFilesInCount(root, init, name);
    }
  }

  /** How often `m.name` is listed in a directory `m.root` of the walk. */
  function Occurrences(walk: seq<WalkEntry>, m: Match): nat
  {
    if walk == [] then 0
    else
      var last := walk[|walk| - 1];
      Occurrences(walk[..|walk| - 1], m) + (if last.root == m.root then multiset(last.fileNames)[m.name] else 0)
  }

  /** Over the whole walk: one selected entry per listing of a ".py" name, none for other names. */
  lemma {:induction false} PyFilesCount(walk: seq<WalkEntry>, m: Match)
    ensures multiset(PyFiles(walk))[m] == if EndsWith(m.name, ".py") then Occurrences(walk, m) else 0
  {
    if walk != [] {
      var last := walk[|walk| - 1];
      PyFilesCount(walk[..|walk| - 1], m);
      PyFilesInCount(last.root, last.fileNames, m.name);
      if last.root != m.root {
        assert m !in multiset(PyFilesIn(last.root, last.fileNames));
      }
    }
  }

  /** `f` is the record created for the selected file `m`: name, joined path, no blocks, both sentinels -1. */
  ghost predicate IsNewRecord(f: FileComplexity, m: Match, join: (string, string) -> string)
    reads f
  {
    f.filename == m.name && f.fullpath == join(m.root, m.name) && f.blocks == [] &&
    f.fileAvgComplexity == -1.0 && f.fileChanges == -1
  }

  /**
   * The inner loop of `find_files` (analyze.py:61-69): one fresh, distinct
   * record per ".py" name of one directory, in listing order.
   */
  method RecordsForDirectory(root: string, names: seq<string>, join: (string, string) -> string)
    returns (found: seq<FileComplexity>)
    ensures |found| == |PyFilesIn(root, names)|
    ensures forall k :: 0 <= k < |found| ==> fresh(found[k]) && IsNewRecord(found[k], PyFilesIn(root, names)[k], join)
    ensures forall k, l :: 0 <= k < l < |found| ==> found[k] != found[l]
  {
    found := [];
    var j := 0;
    while j < |names|
      invariant 0 <= j <= |names|
      invariant |found| == |PyFilesIn(root, names[..j])|
      invariant forall k :: 0 <= k < |found| ==> fresh(found[k]) && IsNewRecord(found[k], PyFilesIn(root, names[..j])[k], join)
      invariant forall k, l :: 0 <= k < l < |found| ==> found[k] != found[l]
    {
      var file := names[j];
      assert names[..j + 1][..j] == names[..j];
      assert PyFilesIn(root, names[..j + 1]) ==
        PyFilesIn(root, names[..j]) + (if EndsWith(file, ".py") then [Match(root, file)] else []);
      if EndsWith(file, ".py") {
        var record := new FileComplexity(file, join(root, file), [], -1.0, -1);
        found := found + [record];
      }
      j := j + 1;
    }
    assert names[..j] == names;
  }

  /**
   * `find_files`: one fresh, distinct record per selected file, in walk
   * order, each initialised by `IsNewRecord`.
   */
  method FindFiles(walk: seq<WalkEntry>, join: (string, string) -> string)
    returns (filesFound: seq<FileComplexity>)
    ensures |filesFound| == |PyFiles(walk)|
    ensures forall k :: 0 <= k < |filesFound| ==> fresh(filesFound[k]) && IsNewRecord(filesFound[k], PyFiles(walk)[k], join)
    ensures forall k, l :: 0 <= k < l < |filesFound| ==> filesFound[k] != filesFound[l]
  {
    filesFound := [];
    var i := 0;
    while i < |walk|
      invariant 0 <= i <= |walk|
      invariant |filesFound| == |PyFiles(walk[..i])|
      invariant forall k :: 0 <= k < |filesFound| ==> fresh(filesFound[k]) && IsNewRecord(filesFound[k], PyFiles(walk[..i])[k], join)
      invariant forall k, l :: 0 <= k < l < |filesFound| ==> filesFound[k] != filesFound[l]
    {
      var found := RecordsForDirectory(walk[i].root, walk[i].fileNames, join);
      assert walk[..i + 1][..i] == walk[..i];
      assert PyFiles(walk[..i + 1]) == PyFiles(walk[..i]) + PyFilesIn(walk[i].root, walk[i].fileNames);
      filesFound := filesFound + found;
      i := i + 1;
    }
    assert walk[..i] == walk;
  }
}
