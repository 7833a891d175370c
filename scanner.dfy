/** Walking the info directories: one scan result per `.trashinfo` file, in
    listing order, directory after directory. */
module Scanner {
  import opened Wrappers
  import opened Text
  import opened TrashInfo
  import opened FileSystem
  import opened Locator

  /** What one record file gives: a listed entry, a parse failure or an
      access failure, each with the path of the file it came from. */
  datatype ScanResult =
    | Entry(record: Record, displayPath: string)
    | ParseError(location: string, failure: ParseFailure)
    | AccessError(location: string, reason: string)

  predicate IsTrashinfoName(name: string)
  {
    EndsWith(name, ".trashinfo")
  }

  /** The path a record is listed under: the stored path for the home
      trash, the volume root, a slash and the stored path for a top-level
      trash directory. */
  function DisplayPath(dir: TrashDir, path: string): (r: string)
    ensures dir.volume.None? ==> r == path
    ensures dir.volume.Some? ==> StartsWith(r, dir.volume.value + "/") && r[|dir.volume.value| + 1..] == path
  {
    match dir.volume
    case None => path
    case Some(root) =>
      var r := root + "/" + path;
      assert r[..|root| + 1] == root + "/";
      r
  }

  /** The text of the error raised when a file cannot be opened for want of
      permission. */
  function PermissionDenied(path: string): (r: string)
    ensures |r| == |path| + 32 && StartsWith(r, "[Errno 13] Permission denied: '")
    ensures r[31..|r| - 1] == path && r[|r| - 1] == '\''
  {
    "[Errno 13] Permission denied: '" + path + "'"
  }

  /** `x` names a file of `dir`: an entry is shown under the display path
      of `dir`, a failure at a path inside its info directory. */
  predicate FromDir(dir: TrashDir, x: ScanResult)
  {
    match x
    case Entry(record, displayPath) => displayPath == DisplayPath(dir, record.path)
    case ParseError(location, _) => StartsWith(location, dir.infoDir + "/")
    case AccessError(location, _) => StartsWith(location, dir.infoDir + "/")
  }

  /** `x` names a file of one of `dirs`. */
  predicate FromSomeDir(dirs: seq<TrashDir>, x: ScanResult)
  {
    exists j :: 0 <= j < |dirs| && FromDir(dirs[j], x)
  }

  /** Every one of `results` names a file of one of `dirs`. */
  predicate FromDirs(dirs: seq<TrashDir>, results: seq<ScanResult>)
  {
    forall i :: 0 <= i < |results| ==> FromSomeDir(dirs, results[i])
  }

  /** The result for the directory entry `name`: none for a name without
      the `.trashinfo` suffix or an entry that is not a file. */
  function ScanFile(fs: Tree, dir: TrashDir, name: string): (r: Option<ScanResult>)
    ensures r.Some? <==> IsTrashinfoName(name) && Join(dir.infoDir, name) in fs && !fs[Join(dir.infoDir, name)].Dir?
    ensures r.Some? && r.value.Entry? <==>
      IsTrashinfoName(name) && Join(dir.infoDir, name) in fs && fs[Join(dir.infoDir, name)].File?
        && Parse(fs[Join(dir.infoDir, name)].text).Ok?
    ensures r.Some? && r.value.Entry? ==>
      r.value.displayPath == DisplayPath(dir, r.value.record.path)
        && r.value == Entry(Parse(fs[Join(dir.infoDir, name)].text).value, DisplayPath(dir, r.value.record.path))
    ensures r.Some? && r.value.ParseError? ==> r.value == ParseError(Join(dir.infoDir, name), UnableToParsePath)
    ensures r.Some? && r.value.AccessError? <==>
      IsTrashinfoName(name) && Join(dir.infoDir, name) in fs && fs[Join(dir.infoDir, name)].Unreadable?
    ensures r.Some? && r.value.AccessError? ==>
      r.value == AccessError(Join(dir.infoDir, name), PermissionDenied(Join(dir.infoDir, name)))
    ensures r.Some? ==> FromDir(dir, r.value)
  {
    var path := Join(dir.infoDir, name);
    assert path[..|dir.infoDir| + 1] == dir.infoDir + "/";
    if !IsTrashinfoName(name) || path !in fs then None
    else match fs[path]
      case Dir(_, _) => None
      case Unreadable => Some(AccessError(path, PermissionDenied(path)))
      case File(text) =>
        match Parse(text)
        case Err(failure) => Some(ParseError(path, failure))
        case Ok(record) => Some(Entry(record, DisplayPath(dir, record.path)))
  }

  function Results(r: Option<ScanResult>): seq<ScanResult>
  {
    match r
    case None => []
    case Some(x) => [x]
  }

  /** The results of the entries `names` of `dir`, in that order. */
  function ScanNames(fs: Tree, dir: TrashDir, names: seq<string>): (r: seq<ScanResult>)
    ensures |r| <= |names|
    ensures FromDirs([dir], r)
  {
    if names == [] then []
    else
      var front, last := ScanNames(fs, dir, names[..|names| - 1]), Results(ScanFile(fs, dir, names[|names| - 1]));
      assert FromDirs([dir], last) by {
        if last != [] {
          assert FromDir([dir][0], last[0]);
        }
      }
      FromDirsAppend([dir], front, [dir], last);
      front + last
  }

  /** The results of one info directory; a missing directory gives none. */
  function Scan(fs: Tree, dir: TrashDir): (r: seq<ScanResult>)
    ensures |r| <= |Entries(fs, dir.infoDir)|
    ensures FromDirs([dir], r)
  {
    ScanNames(fs, dir, Entries(fs, dir.infoDir))
  }

  /** The results of all directories, directory after directory. */
  function ScanAll(fs: Tree, dirs: seq<TrashDir>): (r: seq<ScanResult>)
    ensures FromDirs(dirs, r)
  {
    if dirs == [] then []
    else
      var front, last := dirs[..|dirs| - 1], dirs[|dirs| - 1];
      assert front + [last] == dirs;
      FromDirsAppend(front, ScanAll(fs, front), [last], Scan(fs, last));
      ScanAll(fs, front) + Scan(fs, last)
  }

  /** Results of `a` and results of `b` together are results of `a` and
      `b` together. */
  lemma FromDirsAppend(a: seq<TrashDir>, x: seq<ScanResult>, b: seq<TrashDir>, y: seq<ScanResult>)
    requires FromDirs(a, x) && FromDirs(b, y)
    ensures FromDirs(a + b, x + y)
  {
    var dirs, results := a + b, x + y;
    forall i | 0 <= i < |results|
      ensures FromSomeDir(dirs, results[i])
    {
      if i < |x| {
        var j :| 0 <= j < |a| && FromDir(a[j], x[i]);
        assert dirs[j] == a[j] && results[i] == x[i];
      } else {
        var j :| 0 <= j < |b| && FromDir(b[j], y[i - |x|]);
        assert dirs[|a| + j] == b[j] && results[i] == y[i - |x|];
      }
    }
  }

  /** Scanning keeps listing order: the results of two runs of names are
      those of the first followed by those of the second. */
  lemma {:induction false} ScanNamesAppend(fs: Tree, dir: TrashDir, a: seq<string>, b: seq<string>)
    ensures ScanNames(fs, dir, a + b) == ScanNames(fs, dir, a) + ScanNames(fs, dir, b)
    decreases |b|
  {
    if b == [] {
      assert a + b == a;
    } else {
      var b', last := b[..|b| - 1], b[|b| - 1];
      AppendInit(a, b);
      ScanNamesAppend(fs, dir, a, b');
      assert ScanNames(fs, dir, b) == ScanNames(fs, dir, b') + Results(ScanFile(fs, dir, last));
      assert ScanNames(fs, dir, a + b) == ScanNames(fs, dir, a + b') + Results(ScanFile(fs, dir, last));
      AppendAssoc(ScanNames(fs, dir, a), ScanNames(fs, dir, b'), Results(ScanFile(fs, dir, last)));
    }
  }

  /** One result per `.trashinfo` file that is not a directory, and only
      those names: a name without the suffix adds nothing. */
  lemma ScanNamesSingle(fs: Tree, dir: TrashDir, name: string)
    ensures ScanNames(fs, dir, [name]) == Results(ScanFile(fs, dir, name))
  {
    assert [name][..0] == [];
  }

  /** Directories are scanned in the order given. */
  lemma {:induction false} ScanAllAppend(fs: Tree, a: seq<TrashDir>, b: seq<TrashDir>)
    ensures ScanAll(fs, a + b) == ScanAll(fs, a) + ScanAll(fs, b)
    decreases |b|
  {
    if b == [] {
      assert a + b == a;
    } else {
      var b', last := b[..|b| - 1], b[|b| - 1];
      AppendInit(a, b);
      ScanAllAppend(fs, a, b');
      assert ScanAll(fs, b) == ScanAll(fs, b') + Scan(fs, last);
      assert ScanAll(fs, a + b) == ScanAll(fs, a + b') + Scan(fs, last);
      AppendAssoc(ScanAll(fs, a), ScanAll(fs, b'), Scan(fs, last));
    }
  }

  /** A directory that does not exist contributes nothing. */
  lemma ScanMissing(fs: Tree, dir: TrashDir)
    requires dir.infoDir !in fs
    ensures Scan(fs, dir) == []
  {
  }
}
