/** The `trash-list` command: locate the trash directories once, scan them
    in order, and write each result to standard output or standard error. */
module ListCommand {
  import opened Wrappers
  import opened Text
  import opened TrashInfo
  import opened FileSystem
  import opened Locator
  import opened Scanner
  import opened Report

  /** What a run writes, as the pair of its standard-output lines and its
      standard-error lines, or the failure that stopped it before any
      directory was scanned. */
  function Listing(fs: Tree, environ: map<string, string>, home: string, volumes: seq<string>, uid: Option<nat>)
    : (r: Result<(seq<string>, seq<string>), LocateError>)
    ensures r.Ok? <==> volumes == [] || uid.Some?
  {
    match Locate(fs, HomeInfoDir(environ, home), volumes, uid)
    case Err(e) => Err(e)
    case Ok(dirs) => Ok((StdoutLines(ScanAll(fs, dirs)), StderrLines(ScanAll(fs, dirs))))
  }

  /** What one result writes: a report line for an entry, a diagnostic for
      a failure. */
  lemma ResultLines(r: ScanResult)
    ensures StdoutLines([r]) == if r.Entry? then [FormatLine(r.record, r.displayPath)] else []
    ensures StderrLines([r]) == match r
      case Entry(_, _) => []
      case ParseError(location, failure) => [ParseErrorLine(location, failure)]
      case AccessError(_, reason) => [reason + "\n"]
  {
    assert [r][..0] == [];
  }

  /** Scans the `.trashinfo` files of one info directory in listing order,
      collecting report lines and diagnostics. A bad or unreadable record is
      reported and the scan goes on. */
  method ListDirectory(fs: Tree, dir: TrashDir) returns (out: seq<string>, err: seq<string>)
    ensures out == StdoutLines(Scan(fs, dir))
    ensures err == StderrLines(Scan(fs, dir))
  {
    out, err := [], [];
    var names := Entries(fs, dir.infoDir);
    for j := 0 to |names|
      invariant out == StdoutLines(ScanNames(fs, dir, names[..j]))
      invariant err == StderrLines(ScanNames(fs, dir, names[..j]))
    {
      var name := names[j];
      var path := Join(dir.infoDir, name);
      ghost var before, found := ScanNames(fs, dir, names[..j]), Results(ScanFile(fs, dir, name));
      assert names[..j + 1][..j] == names[..j];
      assert ScanNames(fs, dir, names[..j + 1]) == before + found;
      LinesAppend(before, found);
      var lineOut, lineErr := [], [];
      if IsTrashinfoName(name) && path in fs {
        match fs[path] {
          case Unreadable =>
            ResultLines(found[0]);
            lineErr := [PermissionDenied(path) + "\n"];
          case File(text) =>
            ResultLines(found[0]);
            match Parse(text) {
              case Err(failure) =>
                lineErr := [ParseErrorLine(path, failure)];
              case Ok(record) =>
                lineOut := [FormatLine(record, DisplayPath(dir, record.path))];
            }
          case Dir(_, _) =>
        }
      }
      assert lineOut == StdoutLines(found) && lineErr == StderrLines(found);
      out, err := out + lineOut, err + lineErr;
    }
    assert names[..|names|] == names;
  }

  /** Scans `dirs` in order, appending the report lines to `out` and the
      diagnostics to `err`. */
  method ListTrash(fs: Tree, dirs: seq<TrashDir>) returns (out: seq<string>, err: seq<string>)
    ensures out == StdoutLines(ScanAll(fs, dirs))
    ensures err == StderrLines(ScanAll(fs, dirs))
  {
    out, err := [], [];
    for i := 0 to |dirs|
      invariant out == StdoutLines(ScanAll(fs, dirs[..i]))
      invariant err == StderrLines(ScanAll(fs, dirs[..i]))
    {
      var dirOut, dirErr := ListDirectory(fs, dirs[i]);
      assert dirs[..i + 1][..i] == dirs[..i];
      LinesAppend(ScanAll(fs, dirs[..i]), Scan(fs, dirs[i]));
      out, err := out + dirOut, err + dirErr;
    }
    assert dirs[..|dirs|] == dirs;
  }

  /** `trash-list` without options: locates the directories (asking for the
      user id only when there are volumes) and lists them. When the user id
      cannot be obtained, nothing is written and the failure is returned. */
  method Run(fs: Tree, environ: map<string, string>, home: string, volumes: seq<string>, uid: Option<nat>)
    returns (out: seq<string>, err: seq<string>, failure: Option<LocateError>)
    ensures failure.None? <==> volumes == [] || uid.Some?
    ensures failure.None? ==> Listing(fs, environ, home, volumes, uid) == Ok((out, err))
    ensures failure.Some? ==> out == [] && err == [] && Listing(fs, environ, home, volumes, uid) == Err(failure.value)
  {
    match Locate(fs, HomeInfoDir(environ, home), volumes, uid) {
      case Err(e) =>
        out, err, failure := [], [], Some(e);
      case Ok(dirs) =>
        out, err := ListTrash(fs, dirs);
        failure := None;
    }
  }

  /** With no volume and an empty home trash the run writes nothing, and it
      succeeds even when the user id cannot be obtained. */
  lemma EmptyListing(fs: Tree, environ: map<string, string>, home: string, uid: Option<nat>)
    requires HomeInfoDir(environ, home) !in fs
    ensures Listing(fs, environ, home, [], uid) == Ok(([], []))
  {
    var dirs := [TrashDir(HomeInfoDir(environ, home), None)];
    assert dirs[..0] == [];
    ScanMissing(fs, dirs[0]);
    assert ScanAll(fs, dirs) == [];
  }

  /** Every scanned record gives exactly one line on one of the two sinks. */
  lemma ListingCounts(fs: Tree, environ: map<string, string>, home: string, volumes: seq<string>, uid: Option<nat>)
    requires volumes == [] || uid.Some?
    ensures var dirs := Locate(fs, HomeInfoDir(environ, home), volumes, uid).value;
      |Listing(fs, environ, home, volumes, uid).value.0| + |Listing(fs, environ, home, volumes, uid).value.1|
        == |ScanAll(fs, dirs)|
  {
    OneLinePerResult(ScanAll(fs, Locate(fs, HomeInfoDir(environ, home), volumes, uid).value));
  }
}
