/** General facts about small listings: a home trash holding one file, a
    home trash holding three numbered records, and one volume beside an
    empty home trash. The scenarios of the integration test are instances. */
module ScenarioFacts {
  import opened Wrappers
  import opened Text
  import opened TrashInfo
  import opened FileSystem
  import opened Locator
  import opened Scanner
  import opened Report
  import opened ListCommand
  import opened Harness

  /** Numbered record names carry the suffix, and distinct numbers give
      distinct names. */
  lemma NumberedNames(a: nat, b: nat)
    ensures IsTrashinfoName(Numbered(a))
    ensures a != b ==> Numbered(a) != Numbered(b)
  {
    var na, nb := Numbered(a), Numbered(b);
    assert na[|na| - 10..] == ".trashinfo";
    assert na[..|na| - 10] == Decimal(a);
    assert nb[..|nb| - 10] == Decimal(b);
  }

  /** Files of one directory with different names have different paths,
      none of them the directory's own. */
  lemma JoinDistinct(dir: string, a: string, b: string)
    ensures Join(dir, a) != dir
    ensures a != b ==> Join(dir, a) != Join(dir, b)
  {
    assert |Join(dir, a)| > |dir|;
    assert Join(dir, a)[|dir| + 1..] == a;
    assert Join(dir, b)[|dir| + 1..] == b;
  }

  lemma ConcatOne(s: string)
    ensures Concat([s]) == s
  {
    assert [s][..0] == [];
  }

  lemma ConcatThree(a: string, b: string, c: string)
    ensures Concat([a, b, c]) == a + b + c
  {
    assert [a, b, c][..2] == [a, b];
    assert [a, b][..1] == [a];
    ConcatOne(a);
  }

  /** With no volumes the listing is the scan of the home trash alone. */
  lemma HomeOnlyListing(fs: Tree, environ: map<string, string>, home: string, uid: Option<nat>)
    ensures var dir := TrashDir(HomeInfoDir(environ, home), None);
      Listing(fs, environ, home, [], uid) == Ok((StdoutLines(Scan(fs, dir)), StderrLines(Scan(fs, dir))))
  {
    var dirs := [TrashDir(HomeInfoDir(environ, home), None)];
    assert dirs[..0] == [];
    assert ScanAll(fs, dirs) == Scan(fs, dirs[0]);
  }

  /** What the one file `name` of an info directory contributes, by kind. */
  lemma FileContribution(fs: Tree, dir: TrashDir, name: string)
    requires IsTrashinfoName(name) && Join(dir.infoDir, name) in fs
    ensures var node := fs[Join(dir.infoDir, name)];
      var results := Results(ScanFile(fs, dir, name));
      && (node.File? && Parse(node.text).Ok? ==>
            StdoutLines(results) == [FormatLine(Parse(node.text).value, DisplayPath(dir, Parse(node.text).value.path))]
            && StderrLines(results) == [])
      && (node.File? && Parse(node.text).Err? ==>
            StdoutLines(results) == [] && StderrLines(results) == [ParseErrorLine(Join(dir.infoDir, name), UnableToParsePath)])
      && (node.Unreadable? ==>
            StdoutLines(results) == [] && StderrLines(results) == [PermissionDenied(Join(dir.infoDir, name)) + "\n"])
  {
    var node := fs[Join(dir.infoDir, name)];
    if !node.Dir? {
      ResultLines(ScanFile(fs, dir, name).value);
    }
  }

  /** A home trash holding the single file `name`, written into an empty
      filesystem, lists what that file contributes and nothing else. */
  lemma SingleFileListing(environ: map<string, string>, home: string, uid: Option<nat>, name: string, node: Node)
    requires IsTrashinfoName(name) && !node.Dir?
    ensures var info := HomeInfoDir(environ, home);
      var fs := Place(map[], info, name, node);
      var results := Results(ScanFile(fs, TrashDir(info, None), name));
      Listing(fs, environ, home, [], uid) == Ok((StdoutLines(results), StderrLines(results)))
  {
    var info := HomeInfoDir(environ, home);
    var fs := Place(map[], info, name, node);
    var dir := TrashDir(info, None);
    assert Entries(fs, info) == [name];
    ScanNamesSingle(fs, dir, name);
    HomeOnlyListing(fs, environ, home, uid);
  }

  /** A home trash holding one well-formed record, written as
      `1.trashinfo`, lists exactly its line. */
  lemma OneDatedRecord(environ: map<string, string>, home: string, uid: Option<nat>, p: string, d: string)
    requires NoNewline(p) && NoNewline(d) && IsDateShape(d)
    ensures var fs := Place(map[], HomeInfoDir(environ, home), Numbered(1), File(Trashinfo(p, d)));
      Listing(fs, environ, home, [], uid) == Ok(([d[..10] + " " + d[11..] + " " + p + "\n"], []))
  {
    var info := HomeInfoDir(environ, home);
    var fs := Place(map[], info, Numbered(1), File(Trashinfo(p, d)));
    NumberedNames(1, 1);
    SingleFileListing(environ, home, uid, Numbered(1), File(Trashinfo(p, d)));
    DatedFileLines(fs, TrashDir(info, None), Numbered(1), p, d);
  }

  /** A home trash holding one record without a usable date lists its path
      under the placeholder, and reports nothing. */
  lemma OneUndatedRecord(environ: map<string, string>, home: string, uid: Option<nat>, name: string, text: string, p: string)
    requires IsTrashinfoName(name) && Parse(text) == Ok(Record(p, None))
    ensures var fs := Place(map[], HomeInfoDir(environ, home), name, File(text));
      Listing(fs, environ, home, [], uid) == Ok(([Placeholder + " " + p + "\n"], []))
  {
    var info := HomeInfoDir(environ, home);
    var fs := Place(map[], info, name, File(text));
    SingleFileListing(environ, home, uid, name, File(text));
    FileContribution(fs, TrashDir(info, None), name);
  }

  /** A home trash holding one record without a `Path` line writes the parse
      error, naming the file, and lists nothing. */
  lemma OnePathlessRecord(environ: map<string, string>, home: string, uid: Option<nat>, name: string, text: string)
    requires IsTrashinfoName(name) && Parse(text).Err?
    ensures var info := HomeInfoDir(environ, home);
      var fs := Place(map[], info, name, File(text));
      Listing(fs, environ, home, [], uid)
        == Ok(([], ["Parse Error: " + Join(info, name) + ": Unable to parse Path\n"]))
  {
    var info := HomeInfoDir(environ, home);
    var fs := Place(map[], info, name, File(text));
    SingleFileListing(environ, home, uid, name, File(text));
    FileContribution(fs, TrashDir(info, None), name);
    ParseErrorText(Join(info, name));
  }

  /** A home trash holding one unreadable record writes the permission
      error, naming the file, and lists nothing. */
  lemma OneUnreadableRecord(environ: map<string, string>, home: string, uid: Option<nat>, name: string)
    requires IsTrashinfoName(name)
    ensures var info := HomeInfoDir(environ, home);
      var fs := Place(map[], info, name, Unreadable);
      Listing(fs, environ, home, [], uid)
        == Ok(([], ["[Errno 13] Permission denied: '" + Join(info, name) + "'\n"]))
  {
    var info := HomeInfoDir(environ, home);
    var fs := Place(map[], info, name, Unreadable);
    SingleFileListing(environ, home, uid, name, Unreadable);
    FileContribution(fs, TrashDir(info, None), name);
    PermissionText(Join(info, name));
  }

  /** The results of three names of one directory, in that order. */
  lemma ScanThree(fs: Tree, dir: TrashDir, a: string, b: string, c: string)
    ensures ScanNames(fs, dir, [a, b, c])
      == Results(ScanFile(fs, dir, a)) + Results(ScanFile(fs, dir, b)) + Results(ScanFile(fs, dir, c))
  {
    assert [a, b, c] == [a] + [b] + [c];
    ScanNamesAppend(fs, dir, [a] + [b], [c]);
    ScanNamesAppend(fs, dir, [a], [b]);
    ScanNamesSingle(fs, dir, a);
    ScanNamesSingle(fs, dir, b);
    ScanNamesSingle(fs, dir, c);
  }

  /** The filesystem after writing three numbered records into `info`:
      the directory lists them in order and each path holds its file. */
  lemma ThreeWritten(info: string, f1: Node, f2: Node, f3: Node)
    ensures var fs := Place(Place(Place(map[], info, Numbered(1), f1), info, Numbered(2), f2), info, Numbered(3), f3);
      && Entries(fs, info) == [Numbered(1), Numbered(2), Numbered(3)]
      && Join(info, Numbered(1)) in fs && fs[Join(info, Numbered(1))] == f1
      && Join(info, Numbered(2)) in fs && fs[Join(info, Numbered(2))] == f2
      && Join(info, Numbered(3)) in fs && fs[Join(info, Numbered(3))] == f3
  {
    var n1, n2, n3 := Numbered(1), Numbered(2), Numbered(3);
    NumberedNames(1, 2);
    NumberedNames(2, 3);
    NumberedNames(1, 3);
    JoinDistinct(info, n1, n2);
    JoinDistinct(info, n1, n3);
    JoinDistinct(info, n2, n3);
    JoinDistinct(info, n2, n1);
    JoinDistinct(info, n3, n1);
    JoinDistinct(info, n3, n2);
  }

  /** A file holding a serialised record with a well-formed date
      contributes exactly its report line. */
  lemma DatedFileLines(fs: Tree, dir: TrashDir, name: string, p: string, d: string)
    requires IsTrashinfoName(name) && Join(dir.infoDir, name) in fs
    requires fs[Join(dir.infoDir, name)] == File(Trashinfo(p, d))
    requires NoNewline(p) && NoNewline(d) && IsDateShape(d)
    ensures StdoutLines(Results(ScanFile(fs, dir, name))) == [d[..10] + " " + d[11..] + " " + DisplayPath(dir, p) + "\n"]
    ensures StderrLines(Results(ScanFile(fs, dir, name))) == []
  {
    StoredRecordLine(p, d, DisplayPath(dir, p));
    ParseTrashinfo(p, d);
    FileContribution(fs, dir, name);
  }

  /** Three records added one after another as `1`, `2` and `3.trashinfo`
      are listed in that order, one line each. */
  lemma ThreeDatedRecords(environ: map<string, string>, home: string, uid: Option<nat>,
                          p1: string, d1: string, p2: string, d2: string, p3: string, d3: string)
    requires NoNewline(p1) && NoNewline(d1) && IsDateShape(d1)
    requires NoNewline(p2) && NoNewline(d2) && IsDateShape(d2)
    requires NoNewline(p3) && NoNewline(d3) && IsDateShape(d3)
    ensures var info := HomeInfoDir(environ, home);
      var fs := Place(Place(Place(map[], info, Numbered(1), File(Trashinfo(p1, d1))),
                            info, Numbered(2), File(Trashinfo(p2, d2))),
                      info, Numbered(3), File(Trashinfo(p3, d3)));
      Listing(fs, environ, home, [], uid) == Ok((
        [d1[..10] + " " + d1[11..] + " " + p1 + "\n",
         d2[..10] + " " + d2[11..] + " " + p2 + "\n",
         d3[..10] + " " + d3[11..] + " " + p3 + "\n"], []))
  {
    var info := HomeInfoDir(environ, home);
    var fs := Place(Place(Place(map[], info, Numbered(1), File(Trashinfo(p1, d1))),
                          info, Numbered(2), File(Trashinfo(p2, d2))),
                    info, Numbered(3), File(Trashinfo(p3, d3)));
    ThreeWritten(info, File(Trashinfo(p1, d1)), File(Trashinfo(p2, d2)), File(Trashinfo(p3, d3)));
    ThreeDatedScan(fs, TrashDir(info, None), p1, d1, p2, d2, p3, d3);
    HomeOnlyListing(fs, environ, home, uid);
  }

  lemma ThreeDatedScan(fs: Tree, dir: TrashDir, p1: string, d1: string, p2: string, d2: string, p3: string, d3: string)
    requires dir.volume.None?
    requires NoNewline(p1) && NoNewline(d1) && IsDateShape(d1)
    requires NoNewline(p2) && NoNewline(d2) && IsDateShape(d2)
    requires NoNewline(p3) && NoNewline(d3) && IsDateShape(d3)
    requires Entries(fs, dir.infoDir) == [Numbered(1), Numbered(2), Numbered(3)]
    requires Join(dir.infoDir, Numbered(1)) in fs && fs[Join(dir.infoDir, Numbered(1))] == File(Trashinfo(p1, d1))
    requires Join(dir.infoDir, Numbered(2)) in fs && fs[Join(dir.infoDir, Numbered(2))] == File(Trashinfo(p2, d2))
    requires Join(dir.infoDir, Numbered(3)) in fs && fs[Join(dir.infoDir, Numbered(3))] == File(Trashinfo(p3, d3))
    ensures StdoutLines(Scan(fs, dir)) ==
      [d1[..10] + " " + d1[11..] + " " + p1 + "\n",
       d2[..10] + " " + d2[11..] + " " + p2 + "\n",
       d3[..10] + " " + d3[11..] + " " + p3 + "\n"]
    ensures StderrLines(Scan(fs, dir)) == []
  {
    var n1, n2, n3 := Numbered(1), Numbered(2), Numbered(3);
    NumberedNames(1, 1);
    NumberedNames(2, 2);
    NumberedNames(3, 3);
    ScanThree(fs, dir, n1, n2, n3);
    DatedFileLines(fs, dir, n1, p1, d1);
    DatedFileLines(fs, dir, n2, p2, d2);
    DatedFileLines(fs, dir, n3, p3, d3);
    ThreeLines(Results(ScanFile(fs, dir, n1)), Results(ScanFile(fs, dir, n2)), Results(ScanFile(fs, dir, n3)),
               d1[..10] + " " + d1[11..] + " " + p1 + "\n",
               d2[..10] + " " + d2[11..] + " " + p2 + "\n",
               d3[..10] + " " + d3[11..] + " " + p3 + "\n");
  }

  /** Three batches of results that each give one report line give the
      three lines in order. */
  lemma ThreeLines(r1: seq<ScanResult>, r2: seq<ScanResult>, r3: seq<ScanResult>, l1: string, l2: string, l3: string)
    requires StdoutLines(r1) == [l1] && StdoutLines(r2) == [l2] && StdoutLines(r3) == [l3]
    requires StderrLines(r1) == [] && StderrLines(r2) == [] && StderrLines(r3) == []
    ensures StdoutLines(r1 + r2 + r3) == [l1, l2, l3]
    ensures StderrLines(r1 + r2 + r3) == []
  {
    LinesAppend(r1, r2);
    LinesAppend(r1 + r2, r3);
    Singletons(l1, l2, l3);
    EmptyThree(StderrLines(r1));
  }

  // Sequence identities: steps the solver needs for the lemma above, not
  // properties of the listing.

  lemma Singletons<T>(a: T, b: T, c: T)
    ensures [a] + [b] + [c] == [a, b, c]
  {
  }

  lemma EmptyThree<T>(e: seq<T>)
    requires e == []
    ensures e + e + e == []
  {
  }

  /** With one volume and a user id, the run scans the home trash, then the
      volume's directories. */
  lemma OneVolumeListing(fs: Tree, environ: map<string, string>, home: string, volume: string, uid: nat)
    ensures var dirs := [TrashDir(HomeInfoDir(environ, home), None)] + VolumeTrashDirs(fs, volume, uid);
      Listing(fs, environ, home, [volume], Some(uid)) == Ok((StdoutLines(ScanAll(fs, dirs)), StderrLines(ScanAll(fs, dirs))))
  {
    assert [volume][1..] == [];
    assert TopTrashDirs(fs, [volume], uid) == VolumeTrashDirs(fs, volume, uid) + TopTrashDirs(fs, [], uid);
    assert TopTrashDirs(fs, [], uid) == [];
    assert TopTrashDirs(fs, [volume], uid) == VolumeTrashDirs(fs, volume, uid);
    assert Locate(fs, HomeInfoDir(environ, home), [volume], Some(uid))
      == Ok([TrashDir(HomeInfoDir(environ, home), None)] + VolumeTrashDirs(fs, volume, uid));
  }

  /** The paths the two layouts of a volume use never coincide with each
      other, nor with the shared `.Trash` itself. */
  lemma LayoutPathsDiffer(volume: string, uid: nat, name: string)
    ensures SharedTrash(volume) != Method1InfoDir(volume, uid)
    ensures SharedTrash(volume) != Join(Method1InfoDir(volume, uid), name)
    ensures SharedTrash(volume) != Method2InfoDir(volume, uid)
    ensures SharedTrash(volume) != Join(Method2InfoDir(volume, uid), name)
    ensures Method2InfoDir(volume, uid) != Method1InfoDir(volume, uid)
    ensures Method2InfoDir(volume, uid) != Join(Method1InfoDir(volume, uid), name)
  {
    var m1 := Method1InfoDir(volume, uid);
    MethodsDiffer(volume, uid);
    assert Join(m1, name)[|volume| + 7] == m1[|volume| + 7];
    assert Method2InfoDir(volume, uid)[|volume| + 7] == '-';
  }

  /** With one volume, a listing where only the volume directory `dir`
      exists is the scan of `dir`. */
  lemma OneVolumeDirListing(fs: Tree, environ: map<string, string>, home: string, volume: string, uid: nat, k: nat)
    requires k < |VolumeTrashDirs(fs, volume, uid)|
    requires HomeInfoDir(environ, home) !in fs
    requires forall i :: 0 <= i < |VolumeTrashDirs(fs, volume, uid)| && i != k ==>
      VolumeTrashDirs(fs, volume, uid)[i].infoDir !in fs
    ensures var dir := VolumeTrashDirs(fs, volume, uid)[k];
      Listing(fs, environ, home, [volume], Some(uid)) == Ok((StdoutLines(Scan(fs, dir)), StderrLines(Scan(fs, dir))))
  {
    var vdirs := VolumeTrashDirs(fs, volume, uid);
    var homeDirs := [TrashDir(HomeInfoDir(environ, home), None)];
    OneVolumeListing(fs, environ, home, volume, uid);
    ScanAllAppend(fs, homeDirs, vdirs);
    NoneScanned(fs, homeDirs);
    OnlyOnePresent(fs, vdirs, k);
    assert [] + ScanAll(fs, vdirs) == ScanAll(fs, vdirs);
  }

  /** A volume directory listing the one serialised record `Numbered(1)`
      with a well-formed date scans to its line, under the volume root. */
  lemma VolumeRecordLines(fs: Tree, dir: TrashDir, p: string, d: string)
    requires dir.volume.Some?
    requires NoNewline(p) && NoNewline(d) && IsDateShape(d)
    requires Entries(fs, dir.infoDir) == [Numbered(1)]
    requires Join(dir.infoDir, Numbered(1)) in fs && fs[Join(dir.infoDir, Numbered(1))] == File(Trashinfo(p, d))
    ensures StdoutLines(Scan(fs, dir)) == [d[..10] + " " + d[11..] + " " + dir.volume.value + "/" + p + "\n"]
    ensures StderrLines(Scan(fs, dir)) == []
  {
    NumberedNames(1, 1);
    ScanNamesSingle(fs, dir, Numbered(1));
    DatedFileLines(fs, dir, Numbered(1), p, d);
    var v, x := dir.volume.value, d[..10] + " " + d[11..] + " ";
    assert DisplayPath(dir, p) == v + "/" + p;
    AppendAssoc(x, v + "/", p);
    AppendAssoc(x, v, "/");
  }

  /** The tree of the method-1 scenario: the shared `.Trash` made sticky,
      then one record written into `.Trash/<uid>/info`. */
  lemma Method1Tree(volume: string, uid: nat, node: Node)
    ensures var info := Method1InfoDir(volume, uid);
      var fs := Place(SetDir(map[], SharedTrash(volume), true), info, Numbered(1), node);
      && fs.Keys == {SharedTrash(volume), info, Join(info, Numbered(1))}
      && IsStickyDir(fs, SharedTrash(volume))
      && Entries(fs, info) == [Numbered(1)]
      && fs[Join(info, Numbered(1))] == node
      && Method2InfoDir(volume, uid) !in fs
  {
    LayoutPathsDiffer(volume, uid, Numbered(1));
  }

  /** The tree of the not-sticky scenario: one record written into
      `.Trash/<uid>/info`, then the shared `.Trash` made non-sticky. */
  lemma NotStickyTree(volume: string, uid: nat, node: Node)
    ensures var info := Method1InfoDir(volume, uid);
      var fs := SetDir(Place(map[], info, Numbered(1), node), SharedTrash(volume), false);
      && fs.Keys == {SharedTrash(volume), info, Join(info, Numbered(1))}
      && !IsStickyDir(fs, SharedTrash(volume))
      && Method2InfoDir(volume, uid) !in fs
  {
    LayoutPathsDiffer(volume, uid, Numbered(1));
  }

  /** The tree of the method-2 scenario: one record written into
      `<volume>/.Trash-<uid>/info`. */
  lemma Method2Tree(volume: string, uid: nat, node: Node)
    ensures var info := Method2InfoDir(volume, uid);
      var fs := Place(map[], info, Numbered(1), node);
      && fs.Keys == {info, Join(info, Numbered(1))}
      && !IsStickyDir(fs, SharedTrash(volume))
      && Entries(fs, info) == [Numbered(1)]
      && fs[Join(info, Numbered(1))] == node
  {
    LayoutPathsDiffer(volume, uid, Numbered(1));
  }

  /** Method 1: with the volume's shared `.Trash` sticky, a record in
      `.Trash/<uid>/info` is listed with its path under the volume root. */
  lemma Method1Listing(environ: map<string, string>, home: string, volume: string, uid: nat, p: string, d: string)
    requires NoNewline(p) && NoNewline(d) && IsDateShape(d)
    requires HomeInfoDir(environ, home) != SharedTrash(volume)
    requires HomeInfoDir(environ, home) != Method1InfoDir(volume, uid)
    requires HomeInfoDir(environ, home) != Join(Method1InfoDir(volume, uid), Numbered(1))
    ensures var info := Method1InfoDir(volume, uid);
      var fs := Place(SetDir(map[], SharedTrash(volume), true), info, Numbered(1), File(Trashinfo(p, d)));
      Listing(fs, environ, home, [volume], Some(uid)) == Ok(([d[..10] + " " + d[11..] + " " + volume + "/" + p + "\n"], []))
  {
    var info := Method1InfoDir(volume, uid);
    var fs := Place(SetDir(map[], SharedTrash(volume), true), info, Numbered(1), File(Trashinfo(p, d)));
    Method1Tree(volume, uid, File(Trashinfo(p, d)));
    var m1 := TrashDir(info, Some(volume));
    assert VolumeTrashDirs(fs, volume, uid)[0] == m1;
    OneVolumeDirListing(fs, environ, home, volume, uid, 0);
    VolumeRecordLines(fs, m1, p, d);
  }

  /** Method 1 is skipped when the shared `.Trash` is not sticky, even
      though its `<uid>/info` holds a record. */
  lemma NotStickyListing(environ: map<string, string>, home: string, volume: string, uid: nat, text: string)
    requires HomeInfoDir(environ, home) != SharedTrash(volume)
    requires HomeInfoDir(environ, home) != Method1InfoDir(volume, uid)
    requires HomeInfoDir(environ, home) != Join(Method1InfoDir(volume, uid), Numbered(1))
    ensures var info := Method1InfoDir(volume, uid);
      var fs := SetDir(Place(map[], info, Numbered(1), File(text)), SharedTrash(volume), false);
      Listing(fs, environ, home, [volume], Some(uid)) == Ok(([], []))
  {
    var info := Method1InfoDir(volume, uid);
    var fs := SetDir(Place(map[], info, Numbered(1), File(text)), SharedTrash(volume), false);
    NotStickyTree(volume, uid, File(text));
    var m2 := TrashDir(Method2InfoDir(volume, uid), Some(volume));
    OneVolumeDirListing(fs, environ, home, volume, uid, 0);
    ScanMissing(fs, m2);
  }

  /** Method 2: a record in `<volume>/.Trash-<uid>/info` is listed with its
      path under the volume root, with no sticky check. */
  lemma Method2Listing(environ: map<string, string>, home: string, volume: string, uid: nat, p: string, d: string)
    requires NoNewline(p) && NoNewline(d) && IsDateShape(d)
    requires HomeInfoDir(environ, home) != Method2InfoDir(volume, uid)
    requires HomeInfoDir(environ, home) != Join(Method2InfoDir(volume, uid), Numbered(1))
    ensures var info := Method2InfoDir(volume, uid);
      var fs := Place(map[], info, Numbered(1), File(Trashinfo(p, d)));
      Listing(fs, environ, home, [volume], Some(uid)) == Ok(([d[..10] + " " + d[11..] + " " + volume + "/" + p + "\n"], []))
  {
    var info := Method2InfoDir(volume, uid);
    var fs := Place(map[], info, Numbered(1), File(Trashinfo(p, d)));
    Method2Tree(volume, uid, File(Trashinfo(p, d)));
    var m2 := TrashDir(info, Some(volume));
    OneVolumeDirListing(fs, environ, home, volume, uid, 0);
    VolumeRecordLines(fs, m2, p, d);
  }

  /** The scan of a list of directories all missing but one is the scan of
      that one. */
  lemma OnlyOnePresent(fs: Tree, dirs: seq<TrashDir>, k: nat)
    requires k < |dirs|
    requires forall i :: 0 <= i < |dirs| && i != k ==> dirs[i].infoDir !in fs
    ensures ScanAll(fs, dirs) == Scan(fs, dirs[k])
  {
    var front, back := dirs[..k], dirs[k + 1..];
    assert dirs == front + [dirs[k]] + back;
    ScanAllAppend(fs, front + [dirs[k]], back);
    ScanAllAppend(fs, front, [dirs[k]]);
    assert [dirs[k]][..0] == [];
    assert ScanAll(fs, [dirs[k]]) == Scan(fs, dirs[k]);
    NoneScanned(fs, front);
    forall i | 0 <= i < |back| ensures back[i].infoDir !in fs {
      assert back[i] == dirs[k + 1 + i];
    }
    NoneScanned(fs, back);
    assert ScanAll(fs, front + [dirs[k]]) == Scan(fs, dirs[k]);
    AppendEmpty(Scan(fs, dirs[k]));
  }

  lemma {:induction false} NoneScanned(fs: Tree, dirs: seq<TrashDir>)
    requires forall i :: 0 <= i < |dirs| ==> dirs[i].infoDir !in fs
    ensures ScanAll(fs, dirs) == []
  {
    if dirs != [] {
      NoneScanned(fs, dirs[..|dirs| - 1]);
      ScanMissing(fs, dirs[|dirs| - 1]);
    }
  }
}
