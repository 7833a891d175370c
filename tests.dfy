/** The integration scenarios of `trash-list`, each as a client of the
    model: the set-up of the test, one run, and what the two streams then
    hold. The first group lists the home trash under
    `XDG_DATA_HOME=XDG_DATA_HOME`; the second lists a volume `topdir`
    for the user id 123, with `XDG_DATA_HOME` unset. */
module TrashListTests {
  import opened Wrappers
  import opened Text
  import opened TrashInfo
  import opened FileSystem
  import opened Locator
  import opened Scanner
  import opened Report
  import opened ListCommand
  import opened Harness
  import opened ScenarioFacts

  const DataHome := "XDG_DATA_HOME"
  const HomeInfo := "XDG_DATA_HOME/Trash/info"

  method ShouldOutputNothingIfNoFiles() returns (stdout: string, stderr: string)
    ensures stdout == "" && stderr == ""
  {
    var disk := new Disk();
    disk.MakeDir(DataHome, false);
    var runner := new TrashListRunner(map["XDG_DATA_HOME" := DataHome]);
    var failure := runner.Run(disk, Home);
    EmptyListing(disk.nodes, runner.environ, Home, None);
    stdout, stderr := runner.stdout, runner.stderr;
  }

  method ShouldOutputDeletionDateAndPathOfTrash() returns (stdout: string, stderr: string)
    ensures stdout == "2001-02-03 23:55:59 /aboslute/path\n" && stderr == ""
  {
    var disk := new Disk();
    var infoDir := new FakeInfoDir(HomeInfo);
    infoDir.AddTrashinfo(disk, "/aboslute/path", "2001-02-03T23:55:59");
    var runner := new TrashListRunner(map["XDG_DATA_HOME" := DataHome]);
    ghost var fs := disk.nodes;
    assert fs == Place(map[], HomeInfo, Numbered(1), File(Trashinfo("/aboslute/path", "2001-02-03T23:55:59")));
    DatedListing();
    var failure := runner.Run(disk, Home);
    stdout, stderr := runner.stdout, runner.stderr;
    ConcatOne("2001-02-03 23:55:59 /aboslute/path\n");
    CollectedNothing();
  }

  /** The home trash holding the one dated record is listed as its line. */
  lemma DatedListing()
    ensures Listing(Place(map[], HomeInfo, Numbered(1), File(Trashinfo("/aboslute/path", "2001-02-03T23:55:59"))),
                    map["XDG_DATA_HOME" := DataHome], Home, [], None)
      == Ok((["2001-02-03 23:55:59 /aboslute/path\n"], []))
  {
    assert HomeInfoDir(map["XDG_DATA_HOME" := DataHome], Home) == HomeInfo;
    DatedShapes();
    DatedLine();
    OneDatedRecord(map["XDG_DATA_HOME" := DataHome], Home, None, "/aboslute/path", "2001-02-03T23:55:59");
  }

  /** The home trash holding the three records, numbered in the order
      added, is listed in that order. */
  lemma MultipleFilesListing()
    ensures var fs := Place(Place(Place(map[], HomeInfo, Numbered(1), File(Trashinfo("/file1", "2000-01-01T00:00:01"))),
                                  HomeInfo, Numbered(2), File(Trashinfo("/file2", "2000-01-01T00:00:02"))),
                            HomeInfo, Numbered(3), File(Trashinfo("/file3", "2000-01-01T00:00:03")));
      Listing(fs, map["XDG_DATA_HOME" := DataHome], Home, [], None) == Ok((
        ["2000-01-01 00:00:01 /file1\n", "2000-01-01 00:00:02 /file2\n", "2000-01-01 00:00:03 /file3\n"], []))
  {
    assert HomeInfoDir(map["XDG_DATA_HOME" := DataHome], Home) == HomeInfo;
    FirstShapes();
    FirstLine();
    SecondShapes();
    SecondLine();
    ThirdShapes();
    ThirdLine();
    ThreeDatedRecords(map["XDG_DATA_HOME" := DataHome], Home, None, "/file1", "2000-01-01T00:00:01",
                      "/file2", "2000-01-01T00:00:02", "/file3", "2000-01-01T00:00:03");
  }

  method ShouldWorksAlsoWithMultipleFiles() returns (stdout: string, stderr: string)
    ensures stdout == "2000-01-01 00:00:01 /file1\n" + "2000-01-01 00:00:02 /file2\n" + "2000-01-01 00:00:03 /file3\n"
    ensures stderr == ""
  {
    var disk := new Disk();
    var infoDir := new FakeInfoDir(HomeInfo);
    ghost var f1, f2, f3 := File(Trashinfo("/file1", "2000-01-01T00:00:01")),
      File(Trashinfo("/file2", "2000-01-01T00:00:02")), File(Trashinfo("/file3", "2000-01-01T00:00:03"));
    assert infoDir.NextName() == Numbered(1);
    infoDir.AddTrashinfo(disk, "/file1", "2000-01-01T00:00:01");
    ghost var fs1 := disk.nodes;
    assert fs1 == Place(map[], HomeInfo, Numbered(1), f1);
    assert infoDir.NextName() == Numbered(2);
    infoDir.AddTrashinfo(disk, "/file2", "2000-01-01T00:00:02");
    ghost var fs2 := disk.nodes;
    assert fs2 == Place(fs1, HomeInfo, Numbered(2), f2);
    assert infoDir.NextName() == Numbered(3);
    infoDir.AddTrashinfo(disk, "/file3", "2000-01-01T00:00:03");
    var runner := new TrashListRunner(map["XDG_DATA_HOME" := DataHome]);
    ghost var fs := disk.nodes;
    assert fs == Place(fs2, HomeInfo, Numbered(3), f3);
    MultipleFilesListing();
    assert Listing(fs, runner.environ, Home, [], None) == Ok((
      ["2000-01-01 00:00:01 /file1\n", "2000-01-01 00:00:02 /file2\n", "2000-01-01 00:00:03 /file3\n"], []));
    var failure := runner.Run(disk, Home);
    stdout, stderr := runner.stdout, runner.stderr;
    ConcatThree("2000-01-01 00:00:01 /file1\n", "2000-01-01 00:00:02 /file2\n", "2000-01-01 00:00:03 /file3\n");
    CollectedNothing();
  }

  method ShouldOutputQuestionMarkIfDeletionDateIsNotPresent() returns (stdout: string, stderr: string)
    ensures stdout == "????-??-?? ??:??:?? /path\n" && stderr == ""
  {
    var disk := new Disk();
    var infoDir := new FakeInfoDir(HomeInfo);
    infoDir.MakeFile(disk, "without-date.trashinfo", "[TrashInfo]\n" + "Path=/path\n");
    var runner := new TrashListRunner(map["XDG_DATA_HOME" := DataHome]);
    ghost var fs := disk.nodes;
    assert HomeInfoDir(runner.environ, Home) == HomeInfo;
    UndatedShapes();
    UndatedTexts();
    UndatedLine();
    ParseWithoutDate("/path");
    OneUndatedRecord(runner.environ, Home, None, "without-date.trashinfo", "[TrashInfo]\n" + "Path=/path\n", "/path");
    assert Listing(fs, runner.environ, Home, [], None) == Ok((["????-??-?? ??:??:?? /path\n"], []));
    var failure := runner.Run(disk, Home);
    stdout, stderr := runner.stdout, runner.stderr;
    ConcatOne("????-??-?? ??:??:?? /path\n");
    CollectedNothing();
  }

  method ShouldOutputQuestionMarksIfDeletionDateIsInvalid() returns (stdout: string, stderr: string)
    ensures stdout == "????-??-?? ??:??:?? /path\n" && stderr == ""
  {
    var disk := new Disk();
    var infoDir := new FakeInfoDir(HomeInfo);
    infoDir.MakeFile(disk, "without-date.trashinfo", "[TrashInfo]\n" + "Path=/path\n" + "DeletionDate=Wrong Date");
    var runner := new TrashListRunner(map["XDG_DATA_HOME" := DataHome]);
    ghost var fs := disk.nodes;
    assert HomeInfoDir(runner.environ, Home) == HomeInfo;
    UndatedShapes();
    UndatedTexts();
    UndatedLine();
    ParseUnterminatedDate("/path", "Wrong Date");
    OneUndatedRecord(runner.environ, Home, None, "without-date.trashinfo",
                     "[TrashInfo]\n" + "Path=/path\n" + "DeletionDate=Wrong Date", "/path");
    assert Listing(fs, runner.environ, Home, [], None) == Ok((["????-??-?? ??:??:?? /path\n"], []));
    var failure := runner.Run(disk, Home);
    stdout, stderr := runner.stdout, runner.stderr;
    ConcatOne("????-??-?? ??:??:?? /path\n");
    CollectedNothing();
  }

  method ShouldWarnAboutEmptyTrashinfos() returns (stdout: string, stderr: string)
    ensures stdout == ""
    ensures stderr == "Parse Error: XDG_DATA_HOME/Trash/info/empty.trashinfo: Unable to parse Path\n"
  {
    var disk := new Disk();
    var infoDir := new FakeInfoDir(HomeInfo);
    infoDir.Touch(disk, "empty.trashinfo");
    var runner := new TrashListRunner(map["XDG_DATA_HOME" := DataHome]);
    ghost var fs := disk.nodes;
    assert HomeInfoDir(runner.environ, Home) == HomeInfo;
    EmptyName();
    EmptyLiterals();
    ParseEmpty();
    OnePathlessRecord(runner.environ, Home, None, "empty.trashinfo", "");
    var line := "Parse Error: XDG_DATA_HOME/Trash/info/empty.trashinfo: Unable to parse Path\n";
    assert Listing(fs, runner.environ, Home, [], None) == Ok(([], [line]));
    var failure := runner.Run(disk, Home);
    stdout, stderr := runner.stdout, runner.stderr;
    ConcatOne(line);
    CollectedNothing();
  }

  method ShouldWarnAboutUnreadableTrashinfo() returns (stdout: string, stderr: string)
    ensures stdout == ""
    ensures stderr == "[Errno 13] Permission denied: 'XDG_DATA_HOME/Trash/info/unreadable.trashinfo'\n"
  {
    var disk := new Disk();
    var infoDir := new FakeInfoDir(HomeInfo);
    infoDir.MakeUnreadableFile(disk, "unreadable.trashinfo");
    var runner := new TrashListRunner(map["XDG_DATA_HOME" := DataHome]);
    ghost var fs := disk.nodes;
    assert HomeInfoDir(runner.environ, Home) == HomeInfo;
    UnreadableName();
    UnreadableLiterals();
    OneUnreadableRecord(runner.environ, Home, None, "unreadable.trashinfo");
    var line := "[Errno 13] Permission denied: 'XDG_DATA_HOME/Trash/info/unreadable.trashinfo'\n";
    assert Listing(fs, runner.environ, Home, [], None) == Ok(([], [line]));
    var failure := runner.Run(disk, Home);
    stdout, stderr := runner.stdout, runner.stderr;
    ConcatOne(line);
    CollectedNothing();
  }

  method ShouldWarnAboutUnexistentPathEntry() returns (stdout: string, stderr: string)
    ensures stderr == "Parse Error: XDG_DATA_HOME/Trash/info/1.trashinfo: Unable to parse Path\n"
    ensures stdout == ""
  {
    var disk := new Disk();
    var infoDir := new FakeInfoDir(HomeInfo);
    infoDir.AddFile(disk, "[TrashInfo]\nDeletionDate='2000-01-01T00:00:00'\n");
    var runner := new TrashListRunner(map["XDG_DATA_HOME" := DataHome]);
    ghost var fs := disk.nodes;
    assert HomeInfoDir(runner.environ, Home) == HomeInfo;
    assert Numbered(1) == "1.trashinfo";
    PathlessLiterals();
    ParseWithoutPath("'2000-01-01T00:00:00'");
    NumberedNames(1, 1);
    OnePathlessRecord(runner.environ, Home, None, Numbered(1), "[TrashInfo]\nDeletionDate='2000-01-01T00:00:00'\n");
    var line := "Parse Error: XDG_DATA_HOME/Trash/info/1.trashinfo: Unable to parse Path\n";
    assert Listing(fs, runner.environ, Home, [], None) == Ok(([], [line]));
    var failure := runner.Run(disk, Home);
    stdout, stderr := runner.stdout, runner.stderr;
    ConcatOne(line);
    CollectedNothing();
  }

  // ------------------------------------------- top trash directories, uid 123

  /** The runner of the second group: no environment, uid 123, one volume. */
  method VolumeRunner() returns (runner: TrashListRunner)
    ensures fresh(runner)
    ensures runner.environ == map[] && runner.uid == Some(123) && runner.volumes == ["topdir"]
    ensures runner.stdout == "" && runner.stderr == ""
  {
    runner := new TrashListRunner(map[]);
    runner.SetFakeUid(123);
    runner.AddVolume("topdir");
  }

  method ShouldListMethod1TrashcanContents() returns (stdout: string)
    ensures stdout == "2000-01-01 00:00:00 topdir/file1\n"
  {
    var runner := VolumeRunner();
    var disk := new Disk();
    disk.MakeDir("topdir/.Trash", true);
    var trashdir := new FakeInfoDir("topdir/.Trash/123/info");
    trashdir.AddTrashinfo(disk, "file1", "2000-01-01T00:00:00");
    ghost var fs := disk.nodes;
    VolumePaths();
    VolumeShapes();
    VolumeLines();
    VolumeHomeApart();
    assert fs == Place(SetDir(map[], SharedTrash("topdir"), true), Method1InfoDir("topdir", 123), Numbered(1),
                       File(Trashinfo("file1", "2000-01-01T00:00:00")));
    Method1Listing(map[], Home, "topdir", 123, "file1", "2000-01-01T00:00:00");
    assert Listing(fs, map[], Home, ["topdir"], Some(123)) == Ok((["2000-01-01 00:00:00 topdir/file1\n"], []));
    var failure := runner.Run(disk, Home);
    stdout := runner.stdout;
    ConcatOne("2000-01-01 00:00:00 topdir/file1\n");
  }

  method ShouldIgnoreContentsWhenIsNotSticky() returns (stdout: string)
    ensures stdout == ""
  {
    var runner := VolumeRunner();
    var disk := new Disk();
    var trashdir := new FakeInfoDir("topdir/.Trash/123/info");
    trashdir.AddTrashinfo(disk, "file1", "2000-01-01T00:00:00");
    disk.MakeDir("topdir/.Trash", false);
    ghost var fs := disk.nodes;
    VolumePaths();
    VolumeShapes();
    VolumeLines();
    VolumeHomeApart();
    assert fs == SetDir(Place(map[], Method1InfoDir("topdir", 123), Numbered(1),
                              File(Trashinfo("file1", "2000-01-01T00:00:00"))), SharedTrash("topdir"), false);
    NotStickyListing(map[], Home, "topdir", 123, Trashinfo("file1", "2000-01-01T00:00:00"));
    var failure := runner.Run(disk, Home);
    stdout := runner.stdout;
    CollectedNothing();
  }

  method ShouldListMethod2TrashcanContents() returns (stdout: string)
    ensures stdout == "2000-01-01 00:00:00 topdir/file\n"
  {
    var runner := VolumeRunner();
    var disk := new Disk();
    var trashdir := new FakeInfoDir("topdir/.Trash-123/info");
    trashdir.AddTrashinfo(disk, "file", "2000-01-01T00:00:00");
    ghost var fs := disk.nodes;
    VolumePaths();
    VolumeShapes();
    VolumeLines();
    VolumeHomeApart();
    assert fs == Place(map[], Method2InfoDir("topdir", 123), Numbered(1), File(Trashinfo("file", "2000-01-01T00:00:00")));
    Method2Listing(map[], Home, "topdir", 123, "file", "2000-01-01T00:00:00");
    assert Listing(fs, map[], Home, ["topdir"], Some(123)) == Ok((["2000-01-01 00:00:00 topdir/file\n"], []));
    var failure := runner.Run(disk, Home);
    stdout := runner.stdout;
    ConcatOne("2000-01-01 00:00:00 topdir/file\n");
  }

  // Literal identities between string constants of the scenarios above:
  // steps the solver needs to evaluate them, not properties of the
  // listing. Each long literal is assembled from short pieces.

  /** Where the home directory is; only reached when `XDG_DATA_HOME` is unset. */
  const Home := "/home/user"

  lemma {:induction false} CollectedNothing()
    ensures Concat([]) == ""
  {
  }

  lemma DatedShapes()
    ensures NoNewline("/aboslute/path") && NoNewline("2001-02-03T23:55:59") && IsDateShape("2001-02-03T23:55:59")
  {
    var d := "2001-02-03T23:55:59";
    assert d[0..4] == "2001" && d[5..7] == "02" && d[8..10] == "03" && d[11..13] == "23" && d[14..16] == "55" && d[17..19] == "59";
  }

  lemma DatedLine()
    ensures "2001-02-03T23:55:59"[..10] + " " + "2001-02-03T23:55:59"[11..] + " " + "/aboslute/path" + "\n"
      == "2001-02-03 23:55:59 /aboslute/path\n"
  {
    var d := "2001-02-03T23:55:59";
    assert d[..10] == "2001-02-03";
    assert d[11..] == "23:55:59";
    assert "2001-02-03" + " " + "23:55:59" == "2001-02-03 23:55:59";
    assert "2001-02-03 23:55:59" + " " == "2001-02-03 23:55:59 ";
    assert "2001-02-03 23:55:59 " + "/aboslute/path" == "2001-02-03 23:55:59 /aboslute/path";
  }

  lemma FirstShapes()
    ensures NoNewline("/file1") && NoNewline("2000-01-01T00:00:01") && IsDateShape("2000-01-01T00:00:01")
  {
    var d := "2000-01-01T00:00:01";
    assert d[0..4] == "2000" && d[5..7] == "01" && d[8..10] == "01" && d[11..13] == "00" && d[14..16] == "00" && d[17..19] == "01";
  }

  lemma FirstLine()
    ensures "2000-01-01T00:00:01"[..10] + " " + "2000-01-01T00:00:01"[11..] + " " + "/file1" + "\n"
      == "2000-01-01 00:00:01 /file1\n"
  {
  }

  lemma SecondShapes()
    ensures NoNewline("/file2") && NoNewline("2000-01-01T00:00:02") && IsDateShape("2000-01-01T00:00:02")
  {
    var d := "2000-01-01T00:00:02";
    assert d[0..4] == "2000" && d[5..7] == "01" && d[8..10] == "01" && d[11..13] == "00" && d[14..16] == "00" && d[17..19] == "02";
  }

  lemma SecondLine()
    ensures "2000-01-01T00:00:02"[..10] + " " + "2000-01-01T00:00:02"[11..] + " " + "/file2" + "\n"
      == "2000-01-01 00:00:02 /file2\n"
  {
  }

  lemma ThirdShapes()
    ensures NoNewline("/file3") && NoNewline("2000-01-01T00:00:03") && IsDateShape("2000-01-01T00:00:03")
  {
    var d := "2000-01-01T00:00:03";
    assert d[0..4] == "2000" && d[5..7] == "01" && d[8..10] == "01" && d[11..13] == "00" && d[14..16] == "00" && d[17..19] == "03";
  }

  lemma ThirdLine()
    ensures "2000-01-01T00:00:03"[..10] + " " + "2000-01-01T00:00:03"[11..] + " " + "/file3" + "\n"
      == "2000-01-01 00:00:03 /file3\n"
  {
  }

  lemma UndatedShapes()
    ensures IsTrashinfoName("without-date.trashinfo") && NoNewline("/path") && !IsDateShape("Wrong Date")
  {
  }

  lemma UndatedTexts()
    ensures "[TrashInfo]\nPath=" + "/path" + "\n" == "[TrashInfo]\n" + "Path=/path\n"
    ensures "[TrashInfo]\nPath=" + "/path" + "\nDeletionDate=" + "Wrong Date"
      == "[TrashInfo]\n" + "Path=/path\n" + "DeletionDate=Wrong Date"
  {
  }

  lemma UndatedLine()
    ensures Placeholder + " " + "/path" + "\n" == "????-??-?? ??:??:?? /path\n"
  {
  }

  /** A name inside the home info directory of the first group. */
  lemma HomeInfoPath(name: string)
    ensures Join(HomeInfo, name) == "XDG_DATA_HOME/Trash/info/" + name
  {
  }

  lemma Regroup(a: string, b: string, c: string, d: string)
    ensures a + (b + c) + d == ((a + b) + c) + d
  {
  }

  lemma ParseErrorPrefix()
    ensures "Parse Error: " + "XDG_DATA_HOME/Trash/info/" == "Parse Error: XDG_DATA_HOME/Trash/info/"
  {
  }

  lemma EmptyPieces()
    ensures "Parse Error: XDG_DATA_HOME/Trash/info/" + "empty.trashinfo"
      == "Parse Error: XDG_DATA_HOME/Trash/info/empty.trashinfo"
    ensures "Parse Error: XDG_DATA_HOME/Trash/info/empty.trashinfo" + ": Unable to parse Path\n"
      == "Parse Error: XDG_DATA_HOME/Trash/info/empty.trashinfo: Unable to parse Path\n"
  {
  }

  lemma EmptyName()
    ensures IsTrashinfoName("empty.trashinfo")
  {
  }

  lemma EmptyLiterals()
    ensures "Parse Error: " + Join(HomeInfo, "empty.trashinfo") + ": Unable to parse Path\n"
      == "Parse Error: XDG_DATA_HOME/Trash/info/empty.trashinfo: Unable to parse Path\n"
  {
    HomeInfoPath("empty.trashinfo");
    Regroup("Parse Error: ", "XDG_DATA_HOME/Trash/info/", "empty.trashinfo", ": Unable to parse Path\n");
    ParseErrorPrefix();
    EmptyPieces();
  }

  lemma UnreadablePieces()
    ensures "[Errno 13] Permission denied: '" + "XDG_DATA_HOME/Trash/info/"
      == "[Errno 13] Permission denied: 'XDG_DATA_HOME/Trash/info/"
  {
  }

  lemma UnreadableTail()
    ensures "[Errno 13] Permission denied: 'XDG_DATA_HOME/Trash/info/" + "unreadable.trashinfo"
      == "[Errno 13] Permission denied: 'XDG_DATA_HOME/Trash/info/unreadable.trashinfo"
    ensures "[Errno 13] Permission denied: 'XDG_DATA_HOME/Trash/info/unreadable.trashinfo" + "'\n"
      == "[Errno 13] Permission denied: 'XDG_DATA_HOME/Trash/info/unreadable.trashinfo'\n"
  {
  }

  lemma UnreadableName()
    ensures IsTrashinfoName("unreadable.trashinfo")
  {
  }

  lemma UnreadableLiterals()
    ensures "[Errno 13] Permission denied: '" + Join(HomeInfo, "unreadable.trashinfo") + "'\n"
      == "[Errno 13] Permission denied: 'XDG_DATA_HOME/Trash/info/unreadable.trashinfo'\n"
  {
    HomeInfoPath("unreadable.trashinfo");
    Regroup("[Errno 13] Permission denied: '", "XDG_DATA_HOME/Trash/info/", "unreadable.trashinfo", "'\n");
    UnreadablePieces();
    UnreadableTail();
  }

  lemma PathlessText()
    ensures NoNewline("'2000-01-01T00:00:00'")
    ensures "[TrashInfo]\nDeletionDate=" + "'2000-01-01T00:00:00'" == "[TrashInfo]\nDeletionDate='2000-01-01T00:00:00'"
  {
  }

  lemma PathlessTextEnd()
    ensures "[TrashInfo]\nDeletionDate='2000-01-01T00:00:00'" + "\n" == "[TrashInfo]\nDeletionDate='2000-01-01T00:00:00'\n"
  {
  }

  lemma PathlessPieces()
    ensures "Parse Error: XDG_DATA_HOME/Trash/info/" + "1.trashinfo"
      == "Parse Error: XDG_DATA_HOME/Trash/info/1.trashinfo"
    ensures "Parse Error: XDG_DATA_HOME/Trash/info/1.trashinfo" + ": Unable to parse Path\n"
      == "Parse Error: XDG_DATA_HOME/Trash/info/1.trashinfo: Unable to parse Path\n"
  {
  }

  lemma PathlessLiterals()
    ensures NoNewline("'2000-01-01T00:00:00'")
    ensures "[TrashInfo]\nDeletionDate=" + "'2000-01-01T00:00:00'" + "\n"
      == "[TrashInfo]\nDeletionDate='2000-01-01T00:00:00'\n"
    ensures "Parse Error: " + Join(HomeInfo, "1.trashinfo") + ": Unable to parse Path\n"
      == "Parse Error: XDG_DATA_HOME/Trash/info/1.trashinfo: Unable to parse Path\n"
  {
    PathlessText();
    PathlessTextEnd();
    HomeInfoPath("1.trashinfo");
    Regroup("Parse Error: ", "XDG_DATA_HOME/Trash/info/", "1.trashinfo", ": Unable to parse Path\n");
    ParseErrorPrefix();
    PathlessPieces();
  }

  lemma VolumePaths()
    ensures SharedTrash("topdir") == "topdir/.Trash"
    ensures Method1InfoDir("topdir", 123) == "topdir/.Trash/123/info"
    ensures Method2InfoDir("topdir", 123) == "topdir/.Trash-123/info"
    ensures Numbered(1) == "1.trashinfo"
  {
    UidDigits();
  }

  lemma UidDigits()
    ensures Decimal(123) == "123"
  {
    assert Decimal(1) == "1";
    assert Decimal(12) == "12";
  }

  /** With `XDG_DATA_HOME` unset, the home trash is an absolute path and so
      none of the relative paths under `topdir`. */
  lemma HomeApart(p: string)
    ensures HomeInfoDir(map[], Home) == "/home/user/.local/share/Trash/info"
    ensures |p| > 0 && p[0] == 't' ==> HomeInfoDir(map[], Home) != p
  {
  }

  lemma VolumeShapes()
    ensures NoNewline("file1") && NoNewline("file") && NoNewline("2000-01-01T00:00:00") && IsDateShape("2000-01-01T00:00:00")
  {
    var d := "2000-01-01T00:00:00";
    assert d[0..4] == "2000" && d[5..7] == "01" && d[8..10] == "01" && d[11..13] == "00" && d[14..16] == "00" && d[17..19] == "00";
  }

  lemma VolumeStamp()
    ensures "2000-01-01T00:00:00"[..10] + " " + "2000-01-01T00:00:00"[11..] + " " + "topdir" + "/"
      == "2000-01-01 00:00:00 topdir/"
  {
    var d := "2000-01-01T00:00:00";
    assert d[..10] == "2000-01-01" && d[11..] == "00:00:00";
    assert "2000-01-01" + " " == "2000-01-01 ";
    assert "2000-01-01 " + "00:00:00" == "2000-01-01 00:00:00";
    assert "2000-01-01 00:00:00" + " " == "2000-01-01 00:00:00 ";
    assert "2000-01-01 00:00:00 " + "topdir" == "2000-01-01 00:00:00 topdir";
  }

  lemma VolumeLines()
    ensures "2000-01-01T00:00:00"[..10] + " " + "2000-01-01T00:00:00"[11..] + " " + "topdir" + "/" + "file1" + "\n"
      == "2000-01-01 00:00:00 topdir/file1\n"
    ensures "2000-01-01T00:00:00"[..10] + " " + "2000-01-01T00:00:00"[11..] + " " + "topdir" + "/" + "file" + "\n"
      == "2000-01-01 00:00:00 topdir/file\n"
  {
    VolumeStamp();
    assert "2000-01-01 00:00:00 topdir/" + "file1" == "2000-01-01 00:00:00 topdir/file1";
    assert "2000-01-01 00:00:00 topdir/" + "file" == "2000-01-01 00:00:00 topdir/file";
  }

  /** The home trash is none of the paths the volume scenarios write. */
  lemma VolumeHomeApart()
    ensures HomeInfoDir(map[], Home) != SharedTrash("topdir")
    ensures HomeInfoDir(map[], Home) != Method1InfoDir("topdir", 123)
    ensures HomeInfoDir(map[], Home) != Join(Method1InfoDir("topdir", 123), Numbered(1))
    ensures HomeInfoDir(map[], Home) != Method2InfoDir("topdir", 123)
    ensures HomeInfoDir(map[], Home) != Join(Method2InfoDir("topdir", 123), Numbered(1))
  {
    VolumePaths();
    HomeApart(SharedTrash("topdir"));
    HomeApart(Method1InfoDir("topdir", 123));
    HomeApart(Join(Method1InfoDir("topdir", 123), Numbered(1)));
    HomeApart(Method2InfoDir("topdir", 123));
    HomeApart(Join(Method2InfoDir("topdir", 123), Numbered(1)));
  }
}
