# trash-list, modelled

A Dafny model of the `trash-list` command of trash-cli, as its integration
test pins it down. The model covers the trashinfo record: how the test
serialises it, and how the listing reads it back. That reading requires
the `Path` line and reads the `DeletionDate` line leniently. The model
also covers:

- the report line (`YYYY-MM-DD HH:MM:SS <path>`), with
  `????-??-?? ??:??:??` standing in for a missing or malformed date;
- the diagnostics for a record without a path and for an unreadable
  record;
- where the command looks: the home trash under `$XDG_DATA_HOME`, then
  for every volume the method-1 directory `<volume>/.Trash/<uid>/info`
  (only when `<volume>/.Trash` is a sticky directory) and the method-2
  directory `<volume>/.Trash-<uid>/info`;
- the list loop, which keeps going past bad records;
- the test scaffolding: the numbering info directory `FakeInfoDir` and the
  collecting runner `TrashListRunner`.

Modules, in dependency order:

- `Wrappers`: `Option`, `Result`.
- `Text`: line splitting and joining, digits and zero-padded numbers.
- `TrashInfo`: timestamps, the record, the serialiser and the parser.
- `FileSystem`: the tree the command reads. It is a map from path to node.
  A directory carries its sticky bit and its entries in listing order; a
  file is readable text or unreadable. `Disk` holds that tree and is
  updated in place.
- `Locator`: the trash directories, in scanning order.
- `Scanner`: one scan result per `.trashinfo` file.
- `Report`: report lines for standard output, diagnostics for standard
  error, and the collected text.
- `ListCommand`: the command itself, as the loop methods `ListDirectory`,
  `ListTrash` and `Run`, and the function `Listing` that specifies them.
- `Harness`: the classes `FakeInfoDir` and `TrashListRunner`.
- `ScenarioFacts`: what the listing writes for each kind of set-up, for
  any path and date.
- `TrashListTests`: the eleven scenarios of the test file. Each is a
  method that builds the set-up, runs the runner and promises, in its
  `ensures`, exactly the text the test expects.

The user id is an `Option<nat>`: `None` is the runner's `getuid`, which
raises until a fake uid is set. The platform's volume list is the
runner's `volumes`. The home directory is a parameter; it is only reached
when `XDG_DATA_HOME` is unset.

## Model

| member | source | states |
|---|---|---|
| TrashInfo.Trashinfo | integration_tests/test_trash_list.py:183-186 | the serialised record is the header line, `Path=<path>` and `DeletionDate=<date>`, each ended by a newline and written verbatim |
| TrashInfo.ParseTrashinfo | integration_tests/test_trash_list.py:183-186 | round trip: parsing a serialised record gives back its path verbatim and its date read leniently |
| TrashInfo.ParseTrashinfoWithDate | integration_tests/test_trash_list.py:33-40 | a record serialised with a stored timestamp parses to exactly that timestamp |
| TrashInfo.ParseDate | integration_tests/test_trash_list.py:62-69 | a date text yields a timestamp exactly when it has the shape `YYYY-MM-DDTHH:MM:SS`, and every field then fits its digit count |
| TrashInfo.ParseStoredDate | integration_tests/test_trash_list.py:33-40 | reading back a stored timestamp gives the same timestamp |
| TrashInfo.StoredDateOfParse | integration_tests/test_trash_list.py:33-40 | storing a read timestamp gives the original text back, leading zeros and all |
| TrashInfo.FormatDate | integration_tests/test_trash_list.py:40 | the listed date is the stored date with the `T` replaced by a space |
| TrashInfo.FormatParsedDate | integration_tests/test_trash_list.py:33-40 | a stored date text is listed as that text with the `T` replaced by a space |
| TrashInfo.StoredDate | integration_tests/test_trash_list.py:36 | the stored form of any timestamp has the `YYYY-MM-DDTHH:MM:SS` shape |
| TrashInfo.Field | integration_tests/test_trash_list.py:93-94 | the value of a key is the rest of the first line that starts with `key=`; there is none exactly when no line starts with `key=` |
| TrashInfo.DateTextShape | integration_tests/test_trash_list.py:40 | a rendered timestamp is 19 characters: zero-padded fields at fixed positions, the separator at position 10 |
| TrashInfo.Parse | integration_tests/test_trash_list.py:90-102 | a text fails to parse exactly when none of its lines starts with `Path=`, the failure is "Unable to parse Path", and a record has a date only when a `DeletionDate=` line of the right shape exists |
| TrashInfo.LenientDate | integration_tests/test_trash_list.py:54-69 | a missing or malformed date line gives no date, never a failure |
| TrashInfo.ParseWithoutDate | integration_tests/test_trash_list.py:54-60 | a header and a path line with no date line parse to a record without a date |
| TrashInfo.ParseUnterminatedDate | integration_tests/test_trash_list.py:62-69 | a final date line without a newline is still read, leniently: `Wrong Date` gives no date |
| TrashInfo.ParseEmpty | integration_tests/test_trash_list.py:71-79 | an empty file fails with "Unable to parse Path" |
| TrashInfo.ParseWithoutPath | integration_tests/test_trash_list.py:90-102 | a header and a date line without a path line fail with "Unable to parse Path" |
| Text.Lines | integration_tests/test_trash_list.py:93-94 | splitting at newlines gives at least one line, and no line holds a newline |
| Text.LinesJoinLines | integration_tests/test_trash_list.py:183-186 | splitting joined lines that hold no newline gives those lines back |
| Text.JoinLinesLines | integration_tests/test_trash_list.py:183-186 | joining the split lines of a text gives the text back |
| Text.NumberOfPadded | integration_tests/test_trash_list.py:36 | reading a zero-padded number that fits its width gives the number back |
| Text.PaddedNumberOf | integration_tests/test_trash_list.py:36 | padding a read digit string to its own width gives the string back |
| Text.Decimal | integration_tests/test_trash_list.py:173-174 | `str()` of a natural number: a non-empty digit string that reads back as that number |
| FileSystem.Place | integration_tests/test_trash_list.py:161-163 | writing a file makes it present with its node, lists its name once in its directory (appended if new), keeps the directory's sticky bit and changes no other path |
| FileSystem.SetDir | integration_tests/test_trash_list.py:128-132 | making a directory sticky or not keeps what it lists and changes no other path |
| FileSystem.Entries | integration_tests/test_trash_list.py:43-52 | a path that is missing or is not a directory lists no names; a directory lists its entries in listing order |
| FileSystem.Disk.Put | integration_tests/test_trash_list.py:161-163 | the disk afterwards is the old tree with the file placed |
| FileSystem.Disk.MakeDir | integration_tests/test_trash_list.py:120 | the disk afterwards is the old tree with the directory's sticky bit set as asked |
| Locator.HomeInfoDir | integration_tests/test_trash_list.py:104-111 | the home info directory is `$XDG_DATA_HOME/Trash/info`, or `<home>/.local/share/Trash/info` without the variable |
| Locator.SharedTrash | integration_tests/test_trash_list.py:120 | the shared trash of a volume is the entry `.Trash` of its top directory |
| Locator.Method1InfoDir | integration_tests/test_trash_list.py:121 | the method-1 directory is `info` inside the uid's subdirectory of the shared `.Trash`, and so lies inside that `.Trash` |
| Locator.Method2InfoDir | integration_tests/test_trash_list.py:140 | the method-2 directory is `info` inside the volume's `.Trash-<uid>`, and lies outside the shared `.Trash` |
| Locator.MethodsDiffer | integration_tests/test_trash_list.py:121 | the method-1 and method-2 directories of a volume are different paths |
| Locator.VolumeTrashDirs | integration_tests/test_trash_list.py:116-145 | a volume gives its method-1 directory, only when its `.Trash` is sticky, followed by its method-2 directory, each belonging to that volume |
| Locator.TopTrashDirs | integration_tests/test_trash_list.py:116-145 | every top directory belongs to a listed volume and is its method-2 directory or, under a sticky `.Trash`, its method-1 directory |
| Locator.Locate | integration_tests/test_trash_list.py:189-212 | locating succeeds exactly when there are no volumes or the uid is available, and the home trash comes first, then only volume directories |
| Locator.LocateWithoutVolumes | integration_tests/test_trash_list.py:104-114 | with no volume only the home trash is scanned, even while `getuid` fails |
| Locator.TopTrashDirsAppend | integration_tests/test_trash_list.py:209-210 | volumes are visited in the order they were added |
| Locator.Method1Scanned | integration_tests/test_trash_list.py:116-136 | a method-1 directory is scanned exactly when its volume is listed and its `.Trash` is a sticky directory |
| Locator.Method2Scanned | integration_tests/test_trash_list.py:138-145 | a method-2 directory is scanned exactly when its volume is listed, with no sticky check |
| Scanner.DisplayPath | integration_tests/test_trash_list.py:119-126 | a home record is listed under its stored path; a top-directory record under the volume, a slash and the stored path |
| Scanner.PermissionDenied | integration_tests/test_trash_list.py:87-89 | the permission message is `[Errno 13] Permission denied: '`, the path, and a closing quote |
| Scanner.ScanFile | integration_tests/test_trash_list.py:71-102 | a `.trashinfo` file gives an entry when it parses, a parse error naming its path when it does not, an access error with the permission message when it is unreadable; other names or directories give nothing |
| Scanner.ScanNames | integration_tests/test_trash_list.py:71-102 | at most one result per name, each naming a file of the scanned directory: an entry is shown under that directory's display path, a failure sits at a path inside its info directory |
| Scanner.Scan | integration_tests/test_trash_list.py:71-102 | at most one result per entry of the info directory, each naming a file of that directory |
| Scanner.ScanAll | integration_tests/test_trash_list.py:116-145 | every result names a file of one of the scanned directories |
| Scanner.ScanNamesAppend | integration_tests/test_trash_list.py:43-52 | scanning keeps listing order across any split of the names |
| Scanner.ScanNamesSingle | integration_tests/test_trash_list.py:71-102 | one name gives exactly the result of its file |
| Scanner.ScanAllAppend | integration_tests/test_trash_list.py:116-145 | directories are scanned in the order located |
| Scanner.ScanMissing | integration_tests/test_trash_list.py:26-31 | a directory that does not exist contributes nothing |
| Report.DateColumn | integration_tests/test_trash_list.py:54-69 | the date column is 19 characters wide, and it is the placeholder exactly when the record has no date |
| Report.FormatLine | integration_tests/test_trash_list.py:40 | a report line is the date column, a space, the path and a newline |
| Report.ParseErrorLine | integration_tests/test_trash_list.py:77-79 | a parse diagnostic is `Parse Error: `, the file's path, `: `, the reason and a newline |
| Report.ReportLines | integration_tests/test_trash_list.py:40 | an entry writes one line to standard output and a failure none |
| Report.DiagnosticLines | integration_tests/test_trash_list.py:71-102 | a failure writes one line to standard error and an entry none |
| Report.ParseErrorText | integration_tests/test_trash_list.py:77-79 | the diagnostic for a pathless record is `Parse Error: <file>: Unable to parse Path` on one line |
| Report.PermissionText | integration_tests/test_trash_list.py:87-89 | the diagnostic for an unreadable record is `[Errno 13] Permission denied: '<file>'` on one line |
| Report.StdoutLines | integration_tests/test_trash_list.py:40 | at most one standard-output line per result; the exact count, one line per entry, is stated by `Report.OneLinePerResult` |
| Report.StderrLines | integration_tests/test_trash_list.py:71-102 | at most one standard-error line per result; the exact count, one line per failure, is stated by `Report.OneLinePerResult` |
| Report.OneLinePerResult | integration_tests/test_trash_list.py:90-102 | every result gives exactly one line: entries on standard output, failures on standard error |
| Report.LinesAppend | integration_tests/test_trash_list.py:43-52 | both streams keep the order of the results |
| Report.Concat | integration_tests/test_trash_list.py:190-191 | a collector that was written nothing holds nothing; otherwise its text begins with the first line written and ends with the last |
| Report.StoredRecordLine | integration_tests/test_trash_list.py:33-40 | a well-formed serialised record is listed as its stored date with the `T` turned into a space, then its path |
| Report.UndatedRecordLine | integration_tests/test_trash_list.py:54-60 | a record without a date is listed under `????-??-?? ??:??:??` |
| Report.MalformedDateLine | integration_tests/test_trash_list.py:62-69 | a serialised record with a malformed date parses without a date and is listed under the placeholder |
| Report.ConcatAppend | integration_tests/test_trash_list.py:190-191 | a collector holds the same text whether the lines arrive in one batch or two |
| ListCommand.Listing | integration_tests/test_trash_list.py:197-206 | a run succeeds exactly when there are no volumes or the uid is available |
| ListCommand.ResultLines | integration_tests/test_trash_list.py:71-102 | an entry writes its report line to standard output; a parse failure or an access failure writes its diagnostic to standard error |
| ListCommand.ListDirectory | integration_tests/test_trash_list.py:71-102 | the loop over one info directory writes exactly the lines of its scan results, going on past bad records |
| ListCommand.ListTrash | integration_tests/test_trash_list.py:116-145 | the loop over the directories writes exactly the lines of all their results, directory after directory |
| ListCommand.Run | integration_tests/test_trash_list.py:197-206 | a run writes the listing, or nothing and returns the failure when the uid is needed and missing |
| ListCommand.EmptyListing | integration_tests/test_trash_list.py:26-31 | with no volume and no home trash nothing is written, even while `getuid` fails |
| ListCommand.ListingCounts | integration_tests/test_trash_list.py:90-102 | the two streams together hold one line per scanned record |
| Harness.FakeInfoDir.constructor | integration_tests/test_trash_list.py:158-160 | a new info directory starts numbering at 1 |
| Harness.Numbered | integration_tests/test_trash_list.py:173-174 | the n-th record name is a `.trashinfo` name whose stem is the decimal digits of n |
| Harness.FakeInfoDir.RealPath | integration_tests/test_trash_list.py:169-171 | a relative name resolves to the info directory's path, a slash and the name |
| Harness.FakeInfoDir.NextName | integration_tests/test_trash_list.py:173-174 | the next record name is a `.trashinfo` name whose stem is the decimal digits of the current counter |
| Harness.FakeInfoDir.MakeFile | integration_tests/test_trash_list.py:161-163 | the named file is written with the given contents |
| Harness.FakeInfoDir.Touch | integration_tests/test_trash_list.py:164-165 | the named file is written empty |
| Harness.FakeInfoDir.MakeUnreadableFile | integration_tests/test_trash_list.py:166-168 | the named file exists and cannot be read |
| Harness.FakeInfoDir.AddFile | integration_tests/test_trash_list.py:172-178 | the contents are written as `<number>.trashinfo`, the counter goes up by one and the written path is remembered |
| Harness.FakeInfoDir.AddTrashinfo | integration_tests/test_trash_list.py:180-181 | the serialised record is added as the next numbered file |
| Harness.TrashListRunner.constructor | integration_tests/test_trash_list.py:189-194 | a new runner has empty collectors, no volume and a failing `getuid` |
| Harness.TrashListRunner.SetFakeUid | integration_tests/test_trash_list.py:207-208 | `getuid` now gives the uid; nothing else changes |
| Harness.TrashListRunner.AddVolume | integration_tests/test_trash_list.py:209-210 | the mount point is appended to the volumes; nothing else changes |
| Harness.TrashListRunner.Run | integration_tests/test_trash_list.py:195-206 | the run appends the listing's lines to the two collectors, and writes nothing when locating fails |
| ScenarioFacts.NumberedNames | integration_tests/test_trash_list.py:172-174 | numbered records are `.trashinfo` files and distinct numbers give distinct names |
| ScenarioFacts.HomeOnlyListing | integration_tests/test_trash_list.py:104-114 | without volumes the listing is the scan of the home trash |
| ScenarioFacts.FileContribution | integration_tests/test_trash_list.py:71-102 | what one record file writes to each stream, for each kind of file |
| ScenarioFacts.SingleFileListing | integration_tests/test_trash_list.py:71-89 | with one file in the home trash the listing is exactly what that file writes |
| ScenarioFacts.DatedFileLines | integration_tests/test_trash_list.py:33-40 | a serialised dated record writes its report line to standard output and nothing to standard error |
| ScenarioFacts.OneDatedRecord | integration_tests/test_trash_list.py:33-40 | one added record is listed as its date with a space for the `T`, then its path |
| ScenarioFacts.ThreeDatedRecords | integration_tests/test_trash_list.py:42-52 | three added records are listed in the order they were added |
| ScenarioFacts.ThreeDatedScan | integration_tests/test_trash_list.py:42-52 | a directory listing three dated records writes their three lines in listing order, and no diagnostic |
| ScenarioFacts.ThreeWritten | integration_tests/test_trash_list.py:43-46 | three added records are listed by their directory in the order written |
| ScenarioFacts.OneUndatedRecord | integration_tests/test_trash_list.py:54-69 | a record that parses without a date is listed under the placeholder |
| ScenarioFacts.OnePathlessRecord | integration_tests/test_trash_list.py:71-79 | a record that fails to parse writes only the `Parse Error` line, to standard error |
| ScenarioFacts.OneUnreadableRecord | integration_tests/test_trash_list.py:81-89 | an unreadable record writes only the permission line, to standard error |
| ScenarioFacts.OneVolumeListing | integration_tests/test_trash_list.py:147-154 | with one volume the listing scans the home trash, then that volume's directories |
| ScenarioFacts.LayoutPathsDiffer | integration_tests/test_trash_list.py:120-121 | a volume's `.Trash`, its method-1 directory and its method-2 directory are different paths |
| ScenarioFacts.OneVolumeDirListing | integration_tests/test_trash_list.py:116-145 | when only one of the located directories exists, the listing is the scan of that directory |
| ScenarioFacts.VolumeRecordLines | integration_tests/test_trash_list.py:119-126 | a record in a top directory is listed under the volume, a slash and its path |
| ScenarioFacts.Method1Listing | integration_tests/test_trash_list.py:119-126 | a record under a sticky `.Trash/<uid>/info` is listed |
| ScenarioFacts.NotStickyListing | integration_tests/test_trash_list.py:128-136 | a record under a `.Trash` that is not sticky is not listed, so standard output is empty; the test checks only standard output (line 136), and that standard error is empty too is this model's own statement |
| ScenarioFacts.Method2Listing | integration_tests/test_trash_list.py:138-145 | a record under `.Trash-<uid>/info` is listed |
| ScenarioFacts.OnlyOnePresent | integration_tests/test_trash_list.py:116-145 | directories that do not exist add nothing to a scan of several |
| ScenarioFacts.NoneScanned | integration_tests/test_trash_list.py:116-145 | a scan of directories of which none exists is empty |
| TrashListTests.ShouldOutputNothingIfNoFiles | integration_tests/test_trash_list.py:26-31 | both streams are empty |
| TrashListTests.ShouldOutputDeletionDateAndPathOfTrash | integration_tests/test_trash_list.py:33-40 | standard output is `2001-02-03 23:55:59 /aboslute/path` |
| TrashListTests.DatedListing | integration_tests/test_trash_list.py:33-40 | the home trash holding the one test record is listed as its expected line |
| TrashListTests.MultipleFilesListing | integration_tests/test_trash_list.py:43-52 | the home trash holding the three test records is listed as the three expected lines, in the order added |
| TrashListTests.ShouldWorksAlsoWithMultipleFiles | integration_tests/test_trash_list.py:42-52 | standard output is the three lines in the order added |
| TrashListTests.ShouldOutputQuestionMarkIfDeletionDateIsNotPresent | integration_tests/test_trash_list.py:54-60 | standard output is `????-??-?? ??:??:?? /path` |
| TrashListTests.ShouldOutputQuestionMarksIfDeletionDateIsInvalid | integration_tests/test_trash_list.py:62-69 | standard output is `????-??-?? ??:??:?? /path` |
| TrashListTests.ShouldWarnAboutEmptyTrashinfos | integration_tests/test_trash_list.py:71-79 | standard error is the `Parse Error` line for `empty.trashinfo` |
| TrashListTests.ShouldWarnAboutUnreadableTrashinfo | integration_tests/test_trash_list.py:81-89 | standard error is the permission line for `unreadable.trashinfo` |
| TrashListTests.ShouldWarnAboutUnexistentPathEntry | integration_tests/test_trash_list.py:90-102 | standard error is the `Parse Error` line for `1.trashinfo` and standard output is empty |
| TrashListTests.VolumeRunner | integration_tests/test_trash_list.py:147-154 | the runner has uid 123, the single volume `topdir` and empty collectors |
| TrashListTests.ShouldListMethod1TrashcanContents | integration_tests/test_trash_list.py:118-126 | standard output is `2000-01-01 00:00:00 topdir/file1` |
| TrashListTests.ShouldIgnoreContentsWhenIsNotSticky | integration_tests/test_trash_list.py:128-136 | standard output is empty |
| TrashListTests.ShouldListMethod2TrashcanContents | integration_tests/test_trash_list.py:138-145 | standard output is `2000-01-01 00:00:00 topdir/file` |

## Left out

- The `--help` scenario (lines 12-24): option parsing and the help text belong to `ListCmd`, which is not part of this model.
- `trashcli.trash2.ListCmd` is not part of this model. Its behaviour is modelled from what the test expects of it: the order of the directories, the report line, the two diagnostics and the sticky check.
- `files.py` and `output_collector.py` are not part of this model. `write_file`, `make_sticky_dir`, `ensure_non_sticky_dir` and `make_unreadable_file` become `Disk.Put` and `Disk.MakeDir` on an abstract tree that starts empty. `require_empty_dir` is that empty start; only `ShouldOutputNothingIfNoFiles` also creates the emptied directory, with `Disk.MakeDir`. An `OutputCollector` becomes a string field that the run appends to.
- TrashInfo.Parse: keeps the `Path` value verbatim. Percent-unescaping of the escaped path entry is not modelled, because no scenario uses an escaped character.
- TrashInfo.Parse: does not check the `[TrashInfo]` header; no scenario omits it.
- TrashInfo.ParseDate: checks only the digit shape of the date, not calendar ranges such as month 1..12.
- Scanner.DisplayPath: a top-directory record is listed as the volume, a slash and the stored path. The model does not follow two rules of `os.path.join`: an absolute path discards the prefix, and a volume that ends in a slash, such as the mount point `/`, gets no second slash. The scenarios use only the volume `topdir` and relative paths.
- Harness.FakeInfoDir.RealPath: is `FileSystem.Join`, which agrees with `os.path.join` only for a non-empty directory path without a trailing slash and a relative name; every scenario passes such paths.
- ListCommand.Run: a raising `getuid` is modelled as a failure found before any directory is scanned, so the run writes nothing. The runner's `getuid` raises `ValueError` (lines 211-212). When `ListCmd` calls it, and what it has written by then, is outside this model. No scenario runs with a volume and no uid.
- Scanner.ScanFile: an entry named `*.trashinfo` that is a directory gives no result. Fatal I/O errors other than a permission error are not modelled.
- FileSystem.Entries: the listing order of a directory is the order its entries were created. `os.listdir` promises no order; the three-file scenario relies on creation order.
- FileSystem.Place: creates the directory it writes into but not that directory's parents. No scenario lists a parent.
- Ownership and permissions of the trash directories, other than the sticky bit and an unreadable record, are not modelled.
- Clocks, the real environment, the real mount table and the real `getuid` are parameters. They are `environ`, `volumes` and `uid` of `TrashListRunner`, plus the home directory given to `Run`.
