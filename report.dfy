/** Turning scan results into text: entries become report lines on
    standard output, failures become diagnostic lines on standard error. */
module Report {
  import opened Wrappers
  import opened Text
  import opened TrashInfo
  import opened Scanner

  /** Shown in place of a missing or malformed deletion date. */
  const Placeholder := "????-??-?? ??:??:??"

  /** The date column of a record: its timestamp, or the placeholder. */
  function DateColumn(record: Record): (r: string)
    ensures |r| == 19
    ensures record.deletionDate.None? <==> r == Placeholder
  {
    match record.deletionDate
    case None => Placeholder
    case Some(t) =>
      var r := FormatDate(t);
      assert r[0] != Placeholder[0] by {
        DateTextShape(t, ' ');
        assert r[0] == Padded(t.year, 4)[0];
      }
      r
  }

  /** One report line: date column, a space, the path, a newline. */
  function FormatLine(record: Record, displayPath: string): (line: string)
    ensures |line| == 21 + |displayPath|
    ensures line[..19] == DateColumn(record) && line[19] == ' '
    ensures line[20..|line| - 1] == displayPath && line[|line| - 1] == '\n'
  {
    DateColumn(record) + " " + displayPath + "\n"
  }

  /** The diagnostic for a record that failed to parse. */
  function ParseErrorLine(location: string, failure: ParseFailure): (r: string)
    ensures |r| == |location| + |failure.Reason()| + 16
    ensures StartsWith(r, "Parse Error: ") && r[13..13 + |location|] == location
    ensures EndsWith(r, ": " + failure.Reason() + "\n")
  {
    "Parse Error: " + location + ": " + failure.Reason() + "\n"
  }

  /** What one result writes to standard output: its report line, for an
      entry. */
  function ReportLines(result: ScanResult): (r: seq<string>)
    ensures |r| == if result.Entry? then 1 else 0
  {
    if result.Entry? then [FormatLine(result.record, result.displayPath)] else []
  }

  /** What one result writes to standard error: its diagnostic, for a
      failure. */
  function DiagnosticLines(result: ScanResult): (r: seq<string>)
    ensures |r| == if result.Entry? then 0 else 1
  {
    match result
    case Entry(_, _) => []
    case ParseError(location, failure) => [ParseErrorLine(location, failure)]
    case AccessError(_, reason) => [reason + "\n"]
  }

  /** The diagnostic for a record without a `Path` line names the file and
      the reason, on one line. */
  lemma ParseErrorText(location: string)
    ensures ParseErrorLine(location, UnableToParsePath) == "Parse Error: " + location + ": Unable to parse Path\n"
  {
    var x := "Parse Error: " + location;
    AppendAssoc(x + ": ", "Unable to parse Path", "\n");
    AppendAssoc(x, ": ", "Unable to parse Path" + "\n");
    ReasonText();
  }

  // A literal identity: a step the solver needs for `ParseErrorText`.
  lemma ReasonText()
    ensures ": " + ("Unable to parse Path" + "\n") == ": Unable to parse Path\n"
  {
    assert "Unable to parse Path" + "\n" == "Unable to parse Path\n";
  }

  /** The diagnostic for an unreadable record quotes its path, on one line. */
  lemma PermissionText(path: string)
    ensures PermissionDenied(path) + "\n" == "[Errno 13] Permission denied: '" + path + "'\n"
  {
    AppendAssoc("[Errno 13] Permission denied: '" + path, "'", "\n");
  }

  /** The number of entries among `results`. */
  function CountEntries(results: seq<ScanResult>): (n: nat)
    ensures n <= |results|
  {
    if results == [] then 0
    else CountEntries(results[..|results| - 1]) + (if results[|results| - 1].Entry? then 1 else 0)
  }

  /** The standard-output lines of `results`, in order: one per entry. */
  function StdoutLines(results: seq<ScanResult>): (r: seq<string>)
    ensures |r| <= |results|
  {
    if results == [] then []
    else StdoutLines(results[..|results| - 1]) + ReportLines(results[|results| - 1])
  }

  /** The standard-error lines of `results`, in order: one per failure. */
  function StderrLines(results: seq<ScanResult>): (r: seq<string>)
    ensures |r| <= |results|
  {
    if results == [] then []
    else StderrLines(results[..|results| - 1]) + DiagnosticLines(results[|results| - 1])
  }

  /** No result is dropped and none aborts the run: every result gives
      exactly one line, entries on standard output and failures on
      standard error. */
  lemma {:induction false} OneLinePerResult(results: seq<ScanResult>)
    ensures |StdoutLines(results)| == CountEntries(results)
    ensures |StderrLines(results)| == |results| - CountEntries(results)
  {
    if results != [] {
      OneLinePerResult(results[..|results| - 1]);
    }
  }

  /** Both sinks keep the order of the results. */
  lemma {:induction false} LinesAppend(a: seq<ScanResult>, b: seq<ScanResult>)
    ensures StdoutLines(a + b) == StdoutLines(a) + StdoutLines(b)
    ensures StderrLines(a + b) == StderrLines(a) + StderrLines(b)
    decreases |b|
  {
    if b == [] {
      assert a + b == a;
    } else {
      var b', last := b[..|b| - 1], b[|b| - 1];
      AppendInit(a, b);
      LinesAppend(a, b');
      assert StdoutLines(a + b) == StdoutLines(a + b') + ReportLines(last);
      AppendAssoc(StdoutLines(a), StdoutLines(b'), ReportLines(last));
      assert StderrLines(a + b) == StderrLines(a + b') + DiagnosticLines(last);
      AppendAssoc(StderrLines(a), StderrLines(b'), DiagnosticLines(last));
    }
  }

  /** A well-formed record is listed as its stored date with the `T`
      turned into a space, a space, and its path. */
  lemma {:induction false} StoredRecordLine(p: string, d: string, displayPath: string)
    requires NoNewline(p) && NoNewline(d) && IsDateShape(d)
    ensures Parse(Trashinfo(p, d)).Ok?
    ensures FormatLine(Parse(Trashinfo(p, d)).value, displayPath) == d[..10] + " " + d[11..] + " " + displayPath + "\n"
  {
    ParseTrashinfo(p, d);
    FormatParsedDate(d);
  }

  /** A record whose date is missing or malformed is still listed, under
      the placeholder. */
  lemma UndatedRecordLine(p: string, displayPath: string)
    ensures FormatLine(Record(p, None), displayPath) == "????-??-?? ??:??:?? " + displayPath + "\n"
  {
  }

  /** The record of a serialised trashinfo with a malformed date is listed
      under the placeholder, and is not a failure. */
  lemma MalformedDateLine(p: string, d: string)
    requires NoNewline(p) && NoNewline(d) && !IsDateShape(d)
    ensures Parse(Trashinfo(p, d)) == Ok(Record(p, None))
    ensures FormatLine(Record(p, None), p) == Placeholder + " " + p + "\n"
  {
    ParseTrashinfo(p, d);
  }

  /** What a collector holds after the lines were written one by one: it
      begins with the first line and ends with the last. */
  function Concat(lines: seq<string>): (r: string)
    ensures lines == [] ==> r == ""
    ensures lines != [] ==> StartsWith(r, lines[0]) && EndsWith(r, lines[|lines| - 1])
  {
    if lines == [] then "" else Concat(lines[..|lines| - 1]) + lines[|lines| - 1]
  }

  /** Writing in two batches collects the same text as writing at once. */
  lemma {:induction false} ConcatAppend(a: seq<string>, b: seq<string>)
    ensures Concat(a + b) == Concat(a) + Concat(b)
    decreases |b|
  {
    if b == [] {
      assert a + b == a;
    } else {
      var b', last := b[..|b| - 1], b[|b| - 1];
      AppendInit(a, b);
      ConcatAppend(a, b');
      assert Concat(a + b) == Concat(a + b') + last;
      AppendAssoc(Concat(a), Concat(b'), last);
    }
  }
}
