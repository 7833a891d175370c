/** The trashinfo record: its serialised form, the parser that reads it back,
    and the deletion timestamp it carries.

    A trashinfo file is a `[TrashInfo]` section of `Key=Value` lines. `Path` is
    required; `DeletionDate` is optional and read leniently: a missing or
    malformed date gives a record without a date, never a parse failure. */
module TrashInfo {
  import opened Wrappers
  import opened Text

  // ------------------------------------------------------------ timestamps

  /** A local date and time, as read from `YYYY-MM-DDTHH:MM:SS`. Calendar
      ranges (month 1..12 and so on) are not checked; only the digit shape. */
  datatype DateTime = DateTime(year: nat, month: nat, day: nat, hour: nat, minute: nat, second: nat)

  /** Every field fits the number of digits it is written in. */
  predicate Fits(t: DateTime)
  {
    t.year < 10000 && t.month < 100 && t.day < 100 && t.hour < 100 && t.minute < 100 && t.second < 100
  }

  predicate DigitsAt(s: string, lo: nat, hi: nat)
    requires lo <= hi <= |s|
  {
    AllDigits(s[lo..hi])
  }

  /** The shape `YYYY-MM-DDTHH:MM:SS`: 19 characters, digits except for the
      separators at positions 4, 7, 10, 13 and 16. */
  predicate IsDateShape(s: string)
  {
    && |s| == 19
    && DigitsAt(s, 0, 4) && s[4] == '-'
    && DigitsAt(s, 5, 7) && s[7] == '-'
    && DigitsAt(s, 8, 10) && s[10] == 'T'
    && DigitsAt(s, 11, 13) && s[13] == ':'
    && DigitsAt(s, 14, 16) && s[16] == ':'
    && DigitsAt(s, 17, 19)
  }

  /** Lenient date reading: a text of the right shape gives its timestamp,
      anything else gives no date at all. */
  function ParseDate(s: string): (r: Option<DateTime>)
    ensures r.Some? <==> IsDateShape(s)
    ensures r.Some? ==> Fits(r.value)
  {
    if IsDateShape(s) then
      Some(DateTime(NumberOf(s[0..4]), NumberOf(s[5..7]), NumberOf(s[8..10]),
                    NumberOf(s[11..13]), NumberOf(s[14..16]), NumberOf(s[17..19])))
    else None
  }

  /** The timestamp with `sep` between the date and the time of day. */
  function DateText(t: DateTime, sep: char): (r: string)
  {
    DatePart(t) + [sep] + TimePart(t)
  }

  /** `YYYY-MM-DD`. */
  function DatePart(t: DateTime): string
  {
    Padded(t.year, 4) + "-" + Padded(t.month, 2) + "-" + Padded(t.day, 2)
  }

  /** `HH:MM:SS`. */
  function TimePart(t: DateTime): string
  {
    Padded(t.hour, 2) + ":" + Padded(t.minute, 2) + ":" + Padded(t.second, 2)
  }

  /** The form stored in a trashinfo file, `YYYY-MM-DDTHH:MM:SS`. */
  function StoredDate(t: DateTime): (r: string)
    ensures IsDateShape(r)
  {
    DateTextShape(t, 'T');
    DateText(t, 'T')
  }

  /** The form the listing writes, `YYYY-MM-DD HH:MM:SS`: the stored
      form with the `T` turned into a space. */
  function FormatDate(t: DateTime): (r: string)
    ensures |r| == 19 && r[10] == ' '
    ensures r == StoredDate(t)[..10] + " " + StoredDate(t)[11..]
  {
    DateTextShape(t, ' ');
    DateTextShape(t, 'T');
    DateText(t, ' ')
  }

  lemma DateTextShape(t: DateTime, sep: char)
    ensures var r := DateText(t, sep);
      && |r| == 19 && r[10] == sep
      && r[..4] == Padded(t.year, 4) && r[4] == '-'
      && r[5..7] == Padded(t.month, 2) && r[7] == '-'
      && r[8..10] == Padded(t.day, 2)
      && r[11..13] == Padded(t.hour, 2) && r[13] == ':'
      && r[14..16] == Padded(t.minute, 2) && r[16] == ':'
      && r[17..] == Padded(t.second, 2)
      && r[..10] == DateText(t, 'T')[..10]
      && r[11..] == DateText(t, 'T')[11..]
  {
    var d, x := DatePart(t), TimePart(t);
    FieldsShape(Padded(t.year, 4), '-', Padded(t.month, 2), Padded(t.day, 2));
    FieldsShape(Padded(t.hour, 2), ':', Padded(t.minute, 2), Padded(t.second, 2));
    PartsShape(d, sep, x);
    PartsShape(d, 'T', x);
  }

  lemma PartsShape(d: string, sep: char, x: string)
    requires |d| == 10 && |x| == 8
    ensures var r := d + [sep] + x;
      |r| == 19 && r[..10] == d && r[10] == sep && r[11..] == x
      && r[..4] == d[..4] && r[4] == d[4] && r[5..7] == d[5..7] && r[7] == d[7] && r[8..10] == d[8..]
      && r[11..13] == x[..2] && r[13] == x[2] && r[14..16] == x[3..5] && r[16] == x[5] && r[17..] == x[6..]
  {
  }

  /** Three fields joined by `sep`. */
  lemma FieldsShape(a: string, sep: char, b: string, c: string)
    requires |b| == 2 && |c| == 2
    ensures var r := a + [sep] + b + [sep] + c;
      |r| == |a| + 6 && r[..|a|] == a && r[|a|] == sep
      && r[|a| + 1..|a| + 3] == b && r[|a| + 3] == sep && r[|a| + 4..] == c
  {
  }

  /** Reading a stored timestamp gives the timestamp back. */
  lemma ParseStoredDate(t: DateTime)
    requires Fits(t)
    ensures ParseDate(StoredDate(t)) == Some(t)
  {
    var s := StoredDate(t);
    DateTextShape(t, 'T');
    NumberOfPadded(t.year, 4);
    NumberOfPadded(t.month, 2);
    NumberOfPadded(t.day, 2);
    NumberOfPadded(t.hour, 2);
    NumberOfPadded(t.minute, 2);
    NumberOfPadded(t.second, 2);
    assert s[0..4] == s[..4];
    assert s[17..19] == s[17..];
  }

  /** Storing a read timestamp gives the text back, leading zeros and all. */
  lemma StoredDateOfParse(s: string)
    requires IsDateShape(s)
    ensures StoredDate(ParseDate(s).value) == s
  {
    var t := ParseDate(s).value;
    var r := StoredDate(t);
    DateTextShape(t, 'T');
    PaddedNumberOf(s[0..4]);
    PaddedNumberOf(s[5..7]);
    PaddedNumberOf(s[8..10]);
    PaddedNumberOf(s[11..13]);
    PaddedNumberOf(s[14..16]);
    PaddedNumberOf(s[17..19]);
    assert r[0..4] == s[0..4];
    assert r[17..19] == s[17..19];
    assert forall i :: 0 <= i < 19 ==> r[i] == s[i] by {
      forall i | 0 <= i < 19 ensures r[i] == s[i] {
        if i < 4 { assert r[i] == r[0..4][i]; assert s[i] == s[0..4][i]; }
        else if 5 <= i < 7 { assert r[i] == r[5..7][i - 5]; assert s[i] == s[5..7][i - 5]; }
        else if 8 <= i < 10 { assert r[i] == r[8..10][i - 8]; assert s[i] == s[8..10][i - 8]; }
        else if 11 <= i < 13 { assert r[i] == r[11..13][i - 11]; assert s[i] == s[11..13][i - 11]; }
        else if 14 <= i < 16 { assert r[i] == r[14..16][i - 14]; assert s[i] == s[14..16][i - 14]; }
        else if 17 <= i { assert r[i] == r[17..19][i - 17]; assert s[i] == s[17..19][i - 17]; }
      }
    }
  }

  /** What the listing writes for a stored date: the same text with the
      `T` turned into a space. */
  lemma FormatParsedDate(s: string)
    requires IsDateShape(s)
    ensures FormatDate(ParseDate(s).value) == s[..10] + " " + s[11..]
  {
    StoredDateOfParse(s);
  }

  // --------------------------------------------------------------- records

  /** A parsed trashinfo record: the original path (kept verbatim) and the
      deletion date, absent when missing or malformed. */
  datatype Record = Record(path: string, deletionDate: Option<DateTime>)

  datatype ParseFailure = UnableToParsePath
  {
    function Reason(): string
    {
      "Unable to parse Path"
    }
  }

  /** The value of the first line of `lines` that starts with `prefix`, a
      key followed by `=`: the rest of that line. */
  function Field(lines: seq<string>, prefix: string): (r: Option<string>)
    ensures r.None? <==> forall i :: 0 <= i < |lines| ==> !StartsWith(lines[i], prefix)
    ensures r.Some? ==>
      exists i :: (0 <= i < |lines| && StartsWith(lines[i], prefix)
        && r.value == lines[i][|prefix|..]
        && forall j :: 0 <= j < i ==> !StartsWith(lines[j], prefix))
  {
    if |lines| == 0 then None
    else if StartsWith(lines[0], prefix) then Some(lines[0][|prefix|..])
    else
      var r := Field(lines[1..], prefix);
      assert forall i :: 1 <= i < |lines| ==> lines[i] == lines[1..][i - 1];
      r
  }

  /** Parses the whole content of a trashinfo file. The path is required:
      without a `Path=` line the record fails to parse, whatever else the
      text holds. The date is lenient: it only decides whether the record
      carries a timestamp. */
  function Parse(text: string): (r: Result<Record, ParseFailure>)
    ensures r.Err? <==> forall i :: 0 <= i < |Lines(text)| ==> !StartsWith(Lines(text)[i], "Path=")
    ensures r.Err? ==> r.error == UnableToParsePath
    ensures r.Ok? && r.value.deletionDate.Some? ==>
      exists i :: 0 <= i < |Lines(text)| && StartsWith(Lines(text)[i], "DeletionDate=")
        && IsDateShape(Lines(text)[i][13..])
  {
    var lines := Lines(text);
    match Field(lines, "Path=")
    case None => Err(UnableToParsePath)
    case Some(path) =>
      Ok(Record(path, LenientDate(Field(lines, "DeletionDate="))))
  }

  /** A date line that is missing or malformed gives no date. */
  function LenientDate(field: Option<string>): (r: Option<DateTime>)
    ensures r.Some? <==> field.Some? && IsDateShape(field.value)
  {
    match field
    case None => None
    case Some(d) => ParseDate(d)
  }


  /** The serialiser: a `[TrashInfo]` section with a `Path` line and a
      `DeletionDate` line, each value written verbatim and each line ended
      by a newline. */
  function Trashinfo(escapedPath: string, formattedDeletionDate: string): (r: string)
    ensures r == JoinLines(["[TrashInfo]", "Path=" + escapedPath, "DeletionDate=" + formattedDeletionDate, ""])
  {
    var r := "[TrashInfo]\n" + "Path=" + escapedPath + "\n" + "DeletionDate=" + formattedDeletionDate + "\n";
    JoinFour("[TrashInfo]", "Path=" + escapedPath, "DeletionDate=" + formattedDeletionDate, "");
    r
  }

  lemma JoinFour(a: string, b: string, c: string, d: string)
    ensures JoinLines([a, b, c, d]) == a + "\n" + b + "\n" + c + "\n" + d
  {
    assert [c, d][1..] == [d];
    assert JoinLines([c, d]) == c + "\n" + d;
    assert [b, c, d][1..] == [c, d];
    assert JoinLines([b, c, d]) == b + "\n" + (c + "\n" + d);
    assert [a, b, c, d][1..] == [b, c, d];
  }

  lemma JoinThree(a: string, b: string, c: string)
    ensures JoinLines([a, b, c]) == a + "\n" + b + "\n" + c
  {
    assert [b, c][1..] == [c];
    assert JoinLines([b, c]) == b + "\n" + c;
    assert [a, b, c][1..] == [b, c];
  }

  lemma KeyLine(prefix: string, v: string)
    ensures StartsWith(prefix + v, prefix)
    ensures (prefix + v)[|prefix|..] == v
  {
    assert (prefix + v)[..|prefix|] == prefix;
  }

  /** The fields of a `[TrashInfo]` header followed by a path line. */
  lemma HeaderPathFields(p: string, tail: seq<string>)
    ensures Field(["[TrashInfo]", "Path=" + p] + tail, "Path=") == Some(p)
    ensures Field(["[TrashInfo]", "Path=" + p] + tail, "DeletionDate=") == Field(tail, "DeletionDate=")
  {
    var lines := ["[TrashInfo]", "Path=" + p] + tail;
    KeyLine("Path=", p);
    assert !StartsWith(lines[0], "Path=") by { assert lines[0][0] == '['; }
    assert lines[1..] == ["Path=" + p] + tail;
    assert !StartsWith(lines[0], "DeletionDate=") by { assert lines[0][0] == '['; }
    assert !StartsWith(lines[1], "DeletionDate=") by { assert lines[1][0] == 'P'; }
    assert lines[1..][1..] == tail;
  }

  lemma DateLineField(d: string, tail: seq<string>)
    ensures Field(["DeletionDate=" + d] + tail, "DeletionDate=") == Some(d)
  {
    KeyLine("DeletionDate=", d);
  }

  /** Round trip: parsing a serialised record gives back its path verbatim
      and its date read leniently. */
  lemma ParseTrashinfo(p: string, d: string)
    requires NoNewline(p) && NoNewline(d)
    ensures Parse(Trashinfo(p, d)) == Ok(Record(p, ParseDate(d)))
  {
    var lines := ["[TrashInfo]", "Path=" + p, "DeletionDate=" + d, ""];
    NoNewlineKeyLine("Path=", p);
    NoNewlineKeyLine("DeletionDate=", d);
    LinesJoinLines(lines);
    assert lines == ["[TrashInfo]", "Path=" + p] + ["DeletionDate=" + d, ""];
    HeaderPathFields(p, ["DeletionDate=" + d, ""]);
    DateLineField(d, [""]);
  }

  lemma NoNewlineKeyLine(prefix: string, v: string)
    requires NoNewline(prefix) && NoNewline(v)
    ensures NoNewline(prefix + v)
  {
    var s := prefix + v;
    forall i | 0 <= i < |s| ensures s[i] != '\n' {
      if i < |prefix| { assert s[i] == prefix[i]; }
      else { assert s[i] == v[i - |prefix|]; }
    }
  }

  /** With a date of the stored shape, the parsed record carries exactly
      that timestamp. */
  lemma ParseTrashinfoWithDate(p: string, t: DateTime)
    requires NoNewline(p) && Fits(t)
    ensures Parse(Trashinfo(p, StoredDate(t))) == Ok(Record(p, Some(t)))
  {
    var d := StoredDate(t);
    assert NoNewline(d) by {
      forall i | 0 <= i < |d| ensures d[i] != '\n' {
        DateTextShape(t, 'T');
        if i < 4 { assert d[i] == d[..4][i]; }
        else if 5 <= i < 7 { assert d[i] == d[5..7][i - 5]; }
        else if 8 <= i < 10 { assert d[i] == d[8..10][i - 8]; }
        else if 11 <= i < 13 { assert d[i] == d[11..13][i - 11]; }
        else if 14 <= i < 16 { assert d[i] == d[14..16][i - 14]; }
        else if 17 <= i { assert d[i] == d[17..][i - 17]; }
      }
    }
    ParseTrashinfo(p, d);
    ParseStoredDate(t);
  }

  /** A record with a path line and no date line parses, without a date. */
  lemma ParseWithoutDate(p: string)
    requires NoNewline(p)
    ensures Parse("[TrashInfo]\nPath=" + p + "\n") == Ok(Record(p, None))
  {
    var lines := ["[TrashInfo]", "Path=" + p, ""];
    NoNewlineKeyLine("Path=", p);
    LinesJoinLines(lines);
    JoinThree("[TrashInfo]", "Path=" + p, "");
    HeaderText("Path=", p, "\n", "");
    AppendEmpty("[TrashInfo]\nPath=" + p + "\n");
    assert lines == ["[TrashInfo]", "Path=" + p] + [""];
    HeaderPathFields(p, [""]);
    assert !StartsWith("", "DeletionDate=");
  }

  /** A record whose last line is a date line without a final newline parses
      with that date read leniently: a malformed date gives no date. */
  lemma ParseUnterminatedDate(p: string, d: string)
    requires NoNewline(p) && NoNewline(d)
    ensures Parse("[TrashInfo]\nPath=" + p + "\nDeletionDate=" + d) == Ok(Record(p, ParseDate(d)))
  {
    var lines := ["[TrashInfo]", "Path=" + p, "DeletionDate=" + d];
    NoNewlineKeyLine("Path=", p);
    NoNewlineKeyLine("DeletionDate=", d);
    LinesJoinLines(lines);
    JoinThree("[TrashInfo]", "Path=" + p, "DeletionDate=" + d);
    HeaderText("Path=", p, "\n", "DeletionDate=" + d);
    var a := "[TrashInfo]\nPath=" + p;
    AppendAssoc(a, "\n", "DeletionDate=" + d);
    AppendAssoc("\n", "DeletionDate=", d);
    DateLineText();
    AppendAssoc(a, "\nDeletionDate=", d);
    assert lines == ["[TrashInfo]", "Path=" + p] + ["DeletionDate=" + d];
    HeaderPathFields(p, ["DeletionDate=" + d]);
    DateLineField(d, []);
  }

  /** An empty file is a parse failure. */
  lemma ParseEmpty()
    ensures Parse("") == Err(UnableToParsePath)
  {
    assert Lines("") == [""];
    assert !StartsWith("", "Path=");
  }

  /** A record with a date line but no path line is a parse failure: the
      date cannot stand in for the missing path. */
  lemma ParseWithoutPath(d: string)
    requires NoNewline(d)
    ensures Parse("[TrashInfo]\nDeletionDate=" + d + "\n") == Err(UnableToParsePath)
  {
    PathlessLines(d);
    NoPathLine(d);
  }

  lemma PathlessLines(d: string)
    requires NoNewline(d)
    ensures Lines("[TrashInfo]\nDeletionDate=" + d + "\n") == ["[TrashInfo]", "DeletionDate=" + d, ""]
  {
    var lines := ["[TrashInfo]", "DeletionDate=" + d, ""];
    NoNewlineKeyLine("DeletionDate=", d);
    LinesJoinLines(lines);
    JoinThree("[TrashInfo]", "DeletionDate=" + d, "");
    HeaderText("DeletionDate=", d, "\n", "");
    AppendEmpty("[TrashInfo]\nDeletionDate=" + d + "\n");
  }

  lemma NoPathLine(d: string)
    ensures Field(["[TrashInfo]", "DeletionDate=" + d, ""], "Path=") == None
  {
    var lines := ["[TrashInfo]", "DeletionDate=" + d, ""];
    assert !StartsWith(lines[0], "Path=") by { assert lines[0][0] == '['; }
    assert !StartsWith(lines[1], "Path=") by { assert lines[1][0] == 'D'; }
    assert !StartsWith(lines[2], "Path=");
  }

  /** The header line joined to a `key=v` line, regrouped with the literal
      prefix in front. */
  lemma HeaderText(key: string, v: string, sep: string, last: string)
    requires key == "Path=" || key == "DeletionDate="
    ensures "[TrashInfo]" + "\n" + (key + v) + sep + last == "[TrashInfo]\n" + key + v + sep + last
    ensures key == "Path=" ==> "[TrashInfo]\n" + key == "[TrashInfo]\nPath="
    ensures key == "DeletionDate=" ==> "[TrashInfo]\n" + key == "[TrashInfo]\nDeletionDate="
  {
    AppendAssoc("[TrashInfo]" + "\n", key, v);
    HeaderLiteral();
    if key == "Path=" {
      PathHeader();
    } else {
      DateHeader();
    }
  }

  // Literal identities: steps the solver needs to evaluate the
  // concatenations above, not properties of the format.

  lemma HeaderLiteral()
    ensures "[TrashInfo]" + "\n" == "[TrashInfo]\n"
  {
  }

  lemma PathHeader()
    ensures "[TrashInfo]\n" + "Path=" == "[TrashInfo]\nPath="
  {
  }

  lemma DateHeader()
    ensures "[TrashInfo]\n" + "DeletionDate=" == "[TrashInfo]\nDeletionDate="
  {
  }

  lemma DateLineText()
    ensures "\n" + "DeletionDate=" == "\nDeletionDate="
  {
  }
}
