/**
 * The line-oriented reading of iCalendar text (RFC 5545) that the Airbnb and
 * Booking.com importers share: cutting a feed into VEVENT chunks, reading a
 * property's value up to the end of its line, parsing the DATE value form of
 * DTSTART/DTEND (section 3.3.4 of RFC 5545) and the guest-name heuristic
 * applied to a SUMMARY.
 */
module ICal {
  import opened Wrappers
  import opened Text
  import Calendar

  const BeginEvent: string := "BEGIN:VEVENT"
  const EndEvent: string := "END:VEVENT"
  const CrLf: string := "\r\n"
  const UidProperty: string := "UID:"
  const DtStartProperty: string := "DTSTART;VALUE=DATE:"
  const DtEndProperty: string := "DTEND;VALUE=DATE:"
  const SummaryProperty: string := "SUMMARY:"
  /** The status the importers give every event they keep. */
  const Confirmed: string := "CONFIRMED"

  /** `icalContent.split("BEGIN:VEVENT")`: the text before the first event, then one chunk per event. */
  function EventChunks(content: string): (r: seq<string>)
    ensures forall k :: 0 <= k < |r| ==> !Contains(r[k], BeginEvent)
    ensures !Contains(content, BeginEvent) ==> r == [content]
  {
    SplitPiecesFree(content, BeginEvent);
    Split(content, BeginEvent)
  }

  /** A line feed stands at position `j`. */
  predicate LfAt(s: string, j: int) { 0 <= j < |s| && s[j] == '\n' }

  /**
   * Where the line holding position `from` ends: the next CRLF, and only
   * when none follows, the next bare LF.
   */
  function LineEnd(content: string, from: nat): (r: Option<nat>)
    ensures r.Some? ==> from <= r.value < |content|
    ensures r.Some? ==> content[r.value] == '\r' || content[r.value] == '\n'
  {
    match IndexOfFrom(content, CrLf, from)
    case Some(e) =>
      assert content[e] == content[e..e + 2][0];
      Some(e)
    case None =>
      var lf := IndexOfFrom(content, "\n", from);
      assert lf.Some? ==> content[lf.value] == content[lf.value..lf.value + 1][0];
      lf
  }

  /** A line has no end exactly when no line feed follows: every CRLF holds one. */
  lemma LineEndNone(content: string, from: nat)
    ensures LineEnd(content, from).None? <==> forall j :: from <= j ==> !LfAt(content, j)
  {
    match IndexOfFrom(content, CrLf, from)
    case Some(e) =>
      assert LfAt(content, e + 1) by { assert content[e + 1] == content[e..e + 2][1]; }
    case None =>
      forall j | from <= j
        ensures OccursAt(content, "\n", j) <==> LfAt(content, j)
      {
        if j < |content| { OccursAtChar(content, '\n', j); }
      }
  }

  /**
   * `extractProperty(content, property)`: the trimmed text between the first
   * occurrence of the property name and the end of that line; nothing when
   * the name is absent or no line feed follows it.
   */
  function ExtractProperty(content: string, property: string): (r: Option<string>)
    ensures r.Some? ==> Contains(content, property) && |r.value| < |content|
  {
    match IndexOf(content, property)
    case None => None
    case Some(i) =>
      var start := i + |property|;
      match LineEnd(content, start)
      case None => None
      case Some(e) => Some(Trim(content[start..e]))
  }

  /** No value is read when the name is absent, or when no line feed follows its first occurrence. */
  lemma ExtractPropertyNone(content: string, property: string)
    ensures !Contains(content, property) ==> ExtractProperty(content, property).None?
    ensures Contains(content, property) ==>
              (ExtractProperty(content, property).None?
               <==> forall j :: IndexOf(content, property).value + |property| <= j ==> !LfAt(content, j))
  {
    if Contains(content, property) {
      LineEndNone(content, IndexOf(content, property).value + |property|);
    }
  }

  /**
   * The property's value is read up to the first CRLF after the name, even
   * when a bare LF comes earlier: when the first occurrence of the name is
   * at `i` and the first carriage return after it starts a CRLF at `e`, the
   * value is the trimmed text in between, line feeds inside it included.
   */
  lemma ExtractPropertyCrLf(content: string, property: string, i: nat, e: nat)
    requires IndexOf(content, property) == Some(i)
    requires i + |property| <= e && OccursAt(content, CrLf, e)
    requires forall j :: i + |property| <= j < e ==> content[j] != '\r'
    ensures ExtractProperty(content, property) == Some(Trim(content[i + |property|..e]))
  {
    LineEndAtCrLf(content, i + |property|, e);
    ExtractPropertyAt(content, property, i, e);
  }

  /** The line ends at the first CRLF whose carriage return is the first one from `from` on. */
  lemma LineEndAtCrLf(content: string, from: nat, e: nat)
    requires from <= e && OccursAt(content, CrLf, e)
    requires forall j :: from <= j < e ==> content[j] != '\r'
    ensures LineEnd(content, from) == Some(e)
  {
    NoCrLfWithoutCr(content, from, e);
    IndexOfFromAt(content, CrLf, from, e);
  }

  /** A stretch without carriage returns holds no CRLF start. */
  lemma NoCrLfWithoutCr(content: string, lo: nat, hi: nat)
    requires hi <= |content|
    requires forall j :: lo <= j < hi ==> content[j] != '\r'
    ensures forall j :: lo <= j < hi ==> !OccursAt(content, CrLf, j)
  {
    forall j | lo <= j < hi
      ensures !OccursAt(content, CrLf, j)
    {
      if j + 2 <= |content| { assert content[j..j + 2][0] == content[j]; }
    }
  }

  /**
   * With no CRLF anywhere after the name, the value runs to the first bare
   * LF: when that LF is at `e`, the value is the trimmed text before it.
   */
  lemma ExtractPropertyLf(content: string, property: string, i: nat, e: nat)
    requires IndexOf(content, property) == Some(i)
    requires i + |property| <= e && LfAt(content, e)
    requires forall j :: i + |property| <= j ==> !OccursAt(content, CrLf, j)
    requires forall j :: i + |property| <= j < e ==> content[j] != '\n'
    ensures ExtractProperty(content, property) == Some(Trim(content[i + |property|..e]))
  {
    LineEndAtLf(content, i + |property|, e);
    ExtractPropertyAt(content, property, i, e);
  }

  /** The value is the trimmed text from the end of the name's first occurrence to the end of its line. */
  lemma ExtractPropertyAt(content: string, property: string, i: nat, e: nat)
    requires IndexOf(content, property) == Some(i)
    requires LineEnd(content, i + |property|) == Some(e)
    ensures ExtractProperty(content, property) == Some(Trim(content[i + |property|..e]))
  {
  }

  /** With no CRLF from `from` on, the line ends at the first bare LF. */
  lemma LineEndAtLf(content: string, from: nat, e: nat)
    requires from <= e && LfAt(content, e)
    requires forall j :: from <= j ==> !OccursAt(content, CrLf, j)
    requires forall j :: from <= j < e ==> content[j] != '\n'
    ensures LineEnd(content, from) == Some(e)
  {
    assert IndexOfFrom(content, CrLf, from).None?;
    assert OccursAt(content, "\n", e) by { OccursAtChar(content, '\n', e); }
    forall j | from <= j < e
      ensures !OccursAt(content, "\n", j)
    {
      OccursAtChar(content, '\n', j);
    }
    IndexOfFromAt(content, "\n", from, e);
  }

  /** The text of a date in the `yyyyMMdd` form of an iCalendar DATE value. */
  function DateText(year: nat, month: nat, day: nat): string
  {
    PadNat(year, 4) + PadNat(month, 2) + PadNat(day, 2)
  }

  /** Every character is an ASCII decimal digit. */
  predicate AllDigits(s: string) { forall i :: 0 <= i < |s| ==> IsDigit(s[i]) }

  /**
   * `LocalDate.parse(text, ofPattern("yyyyMMdd"))` under the default smart
   * resolver: eight ASCII digits, a year of era from 1, a month 1..12 and a
   * day 1..31, where a day past the end of its month is moved back to the
   * month's last day. Anything else is a `DateTimeParseException`, a
   * runtime exception.
   */
  function ParseICalDate(text: string): (r: Result<int>)
    ensures r.Ok? ==> |text| == 8 && AllDigits(text)
    ensures r.Err? ==> r.error == Runtime
  {
    if |text| != 8 || !AllDigits(text) then Err(Runtime)
    else
      var y := DigitsValue(text[..4]);
      var m := DigitsValue(text[4..6]);
      var d := DigitsValue(text[6..]);
      if y < 1 || m < 1 || 12 < m || d < 1 || 31 < d then Err(Runtime)
      else
        var last := Calendar.MonthLength(y, m);
        Ok(Calendar.EpochDay(Calendar.Civil(y, m, if d <= last then d else last)))
  }

  /** The three fields of a date text are read back from their own positions. */
  lemma DateTextFields(year: nat, month: nat, day: nat)
    requires year < 10000 && month < 100 && day < 100
    ensures var t := DateText(year, month, day);
      |t| == 8 && AllDigits(t)
      && DigitsValue(t[..4]) == year && DigitsValue(t[4..6]) == month && DigitsValue(t[6..]) == day
  {
    var t := DateText(year, month, day);
    assert t[..4] == PadNat(year, 4);
    assert t[4..6] == PadNat(month, 2);
    assert t[6..] == PadNat(day, 2);
  }

  /** A valid date written as `yyyyMMdd` parses back to that date. */
  lemma ParseDateText(year: nat, month: nat, day: nat)
    requires 1 <= year <= 9999 && 1 <= month <= 12 && 1 <= day <= Calendar.MonthLength(year, month)
    ensures ParseICalDate(DateText(year, month, day)) == Ok(Calendar.EpochDay(Calendar.Civil(year, month, day)))
  {
    DateTextFields(year, month, day);
  }

  /** A day number past the end of the month, up to 31, parses as the month's last day. */
  lemma ParseClampsDay(year: nat, month: nat, day: nat)
    requires 1 <= year <= 9999 && 1 <= month <= 12 && Calendar.MonthLength(year, month) < day <= 31
    ensures ParseICalDate(DateText(year, month, day))
      == ParseICalDate(DateText(year, month, Calendar.MonthLength(year, month)))
  {
    DateTextFields(year, month, day);
    DateTextFields(year, month, Calendar.MonthLength(year, month));
  }

  /** Year 0000, month 00 or 13 and day 00 or 32 are all refused. */
  lemma ParseRejectsOutOfRange(year: nat, month: nat, day: nat)
    requires year < 10000 && month < 100 && day < 100
    requires year == 0 || month == 0 || 12 < month || day == 0 || 31 < day
    ensures ParseICalDate(DateText(year, month, day)).Err?
  {
    DateTextFields(year, month, day);
  }

  /** The stay dates of an event are absent (one of DTSTART and DTEND missing), or both readable. */
  predicate DatesReadable(chunk: string)
  {
    var start := ExtractProperty(chunk, DtStartProperty);
    var end := ExtractProperty(chunk, DtEndProperty);
    start.None? || end.None? || (ParseICalDate(start.value).Ok? && ParseICalDate(end.value).Ok?)
  }

  /** The characters a regex `.` does not match: `\n`, `\r`, NEL, LS and PS. */
  predicate IsLineTerminator(c: char)
  {
    c == '\n' || c == '\r' || c == '\U{0085}' || c == '\U{2028}' || c == '\U{2029}'
  }

  predicate IsUpperAscii(c: char) { 'A' <= c <= 'Z' }
  predicate IsLowerAscii(c: char) { 'a' <= c <= 'z' }

  /** `[a-z]+` covers the positions `lo..hi-1`. */
  predicate LowerRun(s: string, lo: nat, hi: nat)
    requires hi <= |s|
  {
    lo < hi && forall i :: lo <= i < hi ==> IsLowerAscii(s[i])
  }

  /** `[A-Z][a-z]+ [A-Z][a-z]+` occupies `p..q-1`, with the space at `m`. */
  predicate NamePairAt(s: string, p: nat, m: nat, q: nat)
  {
    p < m && m + 1 < q <= |s|
    && IsUpperAscii(s[p]) && LowerRun(s, p + 1, m)
    && s[m] == ' '
    && IsUpperAscii(s[m + 1]) && LowerRun(s, m + 2, q)
  }

  /** No character of `s` is a line terminator. */
  predicate SingleLine(s: string) { forall i :: 0 <= i < |s| ==> !IsLineTerminator(s[i]) }

  /** `s.matches(".*[A-Z][a-z]+ [A-Z][a-z]+.*")`: the whole string is a name pair with single-line text around it. */
  predicate MatchesNamePair(s: string)
  {
    exists p, m, q | 0 <= p < m < q <= |s| :: NamePairAt(s, p, m, q) && SingleLine(s[..p]) && SingleLine(s[q..])
  }

  /** Some non-space character follows some space. */
  predicate WordAfterSpace(s: string)
  {
    exists i, j | 0 <= i < j < |s| :: s[i] == ' ' && s[j] != ' '
  }

  /** Some string in `xs` from index `from` on is non-empty. */
  predicate HasNonEmpty(xs: seq<string>, from: nat)
  {
    exists k | from <= k < |xs| :: xs[k] != []
  }

  /** `t` holds a character other than a space. */
  predicate HasNonSpace(t: string)
  {
    exists j | 0 <= j < |t| :: t[j] != ' '
  }

  /** Where the first space is at `i`, it is a space and none comes before it. */
  lemma FirstSpace(t: string, i: nat)
    requires IndexOf(t, " ") == Some(i)
    ensures i < |t| && t[i] == ' '
    ensures forall j :: 0 <= j < i ==> t[j] != ' '
  {
    OccursAtChar(t, ' ', i);
    forall j | 0 <= j < i
      ensures t[j] != ' '
    {
      OccursAtChar(t, ' ', j);
    }
  }

  /** Without a first space there is no space at all. */
  lemma NoSpace(t: string)
    requires IndexOf(t, " ").None?
    ensures forall j :: 0 <= j < |t| ==> t[j] != ' '
  {
    forall j | 0 <= j < |t|
      ensures t[j] != ' '
    {
      OccursAtChar(t, ' ', j);
    }
  }

  /** A list headed by `h` has a non-empty entry exactly when `h` is non-empty or the rest has one. */
  lemma HasNonEmptyCons(h: string, tail: seq<string>)
    ensures HasNonEmpty([h] + tail, 0) <==> h != [] || HasNonEmpty(tail, 0)
    ensures HasNonEmpty([h] + tail, 1) <==> HasNonEmpty(tail, 0)
  {
    var xs := [h] + tail;
    assert xs[0] == h;
    if HasNonEmpty(tail, 0) {
      var k :| 0 <= k < |tail| && tail[k] != [];
      assert xs[k + 1] == tail[k];
    }
    if HasNonEmpty(xs, 1) {
      var k :| 1 <= k < |xs| && xs[k] != [];
      assert tail[k - 1] == xs[k];
    }
    if HasNonEmpty(xs, 0) && h == [] {
      var k :| 0 <= k < |xs| && xs[k] != [];
      assert tail[k - 1] == xs[k];
    }
  }

  /** Cut at its first space `i`, a string has a non-space character before the cut or after it. */
  lemma HasNonSpaceAround(t: string, i: nat)
    requires i < |t| && t[i] == ' '
    requires forall j :: 0 <= j < i ==> t[j] != ' '
    ensures HasNonSpace(t) <==> i > 0 || HasNonSpace(t[i + 1..])
    ensures WordAfterSpace(t) <==> HasNonSpace(t[i + 1..])
  {
    var rest := t[i + 1..];
    if HasNonSpace(t) && i == 0 {
      var j :| 0 <= j < |t| && t[j] != ' ';
      assert rest[j - 1] == t[j];
    }
    if i > 0 {
      assert t[0] != ' ';
    }
    if HasNonSpace(rest) {
      var j :| 0 <= j < |rest| && rest[j] != ' ';
      assert t[i + 1 + j] == rest[j];
    }
    if WordAfterSpace(t) {
      var a, b :| 0 <= a < b < |t| && t[a] == ' ' && t[b] != ' ';
      assert rest[b - i - 1] == t[b];
    }
  }

  /** The pieces between spaces include a non-empty one exactly when the string holds a non-space character. */
  lemma {:induction false} NonEmptyPiece(t: string)
    ensures HasNonEmpty(SplitAll(t, " "), 0) <==> HasNonSpace(t)
    decreases |t|
  {
    match IndexOf(t, " ")
    case None =>
      NoSpace(t);
      var pieces := SplitAll(t, " ");
      assert pieces == [t];
      assert HasNonEmpty(pieces, 0) <==> pieces[0] != [];
      if t != [] {
        assert t[0] != ' ';
      }
    case Some(i) =>
      SplitAllStep(t, " ", i);
      FirstSpace(t, i);
      NonEmptyPiece(t[i + 1..]);
      HasNonEmptyCons(t[..i], SplitAll(t[i + 1..], " "));
      HasNonSpaceAround(t, i);
  }

  /** `s.split(" ").length >= 2` holds exactly when a non-space character follows a space. */
  lemma SplitOnSpaceCount(s: string)
    ensures |Split(s, " ")| >= 2 <==> WordAfterSpace(s)
  {
    match IndexOf(s, " ")
    case None =>
      NoSpace(s);
    case Some(i) =>
      var pieces := SplitAll(s, " ");
      DropTrailingEmptyCount(pieces);
      assert HasNonEmpty(pieces, 1) <==> |Split(s, " ")| >= 2;
      SplitAllStep(s, " ", i);
      FirstSpace(s, i);
      NonEmptyPiece(s[i + 1..]);
      HasNonEmptyCons(s[..i], SplitAll(s[i + 1..], " "));
      HasNonSpaceAround(s, i);
  }

  /** A matching name pair always has a capital letter after a space. */
  lemma NamePairHasWordAfterSpace(s: string)
    requires MatchesNamePair(s)
    ensures WordAfterSpace(s)
  {
    var p, m, q :| 0 <= p < m < q <= |s| && NamePairAt(s, p, m, q) && SingleLine(s[..p]) && SingleLine(s[q..]);
    assert s[m] == ' ' && s[m + 1] != ' ';
  }

  /**
   * `containsGuestName(summary)`: the name-pair pattern or a split on spaces
   * into two or more pieces. The pattern adds nothing, so the test is
   * whether some word follows a space.
   */
  function ContainsGuestName(s: string): (r: bool)
    ensures r <==> WordAfterSpace(s)
  {
    SplitOnSpaceCount(s);
    if MatchesNamePair(s) then NamePairHasWordAfterSpace(s); true
    else |Split(s, " ")| >= 2
  }

  /** Lower-casing moves no space, so the test reads the same on the lower-cased text. */
  lemma WordAfterSpaceIgnoresCase(s: string)
    ensures WordAfterSpace(ToLower(s)) <==> WordAfterSpace(s)
  {
    var t := ToLower(s);
    forall i | 0 <= i < |s|
      ensures t[i] == ' ' <==> s[i] == ' '
    {
    }
    if WordAfterSpace(t) {
      var i, j :| 0 <= i < j < |t| && t[i] == ' ' && t[j] != ' ';
      assert s[i] == ' ' && s[j] != ' ';
    }
    if WordAfterSpace(s) {
      var i, j :| 0 <= i < j < |s| && s[i] == ' ' && s[j] != ' ';
      assert t[i] == ' ' && t[j] != ' ';
    }
  }
}
