/**
 * The `java.lang.String` operations the services use, on `seq<char>`:
 * `trim`, `isEmpty`/`isBlank`, `contains`, `indexOf`, `startsWith`,
 * `endsWith`, `substring`, `split`, the Latin-1 case mappings and the
 * decimal rendering of integers.
 */
module Text {
  import opened Wrappers

  /** The characters `String.trim` strips: every code point up to U+0020. */
  predicate IsTrimmable(c: char) { c <= ' ' }

  /** The string without its leading trimmable characters. */
  function TrimStart(s: string): (r: string)
    ensures |r| <= |s| && r == s[|s| - |r|..]
    ensures r == [] || !IsTrimmable(r[0])
    ensures forall i :: 0 <= i < |s| - |r| ==> IsTrimmable(s[i])
  {
    if s == [] || !IsTrimmable(s[0]) then s else TrimStart(s[1..])
  }

  /** The string without its trailing trimmable characters. */
  function TrimEnd(s: string): (r: string)
    ensures |r| <= |s| && r == s[..|r|]
    ensures r == [] || !IsTrimmable(r[|r| - 1])
    ensures forall i :: |r| <= i < |s| ==> IsTrimmable(s[i])
  {
    if s == [] || !IsTrimmable(s[|s| - 1]) then s else TrimEnd(s[..|s| - 1])
  }

  /** `String.trim`: a contiguous piece of the string that neither starts nor ends with a trimmable character. */
  function Trim(s: string): (r: string)
    ensures |r| <= |s|
    ensures exists i :: OccursAt(s, r, i)
    ensures r == [] || (!IsTrimmable(r[0]) && !IsTrimmable(r[|r| - 1]))
    ensures r == [] <==> forall i :: 0 <= i < |s| ==> IsTrimmable(s[i])
  {
    var a := TrimStart(s);
    var r := TrimEnd(a);
    var k := |s| - |a|;
    assert OccursAt(s, r, k);
    r
  }

  /** `s.trim().isEmpty()`: the string holds nothing but trimmable characters. */
  predicate IsBlank(s: string) { Trim(s) == [] }

  /** A string that holds a character `trim` keeps is not blank. */
  lemma NotBlank(s: string, i: nat)
    requires i < |s| && !IsTrimmable(s[i])
    ensures !IsBlank(s)
  {
  }

  /** A possibly-null string as string concatenation prints it: its text, or "null". */
  function ValueOf(s: Option<string>): (r: string)
    ensures s.Some? ==> r == s.value
    ensures s.None? ==> r == "null"
  {
    if s.Some? then s.value else "null"
  }

  /** `String.startsWith`. */
  predicate StartsWith(s: string, prefix: string) { |prefix| <= |s| && s[..|prefix|] == prefix }

  /** `String.endsWith`. */
  predicate EndsWith(s: string, suffix: string) { |suffix| <= |s| && s[|s| - |suffix|..] == suffix }

  /** `needle` occurs in `s` at position `i`. */
  predicate OccursAt(s: string, needle: string, i: int)
  {
    0 <= i && i + |needle| <= |s| && s[i..i + |needle|] == needle
  }

  /** `String.indexOf(needle, from)`: the first position at or after `from` where `needle` occurs. */
  function IndexOfFrom(s: string, needle: string, from: nat): (r: Option<nat>)
    ensures r.Some? ==> from <= r.value && OccursAt(s, needle, r.value)
    ensures r.Some? ==> forall j :: from <= j < r.value ==> !OccursAt(s, needle, j)
    ensures r.None? <==> forall j :: from <= j ==> !OccursAt(s, needle, j)
    decreases |s| - from
  {
    if from + |needle| > |s| then None
    else if s[from..from + |needle|] == needle then
      assert OccursAt(s, needle, from);
      Some(from)
    else IndexOfFrom(s, needle, from + 1)
  }

  /** The search from `from` stops at `k` when the needle is at `k` and nowhere between `from` and `k`. */
  lemma IndexOfFromAt(s: string, needle: string, from: nat, k: nat)
    requires from <= k && OccursAt(s, needle, k)
    requires forall j :: from <= j < k ==> !OccursAt(s, needle, j)
    ensures IndexOfFrom(s, needle, from) == Some(k)
  {
  }

  /** `String.indexOf(needle)`. */
  function IndexOf(s: string, needle: string): (r: Option<nat>)
    ensures r.Some? ==> OccursAt(s, needle, r.value)
    ensures r.Some? ==> forall j :: 0 <= j < r.value ==> !OccursAt(s, needle, j)
    ensures r.None? <==> forall j :: 0 <= j ==> !OccursAt(s, needle, j)
  {
    IndexOfFrom(s, needle, 0)
  }

  /** `String.contains`. */
  predicate Contains(s: string, needle: string) { IndexOf(s, needle).Some? }

  /** Containing a needle means containing every piece of it. */
  lemma ContainsPart(s: string, needle: string, lo: nat, hi: nat)
    requires lo <= hi <= |needle|
    ensures Contains(s, needle) ==> Contains(s, needle[lo..hi])
  {
    if Contains(s, needle) {
      var i := IndexOf(s, needle).value;
      assert s[i..i + |needle|] == needle;
      assert forall k :: lo <= k < hi ==> s[i + k] == needle[k];
      assert s[i + lo..i + hi] == needle[lo..hi];
      assert OccursAt(s, needle[lo..hi], i + lo);
    }
  }

  /** A string holding a part that starts with a visible character is not blank, and holds every tail of the part. */
  lemma PartCarriesItsTail(s: string, part: string, k: nat)
    requires k <= |part| && part != [] && !IsTrimmable(part[0])
    ensures Contains(s, part) ==> !IsBlank(s) && Contains(s, part[k..|part|])
  {
    if Contains(s, part) {
      ContainsPart(s, part, k, |part|);
      var i := IndexOf(s, part).value;
      assert s[i..i + |part|][0] == part[0];
      NotBlank(s, i);
    }
  }

  /** A needle with a letter the string lacks does not occur in it. */
  lemma MissingLetter(s: string, needle: string, k: nat)
    requires k < |needle| && needle[k] !in s
    ensures !Contains(s, needle)
  {
    forall j | 0 <= j
      ensures !OccursAt(s, needle, j)
    {
      if j + |needle| <= |s| {
        assert s[j..j + |needle|][k] == s[j + k];
      }
    }
  }

  /**
   * `Character.toLowerCase` on the Latin-1 letters: A-Z and the accented
   * capitals U+00C0..U+00DE except the multiplication sign; other
   * characters are kept.
   */
  function LowerChar(c: char): char
  {
    if 'A' <= c <= 'Z' || ('\U{00C0}' <= c <= '\U{00DE}' && c != '\U{00D7}') then (c as int + 32) as char else c
  }

  /**
   * `Character.toUpperCase` on the Latin-1 letters: a-z, the accented small
   * letters U+00E0..U+00FE except the division sign, y with diaeresis and
   * the micro sign; other characters are kept.
   */
  function UpperChar(c: char): char
  {
    if 'a' <= c <= 'z' || ('\U{00E0}' <= c <= '\U{00FE}' && c != '\U{00F7}') then (c as int - 32) as char
    else if c == '\U{00FF}' then '\U{0178}'
    else if c == '\U{00B5}' then '\U{039C}'
    else c
  }

  /** `String.toLowerCase`, character by character. */
  function ToLower(s: string): (r: string)
    ensures |r| == |s| && forall i :: 0 <= i < |s| ==> r[i] == LowerChar(s[i])
  {
    seq(|s|, i requires 0 <= i < |s| => LowerChar(s[i]))
  }

  /** `String.toUpperCase`, character by character. */
  function ToUpper(s: string): (r: string)
    ensures |r| == |s| && forall i :: 0 <= i < |s| ==> r[i] == UpperChar(s[i])
  {
    seq(|s|, i requires 0 <= i < |s| => UpperChar(s[i]))
  }

  /** An occurrence inside a prefix is an occurrence in the whole string, and conversely when it fits. */
  lemma OccursInPrefix(s: string, n: nat, needle: string, j: int)
    requires n <= |s|
    ensures OccursAt(s[..n], needle, j) ==> OccursAt(s, needle, j)
    ensures j + |needle| <= n ==> (OccursAt(s[..n], needle, j) <==> OccursAt(s, needle, j))
  {
    if 0 <= j && j + |needle| <= n {
      assert s[..n][j..j + |needle|] == s[j..j + |needle|];
    }
  }

  /** The first occurrence in a string stays the first when more text is appended. */
  lemma IndexOfExtends(s: string, t: string, needle: string)
    requires IndexOf(s, needle).Some?
    ensures IndexOf(s + t, needle) == IndexOf(s, needle)
  {
    var k := IndexOf(s, needle).value;
    var u := s + t;
    assert u[..|s|] == s;
    OccursInPrefix(u, |s|, needle, k);
    forall j | 0 <= j < k
      ensures !OccursAt(u, needle, j)
    {
      OccursInPrefix(u, |s|, needle, j);
    }
  }

  /** A one-character needle occurs exactly where that character stands. */
  lemma OccursAtChar(s: string, c: char, j: nat)
    requires j < |s|
    ensures OccursAt(s, [c], j) <==> s[j] == c
  {
    assert s[j..j + 1] == [s[j]];
  }

  /**
   * The pieces between the occurrences of `sep`, found left to right
   * without overlap, as `Pattern.split` cuts them before it drops the
   * trailing empty strings.
   */
  function SplitAll(s: string, sep: string): (r: seq<string>)
    requires sep != []
    ensures 1 <= |r|
    decreases |s|
  {
    match IndexOf(s, sep)
    case None => [s]
    case Some(i) => [s[..i]] + SplitAll(s[i + |sep|..], sep)
  }

  /** The text before the first occurrence of the separator holds no separator. */
  lemma HeadIsFree(s: string, sep: string, i: nat)
    requires sep != [] && IndexOf(s, sep) == Some(i)
    ensures !Contains(s[..i], sep)
  {
    forall j | 0 <= j
      ensures !OccursAt(s[..i], sep, j)
    {
      OccursInPrefix(s, i, sep, j);
    }
  }

  /** No piece of `SplitAll` contains the separator. */
  lemma {:induction false} SplitAllPiecesFree(s: string, sep: string)
    requires sep != []
    ensures forall k :: 0 <= k < |SplitAll(s, sep)| ==> !Contains(SplitAll(s, sep)[k], sep)
    decreases |s|
  {
    match IndexOf(s, sep)
    case None =>
    case Some(i) =>
      SplitAllStep(s, sep, i);
      HeadIsFree(s, sep, i);
      SplitAllPiecesFree(s[i + |sep|..], sep);
  }

  /** One cut of `SplitAll`: the piece before the first separator, then the pieces of the rest. */
  lemma SplitAllStep(s: string, sep: string, i: nat)
    requires sep != [] && IndexOf(s, sep) == Some(i)
    ensures i + |sep| <= |s|
    ensures SplitAll(s, sep) == [s[..i]] + SplitAll(s[i + |sep|..], sep)
  {
  }

  /** `String.join(sep, parts)`. */
  function Join(parts: seq<string>, sep: string): string
  {
    if parts == [] then [] else if |parts| == 1 then parts[0] else parts[0] + sep + Join(parts[1..], sep)
  }

  /** Joining the pieces with the separator gives the string back. */
  lemma {:induction false} SplitAllJoin(s: string, sep: string)
    requires sep != []
    ensures Join(SplitAll(s, sep), sep) == s
    decreases |s|
  {
    match IndexOf(s, sep)
    case None =>
    case Some(i) =>
      var rest := s[i + |sep|..];
      SplitAllJoin(rest, sep);
      var tail := SplitAll(rest, sep);
      SplitAllStep(s, sep, i);
      JoinCons(s[..i], tail, sep);
      Reassemble(s, sep, i);
  }

  /** Joining a head in front of a non-empty list puts one separator between them. */
  lemma JoinCons(head: string, tail: seq<string>, sep: string)
    requires tail != []
    ensures Join([head] + tail, sep) == head + sep + Join(tail, sep)
  {
    assert ([head] + tail)[1..] == tail;
  }

  /** A string is the text before an occurrence, the needle, and the text after it. */
  lemma Reassemble(s: string, needle: string, i: nat)
    requires OccursAt(s, needle, i)
    ensures s == s[..i] + needle + s[i + |needle|..]
  {
    assert s == s[..i] + s[i..i + |needle|] + s[i + |needle|..];
  }

  /** The list without the empty strings at its end. */
  function DropTrailingEmpty(xs: seq<string>): (r: seq<string>)
    ensures |r| <= |xs| && r == xs[..|r|]
    ensures r == [] || r[|r| - 1] != []
    ensures forall k :: |r| <= k < |xs| ==> xs[k] == []
  {
    if xs == [] || xs[|xs| - 1] != [] then xs else DropTrailingEmpty(xs[..|xs| - 1])
  }

  /**
   * `String.split(sep)` for a separator with no regex metacharacter: the
   * string itself when `sep` does not occur, otherwise the pieces without
   * the trailing empty ones.
   */
  function Split(s: string, sep: string): (r: seq<string>)
    requires sep != []
    ensures IndexOf(s, sep).None? ==> r == [s]
  {
    if IndexOf(s, sep).None? then [s] else DropTrailingEmpty(SplitAll(s, sep))
  }

  /** No piece of `Split` contains the separator. */
  lemma SplitPiecesFree(s: string, sep: string)
    requires sep != []
    ensures forall k :: 0 <= k < |Split(s, sep)| ==> !Contains(Split(s, sep)[k], sep)
  {
    if IndexOf(s, sep).Some? {
      SplitAllPiecesFree(s, sep);
    }
  }

  /** The trimmed list has two or more entries exactly when a non-empty string follows the first entry. */
  lemma DropTrailingEmptyCount(xs: seq<string>)
    ensures |DropTrailingEmpty(xs)| >= 2 <==> exists k :: 1 <= k < |xs| && xs[k] != []
  {
    var r := DropTrailingEmpty(xs);
    if |r| >= 2 {
      assert xs[|r| - 1] == r[|r| - 1];
    }
  }

  predicate IsDigit(c: char) { '0' <= c <= '9' }

  /** The character of a decimal digit. */
  function DigitChar(d: nat): (c: char)
    requires d < 10
    ensures IsDigit(c) && c as int - '0' as int == d
  {
    ('0' as int + d) as char
  }

  /** `Integer.toString` of a non-negative value: its decimal digits, without leading zeros. */
  function NatToString(n: nat): (r: string)
    ensures |r| >= 1 && forall i :: 0 <= i < |r| ==> IsDigit(r[i])
    ensures |r| > 1 ==> r[0] != '0'
    ensures n < 10 ==> |r| == 1
    ensures n < 100 ==> |r| <= 2
    ensures n < 1000 ==> |r| <= 3
    ensures n < 10000 ==> |r| <= 4
    decreases n
  {
    if n < 10 then [DigitChar(n)] else NatToString(n / 10) + [DigitChar(n % 10)]
  }

  /** The value of a string of decimal digits (`Integer.parseInt` without a sign). */
  function DigitsValue(s: string): nat
    requires forall i :: 0 <= i < |s| ==> IsDigit(s[i])
  {
    if s == [] then 0
    else
      var last := s[|s| - 1];
      assert IsDigit(last);
      DigitsValue(s[..|s| - 1]) * 10 + (last as int - '0' as int)
  }

  /** Reading the digits back gives the number. */
  lemma {:induction false} NatToStringRoundTrip(n: nat)
    ensures DigitsValue(NatToString(n)) == n
    decreases n
  {
    if n >= 10 {
      NatToStringRoundTrip(n / 10);
      var s := NatToString(n);
      assert s[..|s| - 1] == NatToString(n / 10);
    }
  }

  /** Different numbers render differently. */
  lemma NatToStringInjective(a: nat, b: nat)
    ensures NatToString(a) == NatToString(b) ==> a == b
  {
    NatToStringRoundTrip(a);
    NatToStringRoundTrip(b);
  }

  /** `String.valueOf(int)`: a minus sign before the digits of a negative value. */
  function IntToString(n: int): (r: string)
    ensures |r| >= 1 && (r[0] == '-' <==> n < 0)
  {
    if n < 0 then "-" + NatToString(-n) else NatToString(n)
  }

  /** Leading zeros do not change the value of a digit string. */
  lemma {:induction false} LeadingZeroValue(s: string)
    requires forall i :: 0 <= i < |s| ==> IsDigit(s[i])
    ensures DigitsValue("0" + s) == DigitsValue(s)
    decreases |s|
  {
    if s != [] {
      LeadingZeroValue(s[..|s| - 1]);
      assert ("0" + s)[..|s|] == "0" + s[..|s| - 1];
    }
  }

  /** The digit string with zeros added in front until it is `width` long. */
  function ZeroPad(s: string, width: nat): (r: string)
    requires forall i :: 0 <= i < |s| ==> IsDigit(s[i])
    ensures |r| == if |s| >= width then |s| else width
    ensures forall i :: 0 <= i < |r| ==> IsDigit(r[i])
    ensures DigitsValue(r) == DigitsValue(s)
    decreases width - |s|
  {
    if |s| >= width then s
    else
      LeadingZeroValue(s);
      ZeroPad("0" + s, width)
  }

  /** The decimal digits of `n`, zero-padded to at least `width` characters (`%0<width>d`). */
  function PadNat(n: nat, width: nat): (r: string)
    ensures forall i :: 0 <= i < |r| ==> IsDigit(r[i])
    ensures DigitsValue(r) == n
    ensures |r| >= width
    ensures width == 2 && n < 100 ==> |r| == 2
    ensures width == 4 && n < 10000 ==> |r| == 4
  {
    NatToStringRoundTrip(n);
    ZeroPad(NatToString(n), width)
  }
}
