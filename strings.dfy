/** The Python string built-ins the core relies on: str.isspace, str.strip(),
    str.split() on whitespace, str.split(sep), str.join, int() on a decimal string and
    the format f"{n:02d}". */
module Strings {
  import opened Common

  /** Python's str.isspace for a single character. */
  predicate IsSpace(c: char) {
    var n := c as int;
    || (0x09 <= n <= 0x0D) || (0x1C <= n <= 0x20) || n == 0x85 || n == 0xA0
    || n == 0x1680 || (0x2000 <= n <= 0x200A) || n == 0x2028 || n == 0x2029
    || n == 0x202F || n == 0x205F || n == 0x3000
  }

  /** A word as str.split() produces it: non-empty, with no whitespace in it. */
  predicate IsWord(w: string) {
    w != [] && forall k :: 0 <= k < |w| ==> !IsSpace(w[k])
  }

  // ---------------------------------------------------------------------------
  // str.strip()

  /** The number of whitespace characters at the start of s. */
  function LeadingSpace(s: string): (n: nat)
    ensures n <= |s|
    ensures forall k :: 0 <= k < n ==> IsSpace(s[k])
    ensures n < |s| ==> !IsSpace(s[n])
  {
    if s != [] && IsSpace(s[0]) then 1 + LeadingSpace(s[1..]) else 0
  }

  /** The number of whitespace characters at the end of s. */
  function TrailingSpace(s: string): (n: nat)
    ensures n <= |s|
    ensures forall k :: |s| - n <= k < |s| ==> IsSpace(s[k])
    ensures n < |s| ==> !IsSpace(s[|s| - n - 1])
  {
    if s != [] && IsSpace(s[|s| - 1]) then 1 + TrailingSpace(s[..|s| - 1]) else 0
  }

  /** Python's str.strip(): s without its leading and trailing whitespace. */
  function Strip(s: string): string {
    var rest := s[LeadingSpace(s)..];
    rest[..|rest| - TrailingSpace(rest)]
  }

  /** The stripped text is a slice of s, everything cut off on either side is
      whitespace, and the slice neither starts nor ends with whitespace. */
  lemma StripShape(s: string)
    ensures var r, lo := Strip(s), LeadingSpace(s);
      && lo + |r| <= |s|
      && r == s[lo..lo + |r|]
      && (forall k :: 0 <= k < lo ==> IsSpace(s[k]))
      && (forall k :: lo + |r| <= k < |s| ==> IsSpace(s[k]))
      && (r == [] || (!IsSpace(r[0]) && !IsSpace(r[|r| - 1])))
  {
  }

  /** Stripping never adds nor removes a character that is not whitespace. */
  lemma StripKeeps(s: string, c: char)
    requires !IsSpace(c)
    ensures c in Strip(s) <==> c in s
  {
    var r, lo := Strip(s), LeadingSpace(s);
    StripShape(s);
    if c in s {
      var k :| 0 <= k < |s| && s[k] == c;
      assert lo <= k < lo + |r|;
      assert r[k - lo] == c;
    }
  }

  // ---------------------------------------------------------------------------
  // str.join

  /** Python's sep.join(parts). */
  function JoinWith(sep: string, parts: seq<string>): string
    decreases |parts|
  {
    if parts == [] then ""
    else if |parts| == 1 then parts[0]
    else parts[0] + sep + JoinWith(sep, parts[1..])
  }

  /** Appending text to a joined string is the same as appending it to the last part. */
  lemma {:induction false} JoinAppendToLast(sep: string, parts: seq<string>, x: string)
    requires parts != []
    ensures JoinWith(sep, parts) + x == JoinWith(sep, parts[..|parts| - 1] + [parts[|parts| - 1] + x])
    decreases |parts|
  {
    var extended := parts[..|parts| - 1] + [parts[|parts| - 1] + x];
    if |parts| > 1 {
      JoinAppendToLast(sep, parts[1..], x);
      assert extended[1..] == parts[1..][..|parts| - 2] + [parts[1..][|parts| - 2] + x];
    }
  }

  // ---------------------------------------------------------------------------
  // str.split() with no argument: runs of whitespace separate words

  /** The length of the run of non-whitespace characters that starts s. */
  function WordLength(s: string): (n: nat)
    ensures n <= |s|
    ensures forall k :: 0 <= k < n ==> !IsSpace(s[k])
    ensures n < |s| ==> IsSpace(s[n])
  {
    if s == [] || IsSpace(s[0]) then 0 else 1 + WordLength(s[1..])
  }

  /** Python's s.split(): the words of s, in order, without empty strings. */
  function Words(s: string): (ws: seq<string>)
    ensures forall i :: 0 <= i < |ws| ==> IsWord(ws[i])
    decreases |s|
  {
    if s == [] then []
    else if IsSpace(s[0]) then Words(s[1..])
    else
      var n := WordLength(s);
      [s[..n]] + Words(s[n..])
  }

  lemma WordsAfterSpace(s: string)
    requires s != [] && IsSpace(s[0])
    ensures Words(s) == Words(s[1..])
  {
  }

  /** A word followed by whitespace (or nothing) is split off as the first word. */
  lemma WordsOfWordThen(w: string, rest: string)
    requires IsWord(w)
    requires rest == [] || IsSpace(rest[0])
    ensures Words(w + rest) == [w] + Words(rest)
  {
    var s := w + rest;
    assert forall k :: 0 <= k < |w| ==> s[k] == w[k];
    assert |w| < |s| ==> s[|w|] == rest[0];
    assert WordLength(s) == |w|;
    assert s[..|w|] == w && s[|w|..] == rest;
  }

  /** Splitting words joined by single spaces gives the words back. */
  lemma {:induction false} WordsOfJoin(ws: seq<string>)
    requires forall i :: 0 <= i < |ws| ==> IsWord(ws[i])
    ensures Words(JoinWith(" ", ws)) == ws
    decreases |ws|
  {
    if |ws| == 1 {
      WordsOfWordThen(ws[0], "");
      assert ws[0] + "" == ws[0];
    } else if |ws| > 1 {
      var rest := JoinWith(" ", ws[1..]);
      var tail := " " + rest;
      WordsOfJoin(ws[1..]);
      assert JoinWith(" ", ws) == ws[0] + tail;
      WordsOfWordThen(ws[0], tail);
      assert tail[1..] == rest;
      WordsAfterSpace(tail);
      assert ws == [ws[0]] + ws[1..];
    }
  }

  // ---------------------------------------------------------------------------
  // str.find and str.split(sep)

  /** sep occurs in s starting at position j. */
  predicate OccursAt(s: string, sep: string, j: nat) {
    j + |sep| <= |s| && s[j..j + |sep|] == sep
  }

  /** The first position at or after from at which sep occurs in s. */
  function FindFrom(s: string, sep: string, from: nat): (r: Option<nat>)
    requires sep != []
    ensures r.Some? ==> from <= r.value && OccursAt(s, sep, r.value)
    ensures r.Some? ==> forall j: nat :: from <= j < r.value ==> !OccursAt(s, sep, j)
    ensures r.None? ==> forall j: nat :: from <= j ==> !OccursAt(s, sep, j)
    decreases |s| - from
  {
    if from + |sep| > |s| then None
    else if OccursAt(s, sep, from) then Some(from)
    else FindFrom(s, sep, from + 1)
  }

  /** The first position at which sep occurs in s (Python's s.find(sep), with None
      for -1). */
  function Find(s: string, sep: string): (r: Option<nat>)
    requires sep != []
    ensures r.Some? ==> OccursAt(s, sep, r.value)
    ensures r.Some? ==> forall j: nat :: j < r.value ==> !OccursAt(s, sep, j)
    ensures r.None? ==> forall j: nat :: !OccursAt(s, sep, j)
  {
    FindFrom(s, sep, 0)
  }

  /** When s does not contain the first character of sep, sep does not occur in s. */
  lemma FindWithoutFirstChar(s: string, sep: string)
    requires sep != [] && sep[0] !in s
    ensures Find(s, sep) == None
  {
    forall j: nat
      ensures !OccursAt(s, sep, j)
    {
      if j + |sep| <= |s| {
        assert s[j..j + |sep|][0] == s[j];
      }
    }
  }

  /** In p + sep + rest, where p lacks sep's first character, sep first occurs right
      after p. */
  lemma FindAfterPrefix(p: string, sep: string, rest: string)
    requires sep != [] && sep[0] !in p
    ensures Find(p + sep + rest, sep) == Some(|p|)
  {
    var s := p + sep + rest;
    assert s[|p|..|p| + |sep|] == sep;
    assert OccursAt(s, sep, |p|);
    forall j: nat | j < |p|
      ensures !OccursAt(s, sep, j)
    {
      if j + |sep| <= |s| {
        assert s[j..j + |sep|][0] == s[j] == p[j];
      }
    }
  }

  /** Python's s.split(sep) for a non-empty separator: the pieces between
      non-overlapping occurrences of sep, scanned left to right, empty pieces kept. */
  function SplitOn(s: string, sep: string): (parts: seq<string>)
    requires sep != []
    ensures |parts| >= 1
    decreases |s|
  {
    match Find(s, sep)
    case None => [s]
    case Some(k) => [s[..k]] + SplitOn(s[k + |sep|..], sep)
  }

  /** Joining the pieces of a split with the same separator restores the string. */
  lemma {:induction false} JoinSplitOn(s: string, sep: string)
    requires sep != []
    ensures JoinWith(sep, SplitOn(s, sep)) == s
    decreases |s|
  {
    match Find(s, sep)
    case None =>
    case Some(k) =>
      var rest := s[k + |sep|..];
      JoinSplitOn(rest, sep);
      var tail := SplitOn(rest, sep);
      var parts := [s[..k]] + tail;
      assert parts[1..] == tail;
      assert JoinWith(sep, parts) == s[..k] + sep + JoinWith(sep, tail);
      assert s == s[..k] + s[k..k + |sep|] + rest;
  }

  /** A first piece without sep's first character is split off whole. */
  lemma SplitOnAfterPrefix(p: string, sep: string, rest: string)
    requires sep != [] && sep[0] !in p
    ensures SplitOn(p + sep + rest, sep) == [p] + SplitOn(rest, sep)
  {
    var s := p + sep + rest;
    FindAfterPrefix(p, sep, rest);
    assert s[..|p|] == p;
    assert s[|p| + |sep|..] == rest;
  }

  /** Splitting a join gives back its parts, provided no part contains the first
      character of the separator. */
  lemma {:induction false} SplitOnJoin(parts: seq<string>, sep: string)
    requires sep != [] && parts != []
    requires forall i :: 0 <= i < |parts| ==> sep[0] !in parts[i]
    ensures SplitOn(JoinWith(sep, parts), sep) == parts
    decreases |parts|
  {
    if |parts| == 1 {
      FindWithoutFirstChar(parts[0], sep);
    } else {
      var rest := JoinWith(sep, parts[1..]);
      assert JoinWith(sep, parts) == parts[0] + sep + rest;
      SplitOnAfterPrefix(parts[0], sep, rest);
      SplitOnJoin(parts[1..], sep);
      assert parts == [parts[0]] + parts[1..];
    }
  }

  // ---------------------------------------------------------------------------
  // Decimal numerals: int() and f"{n:02d}"

  predicate IsDigit(c: char) {
    '0' <= c <= '9'
  }

  function DigitChar(d: nat): (c: char)
    requires d < 10
    ensures IsDigit(c)
  {
    ('0' as int + d) as char
  }

  function DigitValue(c: char): (d: nat)
    requires IsDigit(c)
    ensures d < 10
  {
    c as int - '0' as int
  }

  /** The decimal representation of n, without leading zeros (Python's str(n)). */
  function NatToDecimal(n: nat): (s: string)
    ensures s != []
    ensures |s| == 1 <==> n < 10
    ensures forall k :: 0 <= k < |s| ==> IsDigit(s[k])
  {
    if n < 10 then [DigitChar(n)] else NatToDecimal(n / 10) + [DigitChar(n % 10)]
  }

  /** Every character is a digit or an underscore. */
  predicate NumeralChars(s: string) {
    forall k :: 0 <= k < |s| ==> IsDigit(s[k]) || s[k] == '_'
  }

  /** The body of a base-10 integer literal as int() accepts it: ASCII digits, with
      single underscores allowed between two digits. */
  predicate IsNumeral(s: string) {
    && s != []
    && NumeralChars(s)
    && IsDigit(s[0])
    && IsDigit(s[|s| - 1])
    && forall k :: 0 <= k < |s| - 1 ==> !(s[k] == '_' && s[k + 1] == '_')
  }

  /** The value of a numeral, underscores ignored. */
  function NumeralValue(s: string): nat
    requires NumeralChars(s)
    decreases |s|
  {
    if s == [] then 0
    else
      var init := NumeralValue(s[..|s| - 1]);
      if s[|s| - 1] == '_' then init else init * 10 + DigitValue(s[|s| - 1])
  }

  /** Python's int(s) on an already stripped string: an optional sign then a numeral;
      None stands for the ValueError raised otherwise. */
  function ParseInt(s: string): Option<int> {
    if s != [] && (s[0] == '+' || s[0] == '-') then
      if IsNumeral(s[1..]) then
        var v: int := NumeralValue(s[1..]);
        Some(if s[0] == '-' then -v else v)
      else None
    else if IsNumeral(s) then Some(NumeralValue(s))
    else None
  }

  /** Python's f"{n:02d}": the decimal digits of n, zero-padded to width two; for a
      negative n the sign counts towards the width. */
  function Format02d(n: int): (r: string)
    ensures |r| >= 2
    ensures 0 <= n < 100 ==> |r| == 2
    ensures 0 <= n ==> forall k :: 0 <= k < |r| ==> IsDigit(r[k])
  {
    if n < 0 then "-" + NatToDecimal(-n)
    else if n < 10 then "0" + NatToDecimal(n)
    else NatToDecimal(n)
  }

  /** The decimal representation of a natural number is a numeral of that value. */
  lemma {:induction false} DecimalValue(n: nat)
    ensures IsNumeral(NatToDecimal(n))
    ensures NumeralValue(NatToDecimal(n)) == n
  {
    var s := NatToDecimal(n);
    if n >= 10 {
      DecimalValue(n / 10);
      assert s[..|s| - 1] == NatToDecimal(n / 10);
    }
  }

  /** int() reads back what str() wrote. */
  lemma ParseIntOfDecimal(n: nat)
    ensures ParseInt(NatToDecimal(n)) == Some(n)
  {
    DecimalValue(n);
  }

  /** int() reads back what f"{n:02d}" wrote, leading zero and sign included. */
  lemma ParseIntOfFormat02d(n: int)
    ensures ParseInt(Format02d(n)) == Some(n)
  {
    var r := Format02d(n);
    if n < 0 {
      DecimalValue(-n);
      assert r[1..] == NatToDecimal(-n);
    } else if n < 10 {
      assert r == ['0', DigitChar(n)];
      assert r[..1] == "0";
      assert NumeralValue("0") == 0 by { assert "0"[..0] == ""; }
    } else {
      DecimalValue(n);
    }
  }
}
