/** Python string operations used by the bot, and the text SQLite stores for a
    point in time.  Only the behaviour the handlers rely on is modelled. */
module Text {

  datatype Option<T> = None | Some(value: T)

  /** The placeholder a response template must contain. */
  const Placeholder: string := "{percentage}"

  // ---------------------------------------------------------------------------
  // Characters

  /** Python's `str.isspace` for one character: the separators `str.split()` uses. */
  predicate IsSpace(c: char) {
    || ('\t' <= c <= '\r')
    || ('\U{1C}' <= c <= ' ')
    || c == '\U{85}' || c == '\U{A0}' || c == '\U{1680}'
    || ('\U{2000}' <= c <= '\U{200A}')
    || c == '\U{2028}' || c == '\U{2029}' || c == '\U{202F}' || c == '\U{205F}' || c == '\U{3000}'
  }

  predicate IsDigit(c: char) { '0' <= c <= '9' }

  predicate AllDigits(s: string) { forall i :: 0 <= i < |s| ==> IsDigit(s[i]) }

  predicate NoSpace(s: string) { forall i :: 0 <= i < |s| ==> !IsSpace(s[i]) }

  // ---------------------------------------------------------------------------
  // Substring search: Python's `pat in s`

  predicate OccursAt(s: string, i: nat, pat: string) {
    i + |pat| <= |s| && s[i..i + |pat|] == pat
  }

  predicate Contains(s: string, pat: string)
    decreases |s|
  {
    if |s| < |pat| then false
    else s[..|pat|] == pat || (|s| > 0 && Contains(s[1..], pat))
  }

  /** `Contains` holds exactly when the pattern occurs at some position. */
  lemma {:induction false} ContainsIff(s: string, pat: string)
    ensures Contains(s, pat) <==> exists i: nat :: OccursAt(s, i, pat)
    decreases |s|
  {
    if |s| < |pat| {
      forall i: nat ensures !OccursAt(s, i, pat) { }
    } else if s[..|pat|] == pat {
      assert OccursAt(s, 0, pat);
    } else {
      ContainsIff(s[1..], pat);
      forall i: nat ensures OccursAt(s[1..], i, pat) <==> OccursAt(s, i + 1, pat) {
        OccursShift(s, i, pat);
      }
      if exists i: nat :: OccursAt(s, i, pat) {
        var i: nat :| OccursAt(s, i, pat);
        assert i != 0;
        assert OccursAt(s[1..], i - 1, pat);
      }
    }
  }

  /** An occurrence in the tail is an occurrence one position further on. */
  lemma OccursShift(s: string, i: nat, pat: string)
    requires s != []
    ensures OccursAt(s[1..], i, pat) <==> OccursAt(s, i + 1, pat)
  {
    if i + 1 + |pat| <= |s| {
      assert s[1..][i..i + |pat|] == s[i + 1..i + 1 + |pat|];
    }
  }

  // ---------------------------------------------------------------------------
  // Rendering: `template.format(percentage=r)`, restricted to the one field

  /** Replaces every occurrence of `pat`, scanning left to right. */
  function ReplaceAll(s: string, pat: string, rep: string): string
    requires |pat| > 0
    decreases |s|
  {
    if |s| < |pat| then s
    else if s[..|pat|] == pat then rep + ReplaceAll(s[|pat|..], pat, rep)
    else [s[0]] + ReplaceAll(s[1..], pat, rep)
  }

  /** The response text for result `r`: `{percentage}` replaced by the decimal `r`. */
  function Render(template: string, r: nat): string {
    ReplaceAll(template, Placeholder, NatToString(r))
  }

  /** A text with no occurrence of the pattern is left as it is. */
  lemma {:induction false} ReplaceAbsent(s: string, pat: string, rep: string)
    requires |pat| > 0 && !Contains(s, pat)
    ensures ReplaceAll(s, pat, rep) == s
    decreases |s|
  {
    if |s| >= |pat| {
      ReplaceAbsent(s[1..], pat, rep);
    }
  }

  /** The first occurrence, at the end of `a`, is replaced and the scan goes on after it. */
  lemma {:induction false} ReplaceFirst(s: string, a: string, pat: string, b: string, rep: string)
    requires |pat| > 0 && s == a + pat + b
    requires forall i: nat :: i < |a| ==> !OccursAt(s, i, pat)
    ensures ReplaceAll(s, pat, rep) == a + rep + ReplaceAll(b, pat, rep)
    decreases |a|
  {
    if a == [] {
      assert s[..|pat|] == pat && s[|pat|..] == b;
    } else {
      assert !OccursAt(s, 0, pat);
      var t := s[1..];
      assert ReplaceAll(s, pat, rep) == [s[0]] + ReplaceAll(t, pat, rep);
      assert t == a[1..] + pat + b;
      forall i: nat | i < |a| - 1 ensures !OccursAt(t, i, pat) {
        OccursShift(s, i, pat);
      }
      ReplaceFirst(t, a[1..], pat, b, rep);
      assert [s[0]] + a[1..] == a;
    }
  }

  /** A template with exactly one placeholder renders to the text around it with the
      decimal result in its place. */
  lemma RenderSingle(prefix: string, suffix: string, r: nat)
    requires forall i: nat :: i < |prefix| ==> !OccursAt(prefix + Placeholder + suffix, i, Placeholder)
    requires !Contains(suffix, Placeholder)
    ensures Render(prefix + Placeholder + suffix, r) == prefix + NatToString(r) + suffix
  {
    ReplaceFirst(prefix + Placeholder + suffix, prefix, Placeholder, suffix, NatToString(r));
    ReplaceAbsent(suffix, Placeholder, NatToString(r));
  }

  /** A template whose text before the placeholder has no '{' and whose text after it
      has no placeholder is a valid template that renders with the result in place. */
  lemma RenderTemplate(prefix: string, suffix: string, r: nat)
    requires forall i :: 0 <= i < |prefix| ==> prefix[i] != '{'
    requires !Contains(suffix, Placeholder)
    ensures Contains(prefix + Placeholder + suffix, Placeholder)
    ensures Render(prefix + Placeholder + suffix, r) == prefix + NatToString(r) + suffix
  {
    var s := prefix + Placeholder + suffix;
    forall i: nat | i < |prefix| ensures !OccursAt(s, i, Placeholder) {
      assert s[i] == prefix[i];
      if i + |Placeholder| <= |s| {
        assert s[i..i + |Placeholder|][0] == s[i];
      }
    }
    RenderSingle(prefix, suffix, r);
    assert OccursAt(s, |prefix|, Placeholder);
    ContainsIff(s, Placeholder);
  }

  // ---------------------------------------------------------------------------
  // Decimal numbers: `str(n)` and `int(s)`

  function DigitChar(d: nat): char
    requires d < 10
  {
    "0123456789"[d]
  }

  function DigitValue(c: char): nat
    requires IsDigit(c)
  {
    (c - '0') as nat
  }

  /** `str(n)` for a non-negative integer: decimal digits, no leading zero. */
  function NatToString(n: nat): (s: string)
    ensures |s| > 0 && AllDigits(s)
    ensures s[0] == '0' ==> n == 0
  {
    if n < 10 then [DigitChar(n)] else NatToString(n / 10) + [DigitChar(n % 10)]
  }

  /** The value of a string of decimal digits (leading zeros allowed, as `int` does). */
  function ParseDigits(s: string): nat
    requires AllDigits(s)
  {
    if s == [] then 0 else 10 * ParseDigits(s[..|s| - 1]) + DigitValue(s[|s| - 1])
  }

  /** Reading a decimal back gives the number that was written. */
  lemma {:induction false} ParseNatToString(n: nat)
    ensures ParseDigits(NatToString(n)) == n
  {
    var s := NatToString(n);
    if n >= 10 {
      ParseNatToString(n / 10);
      assert s[..|s| - 1] == NatToString(n / 10);
    }
  }

  /** Drops leading whitespace. */
  function TrimStart(s: string): (t: string)
    ensures |t| <= |s| && t == s[|s| - |t|..]
    ensures t != [] ==> !IsSpace(t[0])
    ensures forall i {:trigger IsSpace(s[i])} :: 0 <= i < |s| - |t| ==> IsSpace(s[i])
  {
    if s != [] && IsSpace(s[0]) then
      var t := TrimStart(s[1..]);
      assert forall i :: 1 <= i < |s| - |t| ==> s[i] == s[1..][i - 1];
      t
    else s
  }

  /** Drops trailing whitespace. */
  function TrimEnd(s: string): (t: string)
    ensures |t| <= |s| && t == s[..|t|]
    ensures t != [] ==> !IsSpace(t[|t| - 1])
    ensures forall i {:trigger IsSpace(s[i])} :: |t| <= i < |s| ==> IsSpace(s[i])
  {
    if s != [] && IsSpace(s[|s| - 1]) then TrimEnd(s[..|s| - 1]) else s
  }

  /** Python `int(s)` for a text without underscores: surrounding whitespace, an
      optional sign and ASCII decimal digits; anything else is a ValueError (None). */
  function PyInt(s: string): (v: Option<int>)
    requires '_' !in s
    ensures AllDigits(s) && s != [] ==> v == Some(ParseDigits(s))
  {
    // Both branches read the same stripped text; the first only adds the fact that a
    // digit string has nothing to strip, which the ensures needs.
    if AllDigits(s) && s != [] then DigitsTrimmed(s, s); SignedDecimal(TrimEnd(TrimStart(s)))
    else SignedDecimal(TrimEnd(TrimStart(s)))
  }

  /** The value of a stripped text: an optional sign followed by ASCII digits. */
  function SignedDecimal(t: string): (v: Option<int>)
    ensures v.Some? <==>
              (t != [] && AllDigits(t)) || (|t| >= 2 && (t[0] == '+' || t[0] == '-') && AllDigits(t[1..]))
    ensures AllDigits(t) && t != [] ==> v == Some(ParseDigits(t))
    ensures |t| >= 2 && t[0] == '+' && AllDigits(t[1..]) ==> v == Some(ParseDigits(t[1..]))
    ensures |t| >= 2 && t[0] == '-' && AllDigits(t[1..]) ==> v.Some? && v.value == -(ParseDigits(t[1..]) as int)
  {
    if t != [] && (t[0] == '+' || t[0] == '-') then
      if t[1..] != [] && AllDigits(t[1..]) then
        var magnitude: int := ParseDigits(t[1..]);
        Some(if t[0] == '-' then -magnitude else magnitude)
      else None
    else if t != [] && AllDigits(t) then Some(ParseDigits(t))
    else None
  }

  /** `int` reads a digit string followed by an optional newline as the digits' value. */
  lemma PyIntDigits(s: string, digits: string)
    requires digits != [] && AllDigits(digits)
    requires s == digits || s == digits + "\n"
    ensures '_' !in s && PyInt(s) == Some(ParseDigits(digits))
  {
    DigitsNoUnderscore(s, digits);
    PyIntTrimmed(s, digits);
  }

  lemma DigitsNoUnderscore(s: string, digits: string)
    requires AllDigits(digits)
    requires s == digits || s == digits + "\n"
    ensures '_' !in s
  {
    forall i | 0 <= i < |s| ensures s[i] != '_' {
      if i < |digits| { assert s[i] == digits[i] && IsDigit(digits[i]); }
    }
  }

  lemma PyIntTrimmed(s: string, digits: string)
    requires digits != [] && AllDigits(digits) && '_' !in s
    requires s == digits || s == digits + "\n"
    ensures PyInt(s) == Some(ParseDigits(digits))
  {
    DigitsTrimmed(s, digits);
  }

  lemma DigitsTrimmed(s: string, digits: string)
    requires digits != [] && AllDigits(digits)
    requires s == digits || s == digits + "\n"
    ensures TrimEnd(TrimStart(s)) == digits
  {
    DigitsTrimStart(s, digits);
    DigitsTrimEnd(digits);
    if s != digits {
      NewlineTrimEnd(s, digits);
    }
  }

  lemma DigitsTrimStart(s: string, digits: string)
    requires digits != [] && AllDigits(digits)
    requires s == digits || s == digits + "\n"
    ensures TrimStart(s) == s
  {
    assert s[0] == digits[0];
    assert IsDigit(s[0]);
  }

  lemma DigitsTrimEnd(digits: string)
    requires digits != [] && AllDigits(digits)
    ensures TrimEnd(digits) == digits
  {
    assert IsDigit(digits[|digits| - 1]);
  }

  lemma NewlineTrimEnd(s: string, digits: string)
    requires s == digits + "\n"
    ensures TrimEnd(s) == TrimEnd(digits)
  {
    assert s[..|s| - 1] == digits;
  }

  // ---------------------------------------------------------------------------
  // Splitting

  /** Python `s.split(sep)` for a one-character separator. */
  function Split(s: string, sep: char): (parts: seq<string>)
    ensures |parts| >= 1
    ensures forall i :: 0 <= i < |parts| ==> sep !in parts[i]
  {
    if s == [] then [""]
    else
      var rest := Split(s[1..], sep);
      if s[0] == sep then [""] + rest else [[s[0]] + rest[0]] + rest[1..]
  }

  /** A text without the separator is one part. */
  lemma {:induction false} SplitNone(s: string, sep: char)
    requires sep !in s
    ensures Split(s, sep) == [s]
  {
    if s != [] {
      SplitNone(s[1..], sep);
      assert [s[0]] + s[1..] == s;
    }
  }

  /** Splitting at the first separator. */
  lemma {:induction false} SplitAt(a: string, sep: char, b: string)
    requires sep !in a
    ensures Split(a + [sep] + b, sep) == [a] + Split(b, sep)
  {
    var s := a + [sep] + b;
    if a == [] {
      assert s[1..] == b;
    } else {
      assert s[1..] == a[1..] + [sep] + b;
      SplitAt(a[1..], sep, b);
      assert [a[0]] + a[1..] == a;
    }
  }

  /** Python `s.split()` followed by `[0]`: the first whitespace-separated word,
      or None where Python raises IndexError (a blank text). */
  function FirstWord(s: string): Option<string> {
    var t := TrimStart(s);
    if t == [] then None else Some(TakeWord(t))
  }

  function TakeWord(s: string): string {
    if s == [] || IsSpace(s[0]) then [] else [s[0]] + TakeWord(s[1..])
  }

  /** A non-blank word followed by whitespace is what `split()[0]` returns. */
  lemma {:induction false} FirstWordOf(word: string, rest: string)
    requires word != [] && NoSpace(word)
    requires rest != [] && IsSpace(rest[0])
    ensures FirstWord(word + rest) == Some(word)
  {
    assert TrimStart(word + rest) == word + rest;
    TakeWordOf(word, rest);
  }

  lemma {:induction false} TakeWordOf(word: string, rest: string)
    requires NoSpace(word)
    requires rest != [] && IsSpace(rest[0])
    ensures TakeWord(word + rest) == word
  {
    if word == [] {
      assert word + rest == rest;
    } else {
      assert (word + rest)[1..] == word[1..] + rest;
      TakeWordOf(word[1..], rest);
      assert [word[0]] + word[1..] == word;
    }
  }

  /** Python `s.capitalize()` for ASCII text: first letter upper case, the rest lower case. */
  function Capitalize(s: string): (t: string)
    ensures |t| == |s|
  {
    if s == [] then [] else [Upper(s[0])] + LowerAll(s[1..])
  }

  function Upper(c: char): char { if 'a' <= c <= 'z' then (c - 'a' + 'A') as char else c }

  function Lower(c: char): char { if 'A' <= c <= 'Z' then (c - 'A' + 'a') as char else c }

  function LowerAll(s: string): (t: string)
    ensures |t| == |s|
  {
    if s == [] then [] else [Lower(s[0])] + LowerAll(s[1..])
  }

  // ---------------------------------------------------------------------------
  // SQLite's text for a point in time (CURRENT_TIMESTAMP): "YYYY-MM-DD HH:MM:SS", UTC

  const SecondsPerDay: nat := 86400

  /** `n` in decimal, left-padded with zeros to `width` digits, as printf's `%0*d`. */
  function Pad(n: int, width: nat): (s: string)
    ensures s != [] && forall i :: 0 <= i < |s| ==> IsDigit(s[i]) || s[i] == '-'
  {
    var digits := NatToString(if n < 0 then -n else n);
    var w := if n < 0 && width > 0 then width - 1 else width;
    var padded := if |digits| < w then seq(w - |digits|, _ => '0') + digits else digits;
    if n < 0 then "-" + padded else padded
  }

  /** The proleptic Gregorian (year, month, day) of a count of days since 1970-01-01. */
  function CivilFromDays(days: int): (int, int, int) {
    var z := days + 719468;
    var era := z / 146097;
    var doe := z % 146097;
    var yoe := (doe - doe / 1460 + doe / 36524 - doe / 146096) / 365;
    var doy := doe - (365 * yoe + yoe / 4 - yoe / 100);
    var mp := (5 * doy + 2) / 153;
    var d := doy - (153 * mp + 2) / 5 + 1;
    var m := if mp < 10 then mp + 3 else mp - 9;
    var y := yoe + era * 400;
    (if m <= 2 then y + 1 else y, m, d)
  }

  /** The date part, "YYYY-MM-DD", of the second `t` counted from 1970-01-01 00:00:00 UTC. */
  function SqlDate(t: int): (s: string)
    ensures s != [] && NoSpace(s)
  {
    var (y, m, d) := CivilFromDays(t / SecondsPerDay);
    var s := Pad(y, 4) + "-" + Pad(m, 2) + "-" + Pad(d, 2);
    assert forall i :: 0 <= i < |s| ==> IsDigit(s[i]) || s[i] == '-';
    s
  }

  /** The time-of-day part, "HH:MM:SS". */
  function SqlClock(t: int): string {
    var s := t % SecondsPerDay;
    Pad(s / 3600, 2) + ":" + Pad(s / 60 % 60, 2) + ":" + Pad(s % 60, 2)
  }

  /** The text SQLite stores for CURRENT_TIMESTAMP at second `t`. */
  function SqlTimestamp(t: int): string {
    SqlDate(t) + " " + SqlClock(t)
  }

  /** The word before the first space of a stored timestamp is its date. */
  lemma TimestampDate(t: int)
    ensures FirstWord(SqlTimestamp(t)) == Some(SqlDate(t))
  {
    assert SqlTimestamp(t) == SqlDate(t) + (" " + SqlClock(t));
    FirstWordOf(SqlDate(t), " " + SqlClock(t));
  }
}
