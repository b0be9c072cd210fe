/** The string operations of Swift and Foundation that the app relies on,
    written out over Dafny strings (sequences of Unicode scalar values).

    - `trimmingCharacters(in: .whitespacesAndNewlines)` is `Trim`, over the
      full whitespace-and-newline character set;
    - `components(separatedBy: .newlines)` is `SplitLines`;
    - `lowercased()` and `capitalized` are given for ASCII letters only;
    - `Character.isNumber` is `IsNumber` (ASCII digits plus a sample of
      non-ASCII numeric characters);
    - `Int(String)` is `ParseInt` (optional sign, ASCII digits, 64-bit range);
    - `String(format: "%02d", n)` is `Pad2`. */
module TextOps {
  import opened Wrappers

  // ---------------------------------------------------------------------
  // Character classes

  /** Foundation's `whitespacesAndNewlines`: the Unicode separators (Zs, Zl,
      Zp) plus U+0009...U+000D and U+0085. */
  predicate IsWhitespace(c: char) {
    c == ' ' || ('\t' <= c <= '\r') || c == '\U{0085}' || c == '\U{00A0}'
    || c == '\U{1680}' || ('\U{2000}' <= c <= '\U{200A}') || c == '\U{2028}'
    || c == '\U{2029}' || c == '\U{202F}' || c == '\U{205F}' || c == '\U{3000}'
  }

  /** Foundation's `newlines`: U+000A...U+000D, U+0085, U+2028 and U+2029. */
  predicate IsNewline(c: char) {
    ('\n' <= c <= '\r') || c == '\U{0085}' || c == '\U{2028}' || c == '\U{2029}'
  }

  predicate IsAsciiDigit(c: char) { '0' <= c <= '9' }

  /** `Character.isNumber`: true for the ASCII digits and for other numeric
      characters (superscripts, vulgar fractions, Arabic-Indic and fullwidth
      digits, Roman numerals), which `Int(String)` does not accept. */
  predicate IsNumber(c: char) {
    IsAsciiDigit(c) || c == '\U{00B2}' || c == '\U{00B3}' || c == '\U{00B9}'
    || ('\U{00BC}' <= c <= '\U{00BE}') || ('\U{0660}' <= c <= '\U{0669}')
    || ('\U{2160}' <= c <= '\U{2188}') || ('\U{FF10}' <= c <= '\U{FF19}')
  }

  predicate AllDigits(s: string) {
    forall k :: 0 <= k < |s| ==> IsAsciiDigit(s[k])
  }

  // ---------------------------------------------------------------------
  // Trimming

  function TrimStart(s: string): (r: string)
    ensures |r| <= |s|
  {
    if |s| > 0 && IsWhitespace(s[0]) then TrimStart(s[1..]) else s
  }

  function TrimEnd(s: string): (r: string)
    ensures |r| <= |s|
  {
    if |s| > 0 && IsWhitespace(s[|s| - 1]) then TrimEnd(s[..|s| - 1]) else s
  }

  /** `TrimStart` drops exactly the leading whitespace. */
  lemma {:induction false} TrimStartShape(s: string)
    ensures var r := TrimStart(s);
      r == s[|s| - |r|..]
      && (forall k :: 0 <= k < |s| - |r| ==> IsWhitespace(s[k]))
      && (r != [] ==> !IsWhitespace(r[0]))
  {
    if |s| > 0 && IsWhitespace(s[0]) {
      TrimStartShape(s[1..]);
    }
  }

  /** `TrimEnd` drops exactly the trailing whitespace. */
  lemma {:induction false} TrimEndShape(s: string)
    ensures var r := TrimEnd(s);
      r == s[..|r|]
      && (forall k :: |r| <= k < |s| ==> IsWhitespace(s[k]))
      && (r != [] ==> !IsWhitespace(r[|r| - 1]))
  {
    if |s| > 0 && IsWhitespace(s[|s| - 1]) {
      TrimEndShape(s[..|s| - 1]);
    }
  }

  /** `trimmingCharacters(in: .whitespacesAndNewlines)`. Its shape is stated
      by `TrimSpec`, kept out of the contract so that the many places that
      only compare trimmed strings do not pay for it. */
  function Trim(s: string): (r: string)
    ensures |r| <= |s|
  {
    TrimEnd(TrimStart(s))
  }

  /** The trimmed text is the middle of `s` between whitespace-only ends;
      it neither starts nor ends with whitespace, and it is empty exactly
      when `s` is all whitespace. */
  lemma TrimSpec(s: string)
    ensures var i := |s| - |TrimStart(s)|; var r := Trim(s);
              i + |r| <= |s| && r == s[i..i + |r|]
              && (forall k :: 0 <= k < i ==> IsWhitespace(s[k]))
              && (forall k :: i + |r| <= k < |s| ==> IsWhitespace(s[k]))
    ensures var r := Trim(s); r != [] ==> !IsWhitespace(r[0]) && !IsWhitespace(r[|r| - 1])
    ensures Trim(s) == [] <==> forall k :: 0 <= k < |s| ==> IsWhitespace(s[k])
  {
    var a := TrimStart(s);
    var r := TrimEnd(a);
    var i := |s| - |a|;
    TrimStartShape(s);
    TrimEndShape(a);
    assert r == s[i..i + |r|];
    forall k | i + |r| <= k < |s| ensures IsWhitespace(s[k]) {
      assert s[k] == a[k - i];
    }
    if r == [] {
      // a non-empty TrimStart result starts with a non-whitespace character
      assert a == [];
    } else {
      assert r[0] == a[0];
    }
  }

  /** Trimming changes nothing when the ends are not whitespace. */
  lemma TrimOfTrimmed(s: string)
    requires s != [] ==> !IsWhitespace(s[0]) && !IsWhitespace(s[|s| - 1])
    ensures Trim(s) == s
  {
    if s != [] {
      assert TrimStart(s) == s;
      assert TrimEnd(s) == s;
    }
  }

  lemma TrimIdempotent(s: string)
    ensures Trim(Trim(s)) == Trim(s)
  {
    TrimSpec(s);
    TrimOfTrimmed(Trim(s));
  }

  /** Trimming only removes characters, so text without a newline stays
      without one. */
  lemma TrimKeepsNoNewline(s: string)
    requires forall j :: 0 <= j < |s| ==> !IsNewline(s[j])
    ensures forall j :: 0 <= j < |Trim(s)| ==> !IsNewline(Trim(s)[j])
  {
    TrimSpec(s);
    var i := |s| - |TrimStart(s)|;
    forall j | 0 <= j < |Trim(s)| ensures !IsNewline(Trim(s)[j]) {
      assert Trim(s)[j] == s[i + j];
    }
  }

  predicate IsBlank(s: string) { Trim(s) == [] }

  /** Text with one character that is not whitespace is not blank. */
  lemma NotBlankAt(s: string, k: int)
    requires 0 <= k < |s| && !IsWhitespace(s[k])
    ensures !IsBlank(s)
  {
    TrimSpec(s);
  }

  // ---------------------------------------------------------------------
  // Prefixes, search, case

  predicate HasPrefix(s: string, p: string) {
    |p| <= |s| && s[..|p|] == p
  }

  /** `String.contains(_:)` for a non-empty needle. */
  predicate Contains(s: string, p: string)
    decreases |s|
  {
    HasPrefix(s, p) || (|s| > 0 && Contains(s[1..], p))
  }

  function LowerChar(c: char): char {
    if 'A' <= c <= 'Z' then (c as int + 32) as char else c
  }

  function UpperChar(c: char): char {
    if 'a' <= c <= 'z' then (c as int - 32) as char else c
  }

  /** `lowercased()` (ASCII letters only). */
  function Lowercased(s: string): (r: string)
    ensures |r| == |s|
  {
    seq(|s|, k requires 0 <= k < |s| => LowerChar(s[k]))
  }

  /** Capitalises from `s`, `atStart` saying whether the previous character
      ended a word. */
  function CapitalizeFrom(s: string, atStart: bool): (r: string)
    ensures |r| == |s|
  {
    if s == [] then []
    else
      var c := if IsWhitespace(s[0]) then s[0]
               else if atStart then UpperChar(s[0]) else LowerChar(s[0]);
      [c] + CapitalizeFrom(s[1..], IsWhitespace(s[0]))
  }

  /** `capitalized`: the first letter of every word upper case, the other
      letters lower case (ASCII letters only). */
  function Capitalized(s: string): (r: string)
    ensures |r| == |s|
  {
    CapitalizeFrom(s, true)
  }

  /** `firstIndex(of:)`. */
  function IndexOf(s: string, c: char): (r: Option<nat>)
    ensures r.Some? ==> r.value < |s| && s[r.value] == c
                        && forall k :: 0 <= k < r.value ==> s[k] != c
    ensures r.None? ==> forall k :: 0 <= k < |s| ==> s[k] != c
  {
    if s == [] then None
    else if s[0] == c then Some(0)
    else match IndexOf(s[1..], c)
      case None => None
      case Some(i) => Some(i + 1)
  }

  /** `filter { $0.isNumber }`. */
  function FilterNumbers(s: string): (r: string)
    ensures |r| <= |s|
    ensures forall k :: 0 <= k < |r| ==> IsNumber(r[k])
  {
    if s == [] then []
    else if IsNumber(s[0]) then [s[0]] + FilterNumbers(s[1..])
    else FilterNumbers(s[1..])
  }

  // ---------------------------------------------------------------------
  // Decimal numbers

  const IntMax: int := 0x7FFF_FFFF_FFFF_FFFF
  const IntMin: int := -0x8000_0000_0000_0000

  function DigitValue(c: char): nat
    requires IsAsciiDigit(c)
  {
    c as int - '0' as int
  }

  function DigitChar(d: nat): (c: char)
    requires d < 10
    ensures IsAsciiDigit(c) && DigitValue(c) == d
  {
    ('0' as int + d) as char
  }

  /** The value of a string of ASCII digits, most significant first. */
  function DigitsValue(s: string): nat
    requires AllDigits(s)
  {
    if s == [] then 0 else DigitsValue(s[..|s| - 1]) * 10 + DigitValue(s[|s| - 1])
  }

  /** The decimal digits of `n`, without leading zeros. */
  function NatToString(n: nat): (r: string)
    ensures |r| >= 1 && AllDigits(r)
    ensures r[0] == '0' ==> n == 0
    ensures DigitsValue(r) == n
  {
    if n < 10 then [DigitChar(n)]
    else
      var r := NatToString(n / 10) + [DigitChar(n % 10)];
      assert r[..|r| - 1] == NatToString(n / 10);
      r
  }

  /** `String(n)` / `"\(n)"` for an Int. */
  function IntToString(i: int): (r: string)
    ensures |r| >= 1
  {
    if i < 0 then "-" + NatToString(-i) else NatToString(i)
  }

  /** `String(format: "%02d", n)`: at least two characters, zero-padded. */
  function Pad2(n: int): (r: string)
    ensures |r| >= 2
    ensures 0 <= n ==> AllDigits(r) && DigitsValue(r) == n
    ensures 0 <= n < 100 ==> |r| == 2
  {
    var s := IntToString(n);
    if |s| < 2 then
      assert s == NatToString(n);
      assert DigitsValue("0" + s) == DigitsValue(s) by {
        assert ("0" + s)[..1] == "0";
      }
      "0" + s
    else
      assert 0 <= n < 100 ==> |s| == 2 by {
        if 0 <= n < 100 {
          assert s == NatToString(n) == NatToString(n / 10) + [DigitChar(n % 10)];
        }
      }
      s
  }

  /** Swift's `Int(String)`: an optional `+` or `-`, then one or more ASCII
      digits, and a value that fits in 64 bits; anything else is nil. */
  function ParseInt(s: string): (r: Option<int>)
    ensures r.Some? ==> IntMin <= r.value <= IntMax
    ensures r.Some? ==> |s| > 0 && s != "+" && s != "-"
  {
    if s == [] then None
    else
      var signed := s[0] == '-' || s[0] == '+';
      var body := if signed then s[1..] else s;
      if body == [] || !AllDigits(body) then None
      else
        var v := if s[0] == '-' then -(DigitsValue(body) as int) else DigitsValue(body);
        if IntMin <= v <= IntMax then Some(v) else None
  }

  /** Round trip: the decimal text of a 64-bit value parses back to it. */
  lemma ParseNatToString(n: nat)
    requires n <= IntMax
    ensures ParseInt(NatToString(n)) == Some(n)
  {
    var s := NatToString(n);
    assert s[0] != '-' && s[0] != '+' by { assert IsAsciiDigit(s[0]); }
  }

  // ---------------------------------------------------------------------
  // Joining and splitting

  /** `joined(separator:)`. */
  function Join(parts: seq<string>, sep: string): string {
    if parts == [] then ""
    else if |parts| == 1 then parts[0]
    else parts[0] + sep + Join(parts[1..], sep)
  }

  /** Appending one part to a non-empty list adds the separator and the part. */
  lemma {:induction false} JoinSnoc(parts: seq<string>, x: string, sep: string)
    requires parts != []
    ensures Join(parts + [x], sep) == Join(parts, sep) + sep + x
  {
    if |parts| == 1 {
      assert (parts + [x])[1..] == [x];
    } else {
      assert (parts + [x])[1..] == parts[1..] + [x];
      JoinSnoc(parts[1..], x, sep);
    }
  }

  /** Joining concatenated lists: the two joined halves with one separator. */
  lemma {:induction false} JoinAppend(a: seq<string>, b: seq<string>, sep: string)
    requires a != [] && b != []
    ensures Join(a + b, sep) == Join(a, sep) + sep + Join(b, sep)
  {
    if |a| == 1 {
      assert (a + b)[1..] == b;
    } else {
      assert (a + b)[1..] == a[1..] + b;
      JoinAppend(a[1..], b, sep);
    }
  }

  function NewlineCount(s: string): nat {
    if s == [] then 0 else (if IsNewline(s[0]) then 1 else 0) + NewlineCount(s[1..])
  }

  /** `components(separatedBy: .newlines)`: every newline character ends a
      component, so a "\r\n" pair yields an empty component between them. */
  function SplitLines(s: string): (r: seq<string>)
    ensures |r| == NewlineCount(s) + 1
    ensures forall k, j :: 0 <= k < |r| && 0 <= j < |r[k]| ==> !IsNewline(r[k][j])
  {
    if s == [] then [""]
    else
      var rest := SplitLines(s[1..]);
      if IsNewline(s[0]) then [""] + rest
      else [[s[0]] + rest[0]] + rest[1..]
  }

  /** Text without a newline is a single line. */
  lemma {:induction false} SplitLinesNoNewline(s: string)
    requires NewlineCount(s) == 0
    ensures SplitLines(s) == [s]
  {
    if s != [] {
      assert !IsNewline(s[0]);
      SplitLinesNoNewline(s[1..]);
      assert [s[0]] + s[1..] == s;
    }
  }
}
