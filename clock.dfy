/** `formatTime(_:)`, written identically in HomeViewModel.swift, in the
    SoapAI HomeView.swift and in the root HomeView.swift: hours, minutes
    and seconds of a count of seconds, each printed with `%02d` and joined
    by ":". */
module Clock {
  import opened Wrappers
  import opened TextOps

  /** Swift's `/` on `Int`: the quotient truncated toward zero. */
  function Quot(a: int, b: int): (q: int)
    requires b > 0
    ensures a >= 0 ==> 0 <= a - b * q < b
    ensures a < 0 ==> -b < a - b * q <= 0
  {
    if a >= 0 then a / b else -((-a) / b)
  }

  /** Swift's `%` on `Int`: the remainder has the sign of the dividend. */
  function Rem(a: int, b: int): (r: int)
    requires b > 0
    ensures a == b * Quot(a, b) + r
    ensures a >= 0 ==> 0 <= r < b
    ensures a < 0 ==> -b < r <= 0
  {
    a - b * Quot(a, b)
  }

  function FormatTime(totalSeconds: int): (r: string)
    ensures |r| >= 8
  {
    var hours := Quot(totalSeconds, 3600);
    var minutes := Quot(Rem(totalSeconds, 3600), 60);
    var seconds := Rem(totalSeconds, 60);
    Pad2(hours) + ":" + Pad2(minutes) + ":" + Pad2(seconds)
  }

  /** The text before and after the first ":". */
  function SplitAtColon(s: string): Option<(string, string)> {
    match IndexOf(s, ':')
    case None => None
    case Some(i) => Some((s[..i], s[i + 1..]))
  }

  /** The value of well-formed clock fields. */
  function FieldsValue(h: string, m: string, sec: string): Option<int> {
    if h != [] && AllDigits(h) && |m| == 2 && AllDigits(m) && |sec| == 2 && AllDigits(sec)
       && DigitsValue(m) < 60 && DigitsValue(sec) < 60
    then Some(3600 * DigitsValue(h) + 60 * DigitsValue(m) + DigitsValue(sec))
    else None
  }

  /** A clock face read back as seconds: digits for the hours, then two
      digits below 60 for the minutes and two for the seconds. */
  function ParseClock(s: string): Option<int> {
    match SplitAtColon(s)
    case None => None
    case Some((h, rest)) =>
      match SplitAtColon(rest)
      case None => None
      case Some((m, sec)) => FieldsValue(h, m, sec)
  }

  /** For a count that is not negative: minutes and seconds below 60, the
      three fields adding back up to the count, each at least two digits. */
  lemma FormatTimeFields(t: int)
    requires t >= 0
    ensures var h, m, s := t / 3600, (t % 3600) / 60, t % 60;
      && m < 60 && s < 60 && 3600 * h + 60 * m + s == t
      && FormatTime(t) == Pad2(h) + ":" + Pad2(m) + ":" + Pad2(s)
      && |Pad2(h)| >= 2 && |Pad2(m)| == 2 && |Pad2(s)| == 2
  {
    assert Rem(t, 3600) == t % 3600;
    assert Rem(t, 60) == t % 60;
  }

  lemma IndexOfFirst(a: string, c: char, b: string)
    requires forall k :: 0 <= k < |a| ==> a[k] != c
    ensures IndexOf(a + [c] + b, c) == Some(|a|)
  {
    assert (a + [c] + b)[|a|] == c;
  }

  lemma DigitsHaveNoColon(d: string)
    requires AllDigits(d)
    ensures forall k :: 0 <= k < |d| ==> d[k] != ':'
  {
    forall k | 0 <= k < |d| ensures d[k] != ':' {
      assert IsAsciiDigit(d[k]);
    }
  }

  lemma SplitAtFirstColon(a: string, b: string)
    requires forall k :: 0 <= k < |a| ==> a[k] != ':'
    ensures SplitAtColon(a + ":" + b) == Some((a, b))
  {
    var text := a + ":" + b;
    IndexOfFirst(a, ':', b);
    assert text == a + [':'] + b;
    assert text[..|a|] == a;
    assert text[|a| + 1..] == b;
  }

  /** Reading three well-formed fields joined by ":". */
  lemma ParseClockFields(h: string, m: string, sec: string)
    requires h != [] && AllDigits(h) && |m| == 2 && AllDigits(m) && |sec| == 2 && AllDigits(sec)
    requires DigitsValue(m) < 60 && DigitsValue(sec) < 60
    ensures ParseClock(h + ":" + m + ":" + sec)
            == Some(3600 * DigitsValue(h) + 60 * DigitsValue(m) + DigitsValue(sec))
  {
    DigitsHaveNoColon(h);
    DigitsHaveNoColon(m);
    assert h + ":" + m + ":" + sec == h + ":" + (m + ":" + sec);
    SplitAtFirstColon(h, m + ":" + sec);
    SplitAtFirstColon(m, sec);
    FieldsValueOf(h, m, sec);
  }

  lemma FieldsValueOf(h: string, m: string, sec: string)
    requires h != [] && AllDigits(h) && |m| == 2 && AllDigits(m) && |sec| == 2 && AllDigits(sec)
    requires DigitsValue(m) < 60 && DigitsValue(sec) < 60
    ensures FieldsValue(h, m, sec) == Some(3600 * DigitsValue(h) + 60 * DigitsValue(m) + DigitsValue(sec))
  {
  }

  /** Reading back three padded fields. */
  lemma ParsePadded(h: nat, m: nat, sec: nat)
    requires m < 60 && sec < 60
    ensures ParseClock(Pad2(h) + ":" + Pad2(m) + ":" + Pad2(sec)) == Some(3600 * h + 60 * m + sec)
  {
    ParseClockFields(Pad2(h), Pad2(m), Pad2(sec));
  }

  /** Round trip: a non-negative count printed by `FormatTime` reads back
      as the same count. */
  lemma FormatTimeRoundTrip(t: int)
    requires t >= 0
    ensures ParseClock(FormatTime(t)) == Some(t)
  {
    FormatTimeFields(t);
    ParsePadded(t / 3600, (t % 3600) / 60, t % 60);
  }

  /** Counts below zero are printed field by field with Swift's truncating
      division: minus 61 seconds is "00:-1:-1". */
  lemma FormatTimeNegative()
    ensures FormatTime(-61) == "00:-1:-1"
  {
    assert Quot(-61, 3600) == 0;
    assert Quot(Rem(-61, 3600), 60) == -1;
    assert Rem(-61, 60) == -1;
    assert NatToString(0) == "0";
    assert NatToString(1) == "1";
  }
}
