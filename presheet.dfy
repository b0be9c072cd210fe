/** `PresheetParser` (SoapAI/Core/Home/Utility/PresheetParser.swift): reads
    the text of a pre-visit sheet line by line, picking up four key/value
    fields and four bulleted sections. The parser fills its own record: a
    single vitals string and a list of studies. */
module Presheet {
  import opened Wrappers
  import opened TextOps

  /** The record `parse(from:)` returns. */
  datatype ParsedPresheet = ParsedPresheet(
    fullName: Option<string>,
    age: Option<int>,
    sex: Option<string>,
    setting: Option<string>,
    pastMedicalHistory: Option<seq<string>>,
    allergies: Option<seq<string>>,
    medications: Option<seq<string>>,
    vitals: Option<string>,
    studies: Option<seq<string>>,
    notes: Option<string>)

  datatype Section = NoSection | PastMedicalHistory | Allergies | Medications | VitalsAndStudies

  /** The parser's local variables between two lines. */
  datatype Scan = Scan(
    fullName: Option<string>,
    age: Option<int>,
    sex: Option<string>,
    setting: Option<string>,
    pmh: seq<string>,
    allergyList: seq<string>,
    medList: seq<string>,
    vitals: Option<string>,
    studyList: seq<string>,
    section: Section,
    vitalsCaptured: bool)

  const Fresh := Scan(None, None, None, None, [], [], [], None, [], NoSection, false)

  // ---------------------------------------------------------------------
  // value(after:in:)

  /** `value(after:in:)`: the text after the first `delimiter`, trimmed, or
      none when there is no delimiter or nothing but whitespace after it. */
  function ValueAfter(delimiter: char, line: string): (r: Option<string>)
    ensures r.Some? ==> r.value != [] && |r.value| < |line|
  {
    match IndexOf(line, delimiter)
    case None => None
    case Some(i) =>
      var trimmed := Trim(line[i + 1..]);
      if trimmed == [] then None else Some(trimmed)
  }

  /** Without the delimiter there is no value. */
  lemma ValueAfterAbsent(delimiter: char, line: string)
    requires forall k :: 0 <= k < |line| ==> line[k] != delimiter
    ensures ValueAfter(delimiter, line) == None
  {
  }

  /** Split at the first delimiter, the value is the rest trimmed, and none
      exactly when the rest is blank; a later delimiter is part of the
      value. */
  lemma ValueAfterSplit(delimiter: char, before: string, after: string)
    requires forall k :: 0 <= k < |before| ==> before[k] != delimiter
    ensures ValueAfter(delimiter, before + [delimiter] + after)
            == if IsBlank(after) then None else Some(Trim(after))
  {
    var line := before + [delimiter] + after;
    assert line[|before|] == delimiter;
    assert line[|before| + 1..] == after;
  }

  /** A value neither starts nor ends with whitespace. */
  lemma ValueAfterTrimmed(delimiter: char, line: string)
    ensures var r := ValueAfter(delimiter, line);
      r.Some? ==> !IsWhitespace(r.value[0]) && !IsWhitespace(r.value[|r.value| - 1])
  {
    match IndexOf(line, delimiter)
    case None =>
    case Some(i) => TrimSpec(line[i + 1..]);
  }

  // ---------------------------------------------------------------------
  // cleanBulletLine

  /** The bullet prefixes, in the order they are tried. */
  const Bullets: seq<string> := [
    "\U{2022}", "\U{25E6}", "\U{25AA}", "\U{2023}", "\U{25CF}", "\U{25CB}", "\U{29BF}", "\U{29BE}",
    "\U{2013}", "\U{2014}", "-", "*", "\U{00B7}", "\U{2022} ", "\U{25E6} ", "\U{25CF} ",
    "\U{2192}", "\U{21D2}", "\U{25BA}", "\U{25B8}", "\U{25B9}"]

  /** The first bullet, from position `from` of the list on, that starts `s`. */
  function FirstBullet(s: string, from: nat): (r: Option<nat>)
    requires from <= |Bullets|
    ensures r.Some? ==> from <= r.value < |Bullets| && HasPrefix(s, Bullets[r.value])
                        && forall j :: from <= j < r.value ==> !HasPrefix(s, Bullets[j])
    ensures r.None? ==> forall j :: from <= j < |Bullets| ==> !HasPrefix(s, Bullets[j])
    decreases |Bullets| - from
  {
    if from == |Bullets| then None
    else if HasPrefix(s, Bullets[from]) then Some(from)
    else FirstBullet(s, from + 1)
  }

  /** `s` without its first matching bullet, if any. */
  function StripBullet(s: string): string {
    match FirstBullet(s, 0)
    case None => s
    case Some(i) => s[|Bullets[i]|..]
  }

  /** `s` without a leading "N." or "N)" token, N an `Int`, and the space
      that ends it. */
  function DropNumberToken(s: string): string {
    match IndexOf(s, ' ')
    case None => s
    case Some(space) =>
      var token := s[..space];
      if token != [] && (token[|token| - 1] == '.' || token[|token| - 1] == ')')
         && ParseInt(token[..|token| - 1]).Some?
      then s[space + 1..]
      else s
  }

  /** What `cleanBulletLine` returns for `line`. */
  function CleanBullet(line: string): Option<string> {
    var result := Trim(DropNumberToken(StripBullet(Trim(line))));
    if result == [] then None else Some(result)
  }

  /** `cleanBulletLine(_:)`: trims, strips the first bullet in list order
      that prefixes the line, drops a numbering token, trims again. */
  method CleanBulletLine(line: string) returns (item: Option<string>)
    ensures item == CleanBullet(line)
  {
    var result := Trim(line);
    ghost var trimmed := result;
    for i := 0 to |Bullets|
      invariant result == trimmed
      invariant forall j :: 0 <= j < i ==> !HasPrefix(trimmed, Bullets[j])
    {
      if HasPrefix(result, Bullets[i]) {
        assert FirstBullet(trimmed, 0) == Some(i);
        result := result[|Bullets[i]|..];
        break;
      }
    }
    assert result == StripBullet(trimmed);
    var space := IndexOf(result, ' ');
    if space.Some? {
      var firstToken := result[..space.value];
      if firstToken != [] && (firstToken[|firstToken| - 1] == '.' || firstToken[|firstToken| - 1] == ')') {
        var numberPart := firstToken[..|firstToken| - 1];
        if ParseInt(numberPart).Some? {
          result := result[space.value + 1..];
        }
      }
    }
    result := Trim(result);
    item := if result == [] then None else Some(result);
  }

  /** An item is never blank and never starts or ends with whitespace; a
      line that is blank gives no item. */
  lemma CleanBulletShape(line: string)
    ensures var r := CleanBullet(line);
      r.Some? ==> r.value != [] && !IsWhitespace(r.value[0]) && !IsWhitespace(r.value[|r.value| - 1])
    ensures IsBlank(line) ==> CleanBullet(line).None?
  {
    var r := CleanBullet(line);
    if r.Some? {
      TrimSpec(DropNumberToken(StripBullet(Trim(line))));
    }
  }

  /** The bullets "• ", "◦ " and "● " are never the ones stripped: the bare
      bullet before them in the list matches first, leaving the space to
      the final trim. */
  lemma SpacedBulletsShadowed(s: string)
    ensures var r := FirstBullet(s, 0); r.Some? ==> r.value != 13 && r.value != 14 && r.value != 15
  {
    Shadowed(s, 13, 0);
    Shadowed(s, 14, 1);
    Shadowed(s, 15, 4);
  }

  /** A bullet that extends an earlier one only matches where the earlier
      one does. */
  lemma Shadowed(s: string, spaced: nat, bare: nat)
    requires bare < spaced < |Bullets| && Bullets[spaced] == Bullets[bare] + " "
    ensures HasPrefix(s, Bullets[spaced]) ==> HasPrefix(s, Bullets[bare])
  {
    if HasPrefix(s, Bullets[spaced]) {
      assert s[..|Bullets[bare]|] == s[..|Bullets[spaced]|][..|Bullets[bare]|];
    }
  }

  /** No bullet starts with an ASCII digit or a letter. */
  lemma BulletHeads(c: char)
    requires IsAsciiDigit(c) || 'a' <= c <= 'z' || 'A' <= c <= 'Z'
    ensures forall j :: 0 <= j < |Bullets| ==> Bullets[j] != [] && Bullets[j][0] != c
  {
  }

  /** A line that starts with a digit or a letter has no bullet. */
  lemma NoBullet(s: string)
    requires s != [] && (IsAsciiDigit(s[0]) || 'a' <= s[0] <= 'z' || 'A' <= s[0] <= 'Z')
    ensures FirstBullet(s, 0) == None
  {
    BulletHeads(s[0]);
    forall j | 0 <= j < |Bullets| ensures !HasPrefix(s, Bullets[j]) {
      assert Bullets[j][0] != s[0];
    }
  }

  /** A line that starts with '-' has the plain dash as its bullet: none of
      the bullets tried before it starts with '-'. */
  lemma DashBullet(s: string)
    requires s != [] && s[0] == '-'
    ensures FirstBullet(s, 0) == Some(10)
  {
    assert forall j :: 0 <= j < 10 ==> Bullets[j] != [] && Bullets[j][0] != '-';
    forall j | 0 <= j < 10 ensures !HasPrefix(s, Bullets[j]) {
      assert Bullets[j][0] != s[0];
    }
    assert HasPrefix(s, Bullets[10]);
  }

  /** At most one bullet is stripped: a doubled dash keeps its second one. */
  lemma OneBulletStripped()
    ensures CleanBullet("--x") == Some("-x")
  {
    var s := "--x";
    TrimOfTrimmed(s);
    DashBullet(s);
    assert StripBullet(s) == "-x";
    assert IndexOf("-x", ' ') == None;
    TrimOfTrimmed("-x");
  }

  /** A dash before a numbered item is stripped, but the number then
      follows a space, so the numbering stays. */
  lemma DashThenNumber()
    ensures CleanBullet("- 1. Aspirin") == Some("1. Aspirin")
  {
    var s := "- 1. Aspirin";
    TrimOfTrimmed(s);
    DashBullet(s);
    var rest := s[1..];
    assert StripBullet(s) == rest;
    assert IndexOf(rest, ' ') == Some(0);
    assert DropNumberToken(rest) == rest;
    var item := rest[1..];
    assert TrimStart(rest) == TrimStart(item);
    TrimOfTrimmed(item);
    assert item == "1. Aspirin";
  }

  /** A numbered item without a bullet loses its number. */
  lemma NumberDropped()
    ensures CleanBullet("2) Metformin") == Some("Metformin")
  {
    var s := "2) Metformin";
    TrimOfTrimmed(s);
    NoBullet(s);
    assert ParseInt("2") == Some(2) by {
      ParseNatToString(2);
      assert NatToString(2) == "2";
    }
    var item := s[3..];
    assert DropNumberToken(s) == item by {
      assert IndexOf(s, ' ') == Some(2);
      assert s[..2] == "2)" && "2)"[..1] == "2";
    }
    TrimOfTrimmed(item);
    assert item == "Metformin";
  }

  // ---------------------------------------------------------------------
  // parse(from:)

  /** The lines of the text, each trimmed: one more line than the text has
      newline characters, none holding a newline, and none starting or
      ending with whitespace. */
  function TrimmedLines(text: string): (r: seq<string>)
    ensures |r| == NewlineCount(text) + 1
    ensures forall k :: 0 <= k < |r| ==> Trim(r[k]) == r[k]
    ensures forall k, j :: 0 <= k < |r| && 0 <= j < |r[k]| ==> !IsNewline(r[k][j])
  {
    var parts := SplitLines(text);
    TrimEach(parts);
    seq(|parts|, k requires 0 <= k < |parts| => Trim(parts[k]))
  }

  /** Each trimmed line of newline-free lines is trimmed and newline-free. */
  lemma TrimEach(parts: seq<string>)
    requires forall k, j :: 0 <= k < |parts| && 0 <= j < |parts[k]| ==> !IsNewline(parts[k][j])
    ensures forall k :: 0 <= k < |parts| ==>
              Trim(Trim(parts[k])) == Trim(parts[k])
              && forall j :: 0 <= j < |Trim(parts[k])| ==> !IsNewline(Trim(parts[k])[j])
  {
    forall k | 0 <= k < |parts|
      ensures Trim(Trim(parts[k])) == Trim(parts[k])
      ensures forall j :: 0 <= j < |Trim(parts[k])| ==> !IsNewline(Trim(parts[k])[j])
    {
      TrimIdempotent(parts[k]);
      TrimKeepsNoNewline(parts[k]);
    }
  }

  /** What a trimmed line is, by the first test of the loop it passes:
      blank, one of the four keys (matched case-insensitively, before any
      header), one of the four section headers, or anything else. */
  datatype LineKind =
    | Blank | NameKey | AgeKey | SexKey | SettingKey
    | PmhHeader | AllergiesHeader | MedicationsHeader | VitalsHeader
    | Other

  function Classify(line: string): LineKind {
    if line == [] then Blank
    else
      var lower := Lowercased(line);
      if HasPrefix(lower, "name:") then NameKey
      else if HasPrefix(lower, "age:") then AgeKey
      else if HasPrefix(lower, "sex:") then SexKey
      else if HasPrefix(lower, "setting:") then SettingKey
      else if HasPrefix(lower, "past medical history") then PmhHeader
      else if HasPrefix(lower, "allergies") then AllergiesHeader
      else if HasPrefix(lower, "medications") then MedicationsHeader
      else if Contains(lower, "pertinent vitals") then VitalsHeader
      else Other
  }

  predicate IsKey(k: LineKind) {
    k == NameKey || k == AgeKey || k == SexKey || k == SettingKey
  }

  predicate IsHeader(k: LineKind) {
    k == PmhHeader || k == AllergiesHeader || k == MedicationsHeader || k == VitalsHeader
  }

  /** The age an age line gives: the numeric characters of its value, if
      they make an `Int`; otherwise the age read before. */
  function AgeFrom(line: string, previous: Option<int>): Option<int> {
    match ValueAfter(':', line)
    case None => previous
    case Some(ageString) =>
      match ParseInt(FilterNumbers(ageString))
      case None => previous
      case Some(parsed) => Some(parsed)
  }

  /** A cleaned item of the current section, added where it belongs. */
  function AddItem(sc: Scan, item: string): Scan {
    match sc.section
    case NoSection => sc
    case PastMedicalHistory => sc.(pmh := sc.pmh + [item])
    case Allergies => sc.(allergyList := sc.allergyList + [item])
    case Medications => sc.(medList := sc.medList + [item])
    case VitalsAndStudies =>
      if !sc.vitalsCaptured then sc.(vitals := Some(item), vitalsCaptured := true)
      else sc.(studyList := sc.studyList + [item])
  }

  /** One trimmed line of the loop, of kind `kind`. */
  function ScanKind(sc: Scan, kind: LineKind, line: string): Scan {
    match kind
    case Blank => sc.(section := NoSection)
    case NameKey => sc.(fullName := ValueAfter(':', line), section := NoSection)
    case AgeKey => sc.(age := AgeFrom(line, sc.age), section := NoSection)
    case SexKey => sc.(sex := ValueAfter(':', line), section := NoSection)
    case SettingKey => sc.(setting := ValueAfter(':', line), section := NoSection)
    case PmhHeader => sc.(section := PastMedicalHistory)
    case AllergiesHeader => sc.(section := Allergies)
    case MedicationsHeader => sc.(section := Medications)
    case VitalsHeader => sc.(section := VitalsAndStudies, vitalsCaptured := false)
    case Other =>
      if sc.section == NoSection then sc
      else match CleanBullet(line)
        case None => sc
        case Some(item) => AddItem(sc, item)
  }

  function ScanLine(sc: Scan, line: string): Scan {
    ScanKind(sc, Classify(line), line)
  }

  function ScanLines(sc: Scan, lines: seq<string>): Scan {
    if lines == [] then sc else ScanLine(ScanLines(sc, lines[..|lines| - 1]), lines[|lines| - 1])
  }

  function NonEmpty(items: seq<string>): Option<seq<string>> {
    if items == [] then None else Some(items)
  }

  /** The record built from the variables after the last line. */
  function Finish(sc: Scan, text: string): ParsedPresheet {
    ParsedPresheet(sc.fullName, sc.age, sc.sex, sc.setting, NonEmpty(sc.pmh), NonEmpty(sc.allergyList),
                   NonEmpty(sc.medList), sc.vitals, NonEmpty(sc.studyList), Some(text))
  }

  function ParseText(text: string): ParsedPresheet {
    Finish(ScanLines(Fresh, TrimmedLines(text)), text)
  }

  /** `parse(from:)`. The loop's local variables are kept together in one
      `Scan` record; `ReadLine` is one pass of the loop body. */
  method Parse(text: string) returns (patient: ParsedPresheet)
    ensures patient == ParseText(text)
  {
    var sc := Fresh;
    var lines := TrimmedLines(text);
    for i := 0 to |lines|
      invariant sc == ScanLines(Fresh, lines[..i])
    {
      assert lines[..i + 1][..i] == lines[..i];
      sc := ReadLine(sc, lines[i]);
    }
    assert lines[..|lines|] == lines;
    patient := Finish(sc, text);
  }

  /** One trimmed line of the loop: the tests in the loop's order, each
      ending the pass once it matches. */
  method ReadLine(sc: Scan, line: string) returns (next: Scan)
    ensures next == ScanLine(sc, line)
  {
    if line == [] {
      assert Classify(line) == Blank;
      return sc.(section := NoSection);
    }
    var lower := Lowercased(line);
    if HasPrefix(lower, "name:") {
      assert Classify(line) == NameKey;
      return sc.(fullName := ValueAfter(':', line), section := NoSection);
    }
    if HasPrefix(lower, "age:") {
      assert Classify(line) == AgeKey;
      var age := sc.age;
      var ageString := ValueAfter(':', line);
      if ageString.Some? {
        var digits := FilterNumbers(ageString.value);
        var parsedAge := ParseInt(digits);
        if parsedAge.Some? {
          age := parsedAge;
        }
      }
      return sc.(age := age, section := NoSection);
    }
    if HasPrefix(lower, "sex:") {
      assert Classify(line) == SexKey;
      return sc.(sex := ValueAfter(':', line), section := NoSection);
    }
    if HasPrefix(lower, "setting:") {
      assert Classify(line) == SettingKey;
      return sc.(setting := ValueAfter(':', line), section := NoSection);
    }
    if HasPrefix(lower, "past medical history") {
      assert Classify(line) == PmhHeader;
      return sc.(section := PastMedicalHistory);
    }
    if HasPrefix(lower, "allergies") {
      assert Classify(line) == AllergiesHeader;
      return sc.(section := Allergies);
    }
    if HasPrefix(lower, "medications") {
      assert Classify(line) == MedicationsHeader;
      return sc.(section := Medications);
    }
    if Contains(lower, "pertinent vitals") {
      assert Classify(line) == VitalsHeader;
      return sc.(section := VitalsAndStudies, vitalsCaptured := false);
    }
    assert Classify(line) == Other;
    if sc.section == NoSection {
      return sc;
    }
    var item := CleanBulletLine(line);
    ItemLine(sc, line, item);
    if item.None? {
      return sc;
    }
    match sc.section
    case PastMedicalHistory => next := sc.(pmh := sc.pmh + [item.value]);
    case Allergies => next := sc.(allergyList := sc.allergyList + [item.value]);
    case Medications => next := sc.(medList := sc.medList + [item.value]);
    case VitalsAndStudies =>
      if !sc.vitalsCaptured {
        next := sc.(vitals := item, vitalsCaptured := true);
      } else {
        next := sc.(studyList := sc.studyList + [item.value]);
      }
  }

  /** A line of a section that is neither a key nor a header adds its
      cleaned item, if it has one. */
  lemma ItemLine(sc: Scan, line: string, item: Option<string>)
    requires Classify(line) == Other && sc.section != NoSection && item == CleanBullet(line)
    ensures ScanLine(sc, line) == if item.Some? then AddItem(sc, item.value) else sc
  {
  }

  // ---------------------------------------------------------------------
  // Properties

  /** A blank line and every key line end the current section; a line that
      is neither a key, a header nor inside a section changes nothing. */
  lemma SectionEnds(sc: Scan, line: string)
    ensures Classify(line) == Blank || IsKey(Classify(line)) ==> ScanLine(sc, line).section == NoSection
    ensures Classify(line) == Other && sc.section == NoSection ==> ScanLine(sc, line) == sc
  {
  }

  /** Keys are matched case-insensitively: the kind of a line depends only
      on its lower-cased form. */
  lemma ClassifyIgnoresCase(a: string, b: string)
    requires Lowercased(a) == Lowercased(b)
    ensures Classify(a) == Classify(b)
  {
  }

  /** Keys are tried before headers: a name line is a name line whatever
      follows the colon. */
  lemma KeysBeforeHeaders(line: string)
    requires HasPrefix(Lowercased(line), "name:")
    ensures Classify(line) == NameKey
  {
  }

  /** A name line sets the name, replacing the name read before, even with
      none. */
  lemma NameLineWins(sc: Scan, line: string)
    requires Classify(line) == NameKey
    ensures ScanLine(sc, line) == sc.(fullName := ValueAfter(':', line), section := NoSection)
  {
  }

  /** The last name line decides the name. */
  lemma {:induction false} LastNameLineWins(sc: Scan, lines: seq<string>, line: string, rest: seq<string>)
    requires Classify(line) == NameKey
    requires forall k :: 0 <= k < |rest| ==> Classify(rest[k]) != NameKey
    ensures ScanLines(sc, lines + [line] + rest).fullName == ValueAfter(':', line)
    decreases |rest|
  {
    var all := lines + [line] + rest;
    if rest == [] {
      assert all[..|all| - 1] == lines;
    } else {
      var prefix := lines + [line] + rest[..|rest| - 1];
      assert all[..|all| - 1] == prefix;
      assert all[|all| - 1] == rest[|rest| - 1];
      LastNameLineWins(sc, lines, line, rest[..|rest| - 1]);
      KeepsName(ScanLines(sc, prefix), rest[|rest| - 1]);
    }
  }

  lemma KeepsName(sc: Scan, line: string)
    requires Classify(line) != NameKey
    ensures ScanLine(sc, line).fullName == sc.fullName
  {
  }

  /** The age changes only when the numeric characters of the value parse
      as an `Int`. */
  lemma AgeOnlyWhenParsed(sc: Scan, line: string)
    requires Classify(line) == AgeKey
    ensures var v := ValueAfter(':', line);
      ScanLine(sc, line).age
        == if v.Some? && ParseInt(FilterNumbers(v.value)).Some? then ParseInt(FilterNumbers(v.value)) else sc.age
    ensures ScanLine(sc, line).section == NoSection
  {
  }

  /** Non-ASCII numerals pass the numeric filter but not `Int`: an age
      written with a superscript keeps the earlier age. */
  lemma SuperscriptAgeIgnored(sc: Scan)
    ensures ScanLine(sc, "Age: 4\U{00B2}").age == sc.age
  {
    var line := "Age: 4\U{00B2}";
    AgeLine(line);
    assert IndexOf(line, ':') == Some(3);
    var after := line[4..];
    assert after == " 4\U{00B2}";
    assert TrimStart(after) == "4\U{00B2}";
    assert TrimEnd("4\U{00B2}") == "4\U{00B2}";
    assert FilterNumbers("4\U{00B2}") == "4\U{00B2}";
    assert !AllDigits("4\U{00B2}");
  }

  lemma AgeLine(line: string)
    requires |line| >= 4 && line[..4] == "Age:"
    ensures Classify(line) == AgeKey
  {
    var lower := Lowercased(line);
    assert lower[..4] == "age:";
    assert !HasPrefix(lower, "name:") by { assert lower[0] != 'n'; }
  }

  /** In the vitals section the first item is the vitals and every later
      one a study. */
  lemma VitalsThenStudies(sc: Scan, line: string, item: string)
    requires sc.section == VitalsAndStudies && Classify(line) == Other && CleanBullet(line) == Some(item)
    ensures !sc.vitalsCaptured ==>
              ScanLine(sc, line) == sc.(vitals := Some(item), vitalsCaptured := true)
    ensures sc.vitalsCaptured ==>
              ScanLine(sc, line) == sc.(studyList := sc.studyList + [item])
  {
  }

  /** The vitals header starts the capture over; what was read stays. */
  lemma VitalsHeaderRestarts(sc: Scan, line: string)
    requires Classify(line) == VitalsHeader
    ensures ScanLine(sc, line) == sc.(section := VitalsAndStudies, vitalsCaptured := false)
  {
  }

  /** What one line adds: to each list nothing or its own cleaned item on
      the end, and to the vitals nothing or that item. */
  predicate AddsAtMost(before: seq<string>, after: seq<string>, line: string) {
    after == before || Added(before, after, CleanBullet(line))
  }

  predicate Added(before: seq<string>, after: seq<string>, item: Option<string>) {
    item.Some? && after == before + [item.value]
  }

  lemma ScanLineAdds(sc: Scan, line: string)
    ensures var r := ScanLine(sc, line);
      AddsAtMost(sc.pmh, r.pmh, line) && AddsAtMost(sc.allergyList, r.allergyList, line)
      && AddsAtMost(sc.medList, r.medList, line) && AddsAtMost(sc.studyList, r.studyList, line)
      && (r.vitals == sc.vitals || r.vitals == CleanBullet(line))
  {
    var kind := Classify(line);
    if kind == Other && sc.section != NoSection && CleanBullet(line).Some? {
      AddItemAdds(sc, line);
    } else {
      assert ScanLine(sc, line).(fullName := sc.fullName, age := sc.age, sex := sc.sex, setting := sc.setting,
                                 section := sc.section, vitalsCaptured := sc.vitalsCaptured) == sc;
    }
  }

  lemma AddItemAdds(sc: Scan, line: string)
    requires CleanBullet(line).Some?
    ensures var r := AddItem(sc, CleanBullet(line).value);
      AddsAtMost(sc.pmh, r.pmh, line) && AddsAtMost(sc.allergyList, r.allergyList, line)
      && AddsAtMost(sc.medList, r.medList, line) && AddsAtMost(sc.studyList, r.studyList, line)
      && (r.vitals == sc.vitals || r.vitals == CleanBullet(line))
  {
    var item := CleanBullet(line);
    var r := AddItem(sc, item.value);
    match sc.section
    case NoSection =>
    case PastMedicalHistory => assert Added(sc.pmh, r.pmh, item);
    case Allergies => assert Added(sc.allergyList, r.allergyList, item);
    case Medications => assert Added(sc.medList, r.medList, item);
    case VitalsAndStudies =>
      if sc.vitalsCaptured {
        assert Added(sc.studyList, r.studyList, item);
      }
  }

  /** Items only ever go on the end of a list, so earlier items keep their
      place. */
  lemma {:induction false} ListsOnlyGrow(sc: Scan, lines: seq<string>)
    ensures var r := ScanLines(sc, lines);
      sc.pmh <= r.pmh && sc.allergyList <= r.allergyList && sc.medList <= r.medList
      && sc.studyList <= r.studyList
  {
    if lines != [] {
      ListsOnlyGrow(sc, lines[..|lines| - 1]);
      ScanLineAdds(ScanLines(sc, lines[..|lines| - 1]), lines[|lines| - 1]);
    }
  }

  /** Every item is the cleaned form of some line of the text. */
  predicate ItemsFrom(items: seq<string>, lines: seq<string>) {
    forall x :: x in items ==> exists k :: 0 <= k < |lines| && CleanBullet(lines[k]) == Some(x)
  }

  lemma {:induction false} ItemsComeFromLines(lines: seq<string>)
    ensures var r := ScanLines(Fresh, lines);
      ItemsFrom(r.pmh, lines) && ItemsFrom(r.allergyList, lines) && ItemsFrom(r.medList, lines)
      && ItemsFrom(r.studyList, lines)
      && (r.vitals.Some? ==> exists k :: 0 <= k < |lines| && CleanBullet(lines[k]) == r.vitals)
  {
    if lines != [] {
      var init := lines[..|lines| - 1];
      var line := lines[|lines| - 1];
      assert lines == init + [line];
      ItemsComeFromLines(init);
      var before := ScanLines(Fresh, init);
      var after := ScanLine(before, line);
      assert ScanLines(Fresh, lines) == after;
      ScanLineAdds(before, line);
      ItemsFromExtend(before.pmh, after.pmh, init, line);
      ItemsFromExtend(before.allergyList, after.allergyList, init, line);
      ItemsFromExtend(before.medList, after.medList, init, line);
      ItemsFromExtend(before.studyList, after.studyList, init, line);
      if after.vitals.Some? {
        if after.vitals == before.vitals {
          var k :| 0 <= k < |init| && CleanBullet(init[k]) == before.vitals;
          assert lines[k] == init[k];
        } else {
          assert CleanBullet(lines[|init|]) == after.vitals;
        }
      }
    }
  }

  /** A list built from some lines, grown by at most the item of the next
      line, is built from the lines with that one added. */
  lemma ItemsFromExtend(before: seq<string>, after: seq<string>, lines: seq<string>, line: string)
    requires ItemsFrom(before, lines) && AddsAtMost(before, after, line)
    ensures ItemsFrom(after, lines + [line])
  {
    var all := lines + [line];
    forall x | x in after ensures exists k :: 0 <= k < |all| && CleanBullet(all[k]) == Some(x) {
      if x in before {
        var k :| 0 <= k < |lines| && CleanBullet(lines[k]) == Some(x);
        assert all[k] == lines[k];
      } else {
        assert all[|lines|] == line;
      }
    }
  }

  /** The record keeps the whole text as its notes, and has no empty list:
      a section without items stays unset. */
  lemma ParseTextShape(text: string)
    ensures ParseText(text).notes == Some(text)
    ensures ParseText(text).pastMedicalHistory != Some([]) && ParseText(text).allergies != Some([])
    ensures ParseText(text).medications != Some([]) && ParseText(text).studies != Some([])
  {
  }
}
