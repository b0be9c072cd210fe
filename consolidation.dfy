/** The transcript consolidation rules of `SpeechTranscriptionVM`
    (RealtimeVM.swift) as functions on the fields they touch. The class in
    realtime_vm.dfy is proved to follow them; the lemmas here are about runs
    of events.

    The one-shot debounce timer is the flag `armed`: `onPartialTranscript`
    invalidates the old timer and schedules a new one (armed), a final or a
    status change to idle invalidates it (disarmed), and `DebounceFired` is
    the moment it goes off, which disarms it and commits the partial. */
module Consolidation {
  import opened TextOps
  import opened SpeechService

  datatype Transcript = Transcript(
    isTranscribing: bool,
    partialText: string,
    finalLines: seq<string>,
    armed: bool)

  const Initial := Transcript(false, "", [], false)

  /** `norm`: surrounding whitespace trimmed. */
  function Norm(s: string): string { Trim(s) }

  function Last(lines: seq<string>): string
    requires lines != []
  {
    lines[|lines| - 1]
  }

  function ReplaceLast(lines: seq<string>, x: string): (r: seq<string>)
    requires lines != []
    ensures |r| == |lines| && Last(r) == x
    ensures forall k :: 0 <= k < |lines| - 1 ==> r[k] == lines[k]
  {
    lines[..|lines| - 1] + [x]
  }

  /** `commitCurrentPartial` (RealtimeVM.swift:52-62). */
  function Commit(t: Transcript): Transcript {
    var p := Norm(t.partialText);
    if p == [] then t
    else if t.finalLines != [] && Norm(Last(t.finalLines)) == p then
      t.(finalLines := ReplaceLast(t.finalLines, p), partialText := "")
    else t.(finalLines := t.finalLines + [p], partialText := "")
  }

  /** `onPartialTranscript` (RealtimeVM.swift:64-72). */
  function OnPartial(t: Transcript, text: string): Transcript {
    t.(partialText := text, armed := true)
  }

  /** The branch condition of `onFinalTranscript` that overwrites the last
      line (RealtimeVM.swift:81-82). */
  predicate ConfirmsLast(t: Transcript, text: string) {
    t.finalLines != []
    && (Norm(Last(t.finalLines)) == Norm(text)
        || (t.partialText != "" && Norm(t.partialText) == Norm(text)))
  }

  /** `onFinalTranscript` (RealtimeVM.swift:75-92). */
  function OnFinal(t: Transcript, text: string): Transcript {
    var t' := t.(armed := false);
    if Norm(text) == [] then t'
    else if ConfirmsLast(t, text) then
      t'.(finalLines := ReplaceLast(t.finalLines, text), partialText := "")
    else t'.(finalLines := t.finalLines + [text], partialText := "")
  }

  /** `onStatusChange(isTranscribing:)` (RealtimeVM.swift:95-101). */
  function OnStatus(t: Transcript, active: bool): Transcript {
    t.(isTranscribing := active, armed := if active then t.armed else false)
  }

  /** The debounce timer going off: it is spent, and it commits the partial. */
  function OnDebounceTimer(t: Transcript): Transcript {
    if t.armed then Commit(t.(armed := false)) else t
  }

  /** The Clear button and the start of a new session (HomeView.swift:60-61,
      100-103): both empty the lines and the partial; neither touches the timer. */
  function ClearLines(t: Transcript): Transcript {
    t.(finalLines := [], partialText := "")
  }

  /** One listener call. `onError` only prints. */
  function Deliver(t: Transcript, e: ListenerEvent): Transcript {
    match e
    case PartialTranscript(text) => OnPartial(t, text)
    case FinalTranscript(text) => OnFinal(t, text)
    case StatusChange(active) => OnStatus(t, active)
    case ErrorReported(_) => t
  }

  /** Listener calls delivered in order. */
  function DeliverAll(t: Transcript, es: seq<ListenerEvent>): Transcript {
    if es == [] then t else Deliver(DeliverAll(t, es[..|es| - 1]), es[|es| - 1])
  }

  /** Everything that changes the transcript: a listener call, the timer,
      or the user clearing it. */
  datatype Input = Heard(event: ListenerEvent) | DebounceFired | Cleared

  function Step(t: Transcript, i: Input): Transcript {
    match i
    case Heard(e) => Deliver(t, e)
    case DebounceFired => OnDebounceTimer(t)
    case Cleared => ClearLines(t)
  }

  function Run(t: Transcript, ins: seq<Input>): Transcript {
    if ins == [] then t else Step(Run(t, ins[..|ins| - 1]), ins[|ins| - 1])
  }

  // ---------------------------------------------------------------------
  // One step

  /** `after` is `before` unchanged, with its last line rewritten, or with
      one line appended. */
  predicate Extends(before: seq<string>, after: seq<string>) {
    || after == before
    || (before != [] && |after| == |before| && after[..|before| - 1] == before[..|before| - 1])
    || (|after| == |before| + 1 && after[..|before|] == before)
  }

  lemma CommitShape(t: Transcript)
    ensures Extends(t.finalLines, Commit(t).finalLines)
  {
    var p := Norm(t.partialText);
    if p != [] {
      if t.finalLines != [] && Norm(Last(t.finalLines)) == p {
        assert ReplaceLast(t.finalLines, p)[..|t.finalLines| - 1] == t.finalLines[..|t.finalLines| - 1];
      } else {
        assert (t.finalLines + [p])[..|t.finalLines|] == t.finalLines;
      }
    }
  }

  lemma FinalShape(t: Transcript, text: string)
    ensures Extends(t.finalLines, OnFinal(t, text).finalLines)
  {
    if Norm(text) != [] {
      if ConfirmsLast(t, text) {
        assert ReplaceLast(t.finalLines, text)[..|t.finalLines| - 1] == t.finalLines[..|t.finalLines| - 1];
      } else {
        assert (t.finalLines + [text])[..|t.finalLines|] == t.finalLines;
      }
    }
  }

  /** Every input other than Clear leaves the lines alone, rewrites only the
      last existing line, or appends exactly one line. */
  lemma StepShape(t: Transcript, i: Input)
    requires i != Cleared
    ensures Extends(t.finalLines, Step(t, i).finalLines)
  {
    match i
    case Heard(FinalTranscript(text)) => FinalShape(t, text);
    case DebounceFired => CommitShape(t.(armed := false));
    case _ =>
  }

  /** A final disarms the timer, so a timer that would have fired after it
      commits nothing. */
  lemma FinalCancelsPendingCommit(t: Transcript, text: string)
    ensures OnDebounceTimer(OnFinal(t, text)) == OnFinal(t, text)
  {
  }

  /** The timer is one-shot: a second firing does nothing. */
  lemma TimerFiresOnce(t: Transcript)
    ensures !OnDebounceTimer(t).armed
    ensures OnDebounceTimer(OnDebounceTimer(t)) == OnDebounceTimer(t)
  {
  }

  // ---------------------------------------------------------------------
  // Runs

  predicate AllNonBlank(lines: seq<string>) {
    forall k :: 0 <= k < |lines| ==> Norm(lines[k]) != []
  }

  /** No committed line is ever empty or whitespace only. */
  lemma {:induction false} LinesNeverBlank(t: Transcript, ins: seq<Input>)
    requires AllNonBlank(t.finalLines)
    ensures AllNonBlank(Run(t, ins).finalLines)
  {
    if ins != [] {
      var prev := Run(t, ins[..|ins| - 1]);
      LinesNeverBlank(t, ins[..|ins| - 1]);
      StepKeepsNonBlank(prev, ins[|ins| - 1]);
    }
  }

  lemma AddLineNonBlank(lines: seq<string>, x: string)
    requires AllNonBlank(lines) && Norm(x) != []
    ensures AllNonBlank(lines + [x])
    ensures lines != [] ==> AllNonBlank(ReplaceLast(lines, x))
  {
  }

  lemma StepKeepsNonBlank(t: Transcript, i: Input)
    requires AllNonBlank(t.finalLines)
    ensures AllNonBlank(Step(t, i).finalLines)
  {
    match i
    case Heard(FinalTranscript(text)) =>
      if Norm(text) != [] {
        AddLineNonBlank(t.finalLines, text);
      }
    case DebounceFired =>
      var p := Norm(t.partialText);
      if p != [] {
        TrimIdempotent(t.partialText);
        AddLineNonBlank(t.finalLines, p);
      }
    case _ =>
  }

  /** Without a Clear, a run never removes or rewrites a line other than the
      last one present when it began: the earlier lines stay a prefix. */
  lemma {:induction false} SettledLinesStay(t: Transcript, ins: seq<Input>)
    requires forall k :: 0 <= k < |ins| ==> ins[k] != Cleared
    ensures var ls := Run(t, ins).finalLines;
      |ls| >= |t.finalLines|
      && (t.finalLines != [] ==> ls[..|t.finalLines| - 1] == t.finalLines[..|t.finalLines| - 1])
  {
    if ins != [] {
      var init := ins[..|ins| - 1];
      SettledLinesStay(t, init);
      var prev := Run(t, init);
      StepShape(prev, ins[|ins| - 1]);
      var ls := Run(t, ins).finalLines;
      if t.finalLines != [] {
        var n := |t.finalLines| - 1;
        assert prev.finalLines[..n] == t.finalLines[..n];
        assert ls[..n] == prev.finalLines[..n];
      }
    }
  }

  function PartialsOf(texts: seq<string>): (r: seq<Input>)
    ensures |r| == |texts|
    ensures forall k :: 0 <= k < |texts| ==> r[k] == Heard(PartialTranscript(texts[k]))
  {
    if texts == [] then []
    else PartialsOf(texts[..|texts| - 1]) + [Heard(PartialTranscript(texts[|texts| - 1]))]
  }

  /** A burst of partials only replaces the pending text and re-arms the timer. */
  lemma {:induction false} PartialBurst(t: Transcript, texts: seq<string>)
    requires texts != []
    ensures Run(t, PartialsOf(texts)) == t.(partialText := texts[|texts| - 1], armed := true)
  {
    var ins := PartialsOf(texts);
    assert ins[..|ins| - 1] == PartialsOf(texts[..|texts| - 1]);
    if |texts| > 1 {
      PartialBurst(t, texts[..|texts| - 1]);
    }
  }

  /** Partials followed by quiet: the timer commits the trimmed last
      partial once, as a new line unless it repeats the last line, in which
      case that line is rewritten; the pending text is cleared. */
  lemma PartialsThenQuiet(t: Transcript, texts: seq<string>)
    requires texts != [] && Norm(texts[|texts| - 1]) != []
    ensures var p := Norm(texts[|texts| - 1]);
            var r := Run(t, PartialsOf(texts) + [DebounceFired]);
      && r.partialText == "" && !r.armed
      && r.finalLines == (if t.finalLines != [] && Norm(Last(t.finalLines)) == p
                          then ReplaceLast(t.finalLines, p) else t.finalLines + [p])
  {
    var ins := PartialsOf(texts) + [DebounceFired];
    assert ins[..|ins| - 1] == PartialsOf(texts);
    PartialBurst(t, texts);
  }

  // ---------------------------------------------------------------------
  // Scenarios

  lemma TrimWord(s: string)
    requires s != [] && !IsWhitespace(s[0]) && !IsWhitespace(s[|s| - 1])
    ensures Norm(s) == s
  {
    TrimOfTrimmed(s);
  }

  /** Two partials, then quiet: one line, the later partial. */
  lemma ScenarioDebounce()
    ensures Run(Initial, [Heard(PartialTranscript("hello")), Heard(PartialTranscript("hello there")),
                          DebounceFired]).finalLines == ["hello there"]
  {
    TrimWord("hello there");
    var ins := [Heard(PartialTranscript("hello")), Heard(PartialTranscript("hello there")), DebounceFired];
    assert ins[..2] == PartialsOf(["hello", "hello there"]);
    PartialBurst(Initial, ["hello", "hello there"]);
  }

  /** A final that arrives before the timer: one line, the final; the timer
      no longer commits the partial. */
  lemma ScenarioFinalBeforeTimer()
    ensures Run(Initial, [Heard(PartialTranscript("the patient has")),
                          Heard(FinalTranscript("the patient has a fever")),
                          DebounceFired]) == Transcript(false, "", ["the patient has a fever"], false)
  {
    var ins := [Heard(PartialTranscript("the patient has")),
                Heard(FinalTranscript("the patient has a fever")), DebounceFired];
    var t1 := Transcript(false, "the patient has", [], true);
    var t2 := Transcript(false, "", ["the patient has a fever"], false);
    assert ins[..2][..1] == [ins[0]];
    assert Run(Initial, ins[..2][..1]) == t1;
    TrimWord("the patient has a fever");
    assert Run(Initial, ins[..2]) == OnFinal(t1, "the patient has a fever") == t2;
  }

  /** The same final twice: one line. */
  lemma ScenarioRepeatedFinal()
    ensures Run(Initial, [Heard(FinalTranscript("ok")), Heard(FinalTranscript("ok"))]).finalLines == ["ok"]
  {
    TrimWord("ok");
    var ins := [Heard(FinalTranscript("ok")), Heard(FinalTranscript("ok"))];
    assert ins[..1] == [Heard(FinalTranscript("ok"))];
  }

  /** As written, a final that matches only the pending partial overwrites
      the last committed line even when that line says something else: "b"
      is lost and two adjacent lines read "a". */
  lemma ScenarioFinalOverwritesUnrelatedLine()
    ensures Run(Initial, [Heard(FinalTranscript("a")), Heard(FinalTranscript("b")),
                          Heard(PartialTranscript("a")), Heard(FinalTranscript("a"))]).finalLines == ["a", "a"]
  {
    TrimWord("a");
    TrimWord("b");
    var ins := [Heard(FinalTranscript("a")), Heard(FinalTranscript("b")),
                Heard(PartialTranscript("a")), Heard(FinalTranscript("a"))];
    var t1 := Transcript(false, "", ["a"], false);
    var t2 := Transcript(false, "", ["a", "b"], false);
    var t3 := Transcript(false, "a", ["a", "b"], true);
    assert ins[..3][..2][..1] == [ins[0]];
    assert ins[..3][..2] == ins[..2];
    assert Run(Initial, ins[..1]) == t1;
    assert Run(Initial, ins[..2]) == OnFinal(t1, "b") == t2;
    assert Run(Initial, ins[..3]) == t3;
    assert OnFinal(t3, "a").finalLines == ["a", "a"];
  }

  // ---------------------------------------------------------------------
  // A final rule that keeps neighbouring lines distinct

  /** Neighbouring lines differ after trimming. */
  predicate NeighboursDistinct(lines: seq<string>) {
    forall k :: 0 <= k < |lines| - 1 ==> Norm(lines[k]) != Norm(lines[k + 1])
  }

  /** `onFinalTranscript` overwriting the last line only when the final
      repeats that line; a final that confirms a partial not yet committed
      becomes a new line. */
  function OnFinalConfirmingLastOnly(t: Transcript, text: string): (r: Transcript)
    ensures !ConfirmsLast(t, text) || (t.finalLines != [] && Norm(Last(t.finalLines)) == Norm(text))
            ==> r == OnFinal(t, text)
  {
    var t' := t.(armed := false);
    if Norm(text) == [] then t'
    else if t.finalLines != [] && Norm(Last(t.finalLines)) == Norm(text) then
      t'.(finalLines := ReplaceLast(t.finalLines, text), partialText := "")
    else t'.(finalLines := t.finalLines + [text], partialText := "")
  }

  function StepConfirmingLastOnly(t: Transcript, i: Input): Transcript {
    match i
    case Heard(FinalTranscript(text)) => OnFinalConfirmingLastOnly(t, text)
    case _ => Step(t, i)
  }

  function RunConfirmingLastOnly(t: Transcript, ins: seq<Input>): Transcript {
    if ins == [] then t
    else StepConfirmingLastOnly(RunConfirmingLastOnly(t, ins[..|ins| - 1]), ins[|ins| - 1])
  }

  lemma AddLineKeepsDistinct(lines: seq<string>, x: string)
    requires NeighboursDistinct(lines)
    ensures lines == [] || Norm(Last(lines)) != Norm(x) ==> NeighboursDistinct(lines + [x])
    ensures lines != [] && Norm(Last(lines)) == Norm(x) ==> NeighboursDistinct(ReplaceLast(lines, x))
  {
  }

  lemma StepKeepsNeighboursDistinct(t: Transcript, i: Input)
    requires NeighboursDistinct(t.finalLines)
    ensures NeighboursDistinct(StepConfirmingLastOnly(t, i).finalLines)
  {
    match i
    case Heard(FinalTranscript(text)) =>
      AddLineKeepsDistinct(t.finalLines, text);
    case DebounceFired =>
      TrimIdempotent(t.partialText);
      AddLineKeepsDistinct(t.finalLines, Norm(t.partialText));
    case _ =>
  }

  /** With that rule, no run ever produces two neighbouring lines that are
      equal after trimming. */
  lemma {:induction false} ConfirmingLastOnlyKeepsNeighboursDistinct(t: Transcript, ins: seq<Input>)
    requires NeighboursDistinct(t.finalLines)
    ensures NeighboursDistinct(RunConfirmingLastOnly(t, ins).finalLines)
  {
    if ins != [] {
      ConfirmingLastOnlyKeepsNeighboursDistinct(t, ins[..|ins| - 1]);
      StepKeepsNeighboursDistinct(RunConfirmingLastOnly(t, ins[..|ins| - 1]), ins[|ins| - 1]);
    }
  }
}
