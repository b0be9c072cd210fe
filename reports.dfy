/** The values the home screens hold (CRService.swift, EmotionModel.swift,
    PatientDataModel.swift) and the two computations both home screens
    share: the combined SOAP note and the tab gate. Identifiers (`UUID`)
    are dropped. */
module Reports {
  import opened Wrappers
  import opened TextOps

  datatype ChatMessage = ChatMessage(role: string, content: string)

  /** The Subjective/Objective report as the reasoning service returns it. */
  datatype SOReport = SOReport(subjective: string, objective: string)

  /** The Assessment/Plan report as the reasoning service returns it. */
  datatype APReport = APReport(assessment: string, plan: string)

  datatype VisitSummary = VisitSummary(oneLine: string)

  /** A flagged span of the SOAP note, in character offsets. */
  datatype HallucinationIssue = HallucinationIssue(
    start: int,
    end: int,
    explanation: string,
    supportingTranscriptQuote: Option<string>)

  datatype HallucinationCheckResult = HallucinationCheckResult(issues: seq<HallucinationIssue>)

  datatype EmotionMoment = EmotionMoment(phase: string, emotion: string, description: string)

  datatype EmotionAnalysisResult = EmotionAnalysisResult(
    summaryBullets: seq<string>,
    moments: seq<EmotionMoment>)

  /** `PatientDataModel`. */
  datatype PatientData = PatientData(
    fullName: Option<string>,
    age: Option<int>,
    sex: Option<string>,
    setting: Option<string>,
    pastMedicalHistory: Option<seq<string>>,
    allergies: Option<seq<string>>,
    medications: Option<seq<string>>,
    vitals: Option<seq<string>>,
    testResults: Option<seq<string>>,
    notes: Option<string>)

  // ---------------------------------------------------------------------
  // The combined SOAP note

  /** The parts `combinedSOAP()` collects: two for a Subjective/Objective
      report, two for an Assessment/Plan report. */
  function SOAPParts(so: Option<SOReport>, ap: Option<APReport>): seq<string> {
    (if so.Some? then ["Subjective:\n" + so.value.subjective + "\n",
                       "Objective:\n" + so.value.objective + "\n"] else [])
    + (if ap.Some? then ["Assessment:\n" + ap.value.assessment + "\n",
                         "Plan:\n" + ap.value.plan] else [])
  }

  /** The note the parts make, joined by newlines. */
  function SOAPNote(so: Option<SOReport>, ap: Option<APReport>): string {
    Join(SOAPParts(so, ap), "\n")
  }

  /** The note written out for each combination of reports: empty with no
      report, and otherwise the headed sections in S, O, A, P order, each
      but the last ending in a newline and followed by the separating one,
      so that a blank line stands between sections. */
  lemma SOAPNoteSections(so: Option<SOReport>, ap: Option<APReport>)
    ensures so.None? && ap.None? ==> SOAPNote(so, ap) == ""
    ensures so.Some? && ap.None? ==>
      SOAPNote(so, ap) == ("Subjective:\n" + so.value.subjective + "\n") + "\n"
                          + ("Objective:\n" + so.value.objective + "\n")
    ensures so.None? && ap.Some? ==>
      SOAPNote(so, ap) == ("Assessment:\n" + ap.value.assessment + "\n") + "\n"
                          + ("Plan:\n" + ap.value.plan)
    ensures so.Some? && ap.Some? ==>
      SOAPNote(so, ap) == ("Subjective:\n" + so.value.subjective + "\n") + "\n"
                          + ("Objective:\n" + so.value.objective + "\n") + "\n"
                          + ("Assessment:\n" + ap.value.assessment + "\n") + "\n"
                          + ("Plan:\n" + ap.value.plan)
  {
    var parts := SOAPParts(so, ap);
    if so.Some? {
      var s := "Subjective:\n" + so.value.subjective + "\n";
      var o := "Objective:\n" + so.value.objective + "\n";
      JoinPair(s, o, "\n");
      if ap.Some? {
        var a := "Assessment:\n" + ap.value.assessment + "\n";
        var p := "Plan:\n" + ap.value.plan;
        JoinPair(a, p, "\n");
        assert parts == [s, o] + [a, p];
        JoinAppend([s, o], [a, p], "\n");
        assert (s + "\n" + o) + "\n" + (a + "\n" + p) == s + "\n" + o + "\n" + a + "\n" + p;
      } else {
        assert parts == [s, o];
      }
    } else if ap.Some? {
      var a := "Assessment:\n" + ap.value.assessment + "\n";
      var p := "Plan:\n" + ap.value.plan;
      assert parts == [a, p];
      JoinPair(a, p, "\n");
    }
  }

  lemma JoinPair(a: string, b: string, sep: string)
    ensures Join([a, b], sep) == a + sep + b
  {
    assert [a, b][1..] == [b];
  }

  /** `combinedSOAP()` (HomeViewModel.swift and the SoapAI HomeView.swift):
      collects the parts in a local list, then joins them. */
  method CombinedSOAP(so: Option<SOReport>, ap: Option<APReport>) returns (note: string)
    ensures note == SOAPNote(so, ap)
  {
    var parts: seq<string> := [];
    if so.Some? {
      parts := parts + ["Subjective:\n" + so.value.subjective + "\n"];
      parts := parts + ["Objective:\n" + so.value.objective + "\n"];
    }
    if ap.Some? {
      parts := parts + ["Assessment:\n" + ap.value.assessment + "\n"];
      parts := parts + ["Plan:\n" + ap.value.plan];
    }
    assert parts == SOAPParts(so, ap);
    note := Join(parts, "\n");
  }

  // ---------------------------------------------------------------------
  // The tab gate

  /** The `safeSelection` setter's refusal: the transcript tab (1) without
      messages, the report tab (2) without a Subjective/Objective report. */
  predicate SelectionRejected(index: int, messages: seq<ChatMessage>, so: Option<SOReport>) {
    (index == 1 && messages == []) || (index == 2 && so.None?)
  }

  /** The `navButton` disable condition, as the view writes it. */
  predicate NavButtonDisabled(index: int, messages: seq<ChatMessage>, so: Option<SOReport>) {
    (index == 1 && |messages| == 0) || (index == 2 && !so.Some?)
  }

  /** A nav button is disabled exactly for the indices the setter refuses. */
  lemma NavButtonMatchesSelection(index: int, messages: seq<ChatMessage>, so: Option<SOReport>)
    ensures NavButtonDisabled(index, messages, so) <==> SelectionRejected(index, messages, so)
  {
  }

  /** The selected tab shows a pane that exists: the transcript pane only
      with messages, the report pane only with a report. */
  predicate ShowsExistingPane(tab: int, messages: seq<ChatMessage>, so: Option<SOReport>) {
    (tab == 1 ==> messages != []) && (tab == 2 ==> so.Some?)
  }

  /** The tab after the `safeSelection` setter has been asked for `index`. */
  function Selected(current: int, index: int, messages: seq<ChatMessage>, so: Option<SOReport>): (r: int)
    ensures r == index || r == current
    ensures r == index <==> index == current || !SelectionRejected(index, messages, so)
  {
    if SelectionRejected(index, messages, so) then current else index
  }

  /** Through the setter, a tab that shows an existing pane is never left
      for one that does not. */
  lemma SelectedShowsExistingPane(current: int, index: int, messages: seq<ChatMessage>, so: Option<SOReport>)
    requires ShowsExistingPane(current, messages, so)
    ensures ShowsExistingPane(Selected(current, index, messages, so), messages, so)
  {
  }
}
