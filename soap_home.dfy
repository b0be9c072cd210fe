/** The SoapAI home screen (SoapAI/Core/Home/HomeView.swift): its own copy
    of the session state, the reset before a new recording, the highlight
    guard of the hallucination review, the two PDF exports and the tab
    gate. The PDF generators are reduced to their outcome, a `Result`
    parameter; the time display uses `Clock.FormatTime`. */
module SoapHome {
  import opened Wrappers
  import opened Reports

  /** The guard of `highlightedSOAP`: an issue is drawn only when its span
      lies inside the note and is not empty. */
  predicate InRange(issue: HallucinationIssue, count: int) {
    issue.start >= 0 && issue.end <= count && issue.start < issue.end
  }

  /** Whether the issue highlights the character at offset `k`. */
  predicate Marks(issue: HallucinationIssue, count: int, k: int) {
    InRange(issue, count) && issue.start <= k < issue.end
  }

  /** The characters the issues highlight: every character covered by an
      issue that passes the guard, and no other. */
  predicate Highlighted(issues: seq<HallucinationIssue>, count: int, k: int) {
    exists j :: 0 <= j < |issues| && Marks(issues[j], count, k)
  }

  /** `highlightedSOAP(_:issues:)`: the highlight of each character of the
      note, built issue by issue. Issues outside the note or with an empty
      or reversed span are skipped. */
  method HighlightedSOAP(soap: string, issues: seq<HallucinationIssue>) returns (mask: seq<bool>)
    ensures |mask| == |soap|
    ensures forall k :: 0 <= k < |soap| ==> (mask[k] <==> Highlighted(issues, |soap|, k))
  {
    mask := seq(|soap|, k => false);
    for i := 0 to |issues|
      invariant |mask| == |soap|
      invariant forall k :: 0 <= k < |soap| ==> (mask[k] <==> Highlighted(issues[..i], |soap|, k))
    {
      var issue := issues[i];
      if !(issue.start >= 0 && issue.end <= |soap| && issue.start < issue.end) {
        assert forall k :: !Marks(issue, |soap|, k);
        HighlightedSnoc(issues[..i], issue, |soap|);
        assert issues[..i + 1] == issues[..i] + [issue];
        continue;
      }
      mask := seq(|soap|, k requires 0 <= k < |soap| => mask[k] || (issue.start <= k < issue.end));
      HighlightedSnoc(issues[..i], issue, |soap|);
      assert issues[..i + 1] == issues[..i] + [issue];
    }
    assert issues[..|issues|] == issues;
  }

  /** One more issue highlights what it marks on top of what the others do. */
  lemma HighlightedSnoc(issues: seq<HallucinationIssue>, issue: HallucinationIssue, count: int)
    ensures forall k :: Highlighted(issues + [issue], count, k) <==> Highlighted(issues, count, k) || Marks(issue, count, k)
  {
    forall k
      ensures Highlighted(issues + [issue], count, k) <==> Highlighted(issues, count, k) || Marks(issue, count, k)
    {
      if Highlighted(issues + [issue], count, k) {
        var j :| 0 <= j < |issues| + 1 && Marks((issues + [issue])[j], count, k);
        if j < |issues| {
          assert (issues + [issue])[j] == issues[j];
        }
      }
      if Highlighted(issues, count, k) {
        var j :| 0 <= j < |issues| && Marks(issues[j], count, k);
        assert (issues + [issue])[j] == issues[j];
      }
      if Marks(issue, count, k) {
        assert (issues + [issue])[|issues|] == issue;
      }
    }
  }

  class HomeView {
    var dividedMessages: seq<ChatMessage>
    var selectedTab: int
    var isTranscribing: bool
    var timeElapsed: int
    /** Whether the one-second timer is scheduled. */
    var timerRunning: bool
    var soReport: Option<SOReport>
    var apReport: Option<APReport>
    var isGeneratingSO: bool
    var isGeneratingAP: bool
    var isCheckingHallucinations: bool
    var hallucinationResult: Option<HallucinationCheckResult>
    var hallucinationError: Option<string>
    var pdfURL: Option<string>
    var isExportingPDF: bool
    var transcriptPDFURL: Option<string>
    var isExportingTranscriptPDF: bool

    constructor ()
      ensures dividedMessages == [] && selectedTab == 0 && !isTranscribing && timeElapsed == 0
      ensures !timerRunning && soReport == None && apReport == None
      ensures !isGeneratingSO && !isGeneratingAP && !isCheckingHallucinations
      ensures hallucinationResult == None && hallucinationError == None
      ensures pdfURL == None && !isExportingPDF && transcriptPDFURL == None && !isExportingTranscriptPDF
    {
      dividedMessages, selectedTab, isTranscribing, timeElapsed := [], 0, false, 0;
      timerRunning, soReport, apReport := false, None, None;
      isGeneratingSO, isGeneratingAP, isCheckingHallucinations := false, false, false;
      hallucinationResult, hallucinationError := None, None;
      pdfURL, isExportingPDF, transcriptPDFURL, isExportingTranscriptPDF := None, false, None, false;
    }

    /** `combinedSOAP()`, this view's own copy. */
    method CombinedNote() returns (note: string)
      ensures note == SOAPNote(soReport, apReport)
    {
      note := CombinedSOAP(soReport, apReport);
    }

    /** `resetSessionForNewRecording()`: as in the view model, and the SOAP
        PDF export is forgotten too; the transcript PDF export is kept. */
    method ResetSessionForNewRecording()
      modifies this`timerRunning, this`timeElapsed, this`dividedMessages, this`soReport, this`apReport
      modifies this`isCheckingHallucinations, this`hallucinationResult, this`hallucinationError
      modifies this`isTranscribing, this`isGeneratingSO, this`isGeneratingAP
      modifies this`pdfURL, this`isExportingPDF, this`selectedTab
      ensures !timerRunning && timeElapsed == 0
      ensures dividedMessages == [] && soReport == None && apReport == None
      ensures !isCheckingHallucinations && hallucinationResult == None && hallucinationError == None
      ensures !isTranscribing && !isGeneratingSO && !isGeneratingAP
      ensures pdfURL == None && !isExportingPDF
      ensures selectedTab == 0
      ensures transcriptPDFURL == old(transcriptPDFURL) && isExportingTranscriptPDF == old(isExportingTranscriptPDF)
    {
      // the timer
      StopClock();
      // the conversation and reports
      ClearConversation();
      // the hallucination state
      ClearHallucinationState();
      // the busy flags
      ClearBusyFlags();
      // the SOAP PDF export
      ForgetPDF();
      // the tab
      selectedTab := 0;
    }

    /** The timer invalidated and the clock zeroed. */
    method StopClock()
      modifies this`timerRunning, this`timeElapsed
      ensures !timerRunning && timeElapsed == 0
    {
      timerRunning, timeElapsed := false, 0;
    }

    method ForgetPDF()
      modifies this`pdfURL, this`isExportingPDF
      ensures pdfURL == None && !isExportingPDF
    {
      pdfURL, isExportingPDF := None, false;
    }

    method ClearConversation()
      modifies this`dividedMessages, this`soReport, this`apReport
      ensures dividedMessages == [] && soReport == None && apReport == None
    {
      dividedMessages, soReport, apReport := [], None, None;
    }

    method ClearHallucinationState()
      modifies this`isCheckingHallucinations, this`hallucinationResult, this`hallucinationError
      ensures !isCheckingHallucinations && hallucinationResult == None && hallucinationError == None
    {
      isCheckingHallucinations, hallucinationResult, hallucinationError := false, None, None;
    }

    method ClearBusyFlags()
      modifies this`isTranscribing, this`isGeneratingSO, this`isGeneratingAP
      ensures !isTranscribing && !isGeneratingSO && !isGeneratingAP
    {
      isTranscribing, isGeneratingSO, isGeneratingAP := false, false, false;
    }

    /** `exportPDF()`. `rendered` is the outcome of `generatePDF`; `request`
        is the note and the issues handed to it, if the guard lets the call
        through: the combined note and the issues of the check, or none
        before a check. */
    method ExportPDF(rendered: Result<string, string>)
      returns (request: Option<(string, seq<HallucinationIssue>)>)
      modifies this`pdfURL, this`isExportingPDF
      ensures old(soReport).None? || old(apReport).None? ==> request.None? && unchanged(this)
      ensures old(soReport).Some? && old(apReport).Some? ==>
                request == Some((SOAPNote(soReport, apReport),
                                 if hallucinationResult.Some? then hallucinationResult.value.issues else []))
      ensures old(soReport).Some? && old(apReport).Some? && rendered.Success? ==>
                pdfURL == Some(rendered.value) && isExportingPDF
      ensures rendered.Failure? ==> unchanged(this)
    {
      if soReport.None? || apReport.None? {
        return None;
      }
      var soap := CombinedNote();
      var issues := if hallucinationResult.Some? then hallucinationResult.value.issues else [];
      request := Some((soap, issues));
      if rendered.Success? {
        pdfURL, isExportingPDF := Some(rendered.value), true;
      }
    }

    /** `exportTranscriptPDF()`. `rendered` is the outcome of
        `generateTranscriptPDF`; `request` is the conversation handed to it,
        if the guard lets the call through. */
    method ExportTranscriptPDF(rendered: Result<string, string>) returns (request: Option<seq<ChatMessage>>)
      modifies this`transcriptPDFURL, this`isExportingTranscriptPDF
      ensures old(dividedMessages) == [] ==> request.None? && unchanged(this)
      ensures old(dividedMessages) != [] ==> request == Some(dividedMessages)
      ensures old(dividedMessages) != [] && rendered.Success? ==>
                transcriptPDFURL == Some(rendered.value) && isExportingTranscriptPDF
      ensures rendered.Failure? ==> unchanged(this)
    {
      if dividedMessages == [] {
        return None;
      }
      request := Some(dividedMessages);
      if rendered.Success? {
        transcriptPDFURL, isExportingTranscriptPDF := Some(rendered.value), true;
      }
    }

    /** The `safeSelection` setter. */
    method SetSelection(index: int)
      modifies this`selectedTab
      ensures selectedTab == Selected(old(selectedTab), index, dividedMessages, soReport)
    {
      if (index == 1 && dividedMessages == []) || (index == 2 && soReport == None) {
        return;
      }
      selectedTab := index;
    }

    /** Whether the nav button for `index` is disabled. */
    predicate NavDisabled(index: int)
      reads this
    {
      NavButtonDisabled(index, dividedMessages, soReport)
    }

    /** A tap on an enabled nav button selects its tab; with the pane gate
        the selection then still shows an existing pane. */
    method TapNavButton(index: int)
      requires !NavDisabled(index)
      modifies this`selectedTab
      ensures selectedTab == index
      ensures old(ShowsExistingPane(selectedTab, dividedMessages, soReport)) ==>
                ShowsExistingPane(selectedTab, dividedMessages, soReport)
    {
      selectedTab := index;
    }
  }
}
