/** `HomeViewModel` (SoapAI/Core/Home/Models/HomeViewModel.swift): the
    recording, transcription and report-generation state of the SoapAI
    home screen. Every answer of an asynchronous service call is a `Result`
    parameter; the recorder (`RecordingService`) is reduced to its two
    published fields, and the one-second timer to a running flag and a
    `Tick` method. */
module HomeModel {
  import opened Wrappers
  import opened Reports

  class HomeViewModel {
    var selectedTab: int
    var dividedMessages: seq<ChatMessage>
    var isTranscribing: bool
    var timeElapsed: int
    var isRecording: bool
    var hasAudioFile: bool
    /** Whether the one-second timer is scheduled. */
    var timerRunning: bool
    var presheetRawText: Option<string>
    var patientData: Option<PatientData>
    var visitSummary: Option<VisitSummary>
    var soReport: Option<SOReport>
    var apReport: Option<APReport>
    var emotionAnalysis: Option<EmotionAnalysisResult>
    var isGeneratingSO: bool
    var isGeneratingAP: bool
    var isCheckingHallucinations: bool
    var hallucinationResult: Option<HallucinationCheckResult>
    var hallucinationError: Option<string>
    /** The recorder's `isRecording`. */
    var recorderRecording: bool
    /** The recorder's `audioFileURL`. */
    var recordedFile: Option<string>

    /** The reports come in order: an Assessment/Plan report only after a
        Subjective/Objective one, a hallucination result only with both. */
    predicate ReportChain()
      reads this
    {
      (apReport.Some? ==> soReport.Some?)
      && (hallucinationResult.Some? ==> soReport.Some? && apReport.Some?)
    }

    /** No busy flag is left set between operations. */
    predicate Idle()
      reads this
    {
      !isTranscribing && !isGeneratingSO && !isGeneratingAP && !isCheckingHallucinations
    }

    /** The state between operations when no call is in flight. Every
        operation keeps it, and a reset restores it from any state. */
    predicate Valid()
      reads this
    {
      ReportChain() && Idle()
    }

    constructor ()
      ensures Valid()
      ensures selectedTab == 0 && dividedMessages == [] && timeElapsed == 0
      ensures !isRecording && !hasAudioFile && !timerRunning
      ensures presheetRawText == None && patientData == None && visitSummary == None
      ensures soReport == None && apReport == None && emotionAnalysis == None
      ensures hallucinationResult == None && hallucinationError == None
      ensures !recorderRecording && recordedFile == None
    {
      selectedTab, dividedMessages, isTranscribing, timeElapsed := 0, [], false, 0;
      isRecording, hasAudioFile, timerRunning := false, false, false;
      presheetRawText, patientData, visitSummary := None, None, None;
      soReport, apReport, emotionAnalysis := None, None, None;
      isGeneratingSO, isGeneratingAP, isCheckingHallucinations := false, false, false;
      hallucinationResult, hallucinationError := None, None;
      recorderRecording, recordedFile := false, None;
    }

    /** `resetSessionForNewRecording()`: clears the conversation, the
        reports, the hallucination state, the busy flags, the clock and the
        tab. The frame keeps everything else: the presheet, the patient
        data, the visit summary, the emotion analysis and the recorder. */
    method ResetSessionForNewRecording()
      requires ReportChain()
      modifies this`timerRunning, this`timeElapsed, this`dividedMessages, this`soReport, this`apReport
      modifies this`isCheckingHallucinations, this`hallucinationResult, this`hallucinationError
      modifies this`isTranscribing, this`isGeneratingSO, this`isGeneratingAP, this`selectedTab
      ensures Valid()
      ensures !timerRunning && timeElapsed == 0
      ensures dividedMessages == [] && soReport == None && apReport == None
      ensures !isCheckingHallucinations && hallucinationResult == None && hallucinationError == None
      ensures !isTranscribing && !isGeneratingSO && !isGeneratingAP
      ensures selectedTab == 0
    {
      // the timer
      StopTimer();
      timeElapsed := 0;
      // the conversation and reports
      ClearConversation();
      // the hallucination state
      ClearHallucinationState();
      // the busy flags
      ClearBusyFlags();
      // the tab
      selectedTab := 0;
    }

    /** `stopTimer()`. */
    method StopTimer()
      modifies this`timerRunning
      ensures !timerRunning
    {
      timerRunning := false;
    }

    method ClearConversation()
      modifies this`dividedMessages, this`soReport, this`apReport
      ensures dividedMessages == [] && soReport == None && apReport == None
    {
      dividedMessages, soReport, apReport := [], None, None;
    }

    method ClearHallucinationState()
      modifies this`isCheckingHallucinations, this`hallucinationResult, this`hallucinationError
      ensures !isCheckingHallucinations && hallucinationResult == None && hallucinationError == None
    {
      isCheckingHallucinations, hallucinationResult, hallucinationError := false, None, None;
    }

    method ClearBusyFlags()
      modifies this`isTranscribing, this`isGeneratingSO, this`isGeneratingAP
      ensures !isTranscribing && !isGeneratingSO && !isGeneratingAP
    {
      isTranscribing, isGeneratingSO, isGeneratingAP := false, false, false;
    }

    /** `toggleRecording()`. `started` is the file the recorder opens when
        asked to start, or `None` when its audio session or recorder fails.
        The screen shows the opposite of the recorder's prior state;
        starting forgets the audio file, stopping reports whether the
        recorder holds one. */
    method ToggleRecording(started: Option<string>)
      requires ReportChain()
      modifies this
      ensures ReportChain()
      ensures !old(recorderRecording) ==> Valid()
      ensures isRecording == !old(recorderRecording)
      ensures old(recorderRecording) ==>
                !timerRunning && !recorderRecording && hasAudioFile == old(recordedFile).Some?
                && recordedFile == old(recordedFile) && timeElapsed == old(timeElapsed)
                && dividedMessages == old(dividedMessages) && soReport == old(soReport)
                && apReport == old(apReport) && selectedTab == old(selectedTab)
                && isTranscribing == old(isTranscribing) && isGeneratingSO == old(isGeneratingSO)
                && isGeneratingAP == old(isGeneratingAP)
                && isCheckingHallucinations == old(isCheckingHallucinations)
                && hallucinationResult == old(hallucinationResult)
                && hallucinationError == old(hallucinationError)
      ensures !old(recorderRecording) ==>
                !hasAudioFile && timerRunning && timeElapsed == 0 && selectedTab == 0
                && dividedMessages == [] && soReport == None && apReport == None
                && hallucinationResult == None && hallucinationError == None
                && recorderRecording == started.Some?
                && recordedFile == (if started.Some? then started else old(recordedFile))
      ensures presheetRawText == old(presheetRawText) && patientData == old(patientData)
      ensures visitSummary == old(visitSummary) && emotionAnalysis == old(emotionAnalysis)
    {
      if recorderRecording {
        StopRecording();
        isRecording, hasAudioFile := false, recordedFile.Some?;
      } else {
        StartNewRecording(started);
        isRecording, hasAudioFile := true, false;
      }
    }

    /** `startNewRecording()`: a reset, the clock zeroed and the timer
        scheduled, then the recorder asked to start. */
    method StartNewRecording(started: Option<string>)
      requires ReportChain() && !recorderRecording
      modifies this
      ensures Valid()
      ensures timerRunning && timeElapsed == 0 && selectedTab == 0
      ensures dividedMessages == [] && soReport == None && apReport == None
      ensures hallucinationResult == None && hallucinationError == None
      ensures recorderRecording == started.Some?
      ensures recordedFile == (if started.Some? then started else old(recordedFile))
      ensures presheetRawText == old(presheetRawText) && patientData == old(patientData)
      ensures visitSummary == old(visitSummary) && emotionAnalysis == old(emotionAnalysis)
    {
      ResetSessionForNewRecording();
      StartTimer();
      if started.Some? {
        StartRecorder(started.value);
      }
    }

    /** The clock zeroed and the one-second timer scheduled. */
    method StartTimer()
      modifies this`timeElapsed, this`timerRunning
      ensures timeElapsed == 0 && timerRunning
    {
      timeElapsed, timerRunning := 0, true;
    }

    /** The recorder's `startRecording()` when it succeeds. */
    method StartRecorder(file: string)
      modifies this`recorderRecording, this`recordedFile
      ensures recorderRecording && recordedFile == Some(file)
    {
      recorderRecording, recordedFile := true, Some(file);
    }

    /** `stopRecording()`: the timer, then the recorder. */
    method StopRecording()
      modifies this`timerRunning, this`recorderRecording
      ensures !timerRunning && !recorderRecording
    {
      timerRunning, recorderRecording := false, false;
    }

    /** The guard of `handleTranscribeTapped()`. */
    predicate CanTranscribe()
      reads this
    {
      !isTranscribing && !recorderRecording && recordedFile.Some?
    }

    /** `handleTranscribeTapped()`: `divided` is the outcome of transcribing
        the file and dividing the text into messages. */
    method HandleTranscribeTapped(divided: Result<seq<ChatMessage>, string>)
      requires ReportChain()
      modifies this`isTranscribing, this`dividedMessages, this`selectedTab
      ensures ReportChain()
      ensures old(Valid()) ==> Valid()
      ensures old(isTranscribing) ==> unchanged(this)
      ensures !old(CanTranscribe()) ==> unchanged(this)
      ensures old(CanTranscribe()) ==> !isTranscribing
      ensures old(CanTranscribe()) && divided.Success? ==>
                dividedMessages == divided.value && selectedTab == 1
      ensures old(CanTranscribe()) && divided.Failure? ==>
                dividedMessages == old(dividedMessages) && selectedTab == old(selectedTab)
    {
      if isTranscribing || recorderRecording || recordedFile.None? {
        return;
      }
      isTranscribing := true;
      if divided.Success? {
        dividedMessages := divided.value;
        selectedTab := 1;
      }
      isTranscribing := false;
    }

    /** `generateVisitSummary()`. */
    method GenerateVisitSummary(summary: Result<VisitSummary, string>)
      requires ReportChain()
      modifies this`visitSummary
      ensures ReportChain()
      ensures old(Valid()) ==> Valid()
      ensures old(dividedMessages) == [] || old(visitSummary).Some? ==> unchanged(this)
      ensures old(dividedMessages) != [] && old(visitSummary).None? ==>
                visitSummary == (if summary.Success? then Some(summary.value) else None)
    {
      if dividedMessages == [] {
        return;
      }
      if visitSummary.Some? {
        return;
      }
      if summary.Success? {
        visitSummary := Some(summary.value);
      }
    }

    /** The guard of `generateSOReport()`. */
    predicate CanGenerateSO()
      reads this
    {
      dividedMessages != [] && soReport.None?
    }

    /** `generateSOReport()`. */
    method GenerateSOReport(report: Result<SOReport, string>)
      requires ReportChain()
      modifies this`isGeneratingSO, this`soReport, this`selectedTab
      ensures ReportChain()
      ensures old(Valid()) ==> Valid()
      ensures !old(CanGenerateSO()) ==> unchanged(this)
      ensures old(CanGenerateSO()) ==> !isGeneratingSO
      ensures old(CanGenerateSO()) && report.Success? ==>
                soReport == Some(report.value) && selectedTab == 2
      ensures old(CanGenerateSO()) && report.Failure? ==>
                soReport == None && selectedTab == old(selectedTab)
    {
      if dividedMessages == [] || soReport.Some? {
        return;
      }
      isGeneratingSO := true;
      if report.Success? {
        soReport := Some(report.value);
        selectedTab := 2;
      }
      isGeneratingSO := false;
    }

    /** The guard of `generateAPReport()`. */
    predicate CanGenerateAP()
      reads this
    {
      dividedMessages != [] && soReport.Some? && apReport.None?
    }

    /** `generateAPReport()`. */
    method GenerateAPReport(report: Result<APReport, string>)
      requires ReportChain()
      modifies this`isGeneratingAP, this`apReport
      ensures ReportChain()
      ensures old(Valid()) ==> Valid()
      ensures !old(CanGenerateAP()) ==> unchanged(this)
      ensures old(CanGenerateAP()) ==> !isGeneratingAP
      ensures old(CanGenerateAP()) ==> apReport == (if report.Success? then Some(report.value) else None)
    {
      if dividedMessages == [] || soReport.None? || apReport.Some? {
        return;
      }
      isGeneratingAP := true;
      if report.Success? {
        apReport := Some(report.value);
      }
      isGeneratingAP := false;
    }

    /** The guard of `checkHallucinations()`. */
    predicate CanCheckHallucinations()
      reads this
    {
      soReport.Some? && apReport.Some? && hallucinationResult.None?
    }

    /** `checkHallucinations()`. `sent` is the note handed to the service,
        if the guard lets the call through; the error of an earlier check
        is cleared before the call. */
    method CheckHallucinations(check: Result<HallucinationCheckResult, string>) returns (sent: Option<string>)
      requires ReportChain()
      modifies this`isCheckingHallucinations, this`hallucinationResult, this`hallucinationError
      ensures ReportChain()
      ensures old(Valid()) ==> Valid()
      ensures !old(CanCheckHallucinations()) ==> unchanged(this) && sent.None?
      ensures old(CanCheckHallucinations()) ==> !isCheckingHallucinations
      ensures old(CanCheckHallucinations()) ==> sent == Some(SOAPNote(soReport, apReport))
      ensures old(CanCheckHallucinations()) && check.Success? ==>
                hallucinationResult == Some(check.value) && hallucinationError == None
      ensures old(CanCheckHallucinations()) && check.Failure? ==>
                hallucinationResult == None && hallucinationError == Some(check.error)
    {
      if soReport.None? || apReport.None? || hallucinationResult.Some? {
        return None;
      }
      isCheckingHallucinations := true;
      hallucinationError := None;
      var soap := CombinedSOAP(soReport, apReport);
      sent := Some(soap);
      if check.Success? {
        hallucinationResult := Some(check.value);
      } else {
        hallucinationError := Some(check.error);
      }
      isCheckingHallucinations := false;
    }

    /** `runEmotionAnalysis()`. */
    method RunEmotionAnalysis(analysis: Result<EmotionAnalysisResult, string>)
      requires ReportChain()
      modifies this`emotionAnalysis
      ensures ReportChain()
      ensures old(Valid()) ==> Valid()
      ensures old(dividedMessages) == [] || analysis.Failure? ==> unchanged(this)
      ensures old(dividedMessages) != [] && analysis.Success? ==> emotionAnalysis == Some(analysis.value)
    {
      if dividedMessages == [] {
        return;
      }
      if analysis.Success? {
        emotionAnalysis := Some(analysis.value);
      }
    }

    /** The recording timer firing: one more second while it runs. */
    method Tick()
      modifies this`timeElapsed
      ensures timeElapsed == if timerRunning then old(timeElapsed) + 1 else old(timeElapsed)
    {
      if timerRunning {
        timeElapsed := timeElapsed + 1;
      }
    }
  }
}
