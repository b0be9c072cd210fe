# SoapAI core, modelled in Dafny

SoapAI is an iOS app that records a clinical visit and turns it into a
SOAP note. This project models the logic at its centre. Each part follows
the Swift file it comes from.

- **Live transcript consolidation**: `SpeechTranscriptionVM` in
  RealtimeVM.swift. Partial and final recognition results become an ordered
  list of committed lines. The 0.8 s debounce timer is an `armed` flag, and
  the moment it fires is an explicit input (`FireDebounce`, `DebounceFired`).
  - `Consolidation` in consolidation.dfy has the rules as functions and the
    lemmas about runs of events.
  - `RealtimeVM` in realtime_vm.dfy has the class, each method proved to make
    the move `Consolidation` describes.
- **Speech session lifecycle**: `SpeechTranscriptionService` in
  RealtimeTranscription.swift (`SpeechService`, speech_service.dfy).
  - The permission chain and the callback-to-listener mapping are pure
    functions.
  - `start`, `stop`, `cancel` and `updateLocale` are methods of a class.
    Its platform handles are booleans and options, and it keeps a log of the
    platform calls it makes and of the listener calls it emits.
- **Presheet parser**: `PresheetParser` in
  SoapAI/Core/Home/Utility/PresheetParser.swift (`Presheet`, presheet.dfy).
  - `value(after:in:)` is a function.
  - `cleanBulletLine` and `parse` are methods with loops, each proved
    against a specification function.
  - The section state machine is a fold over the trimmed lines.
- **Home view model**: `HomeViewModel` in
  SoapAI/Core/Home/Models/HomeViewModel.swift (`HomeModel`, home_model.dfy).
  - The asynchronous service calls are `Result` parameters.
  - Every operation accepts any state in which reports come in order,
    including one with a busy flag still set by a call in flight, and keeps
    that order. Every operation also keeps the idle state `Valid()`, in
    which no busy flag is set. A reset restores `Valid()` from any state.
- **The two home screens**:
  - SoapAI/Core/Home/HomeView.swift (`SoapHome`, soap_home.dfy): the reset
    before a recording, the issue-highlight guard, the PDF export guards and
    the tab gate.
  - the root HomeView.swift (`LiveHome`, live_home.dfy): Start/Stop and
    Clear on the live transcript, and the tab gate.
  - The code shared by the view model and both views is in `Reports`
    (reports.dfy): the combined SOAP note and the tab gate. `formatTime` is
    in `Clock` (clock.dfy).
- **The vector PDF report**: `drawSOAPReport` in
  SoapAI/Services/PDFExportService.swift (`PdfSections`, pdf_sections.dfy).
  - It models the body builders for Subjective, Objective, Plan, emotional
    tone and hallucination review, and the section order.
  - It also models the rule that skips a blank section, and the page-break
    rule. The page-break rule works on a cursor whose text heights are given
    functions.

`TextOps` (text.dfy) writes out the Foundation string operations the code
relies on. `Wrappers` (wrappers.dfy) holds `Option` and `Result`.

## Model

| member | source | states |
|---|---|---|
| Consolidation.ReplaceLast | RealtimeVM.swift:55-57 | Overwriting the last slot keeps the count and every earlier line, and puts the new text last |
| RealtimeVM.SpeechTranscriptionVM.CommitCurrentPartial | RealtimeVM.swift:52-62 | A blank trimmed partial changes nothing. A trimmed partial equal to the trimmed last line overwrites that line with the trimmed text. Otherwise the trimmed partial is appended. In both of those cases the partial is cleared. The flag and the timer are untouched |
| RealtimeVM.SpeechTranscriptionVM.OnPartialTranscript | RealtimeVM.swift:64-72 | The partial becomes the text verbatim, a single timer is armed and the lines are unchanged |
| RealtimeVM.SpeechTranscriptionVM.OnFinalTranscript | RealtimeVM.swift:75-92 | The timer is disarmed. A blank final changes nothing else. A final that repeats the last line, or a non-empty pending partial, while a last line exists overwrites that line with the untrimmed text. Any other final is appended verbatim. In both of those cases the partial is cleared |
| RealtimeVM.SpeechTranscriptionVM.OnStatusChange | RealtimeVM.swift:95-101 | The flag takes the new value. Going idle disarms the timer. Lines and partial are untouched |
| RealtimeVM.SpeechTranscriptionVM.OnError | RealtimeVM.swift:104 | An error changes nothing |
| RealtimeVM.SpeechTranscriptionVM.FireDebounce | RealtimeVM.swift:67-71 | A spent or invalidated timer does nothing. A live one commits the partial and is spent |
| RealtimeVM.SpeechTranscriptionVM.RequestPermissions | RealtimeVM.swift:25-34 | `onDone(true)` exactly when speech is authorized, the microphone is granted, and on-device recognition is supported or not required |
| RealtimeVM.SpeechTranscriptionVM.Start | RealtimeVM.swift:36-42 | The service makes the `start` move, a thrown error is swallowed, and the transcript takes the listener calls in order |
| RealtimeVM.SpeechTranscriptionVM.Stop | RealtimeVM.swift:44 | The service makes the `stop` move, and the transcript takes the listener calls in order |
| RealtimeVM.SpeechTranscriptionVM.Cancel | RealtimeVM.swift:45 | The service makes the `cancel` move, and the transcript takes the listener calls in order |
| RealtimeVM.SpeechTranscriptionVM.OnRecognition | RealtimeTranscription.swift:98-119 | The service logs exactly the callback's listener calls, and the transcript takes them in order |
| Consolidation.StepShape | RealtimeVM.swift:52-101 | Every input except Clear leaves the lines alone, rewrites only the last existing line, or appends exactly one line |
| Consolidation.FinalCancelsPendingCommit | RealtimeVM.swift:76 | After a final, a timer that would have fired commits nothing |
| Consolidation.TimerFiresOnce | RealtimeVM.swift:67-71 | The timer is one-shot: a second firing changes nothing |
| Consolidation.LinesNeverBlank | RealtimeVM.swift:53-54 | No run ever commits a line that trims to empty |
| Consolidation.SettledLinesStay | RealtimeVM.swift:52-92 | Without a Clear, the lines before the last one present at the start stay a prefix, and the count never shrinks |
| Consolidation.PartialBurst | RealtimeVM.swift:64-72 | A burst of partials only replaces the pending text with the last one and re-arms the timer |
| Consolidation.PartialsThenQuiet | RealtimeVM.swift:52-72 | Partials and then a timer firing commit the trimmed last partial once: it overwrites a last line it repeats, otherwise it is appended. The partial is cleared |
| Consolidation.ScenarioDebounce | RealtimeVM.swift:64-72 | "hello", "hello there", then quiet, gives the one line "hello there" |
| Consolidation.ScenarioFinalBeforeTimer | RealtimeVM.swift:75-92 | A final before the timer gives one line, the final, and the timer then commits nothing |
| Consolidation.ScenarioRepeatedFinal | RealtimeVM.swift:81-85 | The same final twice gives one line |
| Consolidation.ScenarioFinalOverwritesUnrelatedLine | RealtimeVM.swift:82-83 | As written, finals "a" and "b", then partial "a", then final "a" give ["a", "a"]: "b" is lost |
| Consolidation.OnFinalConfirmingLastOnly | RealtimeVM.swift:80-91 | The corrected final rule agrees with the original whenever the original does not use the partial-only match |
| Consolidation.StepKeepsNeighboursDistinct | RealtimeVM.swift:52-101 | With the corrected final rule, every input keeps neighbouring lines distinct after trimming |
| Consolidation.ConfirmingLastOnlyKeepsNeighboursDistinct | RealtimeVM.swift:80-91 | With the corrected final rule, no run ever produces two neighbouring lines that are equal after trimming |
| LiveHome.ClearDisabledExactlyWhenNoop | HomeView.swift:100-104 | The Clear button is disabled exactly when clearing would change nothing |
| LiveHome.HomeView.Clear | HomeView.swift:100-103 | Clear empties the committed lines and the partial, and nothing else |
| LiveHome.HomeView.TapStartStop | HomeView.swift:55-65 | While transcribing, the button only stops. Otherwise the lines and partial are cleared whatever the permission answer, and start runs only when permission is granted. A granted start from an idle service whose steps all succeed leaves the screen transcribing with an empty transcript |
| LiveHome.HomeView.SetSelection | HomeView.swift:27-36 | Tab 1 is refused without messages and tab 2 without a Subjective/Objective report. Any other value is assigned, and no other field changes |
| LiveHome.HomeView.TapNavButton | HomeView.swift:265-275 | An enabled nav button selects its tab, and a screen showing an existing pane still does |
| SpeechService.RequestPermissions | RealtimeTranscription.swift:54-74 | `permissionDenied` without speech authorization, and the microphone is then never asked. `permissionDenied` without the microphone. `onDeviceNotSupported(locale)` when on-device is required and unsupported. Success otherwise. Each case is stated in both directions |
| SpeechService.CallbackEvents | RealtimeTranscription.swift:98-119 | An error gives exactly `onError` then `onStatusChange(false)`. No result gives nothing. A result gives a partial exactly for non-empty text, then a final exactly when `isFinal`, even for empty text |
| SpeechService.StartWhileTranscribing | RealtimeTranscription.swift:79 | `start` while transcribing changes nothing and succeeds |
| SpeechService.StartUnavailable | RealtimeTranscription.swift:80 | An unavailable recognizer throws `recognizerUnavailable` with no field changed |
| SpeechService.StartSucceeds | RealtimeTranscription.swift:78-136 | A successful start cancels the prior task and replaces it with a new one. It removes the tap just before installing the one tap of 2048 frames. It sets the flag and emits `onStatusChange(true)` exactly once |
| SpeechService.StartEngineFailureLeaks | RealtimeTranscription.swift:88-131 | An engine that fails to start leaves the request, the task, the tap and the audio session in place, with the flag clear and nothing reported |
| SpeechService.StopReleases | RealtimeTranscription.swift:138-156 | `stop` when idle changes nothing. When running, it releases the tap, engine, task, request and audio session, clears the flag and emits `onStatusChange(false)`. Stopping twice is stopping once |
| SpeechService.CancelProperties | RealtimeTranscription.swift:158-163 | `cancel` always clears the task. When idle it only cancels the task, otherwise it also stops. Cancelling twice is cancelling once |
| SpeechService.ErrorKeepsSession | RealtimeTranscription.swift:101-105 | An error callback emits `onError` and `onStatusChange(false)`, and leaves the flag, tap, task, request and audio session as they were |
| SpeechService.ErrorThenStartIgnored | RealtimeTranscription.swift:101-105 | As written, after an error the listener has heard the session end, yet `start` returns success without doing anything |
| SpeechService.OnRecognitionStopping | RealtimeTranscription.swift:101-105 | Corrected callback: on an error, it also stops the session |
| SpeechService.StoppingErrorAllowsRestart | RealtimeTranscription.swift:101-105 | With the corrected callback, an error leaves the service idle and holding nothing, with the same two listener calls. A later start whose steps all succeed starts a new session |
| SpeechService.SpeechTranscriptionService.constructor | RealtimeTranscription.swift:31-35 | A new service holds nothing, is idle, and has the given recognizer |
| SpeechService.SpeechTranscriptionService.Start | RealtimeTranscription.swift:78-136 | The new state and the thrown error are those of `StartSession` |
| SpeechService.SpeechTranscriptionService.DropPriorTask | RealtimeTranscription.swift:83-86 | The prior task is cancelled and forgotten, along with the request |
| SpeechService.SpeechTranscriptionService.OpenStream | RealtimeTranscription.swift:88-130 | The session is activated, and a request that reports partials and its task are opened. The tap is removed and then installed, and the engine is prepared |
| SpeechService.SpeechTranscriptionService.Stop | RealtimeTranscription.swift:138-156 | The new state is that of `StopSession` |
| SpeechService.SpeechTranscriptionService.StopAudio | RealtimeTranscription.swift:140-144 | Audio is ended if there is a request, then the tap is removed and the engine stopped |
| SpeechService.SpeechTranscriptionService.FinishRecognition | RealtimeTranscription.swift:146-155 | The task is finished and forgotten with the request, the audio session is deactivated, the flag is cleared and `onStatusChange(false)` is emitted |
| SpeechService.SpeechTranscriptionService.Cancel | RealtimeTranscription.swift:158-163 | The new state is that of `CancelSession` |
| SpeechService.SpeechTranscriptionService.OnRecognition | RealtimeTranscription.swift:98-119 | Only the listener calls of `CallbackEvents` are added |
| SpeechService.SpeechTranscriptionService.UpdateLocale | RealtimeTranscription.swift:166-171 | The recognizer is replaced only when the platform could build one |
| Presheet.ValueAfter | SoapAI/Core/Home/Utility/PresheetParser.swift:170-176 | A value is never empty and is shorter than the line |
| Presheet.ValueAfterAbsent | SoapAI/Core/Home/Utility/PresheetParser.swift:171 | Without the delimiter there is no value |
| Presheet.ValueAfterSplit | SoapAI/Core/Home/Utility/PresheetParser.swift:170-176 | The value is the text after the first delimiter, trimmed. It is none exactly when that text is blank, and a later delimiter belongs to the value |
| Presheet.ValueAfterTrimmed | SoapAI/Core/Home/Utility/PresheetParser.swift:174-175 | A value neither starts nor ends with whitespace |
| Presheet.FirstBullet | SoapAI/Core/Home/Utility/PresheetParser.swift:189-194 | The bullet found is the first in list order that prefixes the text; none found means no bullet prefixes it |
| Presheet.CleanBulletLine | SoapAI/Core/Home/Utility/PresheetParser.swift:179-210 | The item is the line trimmed, without the first matching bullet and a leading "N." or "N)" token (N an Int), trimmed again, and none when empty |
| Presheet.CleanBulletShape | SoapAI/Core/Home/Utility/PresheetParser.swift:208-209 | An item is never empty and has no whitespace at either end, and a blank line gives no item |
| Presheet.SpacedBulletsShadowed | SoapAI/Core/Home/Utility/PresheetParser.swift:183-193 | "• ", "◦ " and "● " are never the bullet stripped, because the bare bullet before each matches first |
| Presheet.Shadowed | SoapAI/Core/Home/Utility/PresheetParser.swift:189-193 | A bullet that extends an earlier one matches only where the earlier one does |
| Presheet.NoBullet | SoapAI/Core/Home/Utility/PresheetParser.swift:189-194 | A line starting with a digit or a letter has no bullet |
| Presheet.DashBullet | SoapAI/Core/Home/Utility/PresheetParser.swift:189-194 | A line starting with '-' has the plain dash as its bullet |
| Presheet.OneBulletStripped | SoapAI/Core/Home/Utility/PresheetParser.swift:189-193 | At most one bullet is stripped: "--x" gives "-x" |
| Presheet.DashThenNumber | SoapAI/Core/Home/Utility/PresheetParser.swift:189-206 | "- 1. Aspirin" gives "1. Aspirin": after the dash the line starts with a space, so the number token is not dropped |
| Presheet.NumberDropped | SoapAI/Core/Home/Utility/PresheetParser.swift:196-206 | "2) Metformin" gives "Metformin" |
| Presheet.TrimmedLines | SoapAI/Core/Home/Utility/PresheetParser.swift:40-42 | The text gives one more line than it has newline characters. No line holds a newline, and each line is already trimmed |
| Presheet.Parse | SoapAI/Core/Home/Utility/PresheetParser.swift:12-167 | The record is the fold of the line rule over the trimmed lines, finished as `ParseText` says |
| Presheet.ReadLine | SoapAI/Core/Home/Utility/PresheetParser.swift:44-139 | One pass of the loop body makes the move `ScanLine` describes |
| Presheet.ItemLine | SoapAI/Core/Home/Utility/PresheetParser.swift:110-139 | Inside a section, a line that is neither key nor header adds its cleaned item, if it has one |
| Presheet.SectionEnds | SoapAI/Core/Home/Utility/PresheetParser.swift:46-83 | A blank line and every key line end the section. A plain line outside a section changes nothing |
| Presheet.ClassifyIgnoresCase | SoapAI/Core/Home/Utility/PresheetParser.swift:52 | A line's kind depends only on its lower-cased form |
| Presheet.KeysBeforeHeaders | SoapAI/Core/Home/Utility/PresheetParser.swift:56-106 | A line starting with "name:" in any case is a name line, whatever follows |
| Presheet.NameLineWins | SoapAI/Core/Home/Utility/PresheetParser.swift:56-60 | A name line replaces the name, even with none, and ends the section |
| Presheet.LastNameLineWins | SoapAI/Core/Home/Utility/PresheetParser.swift:56-60 | The last name line of the text decides the name |
| Presheet.AgeOnlyWhenParsed | SoapAI/Core/Home/Utility/PresheetParser.swift:62-71 | An age line sets the age only when the numeric characters of its value parse as an Int, otherwise the earlier age stays. It ends the section |
| Presheet.SuperscriptAgeIgnored | SoapAI/Core/Home/Utility/PresheetParser.swift:62-68 | "Age: 4²" keeps the earlier age: "²" passes the numeric filter but not `Int` |
| Presheet.VitalsThenStudies | SoapAI/Core/Home/Utility/PresheetParser.swift:126-134 | In the vitals section the first item becomes the vitals and each later item a study |
| Presheet.VitalsHeaderRestarts | SoapAI/Core/Home/Utility/PresheetParser.swift:102-106 | The vitals header restarts the capture and keeps everything read so far |
| Presheet.ScanLineAdds | SoapAI/Core/Home/Utility/PresheetParser.swift:110-139 | One line adds to each list nothing or its own cleaned item at the end, and sets the vitals to nothing new or that item |
| Presheet.ListsOnlyGrow | SoapAI/Core/Home/Utility/PresheetParser.swift:110-134 | Items only go on the end, so the earlier items of every list keep their order |
| Presheet.ItemsComeFromLines | SoapAI/Core/Home/Utility/PresheetParser.swift:110-134 | Every listed item, and the vitals, is the cleaned form of some line of the text |
| Presheet.ParseTextShape | SoapAI/Core/Home/Utility/PresheetParser.swift:142-164 | The notes are the whole input, and a list without items stays unset rather than empty |
| Clock.Quot | SoapAI/Core/Home/Models/HomeViewModel.swift:204 | Swift's `/` truncates toward zero: what the quotient leaves over lies in [0, b) for a non-negative dividend, and in (-b, 0] for a negative one |
| Clock.Rem | SoapAI/Core/Home/Models/HomeViewModel.swift:205-206 | Swift's `%` rebuilds the dividend with the truncated quotient and has its sign |
| Clock.FormatTimeFields | SoapAI/Core/Home/Models/HomeViewModel.swift:203-208 | For t ≥ 0: h = t/3600, m < 60, s < 60 and 3600h + 60m + s = t. The fields are joined by ":" and padded to at least two digits |
| Clock.FormatTimeRoundTrip | SoapAI/Core/Home/HomeView.swift:810-815 | For t ≥ 0, the clock face read back gives t |
| Clock.FormatTimeNegative | HomeView.swift:277-282 | A negative count is formatted field by field with truncating division: -61 gives "00:-1:-1" |
| Reports.SOAPNoteSections | SoapAI/Core/Home/Models/HomeViewModel.swift:190-201 | No report gives "". Otherwise the headed sections come in S, O, A, P order, and a blank line separates sections |
| Reports.CombinedSOAP | SoapAI/Core/Home/HomeView.swift:36-48 | The parts collected and joined make the note `SOAPNote` describes |
| Reports.Selected | SoapAI/Core/Home/HomeView.swift:392-401 | The setter keeps the tab or takes the new value. It takes it exactly when the value is the current tab or is not refused |
| Reports.NavButtonMatchesSelection | SoapAI/Core/Home/HomeView.swift:798-808 | A nav button is disabled exactly for the indices the setter refuses |
| Reports.SelectedShowsExistingPane | HomeView.swift:27-36 | Through the setter, a tab showing an existing pane is never left for one that does not |
| HomeModel.HomeViewModel.constructor | SoapAI/Core/Home/Models/HomeViewModel.swift:20-52 | Every published field starts empty, zero or false |
| HomeModel.HomeViewModel.ResetSessionForNewRecording | SoapAI/Core/Home/Models/HomeViewModel.swift:164-186 | From any state, including one with calls in flight: clears the messages, both reports, the hallucination state, every busy flag, the clock and the tab, so the model is idle again. The frame keeps the presheet, patient data, visit summary, emotion analysis and recorder |
| HomeModel.HomeViewModel.StopTimer | SoapAI/Core/Home/Models/HomeViewModel.swift:244-247 | The timer is no longer scheduled |
| HomeModel.HomeViewModel.ToggleRecording | SoapAI/Core/Home/Models/HomeViewModel.swift:56-66 | `isRecording` becomes the negation of the recorder's prior state. Stopping reports whether a file exists and leaves the session, busy flags included, as it was. Starting resets the session to idle from any state, starts the clock and forgets the file flag. The presheet, patient, summary and emotion are kept |
| HomeModel.HomeViewModel.StartNewRecording | SoapAI/Core/Home/Models/HomeViewModel.swift:226-237 | A reset, the clock at zero with the timer scheduled, then the recorder started with the file it opens |
| HomeModel.HomeViewModel.StopRecording | SoapAI/Core/Home/Models/HomeViewModel.swift:239-242 | The timer and then the recorder are stopped |
| HomeModel.HomeViewModel.HandleTranscribeTapped | SoapAI/Core/Home/Models/HomeViewModel.swift:68-85 | A tap while a transcription is in flight, while recording or without a file changes nothing. Otherwise the divided messages arrive with tab 1 on success, and the busy flag is cleared either way |
| HomeModel.HomeViewModel.GenerateVisitSummary | SoapAI/Core/Home/Models/HomeViewModel.swift:87-100 | A no-op without messages or with a summary already present. Otherwise the summary is set on success |
| HomeModel.HomeViewModel.GenerateSOReport | SoapAI/Core/Home/Models/HomeViewModel.swift:104-116 | A no-op unless there are messages and no Subjective/Objective report. Success sets it and tab 2, and the busy flag is cleared either way |
| HomeModel.HomeViewModel.GenerateAPReport | SoapAI/Core/Home/Models/HomeViewModel.swift:118-129 | A no-op unless there are messages, a Subjective/Objective report and no Assessment/Plan report. Success sets it, and the busy flag is cleared either way |
| HomeModel.HomeViewModel.CheckHallucinations | SoapAI/Core/Home/Models/HomeViewModel.swift:131-147 | A no-op unless both reports exist and no result does. Otherwise the combined note is sent and the earlier error cleared. Success stores the result, failure stores the error, and the busy flag is cleared either way |
| HomeModel.HomeViewModel.RunEmotionAnalysis | SoapAI/Core/Home/Models/HomeViewModel.swift:149-162 | A no-op without messages. Success stores the analysis |
| HomeModel.HomeViewModel.Tick | SoapAI/Core/Home/Models/HomeViewModel.swift:231-234 | A running timer adds one second |
| SoapHome.HighlightedSOAP | SoapAI/Core/Home/HomeView.swift:51-67 | A character is highlighted exactly when some issue with 0 ≤ start < end ≤ count covers it. Other issues are skipped |
| SoapHome.HighlightedSnoc | SoapAI/Core/Home/HomeView.swift:55-64 | One more issue highlights what it marks on top of what the others do |
| SoapHome.HomeView.CombinedNote | SoapAI/Core/Home/HomeView.swift:36-48 | The view's own `combinedSOAP` gives the shared note |
| SoapHome.HomeView.ResetSessionForNewRecording | SoapAI/Core/Home/HomeView.swift:70-97 | Clears the view-model fields and the SOAP PDF export, and keeps the transcript PDF export |
| SoapHome.HomeView.ExportPDF | SoapAI/Core/Home/HomeView.swift:248-260 | A no-op unless both reports exist. Otherwise the combined note and the issues (none before a check) are rendered, and a success is offered for sharing |
| SoapHome.HomeView.ExportTranscriptPDF | SoapAI/Core/Home/HomeView.swift:380-389 | A no-op without messages. Otherwise the messages are rendered, and a success is offered for sharing |
| SoapHome.HomeView.SetSelection | SoapAI/Core/Home/HomeView.swift:392-401 | Refuses tab 1 without messages and tab 2 without a Subjective/Objective report, and assigns otherwise |
| SoapHome.HomeView.TapNavButton | SoapAI/Core/Home/HomeView.swift:798-808 | An enabled nav button selects its tab, and an existing pane stays shown |
| PdfSections.BulletedLines | SoapAI/Services/PDFExportService.swift:216-218 | One "• item" line per item, in order |
| PdfSections.AppendBullets | SoapAI/Services/PDFExportService.swift:216-218 | The loop appends exactly the bulleted items |
| PdfSections.BlockLayout | SoapAI/Services/PDFExportService.swift:213-219 | A block is empty exactly for a missing or empty list. Otherwise it is a blank line, the header, and "• item" per item in order |
| PdfSections.SubjectiveLayout | SoapAI/Services/PDFExportService.swift:206-238 | The subjective text comes first, followed by exactly the PMH, allergy and medication blocks |
| PdfSections.SubjectiveBody | SoapAI/Services/PDFExportService.swift:205-243 | The lines built in the loops, joined by newlines, are `SubjectiveLines` |
| PdfSections.ObjectiveLayout | SoapAI/Services/PDFExportService.swift:248-266 | A Vitals block appears only for non-empty vitals, then "Physical Exam" and the seven labelled exam lines in fixed order |
| PdfSections.ObjectiveBody | SoapAI/Services/PDFExportService.swift:247-271 | The lines built, joined by newlines, are `ObjectiveLines` |
| PdfSections.ObjectiveNotBlank | SoapAI/Services/PDFExportService.swift:258-266 | The Objective body is never blank, so it is always drawn |
| PdfSections.PlanBody | SoapAI/Services/PDFExportService.swift:278-290 | Each problem gives "problem:", then "  • action" per action, then a blank line. The whole text is trimmed |
| PdfSections.PlanBlankIff | SoapAI/Services/PDFExportService.swift:279-289 | The plan text is blank exactly when there are no problems |
| PdfSections.MomentLayout | SoapAI/Services/PDFExportService.swift:309-315 | Each moment gives three lines: "Phase: Emotion" capitalised, the indented description, a blank line |
| PdfSections.TrajectoryHeader | SoapAI/Services/PDFExportService.swift:306-308 | A blank line precedes "Emotional trajectory:" exactly when there are overall impressions |
| PdfSections.EmotionBlankIff | SoapAI/Services/PDFExportService.swift:318-322 | The tone body is empty exactly when there are neither impressions nor moments |
| PdfSections.EmotionBody | SoapAI/Services/PDFExportService.swift:294-320 | The lines built, joined and trimmed, are `EmotionText` |
| PdfSections.IssuesNumbered | SoapAI/Services/PDFExportService.swift:333-339 | Issue k is numbered k + 1, in input order, and has a quote line only for a non-empty quote |
| PdfSections.IssuesBlankIff | SoapAI/Services/PDFExportService.swift:331-342 | The review text is blank exactly when there are no issues |
| PdfSections.IssuesBody | SoapAI/Services/PDFExportService.swift:331-342 | The text built issue by issue and trimmed is the numbered review |
| PdfSections.ShownTrimmed | SoapAI/Services/PDFExportService.swift:148-149 | A call with an already trimmed body draws that body exactly when it is not blank |
| PdfSections.DrawnSections | SoapAI/Services/PDFExportService.swift:197-344 | The report holds, in order: the visit summary if present and not blank, Subjective unless blank, and Objective always. Then Assessment unless blank, and Plan exactly when there are problems. Then the tone exactly when there are impressions or moments, and the review exactly when there are issues |
| PdfSections.ReportCanvas.BeginNewPageIfNeeded | SoapAI/Services/PDFExportService.swift:95-100 | A new page begins exactly when cursorY + height > margin + maxContentHeight, and the cursor then returns to the margin |
| PdfSections.ReportCanvas.DrawHeader | SoapAI/Services/PDFExportService.swift:102-145 | One page begins, and the cursor moves below the title and the date line |
| PdfSections.ReportCanvas.DrawSection | SoapAI/Services/PDFExportService.swift:147-193 | A blank body draws nothing and leaves the cursor. Otherwise the trimmed body is drawn on this page if it fits, or else on a new one. A section no taller than a page ends within the page |
| PdfSections.ReportCanvas.DrawSOAPReport | SoapAI/Services/PDFExportService.swift:80-345 | After the header, the sections drawn are exactly `ReportSections`, in the fixed order |
| PdfSections.ReportCanvas.DrawNote | SoapAI/Services/PDFExportService.swift:200-291 | The visit summary, Subjective, Objective, Assessment and Plan calls draw `NoteSections` |
| PdfSections.ReportCanvas.DrawReview | SoapAI/Services/PDFExportService.swift:293-344 | The tone and review calls draw `ReviewSections` |
| TextOps.TrimSpec | RealtimeVM.swift:48-50 | The trimmed text is the middle of the string between whitespace-only ends. It neither starts nor ends with whitespace, and it is empty exactly when the string is all whitespace |
| TextOps.TrimIdempotent | RealtimeVM.swift:48-50 | Trimming twice is trimming once |

## Left out

- Timers and concurrency: `Timer`, `DispatchQueue.main.async`, `async`/`await`, `@MainActor` and `[weak self]`. The debounce timer is the `armed` flag, and its firing is an input. The one-second recording timer is `Tick`. Asynchronous answers are `Result` parameters applied in one step.
- Platform semantics of `AVAudioEngine`, `AVAudioSession` and `SFSpeechRecognizer`. Authorization, availability and whether each throwing set-up call succeeds are parameters. Audio buffers are not modelled.
- The network services (`ClinicalReasoningService`, `TranscriptionService`, `fetchEphemeralRealtimeToken`) and the recorder (`RecordingService`) appear only through their outcomes.
- `handlePresheetPDFData`: PDF text extraction is a foreign call, and the rest only stores the parser's result. The parser itself is modelled.
- The SoapAI HomeView's button handlers inside `body` are left out. They call the methods modelled here through asynchronous tasks.
- PDF rendering: `renderPagedPDF`, `exportSOAP`, `generatePDF`, `generateTranscriptPDF`, the image-slicing loops, and the fonts, colours and drawing calls of `drawSOAPReport`. Text measurement (`boundingRect`) is given as two height functions.
- PdfSections.ReportCanvas.DrawHeader: the date subtitle's text is not modelled, only its measured height.
- PdfSections: `CGFloat` arithmetic is modelled with exact reals, so rounding is not captured.
- PdfSections: the records follow the shapes PDFExportService.swift reads: an objective exam with seven fields, and a plan of problems with actions. CRService.swift declares `objective` and `plan` as strings, and the code as given cannot build both shapes, so the two are kept apart. `Reports.SOReport` and `Reports.APReport` have the string shape used by `combinedSOAP`.
- Presheet.Parse: the parser's record has an optional vitals string and a studies list, as the parser writes them. `PatientDataModel` declares `vitals: [String]?` and `testResults` instead, so the parser's own record is modelled rather than that type.
- TextOps: strings are sequences of Unicode scalar values rather than grapheme clusters, so `count` and character offsets are scalar counts.
- TextOps.Lowercased: only ASCII letters are folded.
- TextOps.Capitalized: only ASCII letters are folded, and words are split at whitespace only.
- TextOps.IsNumber: it holds for the ASCII digits and a sample of other numeric characters, not the whole Unicode `Numeric_Type` set.
- TextOps.SplitLines: each newline character separates, so "\r\n" gives an empty component, as `components(separatedBy: .newlines)` does.
- Clock.FormatTime: `%02d` of a negative field is written as a minus sign followed by the digits. The zero padding of negative values is not modelled.
- The SwiftUI views, layout and styling are not modelled. The `opacity` of a disabled nav button follows the same condition as `disabled`.
- SpeechService.EndRecognition: `setActive(false)` is assumed to succeed. Its failure is caught and ignored by the source (RealtimeTranscription.swift:150-152), which would leave the audio session active. So `StopSession`, `CancelSession`, `StopReleases` and `CancelProperties` promise a released audio session only under that assumption. The call log still records the deactivation request.
- `SpeechTranscriptionVM.RequestPermissions` reports only the answer. The printed error text is not modelled.

## Findings

| source | as written | input that shows it | evidently intended | confidence | as-written member | corrected member |
|---|---|---|---|---|---|---|
| RealtimeVM.swift:82-83 | A final that matches only the pending partial overwrites the last committed line, even when that line says something else | finals "a" and "b", then partial "a", then final "a": the lines become ["a", "a"] and "b" is lost | Overwrite the last line only when the final repeats it; otherwise append. The comment says the last line is replaced when the partial was just committed, but a pending partial was never committed | not executed | Consolidation.ScenarioFinalOverwritesUnrelatedLine | Consolidation.ConfirmingLastOnlyKeepsNeighboursDistinct |
| RealtimeTranscription.swift:101-105 | On a recognition error, the callback tells the listener the session has stopped. It keeps `isTranscribing` set and keeps the tap, engine, task and audio session | A running session, then an error callback, then `start`: `start` returns at its guard without doing anything, and the screen, now showing Start, cannot start again | The error path also stops the session, so the service's flag agrees with what it reported | not executed | SpeechService.ErrorThenStartIgnored | SpeechService.StoppingErrorAllowsRestart |

The classes model the code as written. Each corrected rule is defined beside
the original, `OnFinalConfirmingLastOnly` and `OnRecognitionStopping`, and
its intended property is proved there.
