/** The live speech-recognition session (`SpeechTranscriptionService` in
    RealtimeTranscription.swift).

    The platform objects are reduced to what the service does with them:
    the recognizer is a locale and an on-device flag, the recognition
    request and task are optional values, the microphone tap, the audio
    engine and the audio session are booleans, and every platform call the
    service makes is appended to `calls`. Listener calls are appended to
    `events`; the listener (the view model) consumes them. Answers that the
    platform gives at run time (authorization, availability, whether a
    setup step throws) are parameters. */
module SpeechService {
  import opened Wrappers

  // ---------------------------------------------------------------------
  // Values

  /** The listener protocol `SpeechTranscriptionListener`, one value per call. */
  datatype ListenerEvent =
    | PartialTranscript(text: string)
    | FinalTranscript(text: string)
    | StatusChange(isTranscribing: bool)
    | ErrorReported(error: RecognitionError)

  /** An error the recognition engine hands to the task callback. */
  datatype RecognitionError = RecognitionError(description: string)

  /** `ServiceError`. */
  datatype ServiceError =
    | PermissionDenied
    | RecognizerUnavailable
    | EngineNotReady
    | OnDeviceNotSupported(locale: string)

  /** Why `start` threw: the service's own error, or one of the three
      platform calls marked `try` in it. */
  datatype StartError =
    | Service(error: ServiceError)
    | SessionCategoryFailed
    | SessionActivationFailed
    | EngineStartFailed

  /** `SFSpeechRecognizer.authorizationStatus`. */
  datatype AuthorizationStatus = Authorized | Denied | Restricted | NotDetermined

  /** The recognizer: its locale identifier and whether it can recognise
      on the device. */
  datatype Recognizer = Recognizer(locale: string, supportsOnDevice: bool)

  /** The streaming request the service opens. */
  datatype AudioRequest = AudioRequest(reportsPartialResults: bool, requiresOnDevice: bool)

  /** One recognition result handed to the task callback. */
  datatype Hypothesis = Hypothesis(text: string, isFinal: bool)

  /** The platform calls the service makes, in order. */
  datatype PlatformCall =
    | CancelTask(task: nat)
    | FinishTask(task: nat)
    | ConfigureSession
    | ActivateSession
    | DeactivateSession
    | OpenTask(task: nat, request: AudioRequest)
    | RemoveTap
    | InstallTap(bufferSize: nat)
    | EndAudio
    | PrepareEngine
    | StartEngine
    | StopEngine

  /** The frame size of the microphone tap. */
  const TapBufferSize: nat := 2048

  // ---------------------------------------------------------------------
  // Permission chain (RealtimeTranscription.swift:54-74)

  /** What `requestPermissions` did: whether it went on to ask for the
      microphone, and what it completed with. */
  datatype PermissionOutcome = PermissionOutcome(askedMicrophone: bool, result: Result<(), ServiceError>)

  /** The decision chain of `requestPermissions`: speech authorization first,
      the microphone only after it, then the on-device requirement.
      `micGranted` is the answer the microphone prompt would give. */
  function RequestPermissions(speechAuth: AuthorizationStatus, micGranted: bool,
                              requireOnDevice: bool, recognizer: Recognizer): (r: PermissionOutcome)
    ensures r.askedMicrophone <==> speechAuth == Authorized
    ensures r.result == Failure(PermissionDenied) <==> speechAuth != Authorized || !micGranted
    ensures (r.result == Failure(OnDeviceNotSupported(recognizer.locale)))
        <==> (speechAuth == Authorized && micGranted && requireOnDevice && !recognizer.supportsOnDevice)
    ensures r.result.Success?
        <==> (speechAuth == Authorized && micGranted && (!requireOnDevice || recognizer.supportsOnDevice))
  {
    if speechAuth != Authorized then PermissionOutcome(false, Failure(PermissionDenied))
    else if !micGranted then PermissionOutcome(true, Failure(PermissionDenied))
    else if requireOnDevice && !recognizer.supportsOnDevice then
      PermissionOutcome(true, Failure(OnDeviceNotSupported(recognizer.locale)))
    else PermissionOutcome(true, Success(()))
  }

  // ---------------------------------------------------------------------
  // Recognition callback (RealtimeTranscription.swift:98-119)

  /** The listener calls the recognition-task callback makes for one
      invocation with an optional result and an optional error. */
  function CallbackEvents(result: Option<Hypothesis>, error: Option<RecognitionError>): (r: seq<ListenerEvent>)
    ensures error.Some? ==> r == [ErrorReported(error.value), StatusChange(false)]
    ensures error.None? && result.None? ==> r == []
    ensures error.None? && result.Some? ==>
              var h := result.value;
              && (PartialTranscript(h.text) in r <==> h.text != "")
              && (FinalTranscript(h.text) in r <==> h.isFinal)
              && (forall e <- r :: e == PartialTranscript(h.text) || e == FinalTranscript(h.text))
              && |r| == (if h.text != "" then 1 else 0) + (if h.isFinal then 1 else 0)
              && (|r| == 2 ==> r[0].PartialTranscript? && r[1].FinalTranscript?)
  {
    if error.Some? then [ErrorReported(error.value), StatusChange(false)]
    else if result.None? then []
    else
      var h := result.value;
      var partial := if h.text != "" then [PartialTranscript(h.text)] else [];
      partial + (if h.isFinal then [FinalTranscript(h.text)] else [])
  }

  // ---------------------------------------------------------------------
  // Session state and its transitions

  /** Every field of the service. */
  datatype Session = Session(
    recognizer: Recognizer,
    request: Option<AudioRequest>,
    task: Option<nat>,
    nextTask: nat,
    tapInstalled: bool,
    engineRunning: bool,
    sessionActive: bool,
    isTranscribing: bool,
    events: seq<ListenerEvent>,
    calls: seq<PlatformCall>)

  /** What the platform answers during `start`: recognizer availability and
      whether each throwing setup call succeeds. */
  datatype StartConditions = StartConditions(
    recognizerAvailable: bool,
    categoryOk: bool,
    activationOk: bool,
    engineStartOk: bool)

  function CancelPriorTask(s: Session): Session {
    match s.task
    case Some(t) => s.(task := None, calls := s.calls + [CancelTask(t)])
    case None => s
  }

  /** `start(requireOnDevice:)` (RealtimeTranscription.swift:78-136). The
      setup is not transactional: a step that throws leaves in place what
      the earlier steps did. */
  function StartSession(s: Session, requireOnDevice: bool, c: StartConditions): (Session, Result<(), StartError>) {
    if s.isTranscribing then (s, Success(()))
    else if !c.recognizerAvailable then (s, Failure(Service(RecognizerUnavailable)))
    else ConfigureAndOpen(CancelPriorTask(s).(request := None), requireOnDevice, c)
  }

  /** The audio-session set-up of `start`, after the prior task is gone. */
  function ConfigureAndOpen(s: Session, requireOnDevice: bool, c: StartConditions): (Session, Result<(), StartError>) {
    if !c.categoryOk then (s, Failure(SessionCategoryFailed))
    else
      var configured := s.(calls := s.calls + [ConfigureSession]);
      if !c.activationOk then (configured, Failure(SessionActivationFailed))
      else LaunchEngine(Opened(configured, requireOnDevice), c)
  }

  /** The session once the request, its task and the microphone tap are set up. */
  function Opened(s: Session, requireOnDevice: bool): Session {
    var req := AudioRequest(true, requireOnDevice);
    s.(sessionActive := true, request := Some(req), task := Some(s.nextTask),
       nextTask := s.nextTask + 1, tapInstalled := true,
       calls := s.calls + [ActivateSession] + [OpenTask(s.nextTask, req)] + [RemoveTap]
                + [InstallTap(TapBufferSize)] + [PrepareEngine])
  }

  /** Starting the audio engine, the last step of `start`. */
  function LaunchEngine(s: Session, c: StartConditions): (Session, Result<(), StartError>) {
    if !c.engineStartOk then (s, Failure(EngineStartFailed))
    else
      (s.(engineRunning := true, isTranscribing := true,
          calls := s.calls + [StartEngine], events := s.events + [StatusChange(true)]),
       Success(()))
  }

  /** `stop()` (RealtimeTranscription.swift:138-156). */
  function StopSession(s: Session): Session {
    if !s.isTranscribing then s else EndRecognition(ReleaseAudio(s))
  }

  /** The first half of `stop`: end the audio, remove the tap, stop the engine. */
  function ReleaseAudio(s: Session): Session {
    var ended := if s.request.Some? then [EndAudio] else [];
    s.(tapInstalled := false, engineRunning := false,
       calls := s.calls + ended + [RemoveTap] + [StopEngine])
  }

  /** The second half of `stop`: finish and forget the task and request,
      deactivate the audio session and report the end to the listener. */
  function EndRecognition(s: Session): Session {
    var finished := if s.task.Some? then [FinishTask(s.task.value)] else [];
    s.(task := None, request := None, sessionActive := false, isTranscribing := false,
       calls := s.calls + finished + [DeactivateSession],
       events := s.events + [StatusChange(false)])
  }

  /** `cancel()` (RealtimeTranscription.swift:158-163). */
  function CancelSession(s: Session): Session {
    StopSession(CancelPriorTask(s))
  }

  /** The recognition-task callback: it reports to the listener and changes
      no other field. */
  function OnRecognitionSession(s: Session, result: Option<Hypothesis>, error: Option<RecognitionError>): Session {
    s.(events := s.events + CallbackEvents(result, error))
  }

  /** `updateLocale(_:)`: `created` is the recognizer the platform builds
      for the new locale, if it can build one. */
  function UpdateLocaleSession(s: Session, created: Option<Recognizer>): Session {
    if created.Some? then s.(recognizer := created.value) else s
  }

  /** The resources a running session holds. */
  predicate HoldsNothing(s: Session) {
    !s.tapInstalled && !s.engineRunning && !s.sessionActive && s.task.None? && s.request.None?
  }

  // ---------------------------------------------------------------------
  // Properties of the transitions

  /** `start` does nothing while a session is running. */
  lemma StartWhileTranscribing(s: Session, requireOnDevice: bool, c: StartConditions)
    requires s.isTranscribing
    ensures StartSession(s, requireOnDevice, c) == (s, Success(()))
  {
  }

  /** An unavailable recognizer fails `start` with no field changed. */
  lemma StartUnavailable(s: Session, requireOnDevice: bool, c: StartConditions)
    requires !s.isTranscribing && !c.recognizerAvailable
    ensures StartSession(s, requireOnDevice, c) == (s, Failure(Service(RecognizerUnavailable)))
  {
  }

  /** A successful start: the prior task is cancelled and replaced, the tap
      is removed before the single new tap is installed, the session is
      transcribing and the listener hears exactly one `StatusChange(true)`. */
  lemma {:induction false} StartSucceeds(s: Session, requireOnDevice: bool, c: StartConditions)
    requires !s.isTranscribing && c.recognizerAvailable && c.categoryOk && c.activationOk && c.engineStartOk
    ensures var (s', r) := StartSession(s, requireOnDevice, c);
      && r.Success?
      && s'.isTranscribing && s'.tapInstalled && s'.engineRunning && s'.sessionActive
      && s'.task == Some(s.nextTask)
      && s'.request == Some(AudioRequest(true, requireOnDevice))
      && s'.events == s.events + [StatusChange(true)]
      && (s.task.Some? ==> s'.calls[|s.calls|] == CancelTask(s.task.value))
      && s'.recognizer == s.recognizer
      && (var n := |s'.calls|;
          n >= 5 && s'.calls[n - 4] == RemoveTap && s'.calls[n - 3] == InstallTap(TapBufferSize))
  {
    var s1 := CancelPriorTask(s).(request := None);
    assert s.task.Some? ==> s1.calls == s.calls + [CancelTask(s.task.value)];
    assert s.task.None? ==> s1.calls == s.calls;
    var s3 := Opened(s1.(calls := s1.calls + [ConfigureSession]), requireOnDevice);
    assert StartSession(s, requireOnDevice, c) == LaunchEngine(s3, c);
  }

  /** A start whose engine fails to start throws after the request, the task,
      the tap and the audio session were set up, and leaves them held. */
  lemma StartEngineFailureLeaks(s: Session, requireOnDevice: bool, c: StartConditions)
    requires !s.isTranscribing && c.recognizerAvailable && c.categoryOk && c.activationOk && !c.engineStartOk
    ensures var (s', r) := StartSession(s, requireOnDevice, c);
      r == Failure(EngineStartFailed) && !s'.isTranscribing
      && s'.tapInstalled && s'.sessionActive && s'.task.Some? && s'.request.Some?
      && s'.events == s.events
  {
  }

  /** `stop` when idle does nothing; when running it releases everything,
      clears the flag and reports `StatusChange(false)`; a second call does
      nothing more. */
  lemma StopReleases(s: Session)
    ensures !s.isTranscribing ==> StopSession(s) == s
    ensures s.isTranscribing ==>
              HoldsNothing(StopSession(s)) && !StopSession(s).isTranscribing
              && StopSession(s).events == s.events + [StatusChange(false)]
              && StopSession(s).recognizer == s.recognizer
    ensures StopSession(StopSession(s)) == StopSession(s)
  {
  }

  /** `cancel` when idle only drops (and cancels) the task; otherwise it is
      `stop` after cancelling the task. Cancelling twice is cancelling once. */
  lemma CancelProperties(s: Session)
    ensures !s.isTranscribing ==> CancelSession(s) == CancelPriorTask(s)
    ensures CancelSession(s).task.None?
    ensures s.isTranscribing ==> HoldsNothing(CancelSession(s))
    ensures CancelSession(CancelSession(s)) == CancelSession(s)
  {
  }

  /** The recognition callback never changes the session's own state: after
      an engine error the service still reports itself transcribing and
      still holds the tap, the task and the audio session. */
  lemma ErrorKeepsSession(s: Session, e: RecognitionError)
    ensures var s' := OnRecognitionSession(s, None, Some(e));
      s'.isTranscribing == s.isTranscribing && s'.tapInstalled == s.tapInstalled
      && s'.task == s.task && s'.request == s.request && s'.sessionActive == s.sessionActive
      && s'.events == s.events + [ErrorReported(e), StatusChange(false)]
  {
  }

  /** After an engine error the listener has been told the session ended,
      yet a later `start` returns success without doing anything: no task,
      no tap, no `StatusChange(true)`, and the old session is still held. */
  lemma ErrorThenStartIgnored(s: Session, e: RecognitionError, requireOnDevice: bool, c: StartConditions)
    requires s.isTranscribing
    ensures var failed := OnRecognitionSession(s, None, Some(e));
      && failed.events[|failed.events| - 1] == StatusChange(false)
      && StartSession(failed, requireOnDevice, c) == (failed, Success(()))
      && StatusChange(true) !in failed.events[|s.events|..]
  {
    var failed := OnRecognitionSession(s, None, Some(e));
    assert failed.events[|s.events|..] == [ErrorReported(e), StatusChange(false)];
  }

  /** The recognition callback as evidently intended: on an error it also
      stops the session, so the service's own flag agrees with what it told
      the listener. The listener hears the same two calls as before. */
  function OnRecognitionStopping(s: Session, result: Option<Hypothesis>, error: Option<RecognitionError>): Session {
    if error.None? then OnRecognitionSession(s, result, error)
    else
      var reported := s.(events := s.events + [ErrorReported(error.value)]);
      if reported.isTranscribing then StopSession(reported)
      else reported.(events := reported.events + [StatusChange(false)])
  }

  /** With the corrected callback an error leaves the service idle and
      holding nothing it held for the session, the listener hears exactly
      the error and `StatusChange(false)`, and a later `start` whose steps
      all succeed starts a new session. */
  lemma StoppingErrorAllowsRestart(s: Session, e: RecognitionError, requireOnDevice: bool, c: StartConditions)
    requires s.isTranscribing
    requires c == StartConditions(true, true, true, true)
    ensures var failed := OnRecognitionStopping(s, None, Some(e));
      && !failed.isTranscribing && HoldsNothing(failed)
      && failed.events == s.events + [ErrorReported(e), StatusChange(false)]
      && StartSession(failed, requireOnDevice, c).1.Success?
      && StartSession(failed, requireOnDevice, c).0.isTranscribing
      && StartSession(failed, requireOnDevice, c).0.events == failed.events + [StatusChange(true)]
  {
    var failed := OnRecognitionStopping(s, None, Some(e));
    StopReleases(s.(events := s.events + [ErrorReported(e)]));
    StartSucceeds(failed, requireOnDevice, c);
  }

  // ---------------------------------------------------------------------
  // The service object

  class SpeechTranscriptionService {
    var recognizer: Recognizer
    var recognitionRequest: Option<AudioRequest>
    var recognitionTask: Option<nat>
    var nextTask: nat
    var tapInstalled: bool
    var engineRunning: bool
    var sessionActive: bool
    var isTranscribing: bool
    /** The listener calls made so far. */
    var events: seq<ListenerEvent>
    /** The platform calls made so far. */
    var calls: seq<PlatformCall>

    function Snapshot(): Session
      reads this
    {
      Session(recognizer, recognitionRequest, recognitionTask, nextTask, tapInstalled,
              engineRunning, sessionActive, isTranscribing, events, calls)
    }

    /** `init(locale:)`, given the recognizer built for the locale (or the
        system default). */
    constructor (initial: Recognizer)
      ensures Snapshot() == Session(initial, None, None, 0, false, false, false, false, [], [])
    {
      recognizer := initial;
      recognitionRequest := None;
      recognitionTask := None;
      nextTask := 0;
      tapInstalled, engineRunning, sessionActive, isTranscribing := false, false, false, false;
      events, calls := [], [];
    }

    method Start(requireOnDevice: bool, c: StartConditions) returns (r: Result<(), StartError>)
      modifies this
      ensures (Snapshot(), r) == StartSession(old(Snapshot()), requireOnDevice, c)
    {
      if isTranscribing { return Success(()); }
      if !c.recognizerAvailable { return Failure(Service(RecognizerUnavailable)); }

      DropPriorTask();

      // configure the audio session for capture
      if !c.categoryOk { return Failure(SessionCategoryFailed); }
      calls := calls + [ConfigureSession];
      if !c.activationOk { return Failure(SessionActivationFailed); }

      OpenStream(requireOnDevice);

      if !c.engineStartOk { return Failure(EngineStartFailed); }
      engineRunning := true;
      calls := calls + [StartEngine];

      isTranscribing := true;
      events := events + [StatusChange(true)];
      return Success(());
    }

    /** The first step of `start`: cancel and forget the prior task and request. */
    method DropPriorTask()
      modifies this
      ensures Snapshot() == CancelPriorTask(old(Snapshot())).(request := None)
    {
      if recognitionTask.Some? {
        calls := calls + [CancelTask(recognitionTask.value)];
      }
      recognitionTask := None;
      recognitionRequest := None;
    }

    /** The middle of `start`: activate the audio session, open the request
        and its task, and replace the microphone tap. */
    method OpenStream(requireOnDevice: bool)
      modifies this
      ensures Snapshot() == Opened(old(Snapshot()), requireOnDevice)
    {
      sessionActive := true;
      calls := calls + [ActivateSession];

      var request := AudioRequest(true, requireOnDevice);
      recognitionRequest := Some(request);
      recognitionTask := Some(nextTask);
      calls := calls + [OpenTask(nextTask, request)];
      nextTask := nextTask + 1;

      // at most one tap: remove before installing
      tapInstalled := false;
      calls := calls + [RemoveTap];
      tapInstalled := true;
      calls := calls + [InstallTap(TapBufferSize)];

      calls := calls + [PrepareEngine];
    }

    method Stop()
      modifies this
      ensures Snapshot() == StopSession(old(Snapshot()))
    {
      if !isTranscribing { return; }
      StopAudio();
      FinishRecognition();
    }

    /** The audio half of `stop`. */
    method StopAudio()
      modifies this
      ensures Snapshot() == ReleaseAudio(old(Snapshot()))
    {
      if recognitionRequest.Some? {
        calls := calls + [EndAudio];
      } else {
        assert calls == old(calls) + [];
      }
      tapInstalled := false;
      calls := calls + [RemoveTap];
      engineRunning := false;
      calls := calls + [StopEngine];
    }

    /** The recognition half of `stop`. */
    method FinishRecognition()
      modifies this
      ensures Snapshot() == EndRecognition(old(Snapshot()))
    {
      if recognitionTask.Some? {
        calls := calls + [FinishTask(recognitionTask.value)];
      } else {
        assert calls == old(calls) + [];
      }
      recognitionTask := None;
      recognitionRequest := None;
      sessionActive := false;
      calls := calls + [DeactivateSession];
      isTranscribing := false;
      events := events + [StatusChange(false)];
    }

    method Cancel()
      modifies this
      ensures Snapshot() == CancelSession(old(Snapshot()))
    {
      if recognitionTask.Some? {
        calls := calls + [CancelTask(recognitionTask.value)];
      }
      recognitionTask := None;
      Stop();
    }

    /** The recognition-task callback. */
    method OnRecognition(result: Option<Hypothesis>, error: Option<RecognitionError>)
      modifies this
      ensures Snapshot() == OnRecognitionSession(old(Snapshot()), result, error)
    {
      if error.Some? {
        events := events + [ErrorReported(error.value)];
        events := events + [StatusChange(false)];
        return;
      }
      if result.None? { return; }
      var text := result.value.text;
      if text != "" {
        events := events + [PartialTranscript(text)];
      }
      if result.value.isFinal {
        events := events + [FinalTranscript(text)];
      }
    }

    method UpdateLocale(created: Option<Recognizer>)
      modifies this
      ensures Snapshot() == UpdateLocaleSession(old(Snapshot()), created)
    {
      if created.Some? {
        recognizer := created.value;
      }
    }
  }
}
