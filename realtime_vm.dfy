/** `SpeechTranscriptionVM` (RealtimeVM.swift): the listener of the speech
    service and the owner of the live transcript. Each handler is proved to
    make the move that `Consolidation` describes, and states that move in
    its own terms. */
module RealtimeVM {
  import opened Wrappers
  import opened TextOps
  import opened SpeechService
  import opened Consolidation

  class SpeechTranscriptionVM {
    var isTranscribing: bool
    var partialText: string
    var finalLines: seq<string>
    /** Whether the one-shot debounce timer is scheduled and has neither
        fired nor been invalidated. */
    var armed: bool
    const service: SpeechTranscriptionService

    function Snapshot(): Transcript
      reads this
    {
      Transcript(isTranscribing, partialText, finalLines, armed)
    }

    /** `init()`: a fresh service whose listener is this object. */
    constructor (recognizer: Recognizer)
      ensures Snapshot() == Initial && fresh(service)
      ensures service.Snapshot() == Session(recognizer, None, None, 0, false, false, false, false, [], [])
    {
      isTranscribing, partialText, finalLines, armed := false, "", [], false;
      service := new SpeechTranscriptionService(recognizer);
    }

    /** `requestPermissions(requireOnDevice:onDone:)`: the answer handed to
        `onDone`, given what the platform answers. */
    method RequestPermissions(requireOnDevice: bool, speechAuth: AuthorizationStatus, micGranted: bool)
      returns (ok: bool)
      ensures ok <==> speechAuth == Authorized && micGranted
                      && (!requireOnDevice || service.recognizer.supportsOnDevice)
    {
      var outcome := SpeechService.RequestPermissions(speechAuth, micGranted, requireOnDevice, service.recognizer);
      ok := outcome.result.Success?;
    }

    /** `start(requireOnDevice:)`: a thrown error is only printed. */
    method Start(requireOnDevice: bool, c: StartConditions)
      modifies this, service
      ensures service.Snapshot() == StartSession(old(service.Snapshot()), requireOnDevice, c).0
      ensures Snapshot() == DeliverAll(old(Snapshot()), service.events[|old(service.events)|..])
    {
      var from := |service.events|;
      var _ := service.Start(requireOnDevice, c);
      DeliverFrom(from);
    }

    /** `stop()`. */
    method Stop()
      modifies this, service
      ensures service.Snapshot() == StopSession(old(service.Snapshot()))
      ensures Snapshot() == DeliverAll(old(Snapshot()), service.events[|old(service.events)|..])
    {
      var from := |service.events|;
      service.Stop();
      DeliverFrom(from);
    }

    /** `cancel()`. */
    method Cancel()
      modifies this, service
      ensures service.Snapshot() == CancelSession(old(service.Snapshot()))
      ensures Snapshot() == DeliverAll(old(Snapshot()), service.events[|old(service.events)|..])
    {
      var from := |service.events|;
      service.Cancel();
      DeliverFrom(from);
    }

    /** One invocation of the recognition-task callback, with its listener
        calls delivered here. */
    method OnRecognition(result: Option<Hypothesis>, error: Option<RecognitionError>)
      modifies this, service
      ensures service.Snapshot() == OnRecognitionSession(old(service.Snapshot()), result, error)
      ensures Snapshot() == DeliverAll(old(Snapshot()), CallbackEvents(result, error))
    {
      var from := |service.events|;
      service.OnRecognition(result, error);
      assert service.events[from..] == CallbackEvents(result, error);
      DeliverFrom(from);
    }

    /** Hands the listener calls the service has logged since `from` to the
        handlers, in order. */
    method DeliverFrom(from: nat)
      requires from <= |service.events|
      modifies this
      ensures Snapshot() == DeliverAll(old(Snapshot()), service.events[from..])
    {
      var es := service.events[from..];
      var i := 0;
      while i < |es|
        invariant 0 <= i <= |es|
        invariant Snapshot() == DeliverAll(old(Snapshot()), es[..i])
      {
        assert es[..i + 1][..i] == es[..i];
        Deliver(es[i]);
        i := i + 1;
      }
      assert es[..|es|] == es;
    }

    /** One listener call. */
    method Deliver(e: ListenerEvent)
      modifies this
      ensures Snapshot() == Consolidation.Deliver(old(Snapshot()), e)
    {
      match e
      case PartialTranscript(text) => OnPartialTranscript(text);
      case FinalTranscript(text) => OnFinalTranscript(text);
      case StatusChange(active) => OnStatusChange(active);
      case ErrorReported(err) => OnError(err);
    }

    /** `commitCurrentPartial()`. */
    method CommitCurrentPartial()
      modifies this
      ensures isTranscribing == old(isTranscribing) && armed == old(armed)
      ensures Norm(old(partialText)) == [] ==>
                finalLines == old(finalLines) && partialText == old(partialText)
      ensures Norm(old(partialText)) != [] && old(finalLines) != []
              && Norm(Last(old(finalLines))) == Norm(old(partialText)) ==>
                finalLines == ReplaceLast(old(finalLines), Norm(old(partialText))) && partialText == ""
      ensures Norm(old(partialText)) != []
              && (old(finalLines) == [] || Norm(Last(old(finalLines))) != Norm(old(partialText))) ==>
                finalLines == old(finalLines) + [Norm(old(partialText))] && partialText == ""
      ensures Snapshot() == Commit(old(Snapshot()))
    {
      var t := Norm(partialText);
      if t == [] {
        return;
      }
      if finalLines != [] && Norm(finalLines[|finalLines| - 1]) == t {
        finalLines := finalLines[|finalLines| - 1 := t];
      } else {
        finalLines := finalLines + [t];
      }
      partialText := "";
    }

    /** `onPartialTranscript(_:)`: the old timer is invalidated and a new
        one scheduled. */
    method OnPartialTranscript(text: string)
      modifies this
      ensures partialText == text && armed
      ensures finalLines == old(finalLines) && isTranscribing == old(isTranscribing)
      ensures Snapshot() == OnPartial(old(Snapshot()), text)
    {
      partialText := text;
      armed := true;
    }

    /** `onFinalTranscript(_:)`. */
    method OnFinalTranscript(text: string)
      modifies this
      ensures !armed && isTranscribing == old(isTranscribing)
      ensures Norm(text) == [] ==> finalLines == old(finalLines) && partialText == old(partialText)
      ensures Norm(text) != [] && old(finalLines) != []
              && (Norm(Last(old(finalLines))) == Norm(text)
                  || (old(partialText) != "" && Norm(old(partialText)) == Norm(text))) ==>
                finalLines == ReplaceLast(old(finalLines), text) && partialText == ""
      ensures Norm(text) != [] && !ConfirmsLast(old(Snapshot()), text) ==>
                finalLines == old(finalLines) + [text] && partialText == ""
      ensures Snapshot() == OnFinal(old(Snapshot()), text)
    {
      armed := false;
      var t := Norm(text);
      if t == [] {
        return;
      }
      if finalLines != [] {
        var last := finalLines[|finalLines| - 1];
        if Norm(last) == t || (partialText != "" && Norm(partialText) == t) {
          finalLines := finalLines[|finalLines| - 1 := text];
          partialText := "";
          return;
        }
      }
      finalLines := finalLines + [text];
      partialText := "";
    }

    /** `onStatusChange(isTranscribing:)`. */
    method OnStatusChange(active: bool)
      modifies this
      ensures isTranscribing == active
      ensures armed == (active && old(armed))
      ensures finalLines == old(finalLines) && partialText == old(partialText)
      ensures Snapshot() == OnStatus(old(Snapshot()), active)
    {
      isTranscribing := active;
      if !active {
        armed := false;
      }
    }

    /** `onError(_:)`: the error is only printed. */
    method OnError(e: RecognitionError)
      ensures Snapshot() == old(Snapshot())
    {
    }

    /** The debounce timer going off: a spent or invalidated timer does
        nothing, a live one commits the partial. */
    method FireDebounce()
      modifies this
      ensures !armed
      ensures !old(armed) ==> Snapshot() == old(Snapshot())
      ensures Snapshot() == OnDebounceTimer(old(Snapshot()))
    {
      if armed {
        armed := false;
        CommitCurrentPartial();
      }
    }
  }
}
