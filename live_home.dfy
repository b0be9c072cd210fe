/** The root HomeView.swift: the live-transcription pane's Start/Stop and
    Clear buttons, which act on a `SpeechTranscriptionVM`, and the tab gate
    of the three panes. The time display uses `Clock.FormatTime`. */
module LiveHome {
  import opened Wrappers
  import opened SpeechService
  import opened Consolidation
  import opened RealtimeVM
  import opened Reports

  /** The Clear button does something exactly when it is enabled: it is
      disabled exactly when clearing would change nothing. */
  lemma ClearDisabledExactlyWhenNoop(t: Transcript)
    ensures ClearLines(t) == t <==> t.finalLines == [] && t.partialText == ""
  {
  }

  class HomeView {
    var dividedMessages: seq<ChatMessage>
    var selectedTab: int
    var soReport: Option<SOReport>
    var apReport: Option<APReport>
    const st: SpeechTranscriptionVM

    constructor (recognizer: Recognizer)
      ensures dividedMessages == [] && selectedTab == 0 && soReport == None && apReport == None
      ensures fresh(st) && fresh(st.service) && st.Snapshot() == Initial
    {
      dividedMessages, selectedTab, soReport, apReport := [], 0, None, None;
      st := new SpeechTranscriptionVM(recognizer);
    }

    /** The Start/Stop button. While transcribing it only stops. Otherwise
        it asks for permissions with the on-device requirement; the answer
        handler clears the transcript whatever the answer, then starts only
        if permission was granted. `speechAuth` and `micGranted` are the
        platform's answers, `c` the outcomes of the start-up steps. */
    method TapStartStop(speechAuth: AuthorizationStatus, micGranted: bool, c: StartConditions)
      modifies st, st.service
      ensures old(st.isTranscribing) ==>
                st.service.Snapshot() == StopSession(old(st.service.Snapshot()))
                && st.Snapshot() == DeliverAll(old(st.Snapshot()), st.service.events[|old(st.service.events)|..])
      ensures !old(st.isTranscribing) && !Granted(speechAuth, micGranted, old(st.service.recognizer)) ==>
                st.service.Snapshot() == old(st.service.Snapshot())
                && st.Snapshot() == ClearLines(old(st.Snapshot()))
      ensures !old(st.isTranscribing) && Granted(speechAuth, micGranted, old(st.service.recognizer)) ==>
                st.service.Snapshot() == StartSession(old(st.service.Snapshot()), true, c).0
                && st.Snapshot() == DeliverAll(ClearLines(old(st.Snapshot())),
                                               st.service.events[|old(st.service.events)|..])
      ensures !old(st.isTranscribing) && Granted(speechAuth, micGranted, old(st.service.recognizer))
              && !old(st.service.isTranscribing) && c == StartConditions(true, true, true, true) ==>
                st.isTranscribing && st.finalLines == [] && st.partialText == ""
      ensures !old(st.isTranscribing) && old(st.service.isTranscribing) ==>
                !st.isTranscribing && st.service.Snapshot() == old(st.service.Snapshot())
    {
      if st.isTranscribing {
        st.Stop();
      } else {
        var ok := st.RequestPermissions(true, speechAuth, micGranted);
        st.finalLines := [];
        st.partialText := "";
        if ok {
          ghost var before := st.service.Snapshot();
          ghost var from := |st.service.events|;
          st.Start(true, c);
          if !before.isTranscribing && c == StartConditions(true, true, true, true) {
            StartSucceeds(before, true, c);
            assert st.service.events[from..] == [StatusChange(true)];
          }
        }
      }
    }

    /** The permission chain's answer with the on-device requirement the
        button passes. */
    static predicate Granted(speechAuth: AuthorizationStatus, micGranted: bool, recognizer: Recognizer) {
      speechAuth == Authorized && micGranted && recognizer.supportsOnDevice
    }

    /** The Clear button: empties the committed lines and the partial text. */
    method Clear()
      modifies st
      ensures st.finalLines == [] && st.partialText == ""
      ensures st.Snapshot() == ClearLines(old(st.Snapshot()))
    {
      st.finalLines := [];
      st.partialText := "";
    }

    /** Whether the Clear button is disabled. */
    predicate ClearDisabled()
      reads st
    {
      st.finalLines == [] && st.partialText == ""
    }

    /** The `safeSelection` setter. */
    method SetSelection(index: int)
      modifies this
      ensures selectedTab == Selected(old(selectedTab), index, dividedMessages, soReport)
      ensures dividedMessages == old(dividedMessages) && soReport == old(soReport) && apReport == old(apReport)
    {
      if (index == 1 && dividedMessages == []) || (index == 2 && soReport == None) {
        return;
      }
      selectedTab := index;
    }

    /** Whether the nav button for `index` is disabled. */
    predicate NavDisabled(index: int)
      reads this
    {
      NavButtonDisabled(index, dividedMessages, soReport)
    }

    /** A tap on an enabled nav button selects its tab; with the pane gate
        the selection then still shows an existing pane. */
    method TapNavButton(index: int)
      requires !NavDisabled(index)
      modifies this
      ensures selectedTab == index
      ensures old(ShowsExistingPane(selectedTab, dividedMessages, soReport)) ==>
                ShowsExistingPane(selectedTab, dividedMessages, soReport)
      ensures dividedMessages == old(dividedMessages) && soReport == old(soReport) && apReport == old(apReport)
    {
      selectedTab := index;
    }
  }
}
