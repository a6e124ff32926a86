/** The content script's typing engine: the mutable `typingState`, the
    five operations that change it, the message listener, and the guard
    against loading the script twice into one page.

    `setTimeout` / `clearTimeout` are reduced to the flag `pending`; the
    page's document is the `doc` argument, searched afresh by the editor
    locator wherever the source searches it. Every character handed to
    `typeCharacter` is appended to `log`. */
module TypingEngine {
  import opened EditorLocator
  import opened SessionSpec

  class TypingSession {
    var isTyping: bool
    var isPaused: bool
    var text: string
    var currentIndex: nat
    var wpm: int
    /** `timeoutId` holds a timer that has neither fired nor been cleared. */
    var pending: bool
    /** Every character handed to `typeCharacter`, oldest first. */
    var log: string
    /** Where in `log` the current session's characters begin. */
    ghost var sessionStart: nat

    function Snapshot(): Session
      reads this
    {
      Session(isTyping, isPaused, text, currentIndex, wpm, pending)
    }

    ghost predicate Valid()
      reads this
    {
      && Inv(Snapshot())
      && sessionStart <= |log|
      && Progress(Snapshot(), log[sessionStart..])
    }

    /** The state at load. */
    constructor ()
      ensures Valid() && Snapshot() == Idle && log == []
    {
      isTyping, isPaused, text, currentIndex, wpm, pending := false, false, "", 0, DefaultWpm, false;
      log := [];
      sessionStart := 0;
    }

    /** `typeNextCharacter`. It is only ever entered with no timer pending
        (from start, from resume, or as the timer's own callback), so the
        timer it schedules is the only one. */
    method TypeNextCharacter(doc: Document)
      requires Valid() && !pending
      modifies this
      ensures Valid() && sessionStart == old(sessionStart)
      ensures var o := Step(old(Snapshot()), Locate(doc).Some?);
              Snapshot() == o.next && log == old(log) + o.emitted
    {
      if !isTyping || isPaused {
        return;
      }
      if currentIndex >= |text| {
        isTyping := false;
        currentIndex := 0;
        return;
      }
      var editor := FindGoogleDocsEditor(doc);
      if editor.None? {
        return;
      }
      var ch := text[currentIndex];
      assert text[..currentIndex] + [ch] == text[..currentIndex + 1];
      log := log + [ch];
      assert log[sessionStart..] == old(log)[sessionStart..] + [ch];
      currentIndex := currentIndex + 1;
      pending := true;
    }

    /** The pending timer fires and runs its callback. */
    method Fire(doc: Document)
      requires Valid() && pending
      modifies this
      ensures Valid() && sessionStart == old(sessionStart)
      ensures var o := SessionSpec.Fire(old(Snapshot()), Locate(doc).Some?);
              Snapshot() == o.next && log == old(log) + o.emitted
    {
      pending := false;
      TypeNextCharacter(doc);
    }

    /** `stopTyping`: cancels any timer and resets the whole state. */
    method Stop()
      requires Valid()
      modifies this
      ensures Valid() && Snapshot() == Idle && log == old(log)
      ensures sessionStart == |log|
    {
      pending := false;
      isTyping, isPaused, text, currentIndex, wpm := false, false, "", 0, DefaultWpm;
      sessionStart := |log|;
    }

    /** `startTyping`. The editor is looked up first; without one the
        error is returned before anything is stopped. */
    method Start(newText: string, newWpm: int, doc: Document) returns (response: Response)
      requires Valid()
      modifies this
      ensures Valid()
      ensures var o := SessionSpec.Start(old(Snapshot()), newText, newWpm, Locate(doc).Some?);
              Snapshot() == o.next && log == old(log) + o.emitted
      ensures response == if Locate(doc).Some? then Success else Failure(NoEditorError)
      ensures Locate(doc).Some? ==> sessionStart == |old(log)|
      ensures Locate(doc).None? ==> sessionStart == old(sessionStart)
    {
      var editor := FindGoogleDocsEditor(doc);
      if editor.None? {
        return Failure(NoEditorError);
      }
      Stop();
      isTyping, isPaused, text, currentIndex, wpm, pending := true, false, newText, 0, newWpm, false;
      // focusEditor(editor): the caret it places is modelled by Keystroke.CaretPlacement.
      TypeNextCharacter(doc);
      response := Success;
    }

    /** `pauseTyping`. */
    method Pause()
      requires Valid()
      modifies this
      ensures Valid() && sessionStart == old(sessionStart) && log == old(log)
      ensures Snapshot() == SessionSpec.Pause(old(Snapshot()))
    {
      if isTyping && !isPaused {
        isPaused := true;
        if pending {
          pending := false;
        }
      }
    }

    /** `resumeTyping`. */
    method Resume(doc: Document)
      requires Valid()
      modifies this
      ensures Valid() && sessionStart == old(sessionStart)
      ensures var o := SessionSpec.Resume(old(Snapshot()), Locate(doc).Some?);
              Snapshot() == o.next && log == old(log) + o.emitted
    {
      if isTyping && isPaused {
        isPaused := false;
        TypeNextCharacter(doc);
      }
    }

    /** The `status` reply. */
    method Status() returns (typing: bool)
      ensures typing == isTyping
    {
      typing := isTyping;
    }

    /** The message listener: one request, one reply. */
    method HandleMessage(action: string, msgText: string, msgWpm: int, doc: Document, now: int)
      returns (response: Response)
      requires Valid()
      modifies this
      ensures Valid()
      ensures var h := Dispatch(old(Snapshot()), action, msgText, msgWpm, Locate(doc).Some?, now);
              Snapshot() == h.next && log == old(log) + h.emitted && response == h.response
    {
      if action == "ping" {
        response := Pong(now);
      } else if action == "start" {
        response := Start(msgText, msgWpm, doc);
      } else if action == "pause" {
        Pause();
        response := Success;
      } else if action == "resume" {
        Resume(doc);
        response := Success;
      } else if action == "stop" {
        Stop();
        response := Success;
      } else if action == "status" {
        var typing := Status();
        response := TypingStatus(typing);
      } else {
        response := Failure(UnknownActionError);
      }
    }
  }

  /** The page's `window`, as far as the load guard sees it. */
  class PageWindow {
    var characterTypingExtensionLoaded: bool
    var engine: TypingSession?

    constructor ()
      ensures !characterTypingExtensionLoaded && engine == null
    {
      characterTypingExtensionLoaded := false;
      engine := null;
    }

    /** Running the content script in this page: the first run sets the
        flag and creates the session; a later run changes nothing, so the
        running session (not in the frame) keeps its state. */
    method LoadContentScript()
      modifies this
      ensures old(characterTypingExtensionLoaded) ==> unchanged(this)
      ensures !old(characterTypingExtensionLoaded) ==>
                characterTypingExtensionLoaded && engine != null && fresh(engine) &&
                engine.Valid() && engine.Snapshot() == Idle && engine.log == []
    {
      if characterTypingExtensionLoaded {
        return;
      }
      characterTypingExtensionLoaded := true;
      engine := new TypingSession();
    }
  }
}
