/** The typing session of the content script as a value, and each
    operation on it as a pure transition: the specification that the
    `TypingSession` class is proved against.

    Two things from the page are parameters here: whether the editor
    locator finds an editor (`editorFound`), and the clock reading a ping
    answers with (`now`). A pending timer is the flag `pending`: a
    `setTimeout` that has neither fired nor been cleared. */
module SessionSpec {

  /** `typingState`, with `timeoutId` reduced to whether a timer is
      pending. */
  datatype Session = Session(
    isTyping: bool,
    isPaused: bool,
    text: string,
    currentIndex: nat,
    wpm: int,
    pending: bool)

  const DefaultWpm: int := 60

  /** The state at load and after every stop. */
  const Idle: Session := Session(false, false, "", 0, DefaultWpm, false)

  /** The new state and the characters handed to `typeCharacter`, in
      order. */
  datatype Outcome = Outcome(next: Session, emitted: string)

  /** Everything that changes the session: a start message, a timer
      firing, and the pause, resume and stop messages. */
  datatype Event =
    | StartEv(text: string, wpm: int, editorFound: bool)
    | FireEv(editorFound: bool)
    | PauseEv
    | ResumeEv(editorFound: bool)
    | StopEv

  /** The invariant every operation keeps: a pause only inside a session
      and never with a timer pending, a timer only inside a session, the
      index within the text, and the index at 0 outside a session. */
  ghost predicate Inv(s: Session)
  {
    && (s.isPaused ==> s.isTyping)
    && (s.isPaused ==> !s.pending)
    && (s.pending ==> s.isTyping)
    && s.currentIndex <= |s.text|
    && (!s.isTyping ==> s.currentIndex == 0)
  }

  /** `typed` is what the current session has emitted so far: the text up
      to the index while it runs, the whole text once it has completed. */
  ghost predicate Progress(s: Session, typed: string)
  {
    && s.currentIndex <= |s.text|
    && if s.isTyping then typed == s.text[..s.currentIndex] else typed == s.text
  }

  /** `typeNextCharacter`: nothing when no session runs or it is paused;
      completion (session off, index back to 0, text kept) when the text is
      used up; nothing when the editor is gone; otherwise the character at
      the index is typed, the index advances and the next step is
      scheduled. */
  function Step(s: Session, editorFound: bool): Outcome
  {
    if !s.isTyping || s.isPaused then Outcome(s, [])
    else if s.currentIndex >= |s.text| then Outcome(s.(isTyping := false, currentIndex := 0), [])
    else if !editorFound then Outcome(s, [])
    else Outcome(s.(currentIndex := s.currentIndex + 1, pending := true), [s.text[s.currentIndex]])
  }

  /** The pending timer fires: it is no longer pending, and it runs a
      step. */
  function Fire(s: Session, editorFound: bool): Outcome
    requires s.pending
  {
    Step(s.(pending := false), editorFound)
  }

  /** `startTyping`: with no editor, nothing changes (the running session
      and its timer survive); otherwise the old session is stopped, a fresh
      one installed and its first step run at once. */
  function Start(s: Session, text: string, wpm: int, editorFound: bool): Outcome
  {
    if !editorFound then Outcome(s, [])
    else Step(Session(true, false, text, 0, wpm, false), true)
  }

  /** `pauseTyping`: acts only on a running, unpaused session; cancels the
      timer. */
  function Pause(s: Session): Session
  {
    if s.isTyping && !s.isPaused then s.(isPaused := true, pending := false) else s
  }

  /** `resumeTyping`: acts only on a paused session; unpauses and steps at
      once. */
  function Resume(s: Session, editorFound: bool): Outcome
  {
    if s.isTyping && s.isPaused then Step(s.(isPaused := false), editorFound) else Outcome(s, [])
  }

  /** One event. A timer cannot fire when none is pending. */
  function Apply(s: Session, e: Event): Outcome
  {
    match e
    case StartEv(text, wpm, found) => Start(s, text, wpm, found)
    case FireEv(found) => if s.pending then Fire(s, found) else Outcome(s, [])
    case PauseEv => Outcome(Pause(s), [])
    case ResumeEv(found) => Resume(s, found)
    case StopEv => Outcome(Idle, [])
  }

  /** What the session has typed after event `e`: a successful start or a
      stop begins a new record. */
  function TypedAfter(typed: string, e: Event, o: Outcome): string
  {
    if (e.StartEv? && e.editorFound) || e.StopEv? then o.emitted else typed + o.emitted
  }

  /** Every event keeps the invariant, and the characters emitted by the
      current session stay exactly the text up to the index. */
  lemma ApplyPreservesInvariant(s: Session, typed: string, e: Event)
    requires Inv(s) && Progress(s, typed)
    ensures Inv(Apply(s, e).next)
    ensures Progress(Apply(s, e).next, TypedAfter(typed, e, Apply(s, e)))
  {
    var o := Apply(s, e);
    if o.emitted != [] && !e.StartEv? {
      assert s.text[..s.currentIndex] + [s.text[s.currentIndex]] == s.text[..s.currentIndex + 1];
    }
  }

  /** A sequence of events, one after the other. */
  function Run(s: Session, es: seq<Event>): Outcome
    decreases |es|
  {
    if es == [] then Outcome(s, [])
    else
      var o := Apply(s, es[0]);
      var r := Run(o.next, es[1..]);
      Outcome(r.next, o.emitted + r.emitted)
  }

  lemma {:induction false} RunPreservesInvariant(s: Session, es: seq<Event>)
    requires Inv(s)
    ensures Inv(Run(s, es).next)
    decreases |es|
  {
    if es != [] {
      ApplyPreservesInvariant(s, if s.isTyping then s.text[..s.currentIndex] else s.text, es[0]);
      RunPreservesInvariant(Apply(s, es[0]).next, es[1..]);
    }
  }

  /** The timer fires `n` times with the editor present throughout. */
  function FireN(s: Session, n: nat): Outcome
    decreases n
  {
    if n == 0 || !s.pending then Outcome(s, [])
    else
      var o := Fire(s, true);
      var r := FireN(o.next, n - 1);
      Outcome(r.next, o.emitted + r.emitted)
  }

  /** Completion: from a running session with a timer pending, the
      remaining characters are typed in index order, one per firing, and
      one more firing ends the session, keeping its text and resetting the
      index to 0. */
  lemma {:induction false} FiringRunsToCompletion(s: Session)
    requires Inv(s) && s.pending
    ensures FireN(s, |s.text| - s.currentIndex + 1) ==
              Outcome(s.(isTyping := false, currentIndex := 0, pending := false), s.text[s.currentIndex..])
    decreases |s.text| - s.currentIndex
  {
    var o := Fire(s, true);
    if s.currentIndex < |s.text| {
      FiringRunsToCompletion(o.next);
      assert [s.text[s.currentIndex]] + s.text[s.currentIndex + 1..] == s.text[s.currentIndex..];
    }
  }

  /** A start with the editor present, followed by as many firings as the
      text has characters, types exactly the text, in order, and leaves
      the session finished: not typing, not paused, no timer, index 0, the
      text and speed kept. */
  lemma StartTypesWholeText(s: Session, text: string, wpm: int)
    ensures var o := Start(s, text, wpm, true);
            var r := FireN(o.next, |text|);
            o.emitted + r.emitted == text && r.next == Session(false, false, text, 0, wpm, false)
  {
    var o := Start(s, text, wpm, true);
    if text != [] {
      FiringRunsToCompletion(o.next);
      assert [text[0]] + text[1..] == text;
    }
  }

  /** The two start quirks: a start that finds no editor leaves everything
      as it was, a running session and its timer included; a start that
      finds one discards the previous session entirely and types the first
      character at once. */
  lemma StartSupersedes(s: Session, s': Session, text: string, wpm: int)
    ensures Start(s, text, wpm, false) == Outcome(s, [])
    ensures Start(s, text, wpm, true) == Start(s', text, wpm, true)
    ensures text != [] ==> Start(s, text, wpm, true).emitted == [text[0]]
  {
  }

  /** Stop is total: after it, no event but a new start emits anything,
      and no session runs. */
  lemma {:induction false} StoppedSessionStaysSilent(s: Session, es: seq<Event>)
    requires Inv(s) && !s.isTyping
    requires forall k | 0 <= k < |es| :: !es[k].StartEv?
    ensures Run(s, es).emitted == [] && !Run(s, es).next.isTyping
    decreases |es|
  {
    if es != [] {
      var o := Apply(s, es[0]);
      assert o.emitted == [] && !o.next.isTyping && Inv(o.next);
      StoppedSessionStaysSilent(o.next, es[1..]);
    }
  }

  /** A paused session does not move: timers cannot fire (none is
      pending) and further pauses are no-ops, so only resume, stop or a
      new start can change it. */
  lemma {:induction false} PausedSessionStaysSilent(s: Session, es: seq<Event>)
    requires Inv(s) && s.isPaused
    requires forall k | 0 <= k < |es| :: es[k].FireEv? || es[k].PauseEv?
    ensures Run(s, es) == Outcome(s, [])
    decreases |es|
  {
    if es != [] {
      assert Apply(s, es[0]) == Outcome(s, []);
      PausedSessionStaysSilent(s, es[1..]);
    }
  }

  /** Pausing twice is pausing once, resuming what is not paused does
      nothing, and a pause cancels the timer. */
  lemma PauseResumeIdempotent(s: Session, editorFound: bool)
    requires Inv(s)
    ensures Pause(Pause(s)) == Pause(s)
    ensures !s.isPaused ==> Resume(s, editorFound) == Outcome(s, [])
    ensures s.isTyping ==> Pause(s).isPaused && !Pause(s).pending
  {
  }

  /** The dead session: when the editor disappears mid-session, the step
      emits nothing and schedules nothing, the session still reports
      typing at the same index, and no later timer can revive it. */
  lemma MissingEditorStallsSession(s: Session)
    requires Inv(s) && s.pending && s.currentIndex < |s.text|
    ensures var o := Fire(s, false);
            o.emitted == [] && o.next == s.(pending := false) && o.next.isTyping && !o.next.pending
    ensures forall e: Event | e.FireEv? :: Apply(Fire(s, false).next, e) == Outcome(Fire(s, false).next, [])
  {
  }

  /** The replies of the message handler. */
  datatype Response =
    | Pong(timestamp: int)
    | Success
    | Failure(error: string)
    | TypingStatus(isTyping: bool)

  const NoEditorError: string :=
    "Could not find Google Docs editor. Please make sure you are on a Google Docs page."
  const UnknownActionError: string := "Unknown action"
  const Actions: set<string> := {"ping", "start", "pause", "resume", "stop", "status"}

  datatype Handled = Handled(next: Session, emitted: string, response: Response)

  /** The message listener's switch on `request.action`. */
  function Dispatch(s: Session, action: string, text: string, wpm: int, editorFound: bool, now: int): (h: Handled)
    ensures action !in Actions ==> h == Handled(s, [], Failure(UnknownActionError))
    ensures action == "status" ==> h == Handled(s, [], TypingStatus(s.isTyping))
    ensures action == "ping" ==> h == Handled(s, [], Pong(now))
    ensures h.response.Failure? ==> h.next == s && h.emitted == []
    ensures action in Actions - {"ping", "status"} ==>
              (h.response.Failure? <==> action == "start" && !editorFound)
  {
    if action == "ping" then Handled(s, [], Pong(now))
    else if action == "start" then
      var o := Start(s, text, wpm, editorFound);
      Handled(o.next, o.emitted, if editorFound then Success else Failure(NoEditorError))
    else if action == "pause" then Handled(Pause(s), [], Success)
    else if action == "resume" then
      var o := Resume(s, editorFound);
      Handled(o.next, o.emitted, Success)
    else if action == "stop" then Handled(Idle, [], Success)
    else if action == "status" then Handled(s, [], TypingStatus(s.isTyping))
    else Handled(s, [], Failure(UnknownActionError))
  }
}
