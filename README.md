# Character-by-character typing extension: a verified model of its core

This project models the core of a browser extension that types a text into a
Google Docs document one character at a time, as if a person were typing it.
The model covers:

- **The typing session** of the content script (`content.js`): the mutable
  `typingState` record (`isTyping`, `isPaused`, `text`, `currentIndex`, `wpm`,
  `timeoutId`) and the five operations that change it: start, the
  timer-driven next-character step, pause, resume and stop.
- **The message listener** that exposes those operations to the popup, and
  the guard that makes a second load of the script a no-op.
- **The editor locator** (`findGoogleDocsEditor`): an ordered search over
  nine selectors, then over contenteditable elements, then a size-blind last
  resort.
- **One keystroke's effect**: where `focusEditor` puts the caret, how
  `typeCharacter` changes the editor's text, and the `code` of the synthetic
  keyboard events.
- **The popup's rules** (`popup.js`): the input sanitiser, the ordered start
  validation, the document-URL gate, the button table, and how the popup
  handles the reply to a start message.

Modules:

- `EditorLocator` (`editor_locator.dfy`): the page is abstracted to what
  `querySelectorAll` answers for each selector, with each element's
  `offsetWidth`/`offsetHeight`. `FindGoogleDocsEditor` is the nested loop
  with early returns. It is proved equal to the specification function
  `Locate`, and lemmas characterise `Locate` as a first-match search.
- `Keystroke` (`keystroke.dfy`): the caret choice over the editor's
  children, and the class `EditorSurface` (text plus selection range) whose
  `TypeCharacter` method is proved against the pure `TypeChar`.
- `SessionSpec` (`session_spec.dfy`): the session as a value, and each
  operation as a pure transition that returns the new session plus the
  characters it typed. This module holds the invariant, completion, stop,
  pause and dead-session lemmas, and the message switch `Dispatch`.
- `TypingEngine` (`typing_engine.dfy`): the class `TypingSession`, holding
  the source's fields, a `pending` flag for the timer and a `log` of every
  character handed to `typeCharacter`. Each method follows the source's
  statements, except that `Start` does not repeat the `focusEditor` call:
  the caret placement it performs is modelled separately in `Keystroke`.
  Each method is proved to keep `Valid()`, and to produce exactly the
  `SessionSpec` transition of the old state. `Valid()` means three things:
  the invariant holds, the index stays within the text, and the log of the
  current session equals the text up to the index while the session runs,
  and the whole text once it has completed (when the index is back at 0).
  `PageWindow` holds the double-load guard.
- `Popup` (`popup.dfy`): pure rules and the class `PopupView` with the text
  box, the error line and the four buttons' `disabled` flags.
- `Wrappers` (`wrappers.dfy`): `Option`.

How the environment is represented:

- The timer is the boolean `pending`. `setTimeout` sets it. `clearTimeout`
  and the timer firing clear it. `TypingSession.Fire` requires it to be set.
- Whether an editor exists is decided by the document argument `doc`. The
  locator searches it again at every point where the source calls
  `findGoogleDocsEditor`.
- The ping timestamp (`Date.now()`) is the parameter `now`.

Behaviour modelled exactly as the code has it:

- **A failed start leaves the old session running.** A start that finds no
  editor returns the error before `stopTyping()` is reached. The previous
  session, with its pending timer, keeps running (`content.js:275-284`).
- **The first character is typed at once.** A successful start types it
  synchronously. An empty text completes at once (`content.js:302`).
- **Running at the end of the text.** After the last character, the session
  still reports `isTyping` with `currentIndex == |text|` and a timer
  pending. Only the next firing ends it.
- **Completion keeps the text.** Completion resets `currentIndex` to 0 but
  keeps `text` and `wpm` (`content.js:249-250`).
- **Stop resets `wpm`.** Stop puts `wpm` back to 60 (`content.js:336`).
- **Start does not validate its text.** The content script does no length
  or line-break check of its own. Only the popup checks.
- **The contenteditable pass never finds anything.** Its selector is already
  the sixth selector of the first pass. `LocateFallback` proves that this
  pass always comes up empty.
- **A dead session cannot restart itself.** When the editor disappears
  mid-session, the session stalls: it still reports typing, and no timer is
  pending. Only pause then resume, stop, or a new start moves it again.

## Model

| member | source | states |
|---|---|---|
| `EditorLocator.FirstVisibleAt` | content.js:38-44 | the result is the position of the first element wider and taller than 100 pixels, with every earlier one hidden; None only when no element is visible |
| `EditorLocator.SearchFrom` | content.js:35-45 | a first-pass hit is the first visible element of its selector, and every selector before it has no visible element |
| `EditorLocator.SearchFromNone` | content.js:35-45 | the first pass comes up empty exactly when every element of every selector is hidden |
| `EditorLocator.LocateFirstPass` | content.js:35-45 | if selectors before `i` have no visible element and `k` is the first visible element of selector `i`, that element is the editor (selector order, then document order) |
| `EditorLocator.LocateFallback` | content.js:47-66 | when the first pass fails, the contenteditable pass finds nothing, and the result is the first `.kix-appview-editor` whatever its size (then hidden), else null |
| `EditorLocator.LocateNoneIff` | content.js:58-66 | null exactly when no examined element is visible and no `.kix-appview-editor` exists |
| `EditorLocator.LocateSound` | content.js:19-67 | a located editor is either visible and matched by one of the selectors, or the first `.kix-appview-editor` after a failed first pass |
| `EditorLocator.ScanForVisible` | content.js:38-44 | the inner loop returns the first visible position, as `FirstVisibleAt` |
| `EditorLocator.FindGoogleDocsEditor` | content.js:19-67 | the loops with early return compute exactly `Locate` |
| `Keystroke.CaretPlacedAtEnd` | content.js:96-108 | the boundary `focusEditor` picks (end of last text node, after last other node, offset 0 of an empty editor) is valid and lies at the end of the editor's text |
| `Keystroke.EditorSurface.FocusEditor` | content.js:89-111 | the selection range is replaced by one at the end of the text, and the text is unchanged |
| `Keystroke.TypeChar` | content.js:164-190 | one keystroke inserts the character at the caret (at the end when there is no range), keeps the text before and after it, and leaves the caret just after it |
| `Keystroke.TypeStringInserts` | content.js:164-190 | successive keystrokes insert the whole string at the caret, in order, and move the caret past it; without a range they append it |
| `Keystroke.EditorSurface.TypeCharacter` | content.js:164-190 | the in-place update of text and range is exactly `TypeChar` |
| `Keystroke.KeyCode` | content.js:199 | the code is "Key" followed by the key, upper-cased when it is one lower-case letter |
| `Keystroke.KeyEventFor` | content.js:196-205 | the events carry the character as `key`, the character's number as `keyCode` (a code point in the model, see "Left out") and `KeyCode` of the character as `code` |
| `Keystroke.KeyCodeIgnoresCase` | content.js:199 | a letter gets the same code in either case |
| `SessionSpec.ApplyPreservesInvariant` | content.js:237-339 | every operation keeps: paused implies typing; paused implies no timer; a timer implies typing; index within the text; index 0 when idle; the session's emissions equal the text up to the index (all of it once complete) |
| `SessionSpec.RunPreservesInvariant` | content.js:237-339 | the invariant holds after any sequence of starts, timer firings, pauses, resumes and stops |
| `SessionSpec.FiringRunsToCompletion` | content.js:246-268 | from a running session with a timer pending, each firing types the next character in index order, and one more firing ends the session, index 0, text kept |
| `SessionSpec.StartTypesWholeText` | content.js:284-302 | a start with an editor, then one firing per character, types exactly the text and ends not typing, not paused, no timer, index 0, text and wpm kept |
| `SessionSpec.StartSupersedes` | content.js:275-304 | a start without an editor changes nothing; a start with one does not depend on the previous session and types the first character at once |
| `SessionSpec.StoppedSessionStaysSilent` | content.js:327-339 | once no session runs, no sequence of events without a start emits anything or starts a session |
| `SessionSpec.PausedSessionStaysSilent` | content.js:308-316 | a paused session is unchanged and silent under further pauses and timer firings |
| `SessionSpec.PauseResumeIdempotent` | content.js:308-324 | pausing twice equals pausing once; resume on an unpaused session does nothing; a pause cancels the timer |
| `SessionSpec.MissingEditorStallsSession` | content.js:254-258 | a step with the editor gone emits nothing, schedules nothing, keeps typing at the same index, and no timer can revive the session |
| `SessionSpec.Dispatch` | content.js:345-377 | unknown actions get "Unknown action" and change nothing; status and ping are read-only; every error reply leaves the session unchanged; among the other actions only a start without an editor fails |
| `TypingEngine.TypingSession.constructor` | content.js:9-16 | the state at load is idle, wpm 60, no timer, nothing typed |
| `TypingEngine.TypingSession.TypeNextCharacter` | content.js:238-269 | keeps `Valid()`; the new state and the typed characters are exactly the `Step` transition |
| `TypingEngine.TypingSession.Fire` | content.js:268 | a firing timer is no longer pending and runs one step |
| `TypingEngine.TypingSession.Start` | content.js:272-305 | returns the error with the state untouched when no editor is found; otherwise stops, installs the fresh session, runs the first step and returns success |
| `TypingEngine.TypingSession.Pause` | content.js:308-316 | the state becomes `Pause` of the old state, and nothing is typed |
| `TypingEngine.TypingSession.Resume` | content.js:319-324 | the state and typed characters are exactly the `Resume` transition |
| `TypingEngine.TypingSession.Stop` | content.js:327-339 | from any state: no timer, idle, empty text, index 0, wpm 60 |
| `TypingEngine.TypingSession.Status` | content.js:371-373 | reports `isTyping` and changes nothing |
| `TypingEngine.TypingSession.HandleMessage` | content.js:342-380 | the reply, new state and typed characters are exactly `Dispatch` |
| `TypingEngine.PageWindow.LoadContentScript` | content.js:4-16 | a second load changes nothing; the first sets the flag and creates an idle session |
| `Popup.ReplaceNewlines` | popup.js:28 | same length, no line break left, every line break replaced by a space and every other character kept |
| `Popup.Sanitize` | popup.js:22-32 | longer than 1000: the first 1000 characters, line breaks kept; otherwise every line break becomes a space and every other character is kept (`ReplaceNewlines`); never more than 1000 characters |
| `Popup.SanitizeSettles` | popup.js:22-32 | the listener's rule applied to its own output twice gives a value without line breaks, within the limit, that the rule then leaves unchanged (a real input event follows only a user edit, so this is about the rule, not about event sequences) |
| `Popup.PopupView.OnInput` | popup.js:22-32 | the text box becomes `Sanitize` of its value, with the matching error message or a cleared one |
| `Popup.StartError` | popup.js:59-70 | the start proceeds exactly for non-empty text of at most 1000 characters without line breaks; otherwise the first failing check, in the order empty, too long, line break, names the error |
| `Popup.IsDocsUrl` | popup.js:79-82 | passes exactly when the tab has a URL that begins with `https://docs.google.com/document/` |
| `Popup.PopupView.ClickStart` | popup.js:56-88 | the text is sent exactly when validation and the URL gate pass; otherwise the first error is shown |
| `Popup.ButtonsFor` | popup.js:34-52 | Start enabled only when idle, Pause only when typing, Resume only when paused, Stop exactly when not idle; exactly one of Start, Pause and Resume is enabled |
| `Popup.PopupView.SetButtons` | popup.js:34-52 | the four `disabled` flags become `ButtonsFor(state)` |
| `Popup.PopupView.constructor` | popup.js:54 | the popup opens with the idle button table and an empty text box |
| `Popup.PopupView.OnStartResponse` | popup.js:93-103 | a transport error or a non-empty `error` reply is shown and changes nothing else; only otherwise do the buttons switch to typing and the text box empty |

## Left out

- `calculateDelay` (content.js:70-79) is not modelled. It uses floating point and `Math.random()`; the model has no time, only the order of events.
- Real timers are left out. `setTimeout`/`clearTimeout` are the `pending` flag, and the old `timeoutId` left behind after a timer fires is not modelled (`clearTimeout` on it does nothing).
- Event dispatch is left out: the `InputEvent`, `KeyboardEvent` and `MouseEvent` objects, `dispatchEvent`, `focus()` and `getBoundingClientRect`. How the host page reacts to them is not in this code.
- Keystroke.TypeChar: models one text surface. The source can insert through a range that is anywhere in the page, and can append to `.kix-lineview-content` or the first contenteditable rather than to the editor. The model also leaves out the `try`/`catch`, because the modelled text effect cannot fail.
- Keystroke.KeyCode: upper-cases ASCII letters only. JavaScript's `toUpperCase` also maps other letters, and some of them to two characters.
- TypingEngine.TypingSession.TypeNextCharacter: the characters it types go to `log`, not to an `EditorSurface`. The link between the located element and the surface it types into is not modelled.
- TypingEngine.TypingSession.TypeNextCharacter: requires that no timer is pending. The source only calls it from start (after a stop), from resume (paused, so no timer) and from its own timer.
- TypingEngine.TypingSession.Start: the second editor lookup inside the first step searches the same `doc`, so it succeeds whenever the first did. A page that changes between the two lookups is not modelled.
- Text is modelled as a sequence of Unicode code points, while the source counts and indexes UTF-16 code units. A character outside the Basic Multilingual Plane (an emoji, say) is one element in the model and two code units in the source. The lines below name what this changes.
- Popup.Sanitize: counts the 1000-character limit in code points; the source counts UTF-16 code units, so an emoji counts twice there, and `slice(0, 1000)` can cut a surrogate pair in half.
- Popup.StartError: the length check counts code points; the source's `text.length` counts UTF-16 code units, so text of more than 500 emoji is refused there and accepted here.
- Keystroke.KeyEventFor: `keyCode` is the character's code point; the source's `charCodeAt(0)` gives the first UTF-16 code unit (0xD83D for U+1F600).
- SessionSpec.Step: types one code point per step; the source indexes `text[currentIndex]` by UTF-16 code unit, so it types an emoji in two steps, one lone surrogate per step, and its `currentIndex` counts code units.
- `wpm` is an unbounded integer. `parseInt` returning `NaN`, and non-positive speeds, are not modelled.
- Missing `text` or `wpm` fields in a start message are not modelled.
- `setButtons` with a string other than `idle`, `typing` or `paused` is not modelled; nothing calls it that way.
- Chrome messaging is left out: `chrome.runtime.onMessage`, `chrome.tabs.query`/`sendMessage`, and the popup's status polling and its pause, resume and stop buttons (popup.js:104-121, 124-145).
- The speed slider's label (popup.js:18-20) is not modelled.
- background.js is not part of this model. It only injects the content script.
- Console logging and the self-test run on `load` (content.js:382-395) are left out.
