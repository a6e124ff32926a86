/** The popup's rules: the input sanitiser, the start-button validation,
    the document-URL gate, the button table and what the popup does with
    the reply to a start message. */
module Popup {
  import opened Wrappers
  import SessionSpec

  const MaxChars: nat := 1000
  const DocsUrlPrefix: string := "https://docs.google.com/document/"

  const ErrEmpty: string := "Please enter some text."
  const ErrTooLong: string := "Maximum 1000 characters allowed."
  const ErrLineBreak: string := "No line breaks allowed."
  const ErrNotDocs: string := "Please use this extension on a Google Docs page."
  const ErrNoContact: string :=
    "Could not communicate with content script. Please refresh the page and try again."

  /** `value.replace(/\n/g, ' ')`. */
  function ReplaceNewlines(value: string): (r: string)
    ensures |r| == |value| && '\n' !in r
    ensures forall i | 0 <= i < |value| :: r[i] == if value[i] == '\n' then ' ' else value[i]
    decreases |value|
  {
    if value == [] then []
    else [if value[0] == '\n' then ' ' else value[0]] + ReplaceNewlines(value[1..])
  }

  /** The value the input listener leaves in the text box. */
  function Sanitize(value: string): (r: string)
    ensures |value| > MaxChars ==> r == value[..MaxChars]
    ensures |value| <= MaxChars ==> r == ReplaceNewlines(value)
    ensures |value| <= MaxChars ==> '\n' !in r && |r| == |value|
    ensures |value| <= MaxChars && '\n' !in value ==> r == value
    ensures |r| <= MaxChars
  {
    if |value| > MaxChars then value[..MaxChars]
    else if '\n' in value then ReplaceNewlines(value)
    else value
  }

  /** The message the input listener shows; `None` clears it. */
  function SanitizeMessage(value: string): Option<string>
  {
    if |value| > MaxChars then Some(ErrTooLong)
    else if '\n' in value then Some(ErrLineBreak)
    else None
  }

  /** A truncated value may still hold line breaks; the next input event
      removes them, after which the value is stable. */
  lemma SanitizeSettles(value: string)
    ensures '\n' !in Sanitize(Sanitize(value)) && |Sanitize(Sanitize(value))| <= MaxChars
    ensures Sanitize(Sanitize(Sanitize(value))) == Sanitize(Sanitize(value))
    ensures SanitizeMessage(Sanitize(Sanitize(value))).None?
  {
  }

  /** The start button's checks, in order: empty, too long, line breaks.
      `None` lets the start go ahead. */
  function StartError(text: string): (r: Option<string>)
    ensures r.None? <==> text != [] && |text| <= MaxChars && '\n' !in text
    ensures text == [] ==> r == Some(ErrEmpty)
    ensures text != [] && |text| > MaxChars ==> r == Some(ErrTooLong)
    ensures text != [] && |text| <= MaxChars && '\n' in text ==> r == Some(ErrLineBreak)
  {
    if text == [] then Some(ErrEmpty)
    else if |text| > MaxChars then Some(ErrTooLong)
    else if '\n' in text then Some(ErrLineBreak)
    else None
  }

  /** Whether the active tab's URL is a Google Docs document; a tab with
      no URL fails. */
  function IsDocsUrl(url: Option<string>): (ok: bool)
    ensures ok <==> url.Some? && |url.value| >= |DocsUrlPrefix| && url.value[..|DocsUrlPrefix|] == DocsUrlPrefix
  {
    url.Some? && DocsUrlPrefix <= url.value
  }

  datatype ButtonState = Idle | Typing | Paused

  /** Which buttons are disabled. */
  datatype Buttons = Buttons(start: bool, pause: bool, resume: bool, stop: bool)

  /** `setButtons`' table of disabled flags. */
  function ButtonsFor(state: ButtonState): (b: Buttons)
    ensures !b.start <==> state == Idle
    ensures !b.pause <==> state == Typing
    ensures !b.resume <==> state == Paused
    ensures !b.stop <==> state != Idle
    ensures (!b.start && b.pause && b.resume) || (b.start && !b.pause && b.resume) || (b.start && b.pause && !b.resume)
  {
    match state
    case Idle => Buttons(false, true, true, true)
    case Typing => Buttons(true, false, true, false)
    case Paused => Buttons(true, true, false, false)
  }

  /** What the popup reacts to: the text box, the error line and the four
      buttons' `disabled` flags. */
  class PopupView {
    var inputValue: string
    var errorText: string
    var startDisabled: bool
    var pauseDisabled: bool
    var resumeDisabled: bool
    var stopDisabled: bool

    function Disabled(): Buttons
      reads this
    {
      Buttons(startDisabled, pauseDisabled, resumeDisabled, stopDisabled)
    }

    /** The popup as it opens: `setButtons('idle')`. */
    constructor ()
      ensures inputValue == "" && errorText == "" && Disabled() == ButtonsFor(Idle)
    {
      inputValue := "";
      errorText := "";
      startDisabled, pauseDisabled, resumeDisabled, stopDisabled := false, true, true, true;
    }

    /** `setButtons(state)`. */
    method SetButtons(state: ButtonState)
      modifies this`startDisabled, this`pauseDisabled, this`resumeDisabled, this`stopDisabled
      ensures Disabled() == ButtonsFor(state)
    {
      match state
      case Idle =>
        startDisabled, pauseDisabled, resumeDisabled, stopDisabled := false, true, true, true;
      case Typing =>
        startDisabled, pauseDisabled, resumeDisabled, stopDisabled := true, false, true, false;
      case Paused =>
        startDisabled, pauseDisabled, resumeDisabled, stopDisabled := true, true, false, false;
    }

    /** The text box's input listener. */
    method OnInput()
      modifies this`inputValue, this`errorText
      ensures inputValue == Sanitize(old(inputValue))
      ensures errorText == match SanitizeMessage(old(inputValue))
                           case Some(m) => m
                           case None => ""
    {
      if |inputValue| > MaxChars {
        errorText := ErrTooLong;
        inputValue := inputValue[..MaxChars];
      } else if '\n' in inputValue {
        errorText := ErrLineBreak;
        inputValue := ReplaceNewlines(inputValue);
      } else {
        errorText := "";
      }
    }

    /** The start button: clear the error, validate the text, check the
        tab's URL, and send the text (the result) only when both pass. */
    method ClickStart(tabUrl: Option<string>) returns (sent: Option<string>)
      modifies this`errorText
      ensures sent.Some? <==> StartError(inputValue).None? && IsDocsUrl(tabUrl)
      ensures sent.Some? ==> sent.value == inputValue && errorText == ""
      ensures StartError(inputValue).Some? ==> errorText == StartError(inputValue).value
      ensures StartError(inputValue).None? && !IsDocsUrl(tabUrl) ==> errorText == ErrNotDocs
    {
      errorText := "";
      var error := StartError(inputValue);
      if error.Some? {
        errorText := error.value;
        return None;
      }
      if !IsDocsUrl(tabUrl) {
        errorText := ErrNotDocs;
        return None;
      }
      sent := Some(inputValue);
    }

    /** The reply to the start message: a transport error or an error
        reply is shown; anything else switches the buttons to typing and
        empties the text box. */
    method OnStartResponse(lastError: bool, response: Option<SessionSpec.Response>)
      modifies this
      ensures var rejected := !lastError && response.Some? && response.value.Failure? && response.value.error != "";
              if lastError then
                errorText == ErrNoContact && inputValue == old(inputValue) && Disabled() == old(Disabled())
              else if rejected then
                errorText == response.value.error && inputValue == old(inputValue) && Disabled() == old(Disabled())
              else
                Disabled() == ButtonsFor(Typing) && inputValue == "" && errorText == old(errorText)
    {
      if lastError {
        errorText := ErrNoContact;
        return;
      }
      if response.Some? && response.value.Failure? && response.value.error != "" {
        errorText := response.value.error;
        return;
      }
      SetButtons(Typing);
      inputValue := "";
    }
  }
}
