/**
 * The chat window's input box (src/components/chat/ChatInput.tsx): a text
 * field whose trimmed content is sent on submit, unless it is blank or the
 * box is disabled.
 */
module ChatInput {
  import opened Common
  import opened Text

  /** `handleSubmit`: the text handed to `onSendMessage`, if any, and the
      field's new content. `blocked` is the `disabled` prop. */
  function SubmitMessage(message: string, blocked: bool): (r: (Option<string>, string))
    ensures r.0.Some? <==> !IsBlank(message) && !blocked
    ensures r.0.Some? ==> r.0.value == Trim(message) && r.1 == ""
    ensures r.0.None? ==> r.1 == message
  {
    var trimmedMessage := Trim(message);
    if trimmedMessage != "" && !blocked then (Some(trimmedMessage), "") else (None, message)
  }

  /** What is sent is never empty and never starts or ends with whitespace,
      and surrounding whitespace typed by the user never changes it. */
  lemma SentTextIsTrimmed(message: string, blocked: bool)
    requires SubmitMessage(message, blocked).0.Some?
    ensures var sent := SubmitMessage(message, blocked).0.value;
      sent != "" && !IsSpace(sent[0]) && !IsSpace(sent[|sent| - 1]) && Trim(sent) == sent
  {
    TrimIsOuterSlice(message);
    TrimIdempotent(message);
  }

  /** `handleKeyDown`: Enter without Shift submits; every other key leaves
      the field to the browser. */
  function KeyDown(key: string, shiftKey: bool, message: string, blocked: bool): (r: (Option<string>, string))
    ensures key == "Enter" && !shiftKey ==> r == SubmitMessage(message, blocked)
    ensures key != "Enter" || shiftKey ==> r == (None, message)
  {
    if key == "Enter" && !shiftKey then SubmitMessage(message, blocked) else (None, message)
  }

  /** The send button's `disabled` attribute. */
  function SendButtonDisabled(message: string, blocked: bool): (r: bool)
    ensures r <==> IsBlank(message) || blocked
  {
    Trim(message) == "" || blocked
  }

  /** The button is enabled exactly when pressing it sends something. */
  lemma ButtonEnabledIffSubmitSends(message: string, blocked: bool)
    ensures !SendButtonDisabled(message, blocked) <==> SubmitMessage(message, blocked).0.Some?
  {
  }

  /** The component's field, updated in place. */
  class ChatInputBox {
    var message: string

    constructor ()
      ensures message == ""
    {
      message := "";
    }

    /** The textarea's `onChange`. */
    method HandleChange(value: string)
      modifies this
      ensures message == value
    {
      message := value;
    }

    /** `handleSubmit` with the `disabled` prop `blocked`. */
    method HandleSubmit(blocked: bool) returns (sent: Option<string>)
      modifies this
      ensures (sent, message) == SubmitMessage(old(message), blocked)
    {
      sent := None;
      var trimmedMessage := Trim(message);
      if trimmedMessage != "" && !blocked {
        sent := Some(trimmedMessage);
        message := "";
      }
    }

    /** `handleKeyDown`. */
    method HandleKeyDown(key: string, shiftKey: bool, blocked: bool) returns (sent: Option<string>)
      modifies this
      ensures (sent, message) == KeyDown(key, shiftKey, old(message), blocked)
    {
      sent := None;
      if key == "Enter" && !shiftKey {
        sent := HandleSubmit(blocked);
      }
    }
  }
}
