/**
 * The terminal (src/components/terminal/Terminal.tsx): an initial message
 * typed out by the typewriter, then an input line that sends its trimmed
 * content unless it is blank or a reply is loading.
 */
module Terminal {
  import opened Common
  import opened Text
  import opened Typewriter
  import ChatInput

  /** `handleSubmit`: the text handed to `onSendMessage`, if any, and the
      input's new content. It is the chat input's guard with `isLoading` in
      the place of `disabled`. */
  function SubmitInput(input: string, isLoading: bool): (r: (Option<string>, string))
    ensures r.0.Some? <==> !IsBlank(input) && !isLoading
    ensures r.0.Some? ==> r.0.value == Trim(input) && r.1 == ""
    ensures r.0.None? ==> r.1 == input
  {
    ChatInput.SubmitMessage(input, isLoading)
  }

  /** The input line is rendered only once the welcome message is typed. */
  function InputFormShown(typewriter: TypewriterState): (shown: bool)
    ensures shown <==> typewriter.isDone
  {
    typewriter.isDone
  }

  /** No input line before the initial message has been typed. An empty
      message is done as soon as the start delay ends; any other needs one
      tick per character plus one after it. */
  lemma InputFormAppearsWhenTyped(initialMessage: string)
    ensures !InputFormShown(Reset(initialMessage))
    ensures initialMessage == "" <==> InputFormShown(Start(Reset(initialMessage)))
    ensures InputFormShown(Ticks(Start(Reset(initialMessage)), |initialMessage| + 1))
  {
    if initialMessage == "" {
      StoppedStaysPut(Start(Reset(initialMessage)), 1);
    } else {
      TypesWholeText(initialMessage);
    }
  }

  /** The terminal's input line, updated in place. */
  class TerminalInput {
    var input: string

    constructor ()
      ensures input == ""
    {
      input := "";
    }

    /** The input's `onChange`. */
    method HandleChange(value: string)
      modifies this
      ensures input == value
    {
      input := value;
    }

    /** `handleSubmit` while the chat is loading or not. */
    method HandleSubmit(isLoading: bool) returns (sent: Option<string>)
      modifies this
      ensures (sent, input) == SubmitInput(old(input), isLoading)
    {
      sent := None;
      if Trim(input) != "" && !isLoading {
        sent := Some(Trim(input));
        input := "";
      }
    }
  }
}
