/**
 * The `useChat` hook (src/hooks/useChat.ts): a transcript of messages with a
 * loading flag and an error, a frontend keyword guardrail, and a send that
 * appends the user's message and then exactly one assistant reply.
 *
 * The asynchronous send is split at its `await`: `Submit` is the part that
 * runs synchronously and yields the request thread, `Reply` is the
 * continuation once the backend call has settled, with the outcome of that
 * call passed in.
 */
module UseChat {
  import opened Common
  import opened Text
  import opened ChatMessage

  const InappropriateTerms: seq<string> := ["inappropriate", "offensive", "slur", "vulgar", "explicit"]
  const RefusalText := "I can't respond to that type of message. Let's keep the conversation professional."
  const SendFailedError := "Failed to send message. Please try again."
  const ApologyText := "Sorry, I encountered an error processing your request. Please try again."

  /** `filterMessage`: whether the input may be sent, and the text to use —
      the input itself, or the refusal. */
  function FilterMessage(message: string): (r: (bool, string))
    ensures r.0 <==> !MentionsAny(Lower(message), InappropriateTerms)
    ensures r.0 ==> r.1 == message
    ensures !r.0 ==> r.1 == RefusalText
  {
    if MentionsAny(Lower(message), InappropriateTerms) then (false, RefusalText) else (true, message)
  }

  /** Case never decides whether a message is refused. */
  lemma FilterIgnoresCase(message: string)
    ensures FilterMessage(Upper(message)).0 == FilterMessage(message).0
  {
    LowerOfUpper(message);
  }

  /** The state the hook keeps between renders. */
  datatype ChatState = ChatState(messages: seq<Message>, isLoading: bool, error: Option<string>)

  /** How the backend call ended: the JSON body of a 2xx response, or a
      failure (a rejected fetch, a non-OK status or an unreadable body). */
  datatype ChatOutcome =
    | Replied(assistantMessage: string, navTarget: Option<string>)
    | Failed

  /** The synchronous part of `sendMessage`: the new state, and the thread
      sent to the backend when a request is made. */
  function Submit(s: ChatState, userInput: string): (r: (ChatState, Option<seq<Message>>))
    ensures IsBlank(userInput) ==> r == (s, None)
    ensures !IsBlank(userInput) && !FilterMessage(userInput).0 ==>
      r == (ChatState(s.messages + [Message(User, userInput)] + [Message(Assistant, RefusalText)], false, None), None)
    ensures !IsBlank(userInput) && FilterMessage(userInput).0 ==>
      r == (ChatState(s.messages + [Message(User, userInput)], true, None), Some(s.messages + [Message(User, userInput)]))
  {
    if IsBlank(userInput) then (s, None)
    else
      var userMessage := Message(User, userInput);
      var sent := s.messages + [userMessage];
      var filtered := FilterMessage(userInput);
      if !filtered.0 then
        (ChatState(sent + [Message(Assistant, filtered.1)], false, None), None)
      else
        (ChatState(sent, true, None), Some(sent))
  }

  /** The continuation of `sendMessage` after the backend call: the new state,
      and the section `onNavigate` is called with, if it is called. */
  function Reply(s: ChatState, outcome: ChatOutcome, hasOnNavigate: bool): (r: (ChatState, Option<string>))
    ensures !r.0.isLoading
    ensures |r.0.messages| == |s.messages| + 1 && r.0.messages[..|s.messages|] == s.messages
    ensures r.0.messages[|s.messages|].role == Assistant
    ensures outcome.Replied? ==>
      r.0.messages[|s.messages|].content == outcome.assistantMessage && r.0.error == s.error
    ensures outcome.Failed? ==>
      r.0.messages[|s.messages|].content == ApologyText && r.0.error == Some(SendFailedError) && r.1 == None
    ensures r.1.Some? <==>
      outcome.Replied? && outcome.navTarget.Some? && outcome.navTarget.value != "" && hasOnNavigate
    ensures r.1.Some? ==> r.1 == outcome.navTarget
  {
    match outcome
    case Replied(assistantMessage, navTarget) =>
      var next := ChatState(s.messages + [Message(Assistant, assistantMessage)], false, s.error);
      var navigate := if navTarget.Some? && navTarget.value != "" && hasOnNavigate then navTarget else None;
      (next, navigate)
    case Failed =>
      (ChatState(s.messages + [Message(Assistant, ApologyText)], false, Some(SendFailedError)), None)
  }

  /** `clearMessages`. */
  function Clear(s: ChatState): (r: ChatState)
    ensures r.messages == [] && r.error == None && r.isLoading == s.isLoading
  {
    ChatState([], s.isLoading, None)
  }

  /** A whole send, whatever the backend does: a non-blank input adds exactly
      two messages, the user's input and then one assistant reply, and
      leaves the hook idle. A blank input changes nothing. */
  lemma SendAddsUserThenAssistant(s: ChatState, userInput: string, outcome: ChatOutcome, hasOnNavigate: bool)
    requires !IsBlank(userInput)
    ensures var r := Submit(s, userInput);
      var done := if r.1.Some? then Reply(r.0, outcome, hasOnNavigate).0 else r.0;
      |done.messages| == |s.messages| + 2
      && done.messages[..|s.messages| + 1] == s.messages + [Message(User, userInput)]
      && done.messages[|s.messages| + 1].role == Assistant
      && !done.isLoading
  {
    var r := Submit(s, userInput);
    var sent := s.messages + [Message(User, userInput)];
    if FilterMessage(userInput).0 {
      assert r.0.messages == sent;
      ReplyKeepsThread(r.0, outcome, hasOnNavigate);
    } else {
      assert r.0.messages[..|sent|] == sent;
    }
  }

  lemma ReplyKeepsThread(t: ChatState, outcome: ChatOutcome, hasOnNavigate: bool)
    ensures Reply(t, outcome, hasOnNavigate).0.messages[..|t.messages|] == t.messages
  {
  }

  /** A refused input never reaches the backend, and its reply is the refusal. */
  lemma RefusedInputMakesNoRequest(s: ChatState, userInput: string, k: nat)
    requires k < |InappropriateTerms| && Contains(Lower(userInput), InappropriateTerms[k])
    requires !IsBlank(userInput)
    ensures Submit(s, userInput).1 == None
    ensures Submit(s, userInput).0.messages[|s.messages| + 1] == Message(Assistant, RefusalText)
  {
    RefusedByTerm(userInput, k);
    var refused := s.messages + [Message(User, userInput)] + [Message(Assistant, RefusalText)];
    assert Submit(s, userInput).0.messages == refused;
    assert refused[|s.messages| + 1] == Message(Assistant, RefusalText);
  }

  lemma RefusedByTerm(userInput: string, k: nat)
    requires k < |InappropriateTerms| && Contains(Lower(userInput), InappropriateTerms[k])
    ensures !FilterMessage(userInput).0
  {
    assert MentionsAny(Lower(userInput), InappropriateTerms);
  }

  /** What the hook holds and updates in place. */
  class ChatSession {
    var messages: seq<Message>
    var isLoading: bool
    var error: Option<string>

    function State(): ChatState
      reads this
    {
      ChatState(messages, isLoading, error)
    }

    /** `useChat({ initialMessages })`. */
    constructor (initialMessages: seq<Message>)
      ensures State() == ChatState(initialMessages, false, None)
    {
      messages := initialMessages;
      isLoading := false;
      error := None;
    }

    /** `sendMessage(userInput)` up to the backend call. */
    method SendMessage(userInput: string) returns (request: Option<seq<Message>>)
      modifies this
      ensures (State(), request) == Submit(old(State()), userInput)
    {
      request := None;
      if IsBlank(userInput) {
        return;
      }
      var thread := messages;
      var userMessage := Message(User, userInput);
      messages := messages + [userMessage];
      isLoading := true;
      error := None;
      var filtered := FilterMessage(userInput);
      if !filtered.0 {
        messages := messages + [Message(Assistant, filtered.1)];
        isLoading := false;
        return;
      }
      request := Some(thread + [userMessage]);
    }

    /** The rest of `sendMessage`, once the backend call has settled. */
    method ReceiveReply(outcome: ChatOutcome, hasOnNavigate: bool) returns (navigate: Option<string>)
      modifies this
      ensures (State(), navigate) == Reply(old(State()), outcome, hasOnNavigate)
    {
      navigate := None;
      match outcome {
        case Replied(assistantMessage, navTarget) =>
          messages := messages + [Message(Assistant, assistantMessage)];
          if navTarget.Some? && navTarget.value != "" && hasOnNavigate {
            navigate := navTarget;
          }
        case Failed =>
          error := Some(SendFailedError);
          messages := messages + [Message(Assistant, ApologyText)];
      }
      isLoading := false;
    }

    /** `clearMessages`. */
    method ClearMessages()
      modifies this
      ensures State() == Clear(old(State()))
    {
      messages := [];
      error := None;
    }
  }
}
