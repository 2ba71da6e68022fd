/**
 * The chat context provider (src/context/ChatContext.tsx): a transcript and
 * a loading flag shared by the chat window and the terminal, with canned
 * replies chosen by keyword and a terminal `clear` command.
 *
 * `sendMessage` is split at its `setTimeout`: `Send` is the part that runs
 * at once and yields the reply it schedules, `Deliver` is the timer's
 * callback.
 */
module ChatContext {
  import opened Common
  import opened Text
  import opened ChatMessage

  /** The keywords the reply logic tests, in the order it tests them. */
  const ReplyKeywords: seq<string> := ["help", "about", "skills", "projects", "contact"]

  /** The terminal's replies, one per keyword. */
  const TerminalReplies: seq<string> := [
    "Available commands:\n- about: Learn about Alistair\n- skills: See Alistair's technical skills\n- projects: View portfolio projects\n- contact: Get contact information\n- clear: Clear the terminal",
    "Alistair is a Software Engineer with a passion for building great software.",
    "Skills include: React, TypeScript, Next.js, and more.",
    "Check out the Projects section below to see my work!",
    "You can reach me through the Contact section at the bottom of this page."
  ]

  /** The chat window's replies, one per keyword. */
  const ChatReplies: seq<string> := [
    "How can I help you today? I can tell you about Alistair's skills, projects, or experience.",
    "Alistair is a Software Engineer specializing in modern web technologies and AI integration.",
    "Alistair's skills include React, TypeScript, Next.js, Node.js, and various other frontend and backend technologies.",
    "Alistair has worked on various projects including web applications, AI integrations, and more. You can see them in the Projects section.",
    "You can contact Alistair through the form in the Contact section, or via the social links provided."
  ]

  /** The reply when no keyword occurs. */
  const DefaultReply := "I'm a simulated response. Currently, I'm not connected to an LLM backend."

  /** The index of the first keyword, from `i` on, that `s` includes. */
  function FirstKeywordFrom(s: string, keywords: seq<string>, i: nat): (r: Option<nat>)
    requires i <= |keywords|
    ensures r.Some? ==> i <= r.value < |keywords| && Contains(s, keywords[r.value])
    ensures r.Some? ==> forall j :: i <= j < r.value ==> !Contains(s, keywords[j])
    ensures r.None? ==> forall j :: i <= j < |keywords| ==> !Contains(s, keywords[j])
    decreases |keywords| - i
  {
    if i == |keywords| then None
    else if Contains(s, keywords[i]) then Some(i)
    else FirstKeywordFrom(s, keywords, i + 1)
  }

  /** The reply table of a mode. */
  function Replies(isTerminal: bool): (r: seq<string>)
    ensures |r| == |ReplyKeywords|
  {
    if isTerminal then TerminalReplies else ChatReplies
  }

  /** The reply the delayed step adds: the first keyword, in table order,
      that the lowercased input includes picks the reply of the current
      mode; no keyword gives the default sentence. */
  function SimulatedReply(userInput: string, isTerminal: bool): (r: string)
    ensures !MentionsAny(Lower(userInput), ReplyKeywords) ==> r == DefaultReply
    ensures forall k :: 0 <= k < |ReplyKeywords| && Contains(Lower(userInput), ReplyKeywords[k])
                        && (forall j :: 0 <= j < k ==> !Contains(Lower(userInput), ReplyKeywords[j]))
                        ==> r == Replies(isTerminal)[k]
  {
    match FirstKeywordFrom(Lower(userInput), ReplyKeywords, 0)
    case None => DefaultReply
    case Some(k) => Replies(isTerminal)[k]
  }

  /** Earlier keywords take priority: an input with `help` in it gets the
      help reply whatever else it mentions. */
  lemma HelpComesFirst(userInput: string, isTerminal: bool)
    requires Contains(Lower(userInput), "help")
    ensures SimulatedReply(userInput, isTerminal) == Replies(isTerminal)[0]
  {
    assert ReplyKeywords[0] == "help";
  }

  /** No terminal reply is a chat reply, and neither is the default
      sentence. */
  lemma RepliesDiffer()
    ensures forall i, j :: 0 <= i < |TerminalReplies| && 0 <= j < |ChatReplies| ==>
      TerminalReplies[i] != ChatReplies[j] && TerminalReplies[i] != DefaultReply && ChatReplies[j] != DefaultReply
  {
    // Their lengths already tell them apart.
    assert forall k :: 0 <= k < |ReplyKeywords| ==>
      |TerminalReplies[k]| == [190, 75, 53, 52, 72][k] && |ChatReplies[k]| == [90, 91, 115, 136, 99][k];
    assert |DefaultReply| == 73;
  }

  /** The terminal and the chat window never give the same reply: for one
      and the same keyword, or for any two inputs at all. */
  lemma ModesNeverShareAReply(a: string, b: string)
    ensures SimulatedReply(a, true) != SimulatedReply(b, false) ||
      (!MentionsAny(Lower(a), ReplyKeywords) && !MentionsAny(Lower(b), ReplyKeywords))
  {
    RepliesDiffer();
    var ra, rb := SimulatedReply(a, true), SimulatedReply(b, false);
    assert ra == DefaultReply || exists k :: 0 <= k < 5 && ra == TerminalReplies[k];
    assert rb == DefaultReply || exists k :: 0 <= k < 5 && rb == ChatReplies[k];
  }

  /** The state the provider keeps. */
  datatype ProviderState = ProviderState(messages: seq<Message>, isLoading: bool)

  /** A reply scheduled by `sendMessage`, delivered by the timer. */
  datatype Pending = Pending(userInput: string, isTerminal: bool)

  /** The terminal's `clear` command: the untrimmed input, lowercased. */
  predicate IsClearCommand(userInput: string, isTerminal: bool) {
    isTerminal && Lower(userInput) == "clear"
  }

  /** The synchronous part of `sendMessage`: the new state and the reply it
      schedules, if any. */
  function Send(s: ProviderState, userInput: string, isTerminal: bool): (r: (ProviderState, Option<Pending>))
    ensures IsBlank(userInput) ==> r == (s, None)
    ensures !IsBlank(userInput) && IsClearCommand(userInput, isTerminal) ==> r == (ProviderState([], false), None)
    ensures !IsBlank(userInput) && !IsClearCommand(userInput, isTerminal) ==>
      r.0 == ProviderState(s.messages + [Message(User, userInput)], true)
      && r.1 == Some(Pending(userInput, isTerminal))
  {
    if IsBlank(userInput) then (s, None)
    else
      var shown := ProviderState(s.messages + [Message(User, userInput)], true);
      if IsClearCommand(userInput, isTerminal) then (ProviderState([], false), None)
      else (shown, Some(Pending(userInput, isTerminal)))
  }

  /** The timer callback: one assistant message, and the provider is idle. */
  function Deliver(s: ProviderState, p: Pending): (r: ProviderState)
    ensures |r.messages| == |s.messages| + 1 && r.messages[..|s.messages|] == s.messages
    ensures r.messages[|s.messages|] == Message(Assistant, SimulatedReply(p.userInput, p.isTerminal))
    ensures !r.isLoading
  {
    var m := s.messages + [Message(Assistant, SimulatedReply(p.userInput, p.isTerminal))];
    assert m[..|s.messages|] == s.messages;
    ProviderState(m, false)
  }

  /** `clearMessages`: empties the transcript and leaves the loading flag. */
  function Clear(s: ProviderState): (r: ProviderState)
    ensures r.messages == [] && r.isLoading == s.isLoading
  {
    ProviderState([], s.isLoading)
  }

  /** A send that is neither blank nor the terminal's `clear` ends, once its
      timer has fired, with the user's message followed by one reply and
      the provider idle. */
  lemma {:induction false} SendThenDeliver(s: ProviderState, userInput: string, isTerminal: bool)
    requires !IsBlank(userInput) && !IsClearCommand(userInput, isTerminal)
    ensures Send(s, userInput, isTerminal).1.Some?
    ensures var done := Deliver(Send(s, userInput, isTerminal).0, Send(s, userInput, isTerminal).1.value);
      done.messages == s.messages + [Message(User, userInput), Message(Assistant, SimulatedReply(userInput, isTerminal))]
      && !done.isLoading
  {
    var t := ProviderState(s.messages + [Message(User, userInput)], true);
    assert Send(s, userInput, isTerminal) == (t, Some(Pending(userInput, isTerminal)));
    DeliverAfter(s.messages, Message(User, userInput), Pending(userInput, isTerminal));
  }

  lemma DeliverAfter(prior: seq<Message>, m: Message, p: Pending)
    ensures Deliver(ProviderState(prior + [m], true), p).messages
      == prior + [m, Message(Assistant, SimulatedReply(p.userInput, p.isTerminal))]
  {
    var reply := Message(Assistant, SimulatedReply(p.userInput, p.isTerminal));
    assert (prior + [m]) + [reply] == prior + [m, reply];
  }

  lemma ClearIsLowercase()
    ensures Lower("clear") == "clear"
  {
    LowerOfLowercase("clear");
  }

  lemma ClearIsNotBlank()
    ensures !IsBlank("clear")
  {
    var c := "clear";
    assert !IsSpace(c[0]);
    BlankIffAllSpace(c);
  }

  /** "clear" mentions none of the reply keywords. */
  lemma ClearMentionsNoKeyword()
    ensures !MentionsAny("clear", ReplyKeywords)
  {
    var c := "clear";
    var kws := ReplyKeywords;
    forall i | 0 <= i < |kws| ensures !Contains(c, kws[i]) {
      if i == 0 { MissingCharNotContained(c, kws[i], 'h'); }       // help
      else if i == 1 { MissingCharNotContained(c, kws[i], 'b'); }  // about
      else if i == 2 { MissingCharNotContained(c, kws[i], 'k'); }  // skills
      else if i == 3 { MissingCharNotContained(c, kws[i], 'p'); }  // projects
      else { MissingCharNotContained(c, kws[i], 'o'); }            // contact
    }
  }

  /** In the terminal `clear` empties the transcript, user message included,
      and schedules nothing; in the chat window it is an ordinary message
      that gets the default reply. */
  lemma ClearCommandOnlyInTerminal(s: ProviderState)
    ensures Send(s, "clear", true) == (ProviderState([], false), None)
    ensures Send(s, "clear", false).1 == Some(Pending("clear", false))
    ensures SimulatedReply("clear", false) == DefaultReply
  {
    ClearIsLowercase();
    ClearIsNotBlank();
    ClearMentionsNoKeyword();
  }

  /** What the provider holds and updates in place. */
  class ChatProvider {
    var messages: seq<Message>
    var isLoading: bool

    function State(): ProviderState
      reads this
    {
      ProviderState(messages, isLoading)
    }

    /** `<ChatProvider initialMessages={…}>`. */
    constructor (initialMessages: seq<Message>)
      ensures State() == ProviderState(initialMessages, false)
    {
      messages := initialMessages;
      isLoading := false;
    }

    /** `sendMessage(userInput, isTerminal)` up to the scheduled timer. */
    method SendMessage(userInput: string, isTerminal: bool) returns (pending: Option<Pending>)
      modifies this
      ensures (State(), pending) == Send(old(State()), userInput, isTerminal)
    {
      pending := None;
      if IsBlank(userInput) {
        return;
      }
      messages := messages + [Message(User, userInput)];
      isLoading := true;
      if isTerminal && Lower(userInput) == "clear" {
        messages := [];
        isLoading := false;
        return;
      }
      pending := Some(Pending(userInput, isTerminal));
    }

    /** The timer callback of a send. */
    method DeliverReply(p: Pending)
      modifies this
      ensures State() == Deliver(old(State()), p)
    {
      var response := SimulatedReply(p.userInput, p.isTerminal);
      messages := messages + [Message(Assistant, response)];
      isLoading := false;
    }

    /** `clearMessages`. */
    method ClearMessages()
      modifies this
      ensures State() == Clear(old(State()))
    {
      messages := [];
    }
  }
}
