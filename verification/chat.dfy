/**
 * The chat widget (ChatWidget.tsx): an append-only transcript, the open and
 * loading flags and the input buffer, driven by the send button, the focus-on-
 * record and external-trigger hand-offs, and the open/close buttons. Each
 * awaited conversation request is split into the step that issues it (which
 * returns the request) and the step that receives the reply.
 */
module Chat {
  import opened Types
  import opened Text
  import opened Services

  /** The opening assistant message (ChatWidget.tsx:24). */
  const Greeting: string := "שלום! אני שלי, המלווה האישית שלך. איך אני יכולה לעזור לך למצות את הזכויות שלך היום?"

  // The pieces of the focus-on-record template (ChatWidget.tsx:34).
  const IntroPrefix: string := "אני רואה שאת/ה מעוניין/ת במידע על \""
  const IntroMiddle: string := "\" של "
  const IntroSuffix: string := ". זו זכות חשובה מאוד! במה נוכל להתקדם?"

  /** The assistant message that introduces a focused record. */
  function IntroText(r: RightCard): string
  {
    IntroPrefix + r.title + IntroMiddle + r.authority + IntroSuffix
  }

  lemma ContainsSelf(s: string)
    ensures Contains(s, s)
  {
    assert s[..|s|] == s;
  }

  /** The introduction names the record by its title and its authority. */
  lemma IntroMentions(r: RightCard)
    ensures Contains(IntroText(r), r.title)
    ensures Contains(IntroText(r), r.authority)
    ensures |IntroText(r)| > |r.title| + |r.authority|
  {
    ContainsSelf(r.title);
    ContainsSelf(r.authority);
    ContainsInfix(IntroPrefix, r.title, IntroMiddle + r.authority + IntroSuffix, r.title);
    assert IntroText(r) == IntroPrefix + r.title + (IntroMiddle + r.authority + IntroSuffix);
    ContainsInfix(IntroPrefix + r.title + IntroMiddle, r.authority, IntroSuffix, r.authority);
  }

  /** The arguments of one conversation request: the prompt and the report it is grounded on. */
  datatype Request = Request(prompt: string, context: Report)

  /** The send button's disabled state, and the guard of `handleSend`. */
  predicate SendBlocked(loading: bool, input: string)
  {
    loading || Trim(input) == []
  }

  /** Sending is blocked exactly while a reply is pending or when the input is white space only. */
  lemma SendBlockedIff(loading: bool, input: string)
    ensures SendBlocked(loading, input) <==> loading || forall i | 0 <= i < |input| :: IsWhiteSpace(input[i])
  {
    TrimEmptyIffBlank(input);
  }

  /** A blank or all-space input blocks; surrounding spaces around a word do not. */
  lemma SendBlockedExamples()
    ensures SendBlocked(false, "")
    ensures SendBlocked(false, " \t\n")
    ensures !SendBlocked(false, " a ")
    ensures SendBlocked(true, "a")
  {
    SendBlockedIff(false, " \t\n");
    SendBlockedIff(false, " a ");
    assert !IsWhiteSpace(" a "[1]);
  }

  class ChatWidget {
    var isOpen: bool
    var messages: seq<Message>
    var input: string
    var isLoading: bool

    /** Mounting: closed, idle, empty input, the greeting alone in the transcript. */
    constructor ()
      ensures !isOpen && !isLoading && input == ""
      ensures messages == [Message(Assistant, Greeting)]
    {
      isOpen := false;
      messages := [Message(Assistant, Greeting)];
      input := "";
      isLoading := false;
    }

    predicate SendDisabled()
      reads this
    {
      SendBlocked(isLoading, input)
    }

    /** Typing in the input box. */
    method SetInput(text: string)
      modifies this
      ensures input == text
      ensures messages == old(messages) && isOpen == old(isOpen) && isLoading == old(isLoading)
    {
      input := text;
    }

    /**
     * `handleSend` up to the request: when sending is blocked nothing changes;
     * otherwise the untrimmed input is appended as a user message, the input is
     * cleared and a reply is awaited.
     */
    method BeginSend(context: Report) returns (request: Option<Request>)
      modifies this
      ensures old(SendDisabled()) ==> request == None
      ensures old(SendDisabled()) ==>
        messages == old(messages) && input == old(input) && isLoading == old(isLoading)
      ensures !old(SendDisabled()) ==> request == Some(Request(old(input), context))
      ensures !old(SendDisabled()) ==>
        messages == old(messages) + [Message(User, old(input))] && input == "" && isLoading
      ensures isOpen == old(isOpen)
    {
      if SendDisabled() {
        request := None;
        return;
      }
      var text := input;
      input := "";
      messages := messages + [Message(User, text)];
      isLoading := true;
      request := Some(Request(text, context));
    }

    /**
     * The awaited request settles. A resolved reply is appended as an assistant
     * message and loading ends; a rejection escapes `handleSend` before either
     * happens, so the transcript is kept and loading stays raised.
     */
    method FinishReply(outcome: ChatOutcome)
      modifies this
      ensures !outcome.ChatRejected? ==>
        && messages == old(messages) + [Message(Assistant, ChatReply(outcome).value)]
        && messages[|messages| - 1].text != ""
        && !isLoading
      ensures outcome.ChatRejected? ==> messages == old(messages) && isLoading == old(isLoading)
      ensures outcome.ChatRejected? && old(isLoading) ==> SendDisabled()
      ensures input == old(input) && isOpen == old(isOpen)
    {
      var reply := ChatReply(outcome);
      if reply.Some? {
        messages := messages + [Message(Assistant, reply.value)];
        isLoading := false;
      }
    }

    /** The focused-record effect: opens the panel and introduces the record, with no request. */
    method FocusRecord(r: RightCard)
      modifies this
      ensures isOpen
      ensures messages == old(messages) + [Message(Assistant, IntroText(r))]
      ensures isLoading == old(isLoading) && input == old(input)
    {
      isOpen := true;
      messages := messages + [Message(Assistant, IntroText(r))];
    }

    /**
     * The external-trigger effect with `handleTriggeredMessage`: opens the panel,
     * appends the message as the user's and issues the request, whatever the
     * loading state and the input.
     */
    method Trigger(msg: string, context: Report) returns (request: Request)
      modifies this
      ensures isOpen && isLoading
      ensures messages == old(messages) + [Message(User, msg)]
      ensures request == Request(msg, context)
      ensures input == old(input)
    {
      isOpen := true;
      messages := messages + [Message(User, msg)];
      isLoading := true;
      request := Request(msg, context);
    }

    /** The close button. */
    method Close()
      modifies this
      ensures !isOpen
      ensures messages == old(messages) && input == old(input) && isLoading == old(isLoading)
    {
      isOpen := false;
    }

    /** The launcher button. */
    method ToggleOpen()
      modifies this
      ensures isOpen == !old(isOpen)
      ensures messages == old(messages) && input == old(input) && isLoading == old(isLoading)
    {
      isOpen := !isOpen;
    }
  }
}
