/**
 * The conversation view model (ChatViewModel): an append-only list of messages
 * and the flags IsLoading, HasError and ErrorMessage.
 *
 * SendMessageAsync suspends once, while it awaits the proxy. It is modelled as
 * two halves, BeginSend (up to the await) and CompleteSend (after it), so that
 * the in-flight state and a ClearMessages between the halves can be stated.
 * Each half is specified by a function on the abstract state ChatState.
 */
module ViewModels {
  import opened Wrappers
  import opened ChatMessages
  import ChatProxy

  /** The fixed text shown when a send fails with an exception. */
  const SendErrorText: string := "Error al enviar mensaje. Por favor, intenta nuevamente."

  /** What the UI observes of a view model. `errorMessage` is None while it is still null. */
  datatype ChatState = ChatState(
    messages: seq<ChatMessage>,
    isLoading: bool,
    hasError: bool,
    errorMessage: Option<string>)

  /** The state of a freshly constructed view model. */
  const Initial: ChatState := ChatState([], false, false, None)

  /**
   * The state at the await: the user's message, whatever its content (empty and
   * blank included), is appended and loading is set; nothing else changes.
   */
  function AfterBegin(s: ChatState, message: string, now: Instant): (r: ChatState)
    ensures r.messages == s.messages + [UserMessage(message, now)]
    ensures r.messages[|s.messages|].IsUser() && r.messages[|s.messages|].content == message
    ensures r.isLoading
    ensures r.hasError == s.hasError && r.errorMessage == s.errorMessage
  {
    s.(messages := s.messages + [UserMessage(message, now)], isLoading := true)
  }

  /**
   * The state once the proxy has answered: a reply is appended as an assistant
   * message and leaves the error fields alone; an exception appends nothing and
   * sets the fixed error. Loading is cleared either way.
   */
  function AfterComplete(s: ChatState, outcome: ChatProxy.ProxyOutcome, now: Instant): (r: ChatState)
    ensures !r.isLoading
    ensures outcome.Text? ==> r.messages == s.messages + [AssistantMessage(outcome.text, now)]
    ensures outcome.Text? ==> r.hasError == s.hasError && r.errorMessage == s.errorMessage
    ensures outcome.Raised? ==> r.messages == s.messages
    ensures outcome.Raised? ==> r.hasError && r.errorMessage == Some(SendErrorText)
  {
    match outcome
    case Text(response) =>
      s.(messages := s.messages + [AssistantMessage(response, now)], isLoading := false)
    case Raised(_) =>
      s.(errorMessage := Some(SendErrorText), hasError := true, isLoading := false)
  }

  /** A whole send: both halves, with no other operation in between. */
  function AfterSend(s: ChatState, message: string, outcome: ChatProxy.ProxyOutcome,
                     sentAt: Instant, repliedAt: Instant): (r: ChatState)
    ensures !r.isLoading
    ensures s.messages <= r.messages
    ensures outcome.Text? ==>
              r.messages == s.messages + [UserMessage(message, sentAt), AssistantMessage(outcome.text, repliedAt)]
    ensures outcome.Text? ==> r.hasError == s.hasError && r.errorMessage == s.errorMessage
    ensures outcome.Raised? ==> r.messages == s.messages + [UserMessage(message, sentAt)]
    ensures outcome.Raised? ==> r.hasError && r.errorMessage == Some(SendErrorText)
  {
    AfterComplete(AfterBegin(s, message, sentAt), outcome, repliedAt)
  }

  /** ClearMessages: no messages, no error, an empty error text; loading is kept. */
  function AfterClear(s: ChatState): (r: ChatState)
    ensures r.messages == [] && !r.hasError && r.errorMessage == Some("")
    ensures r.isLoading == s.isLoading
  {
    s.(hasError := false, errorMessage := Some(""), messages := [])
  }

  /** Clearing twice is the same as clearing once. */
  lemma ClearIdempotent(s: ChatState)
    ensures AfterClear(AfterClear(s)) == AfterClear(s)
  {
  }

  /**
   * Composed with the proxy, a semantic backend failure becomes an ordinary
   * assistant message with the proxy's fixed text, and the error flag is untouched.
   */
  lemma BackendFailureBecomesAssistantText(
    s: ChatState, chatAsync: string -> ChatProxy.BackendReply, message: string,
    sentAt: Instant, repliedAt: Instant)
    requires chatAsync(message).Returned? && chatAsync(message).result.Failure?
    ensures AfterSend(s, message, ChatProxy.SendMessageAsync(chatAsync, message), sentAt, repliedAt)
            == ChatState(s.messages + [UserMessage(message, sentAt),
                                       AssistantMessage(ChatProxy.BackendErrorText, repliedAt)],
                         false, s.hasError, s.errorMessage)
  {
  }

  /** Only an exception from the backend sets the error flag of a send that started without one. */
  lemma ErrorOnlyOnThrow(
    s: ChatState, chatAsync: string -> ChatProxy.BackendReply, message: string,
    sentAt: Instant, repliedAt: Instant)
    requires !s.hasError
    ensures AfterSend(s, message, ChatProxy.SendMessageAsync(chatAsync, message), sentAt, repliedAt).hasError
            <==> chatAsync(message).Threw?
  {
  }

  /**
   * Every assistant message answers the user message just before it, and every
   * message has one of the two roles the view model creates.
   */
  ghost predicate RepliesPaired(msgs: seq<ChatMessage>)
  {
    forall i :: 0 <= i < |msgs| ==> WellPlaced(msgs, i)
  }

  /** Message `i` is the user's, or an assistant reply right after a user message. */
  ghost predicate WellPlaced(msgs: seq<ChatMessage>, i: nat)
    requires i < |msgs|
  {
    msgs[i].role == UserRole ||
    (msgs[i].role == AssistantRole && 0 < i && msgs[i - 1].role == UserRole)
  }

  /** A whole send keeps every reply paired with the message it answers. */
  lemma {:induction false} SendKeepsRepliesPaired(
    s: ChatState, message: string, outcome: ChatProxy.ProxyOutcome, sentAt: Instant, repliedAt: Instant)
    requires RepliesPaired(s.messages)
    ensures RepliesPaired(AfterSend(s, message, outcome, sentAt, repliedAt).messages)
  {
    var r := AfterSend(s, message, outcome, sentAt, repliedAt).messages;
    var n := |s.messages|;
    assert r[..n] == s.messages;
    assert r[n] == UserMessage(message, sentAt);
    forall i | 0 <= i < |r|
      ensures WellPlaced(r, i)
    {
      if i < n {
        assert WellPlaced(s.messages, i);
        assert r[i] == s.messages[i];
        if 0 < i { assert r[i - 1] == s.messages[i - 1]; }
      } else if i > n {
        assert outcome.Text? && i == n + 1;
        assert r[i] == AssistantMessage(outcome.text, repliedAt);
      }
    }
  }

  /** One user action on the view model, carried out to completion. */
  datatype Command =
    | Send(message: string, outcome: ChatProxy.ProxyOutcome, sentAt: Instant, repliedAt: Instant)
    | Clear

  /** The state after running the commands one after the other, none overlapping. */
  function Run(s: ChatState, cmds: seq<Command>): (r: ChatState)
    ensures cmds != [] && cmds[|cmds| - 1].Send? ==> !r.isLoading
    ensures !s.isLoading ==> !r.isLoading
    decreases |cmds|
  {
    if cmds == [] then s
    else
      var last := cmds[|cmds| - 1];
      var before := Run(s, cmds[..|cmds| - 1]);
      match last
      case Send(message, outcome, sentAt, repliedAt) => AfterSend(before, message, outcome, sentAt, repliedAt)
      case Clear => AfterClear(before)
  }

  /**
   * Used sequentially, the view model never loses the pairing of a reply with
   * its question, whatever the messages, replies and failures.
   */
  lemma {:induction false} RunKeepsRepliesPaired(s: ChatState, cmds: seq<Command>)
    requires RepliesPaired(s.messages)
    ensures RepliesPaired(Run(s, cmds).messages)
    decreases |cmds|
  {
    if cmds != [] {
      var before := Run(s, cmds[..|cmds| - 1]);
      RunKeepsRepliesPaired(s, cmds[..|cmds| - 1]);
      match cmds[|cmds| - 1]
      case Send(message, outcome, sentAt, repliedAt) =>
        SendKeepsRepliesPaired(before, message, outcome, sentAt, repliedAt);
      case Clear =>
    }
  }

  /**
   * A ClearMessages while a send is in flight does not cancel it: the late reply
   * lands alone in the emptied history, answering no user message.
   */
  lemma {:induction false} ClearDuringSendLeavesOrphanReply(
    s: ChatState, message: string, reply: string, sentAt: Instant, repliedAt: Instant)
    ensures AfterComplete(AfterClear(AfterBegin(s, message, sentAt)), ChatProxy.Text(reply), repliedAt).messages
            == [AssistantMessage(reply, repliedAt)]
    ensures !RepliesPaired(
              AfterComplete(AfterClear(AfterBegin(s, message, sentAt)), ChatProxy.Text(reply), repliedAt).messages)
  {
    var r := AfterComplete(AfterClear(AfterBegin(s, message, sentAt)), ChatProxy.Text(reply), repliedAt).messages;
    assert !WellPlaced(r, 0);
  }

  /** The view model; its fields are the ones the UI binds to. */
  class ChatViewModel {
    var messages: seq<ChatMessage>
    var isLoading: bool
    var hasError: bool
    var errorMessage: Option<string>

    /** The abstract state the methods are specified against. */
    function State(): ChatState
      reads this
    {
      ChatState(messages, isLoading, hasError, errorMessage)
    }

    constructor ()
      ensures State() == Initial
    {
      messages := [];
      isLoading := false;
      hasError := false;
      errorMessage := None;
    }

    /** The first half of SendMessageAsync, up to the await of the proxy. */
    method BeginSend(message: string, now: Instant)
      modifies this
      ensures State() == AfterBegin(old(State()), message, now)
    {
      messages := messages + [UserMessage(message, now)];
      isLoading := true;
    }

    /** The second half of SendMessageAsync, once the proxy has answered or thrown. */
    method CompleteSend(outcome: ChatProxy.ProxyOutcome, now: Instant)
      modifies this
      ensures State() == AfterComplete(old(State()), outcome, now)
    {
      match outcome {
        case Text(response) =>
          messages := messages + [AssistantMessage(response, now)];
        case Raised(_) =>
          errorMessage := Some(SendErrorText);
          hasError := true;
      }
      isLoading := false;
    }

    /** SendMessageAsync: both halves around one call of the proxy. */
    method SendMessageAsync(message: string, chatAsync: string -> ChatProxy.BackendReply,
                            sentAt: Instant, repliedAt: Instant)
      modifies this
      ensures State() == AfterSend(old(State()), message, ChatProxy.SendMessageAsync(chatAsync, message),
                                   sentAt, repliedAt)
    {
      BeginSend(message, sentAt);
      var response := ChatProxy.SendMessageAsync(chatAsync, message);
      CompleteSend(response, repliedAt);
    }

    method ClearMessages()
      modifies this
      ensures State() == AfterClear(old(State()))
    {
      hasError := false;
      errorMessage := Some("");
      messages := [];
    }
  }
}
