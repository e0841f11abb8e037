/**
 * The chat page's code-behind (ChatPage): the text box's value MessageInput,
 * the whitespace guard in SendMessage, the Enter key handling and ClearChat.
 * This is the only place where blank input is kept away from the view model.
 */
module Pages {
  import opened Wrappers
  import opened ChatMessages
  import opened ViewModels
  import ChatProxy

  /** The characters .NET's char.IsWhiteSpace accepts (separators and the control blanks). */
  predicate IsWhiteSpace(c: char)
  {
    ('\U{0009}' <= c <= '\U{000D}') || c == '\U{0020}' || c == '\U{0085}' || c == '\U{00A0}' ||
    c == '\U{1680}' || ('\U{2000}' <= c <= '\U{200A}') || c == '\U{2028}' || c == '\U{2029}' ||
    c == '\U{202F}' || c == '\U{205F}' || c == '\U{3000}'
  }

  /** Every character of `s` is white space (so the empty string is blank). */
  predicate IsBlank(s: string)
  {
    forall i :: 0 <= i < |s| ==> IsWhiteSpace(s[i])
  }

  /** string.IsNullOrWhiteSpace: null, empty, or only white space. */
  predicate IsNullOrWhiteSpace(s: Option<string>)
    ensures s.None? ==> IsNullOrWhiteSpace(s)
    ensures s == Some("") ==> IsNullOrWhiteSpace(s)
    ensures IsNullOrWhiteSpace(s) && s.Some? ==> forall c :: c in s.value ==> IsWhiteSpace(c)
  {
    s.None? || IsBlank(s.value)
  }

  /**
   * Blank-input cases: tabs, line breaks and wide spaces are white space; a zero
   * width space (U+200B) and any visible character are not.
   */
  lemma WhiteSpaceCases()
    ensures IsWhiteSpace(' ') && IsWhiteSpace('\t') && IsWhiteSpace('\n') && IsWhiteSpace('\r')
    ensures IsWhiteSpace('\U{00A0}') && IsWhiteSpace('\U{2007}') && IsWhiteSpace('\U{3000}')
    ensures !IsWhiteSpace('\U{200B}') && !IsWhiteSpace('\U{FEFF}') && !IsWhiteSpace('a')
    ensures IsNullOrWhiteSpace(Some(" \t\r\n\U{3000}"))
    ensures !IsNullOrWhiteSpace(Some(" a ")) && !IsNullOrWhiteSpace(Some("\U{200B}"))
  {
    assert " a "[1] == 'a';
    assert "\U{200B}"[0] == '\U{200B}';
  }

  /** What the page shows: the text box and the view model behind it. */
  datatype PageState = PageState(messageInput: Option<string>, chat: ChatState)

  /**
   * SendMessage up to the view model's await: blank input does nothing; otherwise
   * the text box is emptied and the view model starts a send of the original text.
   */
  function AfterStartSend(p: PageState, sentAt: Instant): (r: PageState)
    ensures IsNullOrWhiteSpace(p.messageInput) ==> r == p
    ensures !IsNullOrWhiteSpace(p.messageInput) ==>
              r.messageInput == Some("") && r.chat.isLoading &&
              r.chat.messages == p.chat.messages + [UserMessage(p.messageInput.value, sentAt)] &&
              r.chat.hasError == p.chat.hasError && r.chat.errorMessage == p.chat.errorMessage
  {
    if IsNullOrWhiteSpace(p.messageInput) then p
    else PageState(Some(""), AfterBegin(p.chat, p.messageInput.value, sentAt))
  }

  /**
   * SendMessage carried out to the end: blank input leaves everything as it was;
   * otherwise exactly one send of the original text, with the text box emptied.
   */
  function AfterSendMessage(p: PageState, chatAsync: string -> ChatProxy.BackendReply,
                            sentAt: Instant, repliedAt: Instant): (r: PageState)
    ensures IsNullOrWhiteSpace(p.messageInput) ==> r == p
    ensures !IsNullOrWhiteSpace(p.messageInput) ==>
              r.messageInput == Some("") &&
              r.chat == AfterSend(p.chat, p.messageInput.value,
                                  ChatProxy.SendMessageAsync(chatAsync, p.messageInput.value), sentAt, repliedAt)
  {
    if IsNullOrWhiteSpace(p.messageInput) then p
    else
      var inFlight := AfterStartSend(p, sentAt);
      var response := ChatProxy.SendMessageAsync(chatAsync, p.messageInput.value);
      inFlight.(chat := AfterComplete(inFlight.chat, response, repliedAt))
  }

  /** The key that submits, when Shift is not held. */
  const EnterKey: string := "Enter"

  /** HandleKeyDown: Enter without Shift sends; any other key, or Shift+Enter, changes nothing. */
  function AfterKeyDown(p: PageState, key: string, shiftKey: bool,
                        chatAsync: string -> ChatProxy.BackendReply,
                        sentAt: Instant, repliedAt: Instant): (r: PageState)
    ensures key != EnterKey || shiftKey ==> r == p
    ensures key == EnterKey && !shiftKey ==> r == AfterSendMessage(p, chatAsync, sentAt, repliedAt)
  {
    if key == EnterKey && !shiftKey then AfterSendMessage(p, chatAsync, sentAt, repliedAt) else p
  }

  /** ClearChat: the view model is cleared once; the text box keeps its content. */
  function AfterClearChat(p: PageState): (r: PageState)
    ensures r.messageInput == p.messageInput
    ensures r.chat.messages == [] && !r.chat.hasError && r.chat.errorMessage == Some("")
    ensures r.chat.isLoading == p.chat.isLoading
  {
    p.(chat := AfterClear(p.chat))
  }

  /** No user message in the history is blank. */
  ghost predicate NoBlankUserMessages(msgs: seq<ChatMessage>)
  {
    forall i :: 0 <= i < |msgs| && msgs[i].IsUser() ==> !IsBlank(msgs[i].content)
  }

  /** One page-level send never records a blank user message. */
  lemma SendMessageKeepsNoBlank(
    p: PageState, chatAsync: string -> ChatProxy.BackendReply, sentAt: Instant, repliedAt: Instant)
    requires NoBlankUserMessages(p.chat.messages)
    ensures NoBlankUserMessages(AfterSendMessage(p, chatAsync, sentAt, repliedAt).chat.messages)
  {
  }

  /**
   * The view model itself has no guard: sending a blank text straight to it
   * records a blank user message.
   */
  lemma ViewModelRecordsBlank(s: ChatState, outcome: ChatProxy.ProxyOutcome, sentAt: Instant, repliedAt: Instant)
    ensures !NoBlankUserMessages(AfterSend(s, " ", outcome, sentAt, repliedAt).messages)
  {
    var r := AfterSend(s, " ", outcome, sentAt, repliedAt).messages;
    var n := |s.messages|;
    assert r[n] == UserMessage(" ", sentAt);
    assert r[n].IsUser() && IsBlank(r[n].content);
  }

  /** What the user does on the page. Typing stands for the text box's binding of MessageInput. */
  datatype PageEvent =
    | Typed(text: Option<string>)
    | SendClicked(chatAsync: string -> ChatProxy.BackendReply, sentAt: Instant, repliedAt: Instant)
    | KeyDown(key: string, shiftKey: bool, chatAsync: string -> ChatProxy.BackendReply,
              sentAt: Instant, repliedAt: Instant)
    | ClearClicked

  /** The page state after the events, handled one at a time. */
  function RunPage(p: PageState, events: seq<PageEvent>): (r: PageState)
    decreases |events|
  {
    if events == [] then p
    else
      var before := RunPage(p, events[..|events| - 1]);
      match events[|events| - 1]
      case Typed(text) => before.(messageInput := text)
      case SendClicked(chatAsync, sentAt, repliedAt) => AfterSendMessage(before, chatAsync, sentAt, repliedAt)
      case KeyDown(key, shiftKey, chatAsync, sentAt, repliedAt) =>
        AfterKeyDown(before, key, shiftKey, chatAsync, sentAt, repliedAt)
      case ClearClicked => AfterClearChat(before)
  }

  /**
   * Whatever the user types and however the backend answers, a history that
   * starts without blank user messages never gets one through the page.
   */
  lemma {:induction false} PageNeverRecordsBlank(p: PageState, events: seq<PageEvent>)
    requires NoBlankUserMessages(p.chat.messages)
    ensures NoBlankUserMessages(RunPage(p, events).chat.messages)
    decreases |events|
  {
    if events != [] {
      var before := RunPage(p, events[..|events| - 1]);
      PageNeverRecordsBlank(p, events[..|events| - 1]);
      match events[|events| - 1]
      case Typed(_) =>
      case SendClicked(chatAsync, sentAt, repliedAt) =>
        SendMessageKeepsNoBlank(before, chatAsync, sentAt, repliedAt);
      case KeyDown(key, shiftKey, chatAsync, sentAt, repliedAt) =>
        SendMessageKeepsNoBlank(before, chatAsync, sentAt, repliedAt);
      case ClearClicked =>
    }
  }

  /** The page: its text box and the view model it drives. */
  class ChatPage {
    const viewModel: ChatViewModel
    var messageInput: Option<string>

    function State(): PageState
      reads this, viewModel
    {
      PageState(messageInput, viewModel.State())
    }

    constructor (viewModel: ChatViewModel)
      ensures this.viewModel == viewModel && messageInput == None
    {
      this.viewModel := viewModel;
      messageInput := None;
    }

    /**
     * SendMessage up to the await inside the view model; returns the text handed
     * to the view model, if any.
     */
    method StartSendMessage(sentAt: Instant) returns (dispatched: Option<string>)
      modifies this, viewModel
      ensures State() == AfterStartSend(old(State()), sentAt)
      ensures dispatched == if IsNullOrWhiteSpace(old(messageInput)) then None else old(messageInput)
    {
      dispatched := None;
      if !IsNullOrWhiteSpace(messageInput) {
        var message := messageInput.value;
        messageInput := Some("");
        viewModel.BeginSend(message, sentAt);
        dispatched := Some(message);
      }
    }

    /** SendMessage: the guarded start, then the rest of the view model's send. */
    method SendMessage(chatAsync: string -> ChatProxy.BackendReply, sentAt: Instant, repliedAt: Instant)
      modifies this, viewModel
      ensures State() == AfterSendMessage(old(State()), chatAsync, sentAt, repliedAt)
    {
      var dispatched := StartSendMessage(sentAt);
      if dispatched.Some? {
        var response := ChatProxy.SendMessageAsync(chatAsync, dispatched.value);
        viewModel.CompleteSend(response, repliedAt);
      }
    }

    method HandleKeyDown(key: string, shiftKey: bool, chatAsync: string -> ChatProxy.BackendReply,
                         sentAt: Instant, repliedAt: Instant)
      modifies this, viewModel
      ensures State() == AfterKeyDown(old(State()), key, shiftKey, chatAsync, sentAt, repliedAt)
    {
      if key == EnterKey && !shiftKey {
        SendMessage(chatAsync, sentAt, repliedAt);
      }
    }

    method ClearChat()
      modifies viewModel
      ensures State() == AfterClearChat(old(State()))
    {
      viewModel.ClearMessages();
    }
  }
}
