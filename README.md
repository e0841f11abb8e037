# DemoChatLLM chat turn pipeline, modelled in Dafny

This project models the client-side chat turn pipeline of DemoChatLLM and the
JSON-RPC request builder its API uses to reach an MCP (Model Context Protocol)
tool server.

- `ChatMessages.dfy`: the message record `ChatMessageModel` (role, content, timestamp) and `IsUser`.
- `ChatMessageAdapter.dfy`: the field-for-field conversion between `ChatMessageDto` and `ChatMessageModel`, one message or a whole list.
- `ChatProxy.dfy`: `ChatProxy.SendMessageAsync`. It maps the backend's `Result` to the text of the assistant's reply. A semantic failure becomes the fixed text "Error al obtener respuesta del asistente.". An exception is rethrown.
- `ViewModels.dfy`: the `ChatViewModel` class, with `Messages`, `IsLoading`, `HasError`, `ErrorMessage`, `SendMessageAsync` and `ClearMessages`.
  - `SendMessageAsync` is split at its one `await` into `BeginSend` and `CompleteSend`.
  - Each method is specified by a function on the abstract state `ChatState`: `AfterBegin`, `AfterComplete`, `AfterSend` and `AfterClear`.
  - Lemmas relate several operations: reply pairing over any sequential run, a clear during a send, and the proxy composed with the view model.
- `Pages.dfy`: the `ChatPage` code-behind.
  - The text box value `MessageInput`.
  - The `string.IsNullOrWhiteSpace` guard, using .NET's set of white-space characters.
  - Enter versus Shift+Enter.
  - `ClearChat`.
  - A lemma shows that no run of page events ever records a blank user message. The view model on its own would record one.
- `McpTools.dfy`: `BlazzingPizzaToolProvider`.
  - The JSON-RPC 2.0 request envelope: `jsonrpc`, `id`, `method` (the field `methodName`) and `params`. JSON-RPC 2.0 section 4 defines it.
  - The `tools/list` and `tools/call` requests.
  - Unwrapping `result.tools` from an `McpResponseDto`.
  - The status-code check of `EnsureSuccessStatusCode`.

Some inputs are parameters:
- The HTTP POST is `post: Request -> HttpReply`.
- The JSON deserialiser is `deserialize`.
- The chat backend (`IChatClient.ChatAsync`) is `chatAsync: string -> BackendReply`.
- `DateTime.Now` values are `Instant` arguments.
- `Guid.NewGuid()` values are `guid` arguments.

A C# `null` string is `Option.None`. This applies to `ErrorMessage` before it is first set and to `MessageInput` before the user types.

Four behaviours of the code may be unexpected; the model follows the code:
- The view model has no blank-input guard. Only the page has one.
- A successful send leaves `HasError` and `ErrorMessage` as they were.
- A semantic backend failure is shown as an ordinary assistant message and sets no error flag.
- The tool provider never compares the response `id` with the request `id`, and it reports no typed transport error.

## Model

| member | source | states |
|---|---|---|
| ChatMessages.ChatMessage.IsUser | Chat/Chat.ViewModels/Models/ChatMessageModel.cs:14 | a message is the user's exactly when its role is "user"; a message with the assistant role never is |
| ChatMessages.IsUserIsOrdinal | Chat/Chat.ViewModels/Models/ChatMessageModel.cs:14 | the role comparison is exact and case-sensitive: "user" qualifies, while "User", "user " and "assistant" do not |
| ChatMessages.UserMessage | Chat/Chat.ViewModels/ViewModels/ChatViewModel.cs:19-24 | the user's message has role "user", so `IsUser` holds; it carries the given content and time |
| ChatMessages.AssistantMessage | Chat/Chat.ViewModels/ViewModels/ChatViewModel.cs:28-33 | the reply has role "assistant", so `IsUser` does not hold; it carries the reply text and time |
| ChatMessageAdapter.ToChatMessageModel | Chat/Chat.ViewModels/Adapters/ChatMessageAdapter.cs:8-16 | role, content and timestamp are copied verbatim; the result is a user message exactly when the DTO's role is "user" |
| ChatMessageAdapter.ToChatMessageDto | Chat/Chat.ViewModels/Adapters/ChatMessageAdapter.cs:23-31 | role, content and timestamp are copied verbatim |
| ChatMessageAdapter.ToChatMessageModels | Chat/Chat.ViewModels/Adapters/ChatMessageAdapter.cs:18-21 | same length; element i of the output is the conversion of element i of the input |
| ChatMessageAdapter.ModelRoundTrip | Chat/Chat.ViewModels/Adapters/ChatMessageAdapter.cs:8-31 | model to DTO to model is the identity |
| ChatMessageAdapter.DtoRoundTrip | Chat/Chat.ViewModels/Adapters/ChatMessageAdapter.cs:8-31 | DTO to model to DTO is the identity |
| ChatMessageAdapter.ModelsRoundTrip | Chat/Chat.ViewModels/Adapters/ChatMessageAdapter.cs:18-31 | every DTO of a list is recovered from its converted element |
| ChatMessageAdapter.ModelsOfConcat | Chat/Chat.ViewModels/Adapters/ChatMessageAdapter.cs:18-21 | converting a concatenation is concatenating the conversions |
| ChatMessageAdapter.ModelsInjective | Chat/Chat.ViewModels/Adapters/ChatMessageAdapter.cs:18-21 | two DTO lists with the same converted list are equal, so list conversion loses nothing |
| ChatProxy.SendMessageAsync | Chat/Chat.Proxies/ChatProxy.cs:9-33 | a success gives its value unchanged; a failure gives the fixed text "Error al obtener respuesta del asistente." without raising; an exception is rethrown as is |
| ChatProxy.RaisesOnlyOnThrow | Chat/Chat.Proxies/ChatProxy.cs:12-30 | the proxy raises if and only if the backend call threw |
| ChatProxy.DependsOnlyOnThisCall | Chat/Chat.Proxies/ChatProxy.cs:14 | only the backend's answer to this very message matters: the message is passed unchanged and no other call counts |
| ChatProxy.FailureLooksLikeReply | Chat/Chat.Proxies/ChatProxy.cs:16-24 | a semantic failure looks to the caller exactly like a successful reply whose text is the fixed error text |
| ViewModels.AfterBegin | Chat/Chat.ViewModels/ViewModels/ChatViewModel.cs:19-26 | in flight: the user message is appended whatever its content, even empty or blank; loading is true; the error fields are unchanged |
| ViewModels.AfterComplete | Chat/Chat.ViewModels/ViewModels/ChatViewModel.cs:27-41 | a reply appends one assistant message and keeps HasError and ErrorMessage; an exception appends nothing and sets HasError and the fixed error text; loading is false either way |
| ViewModels.AfterSend | Chat/Chat.ViewModels/ViewModels/ChatViewModel.cs:15-43 | the old history is a prefix of the new one; a reply adds exactly [user, assistant] in that order and keeps the error fields; an exception adds exactly the user message and sets the fixed error; loading ends false |
| ViewModels.AfterClear | Chat/Chat.ViewModels/ViewModels/ChatViewModel.cs:45-50 | no messages, HasError false, ErrorMessage "", IsLoading unchanged |
| ViewModels.ClearIdempotent | Chat/Chat.ViewModels/ViewModels/ChatViewModel.cs:45-50 | clearing twice equals clearing once |
| ViewModels.BackendFailureBecomesAssistantText | Chat/Chat.ViewModels/ViewModels/ChatViewModel.cs:27-34 | composed with the proxy, a semantic backend failure appends the user message and an assistant message with the proxy's fixed text; HasError and ErrorMessage stay as they were |
| ViewModels.ErrorOnlyOnThrow | Chat/Chat.ViewModels/ViewModels/ChatViewModel.cs:36-40 | from a state without error, a send sets HasError if and only if the backend call threw |
| ViewModels.SendKeepsRepliesPaired | Chat/Chat.ViewModels/ViewModels/ChatViewModel.cs:19-34 | a whole send keeps every assistant message right after a user message |
| ViewModels.Run | Chat/Chat.ViewModels/ViewModels/ChatViewModel.cs:15-50 | a run of completed sends and clears never leaves the view model loading if it did not start loading; a run that ends with a send ends not loading |
| ViewModels.RunKeepsRepliesPaired | Chat/Chat.ViewModels/ViewModels/ChatViewModel.cs:15-50 | in sequential use, with any messages, replies and faults, every reply stays paired with the user message before it |
| ViewModels.ClearDuringSendLeavesOrphanReply | Chat/Chat.ViewModels/ViewModels/ChatViewModel.cs:25-49 | a clear between the two halves of a send does not cancel it: the late reply is the only message, and the pairing is broken |
| ViewModels.ChatViewModel.constructor | Chat/Chat.ViewModels/ViewModels/ChatViewModel.cs:10-13 | an empty list, both flags false, ErrorMessage null |
| ViewModels.ChatViewModel.BeginSend | Chat/Chat.ViewModels/ViewModels/ChatViewModel.cs:19-26 | the new state is `AfterBegin` of the old one |
| ViewModels.ChatViewModel.CompleteSend | Chat/Chat.ViewModels/ViewModels/ChatViewModel.cs:27-41 | the new state is `AfterComplete` of the old one and the proxy's outcome |
| ViewModels.ChatViewModel.SendMessageAsync | Chat/Chat.ViewModels/ViewModels/ChatViewModel.cs:15-43 | the new state is `AfterSend` of the old one and the proxy's outcome for this message |
| ViewModels.ChatViewModel.ClearMessages | Chat/Chat.ViewModels/ViewModels/ChatViewModel.cs:45-50 | the new state is `AfterClear` of the old one |
| Pages.IsNullOrWhiteSpace | Chat/Chat.Views/Pages/ChatPage.razor.cs:14 | the guard `string.IsNullOrWhiteSpace`: null and the empty string are blank, and a blank string holds only characters that .NET's `char.IsWhiteSpace` accepts |
| Pages.WhiteSpaceCases | Chat/Chat.Views/Pages/ChatPage.razor.cs:14 | space, tab, line breaks, no-break and ideographic spaces are white space; the zero-width space, the byte-order mark and letters are not; " a " is not blank |
| Pages.AfterStartSend | Chat/Chat.Views/Pages/ChatPage.razor.cs:12-18 | null, empty or white-space input changes nothing; otherwise the text box is already empty at the view model's await, the original text has been appended as a user message, loading is set, and HasError and ErrorMessage are unchanged |
| Pages.AfterSendMessage | Chat/Chat.Views/Pages/ChatPage.razor.cs:12-20 | blank input changes nothing and calls nothing; otherwise the input is emptied and exactly one view-model send of the original text takes place |
| Pages.AfterKeyDown | Chat/Chat.Views/Pages/ChatPage.razor.cs:22-28 | any key other than Enter, or Enter with Shift, changes nothing; Enter alone is SendMessage |
| Pages.AfterClearChat | Chat/Chat.Views/Pages/ChatPage.razor.cs:30-33 | the view model is cleared as ClearMessages does: no messages, HasError false, ErrorMessage "", IsLoading unchanged; the text box is unchanged |
| Pages.SendMessageKeepsNoBlank | Chat/Chat.Views/Pages/ChatPage.razor.cs:14-18 | a send through the page never records a blank user message |
| Pages.ViewModelRecordsBlank | Chat/Chat.ViewModels/ViewModels/ChatViewModel.cs:15-25 | sending " " straight to the view model records a blank user message, because the view model has no guard |
| Pages.PageNeverRecordsBlank | Chat/Chat.Views/Pages/ChatPage.razor.cs:12-33 | after any sequence of typing, clicks, key presses and clears, no blank user message has entered the history |
| Pages.ChatPage.constructor | Chat/Chat.Views/Pages/ChatPage.razor.cs:7-10 | the page holds the given view model; MessageInput is null |
| Pages.ChatPage.StartSendMessage | Chat/Chat.Views/Pages/ChatPage.razor.cs:12-18 | the new page state is `AfterStartSend`; the text handed to the view model is the original input, or none when blank |
| Pages.ChatPage.SendMessage | Chat/Chat.Views/Pages/ChatPage.razor.cs:12-20 | the new page state is `AfterSendMessage` of the old one |
| Pages.ChatPage.HandleKeyDown | Chat/Chat.Views/Pages/ChatPage.razor.cs:22-28 | the new page state is `AfterKeyDown` of the old one |
| Pages.ChatPage.ClearChat | Chat/Chat.Views/Pages/ChatPage.razor.cs:30-33 | the new page state is `AfterClearChat` of the old one |
| McpTools.BuildRequest | Api.Chat/Providers/BlazzingPizzaToolProvider.cs:44-50 | every envelope has jsonrpc "2.0", the generated id, and the caller's method and params unchanged |
| McpTools.TransportFault | Api.Chat/Providers/BlazzingPizzaToolProvider.cs:54-55 | a timeout raises a cancellation; a failed connection or a non-2xx status raises an HTTP request failure carrying the status, if any |
| McpTools.SendJsonRpcRequestAsync | Api.Chat/Providers/BlazzingPizzaToolProvider.cs:41-57 | returns exactly when the POST of the envelope answers with a 2xx status, and then returns the raw body; otherwise raises the transport's exception |
| McpTools.UnwrapTools | Api.Chat/Providers/BlazzingPizzaToolProvider.cs:25-26 | returns exactly when the answer is a record with a result, and then returns that result's tools; a JSON error or a null raises |
| McpTools.GetToolsAsync | Api.Chat/Providers/BlazzingPizzaToolProvider.cs:22-27 | posts `tools/list` with empty params; on a 2xx answer it is the unwrapped tools; otherwise it raises the transport's exception |
| McpTools.ExecuteToolAsync | Api.Chat/Providers/BlazzingPizzaToolProvider.cs:29-39 | posts `tools/call` with params {name, arguments}; returns exactly on a 2xx answer, and then returns Ok of the raw body; otherwise raises the transport's exception |
| McpTools.GetToolsPostsOnlyToolsList | Api.Chat/Providers/BlazzingPizzaToolProvider.cs:24 | the listing depends only on the server's answer to the one `tools/list` envelope with empty params |
| McpTools.ResponseEnvelopeIgnored | Api.Chat/Providers/BlazzingPizzaToolProvider.cs:25-26 | the listing is exactly `result.tools`, in order, whatever `jsonrpc` and `id` the answer carries; the id is never checked |
| McpTools.ExecuteToolNeverFails | Api.Chat/Providers/BlazzingPizzaToolProvider.cs:37-38 | a tool call that returns is always Ok, never a failed Result |
| McpTools.HttpFailureRaises | Api.Chat/Providers/BlazzingPizzaToolProvider.cs:54-55 | when the server answers no request with a 2xx status, neither public operation returns |
| McpTools.RequestFor | Api.Chat/Providers/BlazzingPizzaToolProvider.cs:22-37 | a listing posts `tools/list` with empty params; a call posts `tools/call` with the tool name and arguments; both are JSON-RPC 2.0 with the drawn id |
| McpTools.RequestsFor | Api.Chat/Providers/BlazzingPizzaToolProvider.cs:44-50 | a run of operations posts one envelope per operation, in order, each with its own drawn id |
| McpTools.IssuedIdsAreFresh | Api.Chat/Providers/BlazzingPizzaToolProvider.cs:47 | when the Guids drawn are pairwise distinct, no envelope reuses an id of an earlier one; this carries the assumed uniqueness of the Guids through to the envelopes |

## Left out

- HTTP transport: the `HttpClient` lifetime, the URL and content type of the POST, and `ReadAsStringAsync`. The POST is the function parameter `post`. Its reply is a response, a failed connection or a timeout. Other exceptions the client may raise are not modelled.
- JSON serialisation: the camel-case naming, `WriteIndented = false` and the omission of nulls. The envelope is a datatype. Deserialisation is the parameter `deserialize`, whose outcome is a record, null or a JSON error.
- `Tool` and `ToolExecuteArguments` come from a library that is not part of this model. A tool is modelled as a name, a description and a schema text. Tool arguments are modelled as a map from strings to strings, relayed unchanged.
- `ToolsResultWrapper.Tools` being null is not modelled. The tool list is always a sequence.
- Null references other than `ErrorMessage` and `MessageInput` are not modelled. Strings, DTOs and list elements are never null here. So the model does not capture:
  - a `SendMessageAsync(null)` that records a user message with null content;
  - the NullReferenceException that a null element raises in `ToChatMessageModels`;
  - a successful backend `Result` whose `Value` is null.
- Logging in `ChatProxy` (lines 22 and 28) and the unused logger of the view model are left out. They have no effect on results.
- `async`/`await` scheduling and concurrent sends on one view model are left out. Only the sequential split at the await is modelled, with `ClearMessages` allowed between the halves.
- Pages.ChatPage.SendMessage: the page awaits the view model's whole `SendMessageAsync`. The model calls that method's two halves, `BeginSend` and `CompleteSend`, directly, so the page's state at the await can be stated. By the view model's contracts the result is the same.
- The Razor markup and its two-way binding of `MessageInput` are not part of this model. Typing is the `Typed` page event.
- The `[Required]` attribute on `ChatMessageModel.Content` is not modelled. It is a UI validation hint that nothing in the modelled code enforces.
- Dependency-injection registration and hosting (`Program.cs`, `DependencyContainer.cs`) are not part of this model.
- McpTools.IssuedIdsAreFresh: `Guid.NewGuid` uniqueness is an assumption, stated as pairwise-distinct Guids. It is not derived from anything.
