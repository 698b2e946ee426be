# nordvig-mobile core, modelled in Dafny

nordvig-mobile is a React Native chat client for a personal AI assistant. The user signs
in with a six-digit code, the app keeps the issued token in the device's secure store, and
the chat screen talks to the assistant over a WebSocket. Past messages are paged in over
REST, and assistant replies are shown with a small inline markdown renderer.

This project models the client's logic and proves properties about it:

- `markdown.dfy` (`Markdown`): the inline markdown tokenizer. Its regular-expression
  search is written as a scanner, proved to find the leftmost, shortest match with bold
  tried before italic and italic before code. The tokenizer loop is proved to produce
  exactly the specification `Parse`, and rendering the parts back gives the input.
- `realtime.dfy` (`Realtime`): the WebSocket session, one class whose methods are the
  session's operations and the environment's events (open, close, timer firing,
  keepalive tick). It also holds the backoff schedule and the frame dispatch.
- `history.dfy` (`History`): the history paginator and the mapping of stored messages
  to chat entries.
- `api.dfy` (`Api`): the REST client. It covers the bearer header, token validation,
  login and logout against the secure store, the login error text and the history query.
- `auth.dfy` (`Auth`): the authentication hook's state record and its transitions.
- `rootlayout.dfy` (`RootLayout`): the route guard.
- `loginscreen.dfy` (`LoginScreen`): the login code sanitiser and the submit flow.
- `chatinput.dfy` (`ChatInput`): the composer's send guard.
- `types.dfy` (`Types`): the wire and UI records.
- `text.dfy` (`Text`) and `wrappers.dfy` (`Wrappers`): the JavaScript string behaviour
  the core relies on (`trim`, `String(n)` for integers) and the Option/Result types.

Sockets, timers, HTTP replies and the secure store are inputs or events:

- A socket is an index into the session's history of sockets. `HandleOpen` and
  `HandleClose` require what the WebSocket contract guarantees: a socket opens only
  while connecting, and closes once.
- A timeout or interval is an index into the session's history of timers.
- An HTTP reply is a parameter (`Api.Probe`, `Api.LoginReply`, `Api.HistoryReply`,
  `History.FetchOutcome`).
- The secure store is a class holding a `map<string, string>`.

Each event handler and each `async` function runs as one atomic step. The paginator's
loads are split into a start and a finish, so that the in-flight flag is visible between
them.

Behaviours of the code that the contracts state as written:

- The close handler never checks that its socket is still the current one, so closing a
  socket always schedules a reconnect. This includes the close that `disconnect` causes
  (`Realtime.DisconnectThenClose`).
- The close handler clears whichever interval `pingTimer` holds at that moment.
- `loadMore` treats an anchor of 0 like a missing one, because it tests `!oldestId`.

## Model

| member | source | states |
|---|---|---|
| Markdown.ParseMarkdown | components/MarkdownRenderer.tsx:47-82 | the tokenizer loop returns exactly `Parse(input)`, the parts render back to the input, and there is at least one part |
| Markdown.Exec | components/MarkdownRenderer.tsx:50-55 | a match starts at or after `lastIndex`, is a bold, italic or code span with non-empty inner text, and ends within the input |
| Markdown.ExecCorrect | components/MarkdownRenderer.tsx:50-55 | `exec` returns the leftmost match: the shortest span of the first alternative that matches at the first position where any does; it returns nothing only when no span starts at or after `lastIndex` |
| Markdown.MatchAtSound | components/MarkdownRenderer.tsx:50 | at one position the alternatives are tried bold, italic, code; the first that matches wins, and nothing is found only when none matches |
| Markdown.TryAtSound | components/MarkdownRenderer.tsx:50 | one alternative at one position yields its shortest span, or nothing when it has no span there |
| Markdown.CloseFromSound | components/MarkdownRenderer.tsx:50 | the non-greedy `.+?` stops at the first closing delimiter on the line and fails only when the line has none |
| Markdown.ScanFollowsExec | components/MarkdownRenderer.tsx:52-70 | each span of the result is the leftmost match from the end of the previous one, preceded by the text between them |
| Markdown.ScanRenders | components/MarkdownRenderer.tsx:55-75 | the parts from any scan position render back to the rest of the input |
| Markdown.ParseRoundTrip | components/MarkdownRenderer.tsx:55-75 | rendering the parts with their delimiters restored gives back the input exactly |
| Markdown.ParseEmpty | components/MarkdownRenderer.tsx:77-79 | the empty input gives one text part with text "" |
| Markdown.Parse | components/MarkdownRenderer.tsx:77-79 | the result always has at least one part |
| Markdown.ScanWellFormed | components/MarkdownRenderer.tsx:57-75 | from any scan position, text parts are non-empty, spans are non-empty and on one line, and no two text parts are adjacent |
| Markdown.ParseWellFormed | components/MarkdownRenderer.tsx:57-79 | for non-empty input the result is well formed; span texts are non-empty and free of line terminators in every case |
| Markdown.BoldBeforeItalic | components/MarkdownRenderer.tsx:50-66 | `**x**` gives a single bold part "x" |
| Realtime.NextDelay | hooks/useWebSocket.ts:82 | the next delay is `min(2d, 30000)`, and stays in the backoff set |
| Realtime.WaitSchedule | hooks/useWebSocket.ts:18 | successive reconnect waits are 1000, 2000, 4000, 8000, 16000 and then 30000, always within [1000, 30000] |
| Realtime.CloseSocket | hooks/useWebSocket.ts:23-26 | `close()` moves the given socket from connecting or open to closing, leaves a closing or closed one as it is, and changes no other socket |
| Realtime.ClearInterval | hooks/useWebSocket.ts:78 | `clearInterval` stops only the interval the handle names and keeps its socket and period |
| Realtime.ClearTimeout | hooks/useWebSocket.ts:99 | `clearTimeout` cancels only the timeout the handle names |
| Realtime.Session.constructor | hooks/useWebSocket.ts:15-19 | no socket and no timers, delay 1000, not connected |
| Realtime.Session.Connect | hooks/useWebSocket.ts:21-32 | the previous socket is closed and forgotten; a new connecting socket to the chat endpoint with the token exists exactly when a non-empty token is stored; nothing else changes |
| Realtime.Session.HandleOpen | hooks/useWebSocket.ts:34-44 | an open resets the delay to 1000, marks connected and starts one running keepalive interval for that socket with a 25000 ms period |
| Realtime.Session.HandleClose | hooks/useWebSocket.ts:76-85 | a close, of any socket, marks disconnected, clears the held interval and schedules a reconnect with the delay current at that moment |
| Realtime.Session.FireReconnect | hooks/useWebSocket.ts:81-84 | the fired timeout is done, the delay becomes `min(2d, 30000)`, and then `connect` runs |
| Realtime.Session.PingTick | hooks/useWebSocket.ts:39-43 | a tick sends a ping on its own socket exactly when that socket is open |
| Realtime.Session.Send | hooks/useWebSocket.ts:92-96 | a message frame with the text goes out exactly when the current socket is open |
| Realtime.Session.Disconnect | hooks/useWebSocket.ts:98-107 | the held timeout and interval are cleared, the current socket is closed and forgotten, and the session is disconnected; a second call changes nothing |
| Realtime.DispatchExact | hooks/useWebSocket.ts:46-74 | each of the six handled frame types invokes exactly its own callback with the frame's fields; `pong`, unknown types and unparseable frames invoke nothing |
| Realtime.Dispatch | hooks/useWebSocket.ts:46-74 | a frame invokes no callback exactly when it is unparseable, of unknown type or `pong`; a callback it invokes is the one answering that frame |
| Realtime.FailingReconnects | hooks/useWebSocket.ts:21-85 | driving a session through attempts that each close before opening schedules reconnects after `Wait(0)`, `Wait(1)`, ..., so the first three are 1000, 2000 and 4000 |
| Realtime.DisconnectThenClose | hooks/useWebSocket.ts:76-107 | the close that follows `disconnect` still leaves a reconnect pending |
| Types.ClientMessage.Tag | lib/types.ts:4-6 | the `type` field is "message" exactly for a message frame and "ping" exactly for a ping |
| Types.ServerTagDeterminesVariant | lib/types.ts:9-16 | the seven `type` tags are distinct, so the tag determines the variant |
| Text.TrimStart | components/ChatInput.tsx:22 | removes a whitespace prefix and leaves a string that does not start with whitespace |
| Text.TrimEnd | components/ChatInput.tsx:22 | removes a whitespace suffix and leaves a string that does not end with whitespace |
| Text.TrimShape | components/ChatInput.tsx:22 | the trimmed text is a slice of the input with only whitespace cut from both ends, and has no whitespace at either end |
| Text.TrimIdempotent | components/ChatInput.tsx:22 | trimming twice equals trimming once |
| Text.TrimEmptyIff | components/ChatInput.tsx:23 | the trimmed text is empty exactly when the input is all whitespace |
| Text.NatToDecimal | hooks/useHistory.ts:7 | `String(n)` is one or more digits with no leading zero |
| Text.NatToDecimalRoundTrip | hooks/useHistory.ts:7 | the digits of `String(n)` read back as `n` |
| Text.IntToDecimal | hooks/useHistory.ts:7 | `String(n)` has a leading '-' exactly for negative numbers, followed by one or more digits with no leading zero |
| Text.ParseNegative | hooks/useHistory.ts:7 | a minus sign followed by digits reads back as the negated value |
| Text.ParseDigits | hooks/useHistory.ts:7 | digits alone read back as their value |
| Text.IntToDecimalRoundTrip | hooks/useHistory.ts:7 | `String(n)` parses back to `n`, negative numbers included |
| Text.IntToDecimalInjective | hooks/useHistory.ts:7 | different numbers have different decimal strings |
| Api.AuthHeadersCarryToken | lib/api.ts:10-14 | no headers without a token; otherwise exactly one `Authorization` header from which the token reads back |
| Api.AuthHeaders | lib/api.ts:10-14 | no headers when the token is missing or empty; otherwise exactly an `Authorization` header holding "Bearer " and the token |
| Api.IsAuthenticated | lib/api.ts:46-60 | false with no request when no token is stored; otherwise one request to `/owner/api/data` with the auth headers, valid when the reply is ok or the network fails |
| Api.RefusalMessageNamesStatus | lib/api.ts:23-26 | a refused login throws the body's `error` when it is truthy; otherwise, unparseable body included, it throws `Login failed (<status>)` with the status in its canonical decimal spelling, which reads back as the status |
| Api.RefusalMessage | lib/api.ts:25 | the thrown message is never empty, and is the body's `error` whenever that is a non-empty string |
| Api.LoginResult | lib/api.ts:16-28 | `login` returns a response exactly when the reply is ok with a readable body, and that response is the body; an ok reply whose body cannot be read throws the parse error's message; a refusal throws `RefusalMessage`; a rejected `fetch` throws its own message |
| Api.Login | lib/api.ts:16-37 | a successful login stores the four auth keys from the response and returns it; a failure throws the selected message and stores nothing |
| Api.StoredLoginContents | lib/api.ts:30-34 | after login the four keys hold token, owner name, bot name and tenant id, and every other key is unchanged |
| Api.Logout | lib/api.ts:39-44 | logout deletes exactly the four auth keys, so none of them remains |
| Api.LogoutUndoesLogin | lib/api.ts:30-43 | logout after login leaves the store as logout alone would, outside the four keys |
| Api.SetParam | lib/api.ts:68-70 | `URLSearchParams.set` makes the key read back its value, leaves other keys alone, and appends a new key at the end |
| Api.HistoryParams | lib/api.ts:63-70 | filling the parameters step by step gives a query whose keys are `before` (only when truthy), `limit` (always, default 50) and `platform` (only when non-empty), in that order, with those values |
| Api.FetchHistory | lib/api.ts:62-77 | one request to `/owner/api/history` with the auth headers and a query whose keys, order and values are those of `HistoryParams`; a rejected `fetch` throws its message, a reply that is not ok throws "Failed to fetch history", and an ok reply returns its body or throws when the body cannot be read |
| History.HistoryToChat | hooks/useHistory.ts:5-13 | the id is `String(n)` of the message id and parses back to that id, the text is the content, direction and platform are copied, the timestamp is the creation date, and neither streaming flag nor tools are set |
| History.HistoryToChatKeepsIdsApart | hooks/useHistory.ts:7 | messages with different ids map to entries with different ids |
| History.ToChat | hooks/useHistory.ts:25 | the page is mapped one to one, in order |
| History.ToChatKeepsIdsApart | hooks/useHistory.ts:25 | a page with distinct ids maps to entries with distinct ids |
| History.MoreBlocked | hooks/useHistory.ts:36 | `loadMore` fetches exactly when more pages are known, no load is in flight and the anchor is present and not 0 |
| History.NextAnchor | hooks/useHistory.ts:26-28 | a non-empty page moves the anchor to its first message; an empty page keeps it |
| History.Paginator.constructor | hooks/useHistory.ts:16-18 | more pages are assumed, no anchor, not loading |
| History.Paginator.StartInitial | hooks/useHistory.ts:20-23 | the initial load, with no guard, fetches 50 messages with no anchor, raises the loading flag and adds an initial load to those in flight |
| History.Paginator.StartMore | hooks/useHistory.ts:35-39 | nothing is fetched exactly when there are no more pages, a load is in flight, or the anchor is missing or 0; otherwise 30 messages before the anchor are fetched and an older-page load is in flight |
| History.Paginator.Finish | hooks/useHistory.ts:24-47 | after either load the loading flag is down and that load is no longer in flight; a page sets `hasMore` from the response, moves the anchor to its first message when non-empty, and is returned mapped; a throw changes neither and is passed on |
| History.StaleOlderPageReopensPaging | hooks/useHistory.ts:20-49 | an older-page load that overlaps an initial load reporting no more history reopens paging when it completes |
| History.SerialPaginator.constructor | hooks/useHistory.ts:16-18 | more pages are assumed, no anchor, nothing in flight |
| History.SerialPaginator.StartInitial | hooks/useHistory.ts:20-23 | with the flag checked, an initial load starts exactly when no load is in flight, fetching 50 messages with no anchor |
| History.SerialPaginator.StartMore | hooks/useHistory.ts:35-39 | the older-page load, guarded exactly as `loadMore`, with at most one load in flight |
| History.SerialPaginator.Finish | hooks/useHistory.ts:24-47 | as `Paginator.Finish`, and once a page has reported no more history, only an initial load can reopen paging |
| Auth.Checked | hooks/useAuth.ts:24-46 | the checked record is not loading; it is signed in exactly when the store can be read, holds a non-empty token and the token validates; names are kept only when signed in |
| Auth.SignedIn | hooks/useAuth.ts:50-55 | the record after login is signed in with the response's names |
| Auth.CheckAfterLogin | hooks/useAuth.ts:24-57 | after a successful login with a non-empty token, a check reaches the login's record unless the server rejects the token |
| Auth.CheckAfterLogout | hooks/useAuth.ts:24-62 | after logout every check ends signed out |
| Auth.AuthHook.constructor | hooks/useAuth.ts:13-18 | the initial record is loading, signed out and without names |
| Auth.AuthHook.CheckAuth | hooks/useAuth.ts:24-46 | the record becomes `Checked`; the validation request goes out only when a token is stored |
| Auth.AuthHook.Login | hooks/useAuth.ts:48-57 | success stores the response and signs in with its names; a failure leaves the record and the store unchanged |
| Auth.AuthHook.Logout | hooks/useAuth.ts:59-62 | the auth keys are deleted and the record is signed out |
| RootLayout.Redirect | app/_layout.tsx:23-33 | no redirect while loading; to the chat when signed in outside the app group; to "/" when signed out inside it; none otherwise |
| RootLayout.RedirectSettles | app/_layout.tsx:26-32 | on the route a redirect leads to, no further redirect is asked for |
| RootLayout.TokenPresence | app/_layout.tsx:18-19 | the guard counts a user as signed in exactly when a non-empty token is stored |
| RootLayout.GuardAdmitsCheckedUser | app/_layout.tsx:17-21 | every user the auth hook signs in passes the guard; a stored token the server rejects passes the guard but not the hook |
| RootLayout.Guard.constructor | app/_layout.tsx:8-9 | the guard starts loading and signed out |
| RootLayout.Guard.CheckAuth | app/_layout.tsx:17-21 | the guard's flag becomes token presence and loading ends |
| LoginScreen.FilterDigits | app/index.tsx:59 | only ASCII digits remain, and never more characters than the input had |
| LoginScreen.FilterDigitsAppend | app/index.tsx:59 | the filter distributes over concatenation, so digits keep their input order |
| LoginScreen.FilterDigitsChar | app/index.tsx:59 | a single character remains exactly when it is a digit |
| LoginScreen.FilterDigitsKeepsDigits | app/index.tsx:59 | a string of digits passes the filter unchanged |
| LoginScreen.Take | app/index.tsx:59 | `slice(0, n)` is a prefix of the input, of length n or the whole input when it is shorter |
| LoginScreen.Sanitize | app/index.tsx:59 | the code field holds at most six characters, all ASCII digits, which are the first digits typed |
| LoginScreen.SanitizeIdempotent | app/index.tsx:59 | sanitising twice equals sanitising once |
| LoginScreen.TrimKeepsDigits | app/index.tsx:23 | a digit string is its own trim |
| LoginScreen.LoginErrorText | app/index.tsx:36 | the error shown is never empty: the thrown message when it is not empty, and exactly "Login failed" when it is |
| LoginScreen.LoginForm.constructor | app/index.tsx:16-18 | the form starts empty, idle and without an error |
| LoginScreen.LoginForm.OnChangeText | app/index.tsx:58-61 | each edit stores the sanitised text and clears the error |
| LoginScreen.LoginForm.CanSubmit | app/index.tsx:75 | the button is enabled exactly when the code has six characters and no login is in flight; on a sanitised code its trim then has six characters, so a submit posts |
| LoginScreen.LoginForm.HandleLogin | app/index.tsx:22-40 | a trimmed code whose length is not 6 sets the hint and posts nothing; otherwise the code is posted, success navigates to the chat, a failure shows its message, and loading is false afterwards |
| LoginScreen.SubmitMatchesButton | app/index.tsx:75 | on a sanitised code, an enabled button means a submit posts, and a submit that posts had a full code |
| ChatInput.Outgoing | components/ChatInput.tsx:21-26 | the text sent is the trimmed draft, sent exactly when it is not all whitespace and input is enabled |
| ChatInput.CanSend | components/ChatInput.tsx:28 | the button is enabled exactly when pressing it would send |
| ChatInput.Composer.constructor | components/ChatInput.tsx:18 | the draft starts empty |
| ChatInput.Composer.OnChangeText | components/ChatInput.tsx:38 | an edit replaces the draft |
| ChatInput.Composer.HandleSend | components/ChatInput.tsx:21-26 | at most one send, with the trimmed draft, exactly when `canSend` held; the draft is "" after a send and kept otherwise |

## Findings

| source | as written | input that shows it | evidently intended | confidence | as-written member | corrected member |
|---|---|---|---|---|---|---|
| hooks/useHistory.ts:20-49 | `loadInitial` raises `isLoading` without checking it, so it can overlap a `loadMore` that is in flight; whichever finishes last sets `hasMore` | initial load reports `hasMore` true with oldest id 40; `loadMore` starts; a second initial load starts and reports `hasMore` false; the older page then arrives with `hasMore` true, and paging is open again | loads do not overlap, so once the history is exhausted only a new initial load reopens paging | low, not executed | History.StaleOlderPageReopensPaging | History.SerialPaginator.Finish |

## Left out

- JSON: `JSON.stringify` of outgoing frames and bodies, and `JSON.parse` of incoming ones, are not modelled. A frame is the `Types.ClientMessage` written, and an incoming frame is given as an `Inbound` value.
- I/O: `fetch`, `WebSocket`, `setTimeout`, `setInterval` and `expo-secure-store` are events or parameters. Time itself is not modelled: a timeout records its delay and fires when the environment says so.
- Concurrency: apart from the paginator's overlapping loads, React's re-render timing, stale closures and the interleaving of `async` functions at `await` points are not modelled. Each handler is one atomic step. For example, `loadMore` reads the flags of the render that created it, and the model uses the current ones.
- Store read failures: a failing `getItemAsync` in the auth hook is the `readFailed` flag. A storage failure inside login, logout or the guard's check is not modelled.
- Dates: `new Date(createdAt)` is not parsed. `Types.Timestamp` wraps the creation string unchanged.
- `Text.IntToDecimal`: does not model JavaScript's exponent form for numbers of 1e21 and above, or non-integral numbers. Ids are integers.
- `Text.IsWhitespace`: the whitespace set for `trim` is fixed to ASCII whitespace, no-break space, byte order mark, line and paragraph separators and the Unicode space separators. It has no general Unicode lookup.
- String length is counted in Unicode scalar values, not UTF-16 code units. For the login code this makes no difference, because it holds only ASCII digits.
- Optional callbacks (`?.`) and exceptions thrown inside a callback are not modelled. Every callback is taken to be present.
- URL encoding: `URLSearchParams` serialisation and the unescaped token in the WebSocket URL are not modelled. The query is the ordered key/value list.
- A successful login reply whose body lacks `AuthResponse` fields is not modelled; the body either parses to a full response or is malformed, and a malformed body throws its parse message.
- `ws.onerror` is not modelled; it does nothing, and the close that follows is `HandleClose`.
- The `maxLength` limits of the text inputs (6 on the code field, 10000 on the composer) are enforced by the platform and are not modelled.
- The chat screen, with its streaming-token reconciler and active-tool indicator, is not part of this model.
- Rendering, styles and the bubble and tool-indicator components are not modelled.
- `Text.Trim`: carries no contract of its own; what it does is stated by `Text.TrimShape`, `Text.TrimIdempotent` and `Text.TrimEmptyIff`.
