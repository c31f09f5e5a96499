# Client-side chat event handling, modelled in Dafny

This project models what the chat front end does when its socket or its user
produces an event. There are two components, and each is a small state machine.

- **The popup community chat** (`components/Chat.tsx`, module `PopupChat`).
  It holds the shown entries, the draft, and a one-slot register holding the
  last string this client sent. The register is how the widget tells its own
  echo from other people's messages. Sending a non-blank draft registers it,
  emits it and clears the draft. A broadcast string is appended and shown as
  `'me'` exactly when it equals the register, and a match empties the
  register. `PopupChat.Widget` is the state, `Receive` and `Send` are the
  handlers, and the class `ChatWidget` is the component, with one method per
  handler proved to produce the function's new state. The invariant `Sound`
  is kept by every event. It says that every entry shown as `'me'` carries a
  string this client emitted, that a registered string is the latest emit,
  and that entries shown as `'me'` never outnumber the sends.
- **The chat dashboard** (`app/chat-dashboard/page.tsx`, module
  `ChatDashboard`). It holds the socket's `connect`, `receive_message` and
  `typing` handlers, the form's `sendMessage` and `handleTyping`, and the
  rendering rules for ownership and sender name. Time is a millisecond clock.
  Each `setTimeout` reset of the typing flag is a deadline in `pending`, and
  `Tick` fires every deadline the clock has reached. Emits go to an outbox.
  The class `ChatDashboardPage` is the page, with one method per handler.
- **`String.prototype.trim`** (module `Js`) removes the ECMAScript WhiteSpace
  and LineTerminator characters at both ends. `TrimEmptyIffBlank` shows that
  both guards, `s.trim() === ""` and `!s.trim()`, hold exactly for blank
  strings. `Js.Option` is a string-or-`null` slot such as the popup's
  register. `Js.Value` is a field read from an object: `undefined`, `null` or
  a value. `===` tells all three apart.

The handlers do not deduplicate, typing resets do not extend one expiry, and
the active chat never changes:
- `receive_message` appends without deduplication.
- Typing resets are independent timers, so they do not extend one expiry.
  `EarliestResetClearsFlag` shows the flag dropping 3000 ms after the first
  of two typing events, even though a later one arrived.
- The active chat is `'general'` throughout. Nothing reassigns it, and there
  is no leave intent, room list, history load or search.

## Model

| member | source | states |
|---|---|---|
| `Js.TrimStart` | components/Chat.tsx:61 | leading whitespace removed: the result is a suffix, what was dropped is blank, the result does not start with whitespace |
| `Js.TrimEnd` | components/Chat.tsx:143 | trailing whitespace removed: the result is a prefix, what was dropped is blank, the result does not end with whitespace |
| `Js.Trim` | app/chat-dashboard/page.tsx:81 | `s.trim()`: the result is an infix of `s` with only whitespace before and after it, no longer than `s`, and it neither starts nor ends with whitespace |
| `Js.TrimEmptyIffBlank` | components/Chat.tsx:61 | `trim()` gives `""` (the one falsy string) if and only if the string is all whitespace |
| `PopupChat.Receive` | components/Chat.tsx:28-45 | exactly one entry is appended, holding the received text, and the earlier entries are unchanged; it is `'me'` iff the text equals the register; a match clears the register, otherwise the register is kept; draft and emits are untouched |
| `PopupChat.Send` | components/Chat.tsx:59-68 | a blank draft changes nothing at all; otherwise the exact untrimmed draft is registered and emitted once, then the draft becomes `""` |
| `PopupChat.SendDisabled` | components/Chat.tsx:143 | the send button is disabled exactly when the draft is blank |
| `PopupChat.SendDisabledMatchesGuard` | components/Chat.tsx:143 | the button is disabled iff submitting emits nothing, iff submitting changes nothing |
| `PopupChat.RepeatedEchoIsOther` | components/Chat.tsx:30-44 | after a matched echo, a second identical broadcast is shown as `'other'` |
| `PopupChat.SendTwice` | components/Chat.tsx:59-68 | two non-blank sends in a row emit both strings in order, register the second and clear the draft; the shown entries do not change |
| `PopupChat.ResendBeforeEcho` | components/Chat.tsx:30-64 | sending `b` before `a`'s echo arrives overwrites the register: `a`'s echo is `'other'`, `b` stays registered, and `b`'s echo is then `'me'` |
| `PopupChat.InitialSound` | components/Chat.tsx:20-23 | the freshly mounted state satisfies the attribution invariant |
| `PopupChat.StepSound` | components/Chat.tsx:28-68 | edit, submit and receive each keep the attribution invariant |
| `PopupChat.RunSound` | components/Chat.tsx:28-68 | any sequence of events keeps the invariant and only appends entries |
| `PopupChat.MineNeverExceedsSent` | components/Chat.tsx:23-68 | from mounting on, entries shown as `'me'` never outnumber the messages sent |
| `PopupChat.ChatWidget.constructor` | components/Chat.tsx:20-23 | empty chat, empty draft, null register, nothing emitted |
| `PopupChat.ChatWidget.Edit` | components/Chat.tsx:137 | only the draft changes, to the typed value |
| `PopupChat.ChatWidget.SendMessage` | components/Chat.tsx:59-68 | the new state is `Send` of the old one, and the invariant is kept |
| `PopupChat.ChatWidget.ReceiveMessage` | components/Chat.tsx:28-45 | the new state is `Receive` of the old one, and the invariant is kept |
| `PopupChat.ChatWidget.IsSendDisabled` | components/Chat.tsx:143 | true exactly when the current draft is blank |
| `ChatDashboard.SignIn` | app/chat-dashboard/page.tsx:33-36 | the user is stored and a socket exists; nothing else changes |
| `ChatDashboard.OnConnect` | app/chat-dashboard/page.tsx:54-57 | exactly one `join_chat` for the active chat is emitted; nothing else changes |
| `ChatDashboard.EveryConnectJoins` | app/chat-dashboard/page.tsx:54-57 | `n` connections in a row, repeated ones included, emit exactly `n` joins for the active chat |
| `ChatDashboard.OnReceive` | app/chat-dashboard/page.tsx:59-61 | the payload is appended at the end, the prefix is unchanged, and nothing else changes |
| `ChatDashboard.DuplicateIdAppended` | app/chat-dashboard/page.tsx:60 | a payload whose id is already shown is appended again, so two shown messages share that id |
| `ChatDashboard.OnTyping` | app/chat-dashboard/page.tsx:63-66 | the flag is raised and a reset at now+3000 is scheduled after the earlier ones, none cancelled |
| `ChatDashboard.Remaining` | app/chat-dashboard/page.tsx:65 | keeps exactly the deadlines after `now`, each with all its copies, and drops every copy of each due one; shrinks iff some reset is due; unchanged if none is; empty if all are |
| `ChatDashboard.Tick` | app/chat-dashboard/page.tsx:65 | the clock moves to `now`; if any reset is due the flag is down, otherwise flag and timers are unchanged; exactly the later deadlines stay scheduled, each with as many copies as before, and no copy of a due one is left |
| `ChatDashboard.TypingClearsWithinWindow` | app/chat-dashboard/page.tsx:63-66 | with the timer invariant, 3000 ms after the clock the flag is down and no reset is left |
| `ChatDashboard.FirstResetPending` | app/chat-dashboard/page.tsx:63-66 | typing and then ticking less than 3000 ms later moves the clock and keeps that reset scheduled |
| `ChatDashboard.DueAndLaterReset` | app/chat-dashboard/page.tsx:65 | a tick at a reset's deadline lowers the flag and keeps any later reset |
| `ChatDashboard.EarliestResetClearsFlag` | app/chat-dashboard/page.tsx:63-66 | typing at `t` and at `t+gap` (gap under 3000): the flag is down at `t+3000`, and the second reset is still scheduled |
| `ChatDashboard.Send` | app/chat-dashboard/page.tsx:79-89 | a blank input or a missing socket changes nothing; otherwise exactly one `send_message` with the active chat id and the untrimmed input is emitted, and the input is cleared |
| `ChatDashboard.TypingNotice` | app/chat-dashboard/page.tsx:91-95 | one `typing` emit for the active chat iff there is a socket; nothing else changes |
| `ChatDashboard.IsMine` | app/chat-dashboard/page.tsx:234 | a message is mine iff `sender?._id` and `user?._id` are both `undefined`, both `null`, or the same string |
| `ChatDashboard.SenderName` | app/chat-dashboard/page.tsx:244 | the sender's username when it is a non-empty string, otherwise (no sender, `null`/`undefined`/`""` username) `"System"`; never empty |
| `ChatDashboard.SystemMessageOwnership` | app/chat-dashboard/page.tsx:234-244 | a message with a `null` or missing sender is mine iff `user?._id` is `undefined`, and is labelled `"System"` |
| `ChatDashboard.NullIdDiffersFromMissing` | app/chat-dashboard/page.tsx:234 | before sign-in, a sender whose `_id` is `null` is not mine, but a sender with no `_id` is |
| `ChatDashboard.InitialSound` | app/chat-dashboard/page.tsx:18-24 | the first render satisfies the invariants, and its active chat is `'general'` |
| `ChatDashboard.StepSound` | app/chat-dashboard/page.tsx:47-95 | every event keeps the timer invariant and "every emit names the active chat", and leaves the active chat alone |
| `ChatDashboard.RunSound` | app/chat-dashboard/page.tsx:47-95 | any run keeps the invariants and the active chat, and only appends messages and emits |
| `ChatDashboard.ActiveChatStaysGeneral` | app/chat-dashboard/page.tsx:21-93 | from the first render on, the active chat stays `'general'` and every emit names it |
| `ChatDashboard.ChatDashboardPage.constructor` | app/chat-dashboard/page.tsx:18-24 | the initial state, with the clock at the given time |
| `ChatDashboard.ChatDashboardPage.Start` | app/chat-dashboard/page.tsx:33-36 | the new state is `SignIn` of the old one |
| `ChatDashboard.ChatDashboardPage.Connect` | app/chat-dashboard/page.tsx:54-57 | the new state is `OnConnect` of the old one |
| `ChatDashboard.ChatDashboardPage.ReceiveMessage` | app/chat-dashboard/page.tsx:59-61 | the new state is `OnReceive` of the old one |
| `ChatDashboard.ChatDashboardPage.PeerTyping` | app/chat-dashboard/page.tsx:63-66 | the new state is `OnTyping` of the old one |
| `ChatDashboard.ChatDashboardPage.AdvanceTo` | app/chat-dashboard/page.tsx:65 | the new state is `Tick` of the old one |
| `ChatDashboard.ChatDashboardPage.SetInput` | app/chat-dashboard/page.tsx:286 | only the input changes, to the typed value |
| `ChatDashboard.ChatDashboardPage.SendMessage` | app/chat-dashboard/page.tsx:79-89 | the new state is `Send` of the old one |
| `ChatDashboard.ChatDashboardPage.HandleTyping` | app/chat-dashboard/page.tsx:91-95 | the new state is `TypingNotice` of the old one |

All class methods also keep the component's invariant (`Valid`).

`Run` accepts every order of events, including some the page cannot produce:
socket events before `SignedIn`, and form events while the page is still
loading. So the trace lemmas (`RunSound`, `ActiveChatStaysGeneral`,
`MineNeverExceedsSent`) cover more runs than the components can have.

## Left out

- The socket.io transport is left out. That covers creating the socket, `connect`/`disconnect`, `on`/`off`, the auth-token handshake and `close`. Emits are appends to an outbox, and incoming events are method calls.
- The dashboard's socket teardown is left out. The close function `initSocket` returns is discarded by its caller, so it has no effect on state.
- `fetchUser`'s failure paths are left out, because they only navigate away. Its success path is `SignIn`. `loading` is left out because it only switches the rendering.
- Entry ids in the popup come from `Math.random`, so the caller supplies them as opaque strings. Timestamps and displayed times come from the wall clock and only feed formatting, so they are left out.
- The typing timers use a natural-number millisecond clock. Events happen at the current clock value, and `Tick`/`AdvanceTo` require time not to go backwards.
- React rendering, scrolling, styling and `preventDefault` are left out. The ownership and sender-name rules used while rendering are modelled.
- The popup's broadcast payload is taken to be a string, as the handler declares. A non-string payload other than `null` is never `===` to the register, so it would be shown as `'other'`.
- MineNeverExceedsSent: does not cover a `null` broadcast. Such a payload is `===` to the empty (`null`) register, so it would be shown as `'me'` with no send behind it, and the bound would fail.
- IsMine: a message's `sender` and the signed-in `user` are person records, `null`, or missing. A `sender` of another type, such as a bare id string, is not modelled.
- Tick: timers fire exactly at their deadline, before any later event. A real `setTimeout` may fire late, so an event can run while a due reset has not fired yet. TypingClearsWithinWindow and EarliestResetClearsFlag are stated under this timing.
- Strings are Dafny strings, which are sequences of Unicode scalar values. JavaScript's `===` and `trim` work on UTF-16 code units, so strings with lone surrogates cannot be represented.
- `Js.IsWhitespace` is a fixed set: the Unicode space separators (category Zs) plus the ECMAScript whitespace and line terminators. Other Unicode versions' whitespace is not modelled.
- The login, registration, password, profile and home pages are not part of this model. Neither are the `backend/` fetch wrappers. They are network round-trips and navigation with one-line guards.
