# WAMP client model

This project models `WAMPClient` in `src/websocket/wampClient.ts`. It is the client side of a small
WAMP-v1-style protocol over one WebSocket. Every message is a JSON array whose first element is an
integer opcode: 0 welcome, 2 call, 3 call result, 4 call error, 5 subscribe, 6 unsubscribe, 8 event
and 20 heartbeat.

The client keeps:
- a socket (`null`, or a WebSocket in some ready state);
- the session id the server sent;
- two post-incremented counters, one for call ids and one for heartbeats;
- two registries: `pendingCalls` maps a call id to the continuation of the promise `call` returned,
  and `subscriptions` maps a topic URI to its callback.

Modules:
- `CallIds` (`callids.dfy`) gives call-id generation as functions. An id is the counter written in
  base 36 the way `Number.prototype.toString(36)` writes it, then left-padded with `'0'` to width 16
  by `padStart`. The module proves that an id decodes back to its counter value. So distinct
  counters give distinct ids. An id has exactly 16 characters precisely while the counter is below
  36^16.
- `Messages` (`messages.dfy`) holds the decoded message datatype `Msg`, with one constructor per
  opcode plus `Other` for the default branch. It also has the array each message is written as
  (`Encode`, proved injective), the response a continuation receives, and the entries of the
  delivery log.
- `WampClient` (`client.dfy`) holds `class Client<P>`. Its fields are the source's fields, plus two
  sequences the source does not keep:
  - `outbox`: every frame handed to `socket.send`;
  - `deliveries`: every invocation of a stored continuation or callback.

  Each public method's postcondition gives the complete new state, as a function of the old state.
  The `modifies` clause names the fields that may change; every other field keeps its value. The
  postcondition says which map entry was added or removed, which frame was appended and which
  closure was invoked. The object invariant `Valid()` (`Bookkeeping`) has two parts, each checked
  one step at a time:
  - `SentInOrder` walks the frames sent from the newest. Call frames must carry the ids of the
    call-id counter's values, last first, and heartbeat frames the heartbeat counter's values.
  - `Accounted` replays the delivery log backwards, starting from the current pending set. Each
    continued id must be absent from the set rebuilt so far, and is then added back to it. At the
    start of the log the rebuilt set must be exactly the ids generated by now.

  `SentInOrderTraces`, `AccountedMeans` and `Client.ValidMeans` prove what the invariant says as
  sequences and sets:
  - the call frames sent carry exactly the ids generated so far, in order;
  - the heartbeat frames carry 0, 1, 2, … in order;
  - every generated id is either still pending or has had its continuation invoked exactly once,
    and never both.

  Together with `FreshCallId`, this is why `call` never reuses an id that is pending or settled.
- `Scenarios` (`scenarios.dfy`) holds client methods that drive a client through login, error,
  subscription and heartbeat exchanges. The exchanges over an open socket start from any client
  that keeps its invariant, so their results are stated relative to the state before them. Their
  postconditions are what the class contracts alone let a caller conclude.

Payloads (call arguments, results, error details, event bodies) are an opaque type parameter `P`.
Continuations and callbacks are opaque `HandlerId`s. The caller of `Call` supplies the id of the
promise's continuation.

The model follows the code as written:
- Opcode 0 only stores the session id. No "connected" flag exists.
- `connect` returns nothing.
- A `call` on a socket that is absent or not open returns a promise rejected with the string
  "WebSocket is not connected". `subscribe`, `unsubscribe` and `sendHeartbeat` throw an Error with
  that message instead.
- `disconnect` does not clear the session id. Only the socket's later `onclose` does, so
  `DisconnectThenClose` shows the session id surviving `disconnect`.
- `unsubscribe` sends its frame even when no subscription existed.

## Model

| member | source | states |
|---|---|---|
| CallIds.ToBase36 | src/websocket/wampClient.ts:38 | `toString(36)` on the counter: a numeral of at least one digit, a single digit exactly when the value is below 36 (its digits and value are stated by ToBase36Digits and FromToBase36) |
| CallIds.PadStart | src/websocket/wampClient.ts:38 | `padStart(width, fill)`: the result is as long as the input when that already reaches the width, and exactly the width otherwise (its suffix and fill are stated by PadStartShape) |
| CallIds.CallIdOf | src/websocket/wampClient.ts:38 | the id `generateCallId` returns for a counter value is at least 16 characters long (its decoding and width are stated by CallIdDecodes and CallIdWidth) |
| CallIds.ToBase36Digits | src/websocket/wampClient.ts:38 | the numeral `toString(36)` gives: at least one digit, all digits from 0-9a-z, and a leading '0' exactly when the value is zero |
| CallIds.PadStartShape | src/websocket/wampClient.ts:38 | `padStart(16, '0')`: the result has length max(len, 16), ends with the input unchanged (never truncated) and is filled with the pad character before it |
| CallIds.FromToBase36 | src/websocket/wampClient.ts:38 | reading the base-36 numeral of n back gives n |
| CallIds.CallIdDecodes | src/websocket/wampClient.ts:37-39 | every generated id is all base-36 digits and, zero padding included, denotes the counter value it was generated from |
| CallIds.CallIdInjective | src/websocket/wampClient.ts:37-39 | two counter values give the same id only if they are equal |
| CallIds.CallIdWidth | src/websocket/wampClient.ts:38 | an id is never shorter than 16, and is exactly 16 characters if and only if the counter is below 36^16 |
| CallIds.LeadingZeros | src/websocket/wampClient.ts:38 | the '0' padding does not change the value an id denotes |
| CallIds.FromBase36Bound | src/websocket/wampClient.ts:38 | a numeral of k digits denotes a value below 36^k |
| CallIds.ToBase36Length | src/websocket/wampClient.ts:38 | a value below 36^k needs at most k base-36 digits |
| Messages.Encode | src/websocket/wampClient.ts:140 | the array a message is sent or read as starts with the message's opcode, and it is a bare one-element array exactly for `Other`, a frame with no fields whose opcode is none of the five the dispatch handles (0, 3, 4, 8, 20). Frames with opcode 2, 5 or 6 also reach the default branch: with their fields as `Call`, `Subscribe` or `Unsubscribe`, bare as `Other` |
| Messages.BareFrameUnhandled | src/websocket/wampClient.ts:49-83 | a one-element frame is an unhandled opcode, never 0, 3, 4, 8 or 20, so no case of the dispatch reads a field it lacks |
| Messages.EncodeInjective | src/websocket/wampClient.ts:47-84 | a frame determines its message: two messages written as the same array are equal, so dispatching on the array's opcode and fields recovers exactly one message |
| WampClient.IssuedIdsDistinct | src/websocket/wampClient.ts:37-39 | the ids generated while the counter runs from 0 to n are pairwise distinct |
| WampClient.FreshCallId | src/websocket/wampClient.ts:131 | the id generated next is none of the ids generated before it |
| WampClient.NotIssuedYet | src/websocket/wampClient.ts:37-39 | the id of a counter value m is not the id of any value below n when n <= m |
| WampClient.IssuedMeans | src/websocket/wampClient.ts:37-39 | an id is the id of some counter value below n exactly when it occurs among the first n generated ids |
| WampClient.CountUpIncreasing | src/websocket/wampClient.ts:184 | the heartbeat counters sent are strictly increasing |
| WampClient.CountUpAt | src/websocket/wampClient.ts:184 | the i-th heartbeat sent carries the counter value i, so the counters start at 0 and rise by one |
| WampClient.SentInOrderTraces | src/websocket/wampClient.ts:131-141 | the frame-by-frame invariant on the frames sent holds exactly when the call frames carry the generated ids in order and the heartbeat frames carry 0, 1, … in order (both directions) |
| WampClient.AccountedMeans | src/websocket/wampClient.ts:54-72 | the replayed-log invariant on the call registry holds exactly when pending and continued ids are disjoint, together are the generated ids, and no id is continued twice (both directions) |
| WampClient.AccountedPending | src/websocket/wampClient.ts:131-132 | every pending call id is one that was generated |
| WampClient.AccountedIssue | src/websocket/wampClient.ts:131-132 | the next id is not pending, and registering it as pending while moving the counter on keeps the registry accounted for |
| WampClient.KeepCall | src/websocket/wampClient.ts:131-141 | registering the next id and sending its call frame keeps the bookkeeping invariant, and that id is not pending |
| WampClient.KeepResume | src/websocket/wampClient.ts:56-58 | continuing a pending call and deleting its entry keeps the invariant, so each call id is continued at most once |
| WampClient.KeepNotify | src/websocket/wampClient.ts:75-77 | invoking a topic callback touches neither registry and keeps the invariant |
| WampClient.KeepHeartbeat | src/websocket/wampClient.ts:184-185 | sending [20, n] with the current counter n and incrementing it keeps the invariant |
| WampClient.KeepSendOther | src/websocket/wampClient.ts:155-173 | sending a subscribe or unsubscribe frame keeps the invariant |
| WampClient.Client.ValidMeans | src/websocket/wampClient.ts:37-39 | on a client that keeps its invariant, the call frames sent carry exactly the ids generated so far, the heartbeats carry 0, 1, …, and pending and continued ids partition the generated ids with no id continued twice |
| WampClient.Client.constructor | src/websocket/wampClient.ts:20-31 | a new client has no socket, no session id, both counters at 0, both registries empty and nothing sent |
| WampClient.Client.GenerateCallId | src/websocket/wampClient.ts:37-39 | returns the id of the counter value before the increment and increments the counter by exactly one; it may change only the counter |
| WampClient.Client.OnMessage | src/websocket/wampClient.ts:45-85 | opcode 0 sets the session id and nothing else. Opcode 3 or 4 for a pending id invokes that entry's continuation once with `{result}` or with the error's uri, description and details, then removes only that entry. Opcode 8 for a registered topic invokes its current callback with the payload. An unknown id or topic, opcode 20 or any other opcode changes nothing. No case may change the subscriptions, the socket, the counters or the frames sent |
| WampClient.Client.Resume | src/websocket/wampClient.ts:56-58 | the entry's continuation is invoked with the response and then exactly that entry is deleted |
| WampClient.Client.Notify | src/websocket/wampClient.ts:75-77 | the topic's current callback is invoked once with the event; nothing else may change |
| WampClient.Client.Connect | src/websocket/wampClient.ts:90-107 | a new socket in the connecting state; nothing else changes and nothing is returned |
| WampClient.Client.TransportOpened | src/websocket/wampClient.ts:93-95 | the connecting socket becomes open; the handler itself changes no client state |
| WampClient.Client.OnClose | src/websocket/wampClient.ts:99-102 | the socket is closed and the session id reset to null; nothing else changes |
| WampClient.Client.ReplacedSocketClosed | src/websocket/wampClient.ts:99-102 | the onclose handler of a socket the client no longer holds resets the session id to null; it may change nothing else, so the current socket keeps its state |
| WampClient.Client.Disconnect | src/websocket/wampClient.ts:112-117 | the socket is dropped if there is one (a no-op otherwise); the session id and everything else are unchanged |
| WampClient.Client.Call | src/websocket/wampClient.ts:125-143 | on a socket that is absent or not open: rejected with "WebSocket is not connected", no id generated, nothing registered or sent. On an open socket: the id of the counter's old value, not pending before, is registered with the continuation and [2, callId, uri, ...args] is sent. The counter moves on by one. The subscriptions, session id and heartbeat counter cannot change |
| WampClient.Client.Subscribe | src/websocket/wampClient.ts:150-158 | when not open: throws "WebSocket is not connected" and changes nothing. Otherwise it stores the callback, replacing any earlier one for the topic, and sends [5, uri] |
| WampClient.Client.Unsubscribe | src/websocket/wampClient.ts:164-174 | when not open: throws and changes nothing. Otherwise it removes the topic's entry if present and sends [6, uri] either way |
| WampClient.Client.SendHeartbeat | src/websocket/wampClient.ts:179-186 | when not open: throws and changes nothing. Otherwise it sends [20, n] for the counter's old value n and increments only the heartbeat counter; the call-id counter cannot change |
| Scenarios.LoginRoundTrip | src/websocket/wampClient.ts:50-60 | after [0, sid] the session id is sid; a call answered by [3, callId, token] hands its continuation `{result: token}` unchanged, and its entry is gone again |
| Scenarios.ResultOnce | src/websocket/wampClient.ts:54-60 | a repeated result for the same call id reaches the continuation only once |
| Scenarios.ErrorRoundTrip | src/websocket/wampClient.ts:61-72 | an error answer hands the continuation the frame's uri, description and details, and the call is no longer pending |
| Scenarios.StrayAnswer | src/websocket/wampClient.ts:54-60 | an answer for an id that is not pending invokes nothing and leaves the registry as it was |
| Scenarios.ReplacedCallback | src/websocket/wampClient.ts:150-158 | subscribing twice to one topic leaves only the latest callback, which alone receives the next event; both frames are sent |
| Scenarios.UnsubscribeSilences | src/websocket/wampClient.ts:164-174 | after unsubscribe no callback is invoked for the topic, and a second unsubscribe still sends [6, uri] |
| Scenarios.HeartbeatTicks | src/websocket/wampClient.ts:184 | a call moves only the call-id counter and a heartbeat only the heartbeat counter |
| Scenarios.HeartbeatsCountUp | src/websocket/wampClient.ts:184 | two successive heartbeats carry n and n + 1 |
| Scenarios.NotConnectedFirst | src/websocket/wampClient.ts:127-129 | before connect every sending operation fails, `call` by rejection and the others by throwing, and no frame is sent |
| Scenarios.StillConnecting | src/websocket/wampClient.ts:112-129 | while the socket is still connecting a call is rejected and nothing is registered; a double disconnect is harmless |
| Scenarios.ReconnectThenOldClose | src/websocket/wampClient.ts:90-117 | after disconnect and a new connect, the old socket's close resets the session id while the new socket still opens, so the next call is registered in the pending map under the first id and sent as [2, id, uri, arg] |
| Scenarios.DisconnectThenClose | src/websocket/wampClient.ts:99-117 | disconnect keeps the session id; the dropped socket's close event that follows resets it to null |

## Left out

- The WebSocket object itself is not modelled, nor is its opening handshake. The socket is an enum of
  ready states. `TransportOpened` and `OnClose` stand for the browser's state changes. The
  `onopen` and `onerror` handlers only log, and all `console` output is left out.
- `JSON.parse` and `JSON.stringify` are not modelled. `OnMessage` takes an already-decoded `Msg` with
  typed fields. Frames whose fields are missing or of the wrong type are not modelled: the source
  reads those as `undefined` through unchecked `as string` casts. This includes a frame that is a
  bare handled opcode such as `[0]`, which the source would answer by setting the session id to
  `undefined`; `Other` carries only opcodes no case handles. A parse failure is not modelled
  either; the source does not catch one.
- `startHeartbeat`'s `setInterval` timer (src/websocket/wampClient.ts:192-196) is timing. Only single
  `SendHeartbeat` ticks are modelled. The timer is never cancelled and keeps throwing once the
  socket closes.
- Promise mechanics are not modelled. The delivery log records the response each continuation
  receives. The continuation's own code (src/websocket/wampClient.ts:133-137) always resolves with
  `result` or rejects with the error record; that split is not modelled separately. A rejected
  `call` returns `Rejected` directly.
- A topic callback runs synchronously inside `onmessage` and is caller code: it may call
  `subscribe`, `unsubscribe`, `call` or `disconnect` on the same client, or throw out of the
  handler. The model records the invocation only (`Notify`), so `OnMessage` leaving both registries
  unchanged for opcode 8 assumes an effect-free callback. Re-entry from a callback and a throw from
  it are not modelled. Promise continuations do not raise this: their handlers run after
  `onmessage` returns.
- Calling `connect` again replaces the socket without closing the old one. The old socket's
  `onmessage` and `onclose` stay bound to the client. The model holds one socket at a time and does
  not keep the sockets it dropped. `OnMessage` touches no socket, so it stands for a frame from any
  of them. `OnClose` is the close of the socket the client holds; the close of a socket already
  dropped by `disconnect` or replaced by `connect` is `ReplacedSocketClosed`, which resets the
  session id and leaves the current socket alone. `OnClose` on a client that holds no socket has
  the same effect, but the scenarios use `ReplacedSocketClosed` for that event. The ready state of a dropped socket is not
  tracked, and the model does not check that such a close event is one the old socket can still
  produce.
- Two foreign calls' failures are not modelled. `new WebSocket(url)` throwing a `SyntaxError` for a
  malformed URL (src/websocket/wampClient.ts:91) would leave the socket field unchanged, whereas
  `Connect` always installs a connecting socket. `JSON.stringify` throwing on the arguments inside
  `call`'s promise executor (src/websocket/wampClient.ts:140-141, for example on a cyclic value)
  would leave the entry registered and the counter advanced with no frame sent and the promise
  rejected; the model's invariant excludes that state, since it ties every generated id to a sent
  call frame.
- The counters are JavaScript numbers, which are exact only below 2^53. The model's counters are
  unbounded. Ids above that range would repeat in the source but not in the model.
- The lexical ordering of call ids by counter value is not proved. Only decoding and distinctness
  are.
- The CLOSING ready state is not modelled separately. `disconnect` drops the socket at once, and a
  socket that is not open behaves the same in every state.
- `url` is stored but only passed to the WebSocket constructor.
