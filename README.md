# ctrago correlation engine, in Dafny

A model of the core of `ctrago`, a Go client for the cTrader Open API. It
sends requests and receives event notifications over one connection that can
drop and come back. The model has four parts.

- **Tokens** (`tokens.dfy`): the correlation token `"<timestamp>-<counter>"`
  minted by `nextMsgId`. The counter can be parsed back out of a token, so two
  tokens with different counters are always different.
- **Correlation** (`client.go`, `client.dfy`): the `Client` class, with its
  message counter, the pending-request registry, the reply channels held by
  callers, the event-handler table, and the dispatcher `handleMessage`. Each
  mutex-guarded region is one atomic method. A reply channel of capacity one
  is a slot that is either empty or holds one `Envelope`. `proto.Unmarshal` is
  the client's `decode` function, which may fail. The frames handed to
  `Transport.Send` are recorded on a `Transport` object.
- **WebSocket** (`websocket_client.go`, `websocket.dfy`): the `WsClient`
  class. It tracks the connection, every heartbeat ticker made and whether it
  still runs, the heartbeat settings, the handler list and the phase of
  `Listen`. `Listen` is a step machine: `Next` gives the effect of one blocking
  operation, given its outcome (dial ok, dial error, message read, read
  error). `Run` folds `Next` over a script of such outcomes. The class methods
  are proved equal to these functions, and the lemmas state the
  reconnect/heartbeat properties about them.
- **Account wrappers** (`account_trader.go`, `account_symbol.go`;
  `account.dfy`, `account_trader.dfy`, `account_symbol.dfy`): the guards and
  request builders, as pure functions that return the call to
  `SendRequest`, or the guard's error. `Account.Perform` is the tail every
  wrapper shares: it makes the call, passes on an error from `SendRequest`
  unchanged, and otherwise unmarshals the reply.

The binary-frame filter of `handleMessage` is the opcode `%x2` (binary frame)
of section 5.2 of RFC 6455, gorilla's `websocket.BinaryMessage`.

Behaviour of the code worth knowing:
- A failed `Send` does not deregister the pending request. Only
  `handleMessage` ever removes an entry from `pending`, so entries whose reply
  never arrives stay for the client's lifetime.
- `WsClient.Close` is not idempotent: a second call closes `closeCh` again,
  which panics. `Close` therefore requires that it has not been called before.
- `Close` does not make `Listen` return. It closes the connection but does not
  switch reconnect off, so `Listen`'s next read fails and `Listen` dials again
  (`ReconnectNeverReturns`).

## Model

| member | source | states |
|---|---|---|
| Tokens.DecimalString | client.go:89 | Go's `%d` rendering of a counter or timestamp is non-empty and has only digits |
| Tokens.ParseDecimalString | client.go:89 | parsing the decimal rendering of a number gives back that number |
| Tokens.Token | client.go:89 | the token is the decimal timestamp, one '-', then the decimal counter: every other character is a digit |
| Tokens.TokenCounter | client.go:85-90 | the counter can be read back from the `-<counter>` suffix of any token |
| Tokens.TokensDistinct | client.go:85-90 | tokens built from different counters differ, whatever the two timestamps are |
| Correlation.Client.constructor | client.go:43-54 | a new client has an empty `pending` and empty handler map, counter 0, and its dispatcher is appended to the transport's handlers |
| Correlation.Client.NextMsgId | client.go:85-90 | the counter grows by exactly 1; the token is `Token(now, counter)` and is not the token of any earlier request |
| Correlation.Client.SendRequest | client.go:92-114 | a marshal failure registers and sends nothing; otherwise the fresh token is pending with an empty slot, one binary frame carrying the payload type, payload and token is sent, and `Send`'s error is returned unchanged with the entry left pending |
| Correlation.Client.Await | client.go:115-120 | the `select`: a filled slot yields its reply and is emptied; an expired context yields the context error; otherwise the caller stays blocked; `pending` never shrinks here |
| Correlation.RouteOf | client.go:123-146 | a frame is delivered exactly when it is binary, decodes, carries a non-empty token and that token is pending; it is fanned out exactly when it is binary, decodes, has no non-empty token and has a payload type; anything else is dropped (an unknown token included) |
| Correlation.FanOut | client.go:144-151 | the handler calls of an event are one per handler, in registration order, each with the message |
| Correlation.Client.HandleMessage | client.go:123-152 | a dropped frame changes nothing; a delivery removes exactly that pending entry and fills exactly that (previously empty) slot; an event appends `FanOut` of its type's handlers to the calls made; nothing else changes |
| Correlation.Client.CallHandlers | client.go:144-151 | the calls made are extended by exactly `FanOut` of the handlers and the message |
| Correlation.Client.OnEvent | client.go:154-158 | appends one handler to its type's list; the other types' lists are unchanged |
| Correlation.OutOfOrderReplies | client.go:92-152 | two requests answered in the opposite order each receive their own reply |
| WebSocket.WsClient.NewWithHeartbeat | websocket_client.go:27-37 | no connection, no ticker, no handlers, reconnect on, the given heartbeat settings |
| WebSocket.WsClient.OnMessage | websocket_client.go:63-65 | appends exactly one handler at the end, keeping the earlier ones in order |
| WebSocket.Arm | websocket_client.go:75-78 | a ticker with the configured period is made only when the interval is positive, a heartbeat function is set and no ticker exists; nothing else changes |
| WebSocket.DeliverAll | websocket_client.go:104-106 | a read message goes to every handler once, in registration order |
| WebSocket.AfterRead | websocket_client.go:91-107 | one pass of the read loop keeps the invariant (at most one running ticker, a connection while reading) |
| WebSocket.Next | websocket_client.go:67-107 | one blocking operation of `Listen` keeps the invariant, never changes handlers, reconnect or heartbeat settings, keeps an existing ticker, and otherwise makes at most one ticker |
| WebSocket.Run | websocket_client.go:67-107 | any sequence of outcomes keeps the invariant, the handlers and the reconnect flag |
| WebSocket.WithHeartbeat | websocket_client.go:125-132 | new interval and function; the current ticker is stopped and forgotten, so no ticker runs afterwards |
| WebSocket.WsClient.Connect | websocket_client.go:69-78 | a successful dial stores the new connection, runs the heartbeat check (`Arm`) and enters the read loop |
| WebSocket.WsClient.ArmTicker | websocket_client.go:75-78 | the class's fields change as `Arm` says |
| WebSocket.WsClient.ReadPass | websocket_client.go:91-107 | the class's fields change as `AfterRead` says |
| WebSocket.WsClient.Deliver | websocket_client.go:104-106 | the deliveries are extended by exactly `DeliverAll` of the registered handlers and the message |
| WebSocket.WsClient.Step | websocket_client.go:67-107 | the class's fields change as `Next` says |
| WebSocket.WsClient.Listen | websocket_client.go:67-108 | the class ends in `Run` of the outcomes it used; it stops early only when `Listen` has returned, and then reports that read error; `closeCh` is left as it was |
| WebSocket.WsClient.Pump | websocket_client.go:67-107 | the loops of `Listen` end in `Run` of the outcomes used, and stop early only when `Listen` has returned |
| WebSocket.WsClient.Close | websocket_client.go:111-122 | stops the current ticker but keeps it, closes the connection only when there is one and returns that close's error (else none), and does not reset `conn` |
| WebSocket.WsClient.SetHeartbeat | websocket_client.go:125-132 | the class's fields change as `WithHeartbeat` says |
| WebSocket.RunAfterReturn | websocket_client.go:102 | once `Listen` has returned, further outcomes change nothing |
| WebSocket.RunPrefixReturned | websocket_client.go:102 | if `Listen` returned within the first part of a script, the rest of the script changes nothing |
| WebSocket.ReconnectNeverReturns | websocket_client.go:93-103 | with reconnect on, `Listen` never returns, whatever the outcomes |
| WebSocket.DialFailuresRetry | websocket_client.go:69-73 | with no connection, failed dials leave everything unchanged: `Listen` retries and never returns |
| WebSocket.ListenArmsAtMostOnce | websocket_client.go:75-78 | within one `Listen` at most one ticker is made, only from settings that allow it and only if none existed; an existing ticker is kept |
| WebSocket.ReadDeliversInOrder | websocket_client.go:104-106 | a successful read appends one delivery per handler in order and keeps the connection |
| WebSocket.ReadFailureDisconnects | websocket_client.go:93-103 | a read error closes and clears the connection and leaves the tickers alone; `Listen` goes back to dialing with reconnect on, and returns that error with it off |
| WebSocket.SetHeartbeatRearms | websocket_client.go:125-132 | after `SetHeartbeat` with a positive interval and a function, the next successful dial makes one running ticker with the new period, and it is the only running one |
| Account.Perform | account_trader.go:63-71 | a guard error makes no call; otherwise one call is made; a `SendRequest` error is returned unchanged with no decode attempted; an unmarshal failure is an error; success carries the unmarshalled reply |
| AccountTrader.ReconcileCall | account_trader.go:32-37 | as written: the request always carries `ReturnProtectionOrders = true` and the account id |
| AccountTrader.ReconcileIgnoresFlag | account_trader.go:32-37 | asking for no protection orders builds the same request as asking for them |
| AccountTrader.ReconcileCallPassingFlag | account_trader.go:29-37 | corrected: the caller's flag is sent as given |
| AccountTrader.DealListCall | account_trader.go:49-63 | `FromTimestamp` is set iff `from >= 0`, `ToTimestamp` iff `to >= 0 && to > from`, `MaxRows` iff `maxRows > 0`, each to the given value |
| AccountTrader.OrderListCall | account_trader.go:75-86 | the same window rule as `DealList`; the request has no row limit |
| AccountTrader.HistoryWindowWellFormed | account_trader.go:54-84 | deal and order lists send the same window, never negative and never inverted |
| AccountTrader.ExpectedMarginCall | account_trader.go:98-110 | symbol id 0 gives `ErrSymbolIdRequired` and no call; otherwise the account and symbol ids are sent and `Volume` is set iff the slice is non-empty |
| AccountTrader.CashFlowWindowCheck | account_trader.go:123-131 | `from <= 0`, then `to <= 0`, then an empty, inverted or longer-than-604800000-ms window give their errors in that order; it accepts iff `from > 0` and `0 < to - from <= 604800000` |
| AccountTrader.CashFlowHistoryListCall | account_trader.go:122-135 | as written: fails iff the window check fails, with its error; an accepted call carries only the account id |
| AccountTrader.CashFlowWindowDropped | account_trader.go:129-135 | two different accepted windows build the same request |
| AccountTrader.CashFlowHistoryListCallWithWindow | account_trader.go:122-135 | corrected: same guards; an accepted call carries the window, with `0 < from < to` and `to - from <= 604800000` |
| AccountSymbol.SymbolListCall | account_symbol.go:33-38 | `IncludeArchivedSymbols` is passed through unchanged with the account id |
| AccountSymbol.SymbolByIdCall | account_symbol.go:53-61 | an empty id list gives `ErrSymbolIdRequired`; otherwise the list is sent unchanged with the account id |
| AccountSymbol.SymbolsForConversionCall | account_symbol.go:77-85 | either asset id 0 gives `ErrAssetIdRequired`; otherwise the account id and both asset ids are sent exactly as given |
| AccountSymbol.SymbolGuardsSendNothing | account_symbol.go:53-85 | a refused lookup makes no call whatever `SendRequest` would answer; an accepted one makes exactly one |

## Left out

- Goroutines, `sync.Mutex`, channels and `context`: each locked region is one atomic method. A reply channel is a slot. Context expiry and the runtime's choice between two ready `select` cases are inputs of `Await`.
- `SendRequest`'s blocking wait is the separate method `Await`, so that replies dispatched in between can be observed.
- `proto.Marshal` and `proto.Unmarshal` are foreign code. Marshalling the request payload is an input that may fail, and decoding is the client's `decode` function. Marshalling the envelope itself (client.go:103-106) is treated as never failing, since the token has only ASCII digits and `-`. The wire format is not modelled.
- `time.Now().UnixNano()` is the input `now`, taken as non-negative. `time.Sleep` (the two-second backoff) is not modelled.
- Correlation.Client.NextMsgId: the counter is an unbounded `nat`. The source's `uint64` would wrap after 2^64 requests, and only then could a token repeat.
- The numeric values of `openapi.ProtoOAPayloadType` are in the generated `openapi` package, which is not part of this model. Payload types are symbolic names.
- The heartbeat goroutine (websocket_client.go:78-88) and ticker timing: only whether each ticker exists and runs is modelled.
- The real dialer, reads and writes: their outcomes are the script given to `Listen`. `WsClient.Send`, `connect` and `NewWsClient` are not modelled.
- WebSocket.WsClient.Listen: requires that no other `Listen` is running. Concurrent `Listen` calls on one client are outside the sequential model.
- WebSocket.WsClient.Close: requires that `Close` has not been called before, because a second `close(closeCh)` panics.
- tcp_client.go: raw `net.Conn` I/O with no logic of its own. Its frames carry message type 0, which `handleMessage` always drops (`RouteOf`).
- `NewClientWithWebsocket`, `NewClientWithTcp`, `NewClient` and `Client.Close`: they only wire objects together, start `Listen` or delegate to the transport.
- The authentication, version and token wrappers of client.go (lines 164-233), `Trader`, `AssetsList`, option.go, account.go, account_order.go and account_asset.go: thin marshal/`SendRequest`/unmarshal wrappers with no branching, whose shared tail is `Account.Perform`.
- Event handlers and message handlers are opaque identities. Their own effects, including calls back into the client, are not modelled.

## Findings

| source | as written | input that shows it | evidently intended | confidence | as-written member | corrected member |
|---|---|---|---|---|---|---|
| account_trader.go:32-37 | `Reconcile` always sends `ReturnProtectionOrders = true` and never uses its parameter | `returnProtectionOrders = false` | the documented parameter (line 31) is sent as given | medium, not executed | AccountTrader.ReconcileIgnoresFlag | AccountTrader.ReconcileCallPassingFlag |
| account_trader.go:129-135 | `CashFlowHistoryList` checks the window and then builds a request with the account id only | windows (1, 2) and (1000, 2000) build the same request | the checked `fromTimestamp` and `toTimestamp` are sent | medium, not executed | AccountTrader.CashFlowWindowDropped | AccountTrader.CashFlowHistoryListCallWithWindow |
