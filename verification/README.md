# DevoidTalk chat relay, modelled in Dafny

DevoidTalk is a small TCP chat. The server accepts connections and keeps a
registry of the live ones (`ConnectionManager`). It raises three events:
`ClientConnected`, `IncomingMessage` and `ClientDisconnected`. A subscriber
(`BroadcastingChat`) turns each event into one message and sends it to every
connection in the registry. Each connection shows itself as
`name@endpoint` (`ClientConnection.ToString`). `CharServer` is an earlier
version of the registry. The Windows Forms client parses the server address
the user types before it connects (`MainForm.Connect`).

This project models those pieces as pure functions and small transition
systems, and proves what they promise.

- `wrappers.dfy`: `Option` and `Result`.
- `core.dfy`: connection identities, messages, read failures, events, and the
  steps of the server.
- `client_connection.dfy`: `LastUsername`, `EndPoint` and `ToString`, plus a
  parser for the display string that shows `ToString` loses nothing.
- `connection_manager.dfy`: the registry as a transition system. Each `await`
  splits the source's code into atomic steps, and any interleaving of the
  steps of different connections and of the cancellation request is a run.
  - `BeginRead` is the cancellation check at the top of the read loop.
  - `ReadOk` and `ReadFail` are the completion of the awaited read.
  - A step the control flow cannot take leaves the state unchanged.
- `broadcasting_chat.dfy`: the three handlers and `BroadcastToAll`. A
  `Task.Yield` separates the event from the moment the registry is read. So a
  raised event first becomes a pending broadcast. A separate `Deliver` step
  later reads the registry and sends.
- `char_server.dfy`: the earlier registry. One step function is parameterised
  by whether the constructor keeps its cancellation token. The class as
  written does not keep it; the corrected class does.
- `main_form.dfy`: the address regex, its .NET `$` behaviour, `int.TryParse`,
  the default port, and the `triedToConnect` flag.

Two facts about the code shape the model.

- `ReadClientMessages` (ConnectionManager.cs:78-84) checks the cancellation
  token only before a read starts. A read already in progress when
  cancellation is requested can still finish and raise its
  `IncomingMessage`. The model proves that bound exactly: after cancellation,
  each connection raises at most one more message, and none unless a read was
  in progress.
- Without the multiline option, a .NET `$` also matches just before a final
  line feed. So `host:80\n` parses to port 80, and a colon-free `host\n` keeps
  the line feed in the host. The parser model does the same.

## Model

| member | source | states |
|---|---|---|
| ClientConnection.NewClient | DevoidTalk.Server/Core/ClientConnection.cs:25-32 | a new connection has no username and keeps its socket's endpoint; no contract of its own, its properties are stated by ConnectionManager.AcceptRegistersFirst and ConnectionManager.NextFacts |
| ClientConnection.NamePart | DevoidTalk.Server/Core/ClientConnection.cs:36-37 | `client` without a username, the username in single quotes otherwise; no contract of its own, stated by ClientConnection.NamePartRoundTrip and ClientConnection.Display |
| ClientConnection.EndPointText | DevoidTalk.Server/Core/ClientConnection.cs:38-39 | `<unknown>` without an endpoint, the endpoint's text otherwise; no contract of its own, stated by ClientConnection.DisplayRoundTrip |
| ClientConnection.SetLastUsername | DevoidTalk.Server/Core/ClientConnection.cs:14-23 | after the setter, the getter returns the value written; the endpoint never changes; writing the current value again leaves the connection untouched |
| ClientConnection.LastWriteWins | DevoidTalk.Server/Core/ClientConnection.cs:17-22 | two writes in a row are indistinguishable from the second alone; writing the same value twice equals writing it once |
| ClientConnection.Display | DevoidTalk.Server/Core/ClientConnection.cs:34-41 | the display string is never empty, and it starts with a quote exactly when a username is set |
| ClientConnection.LastAt | DevoidTalk.Server/Core/ClientConnection.cs:40 | finds a position holding `@` with no `@` after it, or reports that the string has none |
| ClientConnection.LastAtAfterSeparator | DevoidTalk.Server/Core/ClientConnection.cs:40 | in `name@endpoint` with an `@`-free endpoint, the last `@` is the separator |
| ClientConnection.NamePartRoundTrip | DevoidTalk.Server/Core/ClientConnection.cs:36-37 | the name part (`client`, or the username in single quotes) gives back exactly the username or its absence, the empty username included |
| ClientConnection.DisplayRoundTrip | DevoidTalk.Server/Core/ClientConnection.cs:34-41 | parsing `ToString` gives back the username (or null) and the endpoint (or `<unknown>`) |
| ClientConnection.DisplayInjective | DevoidTalk.Server/Core/ClientConnection.cs:34-41 | two connections whose endpoint texts contain no `@` and are not `<unknown>` have the same display string only if they have the same username and endpoint |
| ConnectionManager.Diagnose | DevoidTalk.Server/Implementation/ConnectionManager.cs:51-62 | a socket error code is recorded exactly when the failure is a `DisconnectedException` wrapping a `SocketException`, and it is that exception's code; a warning is logged exactly for failures that are neither a cancellation nor a disconnection |
| ConnectionManager.Enabled | DevoidTalk.Server/Implementation/ConnectionManager.cs:39-85 | which step the control flow can take next for each connection; no contract of its own, it is the guard of ConnectionManager.Next |
| ConnectionManager.Finish | DevoidTalk.Server/Implementation/ConnectionManager.cs:63-73 | the `finally` block: remove from `Clients`, record the exit, raise `ClientDisconnected`; no contract of its own, stated by ConnectionManager.ReadEndRemovesThenDisconnects and ConnectionManager.FinishPreservesInv |
| ConnectionManager.Next | DevoidTalk.Server/Implementation/ConnectionManager.cs:39-85 | one atomic step of the accept handler or a read loop; no contract of its own, stated by ConnectionManager.NextFacts, ConnectionManager.NextPreservesInv, ConnectionManager.AcceptRegistersFirst, ConnectionManager.ReadOkSetsUsernameFirst, ConnectionManager.ReadEndRemovesThenDisconnects and ConnectionManager.NextBudget |
| ConnectionManager.NextFacts | DevoidTalk.Server/Implementation/ConnectionManager.cs:39-85 | a step raises at most one event and keeps the earlier ones; the event names an accepted connection; a new connection starts with no username; endpoints and ended connections never change; cancellation is never withdrawn |
| ConnectionManager.LastSenderAppend | DevoidTalk.Server/Implementation/ConnectionManager.cs:82-83 | appending an event changes the last sender and the message count only of the connection it names, and only when it is an `IncomingMessage` |
| ConnectionManager.OrderedAppend | DevoidTalk.Server/Implementation/ConnectionManager.cs:43-83 | appending to a well-ordered trace keeps it well ordered when the new event is a first `ClientConnected`, or another event for a connection that has not disconnected |
| ConnectionManager.LiveAfterAppend | DevoidTalk.Server/Implementation/ConnectionManager.cs:41-65 | adding or removing one connection keeps the registry equal to the connections whose loop is live, and leaves every other membership unchanged |
| ConnectionManager.KnownAfterAppend | DevoidTalk.Server/Implementation/ConnectionManager.cs:41-43 | every event still names an accepted connection, and every accepted connection has had its `ClientConnected` |
| ConnectionManager.EndedAfterAppend | DevoidTalk.Server/Implementation/ConnectionManager.cs:63-73 | a loop is still ended exactly when its `ClientDisconnected` has been raised |
| ConnectionManager.TrackAfterAppend | DevoidTalk.Server/Implementation/ConnectionManager.cs:81-83 | every connection's `LastUsername` is still the sender of its last message read, or null if none |
| ConnectionManager.AppendPreservesInv | DevoidTalk.Server/Implementation/ConnectionManager.cs:39-85 | any step that raises one event of the permitted kind keeps the whole registry invariant |
| ConnectionManager.AcceptPreservesInv | DevoidTalk.Server/Implementation/ConnectionManager.cs:41-43 | accepting a new connection keeps the invariant |
| ConnectionManager.ReadOkPreservesInv | DevoidTalk.Server/Implementation/ConnectionManager.cs:81-83 | a successful read keeps the invariant |
| ConnectionManager.FinishPreservesInv | DevoidTalk.Server/Implementation/ConnectionManager.cs:63-73 | ending a live read loop, whatever the reason, keeps the invariant |
| ConnectionManager.NextPreservesInv | DevoidTalk.Server/Implementation/ConnectionManager.cs:39-85 | every step, under any interleaving, keeps the invariant: registry equals live connections; each connection's events are `ClientConnected`, then messages, then `ClientDisconnected`; `LastUsername` tracks the last sender |
| ConnectionManager.RunPreservesInv | DevoidTalk.Server/Implementation/ConnectionManager.cs:39-85 | any sequence of steps keeps the invariant |
| ConnectionManager.ReachableInv | DevoidTalk.Server/Implementation/ConnectionManager.cs:21-85 | the invariant holds in every state reachable from the empty registry |
| ConnectionManager.RegistryMatchesTrace | DevoidTalk.Server/Implementation/ConnectionManager.cs:21-72 | between steps, a connection is in `Clients` exactly when it has had `ClientConnected` and not yet `ClientDisconnected` |
| ConnectionManager.EventsAtMostOnce | DevoidTalk.Server/Implementation/ConnectionManager.cs:43-72 | each connection raises `ClientConnected` at most once and `ClientDisconnected` at most once |
| ConnectionManager.AcceptRegistersFirst | DevoidTalk.Server/Implementation/ConnectionManager.cs:41-43 | on accept, the connection is added to `Clients` in the same step that raises `ClientConnected`, so it is there when the event fires; it starts with no username and its socket's endpoint |
| ConnectionManager.ReadEndRemovesThenDisconnects | DevoidTalk.Server/Implementation/ConnectionManager.cs:47-80 | however the loop ends (the cancellation check, a disconnection, a cancelled or otherwise failed read), the live connection leaves `Clients` with no other membership change, and its one and only `ClientDisconnected` is raised |
| ConnectionManager.ReadOkSetsUsernameFirst | DevoidTalk.Server/Implementation/ConnectionManager.cs:81-83 | when the `IncomingMessage` for a read is raised, `LastUsername` already holds that message's sender; the registry and the endpoint are unchanged |
| ConnectionManager.NextBudget | DevoidTalk.Server/Implementation/ConnectionManager.cs:78-84 | after cancellation, a step never raises a message for a connection without using up the one read it had in flight |
| ConnectionManager.AtMostOneMessageAfterCancel | DevoidTalk.Server/Implementation/ConnectionManager.cs:78-84 | once cancellation is requested, every connection raises at most one more `IncomingMessage`, and none unless a read was awaiting |
| BroadcastingChat.Handle | DevoidTalk.Server/Implementation/BroadcastingChat.cs:26-41 | an incoming message is broadcast unchanged; connect and disconnect notices are sent as `<server>` |
| BroadcastingChat.NoticeRoundTrip | DevoidTalk.Server/Implementation/BroadcastingChat.cs:26-36 | the notice text tells whether the connection came or went, and its username and endpoint |
| BroadcastingChat.BroadcastToAll | DevoidTalk.Server/Implementation/BroadcastingChat.cs:43-61 | one send per connection of the snapshot and none twice; every connection not failing gets the message; one warning is logged exactly when some send fails |
| BroadcastingChat.StartSends | DevoidTalk.Server/Implementation/BroadcastingChat.cs:46-47 | the query starts exactly one send per connection of the snapshot |
| BroadcastingChat.AwaitAll | DevoidTalk.Server/Implementation/BroadcastingChat.cs:48 | `Task.WhenAll` completes the sends that succeed and faults exactly when some send faults |
| BroadcastingChat.ExplainedStable | DevoidTalk.Server/Implementation/BroadcastingChat.cs:26-41 | the message produced for an event stays explained as the server moves on, because endpoints are fixed and ended connections are final |
| BroadcastingChat.PendingStable | DevoidTalk.Server/Implementation/BroadcastingChat.cs:43-45 | broadcasts waiting behind the yield stay explained across server steps |
| BroadcastingChat.DeliveriesStable | DevoidTalk.Server/Implementation/BroadcastingChat.cs:43-48 | finished broadcasts stay explained across server steps |
| BroadcastingChat.ServerStepShape | DevoidTalk.Server/Implementation/BroadcastingChat.cs:21-41 | a server step adds one pending broadcast per raised event, carrying that event, and nothing otherwise |
| BroadcastingChat.NewEventExplained | DevoidTalk.Server/Implementation/BroadcastingChat.cs:26-41 | the message handed over for a fresh event is the one its handler formats |
| BroadcastingChat.NewPendingPreserves | DevoidTalk.Server/Implementation/BroadcastingChat.cs:21-41 | after an event, there is still exactly one broadcast per raised event, and all pending messages are explained |
| BroadcastingChat.ServerStepPreservesChatInv | DevoidTalk.Server/Implementation/BroadcastingChat.cs:21-41 | a server step keeps the chat invariant |
| BroadcastingChat.RemovePendingExplained | DevoidTalk.Server/Implementation/BroadcastingChat.cs:45 | resuming one broadcast keeps the others explained |
| BroadcastingChat.AppendDelivery | DevoidTalk.Server/Implementation/BroadcastingChat.cs:45-48 | appending a finished broadcast that is explained, delivers only to its recipients, warns exactly on a miss and skips a departed connection keeps every finished broadcast so |
| BroadcastingChat.MoveOrigin | DevoidTalk.Server/Implementation/BroadcastingChat.cs:45-48 | moving a broadcast from pending to finished keeps exactly one broadcast per raised event |
| BroadcastingChat.WarnedIffMissed | DevoidTalk.Server/Implementation/BroadcastingChat.cs:51-61 | the broadcast warns exactly when some recipient did not receive the message |
| BroadcastingChat.ChatNext | DevoidTalk.Server/Implementation/BroadcastingChat.cs:21-61 | a manager step with its handler run at once, or a pending broadcast resuming after its yield; no contract of its own, stated by BroadcastingChat.ServerStepShape, BroadcastingChat.DeliverUsesSnapshot, BroadcastingChat.ResumeBroadcast and BroadcastingChat.ChatNextPreservesInv |
| BroadcastingChat.ResumeBroadcast | DevoidTalk.Server/Implementation/BroadcastingChat.cs:43-61 | resuming a pending broadcast through BroadcastToAll produces exactly the Deliver step of ChatNext, with one send per connection of the registry read after the yield and none twice |
| BroadcastingChat.DeliverPreservesChatInv | DevoidTalk.Server/Implementation/BroadcastingChat.cs:43-61 | resuming a broadcast keeps the chat invariant; a disconnect notice never goes to the departed connection |
| BroadcastingChat.ChatNextPreservesInv | DevoidTalk.Server/Implementation/BroadcastingChat.cs:21-61 | every chat step keeps the chat invariant |
| BroadcastingChat.ChatRunPreservesInv | DevoidTalk.Server/Implementation/BroadcastingChat.cs:21-61 | every sequence of chat steps keeps the chat invariant |
| BroadcastingChat.DeliveriesKeepPromises | DevoidTalk.Server/Implementation/BroadcastingChat.cs:26-61 | each finished broadcast has the shape its event demands, and warns exactly when some recipient missed it |
| BroadcastingChat.InitChatInv | DevoidTalk.Server/Implementation/BroadcastingChat.cs:17-24 | the chat invariant holds when the chat subscribes to a fresh manager |
| BroadcastingChat.ChatReachable | DevoidTalk.Server/Implementation/BroadcastingChat.cs:21-61 | in every reachable state: one broadcast per raised event; the departed connection is never sent its own disconnect notice; relayed messages are verbatim; connect notices read `client@<endpoint> connected`; a warning is logged exactly when a recipient missed the message |
| BroadcastingChat.DeliverUsesSnapshot | DevoidTalk.Server/Implementation/BroadcastingChat.cs:43-61 | a broadcast sends to the registry as read after the yield, including the sender when still connected; failed sends leave the server state and other broadcasts untouched, and the other pending broadcasts keep their order |
| CharServer.WarnsMoreThanManager | DevoidTalk.Server/Implementation/CharServer.cs:49-53 | every failure except cancellation is logged as a warning, a disconnection included; this is more than the manager warns on |
| CharServer.Warns | DevoidTalk.Server/Implementation/CharServer.cs:49-53 | every exception but a cancellation is logged as a warning; no contract of its own, stated by CharServer.WarnsMoreThanManager and CharServer.ReadFailRemoves |
| CharServer.Remove | DevoidTalk.Server/Implementation/CharServer.cs:54-58 | the `finally` block removes the connection and raises no event; no contract of its own, stated by CharServer.ReadFailRemoves |
| CharServer.NextWith | DevoidTalk.Server/Implementation/CharServer.cs:40-75 | one step of `CharServer`, with the token dropped (as written) or stored; no contract of its own, stated by CharServer.NextPreservesInv, CharServer.ReadOkRaisesOnce, CharServer.ReadFailRemoves, CharServer.AsWrittenNeverCancelled and CharServer.NextBudget |
| CharServer.NextPreservesInv | DevoidTalk.Server/Implementation/CharServer.cs:40-75 | the registry equals the live connections; only `IncomingMessage` is ever raised; no `LastUsername` is ever set |
| CharServer.RunPreservesInv | DevoidTalk.Server/Implementation/CharServer.cs:40-75 | the same over any sequence of steps |
| CharServer.Reachable | DevoidTalk.Server/Implementation/CharServer.cs:21-75 | in every reachable state, with or without the token: registry equals live connections, `ClientConnected`/`ClientDisconnected` are never raised, usernames stay null |
| CharServer.ReadOkRaisesOnce | DevoidTalk.Server/Implementation/CharServer.cs:63-75 | a read raises one `IncomingMessage` for that connection and message, after the earlier ones, and changes neither the registry nor the username |
| CharServer.ReadFailRemoves | DevoidTalk.Server/Implementation/CharServer.cs:45-58 | a failed read removes the connection, raises nothing, and warns unless it was a cancellation |
| CharServer.AsWrittenNeverCancelled | DevoidTalk.Server/Implementation/CharServer.cs:19-63 | as written, the loop's token never reports cancellation, whatever steps happen; documents the first half of the CharServer finding, which CharServer.CancelIgnoredForever states about the read loop |
| CharServer.CancelIgnoredAsWritten | DevoidTalk.Server/Implementation/CharServer.cs:32-66 | on accept, cancel, read: as written the message is still raised; with the token stored the loop exits and the connection is removed |
| CharServer.AsWrittenLoopReads | DevoidTalk.Server/Implementation/CharServer.cs:61-68 | as written, a connection at its loop check reads and raises one more message for every turn it is given, and is back at the check afterwards |
| CharServer.CancelIgnoredForever | DevoidTalk.Server/Implementation/CharServer.cs:32-66 | for every n: after cancellation, the class as written raises all n messages the connection reads, while with the token stored it raises none |
| CharServer.NextBudget | DevoidTalk.Server/Implementation/CharServer.cs:63-66 | with the token stored and cancelled, a step never raises a message without using up the read in flight |
| CharServer.StoredTokenStopsReading | DevoidTalk.Server/Implementation/CharServer.cs:63-66 | with the token stored, cancellation allows at most one more message per connection |
| MainForm.DecimalRoundTrip | DevoidTalk.Client/MainForm.cs:106 | reading a rendered number back gives the number |
| MainForm.TryParseInt32 | DevoidTalk.Client/MainForm.cs:106 | a digit string parses exactly when its value fits in `int`, and then to that value; leading zeros are accepted |
| MainForm.FirstColon | DevoidTalk.Client/MainForm.cs:20 | finds where the colon-free `host` group ends |
| MainForm.PortGroup | DevoidTalk.Client/MainForm.cs:20 | the port group is the digits after the first colon, optionally followed by the one final line feed a .NET `$` lets through, and nothing else |
| MainForm.ParseServerAddress | DevoidTalk.Client/MainForm.cs:98-107 | a parsed host is non-empty and colon-free; the port is any `int` from 0 up, with no check against 65535; a colon-free address gets port 10000; an invalid-port error carries digits that overflow `int` |
| MainForm.InvalidAddressIffNoMatch | DevoidTalk.Client/MainForm.cs:98-100 | "Invalid server address" is reported exactly for the inputs the regex rejects |
| MainForm.HostOnlyGetsDefaultPort | DevoidTalk.Client/MainForm.cs:102-105 | a non-empty, colon-free address is all host, with port 10000 |
| MainForm.HostAndPortParse | DevoidTalk.Client/MainForm.cs:102-107 | `host:digits`, with or without a final line feed, gives that host and the digits' value when it fits in `int`, and an invalid-port error otherwise |
| MainForm.ColonAfterHost | DevoidTalk.Client/MainForm.cs:20 | the `host` group stops at the first colon |
| MainForm.FormatParseRoundTrip | DevoidTalk.Client/MainForm.cs:102-106 | rendering a valid host and port as `host:port` and parsing it gives them back |
| MainForm.Connect | DevoidTalk.Client/MainForm.cs:94-107 | `triedToConnect` is set whether or not parsing succeeds, and the address typed is kept |
| MainForm.PortErrorMessage | DevoidTalk.Client/MainForm.cs:107 | the corrected invalid-port message is the prefix followed by exactly the rejected digits |
| MainForm.PortErrorShowsStrayDollar | DevoidTalk.Client/MainForm.cs:107 | as written, a `$` sits between the prefix and the digits, so the text after the prefix is never the rejected port |
| MainForm.PortErrorMessageAsWritten | DevoidTalk.Client/MainForm.cs:107 | the invalid-port text as the source builds it; no contract of its own, stated by MainForm.PortErrorShowsStrayDollar and MainForm.ErrorMessage |
| MainForm.ErrorMessage | DevoidTalk.Client/MainForm.cs:98-107 | the exception text `Connect` throws, as written: the fixed invalid-address text, or the invalid-port prefix, a `$`, then the rejected digits |
| MainForm.IntendedErrorMessage | DevoidTalk.Client/MainForm.cs:98-107 | the exception text as evidently intended: the invalid-port prefix followed directly by the rejected digits |
| MainForm.ErrorMessagesCompared | DevoidTalk.Client/MainForm.cs:100-107 | the as-written and the intended texts agree exactly on an invalid address; an invalid-port text never equals the invalid-address text |

## Left out

- `ThreadPool`, `AsyncExtensions`, `TcpClientAcceptor` and the server's
  command-line entry point are not part of this model. They are thread,
  socket and console code. An accepted socket enters the model only as the
  `Accept` step.
- The client form beyond address parsing is left out: dialogs, the chat box,
  the DNS lookup and socket connect, the client read loop, and settings
  persistence (`SaveSettings`, which reads `triedToConnect`).
- Message framing lives in `Connection` (DevoidTalk.Core):
  `Connection.ReadMessage`, `SendMessage` and `Disconnect` are not part of
  this model. A read is an abstract outcome: a message, a disconnection with
  an optional inner error, a cancellation, or another error. A send either
  succeeds or faults. `Message` enters only as a sender and a text.
- Real `async`/`await` scheduling, the locks in `ClientConnection` and the
  retry loop of `ImmutableInterlocked.Update` are left out. Each update is one
  atomic step, and interleavings are arbitrary step orders.
- NLog output is left out. Only whether a warning is logged and the recorded
  socket error code are modelled. The debug messages are not.
- `IPEndPoint.ToString` is foreign code. An endpoint is modelled as its
  rendered text.
- ClientConnection.DisplayRoundTrip: requires an endpoint text without `@`
  that is not `<unknown>`. Every IP endpoint text meets this, but the model
  does not derive it from `IPEndPoint`.
- ClientConnection.DisplayInjective: carries the same requirement on both
  endpoint texts, for the same reason. With an `@` in the endpoint text or
  the literal text `<unknown>`, two different connections can render alike.
- ConnectionManager.RegistryMatchesTrace: holds between steps only. The model
  merges the add to `Clients` (ConnectionManager.cs:41) with raising
  `ClientConnected` (ConnectionManager.cs:43) into one step, and the removal
  (ConnectionManager.cs:65) with raising `ClientDisconnected`
  (ConnectionManager.cs:72) into another. On the multi-threaded pool, a thread
  that reads `Clients` between those lines can see a connection before its
  `ClientConnected`, or after its removal but before its
  `ClientDisconnected`.
- A null message sender is left out. A sender is always a string, so a read
  always sets a username. In the source, a null sender would reset it to
  null.
- A null server address in the client is left out. `Regex.Match` would throw
  on it before any parsing.
- BroadcastingChat.BroadcastToAll: assumes every send reports its fault
  through the returned task rather than by throwing synchronously.
- ConnectionManager.Next: every event subscriber is assumed to return
  normally. In the source, a throwing `ClientConnected` handler
  (ConnectionManager.cs:43, before the `try`) leaves the connection in
  `Clients` with no read loop and no `ClientDisconnected`. A throwing
  `IncomingMessage` handler (ConnectionManager.cs:83, inside the `try`) ends
  the loop through the `catch` and `finally`. A throwing `ClientDisconnected`
  handler (ConnectionManager.cs:72) escapes the `async void` method. The one
  subscriber, `BroadcastingChat`, cannot throw synchronously: `BroadcastToAll`
  yields first and `LogBroadcasting` is `async void`.
- CharServer.NextWith: the `IncomingMessage` subscriber is assumed to return
  normally. In the source, a throw at CharServer.cs:66 ends the loop with a
  warning and removes the connection.

## Findings

| source | as written | input that shows it | evidently intended | confidence | as-written member | corrected member |
|---|---|---|---|---|---|---|
| DevoidTalk.Client/MainForm.cs:107 | the interpolated string `$"Invalid server port ${portGroup.Value}"` has a literal `$` before the hole | address `host:99999999999` gives the message `Invalid server port $99999999999` | `Invalid server port 99999999999` | high; not executed | MainForm.PortErrorShowsStrayDollar | MainForm.IntendedErrorMessage |
| DevoidTalk.Server/Implementation/CharServer.cs:32-38 | the constructor never stores its `cancellation` argument, so the loop at line 63 polls a default token that is never cancelled | accept a connection, cancel the server's token, then let the connection read a message: the message is still raised and the loop goes on | the constructor keeps the token, and the loop stops at its next check after cancellation | medium (the class may simply be obsolete); not executed | CharServer.CancelIgnoredForever | CharServer.StoredTokenStopsReading |
