# Anonymous video-chat matchmaker: a Dafny model

The server pairs anonymous browser connections one-to-one. It relays their
WebRTC signalling messages opaquely. It bans source addresses after repeated
reports. This project models the engine in `server.js`:

- the nickname sanitiser `cleanNickname`;
- the in-memory state: `waitingUser`, `users`, `reportCounts` and `bannedIPs`;
- the connection gate that turns banned addresses away;
- the `join`, `signal`, `report` and `disconnect` handlers.

Modules:

- `Wrappers` (wrappers.dfy): `Option`. `None` stands for JavaScript's absent or falsy values.
- `Nickname` (nickname.dfy): the sanitiser, as pure functions, with lemmas.
- `Engine` (engine.dfy): the server state as a value. Each handler is a function from a state to the next state and what it emits (`Step`). `Valid` is the invariant the handlers keep. One lemma per handler states its effect.
- `Traces` (traces.dfy): Node delivers these events one at a time, so a run is a sequence of `Event`s applied in turn (`Run`). Lemmas here relate several calls: monotonicity, permanence of bans, signal order, and the end-to-end scenarios.
- `Service` (server.dfy): class `Server`. Its fields are the module state plus an `outbox` of emitted messages. Its methods update the fields in place, as the handlers do. Each method is proved to reach the state that the matching `Engine` function computes, and to append that function's messages to `outbox`.

Modelling choices:

- `sockets: map<Id, Ip>` records the connections that passed the gate, with the handshake address their handlers captured (`const ip`, server.js:37). Only these connections have handlers. An event on any other id therefore does nothing. Disconnecting removes the entry, because the connection and its handlers are gone.
- Connection ids are non-empty strings, as socket.io issues them (`Engine.Id`). So the truthiness test `waitingUser && ...` on server.js:50 means exactly that the slot is occupied. Emits are addressed to any room name (`Engine.Target`), because `signal` forwards whatever `to` the client sent.
- Both `emit` calls and `socket.disconnect()` become entries in the outbox, in order: `PartnerFound`, `Relay` (the outbound `signal`) and `Kicked`.
- The counter is keyed by the reporting connection's own address. That is what the code does (server.js:74-79). The lemma `Traces.ThreeReportsBanReporter` makes this explicit.
- No `waiting` notice is sent when a joiner is parked (server.js:63-65), and no `partner-disconnected` notice on disconnect (server.js:85-90). The model sends neither. A pairing is never stored: after `partner-found` the server forgets it.
- The pattern `[^a-zA-Z0-9 ]` runs without the `u` flag, so it works on UTF-16 code units. Every non-ASCII code unit, including each half of a surrogate pair, is deleted. The survivors are ASCII, so `substring(0, 20)` counts the same characters that the model's `seq<char>` counts. The character-level model therefore agrees with the code.

## Model

| member | source | states |
|---|---|---|
| `Nickname.StripDisallowed` | server.js:32 | the result is no longer than the input and contains only characters of `[A-Za-z0-9 ]` |
| `Nickname.Truncate` | server.js:33 | the result is a prefix of the input, of length min(\|s\|, n) |
| `Nickname.CleanNickname` | server.js:30-34 | the result is always clean: at most 20 characters, all in `[A-Za-z0-9 ]`; falsy input gives `""` |
| `Nickname.StripAppend` | server.js:32 | deletion is character by character: stripping `a + b` is stripping `a` followed by stripping `b`, so order is kept |
| `Nickname.StripSingle` | server.js:32 | a single character survives exactly when it is allowed |
| `Nickname.StripIdentity` | server.js:32 | stripping leaves a string unchanged if and only if every character in it is allowed |
| `Nickname.StripCounts` | server.js:32 | every allowed character keeps its number of occurrences and every other character occurs zero times |
| `Nickname.CleanIsStrippedPrefix` | server.js:31-33 | the clean nickname is a prefix of the stripped input, of length min(20, stripped length) |
| `Nickname.CleanFixesExactlyClean` | server.js:31-33 | a string is returned unchanged if and only if it is already clean (≤ 20 allowed characters) |
| `Nickname.CleanIdempotent` | server.js:30-34 | sanitising a sanitised nickname returns it unchanged |
| `Engine.OnConnect` | server.js:37-43 | the gate keeps the invariant |
| `Engine.OnJoin` | server.js:46-66 | the join handler keeps the invariant. It needs only that the waiting id is registered, which is the lookup on line 50 |
| `Engine.OnSignal` | server.js:69-71 | the signal handler keeps the invariant |
| `Engine.OnReport` | server.js:74-82 | the report handler keeps the invariant, including "count ≥ 3 implies banned" |
| `Engine.OnDisconnect` | server.js:85-90 | the disconnect handler keeps the invariant: the slot never names a removed user |
| `Engine.ConnectGate` | server.js:40-43 | a banned address is disconnected and changes nothing; any other address is admitted with its address recorded, nothing emitted |
| `Engine.JoinParks` | server.js:47-65 | with the slot empty, holding the joiner, or holding a banned address, the joiner takes the slot and is registered as {clean nickname, ip}; nothing is emitted and nothing else changes |
| `Engine.JoinPairs` | server.js:47-62 | with a different, unbanned connection p waiting, the slot empties; exactly two messages go out: to the joiner {p, p's nickname}, then to p {joiner, joiner's clean nickname} |
| `Engine.PairingSymmetric` | server.js:50-62 | a join emits nothing or two partner-found messages, two exactly when a candidate exists; each names the other's recipient, the two parties differ, and each carries its partner's registered clean nickname |
| `Engine.JoinRegisters` | server.js:47-48 | the joiner's entry is {clean nickname, ip}, no other entry changes, and the joiner waits if and only if it was not paired |
| `Engine.SignalRelays` | server.js:69-71 | one message goes to `to` with `from` the sender and the data unchanged; the state is unchanged |
| `Engine.ReportCounts` | server.js:74-82 | the reporter's address count rises by exactly 1 from 0 if unseen; other counts stay; the address is banned if and only if it was banned already or its count reached 3; nothing else changes |
| `Engine.DisconnectReleases` | server.js:85-90 | the slot is emptied only if it held `id`; `id`'s entry and handlers are removed; other entries, every other connection's handlers, counts and bans are unchanged; nothing else in the state changes; nothing is emitted |
| `Traces.Apply` | server.js:36-91 | every delivered event keeps the invariant |
| `Traces.Run` | server.js:36-91 | every sequence of events keeps the invariant |
| `Traces.ReachableIsValid` | server.js:24-50 | every state reachable from start-up is valid, so the lookup `users.get(waitingUser)` on line 50 always finds an entry |
| `Traces.ApplyGrows` | server.js:74-82 | no event lowers a count or lifts a ban |
| `Traces.RunGrows` | server.js:74-82 | over any run, counts never decrease and the ban set only grows |
| `Traces.IgnoredWithoutHandlers` | server.js:40-46 | an event on a connection without handlers leaves the state unchanged and emits nothing |
| `Traces.BanIsPermanent` | server.js:40-43 | once banned, an address stays banned after any run, and its next connection is disconnected at the gate without effect |
| `Traces.StaysWithoutHandlers` | server.js:36-43 | in any run with no new connection under its id, a connection without handlers never acquires them |
| `Traces.RejectedStaysIgnored` | server.js:40-43 | a connection turned away at the gate changes nothing; in any later run, interleaved with other connections' events, while no new connection reuses its id, each of its events does nothing at the point where it arrives |
| `Traces.SignalsFrom` | server.js:69 | the k-th event is a 'signal' from the sender carrying the k-th message's `to` and data |
| `Traces.RelaysFrom` | server.js:70 | the k-th relayed message goes to the k-th message's `to`, tagged with the sender, data unchanged |
| `Traces.SignalsRelayedInOrder` | server.js:69-71 | signals from one live connection are relayed one for one, in the order sent, each tagged with the sender, data unchanged, state unchanged |
| `Traces.TwoStrangersArePaired` | server.js:46-66 | A joins and waits silently; B joins; B learns (A, A's nickname) and A learns (B, B's nickname); the slot is left empty |
| `Traces.LeaverIsNotPaired` | server.js:85-90 | a waiter who disconnects frees the slot; the next joiner waits instead of being paired with it |
| `Traces.ThreeReportsBanReporter` | server.js:74-82 | three reports from one connection ban that connection's own address; the next connection from it is disconnected |
| `Traces.BannedWaiterIsPassedOver` | server.js:50 | a waiter whose address was banned after joining is passed over; the next joiner takes the slot, and the banned waiter stays registered |
| `Service.Server.constructor` | server.js:24-27 | the server starts with every collection empty and nobody waiting; that state is valid |
| `Service.Server.Connect` | server.js:36-43 | the gate in place: accepted if and only if the address is not banned; the new state and outbox are exactly those of `Engine.OnConnect` |
| `Service.Server.Join` | server.js:46-66 | the join handler in place; the new state and outbox are exactly those of `Engine.OnJoin`, and the invariant is kept |
| `Service.Server.Signal` | server.js:69-71 | only the outbox changes, by the one relayed message of `Engine.OnSignal` |
| `Service.Server.Report` | server.js:74-82 | only the counts and the bans change, as `Engine.OnReport` says |
| `Service.Server.Disconnect` | server.js:85-90 | only the slot, the registry and the connection record change, as `Engine.OnDisconnect` says |
| `Service.PairTwoStrangers` | server.js:40-66 | on a fresh server both connections are admitted; two strangers joining in turn get nothing, then the two symmetric partner-found messages |

## Left out

- Express, `helmet`, `express-rate-limit` and static file serving (server.js:1-21): framework wiring with no logic of the engine.
- The ban audit line `console.log` (server.js:80) and start-up with `PORT` and `listen` (server.js:94-97): I/O.
- socket.io transport: rooms, the delivery of `io.to(...).emit` (a message to an unknown id is simply not delivered), and extracting the handshake address. An emit is an outbox entry, and the address is an argument of `Connect`.
- Concurrency: Node runs one handler at a time, so events are sequential calls.
- `String()` coercion of a truthy non-string nickname: the nickname is `Option<string>`.
- A missing event payload: destructuring `{ nickname }` or `{ to, data }` from `undefined` throws inside the handler. The model always receives a payload.
- Unique connection ids: socket.io never reuses an id, and the model does not require it. A repeated `Connect` from an unbanned address replaces the recorded address. From a banned address it emits `Kicked` and leaves the earlier connection's entry and handlers in place.
- Engine.ReportCounts: counts are unbounded `nat`s. In the source, `reportCounts[ip]++` (server.js:76) works on a JavaScript number, which stops increasing at 2^53, so "rises by exactly 1" holds there only below that bound.
- Object-prototype keys: `reportCounts` is a plain object, so an address such as `__proto__` would behave oddly. Addresses are modelled as keys of a `map`.
