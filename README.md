# multicast-dns transport, modelled in Dafny

This project models the `mdns` class of `src/index.ts`: a multicast DNS transport built on one UDP socket.
The model covers these parts:

- constructor defaults: port 5353, socket type udp4, address `ip || host || 224.0.0.251`, and the udp6 fallback to the group FF02::FB;
- classification of socket errors into fatal `error` and non-fatal `warning` events;
- dispatch of inbound datagrams into `warning`, `query` and `response` events, and the id→message map;
- the `listening` handler: adopting an ephemeral port, joining the group, setting TTL and loopback;
- the argument handling of `send` and `query`, and how `query` builds its message;
- the idempotent `destroy`.

The socket, the packet codec and the random source are not modelled.
Their effects appear only as values:
- the instance logs every event it emits;
- it logs the socket calls that act on the network or the socket's state: `createSocket`, `bind`, `addMembership`, `setMulticastTTL`, `setMulticastLoopback`, `send`, `once("close")` and `close`; the three `on(...)` handler registrations and the `address()` read are not logged;
- decoding is a function given to the constructor;
- a query id is read from two bytes passed in by the caller.

Modules:

- `Js` (js.dfy): the JavaScript values seen in the optional argument slots, with truthiness, `typeof`, `||` and property reads.
- `Packets` (packets.dfy): messages, errors, decode results, and the 16-bit random id.
- `Calls` (calls.dfy): argument resolution for `send` and `query`, and query building. These are pure functions.
- `Transport` (transport.dfy): the instance state as a value, with one transition function per constructor step, handler and operation. It also defines the invariant `Valid`:
  - `me.port == port`;
  - the socket has been closed at most once, and only after the instance was destroyed;
  - `messages` holds, for each id, the last response received with that id.
- `Traces` (traces.dfy): any sequence of socket events and calls after construction. It proves that the invariant holds after every such sequence and that the logs only grow.
- `MulticastDns` (mdns.dfy): the class `Mdns`. Its fields are updated in place. Each method keeps `Valid()` and ends in exactly the state the matching `Transport` function gives.
- `Scenarios` (scenarios.dfy): the call shapes used by `tests/test.ts` and the configuration corner cases.

The model follows the code as written:
- `send` does not fail after `destroy`, because the guard is commented out.
- `ready` is emitted from the bind callback, independent of the multicast setup done in `listening`.
- The id→message map grows without bound.

## Model

| member | source | states |
|---|---|---|
| Packets.RandomId | src/index.ts:6-8 | the id is in 0..65535 and is the two random bytes read big-endian |
| Packets.RandomIdCoversEveryId | src/index.ts:6-8 | every id in 0..65535 is produced by some pair of bytes |
| Packets.RandomIdInjective | src/index.ts:6-8 | distinct byte pairs give distinct ids, so uniform bytes give a uniform id |
| Calls.ResolveSendArgs | src/index.ts:111-114 | a function in the rinfo slot becomes the callback; a missing callback becomes the no-op; a missing destination becomes `me`; the destination is never a function and the callback is always present |
| Calls.ResolveQueryArgs | src/index.ts:132-136 | the three re-dispatches flattened into one table: function in type slot → callback with no type and no destination; object with truthy port in type slot → destination, and the next slot → callback; function in rinfo slot → callback; missing callback → no-op |
| Calls.ResolveQueryArgsSettled | src/index.ts:132-136 | resolving an already resolved triple changes nothing |
| Calls.BuildQuery | src/index.ts:138-142 | type is always "query" and id is always the given one; a name gives exactly one question `{name, type: type or "ANY"}`; a list gives those questions in order; an object keeps its sections |
| Transport.SocketTypeOf | src/index.ts:40 | the socket type is udp6 exactly when udp6 was asked for, otherwise udp4 |
| Transport.AddressOf | src/index.ts:40-41 | the address is ip, else host, else 224.0.0.251 for udp4; it is null exactly for udp6 with neither ip nor host; it is never empty |
| Transport.GroupOf | src/index.ts:41-49 | the joined group is never empty; for udp4 it equals the address; for udp6 without an interface it is FF02::FB; otherwise it is the address or FF02::FB |
| Transport.TtlOf | src/index.ts:95 | the TTL is `opts.ttl` when non-zero, otherwise 255 |
| Transport.Init | src/index.ts:37-100 | the port is `opts.port` when given (0 included), else 5353; `me` is `{address, port}`; not destroyed; no messages or events; a socket is created (reuseAddr unless false, udp4 when no type is given) when none was supplied, then bound to the port on `opts.interface`; the state is valid |
| Transport.OpenAsWritten | src/index.ts:34-100 | with no options record the constructor throws; with one it gives the initial state |
| Transport.Open | src/index.ts:37-100 | the corrected constructor: a missing options record acts as `{}` and gives a valid instance on 224.0.0.251:5353 |
| Transport.MissingOptionsFinding | src/index.ts:37-100 | calling the constructor without options throws as written and works once corrected |
| Transport.Classify | src/index.ts:59-65 | a socket error becomes an `error` event exactly when its code is EACCES or EADDRINUSE, otherwise a `warning` event, carrying the same error |
| Transport.OnError | src/index.ts:59-65 | exactly one event is emitted, carrying the error; it is an `error` exactly for EACCES or EADDRINUSE, otherwise a `warning`; nothing else changes |
| Transport.OnMessage | src/index.ts:67-85 | decode failure → one warning, map unchanged; query → one query event with message and sender, map unchanged; response → map gains or overwrites that id only, then one response event; nothing else changes |
| Transport.OnListening | src/index.ts:87-98 | port 0 adopts the bound port in both `port` and `me.port`; unless multicast is false: addMembership(group, interface), then a failed join yields one `error` event, then TTL and loopback are set; destroyed and messages are unchanged |
| Transport.OnBound | src/index.ts:100-102 | the bind callback emits exactly one `ready` event and changes nothing else |
| Transport.Send | src/index.ts:111-123 | exactly one datagram is handed to the socket, carrying the message; it goes to `rinfo.port` and `rinfo.address \|\| rinfo.host`, or to `me` when rinfo is missing or a function; the callback is rinfo when rinfo is a function, else cb when truthy, else the no-op; nothing else changes |
| Transport.Query | src/index.ts:132-144 | exactly one datagram goes out; its message has type query and an id in 0..65535 taken from the random bytes; nothing else changes |
| Transport.Destroy | src/index.ts:146-152 | afterwards the instance is destroyed; with a function or missing callback, the first call registers it on close and closes once, and later calls only defer it; with a truthy non-function callback the call throws at the registration, so nothing is registered, closed or deferred; a close is added only by a first call whose callback is accepted |
| Traces.StepPreservesValid | src/index.ts:59-152 | every handler and operation keeps the invariant and only appends to the logs |
| Traces.RunPreservesValid | src/index.ts:59-152 | any sequence of events and calls keeps the invariant, `destroyed` never reverts, and no id leaves `messages` |
| Traces.ClosesAtMostOnce | src/index.ts:146-152 | after any sequence from construction, the socket has been closed at most once, and only if destroyed |
| Traces.RunClosesWhenDestroyed | src/index.ts:146-152 | from a valid state that was closed if destroyed, any sequence whose `destroy` callbacks are functions or missing keeps closed exactly when destroyed |
| Traces.ClosesExactlyWhenDestroyed | src/index.ts:146-152 | after any sequence from construction whose `destroy` callbacks are functions or missing, the socket has been closed once exactly when destroyed |
| Traces.MessagesAreLatestResponses | src/index.ts:81-84 | after any sequence from construction, `messages` holds for each id exactly the last response received with that id |
| Traces.DestroyedIsPermanent | src/index.ts:146-152 | once destroyed, the instance stays destroyed, the socket is never closed again, and the logs only grow |
| Traces.MeTracksPort | src/index.ts:43-88 | `me.port` equals `port` in every reachable state |
| MulticastDns.Mdns.constructor | src/index.ts:34-102 | the fields are those of `Open(opts)`; the handlers close over the options and the group; the state is valid |
| MulticastDns.Mdns.OnSocketError | src/index.ts:59-65 | appends the classified event and changes nothing else |
| MulticastDns.Mdns.OnDatagram | src/index.ts:67-85 | the in-place dispatch of one datagram decoded by the codec, as `Transport.OnMessage` states |
| MulticastDns.Mdns.OnListening | src/index.ts:87-98 | the in-place post-bind setup, as `Transport.OnListening` states |
| MulticastDns.Mdns.OnBindComplete | src/index.ts:100-102 | appends a `ready` event |
| MulticastDns.Mdns.Send | src/index.ts:111-123 | appends the one send call that `Transport.Send` states |
| MulticastDns.Mdns.Query | src/index.ts:132-144 | resolves arguments, builds the query and sends it through `Send`, as `Transport.Query` states |
| MulticastDns.Mdns.Destroy | src/index.ts:146-152 | the idempotent destroy of `Transport.Destroy`, applied in place; `accepted` is false exactly when the source throws on a truthy non-function callback |
| Scenarios.QueryByNameAsksForAny | src/index.ts:138 | `query(name)` sends exactly one question of type "ANY" to `me` with the no-op callback |
| Scenarios.QueryWithCallbackInTypeSlot | tests/test.ts:28-41 | `query(name, cb)` uses cb as the callback, asks for "ANY", sends to `me`, and ignores later arguments |
| Scenarios.QueryByNameWithType | tests/test.ts:55-71 | `query(name, "A")` sends one question of that type |
| Scenarios.QueryListKeepsQuestions | tests/test.ts:73-91 | `query([q1, q2])` sends exactly those questions in order, with their classes untouched |
| Scenarios.QueryToDestinationInTypeSlot | src/index.ts:134 | an object with a truthy port in the type slot is the destination, and the next argument is the callback |
| Scenarios.DestroyTwiceClosesOnce | src/index.ts:146-152 | destroying twice with function callbacks closes once and only defers the second callback |
| Scenarios.DestroyWithNonFunctionCallback | src/index.ts:146-152 | `destroy("x")` leaves the instance destroyed with the socket never closed, and a second call adds nothing |
| Scenarios.SendAfterDestroyReachesSocket | src/index.ts:117-121 | after destroy, `send` still hands the datagram to the socket |
| Scenarios.Udp6FallbackOnlyChangesGroup | src/index.ts:41-49 | udp6 with an ip but no interface joins FF02::FB while `me.address` keeps the ip |
| Scenarios.Udp6WithoutAddress | src/index.ts:41-49 | udp6 with neither ip nor host has a null `me.address`, joins FF02::FB, and sends queries to `me` with no address |
| Scenarios.EphemeralPortAdopted | src/index.ts:87-88 | port 0 is kept at construction, and the bound port is adopted by `port` and `me.port` |
| Scenarios.FailedJoinIsAnError | src/index.ts:89-97 | a failed join emits one `error` event and no `warning`; TTL 0 becomes 255; loopback is still set |

## Left out

- Socket I/O (`dgram`) is not modelled: real binding, transmission, close completion, and the order of `ready` against `listening`. Calls on the socket are log entries only. The bound port and a failed `addMembership` are parameters of the `listening` handler.
- The packet codec (`dns-packet`) is not modelled. The decoder is a function given to the constructor. A send log entry records the message handed to the encoder, not its bytes. The class bits (unicast response, cache flush) are the codec's business; questions and records pass through the transport untouched.
- `crypto.randomBytes` is not modelled. `query` takes the two random bytes as parameters.
- `respond` is commented out in `src/index.ts:125-130`, so it is not modelled, even though the tests and `src/example.ts` call it.
- EventEmitter semantics are not modelled: listeners and the throw when `error` is emitted with no listener. The only part kept is that `once` and `process.nextTick` reject a callback that is not a function. `process.nextTick` is a log of deferred callbacks.
- Traces.ClosesAtMostOnce: states "at most once, and only if destroyed", not "exactly when destroyed". A truthy callback that is not a function makes `destroy` throw at line 150 after setting `destroyed`, so `close()` never runs. The "exactly when" form is `Traces.ClosesExactlyWhenDestroyed`, for traces without such callbacks.
- MulticastDns.Mdns.Destroy: the TypeError thrown to the caller appears only as `accepted` being false, not as an exception.
- BuildQuery: `query` writes `type` and `id` onto the caller's own object. The model returns a new message, so the caller does not see the change through its alias.
- A first argument to `query` that is not a string, an array or an object (such as `null` or a number) fails with a runtime TypeError in the source. It is not modelled.
- Numbers are integers. NaN (which `typeof` also calls "number") and fractional values are not modelled.
- Node's `dgram` rejects an out-of-range port when binding; `src/index.ts` itself has no range check. The `dgram` check is not modelled.
- The handlers read the options object at event time, so a caller could mutate it after construction. The model fixes the options at construction.
- Only whether `opts.socket` was supplied is modelled, not the supplied socket's own type or options.
- `src/cli.ts` and `src/example.ts` are process I/O glue and are not part of this model.

## Findings

| source | as written | input that shows it | evidently intended | confidence | as-written member | corrected member |
|---|---|---|---|---|---|---|
| src/index.ts:34-100 | `this.opts` holds the raw argument. Line 37 only rebinds the local `opts`, so the bind at line 100 reads `interface` of undefined and throws. | `new mdns()`, as in src/example.ts:3 and src/cli.ts:12 | a missing options record acts as `{}`: udp4 on 224.0.0.251:5353 | high; not executed | Transport.OpenAsWritten | Transport.Open |
