# Azure Service Bus transport for NestJS — a Dafny model

This project models the two halves of a NestJS custom transport over Azure
Service Bus topics and subscriptions.

- **The consumer (`AzureServiceBusServer`).**
  - `listen` opens a connection. `bindHandlers` then gives every registered
    message handler a receiver and a subscription on its topic. Receivers are
    pooled by topic name. Subscriptions are pooled by topic name followed by
    subscription name.
  - Each delivered message runs the handler's `processMessage` callback:
    - on success the message is completed, unless the remote side already
      settled it;
    - on failure it is dead-lettered;
    - under the `exponentialBackoff` strategy, a failed message is instead
      re-published as a delayed copy with `attemptCount` raised by one, and
      the original is completed. When the next attempt would reach
      `maxAttempts`, the message is dead-lettered.
  - `cleanUp` closes every subscription, then every receiver, then the
    connection, and resets the pools.
- **The producer (`AzureServiceBusClient`).**
  - `connect` opens one connection lazily.
  - `getSender` pools one sender per pattern.
  - `buildMessage` turns a packet into a broker envelope. It injects
    `attemptCount: 0` and `contentEncoding` into the custom properties; the
    caller's own properties override both.
  - `dispatchEvent` schedules the envelope when it carries a truthy
    `scheduledEnqueueTimeUtc`, and sends it otherwise.
  - `close` closes every pooled sender and then the connection.

The files:

- `values.dfy` holds the JavaScript values the adapter handles: truthiness,
  a missing key reading as `undefined`, object spread, and the decimal
  rendering of integers.
- `ordered_map.dfy` holds JavaScript's insertion-ordered `Map`.
- `bus.dfy` holds the broker handles and the broker calls. Each call is
  recorded as an `Effect`.
- `error_recovery.dfy` holds the per-message policy as pure functions.
- `envelope.dfy` holds `buildMessage`.
- `client.dfy` and `server.dfy` hold the two classes. Their fields are the
  source's fields, plus a `log` of broker calls made so far.

One behaviour differs from what a reader might expect. `dispatchEvent`
schedules a message whenever `scheduledEnqueueTimeUtc` is truthy. It never
compares that time with the clock, so a time in the past is still scheduled (`TransportClient.PastScheduleStillScheduled`).

## Model

| member | source | states |
|---|---|---|
| ErrorRecovery.EffectiveOptions | src/azure-service-bus-transporter/server.ts:108-112 | without registered backoff options, the defaults are 10 attempts, factor 2, minutes; otherwise the registered options are used unchanged |
| ErrorRecovery.CurrentAttempts | src/azure-service-bus-transporter/server.ts:114 | `attemptCount \|\| 0`: the counter's number when it is truthy, 0 when it is absent or falsy |
| ErrorRecovery.RetryCopy | src/azure-service-bus-transporter/server.ts:131-132 | the re-published copy keeps every message field, the settled flag and every other custom property; it adds `attemptCount`, and its counter is exactly one more than the original's |
| ErrorRecovery.MaxAttemptsDescription | src/azure-service-bus-transporter/server.ts:123 | the dead-letter description is the fixed sentence followed by the decimal rendering of `maxAttempts` |
| ErrorRecovery.MaxAttemptsDescriptionNamesLimit | src/azure-service-bus-transporter/server.ts:123 | two limits with the same description are equal: the description identifies the limit |
| ErrorRecovery.HandleExponentialBackoff | src/azure-service-bus-transporter/server.ts:105-140 | when counter + 1 equals `maxAttempts`, only a dead-letter with reason `ExponentialBackoffMaxAttempts` happens; otherwise, in order: create a sender for the topic, schedule the raised copy at now + factor^counter units, complete the original, close the sender |
| ErrorRecovery.BackoffDeadLettersIffLimit | src/azure-service-bus-transporter/server.ts:115-137 | under backoff a message is dead-lettered if and only if counter + 1 equals the limit; then nothing is scheduled or completed; otherwise something is scheduled and the original is completed exactly once |
| ErrorRecovery.Redelivered | src/azure-service-bus-transporter/server.ts:131-134 | after k backoff rounds the counter has grown by exactly k, and the message fields are unchanged |
| ErrorRecovery.RetryCeiling | src/azure-service-bus-transporter/server.ts:114-136 | a message starting with no counter that fails every time is dead-lettered on round k if and only if k = maxAttempts - 1; every earlier round reschedules it |
| ErrorRecovery.PastLimitNeverDeadLettered | src/azure-service-bus-transporter/server.ts:115 | because the limit test is an equality, a message whose counter is already at or past the limit is never dead-lettered and is always rescheduled again |
| ErrorRecovery.BackoffDelayGrows | src/azure-service-bus-transporter/server.ts:127-128 | with a factor of at least 2, each retry waits strictly longer than the one before |
| ErrorRecovery.ThreeAttemptScenario | src/azure-service-bus-transporter/server.ts:105-137 | with 3 attempts, factor 2 and minutes, an uncounted message is re-published with counter 1 one minute later, then with counter 2 two minutes later, then dead-lettered |
| ErrorRecovery.ProcessEffects | src/azure-service-bus-transporter/server.ts:64-80 | success completes the message, or does nothing when the remote side already settled it, and never dead-letters or schedules; a failure under any strategy type except `exponentialBackoff` dead-letters with reason `DeadLetterError` and the error's message; under backoff the pooled receiver for the topic is used |
| ErrorRecovery.SettledExactlyOnce | src/azure-service-bus-transporter/server.ts:64-80 | every delivery is settled exactly once, completed or dead-lettered, except a handled message that was already settled remotely, which is settled zero times |
| Envelope.CallerProperties | src/azure-service-bus-transporter/client-proxy.ts:48 | the `= {}` default applies only when `applicationProperties` is undefined; an object contributes its fields |
| Envelope.MessageFields | src/azure-service-bus-transporter/client-proxy.ts:45-51 | the rest fields are exactly the option fields not destructured by name, with unchanged values |
| Envelope.BuildMessage | src/azure-service-bus-transporter/client-proxy.ts:43-64 | the envelope's keys; `body` always comes from the packet; subject and schedule time are copied; other options are copied unchanged; custom properties are the defaults `contentEncoding` and `attemptCount: 0`, overridden key by key by the caller's own |
| Envelope.FreshEmitStartsAtZero | src/azure-service-bus-transporter/client-proxy.ts:53-63 | a packet with empty options gets custom properties `{contentEncoding: undefined, attemptCount: 0}` and no schedule time |
| TransportClient.Delivery | src/azure-service-bus-transporter/client-proxy.ts:77-81 | the one broker call made for an envelope: a schedule at the envelope's own time exactly when `scheduledEnqueueTimeUtc` is truthy, otherwise a send |
| TransportClient.PastScheduleStillScheduled | src/azure-service-bus-transporter/client-proxy.ts:77-78 | a schedule time earlier than now is still scheduled, not sent |
| TransportClient.CloseSenders | src/azure-service-bus-transporter/client-proxy.ts:26-28 | one close per pooled sender, in pool order |
| TransportClient.Client.constructor | src/azure-service-bus-transporter/client-proxy.ts:9-14 | a new client has no connection and an empty sender pool |
| TransportClient.Client.Connect | src/azure-service-bus-transporter/client-proxy.ts:16-23 | returns the existing connection without a broker call; opens one for the connection string only when there is none |
| TransportClient.Client.Close | src/azure-service-bus-transporter/client-proxy.ts:25-34 | closes every pooled sender in insertion order, then the connection if one exists; afterwards the pool is empty and there is no connection |
| TransportClient.Client.GetSender | src/azure-service-bus-transporter/client-proxy.ts:36-41 | a pooled sender is returned with no broker call; otherwise a new sender is created and pooled under the pattern; with neither a pooled sender nor a connection, the call fails and nothing changes |
| TransportClient.Client.DispatchEvent | src/azure-service-bus-transporter/client-proxy.ts:72-82 | it succeeds exactly when a sender is pooled or a connection exists; then exactly one broker call is made, a schedule or a send of the built envelope, preceded by a sender creation only for a new pattern |
| TransportClient.RepeatedEmitsShareSender | src/azure-service-bus-transporter/client-proxy.ts:36-41 | two emits to one new pattern create one sender between them, and both messages go through it |
| TransportClient.CloseTwice | src/azure-service-bus-transporter/client-proxy.ts:25-34 | a second `close` makes no broker call |
| JsMap.Set | src/azure-service-bus-transporter/server.ts:60 | `Map.set`: the entry is overwritten, the other entries are unchanged, and a new key goes last in iteration order |
| JsMap.Values | src/azure-service-bus-transporter/server.ts:93 | `Map.values()`: every entry once, in key insertion order |
| JsValues.DecimalStringRoundTrip | src/azure-service-bus-transporter/server.ts:123 | the decimal rendering of an integer parses back to that integer |
| JsValues.DecimalStringInjective | src/azure-service-bus-transporter/server.ts:123 | distinct integers render differently |
| TransportServer.BindOne | src/azure-service-bus-transporter/server.ts:58-88 | binding one handler pools the receiver for its topic and subscription under the topic, sets the key topic-plus-subscription to that receiver's subscription, and makes exactly two broker calls: create the receiver, then subscribe |
| TransportServer.BindAll | src/azure-service-bus-transporter/server.ts:56-90 | binding handlers in order keeps both pools well-formed maps |
| TransportServer.BoundReceivers | src/azure-service-bus-transporter/server.ts:57-60 | after binding, each handler's topic holds the receiver for that topic and the handler's subscription; other entries are unchanged |
| TransportServer.BoundSubscriptionKeys | src/azure-service-bus-transporter/server.ts:57-88 | after binding, the subscription pool holds exactly the old keys plus each handler's topic followed by its subscription name |
| TransportServer.BoundSubscriptions | src/azure-service-bus-transporter/server.ts:57-88 | after binding, each key used by some handler holds the subscription of the last handler in registration order with that key, so a later colliding handler replaces an earlier one |
| TransportServer.UnboundSubscriptionsKept | src/azure-service-bus-transporter/server.ts:57-88 | after binding, a key no handler uses keeps the subscription it held before |
| TransportServer.BindCalls | src/azure-service-bus-transporter/server.ts:59-62 | two broker calls per handler, in registration order: create its receiver, then subscribe to it |
| TransportServer.BindEffects | src/azure-service-bus-transporter/server.ts:56-90 | binding appends exactly those calls to the ones made before |
| TransportServer.CloseSubscriptions | src/azure-service-bus-transporter/server.ts:93-95 | one close per pooled subscription, in pool order |
| TransportServer.CloseReceivers | src/azure-service-bus-transporter/server.ts:97-99 | one close per pooled receiver, in pool order |
| TransportServer.CleanUpPositions | src/azure-service-bus-transporter/server.ts:92-103 | `cleanUp` makes one call per subscription and receiver plus one. The first places close the subscriptions in insertion order. The places after them close the receivers in insertion order. The last place closes the connection |
| TransportServer.CleanUpClosesEverything | src/azure-service-bus-transporter/server.ts:92-100 | every pooled subscription and every pooled receiver is closed |
| TransportServer.CloseEachSubscription | src/azure-service-bus-transporter/server.ts:93-95 | the loop makes exactly the subscription closes, in pool order |
| TransportServer.CloseEachReceiver | src/azure-service-bus-transporter/server.ts:97-99 | the loop makes exactly the receiver closes, in pool order |
| TransportServer.Get | src/azure-service-bus-transporter/server.ts:116 | `receivers.get(topic)`: the pooled receiver when the topic is pooled, nothing otherwise |
| TransportServer.SubscriptionKeyCollision | src/azure-service-bus-transporter/server.ts:88 | topic "ab" with subscription "c" and topic "a" with subscription "bc" share the key "abc": both subscribe, but `cleanUp` closes only the second subscription, never the first |
| TransportServer.Server.constructor | src/azure-service-bus-transporter/server.ts:50-54 | a new server has no connection and empty pools |
| TransportServer.Server.Listen | src/azure-service-bus-transporter/server.ts:142-146 | opens a connection for the connection string, then binds every registered handler in registration order |
| TransportServer.Server.BindHandlers | src/azure-service-bus-transporter/server.ts:56-90 | the loop leaves the pools and the broker calls as binding every handler in order specifies |
| TransportServer.Server.ProcessMessage | src/azure-service-bus-transporter/server.ts:64-80 | one delivery appends exactly the policy's broker calls. The handler's own receiver is used on the success and dead-letter paths. The pooled receiver for the topic is used on the backoff path |
| TransportServer.Server.CleanUp | src/azure-service-bus-transporter/server.ts:92-103 | closes all subscriptions, then all receivers, then the connection; afterwards both pools are empty and there is no connection |

## Left out

- The Azure SDK itself is not modelled. Its network behaviour, its failures and its asynchrony are out. Each SDK call becomes one entry in a log of broker calls, and every call is taken to succeed.
- Failing broker calls are not modelled. For example, a failing `completeMessage` on the success path would fall into the `catch` block.
- `moment` and `Date` are left out. Time is integer milliseconds, and the clock reading `now` is a parameter.
- Numbers are integers. Fractional or NaN counters and fractional backoff factors are not modelled.
- ErrorRecovery.CurrentAttempts: requires that a truthy `attemptCount` is a positive number. The source casts any value to `number` unchecked, so a string or negative counter is not modelled.
- ErrorRecovery.CurrentAttempts: a received message always carries an `applicationProperties` bag. On a message without one, server.ts:114 throws a `TypeError` inside the `catch` block and nothing is scheduled or settled; that path is not modelled. Messages built by `buildMessage` always carry the bag.
- ErrorRecovery.BackoffDelay: the delay and the schedule time are unbounded integers. In JavaScript `backoffFactor ** currentAttempts` is a double that becomes `Infinity` past 2^1024, and a `Date` past 8.64e15 ms is invalid (with factor 2 in minutes, from about 38 attempts on). What happens to such a schedule is not modelled.
- ErrorRecovery.PastLimitNeverDeadLettered: holds in the model for every counter. In JavaScript the rounds past the overflow point above schedule at an invalid time, which the model does not capture.
- ErrorRecovery.BackoffDelayGrows: holds for unbounded integers only. In JavaScript the delay stops growing once `backoffFactor ** currentAttempts` rounds or reaches `Infinity`.
- ErrorRecovery.Redelivered: the broker is taken to redeliver a scheduled copy as the copy itself, with the same fields and the same `remoteSettled` flag. The spread at server.ts:132 also copies fields the broker sets on receipt (sequence number, lock token, delivery count), and how the broker replaces them on redelivery is not modelled.
- ErrorRecovery.RetryCeiling: rests on the same redelivery assumption as `ErrorRecovery.Redelivered`, that each scheduled copy comes back unchanged.
- ErrorRecovery.EffectiveOptions: registered backoff options are taken to be complete records. A partial options object, with missing fields read as `undefined`, is not modelled.
- ErrorRecovery.ProcessEffects: a thrown value is represented by its message string. A thrown non-`Error` value, whose `message` would be `undefined`, is not modelled.
- TransportServer.Server.ProcessMessage: on the backoff path it requires a connection and a pooled receiver for the topic. Without them the source throws inside its `catch` block, and the model does not represent that rejection.
- TransportServer.Server.BindHandlers: requires a connection. `listen` always opens one just before, and without it `createReceiver` would throw on a missing connection.
- TransportServer.Server.CleanUp: requires a connection. The source closes the pools and then dereferences a missing connection, throwing; that path is not modelled.
- Envelope.CallerProperties: spreading a string `applicationProperties`, which in JavaScript yields one property per character, is treated as spreading nothing.
- Packet serialization and `normalizePattern` are outside this model. The packet reaches `buildMessage` already serialized, and the pattern is already a string.
- `publish`, which only returns a no-op, is not modelled.
- `processError`, which only logs, is not modelled.
- The `AzureServiceBusContext` wrapper and the options interface (`context.ts`, `client-options.interface.ts`) are not part of this model.
- The application module, the controller and `main.ts` are not part of this model.
- `listen` invokes its callback. The callback has no effect on the adapter's state and is left out.
- The server's `close` only awaits `cleanUp` and is covered by `TransportServer.Server.CleanUp`.
- Concurrent deliveries and interleaved `await`s are not modelled. Each callback and each method runs to completion.
