# Outbox relay and Kafka consumer: a Dafny model

This project models the delivery logic of a small warehouse system written in Rust.

- **Writers.** Writers append entries to a MongoDB "outbox" collection.
- **Relay.** A relay process forwards the pending entries to Kafka and marks them sent.
- **Consumer.** A Kafka consumer hands each message to a handler, retrying with backoff, and commits the message only after the handler succeeds.

The database, the broker and the timers are replaced by values and oracles:

- The collection is a `map` from `ObjectId` to document. It is held by the class `Outbox.Outbox` and updated in place.
- Whether a database round trip succeeds is a `bool` parameter. A failed write leaves the map unchanged.
- `send_event`, the handler, status writes and commits are oracle functions indexed by position. Examples: `sendOk(k)` for the k-th fetched entry, `handle(i, a)` for attempt `a` on message `i`.
- The backoff sleeps of `process_with_retry` are recorded as millisecond values. The 1 s pauses of `start` and the commits are recorded as stream positions. Sends and status writes are recorded as a log of `Action`s.
- Concurrency between the poll task and the change-stream loop is expressed as explicit orders of their steps.

Modules:

- `Types`: machine integer widths (`u8`, `u32`, `u64`), `Option`, `Result` and the error types.
- `Decimal`: `u64::to_string`, which builds the Kafka key from `user_id`. It is proved injective through a parse-back round trip.
- `KafkaConfig`: the two configuration presets. The five `KafkaConfigTrait` accessors are the field selectors of the single record type `KafkaConfig`.
- `Consumer`: `process_with_retry` and `start`, as methods with loops.
- `Outbox`: the collection and its operations (`add_entry`, `mark_sent`, `fetch_pending_entries`), plus one tick of `retry_pending_entries`. The per-entry loop `DeliverEach` is specified by the pure functions `PassActions` (the log) and `Delivered` (the resulting collection).
- `Reconciler`: the poll task and the change-stream handler of the relay's `main`.

The code has no atomic claim, no `processing` status and no producer-side `send_with_retry`. The model follows the code:

- An entry goes from `pending` straight to a sent status.
- A failed send leaves the entry `pending`, so a later pass picks it up again.
- The poll task and the change stream can both send the same entry. `PollAndChangeBothSend` and `DuplicateSendScenario` show this.
- `mark_sent` writes `"sent "` with a trailing space, but the relay's `main` writes `"sent"`. Both literals are kept as written, and `MarkSentDisagreesWithPoll` states the difference.

## Model

| member | source | states |
|---|---|---|
| `Decimal.DecimalString` | inbound-outbox/src/lib.rs:93 | the key `user_id.to_string()` is a non-empty string of decimal digits with no leading zero except for "0" itself |
| `Decimal.ParseDecimalString` | inbound-outbox/src/main.rs:58 | reading the decimal key back gives the user id (round trip) |
| `Decimal.DecimalStringInjective` | inbound-outbox/src/main.rs:99 | distinct user ids give distinct Kafka keys |
| `KafkaConfig.InboundConfig` | common-kafka/src/config.rs:63-73 | brokers `localhost:9092`, topic `INBOUND`, group `INBOUND_GROUP`, timeout 5000 ms, 5 retries |
| `KafkaConfig.FulfillmentConfig` | common-kafka/src/config.rs:75-85 | brokers `localhost:9092`, topic `FULFILLMENT`, group `FULFILLMENT_GROUP`, timeout 5000 ms, 5 retries |
| `KafkaConfig.PresetsDifferOnlyInDestination` | common-kafka/src/config.rs:63-85 | the fulfillment preset is the inbound preset with only topic and group id replaced, and those two differ |
| `Consumer.ProcessWithRetry` | common-kafka/src/consumer.rs:77-94 | at most `max_retries` handler calls, each with the same key and payload. Only the last call may succeed, and the result is `Ok` exactly when some call within the budget succeeds. Otherwise there are exactly `max_retries` calls and the error is `MessageDelivery("Max retries exceeded")`. After the k-th failure, the last one included, it sleeps 100·2^(k−1) ms. With `max_retries = 0` there are no calls and an error |
| `Consumer.Start` | common-kafka/src/consumer.rs:47-75 | a message is committed exactly when it was received and processing succeeded, and at most once, in stream order. Every other position, a receive error or a failed message, gets the 1 s pause and no commit. Receive errors get no handler call. Each handler call gets its message's key and payload, an absent one read as empty. A failed commit ends the loop with `MessageDelivery` carrying the commit error; otherwise the whole stream is consumed |
| `Outbox.WithStatus` | inbound-outbox/src/lib.rs:54-59 | `update_one` with `$set status` changes only the status of the matched document; no other field or document changes; an unknown id changes nothing |
| `Outbox.WithStatusIdempotent` | inbound-outbox/src/lib.rs:56 | writing the same status twice equals writing it once (`mark_sent` is idempotent) |
| `Outbox.WithStatusLeavesPending` | inbound-outbox/src/lib.rs:54-66 | after a non-pending status is written to an id, the pending set loses exactly that id |
| `Outbox.MarkedNotRefetched` | inbound-outbox/src/lib.rs:54-66 | after `mark_sent(id)`, no answer of the pending query contains that entry |
| `Outbox.Outbox.AddEntry` | inbound-outbox/src/lib.rs:37-52 | on success, inserts a document with the given user id and payload and status `pending` under a fresh id, and returns that id; on a storage failure, nothing changes |
| `Outbox.Outbox.UpdateStatus` | inbound-outbox/src/main.rs:64-69 | `collection.update_one` setting a status: on success the collection becomes `WithStatus`; on failure it is unchanged |
| `Outbox.Outbox.MarkSent` | inbound-outbox/src/lib.rs:54-59 | overwrites the status with the literal `"sent "` whatever it was before; only that status changes |
| `Outbox.Outbox.FetchPendingEntries` | inbound-outbox/src/lib.rs:63-67 | on success, returns every document whose status is exactly `"pending"`, each once, as stored, in some order |
| `Outbox.PassSendsEachEntry` | inbound-outbox/src/lib.rs:89-95 | a pass sends every fetched entry exactly once, in fetch order, with key = decimal user id and the stored payload, whatever the outcomes |
| `Outbox.PassUpdatesFollowSends` | inbound-outbox/src/lib.rs:92-107 | in a pass, every status write comes right after a successful send of the same entry |
| `Outbox.PassUpdatesExactlySent` | inbound-outbox/src/lib.rs:96-107 | a pass writes the status to exactly the entries whose send succeeded and that carry an id; an entry with `id = None` is sent but never marked |
| `Outbox.DeliveredStep` | inbound-outbox/src/lib.rs:96-106 | one more entry applies exactly that entry's status write, and only if its send and its write both succeeded |
| `Outbox.PassPending` | inbound-outbox/src/lib.rs:92-111 | after a pass, an entry is still pending iff it was pending before and no fetched copy of it was both sent and successfully updated |
| `Outbox.FailedSendRefetched` | inbound-outbox/src/lib.rs:76-111 | a fetched entry whose send failed is returned again by the next fetch |
| `Outbox.DeliverEach` | inbound-outbox/src/lib.rs:89-112 | the per-entry loop: the log is `PassActions` and the new collection is `Delivered` for the fetched list. A failed status write is only logged, and the loop goes on |
| `Outbox.RetryPendingPass` | inbound-outbox/src/lib.rs:76-112 | one tick of `retry_pending_entries`. A failed fetch sends nothing and changes nothing. Otherwise the fetched list is exactly the pending entries and the pass writes `"sent "` |
| `Reconciler.PollPass` | inbound-outbox/src/main.rs:52-86 | one tick of the poll task. A failed fetch sends nothing and changes nothing. Otherwise the fetched list is exactly the pending entries, and a successful send is followed by writing `"sent"` |
| `Reconciler.HandleChange` | inbound-outbox/src/main.rs:95-118 | acts only on an event with a full document whose status is exactly `"pending"`: it sends the document and, on success, writes `"sent"`. Error events and other statuses do nothing. It fails exactly when the send succeeded and the write failed |
| `Reconciler.WatchChanges` | inbound-outbox/src/main.rs:94-119 | handles events in order and stops at the first failed status write, returning that error; otherwise it consumes the whole stream |
| `Reconciler.WatchActsOnlyOnPending` | inbound-outbox/src/main.rs:95-115 | the watch loop sends only documents notified as pending, keyed by decimal user id. It writes only `"sent"`, to that document's id, and only right after a successful send |
| `Reconciler.WatchOnlyMarksSent` | inbound-outbox/src/main.rs:102-109 | the watch loop keeps every document and leaves each one as it was or with status `"sent"` |
| `Reconciler.MarkSentDisagreesWithPoll` | inbound-outbox/src/lib.rs:54-59 | on the same fetch and outcomes, the retry pass leaves `"sent "` and the poll task (main.rs:67) leaves `"sent"`, while both send the same messages |
| `Reconciler.PollAndChangeBothSend` | inbound-outbox/src/main.rs:52-118 | with no claim step, an entry fetched by the poll task and notified as pending is sent by both, with the same key and payload. In either order it ends `"sent"` if either side's send and write succeeded |
| `Reconciler.DuplicateSendScenario` | inbound-outbox/src/main.rs:52-118 | user 42 appends "p1". The poll task fetches it, the change stream sends it and marks it, and then the poll task sends ("42", "p1") again. The status is `"sent"` |

## Left out

- MongoDB and Kafka client construction, subscription, `ClientCreation` errors, and the producer's settings. `send_event` is an oracle, so its timeout of `timeout_ms / 1000` seconds (common-kafka/src/producer.rs) plays no part.
- Timers and concurrency: the 10 s and 60 s interval ticks, `task::spawn`, `try_join!` and real sleeps. Sleeps are recorded as values, and interleavings are explicit step orders.
- Logging, `Utc::now` (a parameter `now`) and the content of database and broker errors.
- `Outbox.Outbox.UpdateStatus`: a failed MongoDB write is modelled as not applied. A write that reached the server before the error is not modelled.
- `Consumer.ProcessWithRetry`: does not model the panic of `Duration` multiplication on overflow. That panic would happen after about 68 consecutive failures. The presets use 5 retries.
- `Consumer.Start`: records which positions got the 1 s pause, and which message each handler call was for and with what key and payload. It does not state how many calls each message got; `Consumer.ProcessWithRetry` states that per message. It does not record how the backoff sleeps interleave with the pauses.
- `Outbox.Outbox.AddEntry`: `ObjectId` generation is a counter. Only freshness of the id is modelled.
- The change stream's `full_document` is taken as given. Which MongoDB events carry one, inserts only or also updates, is a server option that is not modelled.
- The `MessagePrinter` handler of common-kafka/src/lib.rs always succeeds. It is one instance of the handler oracle and gets no separate member.
- The random test-data generator in inbound-service and the client UI components are not part of this model.
