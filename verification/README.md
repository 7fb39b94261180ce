# Resiliency test app: call tracking and failure decisions

The resiliency test app (`tests/apps/resiliencyapp/app.go`) is a fault-injection target for Dapr's resiliency
policies. Three inbound handlers receive a `FailureMessage`: the input-binding handler, the pub/sub
subscription handler and the service-invocation handler. The message has an `ID`, an optional
`MaxFailureCount` and an optional `Timeout`. Every handler runs the same block of code. It reads the attempt
number for the ID from the process-wide map `callTracking`. It appends a `CallRecord{Count, TimeSeen}` under
the ID. Then it answers in one of three ways:
- 200 at once;
- sleep for `Timeout`, then 200;
- 500 at once.

A read-only query endpoint returns the whole map. The test runner uses it to check how often Dapr retried.

The model has four modules:

- `Engine` (`engine.dfy`) holds the values. These are the message, the record, the map's shape and the
  attempt number read from the last record. It also holds the three-way `Decide`, and `Step`, the effect
  of one handled message on the map. The ghost predicate `Contiguous` is the map's invariant: every listed
  ID has a non-empty list whose k-th record has count k.
- `Runs` (`runs.dfy`) feeds a sequence of arrivals through `Step` and proves what the map and the verdicts
  are afterwards. Arrivals may carry many IDs, interleaved, and may come through any handler.
- `Tracker` (`tracker.dfy`) is `callTracking` itself: a class whose `calls` map field the handlers update in
  place. `RecordAndDecide` is the shared counting, recording and decision block. `Snapshot` is the query
  endpoint's read.
- `Handlers` (`handlers.dfy`) holds the three handlers, each a method that updates the tracker. `ReplyFor` turns a
  verdict into the handler's answer: an optional sleep, a status code and, for pub/sub, the
  `{"status":"SUCCESS","message":"consumed"}` body.

Clock readings come in as a parameter (`now`), and the model only stores them. Sleeping is not performed.
It is the `sleep` field of the reply, and the record is already in the map when the reply is produced.

Two behaviours of the code shape the model:
- A request body that fails to decode is not rejected. The handlers ignore decode errors and go on with
  whatever the decoder filled in (app.go:101, 147, 152, 181). The model therefore has no rejection path,
  and its input is an already-decoded message.
- A failing attempt is numbered and recorded before the verdict is taken, exactly as in the code.
  `MaxFailureCount` is a signed Go `int`, so a negative or zero value means every attempt succeeds.

## Model

| member | source | states |
|---|---|---|
| `Engine.AttemptNumber` | tests/apps/resiliencyapp/app.go:105-108 | The attempt number is 0 for an ID with no entry. Under the contiguity invariant, it equals the number of records already kept for the ID. It is defined only where the last record exists, which is the source's own demand. |
| `Engine.Decide` | tests/apps/resiliencyapp/app.go:113-121 | The three-way decision, shared by all handlers (also app.go:163-171 and 193-201). Its own contract: a non-success needs `MaxFailureCount` present and the attempt number below it; an immediate failure needs `Timeout` absent; a stall lasts exactly `Timeout`. `DecideFailsExactly` and `DecideBoundaries` give the full if-and-only-if characterisation and the boundaries. |
| `Engine.DecideFailsExactly` | tests/apps/resiliencyapp/app.go:113-122 | A call fails or stalls if and only if `MaxFailureCount` is present and the attempt number is below it. It fails immediately iff, in addition, `Timeout` is absent. It stalls iff `Timeout` is present, and then for exactly that duration. |
| `Engine.DecideBoundaries` | tests/apps/resiliencyapp/app.go:113-122 | Attempts numbered from 0 always succeed when `MaxFailureCount` is absent or at most 0. A zero `Timeout` is a zero-length stall, not an absent one. |
| `Engine.Step` | tests/apps/resiliencyapp/app.go:105-122 | One handled message adds its ID to the keys. It grows that ID's list by exactly one record, (attempt number, now), and keeps the earlier records unchanged. No other ID's list changes. It yields the verdict for that attempt number, and it preserves the contiguity invariant. |
| `Runs.Run` | tests/apps/resiliencyapp/app.go:105-112 | Handling any sequence of messages in order keeps the map contiguous: every listed ID's k-th record has count k. It yields one verdict per message. |
| `Runs.StepHistory` | tests/apps/resiliencyapp/app.go:112 | On a contiguous map, one step appends (previous length, now) to the message ID's list and leaves every other ID's list as it was. |
| `Runs.RunLength` | tests/apps/resiliencyapp/app.go:112 | After a run, each ID has exactly as many records as it had before plus the number of arrivals that carried it. |
| `Runs.RunKeepsPrefix` | tests/apps/resiliencyapp/app.go:112 | Lists are append-only: after a run, each ID's earlier records are still its first records, unchanged. |
| `Runs.RunUntouched` | tests/apps/resiliencyapp/app.go:112 | An ID that no arrival carries keeps its entry, or stays absent. |
| `Runs.RunAttempt` | tests/apps/resiliencyapp/app.go:105-122 | Take the i-th arrival of any interleaving, and let k be its ID's prior records plus the earlier arrivals with the same ID. That arrival's record is the ID's k-th record, (k, its arrival time), and its verdict is the verdict for attempt k. |
| `Runs.FreshIdRun` | tests/apps/resiliencyapp/app.go:105-122 | Send one message N times under a fresh ID. The ID's records are then exactly (0, t0), (1, t1), ..., (N-1, tN-1), in arrival order, and the i-th verdict is the verdict for attempt i. |
| `Runs.FailuresThenSuccesses` | tests/apps/resiliencyapp/app.go:113-122 | For a fresh ID with `MaxFailureCount` k and no timeout, calls 0..k-1 fail immediately and every later call succeeds. |
| `Runs.StallsThenSuccesses` | tests/apps/resiliencyapp/app.go:113-117 | For a fresh ID with `MaxFailureCount` k and timeout d, calls 0..k-1 stall for d and every later call succeeds at once. |
| `Runs.AlwaysSucceedsWithoutMax` | tests/apps/resiliencyapp/app.go:113 | For a fresh ID without `MaxFailureCount`, every call succeeds, whether or not a timeout is given. |
| `Runs.ScenarioS1` | tests/apps/resiliencyapp/app.go:105-122 | Three calls for "s1" with `MaxFailureCount` 2 on an empty map give fail, fail, succeed, and leave records numbered 0, 1, 2 with the three arrival times. |
| `Tracker.CallTracker.constructor` | tests/apps/resiliencyapp/app.go:271 | The registry starts empty and contiguous. |
| `Tracker.CallTracker.RecordAndDecide` | tests/apps/resiliencyapp/app.go:105-122 | Computes the attempt number from the last record and appends (attempt number, now) under the ID. The new map is the old map with only that ID's list extended. The attempt number equals the number of prior records, and the verdict is the one for that attempt. The contiguity invariant is kept. |
| `Tracker.CallTracker.Snapshot` | tests/apps/resiliencyapp/app.go:278-290 | The query returns the whole registry and changes nothing. In what it returns, every ID's records are numbered 0, 1, 2, ... without gaps. |
| `Handlers.ReplyFor` | tests/apps/resiliencyapp/app.go:118-122 | The status and body writes of the handlers (also app.go:168-176 and 198-202). Its own contract: the status is 200 or 500, and a body is written only by pub/sub, only with a 200, and it is `SUCCESS`/`consumed`. `ReplyMeaning` ties each status, sleep and body to the verdict in both directions. |
| `Handlers.ReplyMeaning` | tests/apps/resiliencyapp/app.go:113-122 | A handler answers 500 iff the verdict is an immediate failure, and 200 otherwise. It sleeps iff the verdict is a stall, for the stall's duration (a non-positive duration means no wait, as with Go's `time.Sleep`). Only pub/sub writes a body, only with a 200, and the body is `SUCCESS`/`consumed`. |
| `Handlers.HandlersAgree` | tests/apps/resiliencyapp/app.go:113-202 | The three handlers share one behaviour: the decision and answer blocks of binding (app.go:113-122), pub/sub (app.go:163-176) and service invocation (app.go:193-202) agree. For every verdict, binding and service invocation give identical replies, and pub/sub sleeps alike and answers the same status. |
| `Handlers.HandleBinding` | tests/apps/resiliencyapp/app.go:92-123 | An OPTIONS request answers 200 and records nothing. A POST changes the map exactly as one `Step` does and answers per the verdict. |
| `Handlers.HandlePubsub` | tests/apps/resiliencyapp/app.go:155-177 | Changes the map exactly as one `Step` does and answers per the verdict. A success carries the `SUCCESS` acknowledgement. |
| `Handlers.HandleServiceInvocation` | tests/apps/resiliencyapp/app.go:185-203 | Changes the map exactly as one `Step` does and answers per the verdict. |

## Left out

- HTTP routing, JSON encoding and decoding, and the subscription list (app.go:65-90, 244-267). Handlers take
  an already-decoded message.
- The pub/sub envelope handling (app.go:126-153). This covers the "DROP" answers for a missing or unreadable
  body, which do not return and fall through to the rest of the handler. It also covers the unchecked
  assertion that the envelope's `data` field is an object, which panics otherwise. The model starts from
  the message found in `data`.
- Outbound clients and test-trigger endpoints: `initGRPCClient`, `newHTTPClient`, `TestGetCallCountGRPC`,
  `TestInvokeOutputBinding`, `TestPublishMessage` and `TestInvokeService` (app.go:206-242, 292-441). They only
  forward to Dapr or to a peer app, which are not part of this model.
- The clock and sleeping: `time.Now` is the `now` parameter, and `time.Sleep` is the reply's `sleep` field.
  Records keep their arrival times in arrival order, but whether those times are non-decreasing depends on
  the clock, so the model does not claim it.
- Concurrency: the handlers update `callTracking` from concurrent requests without a lock (app.go:61, 112).
  The model is sequential and claims nothing about interleaved updates of one ID.
- Logging, including the per-ID call-count lines that the query endpoint writes to the log (app.go:279-282).
- The JSON marshalling failure of the query endpoint (app.go:284-288). It cannot happen for a map of strings
  to records, and the model's `Snapshot` returns the map itself.
- Engine.AttemptNumber: does not model 64-bit wrap-around of `Count + 1`. Counts are unbounded integers in the
  model, and wrap-around in Go would need 2^63 calls for one ID.
- Engine.Decide: `MaxFailureCount` is an unbounded integer rather than Go's 64-bit `int`, and `Timeout` is a
  plain nanosecond count rather than `time.Duration`'s 64-bit range.
