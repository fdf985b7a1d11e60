# aws-queue-ops in Dafny

A model of `QueueOps`, the worker class of aws-queue-ops. It drains an
Amazon SQS queue and runs a caller-supplied `processSingleMessage` on every
message. This README also covers `getMillisecondsDiff`, the helper that
reports durations.

A run (`readQueueAndProcess`) works like this:

- It launches `numParallelJobs` batches and waits for all of them to settle.
- Each batch (`processSQSBatch`) sends one `receiveMessage` request. The
  request asks for up to `maxNumberOfMessages` messages, with a 1-second
  wait and a 30-second visibility timeout.
- The batch passes every received message through `processSQSMessageAndDelete`.
  That method checks that a handler is set, decodes the body as JSON and
  runs the handler.
- Only once the handler has resolved does it send `deleteMessage` with the
  message's receipt handle.
- A handler that fails leaves its message in the queue, where it becomes
  visible again.
- Batches and runs resolve with a summary: a message, the start and end
  instants, and the duration in milliseconds. When
  `includeResponsesAndErros` is set, the summary also carries the lists of
  resolved values and rejection reasons, collected by a settle-all that
  never rejects.

Modules:

- `Duration` (duration.dfy): `getMillisecondsDiff` on integer milliseconds.
- `Settling` (settling.dfy): the settle-all combinator that splits outcomes
  into `resolve` and `reject`.
- `Text` (text.dfy): decimal rendering of numbers and the three summary
  messages.
- `Sqs` (sqs.dfy): a stand-in SQS client, the `Message` and request
  records, and the clock.
  - The client is a class. It answers receives from a queue of prepared
    responses, refuses the deletes of chosen receipt handles, and logs
    every request it is sent.
  - The clock is a method that may return any instant.
- `QueueOps` (queue_ops.dfy): the class itself, with its constructor and
  four methods. It also holds the specification functions those methods
  are proved against:
  - `MessageOutcome` and `MessageDeletes` for one message.
  - `BatchOutcomes`, `BatchDeletes`, `BatchResultOf` and `BatchOutcome`
    for one batch.
  - `RunOutcomes`, `RunDeletes` and `RunResultOf` for one run.
- `QueueOpsProperties` (properties.dfy): what these specifications promise.
  - Delete-after-success, in both directions, for a batch and for a whole
    run.
  - The all-succeed, no-handler and empty-queue scenarios.
  - How a run's batches are split between responses and errors.
  - The constructor's defaults.

The concurrency of the source is modelled as one sequential interleaving.
The methods keep the source's loops and mutate the client's logs in place.
Their postconditions fix that one interleaving: batches in launch order and,
within a batch, messages in received order. Each method's postcondition ties
the new client state and its result to the specification functions, which
follow the same order. The lemmas do not depend on it. What they state
about results and delete logs is counts, membership and multisets, which
hold for any completion order.

A missing handler is handled per message. The `assert.ok` at
src/index.ts:146-149 throws inside an `async` method, so it rejects only
that message's promise and does not abort the run. Each message of the
batch settles as an assertion error, the batch itself still resolves with
those errors, and nothing is deleted. The model follows this behaviour of
the code.

A `receiveMessage` response is treated as "the queue is empty" only when it
has no `Messages` field. An empty `Messages` array is truthy in JavaScript,
so it gives "Processed batch of 0 messages".

## Model

| member | source | states |
|---|---|---|
| Duration.MillisecondsDiff | src/getMillisecondsDiff.ts:6-7 | the duration is a natural number equal to one of the two differences and no smaller than either, i.e. the absolute difference |
| Duration.DiffSymmetric | src/getMillisecondsDiff.ts:7 | the order of the two instants does not matter |
| Duration.DiffZeroIff | src/getMillisecondsDiff.ts:7 | the duration is zero exactly when the instants coincide |
| Duration.DiffOfLater | src/getMillisecondsDiff.ts:6-7 | an instant `k` ms after another is reported `k` ms apart, in either order |
| Duration.DiffTriangle | src/getMillisecondsDiff.ts:7 | (extra, not a promise of the source) durations obey the triangle inequality |
| Settling.SettleAll | src/index.ts:71 | settling all outcomes sorts each into `resolve` or `reject`, losing none; only resolutions leave `reject` empty, only rejections leave `resolve` empty |
| Settling.SettleAllSplits | src/index.ts:123 | `resolve` is the resolved values in order and `reject` the rejection reasons in order |
| Settling.SettledIsCollected | src/index.ts:123 | every resolved value appears in `resolve` and every rejection reason in `reject` |
| Settling.CollectedIsSettled | src/index.ts:123 | everything in `resolve` was a resolution and everything in `reject` a rejection |
| Settling.ResolveCounts | src/index.ts:71 | each value occurs in `resolve` as often as an outcome resolved with it |
| Settling.RejectCounts | src/index.ts:71 | each reason occurs in `reject` as often as an outcome rejected with it |
| Text.NatString | src/index.ts:132 | a natural number renders as a non-empty run of digits without a leading zero |
| Text.DecimalString | src/index.ts:81 | an integer renders as a non-empty string without spaces that starts with `-` exactly when the number is negative |
| Text.NatStringRoundTrip | src/index.ts:132 | reading back the digits of a rendered natural number gives the number |
| Text.DecimalRoundTrip | src/index.ts:81 | reading back a rendered integer gives the integer |
| Text.DecimalInjective | src/index.ts:81 | (extra, not a promise of the source) distinct integers render differently |
| Text.RunMessageInjective | src/index.ts:81 | (extra, not a promise of the source) the run summary determines both the number of groups and the batch size it reports |
| Text.BatchMessageInjective | src/index.ts:132 | (extra, not a promise of the source) the batch summary determines the number of messages it reports |
| Text.BatchMessage | src/index.ts:132 | the batch summary opens with "Processed batch of ", closes with " messages", and between them shows the count as a decimal numeral (rendered by `Text.DecimalString`) that reads back as the count |
| Text.RunMessage | src/index.ts:81 | the run summary opens with "Processed the SQS in ", shows the number of jobs up to the first space, then " groups of ", then the batch size, and closes with " messages"; both numbers are decimal numerals (rendered by `Text.DecimalString`) that read back as the configured values |
| Text.RunMessageExample | src/index.ts:81 | ten jobs of five messages read "Processed the SQS in 10 groups of 5 messages" |
| Text.BatchMessageIsNotEmptyQueue | src/index.ts:112 | no batch summary reads as "The queue is empty" |
| Sqs.ResponseAt | src/index.ts:96-103 | the `k`-th receive gets the `k`-th prepared response, or a response without `Messages` once they are used up |
| Sqs.ResponseAtDrop | src/index.ts:96-103 | after `k` receives, the next response is the original `k`-th |
| Sqs.DropTwice | src/index.ts:96-103 | consuming `i` and then `j` responses consumes `i + j` |
| Sqs.DeleteOutcome | src/index.ts:163-166 | a delete is refused exactly for the receipt handles the service refuses, with the service's error for that handle |
| Sqs.SqsClient.constructor | src/index.ts:42-45 | a fresh client holds the given responses and has sent no request |
| Sqs.SqsClient.ReceiveMessage | src/index.ts:96-103 | a receive returns the next prepared response, consumes it and is logged, with no delete sent |
| Sqs.SqsClient.DeleteMessage | src/index.ts:163-166 | a delete settles per the refused handles and is logged, with the receive side unchanged |
| QueueOps.OrDefault | src/index.ts:36-37 | the logical-or default: the fallback exactly when the value is undefined, zero or the fallback itself, otherwise the given value (negatives kept) |
| QueueOps.DefinedOr | src/index.ts:38-39 | a defined flag, `false` included, is kept; an undefined one takes the fallback |
| QueueOps.Launched | src/index.ts:63 | the loop launches `numParallelJobs` batches, and none when that number is negative |
| QueueOps.Gate | src/index.ts:82-83 | `flag && list`: the list exactly when details are included, `false` otherwise (also src/index.ts:133-134) |
| QueueOps.BatchRequest | src/index.ts:97-102 | every receive asks this queue for up to `maxNumberOfMessages` messages with a 1-second wait and a 30-second visibility timeout |
| QueueOps.MessageDeletes | src/index.ts:153 | a message sends a delete exactly when it was handled, and then exactly one, to this queue for its receipt handle |
| QueueOps.MessageOutcome | src/index.ts:143-155 | a message resolves exactly when the handler is set, the body decodes, the handler resolves and the delete is accepted, with the handler's value; a missing handler rejects with the assertion's message, an undecodable body with a syntax error, a rejecting handler with its reason as a handler error, and a refused delete of a handled message with the service's error |
| QueueOps.BatchOutcomes | src/index.ts:120 | one outcome per received message, the `i`-th being that of the `i`-th message |
| QueueOps.BatchDeletes | src/index.ts:120 | a batch sends no more delete requests than it has messages, all to this queue |
| QueueOps.ResponseDeletes | src/index.ts:106-120 | a receive that failed or returned no `Messages` leads to no delete; otherwise at most one per received message, all to this queue |
| QueueOps.BatchResultOf | src/index.ts:105-135 | the batch reports its instants and their difference; without `Messages` it is "The queue is empty" with empty lists whatever the flag; otherwise it reports the number received and, when details are on, responses and errors that together account for every message, else `false` for both |
| QueueOps.BatchOutcome | src/index.ts:91-136 | a batch rejects exactly when its receive fails, with the service's error |
| QueueOps.RunOutcomes | src/index.ts:63-67 | a run settles one batch per launch |
| QueueOps.RunDeletes | src/index.ts:63-67 | every delete a run sends goes to this queue |
| QueueOps.RunResultOf | src/index.ts:71-84 | the run reports its instants and their difference and the groups-of message; when details are on, responses and errors together account for every batch, else `false` for both |
| QueueOps.QueueOps.constructor | src/index.ts:33-39 | region and URL are stored, the batch size defaults to 10, the parallelism to 1 and details to on, no handler is set, and the given client is used |
| QueueOps.QueueOps.ReadQueueAndProcess | src/index.ts:57-85 | exactly `Launched(numParallelJobs)` batches run, each sending one receive request with this queue's URL, wait 1, visibility 30 and the batch size; the client's deletes are those of the run; the result is the run summary of the settled batches |
| QueueOps.QueueOps.ProcessSqsBatch | src/index.ts:91-136 | one receive request is sent and one response consumed; the batch's outcome and its deletes are those of that response |
| QueueOps.QueueOps.ProcessSqsMessageAndDelete | src/index.ts:143-155 | the message settles as `MessageOutcome` and a delete for its handle is sent exactly when it was handled; no receive happens |
| QueueOps.QueueOps.DeleteMessage | src/index.ts:162-167 | one delete request for this queue and the handle is sent and its outcome returned |
| QueueOpsProperties.ConstructorDefaults | src/index.ts:36-39 | left undefined, the batch size is 10, the parallelism 1 and details on |
| QueueOpsProperties.ConstructorKeepsExplicit | src/index.ts:36-39 | explicit non-zero numbers and an explicit flag, `false` included, are kept |
| QueueOpsProperties.BatchDeletesIffHandled | src/index.ts:146-153 | a delete request is sent for a handle exactly when it is for this queue and some message with that handle was handled (handler set, body decoded, handler resolved) |
| QueueOpsProperties.AllHandledAllDeleted | src/index.ts:120-135 | when every handler resolves and every delete is accepted, there is one response per message, no error, and exactly one delete per message, for its own handle (as a multiset) |
| QueueOpsProperties.NoHandlerNothingDeleted | src/index.ts:146-149 | without a handler, every message is rejected with the assertion's message, no response is produced and nothing is deleted |
| QueueOpsProperties.BatchDeletesWithin | src/index.ts:120 | as a multiset, a batch's deletes are among one delete per message for that message's handle: at most one per message |
| QueueOpsProperties.BatchResultContents | src/index.ts:120-134 | with details on, each value occurs among the responses as often as a message resolved with it, and each failure among the errors as often as a message failed with it |
| QueueOpsProperties.BatchMessageCollected | src/index.ts:120-134 | with details on, each message's handler value is among the batch's responses and each message's failure among its errors |
| QueueOpsProperties.EmptyQueueBatch | src/index.ts:105-117 | a receive without `Messages` resolves the batch as "The queue is empty" with empty lists and deletes nothing |
| QueueOpsProperties.RunPartition | src/index.ts:63-71 | a run has exactly one error per failed receive, and every other batch is a response |
| QueueOpsProperties.RunBatchCollected | src/index.ts:63-71 | a failed receive's error reaches the run's errors, and every other batch's summary reaches the run's responses |
| QueueOpsProperties.RunOutcomeAt | src/index.ts:63-67 | the `j`-th batch of a run is the batch of the `j`-th receive |
| QueueOpsProperties.EmptyQueueRun | src/index.ts:105-117 | on an empty queue, a run reports no error and one empty-queue response per batch, and deletes nothing |
| QueueOpsProperties.ResponseDeletesIffHandled | src/index.ts:106-120 | one receive leads to a delete for a handle exactly when it returned a handled message with that handle |
| QueueOpsProperties.RunDeletesIffHandled | src/index.ts:63-67 | over a whole run, a delete is sent exactly for the handles of messages some batch received and handled, and only to this queue |
| QueueOpsProperties.TwoMessagesScenario | src/index.ts:120-135 | two messages with a handler answering `{ ok: true }` give two responses, no error, and one delete for each of the two handles (as a multiset) |

## Left out

- Building the AWS SDK client from region and endpoint (src/index.ts:42-45):
  the constructor receives a client instead. The real client is not part of
  this model. `Sqs.SqsClient` stands in for it, answering from prepared
  responses.
- Network behaviour of `receiveMessage`: the real wait time, the visibility
  timeout and the service's choice of how many messages to return. The
  request fields are recorded, and the returned messages are whatever the
  prepared response holds.
- Real concurrency. Batches and messages run one after the other in launch
  order, and the method contracts state the logs and result lists in that
  order. In the source, a message's delete follows its own handler's
  completion, so deletes and settled values arrive in completion order.
  Only the lemmas' counts, memberships and multisets carry over to that
  order. The model does not capture overlapping requests.
- `Date`, ISO strings and `moment`. Instants are integer milliseconds from a
  clock that may return any value. `start` and `end` are therefore left
  free in the results. `ProcessSqsBatch` returns the instants it read as a
  ghost span. `ReadQueueAndProcess` returns the ghost spans of its batches,
  and its own instants are `result.start` and `result.end`.
- `JSON.parse`. Decoding is a parameter that either yields a value or fails.
  JSON numbers are integers only.
- Non-integer, `NaN` and infinite values of `maxNumberOfMessages` and
  `numParallelJobs`. These are integers here.
- JavaScript's number rendering beyond plain digits. `${n}` writes integral
  numbers of 1e21 and above in exponent form, such as "1e+21", and numbers
  above 2^53 lose precision. `Text.DecimalString`, and with it
  `Text.RunMessage` and `Text.BatchMessage`, writes plain decimal digits for
  every integer.
- Optional `Body` and `ReceiptHandle` of an SQS message. Both are required
  strings here.
- The `bind` calls of the constructor (src/index.ts:47-50), the optional
  `extra` field of the result and the type of the delete response. None of
  them affects behaviour.
- A handler that is set to something other than a function. The handler is
  either absent or a function.
- QueueOps.QueueOps.ReadQueueAndProcess: its contract states the run's
  results and deletes in launch order, which is one possible completion
  order among many.
