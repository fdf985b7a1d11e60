/** The `QueueOps` class of src/index.ts: configuration defaults, the run
    that launches `numParallelJobs` batches, the batch that does one receive
    and processes every message, and the per-message protocol that deletes a
    message only after its handler succeeded.

    The concurrent settle-all of the source is modelled as one sequential
    interleaving in launch order; the properties below speak of counts,
    membership and multisets, never of the order across tasks. */
module QueueOps {
  import opened Settling
  import opened Sqs
  import opened Text
  import Duration

  /** `IConstructorParams`: an optional field left undefined is `None`. */
  datatype ConstructorParams = ConstructorParams(
    region: string,
    queueURL: string,
    maxNumberOfMessages: Option<int>,
    numParallelJobs: Option<int>,
    includeResponsesAndErros: Option<bool>)

  /** `value || fallback` on an optional number: undefined and 0 are falsy
      and give the fallback, every other number (negative ones included) is
      kept. */
  function OrDefault(value: Option<int>, fallback: int): (r: int)
    ensures r == fallback <==> value.None? || value.value == 0 || value.value == fallback
    ensures r != fallback ==> value == Some(r)
  {
    match value
    case None => fallback
    case Some(v) => if v == 0 then fallback else v
  }

  /** `value !== undefined ? value : fallback`: an explicit `false` is kept. */
  function DefinedOr(value: Option<bool>, fallback: bool): (r: bool)
    ensures value.Some? ==> r == value.value
    ensures value.None? ==> r == fallback
  {
    if value.Some? then value.value else fallback
  }

  /** The number of iterations of `for (let i = 0; i < n; i += 1)`. */
  function Launched(numParallelJobs: int): (k: nat)
    ensures numParallelJobs >= 0 ==> k == numParallelJobs
    ensures numParallelJobs < 0 ==> k == 0
  {
    if numParallelJobs > 0 then numParallelJobs else 0
  }

  /** Why a promise of the core rejects. */
  datatype Failure =
    | AssertionError(message: string)  // `assert.ok` on a missing handler
    | SyntaxError(text: string)        // `JSON.parse` refused the body
    | HandlerError(reason: Json)       // the handler rejected or threw
    | AwsError(message: string)        // the service refused a receive or a delete

  /** The caller's `processSingleMessage`: resolves with any value or
      rejects with any reason. */
  type Handler = Json -> Settled<Json, Json>

  /** `JSON.parse`, which either yields a value or throws. */
  type JsonParser = string -> Option<Json>

  /** `flag && list`: the list when details are included, `false` otherwise. */
  datatype Detail<+T> = False | Items(items: seq<T>)

  function Gate<T>(withDetails: bool, items: seq<T>): (d: Detail<T>)
    ensures d.Items? <==> withDetails
    ensures d.Items? ==> d.items == items
  {
    if withDetails then Items(items) else False
  }

  /** `ISQSWorkResult` of one batch; instants are milliseconds. */
  datatype BatchResult = BatchResult(
    message: string,
    start: int,
    end: int,
    duration: nat,
    responses: Detail<Json>,
    errors: Detail<Failure>)

  /** `ISQSWorkResult` of one run: its responses are the resolved batches. */
  datatype RunResult = RunResult(
    message: string,
    start: int,
    end: int,
    duration: nat,
    responses: Detail<BatchResult>,
    errors: Detail<Failure>)

  /** The instants read before and after a batch. */
  datatype Span = Span(start: int, end: int)

  /** The receive request every batch sends (src/index.ts:97-102). */
  function BatchRequest(queueURL: string, maxNumberOfMessages: int): (r: ReceiveRequest)
    ensures r.queueUrl == queueURL && r.maxNumberOfMessages == maxNumberOfMessages
    ensures r.waitTimeSeconds == 1 && r.visibilityTimeout == 30
  {
    ReceiveRequest(queueURL, 1, 30, maxNumberOfMessages)
  }

  /** `n` copies of `x`. */
  function Repeat<T>(x: T, n: nat): (s: seq<T>)
    ensures |s| == n && forall i :: 0 <= i < n ==> s[i] == x
  {
    if n == 0 then [] else Repeat(x, n - 1) + [x]
  }

  /** One more request extends a log of `k` repeated requests. */
  lemma RepeatStep<T>(x: T, k: nat, log0: seq<T>, before: seq<T>, after: seq<T>)
    requires before == log0 + Repeat(x, k)
    requires after == before + [x]
    ensures after == log0 + Repeat(x, k + 1)
  {
  }

  // ---------------------------------------------------------------------
  // Per message: handler check, decode, handler, delete.

  /** The handler is set, the body decodes and the handler resolves: the
      condition under which the message is deleted. */
  predicate Handled(handler: Option<Handler>, parse: JsonParser, m: Message) {
    handler.Some? && parse(m.body).Some? && handler.value(parse(m.body).value).Resolved?
  }

  /** What `processSQSMessageAndDelete(m)` settles to. */
  function MessageOutcome(handler: Option<Handler>, parse: JsonParser,
                          deleteErrors: map<string, string>, m: Message): (r: Settled<Json, Failure>)
    ensures r.Resolved? <==> Handled(handler, parse, m) && m.receiptHandle !in deleteErrors
    ensures r.Resolved? ==> r.value == handler.value(parse(m.body).value).value
    ensures handler.None? ==> r == Rejected(AssertionError(MissingHandler))
    ensures handler.Some? && parse(m.body).None? ==> r == Rejected(SyntaxError(m.body))
    ensures handler.Some? && parse(m.body).Some? && handler.value(parse(m.body).value).Rejected? ==>
      r == Rejected(HandlerError(handler.value(parse(m.body).value).reason))
    ensures Handled(handler, parse, m) && m.receiptHandle in deleteErrors ==>
      r == Rejected(AwsError(deleteErrors[m.receiptHandle]))
  {
    match handler
    case None => Rejected(AssertionError(MissingHandler))
    case Some(h) =>
      match parse(m.body)
      case None => Rejected(SyntaxError(m.body))
      case Some(body) =>
        match h(body)
        case Rejected(reason) => Rejected(HandlerError(reason))
        case Resolved(value) =>
          match DeleteOutcome(deleteErrors, m.receiptHandle)
          case Rejected(e) => Rejected(AwsError(e))
          case Resolved(_) => Resolved(value)
  }

  /** The delete requests `processSQSMessageAndDelete(m)` sends. */
  function MessageDeletes(queueURL: string, handler: Option<Handler>, parse: JsonParser,
                          m: Message): (ds: seq<DeleteRequest>)
    ensures ds != [] <==> Handled(handler, parse, m)
    ensures ds != [] ==> ds == [DeleteRequest(queueURL, m.receiptHandle)]
  {
    if Handled(handler, parse, m) then [DeleteRequest(queueURL, m.receiptHandle)] else []
  }

  // ---------------------------------------------------------------------
  // Per batch.

  /** The outcome of every message of a batch, one per message. */
  function BatchOutcomes(handler: Option<Handler>, parse: JsonParser,
                         deleteErrors: map<string, string>, msgs: seq<Message>): (os: seq<Settled<Json, Failure>>)
    ensures |os| == |msgs|
    ensures forall i :: 0 <= i < |msgs| ==> os[i] == MessageOutcome(handler, parse, deleteErrors, msgs[i])
  {
    if msgs == [] then []
    else BatchOutcomes(handler, parse, deleteErrors, msgs[..|msgs| - 1])
         + [MessageOutcome(handler, parse, deleteErrors, msgs[|msgs| - 1])]
  }

  /** The delete requests a batch sends, message by message. */
  function BatchDeletes(queueURL: string, handler: Option<Handler>, parse: JsonParser,
                        msgs: seq<Message>): (ds: seq<DeleteRequest>)
    ensures |ds| <= |msgs|
    ensures forall d :: d in ds ==> d.queueUrl == queueURL
  {
    if msgs == [] then []
    else BatchDeletes(queueURL, handler, parse, msgs[..|msgs| - 1])
         + MessageDeletes(queueURL, handler, parse, msgs[|msgs| - 1])
  }

  /** Processing message `i` extends the outcomes and the delete log of a
      batch by that message's. */
  lemma BatchStep(queueURL: string, handler: Option<Handler>, parse: JsonParser,
                  deleteErrors: map<string, string>, msgs: seq<Message>, i: nat,
                  outcomes: seq<Settled<Json, Failure>>, outcome: Settled<Json, Failure>,
                  log0: seq<DeleteRequest>, before: seq<DeleteRequest>, after: seq<DeleteRequest>)
    requires i < |msgs|
    requires outcomes == BatchOutcomes(handler, parse, deleteErrors, msgs[..i])
    requires outcome == MessageOutcome(handler, parse, deleteErrors, msgs[i])
    requires before == log0 + BatchDeletes(queueURL, handler, parse, msgs[..i])
    requires after == before + MessageDeletes(queueURL, handler, parse, msgs[i])
    ensures outcomes + [outcome] == BatchOutcomes(handler, parse, deleteErrors, msgs[..i + 1])
    ensures after == log0 + BatchDeletes(queueURL, handler, parse, msgs[..i + 1])
  {
    assert msgs[..i + 1][..i] == msgs[..i];
  }

  /** Some message of `msgs` carrying `receiptHandle` was handled. */
  predicate HandledWithin(handler: Option<Handler>, parse: JsonParser, msgs: seq<Message>, receiptHandle: string) {
    exists i :: 0 <= i < |msgs| && msgs[i].receiptHandle == receiptHandle && Handled(handler, parse, msgs[i])
  }

  /** What one batch resolves with, given the `Messages` of its receive
      and the instants read before and after. */
  function BatchResultOf(messages: Option<seq<Message>>, handler: Option<Handler>, parse: JsonParser,
                         deleteErrors: map<string, string>, withDetails: bool, start: int, end: int): (r: BatchResult)
    ensures r.start == start && r.end == end && r.duration == Duration.MillisecondsDiff(start, end)
    ensures messages.None? ==> r.message == QueueIsEmpty && r.responses == Items([]) && r.errors == Items([])
    ensures messages.Some? ==> r.message == BatchMessage(|messages.value|)
    ensures messages.Some? && withDetails ==>
      r.responses.Items? && r.errors.Items?
      && |r.responses.items| + |r.errors.items| == |messages.value|
    ensures messages.Some? && !withDetails ==> r.responses == False && r.errors == False
  {
    match messages
    case None =>
      BatchResult(QueueIsEmpty, start, end, Duration.MillisecondsDiff(start, end), Items([]), Items([]))
    case Some(msgs) =>
      var settled := SettleAll(BatchOutcomes(handler, parse, deleteErrors, msgs));
      BatchResult(BatchMessage(|msgs|), start, end, Duration.MillisecondsDiff(start, end),
                  Gate(withDetails, settled.resolve), Gate(withDetails, settled.reject))
  }

  /** What a batch settles to after receiving `response`, given the instants
      it reads: a failed receive rejects the batch, and nothing else does. */
  function BatchOutcome(response: ReceiveResponse, handler: Option<Handler>, parse: JsonParser,
                        deleteErrors: map<string, string>, withDetails: bool, span: Span)
    : (r: Settled<BatchResult, Failure>)
    ensures r.Rejected? <==> response.Rejected?
    ensures response.Rejected? ==> r.reason == AwsError(response.reason)
  {
    match response
    case Rejected(e) => Rejected(AwsError(e))
    case Resolved(messages) =>
      Resolved(BatchResultOf(messages, handler, parse, deleteErrors, withDetails, span.start, span.end))
  }

  /** The delete requests of a batch that received `response`. */
  function ResponseDeletes(queueURL: string, handler: Option<Handler>, parse: JsonParser,
                           response: ReceiveResponse): (ds: seq<DeleteRequest>)
    ensures !(response.Resolved? && response.value.Some?) ==> ds == []
    ensures response.Resolved? && response.value.Some? ==> |ds| <= |response.value.value|
    ensures forall d :: d in ds ==> d.queueUrl == queueURL
  {
    match response
    case Resolved(Some(msgs)) => BatchDeletes(queueURL, handler, parse, msgs)
    case _ => []
  }

  // ---------------------------------------------------------------------
  // Per run.

  /** The settled batches of a run whose `j`-th batch receives the `j`-th
      response of `pending` and reads the instants `spans[j]`. */
  function RunOutcomes(pending: seq<ReceiveResponse>, handler: Option<Handler>, parse: JsonParser,
                       deleteErrors: map<string, string>, withDetails: bool, spans: seq<Span>)
    : (bs: seq<Settled<BatchResult, Failure>>)
    ensures |bs| == |spans|
  {
    if spans == [] then []
    else RunOutcomes(pending, handler, parse, deleteErrors, withDetails, spans[..|spans| - 1])
         + [BatchOutcome(ResponseAt(pending, |spans| - 1), handler, parse, deleteErrors, withDetails,
                         spans[|spans| - 1])]
  }

  /** The delete requests of the first `k` batches of a run that starts
      with the queue holding `pending`. */
  function RunDeletes(queueURL: string, handler: Option<Handler>, parse: JsonParser,
                      pending: seq<ReceiveResponse>, k: nat): (ds: seq<DeleteRequest>)
    ensures forall d :: d in ds ==> d.queueUrl == queueURL
  {
    if k == 0 then []
    else RunDeletes(queueURL, handler, parse, pending, k - 1)
         + ResponseDeletes(queueURL, handler, parse, ResponseAt(pending, k - 1))
  }

  /** One more batch extends the delete log of a run by that batch's deletes. */
  lemma RunDeletesStep(queueURL: string, handler: Option<Handler>, parse: JsonParser,
                       pending: seq<ReceiveResponse>, k: nat,
                       log0: seq<DeleteRequest>, before: seq<DeleteRequest>, after: seq<DeleteRequest>)
    requires before == log0 + RunDeletes(queueURL, handler, parse, pending, k)
    requires after == before + ResponseDeletes(queueURL, handler, parse, ResponseAt(Drop(pending, k), 0))
    ensures after == log0 + RunDeletes(queueURL, handler, parse, pending, k + 1)
  {
    RunDeletesUnfold(queueURL, handler, parse, pending, k);
    AppendAssociates(log0, RunDeletes(queueURL, handler, parse, pending, k),
                     ResponseDeletes(queueURL, handler, parse, ResponseAt(Drop(pending, k), 0)));
  }

  lemma RunDeletesUnfold(queueURL: string, handler: Option<Handler>, parse: JsonParser,
                         pending: seq<ReceiveResponse>, k: nat)
    ensures RunDeletes(queueURL, handler, parse, pending, k + 1)
         == RunDeletes(queueURL, handler, parse, pending, k)
            + ResponseDeletes(queueURL, handler, parse, ResponseAt(Drop(pending, k), 0))
  {
    ResponseAtDrop(pending, k, 0);
  }

  lemma AppendAssociates<T>(a: seq<T>, b: seq<T>, c: seq<T>)
    ensures (a + b) + c == a + (b + c)
  {
  }

  /** One more batch extends the settled batches of a run by its outcome. */
  lemma RunOutcomesStep(pending: seq<ReceiveResponse>, handler: Option<Handler>, parse: JsonParser,
                        deleteErrors: map<string, string>, withDetails: bool, spans: seq<Span>, span: Span,
                        before: seq<Settled<BatchResult, Failure>>, batch: Settled<BatchResult, Failure>)
    requires before == RunOutcomes(pending, handler, parse, deleteErrors, withDetails, spans)
    requires batch == BatchOutcome(ResponseAt(Drop(pending, |spans|), 0), handler, parse, deleteErrors,
                                   withDetails, span)
    ensures before + [batch] == RunOutcomes(pending, handler, parse, deleteErrors, withDetails, spans + [span])
  {
    ResponseAtDrop(pending, |spans|, 0);
    assert (spans + [span])[..|spans|] == spans;
  }

  /** What a run resolves with, given its settled batches and the instants
      read before and after. */
  function RunResultOf(batches: seq<Settled<BatchResult, Failure>>, numParallelJobs: int,
                       maxNumberOfMessages: int, withDetails: bool, start: int, end: int): (r: RunResult)
    ensures r.start == start && r.end == end && r.duration == Duration.MillisecondsDiff(start, end)
    ensures r.message == RunMessage(numParallelJobs, maxNumberOfMessages)
    ensures withDetails ==>
      r.responses.Items? && r.errors.Items?
      && |r.responses.items| + |r.errors.items| == |batches|
    ensures !withDetails ==> r.responses == False && r.errors == False
  {
    var settled := SettleAll(batches);
    RunResult(RunMessage(numParallelJobs, maxNumberOfMessages), start, end,
              Duration.MillisecondsDiff(start, end),
              Gate(withDetails, settled.resolve), Gate(withDetails, settled.reject))
  }

  // ---------------------------------------------------------------------
  // The class.

  class QueueOps {
    var numParallelJobs: int
    var maxNumberOfMessages: int
    var queueURL: string
    var region: string
    var processSingleMessage: Option<Handler>
    const sqsClient: SqsClient
    var includeResponsesAndErros: bool

    /** The client is supplied rather than built from region and URL. */
    constructor (params: ConstructorParams, client: SqsClient)
      ensures region == params.region && queueURL == params.queueURL
      ensures maxNumberOfMessages == OrDefault(params.maxNumberOfMessages, 10)
      ensures numParallelJobs == OrDefault(params.numParallelJobs, 1)
      ensures includeResponsesAndErros == DefinedOr(params.includeResponsesAndErros, true)
      ensures processSingleMessage == None
      ensures sqsClient == client
    {
      region := params.region;
      queueURL := params.queueURL;
      maxNumberOfMessages := OrDefault(params.maxNumberOfMessages, 10);
      numParallelJobs := OrDefault(params.numParallelJobs, 1);
      includeResponsesAndErros := DefinedOr(params.includeResponsesAndErros, true);
      processSingleMessage := None;
      sqsClient := client;
    }

    /** Launches `numParallelJobs` batches, settles them all and reports.
        `spans` are the instants each batch read. */
    method ReadQueueAndProcess(parse: JsonParser) returns (result: RunResult, ghost spans: seq<Span>)
      modifies sqsClient
      ensures |spans| == Launched(numParallelJobs)
      ensures sqsClient.receiveLog
           == old(sqsClient.receiveLog) + Repeat(BatchRequest(queueURL, maxNumberOfMessages), |spans|)
      ensures sqsClient.pending == Drop(old(sqsClient.pending), |spans|)
      ensures sqsClient.deleteLog
           == old(sqsClient.deleteLog)
              + RunDeletes(queueURL, processSingleMessage, parse, old(sqsClient.pending), |spans|)
      ensures result
           == RunResultOf(RunOutcomes(old(sqsClient.pending), processSingleMessage, parse,
                                      sqsClient.deleteErrors, includeResponsesAndErros, spans),
                          numParallelJobs, maxNumberOfMessages, includeResponsesAndErros,
                          result.start, result.end)
    {
      var start := Now();
      ghost var pending0, received0, deleted0 := sqsClient.pending, sqsClient.receiveLog, sqsClient.deleteLog;
      ghost var url, handler, errs, details := queueURL, processSingleMessage, sqsClient.deleteErrors,
                                               includeResponsesAndErros;
      ghost var request := BatchRequest(queueURL, maxNumberOfMessages);
      var promises: seq<Settled<BatchResult, Failure>> := [];
      spans := [];
      var i := 0;
      while i < numParallelJobs
        invariant 0 <= i <= Launched(numParallelJobs)
        invariant |spans| == i
        invariant sqsClient.receiveLog == received0 + Repeat(request, i)
        invariant sqsClient.pending == Drop(pending0, i)
        invariant promises == RunOutcomes(pending0, handler, parse, errs, details, spans)
        invariant sqsClient.deleteLog == deleted0 + RunDeletes(url, handler, parse, pending0, i)
      {
        ghost var deleted := sqsClient.deleteLog;
        ResponseAtDrop(pending0, i, 0);
        DropTwice(pending0, i, 1);
        ghost var received := sqsClient.receiveLog;
        var batch, span := ProcessSqsBatch(parse);
        RunDeletesStep(url, handler, parse, pending0, i, deleted0, deleted, sqsClient.deleteLog);
        RepeatStep(request, i, received0, received, sqsClient.receiveLog);
        RunOutcomesStep(pending0, handler, parse, errs, details, spans, span, promises, batch);
        promises := promises + [batch];
        spans := spans + [span];
        i := i + 1;
      }
      var end := Now();
      result := RunResultOf(promises, numParallelJobs, maxNumberOfMessages,
                            includeResponsesAndErros, start, end);
    }

    /** One receive, then every received message through the per-message
        protocol. A failed receive rejects the batch. `span` holds the
        instants the batch read. */
    method ProcessSqsBatch(parse: JsonParser) returns (outcome: Settled<BatchResult, Failure>, ghost span: Span)
      modifies sqsClient
      ensures sqsClient.receiveLog
           == old(sqsClient.receiveLog) + [BatchRequest(queueURL, maxNumberOfMessages)]
      ensures sqsClient.pending == Drop(old(sqsClient.pending), 1)
      ensures outcome == BatchOutcome(ResponseAt(old(sqsClient.pending), 0), processSingleMessage, parse,
                                      sqsClient.deleteErrors, includeResponsesAndErros, span)
      ensures sqsClient.deleteLog
           == old(sqsClient.deleteLog)
              + ResponseDeletes(queueURL, processSingleMessage, parse, ResponseAt(old(sqsClient.pending), 0))
    {
      var start := Now();
      var data := sqsClient.ReceiveMessage(BatchRequest(queueURL, maxNumberOfMessages));
      if data.Rejected? {
        return Rejected(AwsError(data.reason)), Span(start, start);
      }
      if data.value.None? {
        var end := Now();
        return Resolved(BatchResult(QueueIsEmpty, start, end, Duration.MillisecondsDiff(start, end),
                                    Items([]), Items([]))), Span(start, end);
      }
      var msgs := data.value.value;
      var promises: seq<Settled<Json, Failure>> := [];
      for i := 0 to |msgs|
        invariant promises == BatchOutcomes(processSingleMessage, parse, sqsClient.deleteErrors, msgs[..i])
        invariant sqsClient.deleteLog
               == old(sqsClient.deleteLog) + BatchDeletes(queueURL, processSingleMessage, parse, msgs[..i])
        invariant sqsClient.pending == Drop(old(sqsClient.pending), 1)
        invariant sqsClient.receiveLog
               == old(sqsClient.receiveLog) + [BatchRequest(queueURL, maxNumberOfMessages)]
      {
        ghost var deleted := sqsClient.deleteLog;
        var outcome := ProcessSqsMessageAndDelete(msgs[i], parse);
        BatchStep(queueURL, processSingleMessage, parse, sqsClient.deleteErrors, msgs, i,
                  promises, outcome, old(sqsClient.deleteLog), deleted, sqsClient.deleteLog);
        promises := promises + [outcome];
      }
      assert msgs[..|msgs|] == msgs;
      var settled := SettleAll(promises);
      var end := Now();
      outcome := Resolved(BatchResult(BatchMessage(|msgs|), start, end, Duration.MillisecondsDiff(start, end),
                                      Gate(includeResponsesAndErros, settled.resolve),
                                      Gate(includeResponsesAndErros, settled.reject)));
      span := Span(start, end);
    }

    /** Checks the handler is set, decodes the body, runs the handler and,
        only once it has resolved, deletes the message; resolves with the
        handler's result. */
    method ProcessSqsMessageAndDelete(message: Message, parse: JsonParser)
      returns (outcome: Settled<Json, Failure>)
      modifies sqsClient
      ensures outcome == MessageOutcome(processSingleMessage, parse, sqsClient.deleteErrors, message)
      ensures sqsClient.deleteLog
           == old(sqsClient.deleteLog) + MessageDeletes(queueURL, processSingleMessage, parse, message)
      ensures sqsClient.pending == old(sqsClient.pending)
      ensures sqsClient.receiveLog == old(sqsClient.receiveLog)
    {
      if processSingleMessage.None? {
        return Rejected(AssertionError(MissingHandler));
      }
      var body := parse(message.body);
      if body.None? {
        return Rejected(SyntaxError(message.body));
      }
      var result := processSingleMessage.value(body.value);
      if result.Rejected? {
        return Rejected(HandlerError(result.reason));
      }
      var deleted := DeleteMessage(message.receiptHandle);
      if deleted.Rejected? {
        return Rejected(AwsError(deleted.reason));
      }
      return Resolved(result.value);
    }

    /** Sends one delete request for `receiptHandle` to this queue. */
    method DeleteMessage(receiptHandle: string) returns (response: Settled<(), string>)
      modifies sqsClient
      ensures response == DeleteOutcome(sqsClient.deleteErrors, receiptHandle)
      ensures sqsClient.deleteLog == old(sqsClient.deleteLog) + [DeleteRequest(queueURL, receiptHandle)]
      ensures sqsClient.pending == old(sqsClient.pending)
      ensures sqsClient.receiveLog == old(sqsClient.receiveLog)
    {
      response := sqsClient.DeleteMessage(DeleteRequest(queueURL, receiptHandle));
    }
  }
}
