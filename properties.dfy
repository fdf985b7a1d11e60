/** What the queue consumer of src/index.ts promises, proved about the
    specification functions its methods are verified against. */
module QueueOpsProperties {
  import opened Settling
  import opened Sqs
  import opened Text
  import opened QueueOps

  // ---------------------------------------------------------------------
  // Configuration

  /** Left undefined, the batch size is 10, the parallelism 1 and details
      are included. */
  lemma ConstructorDefaults(region: string, queueURL: string)
    ensures var params := ConstructorParams(region, queueURL, None, None, None);
      && OrDefault(params.maxNumberOfMessages, 10) == 10
      && OrDefault(params.numParallelJobs, 1) == 1
      && DefinedOr(params.includeResponsesAndErros, true)
  {
  }

  /** Explicit values, an explicit `false` included, are kept. */
  lemma ConstructorKeepsExplicit(max: int, jobs: int, details: bool)
    requires max != 0 && jobs != 0
    ensures OrDefault(Some(max), 10) == max
    ensures OrDefault(Some(jobs), 1) == jobs
    ensures DefinedOr(Some(details), true) == details
  {
  }

  // ---------------------------------------------------------------------
  // One batch

  /** A message's receipt handle is sent to delete exactly when its handler
      ran and resolved; a missing handler, a body that does not decode or a
      rejecting handler leave the message in the queue. */
  lemma {:induction false} BatchDeletesIffHandled(queueURL: string, handler: Option<Handler>, parse: JsonParser,
                                                  msgs: seq<Message>, d: DeleteRequest)
    ensures d in BatchDeletes(queueURL, handler, parse, msgs)
        <==> d.queueUrl == queueURL && HandledWithin(handler, parse, msgs, d.receiptHandle)
  {
    if msgs != [] {
      var init, last := msgs[..|msgs| - 1], msgs[|msgs| - 1];
      BatchDeletesIffHandled(queueURL, handler, parse, init, d);
      if HandledWithin(handler, parse, msgs, d.receiptHandle) {
        var i :| 0 <= i < |msgs| && msgs[i].receiptHandle == d.receiptHandle && Handled(handler, parse, msgs[i]);
        if i < |init| {
          assert init[i] == msgs[i];
        }
      }
      if HandledWithin(handler, parse, init, d.receiptHandle) {
        var i :| 0 <= i < |init| && init[i].receiptHandle == d.receiptHandle && Handled(handler, parse, init[i]);
        assert msgs[i] == init[i];
      }
    }
  }

  /** The delete requests of a batch, one per message, in order. */
  function DeletesOf(queueURL: string, msgs: seq<Message>): (ds: seq<DeleteRequest>)
    ensures |ds| == |msgs|
    ensures forall i :: 0 <= i < |msgs| ==> ds[i] == DeleteRequest(queueURL, msgs[i].receiptHandle)
  {
    if msgs == [] then []
    else DeletesOf(queueURL, msgs[..|msgs| - 1]) + [DeleteRequest(queueURL, msgs[|msgs| - 1].receiptHandle)]
  }

  /** A batch sends at most one delete per message, for that message's
      receipt handle. */
  lemma {:induction false} BatchDeletesWithin(queueURL: string, handler: Option<Handler>, parse: JsonParser,
                                              msgs: seq<Message>)
    ensures multiset(BatchDeletes(queueURL, handler, parse, msgs)) <= multiset(DeletesOf(queueURL, msgs))
  {
    if msgs != [] {
      BatchDeletesWithin(queueURL, handler, parse, msgs[..|msgs| - 1]);
    }
  }

  /** When every handler resolves and every delete is accepted, the batch
      holds one response per message and no error, and every message is
      deleted once, by its own receipt handle. */
  lemma {:induction false} AllHandledAllDeleted(queueURL: string, handler: Option<Handler>, parse: JsonParser,
                                                deleteErrors: map<string, string>, msgs: seq<Message>)
    requires forall i :: 0 <= i < |msgs| ==>
      Handled(handler, parse, msgs[i]) && msgs[i].receiptHandle !in deleteErrors
    ensures var settled := SettleAll(BatchOutcomes(handler, parse, deleteErrors, msgs));
      |settled.resolve| == |msgs| && settled.reject == []
    ensures multiset(BatchDeletes(queueURL, handler, parse, msgs)) == multiset(DeletesOf(queueURL, msgs))
  {
    var outcomes := BatchOutcomes(handler, parse, deleteErrors, msgs);
    forall i | 0 <= i < |outcomes| ensures outcomes[i].Resolved? {
      assert outcomes[i] == MessageOutcome(handler, parse, deleteErrors, msgs[i]);
    }
    if msgs != [] {
      var init := msgs[..|msgs| - 1];
      AllHandledAllDeleted(queueURL, handler, parse, deleteErrors, init);
    }
  }

  /** Without a handler every message of a batch is rejected with the
      assertion's message and nothing is deleted. */
  lemma {:induction false} NoHandlerNothingDeleted(queueURL: string, parse: JsonParser,
                                                   deleteErrors: map<string, string>, msgs: seq<Message>)
    ensures var settled := SettleAll(BatchOutcomes(None, parse, deleteErrors, msgs));
      settled.resolve == [] && settled.reject == Repeat(AssertionError(MissingHandler), |msgs|)
    ensures BatchDeletes(queueURL, None, parse, msgs) == []
  {
    var outcomes := BatchOutcomes(None, parse, deleteErrors, msgs);
    SettleAllSplits(outcomes);
    RejectedAll(outcomes, AssertionError(MissingHandler));
    if msgs != [] {
      NoHandlerNothingDeleted(queueURL, parse, deleteErrors, msgs[..|msgs| - 1]);
    }
  }

  /** Outcomes all rejected with the same reason settle into that many
      copies of it. */
  lemma {:induction false} RejectedAll<T>(outcomes: seq<Settled<T, Failure>>, reason: Failure)
    requires forall i :: 0 <= i < |outcomes| ==> outcomes[i] == Rejected(reason)
    ensures RejectedReasons(outcomes) == Repeat(reason, |outcomes|)
    ensures ResolvedValues(outcomes) == []
  {
    if outcomes != [] {
      RejectedAll(outcomes[1..], reason);
      RepeatCons(reason, |outcomes| - 1);
    }
  }

  lemma {:induction false} RepeatCons<T>(x: T, n: nat)
    ensures [x] + Repeat(x, n) == Repeat(x, n + 1)
  {
    if n > 0 {
      RepeatCons(x, n - 1);
    }
  }

  /** With details on, the responses of a batch are the values its handlers
      resolved with and its errors the failures of its messages, each as
      often as it occurs among the messages' outcomes. */
  lemma BatchResultContents(msgs: seq<Message>, handler: Option<Handler>, parse: JsonParser,
                            deleteErrors: map<string, string>, start: int, end: int, v: Json, e: Failure)
    ensures var r := BatchResultOf(Some(msgs), handler, parse, deleteErrors, true, start, end);
      var outcomes := BatchOutcomes(handler, parse, deleteErrors, msgs);
      && multiset(r.responses.items)[v] == multiset(outcomes)[Resolved(v)]
      && multiset(r.errors.items)[e] == multiset(outcomes)[Rejected(e)]
  {
    var outcomes := BatchOutcomes(handler, parse, deleteErrors, msgs);
    ResolveCounts(outcomes, v);
    RejectCounts(outcomes, e);
  }

  /** With details on, every message's outcome shows in its batch: a
      handler's value among the responses, a failure among the errors. */
  lemma BatchMessageCollected(msgs: seq<Message>, handler: Option<Handler>, parse: JsonParser,
                              deleteErrors: map<string, string>, start: int, end: int, i: nat)
    requires i < |msgs|
    ensures var r := BatchResultOf(Some(msgs), handler, parse, deleteErrors, true, start, end);
      var o := MessageOutcome(handler, parse, deleteErrors, msgs[i]);
      && (o.Resolved? ==> o.value in r.responses.items)
      && (o.Rejected? ==> o.reason in r.errors.items)
  {
    SettledIsCollected(BatchOutcomes(handler, parse, deleteErrors, msgs), i);
  }

  /** A receive without `Messages` is the empty queue: the batch resolves
      with the empty-queue message and empty lists, and deletes nothing. */
  lemma EmptyQueueBatch(queueURL: string, handler: Option<Handler>, parse: JsonParser,
                        deleteErrors: map<string, string>, withDetails: bool, span: Span)
    ensures var b := BatchOutcome(Resolved(None), handler, parse, deleteErrors, withDetails, span);
      && b.Resolved?
      && b.value.message == QueueIsEmpty
      && b.value.responses == Items([]) && b.value.errors == Items([])
    ensures ResponseDeletes(queueURL, handler, parse, Resolved(None)) == []
  {
  }

  // ---------------------------------------------------------------------
  // One run

  /** The number of the first `k` receives that the service refuses. */
  function ReceiveFailures(pending: seq<ReceiveResponse>, k: nat): (n: nat)
    ensures n <= k
  {
    if k == 0 then 0
    else ReceiveFailures(pending, k - 1) + (if ResponseAt(pending, k - 1).Rejected? then 1 else 0)
  }

  /** A run's errors are exactly its refused receives, one per refusal; all
      other batches are among its responses. No batch failure escapes. */
  lemma {:induction false} RunPartition(pending: seq<ReceiveResponse>, handler: Option<Handler>, parse: JsonParser,
                                        deleteErrors: map<string, string>, withDetails: bool, spans: seq<Span>)
    ensures var settled := SettleAll(RunOutcomes(pending, handler, parse, deleteErrors, withDetails, spans));
      && |settled.reject| == ReceiveFailures(pending, |spans|)
      && |settled.resolve| == |spans| - ReceiveFailures(pending, |spans|)
  {
    var batches := RunOutcomes(pending, handler, parse, deleteErrors, withDetails, spans);
    if spans != [] {
      var init := spans[..|spans| - 1];
      RunPartition(pending, handler, parse, deleteErrors, withDetails, init);
      var prev := RunOutcomes(pending, handler, parse, deleteErrors, withDetails, init);
      assert batches == prev + [batches[|spans| - 1]];
      RejectedCountAppend(prev, batches[|spans| - 1]);
    }
  }

  /** Appending one outcome adds one rejection exactly when it is rejected. */
  lemma {:induction false} RejectedCountAppend<T, E>(outcomes: seq<Settled<T, E>>, last: Settled<T, E>)
    ensures |SettleAll(outcomes + [last]).reject| == |SettleAll(outcomes).reject| + (if last.Rejected? then 1 else 0)
  {
    if outcomes != [] {
      RejectedCountAppend(outcomes[1..], last);
      assert (outcomes + [last])[1..] == outcomes[1..] + [last];
    }
  }

  /** Each batch of a run lands on the side its receive decided: a refused
      receive as an error carrying the service's message, any other as a
      response. */
  lemma RunBatchCollected(pending: seq<ReceiveResponse>, handler: Option<Handler>, parse: JsonParser,
                          deleteErrors: map<string, string>, withDetails: bool, spans: seq<Span>, j: nat)
    requires j < |spans|
    ensures var batches := RunOutcomes(pending, handler, parse, deleteErrors, withDetails, spans);
      var settled := SettleAll(batches);
      && (ResponseAt(pending, j).Rejected? ==> AwsError(ResponseAt(pending, j).reason) in settled.reject)
      && (ResponseAt(pending, j).Resolved? ==> batches[j].Resolved? && batches[j].value in settled.resolve)
  {
    var batches := RunOutcomes(pending, handler, parse, deleteErrors, withDetails, spans);
    RunOutcomeAt(pending, handler, parse, deleteErrors, withDetails, spans, j);
    SettledIsCollected(batches, j);
  }

  /** The `j`-th batch of a run is the batch of the `j`-th response. */
  lemma {:induction false} RunOutcomeAt(pending: seq<ReceiveResponse>, handler: Option<Handler>, parse: JsonParser,
                                        deleteErrors: map<string, string>, withDetails: bool, spans: seq<Span>, j: nat)
    requires j < |spans|
    ensures RunOutcomes(pending, handler, parse, deleteErrors, withDetails, spans)[j]
         == BatchOutcome(ResponseAt(pending, j), handler, parse, deleteErrors, withDetails, spans[j])
  {
    var init := spans[..|spans| - 1];
    if j < |init| {
      RunOutcomeAt(pending, handler, parse, deleteErrors, withDetails, init, j);
      assert init[j] == spans[j];
    }
  }

  /** On an empty queue, a run reports no error, one empty-queue response
      per launched batch, and deletes nothing. */
  lemma EmptyQueueRun(queueURL: string, handler: Option<Handler>, parse: JsonParser,
                      deleteErrors: map<string, string>, withDetails: bool, spans: seq<Span>)
    ensures var settled := SettleAll(RunOutcomes([], handler, parse, deleteErrors, withDetails, spans));
      && settled.reject == []
      && |settled.resolve| == |spans|
      && forall b :: b in settled.resolve ==>
           b.message == QueueIsEmpty && b.responses == Items([]) && b.errors == Items([])
    ensures RunDeletes(queueURL, handler, parse, [], |spans|) == []
  {
    var batches := RunOutcomes([], handler, parse, deleteErrors, withDetails, spans);
    forall j | 0 <= j < |batches| ensures batches[j].Resolved? {
      RunOutcomeAt([], handler, parse, deleteErrors, withDetails, spans, j);
    }
    CollectedIsSettled(batches);
    forall b | b in SettleAll(batches).resolve
      ensures b.message == QueueIsEmpty && b.responses == Items([]) && b.errors == Items([])
    {
      var j :| 0 <= j < |batches| && batches[j] == Resolved(b);
      RunOutcomeAt([], handler, parse, deleteErrors, withDetails, spans, j);
    }
    NoDeletesOnEmptyQueue(queueURL, handler, parse, |spans|);
  }

  lemma {:induction false} NoDeletesOnEmptyQueue(queueURL: string, handler: Option<Handler>, parse: JsonParser, k: nat)
    ensures RunDeletes(queueURL, handler, parse, [], k) == []
  {
    if k > 0 {
      NoDeletesOnEmptyQueue(queueURL, handler, parse, k - 1);
    }
  }

  /** Some message received by one of the first `k` batches carries
      `receiptHandle` and was handled. */
  predicate HandledInRun(handler: Option<Handler>, parse: JsonParser, pending: seq<ReceiveResponse>,
                         k: nat, receiptHandle: string)
  {
    exists j :: 0 <= j < k && HandledInResponse(handler, parse, ResponseAt(pending, j), receiptHandle)
  }

  predicate HandledInResponse(handler: Option<Handler>, parse: JsonParser, response: ReceiveResponse,
                              receiptHandle: string)
  {
    response.Resolved? && response.value.Some?
    && HandledWithin(handler, parse, response.value.value, receiptHandle)
  }

  /** The deletes of one receive: those of its batch when it returned
      messages, none otherwise. */
  lemma ResponseDeletesIffHandled(queueURL: string, handler: Option<Handler>, parse: JsonParser,
                                  response: ReceiveResponse, d: DeleteRequest)
    ensures d in ResponseDeletes(queueURL, handler, parse, response)
        <==> d.queueUrl == queueURL && HandledInResponse(handler, parse, response, d.receiptHandle)
  {
    if response.Resolved? && response.value.Some? {
      BatchDeletesIffHandled(queueURL, handler, parse, response.value.value, d);
    }
  }

  /** A message handled within `k` batches was handled within the first
      `k - 1` or by the last one. */
  lemma HandledInRunStep(handler: Option<Handler>, parse: JsonParser, pending: seq<ReceiveResponse>,
                         k: nat, receiptHandle: string)
    requires k > 0
    ensures HandledInRun(handler, parse, pending, k, receiptHandle)
        <==> HandledInRun(handler, parse, pending, k - 1, receiptHandle)
             || HandledInResponse(handler, parse, ResponseAt(pending, k - 1), receiptHandle)
  {
    if HandledInRun(handler, parse, pending, k, receiptHandle) {
      var j :| 0 <= j < k && HandledInResponse(handler, parse, ResponseAt(pending, j), receiptHandle);
      if j < k - 1 {
        assert HandledInRun(handler, parse, pending, k - 1, receiptHandle);
      }
    }
  }

  /** A run's deletes after `k` batches are those after `k - 1` and those
      of the last batch. */
  lemma RunDeletesMember(queueURL: string, handler: Option<Handler>, parse: JsonParser,
                         pending: seq<ReceiveResponse>, k: nat, d: DeleteRequest)
    requires k > 0
    ensures d in RunDeletes(queueURL, handler, parse, pending, k)
        <==> d in RunDeletes(queueURL, handler, parse, pending, k - 1)
             || d in ResponseDeletes(queueURL, handler, parse, ResponseAt(pending, k - 1))
  {
  }

  /** Membership in a union, characterised part by part. */
  lemma IffOfUnion(inAll: bool, inFirst: bool, inLast: bool, guard: bool,
                   all: bool, first: bool, last: bool)
    requires inAll <==> inFirst || inLast
    requires inFirst <==> guard && first
    requires inLast <==> guard && last
    requires all <==> first || last
    ensures inAll <==> guard && all
  {
  }

  /** Across a whole run, a delete request goes to this queue and names a
      message some batch received and handled, and every such message is
      deleted. */
  lemma {:induction false} RunDeletesIffHandled(queueURL: string, handler: Option<Handler>, parse: JsonParser,
                                                pending: seq<ReceiveResponse>, k: nat, d: DeleteRequest)
    ensures d in RunDeletes(queueURL, handler, parse, pending, k)
        <==> d.queueUrl == queueURL && HandledInRun(handler, parse, pending, k, d.receiptHandle)
  {
    if k > 0 {
      var response := ResponseAt(pending, k - 1);
      ghost var inFirst := d in RunDeletes(queueURL, handler, parse, pending, k - 1);
      ghost var first := HandledInRun(handler, parse, pending, k - 1, d.receiptHandle);
      RunDeletesIffHandled(queueURL, handler, parse, pending, k - 1, d);
      assert inFirst <==> d.queueUrl == queueURL && first;
      ghost var inAll := d in RunDeletes(queueURL, handler, parse, pending, k);
      ghost var inLast := d in ResponseDeletes(queueURL, handler, parse, response);
      ghost var all := HandledInRun(handler, parse, pending, k, d.receiptHandle);
      ghost var last := HandledInResponse(handler, parse, response, d.receiptHandle);
      RunDeletesMember(queueURL, handler, parse, pending, k, d);
      ResponseDeletesIffHandled(queueURL, handler, parse, response, d);
      HandledInRunStep(handler, parse, pending, k, d.receiptHandle);
      IffOfUnion(inAll, inFirst, inLast, d.queueUrl == queueURL, all, first, last);
    }
  }

  // ---------------------------------------------------------------------
  // The scenario of the source's tests

  /** Two messages, a handler answering `{ ok: true }`: two responses, no
      error, and one delete for each receipt handle. */
  lemma TwoMessagesScenario(queueURL: string, parse: JsonParser)
    requires parse("{\"a\":1}").Some? && parse("{\"b\":2}").Some?
    ensures var ok := JObject(map["ok" := JBool(true)]);
      var handler: Option<Handler> := Some(_ => Resolved(ok));
      var msgs := [Message("{\"a\":1}", "h1"), Message("{\"b\":2}", "h2")];
      && SettleAll(BatchOutcomes(handler, parse, map[], msgs)) == Partition([ok, ok], [])
      && multiset(BatchDeletes(queueURL, handler, parse, msgs))
         == multiset{DeleteRequest(queueURL, "h1"), DeleteRequest(queueURL, "h2")}
  {
    var ok := JObject(map["ok" := JBool(true)]);
    var handler: Option<Handler> := Some(_ => Resolved(ok));
    var msgs := [Message("{\"a\":1}", "h1"), Message("{\"b\":2}", "h2")];
    assert msgs[..1] == [msgs[0]];
    assert msgs[..1][..0] == [];
  }
}
