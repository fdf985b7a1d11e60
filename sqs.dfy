/** Stand-ins for what src/index.ts calls but does not define: the SQS
    client's `receiveMessage` and `deleteMessage`, the decoded JSON values
    handed to the handler, and the wall clock read by `new Date()`. */
module Sqs {
  import opened Settling

  /** A JSON value as `JSON.parse` produces it (numbers restricted to
      integers). */
  datatype Json =
    | JNull
    | JBool(b: bool)
    | JNumber(n: int)
    | JString(s: string)
    | JArray(items: seq<Json>)
    | JObject(fields: map<string, Json>)

  /** A received SQS message: the raw body and the receipt handle needed to
      delete this delivery. */
  datatype Message = Message(body: string, receiptHandle: string)

  /** The fields of a `receiveMessage` request (src/index.ts:97-102). */
  datatype ReceiveRequest = ReceiveRequest(
    queueUrl: string,
    waitTimeSeconds: int,
    visibilityTimeout: int,
    maxNumberOfMessages: int)

  /** The fields of a `deleteMessage` request (src/index.ts:163-166). */
  datatype DeleteRequest = DeleteRequest(queueUrl: string, receiptHandle: string)

  /** What one `receiveMessage(...).promise()` settles to: the optional
      `Messages` list of the response, or the service's error. */
  type ReceiveResponse = Settled<Option<seq<Message>>, string>

  datatype Option<+T> = None | Some(value: T)

  /** The response to the `k`-th receive from now: the queue answers with
      the responses it holds in order and, once they are used up, with a
      response without `Messages`. */
  function ResponseAt(pending: seq<ReceiveResponse>, k: nat): (r: ReceiveResponse)
    ensures k >= |pending| ==> r == Resolved(None)
    ensures k < |pending| ==> r == pending[k]
  {
    if k < |pending| then pending[k] else Resolved(None)
  }

  /** The responses still held after `k` receives. */
  function Drop(pending: seq<ReceiveResponse>, k: nat): seq<ReceiveResponse>
  {
    if k < |pending| then pending[k..] else []
  }

  /** After `k` receives, the next response is the `k`-th of the original. */
  lemma ResponseAtDrop(pending: seq<ReceiveResponse>, k: nat, j: nat)
    ensures ResponseAt(Drop(pending, k), j) == ResponseAt(pending, k + j)
  {
  }

  lemma DropTwice(pending: seq<ReceiveResponse>, i: nat, j: nat)
    ensures Drop(Drop(pending, i), j) == Drop(pending, i + j)
  {
  }

  /** The outcome of a delete request: the service refuses the handles
      listed in `deleteErrors` with the given error and accepts all others. */
  function DeleteOutcome(deleteErrors: map<string, string>, receiptHandle: string): (r: Settled<(), string>)
    ensures r.Rejected? <==> receiptHandle in deleteErrors
    ensures r.Rejected? ==> r.reason == deleteErrors[receiptHandle]
  {
    if receiptHandle in deleteErrors then Rejected(deleteErrors[receiptHandle]) else Resolved(())
  }

  /** The SQS client: it answers receives from `pending` and records every
      request it is sent. */
  class SqsClient {
    var pending: seq<ReceiveResponse>
    const deleteErrors: map<string, string>
    var receiveLog: seq<ReceiveRequest>
    var deleteLog: seq<DeleteRequest>

    constructor (responses: seq<ReceiveResponse>, deleteErrors: map<string, string>)
      ensures pending == responses && this.deleteErrors == deleteErrors
      ensures receiveLog == [] && deleteLog == []
    {
      pending := responses;
      this.deleteErrors := deleteErrors;
      receiveLog := [];
      deleteLog := [];
    }

    method ReceiveMessage(request: ReceiveRequest) returns (response: ReceiveResponse)
      modifies this
      ensures response == ResponseAt(old(pending), 0)
      ensures pending == Drop(old(pending), 1)
      ensures receiveLog == old(receiveLog) + [request]
      ensures deleteLog == old(deleteLog)
    {
      response := ResponseAt(pending, 0);
      pending := Drop(pending, 1);
      receiveLog := receiveLog + [request];
    }

    method DeleteMessage(request: DeleteRequest) returns (response: Settled<(), string>)
      modifies this
      ensures response == DeleteOutcome(deleteErrors, request.receiptHandle)
      ensures deleteLog == old(deleteLog) + [request]
      ensures pending == old(pending) && receiveLog == old(receiveLog)
    {
      response := DeleteOutcome(deleteErrors, request.receiptHandle);
      deleteLog := deleteLog + [request];
    }
  }

  /** `new Date()`: any instant, in milliseconds. Nothing is assumed about
      successive readings. */
  method Now() returns (ms: int)
  {
    ms :| true;
  }
}
