/** The settle-all step the source delegates to `PromisesAll.all`
    (src/index.ts:71 and 123): every promise is awaited, none is rethrown,
    and the outcomes are partitioned into the resolved values and the
    rejection reasons. */
module Settling {

  /** The outcome of one settled promise. */
  datatype Settled<+T, +E> = Resolved(value: T) | Rejected(reason: E)

  /** The values of the resolved outcomes, in the order given. */
  function ResolvedValues<T, E>(outcomes: seq<Settled<T, E>>): (vs: seq<T>)
    ensures |vs| <= |outcomes|
  {
    if outcomes == [] then []
    else
      var rest := ResolvedValues(outcomes[1..]);
      if outcomes[0].Resolved? then [outcomes[0].value] + rest else rest
  }

  /** The reasons of the rejected outcomes, in the order given. */
  function RejectedReasons<T, E>(outcomes: seq<Settled<T, E>>): (es: seq<E>)
    ensures |es| <= |outcomes|
  {
    if outcomes == [] then []
    else
      var rest := RejectedReasons(outcomes[1..]);
      if outcomes[0].Rejected? then [outcomes[0].reason] + rest else rest
  }

  /** The `{ resolve, reject }` pair of a settle-all. One sequential
      interleaving stands for the concurrent completion order. */
  datatype Partition<T, E> = Partition(resolve: seq<T>, reject: seq<E>)

  function SettleAll<T, E>(outcomes: seq<Settled<T, E>>): (p: Partition<T, E>)
    ensures |p.resolve| + |p.reject| == |outcomes|
    ensures (forall i :: 0 <= i < |outcomes| ==> outcomes[i].Resolved?) ==> p.reject == []
    ensures (forall i :: 0 <= i < |outcomes| ==> outcomes[i].Rejected?) ==> p.resolve == []
  {
    if outcomes == [] then Partition([], [])
    else
      var rest := SettleAll(outcomes[1..]);
      if outcomes[0].Resolved? then Partition([outcomes[0].value] + rest.resolve, rest.reject)
      else Partition(rest.resolve, [outcomes[0].reason] + rest.reject)
  }

  /** The partition holds exactly the resolved values and exactly the
      rejection reasons. */
  lemma {:induction false} SettleAllSplits<T, E>(outcomes: seq<Settled<T, E>>)
    ensures SettleAll(outcomes).resolve == ResolvedValues(outcomes)
    ensures SettleAll(outcomes).reject == RejectedReasons(outcomes)
  {
    if outcomes != [] {
      SettleAllSplits(outcomes[1..]);
    }
  }

  /** Every resolved outcome's value is among `resolve`, every rejected
      outcome's reason among `reject`. */
  lemma {:induction false} SettledIsCollected<T, E>(outcomes: seq<Settled<T, E>>, i: nat)
    requires i < |outcomes|
    ensures outcomes[i].Resolved? ==> outcomes[i].value in SettleAll(outcomes).resolve
    ensures outcomes[i].Rejected? ==> outcomes[i].reason in SettleAll(outcomes).reject
  {
    if i > 0 {
      SettledIsCollected(outcomes[1..], i - 1);
    }
  }

  /** Conversely, nothing appears in the partition that no outcome produced. */
  lemma {:induction false} CollectedIsSettled<T, E>(outcomes: seq<Settled<T, E>>)
    ensures forall v :: v in SettleAll(outcomes).resolve ==> Resolved(v) in outcomes
    ensures forall e :: e in SettleAll(outcomes).reject ==> Rejected(e) in outcomes
  {
    if outcomes != [] {
      CollectedIsSettled(outcomes[1..]);
      assert forall o :: o in outcomes[1..] ==> o in outcomes;
    }
  }

  /** As multisets, `resolve` holds each value as often as an outcome
      resolved with it. */
  lemma {:induction false} ResolveCounts<T, E>(outcomes: seq<Settled<T, E>>, v: T)
    ensures multiset(SettleAll(outcomes).resolve)[v] == multiset(outcomes)[Resolved(v)]
  {
    if outcomes != [] {
      var head, rest := outcomes[0], outcomes[1..];
      ResolveCounts(rest, v);
      assert outcomes == [head] + rest;
      var front: seq<T> := if head.Resolved? then [head.value] else [];
      assert SettleAll(outcomes).resolve == front + SettleAll(rest).resolve;
    }
  }

  /** As multisets, `reject` holds each reason as often as an outcome
      rejected with it. */
  lemma {:induction false} RejectCounts<T, E>(outcomes: seq<Settled<T, E>>, e: E)
    ensures multiset(SettleAll(outcomes).reject)[e] == multiset(outcomes)[Rejected(e)]
  {
    if outcomes != [] {
      var head, rest := outcomes[0], outcomes[1..];
      RejectCounts(rest, e);
      assert outcomes == [head] + rest;
      var front: seq<E> := if head.Rejected? then [head.reason] else [];
      assert SettleAll(outcomes).reject == front + SettleAll(rest).reject;
    }
  }
}
