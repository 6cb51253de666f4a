/**
 * The batched-delete sink (`Sink`). Every message written to it is appended to
 * `_toDelete` (twice, as written: the push is duplicated) and announced with
 * `deletePending`; when the length of `_toDelete` equals `_deleteInBatchesOf`
 * the ids of those entries go to one remote `del_multiple` call and the write's
 * `next` waits for its answer.
 *
 * Because of the duplicated push the length of `_toDelete` is always even, so an
 * odd batch size (the default, 1, among them) never flushes, and an even size
 * `2k` flushes on every `k`-th accepted write, each id appearing twice.
 *
 * The Writable machinery calls `_write` again only after the previous write's
 * `next` ran; `status` records whether it has. A message without an id never
 * gets its `next`, so the sink accepts no further write after it.
 */
module IronSink {
  import opened Wrappers
  import opened Messages

  /** The events a sink emits: `deleteError` (two kinds), `deletePending`, `deleted`. */
  datatype SinkEvent =
    | MissingId(message: Message)
    | DeletePending(id: string)
    | DeleteFailed(reason: string, ids: seq<string>)
    | Deleted(ids: seq<string>)

  /**
   * Where the current write stands: its `next` ran (`Ready`), it waits for a
   * `del_multiple` answer, or it will never run (`Stalled`).
   */
  datatype WriteStatus = Ready | AwaitingDelete(ids: seq<string>) | Stalled

  /** `options.deleteInBatchesOf || 1`. */
  function BatchSize(deleteInBatchesOf: Option<int>): (n: int)
    ensures n != 0
    ensures deleteInBatchesOf.Some? && deleteInBatchesOf.value != 0 ==> n == deleteInBatchesOf.value
    ensures deleteInBatchesOf.None? || deleteInBatchesOf.value == 0 ==> n == 1
  {
    if deleteInBatchesOf.Some? && deleteInBatchesOf.value != 0 then deleteInBatchesOf.value else 1
  }

  predicate HasIds(ms: seq<Message>) {
    forall k :: 0 <= k < |ms| ==> TruthyString(ms[k].id)
  }

  /** `.map(function(message) { return message.id; })`. */
  function Ids(ms: seq<Message>): (ids: seq<string>)
    requires HasIds(ms)
    ensures |ids| == |ms|
    ensures forall k :: 0 <= k < |ms| ==> Some(ids[k]) == ms[k].id
  {
    if ms == [] then [] else [ms[0].id.value] + Ids(ms[1..])
  }

  /**
   * What one accepted write does to `_toDelete` for batch size `n`: the new
   * `_toDelete`, and the entries handed to `del_multiple` if it flushed.
   */
  function Accept(toDelete: seq<Message>, n: int, m: Message): (r: (seq<Message>, Option<seq<Message>>))
    ensures r.1.None? <==> |toDelete| + 2 != n
    ensures r.1.Some? ==> |r.1.value| == n && r.0 == []
    ensures (if r.1.Some? then r.1.value else []) + r.0 == toDelete + [m, m]
  {
    var grown := toDelete + [m] + [m];
    if |grown| == n then (grown[n..], Some(grown[..n])) else (grown, None)
  }

  /** Each message twice, in order: what the duplicated push appends. */
  function Doubled(ms: seq<Message>): seq<Message> {
    if ms == [] then [] else [ms[0], ms[0]] + Doubled(ms[1..])
  }

  function Concat(batches: seq<seq<Message>>): seq<Message> {
    if batches == [] then [] else batches[0] + Concat(batches[1..])
  }

  /**
   * A run of accepted writes, each one's delete answered before the next:
   * the final `_toDelete` and the batches flushed, in order.
   */
  function Feed(toDelete: seq<Message>, n: int, ms: seq<Message>): (seq<Message>, seq<seq<Message>>)
    decreases |ms|
  {
    if ms == [] then
      (toDelete, [])
    else
      var step := Accept(toDelete, n, ms[0]);
      var rest := Feed(step.0, n, ms[1..]);
      (rest.0, (if step.1.Some? then [step.1.value] else []) + rest.1)
  }

  /**
   * Nothing is lost, reordered or re-queued: the flushed batches followed by
   * what is left are `_toDelete` followed by every message twice, and each
   * batch has exactly `n` entries.
   */
  lemma {:induction false} FeedConserves(toDelete: seq<Message>, n: int, ms: seq<Message>)
    ensures Concat(Feed(toDelete, n, ms).1) + Feed(toDelete, n, ms).0 == toDelete + Doubled(ms)
    ensures forall k :: 0 <= k < |Feed(toDelete, n, ms).1| ==> |Feed(toDelete, n, ms).1[k]| == n
    decreases |ms|
  {
    if ms != [] {
      var m := ms[0];
      var step := Accept(toDelete, n, m);
      var rest := Feed(step.0, n, ms[1..]);
      FeedConserves(step.0, n, ms[1..]);
      assert Doubled(ms) == [m, m] + Doubled(ms[1..]);
      if step.1.Some? {
        var batch := step.1.value;
        assert Feed(toDelete, n, ms) == (rest.0, [batch] + rest.1);
        assert ([batch] + rest.1)[1..] == rest.1;
        assert Concat([batch] + rest.1) == batch + Concat(rest.1);
        assert batch == toDelete + [m, m] && step.0 == [];
        calc {
          Concat([batch] + rest.1) + rest.0;
          batch + (Concat(rest.1) + rest.0);
          toDelete + [m, m] + Doubled(ms[1..]);
        }
      } else {
        assert ([] + rest.1) == rest.1;
        assert step.0 == toDelete + [m, m];
      }
    }
  }

  /** The duplicated push keeps `_toDelete` at even length. */
  lemma {:induction false} FeedKeepsEven(toDelete: seq<Message>, n: int, ms: seq<Message>)
    requires |toDelete| % 2 == 0
    ensures |Feed(toDelete, n, ms).0| % 2 == 0
    decreases |ms|
  {
    if ms != [] {
      FeedKeepsEven(Accept(toDelete, n, ms[0]).0, n, ms[1..]);
    }
  }

  /**
   * An odd batch size, or one below 2 (the default 1 included), never flushes:
   * everything accepted stays in `_toDelete`.
   */
  lemma {:induction false} OddBatchNeverFlushes(toDelete: seq<Message>, n: int, ms: seq<Message>)
    requires |toDelete| % 2 == 0
    requires n % 2 == 1 || n < 2
    ensures Feed(toDelete, n, ms).1 == []
    ensures Feed(toDelete, n, ms).0 == toDelete + Doubled(ms)
    decreases |ms|
  {
    if ms != [] {
      var m := ms[0];
      assert Accept(toDelete, n, m) == (toDelete + [m] + [m], None);
      OddBatchNeverFlushes(toDelete + [m] + [m], n, ms[1..]);
      assert Doubled(ms) == [m, m] + Doubled(ms[1..]);
    }
  }

  /**
   * An even batch size `2k` flushes on every `k`-th accepted write: starting
   * from `j` pairs (`j < k`), after `|ms|` more writes the number of batches
   * sent and the pairs left are the quotient and remainder of `j + |ms|` by `k`.
   */
  lemma {:induction false} EvenBatchFlushesEveryHalf(toDelete: seq<Message>, k: int, ms: seq<Message>)
    requires k >= 1
    requires |toDelete| % 2 == 0 && |toDelete| < 2 * k
    ensures |Feed(toDelete, 2 * k, ms).0| % 2 == 0
    ensures |Feed(toDelete, 2 * k, ms).0| < 2 * k
    ensures k * |Feed(toDelete, 2 * k, ms).1| + |Feed(toDelete, 2 * k, ms).0| / 2 == |toDelete| / 2 + |ms|
    decreases |ms|
  {
    if ms != [] {
      var m := ms[0];
      var step := Accept(toDelete, 2 * k, m);
      var rest := Feed(step.0, 2 * k, ms[1..]);
      EvenBatchFlushesEveryHalf(step.0, k, ms[1..]);
      if |toDelete| + 2 == 2 * k {
        assert step.0 == [] && step.1.Some?;
        assert |Feed(toDelete, 2 * k, ms).1| == 1 + |rest.1|;
        assert k * (1 + |rest.1|) == k + k * |rest.1|;
      } else {
        assert step.1.None? && |step.0| == |toDelete| + 2;
        assert Feed(toDelete, 2 * k, ms).1 == rest.1;
      }
    }
  }

  /**
   * With a batch size of 2 every accepted write flushes at once, and the batch
   * it sends is that message twice: the ids handed to `del_multiple` are
   * `[id, id]`, one batch per write, and nothing is left over.
   */
  lemma {:induction false} BatchOfTwoSendsEachIdTwice(ms: seq<Message>)
    ensures Feed([], 2, ms).0 == []
    ensures |Feed([], 2, ms).1| == |ms|
    ensures forall k :: 0 <= k < |ms| ==> Feed([], 2, ms).1[k] == [ms[k], ms[k]]
    decreases |ms|
  {
    if ms != [] {
      var m := ms[0];
      var grown: seq<Message> := [] + [m] + [m];
      assert grown == [m, m] && grown[2..] == [] && grown[..2] == [m, m];
      assert Accept([], 2, m) == ([], Some([m, m]));
      BatchOfTwoSendsEachIdTwice(ms[1..]);
      var rest := Feed([], 2, ms[1..]);
      assert Feed([], 2, ms) == (rest.0, [[m, m]] + rest.1);
      forall k | 0 <= k < |ms|
        ensures Feed([], 2, ms).1[k] == [ms[k], ms[k]]
      {
        if k > 0 {
          assert ms[k] == ms[1..][k - 1];
        }
      }
    }
  }

  class Sink {
    /** `_deleteInBatchesOf`. */
    const batchSize: int
    /** `_toDelete`: the entries awaiting deletion, oldest first. */
    var toDelete: seq<Message>
    /** The events emitted, in order. */
    var events: seq<SinkEvent>
    var status: WriteStatus

    ghost predicate Valid()
      reads this
    {
      && batchSize != 0
      && |toDelete| % 2 == 0
      && HasIds(toDelete)
      && (batchSize % 2 == 0 && batchSize >= 2 ==> |toDelete| < batchSize)
    }

    constructor (deleteInBatchesOf: Option<int>)
      ensures Valid()
      ensures batchSize == BatchSize(deleteInBatchesOf)
      ensures toDelete == [] && events == [] && status == Ready
    {
      batchSize := BatchSize(deleteInBatchesOf);
      toDelete := [];
      events := [];
      status := Ready;
    }

    /**
     * `_write(message, enc, next)`. Without a truthy id: `deleteError` with the
     * message, `_toDelete` unchanged, `next` never called. Otherwise the message
     * goes in twice and `deletePending(id)` is emitted; on reaching the batch
     * size exactly the first `batchSize` entries leave in one `del_multiple`
     * call, whose answer `next` waits for.
     */
    method Write(message: Message)
      requires Valid() && status == Ready
      modifies this
      ensures Valid()
      ensures !TruthyString(message.id) ==>
                toDelete == old(toDelete) && events == old(events) + [MissingId(message)] && status == Stalled
      ensures TruthyString(message.id) ==>
                && events == old(events) + [DeletePending(message.id.value)]
                && toDelete == Accept(old(toDelete), batchSize, message).0
                && match Accept(old(toDelete), batchSize, message).1
                   case None => status == Ready
                   case Some(batch) => HasIds(batch) && status == AwaitingDelete(Ids(batch))
    {
      if !TruthyString(message.id) {
        events := events + [MissingId(message)];
        status := Stalled;
        return;
      }
      toDelete := toDelete + [message];
      toDelete := toDelete + [message];
      events := events + [DeletePending(message.id.value)];
      if |toDelete| == batchSize {
        var deleting := Ids(toDelete[..batchSize]);
        toDelete := toDelete[batchSize..];
        status := AwaitingDelete(deleting);
      } else {
        status := Ready;
      }
    }

    /**
     * The `del_multiple` callback: on error `deleteError` with the ids, then in
     * every case `deleted` with the same ids, and `next`; nothing is re-queued.
     */
    method DeleteCompleted(err: Option<string>)
      requires Valid() && status.AwaitingDelete?
      modifies this
      ensures Valid()
      ensures err.Some? ==>
                events == old(events) + [DeleteFailed(err.value, old(status).ids), Deleted(old(status).ids)]
      ensures err.None? ==> events == old(events) + [Deleted(old(status).ids)]
      ensures toDelete == old(toDelete) && status == Ready
    {
      var deleting := status.ids;
      if err.Some? {
        events := events + [DeleteFailed(err.value, deleting)];
      }
      events := events + [Deleted(deleting)];
      status := Ready;
    }
  }
}
