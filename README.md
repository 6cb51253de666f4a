# ironmq-queue-stream, modelled in Dafny

This project models the local bookkeeping of `ironmq-queue-stream`, a library
that turns a poll-only IronMQ message queue into Node streams. It covers:

- two polling fetchers: `Fetcher`, which is bounded by concurrency, and
  `Fetcher2`, which delivers results in waves;
- the pull buffer `Queue`, which bridges fetch waves to one-at-a-time
  downstream pulls;
- the entry object `IronStream`, which checks its configuration and memoises
  queues by name;
- the batched-delete sink `Sink`;
- the decoding transform `JsonParser._transform`.

Every asynchronous completion is an explicit method or event that the
environment calls in any order: a timer tick, a `get` callback, a
`del_multiple` callback. The remote client is not modelled. Downstream `push`
appends to a `delivered` sequence. The `accepts` argument stands for push's
boolean answer, which the environment chooses.

Layout differs by class.

- `Fetcher` and `Fetcher2` each have a pure part and a class.
  - The pure part is a state datatype, one function per operation, an event
    `Step`, and `Run` over event traces. The lemmas are stated about it.
  - The class has the source's fields. Each method is proved to move the
    state exactly as the pure function says, and to keep the invariant.
- `Sink` has pure functions for the `_toDelete` bookkeeping: `Accept` for one
  write and `Feed` for a run of writes. The lemmas are about those. The class
  method `Write` is proved to follow `Accept`. `DeleteCompleted` follows no
  pure function; its own contract states the new state.
- `Queue` and `IronStream` have no pure part. Their methods' contracts
  (old state to new state) are their whole specification. `Queue`'s fetcher is
  a `Fetcher2`, so its contracts are stated through that fetcher's pure
  functions.
- The parser is one method, `Transform`, proved equal to the recursive
  function `Transformed`. The lemmas are about `Transformed`.

Files:

- `wrappers.dfy`: `Option`, and JavaScript truthiness of an optional string.
- `messages.dfy`: `Message`, and the payload a `get` returns (an array or a
  lone value).
- `fetcher.dfy`: `Fetcher`, the first poller.
- `fetcher2.dfy`: `Fetcher2`, the poller the queue uses.
- `queue.dfy`: `Queue` and `IronStream`.
- `sink.dfy`: `Sink`.
- `jsonparser.dfy`: `JsonParser._transform`. `JSON.parse`, `dref` and
  `_.merge` are opaque functions over an abstract object type.

### Behaviour as written

The model follows the code. Where the code's behaviour contradicts its own
comments, the comment is quoted below.

- **Sink: duplicated push.** `_write` pushes each message onto `_toDelete`
  twice (`index.js:179-180`), so `_toDelete` always has even length.
  - An odd batch size never flushes. This includes batch size 1, which the
    comment at `index.js:155` documents as the default ("Messages will be
    deleted in batches of this much").
  - Batch size 2 flushes on every write, and the id list it sends is that
    message's id twice (`BatchOfTwoSendsEachIdTwice`).
  - An even size `2k` flushes on every `k`-th write.
- **Sink: a message without an id stalls it.** The code emits `deleteError`
  and never calls `next`. The Writable therefore accepts no further write;
  the model's `status` becomes `Stalled`.
- **Fetcher2 never re-arms.** The callback of `Fetcher2._fetch` refers to
  `me`, which is not declared in that function, and to `fetcher.stop()`,
  `me.fetch.stop()` and `this.running`. The model reads `me`, `fetcher` and
  `this` as the fetcher instance, and `me.fetch.stop()` as its `stop`.
  Under that reading:
  - `stop` clears the interval but keeps the handle `__i`, so no later `start`
    arms it again;
  - an error does not give back its slot in `_outstandingRequests`.

  Consequently a `Fetcher2` delivers at most one wave in its whole life
  (`AtMostOneWave`). The comment at `index.js:35-38` describes a cycle that
  repeats: no fetches are issued "until the internal fetch queue is pushed
  downstream", after which fetching resumes. Under this reading it never
  resumes.
- **JsonParser: shared index.** The enrichment loop reuses the outer loop's
  `i`. After a job that decodes, the next index examined is
  `enrichWith.length + 1`.
  - A lone job, which is what the queue feeds the parser, always finishes.
  - With the default options of `parseJson` (`enrichWith: ["id"]`), an array
    whose first and third jobs decode never returns (`DefaultOptionsSpin`).

  The outer loop is therefore modelled with a fuel bound. `Spinning` is the
  outcome of a run that would go on.

## Model

| member | source | states |
|---|---|---|
| FetcherV1.StepKeepsInv | index.js:214-262 | every possible event keeps the counter invariant: the counter equals the calls in flight, it is at least 0 and at most the limit (or 0), and a shut-down fetcher holds no timer |
| FetcherV1.RunKeepsInv | index.js:214-262 | any sequence of starts, ticks, completions, stops and shutdowns keeps that invariant |
| FetcherV1.CounterNeverExceedsLimit | index.js:232-247 | from a fresh fetcher and a non-negative limit, `_outstandingRequests` stays between 0 and `concurrentRequestLimit` and equals the number of calls in flight, however ticks and completions interleave |
| FetcherV1.ShutdownIsFinal | index.js:221-262 | after `shutdown` the fetcher stays shut down, never registers a timer again and never dispatches another call |
| FetcherV1.StartAfterShutdownArmsNothing | index.js:221-262 | `start` after `shutdown` sets `running` and registers no timer |
| FetcherV1.StopThenStartRearms | index.js:221-256 | `stop` forgets the handle, so a later `start` on a fetcher that is not shutting down registers a timer again |
| FetcherV1.StopIsIdempotent | index.js:249-262 | `stop` and `shutdown` are idempotent; after `stop` the fetcher is not running and has no timer |
| FetcherV1.Initial | index.js:214-219 | definition: the state of a fresh fetcher (not running, no timer, counter 0, nothing emitted) |
| FetcherV1.Started | index.js:221-230 | definition of `start`: `running` set; a timer registered only if none is set and not shutting down |
| FetcherV1.ToppedUp | index.js:232-247 | definition of one tick: below the limit, the counter and the calls in flight rise to the limit; otherwise no change |
| FetcherV1.Completed | index.js:237-245 | definition of a callback: counter and calls in flight down by one on both paths, then one `results` or `error` emission |
| FetcherV1.Stopped | index.js:249-256 | definition of `stop`: not running, no timer handle |
| FetcherV1.ShutDown | index.js:258-262 | definition of `shutdown`: `shuttingDown` set, then `Stopped` |
| FetcherV1.Step | index.js:221-262 | definition of one event; a tick without a timer and a completion with nothing in flight are impossible and change nothing |
| FetcherV1.Run | index.js:221-262 | definition: the state after a sequence of events, applied in order |
| FetcherV1.Inv | index.js:214-262 | definition of the invariant the trace lemmas preserve |
| FetcherV1.Fetcher.constructor | index.js:214-219 | a fresh fetcher: not running, no timer, counter 0, the given limit |
| FetcherV1.Fetcher.Start | index.js:221-230 | sets `running`; registers a timer only if none is set and `shuttingDown` is unset |
| FetcherV1.Fetcher.Fetch | index.js:232-247 | a tick raises the counter to exactly the limit when it was below it, dispatching one call per missing slot; otherwise it dispatches nothing |
| FetcherV1.Fetcher.Complete | index.js:237-245 | a completion, success or error, decrements the counter by one and emits `results` or `error` |
| FetcherV1.Fetcher.Stop | index.js:249-256 | clears `running` and the timer handle; nothing else changes |
| FetcherV1.Fetcher.Shutdown | index.js:258-262 | sets `shuttingDown`, then stops |
| FetcherV2.StepKeepsInv | index.js:265-328 | every possible event keeps the invariant: calls in flight at most the counter, the counter at most 2, an active interval only on a running fetcher with a handle, none after shutdown |
| FetcherV2.RunKeepsInv | index.js:265-328 | any sequence of events keeps that invariant |
| FetcherV2.CounterNeverExceedsTwo | index.js:284-286 | from a fresh fetcher, `_outstandingRequests` stays between 0 and 2 whatever the events, because a tick dispatches only below 2 |
| FetcherV2.WaveLeavesQuiescent | index.js:298-311 | the callback that delivers a wave leaves the interval cleared with the handle set and no call in flight |
| FetcherV2.QuiescentStaysSilent | index.js:274-322 | from such a state no event ever calls `onDone` again, and the state stays that way |
| FetcherV2.AtMostOneWave | index.js:274-328 | however starts, stops, ticks and callbacks interleave, at most one `onDone(null, batch)` happens |
| FetcherV2.AtMostOneWaveFromFresh | index.js:265-328 | a fresh fetcher delivers at most one wave in its lifetime |
| FetcherV2.ClearedIntervalStaysCleared | index.js:316-322 | once the interval of a set handle has been cleared it never fires again, and the calls in flight never increase |
| FetcherV2.StartAfterStopArmsNothing | index.js:274-322 | `start` after `stop` sets `running` but leaves the interval cleared, because `stop` keeps `__i` |
| FetcherV2.ShutdownIsFinal | index.js:324-328 | a shut-down fetcher stays shut down and never has an active interval again |
| FetcherV2.ErrorIsFatal | index.js:288-292 | the error path calls `onDone(err)`, leaves the counter and the accumulated results unchanged, and no interval fires afterwards |
| FetcherV2.SuccessAccumulates | index.js:293-311 | success appends the call's results after those accumulated and decrements the counter; `onDone(null, batch)` happens exactly when the accumulation exceeds `minimumResultSize` and the counter reaches 0, with the whole accumulation as the batch, which is then emptied |
| FetcherV2.Initial | index.js:265-272 | definition: the state of a fresh fetcher (not running, no handle, counter 0, nothing accumulated) |
| FetcherV2.Started | index.js:274-281 | definition of `start`: `running` set; handle and interval only if no handle is set and not shutting down |
| FetcherV2.Ticked | index.js:284-286 | definition of `_fetch`: one dispatch when fewer than 2 are outstanding |
| FetcherV2.Completed | index.js:287-312 | definition of the callback: the error path stops and reports `onDone(err)` with the counter kept; the success path appends, decrements, stops once above the minimum, and hands over the accumulation when the counter is 0 |
| FetcherV2.Stopped | index.js:316-322 | definition of `stop`: not running and the interval cleared, the handle kept |
| FetcherV2.ShutDown | index.js:324-328 | definition of `shutdown`: `shuttingDown` set, then `Stopped` |
| FetcherV2.Step | index.js:274-328 | definition of one event and what it did with `onDone`; a tick without an active interval and a callback with nothing in flight change nothing |
| FetcherV2.Run | index.js:274-328 | the final state after a sequence of events, and one `onDone` outcome per event |
| FetcherV2.Waves | index.js:309 | the number of `onDone(null, batch)` calls in a sequence of outcomes: at most its length, and positive only if some outcome is a batch |
| FetcherV2.Inv | index.js:265-328 | definition of the invariant the trace lemmas preserve |
| FetcherV2.Quiescent | index.js:298-322 | definition: handle set, interval cleared, nothing in flight |
| FetcherV2.Fetcher2.constructor | index.js:265-272 | a fresh fetcher: not running, no handle, counter 0, nothing accumulated |
| FetcherV2.Fetcher2.Start | index.js:274-281 | sets `running`; registers an interval only if no handle is set and not shutting down |
| FetcherV2.Fetcher2.Fetch | index.js:284-286 | dispatches one call exactly when fewer than 2 are outstanding |
| FetcherV2.Fetcher2.Complete | index.js:287-312 | the callback moves the state as `Completed` says, and counts the waves delivered, which never exceed one |
| FetcherV2.Fetcher2.Stop | index.js:316-322 | clears `running` and the interval, keeping the handle |
| FetcherV2.Fetcher2.Shutdown | index.js:324-328 | sets `shuttingDown`, then stops |
| IronQueue.Queue.constructor | index.js:53-74 | a new queue: running, empty backlog, a fresh `Fetcher2` with `minimumResultSize` 100 |
| IronQueue.Queue.PushOneMessage | index.js:77-83 | shifts the head of the backlog and pushes it, or pushes `undefined` on an empty backlog; detects backpressure and does nothing about it |
| IronQueue.Queue.Read | index.js:85-101 | a non-empty backlog delivers exactly its head and leaves the rest and the fetcher alone; an empty backlog starts a fetcher that is not running; otherwise nothing changes |
| IronQueue.Queue.AddMessagesToQueue | index.js:107-112 | the new backlog is the old one followed by the messages, a lone message being wrapped into a list |
| IronQueue.Queue.WaveCallback | index.js:90-96 | an error emits `queueError` and leaves the backlog alone; a wave is appended and one message is pushed |
| IronQueue.Queue.FetchCompleted | index.js:287-311 | a fetcher callback, followed through `onDone`; a wave holds more than 100 messages, the head of the old backlog followed by the wave is delivered, and it is the fetcher's only wave |
| IronQueue.Queue.Resume | index.js:119-122 | sets `running` and nothing else |
| IronQueue.Queue.StopFetching | index.js:134-136 | shuts the fetcher down |
| IronQueue.Queue.ResetMessages | index.js:139-141 | empties the backlog |
| IronQueue.IronStream.constructor | index.js:28 | no queues yet |
| IronQueue.IronStream.Create | index.js:18-29 | a stream is made exactly when both `projectId` and `projectToken` are truthy, and otherwise the call throws |
| IronQueue.IronStream.GetQueue | index.js:46-50 | the queue already made under a name is returned unchanged; otherwise a fresh queue is made and remembered under that name (except for names inherited from `Object.prototype`; see "Left out") |
| Wrappers.TruthyString | index.js:19 | definition of JavaScript truthiness for an optional string: present and not empty |
| Messages.Flatten | index.js:107-112 | definition: an array payload as it is, a lone value as a one-element list, as `_addMessagesToQueue` and the `concat` at `index.js:294` treat it |
| IronSink.BatchSize | index.js:168 | the option, or 1 when it is falsy, for integer options: never 0; a non-zero option as given; 1 when the option is absent or 0 |
| IronSink.HasIds | index.js:176 | definition: every entry has a truthy id |
| IronSink.Accept | index.js:179-187 | one accepted write: a flush happens exactly when the old length plus 2 equals the batch size; a flushed batch has exactly the batch size and leaves nothing; the flushed batch followed by the new `_toDelete` is the old one followed by the message twice |
| IronSink.Doubled | index.js:179-180 | definition: each message twice, in order |
| IronSink.Concat | index.js:184-187 | definition: the batches one after another |
| IronSink.Feed | index.js:173-200 | definition: a run of accepted writes, each answered before the next; the final `_toDelete` and the batches flushed, in order |
| IronSink.Ids | index.js:184-186 | the ids of the given entries, in order, one per entry |
| IronSink.FeedConserves | index.js:179-187 | across any run of writes, the flushed batches followed by what is left are the old `_toDelete` followed by each message twice; every batch has exactly the batch size |
| IronSink.FeedKeepsEven | index.js:179-180 | `_toDelete` keeps even length |
| IronSink.OddBatchNeverFlushes | index.js:179-182 | with an odd batch size, or one below 2, nothing is ever flushed and every message stays in `_toDelete`, twice |
| IronSink.EvenBatchFlushesEveryHalf | index.js:179-187 | with batch size `2k`, `k` times the number of flushes plus the pairs left equals the pairs before plus the writes, and fewer than `k` pairs are left: a flush on every `k`-th write |
| IronSink.BatchOfTwoSendsEachIdTwice | index.js:179-187 | with batch size 2, every write flushes the batch `[m, m]` and leaves `_toDelete` empty |
| IronSink.Sink.constructor | index.js:161-170 | `_deleteInBatchesOf` is the option, or 1 when it is absent or 0; `_toDelete` is empty |
| IronSink.Sink.Write | index.js:173-200 | without a truthy id: `deleteError`, `_toDelete` unchanged, `next` never called; otherwise two pushes and `deletePending(id)`, and on reaching the batch size exactly, the ids of the first entries go to `del_multiple` and those entries are removed |
| IronSink.Sink.DeleteCompleted | index.js:188-196 | on error `deleteError` with the ids and then `deleted`, otherwise `deleted`; nothing is re-queued, and `next` runs |
| JsonParsing.JobList | jsonparser.js:41-44 | definition: an array input as it is, a lone job as a one-element list |
| JsonParsing.FieldOf | jsonparser.js:48-49 | definition: the field at `parseField` when that option is truthy, otherwise the job |
| JsonParsing.EnrichOne | jsonparser.js:63-68 | definition of one enrichment entry: a string copies that path from the job, an object is merged in, anything else does nothing |
| JsonParsing.Enriched | jsonparser.js:60-70 | definition: the entries applied first to last |
| JsonParsing.Finish | jsonparser.js:73-81 | the end of a call: `cb` is called, the errors are kept, something is pushed exactly when something was decoded, and the push is an array exactly for an array input |
| JsonParsing.Resume | jsonparser.js:45-72 | definition of the outer loop from index `i`: a falsy field returns without `cb`, a parse failure records an error and goes to `i + 1`, a decoded job goes to `i + 1` without `enrichWith` and to `enrichWith.length + 1` with it; `Spinning` when the fuel runs out |
| JsonParsing.Transformed | jsonparser.js:38-82 | definition: `Resume` from index 0 on the wrapped job list |
| JsonParsing.DecodedValue | jsonparser.js:60-71 | definition: the parsed value, enriched when `enrichWith` is set |
| JsonParsing.DecodeEach | jsonparser.js:45-72 | reference definition that ignores `enrichWith`: jobs taken front to back, a parse failure recorded and skipped, a falsy field aborting |
| JsonParsing.Reference | jsonparser.js:38-82 | reference definition of a whole call without `enrichWith`, built on `DecodeEach` |
| JsonParsing.Transform | jsonparser.js:38-82 | the two loops sharing `i`, run for at most `fuel` outer iterations, compute `Transformed` |
| JsonParsing.EnrichInOrder | jsonparser.js:60-70 | the entries of `enrichWith` are applied first to last |
| JsonParsing.SingleJob | jsonparser.js:38-82 | a lone job: a falsy field emits `parseError` and returns without push or `cb`; a parse failure emits `parseError` and calls `cb` without a push; otherwise the decoded value itself, not an array, is pushed and `cb` is called |
| JsonParsing.ResumeShape | jsonparser.js:45-81 | a returning call pushes at most once, in the input's shape; `cb` is skipped exactly when the call returned at a falsy field, whose error is then last and nothing is pushed; errors only accumulate; what was decoded before is a prefix of the pushed array |
| JsonParsing.TransformShape | jsonparser.js:38-82 | the same about a whole call: a push is a non-empty array for an array and a lone value otherwise, and `cb` is skipped exactly after a falsy field |
| JsonParsing.ResumePlain | jsonparser.js:45-72 | without `enrichWith`, the outer loop from any index is the reference decoding of the rest of the jobs |
| JsonParsing.TransformWithoutEnrichment | jsonparser.js:38-82 | without `enrichWith`, the transform examines every job once in order: the decoded jobs in processing order are pushed, failures emit `parseError` and are skipped, a falsy field aborts |
| JsonParsing.RevisitSpins | jsonparser.js:45-72 | with `enrichWith` of length `n`, a job at index `n + 1` that decodes sends the loop back to index `n + 1` forever |
| JsonParsing.DefaultOptions | index.js:344 | the default options parse `body` and have one enrichment |
| JsonParsing.DefaultOptionsSpin | jsonparser.js:45-72 | with those options an array whose first and third jobs decode never returns, whatever the fuel |

## Left out

- The IronMQ client, its construction and the wire calls (`get`, `del_multiple`, `MQ.queue`). The model has no remote side. Dispatching a call is a counter step, and its answer is a method the environment calls.
- `setInterval`/`clearInterval` and the 5 ms cadence. A tick is an event that can happen only while an interval is active.
- Node stream internals: `highWaterMark`, the built-in `pause`/`resume`, and when `_read` and `_write` get called. `push` is an append, and its answer is an argument. The rule that `_write` is not called again before `next` is the `status` precondition of `Sink.Write`.
- `Fetcher`'s `emit("error")` with no listener throws in Node. The model only records the emission.
- `debug` and `console.log` output.
- `onFetchError` and `onDeleteError`, which only register listeners.
- `_isFetching`, which reads a field the queue never sets.
- `useStub`, and `removeAndReturn`, which is used only in commented-out code.
- `parseJson`'s piping and its merge of caller options. Only its default options are modelled (`DefaultOptions`).
- IronQueue.IronStream.GetQueue: the `options` argument is not modelled. The merge with the default options (`concurrentRequests`, `n`, stream options) only feeds the remote client and the Readable, and `Fetcher2` is always given 100.
- IronQueue.IronStream.GetQueue: names that `Object.prototype` already has are not modelled. Examples are `"toString"`, `"constructor"`, `"hasOwnProperty"` and `"__proto__"`. For such a name `this.queues[name]` is truthy on the first call because `this.queues` is a plain `{}` (`index.js:28`). The source then stores and returns that inherited value and makes no `Queue` (`index.js:47-49`). The model's `map` has no inherited keys, so for these names it makes a fresh queue.
- IronQueue.Queue.constructor: `ironStream.MQ.queue(name)` and the stored `options` are not modelled.
- IronQueue.IronStream.Create: the call without `new` and the call with it both produce a fresh stream. They are one method here.
- IronSink.BatchSize: only integer batch sizes are modelled. Other JavaScript values of `deleteInBatchesOf` (strings, fractions, `NaN`) are not.
- JsonParsing.Transform: the non-termination of the shared-index loop is modelled by a fuel bound. A run that exceeds it is `Spinning`, and no claim is made about the loop beyond the fuel.
- JsonParsing.EnrichOne: `dref.set` mutates the parsed object in place. Here it returns the updated object, so aliasing between the parsed value and other references is not captured. A parse result that `dref.set` cannot write to is not modelled either.
- Exceptions thrown by `dref.get`, `dref.set` or `_.merge` are not modelled; only `JSON.parse` can fail.
- JavaScript truthiness of parsed objects and fields is an opaque predicate.
- There is no `flush()` of a partial batch in the source, so none is modelled.
- The test file targets an older API and is not part of this model.
- Real concurrency. Interleavings appear only as the order in which events are applied.
