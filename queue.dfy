/**
 * The pull buffer (`Queue`) and the entry object (`IronStream`) that creates
 * and memoises queues by name.
 *
 * A queue owns a backlog `messages` and a `Fetcher2`. Each downstream pull
 * (`_read`) either hands over the head of the backlog or, when the backlog is
 * empty, starts the fetcher; the fetcher's `onDone` closure appends a wave to the
 * backlog and hands over one message. Downstream `push` is modelled as appending
 * to `delivered` (`None` being a pushed `undefined`); its boolean answer only
 * tells whether downstream is saturated, which the source notices and does not
 * act upon. The remote client is not modelled: the environment drives the
 * fetcher's interval (`fetcher.Fetch`) and answers its calls (`FetchCompleted`).
 */
module IronQueue {
  import opened Wrappers
  import opened Messages
  import opened FetcherV2

  /** The `minimumResultSize` every queue gives its fetcher. */
  const MinimumResultSize := 100

  class Queue {
    const name: string
    const fetcher: Fetcher2
    /** Set by the constructor and by `resume`; nothing reads it. */
    var running: bool
    /** The backlog, oldest first. */
    var messages: seq<Message>
    /** Everything pushed downstream, in push order. */
    var delivered: seq<Option<Message>>
    /** The `queueError` events emitted, in order. */
    var queueErrors: seq<string>

    ghost predicate Valid()
      reads this, fetcher
    {
      fetcher.Valid() && fetcher.minimumResultSize == MinimumResultSize
    }

    constructor (name: string)
      ensures Valid() && fresh(fetcher)
      ensures this.name == name && running
      ensures messages == [] && delivered == [] && queueErrors == []
      ensures fetcher.State() == FetcherV2.Initial() && fetcher.waves == 0
    {
      this.name := name;
      running := true;
      messages := [];
      delivered := [];
      queueErrors := [];
      fetcher := new Fetcher2(MinimumResultSize);
    }

    /**
     * `_pushOneMessage`: shift the head of the backlog and push it (on an empty
     * backlog `shift` yields `undefined`, which is pushed as such). `accepts` is
     * downstream's answer to `push`; `saturated` is its negation, detected and
     * otherwise ignored.
     */
    method PushOneMessage(accepts: bool) returns (saturated: bool)
      modifies this
      ensures old(messages) != [] ==>
                messages == old(messages)[1..] && delivered == old(delivered) + [Some(old(messages)[0])]
      ensures old(messages) == [] ==> messages == [] && delivered == old(delivered) + [None]
      ensures saturated == !accepts
      ensures running == old(running) && queueErrors == old(queueErrors)
    {
      if messages == [] {
        delivered := delivered + [None];
      } else {
        delivered := delivered + [Some(messages[0])];
        messages := messages[1..];
      }
      saturated := !accepts;
    }

    /**
     * `_read`, one downstream pull. A non-empty backlog hands over exactly its
     * head and leaves the fetcher alone; an empty one starts a fetcher that is
     * not running, and otherwise nothing changes.
     */
    method Read(accepts: bool)
      requires Valid()
      modifies this, fetcher
      ensures Valid()
      ensures old(messages) != [] ==>
                && messages == old(messages)[1..]
                && delivered == old(delivered) + [Some(old(messages)[0])]
                && fetcher.State() == old(fetcher.State())
      ensures old(messages) == [] && !old(fetcher.running) ==>
                && fetcher.State() == Started(old(fetcher.State()))
                && messages == [] && delivered == old(delivered)
      ensures old(messages) == [] && old(fetcher.running) ==>
                && fetcher.State() == old(fetcher.State())
                && messages == [] && delivered == old(delivered)
      ensures fetcher.waves == old(fetcher.waves)
      ensures running == old(running) && queueErrors == old(queueErrors)
    {
      if messages == [] {
        if !fetcher.running {
          fetcher.Start();
        }
      } else {
        var _ := PushOneMessage(accepts);
      }
    }

    /** `_addMessagesToQueue`: append, wrapping a lone value into a one-element list. */
    method AddMessagesToQueue(p: Payload)
      modifies this
      ensures messages == old(messages) + Flatten(p)
      ensures delivered == old(delivered) && running == old(running) && queueErrors == old(queueErrors)
    {
      messages := messages + Flatten(p);
    }

    /**
     * The `onDone` closure `_read` hands to `start`, applied to what the
     * fetcher's callback did with it: an error becomes a `queueError` event and
     * leaves the backlog alone; a wave is appended and one message is pushed.
     */
    method WaveCallback(outcome: Done, accepts: bool)
      modifies this
      ensures outcome.NotCalled? ==>
                messages == old(messages) && delivered == old(delivered) && queueErrors == old(queueErrors)
      ensures outcome.DoneError? ==>
                && queueErrors == old(queueErrors) + [outcome.reason]
                && messages == old(messages) && delivered == old(delivered)
      ensures outcome.DoneBatch? && old(messages) + outcome.batch != [] ==>
                && messages == (old(messages) + outcome.batch)[1..]
                && delivered == old(delivered) + [Some((old(messages) + outcome.batch)[0])]
                && queueErrors == old(queueErrors)
      ensures outcome.DoneBatch? && old(messages) + outcome.batch == [] ==>
                messages == [] && delivered == old(delivered) + [None] && queueErrors == old(queueErrors)
      ensures running == old(running)
    {
      match outcome {
        case NotCalled =>
        case DoneError(reason) =>
          queueErrors := queueErrors + [reason];
        case DoneBatch(batch) =>
          AddMessagesToQueue(Many(batch));
          var _ := PushOneMessage(accepts);
      }
    }

    /**
     * One remote call of the fetcher answers. A wave always holds more than
     * `MinimumResultSize` messages, so what is pushed is a real message, the
     * head of the old backlog followed by the wave; and the fetcher delivers at
     * most one wave in its lifetime.
     */
    method FetchCompleted(result: FetchResult, accepts: bool)
      requires Valid() && fetcher.inFlight > 0
      modifies this, fetcher
      ensures Valid()
      ensures var (after, done) := Completed(old(fetcher.State()), MinimumResultSize, result);
        && fetcher.State() == after
        && (done.NotCalled? ==>
              messages == old(messages) && delivered == old(delivered) && queueErrors == old(queueErrors))
        && (done.DoneError? ==>
              && queueErrors == old(queueErrors) + [done.reason]
              && messages == old(messages) && delivered == old(delivered))
        && (done.DoneBatch? ==>
              && |done.batch| > MinimumResultSize
              && old(fetcher.waves) == 0 && fetcher.waves == 1
              && messages == (old(messages) + done.batch)[1..]
              && delivered == old(delivered) + [Some((old(messages) + done.batch)[0])]
              && queueErrors == old(queueErrors))
      ensures running == old(running)
    {
      var done := fetcher.Complete(result);
      WaveCallback(done, accepts);
    }

    /** `resume`: only sets the flag. */
    method Resume()
      modifies this
      ensures running
      ensures messages == old(messages) && delivered == old(delivered) && queueErrors == old(queueErrors)
    {
      running := true;
    }

    /** `stopFetching`: shut the fetcher down for good. */
    method StopFetching()
      requires Valid()
      modifies fetcher
      ensures Valid()
      ensures fetcher.State() == ShutDown(old(fetcher.State()))
      ensures fetcher.waves == old(fetcher.waves)
    {
      fetcher.Shutdown();
    }

    /** `resetMessages`: drop the backlog; calls in flight are not affected. */
    method ResetMessages()
      modifies this
      ensures messages == []
      ensures delivered == old(delivered) && running == old(running) && queueErrors == old(queueErrors)
    {
      messages := [];
    }
  }

  /** The two settings the constructor insists on; the rest go to the remote client. */
  datatype Config = Config(projectId: Option<string>, projectToken: Option<string>)

  class IronStream {
    /** `this.queues`: the queues created so far, by name. */
    var queues: map<string, Queue>

    constructor ()
      ensures queues == map[]
    {
      queues := map[];
    }

    /**
     * `new IronStream(config)` (or the call without `new`): throws unless both
     * `projectId` and `projectToken` are truthy; `None` stands for the throw.
     */
    static method Create(config: Config) returns (r: Option<IronStream>)
      ensures r.Some? <==> TruthyString(config.projectId) && TruthyString(config.projectToken)
      ensures r.Some? ==> fresh(r.value) && r.value.queues == map[]
    {
      if !TruthyString(config.projectId) || !TruthyString(config.projectToken) {
        return None;
      }
      var stream := new IronStream();
      r := Some(stream);
    }

    /**
     * `queue(name, options)`: the queue already made under `name` if there is
     * one (whatever `options` now say), else a fresh queue remembered under it.
     */
    method GetQueue(name: string) returns (q: Queue)
      modifies this
      ensures name in old(queues) ==> q == old(queues)[name] && queues == old(queues)
      ensures name !in old(queues) ==>
                && fresh(q) && fresh(q.fetcher) && q.Valid()
                && q.name == name && q.messages == [] && q.delivered == []
                && q.fetcher.State() == FetcherV2.Initial()
                && queues == old(queues)[name := q]
    {
      if name in queues {
        q := queues[name];
      } else {
        q := new Queue(name);
        queues := queues[name := q];
      }
    }
  }
}
