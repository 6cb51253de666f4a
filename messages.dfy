/** The values that flow between the remote queue, the fetchers, the pull buffer and the sink. */
module Messages {
  import opened Wrappers

  /**
   * A message as the remote queue hands it out. `id` is optional because a
   * message written to the sink may come from anywhere; `body` is opaque.
   */
  datatype Message = Message(id: Option<string>, body: string)

  /**
   * What a remote `get` passes as `results`, or what `_addMessagesToQueue`
   * receives: an array of messages, or one bare value.
   */
  datatype Payload = Many(items: seq<Message>) | One(item: Message)

  /**
   * The messages a payload contributes: `_.isArray(x) ? x : [x]`, which is also
   * what `Array.prototype.concat` appends for an array or a non-array argument.
   */
  function Flatten(p: Payload): seq<Message> {
    match p
    case Many(items) => items
    case One(item) => [item]
  }

  /** The outcome a remote `get` callback reports: `(null, results)` or `(err)`. */
  datatype FetchResult = Fetched(results: Payload) | FetchFailed(reason: string)
}
