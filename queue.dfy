/**
 * The `Queue` interface the dispatcher publishes through. A queue is
 * modelled by what it has accepted so far, in order, and by an oracle
 * that says whether the next publish fails (a network error of the
 * backend, say): the n-th publish attempt after n accepted messages
 * fails with `refuse(n, message)` when that is `Some`.
 */
module Storage {
  import opened Wrappers

  /** One accepted `Publish(ctx, topic, message)`. */
  datatype Message = Message(topic: string, body: string)

  class Queue {
    /** The messages accepted so far, oldest first. */
    var published: seq<Message>
    /** Whether the backend refuses a message, given how many it has accepted before it. */
    const refuse: (nat, Message) -> Option<Error>

    /** A queue that has accepted nothing yet. */
    constructor (refuse: (nat, Message) -> Option<Error>)
      ensures published == [] && this.refuse == refuse
    {
      published := [];
      this.refuse := refuse;
    }

    /** The mock queue of the dispatcher's tests: every publish is accepted. */
    constructor Mock()
      ensures published == []
      ensures forall n: nat, m: Message :: refuse(n, m) == None
    {
      published := [];
      refuse := (n: nat, m: Message) => None;
    }

    /**
     * Publish: a refused message leaves the queue as it was; an accepted
     * one is appended after those accepted before it.
     */
    method Publish(topic: string, message: string) returns (err: Option<Error>)
      modifies this
      ensures err == refuse(|old(published)|, Message(topic, message))
      ensures published == if err.None? then old(published) + [Message(topic, message)] else old(published)
      ensures err.None? ==> LastMessage() == message
    {
      var m := Message(topic, message);
      err := refuse(|published|, m);
      if err.None? {
        published := published + [m];
      }
    }

    /** The mock's `lastMessage`: the body of the last accepted message, "" before any. */
    function LastMessage(): (body: string)
      reads this
    {
      if published == [] then "" else published[|published| - 1].body
    }
  }
}
