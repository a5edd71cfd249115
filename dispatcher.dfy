/**
 * The event dispatcher: each event is serialised and published to the
 * "events" topic of the queue it was built with; a batch is published in
 * order and stops at its first failure.
 *
 * `Event.Json()` is a parameter `json`, a serialiser that may fail. The
 * logrus output of the dispatcher is the ghost field `log`.
 */
module EventDispatch {
  import opened Wrappers
  import opened PluginEvent
  import opened Storage

  /** The topic every event is published to. */
  const Topic: string := "events"

  /** The log line of a dispatched event. */
  function IngestLine(id: string): string
  {
    "\U{1F41E} Ingest Event: " + id
  }

  /** The log lines of a run of successfully dispatched events, in order. */
  function IngestLog(events: seq<Event>): (lines: seq<string>)
    ensures |lines| == |events|
    ensures forall k :: 0 <= k < |events| ==> lines[k] == IngestLine(events[k].id)
  {
    seq(|events|, k requires 0 <= k < |events| => IngestLine(events[k].id))
  }

  // ---------------------------------------------------------------------------
  // What a dispatch does, as values
  // ---------------------------------------------------------------------------

  /**
   * One Dispatch against a queue that has accepted `n` messages: the error
   * of the serialiser, else the queue's refusal, else the accepted message.
   */
  function Step(json: Event -> Result<string, Error>, refuse: (nat, Message) -> Option<Error>,
                n: nat, e: Event): (r: Result<Message, Error>)
  {
    match json(e)
    case Failure(err) => Failure(err)
    case Success(body) =>
      match refuse(n, Message(Topic, body))
      case Some(err) => Failure(err)
      case None => Success(Message(Topic, body))
  }

  /**
   * The step each event of a batch would take if every event before it went
   * through: the k-th event meets a queue that has accepted `n + k` messages.
   */
  function Attempts(json: Event -> Result<string, Error>, refuse: (nat, Message) -> Option<Error>,
                    n: nat, events: seq<Event>): (steps: seq<Result<Message, Error>>)
    ensures |steps| == |events|
    ensures forall k :: 0 <= k < |events| ==> steps[k] == Step(json, refuse, n + k, events[k])
  {
    seq(|events|, k requires 0 <= k < |events| => Step(json, refuse, n + k, events[k]))
  }

  /** A batch's effect: how many events went through, the messages they became, and the error that stopped it. */
  datatype Outcome = Outcome(count: nat, sent: seq<Message>, err: Option<Error>)

  /** Running the attempts in order up to the first failure. */
  function Run(steps: seq<Result<Message, Error>>): (o: Outcome)
    ensures o.count == |o.sent| <= |steps|
  {
    if steps == [] then Outcome(0, [], None)
    else match steps[0]
      case Failure(err) => Outcome(0, [], Some(err))
      case Success(m) =>
        var rest := Run(steps[1..]);
        Outcome(rest.count + 1, [m] + rest.sent, rest.err)
  }

  /** DispatchMany against a queue that has accepted `n` messages. */
  function Dispatched(json: Event -> Result<string, Error>, refuse: (nat, Message) -> Option<Error>,
                      n: nat, events: seq<Event>): (o: Outcome)
    ensures o.count == |o.sent| <= |events|
  {
    Run(Attempts(json, refuse, n, events))
  }

  // ---------------------------------------------------------------------------
  // The dispatcher object
  // ---------------------------------------------------------------------------

  /** `BugsChannelEventsDispatcher`: a dispatcher bound to one queue. */
  class BugsChannelEventsDispatcher {
    const queue: Queue
    /** The lines the dispatcher has logged. */
    ghost var log: seq<string>

    /** The struct literal `&BugsChannelEventsDispatcher{queue}`. */
    constructor (queue: Queue)
      ensures this.queue == queue && log == []
    {
      this.queue := queue;
      log := [];
    }

    /**
     * Dispatch: serialise, publish to "events", log the event's ID. A
     * failure of either step is returned as it came and leaves the log
     * alone; a serialisation failure also leaves the queue alone.
     */
    method Dispatch(json: Event -> Result<string, Error>, e: Event) returns (err: Option<Error>)
      modifies this, queue
      ensures var step := Step(json, queue.refuse, |old(queue.published)|, e);
              && err == (if step.Failure? then Some(step.error) else None)
              && queue.published == old(queue.published) + (if step.Success? then [step.value] else [])
              && log == old(log) + (if step.Success? then [IngestLine(e.id)] else [])
    {
      var body := json(e);
      if body.Failure? {
        return Some(body.error);
      }
      err := queue.Publish(Topic, body.value);
      if err.Some? {
        return err;
      }
      log := log + [IngestLine(e.id)];
      return None;
    }

    /**
     * DispatchMany: the events are dispatched in order until one fails;
     * that error is returned, and the events before it are published and
     * logged, the ones after it are not touched.
     */
    method DispatchMany(json: Event -> Result<string, Error>, events: seq<Event>) returns (err: Option<Error>)
      modifies this, queue
      ensures var o := Dispatched(json, queue.refuse, |old(queue.published)|, events);
              && err == o.err
              && queue.published == old(queue.published) + o.sent
              && log == old(log) + IngestLog(events[..o.count])
    {
      ghost var n0 := |queue.published|;
      ghost var published0 := queue.published;
      ghost var log0 := log;
      ghost var sent: seq<Message> := [];
      var i := 0;
      while i < |events|
        invariant 0 <= i <= |events|
        invariant |sent| == i
        invariant queue.published == published0 + sent
        invariant Dispatched(json, queue.refuse, n0, events[..i]) == Outcome(i, sent, None)
        invariant log == log0 + IngestLog(events[..i])
      {
        DispatchedSnoc(json, queue.refuse, n0, events, i, sent);
        err := Dispatch(json, events[i]);
        if err.Some? {
          return;
        }
        sent := sent + [Step(json, queue.refuse, n0 + i, events[i]).value];
        IngestLogSnoc(events, i);
        i := i + 1;
      }
      assert events[..i] == events;
      return None;
    }
  }

  lemma IngestLogSnoc(events: seq<Event>, i: nat)
    requires i < |events|
    ensures IngestLog(events[..i + 1]) == IngestLog(events[..i]) + [IngestLine(events[i].id)]
  {
  }

  /** NewDispatcher: a fresh dispatcher that publishes through the given queue. */
  method NewDispatcher(queue: Queue) returns (d: BugsChannelEventsDispatcher)
    ensures fresh(d) && d.queue == queue && d.log == []
  {
    d := new BugsChannelEventsDispatcher(queue);
  }

  // ---------------------------------------------------------------------------
  // Properties
  // ---------------------------------------------------------------------------

  /** A serialisation failure is returned and nothing is offered to the queue. */
  lemma JsonFailureReturned(json: Event -> Result<string, Error>, refuse: (nat, Message) -> Option<Error>,
                            n: nat, e: Event)
    requires json(e).Failure?
    ensures Step(json, refuse, n, e) == Failure(json(e).error)
  {
  }

  /** A serialised event is offered once, to "events", with its serialisation as body; a refusal is returned unchanged. */
  lemma PublishedAsSerialised(json: Event -> Result<string, Error>, refuse: (nat, Message) -> Option<Error>,
                              n: nat, e: Event)
    requires json(e).Success?
    ensures var m := Message("events", json(e).value);
            Step(json, refuse, n, e) == if refuse(n, m).Some? then Failure(refuse(n, m).value) else Success(m)
  {
  }

  /** The attempts of a batch split where the batch is split. */
  lemma AttemptsAppend(json: Event -> Result<string, Error>, refuse: (nat, Message) -> Option<Error>,
                       n: nat, a: seq<Event>, b: seq<Event>)
    ensures Attempts(json, refuse, n, a + b) == Attempts(json, refuse, n, a) + Attempts(json, refuse, n + |a|, b)
  {
    var l, r := Attempts(json, refuse, n, a), Attempts(json, refuse, n + |a|, b);
    forall k | 0 <= k < |a| + |b|
      ensures Attempts(json, refuse, n, a + b)[k] == (l + r)[k]
    {
      if k >= |a| {
        assert (a + b)[k] == b[k - |a|];
      }
    }
  }

  /**
   * Running after a prefix `x` that went through entirely: the rest `y` is
   * run as if on its own, its messages after those of `x`.
   */
  lemma {:induction false} RunAppend(x: seq<Result<Message, Error>>, y: seq<Result<Message, Error>>)
    requires Run(x).err.None?
    ensures Run(x + y) == Outcome(Run(x).count + Run(y).count, Run(x).sent + Run(y).sent, Run(y).err)
  {
    if x == [] {
      assert x + y == y;
    } else {
      assert (x + y)[0] == x[0] && (x + y)[1..] == x[1..] + y;
      RunAppend(x[1..], y);
      assert [x[0].value] + (Run(x[1..]).sent + Run(y).sent) == ([x[0].value] + Run(x[1..]).sent) + Run(y).sent;
    }
  }

  /** A run whose prefix `x` fails is decided by that prefix. */
  lemma {:induction false} RunStops(x: seq<Result<Message, Error>>, y: seq<Result<Message, Error>>)
    requires Run(x).err.Some?
    ensures Run(x + y) == Run(x)
  {
    assert (x + y)[0] == x[0] && (x + y)[1..] == x[1..] + y;
    if x[0].Success? {
      RunStops(x[1..], y);
    }
  }

  /** A batch after a fully dispatched prefix `a`: the rest `b` meets a queue that has accepted `|a|` more messages. */
  lemma DispatchedAppend(json: Event -> Result<string, Error>, refuse: (nat, Message) -> Option<Error>,
                         n: nat, a: seq<Event>, b: seq<Event>)
    requires Dispatched(json, refuse, n, a).err.None?
    ensures var oa, rest := Dispatched(json, refuse, n, a), Dispatched(json, refuse, n + |a|, b);
            Dispatched(json, refuse, n, a + b) == Outcome(oa.count + rest.count, oa.sent + rest.sent, rest.err)
  {
    AttemptsAppend(json, refuse, n, a, b);
    RunAppend(Attempts(json, refuse, n, a), Attempts(json, refuse, n + |a|, b));
  }

  /** A batch whose prefix `a` fails is decided by that prefix. */
  lemma DispatchedAppendStops(json: Event -> Result<string, Error>, refuse: (nat, Message) -> Option<Error>,
                              n: nat, a: seq<Event>, b: seq<Event>)
    requires Dispatched(json, refuse, n, a).err.Some?
    ensures Dispatched(json, refuse, n, a + b) == Dispatched(json, refuse, n, a)
  {
    AttemptsAppend(json, refuse, n, a, b);
    RunStops(Attempts(json, refuse, n, a), Attempts(json, refuse, n + |a|, b));
  }

  /**
   * One more event after a fully dispatched prefix: it either extends the
   * prefix by its message, or its failure decides the whole batch.
   */
  lemma DispatchedSnoc(json: Event -> Result<string, Error>, refuse: (nat, Message) -> Option<Error>,
                       n: nat, events: seq<Event>, i: nat, sent: seq<Message>)
    requires i < |events|
    requires Dispatched(json, refuse, n, events[..i]) == Outcome(i, sent, None)
    ensures var step := Step(json, refuse, n + i, events[i]);
            && (step.Success? ==> Dispatched(json, refuse, n, events[..i + 1]) == Outcome(i + 1, sent + [step.value], None))
            && (step.Failure? ==> Dispatched(json, refuse, n, events) == Outcome(i, sent, Some(step.error)))
  {
    var step := Step(json, refuse, n + i, events[i]);
    if step.Success? {
      DispatchedAppend(json, refuse, n, events[..i], [events[i]]);
      assert events[..i] + [events[i]] == events[..i + 1];
      assert Attempts(json, refuse, n + i, [events[i]]) == [step];
      assert [step][1..] == [];
      assert Run([step]) == Outcome(1, [step.value], None);
    } else {
      DispatchedAppend(json, refuse, n, events[..i], events[i..]);
      assert events[..i] + events[i..] == events;
      assert Attempts(json, refuse, n + i, events[i..])[0] == step;
    }
  }

  /**
   * The order and the stop of a run: the first `count` attempts went
   * through and became the messages sent; a run without error went through
   * entirely; a run with an error was stopped by exactly the attempt after
   * the last that went through.
   */
  lemma {:induction false} RunInOrder(steps: seq<Result<Message, Error>>)
    ensures var o := Run(steps);
            && (forall k :: 0 <= k < o.count ==> steps[k].Success? && o.sent[k] == steps[k].value)
            && (o.err.None? ==> o.count == |steps|)
            && (o.err.Some? ==> o.count < |steps| && steps[o.count] == Failure(o.err.value))
  {
    if steps != [] && steps[0].Success? {
      RunInOrder(steps[1..]);
      var o, t := Run(steps), Run(steps[1..]);
      forall k | 1 <= k < o.count
        ensures steps[k].Success? && o.sent[k] == steps[k].value
      {
        assert steps[k] == steps[1..][k - 1];
        assert o.sent[k] == t.sent[k - 1];
      }
      if o.err.Some? {
        assert steps[o.count] == steps[1..][t.count];
      }
    }
  }

  /**
   * The order and the stop of a batch: the first `count` events went
   * through, each as its own step against the queue as it then was; a
   * batch without error went through entirely; a batch with an error was
   * stopped by exactly the event after the last that went through.
   */
  lemma DispatchedInOrder(json: Event -> Result<string, Error>, refuse: (nat, Message) -> Option<Error>,
                          n: nat, events: seq<Event>)
    ensures var o := Dispatched(json, refuse, n, events);
            && (forall k :: 0 <= k < o.count ==>
                  Step(json, refuse, n + k, events[k]).Success? && o.sent[k] == Step(json, refuse, n + k, events[k]).value)
            && (o.err.None? ==> o.count == |events|)
            && (o.err.Some? ==> o.count < |events| && Step(json, refuse, n + o.count, events[o.count]) == Failure(o.err.value))
  {
    RunInOrder(Attempts(json, refuse, n, events));
  }

  /** A batch returns no error exactly when every event in it dispatches. */
  lemma BatchSucceedsIffAllDispatch(json: Event -> Result<string, Error>, refuse: (nat, Message) -> Option<Error>,
                                    n: nat, events: seq<Event>)
    ensures Dispatched(json, refuse, n, events).err.None?
        <==> forall k :: 0 <= k < |events| ==> Step(json, refuse, n + k, events[k]).Success?
  {
    DispatchedInOrder(json, refuse, n, events);
  }

  /** An empty batch publishes nothing and returns nil. */
  lemma EmptyBatch(json: Event -> Result<string, Error>, refuse: (nat, Message) -> Option<Error>, n: nat)
    ensures Dispatched(json, refuse, n, []) == Outcome(0, [], None)
  {
  }

  /** Against a queue that accepts everything, a batch of serialisable events is published whole, in order. */
  lemma {:induction false} AcceptingQueuePublishesAll(json: Event -> Result<string, Error>, refuse: (nat, Message) -> Option<Error>,
                                                      n: nat, events: seq<Event>)
    requires forall k: nat, m: Message :: refuse(k, m) == None
    requires forall k :: 0 <= k < |events| ==> json(events[k]).Success?
    ensures var o := Dispatched(json, refuse, n, events);
            && o.err == None && o.count == |events|
            && forall k :: 0 <= k < |events| ==> o.sent[k] == Message("events", json(events[k]).value)
  {
    DispatchedInOrder(json, refuse, n, events);
  }

  // ---------------------------------------------------------------------------
  // The scenario of pkg/event/bugs_channel_dispatcher_test.go
  // ---------------------------------------------------------------------------

  /** TestDispatchSuccess: through the mock queue, an event is published and its ingest line logged. */
  method DispatchThroughMock(json: Event -> Result<string, Error>, e: Event)
    returns (err: Option<Error>, last: string, ghost lines: seq<string>)
    requires json(e).Success?
    ensures err == None && last == json(e).value
    ensures lines == [IngestLine(e.id)]
  {
    var q := new Queue.Mock();
    var d := NewDispatcher(q);
    err := d.Dispatch(json, e);
    last := q.LastMessage();
    lines := d.log;
  }
}
