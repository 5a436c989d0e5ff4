/** The batch buffer: internal/subscribe/batch/batch.go. */
module Buffering {
  import opened Types

  /** A clock reading or a duration, in the same unit. */
  type Time = int

  /** A stretch of polled messages that left the buffer together. */
  datatype Segment = Dispatched(msgs: seq<Message>) | Dropped(msgs: seq<Message>)

  function Flatten(segments: seq<Segment>): seq<Message> {
    if segments == [] then [] else Flatten(segments[..|segments| - 1]) + segments[|segments| - 1].msgs
  }

  lemma FlattenOneMore(segments: seq<Segment>, segment: Segment)
    ensures Flatten(segments + [segment]) == Flatten(segments) + segment.msgs
  {
    assert (segments + [segment])[..|segments|] == segments;
  }

  class Buffer {
    var messages: seq<Message>
    const batchSize: nat
    const timeout: Time
    var firstAdd: Option<Time>       // None is Go's zero time
    ghost var polled: seq<Message>   // everything ever added, in order
    ghost var history: seq<Segment>  // everything that ever left

    /** Conservation: what was added is what left, in order, followed by what is held. */
    ghost predicate Valid()
      reads this
    {
      && (firstAdd.Some? <==> messages != [])
      && polled == Flatten(history) + messages
    }

    constructor (batchSize: nat, timeout: Time)
      ensures Valid() && messages == [] && polled == [] && history == []
      ensures this.batchSize == batchSize && this.timeout == timeout
    {
      this.messages := [];
      this.batchSize := batchSize;
      this.timeout := timeout;
      this.firstAdd := None;
      this.polled := [];
      this.history := [];
    }

    method Add(msg: Message, now: Time)
      requires Valid()
      modifies this
      ensures Valid() && messages == old(messages) + [msg]
      ensures firstAdd == if old(messages) == [] then Some(now) else old(firstAdd)
      ensures polled == old(polled) + [msg] && history == old(history)
    {
      if |messages| == 0 {
        firstAdd := Some(now);
      }
      messages := messages + [msg];
      polled := polled + [msg];
      assert Flatten(history) + (old(messages) + [msg]) == (Flatten(history) + old(messages)) + [msg];
    }

    method Ready() returns (ready: bool)
      ensures ready <==> |messages| >= batchSize
    {
      ready := |messages| >= batchSize;
    }

    /** Whether the first message has waited long enough; never, when there is none. */
    predicate Due(now: Time)
      reads this
    {
      messages != [] && firstAdd.Some? && now - firstAdd.value >= timeout
    }

    method TimedOut(now: Time) returns (due: bool)
      requires Valid()
      ensures due <==> Due(now)
    {
      if |messages| == 0 {
        return false;
      }
      due := now - firstAdd.value >= timeout;
    }

    method Drop() returns (dropped: nat)
      requires Valid()
      modifies this
      ensures Valid() && messages == [] && dropped == |old(messages)|
      ensures polled == old(polled) && history == old(history) + [Dropped(old(messages))]
    {
      dropped := |messages|;
      FlattenOneMore(history, Dropped(messages));
      history := history + [Dropped(messages)];
      messages := [];
      firstAdd := None;
    }

    /** Returns the buffered messages, None standing for Go's nil, and starts afresh. */
    method Flush() returns (msgs: Option<seq<Message>>)
      requires Valid()
      modifies this
      ensures Valid() && messages == [] && polled == old(polled)
      ensures msgs == if old(messages) == [] then None else Some(old(messages))
      ensures history == old(history) + if old(messages) == [] then [] else [Dispatched(old(messages))]
    {
      if |messages| == 0 {
        return None;
      }
      FlattenOneMore(history, Dispatched(messages));
      history := history + [Dispatched(messages)];
      msgs := Some(messages);
      messages := [];
      firstAdd := None;
    }
  }
}
