/**
 The publisher's objects: Delivery (publish/delivery.go), and the part of Publisher
 (publish/publisher.go) that one goroutine runs at a time: the report loop, enqueue under its
 lock, drain.  How the goroutines interleave is in module PublisherProtocol.
 */
module Publisher {
  import opened Types
  import opened Wire
  import opened KafkaErrors
  import opened Settlement

  /** Where a record was written. */
  datatype Result = Result(topic: string, partition: int, offset: int)

  datatype DeliveryError = DeliveryError(record: Record, partition: int, cause: KafkaError)

  /** newDeliveryError: the record as it was sent, and what its report says. */
  method NewDeliveryError(record: Record, partition: int, cause: KafkaError) returns (e: DeliveryError)
    ensures e == DeliveryError(record, partition, cause)
  {
    var headers := [];
    for i := 0 to |record.headers|
      invariant headers == record.headers[..i]
    {
      headers := headers + [record.headers[i]];
    }
    e := DeliveryError(Record(record.topic, record.key, record.value, headers), partition, cause);
  }

  class Delivery {
    const record: Record
    var done: bool  // the channel is closed
    var result: Result
    var err: Option<DeliveryError>

    constructor (record: Record)
      ensures this.record == record && !done
    {
      this.record, done, result, err := record, false, Result(record.topic, 0, 0), None;
    }

    /** Whoever waited on done sees the outcome of this very record. */
    ghost predicate Truthful()
      reads this
    {
      done ==>
        && result.topic == record.topic
        && (err.Some? ==> err.value.record == record && err.value.partition == result.partition)
    }

    ghost function Outcome(): Outcome
      reads this
    {
      Settlement.Outcome(result.partition, result.offset, if err.Some? then Some(err.value.cause) else None)
    }

    /** Closing a closed channel panics, hence the precondition. */
    method Resolve(result: Result, err: Option<DeliveryError>)
      requires !done
      modifies this
      ensures done && this.result == result && this.err == err
    {
      this.result, this.err := result, err;
      done := true;
    }
  }

  /** What enqueue returns. */
  datatype Enqueued = Accepted(delivery: Delivery) | RefusedClosed | RefusedFatal(fatal: FatalError) | RefusedLocally(err: KafkaError)

  class Publisher {
    var closed: bool
    var fatal: Option<FatalError>
    var brokerDown: bool
    var suppressed: nat
    ghost var deliveries: set<Delivery>     // every delivery handed to the driver
    ghost var notes: seq<Note<Delivery>>    // what the report goroutine did

    constructor ()
      ensures Valid() && fresh(deliveries) && !closed
      ensures Book() == Empty()
    {
      closed, fatal, brokerDown, suppressed := false, None, false, 0;
      deliveries, notes := {}, [];
    }

    ghost predicate Valid()
      reads this, deliveries
    {
      && (forall d :: d in deliveries ==> d.Truthful())
      && (fatal.Some? ==> IsErrFatal(fatal.value))
    }

    /** The state of the report goroutine. */
    ghost function Book(): Book<Delivery>
      reads this, deliveries
    {
      Settlement.Book(map d | d in deliveries && d.done :: d.Outcome(), fatal, brokerDown, suppressed, notes)
    }

    /** A token of ours was given to Produce. */
    ghost predicate Knows(event: Event<Delivery>)
      reads this
    {
      event.Delivered? && event.report.token.Mine? ==> event.report.token.delivery in deliveries
    }

    /** The first half of Close, under the write lock: the one caller that finds the publisher open shuts it down. */
    method BeginClose() returns (first: bool)
      requires Valid()
      modifies this`closed
      ensures Valid() && Book() == old(Book()) && closed && first == !old(closed)
    {
      first := !closed;
      closed := true;
    }

    /** enqueue, once it holds the read lock.  `refused` is Produce's error, if any. */
    method Enqueue(record: Record, refused: Option<KafkaError>) returns (r: Enqueued)
      requires Valid()
      modifies this`deliveries
      ensures Valid() && Book() == old(Book())
      ensures r.RefusedClosed? <==> closed
      ensures r.RefusedFatal? <==> !closed && fatal.Some?
      ensures r.RefusedFatal? ==> r.fatal == fatal.value && (r.fatal.wrapped || r.fatal.cause.sentinel == ErrFatal)
      ensures r.RefusedLocally? <==> !closed && fatal.None? && refused.Some?
      ensures r.RefusedLocally? ==> r.err == refused.value
      ensures r.Accepted? ==> fresh(r.delivery) && r.delivery.record == record && !r.delivery.done
      ensures deliveries == old(deliveries) + if r.Accepted? then {r.delivery} else {}
    {
      if closed {
        return RefusedClosed;
      }
      if fatal.Some? {
        return RefusedFatal(fatal.value);
      }
      var delivery := new Delivery(record);
      if refused.Some? {
        return RefusedLocally(refused.value);
      }
      deliveries := deliveries + {delivery};
      assert Book().outcomes == old(Book().outcomes);
      r := Accepted(delivery);
    }

    method NoteConnected()
      modifies this`brokerDown, this`suppressed, this`notes
      ensures Book() == Settlement.NoteConnected(old(Book()))
    {
      if !brokerDown {
        return;
      }
      notes := notes + [Restored(suppressed)];
      brokerDown := false;
      suppressed := 0;
    }

    /** Resolving one delivery adds it to the book. */
    method Resolve(d: Delivery, result: Result, err: Option<DeliveryError>)
      requires Valid() && d in deliveries && !d.done
      requires result.topic == d.record.topic
      requires err.Some? ==> err.value.record == d.record && err.value.partition == result.partition
      modifies d, this`notes
      ensures d.done && d.result == result && d.err == err
      ensures Valid() && d.Outcome() == Outcome(result.partition, result.offset, if err.Some? then Some(err.value.cause) else None)
      ensures Book() == Settlement.Resolve(old(Book()), d, d.Outcome())
    {
      d.Resolve(result, err);
      notes := notes + [Done(d, d.Outcome())];
      assert Book().outcomes == old(Book().outcomes)[d := d.Outcome()];
    }

    /** The end of settle, for a record that was not acknowledged. */
    method Refuse(d: Delivery, result: Result, cause: KafkaError, panics: bool)
      requires Valid() && d in deliveries && !d.done
      requires result.topic == d.record.topic
      modifies d, this`notes
      ensures Valid() && d.done && d.result == result && d.err == Some(DeliveryError(d.record, result.partition, cause))
      ensures var b := old(Book());
              Book() == Settlement.Resolve(
                b.(notes := b.notes + [Failed(d, panics)]), d, Outcome(result.partition, result.offset, Some(cause)))
    {
      var deliveryError := NewDeliveryError(d.record, result.partition, cause);
      notes := notes + [Failed(d, panics)];
      Resolve(d, result, Some(deliveryError));
    }

    method Settle(report: Report<Delivery>, panics: bool)
      requires Valid() && Knows(Delivered(report, panics))
      modifies deliveries, this`brokerDown, this`suppressed, this`notes
      ensures Valid() && Book() == Settlement.Settle(old(Book()), report, panics)
      ensures report.token.Mine? && !old(report.token.delivery.done) ==>
                var d := report.token.delivery;
                && d.done && d.result == Result(d.record.topic, report.partition, report.offset)
                && (d.err.Some? <==> report.err.Some?)
                && (d.err.Some? ==> d.err.value == DeliveryError(d.record, report.partition, report.err.value))
    {
      if report.token.ForeignToken? {
        notes := notes + [Unmatched];
        return;
      }
      var delivery := report.token.delivery;
      if delivery.done {
        notes := notes + [Unmatched];
        return;
      }
      var result := Result(delivery.record.topic, report.partition, report.offset);
      if report.err.None? {
        NoteConnected();
        Resolve(delivery, result, None);
        return;
      }
      Refuse(delivery, result, report.err.value, panics);
    }

    method NoteFatal(err: KafkaError, panics: bool)
      requires Valid()
      modifies this`fatal, this`notes
      ensures Valid() && Book() == Settlement.NoteFatal(old(Book()), err, panics)
    {
      if fatal.Some? {
        notes := notes + [Logged];
        return;
      }
      fatal := Some(AsFatal(err));
      notes := notes + [FatalHandled(AsFatal(err), panics)];
    }

    method NoteClientError(err: KafkaError, panics: bool)
      requires Valid()
      modifies this`fatal, this`brokerDown, this`suppressed, this`notes
      ensures Valid() && Book() == Settlement.NoteClientError(old(Book()), err, panics)
    {
      if err.fatal {
        NoteFatal(err, panics);
      } else if err.disconnected {
        if brokerDown {
          suppressed := suppressed + 1;
          notes := notes + [Logged];
          return;
        }
        brokerDown := true;
        notes := notes + [Down];
      } else {
        notes := notes + [Logged];
      }
    }

    /** readReports, over the events the driver yields until it closes the channel. */
    method ReadReports(events: seq<Event<Delivery>>)
      requires Valid() && forall i :: 0 <= i < |events| ==> Knows(events[i])
      modifies deliveries, this`fatal, this`brokerDown, this`suppressed, this`notes
      ensures Valid() && Book() == ReadAll(old(Book()), events)
    {
      for i := 0 to |events|
        invariant Valid() && Book() == ReadAll(old(Book()), events[..i])
      {
        match events[i] {
          case Delivered(report, panics) => Settle(report, panics);
          case ClientError(err, panics) => NoteClientError(err, panics);
        }
        assert events[..i + 1][..i] == events[..i];
      }
      assert events[..|events|] == events;
    }

    /** A delivery's state, read off the book. */
    lemma InBook(d: Delivery)
      requires d in deliveries
      ensures d.done <==> d in Book().outcomes
      ensures d.done ==> Book().outcomes[d] == d.Outcome()
    {
    }

    /**
     WaitAll.  While it waits for a delivery, the report goroutine reads the events of one batch; if
     that does not resolve it, the context has ended first.  It returns nil exactly when every record
     is acknowledged, and until the context ends no failure hides behind another.
     */
    method WaitAll(waits: seq<Delivery>, batches: seq<seq<Event<Delivery>>>)
      returns (seen: nat, failures: seq<Delivery>, ghost read: seq<Event<Delivery>>)
      requires Valid() && |batches| == |waits| && forall i :: 0 <= i < |waits| ==> waits[i] in deliveries
      requires forall i, k :: 0 <= i < |batches| && 0 <= k < |batches[i]| ==> Knows(batches[i][k])
      modifies deliveries, this`fatal, this`brokerDown, this`suppressed, this`notes
      ensures Valid() && Book() == ReadAll(old(Book()), read) && deliveries == old(deliveries)
      ensures seen <= |waits| && (seen < |waits| ==> !waits[seen].done)
      ensures forall i :: 0 <= i < seen ==> waits[i].done && (waits[i].err.Some? <==> waits[i] in failures)
      ensures seen == |waits| && failures == [] <==> forall i :: 0 <= i < |waits| ==> waits[i].done && waits[i].err.None?
    {
      seen, failures, read := 0, [], [];
      while seen < |waits|
        invariant Valid() && Book() == ReadAll(old(Book()), read) && deliveries == old(deliveries) && seen <= |waits|
        invariant forall i :: 0 <= i < seen ==> waits[i].done && (waits[i].err.Some? <==> waits[i] in failures)
        invariant forall d :: d in failures ==> d in waits[..seen]
      {
        ghost var before := Book();
        ReadReports(batches[seen]);
        ReadOn(old(Book()), read, batches[seen]);
        read := read + batches[seen];
        forall i | 0 <= i < seen
          ensures waits[i].done && (waits[i].err.Some? <==> waits[i] in failures)
        {
          SettledStays(before, batches[seen], waits[i]);
          InBook(waits[i]);
        }
        var delivery := waits[seen];
        if !delivery.done {
          break;
        }
        if delivery.err.Some? {
          failures := failures + [delivery];
        }
        seen := seen + 1;
      }
      if failures != [] {
        assert failures[0] in waits[..seen];
      }
    }
  }

  /**
   drain: `counted` is Len's first answer and `answers` what Flush would answer until the context
   ends.  It stops at the first zero, and otherwise uses all the time there is.
   */
  method Drain(counted: nat, answers: seq<nat>) returns (remaining: nat, flushes: nat)
    ensures flushes <= |answers|
    ensures forall k :: 0 <= k < flushes ==> ([counted] + answers)[k] > 0
    ensures remaining == ([counted] + answers)[flushes]
    ensures remaining > 0 ==> flushes == |answers|
  {
    remaining, flushes := counted, 0;
    while remaining > 0 && flushes < |answers|
      invariant flushes <= |answers| && remaining == ([counted] + answers)[flushes]
      invariant forall k :: 0 <= k < flushes ==> ([counted] + answers)[k] > 0
      decreases |answers| - flushes
    {
      remaining := answers[flushes];
      flushes := flushes + 1;
    }
  }
}
