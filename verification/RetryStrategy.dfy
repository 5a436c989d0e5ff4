/**
 The retry strategy's HandleError (internal/subscribe/strategy/retry.go) and the writer it sends
 through (publish/writer.go).
 */
module RetryStrategy {
  import opened Types
  import opened Headers
  import opened Wire
  import opened Ladder
  import opened ConsumerGroup
  import opened KafkaErrors
  import opened Settlement

  // --- What the publisher answers

  /** What becomes of one send: refused locally, not acknowledged, or written by the broker. */
  datatype SendAnswer = NotQueued | NotAcked | Acked(partition: int, gap: nat)

  /**
   What one call of HandleError meets in its publisher.  Records are named by their number among all
   the publisher accepted, of which this call's are the next ones; `events` is everything on the
   reports channel, from the start until the last wait is over, whatever else it holds.
   */
  datatype SendScript = SendScript(
    first: nat,
    refusals: seq<Option<KafkaError>>,  // Produce's errors
    events: seq<Event<nat>>,
    gaps: seq<nat>)                     // how far past the end of its partition a record landed
  {
    predicate Refuses(i: nat) {
      i < |refusals| && refusals[i].Some?
    }

    function Gap(i: nat): nat {
      if i < |gaps| then gaps[i] else 0
    }

    /** What the report goroutine has made of the events. */
    function Book(): Book<nat> {
      ReadAll(Empty(), events)
    }

    /** The i-th record was queued, and the wait on its delivery returned nil. */
    predicate Acknowledges(i: nat) {
      !Refuses(i) && first + i in Book().outcomes && Book().outcomes[first + i].err.None?
    }

    function AnswerTo(i: nat): SendAnswer {
      if Refuses(i) then NotQueued
      else if Acknowledges(i) then Acked(Book().outcomes[first + i].partition, Gap(i))
      else NotAcked
    }

    function Answers(n: nat): (answers: seq<SendAnswer>)
      ensures |answers| == n && forall i :: 0 <= i < n ==> answers[i] == AnswerTo(i)
    {
      seq(n, i requires 0 <= i < n => AnswerTo(i))
    }
  }

  /**
   A record counts as acknowledged exactly when it was queued and the first report that names it
   carries no error, whatever duplicates, foreign tokens and client errors come with it.
   */
  lemma AcknowledgedByFirstReport(script: SendScript, i: nat)
    ensures script.Acknowledges(i) <==>
            && (i < |script.refusals| ==> script.refusals[i].None?)
            && FirstReport(script.events, script.first + i).Some?
            && FirstReport(script.events, script.first + i).value.err.None?
    ensures script.AnswerTo(i).NotQueued? <==> i < |script.refusals| && script.refusals[i].Some?
    ensures script.AnswerTo(i).Acked? <==> script.Acknowledges(i)
    ensures script.Acknowledges(i) ==>
              script.AnswerTo(i).partition == FirstReport(script.events, script.first + i).value.partition
  {
    FirstOutcomeStands(script.events, script.first + i);
  }

  // --- The writer

  /** Writer.record: the topic's own headers first, then the call's. */
  method BuildRecord(topic: string, topicHeaders: seq<Header>, key: Option<Bytes>, value: Option<Bytes>, headers: seq<Header>)
    returns (record: Record)
    ensures record == Record(topic, key, value, topicHeaders + headers)
  {
    var all := [];
    for i := 0 to |topicHeaders|
      invariant all == topicHeaders[..i]
    {
      all := all + [topicHeaders[i]];
    }
    for i := 0 to |headers|
      invariant all == topicHeaders + headers[..i]
    {
      all := all + [headers[i]];
    }
    record := Record(topic, key, value, all);
  }

  /** Writer.Send: a value that encodes to nil is refused, since nil on Kafka is a tombstone. */
  method SendValue(topic: string, key: Option<Bytes>, value: Option<Bytes>, headers: seq<Header>) returns (record: Option<Record>)
    ensures record == if value.None? then None else Some(Record(topic, key, value, headers))
  {
    if value.None? {
      return None;
    }
    var built := BuildRecord(topic, [], key, value, headers);
    assert [] + headers == headers;
    record := Some(built);
  }

  /** Writer.SendDelete: the one way to write a tombstone. */
  method SendDelete(topic: string, key: Option<Bytes>, headers: seq<Header>) returns (record: Record)
    ensures record == Record(topic, key, None, headers)
  {
    record := BuildRecord(topic, [], key, None, headers);
    assert [] + headers == headers;
  }

  /** send: key and payload go out unchanged, and a tombstone goes out as one. */
  method Send(topic: string, msg: Message, headers: HeaderMap) returns (record: Record)
    ensures record.topic == topic && record.key == msg.key && record.value == msg.payload
    ensures IsSortedListing(record.headers, TextMap(headers))
  {
    var list := SortedHeaders(headers);
    if msg.payload.None? {
      record := SendDelete(topic, msg.key, list);
    } else {
      var sent := SendValue(topic, msg.key, msg.payload, list);
      record := sent.value;
    }
  }

  // --- HandleError

  /** The log entry an acknowledged record becomes: past the end of its partition. */
  function Entry(h: History, record: Record, answer: SendAnswer): Message
    requires answer.Acked?
  {
    var tp := TopicPartition(record.topic, answer.partition);
    Landed(record, answer.partition, h.End(tp) + answer.gap)
  }

  datatype InitAnswer = Initialized | StrategyInUse | NoPublisher

  class Strategy {
    const rc: RetryConfig
    var inUse: bool
    var logger: nat        // whose logger it writes to
    var initialized: bool  // Initialize has built the publisher

    constructor (rc: RetryConfig)
      ensures this.rc == rc && !initialized && !inUse
    {
      this.rc := rc;
      this.inUse, this.logger, this.initialized := false, 0, false;
    }

    /** Initialize: `built` says whether publish.New succeeds. */
    method Initialize(logger: nat, built: bool) returns (answer: InitAnswer)
      modifies this
      ensures answer == if old(inUse) then StrategyInUse else if built then Initialized else NoPublisher
      ensures answer.StrategyInUse? ==> unchanged(this)
      ensures answer.Initialized? ==> inUse && initialized && this.logger == logger
      ensures answer.NoPublisher? ==> !inUse && initialized == old(initialized)
    {
      if inUse {
        return StrategyInUse;
      }
      inUse := true;
      this.logger := logger;
      if !built {
        inUse := false;
        return NoPublisher;
      }
      initialized := true;
      answer := Initialized;
    }

    method Close()
      modifies this`inUse
      ensures !inUse
    {
      inUse := false;
    }

    /** sendToRetryQueue or sendToDLQ, whichever the attempt and the failure call for. */
    method Republish(msg: Message, f: Failure, stamps: Stamps) returns (record: Record)
      ensures IsRecordFor(rc, msg, f, stamps, record)
      ensures f.err.Some? && f.err.value.permanent ==> record.topic == rc.dlqTopic
      ensures !(f.err.Some? && f.err.value.permanent) ==>
                var attempt := if AttemptOf(msg) == INT64_MAX then INT64_MIN else AttemptOf(msg) + 1;
                record.topic == if attempt >= rc.maxAttempts then rc.dlqTopic else rc.retryTopic
    {
      var attempt := NextAttempt(msg);
      if Permanent(f) || attempt >= rc.maxAttempts {
        var headers := BuildFailureHeaders(msg, attempt, f, stamps.failedAt);
        record := Send(rc.dlqTopic, msg, headers);
      } else {
        var headers := BuildRetryHeaders(msg, attempt, stamps.retryTime, f, stamps.failedAt);
        record := Send(rc.retryTopic, msg, headers);
      }
    }

    /** awaitWrites: every delivery is waited for, whatever the outcomes before it were. */
    method AwaitWrites(script: SendScript, n: nat) returns (failures: seq<nat>)
      requires forall i :: 0 <= i < n ==> !script.Refuses(i)
      ensures forall i :: i in failures <==> 0 <= i < n && !script.Acknowledges(i)
    {
      failures := [];
      for i := 0 to n
        invariant forall k :: k in failures <==> 0 <= k < i && !script.Acknowledges(k)
      {
        var outcomes := script.Book().outcomes;
        if script.first + i !in outcomes || outcomes[script.first + i].err.Some? {
          failures := failures + [i];
        }
      }
    }

    /** One turn of HandleError's loop, and what the broker later made of the record. */
    method SendOne(h: History, msg: Message, f: Failure, stamps: Stamps, answer: SendAnswer, written: seq<Message>)
      returns (record: Record, now: seq<Message>)
      requires ProperKeys(msg.headers) && CanWrite(h, written)
      ensures IsRecordFor(rc, msg, f, stamps, record)
      ensures CanWrite(h, now) && written <= now
      ensures answer.Acked? ==> HasEntry(rc, msg, now)
      ensures if !answer.Acked? then now == written
              else
                && |now| == |written| + 1 && written <= now
                && var w := now[|written|];
                   && w.topic == record.topic && w.partition == answer.partition
                   && w.offset == WriteAll(h, written).End(w.Tp()) + answer.gap
    {
      record := Republish(msg, f, stamps);
      now := written;
      if answer.Acked? {
        var entry := Entry(WriteAll(h, written), record, answer);
        EntryCarries(rc, WriteAll(h, written), msg, f, stamps, record, answer);
        LandedIsProper(record, answer.partition, entry.offset);
        OneMoreWrite(h, written, entry);
        now := written + [entry];
        assert entry in now;
      }
    }

    /** HandleError's loop: it ends early at the first record that cannot be queued. */
    method SendAll(h: History, msgs: seq<Message>, f: Failure, stamps: seq<Stamps>, answers: seq<SendAnswer>)
      returns (sent: seq<Record>, written: seq<Message>)
      requires |stamps| == |answers| == |msgs|
      requires forall i :: 0 <= i < |msgs| ==> ProperKeys(msgs[i].headers)
      ensures |sent| <= |msgs| && (|sent| < |msgs| ==> answers[|sent|].NotQueued?)
      ensures SentFor(rc, msgs, f, stamps, answers, sent)
      ensures CanWrite(h, written)
      ensures Entered(rc, msgs, answers, |sent|, written)
    {
      sent, written := [], [];
      for i := 0 to |msgs|
        invariant |sent| == i && CanWrite(h, written)
        invariant SentFor(rc, msgs, f, stamps, answers, sent)
        invariant Entered(rc, msgs, answers, i, written)
      {
        if answers[i].NotQueued? {
          return;
        }
        var record, now := SendOne(h, msgs[i], f, stamps[i], answers[i], written);
        EnteredOneMore(rc, msgs, answers, i, written, now);
        SentOneMore(rc, msgs, f, stamps, answers, sent, record);
        sent, written := sent + [record], now;
      }
    }

    /**
     HandleError: sends a record per message, then waits for them all.  `sent` are the records
     queued, in order, and `written` the log entries of those the broker acknowledged.
     */
    method HandleError(h: History, msgs: seq<Message>, f: Failure, stamps: seq<Stamps>, script: SendScript)
      returns (ok: bool, sent: seq<Record>, written: seq<Message>)
      requires |stamps| == |msgs|
      requires forall i :: 0 <= i < |msgs| ==> ProperKeys(msgs[i].headers)
      ensures ok <==> initialized && forall i :: 0 <= i < |msgs| ==> script.Acknowledges(i)
      ensures |sent| <= |msgs| && (!initialized ==> sent == [])
      ensures initialized && |sent| < |msgs| ==> |sent| < |script.refusals| && script.refusals[|sent|].Some?
      ensures SentFor(rc, msgs, f, stamps, script.Answers(|msgs|), sent)
      ensures CanWrite(h, written)
      ensures ok ==> Confirmed(RetryWith(rc), msgs, written)
    {
      if !initialized {
        return false, [], [];
      }
      sent, written := SendAll(h, msgs, f, stamps, script.Answers(|msgs|));
      if |sent| < |msgs| {
        assert !script.Acknowledges(|sent|);
        return false, sent, written;
      }
      forall i | 0 <= i < |msgs|
        ensures !script.Refuses(i)
      {
        assert script.Answers(|msgs|)[i] == script.AnswerTo(i);
      }
      var failures := AwaitWrites(script, |msgs|);
      ok := failures == [];
      NoFailures(failures, |msgs|, script);
    }
  }

  lemma NoFailures(failures: seq<nat>, n: nat, script: SendScript)
    requires forall i :: i in failures <==> 0 <= i < n && !script.Acknowledges(i)
    ensures failures == [] <==> forall i :: 0 <= i < n ==> script.Acknowledges(i)
  {
    if failures != [] {
      assert failures[0] in failures;
    }
  }

  /** The records are those of the first messages, in order, each accepted by the local queue. */
  ghost predicate SentFor(
    rc: RetryConfig, msgs: seq<Message>, f: Failure, stamps: seq<Stamps>, answers: seq<SendAnswer>, sent: seq<Record>)
    requires |stamps| == |answers| == |msgs|
  {
    && |sent| <= |msgs|
    && forall i :: 0 <= i < |sent| ==> !answers[i].NotQueued? && IsRecordFor(rc, msgs[i], f, stamps[i], sent[i])
  }

  predicate HasEntry(rc: RetryConfig, msg: Message, written: seq<Message>) {
    exists w :: w in written && Carries(rc, msg, w)
  }

  /** Each of the first `n` messages whose record was acknowledged has a log entry. */
  ghost predicate Entered(rc: RetryConfig, msgs: seq<Message>, answers: seq<SendAnswer>, n: nat, written: seq<Message>)
    requires n <= |msgs| == |answers|
  {
    forall i :: 0 <= i < n && answers[i].Acked? ==> HasEntry(rc, msgs[i], written)
  }

  lemma EnteredOneMore(
    rc: RetryConfig, msgs: seq<Message>, answers: seq<SendAnswer>, n: nat, written: seq<Message>, now: seq<Message>)
    requires n < |msgs| == |answers| && Entered(rc, msgs, answers, n, written) && written <= now
    requires answers[n].Acked? ==> HasEntry(rc, msgs[n], now)
    ensures Entered(rc, msgs, answers, n + 1, now)
  {
    forall k | 0 <= k < n && answers[k].Acked?
      ensures HasEntry(rc, msgs[k], now)
    {
      var w :| w in written && Carries(rc, msgs[k], w);
      assert w in now;
    }
  }

  lemma SentOneMore(
    rc: RetryConfig, msgs: seq<Message>, f: Failure, stamps: seq<Stamps>, answers: seq<SendAnswer>, sent: seq<Record>,
    record: Record)
    requires |stamps| == |answers| == |msgs| && SentFor(rc, msgs, f, stamps, answers, sent) && |sent| < |msgs|
    requires !answers[|sent|].NotQueued? && IsRecordFor(rc, msgs[|sent|], f, stamps[|sent|], record)
    ensures SentFor(rc, msgs, f, stamps, answers, sent + [record])
  {
  }

  /** An acknowledged record carries the message it was written for. */
  lemma EntryCarries(rc: RetryConfig, h: History, msg: Message, f: Failure, stamps: Stamps, record: Record, answer: SendAnswer)
    requires IsRecordFor(rc, msg, f, stamps, record) && answer.Acked? && ProperKeys(msg.headers)
    ensures Carries(rc, msg, Entry(h, record, answer))
  {
    var entry := Entry(h, record, answer);
    var hop := Hop(f, stamps, entry.partition, entry.offset);
    RecordIsHop(rc, msg, hop, record);
    HopCarries(rc, msg, hop);
  }

  lemma OneMoreWrite(h: History, written: seq<Message>, entry: Message)
    requires CanWrite(h, written) && entry.offset >= WriteAll(h, written).End(entry.Tp()) && ProperKeys(entry.headers)
    ensures CanWrite(h, written + [entry])
  {
    assert (written + [entry])[..|written|] == written;
  }
}
