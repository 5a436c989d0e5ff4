/**
 The retry/DLQ ladder as values: which record a failed message becomes, and what any
 number of such hops keeps (HandleError, sendToRetryQueue and sendToDLQ in
 internal/subscribe/strategy/retry.go).
 */
module Ladder {
  import opened Types
  import opened Decimal
  import opened Headers
  import opened Wire

  /** The retry strategy's settings that decide where a record goes. */
  datatype RetryConfig = RetryConfig(retryTopic: string, dlqTopic: string, maxAttempts: int)

  /** NewRetryStrategy accepts nothing else. */
  predicate ValidConfig(rc: RetryConfig) {
    rc.retryTopic != "" && rc.dlqTopic != "" && 1 <= rc.maxAttempts <= INT64_MAX
  }

  /** The two times a republished record carries, formatted. */
  datatype Stamps = Stamps(failedAt: string, retryTime: string)

  predicate Permanent(f: Failure) {
    f.err.Some? && f.err.value.permanent
  }

  /** `attempt++` on a Go int, which wraps. */
  function NextAttempt(msg: Message): (attempt: int)
    ensures IsInt64(attempt)
  {
    if AttemptOf(msg) == INT64_MAX then INT64_MIN else AttemptOf(msg) + 1
  }

  predicate GoesToDlq(rc: RetryConfig, msg: Message, f: Failure) {
    Permanent(f) || NextAttempt(msg) >= rc.maxAttempts
  }

  function TargetTopic(rc: RetryConfig, msg: Message, f: Failure): string {
    if GoesToDlq(rc, msg, f) then rc.dlqTopic else rc.retryTopic
  }

  function RepublishedHeaders(rc: RetryConfig, msg: Message, f: Failure, stamps: Stamps): HeaderMap {
    var shared := FailureHeaders(msg, NextAttempt(msg), f, stamps.failedAt);
    if GoesToDlq(rc, msg, f) then shared else shared[Lib(RetryTime) := stamps.retryTime]
  }

  /** The record a failed message is written as. */
  ghost predicate IsRecordFor(rc: RetryConfig, msg: Message, f: Failure, stamps: Stamps, record: Record) {
    && record.topic == TargetTopic(rc, msg, f)
    && record.key == msg.key
    && record.value == msg.payload
    && IsSortedListing(record.headers, TextMap(RepublishedHeaders(rc, msg, f, stamps)))
  }

  /** A record at the position the broker gave it, as Poll will hand it to a consumer. */
  function Landed(record: Record, partition: int, offset: nat): Message {
    Message(record.topic, partition, offset, record.key, FromText(FromWire(record.headers)), record.value)
  }

  /** Any record at all is consumed with its header keys in proper form. */
  lemma LandedIsProper(record: Record, partition: int, offset: nat)
    ensures ProperKeys(Landed(record, partition, offset).headers)
  {
    FromTextProper(FromWire(record.headers));
  }

  /** One hop: the failure, the times, and where the broker put the new record. */
  datatype Hop = Hop(f: Failure, stamps: Stamps, partition: int, offset: nat)

  /** A message after one hop. */
  function HopOnce(rc: RetryConfig, msg: Message, hop: Hop): Message {
    Message(TargetTopic(rc, msg, hop.f), hop.partition, hop.offset, msg.key,
            RepublishedHeaders(rc, msg, hop.f, hop.stamps), msg.payload)
  }

  /** A message after any number of hops. */
  function Climb(rc: RetryConfig, msg: Message, hops: seq<Hop>): Message {
    if hops == [] then msg
    else HopOnce(rc, Climb(rc, msg, hops[..|hops| - 1]), hops[|hops| - 1])
  }

  // --- The wire keeps what the headers say

  lemma RepublishedHeadersProper(rc: RetryConfig, msg: Message, f: Failure, stamps: Stamps)
    requires ProperKeys(msg.headers)
    ensures ProperKeys(RepublishedHeaders(rc, msg, f, stamps))
  {
    forall key | key in RepublishedHeaders(rc, msg, f, stamps)
      ensures KeyOf(HeaderText(key)) == key
    {
      match key
      case Lib(header) => KeyTextBijection("", header);
      case App(name) => assert key in msg.headers;
    }
  }

  /** The record is consumed as exactly the message one hop predicts: sorting and re-reading lose nothing. */
  lemma RecordIsHop(rc: RetryConfig, msg: Message, hop: Hop, record: Record)
    requires ProperKeys(msg.headers)
    requires IsRecordFor(rc, msg, hop.f, hop.stamps, record)
    ensures Landed(record, hop.partition, hop.offset) == HopOnce(rc, msg, hop)
    ensures ProperKeys(HopOnce(rc, msg, hop).headers)
  {
    var headers := RepublishedHeaders(rc, msg, hop.f, hop.stamps);
    RepublishedHeadersProper(rc, msg, hop.f, hop.stamps);
    HeaderListRoundTrip(record.headers, TextMap(headers));
    TextRoundTrip(headers);
  }

  // --- What one hop keeps

  /** `next` stands for the same source record as `msg`, one attempt later. */
  predicate Carries(rc: RetryConfig, msg: Message, next: Message) {
    && (next.topic == rc.dlqTopic || (next.topic == rc.retryTopic && AttemptOf(next) < rc.maxAttempts))
    && next.key == msg.key
    && next.payload == msg.payload
    && AppHeaders(next.headers) == AppHeaders(msg.headers)
    && AttemptOf(next) == NextAttempt(msg)
    && Lookup(next.headers, OriginalTopic) == OriginOf(msg).topic
    && Lookup(next.headers, OriginalPartition) == OriginOf(msg).partition
    && Lookup(next.headers, OriginalOffset) == OriginOf(msg).offset
  }

  /** What a republished record's headers say about the failure that produced it. */
  ghost predicate Says(headers: HeaderMap, msg: Message, f: Failure) {
    && Lookup(headers, RetryAttempt) == Print(NextAttempt(msg))
    && Lookup(headers, RetryStep) == (if ResolveStep(msg, f) != 0 then Print(ResolveStep(msg, f)) else "")
    && Lookup(headers, ErrorCode) == ResolveErrorCode(f)
    && Lookup(headers, OriginalTopic) == OriginOf(msg).topic
    && Lookup(headers, OriginalPartition) == OriginOf(msg).partition
    && Lookup(headers, OriginalOffset) == OriginOf(msg).offset
    && AppHeaders(headers) == AppHeaders(msg.headers)
  }

  lemma FailureHeadersSay(msg: Message, f: Failure, failedAt: string)
    ensures Says(FailureHeaders(msg, NextAttempt(msg), f, failedAt), msg, f)
    ensures Lib(RetryTime) !in FailureHeaders(msg, NextAttempt(msg), f, failedAt)
  {
  }

  lemma RepublishedSays(rc: RetryConfig, msg: Message, f: Failure, stamps: Stamps)
    ensures Says(RepublishedHeaders(rc, msg, f, stamps), msg, f)
    ensures Lib(RetryTime) in RepublishedHeaders(rc, msg, f, stamps) <==> !GoesToDlq(rc, msg, f)
  {
    FailureHeadersSay(msg, f, stamps.failedAt);
    var shared := FailureHeaders(msg, NextAttempt(msg), f, stamps.failedAt);
    assert AppHeaders(shared[Lib(RetryTime) := stamps.retryTime]) == AppHeaders(shared);
  }

  lemma SaysCarries(rc: RetryConfig, msg: Message, f: Failure, next: Message)
    requires Says(next.headers, msg, f)
    requires next.key == msg.key && next.payload == msg.payload && next.topic == TargetTopic(rc, msg, f)
    ensures Carries(rc, msg, next)
  {
    ParsePrint(NextAttempt(msg));
  }

  lemma HopCarries(rc: RetryConfig, msg: Message, hop: Hop)
    ensures Carries(rc, msg, HopOnce(rc, msg, hop))
  {
    RepublishedSays(rc, msg, hop.f, hop.stamps);
    SaysCarries(rc, msg, hop.f, HopOnce(rc, msg, hop));
  }

  lemma CarriesOrigin(rc: RetryConfig, msg: Message, next: Message)
    requires Carries(rc, msg, next)
    requires OriginOf(msg).topic != ""
    ensures OriginOf(next) == OriginOf(msg)
  {
    ParsePrint(msg.partition);
    ParsePrint(msg.offset);
  }

  lemma SaysStep(msg: Message, f: Failure, next: Message)
    requires Says(next.headers, msg, f) && IsInt32(f.step)
    ensures StepOf(next) == ResolveStep(msg, f)
  {
    ParsePrint(ResolveStep(msg, f));
    assert ParseSigned("") == None;
  }

  // --- What any number of hops keeps

  /** The latest non-zero step reported, or the one the message arrived with. */
  function LatestStep(hops: seq<Hop>, arrived: int): int {
    if hops == [] then arrived
    else if hops[|hops| - 1].f.step != 0 then hops[|hops| - 1].f.step
    else LatestStep(hops[..|hops| - 1], arrived)
  }

  /** After any number of hops: identity, content and resume point are those of the first message. */
  lemma {:induction false} ClimbKeeps(rc: RetryConfig, msg: Message, hops: seq<Hop>)
    requires OriginOf(msg).topic != ""
    requires forall k :: 0 <= k < |hops| ==> IsInt32(hops[k].f.step)
    ensures var top := Climb(rc, msg, hops);
            && OriginOf(top) == OriginOf(msg)
            && top.key == msg.key && top.payload == msg.payload
            && AppHeaders(top.headers) == AppHeaders(msg.headers)
            && StepOf(top) == LatestStep(hops, StepOf(msg))
  {
    if hops != [] {
      var front, hop := hops[..|hops| - 1], hops[|hops| - 1];
      ClimbKeeps(rc, msg, front);
      var below := Climb(rc, msg, front);
      HopCarries(rc, below, hop);
      CarriesOrigin(rc, below, HopOnce(rc, below, hop));
      RepublishedSays(rc, below, hop.f, hop.stamps);
      SaysStep(below, hop.f, HopOnce(rc, below, hop));
    }
  }

  /** A source record: nothing in its headers is the library's. */
  ghost predicate FirstHand(msg: Message) {
    msg.topic != "" && forall header :: Lib(header) !in msg.headers
  }

  lemma FirstHandReads(source: Message)
    requires FirstHand(source)
    ensures AttemptOf(source) == 0 && StepOf(source) == 0
    ensures AppHeaders(source.headers) == source.headers
    ensures OriginOf(source) == Origin(source.topic, Print(source.partition), Print(source.offset))
  {
    assert ParseSigned("") == None;
  }

  /** Provenance over any number of hops, read off the headers of the last record alone. */
  lemma Provenance(rc: RetryConfig, source: Message, hops: seq<Hop>)
    requires FirstHand(source) && hops != []
    requires forall k :: 0 <= k < |hops| ==> IsInt32(hops[k].f.step)
    ensures var top := Climb(rc, source, hops);
            && Lookup(top.headers, OriginalTopic) == source.topic
            && ParseSigned(Lookup(top.headers, OriginalPartition)) == Some(source.partition)
            && ParseSigned(Lookup(top.headers, OriginalOffset)) == Some(source.offset)
            && top.key == source.key && top.payload == source.payload
            && AppHeaders(top.headers) == source.headers
            && StepOf(top) == LatestStep(hops, 0)
            && Lookup(top.headers, ErrorCode) == ResolveErrorCode(hops[|hops| - 1].f)
            && (Lib(RetryTime) in top.headers <==>
                !GoesToDlq(rc, Climb(rc, source, hops[..|hops| - 1]), hops[|hops| - 1].f))
  {
    var front, hop := hops[..|hops| - 1], hops[|hops| - 1];
    FirstHandReads(source);
    ClimbKeeps(rc, source, front);
    ClimbKeeps(rc, source, hops);
    RepublishedSays(rc, Climb(rc, source, front), hop.f, hop.stamps);
    ParsePrint(source.partition);
    ParsePrint(source.offset);
  }

  // --- How long the ladder is

  /**
   Where a failed message goes: to the DLQ if its error is permanent, and otherwise exactly at the last
   attempt, unless the counter wraps; else to the retry topic.
   */
  lemma WhereItGoes(rc: RetryConfig, msg: Message, hop: Hop)
    requires ValidConfig(rc)
    ensures var f, topic := hop.f, HopOnce(rc, msg, hop).topic;
            && (f.err.Some? && f.err.value.permanent ==> topic == rc.dlqTopic && GoesToDlq(rc, msg, f))
            && (!(f.err.Some? && f.err.value.permanent) ==>
                  topic == if AttemptOf(msg) + 1 >= rc.maxAttempts && AttemptOf(msg) != INT64_MAX then rc.dlqTopic else rc.retryTopic)
  {
  }

  /** When a non-permanent failure ends the ladder: at the last attempt, unless the counter wraps. */
  lemma LadderEnd(rc: RetryConfig, msg: Message, f: Failure)
    requires ValidConfig(rc) && !(f.err.Some? && f.err.value.permanent)
    ensures GoesToDlq(rc, msg, f) <==> AttemptOf(msg) + 1 >= rc.maxAttempts && AttemptOf(msg) != INT64_MAX
  {
  }

  /** A message whose attempt header is the largest Go int is retried, not dead-lettered: the counter wraps. */
  lemma CounterWraps(rc: RetryConfig, msg: Message, hop: Hop)
    requires ValidConfig(rc) && !(hop.f.err.Some? && hop.f.err.value.permanent) && AttemptOf(msg) == INT64_MAX
    ensures HopOnce(rc, msg, hop).topic == rc.retryTopic
    ensures AttemptOf(HopOnce(rc, msg, hop)) == INT64_MIN
  {
    HopCarries(rc, msg, hop);
  }

  /** Every hop but the last is a retry record, and the last is a DLQ record. */
  ghost predicate CompleteLadder(rc: RetryConfig, msg: Message, hops: seq<Hop>) {
    && hops != []
    && (forall k :: 0 <= k < |hops| - 1 ==> !GoesToDlq(rc, Climb(rc, msg, hops[..k]), hops[k].f))
    && GoesToDlq(rc, Climb(rc, msg, hops[..|hops| - 1]), hops[|hops| - 1].f)
  }

  /** The most times a message that arrives after `attempt` failures is handled. */
  function AttemptsLeft(rc: RetryConfig, attempt: int): int {
    if rc.maxAttempts - attempt >= 1 then rc.maxAttempts - attempt else 1
  }

  /** The attempt header counts the hops, as long as they stay below the limit. */
  lemma {:induction false} ClimbCounts(rc: RetryConfig, msg: Message, hops: seq<Hop>)
    requires ValidConfig(rc) && AttemptOf(msg) + |hops| <= INT64_MAX
    ensures AttemptOf(Climb(rc, msg, hops)) == AttemptOf(msg) + |hops|
  {
    if hops != [] {
      var front := hops[..|hops| - 1];
      ClimbCounts(rc, msg, front);
      HopCarries(rc, Climb(rc, msg, front), hops[|hops| - 1]);
    }
  }

  /**
   A ladder is complete exactly when it is as long as the attempts allow, or stops at its
   first permanent failure before that.  The length is therefore determined by the failures alone.
   */
  lemma LadderExact(rc: RetryConfig, msg: Message, hops: seq<Hop>)
    requires ValidConfig(rc) && AttemptOf(msg) != INT64_MAX && hops != []
    requires AttemptOf(msg) + |hops| <= INT64_MAX
    ensures CompleteLadder(rc, msg, hops) <==>
            && |hops| <= AttemptsLeft(rc, AttemptOf(msg))
            && (forall k :: 0 <= k < |hops| - 1 ==> !(hops[k].f.err.Some? && hops[k].f.err.value.permanent))
            && ((hops[|hops| - 1].f.err.Some? && hops[|hops| - 1].f.err.value.permanent)
                || |hops| == AttemptsLeft(rc, AttemptOf(msg)))
  {
    forall k | 0 <= k < |hops|
      ensures GoesToDlq(rc, Climb(rc, msg, hops[..k]), hops[k].f) <==>
              Permanent(hops[k].f) || AttemptOf(msg) + k + 1 >= rc.maxAttempts
    {
      ClimbCounts(rc, msg, hops[..k]);
      if !Permanent(hops[k].f) {
        LadderEnd(rc, Climb(rc, msg, hops[..k]), hops[k].f);
      }
    }
    if CompleteLadder(rc, msg, hops) && |hops| > 1 {
      var k := |hops| - 2;
      assert !GoesToDlq(rc, Climb(rc, msg, hops[..k]), hops[k].f);
    }
    forall k | 0 <= k < |hops| - 1 && CompleteLadder(rc, msg, hops)
      ensures !Permanent(hops[k].f)
    {
      assert !GoesToDlq(rc, Climb(rc, msg, hops[..k]), hops[k].f);
    }
  }

  /** On a complete ladder every record before the last is on the retry topic, and the last is on the DLQ topic. */
  lemma RungsAndEnd(rc: RetryConfig, msg: Message, hops: seq<Hop>)
    requires CompleteLadder(rc, msg, hops)
    ensures forall k :: 0 < k < |hops| ==> Climb(rc, msg, hops[..k]).topic == rc.retryTopic
    ensures Climb(rc, msg, hops).topic == rc.dlqTopic
  {
    forall k | 0 < k < |hops|
      ensures Climb(rc, msg, hops[..k]).topic == rc.retryTopic
    {
      assert hops[..k][..k - 1] == hops[..k - 1];
      assert !GoesToDlq(rc, Climb(rc, msg, hops[..k - 1]), hops[k - 1].f);
    }
  }

  /** A source record that always fails without ErrPermanent is handled maxAttempts times, then dead-lettered. */
  lemma AlwaysFailing(rc: RetryConfig, source: Message, hops: seq<Hop>)
    requires ValidConfig(rc) && FirstHand(source)
    requires |hops| == rc.maxAttempts
    requires forall k :: 0 <= k < |hops| ==> !(hops[k].f.err.Some? && hops[k].f.err.value.permanent)
    ensures CompleteLadder(rc, source, hops)
    ensures forall k :: 0 < k < |hops| ==> Climb(rc, source, hops[..k]).topic == rc.retryTopic
    ensures Climb(rc, source, hops).topic == rc.dlqTopic
    ensures AttemptOf(Climb(rc, source, hops)) == rc.maxAttempts
  {
    FirstHandReads(source);
    LadderExact(rc, source, hops);
    RungsAndEnd(rc, source, hops);
    ClimbCounts(rc, source, hops);
  }

  /** A permanent failure at a hop ends the ladder in the DLQ at that hop, whatever attempts are left. */
  lemma PermanentEndsLadder(rc: RetryConfig, source: Message, hops: seq<Hop>)
    requires ValidConfig(rc) && FirstHand(source) && hops != [] && |hops| <= rc.maxAttempts
    requires forall k :: 0 <= k < |hops| - 1 ==> !(hops[k].f.err.Some? && hops[k].f.err.value.permanent)
    requires var f := hops[|hops| - 1].f; f.err.Some? && f.err.value.permanent
    ensures CompleteLadder(rc, source, hops)
    ensures forall k :: 0 < k < |hops| ==> Climb(rc, source, hops[..k]).topic == rc.retryTopic
    ensures Climb(rc, source, hops).topic == rc.dlqTopic
  {
    FirstHandReads(source);
    LadderExact(rc, source, hops);
    RungsAndEnd(rc, source, hops);
  }

  /**
   What the last record says of its own failure: the code the handler gave, or a generic one for an
   error without, the error's text, the two times, and a retry time only outside the DLQ.
   */
  lemma SaysItsFailure(rc: RetryConfig, msg: Message, hop: Hop)
    ensures var headers, f := HopOnce(rc, msg, hop).headers, hop.f;
            && Lookup(headers, ErrorCode) == (if f.code != "" then f.code else if f.err.Some? then "HANDLER_ERROR" else "")
            && Lookup(headers, ErrorMessage) == (if f.err.Some? then f.err.value.text else "")
            && Lookup(headers, FailedAt) == hop.stamps.failedAt
            && Lookup(headers, RetryTime) == (if GoesToDlq(rc, msg, f) then "" else hop.stamps.retryTime)
  {
    FailureHeadersSay(msg, hop.f, hop.stamps.failedAt);
    FailureText(msg, NextAttempt(msg), hop.f, hop.stamps.failedAt);
  }

  lemma FailureText(msg: Message, attempt: int, f: Failure, failedAt: string)
    ensures var headers := FailureHeaders(msg, attempt, f, failedAt);
            && Lookup(headers, ErrorCode) == ResolveErrorCode(f)
            && Lookup(headers, ErrorMessage) == ErrorText(f.err)
            && Lookup(headers, FailedAt) == failedAt
  {
  }
}
