/**
 Retry metadata in record headers: internal/subscribe/metadata/headers.go.

 Timestamps arrive already formatted; nothing here reads them back.
 */
module Headers {
  import opened Types
  import opened Decimal

  function Lookup(headers: HeaderMap, key: LibHeader): string {
    if Lib(key) in headers then headers[Lib(key)] else ""
  }

  /** GetRetryAttempt: 0 when the header is absent or does not parse. */
  function AttemptOf(msg: Message): (attempt: int)
    ensures IsInt64(attempt)
  {
    var parsed := ParseInt64(Lookup(msg.headers, RetryAttempt));
    if parsed.Some? then parsed.value else 0
  }

  /** GetRetryStep: 0 when the header is absent, does not parse, or leaves 32 bits. */
  function StepOf(msg: Message): (step: int)
    ensures IsInt32(step)
  {
    var parsed := ParseInt32(Lookup(msg.headers, RetryStep));
    if parsed.Some? then parsed.value else 0
  }

  function ResolveStep(msg: Message, f: Failure): int {
    if f.step != 0 then f.step else StepOf(msg)
  }

  function ClassifyError(err: Option<Error>): string {
    if err.None? then "" else "HANDLER_ERROR"
  }

  function ResolveErrorCode(f: Failure): string {
    if f.code != "" then f.code else ClassifyError(f.err)
  }

  function ErrorText(err: Option<Error>): string {
    if err.None? then "" else err.value.text
  }

  function ResolveOriginal(msg: Message, key: LibHeader, current: string): string {
    if Lookup(msg.headers, key) != "" then Lookup(msg.headers, key) else current
  }

  /** The headers a record arrived with that are the application's own. */
  function AppHeaders(headers: HeaderMap): HeaderMap {
    map key | key in headers && key.App? :: headers[key]
  }

  /** The source record a message stands for: inherited, or itself on the first hop. */
  datatype Origin = Origin(topic: string, partition: string, offset: string)

  function OriginOf(msg: Message): Origin {
    Origin(
      ResolveOriginal(msg, OriginalTopic, msg.topic),
      ResolveOriginal(msg, OriginalPartition, Print(msg.partition)),
      ResolveOriginal(msg, OriginalOffset, Print(msg.offset)))
  }

  /** The headers a failed message is republished with: what BuildFailureHeaders computes. */
  function FailureHeaders(msg: Message, attempt: int, f: Failure, failedAt: string): HeaderMap {
    var step := ResolveStep(msg, f);
    var origin := OriginOf(msg);
    var counted := AppHeaders(msg.headers)[Lib(RetryAttempt) := Print(attempt)];
    var stepped := if step != 0 then counted[Lib(RetryStep) := Print(step)] else counted;
    stepped[Lib(ErrorCode) := ResolveErrorCode(f)]
           [Lib(ErrorMessage) := ErrorText(f.err)]
           [Lib(OriginalTopic) := origin.topic]
           [Lib(OriginalPartition) := origin.partition]
           [Lib(OriginalOffset) := origin.offset]
           [Lib(FailedAt) := failedAt]
  }

  /** The first half of buildFailureHeaders: the loop over the inbound headers. */
  method CopyAppHeaders(inbound: HeaderMap) returns (headers: HeaderMap)
    ensures headers == AppHeaders(inbound)
  {
    headers := map[];
    var left := inbound.Keys;
    while left != {}
      invariant left <= inbound.Keys
      invariant headers == map key | key in inbound && key !in left && key.App? :: inbound[key]
      decreases |left|
    {
      var key :| key in left;
      left := left - {key};
      if key.App? {
        headers := headers[key := inbound[key]];
      }
    }
  }

  /** buildFailureHeaders: the application's headers, then the library's own, one by one. */
  method BuildFailureHeaders(msg: Message, attempt: int, f: Failure, failedAt: string) returns (headers: HeaderMap)
    ensures headers == FailureHeaders(msg, attempt, f, failedAt)
  {
    headers := CopyAppHeaders(msg.headers);
    headers := headers[Lib(RetryAttempt) := Print(attempt)];
    var step := ResolveStep(msg, f);
    if step != 0 {
      headers := headers[Lib(RetryStep) := Print(step)];
    }
    headers := headers[Lib(ErrorCode) := ResolveErrorCode(f)];
    headers := headers[Lib(ErrorMessage) := ErrorText(f.err)];
    headers := headers[Lib(OriginalTopic) := ResolveOriginal(msg, OriginalTopic, msg.topic)];
    headers := headers[Lib(OriginalPartition) := ResolveOriginal(msg, OriginalPartition, Print(msg.partition))];
    headers := headers[Lib(OriginalOffset) := ResolveOriginal(msg, OriginalOffset, Print(msg.offset))];
    headers := headers[Lib(FailedAt) := failedAt];
  }

  /** BuildRetryHeaders: the shared headers, and when the record is due. */
  method BuildRetryHeaders(msg: Message, attempt: int, retryTime: string, f: Failure, failedAt: string)
    returns (headers: HeaderMap)
    ensures headers == FailureHeaders(msg, attempt, f, failedAt)[Lib(RetryTime) := retryTime]
  {
    headers := BuildFailureHeaders(msg, attempt, f, failedAt);
    headers := headers[Lib(RetryTime) := retryTime];
  }

  /** The counters come back as they were written, and read as zero when absent or out of range. */
  lemma CountersReadBack(msg: Message, n: int)
    ensures Lookup(msg.headers, RetryAttempt) == Print(n) ==> AttemptOf(msg) == if IsInt64(n) then n else 0
    ensures Lookup(msg.headers, RetryStep) == Print(n) ==> StepOf(msg) == if IsInt32(n) then n else 0
    ensures Lib(RetryAttempt) !in msg.headers ==> AttemptOf(msg) == 0
    ensures Lib(RetryStep) !in msg.headers ==> StepOf(msg) == 0
  {
    ParsePrint(n);
    assert ParseSigned("") == None;
  }
}
