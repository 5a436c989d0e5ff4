/**
 The values that travel between the driver, the handler and the error strategy.

 Go strings and byte slices are both modelled as `string`: the library only ever
 compares, copies and concatenates them.  A nil slice is `None`.
 */
module Types {

  datatype Option<+T> = None | Some(value: T)

  type Bytes = string

  /** One partition of one topic: what an offset is relative to. */
  datatype TopicPartition = TopicPartition(topic: string, partition: int)

  /** The nine headers the library writes itself; HeaderText in Headers gives their spelling. */
  datatype LibHeader =
    | RetryAttempt | RetryTime | RetryStep | ErrorCode | ErrorMessage
    | OriginalTopic | OriginalPartition | OriginalOffset | FailedAt

  /** A header key: one of the library's nine, or any other string. */
  datatype HeaderKey = Lib(header: LibHeader) | App(name: string)

  type HeaderMap = map<HeaderKey, string>

  /** A consumed record, as Poll hands it over.  A `None` payload is a tombstone. */
  datatype Message = Message(
    topic: string,
    partition: int,
    offset: nat,
    key: Option<Bytes>,
    headers: HeaderMap,
    payload: Option<Bytes>)
  {
    function Tp(): TopicPartition {
      TopicPartition(topic, partition)
    }
  }

  /** An error value: its text, and whether ErrPermanent is in its chain. */
  datatype Error = Error(text: string, permanent: bool)

  /** What a handler reports about a message it could not process. */
  datatype Failure = Failure(err: Option<Error>, step: int, code: string)

  const INT32_MIN: int := -0x8000_0000
  const INT32_MAX: int := 0x7fff_ffff
  const INT64_MIN: int := -0x8000_0000_0000_0000
  const INT64_MAX: int := 0x7fff_ffff_ffff_ffff

  predicate IsInt32(n: int) {
    INT32_MIN <= n <= INT32_MAX
  }

  predicate IsInt64(n: int) {
    INT64_MIN <= n <= INT64_MAX
  }
}
