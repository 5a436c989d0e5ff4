/** Error translation: internal/publish/publishdriver/event.go. */
module KafkaErrors {

  /** librdkafka's error codes, as far as the library tells them apart. */
  datatype Code =
    | MsgTimedOut | PurgeQueue | PurgeInflight | QueueFull | FatalCode
    | AllBrokersDown | Transport | OtherCode(name: string)

  /** The publish sentinels an error can unwrap to. */
  datatype Sentinel = NoSentinel | ErrDeliveryTimeout | ErrNotDelivered | ErrQueueFull | ErrFatal

  datatype KafkaError = KafkaError(code: Code, sentinel: Sentinel, fatal: bool, disconnected: bool)

  /** TranslateError, of an error with this code and this fatal flag. */
  function Translate(code: Code, isFatal: bool): KafkaError {
    var fatal := isFatal || code.FatalCode?;
    KafkaError(
      code,
      match code
      case MsgTimedOut => ErrDeliveryTimeout
      case PurgeQueue => ErrNotDelivered
      case PurgeInflight => ErrNotDelivered
      case QueueFull => ErrQueueFull
      case _ => if fatal then ErrFatal else NoSentinel,
      fatal,
      code.AllBrokersDown? || code.Transport?)
  }

  /** The fatal error a publisher records: the driver's error, wrapped in ErrFatal if need be. */
  datatype FatalError = FatalError(cause: KafkaError, wrapped: bool)

  /** errors.Is(err, ErrFatal). */
  predicate IsErrFatal(f: FatalError) {
    f.wrapped || f.cause.sentinel == ErrFatal
  }

  /** The first lines of noteFatal. */
  function AsFatal(err: KafkaError): (f: FatalError)
    ensures IsErrFatal(f) && f.cause == err && (f.wrapped || err.sentinel == ErrFatal)
  {
    FatalError(err, !err.sentinel.ErrFatal?)
  }

  /**
   Translation attaches ErrFatal to a fatal error exactly when the code has no sentinel of its own:
   a fatal event that carries a timeout, purge or queue-full code needs noteFatal's wrapping.
   */
  lemma WhenWrappingIsNeeded(code: Code, isFatal: bool)
    requires Translate(code, isFatal).fatal
    ensures AsFatal(Translate(code, isFatal)).wrapped <==>
            code in {MsgTimedOut, PurgeQueue, PurgeInflight, QueueFull}
  {
    match code
    case OtherCode(_) =>
    case _ =>
  }

  /** What translation tells: which sentinel errors.Is finds, and the two flags. */
  lemma TranslationMeans(code: Code, isFatal: bool)
    ensures var e := Translate(code, isFatal);
            && e.code == code
            && (e.fatal <==> isFatal || code == FatalCode)
            && (e.disconnected <==> code == AllBrokersDown || code == Transport)
            && (e.sentinel == ErrDeliveryTimeout <==> code == MsgTimedOut)
            && (e.sentinel == ErrNotDelivered <==> code == PurgeQueue || code == PurgeInflight)
            && (e.sentinel == ErrQueueFull <==> code == QueueFull)
            && (e.sentinel == ErrFatal <==> e.fatal && code !in {MsgTimedOut, PurgeQueue, PurgeInflight, QueueFull})
  {
    match code
    case OtherCode(_) =>
    case _ =>
  }
}
