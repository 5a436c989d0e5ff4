/**
 The publisher's delivery protocol (publish/publisher.go): any number of goroutines in enqueue
 and in Close, and the one report goroutine, one atomic step at a time.

 The driver is what the comment of its Producer interface promises
 (internal/publish/publishdriver/producer.go:14-40): it reports each record it accepted, at any
 time, until Close, and drops without a report what it still holds then.  Besides these reports it
 may emit anything: client errors, foreign tokens, second reports.
 */
module PublisherProtocol {
  import opened Types
  import opened KafkaErrors
  import opened Settlement

  type ThreadId = nat

  /** A record, and its delivery, is named by its number among the records accepted by Produce. */
  type RecordId = nat

  /** What Close returns: nil if nothing is undelivered and there was no fatal error. */
  datatype CloseError = CloseError(undelivered: nat, fatal: Option<FatalError>)
  {
    predicate IsNil() {
      undelivered == 0 && fatal.None?
    }
  }

  /** How far the Close that shuts down has come. */
  datatype Stage = Draining | Purging | Flushing | Closing | Joining | Summing | Announcing

  datatype Pc =
    | Idle
    | Holding                       // enqueue: read lock taken
    | Unclosed                      // closed was false
    | Cleared                       // and there was no fatal error: Produce is next
    | Leaving(got: Option<RecordId>)   // about to unlock and return
    | Deciding                      // Close: write lock taken
    | Waiting                       // another Close is shutting down
    | Shutting(stage: Stage, remaining: nat)
    | Returned(err: CloseError)     // Close has returned

  datatype State = State(
    pc: map<ThreadId, Pc>,
    readers: set<ThreadId>,
    writer: Option<ThreadId>,
    closed: bool,
    closer: Option<ThreadId>,       // whose Close set closed
    produced: nat,                  // records accepted by the driver
    returned: set<RecordId>,           // deliveries that enqueue has returned
    held: set<RecordId>,               // records the driver has not reported yet
    purgeLeft: nat,                 // what the Flush after Purge answered; the code ignores it
    open: bool,                     // the reports channel is open
    dropped: set<RecordId>,            // what the driver held when it was closed
    events: seq<Event<RecordId>>,      // everything ever put on the reports channel
    taken: nat,                     // how many of them were read
    reportsDone: bool,
    closeErr: Option<CloseError>,   // None until written
    closeDone: bool)
  {
    function At(t: ThreadId): Pc {
      if t in pc then pc[t] else Idle
    }

    /** What the report goroutine has done so far. */
    function Book(): Book<RecordId>
      requires taken <= |events|
    {
      ReadAll(Empty(), events[..taken])
    }

    function Go(t: ThreadId, to: Pc): State {
      this.(pc := pc[t := to])
    }
  }

  function Init(): State {
    State(map[], {}, None, false, None, 0, {}, {}, 0, true, {}, [], 0, false, None, false)
  }

  datatype Label =
    // enqueue
    | RLock(t: ThreadId)
    | CheckClosed(t: ThreadId)
    | CheckFatal(t: ThreadId)
    | Produce(t: ThreadId, accepted: bool)
    | RUnlock(t: ThreadId)
    // Close
    | Lock(t: ThreadId)
    | Decide(t: ThreadId)
    | Drained(t: ThreadId, count: nat, ended: bool)  // Len or Flush answers; ended: so has the context
    | Purge(t: ThreadId)
    | PurgeFlushed(t: ThreadId, count: nat)
    | CloseDriver(t: ThreadId)
    | Join(t: ThreadId)
    | SetCloseErr(t: ThreadId)
    | Announce(t: ThreadId)
    | Wake(t: ThreadId)
    // the driver
    | HandOn(token: RecordId, partition: int, offset: int, err: Option<KafkaError>, panics: bool)
    | Emit(event: Event<RecordId>)
    // the report goroutine
    | Read
    | EndReports

  predicate Names(event: Event<RecordId>, d: RecordId) {
    event.Delivered? && event.report.token == Mine(d)
  }

  /** Anything but a first report: if it names a record of ours, that one was reported before. */
  predicate Extra(s: State, event: Event<RecordId>) {
    event.Delivered? && event.report.token.Mine? ==>
      event.report.token.delivery < s.produced && event.report.token.delivery !in s.held
  }

  predicate InStage(s: State, t: ThreadId, stage: Stage) {
    s.At(t).Shutting? && s.At(t).stage == stage
  }

  predicate Enabled(s: State, l: Label) {
    match l
    case RLock(t) => s.At(t).Idle? && s.writer.None?
    case CheckClosed(t) => s.At(t).Holding?
    case CheckFatal(t) => s.At(t).Unclosed? && s.taken <= |s.events|
    case Produce(t, _) => s.At(t).Cleared?
    case RUnlock(t) => s.At(t).Leaving?
    case Lock(t) => s.At(t).Idle? && s.writer.None? && s.readers == {}
    case Decide(t) => s.At(t).Deciding?
    // the driver answers zero only when it holds nothing
    case Drained(t, count, _) => InStage(s, t, Draining) && (count == 0 ==> s.held == {})
    case Purge(t) => InStage(s, t, Purging)
    case PurgeFlushed(t, count) => InStage(s, t, Flushing) && (count == 0 ==> s.held == {})
    case CloseDriver(t) => InStage(s, t, Closing)
    case Join(t) => InStage(s, t, Joining) && s.reportsDone
    case SetCloseErr(t) => InStage(s, t, Summing) && s.taken <= |s.events|
    case Announce(t) => InStage(s, t, Announcing) && s.closeErr.Some?
    case Wake(t) => s.At(t).Waiting? && s.closeDone && s.closeErr.Some?
    case HandOn(token, _, _, _, _) => s.open && token in s.held
    case Emit(event) => s.open && Extra(s, event)
    case Read => s.taken < |s.events|
    case EndReports => !s.open && s.taken == |s.events| && !s.reportsDone
  }

  function OnProduce(s: State, t: ThreadId, accepted: bool): State {
    if accepted then s.(held := s.held + {s.produced}, produced := s.produced + 1).Go(t, Leaving(Some(s.produced)))
    else s.Go(t, Leaving(None))
  }

  function OnUnlock(s: State, t: ThreadId): State
    requires s.At(t).Leaving?
  {
    var got := s.At(t).got;
    s.(readers := s.readers - {t}, returned := s.returned + if got.Some? then {got.value} else {}).Go(t, Idle)
  }

  function OnDecide(s: State, t: ThreadId): State {
    if s.closed then s.(writer := None).Go(t, Waiting)
    else s.(writer := None, closed := true, closer := Some(t)).Go(t, Shutting(Draining, 0))
  }

  function OnDrained(s: State, t: ThreadId, count: nat, ended: bool): State {
    if count == 0 then s.Go(t, Shutting(Closing, 0))
    else if ended then s.Go(t, Shutting(Purging, count))
    else s
  }

  function OnSetCloseErr(s: State, t: ThreadId): State
    requires s.At(t).Shutting? && s.taken <= |s.events|
  {
    var remaining := s.At(t).remaining;
    s.(closeErr := Some(CloseError(remaining, s.Book().fatal))).Go(t, Shutting(Announcing, remaining))
  }

  function Put(s: State, event: Event<RecordId>): State {
    s.(events := s.events + [event])
  }

  function Apply(s: State, l: Label): State
    requires Enabled(s, l)
  {
    match l
    case RLock(t) => s.(readers := s.readers + {t}).Go(t, Holding)
    case CheckClosed(t) => s.Go(t, if s.closed then Leaving(None) else Unclosed)
    case CheckFatal(t) => s.Go(t, if s.Book().fatal.Some? then Leaving(None) else Cleared)
    case Produce(t, accepted) => OnProduce(s, t, accepted)
    case RUnlock(t) => OnUnlock(s, t)
    case Lock(t) => s.(writer := Some(t)).Go(t, Deciding)
    case Decide(t) => OnDecide(s, t)
    case Drained(t, count, ended) => OnDrained(s, t, count, ended)
    case Purge(t) => s.Go(t, Shutting(Flushing, s.At(t).remaining))
    case PurgeFlushed(t, count) => s.(purgeLeft := count).Go(t, Shutting(Closing, s.At(t).remaining))
    case CloseDriver(t) => s.(open := false, dropped := s.held, held := {}).Go(t, Shutting(Joining, s.At(t).remaining))
    case Join(t) => s.Go(t, Shutting(Summing, s.At(t).remaining))
    case SetCloseErr(t) => OnSetCloseErr(s, t)
    case Announce(t) => s.(closeDone := true).Go(t, Returned(s.closeErr.value))
    case Wake(t) => s.Go(t, Returned(s.closeErr.value))
    case HandOn(token, partition, offset, err, panics) =>
      Put(s.(held := s.held - {token}), Delivered(Report(Mine(token), partition, offset, err), panics))
    case Emit(event) => Put(s, event)
    case Read => s.(taken := s.taken + 1)
    case EndReports => s.(reportsDone := true)
  }

  predicate IsRun(s: State, run: seq<Label>)
    decreases |run|, 0
  {
    run == [] || (IsRun(s, run[..|run| - 1]) && Enabled(After(s, run[..|run| - 1]), run[|run| - 1]))
  }

  function After(s: State, run: seq<Label>): State
    requires IsRun(s, run)
    decreases |run|, 1
  {
    if run == [] then s else Apply(After(s, run[..|run| - 1]), run[|run| - 1])
  }

  // --- What every step keeps

  predicate Reading(pc: Pc) {
    pc.Holding? || pc.Unclosed? || pc.Cleared? || pc.Leaving?
  }

  /** The read-write lock excludes, and whoever saw the publisher open still finds it open. */
  ghost predicate LockInv(s: State) {
    && (forall t: ThreadId :: Reading(s.At(t)) <==> t in s.readers)
    && (forall t: ThreadId :: s.At(t).Deciding? <==> s.writer == Some(t))
    && (s.writer.Some? ==> s.readers == {})
    && (forall t: ThreadId :: s.At(t).Unclosed? || s.At(t).Cleared? ==> !s.closed)
  }

  /** Some report names the record. */
  ghost predicate Reported(events: seq<Event<RecordId>>, d: RecordId) {
    exists i :: 0 <= i < |events| && Names(events[i], d)
  }

  /** Every record produced is held, dropped or reported, and only one of these; nothing else is returned. */
  ghost predicate RecordInv(s: State) {
    && s.taken <= |s.events|
    && (forall d: RecordId :: d in s.held || d in s.dropped || d in s.returned ==> d < s.produced)
    && (forall t: ThreadId :: s.At(t).Leaving? && s.At(t).got.Some? ==> s.At(t).got.value < s.produced)
    && (forall d: RecordId :: Reported(s.events, d) <==> d < s.produced && d !in s.held && d !in s.dropped)
  }

  predicate BeforeClose(stage: Stage) {
    stage.Draining? || stage.Purging? || stage.Flushing? || stage.Closing?
  }

  /** What holds at each stage of the Close that shuts down. */
  predicate StageInv(s: State, stage: Stage, remaining: nat) {
    && s.closed && !s.closeDone
    && (BeforeClose(stage) <==> s.open)
    && (stage.Summing? || stage.Announcing? ==> s.reportsDone)
    && (stage.Announcing? <==> s.closeErr.Some?)
    && (stage.Announcing? ==> s.closeErr.value.undelivered == remaining)
    && (stage.Draining? ==> s.purgeLeft == 0)
    && (stage.Purging? || stage.Flushing? ==> s.purgeLeft == 0 && remaining > 0)
    && (s.purgeLeft > 0 ==> remaining > 0)
    && (stage.Closing? && s.purgeLeft == 0 ==> s.held == {})
  }

  ghost predicate CloseFacts(s: State) {
    && (s.closed <==> s.closer.Some?)
    && (!s.closed ==> s.open && !s.closeDone && s.closeErr.None? && s.purgeLeft == 0)
    && (s.open ==> s.dropped == {} && !s.reportsDone)
    && (!s.open ==> s.closed && s.held == {})
    && (s.dropped != {} ==> s.purgeLeft > 0)
    && (s.reportsDone ==> s.taken == |s.events|)
    && (s.closeErr.Some? ==> s.closed && s.reportsDone && (s.purgeLeft > 0 ==> s.closeErr.value.undelivered > 0))
    && (s.closeDone ==> s.closeErr.Some?)
    && (s.closeErr.Some? && s.taken <= |s.events| ==> s.closeErr.value.fatal == s.Book().fatal)
    && (s.closer.Some? && !s.closeDone ==> s.At(s.closer.value).Shutting?)
  }

  ghost predicate CloseInv(s: State) {
    && CloseFacts(s)
    && (forall t: ThreadId :: s.At(t).Shutting? ==> s.closer == Some(t) && StageInv(s, s.At(t).stage, s.At(t).remaining))
    && (forall t: ThreadId :: s.At(t).Returned? ==> s.closeDone && s.closeErr == Some(s.At(t).err))
  }

  ghost predicate Inv(s: State) {
    LockInv(s) && RecordInv(s) && CloseInv(s)
  }

  lemma PutReports(events: seq<Event<RecordId>>, event: Event<RecordId>, d: RecordId)
    ensures Reported(events + [event], d) <==> Reported(events, d) || Names(event, d)
  {
    var all := events + [event];
    if Reported(events, d) {
      var i :| 0 <= i < |events| && Names(events[i], d);
      assert Names(all[i], d);
    }
    if Names(event, d) {
      assert Names(all[|events|], d);
    }
  }

  predicate OfEnqueue(l: Label) {
    l.RLock? || l.CheckClosed? || l.CheckFatal? || l.Produce? || l.RUnlock?
  }

  /** A step of a Close: one that shuts down, or one that waits. */
  predicate OfClose(l: Label) {
    || l.Lock? || l.Decide? || l.Drained? || l.Purge? || l.PurgeFlushed? || l.CloseDriver? || l.Join? || l.SetCloseErr?
    || l.Announce? || l.Wake?
  }

  lemma EnqueueKeepsLock(s: State, l: Label)
    requires LockInv(s) && Enabled(s, l) && OfEnqueue(l)
    ensures LockInv(Apply(s, l))
  {
    var s' := Apply(s, l);
    assert forall t: ThreadId :: t != l.t ==> s'.At(t) == s.At(t);
  }

  lemma CloseKeepsLock(s: State, l: Label)
    requires LockInv(s) && Enabled(s, l) && (l.Lock? || l.Decide?)
    ensures LockInv(Apply(s, l))
  {
    var s' := Apply(s, l);
    assert forall t: ThreadId :: t != l.t ==> s'.At(t) == s.At(t);
  }

  predicate OutsideLock(pc: Pc) {
    pc.Shutting? || pc.Waiting? || pc.Returned?
  }

  lemma SameLocks(s: State, s': State, actor: ThreadId)
    requires LockInv(s) && s'.readers == s.readers && s'.writer == s.writer && s'.closed == s.closed
    requires forall t: ThreadId :: t != actor ==> s'.At(t) == s.At(t)
    requires OutsideLock(s.At(actor)) && OutsideLock(s'.At(actor))
    ensures LockInv(s')
  {
    forall t: ThreadId
      ensures Reading(s'.At(t)) <==> t in s'.readers
      ensures s'.At(t).Deciding? <==> s'.writer == Some(t)
    {
      assert Reading(s.At(t)) <==> t in s.readers;
    }
  }

  /** The steps of Close that neither take nor release the lock. */
  lemma ShutdownKeepsLock(s: State, l: Label)
    requires LockInv(s) && Enabled(s, l) && OfClose(l) && !l.Lock? && !l.Decide?
    ensures LockInv(Apply(s, l))
  {
    var s' := Apply(s, l);
    assert s.At(l.t).Shutting? || s.At(l.t).Waiting?;
    assert s'.At(l.t).Shutting? || s'.At(l.t).Returned?;
    SameLocks(s, s', l.t);
  }

  lemma ReportsKeepLock(s: State, l: Label)
    requires LockInv(s) && Enabled(s, l) && !OfEnqueue(l) && !OfClose(l)
    ensures LockInv(Apply(s, l))
  {
    var s' := Apply(s, l);
    assert s'.readers == s.readers && s'.writer == s.writer && s'.closed == s.closed && s'.pc == s.pc;
  }

  lemma LockKeeps(s: State, l: Label)
    requires LockInv(s) && Enabled(s, l)
    ensures LockInv(Apply(s, l))
  {
    if OfEnqueue(l) {
      EnqueueKeepsLock(s, l);
    } else if l.Lock? || l.Decide? {
      CloseKeepsLock(s, l);
    } else if OfClose(l) {
      ShutdownKeepsLock(s, l);
    } else {
      ReportsKeepLock(s, l);
    }
  }

  lemma EnqueueKeepsRecords(s: State, l: Label)
    requires Inv(s) && Enabled(s, l) && OfEnqueue(l)
    ensures RecordInv(Apply(s, l))
  {
    var s' := Apply(s, l);
    assert s'.events == s.events;
    assert forall t: ThreadId :: t != l.t ==> s'.At(t) == s.At(t);
    assert s.At(l.t).Leaving? && s.At(l.t).got.Some? ==> s.At(l.t).got.value < s.produced;
  }

  lemma CloseKeepsRecords(s: State, l: Label)
    requires Inv(s) && Enabled(s, l) && OfClose(l)
    ensures RecordInv(Apply(s, l))
  {
    var s' := Apply(s, l);
    assert s'.events == s.events;
    assert !s'.At(l.t).Leaving? && forall t: ThreadId :: t != l.t ==> s'.At(t) == s.At(t);
  }

  lemma ReportsKeepRecords(s: State, l: Label)
    requires Inv(s) && Enabled(s, l) && !OfEnqueue(l) && !OfClose(l)
    ensures RecordInv(Apply(s, l))
  {
    var s' := Apply(s, l);
    assert forall t: ThreadId :: s'.At(t) == s.At(t);
    forall d: RecordId
      ensures Reported(s'.events, d) <==> d < s'.produced && d !in s'.held && d !in s'.dropped
    {
      match l
      case HandOn(token, partition, offset, err, panics) =>
        PutReports(s.events, Delivered(Report(Mine(token), partition, offset, err), panics), d);
      case Emit(event) =>
        PutReports(s.events, event, d);
      case _ =>
    }
  }

  lemma RecordKeeps(s: State, l: Label)
    requires Inv(s) && Enabled(s, l)
    ensures RecordInv(Apply(s, l))
  {
    if OfEnqueue(l) {
      EnqueueKeepsRecords(s, l);
    } else if OfClose(l) {
      CloseKeepsRecords(s, l);
    } else {
      ReportsKeepRecords(s, l);
    }
  }

  lemma CloserKeepsStage(s: State, l: Label, t: ThreadId)
    requires Inv(s) && Enabled(s, l) && OfClose(l) && Apply(s, l).At(t).Shutting?
    ensures var s' := Apply(s, l); s'.closer == Some(t) && StageInv(s', s'.At(t).stage, s'.At(t).remaining)
  {
    assert s.At(t).Shutting? || l == Decide(t);
    assert s.At(l.t).Shutting? ==> s.closer == Some(l.t);
  }

  lemma OthersKeepStage(s: State, l: Label, t: ThreadId)
    requires Inv(s) && Enabled(s, l) && !OfClose(l) && Apply(s, l).At(t).Shutting?
    ensures var s' := Apply(s, l); s'.closer == Some(t) && StageInv(s', s'.At(t).stage, s'.At(t).remaining)
  {
    assert Apply(s, l).At(t) == s.At(t);
  }

  lemma ShuttingKeeps(s: State, l: Label, t: ThreadId)
    requires Inv(s) && Enabled(s, l) && Apply(s, l).At(t).Shutting?
    ensures var s' := Apply(s, l); s'.closer == Some(t) && StageInv(s', s'.At(t).stage, s'.At(t).remaining)
  {
    if OfClose(l) {
      CloserKeepsStage(s, l, t);
    } else {
      OthersKeepStage(s, l, t);
    }
  }

  lemma ReturnedKeeps(s: State, l: Label, t: ThreadId)
    requires Inv(s) && Enabled(s, l) && Apply(s, l).At(t).Returned?
    ensures var s' := Apply(s, l); s'.closeDone && s'.closeErr == Some(s'.At(t).err)
  {
    assert s.At(t) == Apply(s, l).At(t) || l.Announce? || l.Wake?;
  }

  lemma EnqueueKeepsFacts(s: State, l: Label)
    requires Inv(s) && Enabled(s, l) && OfEnqueue(l)
    ensures CloseFacts(Apply(s, l))
  {
    assert s.closer.Some? ==> s.closer.value != l.t || s.closeDone;
  }

  lemma CloseKeepsFacts(s: State, l: Label)
    requires Inv(s) && Enabled(s, l) && OfClose(l)
    ensures CloseFacts(Apply(s, l))
  {
    assert s.At(l.t).Shutting? ==> StageInv(s, s.At(l.t).stage, s.At(l.t).remaining);
  }

  lemma ReportsKeepFacts(s: State, l: Label)
    requires Inv(s) && Enabled(s, l) && !OfEnqueue(l) && !OfClose(l)
    ensures CloseFacts(Apply(s, l))
  {
    assert forall t: ThreadId :: Apply(s, l).At(t) == s.At(t);
  }

  lemma CloseKeeps(s: State, l: Label)
    requires Inv(s) && Enabled(s, l)
    ensures CloseInv(Apply(s, l))
  {
    var s' := Apply(s, l);
    if OfEnqueue(l) {
      EnqueueKeepsFacts(s, l);
    } else if OfClose(l) {
      CloseKeepsFacts(s, l);
    } else {
      ReportsKeepFacts(s, l);
    }
    forall t: ThreadId | s'.At(t).Shutting?
      ensures s'.closer == Some(t) && StageInv(s', s'.At(t).stage, s'.At(t).remaining)
    {
      ShuttingKeeps(s, l, t);
    }
    forall t: ThreadId | s'.At(t).Returned?
      ensures s'.closeDone && s'.closeErr == Some(s'.At(t).err)
    {
      ReturnedKeeps(s, l, t);
    }
  }
}
