/**
 The lock around librdkafka's handle (internal/publish/publishdriver/producer.go): any number of
 goroutines in Produce, Flush, Purge, Len or TopicPartitions, which all take the same shape, and
 any number in Close, one atomic step at a time.
 */
module HandleProtocol {
  import opened Types

  type ThreadId = nat

  datatype Pc =
    | Out
    | Locked        // a call holds the read lock and has not looked at closed
    | Inside        // closed was false: the native call is running
    | Refused       // closed was true: about to unlock and return ErrClosed, or 0
    | Answered      // the native call has returned
    | Deciding      // Close holds the write lock
    | Destroying    // Close has set closed and released the lock: destroying the handle
    | Closed        // Close has returned

  datatype State = State(
    pc: map<ThreadId, Pc>,
    readers: set<ThreadId>,
    writer: Option<ThreadId>,
    closed: bool,
    destroyer: Option<ThreadId>,  // who set closed
    destroys: nat)                // how often the handle was destroyed
  {
    function At(t: ThreadId): Pc {
      if t in pc then pc[t] else Out
    }

    function Go(t: ThreadId, to: Pc): State {
      this.(pc := pc[t := to])
    }
  }

  function Init(): State {
    State(map[], {}, None, false, None, 0)
  }

  datatype Label =
    | RLock(t: ThreadId) | Look(t: ThreadId) | Answer(t: ThreadId) | RUnlock(t: ThreadId)
    | Lock(t: ThreadId) | Decide(t: ThreadId) | Destroy(t: ThreadId)

  predicate Enabled(s: State, l: Label) {
    match l
    case RLock(t) => s.At(t).Out? && s.writer.None?
    case Look(t) => s.At(t).Locked?
    case Answer(t) => s.At(t).Inside?
    case RUnlock(t) => s.At(t).Answered? || s.At(t).Refused?
    case Lock(t) => s.At(t).Out? && s.writer.None? && s.readers == {}
    case Decide(t) => s.At(t).Deciding?
    case Destroy(t) => s.At(t).Destroying?
  }

  function Apply(s: State, l: Label): State
    requires Enabled(s, l)
  {
    match l
    case RLock(t) => s.(readers := s.readers + {t}).Go(t, Locked)
    case Look(t) => s.Go(t, if s.closed then Refused else Inside)
    case Answer(t) => s.Go(t, Answered)
    case RUnlock(t) => s.(readers := s.readers - {t}).Go(t, Out)
    case Lock(t) => s.(writer := Some(t)).Go(t, Deciding)
    case Decide(t) =>
      if s.closed then s.(writer := None).Go(t, Closed)
      else s.(writer := None, closed := true, destroyer := Some(t)).Go(t, Destroying)
    case Destroy(t) => s.(destroys := s.destroys + 1).Go(t, Closed)
  }

  predicate IsRun(s: State, run: seq<Label>)
    decreases |run|, 0
  {
    run == [] || (IsRun(s, run[..|run| - 1]) && Enabled(After(s, run[..|run| - 1]), run[|run| - 1]))
  }

  function After(s: State, run: seq<Label>): State
    requires IsRun(s, run)
    decreases |run|, 1
  {
    if run == [] then s else Apply(After(s, run[..|run| - 1]), run[|run| - 1])
  }

  /**
   While a call runs on the handle the producer is not closed, so nobody is destroying the handle
   and nobody has; and the handle is destroyed at most once, by the one who set closed.
   */
  ghost predicate Safe(s: State) {
    && (forall t: ThreadId :: s.At(t).Inside? ==> !s.closed)
    && (forall t: ThreadId :: s.At(t).Destroying? ==> s.closed && s.destroyer == Some(t) && s.destroys == 0)
    && s.destroys <= 1
    && (s.destroys == 1 ==> s.closed)
    && (s.closed <==> s.destroyer.Some?)
    && (s.closed && s.destroys == 0 ==> s.At(s.destroyer.value).Destroying?)
  }

  ghost predicate LockInv(s: State) {
    && (forall t: ThreadId :: s.At(t).Locked? || s.At(t).Inside? || s.At(t).Refused? || s.At(t).Answered? ==> t in s.readers)
    && (forall t: ThreadId :: s.At(t).Deciding? ==> s.writer == Some(t))
    && (s.writer.Some? ==> s.readers == {})
  }

  lemma StepKeeps(s: State, l: Label)
    requires LockInv(s) && Safe(s) && Enabled(s, l)
    ensures LockInv(Apply(s, l)) && Safe(Apply(s, l))
  {
    var s' := Apply(s, l);
    forall t: ThreadId | s'.At(t) != s.At(t)
      ensures s'.At(t).Inside? ==> !s'.closed
      ensures s'.At(t).Destroying? ==> s'.destroyer == Some(t)
    {
    }
  }

  /** Handle safety, over every interleaving. */
  lemma {:induction false} HandleIsSafe(run: seq<Label>)
    requires IsRun(Init(), run)
    ensures LockInv(After(Init(), run)) && Safe(After(Init(), run))
  {
    if run != [] {
      HandleIsSafe(run[..|run| - 1]);
      StepKeeps(After(Init(), run[..|run| - 1]), run[|run| - 1]);
    }
  }

  /** No native call begins or runs once destruction has begun, and destruction happens once. */
  lemma NoCallAfterDestroy(run: seq<Label>, t: ThreadId, u: ThreadId)
    requires IsRun(Init(), run)
    requires var s := After(Init(), run); s.destroys > 0 || s.At(t).Destroying?
    ensures var s := After(Init(), run);
            && !s.At(u).Inside?
            && (Enabled(s, Look(u)) ==> Apply(s, Look(u)).At(u).Refused?)
            && (Enabled(s, Destroy(u)) ==> s.destroys == 0 && u == t)
  {
    HandleIsSafe(run);
  }

  /** A call is refused only by a producer that is closed. */
  lemma {:induction false} RefusedOnlyWhenClosed(run: seq<Label>, t: ThreadId)
    requires IsRun(Init(), run) && After(Init(), run).At(t).Refused?
    ensures After(Init(), run).closed
  {
    if run != [] {
      var before := After(Init(), run[..|run| - 1]);
      if before.At(t).Refused? {
        RefusedOnlyWhenClosed(run[..|run| - 1], t);
      }
    }
  }
}
