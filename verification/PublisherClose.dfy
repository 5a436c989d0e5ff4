/** What holds of every run of the publisher, with any number of senders and closers. */
module PublisherClose {
  import opened Types
  import opened KafkaErrors
  import opened Settlement
  import opened PublisherProtocol

  lemma StepKeeps(s: State, l: Label)
    requires Inv(s) && Enabled(s, l)
    ensures Inv(Apply(s, l))
  {
    LockKeeps(s, l);
    RecordKeeps(s, l);
    CloseKeeps(s, l);
  }

  lemma {:induction false} RunKeeps(s: State, run: seq<Label>)
    requires Inv(s) && IsRun(s, run)
    ensures Inv(After(s, run))
  {
    if run != [] {
      var before, l := After(s, run[..|run| - 1]), run[|run| - 1];
      RunKeeps(s, run[..|run| - 1]);
      StepKeeps(before, l);
    }
  }

  lemma InitInv()
    ensures Inv(Init())
  {
  }

  // --- Nothing is produced once closed is set

  /** What can no longer change once closed is set, and once the close error is written. */
  predicate Frozen(s: State, s': State) {
    && (s.closed ==> s'.closed && s'.produced == s.produced)
    && (s.closeErr.Some? ==> s'.closeErr == s.closeErr && s'.events == s.events && s'.taken == s.taken)
  }

  lemma StepFreezes(s: State, l: Label)
    requires Inv(s) && Enabled(s, l)
    ensures Frozen(s, Apply(s, l))
  {
  }

  lemma {:induction false} RunFreezes(s: State, run: seq<Label>)
    requires Inv(s) && IsRun(s, run)
    ensures Frozen(s, After(s, run))
  {
    if run != [] {
      var before := After(s, run[..|run| - 1]);
      RunFreezes(s, run[..|run| - 1]);
      RunKeeps(s, run[..|run| - 1]);
      StepFreezes(before, run[|run| - 1]);
      assert After(s, run) == Apply(before, run[|run| - 1]);
    }
  }

  /** After `closed` is set, whatever happens, no record is produced any more. */
  lemma NothingProducedAfterClosed(run: seq<Label>, more: seq<Label>)
    requires IsRun(Init(), run) && After(Init(), run).closed && IsRun(After(Init(), run), more)
    ensures var s, later := After(Init(), run), After(After(Init(), run), more);
            later.closed && later.produced == s.produced
  {
    InitInv();
    RunKeeps(Init(), run);
    RunFreezes(After(Init(), run), more);
  }

  // --- Nothing more is produced once a fatal error is recorded

  /** The goroutines in enqueue that have looked for a fatal error and found none. */
  function PastCheck(s: State): set<ThreadId> {
    set t | t in s.pc && s.pc[t].Cleared?
  }

  predicate SawFatal(s: State) {
    s.taken <= |s.events| && s.Book().fatal.Some?
  }

  lemma FatalStays(s: State, l: Label)
    requires Enabled(s, l) && SawFatal(s)
    ensures SawFatal(Apply(s, l)) && Apply(s, l).Book().fatal == s.Book().fatal
  {
    var s' := Apply(s, l);
    assert s.events <= s'.events && s.taken <= s'.taken <= |s'.events| && (s'.taken == s.taken || l.Read?);
    if l.Read? {
      assert s'.events[..s'.taken][..s.taken] == s.events[..s.taken];
    } else {
      assert s'.events[..s'.taken] == s.events[..s.taken];
    }
  }

  lemma NoneGetsPast(s: State, l: Label, t: ThreadId)
    requires Enabled(s, l) && SawFatal(s) && Apply(s, l).At(t).Cleared?
    ensures s.At(t).Cleared? && !(l.Produce? && l.t == t)
  {
  }

  lemma OnlyProduceProduces(s: State, l: Label)
    requires Enabled(s, l) && !l.Produce?
    ensures Apply(s, l).produced == s.produced
  {
  }

  lemma OneAtATime(s: State, l: Label)
    requires Enabled(s, l)
    ensures s.produced <= Apply(s, l).produced <= s.produced + if l.Produce? then 1 else 0
  {
    if l.Produce? {
      assert Apply(s, l) == OnProduce(s, l.t, l.accepted);
    } else {
      OnlyProduceProduces(s, l);
    }
  }

  /** Each record accepted uses up a goroutine that was past the check, and no other gets past it. */
  lemma FatalStep(s: State, l: Label)
    requires Enabled(s, l) && SawFatal(s)
    ensures PastCheck(Apply(s, l)) <= PastCheck(s)
    ensures Apply(s, l).produced + |PastCheck(Apply(s, l))| <= s.produced + |PastCheck(s)|
  {
    var past := PastCheck(s) - if l.Produce? then {l.t} else {};
    forall t | t in PastCheck(Apply(s, l))
      ensures t in past
    {
      NoneGetsPast(s, l, t);
    }
    Smaller(PastCheck(Apply(s, l)), past);
    OneAtATime(s, l);
    assert l.Produce? ==> l.t in PastCheck(s);
  }

  lemma Smaller(a: set<ThreadId>, b: set<ThreadId>)
    requires a <= b
    ensures |a| <= |b|
  {
    assert b == a + (b - a);
  }

  /**
   After a fatal error is recorded, whatever happens: it stays recorded as it is, and no more records
   are accepted than there were goroutines between the check for it and Produce.
   */
  lemma {:induction false} AfterFatal(s: State, more: seq<Label>)
    requires Inv(s) && SawFatal(s) && IsRun(s, more)
    ensures var later := After(s, more);
            && SawFatal(later) && later.Book().fatal == s.Book().fatal && PastCheck(later) <= PastCheck(s)
            && later.produced + |PastCheck(later)| <= s.produced + |PastCheck(s)|
  {
    if more != [] {
      var front, l := more[..|more| - 1], more[|more| - 1];
      AfterFatal(s, front);
      RunKeeps(s, front);
      FatalStays(After(s, front), l);
      FatalStep(After(s, front), l);
      assert After(s, more) == Apply(After(s, front), l);
    }
  }

  lemma NothingProducedAfterFatal(run: seq<Label>, more: seq<Label>)
    requires IsRun(Init(), run) && SawFatal(After(Init(), run)) && IsRun(After(Init(), run), more)
    ensures var s, later := After(Init(), run), After(After(Init(), run), more);
            && SawFatal(later) && later.Book().fatal == s.Book().fatal
            && s.produced <= later.produced <= s.produced + |PastCheck(s)|
  {
    InitInv();
    RunKeeps(Init(), run);
    AfterFatal(After(Init(), run), more);
    ProducedGrows(After(Init(), run), more);
  }

  lemma {:induction false} ProducedGrows(s: State, more: seq<Label>)
    requires IsRun(s, more)
    ensures s.produced <= After(s, more).produced
  {
    if more != [] {
      ProducedGrows(s, more[..|more| - 1]);
      assert After(s, more) == Apply(After(s, more[..|more| - 1]), more[|more| - 1]);
    }
  }

  // --- Close returns

  lemma {:induction false} ReportedIsFirst(events: seq<Event<RecordId>>, d: RecordId)
    ensures Reported(events, d) <==> FirstReport(events, d).Some?
  {
    if events != [] {
      var n := |events| - 1;
      ReportedIsFirst(events[..n], d);
      assert events == events[..n] + [events[n]];
      PutReports(events[..n], events[n], d);
    }
  }

  /** How delivery `d` was settled: done was closed once, the callback ran once if it failed, and before that. */
  ghost predicate SettledOnce(b: Book<RecordId>, d: RecordId) {
    var t := TallyOf(b.notes, d);
    && d in b.outcomes
    && t.closed == 1
    && t.called == (if b.outcomes[d].err.Some? then 1 else 0)
    && CallbackFirst(b.notes)
  }

  /**
   When any Close has returned, the deliveries that are not settled are exactly those of the
   records the driver still held when it was closed; every other one was settled once.  If there
   are any, the Flush after Purge had answered that records were left, an answer Close does not
   look at, and the error Close returns says that records were not delivered.
   */
  lemma CloseAccountsForEveryRecord(run: seq<Label>, t: ThreadId)
    requires IsRun(Init(), run) && After(Init(), run).At(t).Returned?
    ensures var s := After(Init(), run);
            && s.taken == |s.events|
            && (forall d :: d in s.returned ==> d < s.produced)
            && (forall d: RecordId :: d < s.produced ==>
                  if d in s.dropped then d !in s.Book().outcomes else SettledOnce(s.Book(), d))
            && (s.dropped != {} ==> s.purgeLeft > 0 && s.At(t).err.undelivered > 0)
  {
    var s := After(Init(), run);
    InitInv();
    RunKeeps(Init(), run);
    assert s.events[..|s.events|] == s.events;
    CallbackBeforeDone(s.events);
    forall d: RecordId | d < s.produced
      ensures if d in s.dropped then d !in s.Book().outcomes else SettledOnce(s.Book(), d)
    {
      assert Reported(s.events, d) <==> d !in s.dropped;
      ReportedIsFirst(s.events, d);
      FirstOutcomeStands(s.events, d);
      SettledExactlyOnce(s.events, d);
    }
  }

  /** Close leaves nothing unresolved when the flush after the purge hands on every report, as Close expects. */
  lemma CloseLeavesNothingUnresolved(run: seq<Label>, t: ThreadId)
    requires IsRun(Init(), run) && After(Init(), run).At(t).Returned?
    requires forall i :: 0 <= i < |run| && run[i].PurgeFlushed? ==> run[i].count == 0
    ensures var s := After(Init(), run);
            && s.taken == |s.events|
            && (forall d :: d in s.returned ==> SettledOnce(s.Book(), d))
  {
    CloseAccountsForEveryRecord(run, t);
    PurgeLeftIsAnswer(run);
  }

  lemma {:induction false} PurgeLeftIsAnswer(run: seq<Label>)
    requires IsRun(Init(), run)
    requires forall i :: 0 <= i < |run| && run[i].PurgeFlushed? ==> run[i].count == 0
    ensures After(Init(), run).purgeLeft == 0
  {
    if run != [] {
      var before, l := After(Init(), run[..|run| - 1]), run[|run| - 1];
      PurgeLeftIsAnswer(run[..|run| - 1]);
      PurgeLeftStep(before, l);
      assert After(Init(), run) == Apply(before, l);
    }
  }

  lemma PurgeLeftStep(s: State, l: Label)
    requires Enabled(s, l)
    ensures Apply(s, l).purgeLeft == if l.PurgeFlushed? then l.count else s.purgeLeft
  {
  }

  /** How many records drain left: the last answer it got. */
  function DrainLeft(run: seq<Label>): nat {
    if run == [] then 0
    else if run[|run| - 1].Drained? then run[|run| - 1].count
    else DrainLeft(run[..|run| - 1])
  }

  /** Past draining, `remaining` is what drain left, and so is the count in the close error. */
  ghost predicate Counts(s: State, left: nat) {
    && (forall t: ThreadId :: s.At(t).Shutting? && !s.At(t).stage.Draining? ==> s.At(t).remaining == left)
    && (s.closeErr.Some? ==> s.closeErr.value.undelivered == left)
  }

  lemma CloseCounts(s: State, l: Label, left: nat, t: ThreadId)
    requires Inv(s) && Enabled(s, l) && OfClose(l) && Counts(s, left)
    requires Apply(s, l).At(t).Shutting? && !Apply(s, l).At(t).stage.Draining?
    ensures Apply(s, l).At(t).remaining == if l.Drained? then l.count else left
  {
    assert s.At(t).Shutting?;
    assert s.At(l.t).Shutting? ==> l.t == t;
  }

  lemma CountsKeeps(s: State, l: Label, left: nat)
    requires Inv(s) && Enabled(s, l) && Counts(s, left)
    ensures Counts(Apply(s, l), if l.Drained? then l.count else left)
  {
    var s' := Apply(s, l);
    forall t: ThreadId | s'.At(t).Shutting? && !s'.At(t).stage.Draining?
      ensures s'.At(t).remaining == if l.Drained? then l.count else left
    {
      if OfClose(l) {
        CloseCounts(s, l, left, t);
      } else {
        assert s'.At(t) == s.At(t);
      }
    }
  }

  lemma {:induction false} CountsDrain(run: seq<Label>)
    requires IsRun(Init(), run)
    ensures Counts(After(Init(), run), DrainLeft(run))
  {
    if run != [] {
      var before, l := After(Init(), run[..|run| - 1]), run[|run| - 1];
      CountsDrain(run[..|run| - 1]);
      InitInv();
      RunKeeps(Init(), run[..|run| - 1]);
      CountsKeeps(before, l, DrainLeft(run[..|run| - 1]));
      assert After(Init(), run) == Apply(before, l);
    }
  }

  /**
   All Close callers get one error, written before any of them reads it.  It is nil exactly when
   drain left nothing and no fatal error was ever reported; its fatal part is the first one.
   */
  lemma ClosersAgree(run: seq<Label>, t: ThreadId, u: ThreadId)
    requires IsRun(Init(), run)
    requires After(Init(), run).At(t).Returned? && After(Init(), run).At(u).Returned?
    ensures var s := After(Init(), run);
            && s.closeErr == Some(s.At(t).err) == Some(s.At(u).err)
            && (s.At(t).err.IsNil() <==> DrainLeft(run) == 0 && FirstFatal(s.events).None?)
            && (s.At(t).err.fatal.Some? ==>
                  FirstFatal(s.events) == Some(s.At(t).err.fatal.value.cause) && IsErrFatal(s.At(t).err.fatal.value))
  {
    var s := After(Init(), run);
    InitInv();
    RunKeeps(Init(), run);
    CountsDrain(run);
    assert s.events[..|s.events|] == s.events;
    FirstFatalLatches(s.events);
  }

  /** Once written, the close error never changes, nor does anything the report goroutine did. */
  lemma CloseErrorIsFinal(run: seq<Label>, more: seq<Label>)
    requires IsRun(Init(), run) && After(Init(), run).closeErr.Some? && IsRun(After(Init(), run), more)
    ensures var s, later := After(Init(), run), After(After(Init(), run), more);
            later.closeErr == s.closeErr && later.events == s.events && later.taken == s.taken
  {
    InitInv();
    RunKeeps(Init(), run);
    RunFreezes(After(Init(), run), more);
  }

  // --- Close comes to an end

  /** Some run leads from the state to one that meets the goal. */
  ghost predicate CanReach(s: State, goal: State -> bool) {
    exists run :: IsRun(s, run) && goal(After(s, run))
  }

  lemma {:induction false} StepFirst(s: State, l: Label, run: seq<Label>)
    requires Enabled(s, l) && IsRun(Apply(s, l), run)
    ensures IsRun(s, [l] + run) && After(s, [l] + run) == After(Apply(s, l), run)
  {
    var all := [l] + run;
    if run == [] {
      assert all[..0] == [];
      assert IsRun(s, all[..0]);
    } else {
      StepFirst(s, l, run[..|run| - 1]);
      assert all[..|all| - 1] == [l] + run[..|run| - 1];
    }
  }

  lemma ReachByStep(s: State, l: Label, goal: State -> bool)
    requires Enabled(s, l) && CanReach(Apply(s, l), goal)
    ensures CanReach(s, goal)
  {
    var run :| IsRun(Apply(s, l), run) && goal(After(Apply(s, l), run));
    StepFirst(s, l, run);
  }

  /** The next step of the Close that shuts down, or of the report goroutine it waits for. */
  function NextStep(s: State, c: ThreadId): Label
    requires s.At(c).Shutting?
  {
    match s.At(c).stage
    case Draining => Drained(c, 1, true)
    case Purging => Purge(c)
    case Flushing => PurgeFlushed(c, 1)
    case Closing => CloseDriver(c)
    case Joining => if s.reportsDone then Join(c) else if s.taken < |s.events| then Read else EndReports
    case Summing => SetCloseErr(c)
    case Announcing => Announce(c)
  }

  function StepsLeft(stage: Stage): nat {
    match stage
    case Draining => 7
    case Purging => 6
    case Flushing => 5
    case Closing => 4
    case Joining => 3
    case Summing => 2
    case Announcing => 1
  }

  function Left(s: State): nat {
    (if s.taken <= |s.events| then |s.events| - s.taken else 0) + if s.reportsDone then 0 else 1
  }

  lemma NextStepAdvances(s: State, c: ThreadId)
    requires Inv(s) && s.At(c).Shutting?
    ensures var l := NextStep(s, c);
            && Enabled(s, l)
            && var s' := Apply(s, l);
               || s'.closeDone
               || (s'.At(c).Shutting? && StepsLeft(s'.At(c).stage) < StepsLeft(s.At(c).stage))
               || (s'.At(c) == s.At(c) && Left(s') < Left(s))
  {
  }

  /** A step of the Close that shuts down, past draining. */
  predicate OfCloser(l: Label, c: ThreadId) {
    (l.Purge? || l.PurgeFlushed? || l.CloseDriver? || l.Join? || l.SetCloseErr? || l.Announce?) && l.t == c
  }

  predicate OfReports(l: Label) {
    l.Read? || l.EndReports?
  }

  lemma CloserAdvances(s: State, l: Label, c: ThreadId)
    requires Inv(s) && Enabled(s, l) && s.At(c).Shutting? && OfCloser(l, c)
    ensures var s' := Apply(s, l);
            s'.closeDone || (s'.At(c).Shutting? && StepsLeft(s'.At(c).stage) < StepsLeft(s.At(c).stage))
  {
  }

  lemma OthersDoNotHinder(s: State, l: Label, c: ThreadId)
    requires Inv(s) && Enabled(s, l) && s.At(c).Shutting? && !s.At(c).stage.Draining? && !OfCloser(l, c)
    ensures Apply(s, l).At(c) == s.At(c)
    ensures OfReports(l) ==> Left(Apply(s, l)) < Left(s)
    ensures !OfReports(l) && !s.open ==> Left(Apply(s, l)) == Left(s)
  {
  }

  /**
   Past draining, Close only moves forward: some step of it or of the report goroutine is always
   possible; its own steps bring it nearer its end, whatever the driver answers; those of the report
   goroutine use up what is left to read; and no other step undoes either, once the driver is closed.
   */
  lemma ShutdownOnlyAdvances(run: seq<Label>, l: Label, c: ThreadId)
    requires IsRun(Init(), run)
    requires var s := After(Init(), run); Enabled(s, l) && s.At(c).Shutting? && !s.At(c).stage.Draining?
    ensures var s := After(Init(), run);
            var s' := Apply(s, l);
            && Enabled(s, NextStep(s, c)) && (OfCloser(NextStep(s, c), c) || OfReports(NextStep(s, c)))
            && (if OfCloser(l, c)
                then s'.closeDone || (s'.At(c).Shutting? && StepsLeft(s'.At(c).stage) < StepsLeft(s.At(c).stage))
                else
                  && s'.At(c) == s.At(c)
                  && (OfReports(l) ==> Left(s') < Left(s))
                  && (!OfReports(l) && !s.open ==> Left(s') == Left(s)))
  {
    var s := After(Init(), run);
    InitInv();
    RunKeeps(Init(), run);
    NextStepAdvances(s, c);
    if OfCloser(l, c) {
      CloserAdvances(s, l, c);
    } else {
      OthersDoNotHinder(s, l, c);
    }
  }

  lemma CloseFinishes(s: State, c: ThreadId)
    requires Inv(s) && s.At(c).Shutting?
    ensures CanReach(s, (z: State) => z.closeDone)
    decreases StepsLeft(s.At(c).stage), Left(s)
  {
    var l := NextStep(s, c);
    NextStepAdvances(s, c);
    StepKeeps(s, l);
    var s' := Apply(s, l);
    if s'.closeDone {
      assert IsRun(s', []) && After(s', []) == s';
    } else {
      CloseFinishes(s', c);
    }
    ReachByStep(s, l, (z: State) => z.closeDone);
  }

  /** Whatever the senders, the driver and the report goroutine have done, some run finishes a Close that has begun. */
  lemma CloseCanFinish(run: seq<Label>)
    requires IsRun(Init(), run) && After(Init(), run).closed
    ensures CanReach(After(Init(), run), (z: State) => z.closeDone)
  {
    var s := After(Init(), run);
    InitInv();
    RunKeeps(Init(), run);
    if s.closeDone {
      assert IsRun(s, []) && After(s, []) == s;
    } else {
      CloseFinishes(s, s.closer.value);
    }
  }

  // --- The answer Close ignores

  /** Close has returned, and a delivery that enqueue returned is not settled. */
  ghost predicate LeftUnresolved(s: State) {
    s.taken <= |s.events| && s.At(1).Returned? && 0 in s.returned && 0 !in s.Book().outcomes
  }

  lemma ThenCloseReturns(s: State)
    requires s.At(1) == Shutting(Joining, 1) && !s.open && s.events == [] && s.taken == 0 && !s.reportsDone
    requires 0 in s.returned
    ensures CanReach(s, LeftUnresolved)
  {
    var s1 := Apply(s, EndReports);
    var s2 := Apply(s1, Join(1));
    var s3 := Apply(s2, SetCloseErr(1));
    var s4 := Apply(s3, Announce(1));
    assert LeftUnresolved(s4) && IsRun(s4, []) && After(s4, []) == s4;
    ReachByStep(s3, Announce(1), LeftUnresolved);
    ReachByStep(s2, SetCloseErr(1), LeftUnresolved);
    ReachByStep(s1, Join(1), LeftUnresolved);
    ReachByStep(s, EndReports, LeftUnresolved);
  }

  lemma ThenTheFlushTimesOut(s: State)
    requires s.At(1).Idle? && s.writer.None? && s.readers == {} && !s.closed
    requires s.events == [] && s.taken == 0 && !s.reportsDone && 0 in s.returned
    ensures CanReach(s, LeftUnresolved)
  {
    var s1 := Apply(s, Lock(1));
    var s2 := Apply(s1, Decide(1));
    var s3 := Apply(s2, Drained(1, 1, true));
    var s4 := Apply(s3, Purge(1));
    var s5 := Apply(s4, PurgeFlushed(1, 1));
    var s6 := Apply(s5, CloseDriver(1));
    ThenCloseReturns(s6);
    ReachByStep(s5, CloseDriver(1), LeftUnresolved);
    ReachByStep(s4, PurgeFlushed(1, 1), LeftUnresolved);
    ReachByStep(s3, Purge(1), LeftUnresolved);
    ReachByStep(s2, Drained(1, 1, true), LeftUnresolved);
    ReachByStep(s1, Decide(1), LeftUnresolved);
    ReachByStep(s, Lock(1), LeftUnresolved);
  }

  /** If the flush after the purge times out, Close can return with a delivery unresolved. */
  lemma FlushTimeoutLeavesUnresolved()
    ensures CanReach(Init(), LeftUnresolved)
  {
    var s1 := Apply(Init(), RLock(0));
    var s2 := Apply(s1, CheckClosed(0));
    var s3 := Apply(s2, CheckFatal(0));
    var s4 := Apply(s3, Produce(0, true));
    var s5 := Apply(s4, RUnlock(0));
    ThenTheFlushTimesOut(s5);
    ReachByStep(s4, RUnlock(0), LeftUnresolved);
    ReachByStep(s3, Produce(0, true), LeftUnresolved);
    ReachByStep(s2, CheckFatal(0), LeftUnresolved);
    ReachByStep(s1, CheckClosed(0), LeftUnresolved);
    ReachByStep(Init(), RLock(0), LeftUnresolved);
  }
}
