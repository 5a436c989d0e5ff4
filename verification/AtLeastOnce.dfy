/** Every step of a consumer group keeps the invariant, and so every run delivers at least once. */
module AtLeastOnce {
  import opened Types
  import opened OffsetStore
  import opened ConsumerGroup
  import opened GroupSafety

  // --- Every step keeps the acting member in order

  /** In single mode the batch in hand is the one message polled. */
  ghost predicate SingleHanded(m: Member) {
    m.mode.Single? ==>
      && m.buffer == []
      && (m.phase.Handling? || m.phase.Routing? ==> |m.phase.batch| == 1)
      && (m.phase.Routing? ==> m.phase.left == m.phase.batch)
      && (m.phase.Storing? ==>
            |m.phase.batch| == 1 && m.phase.failed == {} && m.phase.todo.Keys == {m.phase.batch[0].Tp()})
      && (m.phase.Stopping? || m.phase.Closing? ==> NothingHalfDone(m.phase.why))
  }

  /** The strategy refused everything it was given: no message of the batch had been resolved. */
  predicate NothingHalfDone(why: Exit) {
    why.StrategyStopped? ==> why.batch == why.unresolved
  }

  ghost predicate GroupInv(g: Group) {
    Inv(g) && forall id :: id in g.members ==> SingleHanded(g.members[id])
  }

  lemma VerdictKeeps(h: History, m: Member, verdict: Verdict)
    requires MemberInv(h, m) && CanReturn(m, verdict)
    ensures Grows(h, HistoryOnVerdict(h, m, verdict))
    ensures MemberInv(HistoryOnVerdict(h, m, verdict), OnVerdict(m, verdict))
  {
    var h' := HistoryOnVerdict(h, m, verdict);
    var batch := m.phase.batch;
    MemberInvGrows(h, h', m);
    if verdict.WholeFailed? {
      assert m.accounted + {} == m.accounted;
      ResolveSomeKeeps(h', m, true, batch, {});
    } else {
      var failed := FailedItems(batch, verdict.failed);
      var done := Succeeded(batch, failed);
      FailedItemsInOrder(batch, verdict.failed);
      if failed == [] {
        ResolveAllKeeps(h', m, done);
      } else {
        ResolveSomeKeeps(h', m, false, failed, done);
      }
    }
  }

  lemma RoutedGrows(h: History, m: Member, ok: bool, written: seq<Message>)
    requires LogInOrder(h) && m.phase.Routing? && m.phase.left != [] && CanWrite(h, written)
    ensures Grows(h, HistoryOnRouted(h, m, ok, written)) && LogInOrder(HistoryOnRouted(h, m, ok, written))
    ensures ok ==> forall e :: e in NextCall(m.phase.whole, m.phase.left) ==> e in HistoryOnRouted(h, m, ok, written).writtenOff
  {
    WriteAllGrows(h, written);
  }

  lemma RoutedKeeps(h: History, m: Member, ok: bool, written: seq<Message>)
    requires MemberInv(h, m) && LogInOrder(h) && m.phase.Routing? && m.phase.left != []
    requires CanWrite(h, written)
    ensures Grows(h, HistoryOnRouted(h, m, ok, written)) && LogInOrder(HistoryOnRouted(h, m, ok, written))
    ensures MemberInv(HistoryOnRouted(h, m, ok, written), OnRouted(m, ok))
  {
    var h' := HistoryOnRouted(h, m, ok, written);
    RoutedGrows(h, m, ok, written);
    MemberInvGrows(h, h', m);
    if ok {
      StrategyAccepts(h', m);
    } else {
      StrategyRefuses(h', m);
    }
  }

  lemma NoRepeats(msgs: seq<Message>, n: nat)
    requires AscendingPerPartition(msgs) && n <= |msgs|
    ensures forall e :: e in msgs[..n] ==> e !in msgs[n..]
  {
  }

  lemma StrategyAccepts(h: History, m: Member)
    requires MemberInv(h, m) && m.phase.Routing? && m.phase.left != []
    requires forall e :: e in NextCall(m.phase.whole, m.phase.left) ==> e in h.writtenOff
    ensures MemberInv(h, OnRouted(m, true))
  {
    var call := NextCall(m.phase.whole, m.phase.left);
    var rest := m.phase.left[|call|..];
    assert m.phase.left == call + rest;
    NoRepeats(m.phase.left, |call|);
    assert AscendingPerPartition(rest);
    if rest == [] {
      ResolveAllKeeps(h, m, set e | e in call);
    } else {
      ResolveSomeKeeps(h, m, m.phase.whole, rest, set e | e in call);
    }
  }

  lemma StrategyRefuses(h: History, m: Member)
    requires MemberInv(h, m) && m.phase.Routing? && m.phase.left != []
    ensures MemberInv(h, OnRouted(m, false))
  {
    var m' := OnRouted(m, false);
    assert forall p :: p in m'.fetch ==> m'.Position(p) == m.Position(p);
    assert forall e :: e in m.phase.batch ==> m.Pending(e);
    assert forall e :: !m'.Pending(e);
  }

  /** The partitions whose store has failed, this one included. */
  function FailedSoFar(m: Member, tp: TopicPartition, ok: bool): set<TopicPartition>
    requires m.phase.Storing?
  {
    m.phase.failed + if Answer(m, tp, ok).Failed? then {tp} else {}
  }

  lemma AfterStoreIs(m: Member, tp: TopicPartition, ok: bool)
    requires SingleHanded(m) && CanStore(m, tp)
    ensures var next := AfterStore(m, tp, ok).phase;
            && StoringGoesOn(m, next, m.phase.todo - {tp}, FailedSoFar(m, tp, ok))
            && AfterStore(m, tp, ok) == if Answer(m, tp, ok).Stored? then WithStored(m, tp, next) else m.(phase := next)
  {
    if m.mode.Single? {
      assert m.phase.todo - {tp} == map[];
    }
  }

  lemma StoreReturnsKeeps(h: History, m: Member, tp: TopicPartition, ok: bool)
    requires MemberInv(h, m) && SingleHanded(m) && CanStore(m, tp)
    ensures MemberInv(h, AfterStore(m, tp, ok))
  {
    var next, failed := AfterStore(m, tp, ok).phase, FailedSoFar(m, tp, ok);
    AfterStoreIs(m, tp, ok);
    if Answer(m, tp, ok).Stored? {
      assert failed == m.phase.failed;
      StoredKeeps(h, m, tp, next);
    } else {
      NotStoredKeeps(h, m, tp, next, failed);
    }
  }

  // --- Every step keeps the group in order

  /** A commit publishes stored positions only, and those pass nothing unresolved. */
  lemma PublishKeeps(g: Group, m: Member, published: set<TopicPartition>)
    requires CommittedInv(g) && MemberInv(g.history, m)
    ensures CommittedInv(g.(committed := Publish(g.committed, m.store, published)))
  {
    var g' := g.(committed := Publish(g.committed, m.store, published));
    forall tp
      ensures g'.Committed(tp) <= g'.history.End(tp)
      ensures forall e :: e in g'.history.log && e.Tp() == tp && e.offset < g'.Committed(tp) ==> g'.history.Resolved(e)
    {
      if tp in published && tp in m.store {
        assert g'.Committed(tp) == m.store[tp] == m.Position(tp);
      } else {
        assert g'.Committed(tp) == g.Committed(tp);
      }
    }
  }

  predicate Rebalances(l: Label) {
    l.Assign? || l.Revoke? || l.Lose?
  }

  lemma RebalancingKeeps(g: Group, m: Member, l: Label)
    requires CommittedInv(g) && MemberInv(g.history, m) && EnabledAt(g, m, l) && Rebalances(l)
    ensures MemberInv(g.history, Moved(g, m, l))
  {
    match l
    case Assign(_, tps) => AssignKeeps(g, m, tps);
    case Revoke(_, _) => EmptyHandedKeeps(g.history, OnRevoke(m));
    case Lose(_, tp) => LoseKeeps(g.history, m, tp);
  }

  predicate Polls(l: Label) {
    l.Fetch? || l.Idle? || l.PollFails? || l.Cancel?
  }

  lemma PollingKeeps(g: Group, m: Member, l: Label)
    requires LogInOrder(g.history) && MemberInv(g.history, m) && EnabledAt(g, m, l) && Polls(l)
    ensures MemberInv(g.history, Moved(g, m, l))
  {
    var h := g.history;
    match l
    case Fetch(_, msg, timedOut) => FetchKeeps(h, m, msg, timedOut);
    case Idle(_, timedOut) => BufferedKeeps(h, m, timedOut);
    case PollFails(_) => LeaveLoopKeeps(h, m, PollError);
    case Cancel(_) => LeaveLoopKeeps(h, m, Cancelled);
  }

  predicate Publishes(l: Label) {
    l.CommitReturns? || l.Tick? || l.FinalCommit? || l.CloseDriver?
  }

  lemma PublishingKeeps(g: Group, m: Member, l: Label)
    requires MemberInv(g.history, m) && EnabledAt(g, m, l) && Publishes(l)
    ensures MemberInv(g.history, Moved(g, m, l))
  {
    var h := g.history;
    match l
    case CommitReturns(_, _) =>
      CommitReturnsKeeps(h, m);
      NotesKeep(h, OnCommitted(m), Noted(m, l));
    case FinalCommit(_, _) => FinalCommitKeeps(h, m);
    case CloseDriver(_, _) => EmptyHandedKeeps(h, OnClose(m));
    case Tick(_, _) =>
  }

  /** The acting member and the history after any step of a member. */
  predicate Dispatches(l: Label) {
    l.HandlerReturns? || l.StrategyReturns? || l.StoreReturns?
  }

  lemma QuietKeeps(g: Group, m: Member, l: Label)
    requires LogInOrder(g.history) && CommittedInv(g) && MemberInv(g.history, m)
    requires (Rebalances(l) || Polls(l) || Publishes(l)) && EnabledAt(g, m, l)
    ensures MemberInv(g.history, Moved(g, m, l))
  {
    if Rebalances(l) {
      RebalancingKeeps(g, m, l);
    } else if Polls(l) {
      PollingKeeps(g, m, l);
    } else {
      PublishingKeeps(g, m, l);
    }
  }

  lemma QuietHistory(g: Group, m: Member, l: Label)
    requires (Rebalances(l) || Polls(l) || Publishes(l)) && EnabledAt(g, m, l)
    ensures Recorded(g, m, l) == g.history
  {
  }

  lemma MovedKeeps(g: Group, m: Member, l: Label)
    requires LogInOrder(g.history) && CommittedInv(g) && MemberInv(g.history, m) && SingleHanded(m)
    requires !l.Append? && !l.Start? && !l.Crash? && EnabledAt(g, m, l)
    ensures Grows(g.history, Recorded(g, m, l)) && LogInOrder(Recorded(g, m, l))
    ensures MemberInv(Recorded(g, m, l), Moved(g, m, l))
  {
    if Dispatches(l) {
      DispatchKeeps(g, m, l);
    } else {
      QuietKeeps(g, m, l);
      QuietHistory(g, m, l);
    }
  }

  lemma DispatchKeeps(g: Group, m: Member, l: Label)
    requires LogInOrder(g.history) && MemberInv(g.history, m) && SingleHanded(m)
    requires Dispatches(l) && EnabledAt(g, m, l)
    ensures Grows(g.history, Recorded(g, m, l)) && LogInOrder(Recorded(g, m, l))
    ensures MemberInv(Recorded(g, m, l), Moved(g, m, l))
  {
    match l
    case HandlerReturns(_, verdict) =>
      VerdictKeeps(g.history, m, verdict);
      NotesKeep(HistoryOnVerdict(g.history, m, verdict), OnVerdict(m, verdict), Noted(m, l));
    case StrategyReturns(_, _, ok, written) =>
      RoutedKeeps(g.history, m, ok, written);
      NotesKeep(HistoryOnRouted(g.history, m, ok, written), OnRouted(m, ok), Noted(m, l));
    case StoreReturns(_, tp, ok) => StoreReturnsKeeps(g.history, m, tp, ok);
  }

  lemma SingleHighest(batch: seq<Message>)
    requires |batch| == 1
    ensures Highest(batch) == map[batch[0].Tp() := batch[0].offset]
  {
    assert batch[..0] == [];
  }

  lemma SingleVerdict(m: Member, verdict: Verdict)
    requires SingleHanded(m) && CanReturn(m, verdict)
    ensures SingleHanded(OnVerdict(m, verdict))
  {
    if m.mode.Single? {
      SingleHighest(m.phase.batch);
      if verdict.Items? {
        assert FailedItems(m.phase.batch[..0], verdict.failed[..0]) == [];
        assert m.phase.batch == [m.phase.batch[0]];
      }
    }
  }

  lemma SingleRouted(m: Member, ok: bool)
    requires SingleHanded(m) && m.phase.Routing? && m.phase.left != []
    ensures SingleHanded(OnRouted(m, ok))
  {
    if m.mode.Single? {
      SingleHighest(m.phase.batch);
    }
  }

  lemma SingleStored(m: Member, tp: TopicPartition, ok: bool)
    requires SingleHanded(m) && CanStore(m, tp)
    ensures SingleHanded(AfterStore(m, tp, ok))
  {
  }

  lemma SingleDispatched(g: Group, m: Member, l: Label)
    requires SingleHanded(m) && Dispatches(l) && EnabledAt(g, m, l)
    ensures SingleHanded(Moved(g, m, l))
  {
    match l
    case HandlerReturns(_, verdict) => SingleVerdict(m, verdict);
    case StrategyReturns(_, _, ok, _) => SingleRouted(m, ok);
    case StoreReturns(_, tp, ok) => SingleStored(m, tp, ok);
  }

  lemma SingleHandedKeeps(g: Group, m: Member, l: Label)
    requires SingleHanded(m) && !l.Append? && !l.Start? && EnabledAt(g, m, l)
    ensures SingleHanded(Moved(g, m, l))
  {
    if Dispatches(l) {
      SingleDispatched(g, m, l);
    }
  }

  lemma CommittedKeeps(g: Group, m: Member, l: Label)
    requires CommittedInv(g) && MemberInv(g.history, m) && !l.Append? && !l.Start? && EnabledAt(g, m, l)
    ensures CommittedInv(g.(committed := Published(g, m, l)))
  {
    if l.Revoke? || Publishes(l) {
      PublishKeeps(g, m, l.published);
    }
  }

  lemma MembersGrow(g: Group, h': History)
    requires Inv(g) && Grows(g.history, h')
    ensures forall id :: id in g.members ==> MemberInv(h', g.members[id])
  {
    forall id | id in g.members
      ensures MemberInv(h', g.members[id])
    {
      MemberInvGrows(g.history, h', g.members[id]);
    }
  }

  /** A member's step, piece by piece. */
  lemma StepPieces(g: Group, l: Label)
    requires Enabled(g, l) && !l.Append? && !l.Start? && !l.Crash?
    ensures l.id in g.members && EnabledAt(g, g.members[l.id], l)
    ensures var m := g.members[l.id];
            Apply(g, l) == Group(g.policy, Recorded(g, m, l), Published(g, m, l), g.members[l.id := Moved(g, m, l)])
  {
  }

  lemma MemberStepKeeps(g: Group, l: Label)
    requires GroupInv(g) && Enabled(g, l) && !l.Append? && !l.Start? && !l.Crash?
    ensures GroupInv(Apply(g, l))
  {
    StepPieces(g, l);
    var m := g.members[l.id];
    var h', committed', m' := Recorded(g, m, l), Published(g, m, l), Moved(g, m, l);
    MovedKeeps(g, m, l);
    SingleHandedKeeps(g, m, l);
    CommittedKeeps(g, m, l);
    CommittedInvGrows(g.(committed := committed'), h');
    MembersGrow(g, h');
    Replaced(Group(g.policy, h', committed', g.members), l.id, m');
  }

  lemma Replaced(g: Group, id: MemberId, m: Member)
    requires GroupInv(g) && MemberInv(g.history, m) && SingleHanded(m)
    ensures GroupInv(g.(members := g.members[id := m]))
  {
    assert CommittedInv(g.(members := g.members[id := m])) by {
      assert forall tp :: g.(members := g.members[id := m]).Committed(tp) == g.Committed(tp);
    }
  }

  lemma StepKeeps(g: Group, l: Label)
    requires GroupInv(g) && Enabled(g, l)
    ensures GroupInv(Apply(g, l))
  {
    if l.Append? {
      var h' := WriteAll(g.history, [l.record]);
      WriteAllGrows(g.history, [l.record]);
      CommittedInvGrows(g, h');
      MembersGrow(g, h');
    } else if l.Start? {
      EmptyHandedKeeps(g.history, Newcomer(l.mode, l.autoCommit));
      Replaced(g, l.id, Newcomer(l.mode, l.autoCommit));
    } else if l.Crash? {
      assert forall tp :: g.(members := g.members - {l.id}).Committed(tp) == g.Committed(tp);
    } else {
      MemberStepKeeps(g, l);
    }
  }

  lemma {:induction false} RunKeeps(g: Group, run: seq<Label>)
    requires GroupInv(g) && IsRun(g, run)
    ensures GroupInv(After(g, run))
  {
    if run != [] {
      RunKeeps(g, run[..|run| - 1]);
      StepKeeps(After(g, run[..|run| - 1]), run[|run| - 1]);
    }
  }

  lemma InitInOrder(policy: Policy)
    ensures GroupInv(Init(policy))
  {
  }

  // --- At-least-once

  predicate Below(e: Message, positions: Positions) {
    e.Tp() in positions && e.offset < positions[e.Tp()]
  }

  /** No committed position, and no stored one, has passed a record that was not resolved. */
  ghost predicate NothingSkipped(g: Group) {
    && (forall e :: e in g.history.log && e.offset < g.Committed(e.Tp()) ==> e in g.history.handled || e in g.history.writtenOff)
    && (forall id, e :: id in g.members && e in g.history.log && Below(e, g.members[id].store) ==>
          e in g.history.handled || e in g.history.writtenOff)
  }

  lemma InOrderSkipsNothing(g: Group)
    requires GroupInv(g)
    ensures NothingSkipped(g)
  {
    forall id, e | id in g.members && e in g.history.log && Below(e, g.members[id].store)
      ensures g.history.Resolved(e)
    {
      var m := g.members[id];
      assert MemberInv(g.history, m);
      assert m.Position(e.Tp()) == m.store[e.Tp()];
    }
  }

  /**
   Group-wide at-least-once: whatever polls, rebalances, crashes, verdicts, store and commit
   failures and background commits happen, in any interleaving of any number of members, every
   record below a stored or committed position was handled or written off.
   */
  lemma NothingIsEverSkipped(policy: Policy, run: seq<Label>)
    requires IsRun(Init(policy), run)
    ensures NothingSkipped(After(Init(policy), run))
  {
    InitInOrder(policy);
    RunKeeps(Init(policy), run);
    InOrderSkipsNothing(After(Init(policy), run));
  }
}
