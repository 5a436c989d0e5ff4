/**
 At-least-once over every run of the consumer group: no stored or committed position ever
 passes a record that was not resolved, and a clean stop resumes exactly where it left off.
 */
module GroupSafety {
  import opened Types
  import opened OffsetStore
  import opened ConsumerGroup

  // --- The invariant

  ghost predicate LogInOrder(h: History) {
    && (forall e :: e in h.log ==> e.offset < h.End(e.Tp()))
    && AscendingPerPartition(h.log)
  }

  /** The assignment's three positions are in order. */
  ghost predicate PositionsInOrder(h: History, m: Member) {
    && m.base.Keys == m.fetch.Keys && m.store.Keys <= m.fetch.Keys
    && (!m.joined ==> m.fetch == map[] && m.buffer == [])
    && forall tp :: tp in m.fetch ==> m.base[tp] <= m.Position(tp) <= m.fetch[tp] <= h.End(tp)
  }

  /** Pending messages are records of the log in poll order, between position and fetch. */
  ghost predicate PendingInOrder(h: History, m: Member)
    requires PositionsInOrder(h, m)
  {
    && AscendingPerPartition(m.buffer) && AscendingPerPartition(m.InHand())
    && forall e :: m.Pending(e) ==>
         e in h.log && (e.Tp() in m.fetch ==> m.Position(e.Tp()) <= e.offset < m.fetch[e.Tp()])
  }

  predicate Running(m: Member) {
    !m.phase.Stopping? && !m.phase.Closing? && !m.phase.Stopped?
  }

  /** Everything this member has fetched is accounted for or still pending; everything before that was resolved. */
  ghost predicate Covered(h: History, m: Member)
    requires PositionsInOrder(h, m)
  {
    && (forall e :: e in m.accounted ==> e in h.log && h.Resolved(e))
    && forall e :: e in h.log && e.Tp() in m.fetch ==>
         && (e.offset < m.base[e.Tp()] ==> h.Resolved(e))
         && (m.base[e.Tp()] <= e.offset < m.Position(e.Tp()) ==> e in m.accounted)
         && (Running(m) && m.base[e.Tp()] <= e.offset < m.fetch[e.Tp()] ==> e in m.accounted || m.Pending(e))
  }

  /** Accounted messages the position has not passed yet. */
  predicate Ahead(phase: Phase, e: Message) {
    match phase
    case Routing(batch, _, left) => e in batch && e !in left
    case Storing(batch, todo, failed) => e in batch && (e.Tp() in todo || e.Tp() in failed)
    case Committing(failed) => e.Tp() in failed
    case Stopping(why) => AheadAtExit(why, e)
    case Closing(why) => AheadAtExit(why, e)
    case _ => false
  }

  predicate AheadAtExit(why: Exit, e: Message) {
    match why
    case StrategyStopped(batch, unresolved) => e in batch && e !in unresolved
    case StoreStopped(failed) => e.Tp() in failed
    case _ => false
  }

  ghost predicate NoneElseAhead(h: History, m: Member)
    requires PositionsInOrder(h, m)
  {
    forall e :: e in m.accounted && e.Tp() in m.fetch && m.Position(e.Tp()) <= e.offset ==> Ahead(m.phase, e)
  }

  /** A store that failed left an accounted message behind. */
  ghost predicate LeftBehind(m: Member, failed: set<TopicPartition>)
    requires m.base.Keys == m.fetch.Keys
  {
    forall tp :: tp in failed && tp in m.fetch ==>
      exists e :: e in m.accounted && e.Tp() == tp && m.Position(tp) <= e.offset
  }

  ghost predicate ExitInOrder(m: Member, why: Exit)
    requires m.base.Keys == m.fetch.Keys
  {
    match why
    case StrategyStopped(batch, unresolved) =>
      forall e :: e in batch && e !in unresolved ==>
        e in m.accounted && (e.Tp() in m.fetch ==> m.Position(e.Tp()) <= e.offset)
    case StoreStopped(failed) => LeftBehind(m, failed)
    case _ => true
  }

  /** What each phase knows about the batch in hand. */
  ghost predicate PhaseInOrder(h: History, m: Member)
    requires PositionsInOrder(h, m)
  {
    match m.phase
    case Polling => true
    case Handling(batch) => batch != [] && m.buffer == []
    case Routing(batch, _, left) =>
      && batch != [] && m.buffer == [] && left != []
      && (forall e :: e in left ==> e in batch)
      && AscendingPerPartition(left)
      && (forall e :: e in batch && e !in left ==> e in m.accounted)
    case Storing(batch, todo, failed) =>
      && m.buffer == [] && todo != map[] && todo.Keys !! failed
      && (forall e :: e in batch ==> e in m.accounted && (e.Tp() in m.fetch && e.Tp() in todo ==>
            m.Position(e.Tp()) <= e.offset <= todo[e.Tp()]))
      && (forall tp :: tp in todo && tp in m.fetch ==>
            todo[tp] < m.fetch[tp] && exists e :: e in batch && e.Tp() == tp && e.offset == todo[tp])
      && LeftBehind(m, failed)
    case Committing(failed) => m.buffer == [] && LeftBehind(m, failed)
    case Stopping(why) => ExitInOrder(m, why)
    case Closing(why) => ExitInOrder(m, why)
    case Stopped => true
  }

  ghost predicate MemberInv(h: History, m: Member) {
    && PositionsInOrder(h, m)
    && PendingInOrder(h, m)
    && Covered(h, m)
    && NoneElseAhead(h, m)
    && PhaseInOrder(h, m)
  }

  ghost predicate CommittedInv(g: Group) {
    forall tp :: g.Committed(tp) <= g.history.End(tp) &&
      forall e :: e in g.history.log && e.Tp() == tp && e.offset < g.Committed(tp) ==> g.history.Resolved(e)
  }

  ghost predicate Inv(g: Group) {
    && LogInOrder(g.history)
    && CommittedInv(g)
    && forall id :: id in g.members ==> MemberInv(g.history, g.members[id])
  }

  // --- History only grows

  ghost predicate Grows(h: History, h': History) {
    && h.log <= h'.log
    && (forall e :: e in h'.log && e !in h.log ==> h.End(e.Tp()) <= e.offset)
    && (forall tp :: h.End(tp) <= h'.End(tp))
    && h.handled <= h'.handled
    && h.writtenOff <= h'.writtenOff
  }

  lemma MemberInvGrows(h: History, h': History, m: Member)
    requires MemberInv(h, m) && Grows(h, h')
    ensures MemberInv(h', m)
  {
    assert forall e :: e in h.log ==> e in h'.log;
  }

  lemma CommittedInvGrows(g: Group, h': History)
    requires CommittedInv(g) && Grows(g.history, h')
    ensures CommittedInv(g.(history := h'))
  {
    var g' := g.(history := h');
    forall tp
      ensures g'.Committed(tp) <= h'.End(tp)
      ensures forall e :: e in h'.log && e.Tp() == tp && e.offset < g'.Committed(tp) ==> h'.Resolved(e)
    {
      assert g'.Committed(tp) == g.Committed(tp) <= g.history.End(tp);
    }
  }

  lemma {:induction false} WriteAllGrows(h: History, records: seq<Message>)
    requires LogInOrder(h) && CanWrite(h, records)
    ensures LogInOrder(WriteAll(h, records)) && Grows(h, WriteAll(h, records))
    ensures WriteAll(h, records).log == h.log + records
    ensures WriteAll(h, records).handled == h.handled && WriteAll(h, records).writtenOff == h.writtenOff
  {
    if records != [] {
      var front, last := records[..|records| - 1], records[|records| - 1];
      WriteAllGrows(h, front);
      assert records == front + [last];
      var before := WriteAll(h, front);
      WriteGrows(before, last);
    }
  }

  lemma WriteGrows(h: History, record: Message)
    requires LogInOrder(h) && h.End(record.Tp()) <= record.offset
    ensures LogInOrder(Write(h, record)) && Grows(h, Write(h, record))
  {
    var h' := Write(h, record);
    forall i, j | 0 <= i < j < |h'.log| && h'.log[i].Tp() == h'.log[j].Tp()
      ensures h'.log[i].offset < h'.log[j].offset
    {
      if j == |h.log| {
        assert h.log[i] in h.log;
      }
    }
  }

  // --- Each step keeps the acting member in order

  lemma LoseKeeps(h: History, m: Member, tp: TopicPartition)
    requires MemberInv(h, m) && tp in m.fetch
    ensures MemberInv(h, OnLose(m, tp))
  {
    var m' := OnLose(m, tp);
    assert forall p :: p in m'.fetch ==> m'.Position(p) == m.Position(p);
    assert forall e :: m'.Pending(e) <==> m.Pending(e);
  }

  /** The flush after an Add: the buffer becomes the batch in hand. */
  lemma BufferedKeeps(h: History, m: Member, timedOut: bool)
    requires MemberInv(h, m) && m.phase.Polling?
    ensures MemberInv(h, Buffered(m, [], timedOut))
  {
    var m' := Buffered(m, [], timedOut);
    assert forall e :: m'.Pending(e) <==> m.Pending(e);
    assert forall p :: p in m'.fetch ==> m'.Position(p) == m.Position(p);
  }

  function Added(m: Member, msg: Message): Member {
    m.(fetch := m.fetch[msg.Tp() := msg.offset + 1], buffer := m.buffer + [msg], fetched := m.fetched + [msg])
  }

  lemma AddPending(h: History, m: Member, msg: Message)
    requires m.phase.Polling? && LogInOrder(h) && IsNext(h, m, msg)
    requires PositionsInOrder(h, m) && PendingInOrder(h, m)
    ensures PositionsInOrder(h, Added(m, msg)) && PendingInOrder(h, Added(m, msg))
  {
    assert forall i :: 0 <= i < |m.buffer| ==> m.Pending(m.buffer[i]);
  }

  lemma AddCovered(h: History, m: Member, msg: Message)
    requires m.phase.Polling? && LogInOrder(h) && IsNext(h, m, msg)
    requires PositionsInOrder(h, m) && Covered(h, m) && PositionsInOrder(h, Added(m, msg))
    ensures Covered(h, Added(m, msg))
  {
    var m' := Added(m, msg);
    forall e | e in h.log && e.Tp() in m'.fetch && m'.base[e.Tp()] <= e.offset < m'.fetch[e.Tp()]
      ensures e in m'.accounted || m'.Pending(e)
    {
      if e.Tp() == msg.Tp() && m.fetch[msg.Tp()] <= e.offset {
        SameOffsetSameRecord(h, e, msg);
      }
    }
  }

  /** Poll hands over the next record of a partition, and the buffer takes it. */
  lemma AddKeeps(h: History, m: Member, msg: Message)
    requires MemberInv(h, m) && m.phase.Polling? && LogInOrder(h) && IsNext(h, m, msg)
    ensures MemberInv(h, Added(m, msg))
  {
    AddPending(h, m, msg);
    AddCovered(h, m, msg);
  }

  lemma SameOffsetSameRecord(h: History, a: Message, b: Message)
    requires LogInOrder(h) && a in h.log && b in h.log && a.Tp() == b.Tp() && a.offset == b.offset
    ensures a == b
  {
    var i :| 0 <= i < |h.log| && h.log[i] == a;
    var j :| 0 <= j < |h.log| && h.log[j] == b;
  }

  lemma FetchKeeps(h: History, m: Member, msg: Message, timedOut: bool)
    requires LogInOrder(h) && MemberInv(h, m) && m.phase.Polling? && IsNext(h, m, msg)
    ensures MemberInv(h, OnFetch(m, msg, timedOut))
  {
    AddKeeps(h, m, msg);
    BufferedKeeps(h, Added(m, msg), timedOut);
    AddThenFlush(m, msg, timedOut);
  }

  lemma AddThenFlush(m: Member, msg: Message, timedOut: bool)
    ensures OnFetch(m, msg, timedOut) == Buffered(Added(m, msg), [], timedOut)
  {
    assert m.buffer + [msg] + [] == m.buffer + [msg];
    assert m.fetched + [msg] + [] == m.fetched + [msg];
  }

  lemma LeaveLoopKeeps(h: History, m: Member, why: Exit)
    requires MemberInv(h, m) && m.phase.Polling? && (why.Cancelled? || why.PollError?)
    ensures MemberInv(h, OnExit(m, why))
  {
    var m' := OnExit(m, why);
    assert forall e :: m'.Pending(e) <==> m.Pending(e);
    assert forall p :: p in m'.fetch ==> m'.Position(p) == m.Position(p);
  }

  /** What is noted in the journal does not matter to the invariant. */
  lemma NotesKeep(h: History, m: Member, journal: Journal)
    requires MemberInv(h, m)
    ensures MemberInv(h, m.(journal := journal))
  {
    var m' := m.(journal := journal);
    assert forall e :: m'.Pending(e) <==> m.Pending(e);
    assert forall p :: p in m'.fetch ==> m'.Position(p) == m.Position(p);
  }

  lemma CommitReturnsKeeps(h: History, m: Member)
    requires MemberInv(h, m) && m.phase.Committing?
    ensures MemberInv(h, OnCommitted(m))
  {
    var m' := OnCommitted(m);
    assert forall e :: m'.Pending(e) <==> m.Pending(e);
    assert forall p :: p in m'.fetch ==> m'.Position(p) == m.Position(p);
  }

  lemma FinalCommitKeeps(h: History, m: Member)
    requires MemberInv(h, m) && m.phase.Stopping?
    ensures MemberInv(h, OnFinalCommit(m))
  {
    var m' := OnFinalCommit(m);
    assert forall e :: m'.Pending(e) <==> m.Pending(e);
    assert forall p :: p in m'.fetch ==> m'.Position(p) == m.Position(p);
  }

  /** An assignment starts at the committed position, below which everything is resolved. */
  lemma AssignKeeps(g: Group, m: Member, tps: set<TopicPartition>)
    requires CommittedInv(g) && MemberInv(g.history, m) && m.phase.Polling? && !m.joined
    ensures MemberInv(g.history, OnAssign(g, m, tps))
  {
    var m' := OnAssign(g, m, tps);
    assert forall p :: p in m'.fetch ==> m'.Position(p) == g.Committed(p);
  }

  lemma EmptyHandedKeeps(h: History, m: Member)
    requires m.base == m.fetch == m.store == map[] && m.buffer == []
    requires m.phase.Polling? || m.phase.Stopped?
    requires forall e :: e in m.accounted ==> e in h.log && h.Resolved(e)
    ensures MemberInv(h, m)
  {
  }

  // --- The dispatch of a batch

  lemma {:induction false} FailedItemsInOrder(batch: seq<Message>, failed: seq<bool>)
    requires |batch| == |failed| && AscendingPerPartition(batch)
    ensures var items := FailedItems(batch, failed);
            && (forall e :: e in items ==> e in batch)
            && AscendingPerPartition(items)
  {
    if batch != [] {
      var n := |batch| - 1;
      FailedItemsInOrder(batch[..n], failed[..n]);
      var front := FailedItems(batch[..n], failed[..n]);
      forall i | 0 <= i < |front| && front[i].Tp() == batch[n].Tp()
        ensures front[i].offset < batch[n].offset
      {
        assert front[i] in batch[..n];
        var k :| 0 <= k < n && batch[k] == front[i];
      }
    }
  }

  /** `done` are resolved now; what `left` does not hold is resolved altogether. */
  ghost predicate Resolves(h: History, m: Member, left: seq<Message>, done: set<Message>)
    requires m.phase.Handling? || m.phase.Routing?
  {
    && (forall e :: e in left ==> e in m.phase.batch)
    && (m.phase.Routing? ==> forall e :: e in left ==> e in m.phase.left)
    && AscendingPerPartition(left)
    && (forall e :: e in done ==> e in m.phase.batch && e !in left && h.Resolved(e))
    && (forall e :: e in m.phase.batch && e !in left ==> e in done || e in m.accounted)
  }

  /** Resolving some of the batch in hand leaves the rest to be routed. */
  lemma ResolveSomeKeeps(h: History, m: Member, whole: bool, left: seq<Message>, done: set<Message>)
    requires m.phase.Handling? || m.phase.Routing?
    requires MemberInv(h, m) && left != [] && Resolves(h, m, left, done)
    ensures MemberInv(h, m.(accounted := m.accounted + done, phase := Routing(m.phase.batch, whole, left)))
  {
    var m' := m.(accounted := m.accounted + done, phase := Routing(m.phase.batch, whole, left));
    assert forall e :: m'.Pending(e) <==> m.Pending(e);
    assert forall p :: p in m'.fetch ==> m'.Position(p) == m.Position(p);
  }

  /** Once the whole batch is resolved, its highest offsets may be stored. */
  lemma ResolveAllKeeps(h: History, m: Member, done: set<Message>)
    requires m.phase.Handling? || m.phase.Routing?
    requires MemberInv(h, m) && Resolves(h, m, [], done)
    ensures MemberInv(h, m.(accounted := m.accounted + done, phase := Storing(m.phase.batch, Highest(m.phase.batch), {})))
  {
    var batch, todo := m.phase.batch, Highest(m.phase.batch);
    HighestIsMaximum(batch);
    StoringCovers(h, m, done, todo);
    StoringBegins(h, m.(accounted := m.accounted + done, phase := Storing(batch, todo, {})), batch, todo);
  }

  lemma StoringPositions(h: History, m: Member, done: set<Message>, todo: map<TopicPartition, nat>)
    requires m.phase.Handling? || m.phase.Routing?
    requires MemberInv(h, m)
    ensures var m' := m.(accounted := m.accounted + done, phase := Storing(m.phase.batch, todo, {}));
            && PositionsInOrder(h, m') && PendingInOrder(h, m')
            && forall p :: p in m'.fetch ==> m'.Position(p) == m.Position(p)
  {
    var m' := m.(accounted := m.accounted + done, phase := Storing(m.phase.batch, todo, {}));
    assert forall p :: p in m'.fetch ==> m'.Position(p) == m.Position(p);
    assert forall e :: m'.Pending(e) ==> m.Pending(e);
  }

  lemma StoringCovers(h: History, m: Member, done: set<Message>, todo: map<TopicPartition, nat>)
    requires m.phase.Handling? || m.phase.Routing?
    requires MemberInv(h, m) && Resolves(h, m, [], done) && IsMaximum(todo, m.phase.batch)
    ensures var m' := m.(accounted := m.accounted + done, phase := Storing(m.phase.batch, todo, {}));
            PositionsInOrder(h, m') && PendingInOrder(h, m') && Covered(h, m') && NoneElseAhead(h, m')
  {
    StoringPositions(h, m, done, todo);
  }

  lemma StoringBegins(h: History, m: Member, batch: seq<Message>, todo: map<TopicPartition, nat>)
    requires m.phase == Storing(batch, todo, {}) && m.buffer == [] && batch != []
    requires PositionsInOrder(h, m) && IsMaximum(todo, batch)
    requires forall e :: e in batch ==> e in m.accounted
    requires forall e :: e in batch && e.Tp() in m.fetch ==> m.Position(e.Tp()) <= e.offset < m.fetch[e.Tp()]
    ensures PhaseInOrder(h, m)
  {
    assert batch[0] in batch;
    forall tp | tp in todo && tp in m.fetch
      ensures todo[tp] < m.fetch[tp] && exists e :: e in batch && e.Tp() == tp && e.offset == todo[tp]
    {
      var e :| e in batch && e.Tp() == tp && e.offset == todo[tp];
    }
  }

  // --- Storing, one partition at a time

  /** The end of storing, in either mode: the loop goes on, or stops because of `failed`. */
  ghost predicate StoringEnds(m: Member, next: Phase, failed: set<TopicPartition>) {
    || next == Committing(failed)
    || (next == Polling && failed == {})
    || next == Stopping(StoreStopped(failed))
  }

  ghost predicate StoringGoesOn(m: Member, next: Phase, todo: map<TopicPartition, nat>, failed: set<TopicPartition>)
    requires m.phase.Storing?
  {
    if todo == map[] then StoringEnds(m, next, failed) else next == Storing(m.phase.batch, todo, failed)
  }

  function WithStored(m: Member, tp: TopicPartition, next: Phase): Member
    requires m.phase.Storing? && tp in m.phase.todo
  {
    m.(store := m.store[tp := m.phase.todo[tp] + 1], phase := next)
  }

  /** What storing a partition relies on. */
  ghost predicate ReadyToStore(m: Member, tp: TopicPartition)
    requires m.base.Keys == m.fetch.Keys
  {
    && m.phase.Storing? && tp in m.phase.todo && tp in m.fetch && tp !in m.phase.failed
    && m.Position(tp) <= m.phase.todo[tp] < m.fetch[tp]
    && forall e :: e in m.phase.batch && e.Tp() == tp ==> e.offset <= m.phase.todo[tp]
  }

  lemma IsReadyToStore(h: History, m: Member, tp: TopicPartition)
    requires PositionsInOrder(h, m) && PhaseInOrder(h, m)
    requires m.phase.Storing? && tp in m.phase.todo && tp in m.fetch
    ensures ReadyToStore(m, tp)
  {
    var e :| e in m.phase.batch && e.Tp() == tp && e.offset == m.phase.todo[tp];
  }

  lemma StoredPositions(h: History, m: Member, tp: TopicPartition, next: Phase)
    requires PositionsInOrder(h, m) && ReadyToStore(m, tp)
    ensures var m' := WithStored(m, tp, next);
            && PositionsInOrder(h, m')
            && m'.Position(tp) == m.phase.todo[tp] + 1
            && forall p :: p in m'.fetch && p != tp ==> m'.Position(p) == m.Position(p)
  {
    var m' := WithStored(m, tp, next);
    forall p | p in m'.fetch
      ensures m'.base[p] <= m'.Position(p) <= m'.fetch[p] <= h.End(p)
    {
      assert p != tp ==> m'.Position(p) == m.Position(p);
    }
  }

  lemma StoredCovers(h: History, m: Member, tp: TopicPartition, next: Phase)
    requires PositionsInOrder(h, m) && ReadyToStore(m, tp) && Covered(h, m) && m.buffer == []
    requires !next.Handling? && !next.Routing?
    requires PositionsInOrder(h, WithStored(m, tp, next))
    ensures PendingInOrder(h, WithStored(m, tp, next)) && Covered(h, WithStored(m, tp, next))
  {
    StoredPositions(h, m, tp, next);
    var m' := WithStored(m, tp, next);
    forall e | e in h.log && e.Tp() in m'.fetch && m'.base[e.Tp()] <= e.offset
      ensures e.offset < m'.Position(e.Tp()) ==> e in m'.accounted
      ensures e.offset < m'.fetch[e.Tp()] ==> e in m'.accounted || m'.Pending(e)
    {
      assert !m.Pending(e);
    }
  }

  lemma StoredAhead(h: History, m: Member, tp: TopicPartition, next: Phase)
    requires PositionsInOrder(h, m) && ReadyToStore(m, tp) && NoneElseAhead(h, m)
    requires StoringGoesOn(m, next, m.phase.todo - {tp}, m.phase.failed)
    requires PositionsInOrder(h, WithStored(m, tp, next))
    ensures NoneElseAhead(h, WithStored(m, tp, next))
  {
    StoredPositions(h, m, tp, next);
    var m' := WithStored(m, tp, next);
    forall e | e in m'.accounted && e.Tp() in m'.fetch && m'.Position(e.Tp()) <= e.offset
      ensures Ahead(m'.phase, e)
    {
      assert Ahead(m.phase, e);
      assert e.Tp() in m.phase.todo ==> e.Tp() in m.phase.todo - {tp};
    }
  }

  lemma StillLeftBehind(h: History, m: Member, tp: TopicPartition, next: Phase)
    requires PositionsInOrder(h, m) && ReadyToStore(m, tp) && LeftBehind(m, m.phase.failed)
    ensures LeftBehind(WithStored(m, tp, next), m.phase.failed)
  {
    StoredPositions(h, m, tp, next);
    var m' := WithStored(m, tp, next);
    forall p | p in m.phase.failed && p in m'.fetch
      ensures exists e :: e in m'.accounted && e.Tp() == p && m'.Position(p) <= e.offset
    {
      var e :| e in m.accounted && e.Tp() == p && m.Position(p) <= e.offset;
    }
  }

  lemma StoredPhase(h: History, m: Member, tp: TopicPartition, next: Phase)
    requires PositionsInOrder(h, m) && PhaseInOrder(h, m) && ReadyToStore(m, tp)
    requires StoringGoesOn(m, next, m.phase.todo - {tp}, m.phase.failed)
    requires PositionsInOrder(h, WithStored(m, tp, next))
    ensures PhaseInOrder(h, WithStored(m, tp, next))
  {
    StoredPositions(h, m, tp, next);
    StillLeftBehind(h, m, tp, next);
  }

  /** StoreOffset succeeded: everything fetched from the partition so far is accounted for. */
  lemma StoredKeeps(h: History, m: Member, tp: TopicPartition, next: Phase)
    requires MemberInv(h, m) && m.phase.Storing? && tp in m.phase.todo && tp in m.fetch
    requires StoringGoesOn(m, next, m.phase.todo - {tp}, m.phase.failed)
    ensures MemberInv(h, WithStored(m, tp, next))
  {
    IsReadyToStore(h, m, tp);
    StoredPositions(h, m, tp, next);
    StoredCovers(h, m, tp, next);
    StoredAhead(h, m, tp, next);
    StoredPhase(h, m, tp, next);
  }

  lemma NotStoredCovers(h: History, m: Member, next: Phase)
    requires PositionsInOrder(h, m) && Covered(h, m) && m.buffer == [] && m.phase.Storing?
    requires !next.Handling? && !next.Routing?
    ensures var m' := m.(phase := next);
            PositionsInOrder(h, m') && PendingInOrder(h, m') && Covered(h, m')
  {
    var m' := m.(phase := next);
    assert forall p :: p in m'.fetch ==> m'.Position(p) == m.Position(p);
    assert forall e :: !m.Pending(e) && !m'.Pending(e);
  }

  lemma NotStoredAhead(h: History, m: Member, tp: TopicPartition, next: Phase, failed: set<TopicPartition>)
    requires PositionsInOrder(h, m) && NoneElseAhead(h, m) && m.phase.Storing? && tp in m.phase.todo
    requires failed == m.phase.failed + if tp in m.fetch then {tp} else {}
    requires StoringGoesOn(m, next, m.phase.todo - {tp}, failed)
    requires PositionsInOrder(h, m.(phase := next))
    ensures NoneElseAhead(h, m.(phase := next))
  {
    var m' := m.(phase := next);
    forall e | e in m'.accounted && e.Tp() in m'.fetch && m'.Position(e.Tp()) <= e.offset
      ensures Ahead(m'.phase, e)
    {
      assert m'.Position(e.Tp()) == m.Position(e.Tp());
      assert Ahead(m.phase, e);
      assert e.Tp() in m.phase.todo && e.Tp() != tp ==> e.Tp() in m.phase.todo - {tp};
    }
  }

  lemma NotStoredPhase(h: History, m: Member, tp: TopicPartition, next: Phase, failed: set<TopicPartition>)
    requires PositionsInOrder(h, m) && PhaseInOrder(h, m) && m.phase.Storing? && tp in m.phase.todo
    requires failed == m.phase.failed + if tp in m.fetch then {tp} else {}
    requires StoringGoesOn(m, next, m.phase.todo - {tp}, failed)
    requires PositionsInOrder(h, m.(phase := next))
    ensures PhaseInOrder(h, m.(phase := next))
  {
    var m' := m.(phase := next);
    assert forall p :: p in m'.fetch ==> m'.Position(p) == m.Position(p);
    if tp in m.fetch {
      var e :| e in m.phase.batch && e.Tp() == tp && e.offset == m.phase.todo[tp];
      assert e in m'.accounted && m'.Position(tp) <= e.offset;
    }
    assert LeftBehind(m', failed);
  }

  /** StoreOffset did not store: the partition is gone, or its failure stops the loop. */
  lemma NotStoredKeeps(h: History, m: Member, tp: TopicPartition, next: Phase, failed: set<TopicPartition>)
    requires MemberInv(h, m) && m.phase.Storing? && tp in m.phase.todo
    requires failed == m.phase.failed + if tp in m.fetch then {tp} else {}
    requires StoringGoesOn(m, next, m.phase.todo - {tp}, failed)
    ensures MemberInv(h, m.(phase := next))
  {
    NotStoredCovers(h, m, next);
    NotStoredAhead(h, m, tp, next, failed);
    NotStoredPhase(h, m, tp, next, failed);
  }
}
