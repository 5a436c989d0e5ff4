/**
 The offset protocol as a state machine: any number of subscribers, the broker's log and
 committed positions, and every step either can take (run, runSingleLoop, runBatchLoop and
 dispatchBatch in subscribe/subscriber.go; rebalanceCallback, StoreOffset and CommitStored in
 internal/subscribe/subscribedriver/consumer.go).

 A step is a label.  `Enabled` says when it can happen and `Apply` what it does; everything the
 environment decides (what Poll returns, verdicts, failures, crashes, who is assigned what) is in
 the label, so a run is a sequence of labels.  Assignments may overlap: nothing below relies on a
 partition having one owner.
 */
module ConsumerGroup {
  import opened Types
  import opened OffsetStore
  import opened Buffering
  import Ladder
  import Wire

  type MemberId = nat

  // --- State

  /** What has happened and cannot be undone. */
  datatype History = History(
    log: seq<Message>,                  // every record the broker holds, in the order it was written
    ends: map<TopicPartition, nat>,     // the next offset of each partition
    handled: set<Message>,              // the handler succeeded
    writtenOff: set<Message>)           // the error strategy returned nil
  {
    function End(tp: TopicPartition): nat {
      if tp in ends then ends[tp] else 0
    }

    predicate Resolved(e: Message) {
      e in handled || e in writtenOff
    }

    /** Whatever was resolved still is. */
    predicate Remembers(before: History) {
      before.handled <= handled && before.writtenOff <= writtenOff
    }
  }

  datatype Mode = Single | Batch(size: nat)

  /** Why a poll loop ended. */
  datatype Exit =
    | Cancelled
    | PollError
    | StrategyStopped(batch: seq<Message>, unresolved: seq<Message>)
    | StoreStopped(failed: set<TopicPartition>)

  /** Where a subscriber is in its poll loop. */
  datatype Phase =
    | Polling
    | Handling(batch: seq<Message>)                                      // the handler is running
    | Routing(batch: seq<Message>, whole: bool, left: seq<Message>)      // failures not yet accepted by the strategy
    | Storing(batch: seq<Message>, todo: map<TopicPartition, nat>, failed: set<TopicPartition>)
    | Committing(failed: set<TopicPartition>)
    | Stopping(why: Exit)                                                // the loop has ended
    | Closing(why: Exit)                                                 // the final commit has been made
    | Stopped

  /** One call of the error strategy, and whether it returned nil. */
  datatype Call = Call(msgs: seq<Message>, failure: Failure, ok: bool)

  /** What a loop has heard and done since it started, in order. */
  datatype Journal = Journal(
    verdicts: seq<Verdict>,                 // the handler's answers
    calls: seq<Call>,                       // the strategy's
    commits: seq<set<TopicPartition>>)      // what MaybeCommitStored committed, an empty set when it left that to librdkafka

  datatype Member = Member(
    mode: Mode,
    autoCommit: bool,
    joined: bool,                       // between an assign and its revoke
    base: Positions,                    // where each assigned partition started
    fetch: Positions,                   // the assignment, and what Poll reads next
    store: Positions,                   // librdkafka's offset store
    buffer: seq<Message>,
    accounted: set<Message>,            // resolved by this member since the assignment
    fetched: seq<Message>,              // everything it ever polled, in order
    left: seq<Segment>,                 // everything that left its buffer, in order
    journal: Journal,
    phase: Phase)
  {
    /** Where a partition would resume if the store were committed now. */
    function Position(tp: TopicPartition): nat
      requires tp in fetch && base.Keys == fetch.Keys
    {
      if tp in store then store[tp] else base[tp]
    }

    /** The batch whose outcome is not settled yet. */
    function InHand(): seq<Message> {
      match phase
      case Handling(batch) => batch
      case Routing(batch, _, _) => batch
      case _ => []
    }

    /** The batch being handled, routed or stored, or given up half-way. */
    function InWork(): seq<Message> {
      match phase
      case Handling(batch) => batch
      case Routing(batch, _, _) => batch
      case Storing(batch, _, _) => batch
      case Stopping(StrategyStopped(batch, _)) => batch
      case _ => []
    }

    /** Polled, and its outcome not settled. */
    predicate Pending(e: Message) {
      e in buffer || e in InHand()
    }
  }

  /** Which error strategy the subscribers run: any, or the retry strategy with these settings. */
  datatype Policy = AnyStrategy | RetryWith(rc: Ladder.RetryConfig)

  datatype Group = Group(
    policy: Policy,
    history: History,
    committed: Positions,
    members: map<MemberId, Member>)
  {
    /** auto.offset.reset=earliest: a partition without a commit starts at its first record. */
    function Committed(tp: TopicPartition): nat {
      if tp in committed then committed[tp] else 0
    }
  }

  function Newcomer(mode: Mode, autoCommit: bool): Member {
    Member(mode, autoCommit, false, map[], map[], map[], [], {}, [], [], Journal([], [], []), Polling)
  }

  function Init(policy: Policy): Group {
    Group(policy, History([], map[], {}, {}), map[], map[])
  }

  // --- Steps

  /** What a handler reports over a batch: one failure for all, or one flag per item. */
  datatype Verdict = WholeFailed | Items(failed: seq<bool>)

  datatype Label =
    | Append(record: Message)                                            // some producer writes a record
    | Start(id: MemberId, mode: Mode, autoCommit: bool)
    | Assign(id: MemberId, tps: set<TopicPartition>)                     // inside Poll
    | Revoke(id: MemberId, published: set<TopicPartition>)               // inside Poll: drop, commit, unassign
    | Lose(id: MemberId, tp: TopicPartition)                             // a partition goes without a callback
    | Fetch(id: MemberId, msg: Message, timedOut: bool)                  // Poll returns a message
    | Idle(id: MemberId, timedOut: bool)                                 // Poll returns nothing
    | PollFails(id: MemberId)
    | Cancel(id: MemberId)
    | HandlerReturns(id: MemberId, verdict: Verdict)
    | StrategyReturns(id: MemberId, failure: Failure, ok: bool, written: seq<Message>)  // records it got acknowledged meanwhile
    | StoreReturns(id: MemberId, tp: TopicPartition, ok: bool)
    | CommitReturns(id: MemberId, published: set<TopicPartition>)        // MaybeCommitStored
    | Tick(id: MemberId, published: set<TopicPartition>)                 // the background committer
    | FinalCommit(id: MemberId, published: set<TopicPartition>)
    | CloseDriver(id: MemberId, published: set<TopicPartition>)
    | Crash(id: MemberId)

  function Write(h: History, record: Message): History {
    h.(log := h.log + [record], ends := h.ends[record.Tp() := record.offset + 1])
  }

  function WriteAll(h: History, records: seq<Message>): History {
    if records == [] then h else Write(WriteAll(h, records[..|records| - 1]), records[|records| - 1])
  }

  /**
   The broker only ever writes at or past the end of a partition.  A record is shown as Poll converts
   it, which gives every header its proper key (Ladder.LandedIsProper).
   */
  predicate CanWrite(h: History, records: seq<Message>) {
    records == [] ||
    (var front := records[..|records| - 1];
     var last := records[|records| - 1];
     CanWrite(h, front) && last.offset >= WriteAll(h, front).End(last.Tp()) && Wire.ProperKeys(last.headers))
  }

  /** The items of a batch that the handler failed, in batch order. */
  function FailedItems(batch: seq<Message>, failed: seq<bool>): seq<Message>
    requires |batch| == |failed|
  {
    if batch == [] then []
    else
      var n := |batch| - 1;
      FailedItems(batch[..n], failed[..n]) + if failed[n] then [batch[n]] else []
  }

  /** Walking the batch from the front finds the same items. */
  lemma {:induction false} FailedFromFront(batch: seq<Message>, failed: seq<bool>)
    requires |batch| == |failed| > 0
    ensures FailedItems(batch, failed) == (if failed[0] then [batch[0]] else []) + FailedItems(batch[1..], failed[1..])
  {
    var n := |batch| - 1;
    if n == 0 {
      assert batch[..n] == [] && batch[1..] == [];
    } else {
      FailedFromFront(batch[..n], failed[..n]);
      assert batch[..n][1..] == batch[1..][..n - 1] && failed[..n][1..] == failed[1..][..n - 1];
    }
  }

  /** What is left to route at each point of a walk over the batch. */
  ghost predicate Countdown(rests: seq<seq<Message>>, batch: seq<Message>, failed: seq<bool>) {
    && |rests| == |batch| + 1 == |failed| + 1 && rests[|batch|] == []
    && forall i :: 0 <= i < |batch| ==> rests[i] == (if failed[i] then [batch[i]] else []) + rests[i + 1]
  }

  lemma {:induction false} CountdownExists(batch: seq<Message>, failed: seq<bool>) returns (rests: seq<seq<Message>>)
    requires |batch| == |failed|
    ensures Countdown(rests, batch, failed) && rests[0] == FailedItems(batch, failed)
  {
    if batch == [] {
      rests := [[]];
    } else {
      FailedFromFront(batch, failed);
      var tail := CountdownExists(batch[1..], failed[1..]);
      rests := [FailedItems(batch, failed)] + tail;
      forall i | 0 <= i < |batch|
        ensures rests[i] == (if failed[i] then [batch[i]] else []) + rests[i + 1]
      {
        if i > 0 {
          assert rests[i] == tail[i - 1] && rests[i + 1] == tail[i] && batch[1..][i - 1] == batch[i];
        }
      }
    }
  }

  /** The messages of the strategy call that is made next. */
  function NextCall(whole: bool, left: seq<Message>): seq<Message>
    requires left != []
  {
    if whole then left else left[..1]
  }

  /** routeBatchFailures moves on, or every message is resolved and storing begins. */
  function RouteOrStore(batch: seq<Message>, whole: bool, left: seq<Message>): Phase {
    if left == [] then Storing(batch, Highest(batch), {}) else Routing(batch, whole, left)
  }

  /** Whether what is buffered is to be dispatched. */
  predicate Due(mode: Mode, buffer: seq<Message>, timedOut: bool) {
    buffer != [] && (mode.Single? || |buffer| >= mode.size || timedOut)
  }

  /** Add, then dispatch when the batch is full or has timed out; single mode dispatches at once. */
  function Buffered(m: Member, polled: seq<Message>, timedOut: bool): Member {
    var buffer := m.buffer + polled;
    var fetched := m.fetched + polled;
    if Due(m.mode, buffer, timedOut)
    then m.(buffer := [], fetched := fetched, left := m.left + [Dispatched(buffer)], phase := Handling(buffer))
    else m.(buffer := buffer, fetched := fetched)
  }

  /** StoreOffset's answer is a success, a revoked partition, or a real failure. */
  datatype StoreAnswer = Stored | Revoked | Failed

  function Answer(m: Member, tp: TopicPartition, ok: bool): StoreAnswer {
    if tp !in m.fetch then Revoked else if ok then Stored else Failed
  }

  /** After one StoreOffset: batch mode goes on to the next partition, single mode is done with its message. */
  function AfterStore(m: Member, tp: TopicPartition, ok: bool): Member
    requires m.phase.Storing? && tp in m.phase.todo
  {
    var answer := Answer(m, tp, ok);
    var store := if answer.Stored? then m.store[tp := m.phase.todo[tp] + 1] else m.store;
    var failed := m.phase.failed + if answer.Failed? then {tp} else {};
    var todo := m.phase.todo - {tp};
    var next :=
      if m.mode.Single? then
        (match answer
         case Stored => Committing({})
         case Revoked => Polling
         case Failed => Stopping(StoreStopped(failed)))
      else if todo == map[] then Committing(failed)
      else Storing(m.phase.batch, todo, failed);
    m.(store := store, phase := next)
  }

  /** A commit that lands for `published` and for nothing else. */
  function Publish(committed: Positions, store: Positions, published: set<TopicPartition>): Positions {
    committed + map tp | tp in published && tp in store :: store[tp]
  }

  // When a member's step can happen

  /** Poll returns the next record of an assigned partition. */
  predicate IsNext(h: History, m: Member, msg: Message) {
    && msg in h.log && msg.Tp() in m.fetch && m.fetch[msg.Tp()] <= msg.offset
    && forall e :: e in h.log && e.Tp() == msg.Tp() && m.fetch[msg.Tp()] <= e.offset ==> msg.offset <= e.offset
  }

  /** The handler answers for every item of its batch. */
  predicate CanReturn(m: Member, verdict: Verdict) {
    m.phase.Handling? && (verdict.Items? ==> |verdict.failed| == |m.phase.batch|)
  }

  /** The retry strategy returns nil only once each message of the call has an acknowledged record. */
  predicate Confirmed(policy: Policy, call: seq<Message>, written: seq<Message>) {
    policy.RetryWith? ==>
      forall e :: e in call ==> exists w :: w in written && Ladder.Carries(policy.rc, e, w)
  }

  predicate CanRoute(g: Group, m: Member, ok: bool, written: seq<Message>) {
    && m.phase.Routing? && m.phase.left != []
    && CanWrite(g.history, written)
    && (ok ==> Confirmed(g.policy, NextCall(m.phase.whole, m.phase.left), written))
  }

  predicate CanStore(m: Member, tp: TopicPartition) {
    m.phase.Storing? && tp in m.phase.todo
  }

  predicate EnabledAt(g: Group, m: Member, l: Label) {
    match l
    case Assign(_, _) => m.phase.Polling? && !m.joined
    case Revoke(_, published) => m.phase.Polling? && m.joined && published <= m.store.Keys
    case Lose(_, tp) => tp in m.fetch
    case Fetch(_, msg, _) => m.phase.Polling? && IsNext(g.history, m, msg)
    case Idle(_, _) => m.phase.Polling?
    case PollFails(_) => m.phase.Polling?
    case Cancel(_) => m.phase.Polling?
    case HandlerReturns(_, verdict) => CanReturn(m, verdict)
    case StrategyReturns(_, _, ok, written) => CanRoute(g, m, ok, written)
    case StoreReturns(_, tp, _) => CanStore(m, tp)
    case CommitReturns(_, published) =>
      m.phase.Committing? && published <= m.store.Keys && (m.autoCommit ==> published == {})
    case Tick(_, published) => m.autoCommit && published <= m.store.Keys
    case FinalCommit(_, published) => m.phase.Stopping? && published <= m.store.Keys
    case CloseDriver(_, published) => m.phase.Closing? && published <= m.store.Keys
    case Crash(_) => true
    case _ => false
  }

  predicate Enabled(g: Group, l: Label) {
    match l
    case Append(record) => CanWrite(g.history, [record])
    case Start(id, _, _) => id !in g.members
    case _ => l.id in g.members && EnabledAt(g, g.members[l.id], l)
  }

  // What a member's step does

  function OnAssign(g: Group, m: Member, tps: set<TopicPartition>): Member {
    var start := map tp | tp in tps :: g.Committed(tp);
    m.(joined := true, base := start, fetch := start, store := map[], accounted := {})
  }

  function OnRevoke(m: Member): Member {
    m.(joined := false, base := map[], fetch := map[], store := map[], accounted := {},
       buffer := [], left := m.left + [Dropped(m.buffer)])
  }

  function OnLose(m: Member, tp: TopicPartition): Member {
    m.(base := m.base - {tp}, fetch := m.fetch - {tp}, store := m.store - {tp})
  }

  function OnFetch(m: Member, msg: Message, timedOut: bool): Member {
    Buffered(m.(fetch := m.fetch[msg.Tp() := msg.offset + 1]), [msg], timedOut)
  }

  function OnExit(m: Member, why: Exit): Member {
    m.(phase := Stopping(why))
  }

  function Succeeded(batch: seq<Message>, failed: seq<Message>): set<Message> {
    set e | e in batch && e !in failed
  }

  function OnVerdict(m: Member, verdict: Verdict): Member
    requires CanReturn(m, verdict)
  {
    var batch := m.phase.batch;
    if verdict.WholeFailed? then m.(phase := Routing(batch, true, batch))
    else
      var failed := FailedItems(batch, verdict.failed);
      m.(accounted := m.accounted + Succeeded(batch, failed), phase := RouteOrStore(batch, false, failed))
  }

  function OnRouted(m: Member, ok: bool): Member
    requires m.phase.Routing? && m.phase.left != []
  {
    if !ok then m.(phase := Stopping(StrategyStopped(m.phase.batch, m.phase.left)))
    else
      var call := NextCall(m.phase.whole, m.phase.left);
      m.(accounted := m.accounted + (set e | e in call),
         phase := RouteOrStore(m.phase.batch, m.phase.whole, m.phase.left[|call|..]))
  }

  function OnCommitted(m: Member): Member
    requires m.phase.Committing?
  {
    m.(phase := if m.phase.failed == {} then Polling else Stopping(StoreStopped(m.phase.failed)))
  }

  function OnFinalCommit(m: Member): Member
    requires m.phase.Stopping?
  {
    m.(phase := Closing(m.phase.why))
  }

  function OnClose(m: Member): Member {
    m.(joined := false, base := map[], fetch := map[], store := map[], phase := Stopped,
       buffer := [], left := m.left + [Dropped(m.buffer)])
  }

  /** What a step adds to the journal. */
  function Noted(m: Member, l: Label): Journal {
    match l
    case HandlerReturns(_, verdict) => m.journal.(verdicts := m.journal.verdicts + [verdict])
    case StrategyReturns(_, failure, ok, _) =>
      if m.phase.Routing? && m.phase.left != []
      then m.journal.(calls := m.journal.calls + [Call(NextCall(m.phase.whole, m.phase.left), failure, ok)]) else m.journal
    case CommitReturns(_, published) => m.journal.(commits := m.journal.commits + [published])
    case _ => m.journal
  }

  /** The acting member after its step. */
  function Moved(g: Group, m: Member, l: Label): Member
    requires EnabledAt(g, m, l)
  {
    match l
    case Assign(_, tps) => OnAssign(g, m, tps)
    case Revoke(_, _) => OnRevoke(m)
    case Lose(_, tp) => OnLose(m, tp)
    case Fetch(_, msg, timedOut) => OnFetch(m, msg, timedOut)
    case Idle(_, timedOut) => Buffered(m, [], timedOut)
    case PollFails(_) => OnExit(m, PollError)
    case Cancel(_) => OnExit(m, Cancelled)
    case HandlerReturns(_, verdict) => OnVerdict(m, verdict).(journal := Noted(m, l))
    case StrategyReturns(_, _, ok, _) => OnRouted(m, ok).(journal := Noted(m, l))
    case StoreReturns(_, tp, ok) => AfterStore(m, tp, ok)
    case CommitReturns(_, _) => OnCommitted(m).(journal := Noted(m, l))
    case FinalCommit(_, _) => OnFinalCommit(m)
    case CloseDriver(_, _) => OnClose(m)
    case _ => m
  }

  function HistoryOnVerdict(h: History, m: Member, verdict: Verdict): History
    requires CanReturn(m, verdict)
  {
    if verdict.WholeFailed? then h
    else h.(handled := h.handled + Succeeded(m.phase.batch, FailedItems(m.phase.batch, verdict.failed)))
  }

  function HistoryOnRouted(h: History, m: Member, ok: bool, written: seq<Message>): History
    requires m.phase.Routing? && m.phase.left != []
  {
    var wrote := WriteAll(h, written);
    if !ok then wrote
    else wrote.(writtenOff := wrote.writtenOff + (set e | e in NextCall(m.phase.whole, m.phase.left)))
  }

  /** What the step adds to the history. */
  function Recorded(g: Group, m: Member, l: Label): History
    requires EnabledAt(g, m, l)
  {
    match l
    case HandlerReturns(_, verdict) => HistoryOnVerdict(g.history, m, verdict)
    case StrategyReturns(_, _, ok, written) => HistoryOnRouted(g.history, m, ok, written)
    case _ => g.history
  }

  function Published(g: Group, m: Member, l: Label): Positions {
    match l
    case Revoke(_, published) => Publish(g.committed, m.store, published)
    case CommitReturns(_, published) => Publish(g.committed, m.store, published)
    case Tick(_, published) => Publish(g.committed, m.store, published)
    case FinalCommit(_, published) => Publish(g.committed, m.store, published)
    case CloseDriver(_, published) => Publish(g.committed, m.store, published)
    case _ => g.committed
  }

  function Apply(g: Group, l: Label): Group
    requires Enabled(g, l)
  {
    match l
    case Append(record) => g.(history := WriteAll(g.history, [record]))
    case Start(id, mode, autoCommit) => g.(members := g.members[id := Newcomer(mode, autoCommit)])
    case Crash(id) => g.(members := g.members - {id})
    case _ =>
      var m := g.members[l.id];
      g.(history := Recorded(g, m, l),
         committed := Published(g, m, l),
         members := g.members[l.id := Moved(g, m, l)])
  }

  /** A sequence of labels that can happen one after the other. */
  predicate IsRun(g: Group, run: seq<Label>)
    decreases |run|, 0
  {
    run == [] || (IsRun(g, run[..|run| - 1]) && Enabled(After(g, run[..|run| - 1]), run[|run| - 1]))
  }

  function After(g: Group, run: seq<Label>): Group
    requires IsRun(g, run)
    decreases |run|, 1
  {
    if run == [] then g else Apply(After(g, run[..|run| - 1]), run[|run| - 1])
  }

  /** The same run, with every state on the way. */
  ghost predicate IsTrace(states: seq<Group>, run: seq<Label>) {
    && |states| == |run| + 1
    && forall i :: 0 <= i < |run| ==> Stepped(states[i], run[i], states[i + 1])
  }

  predicate Stepped(g: Group, l: Label, g': Group) {
    Enabled(g, l) && g' == Apply(g, l)
  }

  lemma {:induction false} TraceIsRun(states: seq<Group>, run: seq<Label>)
    requires IsTrace(states, run)
    ensures IsRun(states[0], run) && After(states[0], run) == states[|run|]
  {
    if run != [] {
      var n := |run| - 1;
      TraceIsRun(states[..|run|], run[..n]);
      assert Stepped(states[n], run[n], states[n + 1]);
    }
  }
}
