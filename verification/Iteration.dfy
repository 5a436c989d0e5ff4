/**
 What one iteration of a poll loop does, as a relation between the group before and after it, and
 what follows for a whole loop (runSingleLoop and runBatchLoop in subscribe/subscriber.go).
 */
module Iteration {
  import opened Types
  import opened Ladder
  import opened OffsetStore
  import opened ConsumerGroup
  import opened Buffering
  import opened Batching
  import opened Driver
  import RetryStrategy

  // --- One iteration's worth of environment

  /** What the world answers to one strategy call. */
  datatype CallScript = CallScript(stamps: seq<Stamps>, sends: RetryStrategy.SendScript)

  datatype Turn = Turn(
    cancelled: bool,
    meanwhile: seq<Label>,                // the rest of the group, before Poll
    rebalances: seq<Rebalance>,
    outcome: PollOutcome,
    now: Time,
    handler: HandlerScript,
    call: CallScript,                     // a strategy call on the whole batch
    calls: map<Message, CallScript>,      // a strategy call on one message
    during: seq<Label>,                   // the rest of the group, before each store
    storeFails: set<TopicPartition>,
    commit: set<TopicPartition>)          // the partitions a commit lands for

  function CallFor(turn: Turn, msg: Message): CallScript {
    if msg in turn.calls then turn.calls[msg] else turn.call
  }

  // --- What the strategy is asked, and what it answers

  /** Which error strategy a subscriber has; a retry strategy accepts nothing before Initialize. */
  datatype Answering = Skipping | FailingFast | Retrying(initialized: bool)

  /** Whether HandleError returns nil. */
  predicate Accepts(who: Answering, script: CallScript, n: nat) {
    match who
    case Skipping => true
    case FailingFast => false
    case Retrying(initialized) => initialized && forall i :: 0 <= i < n ==> script.sends.Acknowledges(i)
  }

  /** The calls for items failed one by one, from the i-th item on, up to the first one refused. */
  function ItemCalls(who: Answering, turn: Turn, msgs: seq<Message>, i: nat): seq<Call>
    requires i <= |msgs|
    decreases |msgs| - i
  {
    if i == |msgs| then []
    else
      var verdict := VerdictOn(turn.handler.fails, i);
      if verdict.None? then ItemCalls(who, turn, msgs, i + 1)
      else
        var call := Call([msgs[i]], WithReason(verdict.value), Accepts(who, CallFor(turn, msgs[i]), 1));
        [call] + if call.ok then ItemCalls(who, turn, msgs, i + 1) else []
  }

  /** What routeBatchFailures asks: the whole batch at once if it failed as a whole, else item by item. */
  function CallsFor(who: Answering, turn: Turn, msgs: seq<Message>): seq<Call> {
    var whole := WholeFailure(turn.handler);
    if whole.Some? then [Call(msgs, WithReason(whole.value), Accepts(who, turn.call, |msgs|))]
    else ItemCalls(who, turn, msgs, 0)
  }

  /** A panic, and a failure of the whole batch, is one call with every message; a panic has an error, no step and no code. */
  lemma WholeBatchIsOneCall(who: Answering, turn: Turn, msgs: seq<Message>)
    requires turn.handler.panics || turn.handler.whole.Some?
    ensures var calls := CallsFor(who, turn, msgs);
            && |calls| == 1 && calls[0].msgs == msgs && calls[0].failure.err.Some?
            && (turn.handler.panics ==>
                  !calls[0].failure.err.value.permanent && calls[0].failure.step == 0 && calls[0].failure.code == "")
            && (!turn.handler.panics ==>
                  var f := turn.handler.whole.value;
                  && calls[0].failure.step == f.step && calls[0].failure.code == f.code
                  && (f.err.Some? ==> calls[0].failure == f))
  {
  }

  predicate Refused(calls: seq<Call>) {
    calls != [] && !calls[|calls| - 1].ok
  }

  lemma FlagsFrom(msgs: seq<Message>, fails: seq<(nat, Failure)>, i: nat)
    requires i < |msgs|
    ensures var flags := Flags(|msgs|, fails);
            FailedItems(msgs[i..], flags[i..]) ==
            (if VerdictOn(fails, i).Some? then [msgs[i]] else []) + FailedItems(msgs[i + 1..], flags[i + 1..])
  {
    var flags := Flags(|msgs|, fails);
    FailedFromFront(msgs[i..], flags[i..]);
    assert msgs[i..][1..] == msgs[i + 1..] && flags[i..][1..] == flags[i + 1..];
  }

  /**
   The calls are for a prefix of the failed messages, in order, each alone; all but the last are
   accepted, and the prefix is proper only if the last is refused.
   */
  ghost predicate AskedInOrder(calls: seq<Call>, failed: seq<Message>) {
    && |calls| <= |failed|
    && (forall k :: 0 <= k < |calls| ==> calls[k].msgs == [failed[k]] && (k < |calls| - 1 ==> calls[k].ok))
    && (|calls| < |failed| ==> Refused(calls))
  }

  lemma AskedFirst(call: Call, calls: seq<Call>, e: Message, failed: seq<Message>)
    requires call.msgs == [e] && if call.ok then AskedInOrder(calls, failed) else calls == []
    ensures AskedInOrder([call] + calls, [e] + failed)
  {
    var all := [call] + calls;
    assert forall k :: 0 < k < |all| ==> all[k] == calls[k - 1];
  }

  /** Batch routing: the strategy is asked item by item, in poll order, up to the first refusal. */
  lemma {:induction false} CallsArePrefix(who: Answering, turn: Turn, msgs: seq<Message>, i: nat)
    requires i <= |msgs|
    ensures AskedInOrder(ItemCalls(who, turn, msgs, i), FailedItems(msgs[i..], Flags(|msgs|, turn.handler.fails)[i..]))
    decreases |msgs| - i
  {
    if i < |msgs| {
      var flags, verdict := Flags(|msgs|, turn.handler.fails), VerdictOn(turn.handler.fails, i);
      FlagsFrom(msgs, turn.handler.fails, i);
      CallsArePrefix(who, turn, msgs, i + 1);
      var failed := FailedItems(msgs[i + 1..], flags[i + 1..]);
      if verdict.None? {
        assert [] + failed == failed;
      } else {
        var call := Call([msgs[i]], WithReason(verdict.value), Accepts(who, CallFor(turn, msgs[i]), 1));
        AskedFirst(call, if call.ok then ItemCalls(who, turn, msgs, i + 1) else [], msgs[i], failed);
      }
    }
  }

  /** Every call for an item carries that item's own failure, with an error, and skip and fail-fast answer all alike. */
  lemma {:induction false} ItemCallsCarryTheirFailure(who: Answering, turn: Turn, msgs: seq<Message>, i: nat, k: nat)
    requires i <= |msgs| && k < |ItemCalls(who, turn, msgs, i)|
    ensures var call := ItemCalls(who, turn, msgs, i)[k];
            && (who.Skipping? ==> call.ok) && (who.FailingFast? ==> !call.ok) && (who == Retrying(false) ==> !call.ok)
            && call.failure.err.Some?
            && exists n :: i <= n < |msgs| && call.msgs == [msgs[n]] && OwnFailure(turn, n, call.failure)
    decreases |msgs| - i
  {
    var verdict := VerdictOn(turn.handler.fails, i);
    if verdict.Some? && k == 0 {
      assert OwnFailure(turn, i, ItemCalls(who, turn, msgs, i)[0].failure);
    } else {
      ItemCallsCarryTheirFailure(who, turn, msgs, i + 1, if verdict.Some? then k - 1 else k);
    }
  }

  /** The failure the handler recorded last on an item, with an error put in if it had none. */
  predicate OwnFailure(turn: Turn, n: nat, f: Failure) {
    && VerdictOn(turn.handler.fails, n).Some?
    && var recorded := VerdictOn(turn.handler.fails, n).value;
       f.step == recorded.step && f.code == recorded.code && (recorded.err.Some? ==> f == recorded)
  }

  /** The messages of every accepted call are written off. */
  ghost predicate WritesOff(h: History, calls: seq<Call>) {
    forall k :: 0 <= k < |calls| && calls[k].ok ==> forall e :: e in calls[k].msgs ==> e in h.writtenOff
  }

  /** Every message is settled: written off if the handler failed it, alone or with the batch, and handled if not. */
  predicate Settles(h: History, batch: seq<Message>, script: HandlerScript) {
    forall i :: 0 <= i < |batch| ==>
      if script.panics || script.whole.Some? || VerdictOn(script.fails, i).Some?
      then batch[i] in h.writtenOff else batch[i] in h.handled
  }

  lemma FirstAndRest(h: History, call: Call, rest: seq<Call>)
    requires call.ok && WritesOff(h, [call] + rest) && !Refused([call] + rest)
    ensures WritesOff(h, rest) && !Refused(rest)
    ensures forall e :: e in call.msgs ==> e in h.writtenOff
  {
    var calls := [call] + rest;
    assert calls[0] == call && forall j :: 0 <= j < |rest| ==> rest[j] == calls[j + 1];
  }

  lemma {:induction false} ItemIsWrittenOff(who: Answering, turn: Turn, msgs: seq<Message>, i: nat, k: nat, h: History)
    requires i <= k < |msgs| && VerdictOn(turn.handler.fails, k).Some?
    requires !Refused(ItemCalls(who, turn, msgs, i)) && WritesOff(h, ItemCalls(who, turn, msgs, i))
    ensures msgs[k] in h.writtenOff
    decreases k - i
  {
    var verdict := VerdictOn(turn.handler.fails, i);
    if verdict.Some? {
      var call := Call([msgs[i]], WithReason(verdict.value), Accepts(who, CallFor(turn, msgs[i]), 1));
      if call.ok {
        FirstAndRest(h, call, ItemCalls(who, turn, msgs, i + 1));
        assert msgs[i] in call.msgs;
      }
    }
    if i < k {
      ItemIsWrittenOff(who, turn, msgs, i + 1, k, h);
    }
  }

  /** Once no call was refused, every message is settled. */
  lemma NoneRefusedSettles(who: Answering, turn: Turn, msgs: seq<Message>, h: History)
    requires !Refused(CallsFor(who, turn, msgs)) && WritesOff(h, CallsFor(who, turn, msgs))
    requires HandlesWhatItDidNotFail(h, msgs, turn.handler)
    ensures Settles(h, msgs, turn.handler)
  {
    var script, whole := turn.handler, WholeFailure(turn.handler);
    forall i | 0 <= i < |msgs|
      ensures if script.panics || script.whole.Some? || VerdictOn(script.fails, i).Some?
              then msgs[i] in h.writtenOff else msgs[i] in h.handled
    {
      if whole.Some? {
        assert msgs[i] in CallsFor(who, turn, msgs)[0].msgs;
      } else if VerdictOn(turn.handler.fails, i).Some? {
        ItemIsWrittenOff(who, turn, msgs, 0, i, h);
      }
    }
  }

  datatype LoopError = PollingError | StrategyError | StoreError

  /** The error a loop returns, by the way it ended. */
  function ErrorOf(why: Exit): Option<LoopError> {
    match why
    case Cancelled => None
    case PollError => Some(PollingError)
    case StrategyStopped(_, _) => Some(StrategyError)
    case StoreStopped(_) => Some(StoreError)
  }

  /** The loop goes on polling, or has stopped for the reason its error gives. */
  predicate Ended(phase: Phase, stopped: bool, err: Option<LoopError>) {
    if stopped then phase.Stopping? && ErrorOf(phase.why) == err else phase.Polling? && err == None
  }

  // --- What dispatching a batch does

  /** On a partition still held, this offset is stored. */
  predicate StoredAt(m: Member, tp: TopicPartition, offset: nat) {
    tp in m.fetch ==> tp in m.store && m.store[tp] == offset + 1
  }

  /** Every maximum whose store succeeds is stored, on the partitions still held. */
  ghost predicate StoresMaxima(m: Member, highest: map<TopicPartition, nat>, fails: set<TopicPartition>) {
    forall tp :: tp in highest && tp !in fails ==> StoredAt(m, tp, highest[tp])
  }

  /** The held partitions of the batch whose store fails. */
  ghost predicate FailsExactly(m: Member, failed: set<TopicPartition>, highest: map<TopicPartition, nat>, fails: set<TopicPartition>) {
    && failed <= highest.Keys * fails
    && forall tp :: tp in highest && tp in m.fetch && tp in fails ==> tp in failed
  }

  /** The messages the handler did not fail. */
  predicate HandlesWhatItDidNotFail(h: History, batch: seq<Message>, script: HandlerScript) {
    !script.panics && script.whole.None? ==>
      forall i :: 0 <= i < |batch| && VerdictOn(script.fails, i).None? ==> batch[i] in h.handled
  }

  /**
   A batch has been worked on, starting from a history and a member: the handler's verdict is what
   counted, and the strategy was asked for exactly what the handler failed; the loop stops for the
   strategy exactly if it refused.  If it did, nothing is stored; if not, every message is settled and
   every maximum whose store succeeds is stored.  Other partitions are left alone.
   */
  ghost predicate Worked(
    h: History, m: Member, g: Group, id: MemberId, batch: seq<Message>, turn: Turn, who: Answering, err: Option<LoopError>)
    requires id in g.members
  {
    var m' := g.members[id];
    && g.history.Remembers(h)
    && m'.buffer == m.buffer && m'.fetched == m.fetched && m'.left == m.left
    && HandledAndRouted(m.journal, m'.journal, g.history, batch, turn, who)
    && (err == Some(StrategyError) <==> Refused(CallsFor(who, turn, batch)))
    && Commits(m, m', g, batch, turn, err)
    && if err == Some(StrategyError) then Untouched(m, m', {})
       else
         && Settles(g.history, batch, turn.handler)
         && StoresMaxima(m', Highest(batch), turn.storeFails)
         && Untouched(m, m', Highest(batch).Keys - turn.storeFails)
         && StopsOnFailedStores(m', Highest(batch), turn.storeFails, err)
  }

  /** The handler was believed, and the strategy asked, once each. */
  ghost predicate HandledAndRouted(j: Journal, j': Journal, h: History, batch: seq<Message>, turn: Turn, who: Answering) {
    && j'.verdicts == j.verdicts + [VerdictOf(turn.handler, |batch|)]
    && j'.calls == j.calls + CallsFor(who, turn, batch)
    && HandlesWhatItDidNotFail(h, batch, turn.handler)
    && WritesOff(h, CallsFor(who, turn, batch))
  }

  /** What MaybeCommitStored commits: the stored partitions a commit lands for, or nothing in the background cadence. */
  function Landing(m: Member, turn: Turn): set<TopicPartition> {
    if m.autoCommit then {} else turn.commit * m.store.Keys
  }

  /** One commit was made, last of all, and what it landed for is committed as stored. */
  ghost predicate CommitsOnce(j: Journal, m': Member, g: Group, turn: Turn) {
    && m'.journal.commits == j.commits + [Landing(m', turn)]
    && forall tp :: tp in Landing(m', turn) ==> g.Committed(tp) == m'.store[tp]
  }

  /**
   Batch mode commits after every batch that was stored, single mode after every message that was; a
   refusal commits nothing, and in single mode neither does a failed store nor a lost partition.
   */
  ghost predicate Commits(m: Member, m': Member, g: Group, batch: seq<Message>, turn: Turn, err: Option<LoopError>) {
    && m'.mode == m.mode && m'.autoCommit == m.autoCommit
    && if err == Some(StrategyError) || (m.mode.Single? && err.Some?) then m'.journal.commits == m.journal.commits
       else
         || CommitsOnce(m.journal, m', g, turn)
         || (m.mode.Single? && m'.journal.commits == m.journal.commits && exists e :: e in batch && e.Tp() !in m'.fetch)
  }

  /** The loop goes on if no held partition's store failed, and otherwise stops for exactly those. */
  ghost predicate StopsOnFailedStores(
    m: Member, highest: map<TopicPartition, nat>, fails: set<TopicPartition>, err: Option<LoopError>)
  {
    if err == None then forall tp :: tp in highest && tp in m.fetch ==> tp !in fails
    else
      && err == Some(StoreError) && m.phase.Stopping? && m.phase.why.StoreStopped?
      && m.phase.why.failed != {} && FailsExactly(m, m.phase.why.failed, highest, fails)
  }

  /** Only the store, the buffer and the assignment of the member matter to it. */
  lemma WorkedFrom(
    h: History, m: Member, n: Member, g: Group, id: MemberId, batch: seq<Message>, turn: Turn, who: Answering, err: Option<LoopError>)
    requires id in g.members && Worked(h, m, g, id, batch, turn, who, err)
    requires n.store == m.store && n.fetch.Keys == m.fetch.Keys && n.mode == m.mode && n.autoCommit == m.autoCommit
    requires n.buffer == m.buffer && n.fetched == m.fetched && n.left == m.left && n.journal == m.journal
    ensures Worked(h, n, g, id, batch, turn, who, err)
  {
  }

  // --- What an iteration does

  /** The group when Poll returns. */
  function AtPoll(g: Group, id: MemberId, turn: Turn): Group {
    RebalancedAll(MeanwhileAll(g, id, turn.meanwhile), id, turn.rebalances)
  }

  /** The messages an iteration takes from Poll. */
  function TakenIn(g: Group, id: MemberId, turn: Turn): seq<Message> {
    if turn.cancelled || turn.outcome.Fatal? then [] else Given(Offered(AtPoll(g, id, turn), id, turn.outcome))
  }

  /** The loop leaves, with nothing taken. */
  ghost predicate LeavesLoop(g: Group, g': Group, id: MemberId, why: Exit)
    requires id in g.members && id in g'.members
  {
    g'.history == g.history && g'.members[id] == OnExit(g.members[id], why)
  }

  /** The member once the messages Poll gave and the ones it buffered are a batch in hand. */
  function WithBatch(m: Member, taken: seq<Message>, batch: seq<Message>): Member {
    m.(buffer := [], fetched := m.fetched + taken, left := m.left + [Dispatched(batch)], phase := Handling(batch))
  }

  /** A single-message handler has no items to fail. */
  function OneMessage(turn: Turn): Turn {
    turn.(handler := turn.handler.(fails := []))
  }

  /** What every iteration keeps: nothing is forgotten, and what was polled is what Poll offered. */
  ghost predicate Advances(g: Group, g': Group, id: MemberId, turn: Turn) {
    && id in g.members && id in g'.members
    && g'.history.Remembers(g.history)
    && g'.members[id].fetched == g.members[id].fetched + TakenIn(g, id, turn)
  }

  /** One iteration of runSingleLoop. */
  ghost predicate SingleIteration(g: Group, g': Group, id: MemberId, turn: Turn, who: Answering, stopped: bool, err: Option<LoopError>) {
    var p := AtPoll(g, id, turn);
    && Advances(g, g', id, turn)
    && Ended(g'.members[id].phase, stopped, err)
    && if turn.cancelled then LeavesLoop(g, g', id, Cancelled)
       else if id !in p.members || !OnlyDropped(g.members[id], p.members[id]) then false
       else if turn.outcome.Fatal? then LeavesLoop(p, g', id, PollError)
       else
         var msg := Offered(p, id, turn.outcome);
         if msg.None? then g' == p
         else Worked(p.history, WithBatch(p.members[id], [msg.value], [msg.value]), g', id, [msg.value], OneMessage(turn), who, err)
  }

  /** Whether the buffer will have waited long enough once the message is in it. */
  predicate Overdue(buffer: seq<Message>, since: Option<Time>, msg: Option<Message>, now: Time, timeout: Time) {
    if buffer != [] then since.Some? && now - since.value >= timeout else msg.Some? && 0 >= timeout
  }

  /** The batch an iteration dispatches, if one is due. */
  function BatchDue(g: Group, since: Option<Time>, id: MemberId, timeout: Time, turn: Turn): Option<seq<Message>> {
    var p := AtPoll(g, id, turn);
    if turn.cancelled || turn.outcome.Fatal? || id !in p.members then None
    else
      var m, msg := p.members[id], Offered(p, id, turn.outcome);
      var all := m.buffer + Given(msg);
      if Due(m.mode, all, Overdue(m.buffer, since, msg, turn.now, timeout)) then Some(all) else None
  }

  /** No batch is due: the message stays in the buffer. */
  ghost predicate KeptForLater(p: Group, since: Option<Time>, g': Group, since': Option<Time>, id: MemberId, turn: Turn)
    requires id in p.members && id in g'.members
  {
    var m, m' := p.members[id], g'.members[id];
    var all := m.buffer + Given(Offered(p, id, turn.outcome));
    && g'.history == p.history && m'.store == m.store && m'.buffer == all && m'.left == m.left && m'.journal == m.journal
    && since' == if all == [] then None else if m.buffer == [] then Some(turn.now) else since
  }

  /** One iteration of runBatchLoop; `since` is when the first buffered message came. */
  ghost predicate BatchIteration(
    g: Group, since: Option<Time>, g': Group, since': Option<Time>, id: MemberId, timeout: Time,
    turn: Turn, who: Answering, stopped: bool, err: Option<LoopError>)
  {
    var p := AtPoll(g, id, turn);
    && Advances(g, g', id, turn)
    && Ended(g'.members[id].phase, stopped, err)
    && if turn.cancelled then LeavesLoop(g, g', id, Cancelled)
       else if id !in p.members || !OnlyDropped(g.members[id], p.members[id]) then false
       else if turn.outcome.Fatal? then LeavesLoop(p, g', id, PollError)
       else
         var batch := BatchDue(g, since, id, timeout, turn);
         if batch.None? then KeptForLater(p, since, g', since', id, turn)
         else
           && since' == None
           && Worked(p.history, WithBatch(p.members[id], TakenIn(g, id, turn), batch.value), g', id, batch.value, turn, who, err)
  }

  /** How the group was found when Poll returned. */
  ghost predicate PolledAt(g: Group, p: Group, id: MemberId, turn: Turn) {
    && !turn.cancelled && p == AtPoll(g, id, turn) && p.history.Remembers(g.history)
    && id in g.members && id in p.members && OnlyDropped(g.members[id], p.members[id])
  }

  /** Which batch is due, read off the group Poll left; an empty buffer has no clock, so a drop does not matter to it. */
  lemma DueAtPoll(g: Group, since: Option<Time>, p: Group, first: Option<Time>, id: MemberId, timeout: Time, turn: Turn)
    requires PolledAt(g, p, id, turn) && !turn.outcome.Fatal? && (p.members[id].buffer != [] ==> first == since)
    ensures var m, msg := p.members[id], Offered(p, id, turn.outcome);
            && TakenIn(g, id, turn) == Given(msg)
            && BatchDue(g, since, id, timeout, turn) ==
               (if Due(m.mode, m.buffer + Given(msg), Overdue(m.buffer, first, msg, turn.now, timeout))
                then Some(m.buffer + Given(msg)) else None)
  {
  }

  lemma CancelledIteration(g: Group, since: Option<Time>, g': Group, id: MemberId, timeout: Time, turn: Turn, who: Answering)
    requires turn.cancelled && id in g.members && id in g'.members && LeavesLoop(g, g', id, Cancelled)
    ensures SingleIteration(g, g', id, turn, who, true, None)
    ensures BatchIteration(g, since, g', since, id, timeout, turn, who, true, None)
  {
    assert g.members[id].fetched + [] == g.members[id].fetched;
  }

  lemma FailedPollIteration(g: Group, since: Option<Time>, p: Group, g': Group, since': Option<Time>, id: MemberId, timeout: Time, turn: Turn, who: Answering)
    requires PolledAt(g, p, id, turn) && turn.outcome.Fatal? && id in g'.members && LeavesLoop(p, g', id, PollError)
    ensures SingleIteration(g, g', id, turn, who, true, Some(PollingError))
    ensures BatchIteration(g, since, g', since', id, timeout, turn, who, true, Some(PollingError))
  {
    assert g.members[id].fetched + [] == g.members[id].fetched;
  }

  lemma EmptyIteration(g: Group, p: Group, id: MemberId, turn: Turn, who: Answering)
    requires PolledAt(g, p, id, turn) && !turn.outcome.Fatal? && Offered(p, id, turn.outcome).None?
    requires p.members[id].phase.Polling?
    ensures SingleIteration(g, p, id, turn, who, false, None)
  {
    assert g.members[id].fetched + [] == g.members[id].fetched;
  }

  lemma WorkedRemembers(g: Group, p: Group, g': Group)
    requires p.history.Remembers(g.history) && g'.history.Remembers(p.history)
    ensures g'.history.Remembers(g.history)
  {
  }

  lemma WorkedIteration(g: Group, p: Group, g': Group, id: MemberId, turn: Turn, who: Answering, err: Option<LoopError>)
    requires PolledAt(g, p, id, turn) && !turn.outcome.Fatal? && Offered(p, id, turn.outcome).Some? && id in g'.members
    requires var e := Offered(p, id, turn.outcome).value;
             Worked(p.history, WithBatch(p.members[id], [e], [e]), g', id, [e], OneMessage(turn), who, err)
    requires Ended(g'.members[id].phase, err.Some?, err)
    ensures SingleIteration(g, g', id, turn, who, err.Some?, err)
  {
    WorkedRemembers(g, p, g');
  }

  lemma DispatchedIteration(
    g: Group, since: Option<Time>, p: Group, g': Group, id: MemberId, timeout: Time, turn: Turn, who: Answering, err: Option<LoopError>)
    requires PolledAt(g, p, id, turn) && !turn.outcome.Fatal? && id in g'.members
    requires var batch := BatchDue(g, since, id, timeout, turn);
             && batch.Some?
             && Worked(p.history, WithBatch(p.members[id], TakenIn(g, id, turn), batch.value), g', id, batch.value, turn, who, err)
    requires Ended(g'.members[id].phase, err.Some?, err)
    ensures BatchIteration(g, since, g', None, id, timeout, turn, who, err.Some?, err)
  {
    WorkedRemembers(g, p, g');
  }

  lemma KeptIteration(
    g: Group, since: Option<Time>, p: Group, g': Group, since': Option<Time>, id: MemberId, timeout: Time, turn: Turn, who: Answering)
    requires PolledAt(g, p, id, turn) && !turn.outcome.Fatal? && id in g'.members
    requires BatchDue(g, since, id, timeout, turn).None? && KeptForLater(p, since, g', since', id, turn)
    requires g'.members[id].fetched == p.members[id].fetched + TakenIn(g, id, turn) && g'.members[id].phase.Polling?
    ensures BatchIteration(g, since, g', since', id, timeout, turn, who, false, None)
  {
  }

  /** What was worked on came straight from Poll. */
  lemma WorkedFromPoll(p: Group, mid: Group, g: Group, id: MemberId, msg: Message, turn: Turn, who: Answering, err: Option<LoopError>)
    requires id in p.members && Taken(p, mid, id, [msg]) && id in g.members
    requires Worked(mid.history, mid.members[id], g, id, [msg], turn, who, err)
    ensures Worked(p.history, WithBatch(p.members[id], [msg], [msg]), g, id, [msg], turn, who, err)
  {
    WorkedFrom(p.history, mid.members[id], WithBatch(p.members[id], [msg], [msg]), g, id, [msg], turn, who, err);
  }

  /** What was worked on came from the buffer and from Poll. */
  lemma WorkedFromBuffer(
    p: Group, mid: Group, g: Group, id: MemberId, msg: Option<Message>, batch: seq<Message>, turn: Turn, who: Answering, err: Option<LoopError>)
    requires id in p.members && TakenIntoBuffer(p, mid, id, msg, Some(batch)) && id in g.members
    requires Worked(mid.history, mid.members[id], g, id, batch, turn, who, err)
    ensures Worked(p.history, WithBatch(p.members[id], Given(msg), batch), g, id, batch, turn, who, err)
  {
    WorkedFrom(p.history, mid.members[id], WithBatch(p.members[id], Given(msg), batch), g, id, batch, turn, who, err);
  }

  // --- What a whole loop does

  /** The states between the iterations lead from one group to another. */
  predicate Spans(chain: seq<Group>, g: Group, g': Group) {
    chain != [] && chain[0] == g && chain[|chain| - 1] == g'
  }

  /** The i-th iteration of a single loop: only the last one may have stopped it. */
  ghost predicate SingleIterationAt(chain: seq<Group>, id: MemberId, turns: seq<Turn>, who: Answering, stopped: bool, err: Option<LoopError>, i: nat)
    requires i < |chain| - 1 <= |turns|
  {
    var last := stopped && i == |chain| - 2;
    SingleIteration(chain[i], chain[i + 1], id, turns[i], who, last, if last then err else None)
  }

  /** A loop that has taken as many turns as it could: the groups between its iterations, the present one last. */
  ghost predicate SingleLoop(chain: seq<Group>, id: MemberId, turns: seq<Turn>, who: Answering, stopped: bool, err: Option<LoopError>) {
    && 1 <= |chain| <= |turns| + 1 && (!stopped ==> |chain| == |turns| + 1 && err == None) && (stopped ==> |chain| > 1)
    && forall i :: 0 <= i < |chain| - 1 ==> SingleIterationAt(chain, id, turns, who, stopped, err, i)
  }

  ghost predicate BatchIterationAt(
    chain: seq<Group>, since: seq<Option<Time>>, id: MemberId, timeout: Time, turns: seq<Turn>,
    who: Answering, stopped: bool, err: Option<LoopError>, i: nat)
    requires i < |chain| - 1 <= |turns| && |since| == |chain|
  {
    var last := stopped && i == |chain| - 2;
    BatchIteration(chain[i], since[i], chain[i + 1], since[i + 1], id, timeout, turns[i], who, last, if last then err else None)
  }

  ghost predicate BatchLoop(
    chain: seq<Group>, since: seq<Option<Time>>, id: MemberId, timeout: Time, turns: seq<Turn>,
    who: Answering, stopped: bool, err: Option<LoopError>)
  {
    && |since| == |chain|
    && 1 <= |chain| <= |turns| + 1 && (!stopped ==> |chain| == |turns| + 1 && err == None) && (stopped ==> |chain| > 1)
    && forall i :: 0 <= i < |chain| - 1 ==> BatchIterationAt(chain, since, id, timeout, turns, who, stopped, err, i)
  }

  /** Everything the first `n` iterations took from Poll. */
  ghost function TakenInAll(chain: seq<Group>, id: MemberId, turns: seq<Turn>, n: nat): seq<Message>
    requires n < |chain| && n <= |turns|
  {
    if n == 0 then [] else TakenInAll(chain, id, turns, n - 1) + TakenIn(chain[n - 1], id, turns[n - 1])
  }

  ghost predicate AdvancesAt(chain: seq<Group>, id: MemberId, turns: seq<Turn>, i: nat)
    requires i < |chain| - 1 <= |turns|
  {
    Advances(chain[i], chain[i + 1], id, turns[i])
  }

  /** The iterations of either loop, as far as they share something. */
  ghost predicate AdvancesAll(chain: seq<Group>, id: MemberId, turns: seq<Turn>) {
    && 1 <= |chain| <= |turns| + 1
    && forall i :: 0 <= i < |chain| - 1 ==> AdvancesAt(chain, id, turns, i)
  }

  lemma SingleAdvances(chain: seq<Group>, id: MemberId, turns: seq<Turn>, who: Answering, stopped: bool, err: Option<LoopError>)
    requires SingleLoop(chain, id, turns, who, stopped, err)
    ensures AdvancesAll(chain, id, turns)
  {
    forall i | 0 <= i < |chain| - 1
      ensures AdvancesAt(chain, id, turns, i)
    {
      assert SingleIterationAt(chain, id, turns, who, stopped, err, i);
    }
  }

  lemma BatchAdvances(
    chain: seq<Group>, since: seq<Option<Time>>, id: MemberId, timeout: Time, turns: seq<Turn>,
    who: Answering, stopped: bool, err: Option<LoopError>)
    requires BatchLoop(chain, since, id, timeout, turns, who, stopped, err)
    ensures AdvancesAll(chain, id, turns)
  {
    forall i | 0 <= i < |chain| - 1
      ensures AdvancesAt(chain, id, turns, i)
    {
      assert BatchIterationAt(chain, since, id, timeout, turns, who, stopped, err, i);
    }
  }

  lemma Appended(start: seq<Message>, taken: seq<Message>, more: seq<Message>)
    ensures start + taken + more == start + (taken + more)
  {
  }

  /** A loop forgets nothing, and polls exactly what its iterations were offered. */
  lemma {:induction false} LoopPolls(chain: seq<Group>, id: MemberId, turns: seq<Turn>, k: nat, n: nat)
    requires AdvancesAll(chain, id, turns) && k <= n < |chain| && id in chain[0].members
    ensures id in chain[n].members && chain[n].history.Remembers(chain[k].history)
    ensures chain[n].members[id].fetched == chain[0].members[id].fetched + TakenInAll(chain, id, turns, n)
  {
    if n > 0 {
      LoopPolls(chain, id, turns, if k < n then k else n - 1, n - 1);
      assert AdvancesAt(chain, id, turns, n - 1);
      Appended(chain[0].members[id].fetched, TakenInAll(chain, id, turns, n - 1), TakenIn(chain[n - 1], id, turns[n - 1]));
    }
  }

  /** An iteration resolves the message it takes, unless the strategy refuses it. */
  lemma SingleIterationResolves(g: Group, g': Group, id: MemberId, turn: Turn, who: Answering, stopped: bool, err: Option<LoopError>)
    requires SingleIteration(g, g', id, turn, who, stopped, err) && err != Some(StrategyError)
    ensures Settles(g'.history, TakenIn(g, id, turn), OneMessage(turn).handler)
  {
  }

  lemma BatchIterationResolves(
    g: Group, since: Option<Time>, g': Group, since': Option<Time>, id: MemberId, timeout: Time,
    turn: Turn, who: Answering, stopped: bool, err: Option<LoopError>)
    requires BatchIteration(g, since, g', since', id, timeout, turn, who, stopped, err) && err != Some(StrategyError)
    ensures var batch := BatchDue(g, since, id, timeout, turn);
            batch.Some? ==> Settles(g'.history, batch.value, turn.handler)
  {
  }

  /** The journal has one more call, with these messages and a panic's failure; refusing it is what stops the loop. */
  ghost predicate PanicRouted(g: Group, g': Group, id: MemberId, msgs: seq<Message>, err: Option<LoopError>) {
    && id in g.members && id in g'.members
    && var before, calls := |g.members[id].journal.calls|, g'.members[id].journal.calls;
       && |calls| == before + 1
       && calls[before].msgs == msgs && calls[before].failure.err.Some?
       && calls[before].failure.step == 0 && calls[before].failure.code == ""
       && (err == Some(StrategyError) <==> !calls[before].ok)
       && (calls[before].ok ==> forall e :: e in msgs ==> e in g'.history.writtenOff)
  }

  lemma PanicIsAsked(j: Journal, j': Journal, h: History, msgs: seq<Message>, turn: Turn, who: Answering)
    requires HandledAndRouted(j, j', h, msgs, turn, who) && turn.handler.panics
    ensures var n := |j.calls|;
            && |j'.calls| == n + 1 && j'.calls[n] == CallsFor(who, turn, msgs)[0]
            && (j'.calls[n].ok <==> !Refused(CallsFor(who, turn, msgs)))
            && (j'.calls[n].ok ==> forall e :: e in j'.calls[n].msgs ==> e in h.writtenOff)
  {
    WholeBatchIsOneCall(who, turn, msgs);
  }

  /** In an iteration whose handler panics the message goes to the strategy, in one call, as a failure. */
  lemma SinglePanicIsRouted(g: Group, g': Group, id: MemberId, turn: Turn, who: Answering, stopped: bool, err: Option<LoopError>)
    requires SingleIteration(g, g', id, turn, who, stopped, err) && turn.handler.panics && TakenIn(g, id, turn) != []
    ensures PanicRouted(g, g', id, TakenIn(g, id, turn), err)
  {
    var msgs := TakenIn(g, id, turn);
    PanicIsAsked(g.members[id].journal, g'.members[id].journal, g'.history, msgs, OneMessage(turn), who);
    WholeBatchIsOneCall(who, OneMessage(turn), msgs);
  }

  /** And so does every message of a batch. */
  lemma BatchPanicIsRouted(
    g: Group, since: Option<Time>, g': Group, since': Option<Time>, id: MemberId, timeout: Time,
    turn: Turn, who: Answering, stopped: bool, err: Option<LoopError>)
    requires BatchIteration(g, since, g', since', id, timeout, turn, who, stopped, err) && turn.handler.panics
    requires BatchDue(g, since, id, timeout, turn).Some?
    ensures PanicRouted(g, g', id, BatchDue(g, since, id, timeout, turn).value, err)
  {
    var batch := BatchDue(g, since, id, timeout, turn).value;
    PanicIsAsked(g.members[id].journal, g'.members[id].journal, g'.history, batch, turn, who);
    WholeBatchIsOneCall(who, turn, batch);
  }

  lemma SettlesStill(h: History, h': History, batch: seq<Message>, script: HandlerScript)
    requires Settles(h, batch, script) && h'.Remembers(h)
    ensures Settles(h', batch, script)
  {
  }

  /**
   Every message a single loop polled is settled in the end, handled or written off as its handler
   decided, except one the strategy refused, which ended the loop.
   */
  lemma SingleLoopResolves(chain: seq<Group>, id: MemberId, turns: seq<Turn>, who: Answering, stopped: bool, err: Option<LoopError>, i: nat)
    requires SingleLoop(chain, id, turns, who, stopped, err) && i < |chain| - 1 && id in chain[0].members
    requires i < |chain| - 2 || err != Some(StrategyError)
    ensures Settles(chain[|chain| - 1].history, TakenIn(chain[i], id, turns[i]), OneMessage(turns[i]).handler)
  {
    SingleAdvances(chain, id, turns, who, stopped, err);
    LoopPolls(chain, id, turns, i + 1, |chain| - 1);
    assert SingleIterationAt(chain, id, turns, who, stopped, err, i);
    var last := stopped && i == |chain| - 2;
    SingleIterationResolves(chain[i], chain[i + 1], id, turns[i], who, last, if last then err else None);
    SettlesStill(chain[i + 1].history, chain[|chain| - 1].history, TakenIn(chain[i], id, turns[i]), OneMessage(turns[i]).handler);
  }

  /** Every message of every batch a batch loop dispatched is settled in the end, except in one the strategy stopped at. */
  lemma BatchLoopResolves(
    chain: seq<Group>, since: seq<Option<Time>>, id: MemberId, timeout: Time, turns: seq<Turn>,
    who: Answering, stopped: bool, err: Option<LoopError>, i: nat)
    requires BatchLoop(chain, since, id, timeout, turns, who, stopped, err) && i < |chain| - 1 && id in chain[0].members
    requires i < |chain| - 2 || err != Some(StrategyError)
    ensures var batch := BatchDue(chain[i], since[i], id, timeout, turns[i]);
            batch.Some? ==> Settles(chain[|chain| - 1].history, batch.value, turns[i].handler)
  {
    BatchAdvances(chain, since, id, timeout, turns, who, stopped, err);
    LoopPolls(chain, id, turns, i + 1, |chain| - 1);
    assert BatchIterationAt(chain, since, id, timeout, turns, who, stopped, err, i);
    var last := stopped && i == |chain| - 2;
    BatchIterationResolves(chain[i], since[i], chain[i + 1], since[i + 1], id, timeout, turns[i], who, last, if last then err else None);
    var batch := BatchDue(chain[i], since[i], id, timeout, turns[i]);
    if batch.Some? {
      SettlesStill(chain[i + 1].history, chain[|chain| - 1].history, batch.value, turns[i].handler);
    }
  }

  // --- Nothing waits longer than it should

  /** The clock runs exactly while something is buffered. */
  predicate ClockRuns(g: Group, since: Option<Time>, id: MemberId) {
    id in g.members && (since.Some? <==> g.members[id].buffer != [])
  }

  /** What is buffered is short of a batch, and its first message is younger than the timeout. */
  predicate Fresh(g: Group, since: Option<Time>, id: MemberId, size: nat, timeout: Time, now: Time) {
    && id in g.members
    && (g.members[id].buffer != [] ==>
          |g.members[id].buffer| < size && since.Some? && now - since.value < timeout)
  }

  /** An iteration after which the loop goes on leaves nothing that was due. */
  lemma IterationLeavesFresh(
    g: Group, since: Option<Time>, g': Group, since': Option<Time>, id: MemberId, size: nat, timeout: Time,
    turn: Turn, who: Answering, err: Option<LoopError>)
    requires BatchIteration(g, since, g', since', id, timeout, turn, who, false, err) && ClockRuns(g, since, id)
    requires AtPoll(g, id, turn).members[id].mode == Batch(size)
    ensures Fresh(g', since', id, size, timeout, turn.now) && ClockRuns(g', since', id)
  {
  }

  /** After each of its first iterations the loop has left nothing that was due. */
  predicate FreshThrough(
    chain: seq<Group>, since: seq<Option<Time>>, id: MemberId, size: nat, timeout: Time, turns: seq<Turn>, n: nat)
  {
    && n < |chain| == |since| && n <= |turns|
    && forall k :: 0 < k <= n ==> Fresh(chain[k], since[k], id, size, timeout, turns[k - 1].now)
  }

  // --- Building a loop from its iterations

  lemma SingleLoopGrows(chain: seq<Group>, id: MemberId, turns: seq<Turn>, g: Group, turn: Turn, who: Answering, stopped: bool, err: Option<LoopError>)
    requires SingleLoop(chain, id, turns, who, false, None)
    requires SingleIteration(chain[|chain| - 1], g, id, turn, who, stopped, err) && (!stopped ==> err == None)
    ensures SingleLoop(chain + [g], id, turns + [turn], who, stopped, err)
  {
    forall i | 0 <= i < |chain|
      ensures SingleIterationAt(chain + [g], id, turns + [turn], who, stopped, err, i)
    {
      assert i < |chain| - 1 ==> SingleIterationAt(chain, id, turns, who, false, None, i);
    }
  }

  lemma SingleLoopStops(chain: seq<Group>, id: MemberId, turns: seq<Turn>, more: seq<Turn>, who: Answering, err: Option<LoopError>)
    requires SingleLoop(chain, id, turns, who, true, err) && turns <= more
    ensures SingleLoop(chain, id, more, who, true, err)
  {
    forall i | 0 <= i < |chain| - 1
      ensures SingleIterationAt(chain, id, more, who, true, err, i)
    {
      assert SingleIterationAt(chain, id, turns, who, true, err, i);
    }
  }

  lemma BatchLoopGrows(
    chain: seq<Group>, since: seq<Option<Time>>, id: MemberId, timeout: Time, turns: seq<Turn>,
    g: Group, first: Option<Time>, turn: Turn, who: Answering, stopped: bool, err: Option<LoopError>)
    requires BatchLoop(chain, since, id, timeout, turns, who, false, None)
    requires BatchIteration(chain[|chain| - 1], since[|chain| - 1], g, first, id, timeout, turn, who, stopped, err)
    requires !stopped ==> err == None
    ensures BatchLoop(chain + [g], since + [first], id, timeout, turns + [turn], who, stopped, err)
  {
    forall i | 0 <= i < |chain|
      ensures BatchIterationAt(chain + [g], since + [first], id, timeout, turns + [turn], who, stopped, err, i)
    {
      assert i < |chain| - 1 ==> BatchIterationAt(chain, since, id, timeout, turns, who, false, None, i);
    }
  }

  lemma BatchLoopStops(
    chain: seq<Group>, since: seq<Option<Time>>, id: MemberId, timeout: Time, turns: seq<Turn>, more: seq<Turn>,
    who: Answering, err: Option<LoopError>)
    requires BatchLoop(chain, since, id, timeout, turns, who, true, err) && turns <= more
    ensures BatchLoop(chain, since, id, timeout, more, who, true, err)
  {
    forall i | 0 <= i < |chain| - 1
      ensures BatchIterationAt(chain, since, id, timeout, more, who, true, err, i)
    {
      assert BatchIterationAt(chain, since, id, timeout, turns, who, true, err, i);
    }
  }
}
