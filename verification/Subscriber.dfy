/**
 The poll loops: runSingleLoop, runBatchLoop, dispatchBatch, routeBatchFailures and
 storeHighestOffsetPerPartition (subscribe/subscriber.go), as methods whose every execution is a
 run of the consumer group, and does in each iteration what module Iteration says.

 A loop runs over a finite list of turns, each holding what the environment does in one iteration;
 every finite list is allowed, so what is proved holds at every point of every execution.
 */
module Subscriber {
  import opened Types
  import opened Wire
  import opened Ladder
  import opened OffsetStore
  import opened ConsumerGroup
  import opened Buffering
  import opened Batching
  import opened Driver
  import opened Iteration
  import AtLeastOnce
  import GroupSafety
  import Conservation
  import NoLoss
  import RetryStrategy

  // --- The error strategy

  datatype StrategyKind = Skip | FailFast | Retry

  const NO_STAMPS := Stamps("", "")

  function Padded<T>(given: seq<T>, n: nat, default: T): (r: seq<T>)
    ensures |r| == n
  {
    seq(n, i requires 0 <= i < n => if i < |given| then given[i] else default)
  }

  /** Messages as Poll converts them: no application header takes one of the library's names. */
  predicate Spelled(msgs: seq<Message>) {
    forall i :: 0 <= i < |msgs| ==> ProperKeys(msgs[i].headers)
  }

  class ErrorStrategy {
    const kind: StrategyKind
    const retry: RetryStrategy.Strategy
    ghost var calls: seq<Call>  // every call of HandleError, and its answer

    constructor (kind: StrategyKind, retry: RetryStrategy.Strategy)
      ensures this.kind == kind && this.retry == retry && calls == []
    {
      this.kind := kind;
      this.retry := retry;
      this.calls := [];
    }

    ghost function Answers(): Answering
      reads retry
    {
      match kind
      case Skip => Skipping
      case FailFast => FailingFast
      case Retry => Retrying(retry.initialized)
    }

    /** HandleError of whichever strategy is configured: skip always accepts, fail-fast never does. */
    method HandleError(h: History, msgs: seq<Message>, f: Failure, script: CallScript)
      returns (ok: bool, written: seq<Message>)
      requires f.err.Some?
      requires Spelled(msgs)
      modifies this`calls
      ensures calls == old(calls) + [Call(msgs, f, ok)]
      ensures CanWrite(h, written)
      ensures ok == Accepts(Answers(), script, |msgs|)
      ensures kind.Skip? ==> ok
      ensures kind.FailFast? ==> !ok
      ensures kind.Retry? ==>
                (ok <==> retry.initialized && forall i :: 0 <= i < |msgs| ==> script.sends.Acknowledges(i))
      ensures kind.Retry? && ok ==> Confirmed(RetryWith(retry.rc), msgs, written)
    {
      match kind {
        case Skip =>
          ok, written := true, [];
        case FailFast =>
          ok, written := false, [];
        case Retry =>
          var sent;
          ok, sent, written := retry.HandleError(h, msgs, f, Padded(script.stamps, |msgs|, NO_STAMPS), script.sends);
      }
      calls := calls + [Call(msgs, f, ok)];
    }
  }

  class Subscriber {
    const world: World
    const driver: Consumer
    const strategy: ErrorStrategy
    const buf: Buffer?
    ghost const who: Answering  // how the strategy answers, for as long as this subscriber runs

    constructor (world: World, driver: Consumer, strategy: ErrorStrategy, buf: Buffer?)
      ensures this.world == world && this.driver == driver && this.strategy == strategy && this.buf == buf
      ensures who == strategy.Answers()
    {
      this.who := strategy.Answers();
      this.world := world;
      this.driver := driver;
      this.strategy := strategy;
      this.buf := buf;
    }

    /** The subscriber and the group agree on who it is, what it buffers, and what its strategy was asked. */
    ghost predicate Valid()
      reads this, driver, world, buf, strategy, strategy.retry
    {
      && driver.world == world && driver.hook == buf && driver.Valid()
      && strategy.calls == driver.Me().journal.calls && strategy.Answers() == who
      && (world.start.policy.RetryWith? ==> strategy.kind.Retry? && strategy.retry.rc == world.start.policy.rc)
      && driver.mode == if buf == null then Single else Batch(buf.batchSize)
    }

    /** A message the broker hands over, or a batch in hand, is properly spelled: it comes from the log. */
    lemma ProperlySpelled()
      requires Valid()
      ensures Spelled(driver.Me().InHand())
      ensures forall e :: e in world.now.history.log ==> ProperKeys(e.headers)
    {
      world.InOrder();
      var h, m := world.now.history, driver.Me();
      assert GroupSafety.MemberInv(h, m);
      forall i | 0 <= i < |m.InHand()|
        ensures ProperKeys(m.InHand()[i].headers)
      {
        assert m.Pending(m.InHand()[i]);
      }
    }

    /** The batch in hand is in poll order, so its messages are distinct. */
    lemma HandedInOrder()
      requires Valid()
      ensures AscendingPerPartition(driver.Me().InHand())
    {
      world.InOrder();
      assert GroupSafety.MemberInv(world.now.history, driver.Me());
    }

    // --- Batch mode, from the last step to the first

    /** The first loop of storeHighestOffsetPerPartition. */
    method FindHighest(msgs: seq<Message>) returns (highest: map<TopicPartition, nat>)
      ensures highest == Highest(msgs) && IsMaximum(highest, msgs)
    {
      highest := map[];
      for i := 0 to |msgs|
        invariant highest == Highest(msgs[..i])
      {
        var m := msgs[i];
        assert msgs[..i + 1][..i] == msgs[..i];
        if m.Tp() !in highest || m.offset > highest[m.Tp()] {
          highest := highest[m.Tp() := m.offset];
        }
      }
      assert msgs[..|msgs|] == msgs;
      HighestIsMaximum(msgs);
    }

    /** Whatever the rest of the group does meanwhile, this loop is where it was. */
    method Interfere(labels: seq<Label>)
      requires Valid()
      modifies world
      ensures Valid() && world.Extends(old(world.run), old(world.states)) && Steady(old(world.now), world.now, driver.id)
      ensures SameLoop(old(driver.Me()), driver.Me())
    {
      world.Meanwhile(driver.id, labels);
    }

    /** StoreOffset, after whatever the rest of the group does first. */
    method StoreOnce(tp: TopicPartition, offset: nat, turn: Turn) returns (answer: StoreAnswer)
      requires Valid() && CanStore(driver.Me(), tp) && driver.Me().phase.todo[tp] == offset
      modifies world
      ensures Valid() && world.Extends(old(world.run), old(world.states))
      ensures SameBuffer(old(driver.Me()), driver.Me()) && driver.Me().journal == old(driver.Me()).journal
      ensures StoresOne(old(driver.Me()), driver.Me(), tp, offset, turn.storeFails, answer.Failed?)
      ensures answer.Revoked? <==> tp !in driver.Me().fetch
      ensures driver.Me().phase == PhaseAfterStore(driver.mode, old(driver.Me().phase), tp, answer)
    {
      ghost var m := driver.Me();
      Interfere(turn.during);
      StoreCallStores(m, driver.Me(), tp, offset, turn.storeFails);
      answer := driver.StoreOffset(tp, offset, tp !in turn.storeFails);
    }

    /** One StoreOffset of the second loop. */
    method StoreNext(tp: TopicPartition, offset: nat, turn: Turn) returns (failed: bool)
      requires Valid() && driver.mode.Batch?
      requires CanStore(driver.Me(), tp) && driver.Me().phase.todo[tp] == offset
      modifies world
      ensures Valid() && world.Extends(old(world.run), old(world.states))
      ensures SameBuffer(old(driver.Me()), driver.Me()) && driver.Me().journal == old(driver.Me()).journal
      ensures StoresOne(old(driver.Me()), driver.Me(), tp, offset, turn.storeFails, failed)
      ensures var was := old(driver.Me().phase);
              var errors := was.failed + (if failed then {tp} else {});
              driver.Me().phase ==
              if was.todo - {tp} == map[] then Committing(errors) else Storing(was.batch, was.todo - {tp}, errors)
    {
      var answer := StoreOnce(tp, offset, turn);
      match answer
      case Stored => failed := false;
      case Revoked => failed := false;
      case Failed => failed := true;
    }

    /** storeHighestOffsetPerPartition: the maxima in one loop, the stores in another, in any order. */
    method StoreHighestOffsetPerPartition(msgs: seq<Message>, turn: Turn) returns (fatal: bool)
      requires Valid() && msgs != [] && driver.mode.Batch?
      requires driver.Me().phase == Storing(msgs, Highest(msgs), {})
      modifies world
      ensures Valid() && world.Extends(old(world.run), old(world.states))
      ensures SameBuffer(old(driver.Me()), driver.Me()) && driver.Me().journal == old(driver.Me()).journal
      ensures driver.Me().phase.Committing? && (fatal <==> driver.Me().phase.failed != {})
      ensures Walked(old(driver.Me()), driver.Me(), Highest(msgs), map[], turn.storeFails, driver.Me().phase.failed)
    {
      var highest := FindHighest(msgs);
      fatal := false;
      var todo := highest;
      ghost var errors: set<TopicPartition> := {};
      assert msgs[0] in msgs;
      while todo != map[]
        invariant Valid() && world.Extends(old(world.run), old(world.states))
        invariant SameBuffer(old(driver.Me()), driver.Me()) && driver.Me().journal == old(driver.Me()).journal
        invariant driver.Me().phase == if todo != map[] then Storing(msgs, todo, errors) else Committing(errors)
        invariant fatal <==> errors != {}
        invariant Walked(old(driver.Me()), driver.Me(), highest, todo, turn.storeFails, errors)
        decreases |todo|
      {
        var tp :| tp in todo;
        ghost var before := driver.Me();
        var failed := StoreNext(tp, todo[tp], turn);
        WalksOn(old(driver.Me()), before, driver.Me(), highest, todo, tp, turn.storeFails, errors, failed);
        errors := errors + if failed then {tp} else {};
        fatal := fatal || failed;
        assert (todo - {tp}).Keys == todo.Keys - {tp};
        todo := todo - {tp};
      }
    }

    /** HandleError, with its outcome told to the group. */
    method Ask(call: seq<Message>, f: Failure, script: CallScript) returns (ok: bool)
      requires Valid() && Spelled(call)
      requires driver.Me().phase.Routing? && driver.Me().phase.left != []
      requires call == NextCall(driver.Me().phase.whole, driver.Me().phase.left)
      modifies world, strategy`calls
      ensures Valid() && world.Extends(old(world.run), old(world.states))
      ensures world.now.history.Remembers(old(world.now).history)
      ensures ok == Accepts(who, script, |call|)
      ensures driver.Me() == OnRouted(old(driver.Me()), ok).(journal := driver.Me().journal)
      ensures AsksFor(old(driver.Me()).journal, driver.Me().journal, world.now.history, [Call(call, WithReason(f), ok)])
    {
      var written;
      ok, written := strategy.HandleError(world.now.history, call, WithReason(f), script);
      CallIsNoted(world.now.history, driver.Me(), driver.id, WithReason(f), ok, written);
      driver.Routed(WithReason(f), ok, written);
    }

    /** One strategy call, after whatever the rest of the group does first. */
    method Route(call: seq<Message>, f: Failure, script: CallScript, turn: Turn) returns (ok: bool)
      requires Valid() && Spelled(call)
      requires driver.Me().phase.Routing? && driver.Me().phase.left != []
      requires call == NextCall(driver.Me().phase.whole, driver.Me().phase.left)
      modifies world, strategy`calls
      ensures Valid() && world.Extends(old(world.run), old(world.states)) && Steady(old(world.now), world.now, driver.id)
      ensures ok == Accepts(who, script, |call|)
      ensures AsksFor(old(driver.Me()).journal, driver.Me().journal, world.now.history, [Call(call, WithReason(f), ok)])
      ensures driver.Me().phase == OnRouted(old(driver.Me()), ok).phase
    {
      ghost var m := driver.Me();
      Interfere(turn.during);
      ghost var n := driver.Me();
      ok := Ask(call, f, script);
      RoutedStands(m, n, ok);
    }

    /** One turn of that loop: the item goes to the strategy alone. */
    method RouteItem(msgs: seq<Message>, msg: Message, f: Failure, turn: Turn, ghost left: seq<Message>) returns (ok: bool)
      requires Valid() && Spelled([msg]) && left != [] && left[0] == msg
      requires driver.Me().phase == Routing(msgs, false, left)
      modifies world, strategy`calls
      ensures Valid() && world.Extends(old(world.run), old(world.states)) && Steady(old(world.now), world.now, driver.id)
      ensures ok == Accepts(who, CallFor(turn, msg), 1)
      ensures AsksFor(old(driver.Me()).journal, driver.Me().journal, world.now.history, [Call([msg], WithReason(f), ok)])
      ensures driver.Me().phase ==
              if ok then RouteOrStore(msgs, false, left[1..]) else Stopping(StrategyStopped(msgs, left))
    {
      assert left[..1] == [msg];
      ok := Route([msg], f, CallFor(turn, msg), turn);
    }

    /** One turn of that loop, for an item that may or may not have failed. */
    method RouteNext(
      msgs: seq<Message>, items: seq<BatchItem>, turn: Turn, i: nat, ghost g: Group, ghost made: seq<Call>,
      ghost rest: seq<Message>, ghost next: seq<Message>)
      returns (ok: bool, ghost calls: seq<Call>)
      requires Valid() && Spelled(msgs) && Shows(items, msgs) && i < |msgs|
      requires items[i].failure == VerdictOn(turn.handler.fails, i)
      requires RoutedUpTo(g, world.now, driver.id, who, turn, msgs, i, made, rest)
      requires rest == (if items[i].failure.Some? then [msgs[i]] else []) + next
      modifies world, strategy`calls
      ensures Valid() && world.Extends(old(world.run), old(world.states))
      ensures ok ==> RoutedUpTo(g, world.now, driver.id, who, turn, msgs, i + 1, calls, next)
      ensures !ok ==>
                && rest != [] && driver.Me().phase == Stopping(StrategyStopped(msgs, rest))
                && RoutingRefused(g, world.now, driver.id, who, turn, msgs)
    {
      if items[i].failure.None? {
        assert [] + next == next;
        RoutedPast(g, world.now, driver.id, who, turn, msgs, i, made, rest);
        return true, made;
      }
      HeadOf(msgs[i], next);
      ghost var before := world.now;
      ok := RouteItem(msgs, items[i].msg, items[i].failure.value, turn, rest);
      RoutedOne(g, before, world.now, driver.id, who, turn, msgs, i, made, rest, next);
      calls := made + [Call([msgs[i]], WithReason(items[i].failure.value), ok)];
    }

    /**
     The loop of routeBatchFailures: each failed item on its own, in batch order, until one is
     refused.  `rest` begins with the refused one, and is empty if none was.
     */
    method RouteItems(msgs: seq<Message>, items: seq<BatchItem>, turn: Turn, ghost rests: seq<seq<Message>>)
      returns (ok: bool, ghost rest: seq<Message>)
      requires Valid() && Spelled(msgs) && Shows(items, msgs) && Countdown(rests, msgs, Flags(|msgs|, turn.handler.fails))
      requires forall i :: 0 <= i < |items| ==> items[i].failure == VerdictOn(turn.handler.fails, i)
      requires driver.Me().phase == RouteOrStore(msgs, false, rests[0])
      modifies world, strategy`calls
      ensures Valid() && world.Extends(old(world.run), old(world.states)) && Steady(old(world.now), world.now, driver.id)
      ensures var calls := ItemCalls(who, turn, msgs, 0);
              AsksFor(old(driver.Me()).journal, driver.Me().journal, world.now.history, calls) && (ok <==> !Refused(calls))
      ensures driver.Me().phase == AfterRouting(msgs, rest) && (ok <==> rest == [])
    {
      rest := rests[0];
      ghost var g, id, made := world.now, driver.id, [];
      RoutedNone(g, id, who, turn, msgs, rest);
      for i := 0 to |items|
        invariant Valid() && world.Extends(old(world.run), old(world.states))
        invariant rest == rests[i] && RoutedUpTo(g, world.now, id, who, turn, msgs, i, made, rest)
      {
        ok, made := RouteNext(msgs, items, turn, i, g, made, rest, rests[i + 1]);
        if !ok {
          return;
        }
        rest := rests[i + 1];
      }
      NoneLeft(made);
      ok := true;
    }

    /** A whole-batch failure: one call with every message. */
    method RouteWhole(msgs: seq<Message>, f: Failure, turn: Turn) returns (ok: bool, ghost rest: seq<Message>)
      requires Valid() && msgs != [] && Spelled(msgs) && driver.Me().phase == Routing(msgs, true, msgs)
      modifies world, strategy`calls
      ensures Valid() && world.Extends(old(world.run), old(world.states)) && Steady(old(world.now), world.now, driver.id)
      ensures ok == Accepts(who, turn.call, |msgs|)
      ensures AsksFor(old(driver.Me()).journal, driver.Me().journal, world.now.history, [Call(msgs, WithReason(f), ok)])
      ensures rest == (if ok then [] else msgs) && driver.Me().phase == AfterRouting(msgs, rest)
    {
      ok := Route(msgs, f, turn.call, turn);
      rest := if ok then [] else msgs;
      assert msgs[|msgs|..] == [];
    }

    /**
     routeBatchFailures: a whole-batch failure is one call with every message, and discards the
     verdicts recorded per item; otherwise the failed items go one by one.
     */
    method RouteBatchFailures(msgs: seq<Message>, items: seq<BatchItem>, whole: Option<Failure>, turn: Turn)
      returns (ok: bool, ghost rest: seq<Message>)
      requires Valid() && msgs != [] && Spelled(msgs) && Shows(items, msgs) && whole == WholeFailure(turn.handler)
      requires forall i :: 0 <= i < |items| ==> items[i].failure == VerdictOn(turn.handler.fails, i)
      requires driver.Me().phase == AfterVerdict(turn.handler, msgs)
      modifies world, strategy`calls
      ensures Valid() && world.Extends(old(world.run), old(world.states)) && Steady(old(world.now), world.now, driver.id)
      ensures var calls := CallsFor(who, turn, msgs);
              AsksFor(old(driver.Me()).journal, driver.Me().journal, world.now.history, calls) && (ok <==> !Refused(calls))
      ensures driver.Me().phase == AfterRouting(msgs, rest) && (ok <==> rest == [])
    {
      if whole.Some? {
        ok, rest := RouteWhole(msgs, whole.value, turn);
      } else {
        ghost var rests := CountdownExists(msgs, Flags(|msgs|, turn.handler.fails));
        ok, rest := RouteItems(msgs, items, turn, rests);
      }
    }

    /** The handler's verdict goes to the group, after whatever the rest of it did while the handler ran. */
    method Hear(msgs: seq<Message>, turn: Turn)
      requires Valid() && driver.Me().phase == Handling(msgs)
      modifies world
      ensures Valid() && world.Extends(old(world.run), old(world.states)) && Steady(old(world.now), world.now, driver.id)
      ensures Heard(old(driver.Me()).journal, driver.Me().journal, VerdictOf(turn.handler, |msgs|))
      ensures HandlesWhatItDidNotFail(world.now.history, msgs, turn.handler)
      ensures driver.Me().phase == AfterVerdict(turn.handler, msgs)
    {
      ghost var m := driver.Me();
      Interfere(turn.during);
      HandedInOrder();
      HandlerIsBelieved(world.now.history, driver.Me(), turn.handler, msgs);
      VerdictTaken(m, driver.Me(), turn.handler, msgs);
      driver.Return(VerdictOf(turn.handler, |msgs|));
    }

    /** The handler sees a fresh batch over copies of the messages, and its verdict goes to the group. */
    method Handle(msgs: seq<Message>, turn: Turn) returns (items: seq<BatchItem>, whole: Option<Failure>)
      requires Valid() && driver.Me().phase == Handling(msgs)
      modifies world
      ensures Valid() && world.Extends(old(world.run), old(world.states)) && Steady(old(world.now), world.now, driver.id)
      ensures Shows(items, msgs) && whole == WholeFailure(turn.handler)
      ensures forall i :: 0 <= i < |items| ==> items[i].failure == VerdictOn(turn.handler.fails, i)
      ensures Heard(old(driver.Me()).journal, driver.Me().journal, VerdictOf(turn.handler, |msgs|))
      ensures HandlesWhatItDidNotFail(world.now.history, msgs, turn.handler)
      ensures driver.Me().phase == AfterVerdict(turn.handler, msgs)
    {
      items := NewBatchFromBuffer(msgs);
      whole := InvokeBatchHandler(items, turn.handler);
      Hear(msgs, turn);
    }

    /** The first half of dispatchBatch: the handler, then the strategy on every failure. */
    method HandleAndRoute(msgs: seq<Message>, turn: Turn) returns (ok: bool, ghost rest: seq<Message>)
      requires Valid() && msgs != [] && driver.Me().phase == Handling(msgs)
      modifies world, strategy`calls
      ensures Valid() && world.Extends(old(world.run), old(world.states)) && Steady(old(world.now), world.now, driver.id)
      ensures HandledAndRouted(old(driver.Me()).journal, driver.Me().journal, world.now.history, msgs, turn, who)
      ensures driver.Me().journal.commits == old(driver.Me()).journal.commits
      ensures ok <==> !Refused(CallsFor(who, turn, msgs))
      ensures driver.Me().phase == AfterRouting(msgs, rest) && (ok <==> rest == [])
    {
      ProperlySpelled();
      ghost var j := driver.Me().journal;
      var items, whole := Handle(msgs, turn);
      ghost var mid := driver.Me().journal;
      ok, rest := RouteBatchFailures(msgs, items, whole, turn);
      HeardAndAsked(j, mid, driver.Me().journal, world.now.history, msgs, turn, who);
    }

    /** MaybeCommitStored, after whatever the rest of the group does first. */
    method CommitOnce(turn: Turn)
      requires Valid() && driver.Me().phase.Committing?
      modifies world
      ensures Valid() && world.Extends(old(world.run), old(world.states)) && Steady(old(world.now), world.now, driver.id)
      ensures driver.Me().phase == OnCommitted(old(driver.Me())).phase
      ensures CommitsOnce(old(driver.Me()).journal, driver.Me(), world.now, turn) && SameTalk(old(driver.Me()).journal, driver.Me().journal)
    {
      ghost var m := driver.Me();
      Interfere(turn.during);
      ghost var n := driver.Me();
      driver.MaybeCommitStored(turn.commit);
      CommitIsNoted(m, n, turn);
    }

    /** The second half, reachable only when every message of the batch is resolved. */
    method StoreAndCommit(msgs: seq<Message>, turn: Turn) returns (fatal: bool)
      requires Valid() && msgs != [] && driver.mode.Batch?
      requires driver.Me().phase == Storing(msgs, Highest(msgs), {})
      modifies world
      ensures Valid() && world.Extends(old(world.run), old(world.states))
      ensures SameBuffer(old(driver.Me()), driver.Me())
      ensures if fatal then driver.Me().phase.Stopping? && driver.Me().phase.why.StoreStopped? && driver.Me().phase.why.failed != {}
              else driver.Me().phase.Polling?
      ensures Walked(old(driver.Me()), driver.Me(), Highest(msgs), map[], turn.storeFails, FailedStores(driver.Me().phase))
      ensures SameTalk(old(driver.Me()).journal, driver.Me().journal)
      ensures Commits(old(driver.Me()), driver.Me(), world.now, msgs, turn, if fatal then Some(StoreError) else None)
    {
      fatal := StoreHighestOffsetPerPartition(msgs, turn);
      ghost var stored := driver.Me();
      CommitOnce(turn);
      WalkedStill(old(driver.Me()), stored, driver.Me(), Highest(msgs), turn.storeFails, stored.phase.failed);
    }

    /** dispatchBatch: handle, route every failure, and only then store and commit. */
    method DispatchBatch(msgs: seq<Message>, turn: Turn) returns (err: Option<LoopError>)
      requires Valid() && buf != null && msgs != [] && driver.Me().phase == Handling(msgs)
      modifies world, strategy`calls
      ensures Valid() && world.Extends(old(world.run), old(world.states))
      ensures Ended(driver.Me().phase, err.Some?, err)
      ensures Worked(old(world.now).history, old(driver.Me()), world.now, driver.id, msgs, turn, who, err)
    {
      var ok;
      ghost var rest;
      ok, rest := HandleAndRoute(msgs, turn);
      if !ok {
        RefusedIsWorked(old(world.now), world.now, driver.id, msgs, turn, who);
        return Some(StrategyError);
      }
      ghost var ready, reached := world.now, |world.run|;
      var fatal := StoreAndCommit(msgs, turn);
      world.RemembersSince(reached);
      err := if fatal then Some(StoreError) else None;
      StoredIsWorked(old(world.now), ready, world.now, driver.id, msgs, turn, who, err);
    }

    /** After Poll: Add, then Flush when the batch is full or has waited long enough. */
    method Buffering(msg: Option<Message>, now: Time) returns (batch: Option<seq<Message>>)
      requires Valid() && buf != null && driver.Me().phase.Polling?
      requires msg.Some? ==> IsNext(world.now.history, driver.Me(), msg.value)
      modifies world, buf, strategy`calls
      ensures Valid() && world.Extends(old(world.run), old(world.states))
      ensures var m := old(driver.Me());
              var due := Overdue(m.buffer, old(buf.firstAdd), msg, now, buf.timeout);
              && batch == (if Due(m.mode, m.buffer + Given(msg), due) then Some(m.buffer + Given(msg)) else None)
              && TakenIntoBuffer(old(world.now), world.now, driver.id, msg, batch)
              && buf.firstAdd == FirstSince(m.buffer, old(buf.firstAdd), msg, now, batch)
    {
      var due := Overdue(buf.messages, buf.firstAdd, msg, now, buf.timeout);
      driver.TakeIntoBuffer(msg, due);
      batch := AddAndFlush(buf, msg, now);
    }

    /** An iteration after Poll: the message is buffered, and a batch that is due is dispatched. */
    method BufferAndDispatch(msg: Option<Message>, turn: Turn) returns (batch: Option<seq<Message>>, err: Option<LoopError>)
      requires Valid() && buf != null && driver.Me().phase.Polling?
      requires msg.Some? ==> IsNext(world.now.history, driver.Me(), msg.value)
      modifies world, buf, strategy`calls
      ensures Valid() && world.Extends(old(world.run), old(world.states))
      ensures var m := old(driver.Me());
              var due := Overdue(m.buffer, old(buf.firstAdd), msg, turn.now, buf.timeout);
              && batch == (if Due(m.mode, m.buffer + Given(msg), due) then Some(m.buffer + Given(msg)) else None)
              && buf.firstAdd == FirstSince(m.buffer, old(buf.firstAdd), msg, turn.now, batch)
      ensures batch.None? ==> err == None && TakenIntoBuffer(old(world.now), world.now, driver.id, msg, None)
      ensures batch.Some? ==>
                && Ended(driver.Me().phase, err.Some?, err)
                && Worked(old(world.now).history, WithBatch(old(driver.Me()), Given(msg), batch.value), world.now, driver.id,
                          batch.value, turn, who, err)
    {
      batch := Buffering(msg, turn.now);
      err := None;
      if batch.Some? {
        ghost var mid := world.now;
        err := DispatchBatch(batch.value, turn);
        WorkedFromBuffer(old(world.now), mid, world.now, driver.id, msg, batch.value, turn, who, err);
      }
    }

    /** The rest of an iteration, once Poll has returned without an error. */
    method AfterPoll(msg: Option<Message>, turn: Turn, ghost g: Group, ghost since: Option<Time>)
      returns (stopped: bool, err: Option<LoopError>)
      requires Valid() && buf != null && driver.Me().phase.Polling? && !turn.outcome.Fatal?
      requires PolledAt(g, world.now, driver.id, turn) && msg == Offered(world.now, driver.id, turn.outcome)
      requires buf.messages != [] ==> buf.firstAdd == since
      modifies world, buf, strategy`calls
      ensures Valid() && world.Extends(old(world.run), old(world.states))
      ensures BatchIteration(g, since, world.now, buf.firstAdd, driver.id, buf.timeout, turn, who, stopped, err)
    {
      ghost var p, first := world.now, buf.firstAdd;
      DueAtPoll(g, since, p, first, driver.id, buf.timeout, turn);
      var batch;
      batch, err := BufferAndDispatch(msg, turn);
      stopped := err.Some?;
      if batch.Some? {
        DispatchedIteration(g, since, p, world.now, driver.id, buf.timeout, turn, who, err);
      } else {
        KeptIteration(g, since, p, world.now, buf.firstAdd, driver.id, buf.timeout, turn, who);
      }
    }

    /** One iteration of runBatchLoop. */
    method BatchTurn(turn: Turn) returns (stopped: bool, err: Option<LoopError>)
      requires Valid() && buf != null && driver.Me().phase.Polling?
      modifies world, buf, strategy`calls
      ensures Valid() && world.Extends(old(world.run), old(world.states))
      ensures BatchIteration(old(world.now), old(buf.firstAdd), world.now, buf.firstAdd, driver.id, buf.timeout, turn, who, stopped, err)
      ensures !stopped && buf.messages != [] ==>
                |buf.messages| < buf.batchSize && buf.firstAdd.Some? && turn.now - buf.firstAdd.value < buf.timeout
    {
      ghost var g, since, id := world.now, buf.firstAdd, driver.id;
      if turn.cancelled {
        driver.Leave(false);
        CancelledIteration(g, since, world.now, id, buf.timeout, turn, who);
        return true, None;
      }
      var msg, fatal := driver.Poll(turn.meanwhile, turn.rebalances, turn.outcome);
      if fatal {
        ghost var p := world.now;
        driver.Leave(true);
        FailedPollIteration(g, since, p, world.now, buf.firstAdd, id, buf.timeout, turn, who);
        return true, Some(PollingError);
      }
      stopped, err := AfterPoll(msg, turn, g, since);
    }

    /**
     What the buffer object has seen after a loop: exactly what the iterations took from Poll, which is
     what the run's labels say was fetched, and all of it dispatched, dropped or still held, in order.
     */
    lemma BufferAccounts(chain: seq<Group>, since: seq<Option<Time>>, turns: seq<Turn>, stopped: bool, err: Option<LoopError>)
      requires Valid() && buf != null && BatchLoop(chain, since, driver.id, buf.timeout, turns, who, stopped, err)
      requires chain[|chain| - 1] == world.now && driver.id in chain[0].members
      ensures buf.polled == chain[0].members[driver.id].fetched + TakenInAll(chain, driver.id, turns, |chain| - 1)
      ensures buf.polled == Conservation.Fetched(world.run, driver.id) == Flatten(buf.history) + buf.messages
      ensures Conservation.WellSized(buf.history, Conservation.Capacity(driver.mode))
      ensures forall i :: 0 <= i < |buf.history| && buf.history[i].Dispatched? && buf.batchSize >= 1 ==>
                1 <= |buf.history[i].msgs| <= buf.batchSize
    {
      BatchAdvances(chain, since, driver.id, buf.timeout, turns, who, stopped, err);
      LoopPolls(chain, driver.id, turns, 0, |chain| - 1);
      world.Conserves(driver.id);
    }

    /** One more iteration of a loop that goes on. */
    method NextBatchTurn(turn: Turn, ghost before: seq<Group>, ghost clocks: seq<Option<Time>>, ghost turns: seq<Turn>)
      returns (stopped: bool, err: Option<LoopError>, ghost chain: seq<Group>, ghost since: seq<Option<Time>>)
      requires Valid() && buf != null && driver.Me().phase.Polling?
      requires BatchLoop(before, clocks, driver.id, buf.timeout, turns, who, false, None)
      requires before[|before| - 1] == world.now && clocks[|before| - 1] == buf.firstAdd
      modifies world, buf, strategy`calls
      ensures Valid() && world.Extends(old(world.run), old(world.states))
      ensures BatchLoop(chain, since, driver.id, buf.timeout, turns + [turn], who, stopped, err)
      ensures chain[0] == before[0] && since[0] == clocks[0]
      ensures chain[|chain| - 1] == world.now && since[|chain| - 1] == buf.firstAdd
      ensures chain == before + [world.now] && since == clocks + [buf.firstAdd]
      ensures !stopped ==> Fresh(world.now, buf.firstAdd, driver.id, buf.batchSize, buf.timeout, turn.now)
      ensures Ended(driver.Me().phase, stopped, err)
    {
      stopped, err := BatchTurn(turn);
      BatchLoopGrows(before, clocks, driver.id, buf.timeout, turns, world.now, buf.firstAdd, turn, who, stopped, err);
      chain, since := before + [world.now], clocks + [buf.firstAdd];
    }

    /** runBatchLoop: a chain of iterations, to the end of the turns or to the one that stops it. */
    method BatchIterations(turns: seq<Turn>)
      returns (stopped: bool, err: Option<LoopError>, ghost chain: seq<Group>, ghost since: seq<Option<Time>>)
      requires Valid() && buf != null && driver.Me().phase.Polling?
      modifies world, buf, strategy`calls
      ensures Valid() && world.Extends(old(world.run), old(world.states))
      ensures BatchLoop(chain, since, driver.id, buf.timeout, turns, who, stopped, err)
      ensures chain[0] == old(world.now) && since[0] == old(buf.firstAdd)
      ensures chain[|chain| - 1] == world.now && Ended(driver.Me().phase, stopped, err)
      ensures FreshThrough(chain, since, driver.id, buf.batchSize, buf.timeout, turns, if stopped then |chain| - 2 else |chain| - 1)
    {
      stopped, err := false, None;
      chain, since := [world.now], [buf.firstAdd];
      for i := 0 to |turns|
        invariant Valid() && world.Extends(old(world.run), old(world.states)) && !stopped && err == None
        invariant BatchLoop(chain, since, driver.id, buf.timeout, turns[..i], who, false, None)
        invariant chain[0] == old(world.now) && since[0] == old(buf.firstAdd)
        invariant chain[|chain| - 1] == world.now && since[|chain| - 1] == buf.firstAdd
        invariant driver.Me().phase.Polling?
        invariant FreshThrough(chain, since, driver.id, buf.batchSize, buf.timeout, turns, i) && |chain| == i + 1
      {
        stopped, err, chain, since := NextBatchTurn(turns[i], chain, since, turns[..i]);
        assert turns[..i] + [turns[i]] == turns[..i + 1];
        if stopped {
          BatchLoopStops(chain, since, driver.id, buf.timeout, turns[..i + 1], turns, who, err);
          return;
        }
      }
      assert turns[..|turns|] == turns;
    }

    /** The same, with what it means for the buffer. */
    method RunBatchLoop(turns: seq<Turn>)
      returns (stopped: bool, err: Option<LoopError>, ghost chain: seq<Group>, ghost since: seq<Option<Time>>)
      requires Valid() && buf != null && driver.Me().phase.Polling?
      modifies world, buf, strategy`calls
      ensures Valid() && world.Extends(old(world.run), old(world.states))
      ensures BatchLoop(chain, since, driver.id, buf.timeout, turns, who, stopped, err)
      ensures Spans(chain, old(world.now), world.now) && since[0] == old(buf.firstAdd)
      ensures Ended(driver.Me().phase, stopped, err)
      ensures FreshThrough(chain, since, driver.id, buf.batchSize, buf.timeout, turns, if stopped then |chain| - 2 else |chain| - 1)
      ensures buf.polled == old(buf.polled) + TakenInAll(chain, driver.id, turns, |chain| - 1)
      ensures buf.polled == Conservation.Fetched(world.run, driver.id) == Flatten(buf.history) + buf.messages
      ensures Conservation.WellSized(buf.history, Conservation.Capacity(driver.mode))
      ensures forall i :: 0 <= i < |buf.history| && buf.history[i].Dispatched? && buf.batchSize >= 1 ==>
                1 <= |buf.history[i].msgs| <= buf.batchSize
    {
      stopped, err, chain, since := BatchIterations(turns);
      BufferAccounts(chain, since, turns, stopped, err);
    }

    // --- Single mode

    /** The strategy, if the handler failed. */
    method AskIfFailed(msg: Message, failure: Option<Failure>, turn: Turn) returns (ok: bool)
      requires Valid() && failure == WholeFailure(turn.handler)
      requires driver.Me().phase == if failure.Some? then Routing([msg], true, [msg]) else AfterRouting([msg], [])
      modifies world, strategy`calls
      ensures Valid() && world.Extends(old(world.run), old(world.states)) && Steady(old(world.now), world.now, driver.id)
      ensures var calls := CallsFor(who, OneMessage(turn), [msg]);
              AsksFor(old(driver.Me()).journal, driver.Me().journal, world.now.history, calls) && (ok <==> !Refused(calls))
      ensures driver.Me().phase == AfterRouting([msg], if ok then [] else [msg])
    {
      OneMessageMeans(turn, who, msg);
      if failure.None? {
        NothingAsked(driver.Me().journal, world.now.history);
        return true;
      }
      ProperlySpelled();
      ghost var rest;
      ok, rest := RouteWhole([msg], failure.value, turn);
    }

    /** The handler on one message and, on a failure, the strategy. */
    method HandleMessage(msg: Message, turn: Turn) returns (ok: bool)
      requires Valid() && driver.Me().phase == Handling([msg])
      modifies world, strategy`calls
      ensures Valid() && world.Extends(old(world.run), old(world.states)) && Steady(old(world.now), world.now, driver.id)
      ensures HandledAndRouted(old(driver.Me()).journal, driver.Me().journal, world.now.history, [msg], OneMessage(turn), who)
      ensures driver.Me().journal.commits == old(driver.Me()).journal.commits
      ensures ok <==> !Refused(CallsFor(who, OneMessage(turn), [msg]))
      ensures driver.Me().phase == AfterRouting([msg], if ok then [] else [msg])
    {
      OneMessageMeans(turn, who, msg);
      ghost var g := world.now;
      var failure := InvokeHandler(turn.handler);
      Hear([msg], OneMessage(turn));
      ghost var mid := world.now;
      ok := AskIfFailed(msg, failure, turn);
      SteadyThen(g, mid, world.now, driver.id);
      HeardAndAsked(g.members[driver.id].journal, mid.members[driver.id].journal, driver.Me().journal, world.now.history, [msg],
                    OneMessage(turn), who);
    }

    /** StoreOffset and MaybeCommitStored: a revoked partition skips the commit, a real failure stops the loop. */
    method StoreAndCommitOne(msg: Message, turn: Turn) returns (fatal: bool)
      requires Valid() && buf == null
      requires driver.Me().phase == Storing([msg], map[msg.Tp() := msg.offset], {})
      modifies world
      ensures Valid() && world.Extends(old(world.run), old(world.states))
      ensures SameBuffer(old(driver.Me()), driver.Me())
      ensures Walked(old(driver.Me()), driver.Me(), Highest([msg]), map[], turn.storeFails, if fatal then {msg.Tp()} else {})
      ensures if fatal then driver.Me().phase == Stopping(StoreStopped({msg.Tp()})) else driver.Me().phase.Polling?
      ensures SameTalk(old(driver.Me()).journal, driver.Me().journal)
      ensures Commits(old(driver.Me()), driver.Me(), world.now, [msg], turn, if fatal then Some(StoreError) else None)
    {
      AtLeastOnce.SingleHighest([msg]);
      ghost var m := driver.Me();
      var answer := StoreOnce(msg.Tp(), msg.offset, turn);
      ghost var stored := driver.Me();
      match answer {
        case Failed =>
          assert {} + {msg.Tp()} == {msg.Tp()};
        case Revoked =>
        case Stored =>
          CommitOnce(turn);
      }
      fatal := answer.Failed?;
      OneCommits(m, driver.Me(), world.now, msg, turn, answer);
      OneIsAll(m, stored, msg, turn.storeFails, fatal);
      WalkedStill(m, stored, driver.Me(), Highest([msg]), turn.storeFails, if fatal then {msg.Tp()} else {});
    }

    /** A polled message, from its handler to its commit. */
    method DispatchOne(msg: Message, turn: Turn) returns (err: Option<LoopError>)
      requires Valid() && buf == null && driver.Me().phase == Handling([msg])
      modifies world, strategy`calls
      ensures Valid() && world.Extends(old(world.run), old(world.states))
      ensures Ended(driver.Me().phase, err.Some?, err)
      ensures Worked(old(world.now).history, old(driver.Me()), world.now, driver.id, [msg], OneMessage(turn), who, err)
    {
      var ok := HandleMessage(msg, turn);
      if !ok {
        RefusedIsWorked(old(world.now), world.now, driver.id, [msg], OneMessage(turn), who);
        return Some(StrategyError);
      }
      err := FinishOne(msg, turn, old(world.now));
    }

    /** The rest of it, once the message is settled. */
    method FinishOne(msg: Message, turn: Turn, ghost before: Group) returns (err: Option<LoopError>)
      requires Valid() && buf == null && driver.Me().phase == AfterRouting([msg], [])
      requires Steady(before, world.now, driver.id) && !Refused(CallsFor(who, OneMessage(turn), [msg]))
      requires var j := before.members[driver.id].journal;
               HandledAndRouted(j, driver.Me().journal, world.now.history, [msg], OneMessage(turn), who)
               && driver.Me().journal.commits == j.commits
      modifies world
      ensures Valid() && world.Extends(old(world.run), old(world.states))
      ensures Ended(driver.Me().phase, err.Some?, err) && err != Some(StrategyError)
      ensures Worked(before.history, before.members[driver.id], world.now, driver.id, [msg], OneMessage(turn), who, err)
    {
      AtLeastOnce.SingleHighest([msg]);
      ghost var ready := world.now;
      var fatal := StoreAndCommitOne(msg, OneMessage(turn));
      world.RemembersSince(|old(world.run)|);
      err := if fatal then Some(StoreError) else None;
      StoredIsWorked(before, ready, world.now, driver.id, [msg], OneMessage(turn), who, err);
    }

    /** The rest of an iteration, once Poll has returned a message. */
    method TakeAndDispatch(msg: Message, turn: Turn) returns (err: Option<LoopError>)
      requires Valid() && buf == null && driver.Me().phase.Polling? && IsNext(world.now.history, driver.Me(), msg)
      modifies world, strategy`calls
      ensures Valid() && world.Extends(old(world.run), old(world.states))
      ensures Ended(driver.Me().phase, err.Some?, err)
      ensures Worked(old(world.now).history, WithBatch(old(driver.Me()), [msg], [msg]), world.now, driver.id, [msg], OneMessage(turn), who, err)
    {
      driver.TakeOne(msg);
      ghost var mid := world.now;
      err := DispatchOne(msg, turn);
      WorkedFromPoll(old(world.now), mid, world.now, driver.id, msg, OneMessage(turn), who, err);
    }

    /** One iteration of runSingleLoop. */
    method SingleTurn(turn: Turn) returns (stopped: bool, err: Option<LoopError>)
      requires Valid() && buf == null && driver.Me().phase.Polling?
      modifies world, strategy`calls
      ensures Valid() && world.Extends(old(world.run), old(world.states))
      ensures SingleIteration(old(world.now), world.now, driver.id, turn, who, stopped, err)
    {
      ghost var g, id := world.now, driver.id;
      if turn.cancelled {
        driver.Leave(false);
        CancelledIteration(g, None, world.now, id, 0, turn, who);
        return true, None;
      }
      var msg, fatal := driver.Poll(turn.meanwhile, turn.rebalances, turn.outcome);
      ghost var p := world.now;
      if fatal {
        driver.Leave(true);
        FailedPollIteration(g, None, p, world.now, None, id, 0, turn, who);
        return true, Some(PollingError);
      }
      if msg.None? {
        EmptyIteration(g, p, id, turn, who);
        return false, None;
      }
      err := TakeAndDispatch(msg.value, turn);
      stopped := err.Some?;
      WorkedIteration(g, p, world.now, id, turn, who, err);
    }

    /** One more iteration of a loop that goes on. */
    method NextSingleTurn(turn: Turn, ghost before: seq<Group>, ghost turns: seq<Turn>)
      returns (stopped: bool, err: Option<LoopError>, ghost chain: seq<Group>)
      requires Valid() && buf == null && driver.Me().phase.Polling?
      requires SingleLoop(before, driver.id, turns, who, false, None) && before[|before| - 1] == world.now
      modifies world, strategy`calls
      ensures Valid() && world.Extends(old(world.run), old(world.states))
      ensures SingleLoop(chain, driver.id, turns + [turn], who, stopped, err)
      ensures chain[0] == before[0] && chain[|chain| - 1] == world.now && Ended(driver.Me().phase, stopped, err)
    {
      stopped, err := SingleTurn(turn);
      SingleLoopGrows(before, driver.id, turns, world.now, turn, who, stopped, err);
      chain := before + [world.now];
    }

    /** runSingleLoop: a chain of iterations, to the end of the turns or to the one that stops it. */
    method RunSingleLoop(turns: seq<Turn>) returns (stopped: bool, err: Option<LoopError>, ghost chain: seq<Group>)
      requires Valid() && buf == null && driver.Me().phase.Polling?
      modifies world, strategy`calls
      ensures Valid() && world.Extends(old(world.run), old(world.states))
      ensures SingleLoop(chain, driver.id, turns, who, stopped, err)
      ensures Spans(chain, old(world.now), world.now) && Ended(driver.Me().phase, stopped, err)
    {
      stopped, err, chain := false, None, [world.now];
      for i := 0 to |turns|
        invariant Valid() && world.Extends(old(world.run), old(world.states)) && !stopped && err == None
        invariant SingleLoop(chain, driver.id, turns[..i], who, false, None)
        invariant chain[0] == old(world.now) && chain[|chain| - 1] == world.now
        invariant driver.Me().phase.Polling?
      {
        stopped, err, chain := NextSingleTurn(turns[i], chain, turns[..i]);
        assert turns[..i] + [turns[i]] == turns[..i + 1];
        if stopped {
          SingleLoopStops(chain, driver.id, turns[..i + 1], turns, who, err);
          return;
        }
      }
      assert turns[..|turns|] == turns;
    }

    /** The end of run: the final commit, after whatever the rest of the group does first, then the driver's Close. */
    method ShutDown(err: Option<LoopError>, during: seq<Label>, published: set<TopicPartition>, closing: set<TopicPartition>)
      returns (ghost last: Group)
      requires Valid() && Ended(driver.Me().phase, true, err)
      modifies world
      ensures world.Valid() && world.Extends(old(world.run), old(world.states)) && driver.id in world.now.members
      ensures driver.id in last.members && SameLoop(old(driver.Me()), last.members[driver.id])
      ensures Closed(last, world.now, driver.id, err, published + closing)
    {
      Interfere(during);
      last := world.now;
      driver.CommitStored(published);
      driver.Close(closing);
    }

    /** The loop of the configured mode. */
    method RunLoop(turns: seq<Turn>)
      returns (stopped: bool, err: Option<LoopError>, ghost chain: seq<Group>, ghost since: seq<Option<Time>>)
      requires Valid() && driver.Me().phase.Polling?
      modifies world, buf, strategy`calls
      ensures Valid() && world.Extends(old(world.run), old(world.states)) && Ended(driver.Me().phase, stopped, err)
      ensures buf == null ==> SingleLoop(chain, driver.id, turns, who, stopped, err)
      ensures buf != null ==> BatchLoop(chain, since, driver.id, buf.timeout, turns, who, stopped, err)
      ensures Spans(chain, old(world.now), world.now)
    {
      since := [];
      if buf == null {
        stopped, err, chain := RunSingleLoop(turns);
        return;
      }
      stopped, err, chain, since := RunBatchLoop(turns);
    }

    /**
     run: the loop of the configured mode, then the final commit and the driver's Close.  Every
     iteration does its work, and whatever the environment does, and wherever it is cut short, no
     stored or committed position has passed unresolved work.
     */
    method Run(turns: seq<Turn>, during: seq<Label>, published: set<TopicPartition>, closing: set<TopicPartition>)
      returns (stopped: bool, err: Option<LoopError>, ghost chain: seq<Group>, ghost since: seq<Option<Time>>, ghost last: Group)
      requires Valid() && driver.Me().phase.Polling?
      modifies world, buf, strategy`calls
      ensures world.Valid() && world.Extends(old(world.run), old(world.states)) && driver.id in world.now.members
      ensures buf == null ==> SingleLoop(chain, driver.id, turns, who, stopped, err)
      ensures buf != null ==> BatchLoop(chain, since, driver.id, buf.timeout, turns, who, stopped, err)
      ensures Spans(chain, old(world.now), last) && driver.id in last.members
      ensures if stopped then ClosedFrom(last, world.now, driver.id, err, published + closing) else world.now == last
      ensures AtLeastOnce.NothingSkipped(world.now)
      ensures world.start.policy.RetryWith? ==> NoLoss.NothingLost(world.start.policy.rc, world.now)
    {
      stopped, err, chain, since := RunLoop(turns);
      last := world.now;
      if stopped {
        ghost var final := ShutDown(err, during, published, closing);
      }
      SafeSoFar(world);
    }
  }

  /** The theorems about every run, at the point the world has come to. */
  lemma SafeSoFar(world: World)
    requires world.Valid()
    ensures AtLeastOnce.NothingSkipped(world.now)
    ensures world.start.policy.RetryWith? ==> NoLoss.NothingLost(world.start.policy.rc, world.now)
  {
    world.IsAfterRun();
    AtLeastOnce.NothingIsEverSkipped(world.start.policy, world.run);
    if world.start.policy.RetryWith? {
      NoLoss.NothingLostInAnyRun(world.start.policy.rc, world.run);
    }
  }

  /** The loop ended for the reason its error gives, what it had stored is committed where a commit landed, and the driver is closed. */
  ghost predicate Closed(end: Group, g: Group, id: MemberId, err: Option<LoopError>, landed: set<TopicPartition>) {
    && id in end.members && id in g.members
    && Ended(end.members[id].phase, true, err)
    && g.members[id] == OnClose(OnFinalCommit(end.members[id]))
    && forall tp :: tp in landed && tp in end.members[id].store ==> g.Committed(tp) == end.members[id].store[tp]
  }

  /** The same, once a loop that ended in one group has lost at most some partitions since. */
  ghost predicate ClosedFrom(end: Group, g: Group, id: MemberId, err: Option<LoopError>, landed: set<TopicPartition>)
    requires id in end.members
  {
    exists final: Group ::
      id in final.members && SameLoop(end.members[id], final.members[id]) && Closed(final, g, id, err, landed)
  }

  // --- Handling and routing

  lemma HeadOf(e: Message, tail: seq<Message>)
    ensures ([e] + tail)[0] == e && ([e] + tail)[1..] == tail
  {
  }

  /** Where the handler's answer leaves the loop. */
  function AfterVerdict(script: HandlerScript, msgs: seq<Message>): Phase {
    if WholeFailure(script).Some? then Routing(msgs, true, msgs)
    else RouteOrStore(msgs, false, FailedItems(msgs, Flags(|msgs|, script.fails)))
  }

  lemma VerdictTaken(m: Member, n: Member, script: HandlerScript, msgs: seq<Message>)
    requires m.phase == Handling(msgs) && SameLoop(m, n)
    ensures var verdict := VerdictOf(script, |msgs|);
            && CanReturn(n, verdict)
            && SameStanding(m, OnVerdict(n, verdict))
            && OnVerdict(n, verdict).phase == AfterVerdict(script, msgs)
  {
  }

  lemma RoutedStands(m: Member, n: Member, ok: bool)
    requires m.phase.Routing? && m.phase.left != [] && SameLoop(m, n)
    ensures SameStanding(m, OnRouted(n, ok)) && OnRouted(n, ok).phase == OnRouted(m, ok).phase
  {
  }

  lemma {:induction false} FailedItemsFailed(batch: seq<Message>, failed: seq<bool>, e: Message)
    requires |batch| == |failed| && e in FailedItems(batch, failed)
    ensures exists j :: 0 <= j < |batch| && failed[j] && batch[j] == e
  {
    var n := |batch| - 1;
    if e in FailedItems(batch[..n], failed[..n]) {
      FailedItemsFailed(batch[..n], failed[..n], e);
      var j :| 0 <= j < n && failed[..n][j] && batch[..n][j] == e;
      assert failed[j] && batch[j] == e;
    } else {
      assert failed[n] && batch[n] == e;
    }
  }

  /** Messages in poll order are distinct, so an item that was not failed counts as handled. */
  lemma NotFailedIsHandled(batch: seq<Message>, failed: seq<bool>, i: nat)
    requires |batch| == |failed| && AscendingPerPartition(batch) && i < |batch| && !failed[i]
    ensures batch[i] in Succeeded(batch, FailedItems(batch, failed))
  {
    assert forall j :: 0 <= j < |batch| && batch[j] == batch[i] ==> j == i;
    if batch[i] in FailedItems(batch, failed) {
      FailedItemsFailed(batch, failed, batch[i]);
    }
  }

  /** What the handler does not fail will count as handled. */
  lemma HandlerIsBelieved(h: History, m: Member, script: HandlerScript, msgs: seq<Message>)
    requires m.phase == Handling(msgs) && AscendingPerPartition(msgs)
    ensures HandlesWhatItDidNotFail(HistoryOnVerdict(h, m, VerdictOf(script, |msgs|)), msgs, script)
  {
    if WholeFailure(script).None? {
      var flags := Flags(|msgs|, script.fails);
      forall i | 0 <= i < |msgs| && VerdictOn(script.fails, i).None?
        ensures msgs[i] in Succeeded(msgs, FailedItems(msgs, flags))
      {
        NotFailedIsHandled(msgs, flags, i);
      }
    }
  }

  /** What the strategy is asked for one message. */
  lemma OneMessageMeans(turn: Turn, who: Answering, msg: Message)
    ensures AfterVerdict(OneMessage(turn).handler, [msg]) ==
            if WholeFailure(turn.handler).Some? then Routing([msg], true, [msg]) else AfterRouting([msg], [])
    ensures CallsFor(who, OneMessage(turn), [msg]) ==
            match WholeFailure(turn.handler)
            case None => []
            case Some(f) => [Call([msg], WithReason(f), Accepts(who, turn.call, 1))]
  {
    assert [msg][..0] == [] && [false][..0] == [] && Flags(1, []) == [false];
    assert FailedItems([msg], [false]) == [];
    assert ItemCalls(who, OneMessage(turn), [msg], 1) == [];
  }

  /** A member whose store and buffer are untouched, on the partitions it still holds. */
  ghost predicate SameStanding(m: Member, m': Member) {
    m'.mode == m.mode && m'.autoCommit == m.autoCommit && Untouched(m, m', {}) && SameBuffer(m, m')
  }

  ghost predicate SameBuffer(m: Member, m': Member) {
    m'.buffer == m.buffer && m'.fetched == m.fetched && m'.left == m.left
  }

  /** Nothing was forgotten, and the member stands as it did. */
  ghost predicate Steady(g: Group, g': Group, id: MemberId) {
    && id in g.members && id in g'.members
    && g'.history.Remembers(g.history) && SameStanding(g.members[id], g'.members[id])
  }

  lemma CommitIsNoted(m: Member, n: Member, turn: Turn)
    requires SameLoop(m, n) && n.phase.Committing?
    ensures var m' := OnCommitted(n).(journal := Noted(n, CommitReturns(0, Landing(n, turn))));
            && SameStanding(m, m') && m'.phase == OnCommitted(m).phase
            && Landing(m', turn) == Landing(n, turn)
            && m'.journal.commits == m.journal.commits + [Landing(m', turn)] && SameTalk(m.journal, m'.journal)
  {
  }

  /** A message that was stored is committed; one whose store failed, or whose partition is gone, is not. */
  lemma OneCommits(m: Member, m': Member, g: Group, msg: Message, turn: Turn, answer: StoreAnswer)
    requires m.mode.Single? && m'.mode == m.mode && m'.autoCommit == m.autoCommit
    requires if answer.Stored? then CommitsOnce(m.journal, m', g, turn) else m'.journal.commits == m.journal.commits
    requires answer.Revoked? ==> msg.Tp() !in m'.fetch
    ensures Commits(m, m', g, [msg], turn, if answer.Failed? then Some(StoreError) else None)
  {
    assert msg in [msg];
  }

  // --- The journal

  /** The handler has answered, and nothing else was noted. */
  ghost predicate Heard(j: Journal, j': Journal, verdict: Verdict) {
    j' == j.(verdicts := j.verdicts + [verdict])
  }

  lemma CallIsNoted(h: History, m: Member, id: MemberId, f: Failure, ok: bool, written: seq<Message>)
    requires m.phase.Routing? && m.phase.left != []
    ensures var call := Call(NextCall(m.phase.whole, m.phase.left), f, ok);
            AsksFor(m.journal, Noted(m, StrategyReturns(id, f, ok, written)), HistoryOnRouted(h, m, ok, written), [call])
  {
  }

  /** The strategy was asked, nothing else was noted, and what it accepted is written off. */
  ghost predicate AsksFor(j: Journal, j': Journal, h: History, calls: seq<Call>) {
    j' == j.(calls := j.calls + calls) && WritesOff(h, calls)
  }

  lemma HeardAndAsked(j: Journal, mid: Journal, j': Journal, h: History, msgs: seq<Message>, turn: Turn, who: Answering)
    requires Heard(j, mid, VerdictOf(turn.handler, |msgs|)) && AsksFor(mid, j', h, CallsFor(who, turn, msgs))
    requires HandlesWhatItDidNotFail(h, msgs, turn.handler)
    ensures HandledAndRouted(j, j', h, msgs, turn, who) && j'.commits == j.commits
  {
  }

  /** Neither the handler nor the strategy was heard. */
  ghost predicate SameTalk(j: Journal, j': Journal) {
    j'.verdicts == j.verdicts && j'.calls == j.calls
  }

  lemma NothingAsked(j: Journal, h: History)
    ensures AsksFor(j, j, h, [])
  {
    assert j.calls + [] == j.calls;
  }

  lemma AsksMore(j: Journal, mid: Journal, j': Journal, h: History, h': History, made: seq<Call>, more: seq<Call>)
    requires AsksFor(j, mid, h, made) && AsksFor(mid, j', h', more) && h'.Remembers(h)
    ensures AsksFor(j, j', h', made + more)
  {
    assert j.calls + made + more == j.calls + (made + more);
  }

  /** routeBatchFailures has walked over the first items: these calls were made, and all accepted. */
  ghost predicate RoutedUpTo(
    g: Group, now: Group, id: MemberId, who: Answering, turn: Turn, msgs: seq<Message>, i: nat, made: seq<Call>, rest: seq<Message>)
    requires i <= |msgs|
  {
    && Steady(g, now, id)
    && now.members[id].phase == RouteOrStore(msgs, false, rest)
    && made + ItemCalls(who, turn, msgs, i) == ItemCalls(who, turn, msgs, 0) && !Refused(made)
    && AsksFor(g.members[id].journal, now.members[id].journal, now.history, made)
  }

  /** The walk is over: its last call was refused. */
  ghost predicate RoutingRefused(g: Group, now: Group, id: MemberId, who: Answering, turn: Turn, msgs: seq<Message>) {
    && Steady(g, now, id) && Refused(ItemCalls(who, turn, msgs, 0))
    && AsksFor(g.members[id].journal, now.members[id].journal, now.history, ItemCalls(who, turn, msgs, 0))
  }

  lemma RoutedNone(g: Group, id: MemberId, who: Answering, turn: Turn, msgs: seq<Message>, rest: seq<Message>)
    requires id in g.members && g.members[id].phase == RouteOrStore(msgs, false, rest)
    ensures RoutedUpTo(g, g, id, who, turn, msgs, 0, [], rest)
  {
    NothingAsked(g.members[id].journal, g.history);
  }

  /** One more item that the handler did not fail. */
  lemma RoutedPast(
    g: Group, now: Group, id: MemberId, who: Answering, turn: Turn, msgs: seq<Message>, i: nat, made: seq<Call>, rest: seq<Message>)
    requires i < |msgs| && RoutedUpTo(g, now, id, who, turn, msgs, i, made, rest) && VerdictOn(turn.handler.fails, i).None?
    ensures RoutedUpTo(g, now, id, who, turn, msgs, i + 1, made, rest)
  {
  }

  /** One more item that the handler failed: accepted, and the walk goes on, or refused, and it is over. */
  lemma RoutedOne(
    g: Group, mid: Group, now: Group, id: MemberId, who: Answering, turn: Turn, msgs: seq<Message>, i: nat, made: seq<Call>,
    rest: seq<Message>, next: seq<Message>)
    requires i < |msgs| && RoutedUpTo(g, mid, id, who, turn, msgs, i, made, rest) && VerdictOn(turn.handler.fails, i).Some?
    requires Steady(mid, now, id)
    requires var call := Call([msgs[i]], WithReason(VerdictOn(turn.handler.fails, i).value), Accepts(who, CallFor(turn, msgs[i]), 1));
             AsksFor(mid.members[id].journal, now.members[id].journal, now.history, [call])
    requires Accepts(who, CallFor(turn, msgs[i]), 1) ==> now.members[id].phase == RouteOrStore(msgs, false, next)
    ensures var call := Call([msgs[i]], WithReason(VerdictOn(turn.handler.fails, i).value), Accepts(who, CallFor(turn, msgs[i]), 1));
            if call.ok then RoutedUpTo(g, now, id, who, turn, msgs, i + 1, made + [call], next)
            else RoutingRefused(g, now, id, who, turn, msgs)
  {
    var call := Call([msgs[i]], WithReason(VerdictOn(turn.handler.fails, i).value), Accepts(who, CallFor(turn, msgs[i]), 1));
    CallsGoOn(made, call, if call.ok then ItemCalls(who, turn, msgs, i + 1) else []);
    AsksMore(g.members[id].journal, mid.members[id].journal, now.members[id].journal, mid.history, now.history, made, [call]);
    SteadyThen(g, mid, now, id);
  }

  lemma SteadyThen(g: Group, mid: Group, now: Group, id: MemberId)
    requires Steady(g, mid, id) && Steady(mid, now, id)
    ensures Steady(g, now, id)
  {
  }

  lemma CallsGoOn(made: seq<Call>, call: Call, rest: seq<Call>)
    ensures made + ([call] + rest) == (made + [call]) + rest
    ensures Refused(made + [call]) <==> !call.ok
    ensures rest == [] ==> made + ([call] + rest) == made + [call]
  {
  }

  lemma NoneLeft(made: seq<Call>)
    ensures made + [] == made
  {
  }

  /** Storing begins once nothing is left; a refusal stops the loop with the rest unresolved. */
  function AfterRouting(msgs: seq<Message>, rest: seq<Message>): Phase {
    if rest == [] then Storing(msgs, Highest(msgs), {}) else Stopping(StrategyStopped(msgs, rest))
  }

  // --- Storing

  /** One StoreOffset call: stored, failed, or passed over because the partition is gone. */
  ghost predicate StoresOne(m: Member, m': Member, tp: TopicPartition, offset: nat, fails: set<TopicPartition>, failed: bool) {
    && Untouched(m, m', if failed then {} else {tp})
    && (failed ==> tp in fails)
    && (tp in m'.fetch ==> (failed <==> tp in fails))
    && (!failed ==> StoredAt(m', tp, offset))
  }

  function FailedStores(phase: Phase): set<TopicPartition> {
    if phase.Stopping? && phase.why.StoreStopped? then phase.why.failed else {}
  }

  lemma WalkedAll(m: Member, m': Member, highest: map<TopicPartition, nat>, fails: set<TopicPartition>, failed: set<TopicPartition>)
    requires Walked(m, m', highest, map[], fails, failed)
    ensures StoresMaxima(m', highest, fails) && Untouched(m, m', highest.Keys - fails) && FailsExactly(m', failed, highest, fails)
    ensures failed == {} ==> forall tp :: tp in highest && tp in m'.fetch ==> tp !in fails
  {
    var none: map<TopicPartition, nat> := map[];
    assert highest.Keys - none.Keys == highest.Keys;
  }

  lemma RefusedIsWorked(before: Group, g: Group, id: MemberId, msgs: seq<Message>, turn: Turn, who: Answering)
    requires Steady(before, g, id) && Refused(CallsFor(who, turn, msgs))
    requires var j, j' := before.members[id].journal, g.members[id].journal;
             HandledAndRouted(j, j', g.history, msgs, turn, who) && j'.commits == j.commits
    ensures Worked(before.history, before.members[id], g, id, msgs, turn, who, Some(StrategyError))
  {
  }

  /** What was settled when storing began still is. */
  lemma SettledBefore(ready: Group, g: Group, j: Journal, mid: Journal, j': Journal, msgs: seq<Message>, turn: Turn, who: Answering)
    requires g.history.Remembers(ready.history) && SameTalk(mid, j')
    requires HandledAndRouted(j, mid, ready.history, msgs, turn, who) && !Refused(CallsFor(who, turn, msgs))
    ensures HandledAndRouted(j, j', g.history, msgs, turn, who) && Settles(g.history, msgs, turn.handler)
  {
    NoneRefusedSettles(who, turn, msgs, g.history);
  }

  /** A batch that was settled and then stored has been worked on. */
  lemma StoredIsWorked(
    before: Group, ready: Group, g: Group, id: MemberId, msgs: seq<Message>, turn: Turn, who: Answering, err: Option<LoopError>)
    requires Steady(before, ready, id) && id in g.members && g.history.Remembers(ready.history)
    requires SameBuffer(ready.members[id], g.members[id]) && !Refused(CallsFor(who, turn, msgs))
    requires HandledAndRouted(before.members[id].journal, ready.members[id].journal, ready.history, msgs, turn, who)
    requires ready.members[id].journal.commits == before.members[id].journal.commits
    requires SameTalk(ready.members[id].journal, g.members[id].journal)
    requires Commits(ready.members[id], g.members[id], g, msgs, turn, err)
    requires Walked(ready.members[id], g.members[id], Highest(msgs), map[], turn.storeFails, FailedStores(g.members[id].phase))
    requires if err == None then g.members[id].phase.Polling?
             else err == Some(StoreError) && g.members[id].phase.Stopping? && g.members[id].phase.why.StoreStopped?
                  && g.members[id].phase.why.failed != {}
    ensures Worked(before.history, before.members[id], g, id, msgs, turn, who, err)
  {
    WalkedAll(ready.members[id], g.members[id], Highest(msgs), turn.storeFails, FailedStores(g.members[id].phase));
    SettledBefore(ready, g, before.members[id].journal, ready.members[id].journal, g.members[id].journal, msgs, turn, who);
    UntouchedThen(before.members[id], ready.members[id], g.members[id], {}, Highest(msgs).Keys - turn.storeFails);
    assert {} + (Highest(msgs).Keys - turn.storeFails) == Highest(msgs).Keys - turn.storeFails;
  }

  /** Where StoreOffset's answer leaves the loop. */
  function PhaseAfterStore(mode: Mode, phase: Phase, tp: TopicPartition, answer: StoreAnswer): Phase
    requires phase.Storing?
  {
    var failed := phase.failed + if answer.Failed? then {tp} else {};
    if mode.Single? then
      (match answer
       case Stored => Committing({})
       case Revoked => Polling
       case Failed => Stopping(StoreStopped(failed)))
    else if phase.todo - {tp} == map[] then Committing(failed)
    else Storing(phase.batch, phase.todo - {tp}, failed)
  }

  lemma StoreCallStores(m: Member, n: Member, tp: TopicPartition, offset: nat, fails: set<TopicPartition>)
    requires SameLoop(m, n) && CanStore(m, tp) && m.phase.todo[tp] == offset
    ensures var m' := AfterStore(n, tp, tp !in fails);
            var answer := Answer(n, tp, tp !in fails);
            && StoresOne(m, m', tp, offset, fails, answer.Failed?) && (answer.Revoked? <==> tp !in m'.fetch)
            && SameBuffer(m, m') && m'.journal == m.journal && m'.mode == m.mode && m'.autoCommit == m.autoCommit
            && m'.phase == PhaseAfterStore(m.mode, m.phase, tp, answer)
  {
  }

  /** The store loop, with `todo` still to do: what was done was stored or failed, and nothing else was touched. */
  ghost predicate Walked(
    m: Member, m': Member, highest: map<TopicPartition, nat>, todo: map<TopicPartition, nat>, fails: set<TopicPartition>,
    failed: set<TopicPartition>)
  {
    var done := highest.Keys - todo.Keys;
    && todo.Keys <= highest.Keys && (forall tp :: tp in todo ==> todo[tp] == highest[tp])
    && Untouched(m, m', done - fails)
    && failed <= done * fails
    && (forall tp :: tp in done && tp in m'.fetch ==> (tp in failed <==> tp in fails))
    && (forall tp :: tp in done && tp !in fails ==> StoredAt(m', tp, highest[tp]))
  }

  lemma UntouchedThen(start: Member, m: Member, m': Member, some: set<TopicPartition>, more: set<TopicPartition>)
    requires Untouched(start, m, some) && Untouched(m, m', more)
    ensures Untouched(start, m', some + more)
  {
  }

  lemma WalksOn(
    start: Member, m: Member, m': Member, highest: map<TopicPartition, nat>, todo: map<TopicPartition, nat>,
    tp: TopicPartition, fails: set<TopicPartition>, errors: set<TopicPartition>, failed: bool)
    requires Walked(start, m, highest, todo, fails, errors) && tp in todo
    requires StoresOne(m, m', tp, todo[tp], fails, failed)
    ensures Walked(start, m', highest, todo - {tp}, fails, errors + if failed then {tp} else {})
  {
    var before, done := highest.Keys - todo.Keys, highest.Keys - (todo - {tp}).Keys;
    assert done == before + {tp};
    UntouchedThen(start, m, m', before - fails, if failed then {} else {tp});
    if !failed && tp in fails {
      assert tp !in m'.fetch;
    }
    forall other | other in before && other !in fails
      ensures StoredAt(m', other, highest[other])
    {
      assert StoredAt(m, other, highest[other]);
    }
  }

  /** A partition that is lost later does not spoil the walk. */
  lemma WalkedStill(
    m: Member, stored: Member, m': Member, highest: map<TopicPartition, nat>, fails: set<TopicPartition>, failed: set<TopicPartition>)
    requires Walked(m, stored, highest, map[], fails, failed) && Untouched(stored, m', {})
    ensures Walked(m, m', highest, map[], fails, failed)
  {
    var none: map<TopicPartition, nat> := map[];
    UntouchedThen(m, stored, m', highest.Keys - none.Keys - fails, {});
    assert highest.Keys - none.Keys - fails + {} == highest.Keys - none.Keys - fails;
    forall tp | tp in highest && tp !in fails
      ensures StoredAt(m', tp, highest[tp])
    {
      assert StoredAt(stored, tp, highest[tp]);
    }
  }

  /** One message's store is the whole walk of its batch. */
  lemma OneIsAll(m: Member, m': Member, msg: Message, fails: set<TopicPartition>, failed: bool)
    requires StoresOne(m, m', msg.Tp(), msg.offset, fails, failed)
    ensures Walked(m, m', map[msg.Tp() := msg.offset], map[], fails, if failed then {msg.Tp()} else {})
  {
    var none: map<TopicPartition, nat> := map[];
    assert map[msg.Tp() := msg.offset].Keys - none.Keys == {msg.Tp()};
  }

  // --- Buffering

  /** When the first message of the buffer came. */
  function FirstSince(
    buffer: seq<Message>, since: Option<Time>, msg: Option<Message>, now: Time, batch: Option<seq<Message>>): Option<Time>
  {
    if batch.Some? || (buffer == [] && msg.None?) then None else if buffer == [] then Some(now) else since
  }

  /** The buffer's part of a loop iteration. */
  method AddAndFlush(buf: Buffer, msg: Option<Message>, now: Time) returns (batch: Option<seq<Message>>)
    requires buf.Valid()
    modifies buf
    ensures buf.Valid()
    ensures var all := old(buf.messages) + Given(msg);
            var due := Overdue(old(buf.messages), old(buf.firstAdd), msg, now, buf.timeout);
            && batch == (if Due(Batch(buf.batchSize), all, due) then Some(all) else None)
            && buf.messages == (if batch.Some? then [] else all)
            && buf.firstAdd == FirstSince(old(buf.messages), old(buf.firstAdd), msg, now, batch)
    ensures var arrived := if old(buf.messages) != [] then old(buf.firstAdd).value else now;
            batch.Some? <==>
            (old(buf.messages) != [] || msg.Some?)
            && (|old(buf.messages)| + (if msg.Some? then 1 else 0) >= buf.batchSize || now - arrived >= buf.timeout)
    ensures buf.history == old(buf.history) + if batch.Some? then [Dispatched(batch.value)] else []
    ensures buf.polled == old(buf.polled) + Given(msg)
  {
    if msg.Some? {
      buf.Add(msg.value, now);
    }
    var ready := buf.Ready();
    var due := buf.TimedOut(now);
    batch := None;
    if ready || due {
      batch := buf.Flush();
    }
    assert old(buf.messages) + [] == old(buf.messages) && old(buf.polled) + [] == old(buf.polled);
    assert old(buf.history) + [] == old(buf.history);
  }
}
