/**
 One subscriber's view of the consumer group: the group as an object that takes steps, and the
 driver calls a poll loop makes on it (internal/subscribe/subscribedriver/consumer.go).

 What the environment answers comes in as arguments.  Before each call of an iteration, before the
 handler and the strategy answer, and before the final commit the rest of the group may take any
 steps of its own; the driver's Close follows the final commit at once.
 */
module Driver {
  import opened Types
  import opened Buffering
  import opened ConsumerGroup
  import opened AtLeastOnce
  import Conservation

  /** The whole group, with the run that led to its present state. */
  class World {
    ghost const start: Group
    ghost var run: seq<Label>
    ghost var states: seq<Group>  // the states the run went through, the present one last
    var now: Group

    ghost predicate Valid()
      reads this
    {
      && start == Init(start.policy) && now.policy == start.policy
      && IsTrace(states, run) && states[0] == start && states[|run|] == now
    }

    /** The run goes on from an earlier one. */
    ghost predicate Extends(earlier: seq<Label>, before: seq<Group>)
      reads this
    {
      earlier <= run && before <= states
    }

    constructor (policy: Policy)
      ensures Valid() && now == start == Init(policy) && run == []
    {
      this.start := Init(policy);
      this.now := Init(policy);
      this.run := [];
      this.states := [Init(policy)];
    }

    method Step(l: Label)
      requires Valid() && Enabled(now, l)
      modifies this
      ensures Valid() && now == Apply(old(now), l) && run == old(run) + [l]
      ensures Extends(old(run), old(states))
    {
      now := Apply(now, l);
      run := run + [l];
      states := states + [now];
      assert Stepped(old(now), l, now);
    }

    /** The present state is where the run leads. */
    lemma IsAfterRun()
      requires Valid()
      ensures IsRun(start, run) && After(start, run) == now
    {
      TraceIsRun(states, run);
    }

    /** So everything proved of every run holds of the present state. */
    lemma InOrder()
      requires Valid()
      ensures GroupInv(now) && Conservation.Readable(now.history)
    {
      IsAfterRun();
      InitInOrder(start.policy);
      RunKeeps(start, run);
      Conservation.ReadableInEveryRun(start.policy, run);
    }

    /** Conservation, for one member of the present group. */
    lemma Conserves(id: MemberId)
      requires Valid() && id in now.members
      ensures Conservation.Conserved(now.members[id]) && now.members[id].fetched == Conservation.Fetched(run, id)
    {
      IsAfterRun();
      Conservation.ConservedInEveryRun(start.policy, run, id);
    }

    /** Nothing that was resolved at some point of the run is forgotten. */
    lemma {:induction false} RemembersSince(k: nat)
      requires Valid() && k <= |run|
      ensures now.history.Remembers(states[k].history)
    {
      TraceRemembers(states, run, k, |run|);
    }

    /** Any number of steps of the rest of the group; labels that cannot happen are passed over. */
    method Meanwhile(id: MemberId, labels: seq<Label>)
      requires Valid() && id in now.members
      modifies this
      ensures Valid() && Extends(old(run), old(states))
      ensures now == MeanwhileAll(old(now), id, labels) && now.history.Remembers(old(now).history)
      ensures id in now.members && SameLoop(old(now.members[id]), now.members[id])
    {
      for i := 0 to |labels|
        invariant Valid() && Extends(old(run), old(states))
        invariant now == MeanwhileAll(old(now), id, labels[..i])
        invariant id in now.members && SameLoop(old(now.members[id]), now.members[id])
      {
        assert labels[..i + 1][..i] == labels[..i];
        if Foreign(id, labels[i]) && Enabled(now, labels[i]) {
          ForeignStep(now, id, labels[i]);
          Step(labels[i]);
        }
      }
      assert labels[..|labels|] == labels;
      RemembersSince(|old(run)|);
    }
  }

  lemma StepRemembers(g: Group, l: Label)
    requires Enabled(g, l)
    ensures Apply(g, l).history.Remembers(g.history)
  {
    if l.Append? {
      WritingRemembers(g.history, [l.record]);
    } else if l.StrategyReturns? {
      WritingRemembers(g.history, l.written);
    }
  }

  lemma {:induction false} WritingRemembers(h: History, records: seq<Message>)
    ensures WriteAll(h, records).handled == h.handled && WriteAll(h, records).writtenOff == h.writtenOff
  {
    if records != [] {
      WritingRemembers(h, records[..|records| - 1]);
    }
  }

  lemma {:induction false} TraceRemembers(states: seq<Group>, run: seq<Label>, k: nat, n: nat)
    requires IsTrace(states, run) && k <= n <= |run|
    ensures states[n].history.Remembers(states[k].history)
  {
    if k < n {
      TraceRemembers(states, run, k, n - 1);
      assert Stepped(states[n - 1], run[n - 1], states[n]);
      StepRemembers(states[n - 1], run[n - 1]);
    }
  }

  /** Steps that are not this subscriber's own: other members, producers, its background threads. */
  predicate Foreign(id: MemberId, l: Label) {
    l.Append? || l.Tick? || l.Lose? || l.id != id
  }

  /** The group after those of the labels that can happen. */
  function MeanwhileAll(g: Group, id: MemberId, labels: seq<Label>): Group {
    if labels == [] then g
    else
      var before, l := MeanwhileAll(g, id, labels[..|labels| - 1]), labels[|labels| - 1];
      if Foreign(id, l) && Enabled(before, l) then Apply(before, l) else before
  }

  /** Two views of a member that differ at most by partitions it has lost. */
  ghost predicate SameLoop(m: Member, m': Member) {
    && m'.mode == m.mode && m'.autoCommit == m.autoCommit && m'.joined == m.joined
    && m'.buffer == m.buffer && m'.fetched == m.fetched && m'.left == m.left
    && m'.accounted == m.accounted && m'.phase == m.phase && m'.journal == m.journal
    && Untouched(m, m', {})
  }

  /** Apart from some partitions, the store of what is still held is as it was. */
  ghost predicate Untouched(m: Member, m': Member, except: set<TopicPartition>) {
    && m'.fetch.Keys <= m.fetch.Keys
    && forall tp :: tp in m'.fetch && tp !in except ==>
         && (tp in m'.store <==> tp in m.store)
         && (tp in m'.store ==> m'.store[tp] == m.store[tp])
  }

  lemma ForeignStep(g: Group, id: MemberId, l: Label)
    requires id in g.members && Foreign(id, l) && Enabled(g, l)
    ensures id in Apply(g, l).members && SameLoop(g.members[id], Apply(g, l).members[id])
  {
  }

  datatype Rebalance = Assigned(tps: set<TopicPartition>) | RevokedAll(published: set<TopicPartition>)

  /** The group after one rebalance event of a polling member. */
  function Rebalanced(g: Group, id: MemberId, event: Rebalance): Group {
    if id !in g.members || !g.members[id].phase.Polling? then g
    else
      var m := g.members[id];
      match event
      case Assigned(tps) => if m.joined then g else Apply(g, Assign(id, tps))
      case RevokedAll(published) => if m.joined then Apply(g, Revoke(id, published * m.store.Keys)) else g
  }

  function RebalancedAll(g: Group, id: MemberId, events: seq<Rebalance>): Group {
    if events == [] then g else Rebalanced(RebalancedAll(g, id, events[..|events| - 1]), id, events[|events| - 1])
  }

  datatype PollOutcome = Nothing | Polled(msg: Message) | Fatal

  /** The message Poll returns: the one the broker offers, if it is the next of an assigned partition. */
  function Offered(g: Group, id: MemberId, outcome: PollOutcome): Option<Message> {
    if id in g.members && outcome.Polled? && IsNext(g.history, g.members[id], outcome.msg) then Some(outcome.msg) else None
  }

  class Consumer {
    const world: World
    const id: MemberId
    const mode: Mode
    const autoCommit: bool
    const hook: Buffer?  // what the revoke hook drops; null when none is set

    /** This subscriber, as the group sees it. */
    function Me(): Member
      reads world
      requires id in world.now.members
    {
      world.now.members[id]
    }

    /**
     The group is in a state some run leads to, and knows this buffer: what it holds, everything that
     was ever put into it and everything that left it.
     */
    ghost predicate Valid()
      reads this, world, hook
    {
      && world.Valid() && id in world.now.members && Me().mode == mode && Me().autoCommit == autoCommit
      && (hook != null ==> hook.Valid() && Mirrors(hook, Me()))
      && (hook == null ==> Me().buffer == [])
    }

    constructor (world: World, id: MemberId, mode: Mode, autoCommit: bool, hook: Buffer?)
      ensures this.world == world && this.id == id && this.mode == mode && this.autoCommit == autoCommit && this.hook == hook
    {
      this.world := world;
      this.id := id;
      this.mode := mode;
      this.autoCommit := autoCommit;
      this.hook := hook;
    }

    /** rebalanceCallback: on a revoke, the buffer is dropped, then the store committed, then all unassigned. */
    method RebalanceCallback(event: Rebalance)
      requires Valid() && Me().phase.Polling?
      modifies world, hook
      ensures Valid() && world.Extends(old(world.run), old(world.states))
      ensures Me().phase.Polling?
      ensures world.now == Rebalanced(old(world.now), id, event)
      ensures event.RevokedAll? && old(Me()).joined ==>
                && !Me().joined && Me().fetch == map[] && Me().store == map[] && Me().buffer == []
                && forall tp :: world.now.Committed(tp) ==
                     if tp in event.published && tp in old(Me()).store then old(Me()).store[tp] else old(world.now).Committed(tp)
      ensures event.Assigned? && !old(Me()).joined ==>
                && Me().joined && Me().fetch.Keys == event.tps && Me().store == map[]
                && (forall tp :: tp in event.tps ==>
                      Me().fetch[tp] == if tp in old(world.now).committed then old(world.now).committed[tp] else 0)
                && world.now.committed == old(world.now).committed
      ensures OnlyDropped(old(Me()), Me())
      ensures hook != null && hook.messages != [] ==> hook.firstAdd == old(hook.firstAdd)
    {
      match event
      case Assigned(tps) =>
        if !Me().joined {
          world.Step(Assign(id, tps));
        }
      case RevokedAll(published) =>
        if Me().joined {
          if hook != null {
            var dropped := hook.Drop();
          }
          world.Step(Revoke(id, published * Me().store.Keys));
        }
    }

    /** Poll: rebalances first, then at most one message, which is the next of its partition. */
    method Poll(meanwhile: seq<Label>, rebalances: seq<Rebalance>, outcome: PollOutcome)
      returns (msg: Option<Message>, fatal: bool)
      requires Valid() && Me().phase.Polling?
      modifies world, hook
      ensures Valid() && world.Extends(old(world.run), old(world.states))
      ensures Me().phase.Polling?
      ensures world.now == RebalancedAll(MeanwhileAll(old(world.now), id, meanwhile), id, rebalances)
      ensures OnlyDropped(old(Me()), Me())
      ensures hook != null && hook.messages != [] ==> hook.firstAdd == old(hook.firstAdd)
      ensures world.now.history.Remembers(old(world.now).history)
      ensures msg == Offered(world.now, id, outcome)
      ensures msg == if outcome.Polled? && IsNext(world.now.history, Me(), outcome.msg) then Some(outcome.msg) else None
      ensures fatal <==> outcome.Fatal?
    {
      world.Meanwhile(id, meanwhile);
      ghost var between := world.now;
      for i := 0 to |rebalances|
        invariant Valid() && world.Extends(old(world.run), old(world.states))
        invariant Me().phase.Polling? && OnlyDropped(old(Me()), Me())
        invariant world.now == RebalancedAll(between, id, rebalances[..i])
        invariant hook != null && hook.messages != [] ==> hook.firstAdd == old(hook.firstAdd)
      {
        assert rebalances[..i + 1][..i] == rebalances[..i];
        RebalanceCallback(rebalances[i]);
      }
      assert rebalances[..|rebalances|] == rebalances;
      world.RemembersSince(|old(world.run)|);
      fatal := outcome.Fatal?;
      msg := Offered(world.now, id, outcome);
    }

    // What the loop does between driver calls, told to the group

    /** The loop ends: the context was cancelled, or Poll failed. */
    method Leave(fatal: bool)
      requires Valid() && Me().phase.Polling?
      modifies world
      ensures Valid() && world.Extends(old(world.run), old(world.states))
      ensures Me() == OnExit(old(Me()), if fatal then PollError else Cancelled)
      ensures world.now.history == old(world.now).history
    {
      if fatal {
        world.Step(PollFails(id));
      } else {
        world.Step(Cancel(id));
      }
    }

    /** Single mode hands a polled message straight to its handler. */
    method TakeOne(msg: Message)
      requires Valid() && Me().phase.Polling? && mode.Single? && hook == null
      requires IsNext(world.now.history, Me(), msg)
      modifies world
      ensures Valid() && world.Extends(old(world.run), old(world.states))
      ensures Me().phase == Handling([msg])
      ensures Taken(old(world.now), world.now, id, [msg])
    {
      world.Step(Fetch(id, msg, false));
      assert [] + [msg] == [msg];
    }

    /** In batch mode, Poll's message goes to the buffer, or there was none; the buffer itself is the caller's to update. */
    method TakeIntoBuffer(msg: Option<Message>, due: bool)
      requires Valid() && Me().phase.Polling?
      requires msg.Some? ==> IsNext(world.now.history, Me(), msg.value)
      modifies world
      ensures world.Valid() && world.Extends(old(world.run), old(world.states)) && id in world.now.members
      ensures var all := old(Me()).buffer + Given(msg);
              TakenIntoBuffer(old(world.now), world.now, id, msg, if Due(mode, all, due) then Some(all) else None)
    {
      PolledTaken(Me(), msg, due);
      world.Step(if msg.Some? then Fetch(id, msg.value, due) else Idle(id, due));
    }

    /** The handler has returned or panicked. */
    method Return(verdict: Verdict)
      requires Valid() && CanReturn(Me(), verdict)
      modifies world
      ensures Valid() && world.Extends(old(world.run), old(world.states))
      ensures Me() == OnVerdict(old(Me()), verdict).(journal := Noted(old(Me()), HandlerReturns(id, verdict)))
      ensures world.now.history == HistoryOnVerdict(old(world.now).history, old(Me()), verdict)
      ensures world.now.history.Remembers(old(world.now).history)
    {
      StepRemembers(world.now, HandlerReturns(id, verdict));
      world.Step(HandlerReturns(id, verdict));
    }

    /** The strategy has returned. */
    method Routed(failure: Failure, ok: bool, written: seq<Message>)
      requires Valid() && CanRoute(world.now, Me(), ok, written)
      modifies world
      ensures Valid() && world.Extends(old(world.run), old(world.states))
      ensures Me() == OnRouted(old(Me()), ok).(journal := Noted(old(Me()), StrategyReturns(id, failure, ok, written)))
      ensures world.now.history == HistoryOnRouted(old(world.now).history, old(Me()), ok, written)
      ensures world.now.history.Remembers(old(world.now).history)
    {
      StepRemembers(world.now, StrategyReturns(id, failure, ok, written));
      world.Step(StrategyReturns(id, failure, ok, written));
    }

    /** StoreOffset: +1 happens here, and ErrPartitionRevoked is the answer for an unassigned partition. */
    method StoreOffset(tp: TopicPartition, offset: nat, ok: bool) returns (answer: StoreAnswer)
      requires Valid() && CanStore(Me(), tp) && offset == Me().phase.todo[tp]
      modifies world
      ensures Valid() && world.Extends(old(world.run), old(world.states))
      ensures world.run == old(world.run) + [StoreReturns(id, tp, ok)]
      ensures Me() == AfterStore(old(Me()), tp, ok) && answer == Answer(old(Me()), tp, ok)
      ensures answer.Stored? ==> tp in Me().store && Me().store[tp] == offset + 1
    {
      answer := Answer(Me(), tp, ok);
      world.Step(StoreReturns(id, tp, ok));
    }

    /** MaybeCommitStored: nothing, when the background committer owns the timing. */
    method MaybeCommitStored(published: set<TopicPartition>)
      requires Valid() && Me().phase.Committing?
      modifies world
      ensures Valid() && world.Extends(old(world.run), old(world.states))
      ensures var landed := if autoCommit then {} else published * old(Me()).store.Keys;
              Me() == OnCommitted(old(Me())).(journal := Noted(old(Me()), CommitReturns(id, landed)))
      ensures world.now.history == old(world.now).history
      ensures autoCommit ==> world.now.committed == old(world.now.committed)
      ensures !autoCommit ==>
                world.now.committed == Publish(old(world.now).committed, old(Me()).store, published * old(Me()).store.Keys)
    {
      var landed := if autoCommit then {} else published * Me().store.Keys;
      world.Step(CommitReturns(id, landed));
      assert autoCommit ==> world.now.committed == old(world.now.committed);
    }

    /** The unconditional commit at shutdown. */
    method CommitStored(published: set<TopicPartition>)
      requires Valid() && Me().phase.Stopping?
      modifies world
      ensures Valid() && world.Extends(old(world.run), old(world.states))
      ensures Me() == OnFinalCommit(old(Me()))
      ensures world.now == Apply(old(world.now), FinalCommit(id, published * old(Me()).store.Keys))
      ensures world.now.committed == Publish(old(world.now).committed, old(Me()).store, published * old(Me()).store.Keys)
    {
      world.Step(FinalCommit(id, published * Me().store.Keys));
    }

    /** Close: librdkafka commits the store once more on the way out. */
    method Close(published: set<TopicPartition>)
      requires Valid() && Me().phase.Closing?
      modifies world
      ensures world.Valid() && world.Extends(old(world.run), old(world.states)) && id in world.now.members
      ensures Me() == OnClose(old(Me()))
      ensures world.now.committed == Publish(old(world.now).committed, old(Me()).store, published * old(Me()).store.Keys)
    {
      world.Step(CloseDriver(id, published * Me().store.Keys));
    }
  }

  /** The buffer object and the member's buffer are one. */
  ghost predicate Mirrors(buf: Buffer, m: Member)
    reads buf
  {
    buf.messages == m.buffer && buf.polled == m.fetched && buf.history == m.left
  }

  /** Nothing was polled, and what left the buffer was dropped. */
  ghost predicate OnlyDropped(m: Member, m': Member) {
    && m'.fetched == m.fetched && m'.journal == m.journal && (m'.buffer == m.buffer || m'.buffer == [])
    && m.left <= m'.left && forall i :: |m.left| <= i < |m'.left| ==> m'.left[i].Dropped?
  }

  /** The messages were fetched and dispatched at once: nothing else about the group has changed. */
  ghost predicate Taken(g: Group, g': Group, id: MemberId, batch: seq<Message>)
    requires id in g.members
  {
    && id in g'.members && g'.history == g.history
    && var m, m' := g.members[id], g'.members[id];
       && m'.buffer == [] && m'.store == m.store && m'.fetch.Keys == m.fetch.Keys && m'.journal == m.journal
       && m'.mode == m.mode && m'.autoCommit == m.autoCommit
       && m'.fetched == m.fetched + batch && m'.left == m.left + [Dispatched(batch)]
  }

  function Given(msg: Option<Message>): seq<Message> {
    if msg.Some? then [msg.value] else []
  }

  /** The message is in the buffer, or the batch it completes is dispatched. */
  ghost predicate TakenIntoBuffer(g: Group, g': Group, id: MemberId, msg: Option<Message>, batch: Option<seq<Message>>)
    requires id in g.members
  {
    && id in g'.members && g'.history == g.history
    && BufferedAs(g.members[id], g'.members[id], msg, batch)
  }

  ghost predicate BufferedAs(m: Member, m': Member, msg: Option<Message>, batch: Option<seq<Message>>) {
    && m'.store == m.store && m'.fetch.Keys == m.fetch.Keys && m'.mode == m.mode && m'.autoCommit == m.autoCommit
    && m'.journal == m.journal
    && m'.fetched == m.fetched + Given(msg)
    && if batch.Some?
       then m'.phase == Handling(batch.value) && m'.buffer == [] && m'.left == m.left + [Dispatched(batch.value)]
       else m'.phase.Polling? && m'.buffer == m.buffer + Given(msg) && m'.left == m.left
  }

  /** What a poll does to a member: the buffer grows, and is dispatched when it is due. */
  lemma PolledTaken(m: Member, msg: Option<Message>, due: bool)
    requires m.phase.Polling? && (msg.Some? ==> msg.value.Tp() in m.fetch)
    ensures var m' := if msg.Some? then OnFetch(m, msg.value, due) else Buffered(m, [], due);
            var all := m.buffer + Given(msg);
            BufferedAs(m, m', msg, if Due(m.mode, all, due) then Some(all) else None)
  {
    if msg.Some? {
      assert m.fetch[msg.value.Tp() := msg.value.offset + 1].Keys == m.fetch.Keys;
    }
  }
}
