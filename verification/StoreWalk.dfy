/**
 The second loop of storeHighestOffsetPerPartition as steps of the group
 (subscribe/subscriber.go): whatever order the map iteration takes, the group ends in one state.
 */
module StoreWalk {
  import opened Types
  import opened OffsetStore
  import opened ConsumerGroup

  /** The StoreOffset calls of a walk over the partitions; those of `fails` go wrong. */
  function Calls(id: MemberId, order: seq<TopicPartition>, fails: set<TopicPartition>): seq<Label> {
    seq(|order|, i requires 0 <= i < |order| => StoreReturns(id, order[i], order[i] !in fails))
  }

  predicate NoRepeats(order: seq<TopicPartition>) {
    forall i, j :: 0 <= i < j < |order| ==> order[i] != order[j]
  }

  /** The member once it has called StoreOffset for the first `n` partitions of the walk. */
  function Walked(m: Member, order: seq<TopicPartition>, n: nat, fails: set<TopicPartition>): Member
    requires m.phase.Storing? && n <= |order| && Members(order) == m.phase.todo.Keys
  {
    var r := Round(m.phase.todo, m.fetch.Keys, fails);
    assert forall tp :: tp in order[..n] ==> tp in Members(order);
    var s := StoreInOrder(m.store, order[..n], r);
    var todo := m.phase.todo - Members(order[..n]);
    m.(store := s.store, phase := if n == 0 then m.phase
                                  else if todo == map[] then Committing(s.failed)
                                  else Storing(m.phase.batch, todo, s.failed))
  }

  lemma PrefixGrows(order: seq<TopicPartition>, n: nat)
    requires n < |order|
    ensures order[..n + 1][..n] == order[..n] && order[..n + 1][n] == order[n]
    ensures Members(order[..n + 1]) == Members(order[..n]) + {order[n]}
  {
    assert order[..n + 1] == order[..n] + [order[n]];
  }

  /** The next partition of the walk is still to do. */
  lemma StillToDo(m: Member, order: seq<TopicPartition>, n: nat, fails: set<TopicPartition>)
    requires m.phase.Storing? && m.phase.failed == {} && NoRepeats(order) && Members(order) == m.phase.todo.Keys
    requires n < |order|
    ensures var now := Walked(m, order, n, fails);
            && now.phase.Storing? && order[n] in now.phase.todo && now.phase.todo[order[n]] == m.phase.todo[order[n]]
            && now.phase.batch == m.phase.batch
            && now.phase.todo == m.phase.todo - Members(order[..n])
            && now.phase.failed == StoreInOrder(m.store, order[..n], Round(m.phase.todo, m.fetch.Keys, fails)).failed
  {
    assert order[n] in Members(order);
    assert order[n] !in Members(order[..n]);
    assert order[n] in m.phase.todo - Members(order[..n]);
    if n == 0 {
      assert m.phase.todo - Members(order[..0]) == m.phase.todo;
    }
  }

  lemma NextStore(m: Member, order: seq<TopicPartition>, n: nat, fails: set<TopicPartition>)
    requires m.phase.Storing? && Members(order) == m.phase.todo.Keys && n < |order|
    ensures (forall tp :: tp in order[..n] ==> tp in m.phase.todo) && (forall tp :: tp in order[..n + 1] ==> tp in m.phase.todo)
    ensures var r := Round(m.phase.todo, m.fetch.Keys, fails);
            && order[n] in m.phase.todo
            && StoreInOrder(m.store, order[..n + 1], r) == StoreNext(StoreInOrder(m.store, order[..n], r), order[n], r)
  {
    assert forall tp :: tp in order ==> tp in Members(order);
    PrefixGrows(order, n);
  }

  lemma WalkOn(m: Member, order: seq<TopicPartition>, n: nat, fails: set<TopicPartition>)
    requires m.mode.Batch? && m.phase.Storing? && m.phase.failed == {} && NoRepeats(order)
    requires Members(order) == m.phase.todo.Keys && n < |order|
    ensures var now := Walked(m, order, n, fails);
            && CanStore(now, order[n])
            && AfterStore(now, order[n], order[n] !in fails) == Walked(m, order, n + 1, fails)
  {
    StillToDo(m, order, n, fails);
    PrefixGrows(order, n);
    NextStore(m, order, n, fails);
    var s := StoreInOrder(m.store, order[..n], Round(m.phase.todo, m.fetch.Keys, fails));
    assert m.phase.todo - Members(order[..n]) - {order[n]} == m.phase.todo - Members(order[..n + 1]);
    assert s.failed + {} == s.failed;
  }

  function Put(g: Group, id: MemberId, m: Member): Group {
    g.(members := g.members[id := m])
  }

  lemma StorePut(g: Group, id: MemberId, m: Member, tp: TopicPartition, ok: bool)
    requires CanStore(m, tp)
    ensures Enabled(Put(g, id, m), StoreReturns(id, tp, ok))
    ensures Apply(Put(g, id, m), StoreReturns(id, tp, ok)) == Put(g, id, AfterStore(m, tp, ok))
  {
    assert Put(g, id, m).members[id := AfterStore(m, tp, ok)] == g.members[id := AfterStore(m, tp, ok)];
  }

  lemma {:induction false} CallsWalk(g: Group, id: MemberId, order: seq<TopicPartition>, n: nat, fails: set<TopicPartition>)
    requires id in g.members && g.members[id].mode.Batch? && g.members[id].phase.Storing?
    requires g.members[id].phase.failed == {} && NoRepeats(order) && Members(order) == g.members[id].phase.todo.Keys
    requires n <= |order|
    ensures IsRun(g, Calls(id, order, fails)[..n])
    ensures After(g, Calls(id, order, fails)[..n]) == Put(g, id, Walked(g.members[id], order, n, fails))
  {
    var m, run := g.members[id], Calls(id, order, fails);
    if n == 0 {
      assert run[..0] == [] && order[..0] == [];
      assert Put(g, id, m) == g;
    } else {
      CallsWalk(g, id, order, n - 1, fails);
      WalkOn(m, order, n - 1, fails);
      StorePut(g, id, Walked(m, order, n - 1, fails), order[n - 1], order[n - 1] !in fails);
      assert run[..n][..n - 1] == run[..n - 1] && run[..n][n - 1] == run[n - 1];
    }
  }

  /** Where a walk ends, without mention of its order. */
  function Outcome(m: Member, fails: set<TopicPartition>): Member
    requires m.phase.Storing?
  {
    var s := StoreWhatHolds(m.store, m.phase.todo.Keys, Round(m.phase.todo, m.fetch.Keys, fails));
    m.(store := s.store, phase := Committing(s.failed))
  }

  /**
   A walk over the partitions of a batch, in any order, is a run of the group.  It stores the maximum
   plus one for exactly the partitions that are held and whose store succeeds, leaves every other
   position alone, and stops the loop for exactly the held ones whose store fails.
   */
  lemma AnyWalk(g: Group, id: MemberId, order: seq<TopicPartition>, fails: set<TopicPartition>)
    requires id in g.members && g.members[id].mode.Batch? && g.members[id].phase.Storing?
    requires g.members[id].phase.failed == {} && order != [] && NoRepeats(order)
    requires Members(order) == g.members[id].phase.todo.Keys
    ensures IsRun(g, Calls(id, order, fails))
    ensures After(g, Calls(id, order, fails)) == Put(g, id, Outcome(g.members[id], fails))
  {
    var m, n := g.members[id], |order|;
    CallsWalk(g, id, order, n, fails);
    assert Calls(id, order, fails)[..n] == Calls(id, order, fails);
    assert order[..n] == order && m.phase.todo - Members(order) == map[];
    OrderDoesNotMatter(m.store, order, Round(m.phase.todo, m.fetch.Keys, fails));
  }

  /** What the outcome of a walk is, partition by partition. */
  lemma OutcomeMeans(m: Member, fails: set<TopicPartition>, tp: TopicPartition)
    requires m.phase.Storing?
    ensures var m', todo := Outcome(m, fails), m.phase.todo;
            && m'.phase.Committing?
            && (tp in m'.phase.failed <==> tp in todo && tp in m.fetch && tp in fails)
            && (if tp in todo && tp in m.fetch && tp !in fails then tp in m'.store && m'.store[tp] == todo[tp] + 1
                else (tp in m'.store <==> tp in m.store) && (tp in m.store ==> m'.store[tp] == m.store[tp]))
  {
  }

  /** Map iteration order does not show: two walks over a batch leave the same group. */
  lemma AnyTwoWalksAgree(g: Group, id: MemberId, one: seq<TopicPartition>, other: seq<TopicPartition>, fails: set<TopicPartition>)
    requires id in g.members && g.members[id].mode.Batch? && g.members[id].phase.Storing?
    requires g.members[id].phase.failed == {} && g.members[id].phase.todo != map[]
    requires NoRepeats(one) && NoRepeats(other) && Members(one) == Members(other) == g.members[id].phase.todo.Keys
    ensures IsRun(g, Calls(id, one, fails)) && IsRun(g, Calls(id, other, fails))
    ensures After(g, Calls(id, one, fails)) == After(g, Calls(id, other, fails))
  {
    assert Members([]) == {};
    AnyWalk(g, id, one, fails);
    AnyWalk(g, id, other, fails);
  }

  /** For a batch in poll order, on partitions still held, a walk leaves what storing every message in turn would. */
  lemma WalkRefinesSequential(m: Member, fails: set<TopicPartition>)
    requires m.phase.Storing? && AscendingPerPartition(m.phase.batch) && m.phase.todo == Highest(m.phase.batch)
    requires m.phase.todo.Keys <= m.fetch.Keys && fails !! m.phase.todo.Keys
    ensures Outcome(m, fails) == m.(store := StoreEach(m.store, m.phase.batch), phase := Committing({}))
  {
    BatchRefinesSequential(m.store, m.phase.batch);
    var highest := m.phase.todo;
    var s := StoreWhatHolds(m.store, highest.Keys, Round(highest, m.fetch.Keys, fails));
    assert s.store == StoreHighest(m.store, highest);
    assert s.failed == {};
  }
}
