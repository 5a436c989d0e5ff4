/**
 The offset store of one consumer, and the two ways a subscriber fills it: after every
 message in single mode, and with the highest offset per partition in batch mode
 (storeHighestOffsetPerPartition, subscribe/subscriber.go).
 */
module OffsetStore {
  import opened Types

  /** Resume position per partition: the offset of the next message to read. */
  type Positions = map<TopicPartition, nat>

  /** The highest offset of each partition in a batch. */
  function Highest(batch: seq<Message>): map<TopicPartition, nat> {
    if batch == [] then map[]
    else
      var last := batch[|batch| - 1];
      var highest := Highest(batch[..|batch| - 1]);
      if last.Tp() in highest && last.offset <= highest[last.Tp()] then highest
      else highest[last.Tp() := last.offset]
  }

  /** An upper bound on every partition of the batch, and attained on each. */
  ghost predicate IsMaximum(highest: map<TopicPartition, nat>, batch: seq<Message>) {
    && (forall e :: e in batch ==> e.Tp() in highest && e.offset <= highest[e.Tp()])
    && (forall tp :: tp in highest ==> exists e :: e in batch && e.Tp() == tp && e.offset == highest[tp])
  }

  lemma {:induction false} HighestIsMaximum(batch: seq<Message>)
    ensures IsMaximum(Highest(batch), batch)
  {
    if batch != [] {
      var front, last := batch[..|batch| - 1], batch[|batch| - 1];
      HighestIsMaximum(front);
      assert forall e :: e in batch <==> e in front || e == last;
    }
  }

  /** Within one partition, offsets ascend in poll order. */
  ghost predicate AscendingPerPartition(msgs: seq<Message>) {
    forall i, j :: 0 <= i < j < |msgs| && msgs[i].Tp() == msgs[j].Tp() ==> msgs[i].offset < msgs[j].offset
  }

  // --- Storing message by message, and storing the maxima

  /** What single mode stores for one message; StoreOffset adds the one. */
  function StoreOne(store: Positions, msg: Message): Positions {
    store[msg.Tp() := msg.offset + 1]
  }

  /** Single mode over a whole sequence, in poll order. */
  function StoreEach(store: Positions, msgs: seq<Message>): Positions {
    if msgs == [] then store
    else StoreOne(StoreEach(store, msgs[..|msgs| - 1]), msgs[|msgs| - 1])
  }

  /** Batch mode: one position per partition. */
  function StoreHighest(store: Positions, highest: map<TopicPartition, nat>): Positions {
    store + map tp | tp in highest :: highest[tp] + 1
  }

  lemma NothingReachesTheLast(msgs: seq<Message>, highest: map<TopicPartition, nat>)
    requires AscendingPerPartition(msgs) && msgs != [] && IsMaximum(highest, msgs[..|msgs| - 1])
    ensures var last := msgs[|msgs| - 1]; last.Tp() in highest ==> highest[last.Tp()] < last.offset
  {
    var front, last := msgs[..|msgs| - 1], msgs[|msgs| - 1];
    if last.Tp() in highest {
      var e :| e in front && e.Tp() == last.Tp() && e.offset == highest[last.Tp()];
      var i :| 0 <= i < |front| && front[i] == e;
      assert msgs[i].offset < msgs[|msgs| - 1].offset;
    }
  }

  lemma LastIsHighest(msgs: seq<Message>)
    requires AscendingPerPartition(msgs) && msgs != []
    ensures var last := msgs[|msgs| - 1];
            Highest(msgs) == Highest(msgs[..|msgs| - 1])[last.Tp() := last.offset]
  {
    var front, last := msgs[..|msgs| - 1], msgs[|msgs| - 1];
    HighestIsMaximum(front);
    NothingReachesTheLast(msgs, Highest(front));
  }

  lemma StoreHighestOneMore(store: Positions, highest: map<TopicPartition, nat>, msg: Message)
    ensures StoreHighest(store, highest[msg.Tp() := msg.offset]) == StoreOne(StoreHighest(store, highest), msg)
  {
    var left := StoreHighest(store, highest[msg.Tp() := msg.offset]);
    var right := StoreOne(StoreHighest(store, highest), msg);
    assert left.Keys == right.Keys;
    assert forall tp :: tp in left ==> left[tp] == right[tp];
  }

  /** Batch mode leaves the very store that single mode leaves, over any batch in poll order. */
  lemma {:induction false} BatchRefinesSequential(store: Positions, msgs: seq<Message>)
    requires AscendingPerPartition(msgs)
    ensures StoreHighest(store, Highest(msgs)) == StoreEach(store, msgs)
  {
    if msgs != [] {
      var front, last := msgs[..|msgs| - 1], msgs[|msgs| - 1];
      BatchRefinesSequential(store, front);
      LastIsHighest(msgs);
      StoreHighestOneMore(store, Highest(front), last);
    }
  }

  /** Out of poll order the two differ: the maximum hides a later, lower message. */
  lemma PollOrderMatters(tp: TopicPartition)
    ensures var at := (offset: nat) => Message(tp.topic, tp.partition, offset, None, map[], None);
            StoreHighest(map[], Highest([at(1), at(0)])) != StoreEach(map[], [at(1), at(0)])
  {
    var one := Message(tp.topic, tp.partition, 1, None, map[], None);
    var zero := Message(tp.topic, tp.partition, 0, None, map[], None);
    assert [one, zero][..1] == [one] && [one][..0] == [];
    assert Highest([one]) == map[tp := 1] && Highest([one, zero]) == map[tp := 1];
    assert StoreEach(map[], [one]) == map[tp := 2];
    assert StoreHighest(map[], Highest([one, zero]))[tp] == 2;
    assert StoreEach(map[], [one, zero])[tp] == 1;
  }

  // --- The order of the stores

  /** What a batch wants to store, which partitions are still assigned, and for which the store fails. */
  datatype Round = Round(highest: map<TopicPartition, nat>, held: set<TopicPartition>, failing: set<TopicPartition>)

  datatype Stores = Stores(store: Positions, failed: set<TopicPartition>)

  /** One StoreOffset: passed over on an unassigned partition, and remembered when it really fails. */
  function StoreNext(s: Stores, tp: TopicPartition, r: Round): Stores
    requires tp in r.highest
  {
    if tp !in r.held then s
    else if tp in r.failing then s.(failed := s.failed + {tp})
    else s.(store := s.store[tp := r.highest[tp] + 1])
  }

  /** The stores of a batch in the order a map iteration happens to give. */
  function StoreInOrder(store: Positions, order: seq<TopicPartition>, r: Round): Stores
    requires forall tp :: tp in order ==> tp in r.highest
  {
    if order == [] then Stores(store, {})
    else StoreNext(StoreInOrder(store, order[..|order| - 1], r), order[|order| - 1], r)
  }

  /** What is stored and what fails, without mention of any order. */
  function StoreWhatHolds(store: Positions, tps: set<TopicPartition>, r: Round): Stores {
    Stores(store + map tp | tp in tps && tp in r.highest && tp in r.held && tp !in r.failing :: r.highest[tp] + 1,
           tps * r.held * r.failing)
  }

  lemma StoreOneMore(store: Positions, tps: set<TopicPartition>, tp: TopicPartition, r: Round)
    requires tp in r.highest
    ensures StoreNext(StoreWhatHolds(store, tps, r), tp, r) == StoreWhatHolds(store, tps + {tp}, r)
  {
    var next := StoreNext(StoreWhatHolds(store, tps, r), tp, r);
    var goal := StoreWhatHolds(store, tps + {tp}, r);
    assert next.store == goal.store;
    assert next.failed == goal.failed;
  }

  function Members(order: seq<TopicPartition>): set<TopicPartition> {
    set tp | tp in order
  }

  /** With partial failures, neither the store nor the decision to stop depends on the order. */
  lemma {:induction false} OrderDoesNotMatter(store: Positions, order: seq<TopicPartition>, r: Round)
    requires forall tp :: tp in order ==> tp in r.highest
    ensures StoreInOrder(store, order, r) == StoreWhatHolds(store, Members(order), r)
  {
    if order == [] {
      assert Members(order) == {};
      assert StoreWhatHolds(store, {}, r).store == store;
    } else {
      var front, last := order[..|order| - 1], order[|order| - 1];
      OrderDoesNotMatter(store, front, r);
      StoreOneMore(store, Members(front), last, r);
      assert Members(order) == Members(front) + {last};
    }
  }

  /** Two walks over the same partitions agree. */
  lemma AnyTwoOrdersAgree(store: Positions, one: seq<TopicPartition>, other: seq<TopicPartition>, r: Round)
    requires Members(one) == Members(other) == r.highest.Keys
    ensures (forall tp :: tp in one ==> tp in r.highest) && (forall tp :: tp in other ==> tp in r.highest)
    ensures StoreInOrder(store, one, r) == StoreInOrder(store, other, r)
  {
    assert forall tp :: tp in one ==> tp in Members(one);
    assert forall tp :: tp in other ==> tp in Members(other);
    OrderDoesNotMatter(store, one, r);
    OrderDoesNotMatter(store, other, r);
  }
}
