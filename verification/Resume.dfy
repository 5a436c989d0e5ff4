/**
 Where a subscriber that stopped will resume: exactly after the last message it resolved,
 and when that is not so.
 */
module Resume {
  import opened Types
  import opened Buffering
  import opened ConsumerGroup
  import opened GroupSafety
  import opened AtLeastOnce
  import Wire

  /** The position splits the partition between what this member resolved and what it did not. */
  ghost predicate ResumesExactly(h: History, m: Member, tp: TopicPartition)
    requires tp in m.fetch && m.base.Keys == m.fetch.Keys
  {
    forall e :: e in h.log && e.Tp() == tp && m.base[tp] <= e.offset ==>
      (e.offset < m.Position(tp) <==> e in m.accounted)
  }

  /** Whether the way the loop ended left a resolved message of this partition without its offset stored. */
  predicate StoppedCleanly(why: Exit, tp: TopicPartition) {
    match why
    case Cancelled => true
    case PollError => true
    case StrategyStopped(batch, unresolved) => forall e :: e in batch && e.Tp() == tp ==> e in unresolved
    case StoreStopped(failed) => tp !in failed
  }

  predicate LeftTheLoop(m: Member) {
    m.phase.Stopping? || m.phase.Closing?
  }

  lemma ExitBoundary(h: History, m: Member, tp: TopicPartition)
    requires MemberInv(h, m) && LeftTheLoop(m) && tp in m.fetch
    ensures ResumesExactly(h, m, tp) <==> StoppedCleanly(m.phase.why, tp)
  {
    var why := m.phase.why;
    if !StoppedCleanly(why, tp) && why.StrategyStopped? {
      var e :| e in why.batch && e.Tp() == tp && e !in why.unresolved;
      assert e in m.accounted && e in h.log;
    } else if !StoppedCleanly(why, tp) {
      var e :| e in m.accounted && e.Tp() == tp && m.Position(tp) <= e.offset;
      assert e in h.log;
    }
  }

  /**
   In every run and both modes: a subscriber that left its loop resumes a partition it still
   holds exactly where it stopped resolving, if and only if it stopped cleanly on that partition.
   What it had polled but not dispatched lies at or past that position.
   */
  lemma ResumeBoundary(policy: Policy, run: seq<Label>, id: MemberId, tp: TopicPartition)
    requires IsRun(Init(policy), run)
    requires var g := After(Init(policy), run);
             id in g.members && LeftTheLoop(g.members[id]) && tp in g.members[id].fetch
    ensures var g := After(Init(policy), run);
            var m := g.members[id];
            && m.base.Keys == m.fetch.Keys
            && (ResumesExactly(g.history, m, tp) <==> StoppedCleanly(m.phase.why, tp))
            && (forall e :: e in m.buffer && e.Tp() == tp ==> m.Position(tp) <= e.offset)
  {
    InitInOrder(policy);
    RunKeeps(Init(policy), run);
    var g := After(Init(policy), run);
    ExitBoundary(g.history, g.members[id], tp);
    assert forall e :: e in g.members[id].buffer ==> g.members[id].Pending(e);
  }

  /** In single mode only a failed store can spoil the boundary. */
  lemma SingleResumesExactly(policy: Policy, run: seq<Label>, id: MemberId, tp: TopicPartition)
    requires IsRun(Init(policy), run)
    requires var g := After(Init(policy), run);
             && id in g.members && LeftTheLoop(g.members[id]) && tp in g.members[id].fetch
             && g.members[id].mode.Single? && !g.members[id].phase.why.StoreStopped?
    ensures var g := After(Init(policy), run);
            var m := g.members[id];
            m.base.Keys == m.fetch.Keys && ResumesExactly(g.history, m, tp)
  {
    ResumeBoundary(policy, run, id, tp);
    InitInOrder(policy);
    RunKeeps(Init(policy), run);
    assert SingleHanded(After(Init(policy), run).members[id]);
  }

  /** Where a final commit that lands for everything leaves a partition. */
  lemma FinalCommitLands(g: Group, id: MemberId, tp: TopicPartition)
    requires id in g.members && g.members[id].phase.Stopping? && tp in g.members[id].fetch
    requires g.members[id].base.Keys == g.members[id].fetch.Keys
    requires tp !in g.members[id].store ==> g.Committed(tp) == g.members[id].base[tp]
    ensures var final := FinalCommit(id, g.members[id].store.Keys);
            && Enabled(g, final)
            && Apply(g, final).history == g.history
            && Apply(g, final).Committed(tp) == g.members[id].Position(tp)
  {
  }

  /**
   After a final commit that landed, the next assignment reads precisely what was not resolved.  A
   partition with nothing stored keeps the commit it started from, as long as nobody else moved it.
   */
  lemma NextOwnerReads(policy: Policy, run: seq<Label>, id: MemberId, tp: TopicPartition)
    requires IsRun(Init(policy), run)
    requires var g := After(Init(policy), run);
             && id in g.members && g.members[id].phase.Stopping? && tp in g.members[id].fetch
             && StoppedCleanly(g.members[id].phase.why, tp)
             && (tp !in g.members[id].store ==> tp in g.members[id].base && g.Committed(tp) == g.members[id].base[tp])
    ensures var g := After(Init(policy), run);
            var m := g.members[id];
            var final := FinalCommit(id, m.store.Keys);
            && m.base.Keys == m.fetch.Keys
            && Enabled(g, final)
            && (var g' := Apply(g, final);
                forall e :: e in g'.history.log && e.Tp() == tp && m.base[tp] <= e.offset ==>
                  (g'.Committed(tp) <= e.offset <==> e !in m.accounted))
  {
    ResumeBoundary(policy, run, id, tp);
    FinalCommitLands(After(Init(policy), run), id, tp);
  }

  /** The record of a partition with the least offset at or past a position. */
  lemma {:induction false} FirstAtOrPast(log: seq<Message>, tp: TopicPartition, position: nat, e: Message) returns (first: Message)
    requires e in log && e.Tp() == tp && position <= e.offset
    ensures first in log && first.Tp() == tp && position <= first.offset
    ensures forall x :: x in log && x.Tp() == tp && position <= x.offset ==> first.offset <= x.offset
    decreases e.offset
  {
    if x :| x in log && x.Tp() == tp && position <= x.offset < e.offset {
      first := FirstAtOrPast(log, tp, position, x);
    } else {
      first := e;
    }
  }

  /** A polling member that has not read to the end of a partition can always read on, and misses nothing in between. */
  lemma CanReadOn(h: History, m: Member, e: Message)
    requires e in h.log && e.Tp() in m.fetch && m.fetch[e.Tp()] <= e.offset
    ensures exists msg :: IsNext(h, m, msg) && msg.Tp() == e.Tp() && msg.offset <= e.offset
  {
    var first := FirstAtOrPast(h.log, e.Tp(), m.fetch[e.Tp()], e);
    assert IsNext(h, m, first);
  }

  // --- A concrete run in batch mode that repeats a message

  const TP := TopicPartition("t", 0)

  function At(offset: nat): Message {
    Message("t", 0, offset, None, map[], None)
  }

  ghost predicate Reaches(g: Group, run: seq<Label>, g': Group) {
    IsRun(g, run) && After(g, run) == g'
  }

  lemma OneMore(g: Group, run: seq<Label>, mid: Group, l: Label, g': Group)
    requires Reaches(g, run, mid) && Enabled(mid, l) && Apply(mid, l) == g'
    ensures Reaches(g, run + [l], g')
  {
    assert (run + [l])[..|run|] == run;
  }

  function OneMember(fetch: nat, buffer: seq<Message>, accounted: set<Message>, phase: Phase): Member {
    Member(Batch(2), false, true, map[TP := 0], map[TP := fetch], map[], buffer, accounted,
           if fetch == 0 then [] else if fetch == 1 then [At(0)] else [At(0), At(1)],
           if fetch == 2 then [Dispatched([At(0), At(1)])] else [], Journal([], [], []), phase)
  }

  function Stage(policy: Policy, handled: set<Message>, m: Member): Group {
    Group(policy, History([At(0), At(1)], map[TP := 2], handled, {}), map[], map[0 := m])
  }

  /** Two records are written, one batch subscriber starts, and it is assigned their partition. */
  function Opening(): seq<Label> {
    [Append(At(0))] + [Append(At(1))] + [Start(0, Batch(2), false)] + [Assign(0, {TP})]
  }

  lemma Written(policy: Policy)
    ensures Reaches(Init(policy), [Append(At(0))] + [Append(At(1))],
                    Init(policy).(history := History([At(0), At(1)], map[TP := 2], {}, {})))
  {
    var g0 := Init(policy);
    var g1 := g0.(history := History([At(0)], map[TP := 1], {}, {}));
    var g2 := g0.(history := History([At(0), At(1)], map[TP := 2], {}, {}));
    assert [At(0)][..0] == [] && [At(1)][..0] == [];
    assert Reaches(g0, [], g0);
    assert WriteAll(g0.history, [At(0)]) == g1.history && WriteAll(g1.history, [At(1)]) == g2.history;
    assert CanWrite(g0.history, [At(0)]) && CanWrite(g1.history, [At(1)]) by {
      assert CanWrite(g0.history, []) && CanWrite(g1.history, []);
      assert WriteAll(g0.history, []) == g0.history && WriteAll(g1.history, []) == g1.history;
      assert Wire.ProperKeys(At(0).headers) && Wire.ProperKeys(At(1).headers);
    }
    OneMore(g0, [], g0, Append(At(0)), g1);
    assert [] + [Append(At(0))] == [Append(At(0))];
    OneMore(g0, [Append(At(0))], g1, Append(At(1)), g2);
  }

  lemma Opens(policy: Policy)
    ensures Reaches(Init(policy), Opening(), Stage(policy, {}, OneMember(0, [], {}, Polling)))
  {
    var g2 := Init(policy).(history := History([At(0), At(1)], map[TP := 2], {}, {}));
    var g3 := g2.(members := map[0 := Newcomer(Batch(2), false)]);
    var run := [Append(At(0))] + [Append(At(1))];
    Written(policy);
    OneMore(Init(policy), run, g2, Start(0, Batch(2), false), g3);
    assert OnAssign(g3, g3.members[0], {TP}) == OneMember(0, [], {}, Polling) by {
      assert (map tp | tp in {TP} :: g3.Committed(tp)) == map[TP := 0];
    }
    OneMore(Init(policy), run + [Start(0, Batch(2), false)], g3, Assign(0, {TP}),
            Stage(policy, {}, OneMember(0, [], {}, Polling)));
  }

  /** It polls both; the handler fails the second, and the strategy refuses that one. */
  function HalfDone(): seq<Label> {
    Opening() + [Fetch(0, At(0), false)] + [Fetch(0, At(1), false)]
    + [HandlerReturns(0, Items([false, true]))] + [StrategyReturns(0, Failure(None, 0, ""), false, [])]
  }

  lemma FirstFetch(policy: Policy)
    ensures Reaches(Init(policy), Opening() + [Fetch(0, At(0), false)], Stage(policy, {}, OneMember(1, [At(0)], {}, Polling)))
  {
    var g4 := Stage(policy, {}, OneMember(0, [], {}, Polling));
    Opens(policy);
    assert IsNext(g4.history, g4.members[0], At(0));
    assert OnFetch(g4.members[0], At(0), false) == OneMember(1, [At(0)], {}, Polling);
    OneMore(Init(policy), Opening(), g4, Fetch(0, At(0), false), Stage(policy, {}, OneMember(1, [At(0)], {}, Polling)));
  }

  lemma SecondFetchFills()
    ensures OnFetch(OneMember(1, [At(0)], {}, Polling), At(1), false) == OneMember(2, [], {}, Handling([At(0), At(1)]))
  {
    assert [At(0)] + [At(1)] == [At(0), At(1)];
    assert [] + [Dispatched([At(0), At(1)])] == [Dispatched([At(0), At(1)])];
  }

  /** A step of the one member, from one stage to the next. */
  lemma StageStep(policy: Policy, handled: set<Message>, m: Member, l: Label, handled': set<Message>, m': Member)
    requires !l.Append? && !l.Start? && !l.Crash? && l.id == 0
    requires var g := Stage(policy, handled, m);
             && EnabledAt(g, m, l) && Moved(g, m, l) == m' && Published(g, m, l) == map[]
             && Recorded(g, m, l) == g.history.(handled := handled')
    ensures Enabled(Stage(policy, handled, m), l) && Apply(Stage(policy, handled, m), l) == Stage(policy, handled', m')
  {
  }

  lemma SecondIsNext(policy: Policy)
    ensures var g := Stage(policy, {}, OneMember(1, [At(0)], {}, Polling));
            && Enabled(g, Fetch(0, At(1), false))
            && Apply(g, Fetch(0, At(1), false)) == Stage(policy, {}, OneMember(2, [], {}, Handling([At(0), At(1)])))
  {
    var m, m' := OneMember(1, [At(0)], {}, Polling), OneMember(2, [], {}, Handling([At(0), At(1)]));
    SecondFetchFills();
    IsSecond(policy);
    StageStep(policy, {}, m, Fetch(0, At(1), false), {}, m');
  }

  lemma IsSecond(policy: Policy)
    ensures IsNext(Stage(policy, {}, OneMember(1, [At(0)], {}, Polling)).history, OneMember(1, [At(0)], {}, Polling), At(1))
  {
    assert [At(0), At(1)][1] == At(1);
  }

  lemma Polls(policy: Policy)
    ensures Reaches(Init(policy), Opening() + [Fetch(0, At(0), false)] + [Fetch(0, At(1), false)],
                    Stage(policy, {}, OneMember(2, [], {}, Handling([At(0), At(1)]))))
  {
    var g5 := Stage(policy, {}, OneMember(1, [At(0)], {}, Polling));
    FirstFetch(policy);
    SecondIsNext(policy);
    OneMore(Init(policy), Opening() + [Fetch(0, At(0), false)], g5, Fetch(0, At(1), false),
            Stage(policy, {}, OneMember(2, [], {}, Handling([At(0), At(1)]))));
  }

  function Aborted(): Member {
    OneMember(2, [], {At(0)}, Stopping(StrategyStopped([At(0), At(1)], [At(1)])))
      .(journal := Journal([Items([false, true])], [Call([At(1)], Failure(None, 0, ""), false)], []))
  }

  function HalfFailed(): Member {
    OneMember(2, [], {At(0)}, Routing([At(0), At(1)], false, [At(1)]))
      .(journal := Journal([Items([false, true])], [], []))
  }

  lemma SecondFails()
    ensures FailedItems([At(0), At(1)], [false, true]) == [At(1)]
    ensures Succeeded([At(0), At(1)], [At(1)]) == {At(0)}
  {
    var batch, flags := [At(0), At(1)], [false, true];
    assert batch[..1] == [At(0)] && flags[..1] == [false] && [At(0)][..0] == [] && [false][..0] == [];
    assert FailedItems([At(0)], [false]) == [];
    assert batch[0] == At(0) && At(0) in batch;
  }

  /** The handler's answer, worked out. */
  lemma HalfFails()
    ensures var m := OneMember(2, [], {}, Handling([At(0), At(1)]));
            var l := HandlerReturns(0, Items([false, true]));
            && CanReturn(m, Items([false, true]))
            && OnVerdict(m, Items([false, true])).(journal := Noted(m, l)) == HalfFailed()
            && (forall h: History :: HistoryOnVerdict(h, m, Items([false, true])) == h.(handled := h.handled + {At(0)}))
  {
    SecondFails();
  }

  lemma HandlerFailsSecond(policy: Policy)
    ensures Reaches(Init(policy),
                    Opening() + [Fetch(0, At(0), false)] + [Fetch(0, At(1), false)] + [HandlerReturns(0, Items([false, true]))],
                    Stage(policy, {At(0)}, HalfFailed()))
  {
    var run := Opening() + [Fetch(0, At(0), false)] + [Fetch(0, At(1), false)];
    var m := OneMember(2, [], {}, Handling([At(0), At(1)]));
    Polls(policy);
    HalfFails();
    StageStep(policy, {}, m, HandlerReturns(0, Items([false, true])), {At(0)}, HalfFailed());
    OneMore(Init(policy), run, Stage(policy, {}, m), HandlerReturns(0, Items([false, true])), Stage(policy, {At(0)}, HalfFailed()));
  }

  lemma StrategyRefusesSecond()
    ensures NextCall(false, [At(1)]) == [At(1)]
    ensures Noted(HalfFailed(), StrategyReturns(0, Failure(None, 0, ""), false, [])) == Aborted().journal
  {
    assert [At(1)][..1] == [At(1)];
  }

  lemma Aborts(policy: Policy)
    ensures Reaches(Init(policy), HalfDone(), Stage(policy, {At(0)}, Aborted()))
  {
    HandlerFailsSecond(policy);
    StrategyRefusesSecond();
    OneMore(Init(policy),
            Opening() + [Fetch(0, At(0), false)] + [Fetch(0, At(1), false)] + [HandlerReturns(0, Items([false, true]))],
            Stage(policy, {At(0)}, HalfFailed()), StrategyReturns(0, Failure(None, 0, ""), false, []), Stage(policy, {At(0)}, Aborted()));
  }

  /** So the first record was handled, and yet will be read again: its offset was never stored. */
  lemma BatchStopMayRepeat(policy: Policy)
    ensures IsRun(Init(policy), HalfDone())
    ensures var g := After(Init(policy), HalfDone());
            && 0 in g.members && g.members[0].phase.Stopping? && TP in g.members[0].fetch
            && At(0) in g.history.handled && g.Committed(TP) == 0
            && g.members[0].base.Keys == g.members[0].fetch.Keys
            && !ResumesExactly(g.history, g.members[0], TP)
  {
    Aborts(policy);
    var g := Stage(policy, {At(0)}, Aborted());
    assert g.history.log[0] == At(0);
    assert At(0) in g.history.log && g.members[0].Position(TP) == 0;
  }
}
