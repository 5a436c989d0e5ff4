/**
 Who commits what, and when: every step of the group that commits, the rebalance, and what the next
 owner of a partition reads first (internal/subscribe/subscribedriver/consumer.go).
 */
module Handover {
  import opened Types
  import opened ConsumerGroup
  import opened GroupSafety
  import opened AtLeastOnce

  /** The steps that carry a commit: revoke, MaybeCommitStored, the background committer, the final commit, Close. */
  predicate CarriesCommit(l: Label) {
    l.Revoke? || l.CommitReturns? || l.Tick? || l.FinalCommit? || l.CloseDriver?
  }

  /** These commit exactly the stored positions the commit lands for; no other step commits anything. */
  lemma WhatIsCommitted(g: Group, l: Label, tp: TopicPartition)
    requires Enabled(g, l)
    ensures Apply(g, l).Committed(tp) ==
            if CarriesCommit(l) && tp in l.published && tp in g.members[l.id].store then g.members[l.id].store[tp]
            else g.Committed(tp)
  {
    if CarriesCommit(l) {
      assert Apply(g, l).committed == Publish(g.committed, g.members[l.id].store, l.published);
    }
  }

  /** A revoke leaves the member without partitions, store and buffer. */
  lemma RevokeLeavesNothing(g: Group, id: MemberId, published: set<TopicPartition>)
    requires Enabled(g, Revoke(id, published))
    ensures var m' := Apply(g, Revoke(id, published)).members[id];
            !m'.joined && m'.fetch == map[] && m'.store == map[] && m'.buffer == [] && m'.phase.Polling?
  {
  }

  /** An assignment starts at the committed positions, or at the first record, with an empty store. */
  lemma AssignStartsAtCommitted(g: Group, id: MemberId, tps: set<TopicPartition>)
    requires Enabled(g, Assign(id, tps))
    ensures var m' := Apply(g, Assign(id, tps)).members[id];
            && m'.joined && m'.fetch.Keys == tps && m'.store == map[]
            && forall tp :: tp in tps ==> m'.fetch[tp] == if tp in g.committed then g.committed[tp] else 0
  {
  }

  /** The group after a revoke whose commit lands for everything, and the assignment of the partitions to some member. */
  function HandedOver(g: Group, id: MemberId, other: MemberId, tps: set<TopicPartition>): Group
    requires id in g.members && Enabled(g, Revoke(id, g.members[id].store.Keys))
    requires Enabled(Apply(g, Revoke(id, g.members[id].store.Keys)), Assign(other, tps))
  {
    Apply(Apply(g, Revoke(id, g.members[id].store.Keys)), Assign(other, tps))
  }

  lemma HandedOverAtStored(g: Group, id: MemberId, other: MemberId, tps: set<TopicPartition>, tp: TopicPartition)
    requires id in g.members && Enabled(g, Revoke(id, g.members[id].store.Keys)) && tp in tps && tp in g.members[id].store
    requires Enabled(Apply(g, Revoke(id, g.members[id].store.Keys)), Assign(other, tps))
    ensures var g' := HandedOver(g, id, other, tps);
            && other in g'.members && tp in g'.members[other].fetch
            && g'.members[other].fetch[tp] == g.members[id].store[tp] && g'.history == g.history
  {
    WhatIsCommitted(g, Revoke(id, g.members[id].store.Keys), tp);
    AssignStartsAtCommitted(Apply(g, Revoke(id, g.members[id].store.Keys)), other, tps);
  }

  /**
   The handover, in every run: after a revoke whose commit lands, the first record of a partition that
   its next owner polls is the first one the old owner had not resolved; everything of the assignment
   before it was resolved there, so nothing is repeated and nothing skipped.
   */
  lemma NextOwnerReadsOn(
    policy: Policy, run: seq<Label>, id: MemberId, other: MemberId, tps: set<TopicPartition>, msg: Message)
    requires IsRun(Init(policy), run)
    requires var g := After(Init(policy), run);
             && id in g.members && Enabled(g, Revoke(id, g.members[id].store.Keys))
             && Enabled(Apply(g, Revoke(id, g.members[id].store.Keys)), Assign(other, tps))
             && msg.Tp() in tps && msg.Tp() in g.members[id].store
    requires var g' := HandedOver(After(Init(policy), run), id, other, tps);
             other in g'.members && IsNext(g'.history, g'.members[other], msg)
    ensures var g := After(Init(policy), run);
            var m := g.members[id];
            && msg !in m.accounted && msg.Tp() in m.base
            && (forall e :: e in g.history.log && e.Tp() == msg.Tp() && m.base[e.Tp()] <= e.offset < msg.offset ==>
                  e in m.accounted && g.history.Resolved(e))
  {
    var g := After(Init(policy), run);
    var m := g.members[id];
    InitInOrder(policy);
    RunKeeps(Init(policy), run);
    assert MemberInv(g.history, m);
    HandedOverAtStored(g, id, other, tps, msg.Tp());
    assert m.Position(msg.Tp()) == m.store[msg.Tp()];
  }

  /** A crash takes the member away, whatever it was doing, and nothing else. */
  lemma CrashLosesTheMember(g: Group, id: MemberId)
    requires id in g.members
    ensures Enabled(g, Crash(id)) && id !in Apply(g, Crash(id)).members
    ensures Apply(g, Crash(id)).members == g.members - {id}
    ensures Apply(g, Crash(id)).history == g.history && Apply(g, Crash(id)).committed == g.committed
  {
  }

  function Restarted(g: Group, id: MemberId, mode: Mode, autoCommit: bool): Group
    requires id !in g.members
  {
    Apply(g, Start(id, mode, autoCommit))
  }

  /** Once it starts again it reads on from what is committed, with nothing stored or buffered. */
  lemma RestartReadsFromCommitted(g: Group, id: MemberId, mode: Mode, autoCommit: bool, tps: set<TopicPartition>, tp: TopicPartition)
    requires id !in g.members && tp in tps
    ensures var started := Restarted(g, id, mode, autoCommit);
            && Enabled(started, Assign(id, tps))
            && var m := Apply(started, Assign(id, tps)).members[id];
               && m.joined && m.store == map[] && m.buffer == [] && m.fetch.Keys == tps && m.fetch[tp] == g.Committed(tp)
  {
    AssignStartsAtCommitted(Restarted(g, id, mode, autoCommit), id, tps);
  }

  /**
   Who owns the timing: the background committer commits for nobody but a member in that cadence, and
   what such a member commits itself while it polls is nothing.
   */
  lemma WhoOwnsTheTiming(g: Group, l: Label)
    requires Enabled(g, l) && (l.Tick? || l.CommitReturns?)
    ensures l.Tick? ==> g.members[l.id].autoCommit
    ensures l.CommitReturns? && g.members[l.id].autoCommit ==>
              forall tp :: Apply(g, l).Committed(tp) == g.Committed(tp)
  {
    forall tp
      ensures l.CommitReturns? && g.members[l.id].autoCommit ==> Apply(g, l).Committed(tp) == g.Committed(tp)
    {
      WhatIsCommitted(g, l, tp);
    }
  }
}
