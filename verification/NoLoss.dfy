/**
 End to end under the retry strategy: every record a commit has passed was handled, or has a trail
 of acknowledged records that ends in a handled one or in one not passed yet.
 */
module NoLoss {
  import opened Types
  import Decimal
  import opened Headers
  import opened Ladder
  import opened ConsumerGroup
  import opened GroupSafety
  import opened AtLeastOnce

  // --- Every written-off record has a successor in the log

  ghost predicate HasSuccessor(rc: RetryConfig, log: seq<Message>, i: nat)
    requires i < |log|
  {
    exists j :: i < j < |log| && Carries(rc, log[i], log[j])
  }

  ghost predicate WrittenOffInv(rc: RetryConfig, h: History) {
    && (forall e :: e in h.writtenOff ==> e in h.log)
    && (forall i :: 0 <= i < |h.log| && h.log[i] in h.writtenOff ==> HasSuccessor(rc, h.log, i))
  }

  lemma SuccessorsStay(rc: RetryConfig, log: seq<Message>, more: seq<Message>, i: nat)
    requires i < |log| && HasSuccessor(rc, log, i)
    ensures HasSuccessor(rc, log + more, i)
  {
    var j :| i < j < |log| && Carries(rc, log[i], log[j]);
    assert (log + more)[j] == log[j] && (log + more)[i] == log[i];
  }

  lemma WriteAllKeepsSuccessors(rc: RetryConfig, h: History, records: seq<Message>)
    requires WrittenOffInv(rc, h) && LogInOrder(h) && CanWrite(h, records)
    ensures WrittenOffInv(rc, WriteAll(h, records))
  {
    WriteAllGrows(h, records);
    var h' := WriteAll(h, records);
    forall i | 0 <= i < |h'.log| && h'.log[i] in h'.writtenOff
      ensures HasSuccessor(rc, h'.log, i)
    {
      IndexInOldLog(h, h', i);
      SuccessorsStay(rc, h.log, records, i);
    }
  }

  /** A record of the old log sits at its old index in the new one. */
  lemma IndexInOldLog(h: History, h': History, i: nat)
    requires LogInOrder(h') && h.log <= h'.log && i < |h'.log| && h'.log[i] in h.log
    ensures i < |h.log|
  {
    var k :| 0 <= k < |h.log| && h.log[k] == h'.log[i];
    assert h'.log[k] == h'.log[i];
  }

  lemma WritingOffKeepsSuccessors(rc: RetryConfig, h: History, call: seq<Message>, written: seq<Message>)
    requires WrittenOffInv(rc, h) && LogInOrder(h) && CanWrite(h, written)
    requires (forall e :: e in call ==> e in h.log) && Confirmed(RetryWith(rc), call, written)
    ensures var wrote := WriteAll(h, written);
            WrittenOffInv(rc, wrote.(writtenOff := wrote.writtenOff + (set e | e in call)))
  {
    WriteAllKeepsSuccessors(rc, h, written);
    WriteAllGrows(h, written);
    var wrote := WriteAll(h, written);
    forall i | 0 <= i < |wrote.log| && wrote.log[i] in call
      ensures HasSuccessor(rc, wrote.log, i)
    {
      IndexInOldLog(h, wrote, i);
      WrittenIsSuccessor(rc, h.log, i, call, written);
    }
  }

  lemma WrittenIsSuccessor(rc: RetryConfig, log: seq<Message>, i: nat, call: seq<Message>, written: seq<Message>)
    requires i < |log| && log[i] in call && Confirmed(RetryWith(rc), call, written)
    ensures HasSuccessor(rc, log + written, i)
  {
    var w :| w in written && Carries(rc, log[i], w);
    var k :| 0 <= k < |written| && written[k] == w;
    assert (log + written)[|log| + k] == w && (log + written)[i] == log[i];
  }

  /** The strategy writes a message off only with a successor in hand. */
  lemma RoutedKeepsSuccessors(rc: RetryConfig, h: History, m: Member, ok: bool, written: seq<Message>)
    requires WrittenOffInv(rc, h) && LogInOrder(h) && MemberInv(h, m)
    requires m.phase.Routing? && m.phase.left != [] && CanWrite(h, written)
    requires ok ==> Confirmed(RetryWith(rc), NextCall(m.phase.whole, m.phase.left), written)
    ensures WrittenOffInv(rc, HistoryOnRouted(h, m, ok, written))
  {
    var call := NextCall(m.phase.whole, m.phase.left);
    forall e | e in call
      ensures e in h.log
    {
      assert e in m.phase.left;
      assert m.Pending(e);
    }
    if ok {
      WritingOffKeepsSuccessors(rc, h, call, written);
    } else {
      WriteAllKeepsSuccessors(rc, h, written);
    }
  }

  ghost predicate TrackedInv(rc: RetryConfig, g: Group) {
    g.policy == RetryWith(rc) && GroupInv(g) && WrittenOffInv(rc, g.history)
  }

  lemma StepKeepsTracks(rc: RetryConfig, g: Group, l: Label)
    requires TrackedInv(rc, g) && Enabled(g, l)
    ensures TrackedInv(rc, Apply(g, l))
  {
    StepKeeps(g, l);
    if l.Append? {
      WriteAllKeepsSuccessors(rc, g.history, [l.record]);
    } else if l.StrategyReturns? {
      RoutedKeepsSuccessors(rc, g.history, g.members[l.id], l.ok, l.written);
    }
  }

  lemma {:induction false} RunKeepsTracks(rc: RetryConfig, g: Group, run: seq<Label>)
    requires TrackedInv(rc, g) && IsRun(g, run)
    ensures TrackedInv(rc, After(g, run))
  {
    if run != [] {
      RunKeepsTracks(rc, g, run[..|run| - 1]);
      StepKeepsTracks(rc, After(g, run[..|run| - 1]), run[|run| - 1]);
    }
  }

  // --- Trails

  /** Records of the log, each carrying the one before it. */
  ghost predicate IsTrail(rc: RetryConfig, h: History, trail: seq<Message>) {
    && trail != []
    && (forall e :: e in trail ==> e in h.log)
    && (forall k :: 0 <= k < |trail| - 1 ==> Carries(rc, trail[k], trail[k + 1]))
  }

  /** The record was handled, or no commit has passed it: it waits in its topic, the DLQ included. */
  ghost predicate Settled(g: Group, e: Message) {
    e in g.history.handled || g.Committed(e.Tp()) <= e.offset
  }

  ghost predicate Accounted(rc: RetryConfig, g: Group, e: Message) {
    exists trail :: IsTrail(rc, g.history, trail) && trail[0] == e && Settled(g, trail[|trail| - 1])
  }

  /** Every record is settled or has a successor. */
  ghost predicate EachSettledOrFollowed(rc: RetryConfig, g: Group) {
    forall i :: 0 <= i < |g.history.log| ==> Settled(g, g.history.log[i]) || HasSuccessor(rc, g.history.log, i)
  }

  lemma TracksMeanFollowed(rc: RetryConfig, g: Group)
    requires CommittedInv(g) && WrittenOffInv(rc, g.history)
    ensures EachSettledOrFollowed(rc, g)
  {
    forall i | 0 <= i < |g.history.log| && !Settled(g, g.history.log[i])
      ensures HasSuccessor(rc, g.history.log, i)
    {
      assert g.history.Resolved(g.history.log[i]);
    }
  }

  lemma Prepend(rc: RetryConfig, h: History, e: Message, rest: seq<Message>)
    requires IsTrail(rc, h, rest) && e in h.log && Carries(rc, e, rest[0])
    ensures IsTrail(rc, h, [e] + rest)
  {
    var trail := [e] + rest;
    forall k | 0 <= k < |trail| - 1
      ensures Carries(rc, trail[k], trail[k + 1])
    {
      assert k > 0 ==> trail[k] == rest[k - 1] && trail[k + 1] == rest[k];
    }
  }

  lemma AccountedByNext(rc: RetryConfig, g: Group, e: Message, next: Message)
    requires e in g.history.log && Carries(rc, e, next) && Accounted(rc, g, next)
    ensures Accounted(rc, g, e)
  {
    var rest :| IsTrail(rc, g.history, rest) && rest[0] == next && Settled(g, rest[|rest| - 1]);
    Prepend(rc, g.history, e, rest);
    var trail := [e] + rest;
    assert trail[0] == e && trail[|trail| - 1] == rest[|rest| - 1];
  }

  lemma {:induction false} TrailExists(rc: RetryConfig, g: Group, i: nat)
    requires EachSettledOrFollowed(rc, g) && i < |g.history.log|
    ensures Accounted(rc, g, g.history.log[i])
    decreases |g.history.log| - i
  {
    var log := g.history.log;
    if Settled(g, log[i]) {
      assert IsTrail(rc, g.history, [log[i]]);
    } else {
      assert HasSuccessor(rc, log, i);
      var j :| i < j < |log| && Carries(rc, log[i], log[j]);
      TrailExists(rc, g, j);
      AccountedByNext(rc, g, log[i], log[j]);
    }
  }

  /** Along a trail the key, the payload, the application's headers and the origin stay the same. */
  lemma {:induction false} TrailKeeps(rc: RetryConfig, h: History, trail: seq<Message>, k: nat)
    requires IsTrail(rc, h, trail) && k < |trail| && OriginOf(trail[0]).topic != ""
    ensures trail[k].key == trail[0].key && trail[k].payload == trail[0].payload
    ensures AppHeaders(trail[k].headers) == AppHeaders(trail[0].headers)
    ensures OriginOf(trail[k]) == OriginOf(trail[0])
  {
    if k > 0 {
      TrailKeeps(rc, h, trail, k - 1);
      CarriesOrigin(rc, trail[k - 1], trail[k]);
    }
  }

  /**
   A trail is short: from a source record, as long as it has not reached the DLQ, its length is the
   attempt counter, which stays below maxAttempts.  So its first DLQ record is at most maxAttempts hops away.
   */
  lemma {:induction false} TrailIsBounded(rc: RetryConfig, h: History, trail: seq<Message>, k: nat)
    requires ValidConfig(rc) && IsTrail(rc, h, trail) && FirstHand(trail[0]) && k < |trail|
    requires forall j :: 1 <= j <= k ==> trail[j].topic != rc.dlqTopic
    ensures AttemptOf(trail[k]) == k < rc.maxAttempts
  {
    if k == 0 {
      FirstHandReads(trail[0]);
    } else {
      TrailIsBounded(rc, h, trail, k - 1);
      assert Carries(rc, trail[k - 1], trail[k]);
    }
  }

  /** The record at the end of a trail says itself which source record it stands for. */
  ghost predicate StandsFor(last: Message, source: Message) {
    && last.key == source.key && last.payload == source.payload
    && AppHeaders(last.headers) == source.headers
    && (last == source ||
        (&& Lookup(last.headers, OriginalTopic) == source.topic
         && Lookup(last.headers, OriginalPartition) == Decimal.Print(source.partition)
         && Lookup(last.headers, OriginalOffset) == Decimal.Print(source.offset)))
  }

  /** Every source record is accounted for by some settled record. */
  ghost predicate NothingLost(rc: RetryConfig, g: Group) {
    forall source :: source in g.history.log && FirstHand(source) ==> HasStandIn(rc, g, source)
  }

  ghost predicate HasStandIn(rc: RetryConfig, g: Group, source: Message) {
    exists last :: last in g.history.log && Settled(g, last) && StandsFor(last, source)
  }

  /**
   No loss: in every reachable state, every source record, on whatever topic, is handled or not
   passed by a commit, itself or through an acknowledged record that carries its key, its payload (a
   tombstone stays one) and its name.
   */
  lemma NothingIsEverLost(rc: RetryConfig, run: seq<Label>, source: Message)
    requires IsRun(Init(RetryWith(rc)), run)
    requires source in After(Init(RetryWith(rc)), run).history.log && FirstHand(source)
    ensures HasStandIn(rc, After(Init(RetryWith(rc)), run), source)
  {
    var g0 := Init(RetryWith(rc));
    InitInOrder(RetryWith(rc));
    RunKeepsTracks(rc, g0, run);
    var g := After(g0, run);
    var i :| 0 <= i < |g.history.log| && g.history.log[i] == source;
    TracksMeanFollowed(rc, g);
    TrailExists(rc, g, i);
    var trail :| IsTrail(rc, g.history, trail) && trail[0] == source && Settled(g, trail[|trail| - 1]);
    var n := |trail| - 1;
    FirstHandReads(source);
    TrailKeeps(rc, g.history, trail, n);
    if n > 0 {
      TrailKeeps(rc, g.history, trail, n - 1);
      assert Carries(rc, trail[n - 1], trail[n]);
    }
    assert StandsFor(trail[n], source);
  }

  lemma NothingLostInAnyRun(rc: RetryConfig, run: seq<Label>)
    requires IsRun(Init(RetryWith(rc)), run)
    ensures NothingLost(rc, After(Init(RetryWith(rc)), run))
  {
    forall source | source in After(Init(RetryWith(rc)), run).history.log && FirstHand(source)
      ensures HasStandIn(rc, After(Init(RetryWith(rc)), run), source)
    {
      NothingIsEverLost(rc, run, source);
    }
  }
}
