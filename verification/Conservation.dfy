/**
 Buffer conservation over every run of a consumer group: what a member polled is, in order, what
 was dispatched and what was dropped, followed by what it still buffers
 (subscribe/subscriber.go, internal/subscribe/batch/batch.go).
 */
module Conservation {
  import opened Types
  import opened Buffering
  import opened ConsumerGroup
  import Wire

  /** The messages a member polled since it started, read off the labels of a run. */
  function Fetched(run: seq<Label>, id: MemberId): seq<Message> {
    if run == [] then []
    else
      var before, l := Fetched(run[..|run| - 1], id), run[|run| - 1];
      if l.Start? && l.id == id then []
      else if l.Fetch? && l.id == id then before + [l.msg]
      else before
  }

  /** The most a batch can hold. */
  function Capacity(mode: Mode): nat {
    if mode.Batch? && mode.size > 1 then mode.size else 1
  }

  predicate WellSized(segments: seq<Segment>, capacity: nat) {
    forall i :: 0 <= i < |segments| && segments[i].Dispatched? ==> 1 <= |segments[i].msgs| <= capacity
  }

  /** The batch being worked on is the one dispatched last. */
  predicate WorksOnLast(m: Member) {
    m.InWork() != [] ==> m.left != [] && m.left[|m.left| - 1] == Dispatched(m.InWork())
  }

  ghost predicate Conserved(m: Member) {
    && m.fetched == Flatten(m.left) + m.buffer
    && |m.buffer| < Capacity(m.mode)
    && WellSized(m.left, Capacity(m.mode))
    && WorksOnLast(m)
  }

  lemma LeavesConserve(m: Member, segment: Segment)
    requires m.fetched == Flatten(m.left) + segment.msgs
    ensures m.fetched == Flatten(m.left + [segment]) + []
  {
    FlattenOneMore(m.left, segment);
  }

  lemma OneMoreDispatched(segments: seq<Segment>, batch: seq<Message>, capacity: nat)
    requires WellSized(segments, capacity) && 1 <= |batch| <= capacity
    ensures WellSized(segments + [Dispatched(batch)], capacity)
  {
  }

  lemma Regroup(gone: seq<Message>, buffer: seq<Message>, polled: seq<Message>)
    ensures gone + buffer + polled == gone + (buffer + polled)
  {
  }

  /** The buffer leaves as a batch. */
  lemma DispatchConserves(m: Member, buffer: seq<Message>)
    requires m.fetched == Flatten(m.left) + buffer && WellSized(m.left, Capacity(m.mode)) && 1 <= |buffer| <= Capacity(m.mode)
    ensures Conserved(m.(buffer := [], left := m.left + [Dispatched(buffer)], phase := Handling(buffer)))
  {
    LeavesConserve(m, Dispatched(buffer));
    OneMoreDispatched(m.left, buffer, Capacity(m.mode));
  }

  /** Adding at most one message, and dispatching when it is time. */
  lemma BufferedConserves(m: Member, polled: seq<Message>, timedOut: bool)
    requires Conserved(m) && m.phase.Polling? && |polled| <= 1
    ensures Conserved(Buffered(m, polled, timedOut))
    ensures Buffered(m, polled, timedOut).fetched == m.fetched + polled
  {
    var buffer := m.buffer + polled;
    Regroup(Flatten(m.left), m.buffer, polled);
    if Due(m.mode, buffer, timedOut) {
      DispatchConserves(m.(fetched := m.fetched + polled), buffer);
    }
  }

  lemma DropConserves(m: Member)
    requires m.fetched == Flatten(m.left) + m.buffer
    ensures m.fetched == Flatten(m.left + [Dropped(m.buffer)]) + []
  {
    LeavesConserve(m, Dropped(m.buffer));
  }

  /** Nothing entered or left the buffer, and no new batch is worked on. */
  predicate BufferUntouched(m: Member, m': Member) {
    && m'.mode == m.mode && m'.buffer == m.buffer && m'.left == m.left && m'.fetched == m.fetched
    && (m'.InWork() == m.InWork() || m'.InWork() == [])
  }

  predicate BufferStep(l: Label) {
    l.Fetch? || l.Idle? || l.Revoke? || l.CloseDriver?
  }

  lemma StoreLeavesBuffer(g: Group, m: Member, l: Label)
    requires EnabledAt(g, m, l) && l.StoreReturns?
    ensures BufferUntouched(m, Moved(g, m, l))
  {
  }

  lemma NotedLeavesBuffer(m: Member, m': Member, journal: Journal)
    requires BufferUntouched(m, m')
    ensures BufferUntouched(m, m'.(journal := journal))
  {
  }

  lemma OnRoutedLeavesBuffer(m: Member, ok: bool)
    requires m.phase.Routing? && m.phase.left != []
    ensures BufferUntouched(m, OnRouted(m, ok))
  {
  }

  lemma OnVerdictLeavesBuffer(m: Member, verdict: Verdict)
    requires CanReturn(m, verdict)
    ensures BufferUntouched(m, OnVerdict(m, verdict))
  {
  }

  lemma RoutedLeavesBuffer(g: Group, m: Member, l: Label)
    requires EnabledAt(g, m, l) && l.StrategyReturns?
    ensures BufferUntouched(m, Moved(g, m, l))
  {
    OnRoutedLeavesBuffer(m, l.ok);
    NotedLeavesBuffer(m, OnRouted(m, l.ok), Noted(m, l));
  }

  lemma VerdictLeavesBuffer(g: Group, m: Member, l: Label)
    requires EnabledAt(g, m, l) && l.HandlerReturns?
    ensures BufferUntouched(m, Moved(g, m, l))
  {
    OnVerdictLeavesBuffer(m, l.verdict);
    NotedLeavesBuffer(m, OnVerdict(m, l.verdict), Noted(m, l));
  }

  lemma LoopLeavesBuffer(g: Group, m: Member, l: Label)
    requires EnabledAt(g, m, l) && (l.PollFails? || l.Cancel? || l.CommitReturns? || l.FinalCommit?)
    ensures BufferUntouched(m, Moved(g, m, l))
  {
  }

  lemma RestLeavesBuffer(g: Group, m: Member, l: Label)
    requires EnabledAt(g, m, l) && (l.Assign? || l.Lose? || l.Tick? || l.Crash?)
    ensures BufferUntouched(m, Moved(g, m, l))
  {
  }

  lemma OthersLeaveBuffer(g: Group, m: Member, l: Label)
    requires EnabledAt(g, m, l) && !BufferStep(l)
    ensures BufferUntouched(m, Moved(g, m, l))
  {
    if l.StoreReturns? {
      StoreLeavesBuffer(g, m, l);
    } else if l.StrategyReturns? {
      RoutedLeavesBuffer(g, m, l);
    } else if l.HandlerReturns? {
      VerdictLeavesBuffer(g, m, l);
    } else if l.PollFails? || l.Cancel? || l.CommitReturns? || l.FinalCommit? {
      LoopLeavesBuffer(g, m, l);
    } else {
      RestLeavesBuffer(g, m, l);
    }
  }

  lemma DropStepConserves(m: Member, m': Member)
    requires Conserved(m) && m'.mode == m.mode && m'.fetched == m.fetched && m'.InWork() == []
    requires m'.buffer == [] && m'.left == m.left + [Dropped(m.buffer)]
    ensures Conserved(m')
  {
    DropConserves(m);
  }

  lemma FetchConserves(m: Member, msg: Message, timedOut: bool)
    requires Conserved(m) && m.phase.Polling?
    ensures Conserved(OnFetch(m, msg, timedOut)) && OnFetch(m, msg, timedOut).fetched == m.fetched + [msg]
  {
    BufferedConserves(m.(fetch := m.fetch[msg.Tp() := msg.offset + 1]), [msg], timedOut);
  }

  lemma UntouchedConserves(m: Member, m': Member)
    requires Conserved(m) && BufferUntouched(m, m')
    ensures Conserved(m') && m'.fetched == m.fetched
  {
  }

  lemma MovedConserves(g: Group, m: Member, l: Label)
    requires Conserved(m) && EnabledAt(g, m, l)
    ensures Conserved(Moved(g, m, l))
    ensures Moved(g, m, l).fetched == m.fetched + if l.Fetch? then [l.msg] else []
  {
    if l.Fetch? {
      FetchConserves(m, l.msg, l.timedOut);
    } else if l.Idle? {
      BufferedConserves(m, [], l.timedOut);
    } else if l.Revoke? || l.CloseDriver? {
      DropStepConserves(m, Moved(g, m, l));
    } else {
      OthersLeaveBuffer(g, m, l);
      UntouchedConserves(m, Moved(g, m, l));
    }
  }

  lemma StepConserves(g: Group, l: Label, id: MemberId)
    requires Enabled(g, l) && id in Apply(g, l).members
    requires id in g.members ==> Conserved(g.members[id])
    ensures Conserved(Apply(g, l).members[id])
    ensures Apply(g, l).members[id].fetched ==
            if l.Start? && l.id == id then []
            else (if id in g.members then g.members[id].fetched else []) + if l.Fetch? && l.id == id then [l.msg] else []
  {
    if !l.Append? && !l.Start? && !l.Crash? && l.id == id {
      MovedConserves(g, g.members[id], l);
    }
  }

  /**
   Conservation: in every run, of any number of members, what a member polled since it started is
   what was dispatched and dropped, in order, and what it buffers; no batch was empty or larger than
   the batch size, and the batch in work is the last one dispatched.
   */
  lemma {:induction false} ConservedInEveryRun(policy: Policy, run: seq<Label>, id: MemberId)
    requires IsRun(Init(policy), run) && id in After(Init(policy), run).members
    ensures var m := After(Init(policy), run).members[id];
            && Conserved(m)
            && (forall i :: 0 <= i < |m.left| && m.left[i].Dispatched? ==> |m.left[i].msgs| >= 1)
            && (forall i :: 0 <= i < |m.left| && m.left[i].Dispatched? && m.mode.Single? ==> |m.left[i].msgs| == 1)
            && (forall i :: 0 <= i < |m.left| && m.left[i].Dispatched? && m.mode.Batch? && m.mode.size >= 1 ==>
                  |m.left[i].msgs| <= m.mode.size)
            && Fetched(run, id) == m.fetched == Flatten(m.left) + m.buffer
  {
    if run != [] {
      var before, l := After(Init(policy), run[..|run| - 1]), run[|run| - 1];
      if id in before.members {
        ConservedInEveryRun(policy, run[..|run| - 1], id);
      }
      StepConserves(before, l, id);
    }
  }

  // --- What the log holds is readable

  ghost predicate Readable(h: History) {
    forall e :: e in h.log ==> Wire.ProperKeys(e.headers)
  }

  lemma {:induction false} WriteAllReadable(h: History, records: seq<Message>)
    requires Readable(h) && CanWrite(h, records)
    ensures Readable(WriteAll(h, records))
  {
    if records != [] {
      WriteAllReadable(h, records[..|records| - 1]);
    }
  }

  /** Every record a run writes can be converted and written again with its header keys intact. */
  lemma {:induction false} ReadableInEveryRun(policy: Policy, run: seq<Label>)
    requires IsRun(Init(policy), run)
    ensures Readable(After(Init(policy), run).history)
  {
    if run != [] {
      var before, l := After(Init(policy), run[..|run| - 1]), run[|run| - 1];
      ReadableInEveryRun(policy, run[..|run| - 1]);
      if l.Append? {
        WriteAllReadable(before.history, [l.record]);
      } else if l.StrategyReturns? {
        WriteAllReadable(before.history, l.written);
      }
    }
  }
}
