/**
 What the handler's answer and the strategy's add to the history of the group, and when the buffer is
 dispatched (subscribe/subscriber.go), element by element.
 */
module Answers {
  import opened Types
  import opened OffsetStore
  import opened ConsumerGroup

  /** The failed items of a batch are exactly the flagged ones. */
  lemma {:induction false} FailedItemsAre(batch: seq<Message>, failed: seq<bool>, e: Message)
    requires |batch| == |failed|
    ensures e in FailedItems(batch, failed) <==> exists i :: 0 <= i < |batch| && failed[i] && batch[i] == e
  {
    if batch != [] {
      var n := |batch| - 1;
      FailedItemsAre(batch[..n], failed[..n], e);
      if i :| 0 <= i < n && failed[i] && batch[i] == e {
        assert failed[..n][i] && batch[..n][i] == e;
      }
    }
  }

  /** Per-item verdicts add to the handled messages exactly the ones not failed; a whole failure adds none. */
  lemma VerdictRecords(h: History, m: Member, verdict: Verdict, e: Message)
    requires CanReturn(m, verdict) && AscendingPerPartition(m.phase.batch)
    ensures var h' := HistoryOnVerdict(h, m, verdict);
            && h'.writtenOff == h.writtenOff && h'.log == h.log
            && (e in h'.handled <==>
                || e in h.handled
                || (verdict.Items? && exists i :: 0 <= i < |m.phase.batch| && !verdict.failed[i] && m.phase.batch[i] == e))
  {
    var batch := m.phase.batch;
    if verdict.Items? {
      FailedItemsAre(batch, verdict.failed, e);
      if i :| 0 <= i < |batch| && batch[i] == e {
        assert forall j :: 0 <= j < |batch| && batch[j] == e ==> j == i;
      }
    }
  }

  /** An accepted call adds to the messages written off exactly its own; a refused one adds none. */
  lemma AnswerRecords(h: History, m: Member, ok: bool, written: seq<Message>, e: Message)
    requires m.phase.Routing? && m.phase.left != []
    ensures var h' := HistoryOnRouted(h, m, ok, written);
            && h'.handled == h.handled && h'.log == h.log + written
            && (e in h'.writtenOff <==>
                e in h.writtenOff || (ok && if m.phase.whole then e in m.phase.left else e == m.phase.left[0]))
  {
    WritesLog(h, written);
  }

  lemma {:induction false} WritesLog(h: History, records: seq<Message>)
    ensures var h' := WriteAll(h, records);
            h'.log == h.log + records && h'.handled == h.handled && h'.writtenOff == h.writtenOff
  {
    if records != [] {
      WritesLog(h, records[..|records| - 1]);
      assert records == records[..|records| - 1] + [records[|records| - 1]];
    }
  }

  /** The buffer is dispatched exactly when it holds something and is full, has waited, or holds a single-mode message. */
  lemma WhenDispatched(m: Member, polled: seq<Message>, timedOut: bool)
    requires m.phase.Polling?
    ensures var m', all := Buffered(m, polled, timedOut), m.buffer + polled;
            if all != [] && (m.mode == Single || timedOut || (m.mode.Batch? && |all| >= m.mode.size))
            then m'.phase == Handling(all) && m'.buffer == []
            else m'.phase.Polling? && m'.buffer == all
  {
  }
}
