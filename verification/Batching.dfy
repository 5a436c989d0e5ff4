/** A batch and the verdicts a handler records on it: internal/subscribe/types/types.go. */
module Batching {
  import opened Types
  import opened ConsumerGroup

  /** One message and its verdict.  The message is a copy: Fail is all a handler can do to an item. */
  class BatchItem {
    const msg: Message
    var failure: Option<Failure>

    constructor (msg: Message)
      ensures this.msg == msg && failure == None
    {
      this.msg := msg;
      this.failure := None;
    }

    /** Calling it twice keeps the last one. */
    method Fail(f: Failure)
      modifies this
      ensures failure == Some(f)
    {
      failure := Some(f);
    }
  }

  ghost predicate Distinct(items: seq<BatchItem>) {
    forall i, j :: 0 <= i < j < |items| ==> items[i] != items[j]
  }

  /** The batch shows the polled messages, in poll order. */
  ghost predicate Shows(items: seq<BatchItem>, msgs: seq<Message>) {
    |items| == |msgs| && forall i :: 0 <= i < |items| ==> items[i].msg == msgs[i]
  }

  /** NewBatchFromBuffer: one fresh item per message. */
  method NewBatchFromBuffer(msgs: seq<Message>) returns (items: seq<BatchItem>)
    ensures Shows(items, msgs) && Distinct(items)
    ensures forall i :: 0 <= i < |items| ==> fresh(items[i]) && items[i].failure == None
  {
    items := [];
    for i := 0 to |msgs|
      invariant |items| == i && Distinct(items)
      invariant forall k :: 0 <= k < i ==> fresh(items[k]) && items[k].msg == msgs[k] && items[k].failure == None
    {
      var item := new BatchItem(msgs[i]);
      items := items + [item];
    }
  }

  /** What a batch handler does: it fails items, in any order, and then returns or panics. */
  datatype HandlerScript = HandlerScript(fails: seq<(nat, Failure)>, whole: Option<Failure>, panics: bool)

  /** The verdict on item i after some calls of Fail. */
  function VerdictOn(fails: seq<(nat, Failure)>, i: nat): Option<Failure> {
    if fails == [] then None
    else
      var (k, f) := fails[|fails| - 1];
      if k == i then Some(f) else VerdictOn(fails[..|fails| - 1], i)
  }

  /** A recovered panic reads as a failure of the whole batch, with no step and no code. */
  function WholeFailure(script: HandlerScript): Option<Failure> {
    if script.panics then Some(Failure(Some(Error("handler panic", false)), 0, "")) else script.whole
  }

  /** invokeBatchHandler: the handler runs, and a panic comes back as a failure. */
  method InvokeBatchHandler(items: seq<BatchItem>, script: HandlerScript) returns (whole: Option<Failure>)
    requires Distinct(items) && forall i :: 0 <= i < |items| ==> items[i].failure == None
    modifies items
    ensures forall i :: 0 <= i < |items| ==> items[i].failure == VerdictOn(script.fails, i)
    ensures whole == WholeFailure(script)
    ensures script.panics ==>
              whole.Some? && whole.value.err.Some? && !whole.value.err.value.permanent
              && whole.value.step == 0 && whole.value.code == ""
    ensures !script.panics ==> whole == script.whole
  {
    for n := 0 to |script.fails|
      invariant forall i :: 0 <= i < |items| ==> items[i].failure == VerdictOn(script.fails[..n], i)
    {
      var (k, f) := script.fails[n];
      if k < |items| {
        items[k].Fail(f);
      }
      assert script.fails[..n + 1][..n] == script.fails[..n];
    }
    assert script.fails[..|script.fails|] == script.fails;
    if script.panics {
      whole := Some(Failure(Some(Error("handler panic", false)), 0, ""));
    } else {
      whole := script.whole;
    }
  }

  /** dispatchMessage: the single-message handler runs, and a panic comes back as a failure. */
  method InvokeHandler(script: HandlerScript) returns (failure: Option<Failure>)
    ensures failure == WholeFailure(script)
    ensures script.panics ==>
              failure.Some? && failure.value.err.Some? && !failure.value.err.value.permanent
              && failure.value.step == 0 && failure.value.code == ""
    ensures !script.panics ==> failure == script.whole
  {
    if script.panics {
      return Some(Failure(Some(Error("handler panic", false)), 0, ""));
    }
    failure := script.whole;
  }

  /** withReason: no strategy ever sees a failure without an error. */
  function WithReason(f: Failure): (r: Failure)
    ensures r.err.Some? && r.step == f.step && r.code == f.code
    ensures f.err.Some? ==> r == f
  {
    if f.err.Some? then f else f.(err := Some(Error("handler failed the message without an error", false)))
  }

  /** Which items of a batch the handler failed. */
  function Flags(n: nat, fails: seq<(nat, Failure)>): (flags: seq<bool>)
    ensures |flags| == n && forall i :: 0 <= i < n ==> flags[i] == VerdictOn(fails, i).Some?
  {
    seq(n, i requires 0 <= i < n => VerdictOn(fails, i).Some?)
  }

  /** The verdict the group sees. */
  function VerdictOf(script: HandlerScript, n: nat): Verdict {
    if WholeFailure(script).Some? then WholeFailed else Items(Flags(n, script.fails))
  }
}
