/**
 Who holds a retry strategy: Start (subscribe/subscriber.go) of any number of subscribers that
 share one, against Initialize, SetLogger and Close (internal/subscribe/strategy/retry.go), one
 atomic step at a time.
 */
module StrategyLease {
  import opened Types

  type CallId = nat        // one call of Start
  type SubscriberId = nat

  datatype Life = Created | Running | Stopped

  /** Where a call of Start is. */
  datatype Pc =
    | Outside
    | Started        // it moved its subscriber from created to running
    | Won            // Initialize: it moved inUse from false to true
    | Building       // the logger is set; publish.New is next
    | Initialized    // the publisher is built; Initialize returns nil
    | Wired          // SetLogger done; the consumer is created next
    | Polling        // run
    | Closing        // Close: the publisher is shut down next
    | Releasing      // inUse is cleared next
    | Returned(why: Outcome)

  datatype Outcome = AlreadyStarted | InUse | NoPublisher | NoConsumer | Ran

  /** The publisher a strategy writes through: who built it, and whether it is still open. */
  datatype Publisher = Publisher(owner: CallId, open: bool)

  datatype Strategy = Strategy(inUse: bool, logger: Option<SubscriberId>, publisher: Option<Publisher>)

  /** One call: its subscriber, and how many publishers it built and closed. */
  datatype Call = Call(subscriber: SubscriberId, pc: Pc, built: nat, closed: nat, consumer: bool)

  datatype State = State(
    lives: map<SubscriberId, Life>,
    starters: map<SubscriberId, CallId>,  // the call that moved a subscriber on
    calls: map<CallId, Call>,
    strategy: Strategy,
    holder: Option<CallId>)
  {
    function At(c: CallId): Pc {
      if c in calls then calls[c].pc else Outside
    }

    function Life(i: SubscriberId): Life {
      if i in lives then lives[i] else Created
    }

    function Go(c: CallId, to: Pc): State
      requires c in calls
    {
      this.(calls := calls[c := calls[c].(pc := to)])
    }
  }

  function Init(): State {
    State(map[], map[], map[], Strategy(false, None, None), None)
  }

  datatype Label =
    | Start(c: CallId, subscriber: SubscriberId)
    | Claim(c: CallId)
    | TakeLogger(c: CallId)
    | Build(c: CallId, ok: bool)
    | SetLogger(c: CallId)
    | NewConsumer(c: CallId, ok: bool)
    | RunEnds(c: CallId)
    | ClosePublisher(c: CallId)
    | Release(c: CallId)

  predicate Enabled(s: State, l: Label) {
    match l
    case Start(c, _) => c !in s.calls
    case Claim(c) => s.At(c).Started?
    case TakeLogger(c) => s.At(c).Won?
    case Build(c, _) => s.At(c).Building?
    case SetLogger(c) => s.At(c).Initialized?
    case NewConsumer(c, _) => s.At(c).Wired?
    case RunEnds(c) => s.At(c).Polling?
    case ClosePublisher(c) => s.At(c).Closing?
    case Release(c) => s.At(c).Releasing?
  }

  /** Start returns: its deferred store marks the subscriber stopped. */
  function Return(s: State, c: CallId, why: Outcome): State
    requires c in s.calls
  {
    s.(lives := s.lives[s.calls[c].subscriber := Stopped]).Go(c, Returned(why))
  }

  function OnStart(s: State, c: CallId, i: SubscriberId): State {
    if s.Life(i).Created?
    then s.(lives := s.lives[i := Running], starters := s.starters[i := c], calls := s.calls[c := Call(i, Started, 0, 0, false)])
    else s.(calls := s.calls[c := Call(i, Returned(AlreadyStarted), 0, 0, false)])
  }

  function OnClaim(s: State, c: CallId): State
    requires c in s.calls
  {
    if s.strategy.inUse then Return(s, c, InUse)
    else s.(strategy := s.strategy.(inUse := true), holder := Some(c)).Go(c, Won)
  }

  function OnBuild(s: State, c: CallId, ok: bool): State
    requires c in s.calls
  {
    if !ok then Return(s.(strategy := s.strategy.(inUse := false), holder := None), c, NoPublisher)
    else s.(strategy := s.strategy.(publisher := Some(Publisher(c, true))),
            calls := s.calls[c := s.calls[c].(pc := Initialized, built := s.calls[c].built + 1)])
  }

  function OnNewConsumer(s: State, c: CallId, ok: bool): State
    requires c in s.calls
  {
    s.(calls := s.calls[c := s.calls[c].(pc := if ok then Polling else Closing, consumer := ok)])
  }

  /** Close shuts down whatever publisher the strategy has. */
  function OnClosePublisher(s: State, c: CallId): State
    requires c in s.calls
  {
    if s.strategy.publisher.None? then s.Go(c, Releasing)
    else s.(strategy := s.strategy.(publisher := Some(s.strategy.publisher.value.(open := false))),
            calls := s.calls[c := s.calls[c].(pc := Releasing, closed := s.calls[c].closed + 1)])
  }

  function OnRelease(s: State, c: CallId): State
    requires c in s.calls
  {
    Return(s.(strategy := s.strategy.(inUse := false), holder := None), c, if s.calls[c].consumer then Ran else NoConsumer)
  }

  function Apply(s: State, l: Label): State
    requires Enabled(s, l)
  {
    match l
    case Start(c, i) => OnStart(s, c, i)
    case Claim(c) => OnClaim(s, c)
    case TakeLogger(c) => s.(strategy := s.strategy.(logger := Some(s.calls[c].subscriber))).Go(c, Building)
    case Build(c, ok) => OnBuild(s, c, ok)
    case SetLogger(c) => s.(strategy := s.strategy.(logger := Some(s.calls[c].subscriber))).Go(c, Wired)
    case NewConsumer(c, ok) => OnNewConsumer(s, c, ok)
    case RunEnds(c) => s.Go(c, Closing)
    case ClosePublisher(c) => OnClosePublisher(s, c)
    case Release(c) => OnRelease(s, c)
  }

  predicate IsRun(s: State, run: seq<Label>)
    decreases |run|, 0
  {
    run == [] || (IsRun(s, run[..|run| - 1]) && Enabled(After(s, run[..|run| - 1]), run[|run| - 1]))
  }

  function After(s: State, run: seq<Label>): State
    requires IsRun(s, run)
    decreases |run|, 1
  {
    if run == [] then s else Apply(After(s, run[..|run| - 1]), run[|run| - 1])
  }

  // --- What every step keeps

  /** The call is between a successful claim and the release. */
  predicate Holds(pc: Pc) {
    pc.Won? || pc.Building? || HasPublisher(pc) || pc.Releasing?
  }

  /** Initialize has returned nil and Close has not shut the publisher down. */
  predicate HasPublisher(pc: Pc) {
    pc.Initialized? || pc.Wired? || pc.Polling? || pc.Closing?
  }

  /** Initialize has returned nil, at some time. */
  predicate WasInitialized(pc: Pc) {
    HasPublisher(pc) || pc.Releasing? || (pc.Returned? && (pc.why.Ran? || pc.why.NoConsumer?))
  }

  predicate CallInv(s: State, c: CallId, call: Call) {
    && !call.pc.Outside?
    && (Holds(call.pc) <==> s.holder == Some(c))
    && (HasPublisher(call.pc) ==> s.strategy.publisher == Some(Publisher(c, true)))
    && (Holds(call.pc) && !call.pc.Won? ==> s.strategy.logger == Some(call.subscriber))
    && call.built == (if WasInitialized(call.pc) then 1 else 0)
    && call.closed == (if WasInitialized(call.pc) && !HasPublisher(call.pc) then 1 else 0)
    && (call.pc.Polling? ==> call.consumer)
    && (call.pc != Returned(AlreadyStarted) ==>
          && call.subscriber in s.starters && s.starters[call.subscriber] == c
          && s.Life(call.subscriber) == if call.pc.Returned? then Stopped else Running)
  }

  ghost predicate SharedInv(s: State) {
    && (s.strategy.inUse <==> s.holder.Some?)
    && (s.holder.Some? ==> s.holder.value in s.calls)
    && (forall i: SubscriberId :: i in s.starters <==> !s.Life(i).Created?)
    && (s.strategy.publisher.Some? && s.strategy.publisher.value.open ==> s.holder.Some? && HasPublisher(s.At(s.holder.value)))
  }

  ghost predicate Inv(s: State) {
    SharedInv(s) && forall c :: c in s.calls ==> CallInv(s, c, s.calls[c])
  }

  lemma SharedKeeps(s: State, l: Label)
    requires Inv(s) && Enabled(s, l)
    ensures SharedInv(Apply(s, l))
  {
    assert l.c in s.calls ==> CallInv(s, l.c, s.calls[l.c]);
    assert s.holder.Some? ==> CallInv(s, s.holder.value, s.calls[s.holder.value]);
  }

  predicate Enters(l: Label) {
    l.Start? || l.Claim? || l.TakeLogger?
  }

  lemma EntryKeeps(s: State, l: Label)
    requires Inv(s) && Enabled(s, l) && Enters(l)
    ensures l.c in Apply(s, l).calls && CallInv(Apply(s, l), l.c, Apply(s, l).calls[l.c])
  {
    assert l.c in s.calls ==> CallInv(s, l.c, s.calls[l.c]);
  }

  lemma TenureKeeps(s: State, l: Label)
    requires Inv(s) && Enabled(s, l) && (l.Build? || l.SetLogger? || l.NewConsumer?)
    ensures l.c in Apply(s, l).calls && CallInv(Apply(s, l), l.c, Apply(s, l).calls[l.c])
  {
    assert CallInv(s, l.c, s.calls[l.c]);
  }

  lemma LeavingKeeps(s: State, l: Label)
    requires Inv(s) && Enabled(s, l) && (l.RunEnds? || l.ClosePublisher? || l.Release?)
    ensures l.c in Apply(s, l).calls && CallInv(Apply(s, l), l.c, Apply(s, l).calls[l.c])
  {
    assert CallInv(s, l.c, s.calls[l.c]);
  }

  lemma EntryLeavesOthers(s: State, l: Label, c: CallId)
    requires Inv(s) && Enabled(s, l) && Enters(l) && c in s.calls && c != l.c
    ensures c in Apply(s, l).calls && CallInv(Apply(s, l), c, Apply(s, l).calls[c])
  {
    assert CallInv(s, c, s.calls[c]);
    assert l.c in s.calls ==> CallInv(s, l.c, s.calls[l.c]);
  }

  lemma TenureLeavesOthers(s: State, l: Label, c: CallId)
    requires Inv(s) && Enabled(s, l) && !Enters(l) && c in s.calls && c != l.c
    ensures c in Apply(s, l).calls && CallInv(Apply(s, l), c, Apply(s, l).calls[c])
  {
    assert CallInv(s, c, s.calls[c]) && CallInv(s, l.c, s.calls[l.c]);
    assert Apply(s, l).calls[c] == s.calls[c];
  }

  lemma StepKeeps(s: State, l: Label)
    requires Inv(s) && Enabled(s, l)
    ensures Inv(Apply(s, l))
  {
    SharedKeeps(s, l);
    forall c | c in Apply(s, l).calls
      ensures CallInv(Apply(s, l), c, Apply(s, l).calls[c])
    {
      if c == l.c {
        if Enters(l) {
          EntryKeeps(s, l);
        } else if l.Build? || l.SetLogger? || l.NewConsumer? {
          TenureKeeps(s, l);
        } else {
          LeavingKeeps(s, l);
        }
      } else if Enters(l) {
        EntryLeavesOthers(s, l, c);
      } else {
        TenureLeavesOthers(s, l, c);
      }
    }
  }

  lemma {:induction false} RunKeeps(run: seq<Label>)
    requires IsRun(Init(), run)
    ensures Inv(After(Init(), run))
  {
    if run != [] {
      RunKeeps(run[..|run| - 1]);
      StepKeeps(After(Init(), run[..|run| - 1]), run[|run| - 1]);
    }
  }

  /**
   Exclusivity, over every interleaving: at most one call holds the strategy, and while it runs the
   strategy writes through the publisher that call built, still open, and logs to its logger.
   */
  lemma OneHolder(run: seq<Label>, c: CallId, d: CallId)
    requires IsRun(Init(), run)
    requires Holds(After(Init(), run).At(c))
    ensures var s := After(Init(), run);
            && (Holds(s.At(d)) ==> d == c)
            && s.strategy.inUse
            && (s.At(c).Polling? ==>
                  s.strategy.publisher == Some(Publisher(c, true)) && s.strategy.logger == Some(s.calls[c].subscriber))
  {
    RunKeeps(run);
  }

  /** A step of a call that does not hold the strategy leaves it alone, unless it is the claim that wins. */
  lemma OutsidersTouchNothing(run: seq<Label>, l: Label)
    requires IsRun(Init(), run) && Enabled(After(Init(), run), l)
    requires !Holds(After(Init(), run).At(l.c))
    ensures var s := After(Init(), run);
            var s' := Apply(s, l);
            if Holds(s'.At(l.c)) then l.Claim? && !s.strategy.inUse && s'.strategy == s.strategy.(inUse := true)
            else s'.strategy == s.strategy
  {
    RunKeeps(run);
  }

  /** On every exit path: as many publishers closed as built, one each if Initialize succeeded and none if it did not. */
  lemma EachInitializeIsClosed(run: seq<Label>, c: CallId)
    requires IsRun(Init(), run) && After(Init(), run).At(c).Returned?
    ensures var call := After(Init(), run).calls[c];
            && call.built == call.closed
            && call.built == (if call.pc.why.Ran? || call.pc.why.NoConsumer? then 1 else 0)
            && !Holds(call.pc)
  {
    RunKeeps(run);
  }

  /** A subscriber is single-use: of all its Start calls one gets past the first check. */
  lemma SingleUse(run: seq<Label>, c: CallId, d: CallId)
    requires IsRun(Init(), run)
    requires var s := After(Init(), run);
             c in s.calls && d in s.calls && c != d && s.calls[c].subscriber == s.calls[d].subscriber
    ensures After(Init(), run).At(c) == Returned(AlreadyStarted) || After(Init(), run).At(d) == Returned(AlreadyStarted)
  {
    RunKeeps(run);
  }

  /** When no call is inside Start, the strategy is free for the next one. */
  lemma FreeInTheEnd(run: seq<Label>)
    requires IsRun(Init(), run)
    requires forall c :: c in After(Init(), run).calls ==> After(Init(), run).At(c).Returned?
    ensures !After(Init(), run).strategy.inUse
    ensures var p := After(Init(), run).strategy.publisher; p.Some? ==> !p.value.open
  {
    RunKeeps(run);
  }

  // --- What a call of Start returns

  predicate PastBuild(pc: Pc) {
    pc.Closing? || pc.Releasing? || pc == Returned(Ran) || pc == Returned(NoConsumer)
  }

  /** What the steps of a call have been, read off where it is. */
  predicate Tells(s: State, run: seq<Label>, c: CallId) {
    var pc, consumer := s.At(c), c in s.calls && s.calls[c].consumer;
    && (Claim(c) in run <==> !pc.Outside? && !pc.Started? && pc != Returned(AlreadyStarted))
    && (TakeLogger(c) in run <==> Claim(c) in run && !pc.Won? && pc != Returned(InUse))
    && (Build(c, false) in run <==> pc == Returned(NoPublisher))
    && (NewConsumer(c, false) in run <==> PastBuild(pc) && !consumer)
    && (NewConsumer(c, true) in run <==> (PastBuild(pc) || pc.Polling?) && consumer)
    && (pc == Returned(Ran) || pc.Polling? ==> consumer) && (pc == Returned(NoConsumer) ==> !consumer)
    && (!PastBuild(pc) && !pc.Polling? ==> !consumer)
  }

  lemma ConsumerOf(s: State, l: Label, c: CallId)
    requires Enabled(s, l)
    ensures var s' := Apply(s, l);
            && (l.c != c ==> s'.At(c) == s.At(c))
            && (c in s'.calls && s'.calls[c].consumer <==>
                if l.c == c && l.NewConsumer? then l.ok else c in s.calls && s.calls[c].consumer)
  {
  }

  lemma TellsOneMore(s: State, run: seq<Label>, l: Label, c: CallId)
    requires Enabled(s, l) && Tells(s, run, c)
    ensures Tells(Apply(s, l), run + [l], c)
  {
    ConsumerOf(s, l, c);
    assert forall k: Label :: k in run + [l] <==> k in run || k == l;
    if l.c == c {
      OwnStepTells(s, run, l);
    }
  }

  lemma OwnStepTells(s: State, run: seq<Label>, l: Label)
    requires Enabled(s, l) && Tells(s, run, l.c)
    ensures Tells(Apply(s, l), run + [l], l.c)
  {
    ConsumerOf(s, l, l.c);
    assert forall k: Label :: k in run + [l] <==> k in run || k == l;
    if Enters(l) {
      EntryTells(s, run, l);
    }
  }

  lemma EntryTells(s: State, run: seq<Label>, l: Label)
    requires Enabled(s, l) && Enters(l) && Tells(s, run, l.c)
    ensures Tells(Apply(s, l), run + [l], l.c)
  {
    ConsumerOf(s, l, l.c);
    assert forall k: Label :: k in run + [l] <==> k in run || k == l;
  }

  lemma {:induction false} AllTells(run: seq<Label>, c: CallId)
    requires IsRun(Init(), run)
    ensures Tells(After(Init(), run), run, c)
  {
    if run != [] {
      var n := |run| - 1;
      AllTells(run[..n], c);
      TellsOneMore(After(Init(), run[..n]), run[..n], run[n], c);
      assert run[..n] + [run[n]] == run;
    }
  }

  /**
   Each outcome has its reason: the call did not get past the first check; it claimed the strategy
   and did not get it; its publisher, or its consumer, could not be built; or it polled.
   */
  lemma WhyItReturned(run: seq<Label>, c: CallId)
    requires IsRun(Init(), run) && After(Init(), run).At(c).Returned?
    ensures var why := After(Init(), run).At(c).why;
            && (why == AlreadyStarted <==> Claim(c) !in run)
            && (why == InUse <==> Claim(c) in run && TakeLogger(c) !in run)
            && (why == NoPublisher <==> Build(c, false) in run)
            && (why == NoConsumer <==> NewConsumer(c, false) in run)
            && (why == Ran <==> NewConsumer(c, true) in run)
  {
    AllTells(run, c);
  }

  /** A claim succeeds exactly when no call holds the strategy. */
  lemma WhenClaimed(run: seq<Label>, c: CallId)
    requires IsRun(Init(), run) && After(Init(), run).At(c).Started?
    ensures var s := After(Init(), run);
            Holds(Apply(s, Claim(c)).At(c)) <==> forall d: CallId :: !Holds(s.At(d))
  {
    RunKeeps(run);
    var s := After(Init(), run);
    if s.holder.Some? {
      assert CallInv(s, s.holder.value, s.calls[s.holder.value]);
      assert Holds(s.At(s.holder.value));
    }
  }
}
