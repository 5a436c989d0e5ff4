/**
 The publisher's report goroutine: settle, noteClientError, noteConnected and noteFatal
 (publish/publisher.go), resolve and resolved (publish/delivery.go).

 A Book is what that goroutine has done so far.  `T` identifies a delivery.
 */
module Settlement {
  import opened Types
  import opened KafkaErrors

  /** What a report's token turns out to be. */
  datatype Token<T> = Mine(delivery: T) | ForeignToken

  datatype Report<T> = Report(token: Token<T>, partition: int, offset: int, err: Option<KafkaError>)

  /** An event, and whether the callback it may cause panics. */
  datatype Event<T> = Delivered(report: Report<T>, panics: bool) | ClientError(err: KafkaError, panics: bool)

  /** Result and error of one delivery. */
  datatype Outcome = Outcome(partition: int, offset: int, err: Option<KafkaError>)

  /** Everything that can be observed from outside, in order. */
  datatype Note<T> =
    | Failed(delivery: T, panicked: bool)      // logged, and the delivery error callback ran
    | Done(delivery: T, outcome: Outcome)      // the done channel was closed
    | Unmatched                                // a report was dropped
    | Down                                     // broker connection lost
    | Restored(suppressed: nat)
    | FatalHandled(err: FatalError, panicked: bool)  // logged, and the fatal handler ran
    | Logged                                   // any other log line

  datatype Book<T> = Book(
    outcomes: map<T, Outcome>,
    fatal: Option<FatalError>,
    brokerDown: bool,
    suppressed: nat,
    notes: seq<Note<T>>)

  function Empty<T>(): Book<T> {
    Book(map[], None, false, 0, [])
  }

  function OutcomeOf<T>(report: Report<T>): Outcome {
    Outcome(report.partition, report.offset, report.err)
  }

  function NoteConnected<T>(b: Book<T>): Book<T> {
    if !b.brokerDown then b
    else b.(brokerDown := false, suppressed := 0, notes := b.notes + [Restored(b.suppressed)])
  }

  /** delivery.resolve: the outcome is recorded and done is closed. */
  function Resolve<T>(b: Book<T>, d: T, outcome: Outcome): Book<T> {
    b.(outcomes := b.outcomes[d := outcome], notes := b.notes + [Done(d, outcome)])
  }

  function Settle<T>(b: Book<T>, report: Report<T>, panics: bool): Book<T> {
    if report.token.ForeignToken? || report.token.delivery in b.outcomes then b.(notes := b.notes + [Unmatched])
    else
      var d := report.token.delivery;
      if report.err.None? then Resolve(NoteConnected(b), d, OutcomeOf(report))
      else Resolve(b.(notes := b.notes + [Failed(d, panics)]), d, OutcomeOf(report))
  }

  function NoteFatal<T>(b: Book<T>, err: KafkaError, panics: bool): Book<T> {
    if b.fatal.Some? then b.(notes := b.notes + [Logged])
    else b.(fatal := Some(AsFatal(err)), notes := b.notes + [FatalHandled(AsFatal(err), panics)])
  }

  function NoteClientError<T>(b: Book<T>, err: KafkaError, panics: bool): Book<T> {
    if err.fatal then NoteFatal(b, err, panics)
    else if err.disconnected then
      if b.brokerDown then b.(suppressed := b.suppressed + 1, notes := b.notes + [Logged])
      else b.(brokerDown := true, notes := b.notes + [Down])
    else b.(notes := b.notes + [Logged])
  }

  function Take<T>(b: Book<T>, event: Event<T>): Book<T> {
    match event
    case Delivered(report, panics) => Settle(b, report, panics)
    case ClientError(err, panics) => NoteClientError(b, err, panics)
  }

  /** readReports over any sequence of events. */
  function ReadAll<T>(b: Book<T>, events: seq<Event<T>>): Book<T> {
    if events == [] then b else Take(ReadAll(b, events[..|events| - 1]), events[|events| - 1])
  }

  /** What is settled stays as it is, whatever comes later. */
  lemma {:induction false} SettledStays<T>(b: Book<T>, events: seq<Event<T>>, d: T)
    requires d in b.outcomes
    ensures d in ReadAll(b, events).outcomes && ReadAll(b, events).outcomes[d] == b.outcomes[d]
  {
    if events != [] {
      SettledStays(b, events[..|events| - 1], d);
    }
  }

  lemma {:induction false} ReadOn<T>(b: Book<T>, events: seq<Event<T>>, more: seq<Event<T>>)
    ensures ReadAll(b, events + more) == ReadAll(ReadAll(b, events), more)
  {
    if more == [] {
      assert events + more == events;
    } else {
      ReadOn(b, events, more[..|more| - 1]);
      assert (events + more)[..|events + more| - 1] == events + more[..|more| - 1];
    }
  }

  // --- Each delivery keeps its first outcome

  /** The first report in a sequence of events that names a delivery. */
  function FirstReport<T(==)>(events: seq<Event<T>>, d: T): Option<Outcome> {
    if events == [] then None
    else
      var before := FirstReport(events[..|events| - 1], d);
      var last := events[|events| - 1];
      if before.Some? then before
      else if last.Delivered? && last.report.token == Mine(d) then Some(OutcomeOf(last.report))
      else None
  }

  /** Whatever duplicates and foreign tokens come, a delivery's outcome is its first report's. */
  lemma {:induction false} FirstOutcomeStands<T>(events: seq<Event<T>>, d: T)
    ensures var b := ReadAll(Empty(), events);
            (d in b.outcomes <==> FirstReport(events, d).Some?) &&
            (d in b.outcomes ==> b.outcomes[d] == FirstReport(events, d).value)
  {
    if events != [] {
      FirstOutcomeStands(events[..|events| - 1], d);
    }
  }

  predicate Names<T(==)>(event: Event<T>, d: T) {
    event.Delivered? && event.report.token == Mine(d)
  }

  lemma {:induction false} FirstIs<T>(events: seq<Event<T>>, d: T, i: nat)
    requires i < |events| && Names(events[i], d) && forall k :: 0 <= k < i ==> !Names(events[k], d)
    ensures FirstReport(events, d) == Some(OutcomeOf(events[i].report))
    ensures forall n: nat :: n <= i ==> FirstReport(events[..n], d) == None
  {
    forall n: nat | n <= i
      ensures FirstReport(events[..n], d) == None
    {
      NoneNamed(events[..n], d);
    }
    var last := |events| - 1;
    if i < last {
      FirstIs(events[..last], d, i);
    } else {
      assert events[..last] == events[..i];
    }
  }

  lemma {:induction false} NoneNamed<T>(events: seq<Event<T>>, d: T)
    requires forall k :: 0 <= k < |events| ==> !Names(events[k], d)
    ensures FirstReport(events, d) == None
  {
    if events != [] {
      NoneNamed(events[..|events| - 1], d);
    }
  }

  /** The outcome of a delivery, field by field: partition, offset and error of the first report that names it. */
  lemma OutcomeIsFirstReports<T>(events: seq<Event<T>>, d: T, i: nat)
    requires i < |events| && Names(events[i], d) && forall k :: 0 <= k < i ==> !Names(events[k], d)
    ensures var b, report := ReadAll(Empty(), events), events[i].report;
            && d in b.outcomes
            && b.outcomes[d].partition == report.partition
            && b.outcomes[d].offset == report.offset
            && b.outcomes[d].err == report.err
  {
    FirstIs(events, d, i);
    FirstOutcomeStands(events, d);
  }

  // --- What the notes add up to

  /** The connection lines of a log, read as a two-state machine. */
  datatype Connection = Up | Lost | OutOfTurn

  /** What a sequence of notes says of delivery `d`, of the connection and of fatal errors. */
  datatype Tally = Tally(closed: nat, called: nat, line: Connection, downs: nat, reported: nat, fatals: nat)

  function Add<T(==)>(t: Tally, note: Note<T>, d: T): Tally {
    match note
    case Failed(x, _) => if x == d then t.(called := t.called + 1) else t
    case Done(x, _) => if x == d then t.(closed := t.closed + 1) else t
    case Down => t.(downs := t.downs + 1, line := if t.line.Up? then Lost else OutOfTurn)
    case Restored(suppressed) =>
      t.(reported := t.reported + suppressed, line := if t.line.Lost? then Up else OutOfTurn)
    case FatalHandled(_, _) => t.(fatals := t.fatals + 1)
    case _ => t
  }

  function TallyOf<T(==)>(notes: seq<Note<T>>, d: T): Tally {
    if notes == [] then Tally(0, 0, Up, 0, 0, 0) else Add(TallyOf(notes[..|notes| - 1], d), notes[|notes| - 1], d)
  }

  lemma OneMore<T>(notes: seq<Note<T>>, note: Note<T>, d: T)
    ensures TallyOf(notes + [note], d) == Add(TallyOf(notes, d), note, d)
  {
    assert (notes + [note])[..|notes|] == notes;
  }

  /** What the book says the tally is: `disconnects` errors have said that a broker is unreachable. */
  predicate Fits<T>(b: Book<T>, t: Tally, d: T, disconnects: nat) {
    && t.closed == (if d in b.outcomes then 1 else 0)
    && t.called == (if d in b.outcomes && b.outcomes[d].err.Some? then 1 else 0)
    && t.fatals == (if b.fatal.Some? then 1 else 0)
    && t.line == (if b.brokerDown then Lost else Up)
    && disconnects == t.downs + t.reported + b.suppressed
    && (!b.brokerDown ==> b.suppressed == 0)
  }

  lemma ConnectedFits<T>(b: Book<T>, d: T, disconnects: nat)
    requires Fits(b, TallyOf(b.notes, d), d, disconnects)
    ensures var after := NoteConnected(b); Fits(after, TallyOf(after.notes, d), d, disconnects)
  {
    OneMore(b.notes, Restored(b.suppressed), d);
  }

  lemma AcknowledgedFits<T>(b: Book<T>, x: T, outcome: Outcome, d: T, disconnects: nat)
    requires Fits(b, TallyOf(b.notes, d), d, disconnects)
    requires x !in b.outcomes && outcome.err.None?
    ensures var after := Resolve(b, x, outcome); Fits(after, TallyOf(after.notes, d), d, disconnects)
  {
    OneMore(b.notes, Done(x, outcome), d);
  }

  lemma RefusedFits<T>(b: Book<T>, x: T, outcome: Outcome, panics: bool, d: T, disconnects: nat)
    requires Fits(b, TallyOf(b.notes, d), d, disconnects)
    requires x !in b.outcomes && outcome.err.Some?
    ensures var after := Resolve(b.(notes := b.notes + [Failed(x, panics)]), x, outcome);
            Fits(after, TallyOf(after.notes, d), d, disconnects)
  {
    OneMore(b.notes, Failed(x, panics), d);
    OneMore(b.notes + [Failed(x, panics)], Done(x, outcome), d);
  }

  lemma SettleFits<T>(b: Book<T>, report: Report<T>, panics: bool, d: T, disconnects: nat)
    requires Fits(b, TallyOf(b.notes, d), d, disconnects)
    ensures var after := Settle(b, report, panics); Fits(after, TallyOf(after.notes, d), d, disconnects)
  {
    if report.token.ForeignToken? || report.token.delivery in b.outcomes {
      OneMore(b.notes, Unmatched, d);
    } else if report.err.None? {
      ConnectedFits(b, d, disconnects);
      AcknowledgedFits(NoteConnected(b), report.token.delivery, OutcomeOf(report), d, disconnects);
    } else {
      RefusedFits(b, report.token.delivery, OutcomeOf(report), panics, d, disconnects);
    }
  }

  predicate Disconnect(err: KafkaError) {
    err.disconnected && !err.fatal
  }

  lemma ClientErrorFits<T>(b: Book<T>, err: KafkaError, panics: bool, d: T, disconnects: nat)
    requires Fits(b, TallyOf(b.notes, d), d, disconnects)
    ensures var after := NoteClientError(b, err, panics);
            Fits(after, TallyOf(after.notes, d), d, disconnects + if Disconnect(err) then 1 else 0)
  {
    var note := if err.fatal && b.fatal.None? then FatalHandled(AsFatal(err), panics)
                else if Disconnect(err) && !b.brokerDown then Down
                else Logged;
    OneMore(b.notes, note, d);
  }

  /** How many errors say that a broker is unreachable and are not fatal. */
  function Disconnects<T>(events: seq<Event<T>>): nat {
    if events == [] then 0
    else
      var last := events[|events| - 1];
      Disconnects(events[..|events| - 1]) + if last.ClientError? && Disconnect(last.err) then 1 else 0
  }

  lemma {:induction false} AllFits<T>(events: seq<Event<T>>, d: T)
    ensures var b := ReadAll(Empty(), events); Fits(b, TallyOf(b.notes, d), d, Disconnects(events))
  {
    if events != [] {
      AllFits(events[..|events| - 1], d);
      var b, disconnects := ReadAll(Empty(), events[..|events| - 1]), Disconnects(events[..|events| - 1]);
      match events[|events| - 1]
      case Delivered(report, panics) => SettleFits(b, report, panics, d, disconnects);
      case ClientError(err, panics) => ClientErrorFits(b, err, panics, d, disconnects);
    }
  }

  /**
   Exactly-once settlement, over every sequence of events: the channel of a delivery is closed once
   if some report named it and never otherwise, the error callback runs once if the first such
   report was a failure and never otherwise, and the fatal handler runs once if there was a fatal error.
   */
  lemma SettledExactlyOnce<T>(events: seq<Event<T>>, d: T)
    ensures var t := TallyOf(ReadAll(Empty(), events).notes, d);
            var first := FirstReport(events, d);
            && t.closed == (if first.Some? then 1 else 0)
            && t.called == (if first.Some? && first.value.err.Some? then 1 else 0)
            && t.fatals == (if FirstFatal(events).Some? then 1 else 0)
  {
    AllFits(events, d);
    FirstOutcomeStands(events, d);
    FirstFatalLatches(events);
  }

  /**
   Outages: down and restored lines alternate, beginning with a down line, and nothing is swallowed:
   each error that says a broker is unreachable is a down line, is in a suppressed count already
   reported, or is counted still.
   */
  lemma OutageAccounting<T>(events: seq<Event<T>>, d: T)
    ensures var b := ReadAll(Empty(), events);
            var t := TallyOf(b.notes, d);
            && t.line == (if b.brokerDown then Lost else Up)
            && Disconnects(events) == t.downs + t.reported + b.suppressed
  {
    AllFits(events, d);
  }

  // --- In the right order

  /** Every failed delivery's callback ran before its channel was closed, panic or not. */
  ghost predicate CallbackFirst<T>(notes: seq<Note<T>>) {
    forall i :: 0 <= i < |notes| && notes[i].Done? && notes[i].outcome.err.Some? ==>
      exists j :: 0 <= j < i && notes[j].Failed? && notes[j].delivery == notes[i].delivery
  }

  lemma CallbackFirstKeeps<T>(notes: seq<Note<T>>, note: Note<T>)
    requires CallbackFirst(notes)
    requires note.Done? && note.outcome.err.Some? ==>
               exists j :: 0 <= j < |notes| && notes[j].Failed? && notes[j].delivery == note.delivery
    ensures CallbackFirst(notes + [note])
  {
    var all := notes + [note];
    forall i | 0 <= i < |all| && all[i].Done? && all[i].outcome.err.Some?
      ensures exists j :: 0 <= j < i && all[j].Failed? && all[j].delivery == all[i].delivery
    {
      var j :| 0 <= j < |notes| && j < i && notes[j].Failed? && notes[j].delivery == all[i].delivery;
      assert all[j] == notes[j];
    }
  }

  lemma SettleCallsFirst<T>(b: Book<T>, report: Report<T>, panics: bool)
    requires CallbackFirst(b.notes)
    ensures CallbackFirst(Settle(b, report, panics).notes)
  {
    if report.token.ForeignToken? || report.token.delivery in b.outcomes {
      CallbackFirstKeeps(b.notes, Unmatched);
    } else {
      var x := report.token.delivery;
      CallbackFirstKeeps(b.notes, Failed(x, panics));
      CallbackFirstKeeps(b.notes, Restored(b.suppressed));
      var before := if report.err.None? then NoteConnected(b) else b.(notes := b.notes + [Failed(x, panics)]);
      assert report.err.Some? ==> before.notes[|b.notes|] == Failed(x, panics);
      CallbackFirstKeeps(before.notes, Done(x, OutcomeOf(report)));
    }
  }

  lemma {:induction false} CallbackBeforeDone<T>(events: seq<Event<T>>)
    ensures CallbackFirst(ReadAll(Empty(), events).notes)
  {
    if events != [] {
      var b := ReadAll(Empty(), events[..|events| - 1]);
      CallbackBeforeDone(events[..|events| - 1]);
      match events[|events| - 1]
      case Delivered(report, panics) => SettleCallsFirst(b, report, panics);
      case ClientError(err, panics) =>
        CallbackFirstKeeps(b.notes, FatalHandled(AsFatal(err), panics));
        CallbackFirstKeeps(b.notes, Down);
        CallbackFirstKeeps(b.notes, Logged);
    }
  }

  // --- Fatal errors

  /** The first fatal error among the events. */
  function FirstFatal<T>(events: seq<Event<T>>): Option<KafkaError> {
    if events == [] then None
    else
      var before := FirstFatal(events[..|events| - 1]);
      var last := events[|events| - 1];
      if before.Some? then before
      else if last.ClientError? && last.err.fatal then Some(last.err)
      else None
  }

  /** The first fatal error latches, and always has ErrFatal in its chain. */
  lemma {:induction false} FirstFatalLatches<T>(events: seq<Event<T>>)
    ensures var b := ReadAll(Empty(), events);
            && (b.fatal.Some? <==> FirstFatal(events).Some?)
            && (b.fatal.Some? ==> b.fatal.value.cause == FirstFatal(events).value && IsErrFatal(b.fatal.value))
            && (b.fatal.Some? ==> b.fatal.value.wrapped || FirstFatal(events).value.sentinel == ErrFatal)
  {
    if events != [] {
      FirstFatalLatches(events[..|events| - 1]);
    }
  }

  // --- When the broker counts as down

  predicate SaysDown<T(==)>(event: Event<T>) {
    event.ClientError? && event.err.disconnected && !event.err.fatal
  }

  /** A report that acknowledges a delivery no event before it has named. */
  predicate Acknowledges<T(==)>(before: seq<Event<T>>, event: Event<T>) {
    && event.Delivered? && event.report.token.Mine? && event.report.err.None?
    && FirstReport(before, event.report.token.delivery).None?
  }

  /** The i-th event says that a broker is unreachable, and nothing was acknowledged since. */
  ghost predicate DownAt<T>(events: seq<Event<T>>, i: nat) {
    && i < |events| && SaysDown(events[i])
    && forall k :: i < k < |events| ==> !Acknowledges(events[..k], events[k])
  }

  lemma DownOneMore<T>(events: seq<Event<T>>, i: nat)
    requires events != []
    ensures var n := |events| - 1;
            DownAt(events, i) <==>
            if i < n then DownAt(events[..n], i) && !Acknowledges(events[..n], events[n]) else i == n && SaysDown(events[n])
  {
    var n := |events| - 1;
    assert forall k :: 0 <= k < n ==> events[..n][..k] == events[..k] && events[..n][k] == events[k];
  }

  /**
   The broker counts as down exactly if some non-fatal error said so and no delivery was acknowledged
   since; a failed delivery, a duplicate or a foreign report restores nothing.
   */
  lemma {:induction false} DownSince<T>(events: seq<Event<T>>)
    ensures ReadAll(Empty(), events).brokerDown <==> exists i: nat :: DownAt(events, i)
  {
    if events != [] {
      var n := |events| - 1;
      var front, last := events[..n], events[n];
      DownSince(front);
      forall i: nat
        ensures DownAt(events, i) <==>
                if i < n then DownAt(front, i) && !Acknowledges(front, last) else i == n && SaysDown(last)
      {
        DownOneMore(events, i);
      }
      if last.Delivered? && last.report.token.Mine? {
        FirstOutcomeStands(front, last.report.token.delivery);
      }
      DownOnce(events);
    }
  }

  lemma DownOnce<T>(events: seq<Event<T>>)
    requires events != []
    requires var n := |events| - 1;
             forall i: nat :: DownAt(events, i) <==>
               if i < n then DownAt(events[..n], i) && !Acknowledges(events[..n], events[n]) else i == n && SaysDown(events[n])
    ensures var n := |events| - 1;
            (exists i: nat :: DownAt(events, i)) <==>
            SaysDown(events[n]) || (!Acknowledges(events[..n], events[n]) && exists i: nat :: DownAt(events[..n], i))
  {
    var n := |events| - 1;
    if i: nat :| DownAt(events[..n], i) {
      assert i < n;
      assert DownAt(events, i) <==> !Acknowledges(events[..n], events[n]);
    }
    assert DownAt(events, n) <==> SaysDown(events[n]);
  }
}
