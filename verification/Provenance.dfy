/** Whatever the batcher queues, sends, tracks or reports was asked of it: nothing comes from nowhere. */
module Provenance {
  import opened BatchTypes
  import opened Ledger
  import opened WaitLine
  import opened Batcher

  predicate FromItems(items: seq<Item>, ok: set<Tag>) {
    forall item :: item in items ==> (item.op, item.kind) in ok
  }

  predicate FromEvent(e: Event, ok: set<Tag>) {
    (e.op, e.kind) in ok
  }

  predicate FromEvents(log: seq<Event>, ok: set<Tag>) {
    forall e :: e in log ==> FromEvent(e, ok)
  }

  predicate FromLine(line: Line, ok: set<Tag>) {
    && FromItems(line.accepted, ok) && FromItems(Unresolved(line), ok)
    && forall ch :: ch in line.place && line.place[ch].AtCaller? ==> (line.place[ch].item.op, line.place[ch].item.kind) in ok
  }

  predicate FromBook(book: Book, ok: set<Tag>) {
    forall id :: id in book.inProgress ==> FromItems(book.inProgress[id].items, ok)
  }

  /** Every operation the batcher holds or remembers, with its kind, is one of these. */
  predicate Asked(s: Sys, ok: set<Tag>) {
    FromLine(s.line, ok) && FromBook(s.book, ok) && FromEvents(s.log, ok)
  }

  /** What a step asks for itself. */
  predicate AsksFor(step: Step, ok: set<Tag>) {
    match step
    case CallIn(item) => (item.op, item.kind) in ok
    case ResumeBatch(_, ops) => FromItems(ResumeItems(ops), ok)
    case _ => true
  }

  lemma {:induction false} AskedOfMore(s: Sys, ok: set<Tag>, more: set<Tag>)
    requires Asked(s, ok) && ok <= more
    ensures Asked(s, more)
  {
  }

  lemma {:induction false} EntriesFrom(items: seq<Item>, id: string, ok: set<Tag>)
    requires FromItems(items, ok)
    ensures FromEvents(Entries(items, id), ok)
  {
    if items != [] {
      assert items[0] in items;
      EntriesFrom(items[1..], id, ok);
    }
  }

  lemma {:induction false} ExpiriesFrom(items: seq<Item>, kind: Kind, ok: set<Tag>)
    requires FromItems(items, ok) && OfKind(items, kind)
    ensures FromEvents(Expiries(items, kind), ok)
  {
    if items != [] {
      assert items[0] in items && items[0].kind == kind;
      ExpiriesFrom(items[1..], kind, ok);
    }
  }

  lemma {:induction false} OutcomesFrom(items: seq<Item>, kind: Kind, results: seq<NodeResult>, now: int, ok: set<Tag>)
    requires FromItems(items, ok) && OfKind(items, kind)
    ensures FromEvents(Outcomes(items, kind, results, now), ok)
  {
    if items != [] {
      assert items[0] in items && items[0].kind == kind;
      OutcomesFrom(items[1..], kind, results, now, ok);
    }
  }

  lemma {:induction false} LineStepKeepsAsked(s: Sys, step: Step, ok: set<Tag>)
    requires FromLine(s.line, ok) && SenderSound(s.line) && Enabled(s, step) && AsksFor(step, ok)
    ensures FromLine(Next(s, step).line, ok)
  {
    var line, after := s.line, Next(s, step).line;
    match step
    case JoinIn(ch) => JoinKeepsFrom(line, ch, ok);
    case TakeOne => assert forall item :: item in Unresolved(after) ==> item in Unresolved(line);
    case CloseBatch =>
      PartIsFilter(line.sender.batch, Add);
      PartIsFilter(line.sender.batch, Remove);
      assert forall item :: item in Unresolved(after) ==> item in Unresolved(line);
    case ResolveOne => ResolveKeepsFrom(line, ok);
    case AdvancePart => assert forall item :: item in Unresolved(after) ==> item in Unresolved(line);
    case DeliverOne => assert Unresolved(after) == Unresolved(line);
    case SendFails(_) => assert Unresolved(after) == Unresolved(line);
    case SendAcks(_) => assert Unresolved(after) == Unresolved(line);
    case _ =>
  }

  lemma {:induction false} JoinKeepsFrom(line: Line, ch: Chan, ok: set<Tag>)
    requires FromLine(line, ok) && CanJoin(line, ch)
    ensures FromLine(Join(line, ch), ok)
  {
    var after, item := Join(line, ch), line.place[ch].item;
    assert forall i :: i in Unresolved(after) ==> i in Unresolved(line) || i == item;
    assert forall i :: i in after.accepted ==> i in line.accepted || i == item;
  }

  lemma {:induction false} ResolveKeepsFrom(line: Line, ok: set<Tag>)
    requires FromLine(line, ok) && CanResolve(line)
    ensures FromLine(WaitLine.Resolve(line), ok)
  {
    var after := WaitLine.Resolve(line);
    assert forall item :: item in Unresolved(after) ==> item in Unresolved(line);
  }

  lemma {:induction false} BookStepKeepsAsked(s: Sys, step: Step, ok: set<Tag>)
    requires Asked(s, ok) && Sound(s.book) && Enabled(s, step) && AsksFor(step, ok)
    ensures FromBook(Next(s, step).book, ok) && FromEvents(Next(s, step).log, ok)
  {
    match step
    case SendAcks(id) =>
      var part := s.line.sender.part;
      assert forall item :: item in part ==> item in Unresolved(s.line);
      EntriesFrom(part, id, ok);
    case ResumeBatch(rawId, ops) => EntriesFrom(ResumeItems(ops), Trim(rawId), ok);
    case PollAnswers(results) => ReplyKeepsFrom(s, results, ok);
    case LookAt =>
      var id := s.poller.todo[0];
      if FirstLook(s.book, id, s.now) == Expire {
        assert WellFormed(s.book.inProgress[id]);
        ExpiriesFrom(s.book.inProgress[id].items, s.book.inProgress[id].kind, ok);
      }
    case _ =>
  }

  lemma {:induction false} ReplyKeepsFrom(s: Sys, results: seq<NodeResult>, ok: set<Tag>)
    requires Asked(s, ok) && Sound(s.book) && Enabled(s, PollAnswers(results))
    ensures FromBook(Answered(s, results).book, ok) && FromEvents(Answered(s, results).log, ok)
  {
    var id := s.poller.asked.value;
    if id in s.book.inProgress {
      var batch := s.book.inProgress[id];
      assert WellFormed(batch);
      ExpiriesFrom(batch.items, batch.kind, ok);
      OutcomesFrom(batch.items, batch.kind, results, s.now, ok);
      KeepIsFilter(batch.items, results);
    }
  }

  lemma {:induction false} StepKeepsAsked(s: Sys, step: Step, ok: set<Tag>)
    requires Asked(s, ok) && Sound(s.book) && SenderSound(s.line) && Enabled(s, step) && AsksFor(step, ok)
    ensures Asked(Next(s, step), ok)
  {
    hide FromLine, FromBook, FromEvents, Sound, SenderSound, Next;
    LineStepKeepsAsked(s, step, ok);
    BookStepKeepsAsked(s, step, ok);
  }

  /** What the failure handler is told of was asked for too. */
  lemma {:induction false} ReportsAreAsked(log: seq<Event>, ok: set<Tag>, report: Report)
    requires FromEvents(log, ok) && report in Reports(log)
    ensures (report.op, report.kind) in ok
  {
    if log[0].Faulted? && report == Report(log[0].op, log[0].kind, log[0].detail) {
      assert FromEvent(log[0], ok);
    } else {
      ReportsAreAsked(log[1..], ok, report);
    }
  }
}
