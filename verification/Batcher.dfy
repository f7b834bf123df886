/**
  The batcher as a whole: callers, one sender, one poller and the clock, in any
  interleaving. The broker is the environment: it may answer a send with any
  unused batch ID or an error, and a poll with any list of results or an error.
 */
module Batcher {
  import opened BatchTypes
  import opened Ledger
  import opened WaitLine

  /** The poller's local variables; `lastStart` is when its last finished pass began. */
  datatype Poller = Poller(
    passing: bool,
    todo: seq<string>,
    asked: Option<string>,
    owed: seq<Report>,
    passStart: int,
    lastStart: int)

  datatype Sys = Sys(
    now: int,
    book: Book,
    line: Line,
    poller: Poller,
    log: seq<Event>,
    told: seq<Report>)

  /** A freshly started process. */
  function Init(now: int): Sys {
    Sys(now, EMPTY_BOOK, EMPTY_LINE, Poller(false, [], None, [], now, now), [], [])
  }

  datatype Step =
    | Tick(passed: nat)
    | CallIn(item: Item)
    | JoinIn(ch: Chan)
    | TakeOne
    | CloseBatch
    | SendFails(cause: string)
    | SendAcks(batchId: string)
    | ResolveOne
    | DeliverOne
    | AdvancePart
    | BeginPass(ids: seq<string>)
    | LookAt
    | PollFails
    | PollAnswers(results: seq<NodeResult>)
    | ReportOne
    | EndPass
    | ResumeBatch(rawId: string, ops: seq<string>)

  predicate Enabled(s: Sys, step: Step) {
    match step
    case Tick(_) => true
    case CallIn(_) => true
    case JoinIn(ch) => CanJoin(s.line, ch)
    case TakeOne => CanTake(s.line)
    case CloseBatch => CanClose(s.line)
    case SendFails(_) => s.line.sender.Sending? && s.line.sender.part != []
    case SendAcks(id) => s.line.sender.Sending? && s.line.sender.part != [] && id !in s.book.inProgress
    case ResolveOne => CanResolve(s.line)
    case DeliverOne => CanDeliver(s.line)
    case AdvancePart => CanAdvance(s.line)
    case BeginPass(ids) => !s.poller.passing && (set id | id in ids) == s.book.inProgress.Keys
    case LookAt => s.poller.passing && s.poller.asked.None? && s.poller.owed == [] && s.poller.todo != []
    case PollFails => s.poller.asked.Some?
    case PollAnswers(_) => s.poller.asked.Some? && s.poller.owed == []
    case ReportOne => s.poller.owed != []
    case EndPass => s.poller.passing && s.poller.asked.None? && s.poller.owed == [] && s.poller.todo == []
    case ResumeBatch(_, _) => true
  }

  /** The batch a caller is told when its operation is already in flight. */
  function Known(book: Book, op: string): Option<string> {
    if op in book.inFlight then Some(if op in book.opBatch then book.opBatch[op] else "") else None
  }

  /** The failure-handler calls a stretch of history asks for. */
  function Reports(events: seq<Event>): seq<Report> {
    if events == [] then []
    else (if events[0].Faulted? then [Report(events[0].op, events[0].kind, events[0].detail)] else []) + Reports(events[1..])
  }

  function Looked(s: Sys): Sys
    requires Enabled(s, LookAt)
  {
    var id := s.poller.todo[0];
    var poller := s.poller.(todo := s.poller.todo[1..]);
    match FirstLook(s.book, id, s.now)
    case Skip => s.(poller := poller)
    case Ask => s.(poller := poller.(asked := Some(id)))
    case Expire =>
      var batch := s.book.inProgress[id];
      var events := Expiries(batch.items, batch.kind);
      s.(book := Forget(s.book, id), log := s.log + events, poller := poller.(owed := Reports(events)))
  }

  function Answered(s: Sys, results: seq<NodeResult>): Sys
    requires Enabled(s, PollAnswers(results))
  {
    var id := s.poller.asked.value;
    var events := ReplyEvents(s.book, id, results, s.now);
    s.(book := ApplyReply(s.book, id, results, s.now),
       log := s.log + events,
       poller := s.poller.(asked := None, owed := Reports(events)))
  }

  function Sent(s: Sys, id: string): Sys
    requires Enabled(s, SendAcks(id))
  {
    var part := s.line.sender.part;
    s.(book := Register(s.book, part[0].kind, id, part, s.now),
       log := s.log + Entries(part, id),
       line := SendDone(s.line, Acked(id)))
  }

  function Resumed(s: Sys, rawId: string, ops: seq<string>): Sys {
    s.(book := Resume(s.book, rawId, ops, s.now),
       log := if Resumable(s.book, rawId, ops) then s.log + Entries(ResumeItems(ops), Trim(rawId)) else s.log)
  }

  function Next(s: Sys, step: Step): Sys
    requires Enabled(s, step)
  {
    match step
    case Tick(passed) => s.(now := s.now + passed)
    case CallIn(item) => s.(line := Call(s.line, item, Known(s.book, item.op)))
    case JoinIn(ch) => s.(line := Join(s.line, ch))
    case TakeOne => s.(line := Take(s.line))
    case CloseBatch => s.(line := Close(s.line))
    case SendFails(cause) => s.(line := SendDone(s.line, Refused(SendFailed(s.line.sender.part[0].kind, cause))))
    case SendAcks(id) => Sent(s, id)
    case ResolveOne => s.(line := WaitLine.Resolve(s.line))
    case DeliverOne => s.(line := Deliver(s.line))
    case AdvancePart => s.(line := Advance(s.line))
    case BeginPass(ids) => s.(poller := s.poller.(passing := true, todo := ids, asked := None, passStart := s.now))
    case LookAt => Looked(s)
    case PollFails => s.(poller := s.poller.(asked := None))
    case PollAnswers(results) => Answered(s, results)
    case ReportOne => s.(told := s.told + [s.poller.owed[0]], poller := s.poller.(owed := s.poller.owed[1..]))
    case EndPass => s.(poller := s.poller.(passing := false, lastStart := s.poller.passStart))
    case ResumeBatch(rawId, ops) => Resumed(s, rawId, ops)
  }

  predicate Legal(s: Sys, steps: seq<Step>)
    decreases |steps|
  {
    steps == [] || (Enabled(s, steps[0]) && Legal(Next(s, steps[0]), steps[1..]))
  }

  function Run(s: Sys, steps: seq<Step>): Sys
    requires Legal(s, steps)
    decreases |steps|
  {
    if steps == [] then s else Run(Next(s, steps[0]), steps[1..])
  }

  // ---------- the line ----------

  /** Every part in the sender's hands is non-empty where it must be, and of one kind. */
  predicate SenderSound(line: Line) {
    match line.sender
    case Collecting(_) => true
    case Sending(part, later) => part != [] && OfKind(part, part[0].kind) && OfKind(later, Remove)
    case Resolving(_, _, later) => OfKind(later, Remove)
  }

  ghost predicate LineInv(line: Line) {
    KeysMatch(line) && ChannelsSound(line) && InOrder(line) && Slotted(line) && SenderSound(line)
  }

  lemma {:induction false} CloseIsSound(line: Line)
    requires CanClose(line)
    ensures SenderSound(Close(line))
  {
    var batch := line.sender.batch;
    PartIsFilter(batch, Add);
    PartIsFilter(batch, Remove);
    assert batch[0] in batch;
    assert batch[0] in Part(batch, Add) || batch[0] in Part(batch, Remove);
  }

  lemma {:induction false} SameChannels(line: Line, after: Line)
    requires ChannelsSound(line)
    requires after.place == line.place && after.writes == line.writes && after.next == line.next
    requires after.pending == line.pending && after.draining == line.draining
    requires after.draining != [] ==> after.sender.Resolving?
    ensures ChannelsSound(after)
  {
  }

  lemma {:induction false} SameHistory(line: Line, after: Line)
    requires after.place == line.place && after.writes == line.writes && after.slot == line.slot
    requires line.closed <= after.closed
    ensures Later(line, after)
  {
  }

  lemma {:induction false} CallIsLater(line: Line, item: Item, known: Option<string>)
    requires WrittenOnce(line)
    ensures Later(line, Call(line, item, known))
  {
    assert line.next !in line.place;
  }

  lemma {:induction false} CallKeepsLine(line: Line, item: Item, known: Option<string>)
    requires LineInv(line)
    ensures LineInv(Call(line, item, known))
  {
    var after := Call(line, item, known);
    assert line.next !in line.place;
    assert ChannelsSound(after) by { CallKeepsChannels(line, item, known); }
    assert KeysMatch(after) by { assert Unresolved(after) == Unresolved(line); }
    assert Slotted(after) by {
      assert RoundStart(after) == RoundStart(line);
      assert forall c :: c in after.place && after.place[c].Waiting? ==> c in line.place && line.place[c] == after.place[c];
    }
  }

  lemma {:induction false} JoinIsLater(line: Line, ch: Chan)
    requires WrittenOnce(line) && CanJoin(line, ch)
    ensures Later(line, Join(line, ch))
  {
    assert line.writes[ch] == [];
  }

  lemma {:induction false} JoinKeepsLine(line: Line, ch: Chan)
    requires LineInv(line) && CanJoin(line, ch)
    ensures LineInv(Join(line, ch))
  {
    var after := Join(line, ch);
    assert KeysMatch(after) by { JoinKeepsKeys(line, ch); }
    assert ChannelsSound(after) by { JoinKeepsChannels(line, ch); }
    assert InOrder(after) by { JoinKeepsOrder(line, ch); }
    assert Slotted(after) by { JoinKeepsSlots(line, ch); }
  }

  lemma {:induction false} TakeKeepsLine(line: Line)
    requires LineInv(line) && CanTake(line)
    ensures LineInv(Take(line)) && Later(line, Take(line))
  {
    var after := Take(line);
    assert KeysMatch(after) by { TakeKeepsKeys(line); }
    assert ChannelsSound(after) by { SameChannels(line, after); }
    assert InOrder(after) by { TakeKeepsOrder(line); }
    assert Slotted(after) by { TakeKeepsSlots(line); }
    SameHistory(line, after);
  }

  lemma {:induction false} CloseKeepsLine(line: Line)
    requires LineInv(line) && CanClose(line)
    ensures LineInv(Close(line)) && Later(line, Close(line))
  {
    var after := Close(line);
    assert KeysMatch(after) by { CloseKeepsKeys(line); }
    assert ChannelsSound(after) by { SameChannels(line, after); }
    assert InOrder(after) by { CloseKeepsOrder(line); }
    assert Slotted(after) by { CloseKeepsSlots(line); }
    assert SenderSound(after) by { CloseIsSound(line); }
    SameHistory(line, after);
  }

  lemma {:induction false} SendDoneKeepsLine(line: Line, result: Result)
    requires LineInv(line) && line.sender.Sending?
    ensures LineInv(SendDone(line, result)) && Later(line, SendDone(line, result))
  {
    var after := SendDone(line, result);
    assert KeysMatch(after) by { assert Unresolved(after) == Unresolved(line); }
    assert ChannelsSound(after) by { SameChannels(line, after); }
    assert Slotted(after) by { SendDoneKeepsSlots(line, result); }
    SameHistory(line, after);
  }

  lemma {:induction false} ResolveKeepsLine(line: Line)
    requires LineInv(line) && CanResolve(line)
    ensures LineInv(WaitLine.Resolve(line)) && Later(line, WaitLine.Resolve(line))
  {
    var after := WaitLine.Resolve(line);
    assert KeysMatch(after) by { ResolveKeepsKeys(line); }
    assert ChannelsSound(after) by { ResolveKeepsChannels(line); }
    assert Slotted(after) by { ResolveKeepsSlots(line); }
    ResolveIsLater(line);
  }

  lemma {:induction false} ResolveIsLater(line: Line)
    requires ChannelsSound(line) && CanResolve(line)
    ensures Later(line, WaitLine.Resolve(line))
  {
    var op := line.sender.todo[0].op;
    assert forall c :: c in Waiters(line, op) ==> c in line.place && line.place[c] == Waiting(op);
  }

  lemma {:induction false} DeliverIsLater(line: Line)
    requires ChannelsSound(line) && CanDeliver(line)
    ensures Later(line, Deliver(line))
  {
    var ch := line.draining[0];
    assert ch in line.draining;
    assert line.writes[ch] == [];
  }

  lemma {:induction false} DeliverKeepsLine(line: Line)
    requires LineInv(line) && CanDeliver(line)
    ensures LineInv(Deliver(line))
  {
    var after := Deliver(line);
    assert ChannelsSound(after) by { DeliverKeepsChannels(line); }
    assert KeysMatch(after) by { assert Unresolved(after) == Unresolved(line); }
    assert Slotted(after) by {
      assert RoundStart(after) == RoundStart(line);
      assert forall c :: c in after.place && after.place[c].Waiting? ==> c in line.place && line.place[c] == after.place[c];
    }
  }

  lemma {:induction false} AdvanceKeepsLine(line: Line)
    requires LineInv(line) && CanAdvance(line)
    ensures LineInv(Advance(line)) && Later(line, Advance(line))
  {
    var after := Advance(line);
    assert KeysMatch(after) by { AdvanceKeepsKeys(line); }
    assert ChannelsSound(after) by { SameChannels(line, after); }
    assert InOrder(after) by { AdvanceKeepsOrder(line); }
    assert Slotted(after) by { AdvanceKeepsSlots(line); }
    SameHistory(line, after);
  }

  lemma {:induction false} StepKeepsLine(s: Sys, step: Step)
    requires LineInv(s.line) && Enabled(s, step)
    ensures LineInv(Next(s, step).line) && Later(s.line, Next(s, step).line)
  {
    match step
    case CallIn(item) => CallKeepsLine(s.line, item, Known(s.book, item.op)); CallIsLater(s.line, item, Known(s.book, item.op));
    case JoinIn(ch) => JoinKeepsLine(s.line, ch); JoinIsLater(s.line, ch);
    case TakeOne => TakeKeepsLine(s.line);
    case CloseBatch => CloseKeepsLine(s.line);
    case SendFails(cause) => SendDoneKeepsLine(s.line, Refused(SendFailed(s.line.sender.part[0].kind, cause)));
    case SendAcks(id) => SendDoneKeepsLine(s.line, Acked(id));
    case ResolveOne => ResolveKeepsLine(s.line);
    case DeliverOne => DeliverKeepsLine(s.line); DeliverIsLater(s.line);
    case AdvancePart => AdvanceKeepsLine(s.line);
    case _ => SameHistory(s.line, s.line);
  }
}
