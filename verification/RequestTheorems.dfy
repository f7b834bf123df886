/**
  What becomes of a request, said of the queue, the waiters and the channels: when it
  is answered at once, joined, queued or refused, and what its caller hears of the send.
 */
module RequestTheorems {
  import opened BatchTypes
  import opened Ledger
  import opened WaitLine
  import opened Batcher
  import opened BatcherRuns
  import opened BatcherTheorems

  /** Nothing but the new channel is touched. */
  predicate OnlyWrites(line: Line, after: Line, ch: Chan) {
    && after.queue == line.queue && after.pending == line.pending && after.sender == line.sender
    && forall c :: c in line.writes && c != ch ==> c in after.writes && after.writes[c] == line.writes[c]
  }

  /** The first section: a call is answered at once if and only if its operation is in flight, with the batch it is in. */
  lemma {:induction false} CallDecides(start: int, steps: seq<Step>, item: Item)
    requires Legal(Init(start), steps)
    ensures var s := Run(Init(start), steps);
            var ch, after := s.line.next, Next(s, CallIn(item));
            && ch !in s.line.writes && ch in after.line.writes && ch in after.line.place
            && OnlyWrites(s.line, after.line, ch) && after.book == s.book
            && (item.op in s.book.inFlight ==>
                  item.op in s.book.opBatch && after.line.writes[ch] == [Acked(s.book.opBatch[item.op])] && after.line.place[ch] == Written(item.op))
            && (item.op !in s.book.inFlight ==> after.line.writes[ch] == [] && after.line.place[ch] == AtCaller(item))
  {
    var s := Run(Init(start), steps);
    FromStart(start, steps);
    if item.op in s.book.inFlight { assert Indexed(s.book, item.op); }
    assert WrittenOnce(s.line);
  }

  /** The request waits with those already waiting for its operation. */
  predicate Joined(line: Line, after: Line, ch: Chan, op: string) {
    && op in line.pending && after.pending == line.pending[op := line.pending[op] + [ch]] && after.queue == line.queue
    && ch in after.place && after.place[ch] == Waiting(op) && after.writes == line.writes
  }

  /** The request is queued last, and its channel is the one waiter. */
  predicate Queued(line: Line, after: Line, ch: Chan, item: Item) {
    && after.pending == line.pending[item.op := [ch]] && after.queue == line.queue + [item]
    && ch in after.place && after.place[ch] == Waiting(item.op) && after.writes == line.writes
  }

  /** The request is refused, and has left no trace in the queue or among the waiters. */
  predicate TurnedAway(line: Line, after: Line, ch: Chan) {
    && after.pending == line.pending && after.queue == line.queue
    && ch in after.writes && after.writes[ch] == [Refused(QueueFull)]
    && forall c :: c in line.writes && c != ch ==> c in after.writes && after.writes[c] == line.writes[c]
  }

  /**
    The second section, over every run: a request joins if and only if its operation is
    waited for; of the others it is refused if and only if 256 items are queued.
   */
  lemma {:induction false} JoinDecides(start: int, steps: seq<Step>, ch: Chan)
    requires Legal(Init(start), steps) && Enabled(Run(Init(start), steps), JoinIn(ch))
    ensures var s := Run(Init(start), steps);
            var item, after := s.line.place[ch].item, Next(s, JoinIn(ch));
            && after.book == s.book && after.line.sender == s.line.sender
            && (item.op in s.line.pending ==> Joined(s.line, after.line, ch, item.op))
            && (item.op !in s.line.pending && |s.line.queue| < 256 ==> Queued(s.line, after.line, ch, item))
            && (item.op !in s.line.pending && |s.line.queue| >= 256 ==> TurnedAway(s.line, after.line, ch))
            && (after.line.writes[ch] == [Refused(QueueFull)] <==> item.op !in s.line.pending && |s.line.queue| == 256)
  {
    var s := Run(Init(start), steps);
    FromStart(start, steps);
    RequestsKeepTheirOrder(start, steps);
    hide Run, Legal;
    assert WrittenOnce(s.line);
    assert s.line.writes[ch] == [];
    hide Inv;
    JoinsByCase(s.line, ch);
  }

  lemma {:induction false} JoinsByCase(line: Line, ch: Chan)
    requires CanJoin(line, ch) && line.writes[ch] == []
    ensures var item, after := line.place[ch].item, Join(line, ch);
            && after.sender == line.sender && ch in after.writes
            && (item.op in line.pending ==> Joined(line, after, ch, item.op))
            && (item.op !in line.pending && |line.queue| < 256 ==> Queued(line, after, ch, item))
            && (item.op !in line.pending && |line.queue| >= 256 ==> TurnedAway(line, after, ch))
  {
  }

  // ---------- what the callers of a send hear ----------

  /** The channel is owed this result by the send just made, or has it. */
  predicate Owed(line: Line, ch: Chan, result: Result) {
    && ch in line.place && ch in line.writes
    && match line.place[ch]
       case AtCaller(_) => false
       case Waiting(op) => line.sender.Resolving? && line.sender.result == result && op in Ops(line.sender.todo)
       case Draining(_) => line.sender.Resolving? && line.sender.result == result
       case Written(_) => line.writes[ch] == [result]
  }

  lemma {:induction false} ResolveKeepsOwed(line: Line, ch: Chan, result: Result)
    requires ChannelsSound(line) && CanResolve(line) && Owed(line, ch, result)
    ensures Owed(WaitLine.Resolve(line), ch, result)
  {
    OpsOfHead(line.sender.todo);
    var op := line.sender.todo[0].op;
    assert forall c :: c in Waiters(line, op) ==> c in line.place && line.place[c] == Waiting(op);
    if line.place[ch] == Waiting(op) { assert ch in Waiters(line, op); }
  }

  lemma {:induction false} DeliverKeepsOwed(line: Line, ch: Chan, result: Result)
    requires ChannelsSound(line) && CanDeliver(line) && Owed(line, ch, result)
    ensures Owed(Deliver(line), ch, result)
  {
    assert line.draining[0] in line.draining;
  }

  lemma {:induction false} AdvanceKeepsOwed(line: Line, ch: Chan, result: Result)
    requires ChannelsSound(line) && CanAdvance(line) && Owed(line, ch, result)
    ensures Owed(Advance(line), ch, result)
  {
  }

  lemma {:induction false} JoinKeepsOwed(line: Line, other: Chan, ch: Chan, result: Result)
    requires ChannelsSound(line) && CanJoin(line, other) && Owed(line, ch, result)
    ensures Owed(Join(line, other), ch, result)
  {
  }

  lemma {:induction false} StepKeepsOwed(s: Sys, step: Step, ch: Chan, result: Result)
    requires Inv(s) && Owed(s.line, ch, result) && Enabled(s, step)
    ensures Owed(Next(s, step).line, ch, result)
  {
    assert ChannelsSound(s.line) && WrittenOnce(s.line);
    hide Inv, ChannelsSound, WrittenOnce, Owed, Ops, Register, Resume, ApplyReply, Join, Close, WaitLine.Resolve, Deliver, Advance, Call;
    match step
    case JoinIn(other) => JoinKeepsOwed(s.line, other, ch, result);
    case ResolveOne => ResolveKeepsOwed(s.line, ch, result);
    case DeliverOne => DeliverKeepsOwed(s.line, ch, result);
    case AdvancePart => AdvanceKeepsOwed(s.line, ch, result);
    case CallIn(item) => CallKeepsOwed(s.line, item, Known(s.book, item.op), ch, result);
    case CloseBatch => StillOwed(s.line, Close(s.line), ch, result);
    case SendAcks(id) => StillOwed(s.line, SendDone(s.line, Acked(id)), ch, result);
    case SendFails(cause) => StillOwed(s.line, Next(s, step).line, ch, result);
    case TakeOne => StillOwed(s.line, Take(s.line), ch, result);
    case _ => assert Next(s, step).line == s.line;
  }

  lemma {:induction false} CallKeepsOwed(line: Line, item: Item, known: Option<string>, ch: Chan, result: Result)
    requires WrittenOnce(line) && Owed(line, ch, result)
    ensures Owed(Call(line, item, known), ch, result)
  {
  }

  /** While the sender is not answering, whoever was owed has the result. */
  lemma {:induction false} StillOwed(line: Line, after: Line, ch: Chan, result: Result)
    requires !line.sender.Resolving? && Owed(line, ch, result) && after.place == line.place && after.writes == line.writes
    ensures Owed(after, ch, result)
  {
  }

  lemma {:induction false} RunKeepsOwed(s: Sys, steps: seq<Step>, ch: Chan, result: Result)
    requires Inv(s) && Owed(s.line, ch, result) && Legal(s, steps)
    ensures Owed(Run(s, steps).line, ch, result)
    decreases |steps|
  {
    if steps != [] {
      StepKeepsOwed(s, steps[0], ch, result);
      StepKeepsInv(s, steps[0]);
      hide Inv, Owed, Next, Enabled;
      RunKeepsOwed(Next(s, steps[0]), steps[1..], ch, result);
    }
  }

  /**
    What a send comes to, over every run: each caller waiting for one of its operations
    hears exactly what the broker made of it, and has heard it when the sender goes on.
    A send that fails leaves the book as it was, and names the kind of its items.
   */
  lemma {:induction false} SendDecidesAnswers(start: int, steps: seq<Step>, step: Step, more: seq<Step>, ch: Chan)
    requires Legal(Init(start), steps) && (step.SendAcks? || step.SendFails?) && Enabled(Run(Init(start), steps), step)
    requires Legal(Next(Run(Init(start), steps), step), more)
    requires var line := Run(Init(start), steps).line; ch in line.place && line.place[ch].Waiting? && line.place[ch].op in Ops(line.sender.part)
    ensures var s := Run(Init(start), steps);
            var item, late := ItemOf(s.line.sender.part, s.line.place[ch].op), Run(Next(s, step), more).line;
            && (step.SendFails? ==> Next(s, step).book == s.book)
            && ch in late.place && ch in late.writes
            && (late.writes[ch] != [] || !late.sender.Resolving? ==>
                  late.writes[ch] == [if step.SendAcks? then Acked(step.batchId) else Refused(SendFailed(item.kind, step.cause))])
  {
    var s := Run(Init(start), steps);
    FromStart(start, steps);
    SendDecidesHere(Run(Init(start), steps), step, more, ch);
  }

  lemma {:induction false} SendDecidesHere(s: Sys, step: Step, more: seq<Step>, ch: Chan)
    requires Inv(s) && (step.SendAcks? || step.SendFails?) && Enabled(s, step) && Legal(Next(s, step), more)
    requires ch in s.line.place && s.line.place[ch].Waiting? && s.line.place[ch].op in Ops(s.line.sender.part)
    ensures var item, late := ItemOf(s.line.sender.part, s.line.place[ch].op), Run(Next(s, step), more).line;
            && (step.SendFails? ==> Next(s, step).book == s.book)
            && ch in late.place && ch in late.writes
            && (late.writes[ch] != [] || !late.sender.Resolving? ==>
                  late.writes[ch] == [if step.SendAcks? then Acked(step.batchId) else Refused(SendFailed(item.kind, step.cause))])
  {
    assert s.line.sender.Sending?;
    hide Legal, Run, Inv, Next, Enabled, Owed, Ops;
    StepKeepsInv(s, step);
    SendOwes(s, step, ch);
    OwedIsHeard(Next(s, step), more, ch,
                if step.SendAcks? then Acked(step.batchId) else Refused(SendFailed(ItemOf(s.line.sender.part, s.line.place[ch].op).kind, step.cause)));
  }

  lemma {:induction false} SendOwes(s: Sys, step: Step, ch: Chan)
    requires Inv(s) && (step.SendAcks? || step.SendFails?) && Enabled(s, step)
    requires ch in s.line.place && s.line.place[ch].Waiting? && s.line.place[ch].op in Ops(s.line.sender.part)
    ensures var item := ItemOf(s.line.sender.part, s.line.place[ch].op);
            Owed(Next(s, step).line, ch, if step.SendAcks? then Acked(step.batchId) else Refused(SendFailed(item.kind, step.cause)))
    ensures step.SendFails? ==> Next(s, step).book == s.book
  {
    LineOf(s);
    var item := ItemOf(s.line.sender.part, s.line.place[ch].op);
    assert item.kind == s.line.sender.part[0].kind && ch in s.line.writes;
    hide Inv, LineInv, Register, Ops, Owed, SendDone;
    WaitersAreOwedIt(s.line, ch, if step.SendAcks? then Acked(step.batchId) else Refused(SendFailed(item.kind, step.cause)));
  }

  lemma {:induction false} WaitersAreOwedIt(line: Line, ch: Chan, result: Result)
    requires line.sender.Sending? && ch in line.place && ch in line.writes
    requires line.place[ch].Waiting? && line.place[ch].op in Ops(line.sender.part)
    ensures Owed(SendDone(line, result), ch, result)
  {
  }

  lemma {:induction false} OwedIsHeard(s: Sys, more: seq<Step>, ch: Chan, result: Result)
    requires Inv(s) && Legal(s, more) && Owed(s.line, ch, result)
    ensures var late := Run(s, more).line;
            && ch in late.place && ch in late.writes
            && (late.writes[ch] != [] || !late.sender.Resolving? ==> late.writes[ch] == [result])
  {
    RunKeepsOwed(s, more, ch, result);
    RunKeepsInv(s, more);
    LineOf(Run(s, more));
    hide Inv, Run, Legal, KeysMatch, InOrder, Slotted, ListsExact, DrainExact, SenderSound;
  }

  lemma {:induction false} LineOf(s: Sys)
    requires Inv(s)
    ensures LineInv(s.line)
  {
  }

  /** The item of an operation in a part. */
  function ItemOf(items: seq<Item>, op: string): (item: Item)
    requires op in Ops(items)
    ensures item in items && item.op == op
  {
    if items[0].op == op then items[0] else OpsOfHead(items); ItemOf(items[1..], op)
  }
}
