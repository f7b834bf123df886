/**
  What holds in every state of every run of the batcher: conservation, the
  in-flight index, bounded tracking, the record of successes, and what callers
  are told.
 */
module BatcherRuns {
  import opened BatchTypes
  import opened Ledger
  import opened WaitLine
  import opened Batcher

  // ---------- the book and its history ----------

  ghost predicate BookInv(s: Sys) {
    Sound(s.book) && Balanced(s.book, s.log)
  }

  lemma {:induction false} SendKeepsBook(s: Sys, id: string)
    requires BookInv(s) && SenderSound(s.line) && Enabled(s, SendAcks(id))
    ensures BookInv(Sent(s, id))
  {
    var part := s.line.sender.part;
    hide Sound, Balanced, Track, Entries;
    SentBatchBalances(s.book, s.log, part, part[0].kind, id, s.now);
  }

  lemma {:induction false} SentBatchBalances(book: Book, log: seq<Event>, part: seq<Item>, kind: Kind, id: string, now: int)
    requires Sound(book) && Balanced(book, log) && part != [] && OfKind(part, kind) && id !in book.inProgress
    ensures Sound(Register(book, kind, id, part, now)) && Balanced(Register(book, kind, id, part, now), log + Entries(part, id))
  {
    var batch := Tracked(kind, part, now, now + INITIAL_DELAY, 0);
    assert WellFormed(batch);
    hide Sound, Balanced, Track, Entries, WellFormed;
    TrackKeepsSound(book, id, batch);
    TrackBalances(book, log, id, batch);
  }

  lemma {:induction false} ResumeKeepsBook(s: Sys, rawId: string, ops: seq<string>)
    requires BookInv(s)
    ensures BookInv(Resumed(s, rawId, ops))
  {
    ResumeKeepsSound(s.book, rawId, ops, s.now);
    if Resumable(s.book, rawId, ops) {
      TrackBalances(s.book, s.log, Trim(rawId), Tracked(Add, ResumeItems(ops), s.now, s.now, 0));
    }
  }

  lemma {:induction false} StepKeepsBook(s: Sys, step: Step)
    requires BookInv(s) && SenderSound(s.line) && Enabled(s, step)
    ensures BookInv(Next(s, step))
  {
    match step
    case SendAcks(id) => SendKeepsBook(s, id);
    case ResumeBatch(rawId, ops) => ResumeKeepsBook(s, rawId, ops);
    case PollAnswers(results) =>
      var id := s.poller.asked.value;
      ReplyKeepsSound(s.book, id, results, s.now);
      ReplyBalances(s.book, s.log, id, results, s.now);
    case LookAt =>
      var id := s.poller.todo[0];
      if FirstLook(s.book, id, s.now) == Expire {
        ForgetKeepsSound(s.book, id);
        ForgetBalances(s.book, s.log, id);
      }
    case _ =>
  }

  // ---------- the failure handler hears of every failure, in order ----------

  ghost predicate ReportsInv(s: Sys) {
    && Reports(s.log) == s.told + s.poller.owed
    && (!s.poller.passing ==> s.poller.asked.None? && s.poller.owed == [])
    && (s.poller.asked.Some? ==> s.poller.owed == [])
  }

  lemma {:induction false} ReportsAppend(a: seq<Event>, b: seq<Event>)
    ensures Reports(a + b) == Reports(a) + Reports(b)
  {
    if a == [] {
      assert a + b == b;
    } else {
      var head := if a[0].Faulted? then [Report(a[0].op, a[0].kind, a[0].detail)] else [];
      assert (a + b)[1..] == a[1..] + b;
      ReportsAppend(a[1..], b);
      assert head + (Reports(a[1..]) + Reports(b)) == (head + Reports(a[1..])) + Reports(b);
    }
  }

  lemma {:induction false} EntriesReportNothing(items: seq<Item>, id: string)
    ensures Reports(Entries(items, id)) == []
  {
    if items != [] {
      EntriesReportNothing(items[1..], id);
      assert Entries(items, id)[1..] == Entries(items[1..], id);
    }
  }

  lemma {:induction false} StepKeepsReports(s: Sys, step: Step)
    requires ReportsInv(s) && Enabled(s, step)
    ensures ReportsInv(Next(s, step))
  {
    hide Reports, Entries, Expiries, ReplyEvents, Register, Resume, ApplyReply, Forget, Call, Join, Close;
    match step
    case SendAcks(id) => EnteredReportNothing(s, s.line.sender.part, id, Sent(s, id));
    case ResumeBatch(rawId, ops) =>
      if Resumable(s.book, rawId, ops) { EnteredReportNothing(s, ResumeItems(ops), Trim(rawId), Resumed(s, rawId, ops)); }
    case PollAnswers(results) =>
      ReportsAppend(s.log, ReplyEvents(s.book, s.poller.asked.value, results, s.now));
    case LookAt => LookKeepsReports(s);
    case ReportOne =>
      assert s.told + s.poller.owed == s.told + [s.poller.owed[0]] + s.poller.owed[1..];
    case _ =>
  }

  lemma {:induction false} EnteredReportNothing(s: Sys, items: seq<Item>, id: string, after: Sys)
    requires ReportsInv(s) && after.log == s.log + Entries(items, id) && after.poller == s.poller && after.told == s.told
    ensures ReportsInv(after)
  {
    EntriesReportNothing(items, id);
    ReportsAppend(s.log, Entries(items, id));
  }

  lemma {:induction false} LookKeepsReports(s: Sys)
    requires ReportsInv(s) && Enabled(s, LookAt)
    ensures ReportsInv(Next(s, LookAt))
  {
    hide Reports, Expiries, Forget;
    var id := s.poller.todo[0];
    if FirstLook(s.book, id, s.now) == Expire {
      ReportsAppend(s.log, Expiries(s.book.inProgress[id].items, s.book.inProgress[id].kind));
    }
  }

  // ---------- tracking is bounded ----------

  /** No batch is older than the age limit, counted from the start of the last finished pass. */
  ghost predicate TimeInv(s: Sys) {
    && s.poller.lastStart <= s.now
    && (s.poller.passing ==> s.poller.lastStart <= s.poller.passStart <= s.now)
    && (forall id :: id in s.book.inProgress ==>
          && s.book.inProgress[id].sentAt <= s.now
          && s.poller.lastStart <= s.book.inProgress[id].sentAt + MAX_BATCH_AGE
          && (s.poller.passing && id !in s.poller.todo ==> s.poller.passStart <= s.book.inProgress[id].sentAt + MAX_BATCH_AGE))
  }

  lemma {:induction false} StepKeepsTime(s: Sys, step: Step)
    requires TimeInv(s) && Sound(s.book) && Enabled(s, step)
    ensures TimeInv(Next(s, step))
  {
    match step
    case LookAt => LookKeepsTime(s);
    case PollAnswers(results) =>
      var id := s.poller.asked.value;
      var after := ApplyReply(s.book, id, results, s.now);
      assert forall other :: other in after.inProgress ==>
          other in s.book.inProgress && after.inProgress[other].sentAt == s.book.inProgress[other].sentAt;
    case BeginPass(ids) =>
      assert forall id :: id in s.book.inProgress ==> id in (set i | i in ids);
    case _ =>
  }

  lemma {:induction false} LookKeepsTime(s: Sys)
    requires TimeInv(s) && Sound(s.book) && Enabled(s, LookAt)
    ensures TimeInv(Looked(s))
  {
    var id := s.poller.todo[0];
    var after := Looked(s);
    assert s.poller.todo == [id] + after.poller.todo;
    if id in s.book.inProgress {
      assert WellFormed(s.book.inProgress[id]);
    }
    forall other | other in after.book.inProgress && other !in after.poller.todo
      ensures s.poller.passStart <= s.book.inProgress[other].sentAt + MAX_BATCH_AGE
    {
      if other != id { assert other !in s.poller.todo; }
    }
  }

  // ---------- the record of successes ----------

  /** A success is remembered from its poll until the retention is over, and only then. */
  ghost predicate SuccessInv(s: Sys) {
    && (forall op :: op in s.book.succeeded ==>
          || Completed(op, Add, s.book.succeeded[op]) in s.log
          || Completed(op, Remove, s.book.succeeded[op]) in s.log)
    && (forall op, kind, at :: Completed(op, kind, at) in s.log ==>
          at <= s.now && (s.now <= at + SUCCEEDED_RETENTION ==> op in s.book.succeeded && at <= s.book.succeeded[op]))
  }

  lemma {:induction false} EntriesComplete(items: seq<Item>, id: string)
    ensures forall e :: e in Entries(items, id) ==> e.Entered?
    ensures forall i :: 0 <= i < |items| ==> Entered(items[i].op, items[i].kind, id) in Entries(items, id)
  {
    if items != [] {
      EntriesComplete(items[1..], id);
      forall i | 0 <= i < |items| ensures Entered(items[i].op, items[i].kind, id) in Entries(items, id) {
        if i > 0 { assert items[i] == items[1..][i - 1]; }
      }
    }
  }

  lemma {:induction false} ExpiriesFault(items: seq<Item>, kind: Kind)
    ensures forall e :: e in Expiries(items, kind) ==> e.Faulted?
  {
    if items != [] { ExpiriesFault(items[1..], kind); }
  }

  /** A reply completes exactly the winners, now. */
  lemma {:induction false} OutcomesComplete(items: seq<Item>, kind: Kind, results: seq<NodeResult>, now: int)
    ensures forall op :: op in Winners(items, results) ==> Completed(op, kind, now) in Outcomes(items, kind, results, now)
    ensures forall op, k, at :: Completed(op, k, at) in Outcomes(items, kind, results, now) ==>
          k == kind && at == now && op in Winners(items, results)
    ensures forall e :: e in Outcomes(items, kind, results, now) ==> !e.Entered?
  {
    if items != [] {
      OutcomesComplete(items[1..], kind, results, now);
      var rest := Winners(items[1..], results);
      assert Winners(items, results) == rest + (if Won(results, items[0].op) then {items[0].op} else {}) by {
        forall op | op in Winners(items, results)
          ensures op in rest + (if Won(results, items[0].op) then {items[0].op} else {})
        {
          var i :| 0 <= i < |items| && Won(results, items[i].op) && items[i].op == op;
          if i > 0 { assert items[1..][i - 1] == items[i]; }
        }
        forall op | op in rest ensures op in Winners(items, results) {
          var i :| 0 <= i < |items[1..]| && Won(results, items[1..][i].op) && items[1..][i].op == op;
          assert items[i + 1] == items[1..][i];
        }
      }
    }
  }

  lemma {:induction false} ReplyKeepsSuccess(s: Sys, results: seq<NodeResult>)
    requires SuccessInv(s) && Enabled(s, PollAnswers(results))
    ensures SuccessInv(Answered(s, results))
  {
    var id := s.poller.asked.value;
    if id in s.book.inProgress {
      var batch := s.book.inProgress[id];
      if GivesUp(batch, results) {
        ExpiriesFault(batch.items, batch.kind);
      } else if results != [] {
        OutcomesComplete(batch.items, batch.kind, results, s.now);
        SettledSuccess(s, Answered(s, results), batch, results);
      }
    }
  }

  lemma {:induction false} SettledSuccess(s: Sys, after: Sys, batch: Tracked, results: seq<NodeResult>)
    requires SuccessInv(s) && after.now == s.now
    requires after.book.succeeded == Prune(s.book.succeeded + map op | op in Winners(batch.items, results) :: s.now, s.now)
    requires after.log == s.log + Outcomes(batch.items, batch.kind, results, s.now)
    ensures SuccessInv(after)
  {
    OutcomesComplete(batch.items, batch.kind, results, s.now);
    var won := Winners(batch.items, results);
    forall op | op in after.book.succeeded
      ensures Completed(op, Add, after.book.succeeded[op]) in after.log || Completed(op, Remove, after.book.succeeded[op]) in after.log
    {
      if op in won {
        assert Completed(op, batch.kind, s.now) in after.log;
        assert batch.kind == Add || batch.kind == Remove;
      }
    }
  }

  lemma {:induction false} StepKeepsSuccess(s: Sys, step: Step)
    requires SuccessInv(s) && Enabled(s, step)
    ensures SuccessInv(Next(s, step))
  {
    match step
    case SendAcks(id) => EntriesComplete(s.line.sender.part, id);
    case ResumeBatch(rawId, ops) => EntriesComplete(ResumeItems(ops), Trim(rawId));
    case PollAnswers(results) => ReplyKeepsSuccess(s, results);
    case LookAt =>
      var id := s.poller.todo[0];
      if FirstLook(s.book, id, s.now) == Expire {
        ExpiriesFault(s.book.inProgress[id].items, s.book.inProgress[id].kind);
      }
    case _ =>
  }

  // ---------- what callers are told ----------

  /** The broker accepted this operation in this batch, in this process. */
  predicate Logged(log: seq<Event>, op: string, id: string) {
    Entered(op, Add, id) in log || Entered(op, Remove, id) in log
  }

  /** Every acknowledgement, given or on its way, names a batch its operation really entered. */
  ghost predicate AckInv(s: Sys) {
    && (forall op :: op in s.book.inFlight ==> op in s.book.opBatch && Logged(s.log, op, s.book.opBatch[op]))
    && (forall ch :: ch in s.line.place && ch in s.line.writes && s.line.writes[ch] != [] && s.line.writes[ch][0].Acked? ==>
          Logged(s.log, s.line.place[ch].Op(), s.line.writes[ch][0].batchId))
    && (s.line.sender.Resolving? && s.line.sender.result.Acked? ==>
          && (forall i :: 0 <= i < |s.line.sender.todo| ==> Logged(s.log, s.line.sender.todo[i].op, s.line.sender.result.batchId))
          && (forall ch :: ch in s.line.draining && ch in s.line.place ==>
                Logged(s.log, s.line.place[ch].Op(), s.line.sender.result.batchId)))
  }

  /** The log only grows, and the book's index with it. */
  lemma {:induction false} AckFrame(s: Sys, after: Sys, events: seq<Event>)
    requires AckInv(s) && after.line == s.line && after.log == s.log + events
    requires forall op :: op in after.book.inFlight ==> op in after.book.opBatch && Logged(after.log, op, after.book.opBatch[op])
    ensures AckInv(after)
  {
  }

  lemma {:induction false} TrackKeepsIndexLogged(book: Book, log: seq<Event>, id: string, batch: Tracked)
    requires forall op :: op in book.inFlight ==> op in book.opBatch && Logged(log, op, book.opBatch[op])
    ensures var after, grown := Track(book, id, batch), log + Entries(batch.items, id);
            forall op :: op in after.inFlight ==> op in after.opBatch && Logged(grown, op, after.opBatch[op])
  {
    EntriesComplete(batch.items, id);
    var after, grown := Track(book, id, batch), log + Entries(batch.items, id);
    forall op | op in after.inFlight ensures op in after.opBatch && Logged(grown, op, after.opBatch[op]) {
      if op in Ops(batch.items) {
        var i :| 0 <= i < |batch.items| && batch.items[i].op == op;
        assert Entered(batch.items[i].op, batch.items[i].kind, id) in grown;
        assert batch.items[i].kind == Add || batch.items[i].kind == Remove;
      }
    }
  }

  lemma {:induction false} SendKeepsAcks(s: Sys, id: string)
    requires AckInv(s) && DrainExact(s.line) && Enabled(s, SendAcks(id))
    ensures AckInv(Sent(s, id))
  {
    var part := s.line.sender.part;
    var after := Sent(s, id);
    TrackKeepsIndexLogged(s.book, s.log, id, Tracked(part[0].kind, part, s.now, s.now + INITIAL_DELAY, 0));
    EntriesComplete(part, id);
    forall i | 0 <= i < |part| ensures Logged(after.log, part[i].op, id) {
      assert Entered(part[i].op, part[i].kind, id) in after.log;
      assert part[i].kind == Add || part[i].kind == Remove;
    }
  }

  lemma {:induction false} BookStepKeepsAcks(s: Sys, step: Step)
    requires AckInv(s) && Enabled(s, step) && (step.LookAt? || step.PollAnswers? || step.ResumeBatch?)
    ensures AckInv(Next(s, step))
  {
    var after := Next(s, step);
    match step
    case ResumeBatch(rawId, ops) =>
      if Resumable(s.book, rawId, ops) {
        TrackKeepsIndexLogged(s.book, s.log, Trim(rawId), Tracked(Add, ResumeItems(ops), s.now, s.now, 0));
        AckFrame(s, after, Entries(ResumeItems(ops), Trim(rawId)));
      }
    case PollAnswers(results) => AckFrame(s, after, ReplyEvents(s.book, s.poller.asked.value, results, s.now));
    case LookAt =>
      var id := s.poller.todo[0];
      if FirstLook(s.book, id, s.now) == Expire {
        AckFrame(s, after, Expiries(s.book.inProgress[id].items, s.book.inProgress[id].kind));
      } else {
        AckFrame(s, after, []);
      }
  }

  lemma {:induction false} ResolveKeepsAcks(s: Sys)
    requires AckInv(s) && ChannelsSound(s.line) && CanResolve(s.line)
    ensures AckInv(Next(s, ResolveOne))
  {
    var op := s.line.sender.todo[0].op;
    var after := Next(s, ResolveOne);
    assert forall ch :: ch in Waiters(s.line, op) ==> s.line.place[ch] == Waiting(op);
    forall ch | ch in after.line.place ensures ch in s.line.place && after.line.place[ch].Op() == s.line.place[ch].Op() {
    }
  }

  lemma {:induction false} DeliverKeepsAcks(s: Sys)
    requires AckInv(s) && ChannelsSound(s.line) && CanDeliver(s.line)
    ensures AckInv(Next(s, DeliverOne))
  {
    var ch := s.line.draining[0];
    assert ch in s.line.draining && s.line.writes[ch] == [];
  }

  lemma {:induction false} JoinKeepsAcks(s: Sys, ch: Chan)
    requires AckInv(s) && ChannelsSound(s.line) && CanJoin(s.line, ch)
    ensures AckInv(Next(s, JoinIn(ch)))
  {
    assert s.line.writes[ch] == [];
    assert ch !in s.line.draining;
  }

  lemma {:induction false} CallKeepsAcks(s: Sys, item: Item)
    requires AckInv(s) && ChannelsSound(s.line)
    ensures AckInv(Next(s, CallIn(item)))
  {
    assert s.line.next !in s.line.place;
  }

  lemma {:induction false} StepKeepsAcks(s: Sys, step: Step)
    requires AckInv(s) && ChannelsSound(s.line) && Enabled(s, step)
    ensures AckInv(Next(s, step))
  {
    match step
    case CallIn(item) => CallKeepsAcks(s, item);
    case JoinIn(ch) => JoinKeepsAcks(s, ch);
    case SendAcks(id) => SendKeepsAcks(s, id);
    case ResolveOne => ResolveKeepsAcks(s);
    case DeliverOne => DeliverKeepsAcks(s);
    case LookAt => BookStepKeepsAcks(s, step);
    case PollAnswers(_) => BookStepKeepsAcks(s, step);
    case ResumeBatch(_, _) => BookStepKeepsAcks(s, step);
    case _ =>
  }

  // ---------- all of it, over whole runs ----------

  ghost predicate Inv(s: Sys) {
    LineInv(s.line) && BookInv(s) && ReportsInv(s) && TimeInv(s) && SuccessInv(s) && AckInv(s)
  }

  lemma {:induction false} InitInv(now: int)
    ensures Inv(Init(now))
  {
    assert Unresolved(Init(now).line) == [];
  }

  lemma {:induction false} StepKeepsInv(s: Sys, step: Step)
    requires Inv(s) && Enabled(s, step)
    ensures Inv(Next(s, step)) && Later(s.line, Next(s, step).line) && s.log <= Next(s, step).log && s.now <= Next(s, step).now
  {
    var after := Next(s, step);
    assert SenderSound(s.line) && ChannelsSound(s.line);
    StepExtends(s, step);
    hide LineInv, SenderSound, ChannelsSound, BookInv, ReportsInv, TimeInv, SuccessInv, AckInv, Later, Next, Enabled;
    assert LineInv(after.line) && Later(s.line, after.line) by { StepKeepsLine(s, step); }
    assert BookInv(after) by { StepKeepsBook(s, step); }
    assert ReportsInv(after) by { StepKeepsReports(s, step); }
    assert TimeInv(after) by { StepKeepsTime(s, step); }
    assert SuccessInv(after) by { StepKeepsSuccess(s, step); }
    assert AckInv(after) by { StepKeepsAcks(s, step); }
  }

  lemma {:induction false} StepExtends(s: Sys, step: Step)
    requires Enabled(s, step)
    ensures s.log <= Next(s, step).log && s.now <= Next(s, step).now
  {
    hide Register, Resume, ApplyReply, Forget, Call, Join, Close, WaitLine.Resolve, Deliver, ReplyEvents, Expiries, Entries, Reports;
  }

  lemma {:induction false} LaterChains(a: Line, b: Line, c: Line)
    requires Later(a, b) && Later(b, c)
    ensures Later(a, c)
  {
  }

  lemma {:induction false} RunKeepsInv(s: Sys, steps: seq<Step>)
    requires Inv(s) && Legal(s, steps)
    ensures Inv(Run(s, steps)) && Later(s.line, Run(s, steps).line) && s.log <= Run(s, steps).log && s.now <= Run(s, steps).now
    decreases |steps|
  {
    if steps == [] {
      SameHistory(s.line, s.line);
    } else {
      var mid := Next(s, steps[0]);
      StepKeepsInv(s, steps[0]);
      RunKeepsInv(mid, steps[1..]);
      LaterChains(s.line, mid.line, Run(s, steps).line);
    }
  }
}
