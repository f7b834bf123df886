/** The batcher's promises, stated over every run of a process from its start. */
module BatcherTheorems {
  import opened BatchTypes
  import opened Ledger
  import opened WaitLine
  import opened Batcher
  import opened BatcherRuns

  lemma {:induction false} FromStart(start: int, steps: seq<Step>)
    requires Legal(Init(start), steps)
    ensures Inv(Run(Init(start), steps))
  {
    InitInv(start);
    RunKeepsInv(Init(start), steps);
  }

  // ---------- callers ----------

  /** The operations callers wait for are exactly those queued or held unresolved, none twice. */
  lemma {:induction false} WaitersAreOwed(start: int, steps: seq<Step>)
    requires Legal(Init(start), steps)
    ensures var line := Run(Init(start), steps).line;
            && (forall op :: op in line.pending <==> exists item :: item in line.sender.Held() + line.queue && item.op == op)
            && DistinctOps(line.sender.Held() + line.queue)
            && (forall op :: op in line.pending ==> line.pending[op] != [])
  {
    FromStart(start, steps);
    var line := Run(Init(start), steps).line;
    var items := Unresolved(line);
    forall op | op in line.pending ensures exists item :: item in items && item.op == op {
      assert op in Ops(items);
      var i :| 0 <= i < |items| && items[i].op == op;
      assert items[i] in items;
    }
    forall op, item | item in items && item.op == op ensures op in line.pending {
      assert op in Ops(items);
    }
    RunKeepsNonEmpty(Init(start), steps);
  }

  ghost predicate NonEmptyLists(line: Line) {
    forall op :: op in line.pending ==> line.pending[op] != []
  }

  lemma {:induction false} RunKeepsNonEmpty(s: Sys, steps: seq<Step>)
    requires NonEmptyLists(s.line) && Legal(s, steps)
    ensures NonEmptyLists(Run(s, steps).line)
    decreases |steps|
  {
    if steps != [] {
      assert NonEmptyLists(Next(s, steps[0]).line) by { StepKeepsNonEmpty(s, steps[0]); }
      RunKeepsNonEmpty(Next(s, steps[0]), steps[1..]);
    }
  }

  lemma {:induction false} StepKeepsNonEmpty(s: Sys, step: Step)
    requires NonEmptyLists(s.line) && Enabled(s, step)
    ensures NonEmptyLists(Next(s, step).line)
  {
    match step
    case JoinIn(_) =>
    case ResolveOne =>
    case _ => assert Next(s, step).line.pending == s.line.pending;
  }

  /** A result channel is written at most once, only while empty, and keeps what it got. */
  lemma {:induction false} WrittenAtMostOnce(start: int, steps: seq<Step>, step: Step, ch: Chan)
    requires Legal(Init(start), steps) && Enabled(Run(Init(start), steps), step)
    requires ch in Run(Init(start), steps).line.writes
    ensures var line, after := Run(Init(start), steps).line, Next(Run(Init(start), steps), step).line;
            && ch in after.writes && ch in after.place
            && |after.writes[ch]| <= 1
            && (after.writes[ch] == line.writes[ch] || line.writes[ch] == [])
            && (after.writes[ch] != [] <==> after.place[ch].Written?)
  {
    FromStart(start, steps);
    StepKeepsInv(Run(Init(start), steps), step);
  }

  /** Rounds of the sender a waiting caller still has to sit out: its position in the line. */
  function Position(line: Line, ch: Chan): int
    requires ch in line.slot
  {
    line.slot[ch] - |Flatten(line.closed)|
  }

  /**
    A caller at position k is answered once the sender has closed k + 1 more
    batches and come back for the next, whatever happened in between; a caller
    whose item is already out of the line (k < 0) when it comes back at all.
   */
  lemma {:induction false} AnsweredWithinPosition(start: int, steps: seq<Step>, more: seq<Step>, ch: Chan)
    requires Legal(Init(start), steps) && Legal(Run(Init(start), steps), more)
    requires var early := Run(Init(start), steps).line;
             && ch in early.place && early.place[ch].Waiting? && ch in early.slot
             && var late := Run(Run(Init(start), steps), more).line;
             && late.sender.Collecting?
             && |late.closed| - |early.closed| >= Position(early, ch) + 1
    ensures var late := Run(Run(Init(start), steps), more).line;
            ch in late.writes && ch in late.place && late.place[ch].Written? && |late.writes[ch]| == 1
  {
    var s := Run(Init(start), steps);
    FromStart(start, steps);
    RunKeepsInv(s, more);
    var late := Run(s, more).line;
    FlattenGrows(s.line.closed, late.closed);
    BetweenRounds(late, ch);
  }

  /** Every waiting caller has a position, and its operation's item is at that place of the accepted requests. */
  lemma {:induction false} WaitersHavePositions(start: int, steps: seq<Step>, ch: Chan)
    requires Legal(Init(start), steps)
    requires var line := Run(Init(start), steps).line; ch in line.place && line.place[ch].Waiting?
    ensures var line := Run(Init(start), steps).line;
            && ch in line.slot
            && RoundStart(line) <= line.slot[ch] < |line.accepted|
            && (line.slot[ch] >= |line.accepted| - |line.queue| ==> line.accepted[line.slot[ch]].op == line.place[ch].op)
  {
    FromStart(start, steps);
    var line := Run(Init(start), steps).line;
    WaitingSlot(line, ch);
    WaitingItem(line, ch);
  }

  lemma {:induction false} WaitingItem(line: Line, ch: Chan)
    requires KeysMatch(line) && ListsExact(line) && InOrder(line) && Slotted(line)
    requires ch in line.place && line.place[ch].Waiting?
    ensures ch in line.slot && 0 <= line.slot[ch] < |line.accepted|
    ensures line.slot[ch] >= |line.accepted| - |line.queue| ==> line.accepted[line.slot[ch]].op == line.place[ch].op
  {
    var op := line.place[ch].op;
    assert op in Ops(Unresolved(line));
    var items, held := Unresolved(line), line.sender.Held();
    var i :| 0 <= i < |items| && items[i].op == op;
    if i < |held| {
      assert held[i] == items[i];
    } else {
      assert line.queue[i - |held|] == items[i];
      assert line.accepted[|line.accepted| - |line.queue| + (i - |held|)] == line.queue[i - |held|];
    }
  }

  /** No request is lost or reordered on its way from the callers to the broker. */
  lemma {:induction false} RequestsKeepTheirOrder(start: int, steps: seq<Step>)
    requires Legal(Init(start), steps)
    ensures var line := Run(Init(start), steps).line;
            && line.accepted == Flatten(line.closed) + Batch(line) + line.queue
            && (forall i :: 0 <= i < |line.closed| ==> 1 <= |line.closed[i]| <= MAX_BATCH_SIZE)
            && |line.queue| <= QUEUE_CAPACITY
  {
    FromStart(start, steps);
  }

  // ---------- tracked work ----------

  function ReportTags(reports: seq<Report>): multiset<Tag> {
    if reports == [] then multiset{} else multiset{(reports[0].op, reports[0].kind)} + ReportTags(reports[1..])
  }

  lemma {:induction false} ReportTagsAppend(a: seq<Report>, b: seq<Report>)
    ensures ReportTags(a + b) == ReportTags(a) + ReportTags(b)
  {
    if a == [] {
      assert a + b == b;
    } else {
      assert (a + b)[1..] == a[1..] + b;
      ReportTagsAppend(a[1..], b);
    }
  }

  lemma {:induction false} FaultsAreReports(log: seq<Event>)
    ensures FaultedTags(log) == ReportTags(Reports(log))
  {
    if log != [] {
      FaultsAreReports(log[1..]);
      if log[0].Faulted? {
        assert Reports(log)[1..] == Reports(log[1..]);
      } else {
        assert Reports(log) == Reports(log[1..]);
      }
    }
  }

  /**
    Conservation: what was ever registered is what is still tracked, plus what
    succeeded, plus what the failure handler was told or is about to be told,
    each under the kind it was sent as.
   */
  lemma {:induction false} WorkIsConserved(start: int, steps: seq<Step>)
    requires Legal(Init(start), steps)
    ensures var s := Run(Init(start), steps);
            EnteredTags(s.log) == Total(s.book.inProgress) + CompletedTags(s.log) + ReportTags(s.told) + ReportTags(s.poller.owed)
  {
    FromStart(start, steps);
    BalanceOfReports(Run(Init(start), steps));
  }

  lemma {:induction false} BalanceOfReports(s: Sys)
    requires Balanced(s.book, s.log) && Reports(s.log) == s.told + s.poller.owed
    ensures EnteredTags(s.log) == Total(s.book.inProgress) + CompletedTags(s.log) + ReportTags(s.told) + ReportTags(s.poller.owed)
  {
    FaultsAreReports(s.log);
    ReportTagsAppend(s.told, s.poller.owed);
    var total := Total(s.book.inProgress) + CompletedTags(s.log) + ReportTags(s.told) + ReportTags(s.poller.owed);
    forall t: Tag ensures EnteredTags(s.log)[t] == total[t] {
    }
  }

  /** The failure handler is told of every failure, once, in the order the polls decided them. */
  lemma {:induction false} FailuresAreReported(start: int, steps: seq<Step>)
    requires Legal(Init(start), steps)
    ensures var s := Run(Init(start), steps);
            && Reports(s.log) == s.told + s.poller.owed
            && (!s.poller.passing ==> Reports(s.log) == s.told)
  {
    FromStart(start, steps);
  }

  /** A tracked batch is never empty, holds one kind, and has 0 to 2 empty polls. */
  lemma {:induction false} TrackedBatchesAreLive(start: int, steps: seq<Step>, id: string)
    requires Legal(Init(start), steps) && id in Run(Init(start), steps).book.inProgress
    ensures var batch := Run(Init(start), steps).book.inProgress[id];
            && batch.items != []
            && (forall i :: 0 <= i < |batch.items| ==> batch.items[i].kind == batch.kind)
            && batch.emptyPolls <= 2
  {
    FromStart(start, steps);
    assert WellFormed(Run(Init(start), steps).book.inProgress[id]);
  }

  /**
    Tracking is bounded even if every poll fails: age never exceeds the limit by
    more than the time since the last finished pass began, nor, for a batch the
    pass under way has come to, by more than the time since that pass began.
   */
  lemma {:induction false} TrackingIsBounded(start: int, steps: seq<Step>, id: string)
    requires Legal(Init(start), steps) && id in Run(Init(start), steps).book.inProgress
    ensures var s := Run(Init(start), steps);
            var age := s.now - s.book.inProgress[id].sentAt;
            && age <= MAX_BATCH_AGE + (s.now - s.poller.lastStart)
            && (s.poller.passing && id !in s.poller.todo ==> age <= MAX_BATCH_AGE + (s.now - s.poller.passStart))
  {
    FromStart(start, steps);
  }

  function Longer(a: int, b: int): int { if a >= b then a else b }

  /**
    Time passes only so far: a pass takes at most `slowest`, and the next begins within
    an interval of the last one's beginning, or at once if that took longer.
   */
  predicate InTime(s: Sys, step: Step, slowest: nat) {
    match step
    case Tick(passed) =>
      if s.poller.passing then s.now + passed <= s.poller.passStart + slowest
      else s.now + passed <= s.poller.lastStart + Longer(POLL_INTERVAL, slowest)
    case _ => true
  }

  predicate RunInTime(s: Sys, steps: seq<Step>, slowest: nat)
    requires Legal(s, steps)
    decreases |steps|
  {
    steps == [] || (InTime(s, steps[0], slowest) && RunInTime(Next(s, steps[0]), steps[1..], slowest))
  }

  predicate OnTime(s: Sys, slowest: nat) {
    if s.poller.passing then s.poller.passStart <= s.poller.lastStart + Longer(POLL_INTERVAL, slowest) && s.now <= s.poller.passStart + slowest
    else s.now <= s.poller.lastStart + Longer(POLL_INTERVAL, slowest)
  }

  lemma {:induction false} RunKeepsTime(s: Sys, steps: seq<Step>, slowest: nat)
    requires OnTime(s, slowest) && Legal(s, steps) && RunInTime(s, steps, slowest)
    ensures OnTime(Run(s, steps), slowest)
    decreases |steps|
  {
    if steps != [] {
      assert OnTime(Next(s, steps[0]), slowest) by { StepOnTime(s, steps[0], slowest); }
      RunKeepsTime(Next(s, steps[0]), steps[1..], slowest);
    }
  }

  lemma {:induction false} StepOnTime(s: Sys, step: Step, slowest: nat)
    requires OnTime(s, slowest) && Enabled(s, step) && InTime(s, step, slowest)
    ensures OnTime(Next(s, step), slowest)
  {
  }

  /**
    With passes that begin at most an interval apart and take no time, no batch is ever
    tracked past the age limit and one interval; passes that take time add what they take.
   */
  lemma {:induction false} PunctualTrackingIsBounded(start: int, steps: seq<Step>, slowest: nat, id: string)
    requires Legal(Init(start), steps) && RunInTime(Init(start), steps, slowest) && id in Run(Init(start), steps).book.inProgress
    ensures var s := Run(Init(start), steps);
            var age := s.now - s.book.inProgress[id].sentAt;
            && age <= MAX_BATCH_AGE + Longer(POLL_INTERVAL, slowest) + slowest
            && (slowest == 0 ==> age <= MAX_BATCH_AGE + POLL_INTERVAL)
  {
    TrackingIsBounded(start, steps, id);
    RunKeepsTime(Init(start), steps, slowest);
  }

  /** Right after a pass, every tracked batch was within the age limit when the pass began. */
  lemma {:induction false} PassClearsOldBatches(start: int, steps: seq<Step>, id: string)
    requires Legal(Init(start), steps) && Enabled(Run(Init(start), steps), EndPass)
    requires id in Next(Run(Init(start), steps), EndPass).book.inProgress
    ensures var s := Next(Run(Init(start), steps), EndPass);
            s.poller.lastStart - s.book.inProgress[id].sentAt <= MAX_BATCH_AGE
  {
    FromStart(start, steps);
    StepKeepsInv(Run(Init(start), steps), EndPass);
  }

  // ---------- what callers learn ----------

  /** A caller answered at once is told a batch that is tracked now and holds its operation. */
  lemma {:induction false} ShortcutNamesALiveBatch(start: int, steps: seq<Step>, item: Item)
    requires Legal(Init(start), steps) && item.op in Run(Init(start), steps).book.inFlight
    ensures var s := Run(Init(start), steps);
            var after := Next(s, CallIn(item));
            && item.op in s.book.opBatch
            && after.line.writes[s.line.next] == [Acked(s.book.opBatch[item.op])]
            && s.book.opBatch[item.op] in s.book.inProgress
            && item.op in Ops(s.book.inProgress[s.book.opBatch[item.op]].items)
            && after.line.queue == s.line.queue
  {
    FromStart(start, steps);
    assert Indexed(Run(Init(start), steps).book, item.op);
  }

  /** An acknowledged caller's operation did enter the batch it is told, in this process. */
  lemma {:induction false} AcksAreTrue(start: int, steps: seq<Step>, ch: Chan)
    requires Legal(Init(start), steps)
    requires var line := Run(Init(start), steps).line;
             ch in line.place && ch in line.writes && line.writes[ch] != [] && line.writes[ch][0].Acked?
    ensures var s := Run(Init(start), steps);
            Logged(s.log, s.line.place[ch].Op(), s.line.writes[ch][0].batchId)
  {
    FromStart(start, steps);
  }

  /** Success is only ever reported after a poll said so. */
  lemma {:induction false} SuccessWasPolled(start: int, steps: seq<Step>, op: string)
    requires Legal(Init(start), steps) && op in Run(Init(start), steps).book.succeeded
    ensures var s := Run(Init(start), steps);
            Completed(op, Add, s.book.succeeded[op]) in s.log || Completed(op, Remove, s.book.succeeded[op]) in s.log
  {
    FromStart(start, steps);
  }

  /** Once polled, success is remembered for the whole retention, through any further run. */
  lemma {:induction false} SuccessIsRemembered(start: int, steps: seq<Step>, more: seq<Step>, op: string, kind: Kind, at: int)
    requires Legal(Init(start), steps) && Legal(Run(Init(start), steps), more)
    requires Completed(op, kind, at) in Run(Init(start), steps).log
    requires Run(Run(Init(start), steps), more).now <= at + SUCCEEDED_RETENTION
    ensures op in Run(Run(Init(start), steps), more).book.succeeded
  {
    FromStart(start, steps);
    RunKeepsInv(Run(Init(start), steps), more);
  }

  /** Everything registered is still tracked or has had its verdict. */
  lemma {:induction false} TrackedOrSettled(start: int, steps: seq<Step>, op: string, kind: Kind, id: string)
    requires Legal(Init(start), steps) && Entered(op, kind, id) in Run(Init(start), steps).log
    ensures var s := Run(Init(start), steps);
            || (exists b :: b in s.book.inProgress && op in Ops(s.book.inProgress[b].items))
            || (exists at :: Completed(op, kind, at) in s.log)
            || (exists detail :: Faulted(op, kind, detail) in s.log)
  {
    FromStart(start, steps);
    EnteredIsTrackedOrSettled(Run(Init(start), steps), op, kind, id);
  }

  lemma {:induction false} EnteredIsTrackedOrSettled(s: Sys, op: string, kind: Kind, id: string)
    requires Inv(s) && Entered(op, kind, id) in s.log
    ensures || (exists b :: b in s.book.inProgress && op in Ops(s.book.inProgress[b].items))
            || (exists at :: Completed(op, kind, at) in s.log)
            || (exists detail :: Faulted(op, kind, detail) in s.log)
  {
    var t: Tag := (op, kind);
    EnteredCounts(s.log, op, kind, id);
    assert EnteredTags(s.log)[t] == Total(s.book.inProgress)[t] + CompletedTags(s.log)[t] + FaultedTags(s.log)[t];
    if Total(s.book.inProgress)[t] > 0 {
      TotalHolds(s.book.inProgress, t);
    } else if CompletedTags(s.log)[t] > 0 {
      CompletedHolds(s.log, t);
    } else {
      FaultedHolds(s.log, t);
    }
  }

  lemma {:induction false} EnteredCounts(log: seq<Event>, op: string, kind: Kind, id: string)
    requires Entered(op, kind, id) in log
    ensures EnteredTags(log)[(op, kind)] > 0
  {
    if log[0] != Entered(op, kind, id) { EnteredCounts(log[1..], op, kind, id); }
  }

  lemma {:induction false} CompletedHolds(log: seq<Event>, t: Tag)
    requires CompletedTags(log)[t] > 0
    ensures exists at :: Completed(t.0, t.1, at) in log
  {
    if log[0].Completed? && (log[0].op, log[0].kind) == t {
      assert Completed(t.0, t.1, log[0].at) in log;
    } else {
      CompletedHolds(log[1..], t);
      var at :| Completed(t.0, t.1, at) in log[1..];
      assert Completed(t.0, t.1, at) in log;
    }
  }

  lemma {:induction false} FaultedHolds(log: seq<Event>, t: Tag)
    requires FaultedTags(log)[t] > 0
    ensures exists detail :: Faulted(t.0, t.1, detail) in log
  {
    if log[0].Faulted? && (log[0].op, log[0].kind) == t {
      assert Faulted(t.0, t.1, log[0].detail) in log;
    } else {
      FaultedHolds(log[1..], t);
      var detail :| Faulted(t.0, t.1, detail) in log[1..];
      assert Faulted(t.0, t.1, detail) in log;
    }
  }

  lemma {:induction false} TagsHold(items: seq<Item>, t: Tag)
    requires Tags(items)[t] > 0
    ensures t.0 in Ops(items)
  {
    if (items[0].op, items[0].kind) == t {
      assert items[0].op in Ops(items);
    } else {
      TagsHold(items[1..], t);
      var i :| 0 <= i < |items[1..]| && items[1..][i].op == t.0;
      assert items[i + 1].op == t.0;
    }
  }

  lemma {:induction false} TotalHolds(m: map<string, Tracked>, t: Tag)
    requires Total(m)[t] > 0
    ensures exists b :: b in m && t.0 in Ops(m[b].items)
    decreases |m|
  {
    var k := Pick(m.Keys);
    Smaller(m, k);
    if Tags(m[k].items)[t] > 0 {
      TagsHold(m[k].items, t);
    } else {
      TotalHolds(m - {k}, t);
    }
  }
}
