/**
  Exactly when one operation can be outstanding twice: at the second section of
  an enqueue, and at a resume. Everything else never causes it.
 */
module DoubleSend {
  import opened BatchTypes
  import opened Ledger
  import opened WaitLine
  import opened Batcher
  import opened BatcherRuns
  import opened BatcherTheorems
  import opened SenderProgress
  import opened SingleSend

  // ---------- two registrations and no verdict between ----------

  predicate Twice(log: seq<Event>, i: int, j: int) {
    && 0 <= i < j < |log| && log[i].Entered? && log[j].Entered? && log[i].op == log[j].op
    && forall k :: i < k < j && log[k].op == log[i].op ==> log[k].Entered?
  }

  ghost predicate Doubled(log: seq<Event>) {
    exists i, j :: Twice(log, i, j)
  }

  lemma {:induction false} AlternatingIsNotDoubled(log: seq<Event>)
    requires Alternates(log)
    ensures !Doubled(log)
  {
    forall i, j | Twice(log, i, j) ensures false {
      AlternationGivesVerdict(log, i, j);
    }
  }

  /** An open operation has a registration with no verdict after it. */
  lemma {:induction false} OpenSince(log: seq<Event>, op: string) returns (i: nat)
    requires Open(log, op)
    ensures i < |log| && log[i].Entered? && log[i].op == op && forall k :: i < k < |log| ==> log[k].op != op
    decreases |log|
  {
    var last := |log| - 1;
    if log[last].op == op {
      i := last;
    } else {
      var init := log[..last];
      i := OpenSince(init, op);
      assert forall k :: 0 <= k < |init| ==> init[k] == log[k];
    }
  }

  lemma {:induction false} EntriesAt(items: seq<Item>, id: string)
    ensures |Entries(items, id)| == |items|
    ensures forall i :: 0 <= i < |items| ==> Entries(items, id)[i] == Entered(items[i].op, items[i].kind, id)
  {
    if items != [] {
      EntriesAt(items[1..], id);
      assert forall i :: 0 < i < |items| ==> items[i] == items[1..][i - 1];
    }
  }

  /** Registering an operation that is open registers it twice. */
  lemma {:induction false} OpenDoubles(log: seq<Event>, items: seq<Item>, id: string, op: string)
    requires Open(log, op) && op in Ops(items)
    ensures Doubled(log + Entries(items, id))
  {
    var i := OpenSince(log, op);
    var n :| 0 <= n < |items| && items[n].op == op;
    EntriesAt(items, id);
    assert Twice(log + Entries(items, id), i, |log| + n);
  }

  /** So does registering it twice at once. */
  lemma {:induction false} RepeatDoubles(log: seq<Event>, items: seq<Item>, id: string)
    requires !DistinctOps(items)
    ensures Doubled(log + Entries(items, id))
  {
    var a, b :| 0 <= a < b < |items| && items[a].op == items[b].op;
    EntriesAt(items, id);
    assert Twice(log + Entries(items, id), |log| + a, |log| + b);
  }

  // ---------- what is in flight is open, in every run ----------

  ghost predicate FlightIsOpen(s: Sys) {
    forall op :: op in s.book.inFlight ==> Open(s.log, op)
  }

  lemma {:induction false} OthersStayOpen(log: seq<Event>, events: seq<Event>, op: string)
    requires Open(log, op) && forall e :: e in events && e.op == op ==> e.Entered?
    ensures Open(log + events, op)
    decreases |events|
  {
    if events == [] {
      assert log + [] == log;
    } else {
      var init, last := events[..|events| - 1], events[|events| - 1];
      assert events == init + [last] && last in events;
      OthersStayOpen(log, init, op);
      var all := log + events;
      assert all[..|all| - 1] == log + init && all[|all| - 1] == last;
    }
  }

  lemma {:induction false} EnteredIsOpen(log: seq<Event>, items: seq<Item>, id: string, op: string)
    requires op in Ops(items)
    ensures Open(log + Entries(items, id), op)
    decreases |items|
  {
    EntriesAt(items, id);
    var n :| 0 <= n < |items| && items[n].op == op;
    var entries := Entries(items, id);
    assert entries[n] == Entered(op, items[n].kind, id);
    assert forall e :: e in entries ==> e.Entered?;
    hide Entries;
    OpenFrom(log, entries, n, op);
  }

  lemma {:induction false} OpenFrom(log: seq<Event>, entries: seq<Event>, n: nat, op: string)
    requires n < |entries| && entries[n].op == op && forall e :: e in entries ==> e.Entered?
    ensures Open(log + entries, op)
  {
    var upTo, rest := log + entries[..n + 1], entries[n + 1..];
    assert upTo[|upTo| - 1] == entries[n] && entries[n] in entries;
    assert upTo + rest == log + entries;
    assert Open(upTo, op);
    hide Open;
    OthersStayOpen(upTo, rest, op);
  }

  lemma {:induction false} TrackKeepsFlight(book: Book, log: seq<Event>, id: string, batch: Tracked)
    requires forall op :: op in book.inFlight ==> Open(log, op)
    ensures forall op :: op in Track(book, id, batch).inFlight ==> Open(log + Entries(batch.items, id), op)
  {
    EntriesAt(batch.items, id);
    forall op | op in Track(book, id, batch).inFlight ensures Open(log + Entries(batch.items, id), op) {
      if op in Ops(batch.items) { EnteredIsOpen(log, batch.items, id, op); } else { OthersStayOpen(log, Entries(batch.items, id), op); }
    }
  }

  lemma {:induction false} ExpiriesName(items: seq<Item>, kind: Kind)
    ensures forall e :: e in Expiries(items, kind) ==> e.op in Ops(items)
  {
    if items != [] {
      ExpiriesName(items[1..], kind);
      OpsOfHead(items);
    }
  }

  lemma {:induction false} OutcomesName(items: seq<Item>, kind: Kind, results: seq<NodeResult>, now: int)
    ensures forall e :: e in Outcomes(items, kind, results, now) ==> e.op in Settled(items, results)
  {
    if items != [] {
      OutcomesName(items[1..], kind, results, now);
      forall op | op in Settled(items[1..], results) ensures op in Settled(items, results) {
        var i :| 0 <= i < |items[1..]| && !Unfinished(results, items[1..][i].op) && items[1..][i].op == op;
        assert items[i + 1].op == op;
      }
    }
  }

  lemma {:induction false} ReplyKeepsFlight(s: Sys, results: seq<NodeResult>)
    requires FlightIsOpen(s) && Enabled(s, PollAnswers(results))
    ensures FlightIsOpen(Answered(s, results))
  {
    var id, after := s.poller.asked.value, Answered(s, results);
    var events := ReplyEvents(s.book, id, results, s.now);
    if id in s.book.inProgress {
      var batch := s.book.inProgress[id];
      ExpiriesName(batch.items, batch.kind);
      OutcomesName(batch.items, batch.kind, results, s.now);
    }
    forall op | op in after.book.inFlight ensures Open(after.log, op) {
      assert op in s.book.inFlight && forall e :: e in events ==> e.op != op;
      OthersStayOpen(s.log, events, op);
    }
  }

  lemma {:induction false} LookKeepsFlight(s: Sys)
    requires FlightIsOpen(s) && Enabled(s, LookAt)
    ensures FlightIsOpen(Looked(s))
  {
    var id, after := s.poller.todo[0], Looked(s);
    if FirstLook(s.book, id, s.now) == Expire {
      var batch := s.book.inProgress[id];
      ExpiriesName(batch.items, batch.kind);
      forall op | op in after.book.inFlight ensures Open(after.log, op) {
        OthersStayOpen(s.log, Expiries(batch.items, batch.kind), op);
      }
    }
  }

  lemma {:induction false} StepKeepsFlight(s: Sys, step: Step)
    requires FlightIsOpen(s) && Enabled(s, step)
    ensures FlightIsOpen(Next(s, step))
  {
    match step
    case SendAcks(id) =>
      var part := s.line.sender.part;
      TrackKeepsFlight(s.book, s.log, id, Tracked(part[0].kind, part, s.now, s.now + INITIAL_DELAY, 0));
    case ResumeBatch(rawId, ops) =>
      if Resumable(s.book, rawId, ops) { TrackKeepsFlight(s.book, s.log, Trim(rawId), Tracked(Add, ResumeItems(ops), s.now, s.now, 0)); }
    case PollAnswers(results) => ReplyKeepsFlight(s, results);
    case LookAt => LookKeepsFlight(s);
    case _ =>
  }

  lemma {:induction false} RunKeepsFlight(s: Sys, steps: seq<Step>)
    requires FlightIsOpen(s) && Legal(s, steps)
    ensures FlightIsOpen(Run(s, steps))
    decreases |steps|
  {
    hide FlightIsOpen, Next, Enabled;
    if steps != [] {
      StepKeepsFlight(s, steps[0]);
      RunKeepsFlight(Next(s, steps[0]), steps[1..]);
    }
  }

  // ---------- from trouble to a second registration ----------

  /** Clean steps can lead to one operation registered twice with no verdict between. */
  ghost predicate CanDouble(s: Sys) {
    exists steps :: Legal(s, steps) && CleanRun(s, steps) && Doubled(Run(s, steps).log)
  }

  lemma {:induction false} SenderStepsAreClean(s: Sys, steps: seq<Step>)
    requires Legal(s, steps) && SenderOnly(steps)
    ensures CleanRun(s, steps)
    decreases |steps|
  {
    if steps != [] {
      assert SenderStep(steps[0]);
      SenderStepsAreClean(Next(s, steps[0]), steps[1..]);
    }
  }

  ghost function Longest(ids: set<string>): (n: nat)
    ensures forall id :: id in ids ==> |id| <= n
  {
    if ids == {} then 0
    else
      var id :| id in ids;
      var n := Longest(ids - {id});
      if |id| <= n then n else |id|
  }

  /** The broker always has an ID left. */
  lemma {:induction false} AnIdIsFree(ids: set<string>) returns (id: string)
    ensures id !in ids
  {
    id := seq(Longest(ids) + 1, _ => 'b');
  }

  /** An operation in flight that is still to be sent will be outstanding twice. */
  lemma {:induction false} UnsentInFlightDoubles(s: Sys, op: string)
    requires Inv(s) && FlightIsOpen(s) && op in s.book.inFlight && op in Ops(Unsent(s.line))
    ensures CanDouble(s)
  {
    var steps := SenderReaches(s, op);
    var near := Run(s, steps);
    var id := AnIdIsFree(near.book.inProgress.Keys);
    RunKeepsInv(s, steps);
    SenderStepsSend(near, op, id);
    Extend(s, steps, SendAcks(id));
    SenderStepsAreClean(s, steps + [SendAcks(id)]);
    assert CleanRun(s, steps + [SendAcks(id)]);
  }

  lemma {:induction false} SenderStepsSend(s: Sys, op: string, id: string)
    requires SenderSound(s.line) && AboutToSend(s.line, op) && id !in s.book.inProgress && Open(s.log, op)
    ensures Enabled(s, SendAcks(id)) && Doubled(Next(s, SendAcks(id)).log)
  {
    OpenDoubles(s.log, s.line.sender.part, id, op);
  }

  lemma {:induction false} CleanNeverDoubles(s: Sys)
    requires Inv(s) && Exclusive(s) && OpenInFlight(s)
    ensures !CanDouble(s)
  {
    forall steps | Legal(s, steps) && CleanRun(s, steps) ensures !Doubled(Run(s, steps).log) {
      CleanRunKeeps(s, steps);
      AlternatingIsNotDoubled(Run(s, steps).log);
    }
  }

  // ---------- exactly when ----------

  /** The state is one a clean run of a process reaches. */
  ghost predicate CleanlyReached(s: Sys) {
    exists start, steps :: Legal(Init(start), steps) && CleanRun(Init(start), steps) && Run(Init(start), steps) == s
  }

  lemma {:induction false} CleanlyReachedMeans(s: Sys)
    requires CleanlyReached(s)
    ensures Inv(s) && Exclusive(s) && OpenInFlight(s) && FlightIsOpen(s)
  {
    var start, steps :| Legal(Init(start), steps) && CleanRun(Init(start), steps) && Run(Init(start), steps) == s;
    InitInv(start);
    CleanRunKeeps(Init(start), steps);
    RunKeepsFlight(Init(start), steps);
  }

  /**
    The second section of an enqueue, exactly: queueing an item can be followed by clean
    steps to two registrations of one operation with no verdict between them if and only
    if the item's operation has come into flight since the first section looked.
   */
  lemma {:induction false} QueueingDoublesExactlyWhenInFlight(s: Sys, ch: Chan)
    requires CleanlyReached(s) && Accepts(s.line, ch)
    ensures CanDouble(Next(s, JoinIn(ch))) <==> s.line.place[ch].item.op in s.book.inFlight
  {
    var op, after := s.line.place[ch].item.op, Next(s, JoinIn(ch));
    CleanlyReachedMeans(s);
    StepKeepsInv(s, JoinIn(ch));
    if op in s.book.inFlight {
      QueuedIsUnsent(s.line, ch);
      StepKeepsFlight(s, JoinIn(ch));
      UnsentInFlightDoubles(after, op);
    } else {
      StepKeepsExclusive(s, JoinIn(ch));
      StepKeepsOpen(s, JoinIn(ch));
      CleanNeverDoubles(after);
    }
  }

  lemma {:induction false} QueuedIsUnsent(line: Line, ch: Chan)
    requires Accepts(line, ch)
    ensures line.place[ch].item.op in Ops(Unsent(Join(line, ch)))
  {
    var item, unsent := line.place[ch].item, Unsent(Join(line, ch));
    assert unsent == Unsent(line) + [item];
    assert unsent[|Unsent(line)|] == item;
  }

  /** The batch names an operation twice, or one in flight, or one still to be sent. */
  predicate Busy(s: Sys, ops: seq<string>) {
    var items := ResumeItems(ops);
    !DistinctOps(items) || !(Ops(items) !! s.book.inFlight) || !(Ops(items) !! Ops(Unsent(s.line)))
  }

  /**
    A resume, exactly: taking up a batch can be followed by clean steps to two
    registrations of one operation with no verdict between them if and only if it names
    an operation twice, or one that is in flight, or one that is still to be sent.
   */
  lemma {:induction false} ResumingDoublesExactlyWhenBusy(s: Sys, rawId: string, ops: seq<string>)
    requires CleanlyReached(s) && Resumable(s.book, rawId, ops)
    ensures CanDouble(Resumed(s, rawId, ops)) <==> Busy(s, ops)
  {
    CleanlyReachedMeans(s);
    if Busy(s, ops) { BusyResumeDoubles(s, rawId, ops); } else { IdleResumeIsSafe(s, rawId, ops); }
  }

  lemma {:induction false} ResumeIsStep(s: Sys, rawId: string, ops: seq<string>)
    ensures Enabled(s, ResumeBatch(rawId, ops)) && Next(s, ResumeBatch(rawId, ops)) == Resumed(s, rawId, ops)
    ensures !Busy(s, ops) ==> Clean(s, ResumeBatch(rawId, ops))
  {
    hide ResumeItems, Unsent, Resumable;
  }

  lemma {:induction false} IdleResumeIsSafe(s: Sys, rawId: string, ops: seq<string>)
    requires Inv(s) && Exclusive(s) && OpenInFlight(s) && !Busy(s, ops)
    ensures !CanDouble(Resumed(s, rawId, ops))
  {
    hide Inv, Exclusive, OpenInFlight, CanDouble, Next, Busy, Clean, Resumed;
    ResumeIsStep(s, rawId, ops);
    assert KeysMatch(s.line) by { LineIsSound(s); }
    var step := ResumeBatch(rawId, ops);
    StepKeepsInv(s, step);
    StepKeepsExclusive(s, step);
    StepKeepsOpen(s, step);
    CleanNeverDoubles(Resumed(s, rawId, ops));
  }

  lemma {:induction false} BusyResumeDoubles(s: Sys, rawId: string, ops: seq<string>)
    requires Inv(s) && FlightIsOpen(s) && Resumable(s.book, rawId, ops) && Busy(s, ops)
    ensures CanDouble(Resumed(s, rawId, ops))
  {
    var items, after := ResumeItems(ops), Resumed(s, rawId, ops);
    ResumeTakes(s, rawId, ops);
    assert forall op :: op in s.book.inFlight ==> Open(s.log, op);
    hide Resumable, ResumeItems, Resumed, Inv, CanDouble, Unsent;
    if !DistinctOps(items) {
      RepeatDoubles(s.log, items, Trim(rawId));
      AlreadyDoubled(after);
    } else if !(Ops(items) !! s.book.inFlight) {
      var op :| op in Ops(items) && op in s.book.inFlight;
      OpenDoubles(s.log, items, Trim(rawId), op);
      AlreadyDoubled(after);
    } else {
      var op :| op in Ops(items) && op in Ops(Unsent(s.line));
      ResumeIsStep(s, rawId, ops);
      hide FlightIsOpen, Next;
      StepKeepsInv(s, ResumeBatch(rawId, ops));
      StepKeepsFlight(s, ResumeBatch(rawId, ops));
      UnsentInFlightDoubles(after, op);
    }
  }

  lemma {:induction false} ResumeTakes(s: Sys, rawId: string, ops: seq<string>)
    requires Resumable(s.book, rawId, ops)
    ensures var after := Resumed(s, rawId, ops);
            && after.log == s.log + Entries(ResumeItems(ops), Trim(rawId)) && after.line == s.line
            && after.book.inFlight == s.book.inFlight + Ops(ResumeItems(ops))
            && after.book.inProgress.Keys == s.book.inProgress.Keys + {Trim(rawId)}
  {
  }

  lemma {:induction false} AlreadyDoubled(s: Sys)
    requires Doubled(s.log)
    ensures CanDouble(s)
  {
    assert Legal(s, []) && CleanRun(s, []) && Run(s, []) == s;
  }

  /** Queue an add, then take up the batch it was sent in before a restart. */
  lemma {:induction false} QueueAndResume(item: Item) returns (steps: seq<Step>)
    requires item == Item("u", Add, AddNodes("sku", "pool"))
    ensures Legal(Init(0), steps)
    ensures var s := Run(Init(0), steps);
            && s.line.queue == [item] && s.line.sender == Collecting([]) && s.log == [Entered("u", Add, "b1")]
            && s.book.inProgress.Keys == {"b1"}
  {
    steps := QueueOne(item);
    var s, resume := Run(Init(0), steps), ResumeBatch("b1", ["u"]);
    ResumeOfOne("b1", "u");
    ResumeTakes(s, "b1", ["u"]);
    ResumeIsStep(s, "b1", ["u"]);
    hide Trim, ResumeItems, Legal, Run, Resumed;
    Extend(Init(0), steps, resume);
    steps := steps + [resume];
  }

  lemma {:induction false} QueueOne(item: Item) returns (steps: seq<Step>)
    ensures Legal(Init(0), steps)
    ensures var s := Run(Init(0), steps);
            s.line.queue == [item] && s.line.sender == Collecting([]) && s.log == [] && s.book == EMPTY_BOOK
  {
    Extend(Init(0), [], CallIn(item));
    assert [] + [CallIn(item)] == [CallIn(item)];
    Extend(Init(0), [CallIn(item)], JoinIn(0));
    steps := [CallIn(item)] + [JoinIn(0)];
  }

  /** It can happen: the add that is queued again is sent again while its batch is tracked. */
  lemma {:induction false} ResumeOfQueuedSendsTwice() returns (steps: seq<Step>)
    ensures Legal(Init(0), steps)
    ensures Run(Init(0), steps).log == [Entered("u", Add, "b1"), Entered("u", Add, "b2")]
  {
    var item := Item("u", Add, AddNodes("sku", "pool"));
    steps := QueueAndResume(item);
    var s := Run(Init(0), steps);
    SendQueued(s, item, "b2");
    Extend(Init(0), steps, TakeOne);
    Extend(Init(0), steps + [TakeOne], CloseBatch);
    Extend(Init(0), steps + [TakeOne] + [CloseBatch], SendAcks("b2"));
    steps := steps + [TakeOne] + [CloseBatch] + [SendAcks("b2")];
  }

  lemma {:induction false} SendQueued(s: Sys, item: Item, id: string)
    requires s.line.queue == [item] && s.line.sender == Collecting([]) && id !in s.book.inProgress && item.kind == Add
    ensures Enabled(s, TakeOne) && Enabled(Next(s, TakeOne), CloseBatch)
    ensures var closed := Next(Next(s, TakeOne), CloseBatch);
            Enabled(closed, SendAcks(id)) && Next(closed, SendAcks(id)).log == s.log + [Entered(item.op, Add, id)]
  {
    assert [] + [item] == [item] && [item][1..] == [];
    assert Part([item][1..], Add) == [] == Part([item][1..], Remove);
    assert Entries([item], id) == [Entered(item.op, Add, id)] + [];
  }

  lemma {:induction false} ResumeOfOne(id: string, op: string)
    requires id == "b1" && op == "u"
    ensures Trim(id) == id && ResumeItems([op]) == [Item(op, Add, NoRequest)]
    ensures Entries(ResumeItems([op]), id) == [Entered(op, Add, id)]
  {
    assert TrimLeft(op) == op && TrimRight(op) == op;
    assert TrimLeft(id) == id && TrimRight(id) == id;
    assert [op][1..] == [] && ResumeItems([op][1..]) == [];
  }
}
