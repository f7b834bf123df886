/**
  At most one outstanding send per operation. The in-flight check and the queue
  entry of an enqueue are two locked sections, so this is not true of every run:
  a registration may fall between them. It is true exactly as long as no item
  joins the queue while its operation is in flight.
 */
module SingleSend {
  import opened BatchTypes
  import opened Ledger
  import opened WaitLine
  import opened Batcher
  import opened BatcherRuns
  import opened SenderProgress

  /** The in-flight set is the disjoint union of the tracked batches; nothing unsent is in it. */
  ghost predicate Exclusive(s: Sys) {
    && (forall id :: id in s.book.inProgress ==> Holds(s.book, id))
    && (forall i :: 0 <= i < |Unsent(s.line)| ==> Unsent(s.line)[i].op !in s.book.inFlight)
  }

  /** A batch's operations are in flight, indexed under it, and listed once. */
  ghost predicate Holds(book: Book, id: string)
    requires id in book.inProgress
  {
    var items := book.inProgress[id].items;
    && DistinctOps(items)
    && forall i :: 0 <= i < |items| ==> items[i].op in book.inFlight && items[i].op in book.opBatch && book.opBatch[items[i].op] == id
  }

  /** The steps that respect the in-flight set: what an indivisible enqueue would do, and a resume of operations neither in flight nor still to be sent. */
  predicate Clean(s: Sys, step: Step) {
    match step
    case JoinIn(ch) => Accepts(s.line, ch) ==> s.line.place[ch].item.op !in s.book.inFlight
    case ResumeBatch(rawId, ops) =>
      Resumable(s.book, rawId, ops) ==>
        var items := ResumeItems(ops);
        && DistinctOps(items)
        && Ops(items) !! s.book.inFlight
        && Ops(items) !! Ops(Unsent(s.line))
    case _ => true
  }

  predicate CleanRun(s: Sys, steps: seq<Step>)
    requires Legal(s, steps)
    decreases |steps|
  {
    steps == [] || (Clean(s, steps[0]) && CleanRun(Next(s, steps[0]), steps[1..]))
  }

  // ---------- one step ----------

  /** The exact condition, at the step that can break it. */
  lemma {:induction false} JoinKeepsExclusiveExactlyWhenIdle(s: Sys, ch: Chan)
    requires Exclusive(s) && Accepts(s.line, ch)
    ensures Exclusive(Next(s, JoinIn(ch))) <==> s.line.place[ch].item.op !in s.book.inFlight
  {
    var after := Next(s, JoinIn(ch));
    var item := s.line.place[ch].item;
    assert Unsent(after.line) == Unsent(s.line) + [item];
    assert Unsent(after.line)[|Unsent(s.line)|] == item;
    assert forall id :: id in s.book.inProgress ==> Holds(s.book, id);
  }

  lemma {:induction false} TrackKeepsHolds(book: Book, id: string, batch: Tracked)
    requires id !in book.inProgress && DistinctOps(batch.items) && Ops(batch.items) !! book.inFlight
    requires forall b :: b in book.inProgress ==> Holds(book, b)
    ensures forall b :: b in Track(book, id, batch).inProgress ==> Holds(Track(book, id, batch), b)
  {
    var after := Track(book, id, batch);
    forall b | b in after.inProgress ensures Holds(after, b) {
      var items := after.inProgress[b].items;
      forall i | 0 <= i < |items|
        ensures items[i].op in after.inFlight && items[i].op in after.opBatch && after.opBatch[items[i].op] == b
      {
        if b == id {
          assert items[i].op in Ops(batch.items);
        } else {
          assert Holds(book, b);
          assert items[i].op in book.inFlight;
          assert items[i].op !in Ops(batch.items);
        }
      }
      if b != id { assert Holds(book, b); }
    }
  }

  lemma {:induction false} SendKeepsExclusive(s: Sys, id: string)
    requires Exclusive(s) && KeysMatch(s.line) && Enabled(s, SendAcks(id))
    ensures Exclusive(Sent(s, id))
  {
    var part, later := s.line.sender.part, s.line.sender.later;
    var after := Sent(s, id);
    var all := Unresolved(s.line);
    assert all == part + (later + s.line.queue);
    assert Unsent(s.line) == all;
    assert Unsent(after.line) == later + s.line.queue;
    assert DistinctOps(part) by {
      assert forall i :: 0 <= i < |part| ==> all[i] == part[i];
    }
    forall op | op in Ops(part) ensures op !in s.book.inFlight {
      var i :| 0 <= i < |part| && part[i].op == op;
      assert all[i].op == op;
    }
    TrackKeepsHolds(s.book, id, Tracked(part[0].kind, part, s.now, s.now + INITIAL_DELAY, 0));
    forall i | 0 <= i < |Unsent(after.line)| ensures Unsent(after.line)[i].op !in after.book.inFlight {
      assert all[|part| + i] == Unsent(after.line)[i];
      forall k | 0 <= k < |part| ensures part[k].op != Unsent(after.line)[i].op {
        assert all[k] == part[k];
      }
    }
  }

  lemma {:induction false} ResumeKeepsExclusive(s: Sys, rawId: string, ops: seq<string>)
    requires Exclusive(s) && KeysMatch(s.line) && Clean(s, ResumeBatch(rawId, ops))
    ensures Exclusive(Resumed(s, rawId, ops))
  {
    if Resumable(s.book, rawId, ops) {
      var items := ResumeItems(ops);
      TrackKeepsHolds(s.book, Trim(rawId), Tracked(Add, items, s.now, s.now, 0));
      assert forall i :: 0 <= i < |Unsent(s.line)| ==> Unsent(s.line)[i].op in Ops(Unsent(s.line));
    }
  }

  lemma {:induction false} ForgetKeepsHolds(book: Book, id: string)
    requires id in book.inProgress && forall b :: b in book.inProgress ==> Holds(book, b)
    ensures forall b :: b in Forget(book, id).inProgress ==> Holds(Forget(book, id), b)
  {
    var after := Forget(book, id);
    var gone := book.inProgress[id].items;
    forall b | b in after.inProgress ensures Holds(after, b) {
      assert Holds(book, b) && Holds(book, id);
      var items := book.inProgress[b].items;
      forall i | 0 <= i < |items| ensures items[i].op !in Ops(gone) {
      }
    }
  }

  lemma {:induction false} DistinctKept(items: seq<Item>, results: seq<NodeResult>)
    requires DistinctOps(items)
    ensures DistinctOps(Keep(items, results))
  {
    if items != [] {
      DistinctKept(items[1..], results);
      KeepIsFilter(items[1..], results);
      var rest := Keep(items[1..], results);
      forall i | 0 <= i < |rest| ensures rest[i].op != items[0].op {
        assert rest[i] in items[1..];
      }
    }
  }

  lemma {:induction false} ReplyKeepsHolds(book: Book, id: string, results: seq<NodeResult>, now: int)
    requires forall b :: b in book.inProgress ==> Holds(book, b)
    ensures var after := ApplyReply(book, id, results, now); forall b :: b in after.inProgress ==> Holds(after, b)
  {
    var after := ApplyReply(book, id, results, now);
    if id in book.inProgress {
      var batch := book.inProgress[id];
      if GivesUp(batch, results) {
        ForgetKeepsHolds(book, id);
      } else {
        forall b | b in after.inProgress ensures Holds(after, b) {
          assert Holds(book, b) && Holds(book, id);
          if results != [] { SettledHolds(book, id, results, now, b); }
        }
      }
    } else {
      assert after == book;
    }
  }

  lemma {:induction false} SettledHolds(book: Book, id: string, results: seq<NodeResult>, now: int, b: string)
    requires id in book.inProgress && b in book.inProgress && Holds(book, b) && Holds(book, id) && results != []
    requires b in ApplyReply(book, id, results, now).inProgress
    ensures Holds(ApplyReply(book, id, results, now), b)
  {
    var batch := book.inProgress[id];
    var after := ApplyReply(book, id, results, now);
    var items := after.inProgress[b].items;
    KeepIsFilter(batch.items, results);
    DistinctKept(batch.items, results);
    forall i | 0 <= i < |items|
      ensures items[i].op in after.inFlight && items[i].op in after.opBatch && after.opBatch[items[i].op] == b
    {
      if b == id {
        assert items[i] in Keep(batch.items, results);
        assert items[i] in batch.items;
      }
      assert items[i].op in book.inFlight;
      assert items[i].op !in Settled(batch.items, results);
    }
  }

  lemma {:induction false} StepKeepsExclusive(s: Sys, step: Step)
    requires Exclusive(s) && KeysMatch(s.line) && Enabled(s, step) && Clean(s, step)
    ensures Exclusive(Next(s, step))
  {
    hide Exclusive, KeysMatch, Register, Resume, ApplyReply, Forget, Call, Join, Ops, ResumeItems, Part, Unsent;
    match step
    case JoinIn(ch) => JoiningKeepsExclusive(s, ch);
    case SendAcks(id) => SendKeepsExclusive(s, id);
    case ResumeBatch(rawId, ops) => ResumeKeepsExclusive(s, rawId, ops);
    case PollAnswers(results) => PollKeepsExclusive(s, results);
    case LookAt => LookKeepsExclusive(s);
    case CloseBatch => CloseKeepsExclusive(s);
    case SendFails(_) => FailKeepsExclusive(s, step);
    case _ => QuietKeepsExclusive(s, step);
  }

  lemma {:induction false} JoiningKeepsExclusive(s: Sys, ch: Chan)
    requires Exclusive(s) && Enabled(s, JoinIn(ch)) && Clean(s, JoinIn(ch))
    ensures Exclusive(Next(s, JoinIn(ch)))
  {
    if Accepts(s.line, ch) {
      JoinKeepsExclusiveExactlyWhenIdle(s, ch);
    } else {
      assert Unsent(Next(s, JoinIn(ch)).line) == Unsent(s.line);
      SameUnsent(s, Next(s, JoinIn(ch)));
    }
  }

  lemma {:induction false} PollKeepsExclusive(s: Sys, results: seq<NodeResult>)
    requires Exclusive(s) && Enabled(s, PollAnswers(results))
    ensures Exclusive(Next(s, PollAnswers(results)))
  {
    ReplyKeepsHolds(s.book, s.poller.asked.value, results, s.now);
  }

  lemma {:induction false} LookKeepsExclusive(s: Sys)
    requires Exclusive(s) && Enabled(s, LookAt)
    ensures Exclusive(Next(s, LookAt))
  {
    if FirstLook(s.book, s.poller.todo[0], s.now) == Expire { ForgetKeepsHolds(s.book, s.poller.todo[0]); }
  }

  lemma {:induction false} FailKeepsExclusive(s: Sys, step: Step)
    requires Exclusive(s) && Enabled(s, step) && step.SendFails?
    ensures Exclusive(Next(s, step))
  {
    var part, after := s.line.sender.part, Next(s, step);
    assert forall i :: 0 <= i < |Unsent(after.line)| ==> Unsent(after.line)[i] == Unsent(s.line)[|part| + i];
    SameHolds(s, after);
  }

  lemma {:induction false} QuietKeepsExclusive(s: Sys, step: Step)
    requires Exclusive(s) && Enabled(s, step)
    requires !step.JoinIn? && !step.SendAcks? && !step.ResumeBatch? && !step.PollAnswers? && !step.LookAt? && !step.CloseBatch? && !step.SendFails?
    ensures Exclusive(Next(s, step))
  {
    hide Exclusive;
    assert Unsent(Next(s, step).line) == Unsent(s.line);
    SameUnsent(s, Next(s, step));
  }

  lemma {:induction false} SameHolds(s: Sys, after: Sys)
    requires (forall id :: id in s.book.inProgress ==> Holds(s.book, id)) && after.book == s.book
    ensures forall id :: id in after.book.inProgress ==> Holds(after.book, id)
  {
    assert forall id :: id in after.book.inProgress ==> Holds(s.book, id);
  }

  lemma {:induction false} SameUnsent(s: Sys, after: Sys)
    requires Exclusive(s) && after.book == s.book && Unsent(after.line) == Unsent(s.line)
    ensures Exclusive(after)
  {
    SameHolds(s, after);
  }

  lemma {:induction false} CloseKeepsExclusive(s: Sys)
    requires Exclusive(s) && Enabled(s, CloseBatch)
    ensures Exclusive(Next(s, CloseBatch))
  {
    var after := Next(s, CloseBatch);
    var batch := s.line.sender.batch;
    PartIsFilter(batch, Add);
    PartIsFilter(batch, Remove);
    SameHolds(s, after);
    var parts := Part(batch, Add) + Part(batch, Remove);
    assert Unsent(after.line) == parts + s.line.queue;
    assert Unsent(s.line) == batch + s.line.queue;
    forall i | 0 <= i < |Unsent(after.line)| ensures Unsent(after.line)[i].op !in s.book.inFlight {
      assert Unsent(after.line)[i] in batch || Unsent(after.line)[i] in s.line.queue;
      assert Unsent(after.line)[i] in Unsent(s.line);
    }
  }

  // ---------- the history alternates ----------

  /** The operation's last event is a registration. */
  predicate Open(log: seq<Event>, op: string) {
    if log == [] then false
    else if log[|log| - 1].op == op then log[|log| - 1].Entered?
    else Open(log[..|log| - 1], op)
  }

  /** No operation is registered again before the verdict on its last registration. */
  predicate Alternates(log: seq<Event>) {
    if log == [] then true
    else
      var init := log[..|log| - 1];
      Alternates(init) && (log[|log| - 1].Entered? ==> !Open(init, log[|log| - 1].op))
  }

  ghost predicate OpenInFlight(s: Sys) {
    Alternates(s.log) && forall op :: Open(s.log, op) ==> op in s.book.inFlight
  }

  lemma {:induction false} AppendOne(log: seq<Event>, e: Event)
    requires Alternates(log) && (e.Entered? ==> !Open(log, e.op))
    ensures Alternates(log + [e])
    ensures forall op :: Open(log + [e], op) == if op == e.op then e.Entered? else Open(log, op)
  {
    var all := log + [e];
    assert all[..|all| - 1] == log && all[|all| - 1] == e;
  }

  lemma {:induction false} AppendEntries(log: seq<Event>, items: seq<Item>, id: string)
    requires Alternates(log) && DistinctOps(items) && forall i :: 0 <= i < |items| ==> !Open(log, items[i].op)
    ensures Alternates(log + Entries(items, id))
    ensures forall op :: Open(log + Entries(items, id), op) ==> Open(log, op) || op in Ops(items)
    decreases |items|
  {
    if items == [] {
      assert log + [] == log;
    } else {
      var e := Entered(items[0].op, items[0].kind, id);
      AppendOne(log, e);
      assert Entries(items, id) == [e] + Entries(items[1..], id);
      assert log + ([e] + Entries(items[1..], id)) == log + [e] + Entries(items[1..], id);
      AppendEntries(log + [e], items[1..], id);
      OpsOfHead(items);
    }
  }

  predicate Verdicts(events: seq<Event>) {
    forall i :: 0 <= i < |events| ==> !events[i].Entered?
  }

  lemma {:induction false} AppendVerdicts(log: seq<Event>, events: seq<Event>)
    requires Alternates(log) && Verdicts(events)
    ensures Alternates(log + events)
    ensures forall op :: Open(log + events, op) ==> Open(log, op) && forall e :: e in events ==> e.op != op
    decreases |events|
  {
    if events == [] {
      assert log + [] == log;
    } else {
      var init, last := events[..|events| - 1], events[|events| - 1];
      AppendVerdicts(log, init);
      var all := log + events;
      assert all[..|all| - 1] == log + init;
      assert all[|all| - 1] == last;
      assert events == init + [last];
    }
  }

  lemma {:induction false} ExpiriesCover(items: seq<Item>, kind: Kind)
    ensures Verdicts(Expiries(items, kind))
    ensures forall op :: op in Ops(items) ==> exists e :: e in Expiries(items, kind) && e.op == op
  {
    if items != [] {
      var rest := Expiries(items[1..], kind);
      ExpiriesCover(items[1..], kind);
      forall op | op in Ops(items) ensures exists e :: e in Expiries(items, kind) && e.op == op {
        var i :| 0 <= i < |items| && items[i].op == op;
        if i == 0 {
          assert Faulted(op, kind, EXPIRED_DETAIL) in Expiries(items, kind);
        } else {
          assert items[1..][i - 1].op == op;
          assert op in Ops(items[1..]);
          var e :| e in rest && e.op == op;
          assert e in Expiries(items, kind);
        }
      }
    }
  }

  lemma {:induction false} OutcomesCover(items: seq<Item>, kind: Kind, results: seq<NodeResult>, now: int)
    ensures Verdicts(Outcomes(items, kind, results, now))
    ensures forall op :: op in Settled(items, results) ==> exists e :: e in Outcomes(items, kind, results, now) && e.op == op
  {
    if items != [] {
      var head, rest := OutcomeOf(items[0], kind, results, now), Outcomes(items[1..], kind, results, now);
      OutcomesCover(items[1..], kind, results, now);
      forall op | op in Settled(items, results) ensures exists e: Event :: e in head + rest && e.op == op {
        var i :| 0 <= i < |items| && !Unfinished(results, items[i].op) && items[i].op == op;
        if i == 0 {
          assert head[0] in head + rest;
        } else {
          assert items[1..][i - 1].op == op;
          assert op in Settled(items[1..], results);
          var e :| e in rest && e.op == op;
          assert e in head + rest;
        }
      }
    }
  }

  lemma {:induction false} StepKeepsOpen(s: Sys, step: Step)
    requires OpenInFlight(s) && Exclusive(s) && KeysMatch(s.line) && Enabled(s, step) && Clean(s, step)
    ensures OpenInFlight(Next(s, step))
  {
    match step
    case SendAcks(id) =>
      var part, all := s.line.sender.part, Unresolved(s.line);
      assert all == part + (s.line.sender.later + s.line.queue);
      assert Unsent(s.line) == all;
      assert forall i :: 0 <= i < |part| ==> all[i] == part[i];
      AppendEntries(s.log, part, id);
    case ResumeBatch(rawId, ops) =>
      if Resumable(s.book, rawId, ops) {
        var items := ResumeItems(ops);
        assert forall i :: 0 <= i < |items| ==> items[i].op in Ops(items);
        AppendEntries(s.log, items, Trim(rawId));
      }
    case PollAnswers(results) => ReplyKeepsOpen(s, results);
    case LookAt =>
      var id := s.poller.todo[0];
      if FirstLook(s.book, id, s.now) == Expire {
        var batch := s.book.inProgress[id];
        ExpiriesCover(batch.items, batch.kind);
        AppendVerdicts(s.log, Expiries(batch.items, batch.kind));
      }
    case _ =>
  }

  lemma {:induction false} ReplyKeepsOpen(s: Sys, results: seq<NodeResult>)
    requires OpenInFlight(s) && Enabled(s, PollAnswers(results))
    ensures OpenInFlight(Answered(s, results))
  {
    var id := s.poller.asked.value;
    if id !in s.book.inProgress {
      assert s.log + [] == s.log;
    } else {
      var batch := s.book.inProgress[id];
      if GivesUp(batch, results) {
        ExpiriesCover(batch.items, batch.kind);
        AppendVerdicts(s.log, Expiries(batch.items, batch.kind));
      } else if results == [] {
        assert s.log + [] == s.log;
      } else {
        OutcomesCover(batch.items, batch.kind, results, s.now);
        AppendVerdicts(s.log, Outcomes(batch.items, batch.kind, results, s.now));
      }
    }
  }

  lemma {:induction false} CleanRunKeeps(s: Sys, steps: seq<Step>)
    requires Inv(s) && Exclusive(s) && OpenInFlight(s) && Legal(s, steps) && CleanRun(s, steps)
    ensures var end := Run(s, steps); Inv(end) && Exclusive(end) && OpenInFlight(end)
    decreases |steps|
  {
    if steps != [] {
      StepKeepsInv(s, steps[0]);
      StepKeepsExclusive(s, steps[0]);
      StepKeepsOpen(s, steps[0]);
      CleanRunKeeps(Next(s, steps[0]), steps[1..]);
    }
  }

  // ---------- the theorems ----------

  /** In a clean run, what is in flight is exactly what is tracked, each operation in one batch and once in it. */
  lemma {:induction false} InFlightIsTheDisjointUnion(start: int, steps: seq<Step>)
    requires Legal(Init(start), steps) && CleanRun(Init(start), steps)
    ensures var book := Run(Init(start), steps).book;
            && (forall op :: op in book.inFlight <==> exists id :: id in book.inProgress && op in Ops(book.inProgress[id].items))
            && (forall id :: id in book.inProgress ==> DistinctOps(book.inProgress[id].items))
            && (forall id, id' :: id in book.inProgress && id' in book.inProgress && id != id' ==>
                  Ops(book.inProgress[id].items) !! Ops(book.inProgress[id'].items))
  {
    InitInv(start);
    CleanRunKeeps(Init(start), steps);
    var book := Run(Init(start), steps).book;
    assert forall id :: id in book.inProgress ==> Holds(book, id);
    forall op | op in book.inFlight ensures exists id :: id in book.inProgress && op in Ops(book.inProgress[id].items) {
      assert Indexed(book, op);
    }
  }

  /** In a clean run, between two registrations of one operation lies a verdict on the first. */
  lemma {:induction false} VerdictBetweenSends(start: int, steps: seq<Step>, i: nat, j: nat)
    requires Legal(Init(start), steps) && CleanRun(Init(start), steps)
    requires var log := Run(Init(start), steps).log;
             i < j < |log| && log[i].Entered? && log[j].Entered? && log[i].op == log[j].op
    ensures var log := Run(Init(start), steps).log;
            exists k :: i < k < j && !log[k].Entered? && log[k].op == log[i].op
  {
    InitInv(start);
    CleanRunKeeps(Init(start), steps);
    AlternationGivesVerdict(Run(Init(start), steps).log, i, j);
  }

  lemma {:induction false} AlternationGivesVerdict(log: seq<Event>, i: nat, j: nat)
    requires Alternates(log) && i < j < |log| && log[i].Entered? && log[j].Entered? && log[i].op == log[j].op
    ensures exists k :: i < k < j && !log[k].Entered? && log[k].op == log[i].op
    decreases |log|
  {
    var init := log[..|log| - 1];
    if j < |log| - 1 {
      AlternationGivesVerdict(init, i, j);
      var k :| i < k < j && !init[k].Entered? && init[k].op == init[i].op;
      assert log[k] == init[k];
    } else {
      ClosedSince(init, i);
      var k :| i < k < |init| && !init[k].Entered? && init[k].op == init[i].op;
      assert log[k] == init[k];
    }
  }

  lemma {:induction false} ClosedSince(log: seq<Event>, i: nat)
    requires i < |log| && log[i].Entered? && !Open(log, log[i].op)
    ensures exists k :: i < k < |log| && !log[k].Entered? && log[k].op == log[i].op
    decreases |log|
  {
    var last := |log| - 1;
    if log[last].op == log[i].op {
      assert i < last;
    } else {
      var init := log[..last];
      ClosedSince(init, i);
      var k :| i < k < |init| && !init[k].Entered? && init[k].op == init[i].op;
      assert log[k] == init[k];
    }
  }

  /** A run extended by one more step. */
  lemma {:induction false} Extend(s: Sys, steps: seq<Step>, step: Step)
    requires Legal(s, steps) && Enabled(Run(s, steps), step)
    ensures Legal(s, steps + [step]) && Run(s, steps + [step]) == Next(Run(s, steps), step)
    decreases |steps|
  {
    if steps == [] {
      assert [step][1..] == [];
      assert steps + [step] == [step];
    } else {
      assert (steps + [step])[1..] == steps[1..] + [step];
      Extend(Next(s, steps[0]), steps[1..], step);
    }
  }

  /** The sender is idle with an empty line. */
  predicate Quiet(s: Sys) {
    && s.line.sender == Collecting([]) && s.line.queue == [] && s.line.pending == map[] && s.line.draining == []
  }

  /** A caller past its in-flight check queues its item, and the sender takes it. */
  lemma {:induction false} QueueOne(start: int, steps: seq<Step>, ch: Chan) returns (longer: seq<Step>)
    requires Legal(Init(start), steps)
    requires var s := Run(Init(start), steps); Quiet(s) && CanJoin(s.line, ch)
    ensures Legal(Init(start), longer)
    ensures var s, after := Run(Init(start), steps), Run(Init(start), longer);
            var item := s.line.place[ch].item;
            && after.line.sender == Collecting([item]) && after.line.queue == [] && after.line.draining == []
            && after.line.pending == map[item.op := [ch]]
            && after.line.writes == s.line.writes && after.line.place == s.line.place[ch := Waiting(item.op)]
            && after.log == s.log && after.book == s.book
  {
    Extend(Init(start), steps, JoinIn(ch));
    longer := steps + [JoinIn(ch)];
    assert Run(Init(start), longer).line.queue == [Run(Init(start), steps).line.place[ch].item];
    Extend(Init(start), longer, TakeOne);
    longer := longer + [TakeOne];
  }

  /** A caller past its in-flight check queues its item and the batch is acknowledged. */
  lemma {:induction false} QueueAndSend(start: int, steps: seq<Step>, ch: Chan, id: string) returns (longer: seq<Step>)
    requires Legal(Init(start), steps)
    requires var s := Run(Init(start), steps); Quiet(s) && CanJoin(s.line, ch) && id !in s.book.inProgress
    ensures Legal(Init(start), longer)
    ensures var s, after := Run(Init(start), steps), Run(Init(start), longer);
            var item := s.line.place[ch].item;
            && after.line.sender == Resolving([item], Acked(id), [])
            && after.line.queue == [] && after.line.draining == []
            && after.line.pending == map[item.op := [ch]]
            && after.line.writes == s.line.writes && after.line.place == s.line.place[ch := Waiting(item.op)]
            && after.log == s.log + [Entered(item.op, item.kind, id)]
            && after.book.inProgress.Keys == s.book.inProgress.Keys + {id}
  {
    var s0 := Run(Init(start), steps);
    var item := s0.line.place[ch].item;
    longer := QueueOne(start, steps, ch);
    hide Quiet;
    Extend(Init(start), longer, CloseBatch);
    longer := longer + [CloseBatch];
    assert [item][1..] == [];
    assert Part([item][1..], Add) == [] == Part([item][1..], Remove);
    assert Run(Init(start), longer).line.sender == Sending([item], []);
    Extend(Init(start), longer, SendAcks(id));
    longer := longer + [SendAcks(id)];
    assert Entries([item], id) == [Entered(item.op, item.kind, id)];
  }

  /** The sender answers its one waiter. */
  lemma {:induction false} WriteOne(start: int, steps: seq<Step>, ch: Chan, item: Item, id: string) returns (longer: seq<Step>)
    requires Legal(Init(start), steps)
    requires var s := Run(Init(start), steps);
             && s.line.sender == Resolving([item], Acked(id), []) && s.line.draining == []
             && s.line.pending == map[item.op := [ch]] && ch in s.line.place && ch in s.line.writes
    ensures Legal(Init(start), longer)
    ensures var s, after := Run(Init(start), steps), Run(Init(start), longer);
            && after.line.sender == Resolving([], Acked(id), []) && after.line.draining == [] && after.line.queue == s.line.queue
            && after.line.pending == map[] && after.log == s.log && after.book == s.book
            && (forall c :: c in s.line.place && c in s.line.writes && c != ch ==>
                  c in after.line.place && c in after.line.writes && after.line.place[c] == s.line.place[c])
  {
    Extend(Init(start), steps, ResolveOne);
    longer := steps + [ResolveOne];
    assert Run(Init(start), longer).line.draining == [ch];
    Extend(Init(start), longer, DeliverOne);
    longer := longer + [DeliverOne];
  }

  /** The sender answers its one waiter and is idle again. */
  lemma {:induction false} AnswerOne(start: int, steps: seq<Step>, ch: Chan, item: Item, id: string) returns (longer: seq<Step>)
    requires Legal(Init(start), steps)
    requires var s := Run(Init(start), steps);
             && s.line.sender == Resolving([item], Acked(id), []) && s.line.draining == [] && s.line.queue == []
             && s.line.pending == map[item.op := [ch]] && ch in s.line.place && ch in s.line.writes
    ensures Legal(Init(start), longer)
    ensures var s, after := Run(Init(start), steps), Run(Init(start), longer);
            && Quiet(after) && after.log == s.log && after.book == s.book
            && (forall c :: c in s.line.place && c in s.line.writes && c != ch ==>
                  c in after.line.place && c in after.line.writes && after.line.place[c] == s.line.place[c])
  {
    longer := WriteOne(start, steps, ch, item, id);
    Extend(Init(start), longer, AdvancePart);
    longer := longer + [AdvancePart];
  }

  /** The gap between an enqueue's two sections is real: two sends of one removal with no verdict between them. */
  lemma {:induction false} OverlappingEnqueuesSendTwice() returns (steps: seq<Step>)
    ensures Legal(Init(0), steps)
    ensures Run(Init(0), steps).log == [Entered("u-remove", Remove, "b1"), Entered("u-remove", Remove, "b2")]
    ensures Run(Init(0), steps).book.inProgress.Keys == {"b1", "b2"}
  {
    var item := Item("u-remove", Remove, RemoveNodes("sku", "pool", "rafay://pool/sku/host"));
    // Two Delete calls pass the in-flight check before either queues its item.
    Extend(Init(0), [], CallIn(item));
    assert [] + [CallIn(item)] == [CallIn(item)];
    Extend(Init(0), [CallIn(item)], CallIn(item));
    steps := [CallIn(item)] + [CallIn(item)];
    assert Run(Init(0), steps).line.place == map[0 := AtCaller(item), 1 := AtCaller(item)];
    var sent := QueueAndSend(0, steps, 0, "b1");
    var idle := AnswerOne(0, sent, 0, item, "b1");
    steps := QueueAndSend(0, idle, 1, "b2");
  }
}
