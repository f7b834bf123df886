/**
  What a poll decides, said of the tracked batch's own fields: when the broker is
  asked, what becomes of each item when it answers, and when a batch is given up.
 */
module PollTheorems {
  import opened BatchTypes
  import opened Ledger
  import opened WaitLine
  import opened Batcher
  import opened BatcherRuns
  import opened BatcherTheorems

  // ---------- the first look ----------

  /** The batch may be polled: it is tracked, and its first poll is due. */
  predicate Due(s: Sys, id: string) {
    id in s.book.inProgress && s.book.inProgress[id].pollAfter <= s.now
  }

  predicate TooOld(s: Sys, id: string)
    requires id in s.book.inProgress
  {
    s.now - s.book.inProgress[id].sentAt > 7200 * SECOND
  }

  /** These events are one fault for each item, in order. */
  predicate FaultsOf(events: seq<Event>, batch: Tracked, detail: string) {
    && |events| == |batch.items|
    && forall i :: 0 <= i < |events| ==> events[i] == Faulted(batch.items[i].op, batch.kind, detail)
  }

  /** The batch is followed no more and its operations are not in flight; every other batch is as it was. */
  predicate GivenUp(book: Book, after: Book, id: string)
    requires id in book.inProgress
  {
    && after.inProgress == book.inProgress - {id}
    && after.inFlight == book.inFlight - Ops(book.inProgress[id].items)
    && after.succeeded == book.succeeded
  }

  lemma {:induction false} ExpiriesAreFaults(items: seq<Item>, kind: Kind)
    ensures |Expiries(items, kind)| == |items|
    ensures forall i :: 0 <= i < |items| ==> Expiries(items, kind)[i] == Faulted(items[i].op, kind, "batch expired at broker")
  {
    if items != [] { ExpiriesAreFaults(items[1..], kind); }
  }

  /**
    Looking at a batch: before its first poll is due nothing happens; while it is
    within the age limit the broker is asked; past the limit, and only then, it is
    given up and each of its items is a failure.
   */
  lemma {:induction false} LookDecides(s: Sys)
    requires Enabled(s, LookAt)
    ensures var id, after := s.poller.todo[0], Next(s, LookAt);
            && after.line == s.line && after.told == s.told && after.now == s.now
            && after.poller.todo == s.poller.todo[1..]
            && (after.poller.asked == Some(id) <==> Due(s, id) && !TooOld(s, id))
            && (after.poller.asked != Some(id) ==> after.poller.asked == None)
            && (!Due(s, id) || !TooOld(s, id) ==> after.book == s.book && after.log == s.log && after.poller.owed == [])
            && (Due(s, id) && TooOld(s, id) ==>
                  && GivenUp(s.book, after.book, id)
                  && s.log <= after.log
                  && FaultsOf(after.log[|s.log|..], s.book.inProgress[id], "batch expired at broker"))
  {
    var id, after := s.poller.todo[0], Next(s, LookAt);
    if Due(s, id) && TooOld(s, id) {
      var batch := s.book.inProgress[id];
      ExpiriesAreFaults(batch.items, batch.kind);
      assert after.log[|s.log|..] == Expiries(batch.items, batch.kind);
    }
  }

  // ---------- the reply ----------

  /** The reply's last word on an operation is this entry. */
  predicate LastWord(results: seq<NodeResult>, op: string, k: int) {
    0 <= k < |results| && results[k].op == op && forall j :: k < j < |results| ==> results[j].op != op
  }

  /** The reply's last word on an operation is of this state. */
  ghost predicate Says(results: seq<NodeResult>, op: string, state: NodeState) {
    exists k :: LastWord(results, op, k) && results[k].state == state
  }

  lemma {:induction false} VerdictIsLastWord(results: seq<NodeResult>, op: string)
    ensures Verdict(results, op).None? <==> forall k :: 0 <= k < |results| ==> results[k].op != op
    ensures Verdict(results, op).Some? ==> exists k :: LastWord(results, op, k) && results[k] == Verdict(results, op).value
  {
    if results != [] && results[|results| - 1].op != op {
      var init := results[..|results| - 1];
      VerdictIsLastWord(init, op);
      assert forall k :: 0 <= k < |init| ==> results[k] == init[k];
      if Verdict(results, op).Some? {
        var k :| LastWord(init, op, k) && init[k] == Verdict(init, op).value;
        assert LastWord(results, op, k);
      }
    } else if results != [] {
      assert LastWord(results, op, |results| - 1);
    }
  }

  lemma {:induction false} WonMeans(results: seq<NodeResult>, op: string)
    ensures Won(results, op) <==> Says(results, op, Succeeded)
    ensures Lost(results, op) <==> Says(results, op, Failed)
    ensures Unfinished(results, op) <==> !Says(results, op, Succeeded) && !Says(results, op, Failed)
  {
    VerdictIsLastWord(results, op);
    forall k | LastWord(results, op, k) ensures Verdict(results, op) == Some(results[k]) {
      var j :| LastWord(results, op, j) && results[j] == Verdict(results, op).value;
      assert k == j;
    }
  }

  /** The event is what the reply's last word on one of the batch's items makes of it. */
  ghost predicate EventOf(batch: Tracked, results: seq<NodeResult>, now: int, e: Event) {
    exists i, k :: 0 <= i < |batch.items| && LastWord(results, batch.items[i].op, k) && SaidAs(batch.items[i].op, batch.kind, results[k], now, e)
  }

  predicate SaidAs(op: string, kind: Kind, result: NodeResult, now: int, e: Event) {
    || (result.state == Succeeded && e == Completed(op, kind, now))
    || (result.state == Failed && e == Faulted(op, kind, result.detail))
  }

  lemma {:induction false} OutcomeIsSaid(item: Item, kind: Kind, results: seq<NodeResult>, now: int, e: Event)
    ensures e in OutcomeOf(item, kind, results, now) <==> exists k :: LastWord(results, item.op, k) && SaidAs(item.op, kind, results[k], now, e)
  {
    VerdictIsLastWord(results, item.op);
    forall k | LastWord(results, item.op, k) ensures Verdict(results, item.op) == Some(results[k]) {
      var j :| LastWord(results, item.op, j) && results[j] == Verdict(results, item.op).value;
      assert k == j;
    }
  }

  lemma {:induction false} OutcomesAreSaid(batch: Tracked, results: seq<NodeResult>, now: int, e: Event)
    ensures e in Outcomes(batch.items, batch.kind, results, now) <==> EventOf(batch, results, now, e)
    decreases |batch.items|
  {
    var items := batch.items;
    if items != [] {
      var rest := batch.(items := items[1..]);
      OutcomeIsSaid(items[0], batch.kind, results, now, e);
      OutcomesAreSaid(rest, results, now, e);
      hide LastWord, SaidAs, OutcomeOf;
      if EventOf(batch, results, now, e) {
        var i, k :| 0 <= i < |items| && LastWord(results, items[i].op, k) && SaidAs(items[i].op, batch.kind, results[k], now, e);
        if i > 0 { assert rest.items[i - 1] == items[i]; }
      }
      if EventOf(rest, results, now, e) {
        var i, k :| 0 <= i < |rest.items| && LastWord(results, rest.items[i].op, k) && SaidAs(rest.items[i].op, batch.kind, results[k], now, e);
        assert rest.items[i] == items[i + 1];
      }
    }
  }

  /** The reply that ends a batch nobody at the broker knows: the third empty one in a row. */
  predicate ThirdEmpty(batch: Tracked, results: seq<NodeResult>) {
    results == [] && batch.emptyPolls >= 2
  }

  /** An empty reply changes nothing but the count, and the third in a row gives the batch up. */
  lemma {:induction false} EmptyReplyDecides(s: Sys)
    requires Enabled(s, PollAnswers([])) && s.poller.asked.value in s.book.inProgress
    ensures var id, after := s.poller.asked.value, Next(s, PollAnswers([]));
            var batch := s.book.inProgress[id];
            if ThirdEmpty(batch, []) then
              GivenUp(s.book, after.book, id) && s.log <= after.log && FaultsOf(after.log[|s.log|..], batch, "batch expired at broker")
            else
              && after.log == s.log && after.poller.owed == []
              && after.book == s.book.(inProgress := s.book.inProgress[id := batch.(emptyPolls := batch.emptyPolls + 1)])
  {
    var id, after := s.poller.asked.value, Next(s, PollAnswers([]));
    var batch := s.book.inProgress[id];
    ExpiriesAreFaults(batch.items, batch.kind);
    if ThirdEmpty(batch, []) { assert after.log[|s.log|..] == Expiries(batch.items, batch.kind); }
  }

  /** What a reply leaves of a batch: the items it does not call finished, each where it was among the others. */
  ghost predicate LeftOver(before: seq<Item>, after: seq<Item>, results: seq<NodeResult>) {
    && (forall item :: item in after <==> item in before && !Says(results, item.op, Succeeded) && !Says(results, item.op, Failed))
    && exists at: seq<int> :: Embeds(before, after, at)
  }

  lemma {:induction false} KeepEmbeds(items: seq<Item>, results: seq<NodeResult>) returns (at: seq<int>)
    ensures Embeds(items, Keep(items, results), at)
  {
    at := [];
    if items != [] {
      var rest := KeepEmbeds(items[1..], results);
      var kept := Unfinished(results, items[0].op);
      assert Keep(items, results) == (if kept then [items[0]] else []) + Keep(items[1..], results);
      hide Unfinished, Keep;
      at := EmbedMore(items, Keep(items[1..], results), rest, kept);
    }
  }

  lemma {:induction false} KeepIsLeftOver(items: seq<Item>, results: seq<NodeResult>)
    ensures LeftOver(items, Keep(items, results), results)
  {
    KeepIsFilter(items, results);
    var at := KeepEmbeds(items, results);
    hide Unfinished, Says, Embeds;
    forall item ensures item in Keep(items, results) <==> item in items && !Says(results, item.op, Succeeded) && !Says(results, item.op, Failed) {
      WonMeans(results, item.op);
    }
  }

  /**
    A reply with results, item by item and by the last word on each: who is finished
    leaves the batch and is in flight no more, a success is recorded with the time, and
    old successes are dropped. The batch stays exactly while something is unfinished.
   */
  lemma {:induction false} ReplyDecides(s: Sys, results: seq<NodeResult>)
    requires Enabled(s, PollAnswers(results)) && results != [] && s.poller.asked.value in s.book.inProgress
    ensures var id, after := s.poller.asked.value, Next(s, PollAnswers(results));
            var batch := s.book.inProgress[id];
            && (exists left: seq<Item> ::
                  && LeftOver(batch.items, left, results)
                  && after.book.inProgress == if left == [] then s.book.inProgress - {id}
                                              else s.book.inProgress[id := batch.(items := left, emptyPolls := 0)])
            && (forall op :: op in after.book.inFlight <==>
                  op in s.book.inFlight && !(op in Ops(batch.items) && (Says(results, op, Succeeded) || Says(results, op, Failed))))
    ensures var id, after := s.poller.asked.value, Next(s, PollAnswers(results));
            var batch := s.book.inProgress[id];
            && s.log <= after.log
            && forall e :: e in after.log[|s.log|..] <==> EventOf(batch, results, s.now, e)
  {
    var id, after := s.poller.asked.value, Next(s, PollAnswers(results));
    var batch := s.book.inProgress[id];
    KeepIsLeftOver(batch.items, results);
    forall op ensures op in Settled(batch.items, results) <==> op in Ops(batch.items) && (Says(results, op, Succeeded) || Says(results, op, Failed)) {
      WonMeans(results, op);
    }
    hide Says, LeftOver, Keep, Won, Lost, Unfinished, Settled, Winners, Prune;
    forall e ensures e in Outcomes(batch.items, batch.kind, results, s.now) <==> EventOf(batch, results, s.now, e) {
      OutcomesAreSaid(batch, results, s.now, e);
    }
    hide EventOf, Outcomes;
    assert after.log[|s.log|..] == ReplyEvents(s.book, id, results, s.now);
  }

  /** The record of successes after such a reply: the new ones with the time, and no old one past the retention. */
  lemma {:induction false} ReplyRecords(s: Sys, results: seq<NodeResult>, op: string)
    requires Enabled(s, PollAnswers(results)) && results != [] && s.poller.asked.value in s.book.inProgress
    ensures var after, batch := Next(s, PollAnswers(results)).book, s.book.inProgress[s.poller.asked.value];
            if op in Ops(batch.items) && Says(results, op, Succeeded) then op in after.succeeded && after.succeeded[op] == s.now
            else (op in after.succeeded <==> op in s.book.succeeded && s.now - s.book.succeeded[op] <= 7200 * SECOND)
                 && (op in after.succeeded ==> after.succeeded[op] == s.book.succeeded[op])
  {
    var batch := s.book.inProgress[s.poller.asked.value];
    WonMeans(results, op);
    assert op in Winners(batch.items, results) <==> op in Ops(batch.items) && Says(results, op, Succeeded);
    hide Says, Won, Lost, Unfinished;
  }

  // ---------- no failure without a cause ----------

  /** The operation is one of a tracked batch that has outlived the limit, or was unknown to the broker three times running. */
  predicate Abandoned(s: Sys, step: Step, op: string, kind: Kind) {
    || (step.LookAt? && s.poller.todo != [] && Holding(s, s.poller.todo[0], op, kind) && TooOld(s, s.poller.todo[0]))
    || (step.PollAnswers? && s.poller.asked.Some? && Holding(s, s.poller.asked.value, op, kind)
        && ThirdEmpty(s.book.inProgress[s.poller.asked.value], step.results))
  }

  predicate Holding(s: Sys, id: string, op: string, kind: Kind) {
    id in s.book.inProgress && s.book.inProgress[id].kind == kind && op in Ops(s.book.inProgress[id].items)
  }

  /** The broker's reply about a tracked batch has this as its last word on the operation. */
  ghost predicate Polled(s: Sys, step: Step, op: string, kind: Kind, state: NodeState, detail: string) {
    && step.PollAnswers? && s.poller.asked.Some? && Holding(s, s.poller.asked.value, op, kind)
    && exists k :: LastWord(step.results, op, k) && step.results[k].state == state && (state == Failed ==> step.results[k].detail == detail)
  }

  /**
    Over every run and every step: a failure enters the history only because the broker said
    FAILED last, with its own detail, or because the batch was past the age limit or unknown
    to the broker three times in a row; a completion only because it said SUCCEEDED last.
   */
  lemma {:induction false} EveryVerdictHasACause(start: int, steps: seq<Step>, step: Step, e: Event)
    requires Legal(Init(start), steps) && Enabled(Run(Init(start), steps), step)
    ensures var s := Run(Init(start), steps);
            var after := Next(s, step);
            && s.log <= after.log
            && (e in after.log[|s.log|..] && e.Faulted? ==>
                  || Polled(s, step, e.op, e.kind, Failed, e.detail)
                  || (e.detail == "batch expired at broker" && Abandoned(s, step, e.op, e.kind)))
            && (e in after.log[|s.log|..] && e.Completed? ==> e.at == s.now && Polled(s, step, e.op, e.kind, Succeeded, ""))
  {
    var s := Run(Init(start), steps);
    FromStart(start, steps);
    StepKeepsInv(s, step);
    hide Inv, Run, Legal;
    if step.LookAt? {
      LookVerdicts(s, e);
    } else if step.PollAnswers? {
      ReplyVerdicts(s, step.results, e);
    } else {
      QuietSteps(s, step, e);
    }
  }

  lemma {:induction false} LookVerdicts(s: Sys, e: Event)
    requires Enabled(s, LookAt)
    ensures var after := Next(s, LookAt);
            s.log <= after.log && (e in after.log[|s.log|..] ==>
              e.Faulted? && e.detail == "batch expired at broker" && Abandoned(s, LookAt, e.op, e.kind))
  {
    LookDecides(s);
    hide FirstLook, Forget, Expiries;
    var id, after := s.poller.todo[0], Next(s, LookAt);
    if Due(s, id) && TooOld(s, id) && e in after.log[|s.log|..] {
      var i :| 0 <= i < |after.log[|s.log|..]| && after.log[|s.log|..][i] == e;
      assert s.book.inProgress[id].items[i].op in Ops(s.book.inProgress[id].items);
    }
  }

  lemma {:induction false} ReplyVerdicts(s: Sys, results: seq<NodeResult>, e: Event)
    requires Enabled(s, PollAnswers(results))
    ensures var step := PollAnswers(results);
            var after := Next(s, step);
            && s.log <= after.log
            && (e in after.log[|s.log|..] && e.Faulted? ==>
                  || Polled(s, step, e.op, e.kind, Failed, e.detail)
                  || (e.detail == "batch expired at broker" && Abandoned(s, step, e.op, e.kind)))
            && (e in after.log[|s.log|..] && e.Completed? ==> e.at == s.now && Polled(s, step, e.op, e.kind, Succeeded, ""))
  {
    var id, after := s.poller.asked.value, Next(s, PollAnswers(results));
    if id !in s.book.inProgress {
      assert after.log == s.log;
    } else if results == [] {
      EmptyReplyDecides(s);
      hide ApplyReply, ReplyEvents, Polled;
      if ThirdEmpty(s.book.inProgress[id], []) && e in after.log[|s.log|..] {
        var i :| 0 <= i < |after.log[|s.log|..]| && after.log[|s.log|..][i] == e;
        assert s.book.inProgress[id].items[i].op in Ops(s.book.inProgress[id].items);
      }
    } else {
      ReplyDecides(s, results);
      hide ApplyReply, ReplyEvents, EventOf;
      var batch := s.book.inProgress[id];
      if e in after.log[|s.log|..] { EventIsPolled(s, results, e); }
    }
  }

  lemma {:induction false} EventIsPolled(s: Sys, results: seq<NodeResult>, e: Event)
    requires s.poller.asked.Some? && s.poller.asked.value in s.book.inProgress
    requires EventOf(s.book.inProgress[s.poller.asked.value], results, s.now, e)
    ensures e.Faulted? ==> Polled(s, PollAnswers(results), e.op, e.kind, Failed, e.detail)
    ensures e.Completed? ==> e.at == s.now && Polled(s, PollAnswers(results), e.op, e.kind, Succeeded, "")
  {
    var batch := s.book.inProgress[s.poller.asked.value];
    var i, k :| 0 <= i < |batch.items| && LastWord(results, batch.items[i].op, k) && SaidAs(batch.items[i].op, batch.kind, results[k], s.now, e);
    assert batch.items[i].op in Ops(batch.items);
  }

  lemma {:induction false} EntriesAreEntered(items: seq<Item>, id: string)
    ensures forall e :: e in Entries(items, id) ==> e.Entered?
  {
    if items != [] { EntriesAreEntered(items[1..], id); }
  }

  lemma {:induction false} QuietSteps(s: Sys, step: Step, e: Event)
    requires Enabled(s, step) && !step.LookAt? && !step.PollAnswers?
    ensures s.log <= Next(s, step).log && (e in Next(s, step).log[|s.log|..] ==> e.Entered?)
  {
    hide Register, Resume, SendDone, Call, Join;
    match step
    case SendAcks(id) => EntriesAreEntered(s.line.sender.part, id);
    case ResumeBatch(rawId, ops) => EntriesAreEntered(ResumeItems(ops), Trim(rawId));
    case _ =>
  }

  // ---------- from a send to its first poll ----------

  /** A batch just accepted is tracked whole, its items in flight, and its first poll is two minutes off. */
  lemma {:induction false} SentIsTracked(s: Sys, id: string)
    requires Enabled(s, SendAcks(id))
    ensures var part, after := s.line.sender.part, Next(s, SendAcks(id)).book;
            && after.inProgress == s.book.inProgress[id := Tracked(part[0].kind, part, s.now, s.now + 120 * SECOND, 0)]
            && after.inFlight == s.book.inFlight + Ops(part) && after.succeeded == s.book.succeeded
            && (forall op :: op in Ops(part) ==> op in after.opBatch && after.opBatch[op] == id)
            && (forall op :: op in s.book.opBatch && op !in Ops(part) ==> op in after.opBatch && after.opBatch[op] == s.book.opBatch[op])
  {
  }

  predicate NotResumed(steps: seq<Step>, id: string) {
    forall i :: 0 <= i < |steps| && steps[i].ResumeBatch? ==> Trim(steps[i].rawId) != id
  }

  /** While it is tracked, its first poll is not before this time, nor could it be if it were sent again. */
  ghost predicate NotBefore(s: Sys, id: string, time: int) {
    s.now + 120 * SECOND >= time && (id in s.book.inProgress ==> s.book.inProgress[id].pollAfter >= time)
  }

  lemma {:induction false} StepWaits(s: Sys, step: Step, id: string, time: int)
    requires NotBefore(s, id, time) && Enabled(s, step) && (step.ResumeBatch? ==> Trim(step.rawId) != id)
    ensures NotBefore(Next(s, step), id, time)
  {
    hide ResumeItems, Trim, Ops, Point, Keep, Settled, Winners, Prune, Call, Join, Close, Entries, Outcomes, Expiries;
    match step
    case LookAt =>
    case PollAnswers(results) =>
    case SendAcks(other) =>
    case ResumeBatch(rawId, ops) =>
    case _ =>
  }

  lemma {:induction false} RunWaits(s: Sys, steps: seq<Step>, id: string, time: int)
    requires NotBefore(s, id, time) && Legal(s, steps) && NotResumed(steps, id)
    ensures NotBefore(Run(s, steps), id, time)
    decreases |steps|
  {
    if steps != [] {
      StepWaits(s, steps[0], id, time);
      assert forall i :: 0 <= i < |steps| - 1 ==> steps[1..][i] == steps[i + 1];
      hide NotBefore, Next, Enabled;
      RunWaits(Next(s, steps[0]), steps[1..], id, time);
    }
  }

  /**
    Over every run: the poller does not come to ask about a batch this process sent until
    two minutes later, whatever else happens, unless a resume takes its ID up.
   */
  lemma {:induction false} SentWaitsForItsPoll(start: int, steps: seq<Step>, id: string, more: seq<Step>)
    requires Legal(Init(start), steps) && Enabled(Run(Init(start), steps), SendAcks(id))
    requires var sent := Next(Run(Init(start), steps), SendAcks(id)); Legal(sent, more) && NotResumed(more, id)
    ensures var s := Run(Init(start), steps);
            var late := Run(Next(s, SendAcks(id)), more);
            Enabled(late, LookAt) && Next(late, LookAt).poller.asked == Some(id) ==> late.now >= s.now + 120 * SECOND
  {
    var s := Run(Init(start), steps);
    var sent := Next(s, SendAcks(id));
    assert NotBefore(sent, id, s.now + 120 * SECOND);
    RunWaits(sent, more, id, s.now + 120 * SECOND);
    hide Run, Legal;
    var late := Run(sent, more);
    if Enabled(late, LookAt) { LookDecides(late); }
  }

  // ---------- a batch taken up again ----------

  /** The ID is one of these, trimmed. */
  predicate Named(ops: seq<string>, op: string) {
    exists i :: 0 <= i < |ops| && Trim(ops[i]) == op
  }

  /** The operations a resume tracks: the IDs it is given, trimmed, the empty ones dropped. */
  lemma {:induction false} ResumeItemsAre(ops: seq<string>)
    ensures forall item :: item in ResumeItems(ops) <==> item.op != "" && item.kind == Add && item.req == NoRequest && Named(ops, item.op)
  {
    hide Trim;
    if ops != [] {
      var rest := ops[1..];
      ResumeItemsAre(rest);
      forall op ensures Named(ops, op) <==> op == Trim(ops[0]) || Named(rest, op) {
        if i :| 0 <= i < |ops| && Trim(ops[i]) == op { if i > 0 { assert rest[i - 1] == ops[i]; } }
        if i :| 0 <= i < |rest| && Trim(rest[i]) == op { assert ops[i + 1] == rest[i]; }
      }
      hide Named;
      assert forall item :: item in ResumeItems(ops) <==> item in ResumeItems(rest) || (Trim(ops[0]) != "" && item == Item(Trim(ops[0]), Add, NoRequest));
    }
  }

  /** A resume tracks such a batch, due at once and aged from now, exactly when its ID is usable and free and an operation is left. */
  lemma {:induction false} ResumeDecides(s: Sys, rawId: string, ops: seq<string>)
    ensures var id, after := Trim(rawId), Next(s, ResumeBatch(rawId, ops));
            if id != "" && id !in s.book.inProgress && (exists op :: op != "" && Named(ops, op)) then
              && id in after.book.inProgress
              && var batch := after.book.inProgress[id];
              && after.book.inProgress == s.book.inProgress[id := batch]
              && batch.kind == Add && batch.sentAt == s.now && batch.pollAfter == s.now && batch.emptyPolls == 0
              && (forall op :: op in Ops(batch.items) <==> op != "" && Named(ops, op))
              && after.book.inFlight == s.book.inFlight + Ops(batch.items)
            else after == s
  {
    ResumeItemsAre(ops);
    hide Trim, ResumeItems, Named;
    var items := ResumeItems(ops);
    forall op ensures op in Ops(items) <==> op != "" && Named(ops, op) {
      if op in Ops(items) {
        var n :| 0 <= n < |items| && items[n].op == op;
        assert items[n] in items;
      }
      if op != "" && Named(ops, op) { assert Item(op, Add, NoRequest) in items; }
    }
    if items != [] { assert items[0] in items; }
    if op :| op != "" && Named(ops, op) { assert op in Ops(items); }
  }
}
