/** What the batcher and its clients keep over every run, crashes included. */
module FleetRuns {
  import opened BatchTypes
  import opened ProviderIds
  import opened NodeMatching
  import opened Fleet
  import L = Ledger
  import B = Batcher
  import R = BatcherRuns
  import P = Provenance
  import W = WaitLine
  import opened ResumeGroups

  // ---------- steps of the batcher ----------

  /** Only sending and resuming enter operations, under their own batch ID. */
  lemma {:induction false} NewlyEntered(s: B.Sys, step: B.Step)
    requires B.Enabled(s, step)
    ensures forall e :: e in B.Next(s, step).log && e.Entered? ==>
              e in s.log || (step.SendAcks? && e.batchId == step.batchId) || (step.ResumeBatch? && e.batchId == Trim(step.rawId))
  {
    match step
    case SendAcks(id) => EntriesNamed(s.line.sender.part, id);
    case ResumeBatch(rawId, ops) => EntriesNamed(L.ResumeItems(ops), Trim(rawId));
    case PollAnswers(results) => RepliesEnterNothing(s, results);
    case LookAt =>
      var id := s.poller.todo[0];
      if L.FirstLook(s.book, id, s.now) == L.Expire { R.ExpiriesFault(s.book.inProgress[id].items, s.book.inProgress[id].kind); }
    case _ =>
  }

  lemma {:induction false} RepliesEnterNothing(s: B.Sys, results: seq<NodeResult>)
    requires s.poller.asked.Some?
    ensures forall e :: e in L.ReplyEvents(s.book, s.poller.asked.value, results, s.now) ==> !e.Entered?
  {
    var id := s.poller.asked.value;
    if id in s.book.inProgress {
      var batch := s.book.inProgress[id];
      R.ExpiriesFault(batch.items, batch.kind);
      R.OutcomesComplete(batch.items, batch.kind, results, s.now);
    }
  }

  lemma {:induction false} EntriesNamed(items: seq<Item>, id: string)
    ensures forall e :: e in L.Entries(items, id) ==> e.Entered? && e.batchId == id
  {
    if items != [] { EntriesNamed(items[1..], id); }
  }

  /** Any step of the batcher that asks for nothing new keeps the batcher, the calls and the log in order. */
  lemma {:induction false} SysStepKeeps(f: Fleet, after: Fleet, step: B.Step)
    requires Sane(f) && B.Enabled(f.sys, step) && P.AsksFor(step, OpsFor(f.born))
    requires after.sys == B.Next(f.sys, step) && after.born == f.born && after.calls == f.calls && f.batchIds <= after.batchIds && after.deletes == f.deletes
    requires step.SendAcks? ==> Trim(step.batchId) in after.batchIds
    requires step.ResumeBatch? ==> Trim(Trim(step.rawId)) in after.batchIds
    ensures R.Inv(after.sys) && P.Asked(after.sys, OpsFor(after.born)) && CallsOk(after) && LogOk(after) && DeletesOk(after) && f.sys.log <= after.sys.log
  {
    hide R.Inv, P.Asked, P.AsksFor, ClaimsOk, HandlerOk, OpsFor, B.Next, B.Enabled;
    StepKeepsSys(f, step);
    NewlyEntered(f.sys, step);
    assert CallsOk(after);
  }

  lemma {:induction false} StepKeepsSys(f: Fleet, step: B.Step)
    requires R.Inv(f.sys) && P.Asked(f.sys, OpsFor(f.born)) && B.Enabled(f.sys, step) && P.AsksFor(step, OpsFor(f.born))
    ensures R.Inv(B.Next(f.sys, step)) && P.Asked(B.Next(f.sys, step), OpsFor(f.born))
    ensures W.Later(f.sys.line, B.Next(f.sys, step).line) && f.sys.log <= B.Next(f.sys, step).log
  {
    R.StepKeepsInv(f.sys, step);
    hide B.Next, B.Enabled, P.AsksFor, P.FromLine, P.FromBook, P.FromEvents;
    P.StepKeepsAsked(f.sys, step, OpsFor(f.born));
  }

  lemma {:induction false} BookKeys(s: B.Sys, step: B.Step)
    requires B.Enabled(s, step)
    ensures forall id :: id in B.Next(s, step).book.inProgress ==>
              id in s.book.inProgress || (step.SendAcks? && id == step.batchId) || (step.ResumeBatch? && id == Trim(step.rawId))
  {
  }

  // ---------- Sane ----------

  lemma {:induction false} SameClaims(f: Fleet, after: Fleet)
    requires ClaimsOk(f) && after.claims == f.claims && after.born == f.born && f.batchIds <= after.batchIds
    ensures ClaimsOk(after)
  {
    forall uid | uid in after.claims ensures ClaimOk(after, uid) {
      assert ClaimOk(f, uid);
    }
  }

  lemma {:induction false} InnerKeepsSane(f: Fleet, inner: B.Step)
    requires Sane(f) && OwnStep(inner) && B.Enabled(f.sys, inner)
    ensures Sane(AfterInner(f, inner))
  {
    hide B.Next, B.Enabled;
    var after := AfterInner(f, inner);
    assert P.AsksFor(inner, OpsFor(f.born));
    SysStepKeeps(f, after, inner);
    SameClaims(f, after);
  }

  lemma {:induction false} CallKeepsSane(f: Fleet, item: Item)
    requires Sane(f) && (item.op, item.kind) in OpsFor(f.born)
    ensures Sane(Called(f, item))
  {
    var after := Called(f, item);
    assert P.AsksFor(B.CallIn(item), OpsFor(f.born));
    hide B.Next, R.Inv, P.Asked;
    SysStepKeeps(f, after, B.CallIn(item));
    SameClaims(f, after);
  }

  lemma {:induction false} CallChanges(f: Fleet, item: Item)
    ensures var after := Called(f, item);
            && f.sys.line.next in after.sys.line.place && after.sys.line.place[f.sys.line.next].Op() == item.op
            && after.sys.book == f.sys.book && after.sys.log == f.sys.log
            && after == f.(sys := after.sys)
  {
  }

  /** With the same batcher, only the claims and the handler are left to show. */
  lemma {:induction false} SameBatcher(f: Fleet, after: Fleet)
    requires Sane(f) && after.sys == f.sys && after.born == f.born && f.batchIds <= after.batchIds
    requires forall ch :: ch in after.calls ==> ch in f.calls && after.calls[ch] == f.calls[ch]
    requires ClaimsOk(after) && HandlerOk(after) && after.deletes <= f.deletes
    ensures Sane(after)
  {
    hide R.Inv, P.Asked, ClaimsOk, HandlerOk, OpsFor;
  }

  lemma {:induction false} OneCallMore(f: Fleet, after: Fleet, ch: W.Chan, uid: string)
    requires Sane(f) && after == f.(calls := f.calls[ch := uid])
    requires Unadopted(f, uid) && ch in f.sys.line.place && f.sys.line.place[ch].Op() == uid
    ensures Sane(after)
  {
    hide R.Inv, P.Asked, OpsFor;
    SameClaims(f, after);
    assert CallsOk(after);
  }

  lemma {:induction false} CreateKeepsSane(f: Fleet, seen: Claim, sku: string)
    requires Sane(f) && SeenClaim(f, seen)
    ensures Sane(AfterCreate(f, seen, sku))
  {
    hide R.Inv, P.Asked, Called, Sane;
    var outcome := CreateOutcome(seen, sku);
    if outcome.Asks? {
      assert (seen.uid, Add) in OpsFor(f.born);
      CallKeepsSane(f, outcome.item);
      CallChanges(f, outcome.item);
      OneCallMore(Called(f, outcome.item), AfterCreate(f, seen, sku), f.sys.line.next, seen.uid);
    }
  }

  lemma {:induction false} DeleteKeepsSane(f: Fleet, seen: Claim, found: string)
    requires Sane(f) && seen in f.deletes
    ensures Sane(AfterDelete(f, seen, found))
  {
    var outcome := DeleteOutcome(seen, found);
    if outcome.Awaits? {
      assert (RemoveId(seen.uid), Remove) in OpsFor(f.born);
      CallKeepsSane(f, outcome.item);
    }
  }

  /** An operation with a UID for its name is an add, for a claim that was not adopted. */
  lemma {:induction false} UidsAreAdds(born: map<string, string>, uid: string, kind: Kind)
    requires Uid(uid) && (uid, kind) in OpsFor(born)
    ensures kind == Add && uid in born && born[uid] == ""
  {
    forall u | u in born ensures RemoveId(u) != uid {
      assert RemoveId(u)[|RemoveId(u)| - |REMOVE_SUFFIX|..] == REMOVE_SUFFIX;
    }
  }

  /** And one with a remove ID is a remove. */
  lemma {:induction false} RemoveIdsAreRemoves(born: map<string, string>, uid: string, kind: Kind)
    requires forall u :: u in born ==> Uid(u)
    requires (RemoveId(uid), kind) in OpsFor(born)
    ensures kind == Remove
  {
    assert RemoveId(uid)[|RemoveId(uid)| - |REMOVE_SUFFIX|..] == REMOVE_SUFFIX;
  }

  lemma {:induction false} ReportKeepsSane(f: Fleet, listed: bool)
    requires Sane(f) && f.sys.poller.owed != []
    ensures Sane(Reported(f, listed))
  {
    hide B.Next, R.Inv, P.Asked;
    var after := Reported(f, listed);
    ReportIsEnabled(f);
    UndoneIsUnadopted(f);
    hide B.Enabled, P.AsksFor;
    SysStepKeeps(f, after, B.ReportOne);
    SameClaims(f, after);
  }

  lemma {:induction false} ReportIsEnabled(f: Fleet)
    requires f.sys.poller.owed != []
    ensures B.Enabled(f.sys, B.ReportOne) && P.AsksFor(B.ReportOne, OpsFor(f.born))
  {
  }

  lemma {:induction false} UndoneIsUnadopted(f: Fleet)
    requires Sane(f) && f.sys.poller.owed != []
    ensures var report := f.sys.poller.owed[0]; report.op in f.claims ==> Unadopted(f, report.op)
  {
    var report := f.sys.poller.owed[0];
    assert R.ReportsInv(f.sys) && P.FromEvents(f.sys.log, OpsFor(f.born));
    hide R.Inv, P.Asked;
    assert report in B.Reports(f.sys.log);
    P.ReportsAreAsked(f.sys.log, OpsFor(f.born), report);
    if report.op in f.claims {
      assert ClaimOk(f, report.op);
      UidsAreAdds(f.born, report.op, report.kind);
    }
  }

  lemma {:induction false} ResumeKeepsSane(f: Fleet, id: string)
    requires Sane(f) && GroupsOk(f) && f.startUp.Resuming? && id in f.startUp.groups
    ensures Sane(AfterResume(f, id)) && f.sys.log <= AfterResume(f, id).sys.log
  {
    var ops := f.startUp.groups[id];
    ResumedAreAsked(f, ops);
    AsksForOps(id, ops, OpsFor(f.born));
    var after := AfterResume(f, id);
    hide B.Next, R.Inv, P.Asked, P.AsksFor, OpsFor;
    SysStepKeeps(f, after, B.ResumeBatch(id, ops));
    SameClaims(f, after);
  }

  lemma {:induction false} AsksForOps(id: string, ops: seq<string>, ok: set<Tag>)
    requires P.FromItems(L.ResumeItems(ops), ok)
    ensures P.AsksFor(B.ResumeBatch(id, ops), ok)
  {
  }

  lemma {:induction false} ResumedAreAsked(f: Fleet, ops: seq<string>)
    requires ClaimsOk(f) && forall uid :: uid in ops ==> Unadopted(f, uid)
    ensures P.FromItems(L.ResumeItems(ops), OpsFor(f.born))
    ensures forall i :: 0 <= i < |ops| ==> Item(ops[i], Add, NoRequest) in L.ResumeItems(ops)
  {
    if ops != [] {
      assert ops[0] in ops;
      ResumedAreAsked(f, ops[1..]);
      assert forall i :: 0 < i < |ops| ==> ops[i] == ops[1..][i - 1];
    }
  }

  lemma {:induction false} CrashKeepsSane(f: Fleet)
    requires Sane(f)
    ensures Sane(Crashed(f))
  {
    R.InitInv(f.sys.now);
    SameClaims(f, Crashed(f));
  }

  /** Steps that change one claim and nothing in the batcher. */
  predicate ClaimStep(step: Step) {
    step.NewClaim? || step.CreateReturns? || step.LaunchAdopted? || step.BindClaim? || step.MarkDeleting? || step.RemoveClaim? || step.HandlerDeletes?
  }

  lemma {:induction false} ReturnKeepsSane(f: Fleet, ch: W.Chan)
    requires Sane(f) && HasReturned(f, ch)
    ensures Sane(Returned(f, ch))
  {
    hide R.Inv, P.Asked;
    if f.sys.line.writes[ch][0].Acked? { ReturnIsKnown(f, ch); }
    var after := Returned(f, ch);
    assert ClaimsOk(after) by {
      hide CallsOk, LogOk, HandlerOk;
      forall uid | uid in after.claims ensures ClaimOk(after, uid) {
        assert ClaimOk(f, uid);
      }
    }
    hide Returned;
    ReturnChanges(f, ch);
    SameBatcher(f, after);
  }

  lemma {:induction false} ReturnChanges(f: Fleet, ch: W.Chan)
    requires HasReturned(f, ch)
    ensures var after := Returned(f, ch);
            after == f.(claims := after.claims, calls := after.calls) && after.calls == f.calls - {ch}
  {
  }

  /** An acknowledgement Create receives names a batch its add really entered, in this process. */
  lemma {:induction false} ReturnIsKnown(f: Fleet, ch: W.Chan)
    requires Sane(f) && HasReturned(f, ch) && f.sys.line.writes[ch][0].Acked?
    ensures AddLogged(f, f.calls[ch]) && Trim(f.sys.line.writes[ch][0].batchId) in f.batchIds
  {
    var uid, id := f.calls[ch], f.sys.line.writes[ch][0].batchId;
    assert R.Logged(f.sys.log, uid, id) && P.FromEvents(f.sys.log, OpsFor(f.born));
    hide R.Inv, P.Asked, OpsFor;
    if L.Entered(uid, Remove, id) in f.sys.log {
      assert P.FromEvent(L.Entered(uid, Remove, id), OpsFor(f.born));
      UidsAreAdds(f.born, uid, Remove);
    }
  }

  /** What a claim goes through besides being launched by an acknowledgement. */
  predicate Lived(before: Claim, after: Claim) {
    && after.uid == before.uid && after.adoptedId == before.adoptedId && after.batchId == before.batchId
    && (before.deleting ==> after.deleting)
    && (|| after.providerId == before.providerId
        || (before.providerId == "" && before.adoptedId != "" && after.providerId == before.adoptedId)
        || (IsPending(before.providerId) && IsReal(after.providerId)))
  }

  ghost predicate ClaimsLive(f: Fleet, after: Fleet) {
    && after.sys == f.sys && after.born == f.born && after.batchIds == f.batchIds && after.calls == f.calls && after.startUp == f.startUp && after.deletes == f.deletes
    && forall uid :: uid in after.claims ==> uid in f.claims && Lived(f.claims[uid], after.claims[uid])
  }

  lemma {:induction false} ClaimsDoLive(f: Fleet, step: Step)
    requires Enabled(f, step) && ClaimStep(step) && !step.CreateReturns? && !step.NewClaim?
    requires forall uid :: uid in f.claims ==> f.claims[uid].uid == uid
    ensures ClaimsLive(f, Next(f, step))
  {
    hide B.Next;
  }

  lemma {:induction false} LivingKeepsClaims(f: Fleet, after: Fleet)
    requires ClaimsOk(f) && ClaimsLive(f, after)
    ensures ClaimsOk(after)
  {
    forall uid | uid in after.claims ensures ClaimOk(after, uid) {
      assert ClaimOk(f, uid);
    }
  }

  lemma {:induction false} HandlerStaysOk(f: Fleet, step: Step)
    requires HandlerOk(f) && Enabled(f, step) && ClaimStep(step)
    ensures HandlerOk(Next(f, step))
  {
    hide B.Next;
  }

  lemma {:induction false} OneClaimStep(f: Fleet, step: Step)
    requires Sane(f) && Enabled(f, step) && ClaimStep(step) && !step.CreateReturns? && !step.NewClaim?
    ensures Sane(Next(f, step)) && ClaimsLive(f, Next(f, step))
  {
    hide R.Inv, P.Asked, CallsOk, LogOk, HandlerOk, Next, Enabled;
    forall uid | uid in f.claims ensures f.claims[uid].uid == uid {
      assert ClaimOk(f, uid);
    }
    ClaimsDoLive(f, step);
    LivingKeepsClaims(f, Next(f, step));
    HandlerStaysOk(f, step);
    SameBatcher(f, Next(f, step));
  }

  lemma {:induction false} NewKeepsSane(f: Fleet, claim: Claim)
    requires Sane(f) && Enabled(f, NewClaim(claim))
    ensures Sane(WithClaim(f, claim).(born := f.born[claim.uid := claim.adoptedId]))
  {
    hide R.Inv, P.Asked, OpsFor;
    var after := WithClaim(f, claim).(born := f.born[claim.uid := claim.adoptedId]);
    NewAllowsMore(f, after, claim);
    NewClaimIsOk(f, claim);
    hide ClaimsOk;
    assert CallsOk(after) && LogOk(after) && HandlerOk(after) && DeletesOk(after);
  }

  lemma {:induction false} NewAllowsMore(f: Fleet, after: Fleet, claim: Claim)
    requires P.Asked(f.sys, OpsFor(f.born)) && claim.uid !in f.born && after.sys == f.sys && after.born == f.born[claim.uid := claim.adoptedId]
    ensures P.Asked(after.sys, OpsFor(after.born))
  {
    hide P.Asked;
    assert OpsFor(f.born) <= OpsFor(after.born);
    P.AskedOfMore(f.sys, OpsFor(f.born), OpsFor(after.born));
  }

  lemma {:induction false} NewClaimIsOk(f: Fleet, claim: Claim)
    requires ClaimsOk(f) && Enabled(f, NewClaim(claim))
    ensures ClaimsOk(WithClaim(f, claim).(born := f.born[claim.uid := claim.adoptedId]))
  {
    var after := WithClaim(f, claim).(born := f.born[claim.uid := claim.adoptedId]);
    hide Trim;
    forall uid | uid in after.claims ensures ClaimOk(after, uid) {
      if uid in f.claims { assert ClaimOk(f, uid); }
    }
  }

  // ---------- the resume ----------

  /** The claims stay, the log grows, and any batch newly tracked has a new ID. */
  lemma {:induction false} LogGrows(f: Fleet, after: Fleet)
    requires ClaimsOk(f) && Covered(f) && TrackedAreOwn(f) && GroupsOk(f)
    requires after.claims == f.claims && after.startUp == f.startUp && f.sys.log <= after.sys.log && after.born == f.born && f.batchIds <= after.batchIds
    requires forall id :: id in after.sys.book.inProgress ==> id in f.sys.book.inProgress || id !in f.batchIds
    ensures Covered(after) && TrackedAreOwn(after) && GroupsOk(after)
  {
    hide Awaited, Trim;
    LoggedStays(f, after);
    forall uid | uid in after.claims && Awaited(after.claims[uid]) && Trim(after.claims[uid].batchId) in after.sys.book.inProgress
      ensures AddLogged(after, uid)
    {
      AwaitedIsKnown(f, uid);
    }
    forall uid | uid in after.claims && Awaited(after.claims[uid]) ensures CoveredClaim(after, uid) {
      assert CoveredClaim(f, uid);
    }
  }

  lemma {:induction false} LoggedStays(f: Fleet, after: Fleet)
    requires f.sys.log <= after.sys.log
    ensures forall uid :: AddLogged(f, uid) ==> AddLogged(after, uid)
  {
    forall uid | AddLogged(f, uid) ensures AddLogged(after, uid) {
      var id :| L.Entered(uid, Add, id) in f.sys.log;
      assert L.Entered(uid, Add, id) in after.sys.log;
    }
  }

  lemma {:induction false} AwaitedIsKnown(f: Fleet, uid: string)
    requires ClaimsOk(f) && uid in f.claims && Awaited(f.claims[uid])
    ensures Trim(f.claims[uid].batchId) in f.batchIds && f.claims[uid].uid == uid && Unadopted(f, uid)
  {
    assert ClaimOk(f, uid);
  }

  lemma {:induction false} InnerKeepsGood(f: Fleet, inner: B.Step)
    requires Good(f) && OwnStep(inner) && B.Enabled(f.sys, inner) && FreshBatch(f, inner)
    ensures Good(AfterInner(f, inner))
  {
    hide R.Inv, P.Asked, B.Next, B.Enabled, CallsOk, LogOk, HandlerOk, ClaimOk, Covered, TrackedAreOwn, GroupsOk;
    InnerKeepsSane(f, inner);
    StepKeepsSys(f, inner);
    BookKeys(f.sys, inner);
    LogGrows(f, AfterInner(f, inner));
  }

  lemma {:induction false} CallKeepsGood(f: Fleet, after: Fleet)
    requires Good(f) && Sane(after)
    requires after == f.(sys := after.sys, calls := after.calls, handler := after.handler, deletes := after.deletes)
    requires after.sys.book == f.sys.book && after.sys.log == f.sys.log
    ensures Good(after)
  {
    hide Sane, Covered, TrackedAreOwn, GroupsOk;
    assert ClaimsOk(f) by { SaneClaims(f); }
    LogGrows(f, after);
  }

  lemma {:induction false} SaneClaims(f: Fleet)
    requires Sane(f)
    ensures ClaimsOk(f)
  {
  }

  /** The claims live on: nothing is awaited that was not awaited before. */
  lemma {:induction false} LivingKeepsCovered(f: Fleet, after: Fleet)
    requires ClaimsOk(f) && Covered(f) && TrackedAreOwn(f) && GroupsOk(f) && ClaimsLive(f, after)
    ensures Covered(after) && TrackedAreOwn(after) && GroupsOk(after)
  {
    hide Trim;
    forall uid | uid in after.claims && Awaited(after.claims[uid])
      ensures uid in f.claims && Awaited(f.claims[uid]) && f.claims[uid].batchId == after.claims[uid].batchId
    {
      assert ClaimOk(f, uid);
      assert Lived(f.claims[uid], after.claims[uid]);
    }
    hide Awaited, ClaimsOk, ClaimsLive;
    forall uid | uid in after.claims && Awaited(after.claims[uid]) ensures CoveredClaim(after, uid) {
      assert CoveredClaim(f, uid);
      assert AddLogged(f, uid) ==> AddLogged(after, uid);
    }
    forall uid | uid in after.claims && Awaited(after.claims[uid]) && Trim(after.claims[uid].batchId) in after.sys.book.inProgress
      ensures AddLogged(after, uid)
    {
      assert AddLogged(f, uid);
    }
  }

  /** A launched claim's add is in the log. */
  lemma {:induction false} ReturnKeepsCovered(f: Fleet, ch: W.Chan)
    requires Good(f) && HasReturned(f, ch)
    ensures Covered(Returned(f, ch)) && TrackedAreOwn(Returned(f, ch)) && GroupsOk(Returned(f, ch))
  {
    hide R.Inv, P.Asked, CallsOk, LogOk, HandlerOk, Trim, Awaited;
    if f.sys.line.writes[ch][0].Acked? { ReturnIsKnown(f, ch); }
    SaneClaims(f);
    hide Sane;
    var after := Returned(f, ch);
    assert forall uid :: AddLogged(f, uid) <==> AddLogged(after, uid);
    forall uid | uid in after.claims && Awaited(after.claims[uid])
      ensures AddLogged(after, uid) || (uid in f.claims && f.claims[uid] == after.claims[uid])
    {
      assert ClaimOk(f, uid);
    }
    hide ClaimOk, AddLogged;
    forall uid | uid in after.claims && Awaited(after.claims[uid]) ensures CoveredClaim(after, uid) {
      if !AddLogged(after, uid) { assert CoveredClaim(f, uid); }
    }
  }

  lemma {:induction false} ListsKeepsCovered(f: Fleet, list: seq<Claim>)
    requires Good(f) && f.startUp.Waiting? && ListOf(f, list)
    ensures var after := f.(startUp := Resuming(Grouped(list))); Covered(after) && GroupsOk(after)
  {
    hide R.Inv, P.Asked, CallsOk, LogOk, HandlerOk, Trim, Awaited;
    GroupedByAwaited(list);
    SaneClaims(f);
    hide Sane, Grouped;
    var after := f.(startUp := Resuming(Grouped(list)));
    forall uid | uid in after.claims && Awaited(after.claims[uid]) ensures CoveredClaim(after, uid) {
      assert f.claims[uid] in list && ClaimOk(f, uid);
    }
    forall id | id in Grouped(list) ensures id in f.batchIds && forall uid :: uid in Grouped(list)[id] ==> Unadopted(f, uid) {
      forall uid | uid in Grouped(list)[id] ensures id in f.batchIds && Unadopted(f, uid) {
        var claim :| claim in list && Awaited(claim) && Trim(claim.batchId) == id && claim.uid == uid;
        var i :| 0 <= i < |list| && list[i] == claim;
        AwaitedIsKnown(f, claim.uid);
      }
      assert Grouped(list)[id][0] in Grouped(list)[id];
    }
  }

  /** Resuming a group puts every one of its adds in the log, unless the batch was tracked already, and then they are there. */
  lemma {:induction false} ResumeLogs(f: Fleet, id: string, uid: string)
    requires Good(f) && f.startUp.Resuming? && id in f.startUp.groups && uid in f.startUp.groups[id]
    requires uid in f.claims && Awaited(f.claims[uid]) && Trim(f.claims[uid].batchId) == id
    ensures AddLogged(AfterResume(f, id), uid)
  {
    hide R.Inv, P.Asked, CallsOk, LogOk, HandlerOk, Trim, Awaited, Covered;
    var ops, after := f.startUp.groups[id], AfterResume(f, id);
    ResumedAreAsked(f, ops);
    var i :| 0 <= i < |ops| && ops[i] == uid;
    assert Item(ops[i], Add, NoRequest) in L.ResumeItems(ops);
    if L.Resumable(f.sys.book, id, ops) {
      EntryOf(L.ResumeItems(ops), Item(uid, Add, NoRequest), Trim(id));
      assert L.Entered(uid, Add, Trim(id)) in after.sys.log;
    } else {
      assert AddLogged(f, uid);
      assert after.sys.log == f.sys.log;
    }
  }

  lemma {:induction false} EntryOf(items: seq<Item>, item: Item, id: string)
    requires item in items
    ensures L.Entered(item.op, item.kind, id) in L.Entries(items, id)
  {
    if items[0] != item { EntryOf(items[1..], item, id); }
  }

  lemma {:induction false} ResumeCovers(f: Fleet, id: string, uid: string)
    requires Good(f) && f.startUp.Resuming? && id in f.startUp.groups && uid in f.claims && Awaited(f.claims[uid])
    requires f.sys.log <= AfterResume(f, id).sys.log
    ensures CoveredClaim(AfterResume(f, id), uid)
    ensures Trim(f.claims[uid].batchId) in AfterResume(f, id).sys.book.inProgress ==> AddLogged(AfterResume(f, id), uid)
  {
    hide Sane, GroupsOk, Trim, Awaited, B.Next, L.Resumable;
    var after, own := AfterResume(f, id), Trim(f.claims[uid].batchId);
    LoggedStays(f, after);
    ResumedKeys(f, id);
    hide AddLogged;
    assert CoveredClaim(f, uid);
    if own == id && uid in f.startUp.groups[id] { ResumeLogs(f, id, uid); }
  }

  lemma {:induction false} ResumedKeys(f: Fleet, id: string)
    requires GroupsOk(f) && f.startUp.Resuming? && id in f.startUp.groups
    ensures forall other :: other in AfterResume(f, id).sys.book.inProgress ==> other in f.sys.book.inProgress || other == id
  {
    hide Trim;
    BookKeys(f.sys, B.ResumeBatch(id, f.startUp.groups[id]));
  }

  lemma {:induction false} ResumeKeepsCovered(f: Fleet, id: string)
    requires Good(f) && f.startUp.Resuming? && id in f.startUp.groups
    ensures var after := AfterResume(f, id); Covered(after) && TrackedAreOwn(after) && GroupsOk(after)
  {
    var after := AfterResume(f, id);
    assert f.sys.log <= after.sys.log by {
      hide Covered, TrackedAreOwn, B.Next, R.Inv, P.Asked;
      ResumeKeepsSane(f, id);
    }
    assert GroupsOk(after) by { hide Sane, Trim, B.Next, Covered, TrackedAreOwn; }
    forall uid | uid in after.claims && Awaited(after.claims[uid])
      ensures CoveredClaim(after, uid) && (Trim(after.claims[uid].batchId) in after.sys.book.inProgress ==> AddLogged(after, uid))
    {
      hide Good, CoveredClaim, AddLogged, Trim, Awaited, B.Next;
      ResumeCovers(f, id, uid);
    }
    hide Good, CoveredClaim, AddLogged, Trim, Awaited, B.Next, GroupsOk;
  }

  // ---------- every step, every run ----------

  /** An adopted claim's own annotation is fixed, and a fresh claim awaits nothing. */
  lemma {:induction false} NewKeepsCovered(f: Fleet, claim: Claim)
    requires Good(f) && Enabled(f, NewClaim(claim))
    ensures var after := WithClaim(f, claim).(born := f.born[claim.uid := claim.adoptedId]); Covered(after) && TrackedAreOwn(after) && GroupsOk(after)
  {
    hide R.Inv, P.Asked, CallsOk, LogOk, HandlerOk, Trim, ClaimOk;
    var after := WithClaim(f, claim).(born := f.born[claim.uid := claim.adoptedId]);
    assert forall uid :: AddLogged(f, uid) <==> AddLogged(after, uid);
    hide AddLogged;
    forall uid | uid in after.claims && Awaited(after.claims[uid]) ensures CoveredClaim(after, uid) {
      assert CoveredClaim(f, uid);
    }
  }

  lemma {:induction false} CrashKeepsGood(f: Fleet)
    requires Good(f)
    ensures Good(Crashed(f))
  {
    hide Awaited, Trim;
    CrashKeepsSane(f);
    hide Sane;
  }

  lemma {:induction false} StartKeepsGood(f: Fleet, step: Step)
    requires Good(f) && Enabled(f, step) && (step.StartLists? || step.StartFails? || step.StartEnds?)
    ensures Good(Next(f, step))
  {
    hide R.Inv, P.Asked, Trim, Awaited, B.Next, Grouped;
    var after := Next(f, step);
    SameSane(f, after);
    if step.StartLists? { ListsKeepsCovered(f, step.list); }
    hide Sane, ListOf;
    assert forall uid :: AddLogged(f, uid) <==> AddLogged(after, uid);
    hide AddLogged;
    if !step.StartLists? {
      forall uid | uid in after.claims && Awaited(after.claims[uid]) ensures CoveredClaim(after, uid) {
        assert CoveredClaim(f, uid);
      }
    }
  }

  lemma {:induction false} SameSane(f: Fleet, after: Fleet)
    requires Sane(f) && after == f.(startUp := after.startUp)
    ensures Sane(after)
  {
    SameClaims(f, after);
    hide ClaimsOk;
    SameBatcher(f, after);
  }

  lemma {:induction false} StepKeepsGood(f: Fleet, step: Step)
    requires Good(f) && Enabled(f, step)
    ensures Good(Next(f, step))
  {
    hide Sane, Covered, TrackedAreOwn, GroupsOk, FreshBatch, Uid, IsReal, ListOf, SeenClaim;
    match step
    case Inner(inner) => InnerKeepsGood(f, inner);
    case CreateCall(seen, sku) => CreateKeepsGood(f, seen, sku);
    case DeleteLook(seen) => LookKeepsGood(f, seen);
    case DeleteCall(seen, claims, nodes) => DeleteKeepsGood(f, seen, Found(seen, claims, nodes));
    case ReportTo(listed) => ReportKeepsGood(f, listed);
    case StartResumes(id) =>
      ResumeKeepsSane(f, id);
      ResumeKeepsCovered(f, id);
    case Crash => CrashKeepsGood(f);
    case StartLists(_) => StartKeepsGood(f, step);
    case StartFails => StartKeepsGood(f, step);
    case StartEnds => StartKeepsGood(f, step);
    case CreateReturns(ch) =>
      ReturnKeepsSane(f, ch);
      ReturnKeepsCovered(f, ch);
    case NewClaim(claim) =>
      NewKeepsSane(f, claim);
      NewKeepsCovered(f, claim);
    case _ =>
      OneClaimStep(f, step);
      SaneClaims(f);
      LivingKeepsCovered(f, Next(f, step));
  }

  lemma {:induction false} CreateKeepsGood(f: Fleet, seen: Claim, sku: string)
    requires Good(f) && SeenClaim(f, seen)
    ensures Good(AfterCreate(f, seen, sku))
  {
    hide Sane, Covered, TrackedAreOwn, GroupsOk, Called;
    CreateKeepsSane(f, seen, sku);
    var outcome := CreateOutcome(seen, sku);
    if outcome.Asks? {
      CallChanges(f, outcome.item);
      CallKeepsGood(f, AfterCreate(f, seen, sku));
    }
  }

  lemma {:induction false} LookKeepsGood(f: Fleet, seen: Claim)
    requires Good(f) && SeenClaim(f, seen)
    ensures Good(AfterLook(f, seen))
  {
    LookKeepsSane(f, seen);
    hide Sane, Covered, TrackedAreOwn, GroupsOk;
    CallKeepsGood(f, AfterLook(f, seen));
  }

  lemma {:induction false} LookKeepsSane(f: Fleet, seen: Claim)
    requires Sane(f) && SeenClaim(f, seen)
    ensures Sane(AfterLook(f, seen))
  {
    hide R.Inv, P.Asked, OpsFor;
    SameClaims(f, AfterLook(f, seen));
    hide ClaimsOk, HandlerOk;
  }

  lemma {:induction false} DeleteKeepsGood(f: Fleet, seen: Claim, found: string)
    requires Good(f) && seen in f.deletes
    ensures Good(AfterDelete(f, seen, found))
  {
    hide Sane, Covered, TrackedAreOwn, GroupsOk, Called;
    DeleteKeepsSane(f, seen, found);
    var outcome := DeleteOutcome(seen, found);
    if outcome.Awaits? {
      CallChanges(f, outcome.item);
      CallKeepsGood(f, AfterDelete(f, seen, found));
    }
  }

  lemma {:induction false} ReportKeepsGood(f: Fleet, listed: bool)
    requires Good(f) && f.sys.poller.owed != []
    ensures Good(Reported(f, listed))
  {
    hide Sane, Covered, TrackedAreOwn, GroupsOk;
    ReportKeepsSane(f, listed);
    ReportChanges(f, listed);
    CallKeepsGood(f, Reported(f, listed));
  }

  lemma {:induction false} ReportChanges(f: Fleet, listed: bool)
    requires f.sys.poller.owed != []
    ensures var after := Reported(f, listed);
            && after == f.(sys := after.sys, handler := after.handler)
            && after.sys.book == f.sys.book && after.sys.log == f.sys.log
  {
  }

  lemma {:induction false} BeginIsGood(now: int)
    ensures Good(Begin(now))
  {
    R.InitInv(now);
  }

  lemma {:induction false} RunKeepsGood(f: Fleet, steps: seq<Step>)
    requires Good(f) && Legal(f, steps)
    ensures Good(Run(f, steps))
    decreases |steps|
  {
    hide Good, Enabled, Next;
    if steps != [] {
      StepKeepsGood(f, steps[0]);
      RunKeepsGood(Next(f, steps[0]), steps[1..]);
    }
  }
}
