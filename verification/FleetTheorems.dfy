/** What the batcher's clients can rely on, over every run from a first start, with any number of crashes. */
module FleetTheorems {
  import opened BatchTypes
  import opened ProviderIds
  import opened NodeMatching
  import opened Fleet
  import opened FleetRuns
  import L = Ledger
  import B = Batcher
  import R = BatcherRuns
  import P = Provenance
  import T = BatcherTheorems

  lemma {:induction false} FromFirstStart(now: int, steps: seq<Step>)
    requires Legal(Begin(now), steps)
    ensures Good(Run(Begin(now), steps))
  {
    BeginIsGood(now);
    RunKeepsGood(Begin(now), steps);
  }

  // ---------- no add is forgotten ----------

  /** A batch tracked now holds the operation. */
  ghost predicate IsTracked(f: Fleet, op: string) {
    exists id :: id in f.sys.book.inProgress && op in Ops(f.sys.book.inProgress[id].items)
  }

  /** A poll of this process settled the operation, and a failure is on its way to the handler or has reached it. */
  ghost predicate HadVerdict(f: Fleet, op: string, kind: Kind) {
    || (exists at :: L.Completed(op, kind, at) in f.sys.log)
    || (exists detail :: Report(op, kind, detail) in f.sys.told + f.sys.poller.owed)
  }

  /**
    Once a process has resumed what it listed, every pending, live and annotated
    claim has its add tracked or has had its verdict in this process.
   */
  lemma {:induction false} NoAddIsForgotten(now: int, steps: seq<Step>, uid: string)
    requires Legal(Begin(now), steps)
    requires var f := Run(Begin(now), steps);
             && f.startUp.Done? && uid in f.claims
             && IsPending(f.claims[uid].providerId) && !f.claims[uid].deleting && Trim(f.claims[uid].batchId) != ""
    ensures var f := Run(Begin(now), steps); IsTracked(f, uid) || HadVerdict(f, uid, Add)
  {
    var f := Run(Begin(now), steps);
    FromFirstStart(now, steps);
    hide Run, Legal;
    assert CoveredClaim(f, uid);
    LoggedIsTrackedOrSettled(f, uid);
  }

  lemma {:induction false} LoggedIsTrackedOrSettled(f: Fleet, uid: string)
    requires R.Inv(f.sys) && AddLogged(f, uid)
    ensures IsTracked(f, uid) || HadVerdict(f, uid, Add)
  {
    var id :| L.Entered(uid, Add, id) in f.sys.log;
    T.EnteredIsTrackedOrSettled(f.sys, uid, Add, id);
    if detail :| L.Faulted(uid, Add, detail) in f.sys.log {
      FaultIsReported(f.sys.log, uid, Add, detail);
      assert R.ReportsInv(f.sys);
    }
  }

  lemma {:induction false} FaultIsReported(log: seq<L.Event>, op: string, kind: Kind, detail: string)
    requires L.Faulted(op, kind, detail) in log
    ensures Report(op, kind, detail) in B.Reports(log)
  {
    if log[0] != L.Faulted(op, kind, detail) { FaultIsReported(log[1..], op, kind, detail); }
  }

  // ---------- adoption provisions nothing and is never undone ----------

  /** No add for the claim was ever queued, sent, resumed, tracked or reported by this process. */
  ghost predicate NeverAdded(f: Fleet, uid: string) {
    && (forall item :: item in f.sys.line.accepted ==> item.op != uid)
    && (forall e :: e in f.sys.log ==> e.op != uid)
    && (forall id, item :: id in f.sys.book.inProgress && item in f.sys.book.inProgress[id].items ==> item.op != uid)
    && (forall report :: report in f.sys.told + f.sys.poller.owed ==> report.op != uid)
  }

  lemma {:induction false} AdoptionNeverProvisions(now: int, steps: seq<Step>, uid: string)
    requires Legal(Begin(now), steps)
    requires var f := Run(Begin(now), steps); uid in f.born && f.born[uid] != ""
    ensures var f := Run(Begin(now), steps); NeverAdded(f, uid) && uid !in f.undone && f.handler != Some(uid)
  {
    var f := Run(Begin(now), steps);
    FromFirstStart(now, steps);
    hide Run, Legal, R.Inv;
    AdoptedIsNeverAdded(f, uid);
  }

  lemma {:induction false} AdoptedIsNeverAdded(f: Fleet, uid: string)
    requires Sane(f) && uid in f.born && f.born[uid] != ""
    ensures NeverAdded(f, uid)
  {
    var ok := OpsFor(f.born);
    forall kind | (uid, kind) in ok ensures false { UidsAreAdds(f.born, uid, kind); }
    assert P.FromLine(f.sys.line, ok) && P.FromBook(f.sys.book, ok) && P.FromEvents(f.sys.log, ok) && R.ReportsInv(f.sys);
    hide R.Inv, P.Asked, OpsFor, ClaimsOk;
    forall report | report in f.sys.told + f.sys.poller.owed ensures report.op != uid {
      assert report in B.Reports(f.sys.log);
      P.ReportsAreAsked(f.sys.log, ok, report);
    }
    forall e | e in f.sys.log ensures e.op != uid {
      assert P.FromEvent(e, ok);
    }
  }

  /** Operation IDs of adds and removes never meet. */
  lemma {:induction false} AddsAndRemovesAreDisjoint(now: int, steps: seq<Step>, a: string, b: string)
    requires Legal(Begin(now), steps)
    requires var f := Run(Begin(now), steps); a in f.born && b in f.born
    ensures a != RemoveId(b) && (RemoveId(a) == RemoveId(b) ==> a == b)
  {
    var f := Run(Begin(now), steps);
    FromFirstStart(now, steps);
    assert Uid(a) && Uid(b);
    assert RemoveId(b)[|RemoveId(b)| - |REMOVE_SUFFIX|..] == REMOVE_SUFFIX;
    assert RemoveId(a)[..|RemoveId(a)| - |REMOVE_SUFFIX|] == a && RemoveId(b)[..|RemoveId(b)| - |REMOVE_SUFFIX|] == b;
  }

  // ---------- Delete ----------

  /** A poll of this process returned SUCCEEDED for the claim's removal, at that time. */
  predicate RemovalDone(f: Fleet, uid: string, at: int) {
    L.Completed(RemoveId(uid), Remove, at) in f.sys.log
  }

  /** For a resolved claim, not-found means its own removal completed. */
  lemma {:induction false} GoneMeansRemoved(now: int, steps: seq<Step>, seen: Claim)
    requires Legal(Begin(now), steps)
    requires var f := Run(Begin(now), steps); SeenClaim(f, seen) && IsReal(seen.providerId)
    ensures var f := Run(Begin(now), steps);
            AnswersGone(f.sys.book, seen) ==> exists at :: at <= f.sys.now && RemovalDone(f, seen.uid, at)
  {
    var f := Run(Begin(now), steps);
    FromFirstStart(now, steps);
    hide Run, Legal;
    if RemoveId(seen.uid) in f.sys.book.succeeded { SuccessIsOfRemoval(f, seen.uid); }
  }

  lemma {:induction false} SuccessIsOfRemoval(f: Fleet, uid: string)
    requires Sane(f) && RemoveId(uid) in f.sys.book.succeeded
    ensures exists at :: at <= f.sys.now && RemovalDone(f, uid, at)
  {
    var op, at := RemoveId(uid), f.sys.book.succeeded[RemoveId(uid)];
    assert R.SuccessInv(f.sys) && P.FromEvents(f.sys.log, OpsFor(f.born));
    hide R.Inv, P.Asked, OpsFor, ClaimOk;
    if L.Completed(op, Add, at) in f.sys.log {
      assert P.FromEvent(L.Completed(op, Add, at), OpsFor(f.born));
      RemoveIdsAreRemoves(f.born, uid, Add);
    }
    assert RemovalDone(f, uid, at);
  }

  predicate NoCrash(steps: seq<Step>) {
    forall i :: 0 <= i < |steps| ==> !steps[i].Crash?
  }

  /** Without a crash the log only grows and the clock only advances. */
  lemma {:induction false} LogKept(f: Fleet, steps: seq<Step>)
    requires Good(f) && Legal(f, steps) && NoCrash(steps)
    ensures f.sys.log <= Run(f, steps).sys.log && f.sys.now <= Run(f, steps).sys.now
    decreases |steps|
  {
    hide Good, Enabled, Next;
    if steps != [] {
      StepKeepsGood(f, steps[0]);
      assert Advances(f, Next(f, steps[0])) by { StepKeepsLog(f, steps[0]); }
      LogKept(Next(f, steps[0]), steps[1..]);
    }
  }

  predicate Advances(f: Fleet, after: Fleet) {
    f.sys.log <= after.sys.log && f.sys.now <= after.sys.now
  }

  lemma {:induction false} StepKeepsLog(f: Fleet, step: Step)
    requires Good(f) && Enabled(f, step) && !step.Crash?
    ensures Advances(f, Next(f, step))
  {
    GoodIsSound(f);
    hide Good, R.Inv, Advances, B.Next, B.Enabled;
    if step.Inner? || step.StartResumes? {
      BatcherKeepsLog(f, step);
    } else if step.CreateCall? || step.DeleteLook? || step.DeleteCall? || step.ReportTo? {
      ClientKeepsLog(f, step);
    } else {
      OtherKeepsLog(f, step);
    }
  }

  lemma {:induction false} GoodIsSound(f: Fleet)
    requires Good(f)
    ensures R.Inv(f.sys)
  {
  }

  lemma {:induction false} BatcherKeepsLog(f: Fleet, step: Step)
    requires R.Inv(f.sys) && Enabled(f, step) && (step.Inner? || step.StartResumes?)
    ensures Advances(f, Next(f, step))
  {
    hide R.Inv, Advances, B.Next, B.Enabled, AfterInner, AfterResume, FreshBatch;
    match step
    case Inner(inner) => InnerKeepsLog(f, inner);
    case StartResumes(id) => ResumeKeepsLog(f, id);
  }

  lemma {:induction false} ClientKeepsLog(f: Fleet, step: Step)
    requires Enabled(f, step) && (step.CreateCall? || step.DeleteLook? || step.DeleteCall? || step.ReportTo?)
    ensures Advances(f, Next(f, step))
  {
    hide Advances, B.Next, B.Enabled, AfterCreate, AfterLook, AfterDelete, Reported;
    match step
    case CreateCall(seen, sku) => CallsKeepLog(f, seen, sku);
    case DeleteLook(seen) => LooksKeepLog(f, seen);
    case DeleteCall(seen, claims, nodes) => CallsKeepLog(f, seen, Found(seen, claims, nodes));
    case ReportTo(listed) => ReportKeepsLog(f, listed);
  }

  lemma {:induction false} InnerKeepsLog(f: Fleet, inner: B.Step)
    requires R.Inv(f.sys) && B.Enabled(f.sys, inner)
    ensures Advances(f, AfterInner(f, inner))
  {
    hide R.Inv, B.Next, B.Enabled;
    R.StepKeepsInv(f.sys, inner);
  }

  lemma {:induction false} ResumeKeepsLog(f: Fleet, id: string)
    requires R.Inv(f.sys) && f.startUp.Resuming? && id in f.startUp.groups
    ensures Advances(f, AfterResume(f, id))
  {
    hide R.Inv, B.Next;
    R.StepKeepsInv(f.sys, B.ResumeBatch(id, f.startUp.groups[id]));
  }

  lemma {:induction false} CallsKeepLog(f: Fleet, seen: Claim, s: string)
    ensures Advances(f, AfterCreate(f, seen, s)) && Advances(f, AfterDelete(f, seen, s))
  {
  }

  lemma {:induction false} LooksKeepLog(f: Fleet, seen: Claim)
    ensures Advances(f, AfterLook(f, seen))
  {
  }

  lemma {:induction false} ReportKeepsLog(f: Fleet, listed: bool)
    requires f.sys.poller.owed != []
    ensures Advances(f, Reported(f, listed))
  {
  }

  lemma {:induction false} OtherKeepsLog(f: Fleet, step: Step)
    requires Enabled(f, step) && (ClaimStep(step) || step.StartLists? || step.StartFails? || step.StartEnds?)
    ensures Advances(f, Next(f, step))
  {
    hide B.Next, B.Enabled, Grouped;
  }

  /**
    Once a poll reported the removal done, Delete answers not-found, and keeps
    doing so through any further run without a crash until the retention is over.
   */
  lemma {:induction false} RemovedStaysGone(now: int, steps: seq<Step>, more: seq<Step>, seen: Claim, at: int)
    requires Legal(Begin(now), steps) && RemovalDone(Run(Begin(now), steps), seen.uid, at)
    requires Legal(Run(Begin(now), steps), more) && NoCrash(more)
    requires Run(Run(Begin(now), steps), more).sys.now <= at + SUCCEEDED_RETENTION
    ensures AnswersGone(Run(Run(Begin(now), steps), more).sys.book, seen)
  {
    var f := Run(Begin(now), steps);
    FromFirstStart(now, steps);
    LogKept(f, more);
    RunKeepsGood(f, more);
    var late := Run(f, more);
    hide Run, Legal;
    assert L.Completed(RemoveId(seen.uid), Remove, at) in late.sys.log;
    assert R.SuccessInv(late.sys);
  }

  /** The retention is what bounds it: with a removal done in time, a resolved claim is gone, and with none it is not. */
  lemma {:induction false} GoneExactlyWhenRemoved(now: int, steps: seq<Step>, seen: Claim)
    requires Legal(Begin(now), steps)
    requires var f := Run(Begin(now), steps);
             && SeenClaim(f, seen) && IsReal(seen.providerId)
             && forall at :: RemovalDone(f, seen.uid, at) ==> f.sys.now <= at + SUCCEEDED_RETENTION
    ensures var f := Run(Begin(now), steps); AnswersGone(f.sys.book, seen) <==> exists at :: RemovalDone(f, seen.uid, at)
  {
    var f := Run(Begin(now), steps);
    if at :| RemovalDone(f, seen.uid, at) {
      RemovedStaysGone(now, steps, [], seen, at);
    }
    if AnswersGone(f.sys.book, seen) {
      GoneMeansRemoved(now, steps, seen);
    }
  }
}
