/**
  What the clients do with a claim, said of the claim's own fields and over every run
  with any number of crashes: what Create and Delete ask for, what Create writes back,
  and whom the failure handler undoes.
 */
module FleetCalls {
  import opened BatchTypes
  import opened ProviderIds
  import opened NodeMatching
  import opened Fleet
  import opened FleetRuns
  import opened FleetTheorems
  import L = Ledger
  import B = Batcher
  import R = BatcherRuns
  import P = Provenance
  import W = WaitLine

  /** A claim is kept under its UID, and names a batch only once it was launched. */
  predicate InPlace(f: Fleet, uid: string) {
    uid in f.claims ==> f.claims[uid].uid == uid && (f.claims[uid].providerId == "" ==> f.claims[uid].batchId == "")
  }

  lemma {:induction false} ClaimsInPlace(now: int, steps: seq<Step>, uid: string)
    requires Legal(Begin(now), steps)
    ensures InPlace(Run(Begin(now), steps), uid)
  {
    FromFirstStart(now, steps);
    hide Run, Legal;
    GoodInPlace(Run(Begin(now), steps), uid);
  }

  lemma {:induction false} GoodInPlace(f: Fleet, uid: string)
    requires Good(f)
    ensures InPlace(f, uid)
  {
    hide R.Inv, P.Asked, CallsOk, LogOk, HandlerOk, DeletesOk, Covered, TrackedAreOwn, GroupsOk;
    if uid in f.claims { assert ClaimOk(f, uid); }
  }

  /** The call hands this operation to the batcher, and does nothing else to it or to a claim. */
  predicate HandsOver(f: Fleet, after: Fleet, item: Item) {
    after.sys == B.Next(f.sys, B.CallIn(item)) && after.claims == f.claims && after.handler == f.handler && after.startUp == f.startUp
  }

  /** Create asks for one node of the claim's pool, of the type selected, under the claim's UID; for an adopted claim it asks for nothing. */
  lemma {:induction false} CreateAsksForItsClaim(now: int, steps: seq<Step>, seen: Claim, sku: string)
    requires Legal(Begin(now), steps) && Enabled(Run(Begin(now), steps), CreateCall(seen, sku))
    ensures var f := Run(Begin(now), steps);
            var after := Next(f, CreateCall(seen, sku));
            && (seen.adoptedId != "" ==> after == f)
            && (seen.adoptedId == "" ==>
                  && HandsOver(f, after, Item(seen.uid, Add, AddNodes(sku, seen.pool)))
                  && after.calls == f.calls[f.sys.line.next := seen.uid])
  {
  }

  /** What Create does with its answer: an acknowledgement makes its claim pending and notes the batch; a refusal leaves it as it was. */
  lemma {:induction false} CreateLearnsItsBatch(now: int, steps: seq<Step>, ch: W.Chan)
    requires Legal(Begin(now), steps) && Enabled(Run(Begin(now), steps), CreateReturns(ch))
    ensures var f := Run(Begin(now), steps);
            var after, uid, result := Next(f, CreateReturns(ch)), f.calls[ch], f.sys.line.writes[ch][0];
            && after.sys == f.sys && after.calls == f.calls - {ch}
            && (result.Refused? || uid !in f.claims || f.claims[uid].providerId != "" ==> after.claims == f.claims)
            && (result.Acked? && uid in f.claims && f.claims[uid].providerId == "" ==>
                  after.claims == f.claims[uid := f.claims[uid].(providerId := "rafay://pending/" + uid, batchId := result.batchId)])
  {
    var f := Run(Begin(now), steps);
    ClaimsInPlace(now, steps, f.calls[ch]);
    hide Run, Legal;
  }

  /** Delete's first look: not-found at once for a claim that was never launched or whose removal is recorded; otherwise the call goes on. */
  lemma {:induction false} DeleteLooksFirst(now: int, steps: seq<Step>, seen: Claim)
    requires Legal(Begin(now), steps) && Enabled(Run(Begin(now), steps), DeleteLook(seen))
    ensures var f := Run(Begin(now), steps);
            Next(f, DeleteLook(seen))
            == if seen.providerId == "" || seen.uid + "-remove" in f.sys.book.succeeded then f else f.(deletes := f.deletes + {seen})
  {
  }

  /** The removal of the node with this ID, as asked for this claim. */
  function RemovalOf(claim: Claim, id: string): Item {
    Item(claim.uid + "-remove", Remove, RemoveNodes(claim.instanceType, claim.pool, id))
  }

  /**
    The rest of Delete asks for the removal of the claim's own node: for a resolved claim the
    one its status names, for a pending one the first listed node that may be its own. It asks
    for nothing exactly when the claim is pending and there is no such node or no list.
   */
  lemma {:induction false} DeleteAsksForItsNode(now: int, steps: seq<Step>, seen: Claim, claims: Option<seq<Claim>>, nodes: Option<seq<Node>>)
    requires Legal(Begin(now), steps) && Enabled(Run(Begin(now), steps), DeleteCall(seen, claims, nodes))
    ensures var f := Run(Begin(now), steps);
            var after := Next(f, DeleteCall(seen, claims, nodes));
            && (!IsPending(seen.providerId) ==> HandsOver(f, after, RemovalOf(seen, seen.providerId)))
            && (IsPending(seen.providerId) && claims.Some? && nodes.Some? ==>
                  forall i :: FirstOf(seen, claims.value, seen.uid, nodes.value, i) ==> HandsOver(f, after, RemovalOf(seen, nodes.value[i].providerId)))
            && (IsPending(seen.providerId) && (claims.None? || nodes.None? || NoneMayBe(seen, claims.value, nodes.value)) ==> after == f)
  {
    var f := Run(Begin(now), steps);
    if claims.Some? && nodes.Some? {
      SearchIsExact(seen, claims.value, seen.uid, nodes.value);
      forall i, j | FirstOf(seen, claims.value, seen.uid, nodes.value, i) && FirstOf(seen, claims.value, seen.uid, nodes.value, j) ensures i == j {
      }
    }
    hide Run, Legal, MayBeOf, FirstMatch, UsedIds, Skus, IsPending;
    assert seen.providerId == "" ==> !IsPending(seen.providerId) by { NothingIsNotPending(); }
  }

  lemma {:induction false} NothingIsNotPending()
    ensures !IsPending("")
  {
  }

  /** Whom a failure report makes the handler delete: the claim of a failed add that has no node yet and is not going away. */
  lemma {:induction false} HandlerPicksTheFailedClaim(now: int, steps: seq<Step>, listed: bool)
    requires Legal(Begin(now), steps) && Enabled(Run(Begin(now), steps), ReportTo(listed))
    ensures var f := Run(Begin(now), steps);
            var after, report := Next(f, ReportTo(listed)), f.sys.poller.owed[0];
            && after.claims == f.claims && after.sys.told == f.sys.told + [report] && after.sys.book == f.sys.book
            && (after.handler == Some(report.op) <==>
                  && listed && report.kind == Add && report.op in f.claims && !f.claims[report.op].deleting
                  && (f.claims[report.op].providerId == "" || IsPending(f.claims[report.op].providerId)))
            && (after.handler != Some(report.op) ==> after.handler == None)
  {
    var f := Run(Begin(now), steps);
    ClaimsInPlace(now, steps, f.sys.poller.owed[0].op);
    hide Run, Legal;
  }

  /** And the delete, if it goes through, marks that claim and no other. */
  lemma {:induction false} HandlerDeletesItsClaim(now: int, steps: seq<Step>, done: bool)
    requires Legal(Begin(now), steps) && Enabled(Run(Begin(now), steps), HandlerDeletes(done))
    ensures var f := Run(Begin(now), steps);
            var after, uid := Next(f, HandlerDeletes(done)), f.handler.value;
            && after.handler == None && after.sys == f.sys
            && after.claims == if done && uid in f.claims then f.claims[uid := f.claims[uid].(deleting := true)] else f.claims
  {
    var f := Run(Begin(now), steps);
    ClaimsInPlace(now, steps, f.handler.value);
    hide Run, Legal;
  }
}
