/**
  Single ownership: when no two claims come to speak for one node. The
  controllers cannot see a claim whose status is still empty, so this holds
  under a condition on the claim list each adoption pass starts from.
 */
module SingleOwner {
  import opened BatchTypes
  import opened ProviderIds
  import opened NodeMatching
  import opened Ownership

  /** No two claims speak for one machine. */
  ghost predicate Single(s: Cluster) {
    forall a, b, id :: a in s.claims && b in s.claims && a != b && SpeaksFor(s.claims[a], id) ==> !SpeaksFor(s.claims[b], id)
  }

  ghost predicate Spoken(s: Cluster, id: string) {
    exists uid :: uid in s.claims && SpeaksFor(s.claims[uid], id)
  }

  /** The provider-ID controller may yet give this node to this claim. */
  predicate Wants(claim: Claim, node: Node) {
    && claim.adoptedId == "" && !claim.deleting && claim.pool != "" && claim.pool == node.pool
    && node.sku != "" && node.created > claim.created
    && (claim.providerId == "" || (IsPending(claim.providerId) && node.sku in Skus(claim)))
  }

  ghost predicate Wanted(s: Cluster, node: Node) {
    exists uid :: uid in s.claims && Wants(s.claims[uid], node)
  }

  /** A node that was adopted has its labels, and nobody wants, or waits for, it. */
  ghost predicate AdoptedUnwanted(s: Cluster) {
    forall uid, name :: uid in s.claims && name in s.log && s.claims[uid].adoptedId != "" && s.log[name].providerId == s.claims[uid].adoptedId
                        ==> !Wanted(s, s.log[name]) && s.log[name].pool != "" && s.log[name].sku != ""
  }

  /** Every real status of a claim that was not adopted is in the set. */
  ghost predicate StatusesUsed(s: Cluster, used: set<string>) {
    forall uid :: uid in s.claims && s.claims[uid].adoptedId == "" && IsReal(s.claims[uid].providerId) ==> s.claims[uid].providerId in used
  }

  ghost predicate OffersTo(s: Cluster, claim: Claim, id: string) {
    exists name :: name in s.log && s.log[name].providerId == id && Fits(claim, s.log[name])
  }

  ghost predicate BinderOwn(s: Cluster) {
    match s.binder
    case BinderIdle => true
    case BinderListed(claim, used) => claim.pool != "" && StatusesUsed(s, used)
    case BinderChose(claim, used, id) => claim.pool != "" && StatusesUsed(s, used) && id !in used && OffersTo(s, claim, id)
  }

  /** What keeps ownership single as long as nothing more is adopted. */
  ghost predicate Settled(s: Cluster) {
    Single(s) && AdoptedUnwanted(s) && BinderOwn(s)
  }

  ghost predicate Free(s: Cluster, node: Node) {
    !Wanted(s, node) && !Spoken(s, node.providerId)
  }

  /** Every node the pass may still adopt is free. */
  ghost predicate RestFree(s: Cluster, nodes: seq<Node>, claimed: set<string>, pending: seq<Claim>) {
    forall i :: 0 <= i < |nodes| && Eligible(nodes[i], claimed, pending) ==> Free(s, nodes[i])
  }

  ghost predicate AdopterOwn(s: Cluster) {
    match s.adopter
    case AdopterIdle => true
    case AdopterBegun(_, _) => true
    case AdopterWorking(_, nodes, claimed, pending) => RestFree(s, nodes, claimed, pending)
    case AdopterCreating(_, nodes, claimed, pending, node, id) =>
      RestFree(s, nodes, claimed, pending) && Free(s, node) && node.providerId == id && SameNode(s, node)
  }

  predicate SameNode(s: Cluster, node: Node) {
    && node.name in s.log && s.log[node.name].pool == node.pool && s.log[node.name].sku == node.sku
    && s.log[node.name].created == node.created
  }

  ghost predicate Own(s: Cluster) {
    Settled(s) && AdopterOwn(s)
  }

  /**
    The condition: when the pass lists the claims, no older claim of the pool
    that was not adopted and is not deleting still has an empty status, for any node the pass may adopt.
   */
  predicate Guarded(s: Cluster, step: Step) {
    step.AdoptList? && s.adopter.AdopterBegun? ==>
      forall i, k :: 0 <= i < |s.adopter.nodes| && 0 <= k < |step.list|
                     && Eligible(s.adopter.nodes[i], ClaimedIds(step.list), PendingOf(step.list, s.adopter.pool))
                     ==> !Unlaunched(step.list[k], s.adopter.nodes[i])
  }

  /** A claim the searches cannot see yet, older than the node. */
  predicate Unlaunched(claim: Claim, node: Node) {
    claim.providerId == "" && claim.adoptedId == "" && !claim.deleting && claim.pool == node.pool && node.created > claim.created
  }

  ghost predicate GuardedRun(s: Cluster, steps: seq<Step>)
    requires Legal(s, steps)
    decreases |steps|
  {
    steps == [] || (Guarded(s, steps[0]) && GuardedRun(Next(s, steps[0]), steps[1..]))
  }

  // ---------- claims age, nodes come and go ----------

  /** A claim that wants an existing node wanted it before; a claim that speaks for an ID did so before. */
  lemma {:induction false} NoNewWants(s: Cluster, after: Cluster, uid: string)
    requires ClaimsMove(s, after) && uid in after.claims
    ensures forall node: Node :: node.created <= s.now && Wants(after.claims[uid], node) ==> uid in s.claims && Wants(s.claims[uid], node)
    ensures forall id :: SpeaksFor(after.claims[uid], id) ==> uid in s.claims && SpeaksFor(s.claims[uid], id)
  {
    if uid in s.claims { assert Aged(s.claims[uid], after.claims[uid]); } else { assert Newborn(s, after.claims[uid]); }
  }

  lemma {:induction false} FreeStays(s: Cluster, after: Cluster, node: Node)
    requires ClaimsMove(s, after) && node.created <= s.now
    ensures Free(s, node) ==> Free(after, node)
    ensures Wanted(after, node) ==> Wanted(s, node)
  {
    hide ClaimsMove, Wants, SpeaksFor;
    if Wanted(after, node) {
      var uid :| uid in after.claims && Wants(after.claims[uid], node);
      NoNewWants(s, after, uid);
      assert Wanted(s, node);
    }
    if Spoken(after, node.providerId) {
      var uid :| uid in after.claims && SpeaksFor(after.claims[uid], node.providerId);
      NoNewWants(s, after, uid);
      assert Spoken(s, node.providerId);
    }
  }

  lemma {:induction false} ClaimsMoveKeepsSettled(s: Cluster, after: Cluster)
    requires Base(s) && Settled(s) && ClaimsMove(s, after)
    ensures Settled(after)
  {
    ClaimsMoveKeepsSingle(s, after);
    ClaimsMoveKeepsUnwanted(s, after);
    ClaimsMoveKeepsBinder(s, after);
  }

  lemma {:induction false} ClaimsMoveKeepsSingle(s: Cluster, after: Cluster)
    requires Single(s) && ClaimsMove(s, after)
    ensures Single(after)
  {
    hide ClaimsMove, SpeaksFor, Wants;
    forall a, b, id | a in after.claims && b in after.claims && a != b && SpeaksFor(after.claims[a], id)
      ensures !SpeaksFor(after.claims[b], id)
    {
      NoNewWants(s, after, a);
      NoNewWants(s, after, b);
    }
  }

  lemma {:induction false} ClaimsMoveKeepsUnwanted(s: Cluster, after: Cluster)
    requires NodesSound(s) && AdoptedUnwanted(s) && ClaimsMove(s, after)
    ensures AdoptedUnwanted(after)
  {
    forall uid, name | uid in after.claims && name in after.log && after.claims[uid].adoptedId != ""
                       && after.log[name].providerId == after.claims[uid].adoptedId
      ensures !Wanted(after, after.log[name]) && after.log[name].pool != "" && after.log[name].sku != ""
    {
      assert uid in s.claims && s.claims[uid].adoptedId == after.claims[uid].adoptedId;
      assert NodeSound(s, name);
      FreeStays(s, after, s.log[name]);
    }
  }

  lemma {:induction false} ClaimsMoveKeepsBinder(s: Cluster, after: Cluster)
    requires BinderOwn(s) && ClaimsMove(s, after)
    ensures BinderOwn(after)
  {
    if !s.binder.BinderIdle? {
      forall uid | uid in after.claims && after.claims[uid].adoptedId == "" && IsReal(after.claims[uid].providerId)
        ensures after.claims[uid].providerId in s.binder.used
      {
        NoNewWants(s, after, uid);
        assert SpeaksFor(after.claims[uid], after.claims[uid].providerId);
      }
    }
  }

  /** Nodes a pass listed are no younger than now. */
  lemma {:induction false} SnapshotIsPast(s: Cluster, nodes: seq<Node>)
    requires NodesSound(s) && Snapshot(s, nodes)
    ensures forall i :: 0 <= i < |nodes| ==> nodes[i].created <= s.now
  {
    hide Build, NamesAnother;
    forall i | 0 <= i < |nodes| ensures nodes[i].created <= s.now {
      assert Seen(s, nodes[i]);
      assert NodeSound(s, nodes[i].name);
    }
  }

  lemma {:induction false} RestStaysFree(s: Cluster, after: Cluster, nodes: seq<Node>, claimed: set<string>, pending: seq<Claim>)
    requires NodesSound(s) && Snapshot(s, nodes) && ClaimsMove(s, after) && RestFree(s, nodes, claimed, pending)
    ensures RestFree(after, nodes, claimed, pending)
  {
    hide NodesSound, Snapshot, ClaimsMove, Eligible, Free;
    forall i | 0 <= i < |nodes| && Eligible(nodes[i], claimed, pending) ensures Free(after, nodes[i]) {
      SnapshotIsPast(s, nodes);
      FreeStays(s, after, nodes[i]);
    }
  }

  lemma {:induction false} ClaimsMoveKeepsAdopterOwn(s: Cluster, after: Cluster)
    requires Base(s) && AdopterOwn(s) && ClaimsMove(s, after)
    ensures AdopterOwn(after)
  {
    hide Free, RestFree, Eligible, NodeSound;
    var a := s.adopter;
    if a.AdopterWorking? || a.AdopterCreating? { RestStaysFree(s, after, a.nodes, a.claimed, a.pending); }
    if a.AdopterCreating? {
      assert NodeSound(s, a.node.name);
      NodeIsPast(s, a.node);
      FreeStays(s, after, a.node);
    }
  }

  lemma {:induction false} NodeIsPast(s: Cluster, node: Node)
    requires NodesSound(s) && SameNode(s, node)
    ensures node.created <= s.now
  {
    assert NodeSound(s, node.name);
  }

  lemma {:induction false} NodesMoveKeepsSettled(s: Cluster, after: Cluster)
    requires Base(s) && Settled(s) && NodesMove(s, after)
    ensures Settled(after)
  {
    assert AdoptedUnwanted(after) by { NodesMoveKeepsUnwanted(s, after); }
    if s.binder.BinderChose? {
      var name :| name in s.log && s.log[name].providerId == s.binder.id && Fits(s.binder.claim, s.log[name]);
      assert SameMachine(s.log[name], after.log[name]);
      assert Fits(s.binder.claim, after.log[name]);
    }
  }

  lemma {:induction false} NodesMoveKeepsUnwanted(s: Cluster, after: Cluster)
    requires ClaimsSound(s) && AdoptedUnwanted(s) && NodesMove(s, after)
    ensures AdoptedUnwanted(after)
  {
    forall uid, name | uid in after.claims && name in after.log && after.claims[uid].adoptedId != ""
                       && after.log[name].providerId == after.claims[uid].adoptedId
      ensures !Wanted(after, after.log[name]) && after.log[name].pool != "" && after.log[name].sku != ""
    {
      assert ClaimSound(s, uid);
      assert Kept(s, after, name);
      assert SameMachine(s.log[name], after.log[name]);
      SameNodeSameWants(s, after, s.log[name], after.log[name]);
    }
  }

  lemma {:induction false} SameNodeSameWants(s: Cluster, after: Cluster, node: Node, twin: Node)
    requires after.claims == s.claims && twin.pool == node.pool && twin.sku == node.sku && twin.created == node.created
    ensures Wanted(after, twin) <==> Wanted(s, node)
  {
    assert forall claim :: Wants(claim, node) <==> Wants(claim, twin);
  }

  lemma {:induction false} NodesMoveKeepsAdopterOwn(s: Cluster, after: Cluster)
    requires AdopterBase(s) && AdopterOwn(s) && NodesMove(s, after)
    ensures AdopterOwn(after)
  {
    hide Wants, SpeaksFor, Eligible, Owned;
    assert forall node :: Free(s, node) <==> Free(after, node);
    if s.adopter.AdopterCreating? {
      assert SameMachine(s.log[s.adopter.node.name], after.log[s.adopter.node.name]);
    }
  }

  // ---------- the controllers' steps ----------

  lemma {:induction false} SameClaimsSettled(s: Cluster, after: Cluster)
    requires Single(s) && AdoptedUnwanted(s) && after.claims == s.claims && after.log == s.log
    ensures Single(after) && AdoptedUnwanted(after)
    ensures forall node :: Free(s, node) <==> Free(after, node)
    ensures forall used :: StatusesUsed(s, used) ==> StatusesUsed(after, used)
    ensures forall claim, id :: OffersTo(s, claim, id) ==> OffersTo(after, claim, id)
  {
    hide Wants, SpeaksFor, Fits;
    assert forall node :: Wanted(s, node) <==> Wanted(after, node);
  }

  lemma {:induction false} ListIsUsed(s: Cluster, list: seq<Claim>)
    requires ClaimsSound(s) && Lists(s, list)
    ensures StatusesUsed(s, UsedIds(list, ""))
  {
    forall uid | uid in s.claims && IsReal(s.claims[uid].providerId) ensures s.claims[uid].providerId in UsedIds(list, "") {
      assert ClaimSound(s, uid);
      assert s.claims[uid] in list;
      var i :| 0 <= i < |list| && list[i] == s.claims[uid];
    }
  }

  lemma {:induction false} BinderKeepsSettled(s: Cluster, step: Step)
    requires Base(s) && Settled(s) && Enabled(s, step)
    requires step.BindList? || step.BindChoose? || step.BindAbort? || step.DeleteList? || step.DeleteChoose? || step.DeleteEnd?
    ensures Settled(Next(s, step))
  {
    hide NodesSound, ClaimsSound, AdopterBase, StatusesUsed, OffersTo, Snapshot, Single, AdoptedUnwanted, Free;
    SameClaimsSettled(s, Next(s, step));
    if step.BindList? { ListIsUsed(s, step.list); }
    if step.BindChoose? && FirstMatch(s.binder.claim, step.nodes, s.binder.used) != "" { ChoiceOffers(s, step.nodes); }
  }

  lemma {:induction false} ChoiceOffers(s: Cluster, nodes: seq<Node>)
    requires NodesSound(s) && BinderBase(s) && Enabled(s, BindChoose(nodes))
    requires FirstMatch(s.binder.claim, nodes, s.binder.used) != ""
    ensures var id := FirstMatch(s.binder.claim, nodes, s.binder.used); id !in s.binder.used && OffersTo(s, s.binder.claim, id)
  {
    ChoiceFits(s, nodes);
  }

  /** The ID being written is spoken for by nobody else. */
  lemma {:induction false} ChosenIsUnspoken(s: Cluster, uid: string)
    requires Base(s) && Settled(s) && s.binder.BinderChose? && uid in s.claims
    requires s.binder.claim.uid in s.claims && s.claims[s.binder.claim.uid].version == s.binder.claim.version
    ensures !SpeaksFor(s.claims[uid], s.binder.id)
  {
    PatchedClaim(s);
    assert ClaimSound(s, uid);
    ChosenIsWanted(s);
  }

  lemma {:induction false} ChosenIsWanted(s: Cluster)
    requires Base(s) && BinderOwn(s) && s.binder.BinderChose?
    requires s.binder.claim.uid in s.claims && s.claims[s.binder.claim.uid].version == s.binder.claim.version
    ensures exists name :: name in s.log && s.log[name].providerId == s.binder.id && Wanted(s, s.log[name])
  {
    PatchedClaim(s);
    var claim := s.binder.claim;
    var name :| name in s.log && s.log[name].providerId == s.binder.id && Fits(claim, s.log[name]);
    assert Wants(s.claims[claim.uid], s.log[name]);
  }

  /** What the patch changes: one claim, which then wants nothing more and speaks for the ID. */
  lemma {:induction false} PatchChanges(s: Cluster, uid: string)
    requires ClaimsSound(s) && BinderBase(s) && s.binder.BinderChose? && uid in Bound(s).claims
    ensures var after := Bound(s);
            && uid in s.claims && after.claims[uid].adoptedId == s.claims[uid].adoptedId
            && (forall node :: Wants(after.claims[uid], node) ==> Wants(s.claims[uid], node))
            && (after.claims[uid] == s.claims[uid]
                || (uid == s.binder.claim.uid && s.claims[uid].version == s.binder.claim.version && s.claims[uid].adoptedId == ""
                    && after.claims[uid].providerId == s.binder.id))
  {
    hide Wants;
    if s.binder.claim.uid in s.claims && s.claims[s.binder.claim.uid].version == s.binder.claim.version {
      PatchedClaim(s);
      assert forall node :: !Wants(Bound(s).claims[s.binder.claim.uid], node) by { RealWantsNothing(Bound(s).claims[s.binder.claim.uid]); }
    }
  }

  lemma {:induction false} RealWantsNothing(claim: Claim)
    requires IsReal(claim.providerId)
    ensures forall node :: !Wants(claim, node)
  {
  }

  lemma {:induction false} PatchSpeaks(s: Cluster, uid: string, id: string)
    requires Base(s) && s.binder.BinderChose? && uid in Bound(s).claims && SpeaksFor(Bound(s).claims[uid], id)
    ensures uid in s.claims && (SpeaksFor(s.claims[uid], id)
                                || (id == s.binder.id && uid == s.binder.claim.uid && s.claims[uid].version == s.binder.claim.version))
  {
    PatchChanges(s, uid);
  }

  lemma {:induction false} PatchKeepsSettled(s: Cluster)
    requires Base(s) && Settled(s) && s.binder.BinderChose?
    ensures Settled(Bound(s))
  {
    hide Base, Wants, SpeaksFor;
    var after := Bound(s);
    forall a, b, id | a in after.claims && b in after.claims && a != b && SpeaksFor(after.claims[a], id)
      ensures !SpeaksFor(after.claims[b], id)
    {
      PatchKeepsTwoApart(s, a, b, id);
    }
    PatchKeepsUnwanted(s);
  }

  lemma {:induction false} PatchKeepsTwoApart(s: Cluster, a: string, b: string, id: string)
    requires Base(s) && Settled(s) && s.binder.BinderChose?
    requires a in Bound(s).claims && b in Bound(s).claims && a != b && SpeaksFor(Bound(s).claims[a], id)
    ensures !SpeaksFor(Bound(s).claims[b], id)
  {
    hide Base, SpeaksFor, AdoptedUnwanted, BinderOwn, Bound;
    if SpeaksFor(Bound(s).claims[b], id) {
      PatchSpeaks(s, a, id);
      PatchSpeaks(s, b, id);
      if !SpeaksFor(s.claims[a], id) { ChosenIsUnspoken(s, b); }
      if !SpeaksFor(s.claims[b], id) { ChosenIsUnspoken(s, a); }
    }
  }

  /** Nothing is wanted that was not wanted before. */
  lemma {:induction false} PatchAddsNoWants(s: Cluster, node: Node)
    requires ClaimsSound(s) && BinderBase(s) && s.binder.BinderChose? && Wanted(Bound(s), node)
    ensures Wanted(s, node)
  {
    hide ClaimsSound, BinderBase, Wants, Bound;
    var uid :| uid in Bound(s).claims && Wants(Bound(s).claims[uid], node);
    PatchChanges(s, uid);
  }

  lemma {:induction false} PatchKeepsUnwanted(s: Cluster)
    requires Base(s) && AdoptedUnwanted(s) && s.binder.BinderChose?
    ensures AdoptedUnwanted(Bound(s))
  {
    hide Wanted;
    var after := Bound(s);
    forall uid, name | uid in after.claims && name in after.log && after.claims[uid].adoptedId != ""
                       && after.log[name].providerId == after.claims[uid].adoptedId
      ensures !Wanted(after, after.log[name]) && after.log[name].pool != "" && after.log[name].sku != ""
    {
      PatchChanges(s, uid);
      if Wanted(after, after.log[name]) { PatchAddsNoWants(s, after.log[name]); }
    }
  }

  /** What the adoption pass holds free, the other controller does not take. */
  lemma {:induction false} PatchKeepsFree(s: Cluster, node: Node)
    requires Base(s) && Settled(s) && s.binder.BinderChose? && Free(s, node) && SameNode(s, node)
    requires node.providerId != "" ==> s.log[node.name].providerId == node.providerId
    ensures Free(Bound(s), node)
  {
    hide Wants, SpeaksFor, AdoptedUnwanted, Bound, Single;
    if Wanted(Bound(s), node) { PatchAddsNoWants(s, node); }
    if Spoken(Bound(s), node.providerId) {
      var uid :| uid in Bound(s).claims && SpeaksFor(Bound(s).claims[uid], node.providerId);
      PatchSpeaks(s, uid, node.providerId);
      assert !SpeaksFor(s.claims[uid], node.providerId);
      TakenIsWanted(s, node);
    }
  }

  lemma {:induction false} TakenIsWanted(s: Cluster, node: Node)
    requires Base(s) && BinderOwn(s) && s.binder.BinderChose? && SameNode(s, node)
    requires node.providerId == s.binder.id && s.log[node.name].providerId == node.providerId
    requires s.binder.claim.uid in s.claims && s.claims[s.binder.claim.uid].version == s.binder.claim.version
    ensures Wanted(s, node)
  {
    ChosenIsWanted(s);
    var name :| name in s.log && s.log[name].providerId == s.binder.id && Wanted(s, s.log[name]);
    assert name == node.name;
    SameNodeSameWants(s, s, s.log[name], node);
  }

  /** What the pass may adopt shows its labels, and they are the node's for good. */
  lemma {:induction false} EligibleIsSame(s: Cluster, node: Node, claimed: set<string>, pending: seq<Claim>)
    requires Seen(s, node) && node.pool != "" && Eligible(node, claimed, pending)
    ensures SameNode(s, node) && (node.providerId != "" ==> s.log[node.name].providerId == node.providerId)
  {
  }

  lemma {:induction false} PatchKeepsAdopterOwn(s: Cluster)
    requires Base(s) && Own(s) && s.binder.BinderChose?
    ensures AdopterOwn(Bound(s))
  {
    hide Settled, Free, Eligible, NodesSound, ClaimsSound;
    var a := s.adopter;
    if a.AdopterWorking? || a.AdopterCreating? {
      forall i | 0 <= i < |a.nodes| && Eligible(a.nodes[i], a.claimed, a.pending) ensures Free(Bound(s), a.nodes[i]) {
        EligibleIsSame(s, a.nodes[i], a.claimed, a.pending);
        PatchKeepsFree(s, a.nodes[i]);
      }
    }
    if a.AdopterCreating? { PatchKeepsFree(s, a.node); }
  }

  /** Under the guard, what the pass may adopt after listing the claims is free. */
  lemma {:induction false} ListedIsFree(s: Cluster, list: seq<Claim>, node: Node)
    requires ClaimsSound(s) && Lists(s, list)
    requires Eligible(node, ClaimedIds(list), PendingOf(list, node.pool))
    requires forall k :: 0 <= k < |list| ==> !Unlaunched(list[k], node)
    ensures Free(s, node)
  {
    hide WantedByPending, Skus, SpeaksFor;
    forall uid | uid in s.claims ensures !Wants(s.claims[uid], node) && !SpeaksFor(s.claims[uid], node.providerId) {
      assert s.claims[uid] in list;
      var k :| 0 <= k < |list| && list[k] == s.claims[uid];
      PendingIsSeen(list, k, node);
      IdIsClaimed(list, k);
      NoIdSpeaks(list[k], node.providerId);
    }
  }

  lemma {:induction false} NoIdSpeaks(claim: Claim, id: string)
    ensures SpeaksFor(claim, id) ==> id != ""
  {
  }

  lemma {:induction false} PendingIsSeen(list: seq<Claim>, k: nat, node: Node)
    requires k < |list|
    ensures IsLivePending(list[k]) && Fits(list[k], node) ==> WantedByPending(PendingOf(list, node.pool), node, node.sku)
  {
    AdoptionMirrorsTheSearch(list, node);
    assert list[k] in list;
  }

  lemma {:induction false} IdIsClaimed(list: seq<Claim>, k: nat)
    requires k < |list|
    ensures forall id :: SpeaksFor(list[k], id) ==> id in ClaimedIds(list)
  {
  }

  lemma {:induction false} ListKeepsOwn(s: Cluster, list: seq<Claim>)
    requires Base(s) && Settled(s) && Enabled(s, AdoptList(list)) && Guarded(s, AdoptList(list))
    ensures Own(Next(s, AdoptList(list)))
  {
    hide NodesSound, ClaimsSound, Single, AdoptedUnwanted, Free, Eligible, StatusesUsed, OffersTo, Unlaunched, BinderBase;
    var after := Next(s, AdoptList(list));
    SameClaimsSettled(s, after);
    var nodes := s.adopter.nodes;
    forall i | 0 <= i < |nodes| && Eligible(nodes[i], after.adopter.claimed, after.adopter.pending) ensures Free(after, nodes[i]) {
      ListedIsFree(s, list, nodes[i]);
    }
  }

  lemma {:induction false} AdopterKeepsOwn(s: Cluster, step: Step)
    requires Base(s) && Own(s) && Enabled(s, step)
    requires step.AdoptBegin? || step.AdoptSkip? || step.AdoptCreateFails? || step.AdoptEnd?
    ensures Own(Next(s, step))
  {
    hide Base, Single, AdoptedUnwanted, Free, Eligible, StatusesUsed, OffersTo, Snapshot;
    SameClaimsSettled(s, Next(s, step));
  }

  /** The claims stay; the adopter turns to one free node. */
  lemma {:induction false} CreatingIsOwn(s: Cluster, after: Cluster, seen: Node, rest: seq<Node>)
    requires Base(s) && Own(s) && s.adopter.AdopterWorking? && s.adopter.nodes == [seen] + rest
    requires after == s.(adopter := AdopterCreating(s.adopter.pool, rest, s.adopter.claimed, s.adopter.pending, Prepared(seen), ResolvedId(seen)))
    requires Free(s, Prepared(seen)) && SameNode(s, Prepared(seen)) && Prepared(seen).providerId == ResolvedId(seen)
    ensures Own(after)
  {
    hide Base, Single, AdoptedUnwanted, Free, Eligible, StatusesUsed, OffersTo;
    SameClaimsSettled(s, after);
    assert forall i :: 0 <= i < |rest| ==> s.adopter.nodes[i + 1] == rest[i];
  }

  lemma {:induction false} PreparedIsFree(s: Cluster)
    requires Base(s) && Own(s) && Enabled(s, AdoptPrepare) && PatchFits(s, s.adopter.nodes[0])
    ensures Free(s, Prepared(s.adopter.nodes[0]))
  {
    hide Base, Eligible, Wants, Settled;
    var seen := s.adopter.nodes[0];
    assert Free(s, seen);
    assert Wanted(s, Prepared(seen)) <==> Wanted(s, seen) by { SameNodeSameWants(s, s, seen, Prepared(seen)); }
    PreparedNodeIsFree(s);
    if Spoken(s, Prepared(seen).providerId) { SpokenIsOwned(s, Prepared(seen).providerId); }
  }

  lemma {:induction false} SpokenIsOwned(s: Cluster, id: string)
    requires Base(s) && Spoken(s, id)
    ensures Owned(s, id)
  {
    var uid :| uid in s.claims && SpeaksFor(s.claims[uid], id);
    assert ClaimSound(s, uid);
  }

  lemma {:induction false} PrepareKeepsOwn(s: Cluster)
    requires Base(s) && Own(s) && Enabled(s, AdoptPrepare)
    ensures Own(PreparedStep(s))
  {
    hide Base, Own, Eligible, NodesMove, Free, Seen;
    var a := s.adopter;
    var seen := a.nodes[0];
    if !PatchFits(s, seen) {
      AdopterKeepsOwn(s, AdoptSkip);
    } else {
      PreparedNodeIsFree(s);
      PreparedIsFree(s);
      SeenIsSame(s, seen);
      assert a.nodes == [seen] + a.nodes[1..];
      if Prepared(seen) == seen {
        CreatingIsOwn(s, PreparedStep(s), seen, a.nodes[1..]);
      } else {
        var mid := WithNode(s, Prepared(seen));
        BaseParts(s);
        WithNodeSound(s, Prepared(seen));
        NodesMoveKeepsBase(s, mid);
        NodesMoveKeepsOwn(s, mid);
        assert Free(mid, Prepared(seen)) by { SameClaimsFree(s, mid, Prepared(seen)); }
        CreatingIsOwn(mid, PreparedStep(s), seen, a.nodes[1..]);
      }
    }
  }

  lemma {:induction false} SameClaimsFree(s: Cluster, after: Cluster, node: Node)
    requires after.claims == s.claims && Free(s, node)
    ensures Free(after, node)
  {
  }

  lemma {:induction false} SeenIsSame(s: Cluster, seen: Node)
    requires Base(s) && Enabled(s, AdoptPrepare) && seen == s.adopter.nodes[0]
    ensures SameNode(s, seen)
  {
    EligibleIsSame(s, seen, s.adopter.claimed, s.adopter.pending);
  }

  lemma {:induction false} NodesMoveKeepsOwn(s: Cluster, after: Cluster)
    requires Base(s) && Own(s) && NodesMove(s, after)
    ensures Own(after)
  {
    BaseParts(s);
    hide Base, NodesMove, Settled, AdopterOwn, AdopterBase;
    NodesMoveKeepsSettled(s, after);
    NodesMoveKeepsAdopterOwn(s, after);
  }

  // ---------- creating the claim ----------

  /** Creating the claim keeps ownership settled when nobody wants the node and nobody speaks for its ID. */
  lemma {:induction false} CreateKeepsSettled(s: Cluster, uid: string, nodeClass: string)
    requires Base(s) && Settled(s) && Enabled(s, AdoptCreate(uid, nodeClass))
    requires SameNode(s, s.adopter.node) && !Wanted(s, s.adopter.node) && !Spoken(s, s.adopter.id)
    ensures Settled(Adopted(s, uid, nodeClass))
  {
    hide Base;
    CreatedIsOnlyChange(s, uid, nodeClass);
    CreateKeepsSingle(s, uid, nodeClass);
    CreateKeepsUnwanted(s, uid, nodeClass);
    CreateKeepsBinder(s, uid, nodeClass);
  }

  lemma {:induction false} CreatedIsOnlyChange(s: Cluster, uid: string, nodeClass: string)
    requires Base(s) && Enabled(s, AdoptCreate(uid, nodeClass))
    ensures var after := Adopted(s, uid, nodeClass);
            && uid !in s.claims && uid in after.claims
            && (forall u :: u in after.claims && u != uid ==> u in s.claims && after.claims[u] == s.claims[u])
            && (forall u :: u in s.claims ==> u != uid && u in after.claims && after.claims[u] == s.claims[u])
            && after.claims[uid].adoptedId == s.adopter.id && after.claims[uid].providerId == ""
  {
    forall u | u in s.claims ensures u != uid {
      assert ClaimSound(s, u);
    }
  }

  lemma {:induction false} CreateKeepsSingle(s: Cluster, uid: string, nodeClass: string)
    requires Base(s) && Single(s) && Enabled(s, AdoptCreate(uid, nodeClass)) && !Spoken(s, s.adopter.id)
    ensures Single(Adopted(s, uid, nodeClass))
  {
    CreatedIsOnlyChange(s, uid, nodeClass);
    hide Base;
  }

  lemma {:induction false} CreateWants(s: Cluster, uid: string, nodeClass: string, node: Node)
    requires Base(s) && Enabled(s, AdoptCreate(uid, nodeClass))
    ensures Wanted(Adopted(s, uid, nodeClass), node) ==> Wanted(s, node)
  {
    assert IsReal(s.adopter.id);
    CreatedIsOnlyChange(s, uid, nodeClass);
    hide Base;
  }

  lemma {:induction false} CreateKeepsUnwanted(s: Cluster, uid: string, nodeClass: string)
    requires Base(s) && AdoptedUnwanted(s) && Enabled(s, AdoptCreate(uid, nodeClass))
    requires SameNode(s, s.adopter.node) && !Wanted(s, s.adopter.node)
    ensures AdoptedUnwanted(Adopted(s, uid, nodeClass))
  {
    hide Wanted;
    var after := Adopted(s, uid, nodeClass);
    CreatedIsOnlyChange(s, uid, nodeClass);
    forall u, name | u in after.claims && name in after.log && after.claims[u].adoptedId != ""
                     && after.log[name].providerId == after.claims[u].adoptedId
      ensures !Wanted(after, after.log[name]) && after.log[name].pool != "" && after.log[name].sku != ""
    {
      CreateWants(s, uid, nodeClass, s.log[name]);
      if u == uid {
        assert name == s.adopter.node.name;
        SameNodeSameWants(s, s, s.adopter.node, s.log[name]);
      }
    }
  }

  lemma {:induction false} CreateKeepsBinder(s: Cluster, uid: string, nodeClass: string)
    requires Base(s) && BinderOwn(s) && Enabled(s, AdoptCreate(uid, nodeClass))
    ensures BinderOwn(Adopted(s, uid, nodeClass))
  {
    CreatedIsOnlyChange(s, uid, nodeClass);
    assert IsReal(s.adopter.id);
    hide Base;
    var after := Adopted(s, uid, nodeClass);
    assert forall used :: StatusesUsed(s, used) ==> StatusesUsed(after, used);
    assert forall claim, id :: OffersTo(s, claim, id) ==> OffersTo(after, claim, id);
  }

  lemma {:induction false} CreateKeepsOwn(s: Cluster, uid: string, nodeClass: string)
    requires Base(s) && Own(s) && Enabled(s, AdoptCreate(uid, nodeClass))
    ensures Own(Adopted(s, uid, nodeClass))
  {
    hide Base, Settled, Eligible, Free;
    var after := Adopted(s, uid, nodeClass);
    assert !Wanted(s, s.adopter.node) && !Spoken(s, s.adopter.id) by { FreeMeans(s, s.adopter.node); }
    CreateKeepsSettled(s, uid, nodeClass);
    forall i | 0 <= i < |after.adopter.nodes| && Eligible(after.adopter.nodes[i], after.adopter.claimed, after.adopter.pending)
      ensures Free(after, after.adopter.nodes[i])
    {
      StillEligible(after.adopter.nodes[i], s.adopter.claimed, s.adopter.id, s.adopter.pending);
      OthersStayFree(s, uid, nodeClass, after.adopter.nodes[i]);
    }
  }

  /** Creating it unheard keeps all of that too: no other node of the pass has this ID. */
  lemma {:induction false} UnheardKeepsOwn(s: Cluster, uid: string, nodeClass: string)
    requires Base(s) && Own(s) && Enabled(s, AdoptCreateUnheard(uid, nodeClass))
    ensures Own(AdoptedUnheard(s, uid, nodeClass))
  {
    hide Base, Settled, Eligible, Free;
    var created, after := Adopted(s, uid, nodeClass), AdoptedUnheard(s, uid, nodeClass);
    CreateKeepsOwn(s, uid, nodeClass);
    RestIsNotTaken(s);
    forall i | 0 <= i < |s.adopter.nodes| && Eligible(s.adopter.nodes[i], s.adopter.claimed, s.adopter.pending)
      ensures Free(after, s.adopter.nodes[i])
    {
      OthersStayFree(s, uid, nodeClass, s.adopter.nodes[i]);
      SameClaimsFree(created, after, s.adopter.nodes[i]);
    }
    SameSettled(created, after);
  }

  lemma {:induction false} SameSettled(s: Cluster, after: Cluster)
    requires Settled(s) && after == s.(adopter := after.adopter)
    ensures Settled(after)
  {
    hide Single, AdoptedUnwanted, Free, StatusesUsed, OffersTo;
    SameClaimsSettled(s, after);
  }

  lemma {:induction false} FreeMeans(s: Cluster, node: Node)
    requires Free(s, node)
    ensures !Wanted(s, node) && !Spoken(s, node.providerId)
  {
  }

  /** Knowing one more ID only takes nodes away from the pass. */
  lemma {:induction false} StillEligible(node: Node, claimed: set<string>, id: string, pending: seq<Claim>)
    requires Eligible(node, claimed + {id}, pending)
    ensures Eligible(node, claimed, pending) && (node.providerId == "" || node.providerId != id)
  {
  }

  lemma {:induction false} OthersStayFree(s: Cluster, uid: string, nodeClass: string, node: Node)
    requires Base(s) && Enabled(s, AdoptCreate(uid, nodeClass)) && Free(s, node) && (node.providerId == "" || node.providerId != s.adopter.id)
    ensures Free(Adopted(s, uid, nodeClass), node)
  {
    CreateWants(s, uid, nodeClass, node);
    CreatedIsOnlyChange(s, uid, nodeClass);
    hide Base, Wants;
  }
}
