/**
  Whose node a Delete picks. Delete of a pending claim lists the claims, then the
  nodes, while both controllers go on working; this says exactly when its pick is
  another claim's.
 */
module DeleteOwnership {
  import opened BatchTypes
  import opened ProviderIds
  import opened NodeMatching
  import opened Ownership
  import opened OwnershipTheorems

  /** The list showed this claim with this provider ID. */
  predicate ListedWith(list: seq<Claim>, uid: string, id: string) {
    exists i :: 0 <= i < |list| && list[i].uid == uid && list[i].providerId == id
  }

  /** Since the listing, real statuses come from patches, and neither they nor those listed change. */
  ghost predicate ListingHolds(s: Cluster, list: seq<Claim>, bound: set<(string, string)>) {
    && (forall i :: 0 <= i < |list| ==> list[i].uid in s.uids)
    && (forall uid, id :: (uid, id) in bound ==> uid in s.uids)
    && (forall uid :: uid in s.claims ==> ClaimSince(s, list, bound, uid))
  }

  ghost predicate ClaimSince(s: Cluster, list: seq<Claim>, bound: set<(string, string)>, uid: string)
    requires uid in s.claims
  {
    var claim := s.claims[uid];
    && (claim.adoptedId == "" && IsReal(claim.providerId) ==> ListedWith(list, uid, claim.providerId) || (uid, claim.providerId) in bound)
    && (forall id :: (uid, id) in bound ==> IsReal(id) && claim.providerId == id)
    && (forall id :: ListedWith(list, uid, id) && id != "" && claim.adoptedId != "" ==> id == claim.adoptedId)
    && (forall id :: ListedWith(list, uid, id) && IsReal(id) ==> claim.providerId == id)
  }

  ghost predicate RemoverInv(s: Cluster) {
    s.remover.RemoverListed? ==> ListingHolds(s, s.remover.list, s.remover.bound)
  }

  // ---------- every step keeps it ----------

  lemma {:induction false} ClaimsMoveKeepsRemover(s: Cluster, after: Cluster)
    requires RemoverInv(s) && ClaimsSound(s) && ClaimsMove(s, after)
    ensures RemoverInv(after)
  {
    if s.remover.RemoverListed? {
      var list, bound := s.remover.list, s.remover.bound;
      forall uid | uid in after.claims ensures ClaimSince(after, list, bound, uid) {
        if uid in s.claims {
          assert ClaimSince(s, list, bound, uid) && Aged(s.claims[uid], after.claims[uid]) && ClaimSound(s, uid);
        } else {
          assert Newborn(s, after.claims[uid]);
        }
      }
    }
  }

  lemma {:induction false} SameClaimsKeepRemover(s: Cluster, after: Cluster)
    requires RemoverInv(s) && after.claims == s.claims && after.uids == s.uids && after.remover == s.remover
    ensures RemoverInv(after)
  {
    if s.remover.RemoverListed? {
      forall uid | uid in after.claims ensures ClaimSince(after, s.remover.list, s.remover.bound, uid) {
        assert ClaimSince(s, s.remover.list, s.remover.bound, uid);
      }
    }
  }

  lemma {:induction false} PatchKeepsRemover(s: Cluster)
    requires Base(s) && RemoverInv(s) && s.binder.BinderChose?
    ensures RemoverInv(Bound(s))
  {
    var uid := s.binder.claim.uid;
    if s.remover.RemoverListed? && uid in s.claims && s.claims[uid].version == s.binder.claim.version {
      PatchedClaim(s);
      assert ClaimSound(s, uid);
      hide Base;
      PatchIsNoted(s);
    }
  }

  lemma {:induction false} PatchIsNoted(s: Cluster)
    requires RemoverInv(s) && s.remover.RemoverListed? && s.binder.BinderChose? && s.binder.claim.uid in s.claims
    requires ClaimSound(s, s.binder.claim.uid) && s.claims[s.binder.claim.uid] == s.binder.claim
    requires IsPending(s.binder.claim.providerId) && IsReal(s.binder.id)
    ensures RemoverInv(Bound(s))
  {
    var after := Bound(s);
    hide Owned, ListedWith;
    forall u | u in after.claims ensures ClaimSince(after, s.remover.list, after.remover.bound, u) {
      assert ClaimSince(s, s.remover.list, s.remover.bound, u);
    }
  }

  lemma {:induction false} CreateKeepsRemover(s: Cluster, after: Cluster, uid: string, nodeClass: string)
    requires Base(s) && RemoverInv(s) && Enabled(s, AdoptCreate(uid, nodeClass))
    requires after == Adopted(s, uid, nodeClass) || after == AdoptedUnheard(s, uid, nodeClass)
    ensures RemoverInv(after)
  {
    if s.remover.RemoverListed? {
      var list, bound := s.remover.list, s.remover.bound;
      forall u | u in after.claims ensures ClaimSince(after, list, bound, u) {
        if u != uid { assert ClaimSince(s, list, bound, u); }
      }
    }
  }

  lemma {:induction false} ListingBegins(s: Cluster, claim: Claim, list: seq<Claim>)
    requires Base(s) && Enabled(s, DeleteList(claim, list))
    ensures RemoverInv(Next(s, DeleteList(claim, list)))
  {
    var after := Next(s, DeleteList(claim, list));
    hide NodesSound, AdopterBase, BinderBase, AdoptedOnce;
    forall i | 0 <= i < |list| ensures list[i].uid in s.uids {
      assert ClaimSound(s, list[i].uid);
    }
    forall uid | uid in after.claims ensures ClaimSince(after, list, {}, uid) {
      assert ClaimSound(s, uid) && s.claims[uid] in list;
      assert ListedWith(list, uid, s.claims[uid].providerId);
    }
  }

  lemma {:induction false} StepKeepsRemover(s: Cluster, step: Step)
    requires Base(s) && RemoverInv(s) && Enabled(s, step)
    ensures RemoverInv(Next(s, step))
  {
    hide Base, RemoverInv, ClaimsMove, NodesMove, NodesSound, ClaimsSound;
    if Surroundings(step) {
      BaseParts(s);
      hide Enabled;
      SurroundingsMove(s, step);
      if ClaimsMove(s, Next(s, step)) {
        ClaimsMoveKeepsRemover(s, Next(s, step));
      } else {
        MovedNodesKeepRemover(s, Next(s, step));
      }
    } else {
      ControllerKeepsRemover(s, step);
    }
  }

  lemma {:induction false} MovedNodesKeepRemover(s: Cluster, after: Cluster)
    requires RemoverInv(s) && NodesMove(s, after)
    ensures RemoverInv(after)
  {
    hide RemoverInv;
    SameClaimsKeepRemover(s, after);
  }

  lemma {:induction false} ControllerKeepsRemover(s: Cluster, step: Step)
    requires Base(s) && RemoverInv(s) && Enabled(s, step) && !Surroundings(step)
    ensures RemoverInv(Next(s, step))
  {
    hide Base, ListingHolds, Lists, Snapshot, Eligible;
    if step.BindPatch? {
      PatchKeepsRemover(s);
    } else if Creates(step) {
      CreateKeepsRemover(s, Next(s, step), step.uid, step.nodeClass);
    } else if step.DeleteList? {
      ListingBegins(s, step.claim, step.list);
    } else if !step.DeleteChoose? && !step.DeleteEnd? {
      OthersKeepRemover(s, step);
    }
  }

  lemma {:induction false} OthersKeepRemover(s: Cluster, step: Step)
    requires RemoverInv(s) && Enabled(s, step) && !Surroundings(step) && !step.BindPatch? && !Creates(step)
    requires !step.DeleteList? && !step.DeleteChoose? && !step.DeleteEnd?
    ensures RemoverInv(Next(s, step))
  {
    hide Lists, Snapshot, Eligible, RemoverInv;
    SameClaimsKeepRemover(s, Next(s, step));
  }

  lemma {:induction false} RunKeepsRemover(s: Cluster, steps: seq<Step>)
    requires Base(s) && RemoverInv(s) && Legal(s, steps)
    ensures Base(Run(s, steps)) && RemoverInv(Run(s, steps))
    decreases |steps|
  {
    hide Base, RemoverInv, Enabled;
    if steps != [] {
      StepKeepsBase(s, steps[0]);
      StepKeepsRemover(s, steps[0]);
      RunKeepsRemover(Next(s, steps[0]), steps[1..]);
    }
  }

  // ---------- the pick ----------

  /** The claim adopted the node, and had no status yet when Delete listed the claims. */
  predicate AdoptedUnseen(s: Cluster, uid: string, id: string)
    requires s.remover.RemoverListed? && uid in s.claims
  {
    s.claims[uid].adoptedId == id && forall i :: 0 <= i < |s.remover.list| && s.remover.list[i].uid == uid ==> s.remover.list[i].providerId == ""
  }

  /** The provider-ID controller bound the claim to the node after Delete listed the claims. */
  predicate BoundSince(s: Cluster, uid: string, id: string)
    requires s.remover.RemoverListed?
  {
    (uid, id) in s.remover.bound
  }

  lemma {:induction false} PickIsReal(s: Cluster, nodes: seq<Node>)
    requires NodesSound(s) && Enabled(s, DeleteChoose(nodes)) && Picked(s, nodes) != ""
    ensures IsReal(Picked(s, nodes)) && Picked(s, nodes) !in UsedIds(s.remover.list, s.remover.claim.uid)
  {
    var used := UsedIds(s.remover.list, s.remover.claim.uid);
    FirstMatchIsFirst(s.remover.claim, nodes, used);
    var i :| ChosenAt(s.remover.claim, nodes, used, i) && nodes[i].providerId == Picked(s, nodes);
    assert Seen(s, nodes[i]);
    NodeIdsAreReal(s, nodes[i].name);
  }

  lemma {:induction false} PickIsUnlisted(s: Cluster, nodes: seq<Node>, uid: string)
    requires NodesSound(s) && Enabled(s, DeleteChoose(nodes)) && Picked(s, nodes) != "" && uid != s.remover.claim.uid
    ensures !ListedWith(s.remover.list, uid, Picked(s, nodes))
  {
    PickIsReal(s, nodes);
  }

  lemma {:induction false} PickIsAnothersHere(s: Cluster, nodes: seq<Node>, uid: string)
    requires Base(s) && RemoverInv(s) && Enabled(s, DeleteChoose(nodes)) && Picked(s, nodes) != ""
    requires uid in s.claims && uid != s.remover.claim.uid
    ensures var id := Picked(s, nodes); SpeaksFor(s.claims[uid], id) <==> AdoptedUnseen(s, uid, id) || BoundSince(s, uid, id)
  {
    var id, list := Picked(s, nodes), s.remover.list;
    BaseParts(s);
    PickIsReal(s, nodes);
    PickIsUnlisted(s, nodes, uid);
    assert ClaimSound(s, uid) && ClaimSince(s, list, s.remover.bound, uid);
    hide Base, NodesSound, ClaimsSound, Picked, FirstMatch, UsedIds;
    if s.claims[uid].adoptedId == id {
      forall i | 0 <= i < |list| && list[i].uid == uid ensures list[i].providerId == "" {
        assert ListedWith(list, uid, list[i].providerId);
      }
    }
  }

  /**
    Over every interleaving, with node lists as stale as can be: what Delete picks is
    another claim's if and only if that claim adopted the node and had no status when
    the claims were listed, or was bound to it since.
   */
  lemma {:induction false} DeletePicksAnothersExactly(start: int, steps: seq<Step>, nodes: seq<Node>, uid: string)
    requires Legal(Empty(start), steps)
    requires var s := Run(Empty(start), steps);
             Enabled(s, DeleteChoose(nodes)) && Picked(s, nodes) != "" && uid in s.claims && uid != s.remover.claim.uid
    ensures var s := Run(Empty(start), steps);
            var id := Picked(s, nodes);
            SpeaksFor(s.claims[uid], id) <==> AdoptedUnseen(s, uid, id) || BoundSince(s, uid, id)
  {
    var s := Run(Empty(start), steps);
    EmptyIsSettled(start);
    RunKeepsRemover(Empty(start), steps);
    hide Base, RemoverInv, Run, Legal;
    PickIsAnothersHere(s, nodes, uid);
  }

  // ---------- a run in which it happens without any adoption ----------

  const GOING := Claim("a", "p", "sku", "cls", 0, true, PENDING_PREFIX + "a", "", "b1", 2)
  const STAYING := Claim("b", "p", "sku", "cls", 0, false, PENDING_PREFIX + "b", "", "b1", 1)
  const SETTLED := STAYING.(providerId := "rafay://p/sku/h", version := 2)

  /** Delete of one claim lists the claims; another claim is then bound to the node; then Delete lists the nodes. */
  function LateBind(): seq<Step> {
    [NewClaim("a", "p", "", "cls"), NewClaim("b", "p", "", "cls"), LaunchClaim("a", "sku", "b1"), LaunchClaim("b", "sku", "b1"), MarkDeleting("a"),
     Tick(1), JoinNode(MACHINE), DeleteList(GOING, [GOING, STAYING]), BindList(STAYING, [GOING, STAYING]), BindChoose([MACHINE]), BindPatch]
  }

  function AtTime(now: int, claims: map<string, Claim>, nodes: map<string, Node>, binder: Binder, remover: Remover): Cluster {
    Cluster(now, claims, nodes, nodes, claims.Keys, binder, AdopterIdle, remover)
  }

  function LateBindStates(): seq<Cluster> {
    var new_a, new_b := Claim("a", "p", "", "cls", 0, false, "", "", "", 0), Claim("b", "p", "", "cls", 0, false, "", "", "", 0);
    var up_a := GOING.(deleting := false, version := 1);
    var both, h := map["a" := GOING, "b" := STAYING], map["h" := MACHINE];
    var listed := RemoverListed(GOING, [GOING, STAYING], {});
    [Empty(0),
     AtTime(0, map["a" := new_a], map[], BinderIdle, RemoverIdle),
     AtTime(0, map["a" := new_a, "b" := new_b], map[], BinderIdle, RemoverIdle),
     AtTime(0, map["a" := up_a, "b" := new_b], map[], BinderIdle, RemoverIdle),
     AtTime(0, map["a" := up_a, "b" := STAYING], map[], BinderIdle, RemoverIdle),
     AtTime(0, both, map[], BinderIdle, RemoverIdle),
     AtTime(1, both, map[], BinderIdle, RemoverIdle),
     AtTime(1, both, h, BinderIdle, RemoverIdle),
     AtTime(1, both, h, BinderIdle, listed),
     AtTime(1, both, h, BinderListed(STAYING, {}), listed),
     AtTime(1, both, h, BinderChose(STAYING, {}, "rafay://p/sku/h"), listed),
     AtTime(1, map["a" := GOING, "b" := SETTLED], h, BinderIdle, RemoverListed(GOING, [GOING, STAYING], {("b", "rafay://p/sku/h")}))]
  }

  lemma {:induction false} LateBindCreates()
    ensures TracedAt(LateBindStates(), LateBind(), 0) && TracedAt(LateBindStates(), LateBind(), 1)
  {
    assert LateBindStates()[1].claims.Keys == {"a"} && LateBindStates()[2].claims.Keys == {"a", "b"};
  }

  lemma {:induction false} LateBindLaunches()
    ensures TracedAt(LateBindStates(), LateBind(), 2) && TracedAt(LateBindStates(), LateBind(), 3)
  {
    assert LateBindStates()[2].claims.Keys == {"a", "b"} == LateBindStates()[3].claims.Keys == LateBindStates()[4].claims.Keys;
  }

  lemma {:induction false} LateBindDeletes()
    ensures TracedAt(LateBindStates(), LateBind(), 4) && TracedAt(LateBindStates(), LateBind(), 5)
  {
    assert LateBindStates()[4].claims.Keys == {"a", "b"} == LateBindStates()[5].claims.Keys;
  }

  lemma {:induction false} LateBindJoins()
    ensures TracedAt(LateBindStates(), LateBind(), 6)
  {
    assert MACHINE.providerId == Build("p", "sku", "h");
    BuiltIsOwn(MACHINE);
    hide Build, NamesAnother, IsPending;
  }

  lemma {:induction false} LateBindLists()
    ensures TracedAt(LateBindStates(), LateBind(), 7)
  {
    assert GOING in [GOING, STAYING] && STAYING in [GOING, STAYING];
  }

  lemma {:induction false} LateBindListsAgain()
    ensures TracedAt(LateBindStates(), LateBind(), 8)
  {
    assert UsedIds([GOING, STAYING], "") == {};
    assert GOING in [GOING, STAYING] && STAYING in [GOING, STAYING];
  }

  lemma {:induction false} LateBindChooses()
    ensures TracedAt(LateBindStates(), LateBind(), 9)
  {
  }

  lemma {:induction false} LateBindBinds()
    ensures TracedAt(LateBindStates(), LateBind(), 10)
  {
    var states := LateBindStates();
    assert states[11].claims.Keys == {"a", "b"} == states[10].claims.Keys;
    assert states[10].uids + {"b"} == states[11].uids;
    assert states[10].claims["b" := SETTLED] == states[11].claims;
    assert states[10].remover.bound + {("b", "rafay://p/sku/h")} == states[11].remover.bound;
  }

  lemma {:induction false} LateBindIsATrace()
    ensures Trace(LateBindStates(), LateBind())
  {
    hide TracedAt;
    LateBindCreates();
    LateBindLaunches();
    LateBindDeletes();
    LateBindJoins();
    LateBindLists();
    LateBindListsAgain();
    LateBindChooses();
    LateBindBinds();
  }

  ghost predicate PicksAnothers(s: Cluster, nodes: seq<Node>, uid: string) {
    && Enabled(s, DeleteChoose(nodes)) && uid in s.claims && s.remover.claim.uid != uid && SpeaksFor(s.claims[uid], Picked(s, nodes))
  }

  /** The node Delete picks for one claim has just become another's. */
  lemma {:induction false} DeletePicksABoundNode()
    ensures Legal(Empty(0), LateBind()) && Run(Empty(0), LateBind()) == LateBindStates()[11]
    ensures PicksAnothers(LateBindStates()[11], [MACHINE], "b")
  {
    LateBindIsATrace();
    TraceIsRun(LateBindStates(), LateBind());
    assert LateBindStates()[0] == Empty(0) && |LateBind()| == 11;
    LateBindPicks();
    hide LateBindStates, LateBind, Trace, Legal, Run, PicksAnothers;
  }

  lemma {:induction false} LateBindPicks()
    ensures PicksAnothers(LateBindStates()[11], [MACHINE], "b")
  {
    var s := LateBindStates()[11];
    assert UsedIds([GOING, STAYING], "a") == {};
    assert Takes(GOING, MACHINE, {});
    assert Seen(s, MACHINE);
  }
}
