/** The provider-ID reconcile as it is written: search, then one versioned patch. */
module NodeBinding {
  import opened BatchTypes
  import opened ProviderIds
  import opened NodeMatching
  import opened Ownership
  import opened OwnershipTheorems

  datatype Outcome = Skipped | Requeued | Finished

  ghost predicate CanReconcile(s: Cluster, claim: Claim, list: seq<Claim>, nodes: seq<Node>) {
    s.binder.BinderIdle? && Known(s, claim) && Lists(s, list) && Snapshot(s, nodes)
  }

  /** What one reconcile is in the ownership protocol; `patched` is false if the patch call fails by itself. */
  function Steps(claim: Claim, list: seq<Claim>, nodes: seq<Node>, patched: bool): seq<Step> {
    if !IsLivePending(claim) || claim.pool == "" then []
    else if FirstMatch(claim, nodes, UsedIds(list, "")) == "" then [BindList(claim, list), BindChoose(nodes)]
    else [BindList(claim, list), BindChoose(nodes), if patched then BindPatch else BindAbort]
  }

  lemma {:induction false} StepsAreLegal(s: Cluster, claim: Claim, list: seq<Claim>, nodes: seq<Node>, patched: bool)
    requires CanReconcile(s, claim, list, nodes)
    ensures Legal(s, Steps(claim, list, nodes, patched))
    ensures var after := Run(s, Steps(claim, list, nodes, patched));
            var id := FirstMatch(claim, nodes, UsedIds(list, ""));
            after == if !IsLivePending(claim) || claim.pool == "" || id == "" || !patched then s
                     else Bound(s.(binder := BinderChose(claim, UsedIds(list, ""), id)))
  {
    hide Snapshot, Lists, Known, IsPending;
    var steps := Steps(claim, list, nodes, patched);
    if steps != [] {
      ListedAndChosen(s, claim, list, nodes);
      var listed := Next(s, BindList(claim, list));
      var chosen := Next(listed, BindChoose(nodes));
      if |steps| == 3 {
        OneMore(chosen, steps[2], []);
        assert [steps[2]] == [steps[2]] + [];
      }
      assert steps[2..] == if |steps| == 3 then [steps[2]] else [];
      OneMore(listed, BindChoose(nodes), steps[2..]);
      OneMore(s, BindList(claim, list), [BindChoose(nodes)] + steps[2..]);
      assert steps == [BindList(claim, list)] + ([BindChoose(nodes)] + steps[2..]);
    }
  }

  lemma {:induction false} ListedAndChosen(s: Cluster, claim: Claim, list: seq<Claim>, nodes: seq<Node>)
    requires CanReconcile(s, claim, list, nodes) && IsLivePending(claim) && claim.pool != ""
    ensures Enabled(s, BindList(claim, list)) && Enabled(Next(s, BindList(claim, list)), BindChoose(nodes))
    ensures var id := FirstMatch(claim, nodes, UsedIds(list, ""));
            Next(Next(s, BindList(claim, list)), BindChoose(nodes))
            == s.(binder := if id == "" then BinderIdle else BinderChose(claim, UsedIds(list, ""), id))
  {
    assert forall node :: Seen(s, node) ==> Seen(Next(s, BindList(claim, list)), node);
  }

  /** The claim is live and pending as it was read, nobody has written it since, and the API takes the patch. */
  predicate PatchLands(s: Cluster, claim: Claim, patched: bool) {
    && IsPending(claim.providerId) && !claim.deleting && patched
    && claim.uid in s.claims && s.claims[claim.uid].version == claim.version
  }

  class Controller {
    var cluster: Cluster

    constructor (s: Cluster)
      ensures cluster == s
    {
      cluster := s;
    }

    /** One reconcile of a claim, over a fresh claim list and a possibly stale node list. */
    method Reconcile(claim: Claim, list: seq<Claim>, nodes: seq<Node>, patched: bool) returns (outcome: Outcome)
      requires CanReconcile(cluster, claim, list, nodes)
      modifies this
      ensures Legal(old(cluster), Steps(claim, list, nodes, patched)) && cluster == Run(old(cluster), Steps(claim, list, nodes, patched))
      ensures outcome.Skipped? ==> !IsLivePending(claim) || claim.pool == "" || Skus(claim) == {}
      ensures outcome.Requeued? ==> IsLivePending(claim) && cluster == old(cluster)
      ensures cluster.nodes == old(cluster).nodes
      ensures forall i :: FirstOf(claim, list, "", nodes, i) && PatchLands(old(cluster), claim, patched) ==>
                cluster.claims == old(cluster).claims[claim.uid := claim.(providerId := nodes[i].providerId, version := claim.version + 1)]
      ensures !PatchLands(old(cluster), claim, patched) || (forall i :: 0 <= i < |nodes| ==> !MayBeOf(claim, list, "", nodes[i])) ==>
                cluster.claims == old(cluster).claims
    {
      StepsAreLegal(cluster, claim, list, nodes, patched);
      assert claim.uid in cluster.claims && cluster.claims[claim.uid].version == claim.version ==> cluster.claims[claim.uid] == claim;
      SearchIsExact(claim, list, "", nodes);
      if Skus(claim) == {} { FirstMatchIsFirst(claim, nodes, UsedIds(list, "")); }
      hide CanReconcile, Steps, Legal, Run, MayBeOf, UsedIds, FirstMatch, Skus, Takes, IsPending;
      if !IsPending(claim.providerId) { return Skipped; }
      if claim.deleting { return Skipped; }
      var skus := Skus(claim);
      if claim.pool == "" || skus == {} { return Skipped; }
      var used := CollectUsed(list, "");
      var found := Search(claim, nodes, skus, used);
      if found == "" { return Requeued; }
      if !patched { return Finished; }
      if claim.uid !in cluster.claims { return Finished; }
      if cluster.claims[claim.uid].version != claim.version { return Requeued; }
      var stored := cluster.claims[claim.uid];
      cluster := WithClaim(cluster.(remover := Noted(cluster.remover, claim.uid, found)), Bumped(stored.(providerId := found)));
      outcome := Finished;
    }
  }
}
