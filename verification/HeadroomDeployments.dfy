/** What a full sync leaves, said of the Deployments' own fields. */
module HeadroomDeployments {
  import opened BatchTypes
  import opened HeadroomMath
  import opened HeadroomConfig
  import opened HeadroomSync

  /** A pool's nodes are those that carry its label, as often as they are listed. */
  lemma {:induction false} InPoolIsExact(nodes: seq<Machine>, pool: string, node: Machine)
    ensures multiset(InPool(nodes, pool))[node] == if node.pool == pool then multiset(nodes)[node] else 0
  {
    if nodes != [] {
      var rest, last := nodes[..|nodes| - 1], nodes[|nodes| - 1];
      assert nodes == rest + [last];
      InPoolIsExact(rest, pool, node);
    }
  }

  /** The Deployment holds the pool's headroom: its labels, the count over the ready nodes, one pod's requests, and the tolerations. */
  predicate HoldsHeadroom(d: Deployment, policy: Policy, ready: seq<Machine>) {
    && d.labels == map["rafay.io/headroom" := "true", "rafay.io/headroom-pool" := policy.name]
    && d.replicas == DesiredReplicas(policy, Totals(ready), |ready|)
    && d.requests.cpu == policy.podCpu && d.requests.memory == policy.podMemory
    && d.requests.gpu == (if policy.podGpu == 0 || LastKey(ready) == "" then None else Some((LastKey(ready), policy.podGpu)))
    && d.tolerations == policy.tolerations
  }

  /** The selector a Deployment had stays; a new one selects its pool. */
  predicate Selects(deps: map<string, Deployment>, name: string, d: Deployment, pool: string) {
    d.selector == if name in deps && deps[name].selector != "" then deps[name].selector else pool
  }

  lemma {:induction false} OneSelects(deps: map<string, Deployment>, policy: Policy, nodes: seq<Machine>, name: string)
    ensures var own, after := DeploymentName(policy.name), ApplyOne(deps, policy, nodes, {});
            && own in after && Selects(deps, own, after[own], policy.name)
            && (name != own ==> (name in after <==> name in deps) && (name in after ==> after[name] == deps[name]))
  {
    hide Wanted, ReadyIn, PerPodRequests, LastKey, DeploymentName, LabelsOf;
  }

  /** Pools of other names leave a Deployment alone. */
  lemma {:induction false} OthersLeaveIt(deps: map<string, Deployment>, pools: seq<Policy>, nodes: seq<Machine>, pool: string)
    requires forall i :: 0 <= i < |pools| ==> pools[i].name != pool
    ensures var name, after := DeploymentName(pool), ApplyAll(deps, pools, nodes, {});
            (name in after <==> name in deps) && (name in after ==> after[name] == deps[name])
  {
    if pools != [] {
      var rest, last := pools[..|pools| - 1], pools[|pools| - 1];
      OthersLeaveIt(deps, rest, nodes, pool);
      NamesDiffer(pool, last.name);
      OneSelects(ApplyAll(deps, rest, nodes, {}), last, nodes, DeploymentName(pool));
      hide DeploymentName, ApplyOne;
    }
  }

  lemma {:induction false} SelectorStays(deps: map<string, Deployment>, pools: seq<Policy>, nodes: seq<Machine>, i: nat)
    requires DistinctPools(pools) && i < |pools|
    ensures var name, after := DeploymentName(pools[i].name), ApplyAll(deps, pools, nodes, {});
            name in after && Selects(deps, name, after[name], pools[i].name)
    decreases |pools|
  {
    hide DistinctPools, DeploymentName, ApplyOne;
    PrefixDiffers(pools, i);
    var rest, last := pools[..|pools| - 1], pools[|pools| - 1];
    OneSelects(ApplyAll(deps, rest, nodes, {}), last, nodes, DeploymentName(pools[i].name));
    if i < |rest| {
      SelectorStays(deps, rest, nodes, i);
      NamesDiffer(pools[i].name, last.name);
    } else {
      OthersLeaveIt(deps, rest, nodes, pools[i].name);
    }
  }

  lemma {:induction false} PrefixDiffers(pools: seq<Policy>, i: nat)
    requires DistinctPools(pools) && i < |pools|
    ensures var rest := pools[..|pools| - 1];
            && DistinctPools(rest)
            && (if i < |rest| then rest[i] == pools[i] && pools[i].name != pools[|rest|].name
                else forall k :: 0 <= k < |rest| ==> rest[k].name != pools[i].name)
  {
  }

  lemma {:induction false} PlaceHolds(after: map<string, Deployment>, policy: Policy, nodes: seq<Machine>)
    requires InPlace(after, policy, nodes)
    ensures "headroom-" + policy.name in after && HoldsHeadroom(after["headroom-" + policy.name], policy, Ready(InPool(nodes, policy.name)))
  {
    hide DesiredReplicas, Totals, LastKey, Ready, InPool;
  }

  /**
    With every API call answered and a fresh list, each configured pool has its Deployment,
    under its own name and with every field as the policy and the pool's ready nodes make it.
   */
  lemma {:induction false} SyncedDeploymentsHold(deps: map<string, Deployment>, pools: seq<Policy>, nodes: seq<Machine>, i: nat)
    requires DistinctPools(pools) && i < |pools|
    ensures var after := Synced(deps, pools, nodes, AllWell(deps, pools, nodes));
            var name := "headroom-" + pools[i].name;
            && name in after
            && HoldsHeadroom(after[name], pools[i], Ready(InPool(nodes, pools[i].name)))
            && Selects(deps, name, after[name], pools[i].name)
  {
    SyncConverges(deps, pools, nodes);
    var after := Synced(deps, pools, nodes, AllWell(deps, pools, nodes));
    PlaceHolds(after, pools[i], nodes);
    SelectorStays(deps, pools, nodes, i);
    SyncedIsApplied(deps, pools, nodes, DeploymentName(pools[i].name));
  }

  lemma {:induction false} SyncedIsApplied(deps: map<string, Deployment>, pools: seq<Policy>, nodes: seq<Machine>, name: string)
    ensures var after, applied := Synced(deps, pools, nodes, AllWell(deps, pools, nodes)), ApplyAll(deps, pools, nodes, {});
            name in after ==> name in applied && after[name] == applied[name]
  {
    hide ApplyAll;
  }

  /** The list shows a headroom Deployment of a pool the policy does not name. */
  predicate ShownStale(shown: map<string, Deployment>, pools: seq<Policy>, name: string) {
    && name in shown
    && "rafay.io/headroom" in shown[name].labels && shown[name].labels["rafay.io/headroom"] == "true"
    && forall i :: 0 <= i < |pools| ==>
         pools[i].name != if "rafay.io/headroom-pool" in shown[name].labels then shown[name].labels["rafay.io/headroom-pool"] else ""
  }

  /**
    Whatever fails, a Deployment that was there or was applied is gone after a sync if and
    only if the list was read and shows it so, and its own delete went through.
   */
  lemma {:induction false} GoneExactlyWhenShownStale(deps: map<string, Deployment>, pools: seq<Policy>, nodes: seq<Machine>, answers: Answers, name: string)
    requires name in ApplyAll(deps, pools, nodes, answers.trouble)
    ensures name !in Synced(deps, pools, nodes, answers)
            <==> answers.shown.Some? && ShownStale(answers.shown.value, pools, name) && name !in answers.stuck
  {
    hide ApplyAll;
    if answers.shown.Some? && name in answers.shown.value {
      var d := answers.shown.value[name];
      assert d.Pool() in Names(pools) <==> exists i :: 0 <= i < |pools| && pools[i].name == d.Pool();
    }
  }

  /** With trouble, a pool's Deployment is what it was; without, it is applied as above. */
  lemma {:induction false} TroubleLeavesThePool(deps: map<string, Deployment>, pools: seq<Policy>, nodes: seq<Machine>, trouble: set<string>, i: nat)
    requires DistinctPools(pools) && i < |pools|
    ensures var name, after := "headroom-" + pools[i].name, ApplyAll(deps, pools, nodes, trouble);
            if pools[i].name in trouble then (name in after <==> name in deps) && (name in after ==> after[name] == deps[name])
            else name in after && HoldsHeadroom(after[name], pools[i], Ready(InPool(nodes, pools[i].name)))
    decreases |pools|
  {
    ApplyAllPlaces(deps, pools, nodes, trouble);
    if pools[i].name in trouble {
      UntouchedInTrouble(deps, pools, nodes, trouble, pools[i].name);
    } else {
      PlaceHolds(ApplyAll(deps, pools, nodes, trouble), pools[i], nodes);
    }
  }

  lemma {:induction false} UntouchedInTrouble(deps: map<string, Deployment>, pools: seq<Policy>, nodes: seq<Machine>, trouble: set<string>, pool: string)
    requires pool in trouble
    ensures var name, after := DeploymentName(pool), ApplyAll(deps, pools, nodes, trouble);
            (name in after <==> name in deps) && (name in after ==> after[name] == deps[name])
  {
    if pools != [] {
      var rest, last := pools[..|pools| - 1], pools[|pools| - 1];
      UntouchedInTrouble(deps, rest, nodes, trouble, pool);
      NamesDiffer(pool, last.name);
      hide Applied, DeploymentName;
    }
  }
}
