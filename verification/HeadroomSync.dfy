/** The full sync of the headroom Deployments: applied for every configured pool, collected for every other. */
module HeadroomSync {
  import opened BatchTypes
  import opened HeadroomMath
  import opened HeadroomConfig

  const HEADROOM_LABEL := "rafay.io/headroom"
  const POOL_LABEL := "rafay.io/headroom-pool"

  /**
    A Deployment: its labels, the fields this controller owns, its selector
    ("" until it is created), and everything else about it.
   */
  datatype Deployment = Deployment(
    labels: map<string, string>,
    replicas: int,
    requests: Requests,
    tolerations: seq<Toleration>,
    selector: string,
    others: string)
  {
    /** Whether the label selector of the cleanup finds it. */
    predicate Marked() {
      HEADROOM_LABEL in labels && labels[HEADROOM_LABEL] == "true"
    }

    /** Its pool label, "" without one. */
    function Pool(): string {
      if POOL_LABEL in labels then labels[POOL_LABEL] else ""
    }
  }

  const BLANK := Deployment(map[], 0, Requests(0, 0, None), [], "", "")

  /** All the labels a headroom Deployment has. */
  function LabelsOf(pool: string): map<string, string> {
    map[HEADROOM_LABEL := "true", POOL_LABEL := pool]
  }

  function DeploymentName(pool: string): string {
    "headroom-" + pool
  }

  lemma {:induction false} NamesDiffer(a: string, b: string)
    ensures DeploymentName(a) == DeploymentName(b) <==> a == b
  {
    assert DeploymentName(a)[9..] == a && DeploymentName(b)[9..] == b;
  }

  /** The nodes the API lists for a pool's label. */
  function InPool(nodes: seq<Machine>, pool: string): seq<Machine> {
    if nodes == [] then [] else InPool(nodes[..|nodes| - 1], pool) + if nodes[|nodes| - 1].pool == pool then [nodes[|nodes| - 1]] else []
  }

  function ReadyIn(nodes: seq<Machine>, pool: string): seq<Machine> {
    Ready(InPool(nodes, pool))
  }

  /** The replicas a pool should have. */
  function Wanted(policy: Policy, nodes: seq<Machine>): int {
    DesiredReplicas(policy, Totals(ReadyIn(nodes, policy.name)), |ReadyIn(nodes, policy.name)|)
  }

  /** What applying a pool makes of its Deployment. */
  function Applied(was: Deployment, policy: Policy, nodes: seq<Machine>): Deployment {
    was.(labels := LabelsOf(policy.name), replicas := Wanted(policy, nodes),
         requests := PerPodRequests(policy, LastKey(ReadyIn(nodes, policy.name))), tolerations := policy.tolerations,
         selector := if was.selector == "" then policy.name else was.selector)
  }

  function ApplyOne(deps: map<string, Deployment>, policy: Policy, nodes: seq<Machine>, trouble: set<string>): map<string, Deployment> {
    var name := DeploymentName(policy.name);
    if policy.name in trouble then deps
    else deps[name := Applied(if name in deps then deps[name] else BLANK, policy, nodes)]
  }

  /** Every pool in turn; `trouble` are the pools for which an API call fails. */
  function ApplyAll(deps: map<string, Deployment>, pools: seq<Policy>, nodes: seq<Machine>, trouble: set<string>): map<string, Deployment> {
    if pools == [] then deps
    else ApplyOne(ApplyAll(deps, pools[..|pools| - 1], nodes, trouble), pools[|pools| - 1], nodes, trouble)
  }

  function Names(pools: seq<Policy>): set<string> {
    set i | 0 <= i < |pools| :: pools[i].name
  }

  predicate Stale(d: Deployment, names: set<string>) {
    d.Marked() && d.Pool() !in names
  }

  /** The names that are deleted: stale as the list shows them, and the delete goes through. */
  predicate Doomed(shown: map<string, Deployment>, names: set<string>, stuck: set<string>, name: string) {
    name in shown && Stale(shown[name], names) && name !in stuck
  }

  function Collected(deps: map<string, Deployment>, shown: map<string, Deployment>, names: set<string>, stuck: set<string>): map<string, Deployment> {
    map name | name in deps && !Doomed(shown, names, stuck, name) :: deps[name]
  }

  /**
    How the API answers: pools in trouble, whether pods can be listed, the Deployments
    the cached list shows (None if it fails), deletes that fail.
   */
  datatype Answers = Answers(trouble: set<string>, podsListed: bool, shown: Option<map<string, Deployment>>, stuck: set<string>)

  /** Every call succeeds and the list is fresh. */
  function AllWell(deps: map<string, Deployment>, pools: seq<Policy>, nodes: seq<Machine>): Answers {
    Answers({}, true, Some(ApplyAll(deps, pools, nodes, {})), {})
  }

  function Synced(deps: map<string, Deployment>, pools: seq<Policy>, nodes: seq<Machine>, answers: Answers): map<string, Deployment> {
    var applied := ApplyAll(deps, pools, nodes, answers.trouble);
    if answers.shown.Some? then Collected(applied, answers.shown.value, Names(pools), answers.stuck) else applied
  }

  datatype ConfigMap = Absent | Unreadable | Present(data: map<string, Decoded>)

  // ---------- the controller ----------

  class Controller {
    var deployments: map<string, Deployment>

    constructor (deps: map<string, Deployment>)
      ensures deployments == deps
    {
      deployments := deps;
    }

    /** No ConfigMap means no pools; one that cannot be read is an error. */
    method LoadPools(cm: ConfigMap) returns (loaded: Loaded)
      ensures cm.Absent? ==> loaded == Policies([])
      ensures cm.Unreadable? ==> loaded == Broken
      ensures cm.Present? ==> IsPolicy(cm.data, loaded)
    {
      if cm.Absent? { return Policies([]); }
      if cm.Unreadable? { return Broken; }
      loaded := ParseHeadroomConfig(cm.data);
    }

    method ReconcilePool(policy: Policy, nodes: seq<Machine>, trouble: set<string>) returns (ok: bool)
      modifies this
      ensures deployments == ApplyOne(old(deployments), policy, nodes, trouble)
      ensures ok <==> policy.name !in trouble
    {
      if policy.name in trouble { return false; }
      var ready := FilterReady(InPool(nodes, policy.name));
      var total := SumAllocatable(ready);
      var replicas := DesiredReplicas(policy, total, |ready|);
      var requests := PerPodRequests(policy, total.gpuKey);
      var name := "headroom-" + policy.name;
      var d := if name in deployments then deployments[name] else BLANK;
      if d.selector == "" { d := d.(selector := policy.name); }
      d := d.(labels := LabelsOf(policy.name));
      d := d.(replicas := replicas, requests := requests, tolerations := policy.tolerations);
      deployments := deployments[name := d];
      ok := true;
    }

    method CleanupStale(pools: seq<Policy>, answers: Answers) returns (ok: bool)
      modifies this
      ensures ok <==> answers.shown.Some?
      ensures answers.shown.None? ==> deployments == old(deployments)
      ensures answers.shown.Some? ==> deployments == Collected(old(deployments), answers.shown.value, Names(pools), answers.stuck)
    {
      var configured: set<string> := {};
      for i := 0 to |pools|
        invariant configured == Names(pools[..i]) && deployments == old(deployments)
      {
        assert pools[..i + 1] == pools[..i] + [pools[i]];
        NamesGrow(pools[..i], pools[i]);
        configured := configured + {pools[i].name};
      }
      assert pools[..|pools|] == pools;
      if answers.shown.None? { return false; }
      var shown := answers.shown.value;
      ghost var was := deployments;
      var left := shown.Keys;
      while left != {}
        invariant left <= shown.Keys && deployments.Keys <= was.Keys
        invariant forall name :: name in deployments ==> deployments[name] == was[name]
        invariant forall name :: name in was ==> (name in deployments <==> name in left || !Doomed(shown, configured, answers.stuck, name))
        decreases |left|
      {
        var name :| name in left;
        left := left - {name};
        if !shown[name].Marked() || shown[name].Pool() in configured { continue; }
        if name !in answers.stuck { deployments := deployments - {name}; }
      }
      ok := true;
    }

    /** A full sync; a policy that cannot be used stops it before anything changes. */
    method Reconcile(cm: ConfigMap, nodes: seq<Machine>, answers: Answers) returns (ok: bool, loaded: Loaded)
      modifies this
      ensures cm.Absent? ==> loaded == Policies([])
      ensures cm.Unreadable? ==> loaded == Broken
      ensures cm.Present? ==> IsPolicy(cm.data, loaded)
      ensures loaded.Broken? ==> !ok && deployments == old(deployments)
      ensures loaded.Policies? ==>
                && deployments == Synced(old(deployments), loaded.pools, nodes, answers)
                && (ok <==> Names(loaded.pools) !! answers.trouble && answers.podsListed && answers.shown.Some?)
    {
      loaded := LoadPools(cm);
      hide IsPolicy;
      if loaded.Broken? { return false, loaded; }
      var pools := loaded.pools;
      ok := true;
      NothingApplied(deployments, pools, nodes, answers.trouble);
      SyncedMeans(deployments, pools, nodes, answers);
      hide Names, ApplyOne, ApplyAll, Collected, Synced;
      for i := 0 to |pools|
        invariant deployments == ApplyAll(old(deployments), pools[..i], nodes, answers.trouble)
        invariant ok <==> Names(pools[..i]) !! answers.trouble
      {
        OneMoreApplied(old(deployments), pools, i, nodes, answers.trouble);
        var applied := ReconcilePool(pools[i], nodes, answers.trouble);
        ok := ok && applied;
      }
      assert pools[..|pools|] == pools;
      if !answers.podsListed { ok := false; }
      var cleaned := CleanupStale(pools, answers);
      ok := ok && cleaned;
    }
  }

  lemma {:induction false} NothingApplied(deps: map<string, Deployment>, pools: seq<Policy>, nodes: seq<Machine>, trouble: set<string>)
    ensures ApplyAll(deps, pools[..0], nodes, trouble) == deps && Names(pools[..0]) == {}
  {
  }

  lemma {:induction false} OneMoreApplied(deps: map<string, Deployment>, pools: seq<Policy>, i: nat, nodes: seq<Machine>, trouble: set<string>)
    requires i < |pools|
    ensures ApplyAll(deps, pools[..i + 1], nodes, trouble) == ApplyOne(ApplyAll(deps, pools[..i], nodes, trouble), pools[i], nodes, trouble)
    ensures Names(pools[..i + 1]) == Names(pools[..i]) + {pools[i].name}
  {
    assert pools[..i + 1] == pools[..i] + [pools[i]] && pools[..i + 1][..i] == pools[..i];
    NamesGrow(pools[..i], pools[i]);
    hide ApplyOne, Names;
  }

  lemma {:induction false} SyncedMeans(deps: map<string, Deployment>, pools: seq<Policy>, nodes: seq<Machine>, answers: Answers)
    ensures var applied := ApplyAll(deps, pools, nodes, answers.trouble);
            Synced(deps, pools, nodes, answers)
            == if answers.shown.Some? then Collected(applied, answers.shown.value, Names(pools), answers.stuck) else applied
  {
  }

  lemma {:induction false} NamesGrow(pools: seq<Policy>, p: Policy)
    ensures Names(pools + [p]) == Names(pools) + {p.name}
  {
    var longer := pools + [p];
    assert longer[|pools|] == p && forall k :: 0 <= k < |pools| ==> longer[k] == pools[k];
  }

  // ---------- what a sync achieves ----------

  predicate DistinctPools(pools: seq<Policy>) {
    (forall i :: 0 <= i < |pools| ==> pools[i].name != "") && forall i, j :: 0 <= i < j < |pools| ==> pools[i].name != pools[j].name
  }

  /** The pool's Deployment is there, as the policy and the nodes want it. */
  predicate InPlace(after: map<string, Deployment>, policy: Policy, nodes: seq<Machine>) {
    && DeploymentName(policy.name) in after
    && var d := after[DeploymentName(policy.name)];
    && d.labels == LabelsOf(policy.name) && d.replicas == Wanted(policy, nodes)
    && d.requests == PerPodRequests(policy, LastKey(ReadyIn(nodes, policy.name))) && d.tolerations == policy.tolerations
    && d.selector != ""
  }

  /** Applying one pool puts it in place and leaves every other name alone. */
  lemma {:induction false} ApplyOnePlaces(deps: map<string, Deployment>, policy: Policy, nodes: seq<Machine>, trouble: set<string>)
    requires policy.name != ""
    ensures var after := ApplyOne(deps, policy, nodes, trouble);
            && deps.Keys <= after.Keys
            && (policy.name !in trouble ==> InPlace(after, policy, nodes))
            && (forall name :: name in after && name != DeploymentName(policy.name) ==> name in deps && after[name] == deps[name])
  {
    hide Wanted, ReadyIn, PerPodRequests, LastKey;
  }

  lemma {:induction false} StaysInPlace(deps: map<string, Deployment>, after: map<string, Deployment>, policy: Policy, nodes: seq<Machine>)
    requires InPlace(deps, policy, nodes) && DeploymentName(policy.name) in after
    requires after[DeploymentName(policy.name)] == deps[DeploymentName(policy.name)]
    ensures InPlace(after, policy, nodes)
  {
  }

  /** Each pool that is not in trouble is in place, and no other Deployment is touched or lost. */
  lemma {:induction false} ApplyAllPlaces(deps: map<string, Deployment>, pools: seq<Policy>, nodes: seq<Machine>, trouble: set<string>)
    requires DistinctPools(pools)
    ensures var after := ApplyAll(deps, pools, nodes, trouble);
            && deps.Keys <= after.Keys
            && (forall i :: 0 <= i < |pools| && pools[i].name !in trouble ==> InPlace(after, pools[i], nodes))
            && (forall name :: name in after && (forall i :: 0 <= i < |pools| ==> DeploymentName(pools[i].name) != name) ==>
                  name in deps && after[name] == deps[name])
  {
    hide InPlace, ApplyOne;
    if pools != [] {
      var rest, last := pools[..|pools| - 1], pools[|pools| - 1];
      ApplyAllPlaces(deps, rest, nodes, trouble);
      var before, after := ApplyAll(deps, rest, nodes, trouble), ApplyAll(deps, pools, nodes, trouble);
      ApplyOnePlaces(before, last, nodes, trouble);
      forall i | 0 <= i < |rest| && pools[i].name !in trouble ensures InPlace(after, pools[i], nodes) {
        assert rest[i] == pools[i] && InPlace(before, rest[i], nodes);
        NamesDiffer(pools[i].name, last.name);
        PlaceIsIn(before, pools[i], nodes);
        StaysInPlace(before, after, pools[i], nodes);
      }
      assert forall i :: 0 <= i < |rest| ==> rest[i] == pools[i];
    }
  }

  lemma {:induction false} PlaceIsIn(deps: map<string, Deployment>, policy: Policy, nodes: seq<Machine>)
    requires InPlace(deps, policy, nodes)
    ensures DeploymentName(policy.name) in deps
  {
  }

  /**
    With every API call answered: each configured pool has its Deployment with the
    computed replicas, every headroom Deployment belongs to a configured pool, and
    what was never ours is as it was.
   */
  lemma {:induction false} SyncConverges(deps: map<string, Deployment>, pools: seq<Policy>, nodes: seq<Machine>)
    requires DistinctPools(pools)
    ensures var after := Synced(deps, pools, nodes, AllWell(deps, pools, nodes));
            && (forall i :: 0 <= i < |pools| ==> InPlace(after, pools[i], nodes))
            && (forall name :: name in after && after[name].Marked() ==> exists i :: 0 <= i < |pools| && pools[i].name == after[name].Pool())
            && (forall name :: name in deps && !deps[name].Marked() && (forall i :: 0 <= i < |pools| ==> DeploymentName(pools[i].name) != name) ==>
                  name in after && after[name] == deps[name])
  {
    ApplyAllPlaces(deps, pools, nodes, {});
    var applied, after := ApplyAll(deps, pools, nodes, {}), Synced(deps, pools, nodes, AllWell(deps, pools, nodes));
    assert after == Collected(applied, applied, Names(pools), {});
    hide ApplyAll, Synced, AllWell, InPlace, Collected, Names, DistinctPools;
    CollectedPools(applied, pools);
    forall i | 0 <= i < |pools| ensures InPlace(after, pools[i], nodes) {
      CollectedKeepsPlaces(applied, pools, nodes, i);
    }
  }

  lemma {:induction false} CollectedKeepsPlaces(deps: map<string, Deployment>, pools: seq<Policy>, nodes: seq<Machine>, i: nat)
    requires i < |pools| && InPlace(deps, pools[i], nodes)
    ensures InPlace(Collected(deps, deps, Names(pools), {}), pools[i], nodes)
  {
    PlaceIsFresh(deps, pools[i], nodes, Names(pools));
    hide Wanted, ReadyIn, PerPodRequests, LastKey;
  }

  /** With a fresh list and every delete going through, what is left under our mark is configured, and what has no mark stays. */
  lemma {:induction false} CollectedPools(deps: map<string, Deployment>, pools: seq<Policy>)
    ensures var after := Collected(deps, deps, Names(pools), {});
            && (forall name :: name in after && after[name].Marked() ==> exists i :: 0 <= i < |pools| && pools[i].name == after[name].Pool())
            && (forall name :: name in deps && !deps[name].Marked() ==> name in after && after[name] == deps[name])
  {
  }

  lemma {:induction false} PlaceIsFresh(deps: map<string, Deployment>, policy: Policy, nodes: seq<Machine>, names: set<string>)
    requires InPlace(deps, policy, nodes) && policy.name in names
    ensures DeploymentName(policy.name) in deps && !Stale(deps[DeploymentName(policy.name)], names)
  {
  }

  /** Applying a pool that is in place changes nothing. */
  lemma {:induction false} AppliedIsFixed(deps: map<string, Deployment>, policy: Policy, nodes: seq<Machine>, trouble: set<string>)
    requires InPlace(deps, policy, nodes)
    ensures ApplyOne(deps, policy, nodes, trouble) == deps
  {
    hide Wanted, ReadyIn, PerPodRequests, LastKey;
  }

  lemma {:induction false} ApplyAllIsFixed(deps: map<string, Deployment>, pools: seq<Policy>, nodes: seq<Machine>, trouble: set<string>)
    requires forall i :: 0 <= i < |pools| ==> InPlace(deps, pools[i], nodes)
    ensures ApplyAll(deps, pools, nodes, trouble) == deps
  {
    if pools != [] {
      ApplyAllIsFixed(deps, pools[..|pools| - 1], nodes, trouble);
      AppliedIsFixed(deps, pools[|pools| - 1], nodes, trouble);
    }
  }

  /** A second sync of the same policy over the same nodes changes nothing, whatever fails then, unless its list is stale. */
  lemma {:induction false} SecondSyncChangesNothing(deps: map<string, Deployment>, pools: seq<Policy>, nodes: seq<Machine>, answers: Answers)
    requires DistinctPools(pools)
    ensures var after := Synced(deps, pools, nodes, AllWell(deps, pools, nodes));
            answers.shown.None? || answers.shown.value == after ==> Synced(after, pools, nodes, answers) == after
  {
    var after := Synced(deps, pools, nodes, AllWell(deps, pools, nodes));
    SyncConverges(deps, pools, nodes);
    ApplyAllIsFixed(after, pools, nodes, answers.trouble);
    hide Synced, InPlace, ApplyAll;
    forall name | name in after ensures !Stale(after[name], Names(pools)) {
    }
    assert Collected(after, after, Names(pools), answers.stuck) == after;
    SyncedOfFixed(after, pools, nodes, answers);
  }

  lemma {:induction false} SyncedOfFixed(deps: map<string, Deployment>, pools: seq<Policy>, nodes: seq<Machine>, answers: Answers)
    requires ApplyAll(deps, pools, nodes, answers.trouble) == deps && Collected(deps, deps, Names(pools), answers.stuck) == deps
    ensures answers.shown.None? || answers.shown.value == deps ==> Synced(deps, pools, nodes, answers) == deps
  {
  }

  /** With a fresh list no Deployment of a configured pool is ever deleted, whatever else fails. */
  lemma {:induction false} ConfiguredPoolsKeepTheirDeployment(deps: map<string, Deployment>, pools: seq<Policy>, nodes: seq<Machine>, answers: Answers, name: string)
    requires DistinctPools(pools) && name in deps && deps[name].Pool() in Names(pools)
    requires answers.shown.Some? ==> answers.shown.value == ApplyAll(deps, pools, nodes, answers.trouble)
    ensures name in Synced(deps, pools, nodes, answers)
  {
    ApplyAllKeepsPool(deps, pools, nodes, answers.trouble, name);
    hide ApplyAll;
  }

  /** Applying gives a Deployment to a configured pool or leaves it where it was. */
  lemma {:induction false} ApplyAllKeepsPool(deps: map<string, Deployment>, pools: seq<Policy>, nodes: seq<Machine>, trouble: set<string>, name: string)
    requires name in deps
    ensures var after := ApplyAll(deps, pools, nodes, trouble);
            name in after && (after[name] == deps[name] || after[name].Pool() in Names(pools))
  {
    hide Wanted, ReadyIn, PerPodRequests, LastKey;
    if pools != [] {
      var rest, last := pools[..|pools| - 1], pools[|pools| - 1];
      ApplyAllKeepsPool(deps, rest, nodes, trouble, name);
      assert pools == rest + [last];
      NamesGrow(rest, last);
    }
  }

  /** A stale list can delete a Deployment that was just applied: it shows the one name under a pool that is gone. */
  lemma {:induction false} StaleListDeletesAConfiguredPool(policy: Policy, nodes: seq<Machine>)
    requires policy.name == "new"
    ensures var older := BLANK.(labels := LabelsOf("gone"));
            var deps := map[DeploymentName("new") := older];
            Synced(deps, [policy], nodes, Answers({}, true, Some(deps), {})) == map[]
  {
    var older := BLANK.(labels := LabelsOf("gone"));
    var deps := map[DeploymentName("new") := older];
    assert [policy][..0] == [];
    assert [] + [policy] == [policy] && Names([]) == {};
    NamesGrow([], policy);
    assert Stale(older, {"new"});
    assert ApplyAll(deps, [policy], nodes, {}).Keys == {DeploymentName("new")};
  }

  /** Policies as they are read are proper: named, each name once. */
  lemma {:induction false} ReadPoolsAreDistinct(data: map<string, Decoded>, loaded: Loaded)
    requires IsPolicy(data, loaded) && loaded.Policies?
    ensures DistinctPools(loaded.pools)
  {
    ChosenPoliciesAreSound(data, loaded);
    hide IsPolicy;
    forall i | 0 <= i < |loaded.pools| ensures loaded.pools[i].name != "" {
      assert ReadPolicy(loaded.pools[i]);
    }
  }
}
