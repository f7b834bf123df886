/** What single ownership rests on, over whole runs: the guarded theorem, the exact danger, and a run that shows it. */
module OwnershipTheorems {
  import opened BatchTypes
  import opened ProviderIds
  import opened NodeMatching
  import opened Ownership
  import opened SingleOwner

  // ---------- guarded runs ----------

  lemma {:induction false} StepKeepsOwn(s: Cluster, step: Step)
    requires Base(s) && Own(s) && Enabled(s, step) && Guarded(s, step)
    ensures Own(Next(s, step))
  {
    hide Base, Enabled, ClaimsMove, NodesMove, Settled, AdopterOwn, Guarded;
    if Surroundings(step) {
      BaseParts(s);
      SurroundingsMove(s, step);
      if ClaimsMove(s, Next(s, step)) {
        ClaimsMoveKeepsSettled(s, Next(s, step));
        ClaimsMoveKeepsAdopterOwn(s, Next(s, step));
      } else {
        NodesMoveKeepsOwn(s, Next(s, step));
      }
    } else {
      ControllerKeepsOwn(s, step);
    }
  }

  lemma {:induction false} ControllerKeepsOwn(s: Cluster, step: Step)
    requires Base(s) && Own(s) && Enabled(s, step) && Guarded(s, step) && !Surroundings(step)
    ensures Own(Next(s, step))
  {
    hide Base, Settled, AdopterOwn, Guarded;
    match step
    case BindPatch =>
      PatchKeepsSettled(s);
      PatchKeepsAdopterOwn(s);
    case AdoptPrepare => PrepareKeepsOwn(s);
    case AdoptCreate(uid, nodeClass) => CreateKeepsOwn(s, uid, nodeClass);
    case AdoptCreateUnheard(uid, nodeClass) => UnheardKeepsOwn(s, uid, nodeClass);
    case DeleteList(_, _) => BinderKeepsOwn(s, step);
    case DeleteChoose(_) => BinderKeepsOwn(s, step);
    case DeleteEnd => BinderKeepsOwn(s, step);
    case AdoptList(list) => ListKeepsOwn(s, list);
    case BindList(_, _) => BinderKeepsOwn(s, step);
    case BindChoose(_) => BinderKeepsOwn(s, step);
    case BindAbort => BinderKeepsOwn(s, step);
    case _ => AdopterKeepsOwn(s, step);
  }

  lemma {:induction false} BinderKeepsOwn(s: Cluster, step: Step)
    requires Base(s) && Own(s) && Enabled(s, step)
    requires step.BindList? || step.BindChoose? || step.BindAbort? || step.DeleteList? || step.DeleteChoose? || step.DeleteEnd?
    ensures Own(Next(s, step))
  {
    hide Base, Settled, Eligible, Snapshot, Lists, Wants, SpeaksFor;
    BinderKeepsSettled(s, step);
    SameFree(s, Next(s, step));
    hide Enabled, Free, Guarded;
  }

  lemma {:induction false} SameFree(s: Cluster, after: Cluster)
    requires after.claims == s.claims
    ensures forall node :: Free(s, node) <==> Free(after, node)
  {
    hide Wants, SpeaksFor;
  }

  lemma {:induction false} GuardedRunKeepsOwn(s: Cluster, steps: seq<Step>)
    requires Base(s) && Own(s) && Legal(s, steps) && GuardedRun(s, steps)
    ensures Base(Run(s, steps)) && Own(Run(s, steps))
    decreases |steps|
  {
    hide Base, Own, Guarded;
    if steps != [] {
      StepKeepsBase(s, steps[0]);
      StepKeepsOwn(s, steps[0]);
      GuardedRunKeepsOwn(Next(s, steps[0]), steps[1..]);
    }
  }

  /**
    Single owner: over every guarded run from an empty cluster, whatever the node
    lists show, no machine is spoken for by two claims.
   */
  lemma {:induction false} EveryNodeHasOneOwner(start: int, steps: seq<Step>)
    requires Legal(Empty(start), steps) && GuardedRun(Empty(start), steps)
    ensures Single(Run(Empty(start), steps))
  {
    GuardedRunKeepsOwn(Empty(start), steps);
  }

  // ---------- exactly when an adoption is dangerous ----------

  predicate Creates(step: Step) {
    step.AdoptCreate? || step.AdoptCreateUnheard?
  }

  predicate Unadopting(steps: seq<Step>) {
    forall i :: 0 <= i < |steps| ==> !Creates(steps[i])
  }

  lemma {:induction false} StepKeepsSettled(s: Cluster, step: Step)
    requires Base(s) && Settled(s) && Enabled(s, step) && !Creates(step)
    ensures Settled(Next(s, step))
  {
    hide Base, Enabled, ClaimsMove, NodesMove, Settled;
    if Surroundings(step) {
      BaseParts(s);
      SurroundingsMove(s, step);
      if ClaimsMove(s, Next(s, step)) { ClaimsMoveKeepsSettled(s, Next(s, step)); } else { NodesMoveKeepsSettled(s, Next(s, step)); }
    } else if step.BindPatch? {
      assert s.binder.BinderChose? by { PatchNeedsChoice(s); }
      PatchKeepsSettled(s);
    } else if step.BindList? || step.BindChoose? || step.BindAbort? || step.DeleteList? || step.DeleteChoose? || step.DeleteEnd? {
      BinderKeepsSettled(s, step);
    } else {
      AdopterKeepsSettled(s, step);
    }
  }

  lemma {:induction false} PatchNeedsChoice(s: Cluster)
    requires Enabled(s, BindPatch)
    ensures s.binder.BinderChose?
  {
  }

  lemma {:induction false} AdopterKeepsSettled(s: Cluster, step: Step)
    requires Base(s) && Settled(s) && Enabled(s, step)
    requires step.AdoptBegin? || step.AdoptList? || step.AdoptSkip? || step.AdoptPrepare? || step.AdoptCreateFails? || step.AdoptEnd?
    ensures Settled(Next(s, step))
  {
    hide Base, Single, AdoptedUnwanted, Free, StatusesUsed, OffersTo, Snapshot, Lists;
    if step.AdoptPrepare? {
      PrepareKeepsSettled(s);
    } else {
      hide Eligible;
      SameClaimsSettled(s, Next(s, step));
    }
  }

  lemma {:induction false} PrepareKeepsSettled(s: Cluster)
    requires Base(s) && Settled(s) && Enabled(s, AdoptPrepare)
    ensures Settled(PreparedStep(s))
  {
    hide Base, Single, AdoptedUnwanted, Free, StatusesUsed, OffersTo, Eligible, NodesMove;
    var seen := s.adopter.nodes[0];
    if PatchFits(s, seen) && Prepared(seen) != seen {
      var mid := WithNode(s, Prepared(seen));
      PreparedNodeIsFree(s);
      BaseParts(s);
      WithNodeSound(s, Prepared(seen));
      NodesMoveKeepsSettled(s, mid);
      SameClaimsSettled(mid, PreparedStep(s));
    } else {
      SameClaimsSettled(s, PreparedStep(s));
    }
  }

  lemma {:induction false} UnadoptingRunKeepsSettled(s: Cluster, steps: seq<Step>)
    requires Base(s) && Settled(s) && Legal(s, steps) && Unadopting(steps)
    ensures Settled(Run(s, steps))
    decreases |steps|
  {
    hide Base, Settled, Enabled;
    if steps != [] {
      StepKeepsBase(s, steps[0]);
      StepKeepsSettled(s, steps[0]);
      UnadoptingRunKeepsSettled(Next(s, steps[0]), steps[1..]);
    }
  }

  /** A fresh list of any finite set of claims exists. */
  lemma {:induction false} AListExists(s: Cluster, uids: set<string>) returns (list: seq<Claim>)
    requires uids <= s.claims.Keys && forall uid :: uid in uids ==> s.claims[uid].uid == uid
    ensures forall i :: 0 <= i < |list| ==> list[i].uid in s.claims && s.claims[list[i].uid] == list[i]
    ensures forall uid :: uid in uids ==> s.claims[uid] in list
    decreases |uids|
  {
    if uids == {} {
      list := [];
    } else {
      var uid :| uid in uids;
      var rest := AListExists(s, uids - {uid});
      list := [s.claims[uid]] + rest;
    }
  }

  lemma {:induction false} FreshList(s: Cluster) returns (list: seq<Claim>)
    requires ClaimsSound(s)
    ensures Lists(s, list)
  {
    forall uid | uid in s.claims ensures s.claims[uid].uid == uid {
      assert ClaimSound(s, uid);
    }
    list := AListExists(s, s.claims.Keys);
  }

  lemma {:induction false} OneMore(s: Cluster, step: Step, rest: seq<Step>)
    requires Enabled(s, step) && Legal(Next(s, step), rest)
    ensures Legal(s, [step] + rest) && Run(s, [step] + rest) == Run(Next(s, step), rest)
  {
    assert ([step] + rest)[1..] == rest;
  }

  ghost predicate Endangered(s: Cluster) {
    exists steps :: Legal(s, steps) && Unadopting(steps) && !Single(Run(s, steps))
  }

  lemma {:induction false} EndangeredBy(s: Cluster, step: Step)
    requires Enabled(s, step) && !Creates(step) && Endangered(Next(s, step))
    ensures Endangered(s)
  {
    var rest :| Legal(Next(s, step), rest) && Unadopting(rest) && !Single(Run(Next(s, step), rest));
    OneMore(s, step, rest);
    assert Unadopting([step] + rest);
  }

  /** An adopted node, its ID in no status yet, and a claim that the provider-ID controller would give it to. */
  predicate Contested(s: Cluster, c: string, x: string, name: string) {
    && c in s.claims && x in s.claims && name in s.log && IsReal(s.log[name].providerId)
    && s.claims[x].adoptedId == s.log[name].providerId
    && Wants(s.claims[c], s.log[name])
    && forall u :: u in s.claims ==> s.claims[u].providerId != s.log[name].providerId
  }

  lemma {:induction false} PatchEndangers(s: Cluster, c: string, x: string, name: string)
    requires s.binder.BinderChose? && Contested(s, c, x, name) && s.binder.claim == s.claims[c] && s.claims[c].uid == c
    requires s.binder.id == s.log[name].providerId
    ensures Endangered(s)
  {
    var after := Bound(s);
    assert SpeaksFor(after.claims[c], s.binder.id) && SpeaksFor(after.claims[x], s.binder.id);
    assert Legal(after, []) && !Single(Run(after, []));
    EndangeredBy(s, BindPatch);
  }

  lemma {:induction false} ListEndangers(s: Cluster, c: string, x: string, name: string, list: seq<Claim>)
    requires Base(s) && Contested(s, c, x, name) && IsPending(s.claims[c].providerId)
    requires s.binder == BinderListed(s.claims[c], UsedIds(list, "")) && Lists(s, list)
    ensures Endangered(s)
  {
    var node := s.log[name];
    var choose := BindChoose([node]);
    assert ClaimSound(s, c) && NodeSound(s, name);
    hide Base, IsPending, NodeSound, ClaimSound;
    forall i | 0 <= i < |list| ensures list[i].providerId != node.providerId {
      assert s.claims[list[i].uid] == list[i];
    }
    assert Takes(s.claims[c], node, UsedIds(list, ""));
    assert Enabled(s, choose);
    var after := Next(s, choose);
    assert after == s.(binder := BinderChose(s.claims[c], UsedIds(list, ""), node.providerId));
    PatchEndangers(after, c, x, name);
    EndangeredBy(s, choose);
  }

  lemma {:induction false} PendingEndangers(s: Cluster, c: string, x: string, name: string)
    requires Base(s) && Contested(s, c, x, name) && IsPending(s.claims[c].providerId)
    ensures Endangered(s)
  {
    var list := FreshList(s);
    StepKeepsBase(s, BindAbort);
    hide Base, Endangered, Contested;
    SameContest(s, c, x, name);
    IdleEndangers(Next(s, BindAbort), c, x, name, list);
    EndangeredBy(s, BindAbort);
  }

  lemma {:induction false} SameContest(s: Cluster, c: string, x: string, name: string)
    requires Contested(s, c, x, name)
    ensures Contested(Next(s, BindAbort), c, x, name)
  {
  }

  lemma {:induction false} IdleEndangers(s: Cluster, c: string, x: string, name: string, list: seq<Claim>)
    requires Base(s) && Contested(s, c, x, name) && IsPending(s.claims[c].providerId) && s.binder.BinderIdle? && Lists(s, list)
    ensures Endangered(s)
  {
    assert ClaimSound(s, c);
    hide NodesSound, ClaimsSound, AdoptedOnce, AdopterBase, BinderBase, Endangered;
    var step := BindList(s.claims[c], list);
    assert Enabled(s, step);
    StepKeepsBase(s, step);
    hide Base, IsPending;
    ListEndangers(Next(s, step), c, x, name, list);
    EndangeredBy(s, step);
  }

  lemma {:induction false} ContestedEndangers(s: Cluster, c: string, x: string, name: string)
    requires Base(s) && Contested(s, c, x, name)
    ensures Endangered(s)
  {
    if s.claims[c].providerId != "" {
      PendingEndangers(s, c, x, name);
    } else {
      var launch := LaunchClaim(c, s.log[name].sku, "");
      var after := Next(s, launch);
      assert ClaimSound(s, c);
      StepKeepsBase(s, launch);
      hide Base, Endangered;
      assert Contested(after, c, x, name);
      PendingEndangers(after, c, x, name);
      EndangeredBy(s, launch);
    }
  }

  /**
    One adoption, exactly: in a settled cluster, creating the claim leads, at once or
    through further steps that adopt nothing, to two owners if and only if some claim
    still wants the node or some claim speaks for its ID already.
   */
  lemma {:induction false} AdoptionEndangersExactlyWhenDisputed(s: Cluster, uid: string, nodeClass: string)
    requires Base(s) && Settled(s) && Enabled(s, AdoptCreate(uid, nodeClass))
    ensures Endangered(Adopted(s, uid, nodeClass)) <==> Wanted(s, s.adopter.node) || Spoken(s, s.adopter.id)
  {
    hide Settled, Endangered;
    var after := Adopted(s, uid, nodeClass);
    CreateKeepsBase(s, uid, nodeClass);
    assert SameNode(s, s.adopter.node) by { CreatingIsSame(s); }
    if Spoken(s, s.adopter.id) {
      SpokenIsShared(s, uid, nodeClass);
    } else if Wanted(s, s.adopter.node) {
      var c :| c in s.claims && Wants(s.claims[c], s.adopter.node);
      CreatedIsContested(s, uid, nodeClass, c);
      ContestedEndangers(after, c, uid, s.adopter.node.name);
    } else {
      CreateKeepsSettled(s, uid, nodeClass);
      SettledIsSafe(after);
    }
  }

  lemma {:induction false} CreatingIsSame(s: Cluster)
    requires Base(s) && s.adopter.AdopterCreating?
    ensures SameNode(s, s.adopter.node)
  {
  }

  /** If some claim speaks for the ID when the create arrives, there are two owners at once. */
  lemma {:induction false} SpokenIsShared(s: Cluster, uid: string, nodeClass: string)
    requires Base(s) && Enabled(s, AdoptCreate(uid, nodeClass)) && Spoken(s, s.adopter.id)
    ensures Endangered(Adopted(s, uid, nodeClass))
  {
    CreatedIsOnlyChange(s, uid, nodeClass);
    assert IsReal(s.adopter.id);
    hide Base;
    var after := Adopted(s, uid, nodeClass);
    var c :| c in s.claims && SpeaksFor(s.claims[c], s.adopter.id);
    assert SpeaksFor(after.claims[c], s.adopter.id) && SpeaksFor(after.claims[uid], s.adopter.id);
    assert Legal(after, []) && !Single(Run(after, []));
  }

  lemma {:induction false} SettledIsSafe(s: Cluster)
    requires Base(s) && Settled(s)
    ensures !Endangered(s)
  {
    hide Base;
    forall steps | Legal(s, steps) && Unadopting(steps) ensures Single(Run(s, steps)) {
      UnadoptingRunKeepsSettled(s, steps);
    }
  }

  lemma {:induction false} CreatedIsContested(s: Cluster, uid: string, nodeClass: string, c: string)
    requires Base(s) && Enabled(s, AdoptCreate(uid, nodeClass)) && SameNode(s, s.adopter.node) && !Spoken(s, s.adopter.id)
    requires c in s.claims && Wants(s.claims[c], s.adopter.node)
    ensures Contested(Adopted(s, uid, nodeClass), c, uid, s.adopter.node.name)
  {
    CreatedIsOnlyChange(s, uid, nodeClass);
    var after := Adopted(s, uid, nodeClass);
    var id := s.adopter.id;
    assert IsReal(id);
    hide NodesSound, ClaimsSound, BinderBase, IsPending;
    assert forall u :: u in s.claims ==> !SpeaksFor(s.claims[u], id);
  }

  // ---------- the condition is needed, and at the listing ----------

  ghost predicate Trace(states: seq<Cluster>, steps: seq<Step>) {
    |states| == |steps| + 1 && forall i :: 0 <= i < |steps| ==> TracedAt(states, steps, i)
  }

  ghost predicate TracedAt(states: seq<Cluster>, steps: seq<Step>, i: int) {
    0 <= i < |steps| && i + 1 < |states| && Enabled(states[i], steps[i]) && states[i + 1] == Next(states[i], steps[i])
  }

  lemma {:induction false} TraceIsRun(states: seq<Cluster>, steps: seq<Step>)
    requires Trace(states, steps)
    ensures Legal(states[0], steps) && Run(states[0], steps) == states[|steps|]
    decreases |steps|
  {
    if steps != [] {
      assert TracedAt(states, steps, 0);
      forall i | 0 <= i < |steps| - 1 ensures TracedAt(states[1..], steps[1..], i) {
        assert TracedAt(states, steps, i + 1);
      }
      TraceIsRun(states[1..], steps[1..]);
    }
  }

  const SCALING := Claim("a", "p", "", "cls", 0, false, "", "", "", 0)
  const LAUNCHED := Claim("a", "p", "sku", "cls", 0, false, PENDING_PREFIX + "a", "", "b", 1)
  const ADOPTED := Claim("x", "p", "sku", "cls", 1, false, "", "rafay://p/sku/h", "", 0)
  const MACHINE := Node("h", "p", "sku", "rafay://p/sku/h", 1, false, false, true, true, 0)

  /** The pass lists the claims while the scale-out's status is empty, and adopts the node only after the launch is written. */
  function LateLaunch(): seq<Step> {
    [NewClaim("a", "p", "", "cls"), Tick(1), JoinNode(MACHINE), AdoptBegin("p", [MACHINE]), AdoptList([SCALING]),
     LaunchClaim("a", "sku", "b"), AdoptPrepare, AdoptCreate("x", "cls"),
     BindList(LAUNCHED, [LAUNCHED, ADOPTED]), BindChoose([MACHINE]), BindPatch]
  }

  function ClusterOf(now: int, claims: map<string, Claim>, nodes: map<string, Node>, uids: set<string>, binder: Binder, adopter: Adopter): Cluster {
    Cluster(now, claims, nodes, nodes, uids, binder, adopter, RemoverIdle)
  }

  function LateLaunchStates(): seq<Cluster> {
    var h := map["h" := MACHINE];
    var bound := LAUNCHED.(providerId := "rafay://p/sku/h", version := 2);
    [Empty(0),
     ClusterOf(0, map["a" := SCALING], map[], {"a"}, BinderIdle, AdopterIdle),
     ClusterOf(1, map["a" := SCALING], map[], {"a"}, BinderIdle, AdopterIdle),
     ClusterOf(1, map["a" := SCALING], h, {"a"}, BinderIdle, AdopterIdle),
     ClusterOf(1, map["a" := SCALING], h, {"a"}, BinderIdle, AdopterBegun("p", [MACHINE])),
     ClusterOf(1, map["a" := SCALING], h, {"a"}, BinderIdle, AdopterWorking("p", [MACHINE], {}, [])),
     ClusterOf(1, map["a" := LAUNCHED], h, {"a"}, BinderIdle, AdopterWorking("p", [MACHINE], {}, [])),
     ClusterOf(1, map["a" := LAUNCHED], h, {"a"}, BinderIdle, AdopterCreating("p", [], {}, [], MACHINE, "rafay://p/sku/h")),
     ClusterOf(1, map["a" := LAUNCHED, "x" := ADOPTED], h, {"a", "x"}, BinderIdle, AdopterWorking("p", [], {"rafay://p/sku/h"}, [])),
     ClusterOf(1, map["a" := LAUNCHED, "x" := ADOPTED], h, {"a", "x"}, BinderListed(LAUNCHED, {}), AdopterWorking("p", [], {"rafay://p/sku/h"}, [])),
     ClusterOf(1, map["a" := LAUNCHED, "x" := ADOPTED], h, {"a", "x"}, BinderChose(LAUNCHED, {}, "rafay://p/sku/h"), AdopterWorking("p", [], {"rafay://p/sku/h"}, [])),
     ClusterOf(1, map["a" := bound, "x" := ADOPTED], h, {"a", "x"}, BinderIdle, AdopterWorking("p", [], {"rafay://p/sku/h"}, []))]
  }

  lemma {:induction false} LateLaunchBegins()
    ensures forall i :: 0 <= i < 4 ==> TracedAt(LateLaunchStates(), LateLaunch(), i)
  {
    assert MACHINE.providerId == Build("p", "sku", "h");
    BuiltIsOwn(MACHINE);
    hide Build, NamesAnother, IsPending;
  }

  lemma {:induction false} LateLaunchLists()
    ensures TracedAt(LateLaunchStates(), LateLaunch(), 4) && TracedAt(LateLaunchStates(), LateLaunch(), 5)
  {
    assert ClaimedIds([SCALING]) == {};
    assert PendingOf([SCALING], "p") == [];
    var s := LateLaunchStates()[4];
    assert SCALING in [SCALING] && Lists(s, [SCALING]);
    assert LateLaunchStates()[5].claims["a" := LAUNCHED] == LateLaunchStates()[6].claims;
  }

  lemma {:induction false} LateLaunchAdopts()
    ensures TracedAt(LateLaunchStates(), LateLaunch(), 6) && TracedAt(LateLaunchStates(), LateLaunch(), 7)
  {
    assert Eligible(MACHINE, {}, []);
    var states := LateLaunchStates();
    var a := states[6].adopter;
    assert a.nodes[1..] == [] && Prepared(a.nodes[0]) == MACHINE && ResolvedId(a.nodes[0]) == MACHINE.providerId;
    assert a.claimed + {MACHINE.providerId} == {MACHINE.providerId};
    assert states[7].claims["x" := ADOPTED] == states[8].claims;
    assert states[7].uids + {"x"} == states[8].uids;
    assert states[7].adopter.claimed + {MACHINE.providerId} == states[8].adopter.claimed;
  }

  lemma {:induction false} LateLaunchBinds()
    ensures forall i :: 8 <= i < 11 ==> TracedAt(LateLaunchStates(), LateLaunch(), i)
  {
    assert UsedIds([LAUNCHED, ADOPTED], "") == {};
  }

  lemma {:induction false} LateLaunchIsATrace()
    ensures Trace(LateLaunchStates(), LateLaunch())
  {
    hide TracedAt;
    LateLaunchBegins();
    LateLaunchLists();
    LateLaunchAdopts();
    LateLaunchBinds();
  }

  /**
    It can happen although no claim's status is empty when the node is adopted:
    what counts is the moment the claims are listed.
   */
  lemma {:induction false} LateLaunchGivesTwoOwners()
    ensures Legal(Empty(0), LateLaunch()) && !Single(Run(Empty(0), LateLaunch()))
  {
    LateLaunchIsATrace();
    TraceIsRun(LateLaunchStates(), LateLaunch());
    var s := Run(Empty(0), LateLaunch());
    assert SpeaksFor(s.claims["a"], "rafay://p/sku/h") && SpeaksFor(s.claims["x"], "rafay://p/sku/h");
  }

  // ---------- the other way: bound between the preparation and the create ----------

  const BOUND := LAUNCHED.(providerId := "rafay://p/sku/h", version := 2)

  /** The same start, but the older claim is bound to the node before the adopted claim is created. */
  function EarlyBind(): seq<Step> {
    LateLaunch()[..7] + [BindList(LAUNCHED, [LAUNCHED]), BindChoose([MACHINE]), BindPatch, AdoptCreate("x", "cls")]
  }

  function EarlyBindStates(): seq<Cluster> {
    var h := map["h" := MACHINE];
    var creating := AdopterCreating("p", [], {}, [], MACHINE, "rafay://p/sku/h");
    LateLaunchStates()[..8]
    + [ClusterOf(1, map["a" := LAUNCHED], h, {"a"}, BinderListed(LAUNCHED, {}), creating),
       ClusterOf(1, map["a" := LAUNCHED], h, {"a"}, BinderChose(LAUNCHED, {}, "rafay://p/sku/h"), creating),
       ClusterOf(1, map["a" := BOUND], h, {"a"}, BinderIdle, creating),
       ClusterOf(1, map["a" := BOUND, "x" := ADOPTED], h, {"a", "x"}, BinderIdle, AdopterWorking("p", [], {"rafay://p/sku/h"}, []))]
  }

  lemma {:induction false} EarlyBindStarts(i: nat)
    requires i < 7
    ensures TracedAt(EarlyBindStates(), EarlyBind(), i)
  {
    LateLaunchIsATrace();
    var states, steps, was, begun := EarlyBindStates(), EarlyBind(), LateLaunchStates(), LateLaunch();
    assert |states| == 12 && |steps| == 11 && |was| == 12 && |begun| == 11;
    assert states[..8] == was[..8] && steps[..7] == begun[..7];
    hide EarlyBindStates, EarlyBind, LateLaunchStates, LateLaunch;
    assert TracedAt(was, begun, i);
    assert states[i] == states[..8][i] && states[i + 1] == states[..8][i + 1] && steps[i] == steps[..7][i];
    assert was[i] == was[..8][i] && was[i + 1] == was[..8][i + 1] && begun[i] == begun[..7][i];
  }

  lemma {:induction false} EarlyBindLists()
    ensures TracedAt(EarlyBindStates(), EarlyBind(), 7)
  {
    assert UsedIds([LAUNCHED], "") == {};
    assert LAUNCHED in [LAUNCHED];
    hide LateLaunch;
  }

  lemma {:induction false} EarlyBindBinds()
    ensures TracedAt(EarlyBindStates(), EarlyBind(), 8) && TracedAt(EarlyBindStates(), EarlyBind(), 9)
  {
    assert |LateLaunch()[..7]| == 7 && |LateLaunchStates()[..8]| == 8;
    hide LateLaunch, LateLaunchStates;
  }

  lemma {:induction false} EarlyBindCreates()
    ensures TracedAt(EarlyBindStates(), EarlyBind(), 10)
  {
    var states := EarlyBindStates();
    assert states[10].claims["x" := ADOPTED] == states[11].claims;
    assert states[10].uids + {"x"} == states[11].uids;
    assert states[10].adopter.claimed + {MACHINE.providerId} == states[11].adopter.claimed;
    hide LateLaunch;
  }

  lemma {:induction false} EarlyBindIsATrace()
    ensures Trace(EarlyBindStates(), EarlyBind())
  {
    hide TracedAt;
    forall i | 0 <= i < 7 ensures TracedAt(EarlyBindStates(), EarlyBind(), i) { EarlyBindStarts(i); }
    EarlyBindLists();
    EarlyBindBinds();
    EarlyBindCreates();
  }

  lemma {:induction false} TracePrefix(states: seq<Cluster>, steps: seq<Step>, n: nat)
    requires Trace(states, steps) && n <= |steps|
    ensures Trace(states[..n + 1], steps[..n])
  {
    var before, begun := states[..n + 1], steps[..n];
    forall i | 0 <= i < n ensures TracedAt(before, begun, i) {
      assert TracedAt(states, steps, i);
    }
  }

  lemma {:induction false} EmptyIsSettled(now: int)
    ensures Base(Empty(now)) && Settled(Empty(now))
  {
  }

  /**
    The other danger: the cluster is settled and nobody wants the node when the
    create arrives, but an older claim was bound to it since it was prepared.
   */
  lemma {:induction false} EarlyBindGivesTwoOwners()
    ensures Legal(Empty(0), EarlyBind()[..10]) && Legal(Empty(0), EarlyBind())
    ensures var before := Run(Empty(0), EarlyBind()[..10]);
            Settled(before) && before.adopter.AdopterCreating? && !Wanted(before, before.adopter.node)
    ensures !Single(Run(Empty(0), EarlyBind()))
  {
    EarlyBindIsATrace();
    TraceIsRun(EarlyBindStates(), EarlyBind());
    EarlyBindIsSettled();
    EarlyBindEnds();
    assert EarlyBindStates()[0] == Empty(0) && |EarlyBind()| == 11;
    hide EarlyBindStates, EarlyBind, Trace, Legal, Run, Settled;
  }

  lemma {:induction false} EarlyBindEnds()
    ensures !Single(EarlyBindStates()[11]) && !Wanted(EarlyBindStates()[10], MACHINE)
  {
    assert |LateLaunchStates()[..8]| == 8;
    hide LateLaunchStates;
    var s := EarlyBindStates()[11];
    assert SpeaksFor(s.claims["a"], "rafay://p/sku/h") && SpeaksFor(s.claims["x"], "rafay://p/sku/h");
  }

  lemma {:induction false} EarlyBindIsSettled()
    ensures Legal(Empty(0), EarlyBind()[..10]) && Run(Empty(0), EarlyBind()[..10]) == EarlyBindStates()[10]
    ensures Settled(EarlyBindStates()[10])
    ensures EarlyBindStates()[10].adopter.AdopterCreating? && EarlyBindStates()[10].adopter.node == MACHINE
  {
    var states, steps := EarlyBindStates(), EarlyBind();
    EarlyBindShape();
    EarlyBindIsATrace();
    hide EarlyBindStates, EarlyBind, Settled, Base, TracedAt;
    TracePrefix(states, steps, 10);
    TraceIsRun(states[..11], steps[..10]);
    EmptyIsSettled(0);
    hide Trace, Legal, Run, Unadopting;
    UnadoptingRunKeepsSettled(Empty(0), steps[..10]);
  }

  lemma {:induction false} EarlyBindShape()
    ensures |EarlyBind()| == 11 && |EarlyBindStates()| == 12 && EarlyBindStates()[0] == Empty(0) && Unadopting(EarlyBind()[..10])
    ensures EarlyBindStates()[10].adopter.AdopterCreating? && EarlyBindStates()[10].adopter.node == MACHINE
  {
  }
}
