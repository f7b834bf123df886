/** What an adoption pass achieves: it is a run of the ownership protocol, it leaves no node without a claim, and a second one does nothing. */
module AdoptionPasses {
  import opened BatchTypes
  import opened ProviderIds
  import opened NodeMatching
  import opened Ownership
  import opened SingleOwner
  import opened OwnershipTheorems
  import opened NodeAdoption

  // ---------- a pass is a run ----------

  predicate ReplyFits(c: Cluster, reply: Reply) {
    c.adopter.AdopterWorking? && c.adopter.nodes != [] && reply.uid !in c.uids && reply.uid != ""
  }

  /** Which protocol steps a node's turn is. */
  function TurnSteps(c: Cluster, pool: Pool, reply: Reply): seq<Step>
    requires ReplyFits(c, reply)
  {
    var node := c.adopter.nodes[0];
    if !TakesHead(c, pool) || ResolvedId(node) == "" || (NeedsPatch(node) && !reply.patched) then [AdoptSkip]
    else if !PatchFits(c, node) then [AdoptPrepare]
    else [AdoptPrepare, if reply.created then AdoptCreate(reply.uid, pool.nodeClass) else AdoptCreateFails]
  }

  lemma {:induction false} TurnIsSteps(c: Cluster, pool: Pool, reply: Reply)
    requires ReplyFits(c, reply) && c.adopter.pool == pool.name
    ensures Legal(c, TurnSteps(c, pool, reply)) && Run(c, TurnSteps(c, pool, reply)) == Turned(c, pool, reply)
  {
    hide Eligible, Build;
    var steps := TurnSteps(c, pool, reply);
    var node := c.adopter.nodes[0];
    if |steps| == 1 {
      TurnSkips(c, pool, reply);
      OneMore(c, steps[0], []);
    } else {
      TurnPrepares(c, pool, reply);
      var prepared := Next(c, AdoptPrepare);
      assert steps == [AdoptPrepare] + [steps[1]];
      assert [steps[1]] == [steps[1]] + [];
      OneMore(prepared, steps[1], []);
      OneMore(c, AdoptPrepare, [steps[1]]);
    }
  }

  lemma {:induction false} TurnSkips(c: Cluster, pool: Pool, reply: Reply)
    requires ReplyFits(c, reply) && |TurnSteps(c, pool, reply)| == 1
    ensures Enabled(c, TurnSteps(c, pool, reply)[0]) && Next(c, TurnSteps(c, pool, reply)[0]) == Turned(c, pool, reply)
  {
    hide Eligible, Build;
  }

  lemma {:induction false} TurnPrepares(c: Cluster, pool: Pool, reply: Reply)
    requires ReplyFits(c, reply) && c.adopter.pool == pool.name && |TurnSteps(c, pool, reply)| == 2
    ensures Enabled(c, AdoptPrepare) && Enabled(Next(c, AdoptPrepare), TurnSteps(c, pool, reply)[1])
    ensures Next(Next(c, AdoptPrepare), TurnSteps(c, pool, reply)[1]) == Turned(c, pool, reply)
  {
    hide Eligible, Build;
  }

  predicate Unlisting(steps: seq<Step>) {
    forall i :: 0 <= i < |steps| ==> !steps[i].AdoptList?
  }

  lemma {:induction false} UnlistingIsGuarded(s: Cluster, steps: seq<Step>)
    requires Legal(s, steps) && Unlisting(steps)
    ensures GuardedRun(s, steps)
    decreases |steps|
  {
    if steps != [] { UnlistingIsGuarded(Next(s, steps[0]), steps[1..]); }
  }

  lemma {:induction false} RunOn(s: Cluster, steps: seq<Step>, more: seq<Step>)
    requires Legal(s, steps) && Legal(Run(s, steps), more)
    ensures Legal(s, steps + more) && Run(s, steps + more) == Run(Run(s, steps), more)
    decreases |steps|
  {
    if steps == [] {
      assert steps + more == more;
    } else {
      RunOn(Next(s, steps[0]), steps[1..], more);
      assert (steps + more)[1..] == steps[1..] + more;
    }
  }

  lemma {:induction false} LoopIsRun(c: Cluster, pool: Pool, replies: seq<Reply>) returns (steps: seq<Step>)
    requires AtNode(c, replies) && c.adopter.pool == pool.name
    ensures Legal(c, steps) && Run(c, steps) == Looped(c, pool, replies) && Unlisting(steps)
    decreases |replies|
  {
    if replies == [] || (HeadEligible(c) && pool.types.None?) {
      steps := [];
    } else {
      LoopTurns(c, pool, replies);
      hide Eligible, FreshUids, Turned;
      var turn := TurnSteps(c, pool, replies[0]);
      TurnIsSteps(c, pool, replies[0]);
      TurnKeepsPool(c, pool, replies[0]);
      var rest := LoopIsRun(Turned(c, pool, replies[0]), pool, replies[1..]);
      RunOn(c, turn, rest);
      steps := turn + rest;
    }
  }

  lemma {:induction false} TurnKeepsPool(c: Cluster, pool: Pool, reply: Reply)
    requires c.adopter.AdopterWorking? && c.adopter.nodes != []
    ensures Turned(c, pool, reply).adopter.pool == c.adopter.pool && Turned(c, pool, reply).adopter.pending == c.adopter.pending
  {
  }

  /** An adoption pass is a run of the ownership protocol, and a guarded one if its listing is. */
  lemma {:induction false} PassIsARun(s: Cluster, pool: Pool, nodes: seq<Node>, list: seq<Claim>, replies: seq<Reply>) returns (steps: seq<Step>)
    requires CanStart(s, pool, nodes, list, replies)
    ensures Legal(s, steps) && Run(s, steps) == Passed(s, pool, nodes, list, replies)
    ensures Active(pool) && Guarded(Next(s, AdoptBegin(pool.name, nodes)), AdoptList(list)) ==> GuardedRun(s, steps)
    ensures !Active(pool) ==> steps == []
  {
    if !Active(pool) { return []; }
    PassIsLoop(s, pool, nodes, list, replies);
    StartsWith(s, pool, nodes, list);
    var begin, listing, start := AdoptBegin(pool.name, nodes), AdoptList(list), Started(s, pool, nodes, list);
    var loop := LoopIsRun(start, pool, replies);
    var looped := Looped(start, pool, replies);
    hide Started, Guarded, CanStart, AtNode, Looped, Snapshot, Lists, Enabled, Next;
    EndsWith(looped);
    OneMore(looped, AdoptEnd, []);
    RunOn(start, loop, [AdoptEnd] + []);
    var tail := loop + ([AdoptEnd] + []);
    OneMore(Next(s, begin), listing, tail);
    OneMore(s, begin, [listing] + tail);
    steps := [begin] + ([listing] + tail);
    UnlistingIsGuarded(start, tail);
    assert steps[1..] == [listing] + tail && ([listing] + tail)[1..] == tail;
    BeginIsGuarded(s, begin);
  }

  lemma {:induction false} StartsWith(s: Cluster, pool: Pool, nodes: seq<Node>, list: seq<Claim>)
    requires s.adopter.AdopterIdle? && Enabled(s, AdoptBegin(pool.name, nodes)) && Lists(s, list)
    ensures Enabled(Next(s, AdoptBegin(pool.name, nodes)), AdoptList(list))
    ensures Started(s, pool, nodes, list) == Next(Next(s, AdoptBegin(pool.name, nodes)), AdoptList(list))
  {
    hide Snapshot;
  }

  lemma {:induction false} EndsWith(s: Cluster)
    ensures Enabled(s, AdoptEnd) && Next(s, AdoptEnd) == s.(adopter := AdopterIdle)
  {
  }

  lemma {:induction false} BeginIsGuarded(s: Cluster, step: Step)
    requires !step.AdoptList?
    ensures Guarded(s, step)
  {
  }

  // ---------- what an error-free pass achieves ----------

  /** The list is fresh: every node is shown as it is. */
  predicate Fresh(s: Cluster, nodes: seq<Node>) {
    forall i :: 0 <= i < |nodes| ==> nodes[i].name in s.nodes && s.nodes[nodes[i].name] == nodes[i]
  }

  /** A node of the pool that should have a claim. */
  predicate Belongs(pool: Pool, node: Node, pending: seq<Claim>) {
    && !node.deleting && !node.controlPlane && node.ready && node.sku != ""
    && (node.providerId == "" || HasPrefix(node.providerId, PREFIX))
    && !WantedByPending(pending, node, node.sku)
    && (pool.types.Some? ==> Suits(pool, node))
  }

  ghost predicate ClaimedSpoken(c: Cluster, claimed: set<string>) {
    forall id :: id in claimed ==> Spoken(c, id)
  }

  /** The claims there were are still there, and any others have no status yet. */
  predicate ClaimsGrow(s: Cluster, after: Cluster) {
    && (forall uid :: uid in s.claims ==> uid in after.claims && after.claims[uid] == s.claims[uid])
    && (forall uid :: uid in after.claims && uid !in s.claims ==> after.claims[uid].providerId == "")
  }

  /** All that adoption changes on a node. */
  predicate SameLook(node: Node, after: Node) {
    after == node.(providerId := after.providerId, registered := after.registered, version := after.version)
    && (node.providerId != "" ==> after.providerId == node.providerId)
  }

  lemma {:induction false} SpokenStays(s: Cluster, after: Cluster, id: string)
    requires ClaimsGrow(s, after) && Spoken(s, id)
    ensures Spoken(after, id)
  {
    var uid :| uid in s.claims && SpeaksFor(s.claims[uid], id);
    assert SpeaksFor(after.claims[uid], id);
  }

  lemma {:induction false} TurnKeepsBase(c: Cluster, pool: Pool, reply: Reply)
    requires Base(c) && ReplyFits(c, reply) && c.adopter.pool == pool.name
    ensures Base(Turned(c, pool, reply))
  {
    hide Base, Turned, TurnSteps;
    TurnIsSteps(c, pool, reply);
    RunKeepsBase(c, TurnSteps(c, pool, reply));
  }

  lemma {:induction false} TurnChanges(c: Cluster, pool: Pool, reply: Reply)
    requires ClaimsSound(c) && ReplyFits(c, reply)
    requires var node := c.adopter.nodes[0]; node.name in c.nodes && c.nodes[node.name] == node
    ensures var after, node := Turned(c, pool, reply), c.adopter.nodes[0];
            && ClaimsGrow(c, after)
            && (forall name :: name in c.nodes ==> name in after.nodes && (name != node.name ==> after.nodes[name] == c.nodes[name]))
            && (forall name :: name in after.nodes ==> name in c.nodes)
            && SameLook(node, after.nodes[node.name])
  {
    hide Build, Eligible;
    forall uid | uid in c.claims ensures uid != reply.uid {
      assert ClaimSound(c, uid);
    }
  }

  /** A node that belongs has its claim after its turn. */
  lemma {:induction false} TurnCovers(c: Cluster, pool: Pool, reply: Reply)
    requires Base(c) && ReplyFits(c, reply) && c.adopter.pool == pool.name && !Fails(c, pool, reply) && ClaimedSpoken(c, c.adopter.claimed)
    requires var node := c.adopter.nodes[0]; node.name in c.nodes && c.nodes[node.name] == node
    ensures var after, node := Turned(c, pool, reply), c.adopter.nodes[0];
            && ClaimedSpoken(after, after.adopter.claimed) && node.name in after.nodes
            && (Belongs(pool, node, c.adopter.pending) ==> Spoken(after, after.nodes[node.name].providerId))
  {
    var node, after := c.adopter.nodes[0], Turned(c, pool, reply);
    TurnKeepsBase(c, pool, reply);
    TurnChanges(c, pool, reply);
    hide NodesSound, AdoptedOnce, AdopterBase, BinderBase, Build, ClaimsGrow;
    forall id | id in c.adopter.claimed ensures Spoken(after, id) { SpokenStays(c, after, id); }
    if TakesHead(c, pool) {
      assert ClaimSound(after, reply.uid);
      assert SpeaksFor(after.claims[reply.uid], ResolvedId(node));
      assert Spoken(after, ResolvedId(node));
    }
  }

  // ---------- over the whole loop ----------

  predicate FreshRest(c: Cluster) {
    && c.adopter.AdopterWorking? && Fresh(c, c.adopter.nodes)
    && forall i, j :: 0 <= i < j < |c.adopter.nodes| ==> c.adopter.nodes[i].name != c.adopter.nodes[j].name
  }

  /** The cluster's objects before and after: claims added, nodes only prepared. */
  predicate Prepares(s: Cluster, after: Cluster) {
    && ClaimsGrow(s, after)
    && (forall name :: name in s.nodes ==> name in after.nodes && SameLook(s.nodes[name], after.nodes[name]))
    && (forall name :: name in after.nodes ==> name in s.nodes)
  }

  lemma {:induction false} TurnPreparesNode(c: Cluster, pool: Pool, reply: Reply)
    requires ClaimsSound(c) && ReplyFits(c, reply) && FreshRest(c)
    ensures var after := Turned(c, pool, reply);
            && Prepares(c, after) && FreshRest(after)
            && forall name :: name in c.nodes && name != c.adopter.nodes[0].name ==> after.nodes[name] == c.nodes[name]
  {
    var node := c.adopter.nodes[0];
    assert c.nodes[node.name] == node;
    TurnChanges(c, pool, reply);
    hide ClaimsSound, AfterAdopt, ClaimsGrow;
  }

  /** Nodes that are not among those still to visit stay as they are. */
  predicate OthersStay(c: Cluster, after: Cluster)
    requires c.adopter.AdopterWorking?
  {
    forall name :: name in c.nodes && (forall i :: 0 <= i < |c.adopter.nodes| ==> c.adopter.nodes[i].name != name)
                   ==> name in after.nodes && after.nodes[name] == c.nodes[name]
  }

  /** Every node still to visit that belongs has a claim afterwards. */
  ghost predicate Covers(pool: Pool, c: Cluster, after: Cluster)
    requires c.adopter.AdopterWorking?
  {
    forall i :: 0 <= i < |c.adopter.nodes| && Belongs(pool, c.adopter.nodes[i], c.adopter.pending)
                ==> c.adopter.nodes[i].name in after.nodes && Spoken(after, after.nodes[c.adopter.nodes[i].name].providerId)
  }

  lemma {:induction false} OneMoreCovered(pool: Pool, c: Cluster, turned: Cluster, after: Cluster)
    requires FreshRest(c) && c.adopter.nodes != []
    requires turned.adopter.AdopterWorking?
    requires turned.adopter == AdopterWorking(c.adopter.pool, c.adopter.nodes[1..], turned.adopter.claimed, c.adopter.pending)
    requires Prepares(c, turned) && Prepares(turned, after) && OthersStay(turned, after) && Covers(pool, turned, after)
    requires forall name :: name in c.nodes && name != c.adopter.nodes[0].name ==> turned.nodes[name] == c.nodes[name]
    requires Belongs(pool, c.adopter.nodes[0], c.adopter.pending) ==> Spoken(turned, turned.nodes[c.adopter.nodes[0].name].providerId)
    ensures OthersStay(c, after) && Covers(pool, c, after)
  {
    OneMoreStays(c, turned, after);
    hide Belongs, Spoken, SameLook, ClaimsGrow, OthersStay;
    var nodes := c.adopter.nodes;
    assert nodes[0].name in c.nodes;
    assert forall i :: 0 < i < |nodes| ==> nodes[i] == turned.adopter.nodes[i - 1];
    if Belongs(pool, nodes[0], c.adopter.pending) { SpokenStays(turned, after, turned.nodes[nodes[0].name].providerId); }
  }

  lemma {:induction false} OneMoreStays(c: Cluster, turned: Cluster, after: Cluster)
    requires FreshRest(c) && c.adopter.nodes != []
    requires turned.adopter.AdopterWorking? && turned.adopter.nodes == c.adopter.nodes[1..]
    requires Prepares(c, turned) && OthersStay(turned, after)
    requires forall name :: name in c.nodes && name != c.adopter.nodes[0].name ==> turned.nodes[name] == c.nodes[name]
    ensures OthersStay(c, after)
    ensures var name := c.adopter.nodes[0].name; name in turned.nodes && name in after.nodes && after.nodes[name] == turned.nodes[name]
  {
    hide SameLook, ClaimsGrow;
    var nodes := c.adopter.nodes;
    assert nodes[0].name in c.nodes;
    assert forall i :: 0 < i < |nodes| ==> nodes[i] == turned.adopter.nodes[i - 1];
  }

  /** What the loop leaves alone, and what it reaches. */
  lemma {:induction false} LoopCovers(c: Cluster, pool: Pool, replies: seq<Reply>)
    requires Base(c) && AtNode(c, replies) && c.adopter.pool == pool.name && FreshRest(c) && ErrorFree(c, pool, replies)
    requires ClaimedSpoken(c, c.adopter.claimed)
    ensures var after := Looped(c, pool, replies); Prepares(c, after) && OthersStay(c, after) && Covers(pool, c, after)
    decreases |replies|
  {
    var after := Looped(c, pool, replies);
    if replies == [] {
      NothingChanges(c);
    } else {
      LoopTurns(c, pool, replies);
      var turned := Turned(c, pool, replies[0]);
      TurnIsFresh(c, pool, replies);
      TurnKeepsBase(c, pool, replies[0]);
      assert ClaimsSound(c) by { BaseParts(c); }
      TurnPreparesNode(c, pool, replies[0]);
      TurnCovers(c, pool, replies[0]);
      TurnKeepsPool(c, pool, replies[0]);
      hide Base, Turned, Looped, ErrorFree, Belongs, ClaimedSpoken, Spoken, AtNode, Fails, Prepares, FreshRest, OthersStay, Covers;
      LoopCovers(turned, pool, replies[1..]);
      PreparesTwice(c, turned, after);
      OneMoreCovered(pool, c, turned, after);
    }
  }

  lemma {:induction false} TurnIsFresh(c: Cluster, pool: Pool, replies: seq<Reply>)
    requires AtNode(c, replies) && replies != [] && FreshRest(c)
    ensures ReplyFits(c, replies[0]) && c.adopter.nodes[0].name in c.nodes && c.nodes[c.adopter.nodes[0].name] == c.adopter.nodes[0]
    ensures Turned(c, pool, replies[0]).adopter.AdopterWorking? && Turned(c, pool, replies[0]).adopter.nodes == c.adopter.nodes[1..]
  {
  }

  lemma {:induction false} NothingChanges(c: Cluster)
    requires c.adopter.AdopterWorking? && c.adopter.nodes == []
    ensures Prepares(c, c) && OthersStay(c, c) && forall pool :: Covers(pool, c, c)
  {
  }

  lemma {:induction false} PreparesTwice(s: Cluster, mid: Cluster, after: Cluster)
    requires Prepares(s, mid) && Prepares(mid, after)
    ensures Prepares(s, after)
  {
  }

  lemma {:induction false} ListedIsSpoken(s: Cluster, list: seq<Claim>)
    requires ClaimsSound(s) && Lists(s, list)
    ensures ClaimedSpoken(s, ClaimedIds(list))
  {
    forall id | id in ClaimedIds(list) ensures Spoken(s, id) {
      var i :| 0 <= i < |list| && ((IsReal(list[i].providerId) && list[i].providerId == id) || (list[i].adoptedId != "" && list[i].adoptedId == id));
      assert ClaimSound(s, list[i].uid);
      assert SpeaksFor(s.claims[list[i].uid], id);
    }
  }

  // ---------- the two promises ----------

  ghost predicate StartsFresh(s: Cluster, pool: Pool, nodes: seq<Node>, list: seq<Claim>, replies: seq<Reply>) {
    CanStart(s, pool, nodes, list, replies) && Fresh(s, nodes) && Active(pool)
  }

  lemma {:induction false} StartsCovered(s: Cluster, pool: Pool, nodes: seq<Node>, list: seq<Claim>, replies: seq<Reply>)
    requires Base(s) && StartsFresh(s, pool, nodes, list, replies)
    ensures var start := Started(s, pool, nodes, list);
            Base(start) && FreshRest(start) && AtNode(start, replies) && ClaimedSpoken(start, start.adopter.claimed)
            && s == start.(adopter := AdopterIdle) && start.adopter == AdopterWorking(pool.name, nodes, ClaimedIds(list), PendingOf(list, pool.name))
  {
    PassIsLoop(s, pool, nodes, list, replies);
    StartsWith(s, pool, nodes, list);
    StepKeepsBase(s, AdoptBegin(pool.name, nodes));
    StepKeepsBase(Next(s, AdoptBegin(pool.name, nodes)), AdoptList(list));
    BaseParts(s);
    ListedIsSpoken(s, list);
    hide Base, ClaimsSound, Lists, NodesSound;
    SameClaimsSpoken(s, Started(s, pool, nodes, list), ClaimedIds(list));
  }

  lemma {:induction false} SameClaimsSpoken(s: Cluster, after: Cluster, claimed: set<string>)
    requires after.claims == s.claims && ClaimedSpoken(s, claimed)
    ensures ClaimedSpoken(after, claimed)
  {
    assert forall id :: Spoken(s, id) ==> Spoken(after, id);
  }

  /** What one error-free pass on a fresh list leaves behind. */
  lemma {:induction false} PassCovers(s: Cluster, pool: Pool, nodes: seq<Node>, list: seq<Claim>, replies: seq<Reply>)
    requires Base(s) && StartsFresh(s, pool, nodes, list, replies)
    requires ErrorFree(Started(s, pool, nodes, list), pool, replies)
    ensures var after := Passed(s, pool, nodes, list, replies);
            && Prepares(s, after)
            && forall i :: 0 <= i < |nodes| && Belongs(pool, nodes[i], PendingOf(list, pool.name))
                           ==> nodes[i].name in after.nodes && Spoken(after, after.nodes[nodes[i].name].providerId)
  {
    hide Base, FreshRest, AtNode, ClaimedSpoken, Looped, ErrorFree, Snapshot, Lists, FreshUids, PendingOf, ClaimedIds, Belongs;
    var start, after := Started(s, pool, nodes, list), Passed(s, pool, nodes, list, replies);
    StartsCovered(s, pool, nodes, list, replies);
    PassIsLoop(s, pool, nodes, list, replies);
    hide Started, Passed, CanStart, Fresh;
    LoopCovers(start, pool, replies);
    assert forall id :: Spoken(Looped(start, pool, replies), id) ==> Spoken(after, id);
  }

  lemma {:induction false} PassKeepsBase(s: Cluster, pool: Pool, nodes: seq<Node>, list: seq<Claim>, replies: seq<Reply>)
    requires Base(s) && CanStart(s, pool, nodes, list, replies)
    ensures Base(Passed(s, pool, nodes, list, replies))
    ensures Active(pool) && Own(s) && Guarded(Next(s, AdoptBegin(pool.name, nodes)), AdoptList(list)) ==> Own(Passed(s, pool, nodes, list, replies))
  {
    hide Base, Own, CanStart, Guarded;
    var steps := PassIsARun(s, pool, nodes, list, replies);
    RunKeepsBase(s, steps);
    if GuardedRun(s, steps) && Own(s) { GuardedRunKeepsOwn(s, steps); }
  }

  // ---------- a pass by itself keeps ownership single ----------

  /** The pass knows of every ID some claim speaks for. */
  ghost predicate SpokenKnown(c: Cluster, claimed: set<string>) {
    forall id :: Spoken(c, id) ==> id in claimed
  }

  /** The node about to be taken has, or gets, an ID nobody speaks for. */
  lemma {:induction false} TakenIsUnspoken(c: Cluster, pool: Pool, reply: Reply)
    requires Base(c) && c.adopter.AdopterWorking? && c.adopter.nodes != [] && SpokenKnown(c, c.adopter.claimed)
    requires TakesHead(c, pool) && IsTaken(c, c.adopter.nodes[0], reply)
    ensures !Spoken(c, ResolvedId(c.adopter.nodes[0]))
  {
    var node := c.adopter.nodes[0];
    assert Seen(c, node);
    if node.providerId == "" {
      assert NodeSound(c, node.name) && node == c.log[node.name];
      BuiltIsNew(c, node);
      if Spoken(c, ResolvedId(node)) { SpokenIsOwned(c, ResolvedId(node)); }
    }
  }

  lemma {:induction false} TurnAdds(c: Cluster, pool: Pool, reply: Reply)
    requires ClaimsSound(c) && ReplyFits(c, reply)
    ensures var after, node := Turned(c, pool, reply), c.adopter.nodes[0];
            && reply.uid !in c.claims
            && if TakesHead(c, pool) && IsTaken(c, node, reply)
               then after.adopter.claimed == c.adopter.claimed + {ResolvedId(node)}
                    && (exists claim :: after.claims == c.claims[reply.uid := claim] && claim.adoptedId == ResolvedId(node) && claim.providerId == "")
               else after.adopter.claimed == c.adopter.claimed && after.claims == c.claims
  {
    hide Build, Eligible;
    forall uid | uid in c.claims ensures uid != reply.uid {
      assert ClaimSound(c, uid);
    }
  }

  lemma {:induction false} TurnKeepsSingle(c: Cluster, pool: Pool, reply: Reply)
    requires Base(c) && ReplyFits(c, reply) && c.adopter.pool == pool.name && Single(c) && SpokenKnown(c, c.adopter.claimed)
    ensures Single(Turned(c, pool, reply)) && SpokenKnown(Turned(c, pool, reply), Turned(c, pool, reply).adopter.claimed)
  {
    BaseParts(c);
    TurnAdds(c, pool, reply);
    if TakesHead(c, pool) && IsTaken(c, c.adopter.nodes[0], reply) { TakenIsUnspoken(c, pool, reply); }
    hide Base, Turned, TakesHead, IsTaken, ResolvedId, IsReal;
    var after := Turned(c, pool, reply);
    forall id | Spoken(after, id) ensures id in after.adopter.claimed {
      var uid :| uid in after.claims && SpeaksFor(after.claims[uid], id);
      if uid != reply.uid { assert Spoken(c, id); }
    }
  }

  lemma {:induction false} LoopKeepsSingle(c: Cluster, pool: Pool, replies: seq<Reply>)
    requires Base(c) && AtNode(c, replies) && c.adopter.pool == pool.name && Single(c) && SpokenKnown(c, c.adopter.claimed)
    ensures Single(Looped(c, pool, replies))
    decreases |replies|
  {
    if replies != [] && !(HeadEligible(c) && pool.types.None?) {
      LoopTurns(c, pool, replies);
      assert ReplyFits(c, replies[0]);
      TurnKeepsBase(c, pool, replies[0]);
      TurnKeepsSingle(c, pool, replies[0]);
      TurnKeepsPool(c, pool, replies[0]);
      hide Base, Turned, Looped, Single, SpokenKnown, FreshUids, HeadEligible;
      LoopKeepsSingle(Turned(c, pool, replies[0]), pool, replies[1..]);
    }
  }

  lemma {:induction false} ListedIsKnown(s: Cluster, list: seq<Claim>)
    requires Lists(s, list)
    ensures SpokenKnown(s, ClaimedIds(list))
  {
    forall id | Spoken(s, id) ensures id in ClaimedIds(list) {
      var uid :| uid in s.claims && SpeaksFor(s.claims[uid], id);
      assert s.claims[uid] in list;
      var k :| 0 <= k < |list| && list[k] == s.claims[uid];
      IdIsClaimed(list, k);
    }
  }

  /**
    A pass that nothing interferes with never gives a node a second owner: whatever its
    node list shows, whatever fails, and whichever claims have an empty status.
   */
  lemma {:induction false} PassKeepsSingle(s: Cluster, pool: Pool, nodes: seq<Node>, list: seq<Claim>, replies: seq<Reply>)
    requires Base(s) && Single(s) && CanStart(s, pool, nodes, list, replies)
    ensures Single(Passed(s, pool, nodes, list, replies))
  {
    if Active(pool) {
      PassIsLoop(s, pool, nodes, list, replies);
      StartsWith(s, pool, nodes, list);
      StepKeepsBase(s, AdoptBegin(pool.name, nodes));
      StepKeepsBase(Next(s, AdoptBegin(pool.name, nodes)), AdoptList(list));
      ListedIsKnown(s, list);
      hide Base, Lists, AtNode, ClaimedIds, PendingOf;
      var start := Started(s, pool, nodes, list);
      SameClaimsSingle(s, start, ClaimedIds(list));
      hide Started, Passed, CanStart, Single, SpokenKnown;
      LoopKeepsSingle(start, pool, replies);
      OtherAdopterSingle(Looped(start, pool, replies));
    }
  }

  lemma {:induction false} SameClaimsSingle(s: Cluster, after: Cluster, claimed: set<string>)
    requires Single(s) && SpokenKnown(s, claimed) && after.claims == s.claims
    ensures Single(after) && SpokenKnown(after, claimed)
  {
    assert forall id :: Spoken(after, id) ==> Spoken(s, id);
  }

  lemma {:induction false} OtherAdopterSingle(s: Cluster)
    requires Single(s)
    ensures Single(s.(adopter := AdopterIdle))
  {
  }

  ghost predicate HasOneClaim(s: Cluster, id: string) {
    exists uid :: uid in s.claims && SpeaksFor(s.claims[uid], id)
                  && forall other :: other in s.claims && other != uid ==> !SpeaksFor(s.claims[other], id)
  }

  /**
    After an error-free pass on a fresh node list, every node that belongs to the
    pool has a claim, and exactly one if no node had two before.
   */
  lemma {:induction false} EveryNodeGetsItsClaim(s: Cluster, pool: Pool, nodes: seq<Node>, list: seq<Claim>, replies: seq<Reply>, i: nat)
    requires Base(s) && StartsFresh(s, pool, nodes, list, replies)
    requires ErrorFree(Started(s, pool, nodes, list), pool, replies)
    requires i < |nodes| && Belongs(pool, nodes[i], PendingOf(list, pool.name))
    ensures var after := Passed(s, pool, nodes, list, replies);
            && nodes[i].name in after.nodes && Spoken(after, after.nodes[nodes[i].name].providerId)
            && (Single(s) ==> HasOneClaim(after, after.nodes[nodes[i].name].providerId))
  {
    var after := Passed(s, pool, nodes, list, replies);
    PassCovers(s, pool, nodes, list, replies);
    if Single(s) { PassKeepsSingle(s, pool, nodes, list, replies); }
    hide Base, Passed, Started, CanStart, Next, Belongs, ErrorFree, Looped;
    if Single(s) {
      var id := after.nodes[nodes[i].name].providerId;
      var uid :| uid in after.claims && SpeaksFor(after.claims[uid], id);
      assert forall other :: other in after.claims && other != uid ==> !SpeaksFor(after.claims[other], id);
    }
  }

  /** The list shows every node of the pool there is. */
  predicate Complete(s: Cluster, pool: Pool, nodes: seq<Node>) {
    forall name :: name in s.nodes && s.nodes[name].pool == pool.name ==> s.nodes[name] in nodes
  }

  /** The same live pending claims wait for the node before and after the pass. */
  lemma {:induction false} SameWaiting(s: Cluster, list: seq<Claim>, after: Cluster, list2: seq<Claim>, node: Node, node2: Node)
    requires Lists(s, list) && Lists(after, list2) && ClaimsGrow(s, after)
    requires node2.pool == node.pool && node2.sku == node.sku && node2.created == node.created
    ensures WantedByPending(PendingOf(list, node.pool), node, node.sku) ==> WantedByPending(PendingOf(list2, node.pool), node2, node.sku)
  {
    AdoptionMirrorsTheSearch(list, node);
    AdoptionMirrorsTheSearch(list2, node2);
    hide PendingOf, WantedByPending, IsPending, Skus;
    if claim :| claim in list && IsLivePending(claim) && Fits(claim, node) {
      var i :| 0 <= i < |list| && list[i] == claim;
      assert after.claims[claim.uid] == claim;
      assert claim in list2 && Fits(claim, node2);
    }
  }

  /** In the second pass no node is left to take. */
  lemma {:induction false} NothingLeft(s: Cluster, pool: Pool, nodes: seq<Node>, list: seq<Claim>, after: Cluster, list2: seq<Claim>, node: Node)
    requires Prepares(s, after) && Lists(s, list) && Lists(after, list2) && Complete(s, pool, nodes) && node.pool == pool.name
    requires node.name in after.nodes && after.nodes[node.name] == node
    requires forall name :: name in s.nodes ==> s.nodes[name].name == name
    requires forall i :: 0 <= i < |nodes| && Belongs(pool, nodes[i], PendingOf(list, pool.name)) ==> nodes[i].name in after.nodes && Spoken(after, after.nodes[nodes[i].name].providerId)
    ensures !(Eligible(node, ClaimedIds(list2), PendingOf(list2, pool.name)) && (pool.types.Some? ==> Suits(pool, node)))
  {
    var was := s.nodes[node.name];
    assert SameLook(was, node);
    var i :| 0 <= i < |nodes| && nodes[i] == was;
    SameWaiting(s, list, after, list2, was, node);
    hide PendingOf, WantedByPending, ClaimsGrow;
    if Spoken(after, node.providerId) {
      var uid :| uid in after.claims && SpeaksFor(after.claims[uid], node.providerId);
      assert after.claims[uid] in list2;
      var k :| 0 <= k < |list2| && list2[k] == after.claims[uid];
      IdIsClaimed(list2, k);
    }
  }

  /** A loop that takes nothing changes nothing. */
  lemma {:induction false} IdleLoop(c: Cluster, pool: Pool, replies: seq<Reply>)
    requires AtNode(c, replies)
    requires forall i :: 0 <= i < |c.adopter.nodes| ==>
               !(Eligible(c.adopter.nodes[i], c.adopter.claimed, c.adopter.pending) && (pool.types.Some? ==> Suits(pool, c.adopter.nodes[i])))
    ensures Looped(c, pool, replies).(adopter := AdopterIdle) == c.(adopter := AdopterIdle)
    decreases |replies|
  {
    if replies != [] {
      LoopTurns(c, pool, replies);
      hide Eligible, Suits, FreshUids;
      assert !TakesHead(c, pool);
      IdleLoop(Turned(c, pool, replies[0]), pool, replies[1..]);
    }
  }

  /** A second error-free look at an unchanged pool adopts nothing and changes nothing. */
  lemma {:induction false} SecondPassAdoptsNone(s: Cluster, pool: Pool, nodes: seq<Node>, list: seq<Claim>, replies: seq<Reply>,
                                                nodes2: seq<Node>, list2: seq<Claim>, replies2: seq<Reply>)
    requires Base(s) && StartsFresh(s, pool, nodes, list, replies) && Complete(s, pool, nodes)
    requires ErrorFree(Started(s, pool, nodes, list), pool, replies)
    requires StartsFresh(Passed(s, pool, nodes, list, replies), pool, nodes2, list2, replies2)
    ensures var after := Passed(s, pool, nodes, list, replies); Passed(after, pool, nodes2, list2, replies2) == after
  {
    var after := Passed(s, pool, nodes, list, replies);
    PassCovers(s, pool, nodes, list, replies);
    NodeNames(s);
    hide Base, Passed, Started, ErrorFree, Belongs, Prepares, Complete, Spoken, Eligible, Suits, PendingOf, ClaimedIds, Looped;
    PassIsLoop(after, pool, nodes2, list2, replies2);
    forall i | 0 <= i < |nodes2|
      ensures !(Eligible(nodes2[i], ClaimedIds(list2), PendingOf(list2, pool.name)) && (pool.types.Some? ==> Suits(pool, nodes2[i])))
    {
      NothingLeft(s, pool, nodes, list, after, list2, nodes2[i]);
    }
    IdleLoop(Started(after, pool, nodes2, list2), pool, replies2);
  }

  lemma {:induction false} NodeNames(s: Cluster)
    requires Base(s)
    ensures forall name :: name in s.nodes ==> s.nodes[name].name == name
  {
    hide Build, NamesAnother;
    forall name | name in s.nodes ensures s.nodes[name].name == name {
      assert NodeSound(s, name);
    }
  }
}
