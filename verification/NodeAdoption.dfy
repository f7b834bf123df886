/** The adoption pass as it runs: one loop over a pool's nodes, a patch and a create for each node it takes. */
module NodeAdoption {
  import opened BatchTypes
  import opened ProviderIds
  import opened NodeMatching
  import opened Ownership

  /**
    What the pass knows of its pool: the guards at its head, the instance types
    (None when they cannot be read), and the nodes whose labels a claim could carry.
   */
  datatype Pool = Pool(
    name: string,
    deleting: bool,
    ours: bool,
    autoscaling: bool,
    nodeClass: string,
    types: Option<set<string>>,
    fitting: set<string>)

  /** The API server's answers for one node. */
  datatype Reply = Reply(patched: bool, created: bool, uid: string)

  predicate Active(pool: Pool) {
    !pool.deleting && pool.ours && pool.autoscaling
  }

  predicate Suits(pool: Pool, node: Node)
    requires pool.types.Some?
  {
    node.sku in pool.types.value && node.name in pool.fitting
  }

  predicate NeedsPatch(node: Node) {
    node.providerId == "" || !node.registered
  }

  /** Every answer brings a UID of its own. */
  predicate FreshUids(s: Cluster, replies: seq<Reply>) {
    && (forall i :: 0 <= i < |replies| ==> replies[i].uid !in s.uids && replies[i].uid != "")
    && (forall i, j :: 0 <= i < j < |replies| ==> replies[i].uid != replies[j].uid)
  }

  predicate AtNode(c: Cluster, replies: seq<Reply>) {
    c.adopter.AdopterWorking? && |replies| == |c.adopter.nodes| && FreshUids(c, replies)
  }

  /** The head of the remaining nodes is one the pass would own, but for the checks on its SKU and labels. */
  predicate HeadEligible(c: Cluster)
    requires c.adopter.AdopterWorking? && c.adopter.nodes != []
  {
    Eligible(c.adopter.nodes[0], c.adopter.claimed, c.adopter.pending)
  }

  /** The patch goes through, or none is needed. */
  predicate CanPrepare(s: Cluster, node: Node, reply: Reply) {
    ResolvedId(node) != "" && (NeedsPatch(node) ==> reply.patched && PatchFits(s, node))
  }

  predicate IsTaken(s: Cluster, node: Node, reply: Reply) {
    CanPrepare(s, node, reply) && reply.created
  }

  /** The objects after a node was taken: its patch, and its claim if that could be created. */
  function AfterAdopt(s: Cluster, pool: Pool, node: Node, reply: Reply): Cluster {
    var patched := if CanPrepare(s, node, reply) && NeedsPatch(node) then WithNode(s, Prepared(node)) else s;
    if IsTaken(s, node, reply)
    then WithClaim(patched, Claim(reply.uid, pool.name, node.sku, pool.nodeClass, s.now, false, "", ResolvedId(node), "", 0))
    else patched
  }

  predicate TakesHead(c: Cluster, pool: Pool)
    requires c.adopter.AdopterWorking? && c.adopter.nodes != []
  {
    HeadEligible(c) && pool.types.Some? && Suits(pool, c.adopter.nodes[0])
  }

  /** The node is to be adopted, and something stands in the way. */
  predicate Fails(c: Cluster, pool: Pool, reply: Reply)
    requires c.adopter.AdopterWorking? && c.adopter.nodes != []
  {
    HeadEligible(c) && (pool.types.None? || (Suits(pool, c.adopter.nodes[0]) && !IsTaken(c, c.adopter.nodes[0], reply)))
  }

  /** One node's turn. */
  function Turned(c: Cluster, pool: Pool, reply: Reply): (after: Cluster)
    requires c.adopter.AdopterWorking? && c.adopter.nodes != []
    ensures after.adopter.AdopterWorking? && after.adopter.nodes == c.adopter.nodes[1..]
    ensures c.uids <= after.uids <= c.uids + {reply.uid}
  {
    var a := c.adopter;
    if !TakesHead(c, pool) then c.(adopter := AdopterWorking(a.pool, a.nodes[1..], a.claimed, a.pending))
    else
      var claimed := if IsTaken(c, a.nodes[0], reply) then a.claimed + {ResolvedId(a.nodes[0])} else a.claimed;
      AfterAdopt(c, pool, a.nodes[0], reply).(adopter := AdopterWorking(a.pool, a.nodes[1..], claimed, a.pending))
  }

  /** The loop: it stops short only where the instance types are needed and cannot be read. */
  function Looped(c: Cluster, pool: Pool, replies: seq<Reply>): (after: Cluster)
    requires AtNode(c, replies)
    ensures after.adopter.AdopterWorking?
    decreases |replies|
  {
    if replies == [] || (HeadEligible(c) && pool.types.None?) then c
    else Looped(Turned(c, pool, replies[0]), pool, replies[1..])
  }

  predicate ErrorFree(c: Cluster, pool: Pool, replies: seq<Reply>)
    requires AtNode(c, replies)
    decreases |replies|
  {
    || replies == []
    || (!Fails(c, pool, replies[0])
        && ErrorFree(Turned(c, pool, replies[0]), pool, replies[1..]))
  }

  ghost predicate CanStart(s: Cluster, pool: Pool, nodes: seq<Node>, list: seq<Claim>, replies: seq<Reply>) {
    && s.adopter.AdopterIdle? && Enabled(s, AdoptBegin(pool.name, nodes)) && Lists(s, list)
    && |replies| == |nodes| && FreshUids(s, replies)
  }

  ghost function Started(s: Cluster, pool: Pool, nodes: seq<Node>, list: seq<Claim>): Cluster
    requires s.adopter.AdopterIdle? && Enabled(s, AdoptBegin(pool.name, nodes)) && Lists(s, list)
  {
    Next(Next(s, AdoptBegin(pool.name, nodes)), AdoptList(list))
  }

  /** The whole pass. */
  ghost function Passed(s: Cluster, pool: Pool, nodes: seq<Node>, list: seq<Claim>, replies: seq<Reply>): Cluster
    requires CanStart(s, pool, nodes, list, replies)
  {
    if !Active(pool) then s else Next(Looped(Started(s, pool, nodes, list), pool, replies), AdoptEnd)
  }

  // ---------- the pass as it is written ----------

  class Controller {
    /** The objects behind the API, the adopter's own place in its pass apart. */
    var cluster: Cluster

    constructor (s: Cluster)
      ensures cluster == s
    {
      cluster := s;
    }

    /** Fill in the node's ID and its registered label, in one patch against the version that was read. */
    method PrepareNode(node: Node, patched: bool) returns (id: string, ok: bool)
      modifies this
      ensures ok <==> ResolvedId(node) != "" && (NeedsPatch(node) ==> patched && PatchFits(old(cluster), node))
      ensures ok ==> id == ResolvedId(node)
      ensures cluster == if ok && NeedsPatch(node) then WithNode(old(cluster), Prepared(node)) else old(cluster)
    {
      id := node.providerId;
      var next := node;
      if id == "" {
        id := Build(node.pool, node.sku, node.name);
        if id == "" { return "", false; }
        next := next.(providerId := id);
      }
      if !next.registered { next := next.(registered := true); }
      if next.providerId == node.providerId && next.registered == node.registered { return id, true; }
      if !patched || node.name !in cluster.nodes || cluster.nodes[node.name].version != node.version { return "", false; }
      cluster := WithNode(cluster, next.(version := node.version + 1));
      ok := true;
    }

    /** The claims' IDs and the pool's live pending claims, in one scan. */
    method ScanClaims(list: seq<Claim>, pool: string) returns (claimed: set<string>, pending: seq<Claim>)
      ensures claimed == ClaimedIds(list) && pending == PendingOf(list, pool)
    {
      claimed, pending := {}, [];
      for i := 0 to |list|
        invariant claimed == ClaimedIds(list[..i])
        invariant PendingOf(list, pool) == pending + PendingOf(list[i..], pool)
      {
        var claim := list[i];
        ScanOne(list, i, pool, pending);
        hide ClaimedIds, PendingOf;
        if claim.providerId != "" && !IsPending(claim.providerId) { claimed := claimed + {claim.providerId}; }
        if claim.adoptedId != "" { claimed := claimed + {claim.adoptedId}; }
        if claim.pool != pool { continue; }
        if IsPending(claim.providerId) && !claim.deleting { pending := pending + [claim]; }
      }
      assert list[..|list|] == list && list[|list|..] == [];
    }

    /** The checks a node goes through before it is prepared; instance types are read only when they are needed. */
    method Consider(pool: Pool, node: Node, claimed: set<string>, pending: seq<Claim>) returns (take: bool, unread: bool)
      ensures unread <==> Eligible(node, claimed, pending) && pool.types.None?
      ensures take <==> Eligible(node, claimed, pending) && pool.types.Some? && Suits(pool, node)
    {
      take, unread := false, false;
      if node.deleting { return; }
      if node.controlPlane { return; }
      if !node.ready { return; }
      if node.sku == "" { return; }
      if node.providerId != "" && !HasPrefix(node.providerId, PREFIX) { return; }
      if node.providerId != "" && node.providerId in claimed { return; }
      var wanted := ClaimedByPendingClaim(pending, node, node.sku);
      if wanted { return; }
      if pool.types.None? { return false, true; }
      if node.sku !in pool.types.value { return; }
      if node.name !in pool.fitting { return; }
      take := true;
    }

    /** Prepare the node, then create its claim. */
    method Adopt(pool: Pool, node: Node, reply: Reply) returns (id: string, ok: bool)
      requires node.pool == pool.name
      modifies this
      ensures ok <==> IsTaken(old(cluster), node, reply)
      ensures ok ==> id == ResolvedId(node)
      ensures cluster == AfterAdopt(old(cluster), pool, node, reply)
    {
      id, ok := PrepareNode(node, reply.patched);
      if !ok { return; }
      if !reply.created { return "", false; }
      cluster := WithClaim(cluster, Claim(reply.uid, pool.name, node.sku, pool.nodeClass, cluster.now, false, "", id, "", 0));
    }

    /** The loop over the pool's nodes. */
    method AdoptNodes(pool: Pool, nodes: seq<Node>, taken: set<string>, pending: seq<Claim>, replies: seq<Reply>, ghost start: Cluster)
      returns (adopted: nat, ok: bool)
      requires AtNode(start, replies) && start.adopter == AdopterWorking(pool.name, nodes, taken, pending)
      requires cluster == start.(adopter := AdopterIdle)
      requires forall i :: 0 <= i < |nodes| ==> nodes[i].pool == pool.name
      requires forall uid :: uid in cluster.claims ==> uid in cluster.uids
      modifies this
      ensures cluster == Looped(start, pool, replies).(adopter := AdopterIdle)
      ensures ok <==> ErrorFree(start, pool, replies)
      ensures |cluster.claims| == |old(cluster).claims| + adopted
    {
      adopted, ok := 0, true;
      var claimed := taken;
      ghost var c := start;
      assert replies[0..] == replies && nodes[0..] == nodes;
      hide Eligible, FreshUids, Looped, ErrorFree, IsTaken, AfterAdopt, Fails, Suits;
      for i := 0 to |nodes|
        invariant AtNode(c, replies[i..]) && c.adopter == AdopterWorking(pool.name, nodes[i..], claimed, pending)
        invariant cluster == c.(adopter := AdopterIdle)
        invariant Looped(c, pool, replies[i..]) == Looped(start, pool, replies)
        invariant ErrorFree(start, pool, replies) <==> ok && ErrorFree(c, pool, replies[i..])
        invariant forall uid :: uid in cluster.claims ==> uid in cluster.uids
        invariant |cluster.claims| == |old(cluster).claims| + adopted
      {
        var take, unread := Consider(pool, nodes[i], claimed, pending);
        LoopTurns(c, pool, replies[i..]);
        assert replies[i..][0] == replies[i] && replies[i..][1..] == replies[i + 1..];
        assert nodes[i..][0] == nodes[i] && nodes[i..][1..] == nodes[i + 1..];
        if unread { return adopted, false; }
        FailsMeans(c, pool, replies[i]);
        AdoptGrows(cluster, pool, nodes[i], replies[i], c.adopter);
        assert cluster.(adopter := c.adopter) == c;
        c := Turned(c, pool, replies[i]);
        if !take { continue; }
        var id, done := Adopt(pool, nodes[i], replies[i]);
        if !done { ok := false; continue; }
        claimed := claimed + {id};
        adopted := adopted + 1;
      }
      LoopEnds(c, pool);
      assert replies[|nodes|..] == [];
    }

    /** One pass over the pool; it changes the cluster exactly as the protocol's steps do. */
    method Reconcile(pool: Pool, nodes: seq<Node>, list: seq<Claim>, replies: seq<Reply>) returns (adopted: nat, ok: bool)
      requires CanStart(cluster, pool, nodes, list, replies)
      requires forall uid :: uid in cluster.claims ==> uid in cluster.uids
      modifies this
      ensures cluster == Passed(old(cluster), pool, nodes, list, replies)
      ensures Active(pool) ==> (ok <==> ErrorFree(Started(old(cluster), pool, nodes, list), pool, replies))
      ensures |cluster.claims| == |old(cluster).claims| + adopted
    {
      adopted, ok := 0, true;
      if pool.deleting { return; }
      if !pool.ours { return; }
      if !pool.autoscaling { return; }
      var claimed, pending := ScanClaims(list, pool.name);
      ghost var start := Started(cluster, pool, nodes, list);
      PassIsLoop(cluster, pool, nodes, list, replies);
      hide Started, Passed, Looped, ErrorFree, CanStart, AtNode, ClaimedIds, PendingOf;
      adopted, ok := AdoptNodes(pool, nodes, claimed, pending, replies, start);
    }
  }

  lemma {:induction false} PassIsLoop(s: Cluster, pool: Pool, nodes: seq<Node>, list: seq<Claim>, replies: seq<Reply>)
    requires CanStart(s, pool, nodes, list, replies) && Active(pool)
    ensures var start := Started(s, pool, nodes, list);
            && AtNode(start, replies) && start.adopter == AdopterWorking(pool.name, nodes, ClaimedIds(list), PendingOf(list, pool.name))
            && s == start.(adopter := AdopterIdle)
            && Passed(s, pool, nodes, list, replies) == Looped(start, pool, replies).(adopter := AdopterIdle)
    ensures forall i :: 0 <= i < |nodes| ==> nodes[i].pool == pool.name
  {
    hide Snapshot, Lists, ClaimedIds, PendingOf, Looped;
  }

  lemma {:induction false} FailsMeans(c: Cluster, pool: Pool, reply: Reply)
    requires c.adopter.AdopterWorking? && c.adopter.nodes != [] && !(HeadEligible(c) && pool.types.None?)
    ensures Fails(c, pool, reply) <==> TakesHead(c, pool) && !IsTaken(c, c.adopter.nodes[0], reply)
  {
    hide Eligible;
  }

  lemma {:induction false} LoopEnds(c: Cluster, pool: Pool)
    requires c.adopter.AdopterWorking?
    ensures AtNode(c, []) ==> Looped(c, pool, []) == c && ErrorFree(c, pool, [])
  {
  }

  /** Taking a node adds one claim, and does not look at the adopter's own place. */
  lemma {:induction false} AdoptGrows(s: Cluster, pool: Pool, node: Node, reply: Reply, place: Adopter)
    requires reply.uid !in s.uids && forall uid :: uid in s.claims ==> uid in s.uids
    ensures var after := AfterAdopt(s, pool, node, reply);
            && (forall uid :: uid in after.claims ==> uid in after.uids)
            && |after.claims| == |s.claims| + (if IsTaken(s, node, reply) then 1 else 0)
    ensures AfterAdopt(s.(adopter := place), pool, node, reply) == AfterAdopt(s, pool, node, reply).(adopter := place)
    ensures IsTaken(s.(adopter := place), node, reply) <==> IsTaken(s, node, reply)
  {
    hide Build;
  }

  lemma {:induction false} LoopTurns(c: Cluster, pool: Pool, replies: seq<Reply>)
    requires AtNode(c, replies) && replies != []
    ensures replies[0].uid !in c.uids && replies[0].uid != ""
    ensures HeadEligible(c) && pool.types.None? ==> Looped(c, pool, replies) == c && !ErrorFree(c, pool, replies)
    ensures !(HeadEligible(c) && pool.types.None?) ==>
              var after := Turned(c, pool, replies[0]);
              && AtNode(after, replies[1..]) && Looped(c, pool, replies) == Looped(after, pool, replies[1..])
              && (ErrorFree(c, pool, replies) <==> !Fails(c, pool, replies[0]) && ErrorFree(after, pool, replies[1..]))
  {
    hide Eligible, Next;
  }

  /** What scanning one more claim adds. */
  lemma {:induction false} ScanOne(list: seq<Claim>, i: nat, pool: string, pending: seq<Claim>)
    requires i < |list| && PendingOf(list, pool) == pending + PendingOf(list[i..], pool)
    ensures var claim := list[i];
            && PendingOf(list, pool) == (if claim.pool == pool && IsLivePending(claim) then pending + [claim] else pending) + PendingOf(list[i + 1..], pool)
            && ClaimedIds(list[..i + 1]) == ClaimedIds(list[..i]) + (if IsReal(claim.providerId) then {claim.providerId} else {})
                                            + if claim.adoptedId != "" then {claim.adoptedId} else {}
  {
    assert list[i..][0] == list[i] && list[i..][1..] == list[i + 1..];
    assert list[..i + 1] == list[..i] + [list[i]];
    ClaimedSnoc(list[..i], list[i]);
  }

  lemma {:induction false} ClaimedSnoc(list: seq<Claim>, claim: Claim)
    ensures ClaimedIds(list + [claim])
            == ClaimedIds(list) + (if IsReal(claim.providerId) then {claim.providerId} else {})
               + if claim.adoptedId != "" then {claim.adoptedId} else {}
  {
    var longer := list + [claim];
    assert forall i :: 0 <= i < |list| ==> longer[i] == list[i];
    assert longer[|list|] == claim;
  }
}
