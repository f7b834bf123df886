/**
  What an adoption pass leaves behind, said of the objects' own fields: which nodes it
  takes, what their claims say, what it does to the nodes, and when it succeeds.
 */
module AdoptionResults {
  import opened BatchTypes
  import opened ProviderIds
  import opened NodeMatching
  import opened Ownership
  import opened NodeAdoption
  import opened AdoptionPasses

  /** No listed claim names the ID, by a settled status or by its annotation. */
  predicate Unnamed(list: seq<Claim>, id: string) {
    forall i :: 0 <= i < |list| ==> list[i].adoptedId != id && (list[i].providerId != id || IsPending(id))
  }

  /** A node the pass may take: a ready worker of a known type, ours or nobody's, that no listed claim names or may be waiting for. */
  predicate Qualifies(pool: Pool, list: seq<Claim>, node: Node) {
    && !node.deleting && !node.controlPlane && node.ready && node.sku != ""
    && pool.types.Some? && node.sku in pool.types.value && node.name in pool.fitting
    && (node.providerId != "" ==> HasPrefix(node.providerId, "rafay://") && Unnamed(list, node.providerId))
    && forall i :: 0 <= i < |list| ==> !MayWaitFor(list[i], node)
  }

  /** The node's ID, or the documented one where it has none. */
  function OwnId(pool: Pool, node: Node): string {
    if node.providerId != "" then node.providerId else "rafay://" + pool.name + "/" + node.sku + "/" + node.name
  }

  /** The claim the pass makes for a node. */
  predicate ClaimFor(claim: Claim, pool: Pool, node: Node, now: int) {
    && claim.pool == pool.name && claim.instanceType == node.sku && claim.nodeClass == pool.nodeClass
    && claim.adoptedId == OwnId(pool, node) && claim.providerId == "" && claim.batchId == ""
    && claim.created == now && !claim.deleting
  }

  /** The node with its ID and its registered label, in one patch. */
  function Ready(pool: Pool, node: Node): Node {
    node.(providerId := OwnId(pool, node), registered := true, version := node.version + 1)
  }

  predicate Unready(node: Node) {
    node.providerId == "" || !node.registered
  }

  predicate Scanned(c: Cluster, pool: Pool, list: seq<Claim>) {
    && c.adopter.AdopterWorking? && ClaimedIds(list) <= c.adopter.claimed && c.adopter.pending == PendingOf(list, pool.name)
    && pool.name != "" && forall i :: 0 <= i < |c.adopter.nodes| ==> c.adopter.nodes[i].pool == pool.name
  }

  lemma {:induction false} UnclaimedIsUnnamed(list: seq<Claim>, id: string)
    requires id != "" && id !in ClaimedIds(list)
    ensures Unnamed(list, id)
  {
    forall i | 0 <= i < |list| ensures list[i].adoptedId != id && (list[i].providerId != id || IsPending(id)) {
      assert IsReal(list[i].providerId) ==> list[i].providerId in ClaimedIds(list);
      assert list[i].adoptedId != "" ==> list[i].adoptedId in ClaimedIds(list);
    }
  }

  lemma {:induction false} TakenQualifies(c: Cluster, pool: Pool, list: seq<Claim>)
    requires Scanned(c, pool, list) && c.adopter.nodes != [] && TakesHead(c, pool)
    ensures Qualifies(pool, list, c.adopter.nodes[0])
  {
    var node := c.adopter.nodes[0];
    AdoptionMirrorsTheSearch(list, node);
    if node.providerId != "" { UnclaimedIsUnnamed(list, node.providerId); }
    hide ClaimedIds, PendingOf, MayWaitFor, WantedByPending, Unnamed;
    assert forall i :: 0 <= i < |list| ==> list[i] in list;
  }

  /** What one turn does: nothing, or to a node that qualifies its patch, and its claim only with it. */
  predicate Turn(c: Cluster, after: Cluster, pool: Pool, node: Node, uid: string) {
    && (after.nodes == c.nodes || (Unready(node) && after.nodes == c.nodes[node.name := Ready(pool, node)]))
    && (after.claims == c.claims
        || (uid in after.claims && ClaimFor(after.claims[uid], pool, node, c.now) && after.claims == c.claims[uid := after.claims[uid]]
            && (Unready(node) ==> after.nodes == c.nodes[node.name := Ready(pool, node)])))
  }

  lemma {:induction false} TurnIsOne(c: Cluster, pool: Pool, list: seq<Claim>, reply: Reply)
    requires Scanned(c, pool, list) && c.adopter.nodes != []
    ensures var after, node := Turned(c, pool, reply), c.adopter.nodes[0];
            && Scanned(after, pool, list) && after.now == c.now
            && ((after.claims == c.claims && after.nodes == c.nodes) || (Qualifies(pool, list, node) && Turn(c, after, pool, node, reply.uid)))
  {
    if TakesHead(c, pool) { TakenQualifies(c, pool, list); }
    hide ClaimedIds, PendingOf, Eligible, Qualifies, Suits;
  }

  /** Where the remaining nodes' turns may have left a node's object. */
  predicate NodeLeft(pool: Pool, list: seq<Claim>, nodes: seq<Node>, was: map<string, Node>, now: map<string, Node>, name: string)
    requires name in now
  {
    || (name in was && now[name] == was[name])
    || exists i :: 0 <= i < |nodes| && nodes[i].name == name && Unready(nodes[i]) && Qualifies(pool, list, nodes[i]) && now[name] == Ready(pool, nodes[i])
  }

  /** A claim's node among those whose turn it was, prepared if that was still to do. */
  predicate TakenFrom(pool: Pool, list: seq<Claim>, nodes: seq<Node>, claim: Claim, after: Cluster, i: int) {
    && 0 <= i < |nodes| && Qualifies(pool, list, nodes[i]) && ClaimFor(claim, pool, nodes[i], after.now)
    && (Unready(nodes[i]) ==> nodes[i].name in after.nodes && after.nodes[nodes[i].name] == Ready(pool, nodes[i]))
  }

  ghost predicate Results(pool: Pool, list: seq<Claim>, nodes: seq<Node>, c: Cluster, after: Cluster) {
    && after.now == c.now
    && (forall uid :: uid in c.claims ==> uid in after.claims && after.claims[uid] == c.claims[uid])
    && (forall uid :: uid in after.claims && uid !in c.claims ==> exists i :: TakenFrom(pool, list, nodes, after.claims[uid], after, i))
    && (forall name :: name in after.nodes ==> NodeLeft(pool, list, nodes, c.nodes, after.nodes, name))
    && (forall name :: name in c.nodes ==> name in after.nodes)
  }

  predicate DistinctNames(nodes: seq<Node>) {
    forall i, j :: 0 <= i < j < |nodes| ==> nodes[i].name != nodes[j].name
  }

  lemma {:induction false} ResultsOfOneMore(pool: Pool, list: seq<Claim>, nodes: seq<Node>, c: Cluster, turned: Cluster, after: Cluster, uid: string)
    requires nodes != [] && DistinctNames(nodes) && turned.now == c.now && uid !in c.claims
    requires (turned.claims == c.claims && turned.nodes == c.nodes) || (Qualifies(pool, list, nodes[0]) && Turn(c, turned, pool, nodes[0], uid))
    requires Results(pool, list, nodes[1..], turned, after)
    ensures Results(pool, list, nodes, c, after)
  {
    hide Qualifies, ClaimFor;
    var rest := nodes[1..];
    forall name | name in after.nodes ensures NodeLeft(pool, list, nodes, c.nodes, after.nodes, name) {
      NodeLeftBefore(pool, list, nodes, c, turned, after, name);
    }
    hide Turn, NodeLeft;
    forall u | u in after.claims && u !in c.claims ensures exists i :: TakenFrom(pool, list, nodes, after.claims[u], after, i) {
      if u in turned.claims {
        HeadIsTaken(pool, list, nodes, c, turned, after, uid, u);
      } else {
        var i :| TakenFrom(pool, list, rest, after.claims[u], after, i);
        assert nodes[i + 1] == rest[i];
        assert TakenFrom(pool, list, nodes, after.claims[u], after, i + 1);
      }
    }
    assert forall name :: name in c.nodes ==> name in turned.nodes by { TurnKeepsNames(c, turned, pool, nodes[0], uid); }
    assert forall u :: u in c.claims ==> u in turned.claims && turned.claims[u] == c.claims[u] by { TurnKeepsNames(c, turned, pool, nodes[0], uid); }
  }

  lemma {:induction false} TurnKeepsNames(c: Cluster, turned: Cluster, pool: Pool, node: Node, uid: string)
    requires (turned.claims == c.claims && turned.nodes == c.nodes) || Turn(c, turned, pool, node, uid)
    requires uid !in c.claims
    ensures forall name :: name in c.nodes ==> name in turned.nodes
    ensures forall u :: u in c.claims ==> u in turned.claims && turned.claims[u] == c.claims[u]
  {
  }

  lemma {:induction false} HeadIsTaken(pool: Pool, list: seq<Claim>, nodes: seq<Node>, c: Cluster, turned: Cluster, after: Cluster, uid: string, u: string)
    requires nodes != [] && DistinctNames(nodes) && turned.now == c.now
    requires (turned.claims == c.claims && turned.nodes == c.nodes) || (Qualifies(pool, list, nodes[0]) && Turn(c, turned, pool, nodes[0], uid))
    requires Results(pool, list, nodes[1..], turned, after) && u in turned.claims && u !in c.claims
    ensures u in after.claims && TakenFrom(pool, list, nodes, after.claims[u], after, 0)
  {
    hide Qualifies, ClaimFor, TakenFrom;
    assert u == uid && after.claims[u] == turned.claims[u];
    if Unready(nodes[0]) {
      var name := nodes[0].name;
      assert name in turned.nodes && name in after.nodes;
      assert NodeLeft(pool, list, nodes[1..], turned.nodes, after.nodes, name);
      assert forall i :: 0 <= i < |nodes[1..]| ==> nodes[1..][i] == nodes[i + 1];
    }
    TakenFromHead(pool, list, nodes, after, u);
  }

  lemma {:induction false} TakenFromHead(pool: Pool, list: seq<Claim>, nodes: seq<Node>, after: Cluster, u: string)
    requires nodes != [] && u in after.claims && Qualifies(pool, list, nodes[0]) && ClaimFor(after.claims[u], pool, nodes[0], after.now)
    requires Unready(nodes[0]) ==> nodes[0].name in after.nodes && after.nodes[nodes[0].name] == Ready(pool, nodes[0])
    ensures TakenFrom(pool, list, nodes, after.claims[u], after, 0)
  {
  }

  lemma {:induction false} NodeLeftBefore(pool: Pool, list: seq<Claim>, nodes: seq<Node>, c: Cluster, turned: Cluster, after: Cluster, name: string)
    requires nodes != [] && name in after.nodes && NodeLeft(pool, list, nodes[1..], turned.nodes, after.nodes, name)
    requires turned.nodes == c.nodes || (Qualifies(pool, list, nodes[0]) && Unready(nodes[0]) && turned.nodes == c.nodes[nodes[0].name := Ready(pool, nodes[0])])
    ensures NodeLeft(pool, list, nodes, c.nodes, after.nodes, name)
  {
    hide Qualifies;
    var rest := nodes[1..];
    if i :| 0 <= i < |rest| && rest[i].name == name && Unready(rest[i]) && Qualifies(pool, list, rest[i]) && after.nodes[name] == Ready(pool, rest[i]) {
      assert nodes[i + 1] == rest[i];
    }
  }

  lemma {:induction false} LoopResults(c: Cluster, pool: Pool, list: seq<Claim>, replies: seq<Reply>)
    requires AtNode(c, replies) && Scanned(c, pool, list) && DistinctNames(c.adopter.nodes)
    requires forall uid :: uid in c.claims ==> uid in c.uids
    ensures Results(pool, list, c.adopter.nodes, c, Looped(c, pool, replies))
    decreases |replies|
  {
    if replies != [] && !(HeadEligible(c) && pool.types.None?) {
      LoopTurns(c, pool, replies);
      TurnIsOne(c, pool, list, replies[0]);
      AdoptUids(c, pool, replies[0]);
      var turned := Turned(c, pool, replies[0]);
      hide Turned, Looped, Scanned, Results, Turn, Qualifies, FreshUids, HeadEligible;
      LoopResults(turned, pool, list, replies[1..]);
      ResultsOfOneMore(pool, list, c.adopter.nodes, c, turned, Looped(turned, pool, replies[1..]), replies[0].uid);
    }
  }

  lemma {:induction false} AdoptUids(c: Cluster, pool: Pool, reply: Reply)
    requires c.adopter.AdopterWorking? && c.adopter.nodes != [] && reply.uid !in c.uids
    requires forall uid :: uid in c.claims ==> uid in c.uids
    ensures reply.uid !in c.claims && forall uid :: uid in Turned(c, pool, reply).claims ==> uid in Turned(c, pool, reply).uids
  {
    hide Eligible, Build, Suits;
  }

  /**
    A pass by itself, on any node list: the claims there were stay; each new one is that of
    a listed node that qualifies, says so in every field, and its node is prepared; and no
    node's object is touched but to prepare a node that qualifies.
   */
  lemma {:induction false} PassAdoptsOnlyWhatQualifies(s: Cluster, pool: Pool, nodes: seq<Node>, list: seq<Claim>, replies: seq<Reply>)
    requires Base(s) && CanStart(s, pool, nodes, list, replies)
    ensures Results(pool, list, nodes, s, Passed(s, pool, nodes, list, replies))
    ensures pool.deleting || !pool.ours || !pool.autoscaling ==> Passed(s, pool, nodes, list, replies) == s
  {
    if Active(pool) {
      PassIsLoop(s, pool, nodes, list, replies);
      assert DistinctNames(nodes) && pool.name != "";
      UidsCoverClaims(s);
      hide Base, Started, Passed, CanStart, Looped, AtNode, ClaimedIds, PendingOf, Results;
      var start := Started(s, pool, nodes, list);
      LoopResults(start, pool, list, replies);
      OtherPlaceResults(pool, list, nodes, start, Looped(start, pool, replies));
    } else {
      SameResults(pool, list, nodes, s);
    }
  }

  lemma {:induction false} UidsCoverClaims(s: Cluster)
    requires Base(s)
    ensures forall uid :: uid in s.claims ==> uid in s.uids
  {
    assert forall uid :: uid in s.claims ==> ClaimSound(s, uid);
  }

  lemma {:induction false} SameResults(pool: Pool, list: seq<Claim>, nodes: seq<Node>, s: Cluster)
    ensures Results(pool, list, nodes, s, s)
  {
  }

  lemma {:induction false} OtherPlaceResults(pool: Pool, list: seq<Claim>, nodes: seq<Node>, c: Cluster, after: Cluster)
    requires Results(pool, list, nodes, c, after)
    ensures Results(pool, list, nodes, c.(adopter := AdopterIdle), after.(adopter := AdopterIdle))
  {
    hide Qualifies, ClaimFor;
    var idle := after.(adopter := AdopterIdle);
    forall uid | uid in idle.claims && uid !in c.claims ensures exists i :: TakenFrom(pool, list, nodes, idle.claims[uid], idle, i) {
      var i :| TakenFrom(pool, list, nodes, after.claims[uid], after, i);
      assert TakenFrom(pool, list, nodes, idle.claims[uid], idle, i);
    }
  }

  // ---------- when a pass succeeds ----------

  /** The API takes every patch and every create. */
  predicate AllTaken(replies: seq<Reply>) {
    forall i :: 0 <= i < |replies| ==> replies[i].patched && replies[i].created
  }

  lemma {:induction false} TurnSucceeds(c: Cluster, pool: Pool, reply: Reply)
    requires NodesSound(c) && FreshRest(c) && c.adopter.nodes != [] && pool.types.Some? && reply.patched && reply.created
    requires c.adopter.nodes[0].pool != ""
    ensures !Fails(c, pool, reply)
  {
    var node := c.adopter.nodes[0];
    assert NodeSound(c, node.name);
    hide WantedByPending;
  }

  lemma {:induction false} OneTurnSucceeds(c: Cluster, pool: Pool, replies: seq<Reply>)
    requires Base(c) && AtNode(c, replies) && c.adopter.pool == pool.name && FreshRest(c) && pool.types.Some? && AllTaken(replies)
    requires replies != [] && forall i :: 0 <= i < |c.adopter.nodes| ==> c.adopter.nodes[i].pool != ""
    ensures var turned := Turned(c, pool, replies[0]);
            && Base(turned) && turned.adopter.AdopterWorking? && turned.adopter.pool == pool.name && FreshRest(turned)
            && turned.adopter.nodes == c.adopter.nodes[1..] && !Fails(c, pool, replies[0]) && !(HeadEligible(c) && pool.types.None?)
  {
    TurnIsFresh(c, pool, replies);
    TurnKeepsBase(c, pool, replies[0]);
    BaseParts(c);
    hide Base, AtNode, NodesSound, ClaimsSound, FreshUids, Eligible;
    TurnSucceeds(c, pool, replies[0]);
    TurnPreparesNode(c, pool, replies[0]);
    TurnKeepsPool(c, pool, replies[0]);
  }

  lemma {:induction false} LoopSucceeds(c: Cluster, pool: Pool, replies: seq<Reply>)
    requires Base(c) && AtNode(c, replies) && c.adopter.pool == pool.name && FreshRest(c) && pool.types.Some? && AllTaken(replies)
    requires forall i :: 0 <= i < |c.adopter.nodes| ==> c.adopter.nodes[i].pool != ""
    ensures ErrorFree(c, pool, replies)
    decreases |replies|
  {
    if replies != [] {
      LoopTurns(c, pool, replies);
      OneTurnSucceeds(c, pool, replies);
      hide Base, Turned, ErrorFree, Fails, FreshRest, FreshUids, HeadEligible;
      LoopSucceeds(Turned(c, pool, replies[0]), pool, replies[1..]);
    }
  }

  /** On a fresh node list, with the instance types read and every call taken, the pass reports success. */
  lemma {:induction false} PassSucceeds(s: Cluster, pool: Pool, nodes: seq<Node>, list: seq<Claim>, replies: seq<Reply>)
    requires Base(s) && StartsFresh(s, pool, nodes, list, replies) && pool.types.Some? && AllTaken(replies)
    ensures ErrorFree(Started(s, pool, nodes, list), pool, replies)
  {
    StartsCovered(s, pool, nodes, list, replies);
    PassIsLoop(s, pool, nodes, list, replies);
    hide Base, Started, FreshRest, AtNode, ClaimedSpoken, Looped, Passed;
    LoopSucceeds(Started(s, pool, nodes, list), pool, replies);
  }
}
