/** Claims and nodes, and the search that decides which node a pending claim gets. */
module NodeMatching {
  import opened BatchTypes
  import opened ProviderIds

  /** A NodeClaim: labels, creation time, status provider ID and the two annotations ("" when absent). */
  datatype Claim = Claim(
    uid: string,
    pool: string,
    instanceType: string,
    nodeClass: string,
    created: int,
    deleting: bool,
    providerId: string,
    adoptedId: string,
    batchId: string,
    version: nat)

  datatype Node = Node(
    name: string,
    pool: string,
    sku: string,
    providerId: string,
    created: int,
    deleting: bool,
    controlPlane: bool,
    ready: bool,
    registered: bool,
    version: nat)

  /** The sku_name values that identify a node of this claim. */
  function Skus(claim: Claim): (skus: set<string>)
    ensures "" !in skus
  {
    (if claim.instanceType != "" then {claim.instanceType} else {}) + (if claim.nodeClass != "" then {claim.nodeClass} else {})
  }

  /** An ID that names a machine. */
  predicate IsReal(id: string) {
    id != "" && !IsPending(id)
  }

  predicate IsLivePending(claim: Claim) {
    IsPending(claim.providerId) && !claim.deleting
  }

  /** Real IDs in the status of the claims other than one ("" skips none). */
  function UsedIds(claims: seq<Claim>, skip: string): set<string> {
    set i | 0 <= i < |claims| && claims[i].uid != skip && IsReal(claims[i].providerId) :: claims[i].providerId
  }

  /** The SKU and creation-time filters, without ownership. */
  predicate Fits(claim: Claim, node: Node) {
    node.pool == claim.pool && node.sku in Skus(claim) && node.created > claim.created
  }

  predicate Takes(claim: Claim, node: Node, used: set<string>) {
    Fits(claim, node) && node.providerId != "" && node.providerId !in used
  }

  /** The provider ID of the first node the claim may take, "" if there is none. */
  function FirstMatch(claim: Claim, nodes: seq<Node>, used: set<string>): string {
    if nodes == [] then ""
    else if Takes(claim, nodes[0], used) then nodes[0].providerId
    else FirstMatch(claim, nodes[1..], used)
  }

  /** The node at this index is the first the claim may take. */
  predicate ChosenAt(claim: Claim, nodes: seq<Node>, used: set<string>, i: int) {
    && 0 <= i < |nodes| && Takes(claim, nodes[i], used)
    && forall j :: 0 <= j < i ==> !Takes(claim, nodes[j], used)
  }

  /** What the search promises: the first match, and a match whenever there is one. */
  lemma {:induction false} FirstMatchIsFirst(claim: Claim, nodes: seq<Node>, used: set<string>)
    ensures var id := FirstMatch(claim, nodes, used);
            && (id != "" <==> exists i :: 0 <= i < |nodes| && Takes(claim, nodes[i], used))
            && (id != "" ==> id !in used && exists i :: ChosenAt(claim, nodes, used, i) && nodes[i].providerId == id)
  {
    if nodes != [] {
      var rest := nodes[1..];
      FirstMatchIsFirst(claim, rest, used);
      if Takes(claim, nodes[0], used) {
        assert ChosenAt(claim, nodes, used, 0);
      } else if FirstMatch(claim, nodes, used) != "" {
        var i :| ChosenAt(claim, rest, used, i) && rest[i].providerId == FirstMatch(claim, rest, used);
        assert forall j :: 0 < j < |nodes| ==> nodes[j] == rest[j - 1];
        assert ChosenAt(claim, nodes, used, i + 1);
      } else {
        assert forall i :: 0 < i < |nodes| ==> nodes[i] == rest[i - 1];
      }
    }
  }

  /** The node may be this claim's: its pool, one of its SKUs, younger than it, with an ID that is no other listed claim's. */
  predicate MayBeOf(claim: Claim, claims: seq<Claim>, skip: string, node: Node) {
    && claim.pool != "" && node.pool == claim.pool
    && node.sku != "" && (node.sku == claim.instanceType || node.sku == claim.nodeClass)
    && node.created > claim.created && node.providerId != ""
    && forall i :: 0 <= i < |claims| && claims[i].uid != skip && !IsPending(claims[i].providerId) ==> claims[i].providerId != node.providerId
  }

  /** The first of the nodes that may be the claim's. */
  predicate FirstOf(claim: Claim, claims: seq<Claim>, skip: string, nodes: seq<Node>, i: int) {
    && 0 <= i < |nodes| && MayBeOf(claim, claims, skip, nodes[i])
    && forall j :: 0 <= j < i ==> !MayBeOf(claim, claims, skip, nodes[j])
  }

  /** None of the nodes may be the claim's. */
  predicate NoneMayBe(claim: Claim, claims: seq<Claim>, nodes: seq<Node>) {
    forall i :: 0 <= i < |nodes| ==> !MayBeOf(claim, claims, claim.uid, nodes[i])
  }

  lemma {:induction false} TakesMeans(claim: Claim, claims: seq<Claim>, skip: string, node: Node)
    requires claim.pool != ""
    ensures Takes(claim, node, UsedIds(claims, skip)) <==> MayBeOf(claim, claims, skip, node)
  {
    var used := UsedIds(claims, skip);
    assert forall i :: 0 <= i < |claims| && claims[i].uid != skip && IsReal(claims[i].providerId) ==> claims[i].providerId in used;
  }

  /** The search, said of the objects' own fields: nothing exactly when no node may be the claim's, otherwise the first that may. */
  lemma {:induction false} SearchIsExact(claim: Claim, claims: seq<Claim>, skip: string, nodes: seq<Node>)
    ensures var id := if claim.pool == "" || Skus(claim) == {} then "" else FirstMatch(claim, nodes, UsedIds(claims, skip));
            && (id == "" <==> forall i :: 0 <= i < |nodes| ==> !MayBeOf(claim, claims, skip, nodes[i]))
            && (id != "" ==> exists i :: FirstOf(claim, claims, skip, nodes, i) && nodes[i].providerId == id)
  {
    if claim.pool != "" && Skus(claim) != {} {
      var used := UsedIds(claims, skip);
      FirstMatchIsFirst(claim, nodes, used);
      forall node ensures Takes(claim, node, used) <==> MayBeOf(claim, claims, skip, node) {
        TakesMeans(claim, claims, skip, node);
      }
      hide Takes, MayBeOf, UsedIds, FirstMatch, Skus;
      if FirstMatch(claim, nodes, used) != "" {
        var i :| ChosenAt(claim, nodes, used, i) && nodes[i].providerId == FirstMatch(claim, nodes, used);
        assert FirstOf(claim, claims, skip, nodes, i);
      }
    }
  }

  /** The used-ID loop of both searches. */
  method CollectUsed(claims: seq<Claim>, skip: string) returns (used: set<string>)
    ensures used == UsedIds(claims, skip)
  {
    used := {};
    for i := 0 to |claims|
      invariant used == UsedIds(claims[..i], skip)
    {
      var claim := claims[i];
      assert forall k :: 0 <= k < i ==> claims[..i + 1][k] == claims[..i][k];
      assert claims[..i + 1][i] == claim;
      if claim.uid != skip && claim.providerId != "" && !IsPending(claim.providerId) {
        used := used + {claim.providerId};
      }
    }
    assert claims[..|claims|] == claims;
  }

  /** The first-match loop. */
  method Search(claim: Claim, nodes: seq<Node>, skus: set<string>, used: set<string>) returns (found: string)
    requires skus == Skus(claim)
    ensures found == FirstMatch(claim, nodes, used)
  {
    found := "";
    for i := 0 to |nodes|
      invariant FirstMatch(claim, nodes, used) == FirstMatch(claim, nodes[i..], used)
    {
      var node := nodes[i];
      assert nodes[i..][0] == node && nodes[i..][1..] == nodes[i + 1..];
      if node.pool != claim.pool || node.sku !in skus { continue; }
      if node.providerId == "" || node.providerId in used { continue; }
      if node.created <= claim.created { continue; }
      return node.providerId;
    }
    assert nodes[|nodes|..] == [];
  }

  /** The node Delete's search picks for a pending claim. */
  function Found(claim: Claim, claims: Option<seq<Claim>>, nodes: Option<seq<Node>>): string {
    if claims.None? || nodes.None? || claim.pool == "" || Skus(claim) == {} then ""
    else FirstMatch(claim, nodes.value, UsedIds(claims.value, claim.uid))
  }

  /** Delete's search for the node of a claim that is still pending. */
  method FindNodeProviderId(claim: Claim, claims: seq<Claim>, nodes: seq<Node>) returns (id: string)
    requires claim.uid != ""
    ensures id == if claim.pool == "" || Skus(claim) == {} then "" else FirstMatch(claim, nodes, UsedIds(claims, claim.uid))
    ensures id == "" <==> forall i :: 0 <= i < |nodes| ==> !MayBeOf(claim, claims, claim.uid, nodes[i])
    ensures id != "" ==> exists i :: FirstOf(claim, claims, claim.uid, nodes, i) && nodes[i].providerId == id
  {
    SearchIsExact(claim, claims, claim.uid, nodes);
    hide MayBeOf, FirstOf;
    var skus := Skus(claim);
    if claim.pool == "" || skus == {} { return ""; }
    var used := CollectUsed(claims, claim.uid);
    id := Search(claim, nodes, skus, used);
  }

  /** What the provider-ID reconcile writes into a claim's status: nothing, or the node it found. */
  method ResolveClaim(claim: Claim, claims: seq<Claim>, nodes: seq<Node>) returns (found: string)
    ensures found == if !IsLivePending(claim) || claim.pool == "" || Skus(claim) == {} then ""
                     else FirstMatch(claim, nodes, UsedIds(claims, ""))
    ensures found == "" <==> !IsPending(claim.providerId) || claim.deleting || forall i :: 0 <= i < |nodes| ==> !MayBeOf(claim, claims, "", nodes[i])
    ensures found != "" ==> exists i :: FirstOf(claim, claims, "", nodes, i) && nodes[i].providerId == found
  {
    SearchIsExact(claim, claims, "", nodes);
    hide MayBeOf, FirstOf;
    if !IsPending(claim.providerId) || claim.deleting { return ""; }
    var skus := Skus(claim);
    if claim.pool == "" || skus == {} { return ""; }
    var used := CollectUsed(claims, "");
    found := Search(claim, nodes, skus, used);
  }

  predicate DistinctUids(claims: seq<Claim>) {
    && (forall i :: 0 <= i < |claims| ==> claims[i].uid != "")
    && (forall i, j :: 0 <= i < j < |claims| ==> claims[i].uid != claims[j].uid)
  }

  /** On one snapshot, Delete and the reconcile look for the same node of a live pending claim. */
  lemma {:induction false} SearchesAgree(claims: seq<Claim>, k: nat, nodes: seq<Node>)
    requires DistinctUids(claims) && k < |claims| && IsLivePending(claims[k])
    ensures FirstMatch(claims[k], nodes, UsedIds(claims, claims[k].uid)) == FirstMatch(claims[k], nodes, UsedIds(claims, ""))
  {
    assert UsedIds(claims, claims[k].uid) == UsedIds(claims, "");
  }

  /** Delete never picks a node whose ID is in the status of another claim. */
  lemma {:induction false} DeleteSparesBoundNodes(claim: Claim, claims: seq<Claim>, nodes: seq<Node>, other: Claim)
    requires other in claims && other.uid != claim.uid && IsReal(other.providerId)
    ensures FirstMatch(claim, nodes, UsedIds(claims, claim.uid)) != other.providerId
  {
    FirstMatchIsFirst(claim, nodes, UsedIds(claims, claim.uid));
    var i :| 0 <= i < |claims| && claims[i] == other;
    assert claims[i].providerId in UsedIds(claims, claim.uid);
  }

  /** A claim speaks for an ID by its status or by its adoption annotation. */
  predicate SpeaksFor(claim: Claim, id: string) {
    IsReal(id) && (claim.providerId == id || claim.adoptedId == id)
  }

  /**
    What Delete picks may belong to another claim in exactly one way: that claim
    adopted the node and has not been launched, so its status does not say so yet.
   */
  lemma {:induction false} DeletePicksOthersNodeExactlyWhenUnlaunched(claim: Claim, claims: seq<Claim>, nodes: seq<Node>)
    requires forall i :: 0 <= i < |claims| && claims[i].adoptedId != "" ==> claims[i].providerId == "" || claims[i].providerId == claims[i].adoptedId
    ensures var id := FirstMatch(claim, nodes, UsedIds(claims, claim.uid));
            (exists other :: other in claims && other.uid != claim.uid && SpeaksFor(other, id))
            <==> exists other :: other in claims && other.uid != claim.uid && IsReal(id) && other.adoptedId == id && other.providerId == ""
  {
    var id := FirstMatch(claim, nodes, UsedIds(claims, claim.uid));
    if other :| other in claims && other.uid != claim.uid && SpeaksFor(other, id) {
      if IsReal(other.providerId) { DeleteSparesBoundNodes(claim, claims, nodes, other); }
      var i :| 0 <= i < |claims| && claims[i] == other;
      assert other.adoptedId == id && other.providerId == "";
    }
    if other :| other in claims && other.uid != claim.uid && IsReal(id) && other.adoptedId == id && other.providerId == "" {
      assert SpeaksFor(other, id);
    }
  }

  /** It can happen: a deleting claim's removal picks the node another claim has just adopted. */
  lemma {:induction false} DeletePicksAnAdoptedNode()
    ensures var claim := Claim("u1", "p", "s", "", 0, true, PendingId("u1"), "", "b", 0);
            var adopted := Claim("u2", "p", "s", "", 2, false, "", "rafay://p/s/h", "", 0);
            var node := Node("h", "p", "s", "rafay://p/s/h", 1, false, false, true, true, 0);
            FirstMatch(claim, [node], UsedIds([claim, adopted], "u1")) == adopted.adoptedId
  {
    var claim := Claim("u1", "p", "s", "", 0, true, PendingId("u1"), "", "b", 0);
    var adopted := Claim("u2", "p", "s", "", 2, false, "", "rafay://p/s/h", "", 0);
    var node := Node("h", "p", "s", "rafay://p/s/h", 1, false, false, true, true, 0);
    assert UsedIds([claim, adopted], "u1") == {};
    assert Takes(claim, node, {});
  }

  // ---------- the adoption pass's mirror of the search ----------

  predicate WantedByPending(pending: seq<Claim>, node: Node, sku: string) {
    exists i :: 0 <= i < |pending| && sku in Skus(pending[i]) && node.created > pending[i].created
  }

  /** Could a scale-out that has not found its node be waiting for this one? */
  method ClaimedByPendingClaim(pending: seq<Claim>, node: Node, sku: string) returns (wanted: bool)
    ensures wanted <==> WantedByPending(pending, node, sku)
  {
    for i := 0 to |pending|
      invariant forall k :: 0 <= k < i ==> !(sku in Skus(pending[k]) && node.created > pending[k].created)
    {
      if sku !in Skus(pending[i]) { continue; }
      if node.created > pending[i].created { return true; }
    }
    wanted := false;
  }

  /** The live pending claims of a pool, in list order. */
  function PendingOf(claims: seq<Claim>, pool: string): seq<Claim> {
    if claims == [] then []
    else (if claims[0].pool == pool && IsLivePending(claims[0]) then [claims[0]] else []) + PendingOf(claims[1..], pool)
  }

  lemma {:induction false} PendingOfIsFilter(claims: seq<Claim>, pool: string)
    ensures forall c :: c in PendingOf(claims, pool) <==> c in claims && c.pool == pool && IsLivePending(c)
  {
    if claims != [] {
      PendingOfIsFilter(claims[1..], pool);
      assert claims == [claims[0]] + claims[1..];
    }
  }

  /** The claim is pending and not going away, and by pool, SKU and age the node may be the one it waits for. */
  predicate MayWaitFor(claim: Claim, node: Node) {
    && IsPending(claim.providerId) && !claim.deleting && node.pool == claim.pool
    && node.sku != "" && (node.sku == claim.instanceType || node.sku == claim.nodeClass) && node.created > claim.created
  }

  /** Adoption defers to a pending claim exactly when the provider-ID reconcile's own filters let that claim have the node. */
  lemma {:induction false} AdoptionMirrorsTheSearch(claims: seq<Claim>, node: Node)
    ensures WantedByPending(PendingOf(claims, node.pool), node, node.sku)
            <==> exists c :: c in claims && IsLivePending(c) && Fits(c, node)
    ensures WantedByPending(PendingOf(claims, node.pool), node, node.sku) <==> exists c :: c in claims && MayWaitFor(c, node)
  {
    assert forall c :: MayWaitFor(c, node) <==> IsLivePending(c) && Fits(c, node);
    hide MayWaitFor;
    var pending := PendingOf(claims, node.pool);
    PendingOfIsFilter(claims, node.pool);
    if WantedByPending(pending, node, node.sku) {
      var i :| 0 <= i < |pending| && node.sku in Skus(pending[i]) && node.created > pending[i].created;
      assert pending[i] in pending;
    }
    if c :| c in claims && IsLivePending(c) && Fits(c, node) {
      assert c in pending;
      var i :| 0 <= i < |pending| && pending[i] == c;
    }
  }

  // ---------- requirements of an adopted claim ----------

  datatype Requirement = Requirement(key: string, operator: string, values: seq<string>)

  const INSTANCE_TYPE_KEY := "node.kubernetes.io/instance-type"

  /** The requirements that do not speak of the instance type, in order. */
  function OtherRequirements(reqs: seq<Requirement>): seq<Requirement> {
    if reqs == [] then []
    else (if reqs[0].key == INSTANCE_TYPE_KEY then [] else [reqs[0]]) + OtherRequirements(reqs[1..])
  }

  /** The pool's requirements with the instance type pinned to what the node is. */
  method PinInstanceType(reqs: seq<Requirement>, sku: string) returns (pinned: seq<Requirement>)
    ensures pinned == OtherRequirements(reqs) + [Requirement(INSTANCE_TYPE_KEY, "In", [sku])]
  {
    pinned := [];
    for i := 0 to |reqs|
      invariant pinned == OtherRequirements(reqs[..i])
    {
      assert reqs[..i + 1] == reqs[..i] + [reqs[i]];
      OtherSnoc(reqs[..i], reqs[i]);
      if reqs[i].key == INSTANCE_TYPE_KEY { continue; }
      pinned := pinned + [reqs[i]];
    }
    assert reqs[..|reqs|] == reqs;
    pinned := pinned + [Requirement(INSTANCE_TYPE_KEY, "In", [sku])];
  }

  lemma {:induction false} OtherSnoc(reqs: seq<Requirement>, r: Requirement)
    ensures OtherRequirements(reqs + [r]) == OtherRequirements(reqs) + if r.key == INSTANCE_TYPE_KEY then [] else [r]
  {
    if reqs == [] {
      assert reqs + [r] == [r] && [r][1..] == [];
    } else {
      var head := if reqs[0].key == INSTANCE_TYPE_KEY then [] else [reqs[0]];
      var more := if r.key == INSTANCE_TYPE_KEY then [] else [r];
      assert (reqs + [r])[1..] == reqs[1..] + [r];
      OtherSnoc(reqs[1..], r);
      assert head + (OtherRequirements(reqs[1..]) + more) == (head + OtherRequirements(reqs[1..])) + more;
    }
  }

  /** Pinning leaves one instance-type requirement, for the SKU, and every other requirement as it was. */
  lemma {:induction false} PinnedOnce(reqs: seq<Requirement>, sku: string)
    ensures var pinned := OtherRequirements(reqs) + [Requirement(INSTANCE_TYPE_KEY, "In", [sku])];
            && (forall r :: r in pinned && r.key == INSTANCE_TYPE_KEY ==> r.values == [sku])
            && (forall r: Requirement :: r.key != INSTANCE_TYPE_KEY ==> (r in pinned <==> r in reqs))
            && multiset(OtherRequirements(reqs)) <= multiset(reqs)
  {
    if reqs != [] {
      PinnedOnce(reqs[1..], sku);
      assert reqs == [reqs[0]] + reqs[1..];
    }
  }
}
