/**
  Who owns which node. Two controllers and the claim lifecycle share one cluster
  state; every API call is a step, node lists may be arbitrarily stale, claim
  lists are fresh, and patches carry the version they were computed from.
 */
module Ownership {
  import opened BatchTypes
  import opened ProviderIds
  import opened NodeMatching

  /** The provider-ID controller, between its API calls. */
  datatype Binder =
    | BinderIdle
    | BinderListed(claim: Claim, used: set<string>)
    | BinderChose(claim: Claim, used: set<string>, id: string)

  /** The adoption controller, between its API calls. */
  datatype Adopter =
    | AdopterIdle
    | AdopterBegun(pool: string, nodes: seq<Node>)
    | AdopterWorking(pool: string, nodes: seq<Node>, claimed: set<string>, pending: seq<Claim>)
    | AdopterCreating(pool: string, nodes: seq<Node>, claimed: set<string>, pending: seq<Claim>, node: Node, id: string)

  /**
    One Delete of a claim that is still pending, between its API calls. Deletes only
    read the cluster, so one at a time stands for any number of them. It remembers the
    claims as it listed them, and which patches have gone through since.
   */
  datatype Remover =
    | RemoverIdle
    | RemoverListed(claim: Claim, list: seq<Claim>, bound: set<(string, string)>)
    | RemoverChose(claim: Claim, list: seq<Claim>, bound: set<(string, string)>, id: string)

  /** The API server's objects, every node ever seen in its last form, every UID ever given, and the controllers. */
  datatype Cluster = Cluster(
    now: int,
    claims: map<string, Claim>,
    nodes: map<string, Node>,
    log: map<string, Node>,
    uids: set<string>,
    binder: Binder,
    adopter: Adopter,
    remover: Remover)

  function Empty(now: int): Cluster {
    Cluster(now, map[], map[], map[], {}, BinderIdle, AdopterIdle, RemoverIdle)
  }

  datatype Step =
    | Tick(passed: nat)
    | NewClaim(uid: string, pool: string, instanceType: string, nodeClass: string)
    | LaunchClaim(uid: string, instanceType: string, batchId: string)
    | LaunchAdopted(uid: string)
    | MarkDeleting(uid: string)
    | RemoveClaim(uid: string)
    | TouchClaim(uid: string)
    | JoinNode(node: Node)
    | LabelNode(name: string, pool: string, sku: string)
    | StampNode(name: string, id: string)
    | ChangeNode(name: string, deleting: bool, ready: bool, registered: bool)
    | RemoveNode(name: string)
    | BindList(claim: Claim, list: seq<Claim>)
    | BindChoose(nodes: seq<Node>)
    | BindPatch
    | BindAbort
    | AdoptBegin(pool: string, nodes: seq<Node>)
    | AdoptList(list: seq<Claim>)
    | AdoptSkip
    | AdoptPrepare
    | AdoptCreate(uid: string, nodeClass: string)
    | AdoptCreateFails
    | AdoptCreateUnheard(uid: string, nodeClass: string)
    | AdoptEnd
    | DeleteList(claim: Claim, list: seq<Claim>)
    | DeleteChoose(nodes: seq<Node>)
    | DeleteEnd

  // ---------- what a step may see ----------

  /** A node as some past or present list showed it. */
  predicate Seen(s: Cluster, node: Node) {
    && node.name in s.log
    && var now := s.log[node.name];
    && (node.pool == "" || node.pool == now.pool) && (node.sku == "" || node.sku == now.sku) && node.created == now.created
    && (node.providerId == "" || node.providerId == now.providerId)
    && node.version <= now.version
    && (node.version == now.version ==> node == now)
  }

  predicate Snapshot(s: Cluster, nodes: seq<Node>) {
    && (forall i :: 0 <= i < |nodes| ==> Seen(s, nodes[i]))
    && (forall i, j :: 0 <= i < j < |nodes| ==> nodes[i].name != nodes[j].name)
  }

  /** A claim as some past or present read showed it. */
  predicate Known(s: Cluster, claim: Claim) {
    && claim.uid in s.uids
    && (claim.uid in s.claims ==>
          && claim.version <= s.claims[claim.uid].version
          && (claim.version == s.claims[claim.uid].version ==> claim == s.claims[claim.uid]))
  }

  /** A fresh claim list, in any order. */
  predicate Lists(s: Cluster, list: seq<Claim>) {
    && (forall i :: 0 <= i < |list| ==> list[i].uid in s.claims && s.claims[list[i].uid] == list[i])
    && (forall uid :: uid in s.claims ==> s.claims[uid] in list)
  }

  /** The ID is the documented one of some node by another name. */
  ghost predicate NamesAnother(id: string, name: string) {
    exists pool, sku, other :: other != name && '/' !in pool && '/' !in sku && Build(pool, sku, other) != "" && Build(pool, sku, other) == id
  }

  /** An ID the platform may give a node: any that no other node has or is entitled to. */
  ghost predicate PlatformId(s: Cluster, node: Node, id: string) {
    && IsReal(id) && !NamesAnother(id, node.name)
    && forall name :: name in s.log && name != node.name ==> s.log[name].providerId != id
  }

  /** Label values hold no slash, and no pool is called "pending". */
  predicate PlainLabels(node: Node) {
    '/' !in node.pool && '/' !in node.sku && node.pool != "pending" && node.name != ""
  }

  // ---------- the adoption pass's decisions ----------

  /** The IDs some claim already speaks for, by status or by annotation. */
  function ClaimedIds(list: seq<Claim>): set<string> {
    (set i | 0 <= i < |list| && IsReal(list[i].providerId) :: list[i].providerId)
    + (set i | 0 <= i < |list| && list[i].adoptedId != "" :: list[i].adoptedId)
  }

  /** The checks before a node is prepared for adoption, short of label compatibility. */
  predicate Eligible(node: Node, claimed: set<string>, pending: seq<Claim>) {
    && !node.deleting && !node.controlPlane && node.ready && node.sku != ""
    && (node.providerId == "" || (HasPrefix(node.providerId, PREFIX) && node.providerId !in claimed))
    && !WantedByPending(pending, node, node.sku)
  }

  function ResolvedId(node: Node): string {
    if node.providerId != "" then node.providerId else Build(node.pool, node.sku, node.name)
  }

  /** Nothing to patch, or a patch against the node's present version. */
  predicate PatchFits(s: Cluster, node: Node) {
    || (node.providerId != "" && node.registered)
    || (node.name in s.nodes && s.nodes[node.name].version == node.version)
  }

  function Prepared(node: Node): Node {
    if node.providerId != "" && node.registered then node
    else node.(providerId := ResolvedId(node), registered := true, version := node.version + 1)
  }

  // ---------- the steps ----------

  ghost predicate Enabled(s: Cluster, step: Step) {
    match step
    case Tick(_) => true
    case NewClaim(uid, _, _, _) => uid !in s.uids && uid != ""
    case LaunchClaim(uid, _, _) => uid in s.claims && s.claims[uid].providerId == "" && s.claims[uid].adoptedId == ""
    case LaunchAdopted(uid) => uid in s.claims && s.claims[uid].providerId == "" && s.claims[uid].adoptedId != ""
    case MarkDeleting(uid) => uid in s.claims
    case RemoveClaim(uid) => uid in s.claims
    case TouchClaim(uid) => uid in s.claims
    case JoinNode(node) =>
      && node.name !in s.log && node.created == s.now && PlainLabels(node)
      && (node.providerId == "" || PlatformId(s, node, node.providerId))
    case LabelNode(name, pool, sku) =>
      && name in s.nodes && (s.nodes[name].pool == "" || pool == s.nodes[name].pool) && (s.nodes[name].sku == "" || sku == s.nodes[name].sku)
      && PlainLabels(s.nodes[name].(pool := pool, sku := sku))
    case StampNode(name, id) => name in s.nodes && s.nodes[name].providerId == "" && PlatformId(s, s.nodes[name], id)
    case ChangeNode(name, _, _, _) => name in s.nodes
    case RemoveNode(name) => name in s.nodes
    case BindList(claim, list) =>
      s.binder.BinderIdle? && Known(s, claim) && IsLivePending(claim) && claim.pool != "" && Lists(s, list)
    case BindChoose(nodes) => s.binder.BinderListed? && Snapshot(s, nodes)
    case BindPatch => s.binder.BinderChose?
    case BindAbort => true
    case AdoptBegin(pool, nodes) =>
      s.adopter.AdopterIdle? && pool != "" && Snapshot(s, nodes) && forall i :: 0 <= i < |nodes| ==> nodes[i].pool == pool
    case AdoptList(list) => s.adopter.AdopterBegun? && Lists(s, list)
    case AdoptSkip => s.adopter.AdopterWorking? && s.adopter.nodes != []
    case AdoptPrepare =>
      && s.adopter.AdopterWorking? && s.adopter.nodes != []
      && Eligible(s.adopter.nodes[0], s.adopter.claimed, s.adopter.pending)
      && ResolvedId(s.adopter.nodes[0]) != ""
    case AdoptCreate(uid, _) => s.adopter.AdopterCreating? && uid !in s.uids && uid != ""
    case AdoptCreateFails => s.adopter.AdopterCreating?
    case AdoptCreateUnheard(uid, _) => s.adopter.AdopterCreating? && uid !in s.uids && uid != ""
    case AdoptEnd => true
    case DeleteList(claim, list) => s.remover.RemoverIdle? && Known(s, claim) && IsPending(claim.providerId) && Lists(s, list)
    case DeleteChoose(nodes) => s.remover.RemoverListed? && Snapshot(s, nodes)
    case DeleteEnd => true
  }

  function WithClaim(s: Cluster, claim: Claim): Cluster {
    s.(claims := s.claims[claim.uid := claim], uids := s.uids + {claim.uid})
  }

  function Bumped(claim: Claim): Claim {
    claim.(version := claim.version + 1)
  }

  function WithNode(s: Cluster, node: Node): Cluster {
    s.(nodes := s.nodes[node.name := node], log := s.log[node.name := node])
  }

  /** A Delete under way sees a patch it may have missed. */
  function Noted(remover: Remover, uid: string, id: string): Remover {
    match remover
    case RemoverIdle => RemoverIdle
    case RemoverListed(claim, list, bound) => RemoverListed(claim, list, bound + {(uid, id)})
    case RemoverChose(_, _, _, _) => remover
  }

  /** Writing the chosen ID succeeds only on the version it was computed from. */
  function Bound(s: Cluster): Cluster
    requires s.binder.BinderChose?
  {
    var claim := s.binder.claim;
    var idle := s.(binder := BinderIdle);
    if claim.uid in s.claims && s.claims[claim.uid].version == claim.version
    then WithClaim(idle.(remover := Noted(s.remover, claim.uid, s.binder.id)), Bumped(s.claims[claim.uid].(providerId := s.binder.id)))
    else idle
  }

  function PreparedStep(s: Cluster): Cluster
    requires s.adopter.AdopterWorking? && s.adopter.nodes != []
  {
    var a := s.adopter;
    var node := a.nodes[0];
    if !PatchFits(s, node) then s.(adopter := AdopterWorking(a.pool, a.nodes[1..], a.claimed, a.pending))
    else
      var next := s.(adopter := AdopterCreating(a.pool, a.nodes[1..], a.claimed, a.pending, Prepared(node), ResolvedId(node)));
      if Prepared(node) == node then next else WithNode(next, Prepared(node))
  }

  function Adopted(s: Cluster, uid: string, nodeClass: string): Cluster
    requires s.adopter.AdopterCreating?
  {
    var a := s.adopter;
    WithClaim(s.(adopter := AdopterWorking(a.pool, a.nodes, a.claimed + {a.id}, a.pending)),
              Claim(uid, a.pool, a.node.sku, nodeClass, s.now, false, "", a.id, "", 0))
  }

  /** The claim was created, but the controller was told it was not. */
  function AdoptedUnheard(s: Cluster, uid: string, nodeClass: string): Cluster
    requires s.adopter.AdopterCreating?
  {
    Adopted(s, uid, nodeClass).(adopter := AdopterWorking(s.adopter.pool, s.adopter.nodes, s.adopter.claimed, s.adopter.pending))
  }

  /** The node Delete's search picks, "" if none. */
  function Picked(s: Cluster, nodes: seq<Node>): string
    requires s.remover.RemoverListed?
  {
    Found(s.remover.claim, Some(s.remover.list), Some(nodes))
  }

  ghost function Next(s: Cluster, step: Step): Cluster
    requires Enabled(s, step)
  {
    match step
    case Tick(passed) => s.(now := s.now + passed)
    case NewClaim(uid, pool, instanceType, nodeClass) =>
      WithClaim(s, Claim(uid, pool, instanceType, nodeClass, s.now, false, "", "", "", 0))
    case LaunchClaim(uid, instanceType, batchId) =>
      WithClaim(s, Bumped(s.claims[uid].(providerId := PendingId(uid), instanceType := instanceType, batchId := batchId)))
    case LaunchAdopted(uid) => WithClaim(s, Bumped(s.claims[uid].(providerId := s.claims[uid].adoptedId)))
    case MarkDeleting(uid) => WithClaim(s, Bumped(s.claims[uid].(deleting := true)))
    case RemoveClaim(uid) => s.(claims := s.claims - {uid})
    case TouchClaim(uid) => WithClaim(s, Bumped(s.claims[uid]))
    case JoinNode(node) => WithNode(s, node)
    case LabelNode(name, pool, sku) => WithNode(s, s.nodes[name].(pool := pool, sku := sku, version := s.nodes[name].version + 1))
    case StampNode(name, id) => WithNode(s, s.nodes[name].(providerId := id, version := s.nodes[name].version + 1))
    case ChangeNode(name, deleting, ready, registered) =>
      WithNode(s, s.nodes[name].(deleting := deleting, ready := ready, registered := registered, version := s.nodes[name].version + 1))
    case RemoveNode(name) => s.(nodes := s.nodes - {name})
    case BindList(claim, list) => s.(binder := BinderListed(claim, UsedIds(list, "")))
    case BindChoose(nodes) =>
      var id := FirstMatch(s.binder.claim, nodes, s.binder.used);
      s.(binder := if id == "" then BinderIdle else BinderChose(s.binder.claim, s.binder.used, id))
    case BindPatch => Bound(s)
    case BindAbort => s.(binder := BinderIdle)
    case AdoptBegin(pool, nodes) => s.(adopter := AdopterBegun(pool, nodes))
    case AdoptList(list) =>
      s.(adopter := AdopterWorking(s.adopter.pool, s.adopter.nodes, ClaimedIds(list), PendingOf(list, s.adopter.pool)))
    case AdoptSkip => s.(adopter := AdopterWorking(s.adopter.pool, s.adopter.nodes[1..], s.adopter.claimed, s.adopter.pending))
    case AdoptPrepare => PreparedStep(s)
    case AdoptCreate(uid, nodeClass) => Adopted(s, uid, nodeClass)
    case AdoptCreateFails => s.(adopter := AdopterWorking(s.adopter.pool, s.adopter.nodes, s.adopter.claimed, s.adopter.pending))
    case AdoptCreateUnheard(uid, nodeClass) => AdoptedUnheard(s, uid, nodeClass)
    case AdoptEnd => s.(adopter := AdopterIdle)
    case DeleteList(claim, list) => s.(remover := RemoverListed(claim, list, {}))
    case DeleteChoose(nodes) => s.(remover := RemoverChose(s.remover.claim, s.remover.list, s.remover.bound, Picked(s, nodes)))
    case DeleteEnd => s.(remover := RemoverIdle)
  }

  ghost predicate Legal(s: Cluster, steps: seq<Step>)
    decreases |steps|
  {
    steps == [] || (Enabled(s, steps[0]) && Legal(Next(s, steps[0]), steps[1..]))
  }

  ghost function Run(s: Cluster, steps: seq<Step>): Cluster
    requires Legal(s, steps)
    decreases |steps|
  {
    if steps == [] then s else Run(Next(s, steps[0]), steps[1..])
  }

  // ---------- what holds whatever happens ----------

  /** A node's ID is empty, or a real one no other node has or is entitled to. */
  ghost predicate NodesSound(s: Cluster) {
    && (forall name :: name in s.log ==> NodeSound(s, name))
    && (forall name :: name in s.nodes ==> name in s.log && s.nodes[name] == s.log[name])
    && (forall a, b :: a in s.log && b in s.log && a != b && s.log[a].providerId != "" ==> s.log[a].providerId != s.log[b].providerId)
  }

  ghost predicate NodeSound(s: Cluster, name: string)
    requires name in s.log
  {
    var node := s.log[name];
    && node.name == name && node.created <= s.now && PlainLabels(node)
    && (node.providerId == "" || (IsReal(node.providerId) && !NamesAnother(node.providerId, name)))
  }

  /** Some node, present or gone, has this ID. */
  ghost predicate Owned(s: Cluster, id: string) {
    exists name :: name in s.log && s.log[name].providerId == id
  }

  ghost predicate ClaimsSound(s: Cluster) {
    forall uid :: uid in s.claims ==> ClaimSound(s, uid)
  }

  ghost predicate ClaimSound(s: Cluster, uid: string)
    requires uid in s.claims
  {
    var claim := s.claims[uid];
    && claim.uid == uid && uid in s.uids && uid != "" && claim.created <= s.now
    && (claim.adoptedId != "" ==>
          IsReal(claim.adoptedId) && Owned(s, claim.adoptedId) && (claim.providerId == "" || claim.providerId == claim.adoptedId))
    && (IsReal(claim.providerId) ==> Owned(s, claim.providerId))
  }

  /** No two claims carry the same adoption annotation. */
  ghost predicate AdoptedOnce(s: Cluster) {
    forall a, b :: a in s.claims && b in s.claims && a != b && s.claims[a].adoptedId != "" ==> s.claims[a].adoptedId != s.claims[b].adoptedId
  }

  ghost predicate Annotated(s: Cluster, id: string) {
    exists uid :: uid in s.claims && s.claims[uid].adoptedId == id
  }

  /** The pass knows of every annotation that names a node it has yet to look at. */
  ghost predicate KnowsAnnotations(s: Cluster, nodes: seq<Node>, claimed: set<string>) {
    forall uid, i :: uid in s.claims && 0 <= i < |nodes| && s.claims[uid].adoptedId != "" && nodes[i].providerId == s.claims[uid].adoptedId
                     ==> s.claims[uid].adoptedId in claimed
  }

  ghost predicate AdopterBase(s: Cluster) {
    match s.adopter
    case AdopterIdle => true
    case AdopterBegun(pool, nodes) => OwnSnapshot(s, pool, nodes)
    case AdopterWorking(pool, nodes, claimed, pending) => OwnSnapshot(s, pool, nodes) && KnowsAnnotations(s, nodes, claimed)
    case AdopterCreating(pool, nodes, claimed, pending, node, id) =>
      && OwnSnapshot(s, pool, nodes) && KnowsAnnotations(s, nodes, claimed)
      && node.name in s.log && s.log[node.name].providerId == id && IsReal(id) && !Annotated(s, id)
      && node.pool == s.log[node.name].pool != "" && node.sku == s.log[node.name].sku != "" && node.created == s.log[node.name].created
      && forall i :: 0 <= i < |nodes| ==> nodes[i].name != node.name
  }

  ghost predicate OwnSnapshot(s: Cluster, pool: string, nodes: seq<Node>) {
    pool != "" && Snapshot(s, nodes) && forall i :: 0 <= i < |nodes| ==> nodes[i].pool == pool
  }

  ghost predicate BinderBase(s: Cluster) {
    s.binder.BinderIdle? || (Known(s, s.binder.claim) && IsLivePending(s.binder.claim) && s.binder.claim.pool != ""
                             && (s.binder.BinderChose? ==> IsReal(s.binder.id) && Owned(s, s.binder.id)))
  }

  ghost predicate Base(s: Cluster) {
    NodesSound(s) && ClaimsSound(s) && AdoptedOnce(s) && AdopterBase(s) && BinderBase(s)
  }

  // ---------- steps of the surroundings: claims age, nodes come and go ----------

  /** One claim's life outside the two controllers: launched, marked for deletion, touched. */
  predicate Aged(before: Claim, after: Claim) {
    && after.uid == before.uid && after.pool == before.pool && after.nodeClass == before.nodeClass
    && after.created == before.created && after.adoptedId == before.adoptedId
    && (before.deleting ==> after.deleting)
    && (after == before || after.version > before.version)
    && (before.providerId != "" ==> after.providerId == before.providerId && after.instanceType == before.instanceType)
    && (before.providerId == "" ==>
          || after.providerId == ""
          || (before.adoptedId == "" && IsPending(after.providerId))
          || (before.adoptedId != "" && after.providerId == before.adoptedId))
  }

  predicate Newborn(s: Cluster, claim: Claim) {
    claim.created == s.now && claim.providerId == "" && claim.adoptedId == "" && claim.uid != ""
  }

  ghost predicate ClaimsMove(s: Cluster, after: Cluster) {
    && after.now == s.now && after.nodes == s.nodes && after.log == s.log
    && after.binder == s.binder && after.adopter == s.adopter && after.remover == s.remover && s.uids <= after.uids
    && forall uid :: uid in after.claims ==>
         && uid in after.uids && after.claims[uid].uid == uid
         && if uid in s.claims then Aged(s.claims[uid], after.claims[uid]) else uid !in s.uids && Newborn(s, after.claims[uid])
  }

  /** A node keeps its identity, and its ID once it has one. */
  predicate SameMachine(before: Node, after: Node) {
    && after.name == before.name && after.created == before.created
    && (before.pool != "" ==> after.pool == before.pool) && (before.sku != "" ==> after.sku == before.sku)
    && (before.providerId != "" ==> after.providerId == before.providerId)
    && (after == before || after.version > before.version)
  }

  ghost predicate NodesMove(s: Cluster, after: Cluster) {
    && s.now <= after.now && after.claims == s.claims && after.uids == s.uids
    && after.binder == s.binder && after.adopter == s.adopter && after.remover == s.remover
    && (forall name :: name in s.log ==> name in after.log && SameMachine(s.log[name], after.log[name]))
    && (forall name :: name in after.log && name !in s.log ==> after.log[name].created == after.now)
    && (forall name :: name in after.log && !Kept(s, after, name) ==> after.log[name].providerId == "" || !Owned(s, after.log[name].providerId))
  }

  /** The node had its ID before. */
  predicate Kept(s: Cluster, after: Cluster, name: string)
    requires name in after.log
  {
    name in s.log && s.log[name].providerId == after.log[name].providerId
  }

  predicate Surroundings(step: Step) {
    || step.NewClaim? || step.LaunchClaim? || step.LaunchAdopted? || step.MarkDeleting? || step.RemoveClaim? || step.TouchClaim?
    || step.Tick? || step.JoinNode? || step.LabelNode? || step.StampNode? || step.ChangeNode? || step.RemoveNode?
  }

  lemma {:induction false} SurroundingsMove(s: Cluster, step: Step)
    requires NodesSound(s) && ClaimsSound(s) && Enabled(s, step) && Surroundings(step)
    ensures ClaimsMove(s, Next(s, step)) || (NodesMove(s, Next(s, step)) && NodesSound(Next(s, step)))
  {
    hide NodesSound, ClaimsSound, ClaimsMove, NodesMove, Enabled;
    match step
    case JoinNode(node) => JoinMoves(s, node);
    case LabelNode(name, _, _) => LabelMoves(s, step);
    case StampNode(name, id) => StampMoves(s, name, id);
    case ChangeNode(name, _, _, _) => ChangeMoves(s, step);
    case Tick(_) => StillMoves(s, step);
    case RemoveNode(_) => StillMoves(s, step);
    case _ => ClaimStepMoves(s, step);
  }

  lemma {:induction false} StillMoves(s: Cluster, step: Step)
    requires NodesSound(s) && Enabled(s, step) && (step.Tick? || step.RemoveNode?)
    ensures NodesMove(s, Next(s, step)) && NodesSound(Next(s, step))
  {
    hide NodesMove, NodesSound;
    SameLogMoves(s, Next(s, step));
  }

  lemma {:induction false} SameLogMoves(s: Cluster, after: Cluster)
    requires NodesSound(s) && s.now <= after.now && after.claims == s.claims && after.uids == s.uids
    requires after.binder == s.binder && after.adopter == s.adopter && after.remover == s.remover && after.log == s.log
    requires forall name :: name in after.nodes ==> name in s.nodes && after.nodes[name] == s.nodes[name]
    ensures NodesMove(s, after) && NodesSound(after)
  {
    hide Build, NamesAnother, IsPending;
    forall name | name in after.log ensures NodeSound(after, name) {
      assert NodeSound(s, name);
    }
    assert forall name :: name in s.log ==> Kept(s, after, name);
  }

  lemma {:induction false} ClaimStepMoves(s: Cluster, step: Step)
    requires ClaimsSound(s) && Enabled(s, step)
    requires step.NewClaim? || step.LaunchClaim? || step.LaunchAdopted? || step.MarkDeleting? || step.RemoveClaim? || step.TouchClaim?
    ensures ClaimsMove(s, Next(s, step))
  {
    var after := Next(s, step);
    forall uid | uid in after.claims
      ensures uid in after.uids && after.claims[uid].uid == uid
      ensures if uid in s.claims then Aged(s.claims[uid], after.claims[uid]) else uid !in s.uids && Newborn(s, after.claims[uid])
    {
      if uid in s.claims { assert ClaimSound(s, uid); }
    }
  }

  /** A platform ID given to a node is nobody else's. */
  lemma {:induction false} PlatformIdIsNew(s: Cluster, node: Node, id: string)
    requires NodesSound(s) && PlatformId(s, node, id)
    requires node.name in s.log ==> s.log[node.name].providerId == ""
    ensures !Owned(s, id)
  {
    hide Build, NamesAnother, IsPending;
  }

  /** The documented ID of a node is real, and no other node's. */
  lemma {:induction false} BuiltIsOwn(node: Node)
    requires PlainLabels(node) && Build(node.pool, node.sku, node.name) != ""
    ensures IsReal(Build(node.pool, node.sku, node.name)) && !NamesAnother(Build(node.pool, node.sku, node.name), node.name)
  {
    var id := Build(node.pool, node.sku, node.name);
    OnlyPendingLooksPending(node.pool, node.sku, node.name);
    forall pool, sku, other | '/' !in pool && '/' !in sku && Build(pool, sku, other) != "" && Build(pool, sku, other) == id
      ensures other == node.name
    {
      BuildIsInjective(node.pool, node.sku, node.name, pool, sku, other);
    }
  }

  /** A node that may be set: the same machine as before or a new one, with an ID of its own. */
  ghost predicate Settable(s: Cluster, node: Node) {
    && PlainLabels(node) && node.created <= s.now
    && (if node.name in s.log then SameMachine(s.log[node.name], node) else node.created == s.now)
    && (node.providerId == "" || (IsReal(node.providerId) && !NamesAnother(node.providerId, node.name)))
    && (node.providerId == "" || !Owned(s, node.providerId) || (node.name in s.log && s.log[node.name].providerId == node.providerId))
  }

  /** Setting one node keeps the nodes sound if its ID is its own. */
  lemma {:induction false} WithNodeSound(s: Cluster, node: Node)
    requires NodesSound(s) && Settable(s, node)
    ensures NodesSound(WithNode(s, node)) && NodesMove(s, WithNode(s, node))
  {
    hide Build, NamesAnother, IsPending;
    var after := WithNode(s, node);
    forall name | name in after.log ensures NodeSound(after, name) {
      if name != node.name { assert NodeSound(s, name); }
    }
    WithNodeUnique(s, node);
    WithNodeMoves(s, node);
  }

  lemma {:induction false} WithNodeUnique(s: Cluster, node: Node)
    requires NodesSound(s) && Settable(s, node)
    ensures var log := WithNode(s, node).log;
            forall a, b :: a in log && b in log && a != b && log[a].providerId != "" ==> log[a].providerId != log[b].providerId
  {
    hide Build, NamesAnother, IsPending;
    var log := WithNode(s, node).log;
    forall b | b in s.log && b != node.name && node.providerId != "" ensures s.log[b].providerId != node.providerId {
    }
  }

  lemma {:induction false} WithNodeMoves(s: Cluster, node: Node)
    requires NodesSound(s) && Settable(s, node)
    ensures NodesMove(s, WithNode(s, node))
  {
    hide Build, NamesAnother, IsPending, NodeSound, Owned, PlainLabels, IsReal;
    var after := WithNode(s, node);
    forall name | name in after.log && !Kept(s, after, name) ensures after.log[name].providerId == "" || !Owned(s, after.log[name].providerId) {
      assert name == node.name;
    }
  }

  lemma {:induction false} JoinMoves(s: Cluster, node: Node)
    requires NodesSound(s) && Enabled(s, JoinNode(node))
    ensures NodesMove(s, Next(s, JoinNode(node))) && NodesSound(Next(s, JoinNode(node)))
  {
    hide Build, NamesAnother, IsPending, NodesMove, Owned;
    if node.providerId != "" { PlatformIdIsNew(s, node, node.providerId); }
    WithNodeSound(s, node);
  }

  lemma {:induction false} StampMoves(s: Cluster, name: string, id: string)
    requires NodesSound(s) && Enabled(s, StampNode(name, id))
    ensures NodesMove(s, Next(s, StampNode(name, id))) && NodesSound(Next(s, StampNode(name, id)))
  {
    hide Build, NamesAnother, IsPending, NodesMove, Owned;
    assert NodeSound(s, name);
    PlatformIdIsNew(s, s.nodes[name], id);
    WithNodeSound(s, s.nodes[name].(providerId := id, version := s.nodes[name].version + 1));
  }

  lemma {:induction false} LabelMoves(s: Cluster, step: Step)
    requires NodesSound(s) && step.LabelNode? && Enabled(s, step)
    ensures NodesMove(s, Next(s, step)) && NodesSound(Next(s, step))
  {
    hide Build, NamesAnother, IsPending, NodesMove, Owned;
    assert NodeSound(s, step.name);
    WithNodeSound(s, s.nodes[step.name].(pool := step.pool, sku := step.sku, version := s.nodes[step.name].version + 1));
  }

  lemma {:induction false} ChangeMoves(s: Cluster, step: Step)
    requires NodesSound(s) && step.ChangeNode? && Enabled(s, step)
    ensures NodesMove(s, Next(s, step)) && NodesSound(Next(s, step))
  {
    hide Build, NamesAnother, IsPending, NodesMove, Owned;
    assert NodeSound(s, step.name);
    WithNodeSound(s, s.nodes[step.name].(deleting := step.deleting, ready := step.ready, registered := step.registered,
                                         version := s.nodes[step.name].version + 1));
  }

  // ---------- Base is kept ----------

  lemma {:induction false} ClaimsMoveKeepsBase(s: Cluster, after: Cluster)
    requires Base(s) && ClaimsMove(s, after)
    ensures Base(after)
  {
    assert forall name :: name in s.log ==> (NodeSound(s, name) <==> NodeSound(after, name));
    assert NodesSound(after);
    assert forall id :: Owned(s, id) <==> Owned(after, id);
    forall uid | uid in after.claims ensures ClaimSound(after, uid) {
      if uid in s.claims { assert ClaimSound(s, uid); }
    }
    assert forall uid :: uid in after.claims && uid !in s.claims ==> after.claims[uid].adoptedId == "";
    assert AdoptedOnce(after);
    ClaimsMoveKeepsAdopter(s, after);
    assert BinderBase(after);
  }

  lemma {:induction false} ClaimsMoveKeepsAdopter(s: Cluster, after: Cluster)
    requires AdopterBase(s) && ClaimsMove(s, after)
    ensures AdopterBase(after)
  {
    forall uid | uid in after.claims && after.claims[uid].adoptedId != "" ensures uid in s.claims && s.claims[uid].adoptedId == after.claims[uid].adoptedId {
    }
    assert forall nodes :: Snapshot(s, nodes) ==> Snapshot(after, nodes);
  }

  lemma {:induction false} SeenStays(s: Cluster, after: Cluster, node: Node)
    requires NodesMove(s, after) && Seen(s, node)
    ensures Seen(after, node)
  {
    assert SameMachine(s.log[node.name], after.log[node.name]);
  }

  lemma {:induction false} SnapshotStays(s: Cluster, after: Cluster, nodes: seq<Node>)
    requires NodesMove(s, after) && Snapshot(s, nodes)
    ensures Snapshot(after, nodes)
  {
    forall i | 0 <= i < |nodes| ensures Seen(after, nodes[i]) {
      SeenStays(s, after, nodes[i]);
    }
  }

  lemma {:induction false} OwnedStays(s: Cluster, after: Cluster, id: string)
    requires NodesMove(s, after) && Owned(s, id) && id != ""
    ensures Owned(after, id)
  {
    var name :| name in s.log && s.log[name].providerId == id;
    assert SameMachine(s.log[name], after.log[name]);
  }

  lemma {:induction false} NodesMoveKeepsClaims(s: Cluster, after: Cluster)
    requires ClaimsSound(s) && NodesMove(s, after)
    ensures ClaimsSound(after)
  {
    forall uid | uid in after.claims ensures ClaimSound(after, uid) {
      assert ClaimSound(s, uid);
      var claim := s.claims[uid];
      if claim.adoptedId != "" { OwnedStays(s, after, claim.adoptedId); }
      if IsReal(claim.providerId) { OwnedStays(s, after, claim.providerId); }
    }
  }

  lemma {:induction false} NodesMoveKeepsAdopter(s: Cluster, after: Cluster)
    requires AdopterBase(s) && NodesMove(s, after)
    ensures AdopterBase(after)
  {
    if !s.adopter.AdopterIdle? { SnapshotStays(s, after, s.adopter.nodes); }
    if s.adopter.AdopterCreating? {
      assert SameMachine(s.log[s.adopter.node.name], after.log[s.adopter.node.name]);
    }
    assert forall id :: Annotated(after, id) ==> Annotated(s, id);
  }

  lemma {:induction false} NodesMoveKeepsBase(s: Cluster, after: Cluster)
    requires Base(s) && NodesMove(s, after) && NodesSound(after)
    ensures Base(after)
  {
    NodesMoveKeepsClaims(s, after);
    NodesMoveKeepsAdopter(s, after);
    if s.binder.BinderChose? { OwnedStays(s, after, s.binder.id); }
  }

  // ---------- the controllers' own steps ----------

  /** Every ID a node carries names a machine. */
  lemma {:induction false} NodeIdsAreReal(s: Cluster, name: string)
    requires NodesSound(s) && name in s.log && s.log[name].providerId != ""
    ensures IsReal(s.log[name].providerId)
  {
    assert NodeSound(s, name);
  }

  /** A choice names a node, present or gone, that fits the claim. */
  lemma {:induction false} ChoiceFits(s: Cluster, nodes: seq<Node>)
    requires NodesSound(s) && BinderBase(s) && Enabled(s, BindChoose(nodes))
    requires FirstMatch(s.binder.claim, nodes, s.binder.used) != ""
    ensures var id := FirstMatch(s.binder.claim, nodes, s.binder.used);
            && IsReal(id) && id !in s.binder.used
            && exists name :: name in s.log && s.log[name].providerId == id && Fits(s.binder.claim, s.log[name])
  {
    var id := FirstMatch(s.binder.claim, nodes, s.binder.used);
    FirstMatchIsFirst(s.binder.claim, nodes, s.binder.used);
    var i :| ChosenAt(s.binder.claim, nodes, s.binder.used, i) && nodes[i].providerId == id;
    assert Seen(s, nodes[i]);
    NodeIdsAreReal(s, nodes[i].name);
    assert Fits(s.binder.claim, s.log[nodes[i].name]);
  }

  /** With the same objects, only the controllers' own invariants are left to show. */
  lemma {:induction false} SameObjects(s: Cluster, after: Cluster)
    requires NodesSound(s) && ClaimsSound(s) && AdoptedOnce(s)
    requires after == s.(binder := after.binder, adopter := after.adopter, remover := after.remover)
    ensures NodesSound(after) && ClaimsSound(after) && AdoptedOnce(after)
    ensures forall nodes :: Snapshot(s, nodes) ==> Snapshot(after, nodes)
    ensures forall claim :: Known(s, claim) ==> Known(after, claim)
    ensures forall id :: Owned(s, id) ==> Owned(after, id)
    ensures forall nodes, claimed :: KnowsAnnotations(s, nodes, claimed) ==> KnowsAnnotations(after, nodes, claimed)
  {
    assert forall name :: name in s.log ==> (NodeSound(s, name) <==> NodeSound(after, name));
    assert forall uid :: uid in s.claims ==> (ClaimSound(s, uid) <==> ClaimSound(after, uid));
  }

  lemma {:induction false} BinderKeepsBase(s: Cluster, step: Step)
    requires Base(s) && Enabled(s, step)
    requires step.BindList? || step.BindChoose? || step.BindAbort? || step.DeleteList? || step.DeleteChoose? || step.DeleteEnd?
    ensures Base(Next(s, step))
  {
    hide NodesSound, ClaimsSound, Known, Snapshot, Owned, KnowsAnnotations;
    var after := Next(s, step);
    SameObjects(s, after);
    assert AdopterBase(after) by { SameAdopter(s, after); }
    if step.BindChoose? && FirstMatch(s.binder.claim, step.nodes, s.binder.used) != "" {
      ChosenIsOwned(s, step.nodes);
    }
  }

  lemma {:induction false} SameAdopter(s: Cluster, after: Cluster)
    requires AdopterBase(s) && after.adopter == s.adopter && after.log == s.log && after.claims == s.claims
    requires forall nodes :: Snapshot(s, nodes) ==> Snapshot(after, nodes)
    ensures AdopterBase(after)
  {
    hide Snapshot;
    assert s.adopter.AdopterCreating? ==> (Annotated(after, s.adopter.id) ==> Annotated(s, s.adopter.id));
  }

  lemma {:induction false} ChosenIsOwned(s: Cluster, nodes: seq<Node>)
    requires NodesSound(s) && BinderBase(s) && Enabled(s, BindChoose(nodes))
    requires FirstMatch(s.binder.claim, nodes, s.binder.used) != ""
    ensures var id := FirstMatch(s.binder.claim, nodes, s.binder.used); IsReal(id) && Owned(s, id)
  {
    ChoiceFits(s, nodes);
  }

  /** A patch that goes through meets the claim as it was read: live, pending, not adopted. */
  lemma {:induction false} PatchedClaim(s: Cluster)
    requires ClaimsSound(s) && BinderBase(s) && s.binder.BinderChose?
    requires s.binder.claim.uid in s.claims && s.claims[s.binder.claim.uid].version == s.binder.claim.version
    ensures var claim := s.claims[s.binder.claim.uid];
            claim == s.binder.claim && IsLivePending(claim) && claim.adoptedId == ""
  {
    assert ClaimSound(s, s.binder.claim.uid);
  }

  lemma {:induction false} PatchKeepsBase(s: Cluster)
    requires Base(s) && s.binder.BinderChose?
    ensures Base(Bound(s))
  {
    var after := Bound(s);
    BaseParts(s);
    hide Base;
    assert NodesSound(after) by {
      assert forall name :: name in s.log ==> (NodeSound(s, name) <==> NodeSound(after, name));
    }
    hide NodesSound;
    PatchKeepsClaims(s);
    PatchKeepsAnnotations(s);
    hide ClaimsSound, Bound;
    SameAnnotations(s, after);
    PatchedIsIdle(s);
    BaseFrom(after);
  }

  lemma {:induction false} BaseFrom(s: Cluster)
    requires NodesSound(s) && ClaimsSound(s) && AdoptedOnce(s) && AdopterBase(s) && BinderBase(s)
    ensures Base(s)
  {
  }

  lemma {:induction false} PatchedIsIdle(s: Cluster)
    requires s.binder.BinderChose?
    ensures BinderBase(Bound(s))
  {
  }

  lemma {:induction false} PatchKeepsClaims(s: Cluster)
    requires ClaimsSound(s) && BinderBase(s) && s.binder.BinderChose?
    ensures ClaimsSound(Bound(s))
  {
    var after, uid := Bound(s), s.binder.claim.uid;
    if uid in s.claims && s.claims[uid].version == s.binder.claim.version { PatchedClaim(s); }
    assert forall id :: Owned(s, id) <==> Owned(after, id);
    hide Owned;
    forall u | u in after.claims ensures ClaimSound(after, u) {
      assert ClaimSound(s, u);
    }
  }

  /** The patch leaves every annotation as it is. */
  lemma {:induction false} PatchKeepsAnnotations(s: Cluster)
    requires ClaimsSound(s) && BinderBase(s) && s.binder.BinderChose?
    ensures var after := Bound(s);
            && after == s.(claims := after.claims, uids := after.uids, binder := after.binder, remover := after.remover)
            && (forall u :: u in after.claims <==> u in s.claims)
            && (forall u :: u in after.claims ==> after.claims[u].adoptedId == s.claims[u].adoptedId)
  {
    var uid := s.binder.claim.uid;
    if uid in s.claims && s.claims[uid].version == s.binder.claim.version {
      PatchedClaim(s);
      assert ClaimSound(s, uid);
    }
  }

  lemma {:induction false} SameAnnotations(s: Cluster, after: Cluster)
    requires AdoptedOnce(s) && AdopterBase(s)
    requires after == s.(claims := after.claims, uids := after.uids, binder := after.binder, remover := after.remover)
    requires forall u :: u in after.claims <==> u in s.claims
    requires forall u :: u in after.claims ==> after.claims[u].adoptedId == s.claims[u].adoptedId
    ensures AdoptedOnce(after) && AdopterBase(after)
  {
    assert forall nodes :: Snapshot(s, nodes) ==> Snapshot(after, nodes);
    assert forall nodes, claimed :: KnowsAnnotations(s, nodes, claimed) ==> KnowsAnnotations(after, nodes, claimed);
    assert forall id :: Annotated(after, id) ==> Annotated(s, id);
    hide Snapshot, KnowsAnnotations, Annotated;
  }

  lemma {:induction false} ListKnowsAnnotations(s: Cluster, list: seq<Claim>)
    requires Lists(s, list)
    ensures forall nodes :: KnowsAnnotations(s, nodes, ClaimedIds(list))
  {
    forall uid | uid in s.claims && s.claims[uid].adoptedId != "" ensures s.claims[uid].adoptedId in ClaimedIds(list) {
      assert s.claims[uid] in list;
      var i :| 0 <= i < |list| && list[i] == s.claims[uid];
    }
  }

  lemma {:induction false} AdopterKeepsBase(s: Cluster, step: Step)
    requires Base(s) && Enabled(s, step)
    requires step.AdoptBegin? || step.AdoptList? || step.AdoptSkip? || step.AdoptCreateFails? || step.AdoptEnd?
    ensures Base(Next(s, step))
  {
    hide NodesSound, ClaimsSound, Known, Snapshot, Owned, KnowsAnnotations;
    var after := Next(s, step);
    SameObjects(s, after);
    if step.AdoptList? { ListKnowsAnnotations(s, step.list); }
    if step.AdoptSkip? {
      RestOfSnapshot(s, s.adopter.nodes);
      RestIsKnown(s, s.adopter.nodes, s.adopter.claimed);
    }
  }

  lemma {:induction false} RestIsKnown(s: Cluster, nodes: seq<Node>, claimed: set<string>)
    requires KnowsAnnotations(s, nodes, claimed) && nodes != []
    ensures KnowsAnnotations(s, nodes[1..], claimed)
  {
    assert forall i :: 0 <= i < |nodes[1..]| ==> nodes[1..][i] == nodes[i + 1];
  }

  lemma {:induction false} RestOfSnapshot(s: Cluster, nodes: seq<Node>)
    requires Snapshot(s, nodes) && nodes != []
    ensures Snapshot(s, nodes[1..]) && forall i :: 0 <= i < |nodes| - 1 ==> nodes[1..][i].name != nodes[0].name
  {
  }

  /** A node that passed the checks and whose patch fits gets, or has, an ID no annotation carries. */
  lemma {:induction false} PreparedNodeIsFree(s: Cluster)
    requires Base(s) && Enabled(s, AdoptPrepare) && PatchFits(s, s.adopter.nodes[0])
    ensures var node := Prepared(s.adopter.nodes[0]);
            && node.providerId == ResolvedId(s.adopter.nodes[0]) != "" && node.sku == s.adopter.nodes[0].sku != ""
            && !Annotated(s, node.providerId)
            && (if node == s.adopter.nodes[0] then node.name in s.log && s.log[node.name].providerId == node.providerId
                                                   && s.log[node.name].pool == node.pool && s.log[node.name].sku == node.sku
                else Settable(s, node))
            && (s.adopter.nodes[0].providerId == "" ==> !Owned(s, node.providerId))
  {
    hide Build, NamesAnother, IsPending;
    var seen := s.adopter.nodes[0];
    assert Seen(s, seen);
    if seen.providerId == "" {
      assert seen == s.log[seen.name];
      assert NodeSound(s, seen.name);
      BuiltIsNew(s, seen);
      BuiltIsOwn(seen);
      assert Annotated(s, ResolvedId(seen)) ==> Owned(s, ResolvedId(seen)) by { AnnotatedIsOwned(s, ResolvedId(seen)); }
    } else {
      assert NodeSound(s, seen.name);
    }
  }

  lemma {:induction false} BuiltIsNew(s: Cluster, node: Node)
    requires NodesSound(s) && PlainLabels(node) && node.name in s.log && s.log[node.name].providerId == ""
    requires Build(node.pool, node.sku, node.name) != ""
    ensures !Owned(s, Build(node.pool, node.sku, node.name))
  {
    BuiltIsOwn(node);
    hide Build, NamesAnother, IsPending;
    forall name | name in s.log ensures s.log[name].providerId != Build(node.pool, node.sku, node.name) {
      assert NodeSound(s, name);
      if name != node.name { EntitledIsNotAnothers(node, name, s.log[name].providerId); }
    }
  }

  lemma {:induction false} EntitledIsNotAnothers(node: Node, name: string, id: string)
    requires PlainLabels(node) && name != node.name && !NamesAnother(id, name)
    ensures Build(node.pool, node.sku, node.name) != "" ==> id != Build(node.pool, node.sku, node.name)
  {
  }

  lemma {:induction false} AnnotatedIsOwned(s: Cluster, id: string)
    requires ClaimsSound(s) && id != ""
    ensures Annotated(s, id) ==> Owned(s, id)
  {
    if Annotated(s, id) {
      var uid :| uid in s.claims && s.claims[uid].adoptedId == id;
      assert ClaimSound(s, uid);
    }
  }

  /** The adopter about to create a claim, after its patch. */
  lemma {:induction false} CreatingIsBase(s: Cluster, after: Cluster, seen: Node, rest: seq<Node>)
    requires Base(s) && s.adopter.AdopterWorking? && s.adopter.nodes == [seen] + rest
    requires after == s.(adopter := AdopterCreating(s.adopter.pool, rest, s.adopter.claimed, s.adopter.pending, Prepared(seen), ResolvedId(seen)))
    requires ResolvedId(seen) != "" && !Annotated(s, ResolvedId(seen))
    requires seen.name in s.log && s.log[seen.name].providerId == ResolvedId(seen) && seen.sku != ""
    ensures Base(after)
  {
    hide NodesSound, ClaimsSound, Known, Owned, KnowsAnnotations;
    NodeIdsAreReal(s, seen.name);
    var nodes := s.adopter.nodes;
    assert nodes[0] == seen && nodes[1..] == rest;
    RestOfSnapshot(s, nodes);
    RestIsKnown(s, nodes, s.adopter.claimed);
    assert Seen(s, nodes[0]);
    SameObjects(s, after);
    assert Annotated(after, ResolvedId(seen)) ==> Annotated(s, ResolvedId(seen));
  }

  lemma {:induction false} PrepareKeepsBase(s: Cluster)
    requires Base(s) && Enabled(s, AdoptPrepare)
    ensures Base(PreparedStep(s))
  {
    hide Eligible, Base, NodesMove, NodesSound, ClaimsSound, AdoptedOnce, AdopterBase, BinderBase, Settable;
    var a := s.adopter;
    var seen := a.nodes[0];
    if !PatchFits(s, seen) {
      AdopterKeepsBase(s, AdoptSkip);
    } else {
      PreparedNodeIsFree(s);
      assert a.nodes == [seen] + a.nodes[1..];
      if Prepared(seen) == seen {
        CreatingIsBase(s, PreparedStep(s), seen, a.nodes[1..]);
      } else {
        var mid := WithNode(s, Prepared(seen));
        BaseParts(s);
        WithNodeSound(s, Prepared(seen));
        NodesMoveKeepsBase(s, mid);
        CreatingIsBase(mid, PreparedStep(s), seen, a.nodes[1..]);
      }
    }
  }

  lemma {:induction false} BaseParts(s: Cluster)
    requires Base(s)
    ensures NodesSound(s) && ClaimsSound(s) && AdoptedOnce(s) && AdopterBase(s) && BinderBase(s)
  {
  }

  lemma {:induction false} CreateKeepsBase(s: Cluster, uid: string, nodeClass: string)
    requires Base(s) && Enabled(s, AdoptCreate(uid, nodeClass))
    ensures Base(Adopted(s, uid, nodeClass))
  {
    CreatedIsSound(s, uid, nodeClass);
    CreatedKeepsAdopter(s, uid, nodeClass);
    CreatedIsAlone(s, uid, nodeClass);
    hide Base, NodesSound, ClaimsSound, AdoptedOnce, AdopterBase, BinderBase, Adopted;
    BaseFrom(Adopted(s, uid, nodeClass));
  }

  lemma {:induction false} CreatedIsAlone(s: Cluster, uid: string, nodeClass: string)
    requires Base(s) && Enabled(s, AdoptCreate(uid, nodeClass))
    ensures var after := Adopted(s, uid, nodeClass); NodesSound(after) && AdoptedOnce(after) && BinderBase(after)
  {
    var after := Adopted(s, uid, nodeClass);
    assert NodesSound(after) by {
      assert forall name :: name in s.log ==> (NodeSound(s, name) <==> NodeSound(after, name));
    }
    hide NodesSound;
    forall u | u in s.claims ensures u in s.uids && u != uid {
      assert ClaimSound(s, u);
    }
    hide ClaimsSound, ClaimSound;
    assert forall u :: u in s.claims ==> s.claims[u].adoptedId != s.adopter.id;
  }

  lemma {:induction false} CreatedIsSound(s: Cluster, uid: string, nodeClass: string)
    requires Base(s) && Enabled(s, AdoptCreate(uid, nodeClass))
    ensures ClaimsSound(Adopted(s, uid, nodeClass))
  {
    hide NodesSound, AdoptedOnce, BinderBase;
    var after := Adopted(s, uid, nodeClass);
    assert Owned(s, s.adopter.id) && (forall i :: Owned(s, i) <==> Owned(after, i));
    hide Owned, IsReal;
    forall u | u in after.claims ensures ClaimSound(after, u) {
      if u != uid { assert ClaimSound(s, u); }
    }
  }

  lemma {:induction false} CreatedKeepsAdopter(s: Cluster, uid: string, nodeClass: string)
    requires Base(s) && Enabled(s, AdoptCreate(uid, nodeClass))
    ensures AdopterBase(Adopted(s, uid, nodeClass))
  {
    hide NodesSound, AdoptedOnce, BinderBase, ClaimsSound;
    var after := Adopted(s, uid, nodeClass);
    assert forall node :: Seen(s, node) ==> Seen(after, node);
    assert KnowsAnnotations(after, after.adopter.nodes, after.adopter.claimed);
  }

  /** The claim nobody heard of names a node the pass will not look at again. */
  lemma {:induction false} UnheardKeepsBase(s: Cluster, uid: string, nodeClass: string)
    requires Base(s) && Enabled(s, AdoptCreateUnheard(uid, nodeClass))
    ensures Base(AdoptedUnheard(s, uid, nodeClass))
  {
    hide Base, NodesSound, ClaimsSound, AdoptedOnce, AdopterBase, BinderBase, Adopted;
    CreateKeepsBase(s, uid, nodeClass);
    BaseParts(s);
    BaseParts(Adopted(s, uid, nodeClass));
    RestIsNotTaken(s);
    UnheardIsKnown(s, uid, nodeClass);
    OtherAdopter(Adopted(s, uid, nodeClass), AdoptedUnheard(s, uid, nodeClass));
    BaseFrom(AdoptedUnheard(s, uid, nodeClass));
  }

  lemma {:induction false} OtherAdopter(s: Cluster, after: Cluster)
    requires NodesSound(s) && ClaimsSound(s) && AdoptedOnce(s) && BinderBase(s) && after == s.(adopter := after.adopter)
    ensures NodesSound(after) && ClaimsSound(after) && AdoptedOnce(after) && BinderBase(after)
  {
    SameObjects(s, after);
    hide NodesSound, ClaimsSound, AdoptedOnce, Known, Owned;
  }

  lemma {:induction false} RestIsNotTaken(s: Cluster)
    requires Base(s) && s.adopter.AdopterCreating?
    ensures forall i :: 0 <= i < |s.adopter.nodes| ==> s.adopter.nodes[i].providerId != s.adopter.id
  {
    forall i | 0 <= i < |s.adopter.nodes| ensures s.adopter.nodes[i].providerId != s.adopter.id {
      assert Seen(s, s.adopter.nodes[i]);
    }
  }

  lemma {:induction false} UnheardIsKnown(s: Cluster, uid: string, nodeClass: string)
    requires AdopterBase(s) && s.adopter.AdopterCreating? && AdopterBase(Adopted(s, uid, nodeClass))
    requires forall i :: 0 <= i < |s.adopter.nodes| ==> s.adopter.nodes[i].providerId != s.adopter.id
    ensures AdopterBase(AdoptedUnheard(s, uid, nodeClass))
  {
    assert forall node :: Seen(s, node) ==> Seen(AdoptedUnheard(s, uid, nodeClass), node);
    var after := AdoptedUnheard(s, uid, nodeClass);
    assert KnowsAnnotations(after, s.adopter.nodes, s.adopter.claimed);
  }

  lemma {:induction false} StepKeepsBase(s: Cluster, step: Step)
    requires Base(s) && Enabled(s, step)
    ensures Base(Next(s, step))
  {
    hide Base, Enabled, ClaimsMove, NodesMove, NodesSound;
    if Surroundings(step) {
      BaseParts(s);
      SurroundingsMove(s, step);
      if ClaimsMove(s, Next(s, step)) { ClaimsMoveKeepsBase(s, Next(s, step)); } else { NodesMoveKeepsBase(s, Next(s, step)); }
    } else {
      ControllerKeepsBase(s, step);
    }
  }

  lemma {:induction false} ControllerKeepsBase(s: Cluster, step: Step)
    requires Base(s) && Enabled(s, step) && !Surroundings(step)
    ensures Base(Next(s, step))
  {
    hide Base;
    match step
    case BindPatch => PatchKeepsBase(s);
    case AdoptPrepare => PrepareKeepsBase(s);
    case AdoptCreate(uid, nodeClass) => CreateKeepsBase(s, uid, nodeClass);
    case AdoptCreateUnheard(uid, nodeClass) => UnheardKeepsBase(s, uid, nodeClass);
    case DeleteList(_, _) => BinderKeepsBase(s, step);
    case DeleteChoose(_) => BinderKeepsBase(s, step);
    case DeleteEnd => BinderKeepsBase(s, step);
    case BindList(_, _) => BinderKeepsBase(s, step);
    case BindChoose(_) => BinderKeepsBase(s, step);
    case BindAbort => BinderKeepsBase(s, step);
    case _ => AdopterKeepsBase(s, step);
  }

  /**
    Over any run, with node lists as stale as can be, no node is adopted twice,
    and no node's ID ever changes once it is set.
   */
  lemma {:induction false} NoNodeIsAdoptedTwice(start: int, steps: seq<Step>)
    requires Legal(Empty(start), steps)
    ensures var s := Run(Empty(start), steps);
            forall a, b :: a in s.claims && b in s.claims && a != b && s.claims[a].adoptedId != "" ==> s.claims[a].adoptedId != s.claims[b].adoptedId
  {
    RunKeepsBase(Empty(start), steps);
  }

  lemma {:induction false} RunKeepsBase(s: Cluster, steps: seq<Step>)
    requires Base(s) && Legal(s, steps)
    ensures Base(Run(s, steps))
    decreases |steps|
  {
    if steps != [] {
      StepKeepsBase(s, steps[0]);
      RunKeepsBase(Next(s, steps[0]), steps[1..]);
    }
  }

  lemma {:induction false} NodeIdsNeverChange(start: int, steps: seq<Step>, step: Step, name: string)
    requires Legal(Empty(start), steps) && Enabled(Run(Empty(start), steps), step)
    requires var s := Run(Empty(start), steps); name in s.log && s.log[name].providerId != ""
    ensures var s, after := Run(Empty(start), steps), Next(Run(Empty(start), steps), step);
            name in after.log && after.log[name].providerId == s.log[name].providerId
  {
    RunKeepsBase(Empty(start), steps);
    StepKeepsIds(Run(Empty(start), steps), step, name);
  }

  lemma {:induction false} StepKeepsIds(s: Cluster, step: Step, name: string)
    requires Base(s) && Enabled(s, step) && name in s.log && s.log[name].providerId != ""
    ensures name in Next(s, step).log && Next(s, step).log[name].providerId == s.log[name].providerId
  {
    if Surroundings(step) {
      hide Enabled;
      SurroundingsMove(s, step);
      if NodesMove(s, Next(s, step)) { assert SameMachine(s.log[name], Next(s, step).log[name]); }
    } else if step.AdoptPrepare? {
      PrepareKeepsIds(s, name);
    } else {
      ControllersLeaveNodes(s, step);
    }
  }

  lemma {:induction false} ControllersLeaveNodes(s: Cluster, step: Step)
    requires Enabled(s, step) && !Surroundings(step) && !step.AdoptPrepare?
    ensures Next(s, step).log == s.log
  {
    hide Snapshot, Lists, Eligible;
  }

  lemma {:induction false} PrepareKeepsIds(s: Cluster, name: string)
    requires Base(s) && Enabled(s, AdoptPrepare) && name in s.log && s.log[name].providerId != ""
    ensures name in PreparedStep(s).log && PreparedStep(s).log[name].providerId == s.log[name].providerId
  {
    hide Eligible;
    if PatchFits(s, s.adopter.nodes[0]) { PreparedNodeIsFree(s); }
  }
}
