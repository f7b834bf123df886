/**
  The batcher with its clients: NodeClaims, Create, Delete, the failure handler
  and the resume at start-up, through crashes. The claims live on; everything in
  the batcher is lost.
 */
module Fleet {
  import opened BatchTypes
  import opened ProviderIds
  import opened NodeMatching
  import L = Ledger
  import B = Batcher
  import R = BatcherRuns
  import P = Provenance
  import W = WaitLine

  const REMOVE_SUFFIX := "-remove"

  function RemoveId(uid: string): string {
    uid + REMOVE_SUFFIX
  }

  predicate HasSuffix(s: string, suffix: string) {
    |suffix| <= |s| && s[|s| - |suffix|..] == suffix
  }

  /** What the API server hands out as a UID; none ends in "-remove". */
  predicate Uid(uid: string) {
    uid != "" && Trim(uid) == uid && !HasSuffix(uid, REMOVE_SUFFIX)
  }

  // ---------- the clients' decisions ----------

  datatype Launch = Adopts(providerId: string) | Asks(item: Item)

  /** Create: an adopted claim is never sent to the broker. */
  function CreateOutcome(claim: Claim, sku: string): Launch {
    if claim.adoptedId != "" then Adopts(claim.adoptedId) else Asks(Item(claim.uid, Add, AddNodes(sku, claim.pool)))
  }

  /** Delete's first look: whether it answers not-found at once. */
  predicate AnswersGone(book: L.Book, claim: Claim) {
    claim.providerId == "" || RemoveId(claim.uid) in book.succeeded
  }

  datatype Removal = Unprovisioned | Awaits(item: Item)

  /** The rest of Delete: `found` is the node the search picked for a pending claim, "" if none. */
  function DeleteOutcome(claim: Claim, found: string): Removal {
    if IsPending(claim.providerId) && found == "" then Unprovisioned
    else Awaits(Item(RemoveId(claim.uid), Remove,
                     RemoveNodes(claim.instanceType, claim.pool, if IsPending(claim.providerId) then found else claim.providerId)))
  }

  /** The claim a failure report makes the handler delete. */
  predicate Undoes(claim: Claim, report: Report) {
    report.kind == Add && claim.uid == report.op && (claim.providerId == "" || IsPending(claim.providerId)) && !claim.deleting
  }

  /** A claim whose add must be polled for: pending, live, and annotated with its batch. */
  predicate Awaited(claim: Claim) {
    !claim.deleting && IsPending(claim.providerId) && Trim(claim.batchId) != ""
  }

  function AddTo(groups: map<string, seq<string>>, claim: Claim): map<string, seq<string>> {
    if !Awaited(claim) then groups
    else
      var id := Trim(claim.batchId);
      groups[id := (if id in groups then groups[id] else []) + [claim.uid]]
  }

  /** The awaited claims by batch, each group in list order. */
  function Grouped(list: seq<Claim>): map<string, seq<string>> {
    if list == [] then map[] else AddTo(Grouped(list[..|list| - 1]), list[|list| - 1])
  }

  // ---------- the state ----------

  datatype StartUp = Waiting | Resuming(groups: map<string, seq<string>>) | Unlisted | Done

  /**
    `born` remembers every claim's adoption annotation, `batchIds` every batch ID
    the broker gave out, `undone` every claim the failure handler deleted. `deletes`
    are the claims for which some Delete has had its first look and goes on.
   */
  datatype Fleet = Fleet(
    sys: B.Sys,
    claims: map<string, Claim>,
    born: map<string, string>,
    batchIds: set<string>,
    startUp: StartUp,
    calls: map<W.Chan, string>,
    deletes: set<Claim>,
    handler: Option<string>,
    undone: set<string>)

  function Begin(now: int): Fleet {
    Fleet(B.Init(now), map[], map[], {}, Waiting, map[], {}, None, {})
  }

  datatype Step =
    | Inner(step: B.Step)
    | NewClaim(claim: Claim)
    | CreateCall(seen: Claim, sku: string)
    | CreateReturns(ch: W.Chan)
    | LaunchAdopted(uid: string)
    | BindClaim(uid: string, id: string)
    | MarkDeleting(uid: string)
    | RemoveClaim(uid: string)
    | DeleteLook(seen: Claim)
    | DeleteCall(seen: Claim, claims: Option<seq<Claim>>, nodes: Option<seq<Node>>)
    | ReportTo(listed: bool)
    | HandlerDeletes(done: bool)
    | StartLists(list: seq<Claim>)
    | StartFails
    | StartResumes(id: string)
    | StartEnds
    | Crash

  predicate ListOf(f: Fleet, list: seq<Claim>) {
    && (forall i :: 0 <= i < |list| ==> list[i].uid in f.claims && f.claims[list[i].uid] == list[i])
    && (forall uid :: uid in f.claims ==> f.claims[uid] in list)
  }

  /** Steps of the batcher that are not somebody's call. */
  predicate OwnStep(step: B.Step) {
    !step.CallIn? && !step.ResumeBatch? && !step.ReportOne?
  }

  /** The broker never gives a batch ID twice. */
  predicate FreshBatch(f: Fleet, step: B.Step) {
    step.SendAcks? ==> step.batchId !in f.batchIds && Trim(step.batchId) !in f.batchIds
  }

  /** A caller's copy of a claim may be stale, but its UID and its annotation never change. */
  predicate SeenClaim(f: Fleet, claim: Claim) {
    claim.uid in f.born && claim.adoptedId == f.born[claim.uid]
  }

  predicate Enabled(f: Fleet, step: Step) {
    match step
    case Inner(inner) => OwnStep(inner) && B.Enabled(f.sys, inner) && FreshBatch(f, inner) && (f.handler.Some? ==> !inner.EndPass? && !inner.LookAt?)
    case NewClaim(claim) =>
      && Uid(claim.uid) && claim.uid !in f.born && claim.providerId == "" && claim.batchId == "" && !claim.deleting
      && (claim.adoptedId == "" || IsReal(claim.adoptedId))
    case CreateCall(seen, _) => SeenClaim(f, seen)
    case CreateReturns(ch) => HasReturned(f, ch)
    case LaunchAdopted(uid) => uid in f.claims && f.claims[uid].adoptedId != "" && f.claims[uid].providerId == ""
    case BindClaim(uid, id) => uid in f.claims && IsPending(f.claims[uid].providerId) && IsReal(id)
    case MarkDeleting(uid) => uid in f.claims
    case RemoveClaim(uid) => uid in f.claims
    case DeleteLook(seen) => SeenClaim(f, seen)
    case DeleteCall(seen, _, _) => seen in f.deletes
    case ReportTo(_) => f.handler.None? && f.sys.poller.owed != []
    case HandlerDeletes(_) => f.handler.Some?
    case StartLists(list) => f.startUp.Waiting? && ListOf(f, list)
    case StartFails => f.startUp.Waiting?
    case StartResumes(id) => f.startUp.Resuming? && id in f.startUp.groups
    case StartEnds => f.startUp.Resuming? && f.startUp.groups == map[]
    case Crash => true
  }

  function WithClaim(f: Fleet, claim: Claim): Fleet {
    f.(claims := f.claims[claim.uid := claim])
  }

  /** A call into the batcher; its channel is the next one. */
  function Called(f: Fleet, item: Item): Fleet {
    f.(sys := B.Next(f.sys, B.CallIn(item)))
  }

  /** What the launch writes once Create has its acknowledgement. */
  function Launched(claim: Claim, batchId: string): Claim {
    claim.(providerId := PendingId(claim.uid), batchId := if batchId == "" then claim.batchId else batchId)
  }

  predicate HasReturned(f: Fleet, ch: W.Chan) {
    ch in f.calls && ch in f.sys.line.writes && f.sys.line.writes[ch] != []
  }

  function Returned(f: Fleet, ch: W.Chan): Fleet
    requires HasReturned(f, ch)
  {
    var uid, result := f.calls[ch], f.sys.line.writes[ch][0];
    var over := f.(calls := f.calls - {ch});
    if result.Acked? && uid in f.claims && f.claims[uid].providerId == "" then WithClaim(over, Launched(f.claims[uid], result.batchId)) else over
  }

  function Reported(f: Fleet, listed: bool): Fleet
    requires f.sys.poller.owed != []
  {
    var report := f.sys.poller.owed[0];
    var undo := listed && report.op in f.claims && Undoes(f.claims[report.op], report);
    f.(sys := B.Next(f.sys, B.ReportOne), handler := if undo then Some(report.op) else None)
  }

  function AfterInner(f: Fleet, inner: B.Step): Fleet
    requires B.Enabled(f.sys, inner)
  {
    f.(sys := B.Next(f.sys, inner), batchIds := if inner.SendAcks? then f.batchIds + {inner.batchId, Trim(inner.batchId)} else f.batchIds)
  }

  function AfterCreate(f: Fleet, seen: Claim, sku: string): Fleet {
    var outcome := CreateOutcome(seen, sku);
    if outcome.Adopts? then f else Called(f, outcome.item).(calls := f.calls[f.sys.line.next := seen.uid])
  }

  /** The first look decides whether the call goes on; a success recorded later does not stop it. */
  function AfterLook(f: Fleet, seen: Claim): Fleet {
    if AnswersGone(f.sys.book, seen) then f else f.(deletes := f.deletes + {seen})
  }

  function AfterDelete(f: Fleet, seen: Claim, found: string): Fleet {
    var outcome := DeleteOutcome(seen, found);
    if outcome.Awaits? then Called(f, outcome.item) else f
  }

  function AfterHandler(f: Fleet, done: bool): Fleet
    requires f.handler.Some?
  {
    var uid, over := f.handler.value, f.(handler := None);
    if done && uid in f.claims then WithClaim(over, f.claims[uid].(deleting := true)).(undone := f.undone + {uid}) else over
  }

  function AfterResume(f: Fleet, id: string): Fleet
    requires f.startUp.Resuming? && id in f.startUp.groups
  {
    f.(sys := B.Next(f.sys, B.ResumeBatch(id, f.startUp.groups[id])), startUp := Resuming(f.startUp.groups - {id}))
  }

  function Crashed(f: Fleet): Fleet {
    f.(sys := B.Init(f.sys.now), startUp := Waiting, calls := map[], deletes := {}, handler := None)
  }

  function Next(f: Fleet, step: Step): Fleet
    requires Enabled(f, step)
  {
    match step
    case Inner(inner) => AfterInner(f, inner)
    case NewClaim(claim) => WithClaim(f, claim).(born := f.born[claim.uid := claim.adoptedId])
    case CreateCall(seen, sku) => AfterCreate(f, seen, sku)
    case CreateReturns(ch) => Returned(f, ch)
    case LaunchAdopted(uid) => WithClaim(f, f.claims[uid].(providerId := f.claims[uid].adoptedId))
    case BindClaim(uid, id) => WithClaim(f, f.claims[uid].(providerId := id))
    case MarkDeleting(uid) => WithClaim(f, f.claims[uid].(deleting := true))
    case RemoveClaim(uid) => f.(claims := f.claims - {uid})
    case DeleteLook(seen) => AfterLook(f, seen)
    case DeleteCall(seen, claims, nodes) => AfterDelete(f, seen, Found(seen, claims, nodes))
    case ReportTo(listed) => Reported(f, listed)
    case HandlerDeletes(done) => AfterHandler(f, done)
    case StartLists(list) => f.(startUp := Resuming(Grouped(list)))
    case StartFails => f.(startUp := Unlisted)
    case StartResumes(id) => AfterResume(f, id)
    case StartEnds => f.(startUp := Done)
    case Crash => Crashed(f)
  }

  predicate Legal(f: Fleet, steps: seq<Step>)
    decreases |steps|
  {
    steps == [] || (Enabled(f, steps[0]) && Legal(Next(f, steps[0]), steps[1..]))
  }

  function Run(f: Fleet, steps: seq<Step>): Fleet
    requires Legal(f, steps)
    decreases |steps|
  {
    if steps == [] then f else Run(Next(f, steps[0]), steps[1..])
  }

  // ---------- what the batcher was asked ----------

  /** Adds for claims that were not adopted, and removes for any claim. */
  function OpsFor(born: map<string, string>): set<Tag> {
    (set uid | uid in born && born[uid] == "" :: (uid, Add)) + (set uid | uid in born :: (RemoveId(uid), Remove))
  }

  ghost predicate ClaimsOk(f: Fleet) {
    && (forall uid :: uid in f.born ==> Uid(uid))
    && (forall uid :: uid in f.claims ==> ClaimOk(f, uid))
  }

  predicate ClaimOk(f: Fleet, uid: string)
    requires uid in f.claims
  {
    var claim := f.claims[uid];
    && claim.uid == uid && uid in f.born && claim.adoptedId == f.born[uid]
    && (claim.adoptedId != "" ==> !IsPending(claim.adoptedId) && (claim.providerId == "" || claim.providerId == claim.adoptedId))
    && (claim.providerId == "" ==> claim.batchId == "")
    && (claim.batchId != "" ==> Trim(claim.batchId) in f.batchIds)
  }

  /** The calls Create waits on are about claims that were not adopted. */
  ghost predicate CallsOk(f: Fleet) {
    forall ch :: ch in f.calls ==>
      && f.calls[ch] in f.born && f.born[f.calls[ch]] == ""
      && ch in f.sys.line.place && f.sys.line.place[ch].Op() == f.calls[ch]
  }

  ghost predicate LogOk(f: Fleet) {
    forall e :: e in f.sys.log && e.Entered? ==> Trim(e.batchId) in f.batchIds
  }

  predicate Unadopted(f: Fleet, uid: string) {
    uid in f.born && f.born[uid] == ""
  }

  ghost predicate HandlerOk(f: Fleet) {
    && (f.handler.Some? ==> Unadopted(f, f.handler.value))
    && (forall uid :: uid in f.undone ==> Unadopted(f, uid))
  }

  ghost predicate DeletesOk(f: Fleet) {
    forall seen :: seen in f.deletes ==> SeenClaim(f, seen)
  }

  /** What holds in every state, the resume apart. */
  ghost predicate Sane(f: Fleet) {
    R.Inv(f.sys) && P.Asked(f.sys, OpsFor(f.born)) && ClaimsOk(f) && CallsOk(f) && LogOk(f) && HandlerOk(f) && DeletesOk(f)
  }

  /** This process took on the add, by sending or by resuming it. */
  ghost predicate AddLogged(f: Fleet, uid: string) {
    exists id :: L.Entered(uid, Add, id) in f.sys.log
  }

  /** Every awaited add is in this process's log, or still to be resumed by it. */
  ghost predicate Covered(f: Fleet) {
    forall uid :: uid in f.claims && Awaited(f.claims[uid]) ==> CoveredClaim(f, uid)
  }

  ghost predicate CoveredClaim(f: Fleet, uid: string)
    requires uid in f.claims
  {
    match f.startUp
    case Waiting => true
    case Unlisted => true
    case Resuming(groups) => AddLogged(f, uid) || (var id := Trim(f.claims[uid].batchId); id in groups && uid in groups[id])
    case Done => AddLogged(f, uid)
  }

  /** A tracked batch is this process's own: the claims annotated with it are in its log. */
  ghost predicate TrackedAreOwn(f: Fleet) {
    forall uid :: uid in f.claims && Awaited(f.claims[uid]) && Trim(f.claims[uid].batchId) in f.sys.book.inProgress ==> AddLogged(f, uid)
  }

  predicate GroupsOk(f: Fleet) {
    f.startUp.Resuming? ==>
      forall id :: id in f.startUp.groups ==>
        && id != "" && Trim(id) == id && id in f.batchIds && f.startUp.groups[id] != []
        && forall uid :: uid in f.startUp.groups[id] ==> Unadopted(f, uid)
  }

  ghost predicate Good(f: Fleet) {
    Sane(f) && Covered(f) && TrackedAreOwn(f) && GroupsOk(f)
  }
}
