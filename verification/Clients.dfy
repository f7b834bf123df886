/** The batcher's clients as they are written: Create, Delete, the failure handler, and the resume at start-up. */
module Clients {
  import opened BatchTypes
  import opened ProviderIds
  import opened NodeMatching
  import opened Fleet
  import opened ResumeGroups
  import L = Ledger
  import B = Batcher
  import W = WaitLine
  import opened NodeBatcher
  import opened BatchRegistry

  /** How far a call gets before it blocks on its channel; a cancelled one asks the broker to drop the add and answers not-found. */
  datatype Begun = NoFit | Launches(providerId: string) | NotFound | Cancelled | Blocked(ch: W.Chan)

  class CloudProvider {
    const batcher: NodeBatcher

    ghost predicate Valid()
      reads this, batcher, batcher.registry, batcher.registry.parts, batcher.room
    {
      batcher.Valid()
    }

    constructor (b: NodeBatcher)
      requires b.Valid()
      ensures Valid() && batcher == b
    {
      batcher := b;
    }

    /** Hand an operation to the batcher. */
    method Send(item: Item) returns (ch: W.Chan)
      requires Valid()
      modifies batcher.room
      ensures Valid() && batcher.registry.book == old(batcher.registry.book) && ch == old(batcher.room.line).next
      ensures batcher.room.line == Enqueued(old(batcher.room.line), batcher.registry.book, item)
    {
      ch := batcher.EnqueueItem(item);
    }

    /** Create up to its wait: `sku` is the instance type selected, None if none fits. */
    method Create(claim: Claim, sku: Option<string>) returns (begun: Begun)
      requires Valid()
      modifies batcher.room
      ensures Valid() && batcher.registry.book == old(batcher.registry.book)
      ensures sku.Some? && claim.adoptedId == "" ==>
                && begun == Blocked(old(batcher.room.line).next)
                && batcher.room.line == Enqueued(old(batcher.room.line), batcher.registry.book, Item(claim.uid, Kind.Add, AddNodes(sku.value, claim.pool)))
      ensures sku.None? || claim.adoptedId != "" ==>
                && batcher.room.line == old(batcher.room.line)
                && begun == if sku.None? then NoFit else Launches(claim.adoptedId)
    {
      if sku.None? { return NoFit; }
      if claim.adoptedId != "" { return Launches(claim.adoptedId); }
      hide Enqueued;
      var ch := Send(Item(claim.uid, Kind.Add, AddNodes(sku.value, claim.pool)));
      begun := Blocked(ch);
    }

    /** Delete's first look. */
    method LookGone(claim: Claim) returns (gone: bool)
      requires Valid()
      ensures gone <==> AnswersGone(batcher.registry.book, claim)
      ensures gone <==> claim.providerId == "" || claim.uid + "-remove" in batcher.registry.book.succeeded
    {
      if claim.providerId == "" { return true; }
      gone := batcher.registry.HasSucceeded(claim.uid + "-remove");
    }

    /** The rest of Delete up to its wait; a list that cannot be read counts as a node not found. */
    method RemoveNode(claim: Claim, claims: Option<seq<Claim>>, nodes: Option<seq<Node>>) returns (begun: Begun)
      requires Valid() && claim.uid != ""
      modifies batcher.room
      ensures Valid() && batcher.registry.book == old(batcher.registry.book)
      ensures begun == Cancelled || begun == Blocked(old(batcher.room.line).next)
      ensures begun == Cancelled <==> IsPending(claim.providerId) && (claims.None? || nodes.None? || NoneMayBe(claim, claims.value, nodes.value))
      ensures begun == Cancelled ==> batcher.room.line == old(batcher.room.line)
      ensures begun != Cancelled ==>
                exists id :: (IsNodeOf(claim, claims, nodes, id)
                              && batcher.room.line == Enqueued(old(batcher.room.line), batcher.registry.book,
                                                               Item(claim.uid + "-remove", Kind.Remove, RemoveNodes(claim.instanceType, claim.pool, id))))
    {
      hide Enqueued, Found, IsPending;
      var id := claim.providerId;
      if IsPending(id) {
        var found := Locate(claim, claims, nodes);
        if found == "" { return Cancelled; }
        id := found;
      }
      var ch := Send(Item(claim.uid + "-remove", Kind.Remove, RemoveNodes(claim.instanceType, claim.pool, id)));
      begun := Blocked(ch);
    }

    /** Delete up to its wait, when nothing comes between its first look and the rest. */
    method Delete(claim: Claim, claims: Option<seq<Claim>>, nodes: Option<seq<Node>>) returns (begun: Begun)
      requires Valid() && claim.uid != ""
      modifies batcher.room
      ensures Valid() && batcher.registry.book == old(batcher.registry.book)
      ensures begun == NotFound <==> claim.providerId == "" || claim.uid + "-remove" in batcher.registry.book.succeeded
      ensures begun == Cancelled <==>
                && begun != NotFound && IsPending(claim.providerId)
                && (claims.None? || nodes.None? || NoneMayBe(claim, claims.value, nodes.value))
      ensures begun == NotFound || begun == Cancelled ==> batcher.room.line == old(batcher.room.line)
      ensures begun != NotFound && begun != Cancelled ==>
                && begun == Blocked(old(batcher.room.line).next)
                && exists id :: (IsNodeOf(claim, claims, nodes, id)
                                 && batcher.room.line == Enqueued(old(batcher.room.line), batcher.registry.book,
                                                                  Item(claim.uid + "-remove", Kind.Remove, RemoveNodes(claim.instanceType, claim.pool, id))))
    {
      hide Enqueued, Found, IsNodeOf, NoneMayBe;
      var gone := LookGone(claim);
      if gone { return NotFound; }
      begun := RemoveNode(claim, claims, nodes);
    }
  }

  /** The ID is that of the claim's own node: the one in its status once that is settled, until then the first listed node that may be its own. */
  ghost predicate IsNodeOf(claim: Claim, claims: Option<seq<Claim>>, nodes: Option<seq<Node>>, id: string) {
    if !IsPending(claim.providerId) then id == claim.providerId
    else claims.Some? && nodes.Some? && exists i :: FirstOf(claim, claims.value, claim.uid, nodes.value, i) && nodes.value[i].providerId == id
  }

  method Locate(claim: Claim, claims: Option<seq<Claim>>, nodes: Option<seq<Node>>) returns (id: string)
    requires claim.uid != ""
    ensures id == Found(claim, claims, nodes)
    ensures id == "" <==> claims.None? || nodes.None? || NoneMayBe(claim, claims.value, nodes.value)
    ensures id != "" && IsPending(claim.providerId) ==> IsNodeOf(claim, claims, nodes, id)
  {
    if claims.None? || nodes.None? { return ""; }
    id := FindNodeProviderId(claim, claims.value, nodes.value);
  }

  /** The claim has no node so far, and nobody is deleting it. */
  predicate NotYetThere(claim: Claim) {
    (claim.providerId == "" || IsPending(claim.providerId)) && !claim.deleting
  }

  /** The failure handler's decision: which claim to delete, if any. */
  method HandleFailure(report: Report, list: Option<seq<Claim>>) returns (victim: Option<string>)
    requires list.Some? ==> DistinctUids(list.value)
    ensures victim.Some? <==> list.Some? && report.kind == Kind.Add && exists claim :: claim in list.value && claim.uid == report.op && NotYetThere(claim)
    ensures victim.Some? ==> victim.value == report.op && report.kind == Kind.Add
  {
    if report.kind != Kind.Add { return None; }
    if list.None? { return None; }
    var claims := list.value;
    for i := 0 to |claims|
      invariant forall k :: 0 <= k < i ==> claims[k].uid != report.op
    {
      var claim := claims[i];
      if claim.uid != report.op { continue; }
      if (claim.providerId != "" && !IsPending(claim.providerId)) || claim.deleting {
        assert forall k :: 0 <= k < |claims| && k != i ==> claims[k].uid != claim.uid;
        return None;
      }
      assert NotYetThere(claim);
      return Some(claim.uid);
    }
    victim := None;
  }

  // ---------- the resume ----------

  /** The grouping loop. */
  method GroupByBatch(claims: seq<Claim>) returns (byBatch: map<string, seq<string>>)
    ensures byBatch == Grouped(claims)
  {
    byBatch := map[];
    for i := 0 to |claims|
      invariant byBatch == Grouped(claims[..i])
    {
      var claim := claims[i];
      assert claims[..i + 1][..i] == claims[..i] && claims[..i + 1][i] == claim;
      if claim.deleting { continue; }
      if !IsPending(claim.providerId) { continue; }
      var batchId := Trim(claim.batchId);
      if batchId == "" { continue; }
      byBatch := byBatch[batchId := (if batchId in byBatch then byBatch[batchId] else []) + [claim.uid]];
    }
    assert claims[..|claims|] == claims;
  }

  /** Resuming the groups one after the other, in some order. */
  function ResumeAll(book: L.Book, groups: map<string, seq<string>>, order: seq<string>, now: int): L.Book
    requires forall i :: 0 <= i < |order| ==> order[i] in groups
  {
    if order == [] then book
    else L.Resume(ResumeAll(book, groups, order[..|order| - 1], now), order[|order| - 1], groups[order[|order| - 1]], now)
  }

  lemma {:induction false} ResumeOneMore(book: L.Book, groups: map<string, seq<string>>, order: seq<string>, id: string, now: int)
    requires id in groups && forall i :: 0 <= i < |order| ==> order[i] in groups
    ensures forall i :: 0 <= i < |order + [id]| ==> (order + [id])[i] in groups
    ensures ResumeAll(book, groups, order + [id], now) == L.Resume(ResumeAll(book, groups, order, now), id, groups[id], now)
  {
    assert (order + [id])[..|order|] == order;
  }

  /** The one pass at start-up, over the groups in whatever order the map yields them. */
  method Start(registry: Registry, list: Option<seq<Claim>>, now: int) returns (ghost order: seq<string>)
    requires registry.Valid()
    modifies registry
    ensures registry.Valid() && fresh(registry.parts - old(registry.parts))
    ensures list.None? ==> registry.book == old(registry.book)
    ensures list.Some? ==>
              && Distinct(order) && (forall id :: id in order <==> id in Grouped(list.value))
              && registry.book == ResumeAll(old(registry.book), Grouped(list.value), order, now)
  {
    order := [];
    if list.None? { return; }
    var byBatch := GroupByBatch(list.value);
    ghost var book := registry.book;
    hide Grouped, Trim, L.Resume, L.Resumable;
    var left := byBatch.Keys;
    while left != {}
      invariant registry.Valid() && fresh(registry.parts - old(registry.parts))
      invariant left <= byBatch.Keys && Distinct(order)
      invariant forall id :: id in order <==> id in byBatch && id !in left
      invariant registry.book == ResumeAll(book, byBatch, order, now)
      decreases |left|
    {
      var batchId :| batchId in left;
      left := left - {batchId};
      var _ := registry.ResumeAddBatch(batchId, byBatch[batchId], now);
      ResumeOneMore(book, byBatch, order, batchId, now);
      order := order + [batchId];
    }
  }

  /** Groups as the listing makes them: proper batch IDs, each with something to resume. */
  predicate ProperGroups(groups: map<string, seq<string>>) {
    forall id :: id in groups ==> id != "" && Trim(id) == id && L.ResumeItems(groups[id]) != []
  }

  /** What a group is tracked as. */
  function ResumedBatch(ops: seq<string>, now: int): L.Tracked {
    L.Tracked(Kind.Add, L.ResumeItems(ops), now, now, 0)
  }

  ghost predicate TracksGroups(book: L.Book, groups: map<string, seq<string>>, order: seq<string>, now: int, after: map<string, L.Tracked>)
    requires forall id :: id in order ==> id in groups
  {
    && (forall id :: id in after <==> id in book.inProgress || id in order)
    && (forall id :: id in book.inProgress ==> id in after && after[id] == book.inProgress[id])
    && (forall id :: id in order && id !in book.inProgress ==> id in after && after[id] == ResumedBatch(groups[id], now))
  }

  /** In any order, the pass tracks exactly the groups nobody tracked before, and leaves the others alone. */
  lemma {:induction false} ResumeTracksEveryGroup(book: L.Book, groups: map<string, seq<string>>, order: seq<string>, now: int)
    requires ProperGroups(groups) && Distinct(order) && forall id :: id in order ==> id in groups
    ensures TracksGroups(book, groups, order, now, ResumeAll(book, groups, order, now).inProgress)
  {
    if order != [] {
      var rest, last := order[..|order| - 1], order[|order| - 1];
      assert order == rest + [last];
      ResumeOneGroup(ResumeAll(book, groups, rest, now), last, groups[last], now);
      hide Trim, L.ResumeItems, L.Resume, ResumedBatch, TracksGroups;
      ResumeTracksEveryGroup(book, groups, rest, now);
      TrackOneMore(book, groups, rest, last, now, ResumeAll(book, groups, rest, now).inProgress);
    }
  }

  lemma {:induction false} TrackOneMore(book: L.Book, groups: map<string, seq<string>>, order: seq<string>, id: string, now: int, mid: map<string, L.Tracked>)
    requires id in groups && (forall o :: o in order ==> o in groups) && TracksGroups(book, groups, order, now, mid)
    ensures forall o :: o in order + [id] ==> o in groups
    ensures TracksGroups(book, groups, order + [id], now, if id in mid then mid else mid[id := ResumedBatch(groups[id], now)])
  {
    hide ResumedBatch;
    assert forall o :: o in order + [id] <==> o in order || o == id;
  }

  lemma {:induction false} ResumeOneGroup(book: L.Book, id: string, ops: seq<string>, now: int)
    requires id != "" && Trim(id) == id && L.ResumeItems(ops) != []
    ensures L.Resume(book, id, ops, now).inProgress
            == if id in book.inProgress then book.inProgress else book.inProgress[id := ResumedBatch(ops, now)]
  {
  }

  /** So the order in which the map yields the groups does not matter for what is tracked. */
  lemma {:induction false} ResumeOrderDoesNotMatter(book: L.Book, groups: map<string, seq<string>>, order: seq<string>, other: seq<string>, now: int)
    requires ProperGroups(groups) && Distinct(order) && Distinct(other)
    requires (forall id :: id in order <==> id in groups) && (forall id :: id in other <==> id in groups)
    ensures ResumeAll(book, groups, order, now).inProgress == ResumeAll(book, groups, other, now).inProgress
  {
    ResumeTracksEveryGroup(book, groups, order, now);
    ResumeTracksEveryGroup(book, groups, other, now);
    hide Trim, L.ResumeItems, L.Resume, ResumedBatch, ProperGroups, ResumeAll, TracksGroups;
    SameTracking(book, groups, order, other, now, ResumeAll(book, groups, order, now).inProgress, ResumeAll(book, groups, other, now).inProgress);
  }

  lemma {:induction false} SameTracking(book: L.Book, groups: map<string, seq<string>>, order: seq<string>, other: seq<string>, now: int, a: map<string, L.Tracked>, b: map<string, L.Tracked>)
    requires (forall id :: id in order <==> id in groups) && (forall id :: id in other <==> id in groups)
    requires TracksGroups(book, groups, order, now, a) && TracksGroups(book, groups, other, now, b)
    ensures a == b
  {
    hide ResumedBatch;
    assert forall id :: id in a <==> id in b;
    assert forall id :: id in a ==> a[id] == b[id];
  }

  /** With proper UIDs, the groups of any listing are proper. */
  lemma {:induction false} ListingsAreProper(list: seq<Claim>)
    requires forall i :: 0 <= i < |list| ==> Uid(list[i].uid)
    ensures ProperGroups(Grouped(list))
  {
    GroupedByAwaited(list);
    hide Trim, Awaited, Grouped;
    var groups := Grouped(list);
    forall id | id in groups ensures L.ResumeItems(groups[id]) != [] {
      assert groups[id][0] in groups[id];
      var claim :| claim in list && Awaited(claim) && Trim(claim.batchId) == id && claim.uid == groups[id][0];
      var i :| 0 <= i < |list| && list[i] == claim;
      assert Uid(groups[id][0]);
    }
  }
}
