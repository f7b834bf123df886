/** The batcher's first mutex as mutable state: the methods are the locked sections, proved against the ledger. */
module BatchBook {
  import opened BatchTypes
  import opened Ledger
  import opened Batcher

  /** A sent batch. Its items live in the first `len` cells of an array that polls compact in place. */
  datatype InProgressBatch = InProgressBatch(
    kind: Kind, items: array<Item>, len: nat, sentAt: int, pollAfter: int, emptyPolls: nat)
  {
    ghost predicate Fits() { len <= items.Length }

    ghost function Value(): Tracked
      reads items
      requires Fits()
    {
      Tracked(kind, items[..len], sentAt, pollAfter, emptyPolls)
    }
  }

  /** The results of a reply by operation; a later entry replaces an earlier one. */
  method IndexResults(results: seq<NodeResult>) returns (byOp: map<string, NodeResult>)
    ensures forall op :: op in byOp <==> Verdict(results, op).Some?
    ensures forall op :: op in byOp ==> Verdict(results, op) == Some(byOp[op])
  {
    byOp := map[];
    for i := 0 to |results|
      invariant forall op :: op in byOp <==> Verdict(results[..i], op).Some?
      invariant forall op :: op in byOp ==> Verdict(results[..i], op) == Some(byOp[op])
    {
      byOp := byOp[results[i].op := results[i]];
      assert results[..i + 1][..i] == results[..i];
    }
    assert results[..|results|] == results;
  }

  lemma {:induction false} KeepSnoc(items: seq<Item>, item: Item, results: seq<NodeResult>)
    ensures Keep(items + [item], results) == Keep(items, results) + if Unfinished(results, item.op) then [item] else []
  {
    if items == [] {
      assert items + [item] == [item] && [item][1..] == [];
    } else {
      var head := if Unfinished(results, items[0].op) then [items[0]] else [];
      var more := if Unfinished(results, item.op) then [item] else [];
      assert (items + [item])[1..] == items[1..] + [item];
      KeepSnoc(items[1..], item, results);
      assert head + (Keep(items[1..], results) + more) == (head + Keep(items[1..], results)) + more;
    }
  }

  lemma {:induction false} OutcomesSnoc(items: seq<Item>, item: Item, kind: Kind, results: seq<NodeResult>, now: int)
    ensures Outcomes(items + [item], kind, results, now) == Outcomes(items, kind, results, now) + OutcomeOf(item, kind, results, now)
  {
    if items == [] {
      assert items + [item] == [item] && [item][1..] == [];
      assert Outcomes([item], kind, results, now) == OutcomeOf(item, kind, results, now) + [];
    } else {
      assert (items + [item])[1..] == items[1..] + [item];
      OutcomesSnoc(items[1..], item, kind, results, now);
    }
  }

  lemma {:induction false} ReportsSnoc(events: seq<Event>, e: Event)
    ensures Reports(events + [e]) == Reports(events) + if e.Faulted? then [Report(e.op, e.kind, e.detail)] else []
  {
    if events == [] {
      assert events + [e] == [e] && [e][1..] == [];
    } else {
      var head := if events[0].Faulted? then [Report(events[0].op, events[0].kind, events[0].detail)] else [];
      var more := if e.Faulted? then [Report(e.op, e.kind, e.detail)] else [];
      assert (events + [e])[1..] == events[1..] + [e];
      ReportsSnoc(events[1..], e);
      assert head + (Reports(events[1..]) + more) == (head + Reports(events[1..])) + more;
    }
  }

  lemma {:induction false} SetsSnoc(items: seq<Item>, i: nat, results: seq<NodeResult>)
    requires i < |items|
    ensures Winners(items[..i + 1], results) == Winners(items[..i], results) + if Won(results, items[i].op) then {items[i].op} else {}
    ensures Settled(items[..i + 1], results) == Settled(items[..i], results) + if Unfinished(results, items[i].op) then {} else {items[i].op}
  {
    var before, after := items[..i], items[..i + 1];
    assert forall k :: 0 <= k < i ==> after[k] == before[k];
    assert after[i] == items[i];
  }

  lemma {:induction false} ReportsOfOne(events: seq<Event>, item: Item, kind: Kind, results: seq<NodeResult>, now: int)
    ensures Reports(events + OutcomeOf(item, kind, results, now))
            == Reports(events) + if Lost(results, item.op) then [Report(item.op, kind, Verdict(results, item.op).value.detail)] else []
  {
    var out := OutcomeOf(item, kind, results, now);
    if out == [] {
      assert events + out == events;
    } else {
      ReportsSnoc(events, out[0]);
    }
  }

  /** What reading one more item adds to each result of the compaction. */
  lemma {:induction false} OneMore(items: seq<Item>, i: nat, kind: Kind, results: seq<NodeResult>, now: int)
    requires i < |items|
    ensures var op := items[i].op;
            && Winners(items[..i + 1], results) == Winners(items[..i], results) + (if Won(results, op) then {op} else {})
            && Settled(items[..i + 1], results) == Settled(items[..i], results) + (if Unfinished(results, op) then {} else {op})
            && Reports(Outcomes(items[..i + 1], kind, results, now))
               == Reports(Outcomes(items[..i], kind, results, now))
                  + if Lost(results, op) then [Report(op, kind, Verdict(results, op).value.detail)] else []
  {
    assert items[..i + 1] == items[..i] + [items[i]];
    SetsSnoc(items, i, results);
    OutcomesSnoc(items[..i], items[i], kind, results, now);
    ReportsOfOne(Outcomes(items[..i], kind, results, now), items[i], kind, results, now);
  }

  /** What the index says of an operation is its verdict. */
  lemma {:induction false} VerdictByOp(results: seq<NodeResult>, byOp: map<string, NodeResult>, op: string)
    requires op in byOp <==> Verdict(results, op).Some?
    requires op in byOp ==> Verdict(results, op) == Some(byOp[op])
    ensures Won(results, op) <==> op in byOp && byOp[op].state == Succeeded
    ensures Lost(results, op) <==> op in byOp && byOp[op].state == Failed
    ensures Unfinished(results, op) <==> op !in byOp || (byOp[op].state != Succeeded && byOp[op].state != Failed)
  {
  }

  /** Append to a prefix of an array, into the cell after it. */
  method Append(items: array<Item>, len: nat, item: Item)
    requires len < items.Length
    modifies items
    ensures items[..] == old(items[..])[len := item]
  {
    items[len] := item;
  }

  /** After reading i of the cells: the kept items in front, the rest as it was. */
  predicate Compacted(now: seq<Item>, cells: seq<Item>, i: nat, kept: nat, results: seq<NodeResult>)
    requires i <= |cells|
  {
    && |now| == |cells| && kept <= i && now[..kept] == Keep(cells[..i], results)
    && forall k :: kept <= k < |now| ==> now[k] == cells[k]
  }

  lemma {:induction false} KeepsCell(now: seq<Item>, cells: seq<Item>, i: nat, kept: nat, results: seq<NodeResult>)
    requires i < |cells| && Compacted(now, cells, i, kept, results) && Unfinished(results, cells[i].op)
    ensures Compacted(now[kept := cells[i]], cells, i + 1, kept + 1, results)
  {
    assert cells[..i + 1] == cells[..i] + [cells[i]];
    KeepSnoc(cells[..i], cells[i], results);
    hide Keep;
    assert now[kept := cells[i]][..kept + 1] == now[..kept] + [cells[i]];
  }

  lemma {:induction false} DropsCell(now: seq<Item>, cells: seq<Item>, i: nat, kept: nat, results: seq<NodeResult>)
    requires i < |cells| && Compacted(now, cells, i, kept, results) && !Unfinished(results, cells[i].op)
    ensures Compacted(now, cells, i + 1, kept, results)
  {
    assert cells[..i + 1] == cells[..i] + [cells[i]];
    KeepSnoc(cells[..i], cells[i], results);
  }

  /**
    The compaction of a poll: unfinished items move to the front of the same
    array, over cells already read. Successes and failures come out on the side.
   */
  method Compact(items: array<Item>, len: nat, kind: Kind, results: seq<NodeResult>, byOp: map<string, NodeResult>, now: int)
    returns (kept: nat, won: set<string>, done: set<string>, failed: seq<Report>)
    requires len <= items.Length
    requires forall op :: op in byOp <==> Verdict(results, op).Some?
    requires forall op :: op in byOp ==> Verdict(results, op) == Some(byOp[op])
    modifies items
    ensures kept <= len && items[..kept] == Keep(old(items[..len]), results)
    ensures items[kept..] == old(items[kept..])
    ensures won == Winners(old(items[..len]), results) && done == Settled(old(items[..len]), results)
    ensures failed == Reports(Outcomes(old(items[..len]), kind, results, now))
  {
    ghost var cells, was := items[..], items[..len];
    kept, won, done, failed := 0, {}, {}, [];
    assert was[..0] == [] && was[..len] == was && cells[..0] == [] && cells[..len] == was;
    assert Compacted(items[..], cells, 0, 0, results);
    assert Winners([], results) == {} && Settled([], results) == {};
    hide Verdict, Outcomes, Reports, Keep, Winners, Settled, Won, Lost, Unfinished, Compacted;
    for i := 0 to len
      invariant kept <= i && Compacted(items[..], cells, i, kept, results)
      invariant won == Winners(was[..i], results) && done == Settled(was[..i], results)
      invariant failed == Reports(Outcomes(was[..i], kind, results, now))
    {
      var item := items[i];
      NextCell(items[..], cells, i, kept, results);
      assert item == items[..][i] && cells[i] == was[i];
      OneMore(was, i, kind, results, now);
      VerdictByOp(results, byOp, item.op);
      if item.op !in byOp {
        KeepsCell(items[..], cells, i, kept, results);
        Append(items, kept, item);
        kept := kept + 1;
      } else if byOp[item.op].state == Succeeded {
        DropsCell(items[..], cells, i, kept, results);
        won, done := won + {item.op}, done + {item.op};
      } else if byOp[item.op].state == Failed {
        DropsCell(items[..], cells, i, kept, results);
        done := done + {item.op};
        failed := failed + [Report(item.op, kind, byOp[item.op].detail)];
      } else {
        KeepsCell(items[..], cells, i, kept, results);
        Append(items, kept, item);
        kept := kept + 1;
      }
    }
    AllCompacted(items[..], cells, len, kept, results);
    assert items[..kept] == items[..][..kept] && items[kept..] == items[..][kept..];
  }

  lemma {:induction false} NextCell(now: seq<Item>, cells: seq<Item>, i: nat, kept: nat, results: seq<NodeResult>)
    requires i < |cells| && Compacted(now, cells, i, kept, results)
    ensures i < |now| && now[i] == cells[i]
  {
  }

  lemma {:induction false} AllCompacted(now: seq<Item>, cells: seq<Item>, len: nat, kept: nat, results: seq<NodeResult>)
    requires len <= |cells| && Compacted(now, cells, len, kept, results)
    ensures kept <= len && kept <= |now| == |cells| && now[..kept] == Keep(cells[..len], results) && now[kept..] == cells[kept..]
  {
  }

  /** The whole array after a compaction: the kept items, then the old cells behind them. */
  function AfterCompaction(items: seq<Item>, results: seq<NodeResult>): seq<Item> {
    KeepIsFilter(items, results);
    Keep(items, results) + items[|Keep(items, results)|..]
  }

  /**
    The sender answers its callers by reading the very array a poll compacts. It
    still reads what it sent exactly when no finished item stands before an
    unfinished one.
   */
  lemma {:induction false} SharedArrayUnchangedExactly(items: seq<Item>, results: seq<NodeResult>)
    ensures AfterCompaction(items, results) == items
            <==> forall i, j :: 0 <= i < j < |items| && Unfinished(results, items[j].op) ==> Unfinished(results, items[i].op)
  {
    var kept := Keep(items, results);
    KeepIsFilter(items, results);
    if AfterCompaction(items, results) == items {
      forall i, j | 0 <= i < j < |items| && Unfinished(results, items[j].op) ensures Unfinished(results, items[i].op) {
        PrefixKeepsAll(items, results, j);
        assert items[i] == kept[i] && kept[i] in kept;
      }
    } else if forall i, j :: 0 <= i < j < |items| && Unfinished(results, items[j].op) ==> Unfinished(results, items[i].op) {
      KeepsPrefix(items, results);
    }
  }

  /** If the kept items are a prefix, every unfinished item is in it. */
  lemma {:induction false} PrefixKeepsAll(items: seq<Item>, results: seq<NodeResult>, j: nat)
    requires j < |items| && Unfinished(results, items[j].op)
    requires |Keep(items, results)| <= |items| && Keep(items, results) == items[..|Keep(items, results)|]
    ensures j < |Keep(items, results)|
  {
    var kept := Keep(items, results);
    KeepIsFilter(items, results);
    assert items[j] in kept;
    assert kept[0] == items[0] && kept[0] in kept;
    assert kept[1..] == Keep(items[1..], results);
    KeepIsFilter(items[1..], results);
    assert items[1..][..|kept| - 1] == items[..|kept|][1..];
    if j > 0 { PrefixKeepsAll(items[1..], results, j - 1); }
  }

  lemma {:induction false} NothingKept(items: seq<Item>, results: seq<NodeResult>)
    requires forall i :: 0 <= i < |items| ==> !Unfinished(results, items[i].op)
    ensures Keep(items, results) == []
  {
    if items != [] { NothingKept(items[1..], results); }
  }

  lemma {:induction false} KeepsPrefix(items: seq<Item>, results: seq<NodeResult>)
    requires forall i, j :: 0 <= i < j < |items| && Unfinished(results, items[j].op) ==> Unfinished(results, items[i].op)
    ensures |Keep(items, results)| <= |items| && Keep(items, results) == items[..|Keep(items, results)|]
  {
    if items != [] {
      if Unfinished(results, items[0].op) {
        KeepsPrefix(items[1..], results);
      } else {
        NothingKept(items, results);
      }
    }
  }

  /** One success ahead of an unfinished item is enough to make the array name that item twice and the other not at all. */
  lemma {:induction false} SharedArrayChanges(a: Item, b: Item)
    requires a.op != b.op
    ensures AfterCompaction([a, b], [NodeResult(a.op, Succeeded, "")]) == [b, b]
  {
    var results := [NodeResult(a.op, Succeeded, "")];
    assert results[..0] == [];
    assert Verdict(results, a.op) == Some(results[0]) && Verdict(results, b.op) == None;
    assert [a, b][1..] == [b] && [b][1..] == [];
    assert Keep([b], results) == [b];
    assert Keep([a, b], results) == [b];
  }
}

/** The fields the first mutex guards. */
module BatchRegistry {
  import opened BatchTypes
  import opened Ledger
  import opened Batcher
  import opened BatchBook

  class Registry {
    var inProgress: map<string, InProgressBatch>
    var inFlight: set<string>
    var opBatch: map<string, string>
    var succeeded: map<string, int>

    /** The value all of this stands for, and the arrays behind it. */
    ghost var book: Book
    ghost var parts: set<object>

    /** Each batch has its own array, and together they hold the book. */
    ghost predicate Valid()
      reads this, parts
    {
      && this !in parts
      && inFlight == book.inFlight && opBatch == book.opBatch && succeeded == book.succeeded
      && Holds(inProgress, book.inProgress, parts)
    }

    constructor ()
      ensures Valid() && book == EMPTY_BOOK && parts == {}
    {
      inProgress, inFlight, opBatch, succeeded := map[], {}, map[], map[];
      book, parts := EMPTY_BOOK, {};
    }

    method HasSucceeded(op: string) returns (ok: bool)
      requires Valid()
      ensures ok <==> op in book.succeeded
    {
      ok := op in succeeded;
    }

    method Tracking(rawId: string) returns (ok: bool)
      requires Valid()
      ensures ok <==> Trim(rawId) in book.inProgress
    {
      ok := Trim(rawId) in inProgress;
    }

    /** Record a batch under a free ID. */
    method Enter(id: string, batch: InProgressBatch)
      requires Valid() && id !in inProgress && batch.len == batch.items.Length && batch.items !in parts
      modifies this
      ensures Valid() && parts == old(parts) + {batch.items}
      ensures book == Track(old(book), id, batch.Value())
    {
      inFlight, opBatch := MarkInFlight(inFlight, opBatch, batch.items[..batch.len], id);
      inProgress := inProgress[id := batch];
      parts := parts + {batch.items};
      book := Track(book, id, batch.Value());
    }

    /** The locked section of a registration after the broker accepted a batch. */
    method Register(kind: Kind, id: string, items: array<Item>, now: int)
      requires Valid() && id !in inProgress && items !in parts
      modifies this
      ensures Valid() && parts == old(parts) + {items}
      ensures book == Ledger.Register(old(book), kind, id, items[..], now)
    {
      assert items[..items.Length] == items[..];
      Enter(id, InProgressBatch(kind, items, items.Length, now, now + INITIAL_DELAY, 0));
    }

    /** Take up again a batch a previous process sent. */
    method ResumeAddBatch(rawId: string, ops: seq<string>, now: int) returns (resumed: bool)
      requires Valid()
      modifies this
      ensures Valid() && fresh(parts - old(parts))
      ensures resumed <==> Resumable(old(book), rawId, ops)
      ensures book == Resume(old(book), rawId, ops, now)
    {
      var id := Trim(rawId);
      var items := TrimmedAdds(ops);
      if id == "" || items == [] || id in inProgress { return false; }
      var cells := new Item[|items|](i requires 0 <= i < |items| => items[i]);
      assert cells[..|items|] == items;
      Enter(id, InProgressBatch(Kind.Add, cells, |items|, now, now, 0));
      resumed := true;
    }

    /** Stop tracking a batch; what it still held comes back for the failure handler. */
    method Drop(id: string) returns (kind: Kind, expired: seq<Item>)
      requires Valid() && id in inProgress
      modifies this
      ensures Valid() && parts == old(parts)
      ensures book == Forget(old(book), id)
      ensures kind == old(book).inProgress[id].kind && expired == old(book).inProgress[id].items
    {
      var batch := inProgress[id];
      kind, expired := batch.kind, batch.items[..batch.len];
      inProgress := inProgress - {id};
      inFlight, opBatch := ClearInFlight(inFlight, opBatch, expired);
      book := Forget(book, id);
    }

    /** First locked section of a poll. */
    method Look(id: string, now: int) returns (look: Ledger.Look, kind: Kind, expired: seq<Item>)
      requires Valid()
      modifies this
      ensures Valid() && parts == old(parts)
      ensures look == FirstLook(old(book), id, now)
      ensures look == Skip <==> id !in old(book).inProgress || now < old(book).inProgress[id].pollAfter
      ensures look == Expire ==> now - old(book).inProgress[id].sentAt > 7200 * SECOND
      ensures look == Ask ==> now - old(book).inProgress[id].sentAt <= 7200 * SECOND
      ensures look != Expire ==> book == old(book) && expired == []
      ensures look == Expire ==>
                && book == Forget(old(book), id)
                && kind == old(book).inProgress[id].kind && expired == old(book).inProgress[id].items
    {
      look, kind, expired := Skip, Kind.Add, [];
      if id !in inProgress { return; }
      var batch := inProgress[id];
      if now < batch.pollAfter { return; }
      if now - batch.sentAt > MAX_BATCH_AGE {
        look := Expire;
        kind, expired := Drop(id);
        return;
      }
      look := Ask;
    }

    /** Second locked section of a poll, with the broker's answer; returns the failures to report. */
    method Answer(id: string, results: seq<NodeResult>, now: int) returns (failed: seq<Report>)
      requires Valid()
      modifies this, parts
      ensures Valid() && parts == old(parts)
      ensures book == ApplyReply(old(book), id, results, now)
      ensures failed == Reports(ReplyEvents(old(book), id, results, now))
    {
      failed := [];
      if id !in inProgress { return; }
      if results == [] {
        failed := AnswerEmpty(id, now);
      } else {
        failed := AnswerResults(id, results, now);
      }
    }

    /** An empty reply: counted, and after the third in a row the batch is given up. */
    method AnswerEmpty(id: string, ghost now: int) returns (failed: seq<Report>)
      requires Valid() && id in inProgress
      modifies this
      ensures Valid() && parts == old(parts)
      ensures book == ApplyReply(old(book), id, [], now)
      ensures failed == Reports(ReplyEvents(old(book), id, [], now))
    {
      var batch := inProgress[id];
      failed := [];
      if batch.emptyPolls + 1 >= MAX_EMPTY_POLLS {
        var kind, expired := Drop(id);
        failed := ExpiryReports(kind, expired);
      } else {
        inProgress := inProgress[id := batch.(emptyPolls := batch.emptyPolls + 1)];
        book := ApplyReply(book, id, [], now);
      }
    }

    /** A reply with results: compact the batch in place, record successes, release what is settled. */
    method AnswerResults(id: string, results: seq<NodeResult>, now: int) returns (failed: seq<Report>)
      requires Valid() && id in inProgress && results != []
      modifies this, inProgress[id].items
      ensures Valid() && parts == old(parts)
      ensures book == ApplyReply(old(book), id, results, now)
      ensures failed == Reports(ReplyEvents(old(book), id, results, now))
    {
      ghost var was := book;
      ReplyWithResults(was, id, results, now);
      hide ApplyReply, ReplyEvents, Left, Winners, Ledger.Settled, Prune, Outcomes, Reports, GivesUp;
      var records, won, done, lost := Settle(inProgress, was.inProgress, parts, id, results, now);
      failed := lost;
      var kept := PruneSucceeded(succeeded + map op | op in won :: now, now);
      Store(records, inFlight - done, kept, ApplyReply(was, id, results, now));
    }

    /** Put new records in place of the old ones. */
    method Store(records: map<string, InProgressBatch>, marked: set<string>, done: map<string, int>, ghost value: Book)
      requires this !in parts && Holds(records, value.inProgress, parts)
      requires marked == value.inFlight && opBatch == value.opBatch && done == value.succeeded
      modifies this
      ensures Valid() && parts == old(parts) && book == value
    {
      inProgress, inFlight, succeeded, book := records, marked, done, value;
    }
  }

  /** What a reply with results does to each part of the book. */
  lemma {:induction false} ReplyWithResults(book: Book, id: string, results: seq<NodeResult>, now: int)
    requires id in book.inProgress && results != []
    ensures var batch, after := book.inProgress[id], ApplyReply(book, id, results, now);
            && after.inProgress == Left(book.inProgress, id, results)
            && after.inFlight == book.inFlight - Ledger.Settled(batch.items, results) && after.opBatch == book.opBatch
            && after.succeeded == Prune(book.succeeded + map op | op in Winners(batch.items, results) :: now, now)
            && ReplyEvents(book, id, results, now) == Outcomes(batch.items, batch.kind, results, now)
  {
  }

  /** Apply a reply's results to one batch, in place. */
  method Settle(records: map<string, InProgressBatch>, ghost tracked: map<string, Tracked>, ghost parts: set<object>,
                id: string, results: seq<NodeResult>, now: int)
    returns (left: map<string, InProgressBatch>, won: set<string>, done: set<string>, lost: seq<Report>)
    requires Holds(records, tracked, parts) && id in records
    modifies records[id].items
    ensures Holds(left, Left(tracked, id, results), parts)
    ensures won == Winners(tracked[id].items, results) && done == Settled(tracked[id].items, results)
    ensures lost == Reports(Outcomes(tracked[id].items, tracked[id].kind, results, now))
  {
    var batch := records[id];
    assert HoldsOne(batch, tracked[id], parts);
    var byOp := IndexResults(results);
    var kept;
    kept, won, done, lost := Compact(batch.items, batch.len, batch.kind, results, byOp, now);
    var after := batch.(len := kept, emptyPolls := 0);
    left := if kept == 0 then records - {id} else records[id := after];
    ghost var wanted := Left(tracked, id, results);
    assert after.Value() == tracked[id].(items := Keep(tracked[id].items, results), emptyPolls := 0);
    forall other | other in left ensures HoldsOne(left[other], wanted[other], parts) {
      if other != id { assert HoldsOne(records[other], tracked[other], parts); }
    }
  }

  /** The records' arrays are theirs alone and hold the tracked batches. */
  ghost predicate Holds(records: map<string, InProgressBatch>, tracked: map<string, Tracked>, parts: set<object>)
    reads parts
  {
    && records.Keys == tracked.Keys
    && (forall id :: id in records ==> HoldsOne(records[id], tracked[id], parts))
    && (forall id, other :: id in records && other in records && id != other ==> records[id].items != records[other].items)
  }

  ghost predicate HoldsOne(record: InProgressBatch, batch: Tracked, parts: set<object>)
    reads parts
  {
    record.items in parts && record.Fits() && record.Value() == batch
  }

  /** Mark a batch's operations in flight and index them under its ID. */
  method MarkInFlight(inFlight: set<string>, opBatch: map<string, string>, items: seq<Item>, id: string)
    returns (marked: set<string>, index: map<string, string>)
    ensures marked == inFlight + Ops(items) && index == Point(opBatch, Ops(items), id)
  {
    marked, index := inFlight, opBatch;
    for i := 0 to |items|
      invariant marked == inFlight + Ops(items[..i]) && index == Point(opBatch, Ops(items[..i]), id)
    {
      marked := marked + {items[i].op};
      index := index[items[i].op := id];
      OpsSnoc(items[..i], items[i]);
      PointSnoc(opBatch, Ops(items[..i]), items[i].op, id);
      assert items[..i + 1] == items[..i] + [items[i]];
    }
    assert items[..|items|] == items;
  }

  lemma {:induction false} PointSnoc(opBatch: map<string, string>, ops: set<string>, op: string, id: string)
    ensures Point(opBatch, ops + {op}, id) == Point(opBatch, ops, id)[op := id]
  {
  }

  /** Forget the in-flight marks and index entries of a batch. */
  method ClearInFlight(inFlight: set<string>, opBatch: map<string, string>, items: seq<Item>)
    returns (marked: set<string>, index: map<string, string>)
    ensures marked == inFlight - Ops(items) && index == opBatch - Ops(items)
  {
    marked, index := inFlight, opBatch;
    for i := 0 to |items|
      invariant marked == inFlight - Ops(items[..i]) && index == opBatch - Ops(items[..i])
    {
      marked, index := marked - {items[i].op}, index - {items[i].op};
      OpsSnoc(items[..i], items[i]);
      assert items[..i + 1] == items[..i] + [items[i]];
    }
    assert items[..|items|] == items;
  }

  /** Drop the successes older than the retention. */
  method PruneSucceeded(succeeded: map<string, int>, now: int) returns (kept: map<string, int>)
    ensures kept == Prune(succeeded, now)
  {
    kept := succeeded;
    var left := succeeded.Keys;
    while left != {}
      invariant left <= kept.Keys <= succeeded.Keys
      invariant forall op :: op in kept ==> kept[op] == succeeded[op]
      invariant forall op :: op in succeeded && op !in left ==>
                  (op in kept <==> now - succeeded[op] <= SUCCEEDED_RETENTION)
      decreases |left|
    {
      var op :| op in left;
      left := left - {op};
      if now - kept[op] > SUCCEEDED_RETENTION {
        kept := kept - {op};
      }
    }
  }

  /** The operations of a resumed batch: trimmed, the empty ones dropped. */
  method TrimmedAdds(ops: seq<string>) returns (items: seq<Item>)
    ensures items == ResumeItems(ops)
  {
    items := [];
    for i := 0 to |ops|
      invariant items == ResumeItems(ops[..i])
    {
      var op := Trim(ops[i]);
      ResumeSnoc(ops[..i], ops[i]);
      assert ops[..i + 1] == ops[..i] + [ops[i]];
      if op != "" { items := items + [Item(op, Kind.Add, NoRequest)]; }
    }
    assert ops[..|ops|] == ops;
  }

  /** The handler calls for an expired batch, one per item. */
  method ExpiryReports(kind: Kind, items: seq<Item>) returns (reports: seq<Report>)
    ensures reports == Reports(Expiries(items, kind))
  {
    reports := [];
    for i := 0 to |items|
      invariant reports == Reports(Expiries(items[..i], kind))
    {
      reports := reports + [Report(items[i].op, kind, EXPIRED_DETAIL)];
      assert items[..i + 1] == items[..i] + [items[i]];
      ExpirySnoc(items[..i], items[i], kind);
    }
    assert items[..|items|] == items;
  }

  lemma {:induction false} ExpirySnoc(items: seq<Item>, item: Item, kind: Kind)
    ensures Reports(Expiries(items + [item], kind)) == Reports(Expiries(items, kind)) + [Report(item.op, kind, EXPIRED_DETAIL)]
  {
    if items == [] {
      assert items + [item] == [item] && [item][1..] == [];
      var one := Expiries([item], kind);
      assert one == [Faulted(item.op, kind, EXPIRED_DETAIL)] && one[1..] == [];
    } else {
      assert (items + [item])[1..] == items[1..] + [item];
      ExpirySnoc(items[1..], item, kind);
      assert Expiries(items, kind)[1..] == Expiries(items[1..], kind);
      assert Expiries(items + [item], kind)[1..] == Expiries(items[1..] + [item], kind);
    }
  }

  lemma {:induction false} OpsSnoc(items: seq<Item>, item: Item)
    ensures Ops(items + [item]) == Ops(items) + {item.op}
  {
    var all := items + [item];
    assert all[|items|] == item;
    assert forall i :: 0 <= i < |items| ==> all[i] == items[i];
  }

  lemma {:induction false} ResumeSnoc(ops: seq<string>, op: string)
    ensures ResumeItems(ops + [op]) == ResumeItems(ops) + if Trim(op) == "" then [] else [Item(Trim(op), Kind.Add, NoRequest)]
  {
    if ops == [] {
      assert ops + [op] == [op] && [op][1..] == [];
    } else {
      assert (ops + [op])[1..] == ops[1..] + [op];
      ResumeSnoc(ops[1..], op);
    }
  }
}
