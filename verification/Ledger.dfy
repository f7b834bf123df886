/**
  The bookkeeping behind the batcher's first mutex: the tracked batches, the
  in-flight set, its index, and the record of successes. Each function here is
  one locked section.
 */
module Ledger {
  import opened BatchTypes

  datatype Tracked = Tracked(kind: Kind, items: seq<Item>, sentAt: int, pollAfter: int, emptyPolls: nat)

  datatype Book = Book(
    inProgress: map<string, Tracked>,
    inFlight: set<string>,
    opBatch: map<string, string>,
    succeeded: map<string, int>)

  const EMPTY_BOOK := Book(map[], {}, map[], map[])

  /** What happens to an operation, in the order the locked sections decide it. */
  datatype Event =
    | Entered(op: string, kind: Kind, batchId: string)
    | Completed(op: string, kind: Kind, at: int)
    | Faulted(op: string, kind: Kind, detail: string)

  // ---------- the locked sections ----------

  /** Point every one of these operations at one batch. */
  function Point(opBatch: map<string, string>, ops: set<string>, id: string): map<string, string> {
    opBatch + map op | op in ops :: id
  }

  function Track(book: Book, id: string, batch: Tracked): Book {
    book.(inProgress := book.inProgress[id := batch],
          inFlight := book.inFlight + Ops(batch.items),
          opBatch := Point(book.opBatch, Ops(batch.items), id))
  }

  function Register(book: Book, kind: Kind, id: string, items: seq<Item>, now: int): Book {
    Track(book, id, Tracked(kind, items, now, now + INITIAL_DELAY, 0))
  }

  /** The items a resumed batch tracks: trimmed, non-empty operation IDs, as adds. */
  function ResumeItems(ops: seq<string>): seq<Item> {
    if ops == [] then []
    else
      var id := Trim(ops[0]);
      (if id == "" then [] else [Item(id, Add, NoRequest)]) + ResumeItems(ops[1..])
  }

  predicate Resumable(book: Book, rawId: string, ops: seq<string>) {
    Trim(rawId) != "" && ResumeItems(ops) != [] && Trim(rawId) !in book.inProgress
  }

  function Resume(book: Book, rawId: string, ops: seq<string>, now: int): Book {
    if Resumable(book, rawId, ops)
    then Track(book, Trim(rawId), Tracked(Add, ResumeItems(ops), now, now, 0))
    else book
  }

  /** Stop following a batch and release all of its operations. */
  function Forget(book: Book, id: string): Book
    requires id in book.inProgress
  {
    var gone := Ops(book.inProgress[id].items);
    book.(inProgress := book.inProgress - {id}, inFlight := book.inFlight - gone, opBatch := book.opBatch - gone)
  }

  datatype Look = Skip | Expire | Ask

  /** The first locked section of a poll: what to do with the batch before asking the broker. */
  function FirstLook(book: Book, id: string, now: int): Look {
    if id !in book.inProgress then Skip
    else if now < book.inProgress[id].pollAfter then Skip
    else if now - book.inProgress[id].sentAt > MAX_BATCH_AGE then Expire
    else Ask
  }

  /** The result listed last for an operation. */
  function Verdict(results: seq<NodeResult>, op: string): Option<NodeResult> {
    if results == [] then None
    else if results[|results| - 1].op == op then Some(results[|results| - 1])
    else Verdict(results[..|results| - 1], op)
  }

  predicate Won(results: seq<NodeResult>, op: string) {
    Verdict(results, op).Some? && Verdict(results, op).value.state == Succeeded
  }

  predicate Lost(results: seq<NodeResult>, op: string) {
    Verdict(results, op).Some? && Verdict(results, op).value.state == Failed
  }

  predicate Unfinished(results: seq<NodeResult>, op: string) {
    !Won(results, op) && !Lost(results, op)
  }

  /** The items a poll leaves behind, in their order. */
  function Keep(items: seq<Item>, results: seq<NodeResult>): seq<Item> {
    if items == [] then []
    else (if Unfinished(results, items[0].op) then [items[0]] else []) + Keep(items[1..], results)
  }

  function Winners(items: seq<Item>, results: seq<NodeResult>): set<string> {
    set i | 0 <= i < |items| && Won(results, items[i].op) :: items[i].op
  }

  function Settled(items: seq<Item>, results: seq<NodeResult>): set<string> {
    set i | 0 <= i < |items| && !Unfinished(results, items[i].op) :: items[i].op
  }

  /** The record of successes after a poll: new ones added, old ones dropped. */
  function Prune(succeeded: map<string, int>, now: int): map<string, int> {
    map op | op in succeeded && now - succeeded[op] <= SUCCEEDED_RETENTION :: succeeded[op]
  }

  predicate GivesUp(batch: Tracked, results: seq<NodeResult>) {
    results == [] && batch.emptyPolls + 1 >= MAX_EMPTY_POLLS
  }

  /** The tracked batches after a reply with results: one reduced to its unfinished items, or dropped. */
  function Left(inProgress: map<string, Tracked>, id: string, results: seq<NodeResult>): map<string, Tracked>
    requires id in inProgress
  {
    var batch := inProgress[id];
    var kept := Keep(batch.items, results);
    if kept == [] then inProgress - {id} else inProgress[id := batch.(items := kept, emptyPolls := 0)]
  }

  /** The second locked section of a poll: the broker has answered. */
  function ApplyReply(book: Book, id: string, results: seq<NodeResult>, now: int): Book {
    if id !in book.inProgress then book
    else
      var batch := book.inProgress[id];
      if GivesUp(batch, results) then Forget(book, id)
      else if results == [] then
        book.(inProgress := book.inProgress[id := batch.(emptyPolls := batch.emptyPolls + 1)])
      else
        book.(
        inProgress := Left(book.inProgress, id, results),
        inFlight := book.inFlight - Settled(batch.items, results),
        succeeded := Prune(book.succeeded + map op | op in Winners(batch.items, results) :: now, now))
  }

  // ---------- what each section writes into the history ----------

  function Entries(items: seq<Item>, id: string): seq<Event> {
    if items == [] then [] else [Entered(items[0].op, items[0].kind, id)] + Entries(items[1..], id)
  }

  function Expiries(items: seq<Item>, kind: Kind): seq<Event> {
    if items == [] then [] else [Faulted(items[0].op, kind, EXPIRED_DETAIL)] + Expiries(items[1..], kind)
  }

  /** The share of one item in a reply's outcome. */
  function OutcomeOf(item: Item, kind: Kind, results: seq<NodeResult>, now: int): seq<Event> {
    if Won(results, item.op) then [Completed(item.op, kind, now)]
    else if Lost(results, item.op) then [Faulted(item.op, kind, Verdict(results, item.op).value.detail)]
    else []
  }

  function Outcomes(items: seq<Item>, kind: Kind, results: seq<NodeResult>, now: int): seq<Event> {
    if items == [] then []
    else OutcomeOf(items[0], kind, results, now) + Outcomes(items[1..], kind, results, now)
  }

  function ReplyEvents(book: Book, id: string, results: seq<NodeResult>, now: int): seq<Event> {
    if id !in book.inProgress then []
    else
      var batch := book.inProgress[id];
      if GivesUp(batch, results) then Expiries(batch.items, batch.kind)
      else if results == [] then []
      else Outcomes(batch.items, batch.kind, results, now)
  }

  // ---------- the invariant of the book ----------

  predicate WellFormed(batch: Tracked) {
    && batch.items != []
    && OfKind(batch.items, batch.kind)
    && batch.emptyPolls < MAX_EMPTY_POLLS
    && batch.sentAt <= batch.pollAfter <= batch.sentAt + INITIAL_DELAY
  }

  /** The index entry of an operation names a batch that is tracked and still holds it. */
  predicate Indexed(book: Book, op: string) {
    && op in book.opBatch
    && book.opBatch[op] in book.inProgress
    && op in Ops(book.inProgress[book.opBatch[op]].items)
  }

  ghost predicate Sound(book: Book) {
    && (forall id :: id in book.inProgress ==> WellFormed(book.inProgress[id]))
    && (forall op :: op in book.inFlight ==> Indexed(book, op))
  }

  lemma {:induction false} TrackKeepsSound(book: Book, id: string, batch: Tracked)
    requires Sound(book) && WellFormed(batch) && id !in book.inProgress
    ensures Sound(Track(book, id, batch))
  {
    var after := Track(book, id, batch);
    forall op | op in after.inFlight ensures Indexed(after, op) {
      if op !in Ops(batch.items) { assert Indexed(book, op); }
    }
  }

  lemma {:induction false} ResumeItemsAreAdds(ops: seq<string>)
    ensures OfKind(ResumeItems(ops), Add)
  {
    if ops != [] { ResumeItemsAreAdds(ops[1..]); }
  }

  lemma {:induction false} ResumeKeepsSound(book: Book, rawId: string, ops: seq<string>, now: int)
    requires Sound(book)
    ensures Sound(Resume(book, rawId, ops, now))
  {
    if Resumable(book, rawId, ops) {
      ResumeItemsAreAdds(ops);
      TrackKeepsSound(book, Trim(rawId), Tracked(Add, ResumeItems(ops), now, now, 0));
    }
  }

  lemma {:induction false} ForgetKeepsSound(book: Book, id: string)
    requires Sound(book) && id in book.inProgress
    ensures Sound(Forget(book, id))
  {
    var after := Forget(book, id);
    forall op | op in after.inFlight ensures Indexed(after, op) {
      assert Indexed(book, op);
    }
  }

  /** The reply's filter, element by element. */
  lemma {:induction false} KeepIsFilter(items: seq<Item>, results: seq<NodeResult>)
    ensures forall item :: item in Keep(items, results) <==> item in items && Unfinished(results, item.op)
    ensures |Keep(items, results)| <= |items|
  {
    if items != [] {
      KeepIsFilter(items[1..], results);
      assert items == [items[0]] + items[1..];
    }
  }

  lemma {:induction false} KeptOps(items: seq<Item>, results: seq<NodeResult>)
    ensures Ops(Keep(items, results)) == Ops(items) - Settled(items, results)
  {
    var kept := Keep(items, results);
    KeepIsFilter(items, results);
    forall op | op in Ops(kept) ensures op in Ops(items) - Settled(items, results) {
      var i :| 0 <= i < |kept| && kept[i].op == op;
      assert kept[i] in items;
    }
    forall op | op in Ops(items) - Settled(items, results) ensures op in Ops(kept) {
      var i :| 0 <= i < |items| && items[i].op == op;
      assert items[i] in kept;
    }
  }

  lemma {:induction false} ReplyKeepsSound(book: Book, id: string, results: seq<NodeResult>, now: int)
    requires Sound(book)
    ensures Sound(ApplyReply(book, id, results, now))
  {
    if id in book.inProgress {
      var batch := book.inProgress[id];
      if GivesUp(batch, results) {
        ForgetKeepsSound(book, id);
      } else if results != [] {
        var after := ApplyReply(book, id, results, now);
        KeepIsFilter(batch.items, results);
        KeptOps(batch.items, results);
        assert WellFormed(batch);
        forall op | op in after.inFlight ensures Indexed(after, op) {
          assert Indexed(book, op);
        }
      } else {
        var after := ApplyReply(book, id, results, now);
        forall op | op in after.inFlight ensures Indexed(after, op) {
          assert Indexed(book, op);
        }
      }
    }
  }

  // ---------- conservation ----------

  function Tags(items: seq<Item>): multiset<Tag> {
    if items == [] then multiset{} else multiset{(items[0].op, items[0].kind)} + Tags(items[1..])
  }

  ghost function Pick(ids: set<string>): (id: string)
    requires ids != {}
    ensures id in ids
  {
    var id :| id in ids; id
  }

  /** Everything tracked, batch by batch. */
  ghost function Total(m: map<string, Tracked>): multiset<Tag>
    decreases |m|
  {
    if m.Keys == {} then multiset{}
    else
      var id := Pick(m.Keys);
      Tags(m[id].items) + Total(m - {id})
  }

  lemma {:induction false} Smaller(m: map<string, Tracked>, id: string)
    requires id in m
    ensures |m - {id}| == |m| - 1
  {
    assert (m - {id}).Keys == m.Keys - {id};
  }

  lemma {:induction false} Exchange(whole: multiset<Tag>, a: multiset<Tag>, b: multiset<Tag>, both: multiset<Tag>)
    requires whole == a + (b + both)
    ensures whole == b + (a + both)
  {
  }

  lemma {:induction false} RemovedEitherWay(m: map<string, Tracked>, a: string, b: string)
    requires a in m && b in m && a != b
    ensures m - {a} - {b} == m - {b} - {a} && b in m - {a} && a in m - {b} && (m - {a})[b] == m[b] && (m - {b})[a] == m[a]
  {
  }

  lemma {:induction false} TotalPicks(m: map<string, Tracked>)
    requires |m| > 0
    ensures var k := Pick(m.Keys); k in m && Total(m) == Tags(m[k].items) + Total(m - {k})
  {
    assert m.Keys != {};
  }

  lemma {:induction false} TotalWithout(m: map<string, Tracked>, id: string)
    requires id in m
    ensures Total(m) == Tags(m[id].items) + Total(m - {id})
    decreases |m|
  {
    var k := Pick(m.Keys);
    Smaller(m, id);
    TotalPicks(m);
    Smaller(m, k);
    hide Total, Tags, Pick;
    if k != id {
      RemovedEitherWay(m, k, id);
      TotalWithout(m - {k}, id);
      TotalWithout(m - {id}, k);
      Exchange(Total(m), Tags(m[k].items), Tags(m[id].items), Total(m - {k} - {id}));
    }
  }

  lemma {:induction false} TotalWith(m: map<string, Tracked>, id: string, batch: Tracked)
    ensures Total(m[id := batch]) == Tags(batch.items) + Total(m - {id})
  {
    TotalWithout(m[id := batch], id);
    assert m[id := batch] - {id} == m - {id};
  }

  function EnteredTags(log: seq<Event>): multiset<Tag> {
    if log == [] then multiset{}
    else (if log[0].Entered? then multiset{(log[0].op, log[0].kind)} else multiset{}) + EnteredTags(log[1..])
  }

  function CompletedTags(log: seq<Event>): multiset<Tag> {
    if log == [] then multiset{}
    else (if log[0].Completed? then multiset{(log[0].op, log[0].kind)} else multiset{}) + CompletedTags(log[1..])
  }

  function FaultedTags(log: seq<Event>): multiset<Tag> {
    if log == [] then multiset{}
    else (if log[0].Faulted? then multiset{(log[0].op, log[0].kind)} else multiset{}) + FaultedTags(log[1..])
  }

  lemma {:induction false} TagsAppend(a: seq<Event>, b: seq<Event>)
    ensures EnteredTags(a + b) == EnteredTags(a) + EnteredTags(b)
    ensures CompletedTags(a + b) == CompletedTags(a) + CompletedTags(b)
    ensures FaultedTags(a + b) == FaultedTags(a) + FaultedTags(b)
  {
    if a == [] {
      assert a + b == b;
    } else {
      assert (a + b)[1..] == a[1..] + b;
      TagsAppend(a[1..], b);
    }
  }

  lemma {:induction false} EntriesTags(items: seq<Item>, id: string)
    ensures EnteredTags(Entries(items, id)) == Tags(items)
    ensures CompletedTags(Entries(items, id)) == multiset{} == FaultedTags(Entries(items, id))
  {
    if items != [] {
      EntriesTags(items[1..], id);
      assert Entries(items, id)[1..] == Entries(items[1..], id);
    }
  }

  lemma {:induction false} ExpiriesTags(items: seq<Item>, kind: Kind)
    requires OfKind(items, kind)
    ensures FaultedTags(Expiries(items, kind)) == Tags(items)
    ensures EnteredTags(Expiries(items, kind)) == multiset{} == CompletedTags(Expiries(items, kind))
  {
    if items != [] {
      ExpiriesTags(items[1..], kind);
      assert Expiries(items, kind)[1..] == Expiries(items[1..], kind);
    }
  }

  lemma {:induction false} OutcomeOfTags(item: Item, kind: Kind, results: seq<NodeResult>, now: int)
    requires item.kind == kind
    ensures var out := OutcomeOf(item, kind, results, now);
            var kept := if Unfinished(results, item.op) then multiset{(item.op, item.kind)} else multiset{};
            && EnteredTags(out) == multiset{}
            && multiset{(item.op, item.kind)} == kept + CompletedTags(out) + FaultedTags(out)
  {
    var out := OutcomeOf(item, kind, results, now);
    if out != [] { assert out[1..] == []; }
  }

  lemma {:induction false} Regroup(k: multiset<Tag>, c: multiset<Tag>, f: multiset<Tag>, ks: multiset<Tag>, cs: multiset<Tag>, fs: multiset<Tag>)
    ensures (k + c + f) + (ks + cs + fs) == (k + ks) + (c + cs) + (f + fs)
  {
  }

  /** A reply splits a batch into kept, succeeded and failed items, none lost, none invented. */
  lemma {:induction false} OutcomesTags(items: seq<Item>, kind: Kind, results: seq<NodeResult>, now: int)
    requires OfKind(items, kind)
    ensures var out := Outcomes(items, kind, results, now);
            && EnteredTags(out) == multiset{}
            && Tags(items) == Tags(Keep(items, results)) + CompletedTags(out) + FaultedTags(out)
  {
    if items != [] {
      var head, rest := OutcomeOf(items[0], kind, results, now), Outcomes(items[1..], kind, results, now);
      OutcomesTags(items[1..], kind, results, now);
      OutcomeOfTags(items[0], kind, results, now);
      TagsAppend(head, rest);
      var kept := if Unfinished(results, items[0].op) then multiset{(items[0].op, items[0].kind)} else multiset{};
      Regroup(kept, CompletedTags(head), FaultedTags(head), Tags(Keep(items[1..], results)), CompletedTags(rest), FaultedTags(rest));
      KeepTags(items, results);
    }
  }

  lemma {:induction false} KeepTags(items: seq<Item>, results: seq<NodeResult>)
    requires items != []
    ensures Tags(Keep(items, results))
            == (if Unfinished(results, items[0].op) then multiset{(items[0].op, items[0].kind)} else multiset{}) + Tags(Keep(items[1..], results))
  {
    if Unfinished(results, items[0].op) {
      assert Keep(items, results)[1..] == Keep(items[1..], results);
    } else {
      assert Keep(items, results) == Keep(items[1..], results);
    }
  }

  /** Registered work is what is tracked, plus what succeeded, plus what failed. */
  ghost predicate Balanced(book: Book, log: seq<Event>) {
    forall t: Tag {:trigger EnteredTags(log)[t]} ::
      EnteredTags(log)[t] == Total(book.inProgress)[t] + CompletedTags(log)[t] + FaultedTags(log)[t]
  }

  lemma {:induction false} TrackBalances(book: Book, log: seq<Event>, id: string, batch: Tracked)
    requires Balanced(book, log) && id !in book.inProgress
    ensures Balanced(Track(book, id, batch), log + Entries(batch.items, id))
  {
    var added := Entries(batch.items, id);
    TotalWith(book.inProgress, id, batch);
    assert book.inProgress - {id} == book.inProgress;
    EntriesTags(batch.items, id);
    TagsAppend(log, added);
    forall t: Tag ensures EnteredTags(log + added)[t]
      == Total(Track(book, id, batch).inProgress)[t] + CompletedTags(log + added)[t] + FaultedTags(log + added)[t] {
      assert EnteredTags(log)[t] == Total(book.inProgress)[t] + CompletedTags(log)[t] + FaultedTags(log)[t];
    }
  }

  /** Recording a batch under a tracked ID breaks the balance: the batch under it drops out silently. */
  lemma {:induction false} TrackBalancesExactlyWhenFresh(book: Book, log: seq<Event>, id: string, batch: Tracked)
    requires Sound(book) && Balanced(book, log)
    ensures Balanced(Track(book, id, batch), log + Entries(batch.items, id)) <==> id !in book.inProgress
  {
    if id !in book.inProgress {
      TrackBalances(book, log, id, batch);
    } else {
      OverwritingLoses(book, log, id, batch);
    }
  }

  lemma {:induction false} OverwritingLoses(book: Book, log: seq<Event>, id: string, batch: Tracked)
    requires Sound(book) && Balanced(book, log) && id in book.inProgress
    ensures !Balanced(Track(book, id, batch), log + Entries(batch.items, id))
  {
    TotalWith(book.inProgress, id, batch);
    EntriesTags(batch.items, id);
    TagsAppend(log, Entries(batch.items, id));
    TotalWithout(book.inProgress, id);
    var lostItems := book.inProgress[id].items;
    assert WellFormed(book.inProgress[id]);
    var tag := (lostItems[0].op, lostItems[0].kind);
    assert Tags(lostItems)[tag] > 0;
    assert EnteredTags(log)[tag] == Tags(lostItems)[tag] + Total(book.inProgress - {id})[tag] + CompletedTags(log)[tag] + FaultedTags(log)[tag];
  }

  lemma {:induction false} ForgetBalances(book: Book, log: seq<Event>, id: string)
    requires Sound(book) && Balanced(book, log) && id in book.inProgress
    ensures Balanced(Forget(book, id), log + Expiries(book.inProgress[id].items, book.inProgress[id].kind))
  {
    var batch := book.inProgress[id];
    assert WellFormed(batch);
    TotalWithout(book.inProgress, id);
    ExpiriesTags(batch.items, batch.kind);
    TagsAppend(log, Expiries(batch.items, batch.kind));
  }

  lemma {:induction false} SettleBalances(book: Book, log: seq<Event>, id: string, results: seq<NodeResult>, now: int)
    requires Sound(book) && Balanced(book, log) && id in book.inProgress && results != []
    ensures Balanced(ApplyReply(book, id, results, now), log + Outcomes(book.inProgress[id].items, book.inProgress[id].kind, results, now))
  {
    var batch := book.inProgress[id];
    assert WellFormed(batch);
    var kept, out := Keep(batch.items, results), Outcomes(batch.items, batch.kind, results, now);
    TotalWithout(book.inProgress, id);
    OutcomesTags(batch.items, batch.kind, results, now);
    TagsAppend(log, out);
    var after := ApplyReply(book, id, results, now);
    assert Total(after.inProgress) == Tags(kept) + Total(book.inProgress - {id}) by {
      TotalWith(book.inProgress, id, batch.(items := kept, emptyPolls := 0));
    }
    forall t: Tag ensures EnteredTags(log + out)[t]
      == Total(after.inProgress)[t] + CompletedTags(log + out)[t] + FaultedTags(log + out)[t] {
      assert EnteredTags(log)[t] == Total(book.inProgress)[t] + CompletedTags(log)[t] + FaultedTags(log)[t];
    }
  }

  lemma {:induction false} EmptyReplyBalances(book: Book, log: seq<Event>, id: string, now: int)
    requires Balanced(book, log) && id in book.inProgress && !GivesUp(book.inProgress[id], [])
    ensures Balanced(ApplyReply(book, id, [], now), log)
  {
    hide Total, Balanced, ApplyReply, GivesUp;
    EmptyReplyCounts(book, id, now);
    assert Total(ApplyReply(book, id, [], now).inProgress) == Total(book.inProgress) by {
      SameTotal(book.inProgress, id, book.inProgress[id].(emptyPolls := book.inProgress[id].emptyPolls + 1));
    }
    SameTotalBalances(book, ApplyReply(book, id, [], now), log);
  }

  lemma {:induction false} SameTotalBalances(book: Book, after: Book, log: seq<Event>)
    requires Balanced(book, log) && Total(after.inProgress) == Total(book.inProgress)
    ensures Balanced(after, log)
  {
    hide Total, EnteredTags, CompletedTags, FaultedTags;
  }

  lemma {:induction false} EmptyReplyCounts(book: Book, id: string, now: int)
    requires id in book.inProgress && !GivesUp(book.inProgress[id], [])
    ensures var batch := book.inProgress[id];
            ApplyReply(book, id, [], now).inProgress == book.inProgress[id := batch.(emptyPolls := batch.emptyPolls + 1)]
  {
    hide Keep, Settled, Winners;
  }

  lemma {:induction false} SameTotal(m: map<string, Tracked>, id: string, batch: Tracked)
    requires id in m && batch.items == m[id].items
    ensures Total(m[id := batch]) == Total(m)
  {
    TotalWithout(m, id);
    TotalWith(m, id, batch);
  }

  lemma {:induction false} ReplyBalances(book: Book, log: seq<Event>, id: string, results: seq<NodeResult>, now: int)
    requires Sound(book) && Balanced(book, log)
    ensures Balanced(ApplyReply(book, id, results, now), log + ReplyEvents(book, id, results, now))
  {
    if id !in book.inProgress {
      assert log + [] == log;
    } else if GivesUp(book.inProgress[id], results) {
      ForgetBalances(book, log, id);
    } else if results == [] {
      EmptyReplyBalances(book, log, id, now);
      assert log + [] == log;
    } else {
      SettleBalances(book, log, id, results, now);
    }
  }
}
