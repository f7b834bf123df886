/**
  The other half of the batcher: callers, their result channels, the bounded
  queue and the sender. Each function is one step that no other goroutine can
  observe half-way; enqueueing is two steps, because the in-flight check gives
  its lock back before the queue's lock is taken.
 */
module WaitLine {
  import opened BatchTypes

  /** A result channel, named by the order of its creation. */
  type Chan = nat

  /** Where a channel is. The operation is the one its caller asked for. */
  datatype Place =
    | AtCaller(item: Item)
    | Waiting(op: string)
    | Draining(op: string)
    | Written(op: string)
  {
    function Op(): string { if AtCaller? then item.op else op }
  }

  /** The sender's program counter and local variables. */
  datatype Sender =
    | Collecting(batch: seq<Item>)
    | Sending(part: seq<Item>, later: seq<Item>)
    | Resolving(todo: seq<Item>, result: Result, later: seq<Item>)
  {
    /** Items taken off the queue whose callers still wait. */
    function Held(): seq<Item> {
      match this
      case Collecting(batch) => batch
      case Sending(part, later) => part + later
      case Resolving(todo, _, later) => todo + later
    }
  }

  datatype Line = Line(
    queue: seq<Item>,
    pending: map<string, seq<Chan>>,
    sender: Sender,
    draining: seq<Chan>,
    // Histories: what was ever written, where each channel is, what was accepted
    // and collected, and the acceptance index each operation and channel waits for.
    next: Chan,
    writes: map<Chan, seq<Result>>,
    place: map<Chan, Place>,
    accepted: seq<Item>,
    closed: seq<seq<Item>>,
    slotOf: map<string, nat>,
    slot: map<Chan, nat>)

  const EMPTY_LINE := Line([], map[], Collecting([]), [], 0, map[], map[], [], [], map[], map[])

  // ---------- the steps ----------

  /** First section of an enqueue: `known` is the batch of an operation already in flight. */
  function Call(line: Line, item: Item, known: Option<string>): Line {
    var ch := line.next;
    line.(next := ch + 1,
          writes := line.writes[ch := if known.Some? then [Acked(known.value)] else []],
          place := line.place[ch := if known.Some? then Written(item.op) else AtCaller(item)])
  }

  predicate CanJoin(line: Line, ch: Chan) {
    ch in line.place && line.place[ch].AtCaller? && ch in line.writes
  }

  /** The second section puts a new item on the queue. */
  predicate Accepts(line: Line, ch: Chan) {
    && CanJoin(line, ch)
    && line.place[ch].item.op !in line.pending
    && |line.queue| < QUEUE_CAPACITY
  }

  /** Second section of an enqueue. */
  function Join(line: Line, ch: Chan): Line
    requires CanJoin(line, ch)
  {
    var item := line.place[ch].item;
    var op := item.op;
    if op in line.pending then
      line.(pending := line.pending[op := line.pending[op] + [ch]],
      place := line.place[ch := Waiting(op)],
      slot := line.slot[ch := if op in line.slotOf then line.slotOf[op] else 0])
    else if Accepts(line, ch) then
      line.(pending := line.pending[op := [ch]],
      queue := line.queue + [item],
      place := line.place[ch := Waiting(op)],
      accepted := line.accepted + [item],
      slotOf := line.slotOf[op := |line.accepted|],
      slot := line.slot[ch := |line.accepted|])
    else
      line.(writes := line.writes[ch := line.writes[ch] + [Refused(QueueFull)]],
      place := line.place[ch := Written(op)])
  }

  predicate CanTake(line: Line) {
    line.sender.Collecting? && |line.sender.batch| < MAX_BATCH_SIZE && line.queue != []
  }

  function Take(line: Line): Line
    requires CanTake(line)
  {
    line.(queue := line.queue[1..], sender := Collecting(line.sender.batch + [line.queue[0]]))
  }

  /** The items of one kind, in order. */
  function Part(batch: seq<Item>, kind: Kind): seq<Item> {
    if batch == [] then []
    else (if batch[0].kind == kind then [batch[0]] else []) + Part(batch[1..], kind)
  }

  predicate CanClose(line: Line) {
    line.sender.Collecting? && line.sender.batch != []
  }

  /** Collection ends (full, window over, or shutdown) and the batch is split by kind. */
  function Close(line: Line): Line
    requires CanClose(line)
  {
    var batch := line.sender.batch;
    var adds, removes := Part(batch, Add), Part(batch, Remove);
    line.(closed := line.closed + [batch],
          sender := if adds == [] then Sending(removes, []) else Sending(adds, removes))
  }

  /** The send call returned. */
  function SendDone(line: Line, result: Result): Line
    requires line.sender.Sending?
  {
    line.(sender := Resolving(line.sender.part, result, line.sender.later))
  }

  predicate CanResolve(line: Line) {
    line.sender.Resolving? && line.sender.todo != [] && line.draining == []
  }

  function Waiters(line: Line, op: string): seq<Chan> {
    if op in line.pending then line.pending[op] else []
  }

  /** Take an operation's waiter list out from under the lock. */
  function Resolve(line: Line): Line
    requires CanResolve(line)
  {
    var op := line.sender.todo[0].op;
    var waiters := Waiters(line, op);
    line.(pending := line.pending - {op},
          sender := line.sender.(todo := line.sender.todo[1..]),
          draining := waiters,
          place := line.place + map ch | ch in waiters :: Draining(op))
  }

  predicate CanDeliver(line: Line) {
    && line.sender.Resolving? && line.draining != []
    && line.draining[0] in line.place && line.draining[0] in line.writes
  }

  /** Write to one waiter's channel. */
  function Deliver(line: Line): Line
    requires CanDeliver(line)
  {
    var ch := line.draining[0];
    line.(draining := line.draining[1..],
          writes := line.writes[ch := line.writes[ch] + [line.sender.result]],
          place := line.place[ch := Written(line.place[ch].Op())])
  }

  predicate CanAdvance(line: Line) {
    line.sender.Resolving? && line.sender.todo == [] && line.draining == []
  }

  /** The next partition of the same batch, or the next collection. */
  function Advance(line: Line): Line
    requires CanAdvance(line)
  {
    var later := line.sender.later;
    line.(sender := if later == [] then Collecting([]) else Sending(later, []))
  }

  // ---------- who waits for what ----------

  function Unresolved(line: Line): seq<Item> {
    line.sender.Held() + line.queue
  }

  /** The operations waited for are exactly those queued or held unresolved, each once. */
  ghost predicate KeysMatch(line: Line) {
    && DistinctOps(Unresolved(line))
    && Ops(Unresolved(line)) == line.pending.Keys
  }

  /** A channel is written exactly when it is Written, and then exactly once. */
  ghost predicate WrittenOnce(line: Line) {
    && line.place.Keys == line.writes.Keys
    && (forall ch :: ch in line.place ==> ch < line.next)
    && (forall ch :: ch in line.place ==> |line.writes[ch]| == if line.place[ch].Written? then 1 else 0)
  }

  /** The waiter lists hold exactly the waiting channels, each once and under its own operation. */
  ghost predicate ListsExact(line: Line) {
    && (forall op :: op in line.pending ==> Distinct(line.pending[op]))
    && (forall op, ch :: op in line.pending && ch in line.pending[op] ==> ch in line.place && line.place[ch] == Waiting(op))
    && (forall ch :: ch in line.place && line.place[ch].Waiting? ==>
          line.place[ch].op in line.pending && ch in line.pending[line.place[ch].op])
  }

  /** The list being answered holds exactly the draining channels. */
  ghost predicate DrainExact(line: Line) {
    && Distinct(line.draining)
    && (forall ch :: ch in line.draining ==> ch in line.place && line.place[ch].Draining?)
    && (forall ch :: ch in line.place && line.place[ch].Draining? ==> ch in line.draining)
    && (line.draining != [] ==> line.sender.Resolving?)
  }

  /** Every channel is in exactly one place, and no place invents or drops one. */
  ghost predicate ChannelsSound(line: Line) {
    WrittenOnce(line) && ListsExact(line) && DrainExact(line)
  }

  // ---------- the partition ----------

  lemma {:induction false} PartIsFilter(batch: seq<Item>, kind: Kind)
    ensures forall item :: item in Part(batch, kind) <==> item in batch && item.kind == kind
    ensures |Part(batch, kind)| <= |batch|
  {
    if batch != [] {
      PartIsFilter(batch[1..], kind);
      assert batch == [batch[0]] + batch[1..];
    }
  }

  /** Splitting by kind loses nothing, invents nothing. */
  lemma {:induction false} PartitionComplete(batch: seq<Item>)
    ensures multiset(batch) == multiset(Part(batch, Add)) + multiset(Part(batch, Remove))
    ensures |batch| == |Part(batch, Add)| + |Part(batch, Remove)|
  {
    if batch != [] {
      PartitionComplete(batch[1..]);
      assert batch == [batch[0]] + batch[1..];
    }
  }

  /** Each part keeps the batch's order. */
  lemma {:induction false} PartIsStable(batch: seq<Item>, kind: Kind) returns (at: seq<int>)
    ensures Embeds(batch, Part(batch, kind), at)
  {
    at := [];
    if batch != [] {
      var rest := PartIsStable(batch[1..], kind);
      hide Embeds;
      at := EmbedMore(batch, Part(batch[1..], kind), rest, batch[0].kind == kind);
    }
  }

  lemma {:induction false} DistinctPart(batch: seq<Item>, kind: Kind)
    requires DistinctOps(batch)
    ensures DistinctOps(Part(batch, kind))
  {
    var at := PartIsStable(batch, kind);
  }

  /** The two parts together are the batch again, as far as operations go. */
  lemma {:induction false} PartsOps(batch: seq<Item>)
    requires DistinctOps(batch)
    ensures DistinctOps(Part(batch, Add) + Part(batch, Remove))
    ensures Ops(Part(batch, Add) + Part(batch, Remove)) == Ops(batch)
  {
    var adds, removes := Part(batch, Add), Part(batch, Remove);
    PartIsFilter(batch, Add);
    PartIsFilter(batch, Remove);
    DistinctPart(batch, Add);
    DistinctPart(batch, Remove);
    forall i, j | 0 <= i < |adds| && 0 <= j < |removes| ensures adds[i].op != removes[j].op {
      assert adds[i] in batch && removes[j] in batch;
    }
    forall op | op in Ops(batch) ensures op in Ops(adds + removes) {
      var i :| 0 <= i < |batch| && batch[i].op == op;
      assert batch[i] in adds + removes;
    }
    forall op | op in Ops(adds + removes) ensures op in Ops(batch) {
      var i :| 0 <= i < |adds + removes| && (adds + removes)[i].op == op;
      assert (adds + removes)[i] in batch;
    }
  }

  // ---------- KeysMatch is kept ----------

  lemma {:induction false} JoinKeepsKeys(line: Line, ch: Chan)
    requires KeysMatch(line) && CanJoin(line, ch)
    ensures KeysMatch(Join(line, ch))
  {
    if Accepts(line, ch) {
      var item := line.place[ch].item;
      var before, after := Unresolved(line), Unresolved(Join(line, ch));
      assert after == before + [item];
      assert Ops(after) == Ops(before) + {item.op} by { OpsAppend(before, item); }
    }
  }

  lemma {:induction false} OpsAppend(items: seq<Item>, item: Item)
    ensures Ops(items + [item]) == Ops(items) + {item.op}
  {
    var all := items + [item];
    assert all[|items|] == item;
    forall op | op in Ops(items) ensures op in Ops(all) {
      var i :| 0 <= i < |items| && items[i].op == op;
      assert all[i].op == op;
    }
  }

  lemma {:induction false} TakeKeepsKeys(line: Line)
    requires KeysMatch(line) && CanTake(line)
    ensures KeysMatch(Take(line))
  {
    assert Unresolved(Take(line)) == Unresolved(line);
  }

  lemma {:induction false} CloseKeepsKeys(line: Line)
    requires KeysMatch(line) && CanClose(line)
    ensures KeysMatch(Close(line))
  {
    var batch := line.sender.batch;
    var parts := Part(batch, Add) + Part(batch, Remove);
    assert Close(line).sender.Held() == parts;
    assert DistinctOps(batch) by {
      assert forall i :: 0 <= i < |batch| ==> Unresolved(line)[i] == batch[i];
    }
    PartsOps(batch);
    ReplaceHead(batch, parts, line.queue);
  }

  lemma {:induction false} OpsOfSum(a: seq<Item>, b: seq<Item>)
    ensures Ops(a + b) == Ops(a) + Ops(b)
  {
    forall op | op in Ops(a) + Ops(b) ensures op in Ops(a + b) {
      if op in Ops(a) {
        var i :| 0 <= i < |a| && a[i].op == op;
        assert (a + b)[i].op == op;
      } else {
        var i :| 0 <= i < |b| && b[i].op == op;
        assert (a + b)[|a| + i].op == op;
      }
    }
  }

  lemma {:induction false} ReplaceHead(a: seq<Item>, a': seq<Item>, b: seq<Item>)
    requires DistinctOps(a + b) && DistinctOps(a') && Ops(a') == Ops(a)
    ensures DistinctOps(a' + b) && Ops(a' + b) == Ops(a + b)
  {
    OpsOfSum(a, b);
    OpsOfSum(a', b);
    forall i, j | 0 <= i < |a'| && 0 <= j < |b| ensures a'[i].op != b[j].op {
      assert a'[i].op in Ops(a);
      var k :| 0 <= k < |a| && a[k].op == a'[i].op;
      assert (a + b)[k] == a[k] && (a + b)[|a| + j] == b[j];
    }
    forall i, j | 0 <= i < j < |b| ensures b[i].op != b[j].op {
      assert (a + b)[|a| + i] == b[i] && (a + b)[|a| + j] == b[j];
    }
  }

  lemma {:induction false} ResolveKeepsKeys(line: Line)
    requires KeysMatch(line) && CanResolve(line)
    ensures KeysMatch(Resolve(line))
  {
    var before, after := Unresolved(line), Unresolved(Resolve(line));
    assert after == before[1..];
    assert before == [before[0]] + after;
    OpsOfSum([before[0]], after);
    assert Ops([before[0]]) == {before[0].op};
    assert before[0] == line.sender.todo[0];
    forall i | 0 <= i < |after| ensures after[i].op != before[0].op {
      assert after[i] == before[i + 1];
    }
  }

  lemma {:induction false} AdvanceKeepsKeys(line: Line)
    requires KeysMatch(line) && CanAdvance(line)
    ensures KeysMatch(Advance(line))
  {
    assert Unresolved(Advance(line)) == Unresolved(line);
  }

  // ---------- ChannelsSound is kept ----------

  lemma {:induction false} CallKeepsChannels(line: Line, item: Item, known: Option<string>)
    requires ChannelsSound(line)
    ensures ChannelsSound(Call(line, item, known))
  {
    var after := Call(line, item, known);
    assert line.next !in line.place;
    assert ListsExact(after) by {
      assert forall ch :: ch in line.place ==> after.place[ch] == line.place[ch];
    }
    assert DrainExact(after) by {
      assert forall ch :: ch in line.place ==> after.place[ch] == line.place[ch];
    }
  }

  lemma {:induction false} JoinKeepsChannels(line: Line, ch: Chan)
    requires ChannelsSound(line) && CanJoin(line, ch)
    ensures ChannelsSound(Join(line, ch))
  {
    JoinKeepsLists(line, ch);
    JoinKeepsDraining(line, ch);
    hide ListsExact, DrainExact;
    JoinWritesOnce(line, ch);
  }

  lemma {:induction false} JoinKeepsDraining(line: Line, ch: Chan)
    requires DrainExact(line) && CanJoin(line, ch)
    ensures DrainExact(Join(line, ch))
  {
  }

  lemma {:induction false} JoinWritesOnce(line: Line, ch: Chan)
    requires WrittenOnce(line) && CanJoin(line, ch)
    ensures WrittenOnce(Join(line, ch))
  {
  }

  lemma {:induction false} JoinKeepsLists(line: Line, ch: Chan)
    requires ListsExact(line) && CanJoin(line, ch)
    ensures ListsExact(Join(line, ch))
  {
    if line.place[ch].item.op in line.pending { LongerListIsExact(line, ch); }
  }

  lemma {:induction false} LongerListIsExact(line: Line, ch: Chan)
    requires ListsExact(line) && CanJoin(line, ch) && line.place[ch].item.op in line.pending
    ensures ListsExact(Join(line, ch))
  {
    var op, after := line.place[ch].item.op, Join(line, ch);
    assert forall c :: c in line.place && c != ch ==> c in after.place && after.place[c] == line.place[c];
    assert ch !in line.pending[op];
    assert after.pending[op] == line.pending[op] + [ch];
    assert forall p :: p in line.pending && p != op ==> after.pending[p] == line.pending[p];
  }

  lemma {:induction false} ResolveKeepsChannels(line: Line)
    requires ChannelsSound(line) && CanResolve(line)
    ensures ChannelsSound(Resolve(line))
  {
    var after := Resolve(line);
    var waiters := Waiters(line, line.sender.todo[0].op);
    assert after.place.Keys == line.place.Keys;
    assert forall c :: c in line.place && c !in waiters ==> after.place[c] == line.place[c];
    ResolveKeepsLists(line);
    assert DrainExact(after) by {
      assert forall c :: c in waiters ==> after.place[c].Draining?;
    }
  }

  lemma {:induction false} ResolveKeepsLists(line: Line)
    requires ListsExact(line) && CanResolve(line)
    ensures ListsExact(Resolve(line))
  {
    var after := Resolve(line);
    var op := line.sender.todo[0].op;
    var waiters := Waiters(line, op);
    forall p, c | p in after.pending && c in after.pending[p] ensures c in after.place && after.place[c] == Waiting(p) {
      assert line.place[c] == Waiting(p);
      assert c !in waiters;
    }
    forall c | c in after.place && after.place[c].Waiting?
      ensures after.place[c].op in after.pending && c in after.pending[after.place[c].op] {
      assert c !in waiters;
      assert after.place[c] == line.place[c];
    }
  }

  lemma {:induction false} DeliverKeepsChannels(line: Line)
    requires ChannelsSound(line) && line.sender.Resolving? && line.draining != []
    ensures CanDeliver(line) && ChannelsSound(Deliver(line))
  {
    DeliverKeepsLists(line);
    DeliverKeepsDraining(line);
    hide ListsExact, DrainExact;
    DeliverWritesOnce(line);
  }

  lemma {:induction false} DeliverKeepsDraining(line: Line)
    requires DrainExact(line) && CanDeliver(line)
    ensures DrainExact(Deliver(line)) && line.place[line.draining[0]].Draining?
  {
    var ch, after := line.draining[0], Deliver(line);
    assert line.draining == [ch] + after.draining && ch in line.draining;
    assert ch !in after.draining;
    assert forall c :: c in line.place && c != ch ==> after.place[c] == line.place[c];
  }

  lemma {:induction false} DeliverWritesOnce(line: Line)
    requires WrittenOnce(line) && CanDeliver(line) && line.place[line.draining[0]].Draining?
    ensures WrittenOnce(Deliver(line))
  {
  }

  lemma {:induction false} DeliverKeepsLists(line: Line)
    requires ChannelsSound(line) && line.sender.Resolving? && line.draining != []
    ensures CanDeliver(line) && ListsExact(Deliver(line))
  {
    var ch := line.draining[0];
    assert ch in line.draining;
    hide WrittenOnce;
    assert forall c :: c in line.place && c != ch ==> Deliver(line).place[c] == line.place[c];
  }

  // ---------- order: nothing accepted is lost or overtaken ----------

  function Flatten(batches: seq<seq<Item>>): seq<Item> {
    if batches == [] then [] else batches[0] + Flatten(batches[1..])
  }

  lemma {:induction false} FlattenAppend(batches: seq<seq<Item>>, last: seq<Item>)
    ensures Flatten(batches + [last]) == Flatten(batches) + last
  {
    if batches == [] {
      assert batches + [last] == [last];
      assert [last][1..] == [];
    } else {
      assert (batches + [last])[1..] == batches[1..] + [last];
      FlattenAppend(batches[1..], last);
      assert batches[0] + (Flatten(batches[1..]) + last) == batches[0] + Flatten(batches[1..]) + last;
    }
  }

  function Batch(line: Line): seq<Item> {
    if line.sender.Collecting? then line.sender.batch else []
  }

  predicate BatchSizes(batches: seq<seq<Item>>) {
    forall i :: 0 <= i < |batches| ==> 1 <= |batches[i]| <= MAX_BATCH_SIZE
  }

  /** Accepted requests are the collected batches, the batch being collected, and the queue, in order. */
  ghost predicate InOrder(line: Line) {
    && line.accepted == Flatten(line.closed) + Batch(line) + line.queue
    && BatchSizes(line.closed)
    && |Batch(line)| <= MAX_BATCH_SIZE
    && |line.queue| <= QUEUE_CAPACITY
    && (!line.sender.Collecting? ==> line.closed != [])
  }

  /** Acceptance indices below this belong to earlier rounds of the sender. */
  function RoundStart(line: Line): int {
    |line.accepted| - |line.queue| - if line.sender.Collecting? || line.closed == [] then |Batch(line)| else |line.closed[|line.closed| - 1]|
  }

  /** A waiting operation's slot lies in the current round or behind it. */
  ghost predicate Slotted(line: Line) {
    && line.pending.Keys <= line.slotOf.Keys
    && (forall i :: 0 <= i < |line.queue| ==>
          line.queue[i].op in line.slotOf && line.slotOf[line.queue[i].op] == |line.accepted| - |line.queue| + i)
    && (forall i :: 0 <= i < |line.sender.Held()| ==>
          && line.sender.Held()[i].op in line.slotOf
          && RoundStart(line) <= line.slotOf[line.sender.Held()[i].op] < |line.accepted| - |line.queue|)
    && (forall ch :: ch in line.place && line.place[ch].Waiting? ==>
          ch in line.slot && line.place[ch].op in line.slotOf && line.slot[ch] == line.slotOf[line.place[ch].op])
  }

  lemma {:induction false} JoinKeepsOrder(line: Line, ch: Chan)
    requires InOrder(line) && CanJoin(line, ch)
    ensures InOrder(Join(line, ch))
  {
    if Accepts(line, ch) {
      var item := line.place[ch].item;
      assert Flatten(line.closed) + Batch(line) + (line.queue + [item]) == Flatten(line.closed) + Batch(line) + line.queue + [item];
    }
  }

  lemma {:induction false} TakeKeepsOrder(line: Line)
    requires InOrder(line) && CanTake(line)
    ensures InOrder(Take(line))
  {
    var after := Take(line);
    assert line.queue == [line.queue[0]] + after.queue;
    assert Batch(line) + line.queue == Batch(after) + after.queue;
    assert Flatten(line.closed) + (Batch(line) + line.queue) == line.accepted;
    assert Flatten(line.closed) + (Batch(after) + after.queue) == Flatten(line.closed) + Batch(after) + after.queue;
  }

  lemma {:induction false} CloseKeepsOrder(line: Line)
    requires InOrder(line) && CanClose(line)
    ensures InOrder(Close(line))
  {
    FlattenAppend(line.closed, line.sender.batch);
    assert Flatten(line.closed) + line.sender.batch + [] + line.queue == Flatten(line.closed) + line.sender.batch + line.queue;
  }

  lemma {:induction false} AdvanceKeepsOrder(line: Line)
    requires InOrder(line) && CanAdvance(line)
    ensures InOrder(Advance(line))
  {
  }

  lemma {:induction false} JoinKeepsSlots(line: Line, ch: Chan)
    requires KeysMatch(line) && ListsExact(line) && Slotted(line) && CanJoin(line, ch)
    ensures Slotted(Join(line, ch))
  {
    if line.place[ch].item.op in line.pending {
      JoinListKeepsSlots(line, ch);
    } else if Accepts(line, ch) {
      AcceptKeepsSlots(line, ch);
    }
  }

  lemma {:induction false} AcceptKeepsSlots(line: Line, ch: Chan)
    requires KeysMatch(line) && ListsExact(line) && Slotted(line) && CanJoin(line, ch) && Accepts(line, ch)
    ensures Slotted(Join(line, ch))
  {
    AcceptedIsNew(line, ch);
    hide KeysMatch;
  }

  lemma {:induction false} JoinListKeepsSlots(line: Line, ch: Chan)
    requires KeysMatch(line) && ListsExact(line) && Slotted(line) && CanJoin(line, ch) && line.place[ch].item.op in line.pending
    ensures Slotted(Join(line, ch))
  {
  }

  lemma {:induction false} AcceptedIsNew(line: Line, ch: Chan)
    requires KeysMatch(line) && Accepts(line, ch)
    ensures forall i :: 0 <= i < |line.queue| ==> line.queue[i].op != line.place[ch].item.op
    ensures forall i :: 0 <= i < |line.sender.Held()| ==> line.sender.Held()[i].op != line.place[ch].item.op
  {
    var op := line.place[ch].item.op;
    var items, held := Unresolved(line), line.sender.Held();
    assert op !in Ops(items);
    forall i | 0 <= i < |line.queue| ensures line.queue[i].op != op {
      assert items[|held| + i] == line.queue[i];
    }
    forall i | 0 <= i < |held| ensures held[i].op != op {
      assert items[i] == held[i];
    }
  }

  lemma {:induction false} TakeKeepsSlots(line: Line)
    requires InOrder(line) && Slotted(line) && CanTake(line)
    ensures Slotted(Take(line))
  {
    var after := Take(line);
    var held := line.sender.Held();
    assert after.sender.Held() == held + [line.queue[0]];
    assert RoundStart(after) == RoundStart(line) >= 0;
    forall i | 0 <= i < |after.sender.Held()|
      ensures after.sender.Held()[i].op in line.slotOf
      ensures RoundStart(after) <= line.slotOf[after.sender.Held()[i].op] < |after.accepted| - |after.queue|
    {
      if i == |held| { assert line.queue[0].op in line.slotOf; } else { assert held[i].op in line.slotOf; }
    }
    forall i | 0 <= i < |after.queue| ensures after.queue[i] == line.queue[i + 1] {
    }
  }

  lemma {:induction false} CloseKeepsSlots(line: Line)
    requires InOrder(line) && Slotted(line) && CanClose(line)
    ensures Slotted(Close(line))
  {
    var batch := line.sender.batch;
    var after := Close(line);
    PartIsFilter(batch, Add);
    PartIsFilter(batch, Remove);
    assert RoundStart(after) == RoundStart(line);
    var held := after.sender.Held();
    assert held == Part(batch, Add) + Part(batch, Remove);
    forall i | 0 <= i < |held|
      ensures held[i].op in line.slotOf
      ensures RoundStart(after) <= line.slotOf[held[i].op] < |after.accepted| - |after.queue|
    {
      assert held[i] in batch;
      var k :| 0 <= k < |batch| && batch[k] == held[i];
      assert line.sender.Held()[k].op in line.slotOf;
    }
  }

  lemma {:induction false} SendDoneKeepsSlots(line: Line, result: Result)
    requires Slotted(line) && line.sender.Sending?
    ensures Slotted(SendDone(line, result))
  {
    assert SendDone(line, result).sender.Held() == line.sender.Held();
  }

  lemma {:induction false} ResolveKeepsSlots(line: Line)
    requires Slotted(line) && CanResolve(line)
    ensures Slotted(Resolve(line))
  {
    var after := Resolve(line);
    assert after.sender.Held() == line.sender.Held()[1..];
    assert RoundStart(after) == RoundStart(line);
  }

  lemma {:induction false} AdvanceKeepsSlots(line: Line)
    requires InOrder(line) && Slotted(line) && CanAdvance(line)
    ensures Slotted(Advance(line))
  {
    var after := Advance(line);
    assert after.sender.Held() == line.sender.Held();
  }

  // ---------- progress ----------

  /** What later states of a run keep of an earlier one. */
  ghost predicate Later(early: Line, late: Line) {
    && early.closed <= late.closed
    && (forall ch :: ch in early.slot && ch in early.place && !early.place[ch].AtCaller? ==>
          ch in late.slot && late.slot[ch] == early.slot[ch])
    && (forall ch :: ch in early.place ==>
          && ch in late.place && late.place[ch].Op() == early.place[ch].Op()
          && (!early.place[ch].AtCaller? ==> !late.place[ch].AtCaller?))
    && (forall ch :: ch in early.place && early.place[ch].Written? ==> late.place[ch].Written?)
    && (forall ch :: ch in early.writes && early.writes[ch] != [] ==> ch in late.writes && late.writes[ch] == early.writes[ch])
  }

  lemma {:induction false} FlattenGrows(early: seq<seq<Item>>, late: seq<seq<Item>>)
    requires early <= late && BatchSizes(late)
    ensures |Flatten(late)| >= |Flatten(early)| + (|late| - |early|)
    decreases |late|
  {
    if |late| > |early| {
      var init := late[..|late| - 1];
      assert late == init + [late[|late| - 1]];
      FlattenAppend(init, late[|late| - 1]);
      FlattenGrows(early, init);
    } else {
      assert early == late;
    }
  }

  lemma {:induction false} WaitingSlot(line: Line, ch: Chan)
    requires KeysMatch(line) && ListsExact(line) && InOrder(line) && Slotted(line)
    requires ch in line.place && line.place[ch].Waiting?
    ensures ch in line.slot && line.slot[ch] >= RoundStart(line)
  {
    var op := line.place[ch].op;
    assert op in Ops(Unresolved(line));
    var items, held := Unresolved(line), line.sender.Held();
    var i :| 0 <= i < |items| && items[i].op == op;
    if i < |held| {
      assert held[i] == items[i];
    } else {
      assert line.queue[i - |held|] == items[i];
    }
  }

  /** Between rounds, everything collected so far has been answered. */
  lemma {:induction false} BetweenRounds(line: Line, ch: Chan)
    requires KeysMatch(line) && ChannelsSound(line) && InOrder(line) && Slotted(line)
    requires line.sender.Collecting?
    requires ch in line.place && !line.place[ch].AtCaller? && ch in line.slot
    requires line.slot[ch] < |Flatten(line.closed)|
    ensures line.place[ch].Written?
  {
    if line.place[ch].Waiting? {
      WaitingSlot(line, ch);
    }
  }
}
