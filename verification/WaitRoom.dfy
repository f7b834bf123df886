/** The fields the second mutex guards, and the queue: callers, their channels, and the sender's side of them. */
module Waiters {
  import opened BatchTypes
  import opened WaitLine
  import opened Batcher

  /** Answer every waiter of the list taken out. */
  ghost function DeliverAll(line: Line): Line
    decreases |line.draining|
  {
    if CanDeliver(line) then DeliverAll(Deliver(line)) else line
  }

  /** One resolved operation: its entry removed, all its waiters answered. */
  ghost function AnswerOp(line: Line): Line
    requires CanResolve(line)
  {
    DeliverAll(WaitLine.Resolve(line))
  }

  lemma {:induction false} AnswerIsDelivery(line: Line)
    requires CanResolve(line)
    ensures AnswerOp(line) == DeliverAll(WaitLine.Resolve(line))
  {
  }

  /** The sender's resolve loop over everything it still has to answer. */
  ghost function AnswerAll(line: Line): Line
    decreases if line.sender.Resolving? then |line.sender.todo| else 0
  {
    if CanResolve(line) then
      SameSender(WaitLine.Resolve(line));
      AnswerAll(AnswerOp(line))
    else line
  }

  lemma {:induction false} SameSender(line: Line)
    ensures DeliverAll(line).sender == line.sender
    decreases |line.draining|
  {
    if CanDeliver(line) { SameSender(Deliver(line)); }
  }

  lemma {:induction false} DeliverAllKeeps(line: Line)
    requires LineInv(line)
    ensures LineInv(DeliverAll(line)) && DeliverAll(line).draining == [] && DeliverAll(line).sender == line.sender
    ensures DeliverAll(line).closed == line.closed && DeliverAll(line).queue == line.queue
    ensures DeliverAll(line).pending == line.pending
    decreases |line.draining|
  {
    if line.draining != [] {
      assert CanDeliver(line) by { assert line.draining[0] in line.draining; }
      DeliverKeepsLine(line);
      DeliverAllKeeps(Deliver(line));
    }
  }

  lemma {:induction false} AnswerOpEffect(line: Line)
    requires LineInv(line) && CanResolve(line)
    ensures LineInv(AnswerOp(line)) && AnswerAll(line) == AnswerAll(AnswerOp(line))
    ensures AnswerOp(line).sender == line.sender.(todo := line.sender.todo[1..]) && AnswerOp(line).draining == []
    ensures AnswerOp(line).pending == line.pending - {line.sender.todo[0].op}
    ensures AnswerOp(line).queue == line.queue && AnswerOp(line).closed == line.closed
  {
    ResolveKeepsLine(line);
    DeliverAllKeeps(WaitLine.Resolve(line));
  }

  lemma {:induction false} ResolveTakesWaiters(line: Line)
    requires CanResolve(line)
    ensures var op, mid := line.sender.todo[0].op, WaitLine.Resolve(line);
            && mid.draining == (if op in line.pending then line.pending[op] else []) && mid.pending == line.pending - {op}
            && mid.queue == line.queue && mid.closed == line.closed && mid.writes == line.writes && mid.accepted == line.accepted && mid.next == line.next
            && mid.sender.Resolving? && mid.sender.result == line.sender.result
  {
  }

  lemma {:induction false} NothingToAnswer(line: Line)
    requires line.sender.Resolving? && line.sender.todo == []
    ensures AnswerAll(line) == line
  {
  }

  /** Delivering a list writes the result to each of its channels and to no other. */
  lemma {:induction false} DeliverAllWrites(line: Line, ch: Chan)
    requires LineInv(line) && line.sender.Resolving? && ch in line.writes
    ensures ch in DeliverAll(line).writes && ch in DeliverAll(line).place
    ensures ch in line.draining ==> DeliverAll(line).writes[ch] == [line.sender.result]
    ensures ch !in line.draining ==> DeliverAll(line).writes[ch] == line.writes[ch] && DeliverAll(line).place[ch] == line.place[ch]
    decreases |line.draining|
  {
    if line.draining != [] {
      ReadyToDeliver(line);
      DeliverKeepsLine(line);
      var after := Deliver(line);
      assert line.draining == [line.draining[0]] + after.draining;
      DeliverAllWrites(after, ch);
      if ch == line.draining[0] { FirstDelivered(line); }
    }
  }

  lemma {:induction false} FirstDelivered(line: Line)
    requires LineInv(line) && CanDeliver(line)
    ensures var ch := line.draining[0];
            ch !in Deliver(line).draining && Deliver(line).writes[ch] == [line.sender.result]
  {
    var ch := line.draining[0];
    assert ch in line.draining && line.place[ch].Draining? && line.writes[ch] == [];
  }

  /** The resolve loop writes the outcome to every caller that waits for one of its operations. */
  lemma {:induction false} EveryWaiterIsAnswered(line: Line, ch: Chan)
    requires LineInv(line) && line.sender.Resolving? && line.draining == []
    requires ch in line.place && ch in line.writes && line.place[ch].Waiting? && line.place[ch].op in Ops(line.sender.todo)
    ensures ch in AnswerAll(line).writes && AnswerAll(line).writes[ch] == [line.sender.result]
    decreases |line.sender.todo|
  {
    var todo, op := line.sender.todo, line.place[ch].op;
    AnswerOpEffect(line);
    hide LineInv, AnswerOp, AnswerAll;
    if todo[0].op == op {
      AnsweredNow(line, ch);
      AnsweredStays(AnswerOp(line), ch);
    } else {
      StillWaits(line, ch);
      OpsOfHead(todo);
      EveryWaiterIsAnswered(AnswerOp(line), ch);
    }
  }

  lemma {:induction false} AnsweredNow(line: Line, ch: Chan)
    requires LineInv(line) && CanResolve(line)
    requires ch in line.place && ch in line.writes && line.place[ch] == Waiting(line.sender.todo[0].op)
    ensures ch in AnswerOp(line).writes && AnswerOp(line).writes[ch] == [line.sender.result]
  {
    ResolveKeepsLine(line);
    WaitersOf(line, ch);
    ResolveTakesWaiters(line);
    hide LineInv, WaitLine.Resolve, DeliverAll;
    DeliverAllWrites(WaitLine.Resolve(line), ch);
  }

  lemma {:induction false} StillWaits(line: Line, ch: Chan)
    requires LineInv(line) && CanResolve(line)
    requires ch in line.place && ch in line.writes && line.place[ch].Waiting? && line.place[ch].op != line.sender.todo[0].op
    ensures ch in AnswerOp(line).writes && ch in AnswerOp(line).place && AnswerOp(line).place[ch] == line.place[ch]
  {
    ResolveKeepsLine(line);
    NotWaitersOf(line, ch);
    ResolveTakesWaiters(line);
    hide LineInv, WaitLine.Resolve, DeliverAll;
    DeliverAllWrites(WaitLine.Resolve(line), ch);
  }

  lemma {:induction false} WaitersOf(line: Line, ch: Chan)
    requires LineInv(line) && CanResolve(line)
    requires ch in line.place && line.place[ch] == Waiting(line.sender.todo[0].op)
    ensures ch in WaitLine.Resolve(line).draining
  {
  }

  lemma {:induction false} NotWaitersOf(line: Line, ch: Chan)
    requires LineInv(line) && CanResolve(line)
    requires ch in line.place && line.place[ch].Waiting? && line.place[ch].op != line.sender.todo[0].op
    ensures var mid := WaitLine.Resolve(line); ch !in mid.draining && ch in mid.place && mid.place[ch] == line.place[ch]
  {
  }

  lemma {:induction false} AnsweredStays(line: Line, ch: Chan)
    requires LineInv(line) && line.draining == [] && ch in line.writes && line.writes[ch] != []
    ensures ch in AnswerAll(line).writes && AnswerAll(line).writes[ch] == line.writes[ch]
    decreases if line.sender.Resolving? then |line.sender.todo| else 0
  {
    if CanResolve(line) {
      AnswerOpEffect(line);
      ResolveKeepsLine(line);
      var mid := WaitLine.Resolve(line);
      DeliverAllWrites(mid, ch);
      assert ch !in mid.draining by { WrittenNotDraining(mid, ch); }
      AnsweredStays(AnswerOp(line), ch);
    }
  }

  /** Whoever waits for something else goes on waiting. */
  lemma {:induction false} OthersWaitOn(line: Line, ch: Chan)
    requires LineInv(line) && line.draining == [] && line.sender.Resolving?
    requires ch in line.place && ch in line.writes && line.place[ch].Waiting? && line.place[ch].op !in Ops(line.sender.todo)
    ensures ch in AnswerAll(line).place && AnswerAll(line).place[ch] == line.place[ch]
    decreases |line.sender.todo|
  {
    if line.sender.todo == [] {
      NothingToAnswer(line);
    } else {
      AnswerOpEffect(line);
      OpsOfHead(line.sender.todo);
      StillWaits(line, ch);
      hide LineInv, AnswerOp, AnswerAll;
      OthersWaitOn(AnswerOp(line), ch);
    }
  }

  /** The send's callers have its result, and nobody else has heard anything or lost what he had. */
  ghost predicate Told(was: Line, now: Line, ops: set<string>, result: Result) {
    && (forall ch :: ch in was.place && was.place[ch].Waiting? && was.place[ch].op in ops ==> ch in now.writes && now.writes[ch] == [result])
    && (forall ch :: ch in was.place && was.place[ch].Waiting? && was.place[ch].op !in ops ==> ch in now.place && now.place[ch] == was.place[ch])
    && (forall ch :: ch in was.writes && was.writes[ch] != [] ==> ch in now.writes && now.writes[ch] == was.writes[ch])
  }

  lemma {:induction false} AnswerAllTells(line: Line)
    requires LineInv(line) && line.draining == [] && line.sender.Resolving?
    ensures Told(line, AnswerAll(line), Ops(line.sender.todo), line.sender.result)
  {
    SameKeys(line);
    hide LineInv, AnswerAll, Ops;
    forall ch | ch in line.place && line.place[ch].Waiting? && line.place[ch].op in Ops(line.sender.todo)
      ensures ch in AnswerAll(line).writes && AnswerAll(line).writes[ch] == [line.sender.result] {
      EveryWaiterIsAnswered(line, ch);
    }
    forall ch | ch in line.place && line.place[ch].Waiting? && line.place[ch].op !in Ops(line.sender.todo)
      ensures ch in AnswerAll(line).place && AnswerAll(line).place[ch] == line.place[ch] {
      OthersWaitOn(line, ch);
    }
    forall ch | ch in line.writes && line.writes[ch] != [] ensures ch in AnswerAll(line).writes && AnswerAll(line).writes[ch] == line.writes[ch] {
      AnsweredStays(line, ch);
    }
  }

  lemma {:induction false} SendDoneTells(line: Line, result: Result)
    requires LineInv(line) && line.sender.Sending? && line.draining == []
    ensures Told(line, AnswerAll(SendDone(line, result)), Ops(line.sender.part), result)
  {
    var done := SendDone(line, result);
    SendDoneKeepsLine(line, result);
    hide LineInv;
    AnswerAllTells(done);
    hide AnswerAll, Ops;
  }

  lemma {:induction false} SameKeys(line: Line)
    requires LineInv(line)
    ensures line.place.Keys == line.writes.Keys
  {
  }

  lemma {:induction false} WrittenNotDraining(line: Line, ch: Chan)
    requires ChannelsSound(line) && ch in line.writes && line.writes[ch] != []
    ensures ch !in line.draining
  {
  }

  lemma {:induction false} ReadyToDeliver(line: Line)
    requires LineInv(line) && line.draining != []
    ensures CanDeliver(line)
  {
    assert line.draining[0] in line.draining;
  }

  lemma {:induction false} NothingDraining(line: Line)
    requires LineInv(line) && !line.sender.Resolving?
    ensures line.draining == []
  {
  }

  class WaitRoom {
    var queue: seq<Item>
    var pending: map<string, seq<Chan>>
    var channels: map<Chan, seq<Result>>
    var next: Chan

    /** The line these fields belong to, with the sender's place in it and the histories. */
    ghost var line: Line

    ghost predicate Valid()
      reads this
    {
      && queue == line.queue && pending == line.pending && channels == line.writes && next == line.next
      && LineInv(line)
    }

    constructor ()
      ensures Valid() && line == EMPTY_LINE
    {
      queue, pending, channels, next := [], map[], map[], 0;
      line := EMPTY_LINE;
      assert Unresolved(EMPTY_LINE) == [];
    }

    /** A new call: answered at once if its operation is in flight, otherwise about to join. */
    method Open(item: Item, known: Option<string>) returns (ch: Chan)
      requires Valid()
      modifies this
      ensures Valid() && ch == old(line).next && line == Call(old(line), item, known)
      ensures known.None? ==> CanJoin(line, ch) && line.place[ch] == AtCaller(item)
    {
      CallKeepsLine(line, item, known);
      ch := next;
      next := ch + 1;
      channels := channels[ch := if known.Some? then [Acked(known.value)] else []];
      line := Call(line, item, known);
    }

    /** Join the waiters of an operation already waited for, or queue it, or refuse it when the queue is full. */
    method JoinOrQueue(ch: Chan, item: Item)
      requires Valid() && CanJoin(line, ch) && line.place[ch] == AtCaller(item)
      modifies this
      ensures Valid() && line == Join(old(line), ch)
    {
      hide LineInv;
      JoinKeepsLine(line, ch);
      ghost var after := Join(line, ch);
      if item.op in pending {
        pending := pending[item.op := pending[item.op] + [ch]];
      } else if |queue| < QUEUE_CAPACITY {
        pending := pending[item.op := [ch]];
        queue := queue + [item];
      } else {
        channels := channels[ch := channels[ch] + [Refused(QueueFull)]];
      }
      line := after;
    }

    /**
      Collect a batch: at most `window` receives succeed before the timer or a
      shutdown ends the collection.
     */
    method CollectBatch(window: nat) returns (batch: seq<Item>)
      requires Valid() && line.sender == Collecting([])
      modifies this
      ensures Valid() && line.sender == Collecting(batch)
      ensures old(queue) == batch + queue
      ensures |batch| <= MAX_BATCH_SIZE && |batch| <= window
      ensures |batch| == MAX_BATCH_SIZE || |batch| == window || queue == []
      ensures line.pending == old(line).pending && line.closed == old(line).closed && line.accepted == old(line).accepted
    {
      hide LineInv;
      batch := [];
      while |batch| < window && |batch| < MAX_BATCH_SIZE && queue != []
        invariant Valid() && line.sender == Collecting(batch)
        invariant old(queue) == batch + queue
        invariant |batch| <= MAX_BATCH_SIZE && |batch| <= window
        invariant line.pending == old(line).pending && line.closed == old(line).closed && line.accepted == old(line).accepted
        decreases |queue|
      {
        TakeKeepsLine(line);
        assert batch + queue == batch + [queue[0]] + queue[1..];
        batch := batch + [queue[0]];
        queue := queue[1..];
        line := Take(line);
      }
    }

    /** Deliver a result to every waiter of the operation at hand; the entry goes first. */
    method ResolvePending(op: string, result: Result)
      requires Valid() && CanResolve(line) && line.sender.todo[0].op == op && line.sender.result == result
      modifies this
      ensures Valid() && line == AnswerOp(old(line))
      ensures op !in pending && pending == old(pending) - {op}
    {
      hide LineInv, AnswerOp, WaitLine.Resolve;
      AnswerIsDelivery(line);
      ResolveTakesWaiters(line);
      var waiters := if op in pending then pending[op] else [];
      pending := pending - {op};
      ResolveKeepsLine(line);
      line := WaitLine.Resolve(line);
      ghost var goal := DeliverAll(line);
      var i := 0;
      while i < |waiters|
        invariant 0 <= i <= |waiters| && line.draining == waiters[i..]
        invariant Valid() && line.sender.Resolving? && line.sender.result == result
        invariant pending == old(pending) - {op}
        invariant DeliverAll(line) == goal
      {
        assert line.draining[0] == waiters[i];
        ReadyToDeliver(line);
        DeliverKeepsLine(line);
        channels := channels[waiters[i] := channels[waiters[i]] + [result]];
        line := Deliver(line);
        i := i + 1;
      }
    }

    /** The loop after a send: every item of the part is answered with its outcome. */
    method ResolveAll(part: seq<Item>, result: Result)
      requires Valid() && line.sender.Sending? && line.sender.part == part
      modifies this
      ensures Valid() && line == AnswerAll(SendDone(old(line), result))
      ensures line.sender == Resolving([], result, old(line).sender.later) && line.draining == []
      ensures pending == old(pending) - Ops(part) && queue == old(queue)
      ensures line.closed == old(line).closed
      ensures Told(old(line), line, Ops(part), result)
    {
      hide LineInv, AnswerOp, AnswerAll, Told;
      SendDoneKeepsLine(line, result);
      NothingDraining(line);
      SendDoneTells(line, result);
      line := SendDone(line, result);
      ghost var goal := AnswerAll(line);
      var i := 0;
      while i < |part|
        invariant 0 <= i <= |part|
        invariant Valid() && line.draining == []
        invariant line.sender == Resolving(part[i..], result, old(line).sender.later)
        invariant AnswerAll(line) == goal
        invariant line.pending == old(line).pending - Ops(part[..i]) && line.queue == old(line).queue
        invariant line.closed == old(line).closed
      {
        assert part[i..][0] == part[i] && part[i..][1..] == part[i + 1..];
        AnswerOpEffect(line);
        ResolvePending(part[i].op, result);
        OpsPrefix(part, i);
        i := i + 1;
      }
      assert part[..i] == part && part[i..] == [];
      NothingToAnswer(line);
    }

    /** Between two parts of a batch, or back to collecting. */
    ghost method NextPart()
      requires Valid() && CanAdvance(line)
      modifies `line
      ensures Valid() && line == Advance(old(line))
    {
      AdvanceKeepsLine(line);
      line := Advance(line);
    }

    ghost method StartSending()
      requires Valid() && CanClose(line)
      modifies `line
      ensures Valid() && line == Close(old(line))
    {
      CloseKeepsLine(line);
      line := Close(line);
    }
  }

  lemma {:induction false} OpsPrefix(items: seq<Item>, i: nat)
    requires i < |items|
    ensures Ops(items[..i + 1]) == Ops(items[..i]) + {items[i].op}
  {
    var before, after := items[..i], items[..i + 1];
    assert forall k :: 0 <= k < i ==> after[k] == before[k];
    assert after[i] == items[i];
  }

  /** Partition a collected batch by kind, keeping the order. */
  method Split(batch: seq<Item>) returns (adds: seq<Item>, removes: seq<Item>)
    ensures adds == Part(batch, Kind.Add) && removes == Part(batch, Kind.Remove)
  {
    adds, removes := [], [];
    for i := 0 to |batch|
      invariant adds == Part(batch[..i], Kind.Add) && removes == Part(batch[..i], Kind.Remove)
    {
      assert batch[..i + 1] == batch[..i] + [batch[i]];
      PartSnoc(batch[..i], batch[i], Kind.Add);
      PartSnoc(batch[..i], batch[i], Kind.Remove);
      if batch[i].kind == Kind.Remove {
        removes := removes + [batch[i]];
      } else {
        adds := adds + [batch[i]];
      }
    }
    assert batch[..|batch|] == batch;
  }

  lemma {:induction false} PartSnoc(batch: seq<Item>, item: Item, kind: Kind)
    ensures Part(batch + [item], kind) == Part(batch, kind) + if item.kind == kind then [item] else []
  {
    if batch == [] {
      assert batch + [item] == [item] && [item][1..] == [];
    } else {
      var head, more := if batch[0].kind == kind then [batch[0]] else [], if item.kind == kind then [item] else [];
      assert (batch + [item])[1..] == batch[1..] + [item];
      PartSnoc(batch[1..], item, kind);
      assert head + (Part(batch[1..], kind) + more) == (head + Part(batch[1..], kind)) + more;
    }
  }
}
