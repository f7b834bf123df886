/** The batcher as its callers, its sender and its poller use it. */
module NodeBatcher {
  import opened BatchTypes
  import opened Ledger
  import opened WaitLine
  import opened Batcher
  import opened BatchRegistry
  import opened Waiters

  /** What the broker makes of one send. */
  datatype Outcome = AcceptedAs(batchId: string) | Rejected(cause: string)

  function AnswerTo(outcome: Outcome, kind: Kind): Result {
    match outcome
    case AcceptedAs(id) => Acked(id)
    case Rejected(cause) => Refused(SendFailed(kind, cause))
  }

  /** The book after one part was sent. */
  function BookAfter(book: Book, kind: Kind, part: seq<Item>, outcome: Outcome, now: int): Book {
    if part == [] || outcome.Rejected? then book else Ledger.Register(book, kind, outcome.batchId, part, now)
  }

  /** The sender once a part is answered: on to the next part, or collecting again. */
  function AfterPart(later: seq<Item>): Sender {
    if later == [] then Collecting([]) else Sending(later, [])
  }

  /** The line after an enqueue. */
  function Enqueued(line: Line, book: Book, item: Item): Line {
    var called := Call(line, item, Known(book, item.op));
    if item.op in book.inFlight then called else JoinIfCan(called, line.next)
  }

  function JoinIfCan(line: Line, ch: Chan): Line {
    if CanJoin(line, ch) then Join(line, ch) else line
  }

  class NodeBatcher {
    const registry: Registry
    const room: WaitRoom

    ghost predicate Valid()
      reads this, registry, registry.parts, room
    {
      room as object != registry as object && room as object !in registry.parts && registry.Valid() && room.Valid()
    }

    constructor ()
      ensures Valid() && registry.book == EMPTY_BOOK && room.line == EMPTY_LINE
    {
      registry := new Registry();
      room := new WaitRoom();
    }

    /** Enqueue: answered at once when in flight, otherwise waiting, queued or refused. */
    method EnqueueItem(item: Item) returns (ch: Chan)
      requires Valid()
      modifies room
      ensures Valid() && registry.book == old(registry.book) && ch == old(room.line).next
      ensures room.line == Enqueued(old(room.line), registry.book, item)
      ensures ch in room.channels && forall c :: c in old(room.channels) ==> c in room.channels && room.channels[c] == old(room.channels)[c]
      ensures item.op in registry.inFlight ==>
                && room.queue == old(room.queue) && room.pending == old(room.pending)
                && (item.op in registry.opBatch ==> room.channels[ch] == [Acked(registry.opBatch[item.op])])
      ensures item.op !in registry.inFlight && item.op in old(room.pending) ==>
                && room.pending == old(room.pending)[item.op := old(room.pending)[item.op] + [ch]]
                && room.queue == old(room.queue) && room.channels[ch] == []
      ensures item.op !in registry.inFlight && item.op !in old(room.pending) && |old(room.queue)| < 256 ==>
                && room.pending == old(room.pending)[item.op := [ch]]
                && room.queue == old(room.queue) + [item] && room.channels[ch] == []
      ensures item.op !in registry.inFlight && item.op !in old(room.pending) && |old(room.queue)| >= 256 ==>
                && room.pending == old(room.pending)
                && room.queue == old(room.queue) && room.channels[ch] == [Refused(QueueFull)]
    {
      hide LineInv;
      NewChannel(room.line);
      var known := if item.op !in registry.inFlight then None
                   else Some(if item.op in registry.opBatch then registry.opBatch[item.op] else "");
      ch := room.Open(item, known);
      if known.None? { room.JoinOrQueue(ch, item); }
    }

    /** Send one part: on success track it and acknowledge its callers, on failure pass the error on. */
    method SendPart(kind: Kind, part: seq<Item>, outcome: Outcome, now: int)
      requires Valid() && room.line.sender.Sending? && room.line.sender.part == part
      requires outcome.AcceptedAs? ==> outcome.batchId !in registry.book.inProgress
      modifies registry, room
      ensures Valid() && fresh(registry.parts - old(registry.parts))
      ensures registry.book == if outcome.Rejected? then old(registry.book) else Ledger.Register(old(registry.book), kind, outcome.batchId, part, now)
      ensures var done := AnswerAll(SendDone(old(room.line), AnswerTo(outcome, kind)));
              CanAdvance(done) && room.line == Advance(done)
      ensures room.line.sender == AfterPart(old(room.line).sender.later)
      ensures room.pending == old(room.pending) - Ops(part) && room.queue == old(room.queue)
      ensures room.line.closed == old(room.line).closed
      ensures Told(old(room.line), room.line, Ops(part), AnswerTo(outcome, kind))
    {
      hide LineInv, AnswerAll, Track, AnswerTo, Ops;
      if outcome.AcceptedAs? {
        var cells := new Item[|part|](i requires 0 <= i < |part| => part[i]);
        assert cells[..] == part;
        registry.Register(kind, outcome.batchId, cells, now);
      }
      room.ResolveAll(part, AnswerTo(outcome, kind));
      room.NextPart();
    }

    /**
      One round of the sender after a collection: split by kind, send each part
      as its own batch, answer its callers; a failed part fails only its own.
     */
    method SendBatch(batch: seq<Item>, addOutcome: Outcome, removeOutcome: Outcome, now: int)
      requires Valid() && batch != [] && room.line.sender == Collecting(batch)
      requires Unused(registry.book, addOutcome) && Unused(registry.book, removeOutcome)
      requires addOutcome.AcceptedAs? && removeOutcome.AcceptedAs? ==> addOutcome.batchId != removeOutcome.batchId
      modifies registry, room
      ensures Valid() && fresh(registry.parts - old(registry.parts))
      ensures registry.book == BookAfter(BookAfter(old(registry.book), Kind.Add, Part(batch, Kind.Add), addOutcome, now),
                                         Kind.Remove, Part(batch, Kind.Remove), removeOutcome, now)
      ensures room.line.sender == Collecting([])
      ensures room.pending == old(room.pending) - Ops(batch) && room.queue == old(room.queue)
      ensures room.line.closed == old(room.line).closed + [batch]
      ensures forall ch, i :: ch in old(room.line).place && 0 <= i < |batch| && old(room.line).place[ch] == Waiting(batch[i].op) ==>
                && ch in room.channels
                && room.channels[ch] == [match if batch[i].kind == Kind.Add then addOutcome else removeOutcome
                                         case AcceptedAs(id) => Acked(id)
                                         case Rejected(cause) => Refused(SendFailed(batch[i].kind, cause))]
    {
      hide LineInv, Part, ChannelsSound, BookAfter, Told, Ops, AnswerTo;
      var adds, removes := BeginRound(batch);
      ghost var first := room.line;
      SendIfAny(Kind.Add, adds, addOutcome, now);
      ghost var second := room.line;
      SecondIsUnused(old(registry.book), adds, addOutcome, removeOutcome, now);
      SendIfAny(Kind.Remove, removes, removeOutcome, now);
      BothTold(first, second, room.line, batch, adds, removes, addOutcome, removeOutcome);
    }

    /** Collection is over: the batch is split, and the sender faces its first part. */
    method BeginRound(batch: seq<Item>) returns (adds: seq<Item>, removes: seq<Item>)
      requires Valid() && batch != [] && room.line.sender == Collecting(batch)
      modifies room
      ensures Valid() && adds == Part(batch, Kind.Add) && removes == Part(batch, Kind.Remove)
      ensures Ops(batch) == Ops(adds) + Ops(removes) && (adds != [] || removes != [])
      ensures room.line.sender == if adds == [] then Sending(removes, []) else Sending(adds, removes)
      ensures room.pending == old(room.pending) && room.queue == old(room.queue)
      ensures room.line.closed == old(room.line).closed + [batch]
      ensures room.line.place == old(room.line).place && room.line.writes == old(room.line).writes
      ensures forall i :: 0 <= i < |batch| ==> if batch[i].kind == Kind.Add then batch[i].op in Ops(adds) && batch[i].op !in Ops(removes)
                                                else batch[i].op in Ops(removes) && batch[i].op !in Ops(adds)
    {
      hide LineInv;
      adds, removes := Split(batch);
      BatchParts(room.line);
      PartsByKind(room.line);
      room.StartSending();
    }

    /** A part goes out only if there is something in it. */
    method SendIfAny(kind: Kind, part: seq<Item>, outcome: Outcome, now: int)
      requires Valid() && Unused(registry.book, outcome)
      requires part != [] ==> room.line.sender.Sending? && room.line.sender.part == part
      modifies registry, room
      ensures Valid() && fresh(registry.parts - old(registry.parts))
      ensures registry.book == BookAfter(old(registry.book), kind, part, outcome, now)
      ensures room.line.sender == if part == [] then old(room.line).sender else AfterPart(old(room.line).sender.later)
      ensures room.pending == old(room.pending) - Ops(part) && room.queue == old(room.queue)
      ensures room.line.closed == old(room.line).closed
      ensures Told(old(room.line), room.line, Ops(part), AnswerTo(outcome, kind))
    {
      hide LineInv, AnswerAll, AnswerTo;
      NobodyToTell(room.line, AnswerTo(outcome, kind));
      if part != [] { SendPart(kind, part, outcome, now); }
    }

    /**
      Poll one batch. The broker's reply, if it is asked, is any list of results
      or none (an error). Returns the failure handler's calls.
     */
    method PollBatch(id: string, now: int, reply: Option<seq<NodeResult>>, later: int) returns (reports: seq<Report>)
      requires Valid()
      modifies registry, registry.parts
      ensures Valid() && registry.parts == old(registry.parts)
      ensures registry.book == BookAfterPoll(old(registry.book), id, now, reply, later)
      ensures reports == ReportsOfPoll(old(registry.book), id, now, reply, later)
      ensures !IsDue(old(registry.book), id, now) || (IsYoung(old(registry.book), id, now) && reply.None?) ==>
                registry.book == old(registry.book) && reports == []
      ensures IsDue(old(registry.book), id, now) && !IsYoung(old(registry.book), id, now) ==>
                && registry.book == Forget(old(registry.book), id)
                && |reports| == |old(registry.book).inProgress[id].items|
                && forall i :: 0 <= i < |reports| ==>
                     reports[i] == Report(old(registry.book).inProgress[id].items[i].op, old(registry.book).inProgress[id].kind, "batch expired at broker")
      ensures IsDue(old(registry.book), id, now) && IsYoung(old(registry.book), id, now) && reply.Some? ==>
                && registry.book == ApplyReply(old(registry.book), id, reply.value, later)
                && reports == Reports(ReplyEvents(old(registry.book), id, reply.value, later))
    {
      ReportsOfExpiries(old(registry.book), id);
      reports := [];
      var look, kind, expired := registry.Look(id, now);
      match look
      case Skip =>
      case Expire => reports := ExpiryReports(kind, expired);
      case Ask =>
        if reply.Some? { reports := registry.Answer(id, reply.value, later); }
    }

    /** One pass: every batch tracked when it begins is polled once, in whatever order the map yields them. */
    method PollAll(polls: string -> Poll) returns (reports: seq<Report>, ghost order: seq<string>)
      requires Valid()
      modifies registry, registry.parts
      ensures Valid() && registry.parts == old(registry.parts)
      ensures forall id :: id in order <==> id in old(registry.book).inProgress
      ensures registry.book == PollEach(old(registry.book), order, polls)
      ensures reports == ReportsOfEach(old(registry.book), order, polls)
    {
      var batchIds: seq<string> := [];
      var left := registry.inProgress.Keys;
      while left != {}
        invariant Valid() && registry.book == old(registry.book) && registry.parts == old(registry.parts)
        invariant left <= registry.inProgress.Keys
        invariant forall id :: id in batchIds <==> id in registry.inProgress && id !in left
        decreases |left|
      {
        var id :| id in left;
        left := left - {id};
        batchIds := batchIds + [id];
      }
      order := batchIds;
      reports := [];
      ghost var book := registry.book;
      KeysOf(registry);
      hide LineInv, BookAfterPoll, ReportsOfPoll, PollEach, ReportsOfEach;
      PollNone(book, polls);
      assert batchIds[..0] == [];
      for i := 0 to |batchIds|
        invariant Valid() && registry.parts == old(registry.parts)
        invariant registry.book == PollEach(book, batchIds[..i], polls)
        invariant reports == ReportsOfEach(book, batchIds[..i], polls)
      {
        var poll := polls(batchIds[i]);
        var told := PollBatch(batchIds[i], poll.now, poll.reply, poll.later);
        reports := reports + told;
        PollOneMore(book, batchIds, i, polls);
      }
      assert batchIds[..|batchIds|] == batchIds;
    }
  }

  lemma {:induction false} NewChannel(line: Line)
    requires LineInv(line)
    ensures line.next !in line.writes
  {
  }

  lemma {:induction false} KeysOf(registry: Registry)
    requires registry.Valid()
    ensures registry.inProgress.Keys == registry.book.inProgress.Keys
  {
  }

  /** When a batch's poll begins, what the broker answers, and when. */
  datatype Poll = Poll(now: int, reply: Option<seq<NodeResult>>, later: int)

  function PollEach(book: Book, order: seq<string>, polls: string -> Poll): Book {
    if order == [] then book
    else
      var id, last := order[|order| - 1], polls(order[|order| - 1]);
      BookAfterPoll(PollEach(book, order[..|order| - 1], polls), id, last.now, last.reply, last.later)
  }

  function ReportsOfEach(book: Book, order: seq<string>, polls: string -> Poll): seq<Report> {
    if order == [] then []
    else
      var id, last, before := order[|order| - 1], polls(order[|order| - 1]), order[..|order| - 1];
      ReportsOfEach(book, before, polls) + ReportsOfPoll(PollEach(book, before, polls), id, last.now, last.reply, last.later)
  }

  lemma {:induction false} PollNone(book: Book, polls: string -> Poll)
    ensures PollEach(book, [], polls) == book && ReportsOfEach(book, [], polls) == []
  {
  }

  lemma {:induction false} PollOneMore(book: Book, order: seq<string>, i: nat, polls: string -> Poll)
    requires i < |order|
    ensures var mid, poll := PollEach(book, order[..i], polls), polls(order[i]);
            && PollEach(book, order[..i + 1], polls) == BookAfterPoll(mid, order[i], poll.now, poll.reply, poll.later)
            && ReportsOfEach(book, order[..i + 1], polls)
               == ReportsOfEach(book, order[..i], polls) + ReportsOfPoll(mid, order[i], poll.now, poll.reply, poll.later)
  {
    assert order[..i + 1][..i] == order[..i];
  }

  /** One poll never revives or redates a batch, and leaves its own within the age limit. */
  lemma {:induction false} PollBoundsItsBatch(book: Book, id: string, poll: Poll, start: int)
    requires Sound(book) && start <= poll.now
    ensures var after := BookAfterPoll(book, id, poll.now, poll.reply, poll.later);
            && Sound(after)
            && (forall b :: b in after.inProgress ==> b in book.inProgress && after.inProgress[b].sentAt == book.inProgress[b].sentAt)
            && (id in after.inProgress ==> start - after.inProgress[id].sentAt <= MAX_BATCH_AGE)
  {
    if id in book.inProgress {
      assert WellFormed(book.inProgress[id]);
      ForgetKeepsSound(book, id);
    }
    if poll.reply.Some? { ReplyKeepsSound(book, id, poll.reply.value, poll.later); }
  }

  /**
    After a pass that began at a time, whatever the broker answered or failed to,
    every batch it polled was within the age limit then and has 0 to 2 empty polls behind it.
   */
  lemma {:induction false} PassBoundsTracking(book: Book, order: seq<string>, polls: string -> Poll, start: int)
    requires Sound(book) && forall id :: start <= polls(id).now
    ensures var after := PollEach(book, order, polls);
            && Sound(after)
            && (forall id :: id in after.inProgress ==> id in book.inProgress && after.inProgress[id].sentAt == book.inProgress[id].sentAt)
            && (forall id :: id in after.inProgress && id in order ==>
                  start - after.inProgress[id].sentAt <= MAX_BATCH_AGE && after.inProgress[id].emptyPolls <= 2)
  {
    if order != [] {
      var rest, id := order[..|order| - 1], order[|order| - 1];
      PassBoundsTracking(book, rest, polls, start);
      PollBoundsItsBatch(PollEach(book, rest, polls), id, polls(id), start);
      assert order == rest + [id];
      var after := PollEach(book, order, polls);
      assert forall b :: b in after.inProgress ==> WellFormed(after.inProgress[b]);
      hide Sound, BookAfterPoll, WellFormed;
    }
  }

  predicate Unused(book: Book, outcome: Outcome) {
    outcome.AcceptedAs? ==> outcome.batchId !in book.inProgress
  }

  function BookAfterPoll(book: Book, id: string, now: int, reply: Option<seq<NodeResult>>, later: int): Book {
    match FirstLook(book, id, now)
    case Skip => book
    case Expire => Forget(book, id)
    case Ask => if reply.Some? then ApplyReply(book, id, reply.value, later) else book
  }

  function ReportsOfPoll(book: Book, id: string, now: int, reply: Option<seq<NodeResult>>, later: int): seq<Report> {
    match FirstLook(book, id, now)
    case Skip => []
    case Expire => Reports(Expiries(book.inProgress[id].items, book.inProgress[id].kind))
    case Ask => if reply.Some? then Reports(ReplyEvents(book, id, reply.value, later)) else []
  }

  /** The batch is tracked, and its first poll is due. */
  predicate IsDue(book: Book, id: string, now: int) {
    id in book.inProgress && now >= book.inProgress[id].pollAfter
  }

  /** The batch is within the age limit. */
  predicate IsYoung(book: Book, id: string, now: int) {
    id in book.inProgress && now - book.inProgress[id].sentAt <= 7200 * SECOND
  }

  lemma {:induction false} ReportsOfExpiries(book: Book, id: string)
    ensures id in book.inProgress ==>
              var batch := book.inProgress[id];
              var reports := Reports(Expiries(batch.items, batch.kind));
              && |reports| == |batch.items|
              && forall i :: 0 <= i < |reports| ==> reports[i] == Report(batch.items[i].op, batch.kind, "batch expired at broker")
  {
    if id in book.inProgress { ExpiryReportsAre(book.inProgress[id].items, book.inProgress[id].kind); }
  }

  lemma {:induction false} ExpiryReportsAre(items: seq<Item>, kind: Kind)
    ensures var reports := Reports(Expiries(items, kind));
            && |reports| == |items|
            && forall i :: 0 <= i < |reports| ==> reports[i] == Report(items[i].op, kind, "batch expired at broker")
  {
    if items != [] {
      ExpiryReportsAre(items[1..], kind);
      assert Expiries(items, kind)[1..] == Expiries(items[1..], kind);
    }
  }

  /** One call of the poll is the poller's steps: a look, and if that asks, the time it takes and the answer. */
  lemma {:induction false} PollIsSteps(s: Sys, reply: Option<seq<NodeResult>>, later: int)
    requires Enabled(s, LookAt) && s.now <= later
    ensures var id, looked := s.poller.todo[0], Next(s, LookAt);
            var book, reports := BookAfterPoll(s.book, id, s.now, reply, later), ReportsOfPoll(s.book, id, s.now, reply, later);
            && (looked.poller.asked.None? ==> looked.book == book && looked.poller.owed == reports)
            && (looked.poller.asked.Some? && reply.None? ==>
                  var after := Next(looked, PollFails); after.book == book && after.poller.owed == reports)
            && (looked.poller.asked.Some? && reply.Some? ==>
                  var after := Next(Next(looked, Tick(later - s.now)), PollAnswers(reply.value));
                  after.book == book && after.poller.owed == reports)
  {
    hide ApplyReply, ReplyEvents, Forget;
  }

  lemma {:induction false} SecondIsUnused(book: Book, part: seq<Item>, first: Outcome, second: Outcome, now: int)
    requires Unused(book, second) && (first.AcceptedAs? && second.AcceptedAs? ==> first.batchId != second.batchId)
    ensures Unused(BookAfter(book, Kind.Add, part, first, now), second)
  {
  }

  lemma {:induction false} NobodyToTell(line: Line, result: Result)
    ensures Told(line, line, {}, result)
  {
  }

  /** Each caller hears of the part its item went out in. */
  lemma {:induction false} BothTold(first: Line, second: Line, last: Line, batch: seq<Item>, adds: seq<Item>, removes: seq<Item>,
                                    addOutcome: Outcome, removeOutcome: Outcome)
    requires Told(first, second, Ops(adds), AnswerTo(addOutcome, Kind.Add)) && Told(second, last, Ops(removes), AnswerTo(removeOutcome, Kind.Remove))
    requires forall i :: 0 <= i < |batch| ==> if batch[i].kind == Kind.Add then batch[i].op in Ops(adds) && batch[i].op !in Ops(removes)
                                               else batch[i].op in Ops(removes) && batch[i].op !in Ops(adds)
    ensures forall ch, i :: ch in first.place && 0 <= i < |batch| && first.place[ch] == Waiting(batch[i].op) ==>
              && ch in last.writes
              && last.writes[ch] == [match if batch[i].kind == Kind.Add then addOutcome else removeOutcome
                                     case AcceptedAs(id) => Acked(id)
                                     case Rejected(cause) => Refused(SendFailed(batch[i].kind, cause))]
  {
    hide Ops;
  }

  /** In a collected batch an operation is of one kind, and in the part of that kind. */
  lemma {:induction false} PartsByKind(line: Line)
    requires LineInv(line) && CanClose(line)
    ensures var batch := line.sender.batch;
            var adds, removes := Part(batch, Kind.Add), Part(batch, Kind.Remove);
            forall i :: 0 <= i < |batch| ==> if batch[i].kind == Kind.Add then batch[i].op in Ops(adds) && batch[i].op !in Ops(removes)
                                              else batch[i].op in Ops(removes) && batch[i].op !in Ops(adds)
  {
    var batch := line.sender.batch;
    var adds, removes := Part(batch, Kind.Add), Part(batch, Kind.Remove);
    assert DistinctOps(batch) by { assert forall i :: 0 <= i < |batch| ==> Unresolved(line)[i] == batch[i]; }
    PartIsFilter(batch, Kind.Add);
    PartIsFilter(batch, Kind.Remove);
    hide LineInv, Part;
    forall i | 0 <= i < |batch| ensures if batch[i].kind == Kind.Add then batch[i].op in Ops(adds) && batch[i].op !in Ops(removes)
                                        else batch[i].op in Ops(removes) && batch[i].op !in Ops(adds) {
      OnlyInItsPart(batch, i, adds, removes);
    }
  }

  lemma {:induction false} OnlyInItsPart(batch: seq<Item>, i: nat, adds: seq<Item>, removes: seq<Item>)
    requires i < |batch| && DistinctOps(batch)
    requires forall item :: item in adds <==> item in batch && item.kind == Kind.Add
    requires forall item :: item in removes <==> item in batch && item.kind == Kind.Remove
    ensures if batch[i].kind == Kind.Add then batch[i].op in Ops(adds) && batch[i].op !in Ops(removes)
            else batch[i].op in Ops(removes) && batch[i].op !in Ops(adds)
  {
    var mine, others := if batch[i].kind == Kind.Add then adds else removes, if batch[i].kind == Kind.Add then removes else adds;
    assert batch[i] in mine;
    var k :| 0 <= k < |mine| && mine[k] == batch[i];
    assert forall n :: 0 <= n < |others| ==> others[n] in batch && others[n].kind != batch[i].kind;
  }

  /** What a round leaves tracked: each part the broker accepted, whole, under its ID and due in two minutes; nothing else changes. */
  lemma {:induction false} RoundTracksItsParts(book: Book, batch: seq<Item>, addOutcome: Outcome, removeOutcome: Outcome, now: int)
    requires Unused(book, addOutcome) && Unused(book, removeOutcome)
    requires addOutcome.AcceptedAs? && removeOutcome.AcceptedAs? ==> addOutcome.batchId != removeOutcome.batchId
    ensures var after := BookAfter(BookAfter(book, Kind.Add, Part(batch, Kind.Add), addOutcome, now),
                                   Kind.Remove, Part(batch, Kind.Remove), removeOutcome, now);
            && after.succeeded == book.succeeded
            && (forall id :: id in book.inProgress ==> id in after.inProgress && after.inProgress[id] == book.inProgress[id])
            && (forall id :: id in after.inProgress && id !in book.inProgress ==>
                  (addOutcome == AcceptedAs(id) || removeOutcome == AcceptedAs(id)) &&
                  var kind := if addOutcome == AcceptedAs(id) then Kind.Add else Kind.Remove;
                  && after.inProgress[id].kind == kind && after.inProgress[id].emptyPolls == 0
                  && after.inProgress[id].sentAt == now && after.inProgress[id].pollAfter == now + 120 * SECOND
                  && after.inProgress[id].items == Part(batch, kind) && (forall item :: item in after.inProgress[id].items <==> item in batch && item.kind == kind))
            && (forall id, item :: item in batch && (if item.kind == Kind.Add then addOutcome else removeOutcome) == AcceptedAs(id) ==>
                  id in after.inProgress && item.op in after.inFlight && item in after.inProgress[id].items)
  {
    PartIsFilter(batch, Kind.Add);
    PartIsFilter(batch, Kind.Remove);
    var adds, removes := Part(batch, Kind.Add), Part(batch, Kind.Remove);
    var mid := BookAfter(book, Kind.Add, adds, addOutcome, now);
    var after := BookAfter(mid, Kind.Remove, removes, removeOutcome, now);
    hide Part, Point;
    forall id, item | item in batch && (if item.kind == Kind.Add then addOutcome else removeOutcome) == AcceptedAs(id)
      ensures id in after.inProgress && item.op in after.inFlight && item in after.inProgress[id].items {
      var part := if item.kind == Kind.Add then adds else removes;
      assert item in part;
      var n :| 0 <= n < |part| && part[n] == item;
      assert item.op in Ops(part);
    }
  }

  /** The two parts of a collected batch cover its operations. */
  lemma {:induction false} BatchParts(line: Line)
    requires LineInv(line) && CanClose(line)
    ensures var adds, removes := Part(line.sender.batch, Kind.Add), Part(line.sender.batch, Kind.Remove);
            && Ops(adds) + Ops(removes) == Ops(line.sender.batch)
            && (adds != [] || removes != [])
            && (adds == [] ==> Ops(adds) == {}) && (removes == [] ==> Ops(removes) == {})
  {
    var batch := line.sender.batch;
    assert forall i :: 0 <= i < |batch| ==> Unresolved(line)[i] == batch[i];
    PartsOps(batch);
    OpsOfSum(Part(batch, Kind.Add), Part(batch, Kind.Remove));
    PartitionComplete(batch);
  }
}
