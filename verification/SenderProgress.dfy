/** The sender is never stuck: by its own steps alone it gets through everything it has been given. */
module SenderProgress {
  import opened BatchTypes
  import opened Ledger
  import opened WaitLine
  import opened Batcher
  import opened BatcherRuns

  predicate SenderStep(step: Step) {
    step.TakeOne? || step.CloseBatch? || step.SendFails? || step.SendAcks? || step.ResolveOne? || step.DeliverOne? || step.AdvancePart?
  }

  predicate SenderOnly(steps: seq<Step>) {
    forall i :: 0 <= i < |steps| ==> SenderStep(steps[i])
  }

  /** Nothing queued, nothing in hand. */
  predicate Idle(line: Line) {
    line.sender == Collecting([]) && line.queue == []
  }

  /** What the sender does next if its sends fail and its window closes when nothing more is queued. */
  function Proceed(line: Line): Step {
    match line.sender
    case Collecting(batch) => if CanTake(line) then TakeOne else CloseBatch
    case Sending(_, _) => SendFails("")
    case Resolving(todo, _, _) => if line.draining != [] then DeliverOne else if todo != [] then ResolveOne else AdvancePart
  }

  /** Items whose send has not returned. */
  function Ahead(line: Line): nat {
    |line.queue| + match line.sender
                   case Collecting(batch) => |batch|
                   case Sending(part, later) => |part| + |later|
                   case Resolving(_, _, later) => |later|
  }

  function Phase(line: Line): nat {
    match line.sender
    case Collecting(_) => 1
    case Sending(_, _) => 0
    case Resolving(_, _, _) => 2
  }

  function Outer(line: Line): nat {
    match line.sender
    case Collecting(_) => |line.queue|
    case Sending(_, _) => 0
    case Resolving(todo, _, _) => |todo|
  }

  predicate Closer(after: Line, line: Line) {
    || Ahead(after) < Ahead(line)
    || (Ahead(after) == Ahead(line) && Phase(after) < Phase(line))
    || (Ahead(after) == Ahead(line) && Phase(after) == Phase(line) && Outer(after) < Outer(line))
    || (Ahead(after) == Ahead(line) && Phase(after) == Phase(line) && Outer(after) == Outer(line) && |after.draining| < |line.draining|)
  }

  /** Unless the sender is idle it can go on, and each step brings it closer to being idle. */
  lemma {:induction false} CanProceed(s: Sys)
    requires LineInv(s.line) && !Idle(s.line)
    ensures var step := Proceed(s.line);
            Enabled(s, step) && Closer(Next(s, step).line, s.line) && Next(s, step).book == s.book && Next(s, step).log == s.log
  {
    var line := s.line;
    match line.sender
    case Collecting(batch) => if !CanTake(line) { PartitionComplete(batch); }
    case Sending(part, later) =>
    case Resolving(todo, _, _) =>
      if line.draining != [] { assert line.draining[0] in line.draining; }
  }

  lemma {:induction false} OneMoreStep(s: Sys, step: Step, rest: seq<Step>)
    requires Enabled(s, step) && Legal(Next(s, step), rest)
    ensures Legal(s, [step] + rest) && Run(s, [step] + rest) == Run(Next(s, step), rest)
  {
    assert ([step] + rest)[1..] == rest;
  }

  lemma {:induction false} LineIsSound(s: Sys)
    requires Inv(s)
    ensures LineInv(s.line)
  {
  }

  /** From any state the sender can become idle, with nothing newly sent. */
  lemma {:induction false} SenderDrains(s: Sys) returns (steps: seq<Step>)
    requires Inv(s)
    ensures Legal(s, steps) && SenderOnly(steps)
    ensures Idle(Run(s, steps).line) && Run(s, steps).book == s.book && Run(s, steps).log == s.log
    decreases Ahead(s.line), Phase(s.line), Outer(s.line), |s.line.draining|
  {
    hide Inv, LineInv, Idle, Proceed, Next, Enabled;
    if Idle(s.line) {
      steps := [];
    } else {
      var step := Proceed(s.line);
      LineIsSound(s);
      CanProceed(s);
      StepKeepsInv(s, step);
      var rest := SenderDrains(Next(s, step));
      OneMoreStep(s, step, rest);
      assert SenderStep(step) by { ProceedIsSenders(s.line); }
      steps := [step] + rest;
    }
  }

  lemma {:induction false} ProceedIsSenders(line: Line)
    ensures SenderStep(Proceed(line))
  {
  }

  /** When the sender is idle nobody waits. */
  lemma {:induction false} IdleOwesNobody(line: Line, ch: Chan)
    requires LineInv(line) && Idle(line) && ch in line.place && !line.place[ch].AtCaller?
    ensures line.place[ch].Written? && ch in line.writes && |line.writes[ch]| == 1
  {
    assert Unresolved(line) == [];
    assert line.pending.Keys == {};
  }

  /**
    No caller is ever stuck: in every reachable state, whoever waits for a result can
    be given it by steps of the sender alone, after which the sender is collecting again.
   */
  lemma {:induction false} NoCallerIsStuck(start: int, steps: seq<Step>) returns (more: seq<Step>)
    requires Legal(Init(start), steps)
    ensures Legal(Run(Init(start), steps), more) && SenderOnly(more)
    ensures var early, late := Run(Init(start), steps).line, Run(Run(Init(start), steps), more).line;
            && late.sender == Collecting([])
            && forall ch :: ch in early.place && !early.place[ch].AtCaller? ==> ch in late.writes && |late.writes[ch]| == 1
  {
    var s := Run(Init(start), steps);
    InitInv(start);
    RunKeepsInv(Init(start), steps);
    more := SenderDrains(s);
    RunKeepsInv(s, more);
    var late := Run(s, more).line;
    forall ch | ch in s.line.place && !s.line.place[ch].AtCaller? ensures ch in late.writes && |late.writes[ch]| == 1 {
      IdleOwesNobody(late, ch);
    }
  }

  // ---------- reaching one operation ----------

  /** Items not yet given to the broker, in the order they will be. */
  function Unsent(line: Line): seq<Item> {
    (match line.sender
     case Collecting(batch) => batch
     case Sending(part, later) => part + later
     case Resolving(_, _, later) => later) + line.queue
  }

  /** The sender holds a part with this operation and is about to send it. */
  predicate AboutToSend(line: Line, op: string) {
    line.sender.Sending? && op in Ops(line.sender.part)
  }

  lemma {:induction false} OpsSplit(a: seq<Item>, b: seq<Item>)
    ensures Ops(a + b) == Ops(a) + Ops(b)
  {
    OpsOfSum(a, b);
  }

  lemma {:induction false} StillAhead(s: Sys, op: string)
    requires LineInv(s.line) && op in Ops(Unsent(s.line)) && !AboutToSend(s.line, op)
    ensures !Idle(s.line) && Enabled(s, Proceed(s.line)) && op in Ops(Unsent(Next(s, Proceed(s.line)).line))
  {
    assert !Idle(s.line) by { IdleIsAllSent(s.line); }
    CanProceed(s);
    if s.line.sender.Collecting? {
      CollectingAhead(s, op);
    } else if s.line.sender.Sending? {
      SendingAhead(s, op);
    } else {
      hide LineInv, Ops;
      assert Unsent(Next(s, Proceed(s.line)).line) == Unsent(s.line);
    }
  }

  lemma {:induction false} IdleIsAllSent(line: Line)
    ensures Idle(line) ==> Unsent(line) == []
  {
  }

  lemma {:induction false} CollectingAhead(s: Sys, op: string)
    requires LineInv(s.line) && op in Ops(Unsent(s.line)) && s.line.sender.Collecting? && Enabled(s, Proceed(s.line))
    ensures op in Ops(Unsent(Next(s, Proceed(s.line)).line))
  {
    assert DistinctOps(s.line.sender.batch) by { BatchIsDistinct(s.line); }
    hide LineInv, Ops, DistinctOps, Unsent, Part;
    if CanTake(s.line) {
      TakenUnsent(s.line);
    } else {
      ClosedAhead(s.line, op);
    }
  }

  lemma {:induction false} TakenUnsent(line: Line)
    requires CanTake(line)
    ensures Unsent(Take(line)) == Unsent(line)
  {
  }

  lemma {:induction false} ClosedAhead(line: Line, op: string)
    requires CanClose(line) && DistinctOps(line.sender.batch) && op in Ops(Unsent(line))
    ensures op in Ops(Unsent(Close(line)))
  {
    var batch, parts := line.sender.batch, Part(line.sender.batch, Add) + Part(line.sender.batch, Remove);
    PartsOps(batch);
    OpsSplit(batch, line.queue);
    OpsSplit(parts, line.queue);
    ClosedUnsent(line);
  }

  lemma {:induction false} ClosedUnsent(line: Line)
    requires CanClose(line)
    ensures Unsent(Close(line)) == Part(line.sender.batch, Add) + Part(line.sender.batch, Remove) + line.queue
  {
    hide Part;
    assert Part(line.sender.batch, Add) == [] ==> Part(line.sender.batch, Remove) + [] == [] + Part(line.sender.batch, Remove);
  }

  lemma {:induction false} BatchIsDistinct(line: Line)
    requires KeysMatch(line) && line.sender.Collecting?
    ensures DistinctOps(line.sender.batch)
  {
    assert forall i :: 0 <= i < |line.sender.batch| ==> Unresolved(line)[i] == line.sender.batch[i];
  }

  lemma {:induction false} SendingAhead(s: Sys, op: string)
    requires op in Ops(Unsent(s.line)) && !AboutToSend(s.line, op) && s.line.sender.Sending? && Enabled(s, Proceed(s.line))
    ensures op in Ops(Unsent(Next(s, Proceed(s.line)).line))
  {
    var part, rest := s.line.sender.part, s.line.sender.later + s.line.queue;
    assert Unsent(s.line) == part + rest;
    OpsSplit(part, rest);
  }

  /** Whatever is still to be sent, the sender can come to the point of sending it, with nothing else sent before. */
  lemma {:induction false} SenderReaches(s: Sys, op: string) returns (steps: seq<Step>)
    requires Inv(s) && op in Ops(Unsent(s.line))
    ensures Legal(s, steps) && SenderOnly(steps)
    ensures AboutToSend(Run(s, steps).line, op) && Run(s, steps).book == s.book && Run(s, steps).log == s.log
    decreases Ahead(s.line), Phase(s.line), Outer(s.line), |s.line.draining|
  {
    hide Inv, LineInv, Idle, Proceed, Next, Enabled, Unsent;
    if AboutToSend(s.line, op) {
      steps := [];
    } else {
      var step := Proceed(s.line);
      LineIsSound(s);
      StillAhead(s, op);
      CanProceed(s);
      StepKeepsInv(s, step);
      ProceedIsSenders(s.line);
      var rest := SenderReaches(Next(s, step), op);
      OneMoreStep(s, step, rest);
      steps := [step] + rest;
    }
  }
}
