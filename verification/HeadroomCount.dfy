/**
  The headroom count, said of the nodes' and the policy's own quantities: which nodes
  count, what their totals are, and the least number of pods that holds the shares.
 */
module HeadroomCount {
  import opened BatchTypes
  import opened HeadroomMath

  // ---------- which nodes count ----------

  /** The condition at this index is the node's first of the Ready kind. */
  predicate FirstReady(node: Machine, i: int) {
    0 <= i < |node.conditions| && node.conditions[i].kind == "Ready" && forall j :: 0 <= j < i ==> node.conditions[j].kind != "Ready"
  }

  ghost predicate ReportsReady(node: Machine) {
    exists i :: FirstReady(node, i) && node.conditions[i].status == "True"
  }

  lemma {:induction false} StatusOfFirst(node: Machine, n: nat)
    requires n <= |node.conditions| && forall j :: 0 <= j < n ==> node.conditions[j].kind != "Ready"
    ensures ReadyStatus(node.conditions[n..]) == "True" <==> exists i :: FirstReady(node, i) && node.conditions[i].status == "True"
    decreases |node.conditions| - n
  {
    if n < |node.conditions| {
      if node.conditions[n].kind == "Ready" {
        assert FirstReady(node, n);
        assert forall i :: FirstReady(node, i) ==> i == n;
      } else {
        assert node.conditions[n..][1..] == node.conditions[n + 1..];
        StatusOfFirst(node, n + 1);
      }
    }
  }

  /** A node counts exactly when its first Ready condition is True, as often as it is listed. */
  lemma {:induction false} ReadyIsExact(nodes: seq<Machine>, node: Machine)
    ensures multiset(Ready(nodes))[node] == if ReportsReady(node) then multiset(nodes)[node] else 0
  {
    if nodes != [] {
      var rest, last := nodes[..|nodes| - 1], nodes[|nodes| - 1];
      assert nodes == rest + [last];
      ReadyIsExact(rest, node);
      assert last.conditions[0..] == last.conditions;
      StatusOfFirst(last, 0);
      hide Ready, FirstReady;
      assert Ready(nodes) == Ready(rest) + if IsReady(last) then [last] else [] by { ReadySnoc(nodes); }
    }
  }

  lemma {:induction false} ReadySnoc(nodes: seq<Machine>)
    requires nodes != []
    ensures Ready(nodes) == Ready(nodes[..|nodes| - 1]) + if IsReady(nodes[|nodes| - 1]) then [nodes[|nodes| - 1]] else []
  {
  }

  // ---------- the totals ----------

  /** The quantity in whole units of this size, rounded up. */
  predicate RoundsTo(q: int, unit: int, n: int) {
    (n - 1) * unit < q <= n * unit
  }

  predicate GpusRoundTo(node: Machine, key: string, n: int) {
    if key in node.gpus then RoundsTo(node.gpus[key], UNIT, n) else n == 0
  }

  lemma {:induction false} Scaled(a: int, b: int, unit: int)
    requires a <= b && unit > 0
    ensures a * unit <= b * unit
  {
    assert b * unit - a * unit == (b - a) * unit;
  }

  lemma {:induction false} NotAbove(q: int, unit: int, a: int, b: int)
    requires unit > 0 && (a - 1) * unit < q <= b * unit
    ensures a <= b
  {
    if b <= a - 1 { Scaled(b, a - 1, unit); }
  }

  lemma {:induction false} RoundingIsUnique(q: int, unit: int, n: int)
    requires unit > 0 && RoundsTo(q, unit, n)
    ensures RoundUp(q, unit) == n
  {
    var r := RoundUp(q, unit);
    NotAbove(q, unit, r, n);
    NotAbove(q, unit, n, r);
  }

  function SumOf(xs: seq<int>): int {
    if xs == [] then 0 else SumOf(xs[..|xs| - 1]) + xs[|xs| - 1]
  }

  /** Each node's CPU in thousandths, memory in bytes, and GPUs under each of the two names, rounded up one by one. */
  predicate Measured(nodes: seq<Machine>, cpu: seq<int>, memory: seq<int>, nvidia: seq<int>, amd: seq<int>) {
    && |cpu| == |memory| == |nvidia| == |amd| == |nodes|
    && forall i :: 0 <= i < |nodes| ==>
         && RoundsTo(nodes[i].cpu, 1_000_000, cpu[i]) && RoundsTo(nodes[i].memory, 1_000_000_000, memory[i])
         && GpusRoundTo(nodes[i], "nvidia.com/gpu", nvidia[i]) && GpusRoundTo(nodes[i], "amd.com/gpu", amd[i])
  }

  /** The totals are the sums of what each node has, each resource counted as itself. */
  lemma {:induction false} TotalsAreSums(nodes: seq<Machine>, cpu: seq<int>, memory: seq<int>, nvidia: seq<int>, amd: seq<int>)
    requires Measured(nodes, cpu, memory, nvidia, amd)
    ensures var total := Totals(nodes);
            total.cpuMilli == SumOf(cpu) && total.memBytes == SumOf(memory) && total.gpu == SumOf(nvidia) + SumOf(amd)
  {
    if nodes != [] {
      var last := |nodes| - 1;
      TotalsAreSums(nodes[..last], cpu[..last], memory[..last], nvidia[..last], amd[..last]);
      RoundingIsUnique(nodes[last].cpu, MILLI, cpu[last]);
      RoundingIsUnique(nodes[last].memory, UNIT, memory[last]);
      if NVIDIA in nodes[last].gpus { RoundingIsUnique(nodes[last].gpus[NVIDIA], UNIT, nvidia[last]); }
      if AMD in nodes[last].gpus { RoundingIsUnique(nodes[last].gpus[AMD], UNIT, amd[last]); }
      hide RoundUp, RoundsTo;
    }
  }

  /** Rounding adds less than one unit a node: no total is further from the exact sum than that. */
  lemma {:induction false} RoundedSumIsTight(exact: seq<int>, unit: int, rounded: seq<int>)
    requires unit > 0 && |rounded| == |exact| && forall i :: 0 <= i < |exact| ==> RoundsTo(exact[i], unit, rounded[i])
    ensures (SumOf(rounded) - |exact|) * unit <= SumOf(exact) <= SumOf(rounded) * unit
  {
    if exact != [] {
      var last := |exact| - 1;
      RoundedSumIsTight(exact[..last], unit, rounded[..last]);
      OneMoreTight(SumOf(exact[..last]), exact[last], unit, SumOf(rounded[..last]), rounded[last], last);
    }
  }

  lemma {:induction false} OneMoreTight(sum: int, x: int, unit: int, a: int, b: int, n: int)
    requires (a - n) * unit <= sum <= a * unit && RoundsTo(x, unit, b)
    ensures (a + b - (n + 1)) * unit <= sum + x <= (a + b) * unit
  {
    assert (a + b) * unit == a * unit + b * unit;
    assert (a + b - (n + 1)) * unit == (a - n) * unit + (b - 1) * unit;
  }

  /** What a node has of each resource, to the billionth. */
  function Cpus(nodes: seq<Machine>): seq<int> { seq(|nodes|, i requires 0 <= i < |nodes| => nodes[i].cpu) }

  function Memories(nodes: seq<Machine>): seq<int> { seq(|nodes|, i requires 0 <= i < |nodes| => nodes[i].memory) }

  function Gpus(nodes: seq<Machine>, key: string): seq<int> {
    seq(|nodes|, i requires 0 <= i < |nodes| => if key in nodes[i].gpus then nodes[i].gpus[key] else 0)
  }

  lemma {:induction false} EachRounds(exact: seq<int>, unit: int) returns (rounded: seq<int>)
    requires unit > 0
    ensures |rounded| == |exact| && forall i :: 0 <= i < |exact| ==> RoundsTo(exact[i], unit, rounded[i])
  {
    rounded := seq(|exact|, i requires 0 <= i < |exact| => RoundUp(exact[i], unit));
  }

  lemma {:induction false} GpusRound(node: Machine, key: string, n: int)
    requires RoundsTo(if key in node.gpus then node.gpus[key] else 0, UNIT, n)
    ensures GpusRoundTo(node, key, n)
  {
  }

  /**
    The totals against the nodes' own quantities: each is at least the exact sum of its own
    resource, and less than a unit a node above it (and, for GPUs, a unit for each name).
   */
  lemma {:induction false} TotalsAreTight(nodes: seq<Machine>) returns (nvidia: int, amd: int)
    ensures var total := Totals(nodes);
            && (total.cpuMilli - |nodes|) * 1_000_000 <= SumOf(Cpus(nodes)) <= total.cpuMilli * 1_000_000
            && (total.memBytes - |nodes|) * 1_000_000_000 <= SumOf(Memories(nodes)) <= total.memBytes * 1_000_000_000
            && total.gpu == nvidia + amd
            && (nvidia - |nodes|) * 1_000_000_000 <= SumOf(Gpus(nodes, "nvidia.com/gpu")) <= nvidia * 1_000_000_000
            && (amd - |nodes|) * 1_000_000_000 <= SumOf(Gpus(nodes, "amd.com/gpu")) <= amd * 1_000_000_000
  {
    var c := EachRounds(Cpus(nodes), MILLI);
    var m := EachRounds(Memories(nodes), UNIT);
    var n := EachRounds(Gpus(nodes, NVIDIA), UNIT);
    var a := EachRounds(Gpus(nodes, AMD), UNIT);
    RoundedSumIsTight(Cpus(nodes), MILLI, c);
    RoundedSumIsTight(Memories(nodes), UNIT, m);
    RoundedSumIsTight(Gpus(nodes, NVIDIA), UNIT, n);
    RoundedSumIsTight(Gpus(nodes, AMD), UNIT, a);
    forall i | 0 <= i < |nodes|
      ensures RoundsTo(nodes[i].cpu, MILLI, c[i]) && RoundsTo(nodes[i].memory, UNIT, m[i])
      ensures GpusRoundTo(nodes[i], NVIDIA, n[i]) && GpusRoundTo(nodes[i], AMD, a[i])
    {
      assert Cpus(nodes)[i] == nodes[i].cpu && Memories(nodes)[i] == nodes[i].memory;
      GpusRound(nodes[i], NVIDIA, n[i]);
      GpusRound(nodes[i], AMD, a[i]);
    }
    hide RoundsTo, GpusRoundTo, Totals, SumOf;
    TotalsAreSums(nodes, c, m, n, a);
    nvidia, amd := SumOf(n), SumOf(a);
  }

  // ---------- the count ----------

  /** The policy's sizes of one pod, rounded up the same way. */
  predicate PodSizes(policy: Policy, podCpu: int, podMemory: int, podGpu: int) {
    && RoundsTo(policy.podCpu, 1_000_000, podCpu) && RoundsTo(policy.podMemory, 1_000_000_000, podMemory)
    && RoundsTo(policy.podGpu, 1_000_000_000, podGpu)
  }

  /** This many pods hold this fraction of the total; a pod without the resource is asked for none of it. */
  predicate HoldShare(n: int, perPod: int, total: int, fraction: real) {
    fraction > 0.0 && perPod > 0 ==> fraction * total as real <= n as real * perPod as real
  }

  /** At least the floor, and enough for the configured fraction of each resource of the ready nodes. */
  predicate Enough(policy: Policy, ready: nat, cpu: int, memory: int, gpu: int, podCpu: int, podMemory: int, podGpu: int, n: int) {
    && n >= 0 && n >= policy.minPods
    && (ready > 0 ==>
          && HoldShare(n, podCpu, cpu, policy.cpu)
          && HoldShare(n, podMemory, memory, policy.memory)
          && (policy.podGpu != 0 ==> HoldShare(n, podGpu, gpu, policy.gpu)))
  }

  lemma {:induction false} HoldsMeans(n: int, perPod: int, total: int, fraction: real)
    ensures (fraction > 0.0 ==> Holds(n, perPod, Share(total, fraction))) <==> HoldShare(n, perPod, total, fraction)
  {
    assert (n * perPod) as real == n as real * perPod as real;
    assert total as real * fraction == fraction * total as real;
  }

  /**
    The count over the ready nodes' own quantities: it is the least number of pods, none
    below the floor, that holds each configured resource's share, or 5000 if no smaller one does.
   */
  lemma {:induction false} CountIsLeast(policy: Policy, nodes: seq<Machine>, cpu: seq<int>, memory: seq<int>, nvidia: seq<int>, amd: seq<int>,
                                        podCpu: int, podMemory: int, podGpu: int)
    requires Measured(nodes, cpu, memory, nvidia, amd) && PodSizes(policy, podCpu, podMemory, podGpu)
    ensures var count := DesiredReplicas(policy, Totals(nodes), |nodes|);
            var gpu := SumOf(nvidia) + SumOf(amd);
            && 0 <= count <= 5000
            && (count < 5000 ==> Enough(policy, |nodes|, SumOf(cpu), SumOf(memory), gpu, podCpu, podMemory, podGpu, count))
            && forall n :: Enough(policy, |nodes|, SumOf(cpu), SumOf(memory), gpu, podCpu, podMemory, podGpu, n) ==> count <= n
  {
    hide RoundUp, RoundsTo, Measured, GpusRoundTo, DesiredReplicas, Totals, SumOf, Covers, Enough, PodSizes;
    TotalsAreSums(nodes, cpu, memory, nvidia, amd);
    DesiredIsLeastCapped(policy, Totals(nodes), |nodes|);
    var count, gpu := DesiredReplicas(policy, Totals(nodes), |nodes|), SumOf(nvidia) + SumOf(amd);
    CoversMeans(policy, Totals(nodes), |nodes|, podCpu, podMemory, podGpu, count);
    forall n | Enough(policy, |nodes|, SumOf(cpu), SumOf(memory), gpu, podCpu, podMemory, podGpu, n) ensures count <= n {
      CoversMeans(policy, Totals(nodes), |nodes|, podCpu, podMemory, podGpu, n);
    }
  }

  lemma {:induction false} CoversMeans(policy: Policy, total: Allocatable, ready: nat, podCpu: int, podMemory: int, podGpu: int, n: int)
    requires PodSizes(policy, podCpu, podMemory, podGpu)
    ensures Covers(policy, total, ready, n) <==> Enough(policy, ready, total.cpuMilli, total.memBytes, total.gpu, podCpu, podMemory, podGpu, n)
  {
    RoundingIsUnique(policy.podCpu, MILLI, podCpu);
    RoundingIsUnique(policy.podMemory, UNIT, podMemory);
    RoundingIsUnique(policy.podGpu, UNIT, podGpu);
    hide RoundUp, RoundsTo;
    HoldsMeans(n, podCpu, total.cpuMilli, policy.cpu);
    HoldsMeans(n, podMemory, total.memBytes, policy.memory);
    HoldsMeans(n, podGpu, total.gpu, policy.gpu);
    hide Holds, HoldShare, Share;
    assert !(policy.gpu > 0.0) ==> HoldShare(n, podGpu, total.gpu, policy.gpu) by { NoShare(n, podGpu, total.gpu, policy.gpu); }
    assert !(policy.cpu > 0.0) ==> HoldShare(n, podCpu, total.cpuMilli, policy.cpu) by { NoShare(n, podCpu, total.cpuMilli, policy.cpu); }
    assert !(policy.memory > 0.0) ==> HoldShare(n, podMemory, total.memBytes, policy.memory) by { NoShare(n, podMemory, total.memBytes, policy.memory); }
  }

  lemma {:induction false} NoShare(n: int, perPod: int, total: int, fraction: real)
    ensures fraction <= 0.0 ==> HoldShare(n, perPod, total, fraction)
  {
  }

  // ---------- the GPU name ----------

  /** The node has GPUs under this name. */
  predicate Has(node: Machine, key: string) {
    key in node.gpus && node.gpus[key] != 0
  }

  predicate HasSome(node: Machine) {
    Has(node, "nvidia.com/gpu") || Has(node, "amd.com/gpu")
  }

  /** The last listed node with a GPU is this one. */
  predicate LastWithGpu(nodes: seq<Machine>, i: int) {
    0 <= i < |nodes| && HasSome(nodes[i]) && forall j :: i < j < |nodes| ==> !HasSome(nodes[j])
  }

  /** The GPU name is that of the last listed node with a GPU, AMD's if it has both, and none without such a node. */
  lemma {:induction false} KeyIsLastNodes(nodes: seq<Machine>) returns (i: int)
    ensures LastKey(nodes) == "" ==> forall k :: 0 <= k < |nodes| ==> !HasSome(nodes[k])
    ensures LastKey(nodes) != "" ==> LastWithGpu(nodes, i) && LastKey(nodes) == if Has(nodes[i], "amd.com/gpu") then "amd.com/gpu" else "nvidia.com/gpu"
  {
    i := |nodes| - 1;
    if nodes != [] {
      var rest, last := nodes[..|nodes| - 1], nodes[|nodes| - 1];
      assert forall k :: 0 <= k < |rest| ==> rest[k] == nodes[k];
      assert HasSome(last) <==> KeyOf(last) != "";
      assert HasSome(last) ==> KeyOf(last) == if Has(last, "amd.com/gpu") then "amd.com/gpu" else "nvidia.com/gpu";
      hide KeyOf, HasSome, Has;
      if !HasSome(last) { i := KeyIsLastNodes(rest); }
    }
  }
}
