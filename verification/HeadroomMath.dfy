/** The headroom calculator: how many placeholder pods hold the configured share of a pool. */
module HeadroomMath {
  import opened BatchTypes

  /** Resource quantities are counted in billionths, the finest the API knows; reading one rounds up. */
  const MILLI := 1_000_000
  const UNIT := 1_000_000_000

  function RoundUp(q: int, unit: int): (r: int)
    requires unit > 0
    ensures (r - 1) * unit < q <= r * unit
  {
    -((-q) / unit)
  }

  const MAX_REPLICAS := 5000
  const NVIDIA := "nvidia.com/gpu"
  const AMD := "amd.com/gpu"
  const GPU_NAMES: seq<string> := [NVIDIA, AMD]

  datatype Condition = Condition(kind: string, status: string)

  /** A node as the calculator reads it; a resource it does not advertise counts as zero. */
  datatype Machine = Machine(name: string, pool: string, conditions: seq<Condition>, cpu: int, memory: int, gpus: map<string, int>)

  datatype Toleration = Toleration(key: string, operator: string, value: string, effect: string)

  /** One pool's policy: fractions of the pool, absolute sizes of one pod, and the floor. */
  datatype Policy = Policy(
    name: string,
    cpu: real,
    memory: real,
    gpu: real,
    podCpu: int,
    podMemory: int,
    podGpu: int,
    minPods: int,
    tolerations: seq<Toleration>)

  datatype Allocatable = Allocatable(cpuMilli: int, memBytes: int, gpu: int, gpuKey: string)

  // ---------- ready nodes ----------

  /** The status of the first Ready condition; without one a node is not ready. */
  function ReadyStatus(conditions: seq<Condition>): string {
    if conditions == [] then "" else if conditions[0].kind == "Ready" then conditions[0].status else ReadyStatus(conditions[1..])
  }

  predicate IsReady(node: Machine) {
    ReadyStatus(node.conditions) == "True"
  }

  function Ready(nodes: seq<Machine>): seq<Machine> {
    if nodes == [] then [] else Ready(nodes[..|nodes| - 1]) + if IsReady(nodes[|nodes| - 1]) then [nodes[|nodes| - 1]] else []
  }

  method CheckReady(node: Machine) returns (ready: bool)
    ensures ready <==> IsReady(node)
  {
    var conditions := node.conditions;
    for i := 0 to |conditions|
      invariant ReadyStatus(conditions) == ReadyStatus(conditions[i..])
    {
      if conditions[i].kind == "Ready" { return conditions[i].status == "True"; }
    }
    ready := false;
  }

  method FilterReady(nodes: seq<Machine>) returns (kept: seq<Machine>)
    ensures kept == Ready(nodes)
  {
    kept := [];
    for i := 0 to |nodes|
      invariant kept == Ready(nodes[..i])
    {
      var ready := CheckReady(nodes[i]);
      assert nodes[..i + 1][..i] == nodes[..i];
      if ready { kept := kept + [nodes[i]]; }
    }
    assert nodes[..|nodes|] == nodes;
  }

  // ---------- sums ----------

  function CpuOf(node: Machine): int { RoundUp(node.cpu, MILLI) }

  function MemoryOf(node: Machine): int { RoundUp(node.memory, UNIT) }

  function GpuUnder(node: Machine, key: string): int {
    if key in node.gpus then RoundUp(node.gpus[key], UNIT) else 0
  }

  function GpuOf(node: Machine): int {
    GpuUnder(node, NVIDIA) + GpuUnder(node, AMD)
  }

  predicate Advertises(node: Machine, key: string) {
    key in node.gpus && node.gpus[key] != 0
  }

  /** The GPU resource a node is counted under, "" if it has none. */
  function KeyOf(node: Machine): string {
    if Advertises(node, AMD) then AMD else if Advertises(node, NVIDIA) then NVIDIA else ""
  }

  function Sum(nodes: seq<Machine>, f: Machine -> int): int {
    if nodes == [] then 0 else Sum(nodes[..|nodes| - 1], f) + f(nodes[|nodes| - 1])
  }

  /** The key of the last node that has one. */
  function LastKey(nodes: seq<Machine>): string {
    if nodes == [] then ""
    else if KeyOf(nodes[|nodes| - 1]) != "" then KeyOf(nodes[|nodes| - 1])
    else LastKey(nodes[..|nodes| - 1])
  }

  function Totals(nodes: seq<Machine>): Allocatable {
    Allocatable(Sum(nodes, CpuOf), Sum(nodes, MemoryOf), Sum(nodes, GpuOf), LastKey(nodes))
  }

  method SumAllocatable(nodes: seq<Machine>) returns (total: Allocatable)
    ensures total == Totals(nodes)
  {
    hide RoundUp;
    total := Allocatable(0, 0, 0, "");
    for i := 0 to |nodes|
      invariant total == Totals(nodes[..i])
    {
      var node := nodes[i];
      assert nodes[..i + 1][..i] == nodes[..i] && nodes[..i + 1][i] == node;
      var gpu, gpuKey := total.gpu, total.gpuKey;
      for k := 0 to |GPU_NAMES|
        invariant gpu == total.gpu + (if k > 0 then GpuUnder(node, NVIDIA) else 0) + (if k > 1 then GpuUnder(node, AMD) else 0)
        invariant k == 0 ==> gpuKey == total.gpuKey
        invariant k == 1 ==> gpuKey == if Advertises(node, NVIDIA) then NVIDIA else total.gpuKey
        invariant k == 2 ==> gpuKey == if KeyOf(node) != "" then KeyOf(node) else total.gpuKey
      {
        var key := GPU_NAMES[k];
        if key in node.gpus && node.gpus[key] != 0 {
          gpu := gpu + RoundUp(node.gpus[key], UNIT);
          gpuKey := key;
        }
      }
      total := Allocatable(total.cpuMilli + CpuOf(node), total.memBytes + MemoryOf(node), gpu, gpuKey);
    }
    assert nodes[..|nodes|] == nodes;
  }

  lemma {:induction false} SumSplit(a: seq<Machine>, b: seq<Machine>, f: Machine -> int)
    ensures Sum(a + b, f) == Sum(a, f) + Sum(b, f)
  {
    if b == [] {
      assert a + b == a;
    } else {
      assert (a + b)[..|a + b| - 1] == a + b[..|b| - 1];
      SumSplit(a, b[..|b| - 1], f);
    }
  }

  lemma {:induction false} SumWithout(nodes: seq<Machine>, i: nat, f: Machine -> int)
    requires i < |nodes|
    ensures Sum(nodes, f) == Sum(nodes[..i] + nodes[i + 1..], f) + f(nodes[i])
    ensures multiset(nodes) == multiset(nodes[..i] + nodes[i + 1..]) + multiset{nodes[i]}
  {
    var one := [nodes[i]];
    assert nodes == nodes[..i] + one + nodes[i + 1..];
    SumSplit(nodes[..i] + one, nodes[i + 1..], f);
    SumSplit(nodes[..i], one, f);
    SumSplit(nodes[..i], nodes[i + 1..], f);
    assert one[..0] == [];
  }

  lemma {:induction false} CancelOne(x: multiset<Machine>, y: multiset<Machine>, t: Machine)
    requires x + multiset{t} == y + multiset{t}
    ensures x == y
  {
    forall m ensures x[m] == y[m] {
      assert (x + multiset{t})[m] == (y + multiset{t})[m];
    }
  }

  lemma {:induction false} SumPermuted(a: seq<Machine>, b: seq<Machine>, f: Machine -> int)
    requires multiset(a) == multiset(b)
    ensures Sum(a, f) == Sum(b, f) && |a| == |b|
  {
    assert |multiset(a)| == |multiset(b)|;
    if a != [] {
      var last := |a| - 1;
      assert a[last] in multiset(b);
      var i :| 0 <= i < |b| && b[i] == a[last];
      SumWithout(a, last, f);
      SumWithout(b, i, f);
      assert a[..last] + a[last + 1..] == a[..last];
      hide Sum;
      CancelOne(multiset(a[..last]), multiset(b[..i] + b[i + 1..]), a[last]);
      SumPermuted(a[..last], b[..i] + b[i + 1..], f);
    }
  }

  // ---------- replicas ----------

  function Ceil(x: real): int {
    -((-x).Floor)
  }

  function Max(a: int, b: int): int { if a >= b then a else b }

  /** How many pods of this size the buffer takes, at most the cap. */
  function CeilDiv(buffer: real, perPod: int): int {
    if perPod <= 0 || buffer <= 0.0 then 0
    else if Ceil(buffer / perPod as real) > MAX_REPLICAS then MAX_REPLICAS
    else Ceil(buffer / perPod as real)
  }

  function Share(total: int, fraction: real): real {
    total as real * fraction
  }

  function DesiredReplicas(policy: Policy, total: Allocatable, ready: nat): int {
    var cpu := if ready > 0 && policy.cpu > 0.0 then CeilDiv(Share(total.cpuMilli, policy.cpu), RoundUp(policy.podCpu, MILLI)) else 0;
    var memory := if ready > 0 && policy.memory > 0.0 then CeilDiv(Share(total.memBytes, policy.memory), RoundUp(policy.podMemory, UNIT)) else 0;
    var gpu := if ready > 0 && policy.gpu > 0.0 && policy.podGpu != 0 then CeilDiv(Share(total.gpu, policy.gpu), RoundUp(policy.podGpu, UNIT)) else 0;
    var n := Max(Max(Max(Max(0, cpu), memory), gpu), policy.minPods);
    if n > MAX_REPLICAS then MAX_REPLICAS else n
  }

  // ---------- the least count that covers everything ----------

  /** This many pods of this size hold the share; a size that is not positive holds nothing and asks for nothing. */
  predicate Holds(n: int, perPod: int, share: real) {
    perPod > 0 ==> share <= (n * perPod) as real
  }

  /** The count is at least the floor and holds every configured resource's share of the ready nodes. */
  predicate Covers(policy: Policy, total: Allocatable, ready: nat, n: int) {
    && n >= 0 && n >= policy.minPods
    && (ready > 0 ==>
          && (policy.cpu > 0.0 ==> Holds(n, RoundUp(policy.podCpu, MILLI), Share(total.cpuMilli, policy.cpu)))
          && (policy.memory > 0.0 ==> Holds(n, RoundUp(policy.podMemory, UNIT), Share(total.memBytes, policy.memory)))
          && (policy.gpu > 0.0 && policy.podGpu != 0 ==> Holds(n, RoundUp(policy.podGpu, UNIT), Share(total.gpu, policy.gpu))))
  }

  lemma {:induction false} CeilIsLeast(x: real, n: int)
    ensures Ceil(x) <= n <==> x <= n as real
  {
  }

  lemma {:induction false} DivideOut(buffer: real, perPod: real, n: real)
    requires perPod > 0.0
    ensures buffer / perPod <= n <==> buffer <= n * perPod
  {
    var q := buffer / perPod;
    assert q * perPod == buffer;
    if q <= n {
      assert (n - q) * perPod >= 0.0;
    } else {
      assert (q - n) * perPod > 0.0;
    }
  }

  /** A count below the cap is enough for a resource exactly when it holds its share. */
  lemma {:induction false} CeilDivIsLeast(buffer: real, perPod: int, n: int)
    requires 0 <= n < MAX_REPLICAS
    ensures CeilDiv(buffer, perPod) <= n <==> Holds(n, perPod, buffer)
    ensures 0 <= CeilDiv(buffer, perPod) <= MAX_REPLICAS
  {
    if perPod > 0 {
      if buffer > 0.0 {
        DivideOut(buffer, perPod as real, n as real);
        CeilIsLeast(buffer / perPod as real, n);
        DivideOut(buffer, perPod as real, 0.0);
        CeilIsLeast(buffer / perPod as real, -1);
        DivideOut(buffer, perPod as real, -1.0);
        assert (n * perPod) as real == n as real * perPod as real;
      } else {
        assert n * perPod >= 0;
      }
    }
  }

  /** Counts below the cap: enough exactly when they cover. */
  lemma {:induction false} EnoughExactlyWhenCovering(policy: Policy, total: Allocatable, ready: nat, n: int)
    requires 0 <= n < MAX_REPLICAS
    ensures DesiredReplicas(policy, total, ready) <= n <==> Covers(policy, total, ready, n)
  {
    hide CeilDiv, Holds, Share, RoundUp;
    CeilDivIsLeast(Share(total.cpuMilli, policy.cpu), RoundUp(policy.podCpu, MILLI), n);
    CeilDivIsLeast(Share(total.memBytes, policy.memory), RoundUp(policy.podMemory, UNIT), n);
    CeilDivIsLeast(Share(total.gpu, policy.gpu), RoundUp(policy.podGpu, UNIT), n);
  }

  /** The computed count is the least that covers, or the cap if no smaller count does. */
  lemma {:induction false} DesiredIsLeastCapped(policy: Policy, total: Allocatable, ready: nat)
    ensures var d := DesiredReplicas(policy, total, ready);
            && 0 <= d <= MAX_REPLICAS
            && (d < MAX_REPLICAS ==> Covers(policy, total, ready, d))
            && forall n :: Covers(policy, total, ready, n) ==> d <= n
  {
    var d := DesiredReplicas(policy, total, ready);
    EnoughExactlyWhenCovering(policy, total, ready, 0);
    assert 0 <= d <= MAX_REPLICAS by { hide CeilDiv, Share, RoundUp; }
    hide DesiredReplicas;
    if d < MAX_REPLICAS { EnoughExactlyWhenCovering(policy, total, ready, d); }
    forall n | Covers(policy, total, ready, n) ensures d <= n {
      if n < MAX_REPLICAS { EnoughExactlyWhenCovering(policy, total, ready, n); }
    }
  }

  /** With no ready node there is nothing to hold a share of: the count is the floor. */
  lemma {:induction false} ColdStartIsTheFloor(policy: Policy, total: Allocatable)
    requires 0 <= policy.minPods <= MAX_REPLICAS
    ensures DesiredReplicas(policy, total, 0) == policy.minPods
  {
    DesiredIsLeastCapped(policy, total, 0);
    assert Covers(policy, total, 0, policy.minPods);
  }

  /** The order in which the nodes are listed does not change the count. */
  lemma {:induction false} OrderDoesNotMatter(policy: Policy, a: seq<Machine>, b: seq<Machine>)
    requires multiset(a) == multiset(b)
    ensures DesiredReplicas(policy, Totals(a), |a|) == DesiredReplicas(policy, Totals(b), |b|)
  {
    SumPermuted(a, b, CpuOf);
    SumPermuted(a, b, MemoryOf);
    SumPermuted(a, b, GpuOf);
  }

  predicate NonNegative(node: Machine) {
    node.cpu >= 0 && node.memory >= 0 && forall key :: key in node.gpus ==> node.gpus[key] >= 0
  }

  lemma {:induction false} AddsSomething(node: Machine)
    requires NonNegative(node)
    ensures CpuOf(node) >= 0 && MemoryOf(node) >= 0 && GpuOf(node) >= 0
  {
  }

  lemma {:induction false} HoldsLess(n: int, perPod: int, total: int, more: int, fraction: real)
    requires total <= more && fraction > 0.0 && Holds(n, perPod, Share(more, fraction))
    ensures Holds(n, perPod, Share(total, fraction))
  {
    assert (more - total) as real * fraction >= 0.0;
  }

  /** A ready node more, anywhere in the list, never lowers the count. */
  lemma {:induction false} AddingANodeNeverLowers(policy: Policy, nodes: seq<Machine>, node: Machine, i: nat)
    requires i <= |nodes| && NonNegative(node)
    ensures DesiredReplicas(policy, Totals(nodes), |nodes|)
            <= DesiredReplicas(policy, Totals(nodes[..i] + [node] + nodes[i..]), |nodes| + 1)
  {
    var more := nodes[..i] + [node] + nodes[i..];
    assert nodes == nodes[..i] + nodes[i..];
    assert multiset(more) == multiset(nodes + [node]);
    OrderDoesNotMatter(policy, more, nodes + [node]);
    AddsSomething(node);
    assert (nodes + [node])[..|nodes|] == nodes;
    GrowsWithTotals(policy, Totals(nodes), Totals(nodes + [node]), |nodes|);
  }

  lemma {:induction false} GrowsWithTotals(policy: Policy, total: Allocatable, more: Allocatable, ready: nat)
    requires total.cpuMilli <= more.cpuMilli && total.memBytes <= more.memBytes && total.gpu <= more.gpu
    ensures DesiredReplicas(policy, total, ready) <= DesiredReplicas(policy, more, ready + 1)
  {
    var n := DesiredReplicas(policy, more, ready + 1);
    DesiredIsLeastCapped(policy, more, ready + 1);
    DesiredIsLeastCapped(policy, total, ready);
    hide DesiredReplicas, Holds, Share, RoundUp;
    if n < MAX_REPLICAS {
      if policy.cpu > 0.0 { HoldsLess(n, RoundUp(policy.podCpu, MILLI), total.cpuMilli, more.cpuMilli, policy.cpu); }
      if policy.memory > 0.0 { HoldsLess(n, RoundUp(policy.podMemory, UNIT), total.memBytes, more.memBytes, policy.memory); }
      if policy.gpu > 0.0 && policy.podGpu != 0 { HoldsLess(n, RoundUp(policy.podGpu, UNIT), total.gpu, more.gpu, policy.gpu); }
      assert Covers(policy, total, ready, n);
    }
  }

  // ---------- the GPU resource name ----------

  /** What one pod asks for; a GPU only under a name the pool's ready nodes carry. */
  datatype Requests = Requests(cpu: int, memory: int, gpu: Option<(string, int)>)

  function PerPodRequests(policy: Policy, gpuKey: string): Requests {
    Requests(policy.podCpu, policy.podMemory, if policy.podGpu != 0 && gpuKey != "" then Some((gpuKey, policy.podGpu)) else None)
  }

  /** The key is the name of some ready node's GPU, and there is one exactly when some node has a GPU. */
  lemma {:induction false} KeyIsSomeNodes(nodes: seq<Machine>)
    ensures LastKey(nodes) != "" <==> exists node :: node in nodes && KeyOf(node) != ""
    ensures LastKey(nodes) != "" ==> exists node :: node in nodes && KeyOf(node) == LastKey(nodes)
  {
    if nodes != [] {
      var rest, last := nodes[..|nodes| - 1], nodes[|nodes| - 1];
      KeyIsSomeNodes(rest);
      assert nodes == rest + [last] && last in nodes;
    }
  }

  predicate OneKind(nodes: seq<Machine>) {
    forall a, b :: a in nodes && b in nodes && KeyOf(a) != "" && KeyOf(b) != "" ==> KeyOf(a) == KeyOf(b)
  }

  lemma {:induction false} OneKindKeepsKey(nodes: seq<Machine>, other: seq<Machine>)
    requires OneKind(nodes) && multiset(other) == multiset(nodes)
    ensures LastKey(other) == LastKey(nodes)
  {
    KeyIsSomeNodes(nodes);
    KeyIsSomeNodes(other);
    hide LastKey, KeyOf;
    assert forall node :: node in other <==> node in multiset(other);
    assert forall node :: node in nodes <==> node in multiset(nodes);
  }

  /** The same nodes with one of them listed last. */
  function MovedLast(nodes: seq<Machine>, i: nat): (moved: seq<Machine>)
    requires i < |nodes|
    ensures KeyOf(nodes[i]) != "" ==> LastKey(moved) == KeyOf(nodes[i])
  {
    assert (nodes[..i] + nodes[i + 1..] + [nodes[i]])[|nodes| - 1] == nodes[i];
    nodes[..i] + nodes[i + 1..] + [nodes[i]]
  }

  lemma {:induction false} MixedHasAnotherKey(nodes: seq<Machine>) returns (other: seq<Machine>)
    requires !OneKind(nodes)
    ensures multiset(other) == multiset(nodes) && LastKey(other) != LastKey(nodes)
  {
    hide LastKey, KeyOf;
    var a, b :| a in nodes && b in nodes && KeyOf(a) != "" && KeyOf(b) != "" && KeyOf(a) != KeyOf(b);
    var last := if KeyOf(a) != LastKey(nodes) then a else b;
    var i :| 0 <= i < |nodes| && nodes[i] == last;
    other := MovedLast(nodes, i);
    SumWithout(nodes, i, CpuOf);
  }

  /** Unlike the count, the GPU name depends on the listing order exactly when the pool mixes two kinds. */
  lemma {:induction false} KeyKeepsExactlyWhenOneKind(nodes: seq<Machine>)
    ensures (forall other: seq<Machine> :: multiset(other) == multiset(nodes) ==> LastKey(other) == LastKey(nodes)) <==> OneKind(nodes)
  {
    if OneKind(nodes) {
      forall other: seq<Machine> | multiset(other) == multiset(nodes) ensures LastKey(other) == LastKey(nodes) {
        OneKindKeepsKey(nodes, other);
      }
    } else {
      var other := MixedHasAnotherKey(nodes);
    }
  }
}
