/** Reading the headroom policy: which key of the ConfigMap wins, and what its pools say. */
module HeadroomConfig {
  import opened BatchTypes
  import opened HeadroomMath

  // ---------- the order of the keys ----------

  /** Strings in the order Go sorts them. */
  predicate Less(a: string, b: string) {
    b != "" && (a == "" || a[0] < b[0] || (a[0] == b[0] && Less(a[1..], b[1..])))
  }

  lemma {:induction false} LessIsTotal(a: string, b: string)
    ensures Less(a, b) || a == b || Less(b, a)
    ensures !(Less(a, b) && Less(b, a)) && !Less(a, a)
  {
    if a != "" && b != "" {
      LessIsTotal(a[1..], b[1..]);
      assert a == [a[0]] + a[1..] && b == [b[0]] + b[1..];
    }
    if a != "" { LessIsTotal(a[1..], a[1..]); }
  }

  lemma {:induction false} LessIsTransitive(a: string, b: string, c: string)
    requires Less(a, b) && Less(b, c)
    ensures Less(a, c)
  {
    if a != "" && a[0] == b[0] == c[0] { LessIsTransitive(a[1..], b[1..], c[1..]); }
  }

  predicate Ascending(keys: seq<string>) {
    forall i, j :: 0 <= i < j < |keys| ==> Less(keys[i], keys[j])
  }

  const WELL_KNOWN: seq<string> := ["policy", "config"]

  /** The well-known keys that are present, in their order. */
  function Leading(keys: set<string>): seq<string> {
    (if "policy" in keys then ["policy"] else []) + (if "config" in keys then ["config"] else [])
  }

  /** The scan of a key set: the well-known keys, then the others in ascending order. */
  ghost predicate IsScan(keys: set<string>, scan: seq<string>) {
    exists rest :: scan == Leading(keys) + rest && Ascending(rest) && (forall key :: key in rest <==> key in keys && key !in WELL_KNOWN)
  }

  lemma {:induction false} AscendingIsUnique(a: seq<string>, b: seq<string>)
    requires Ascending(a) && Ascending(b) && forall key :: key in a <==> key in b
    ensures a == b
  {
    assert (a != [] ==> a[0] in a) && (b != [] ==> b[0] in b);
    if a != [] && b != [] {
      FirstIsLeast(a, b);
      FirstIsLeast(b, a);
      LessIsTotal(a[0], b[0]);
      NotAgain(a);
      NotAgain(b);
      assert a == [a[0]] + a[1..] && b == [b[0]] + b[1..];
      assert forall key :: key in a[1..] <==> key in a && key != a[0];
      assert forall key :: key in b[1..] <==> key in b && key != b[0];
      AscendingIsUnique(a[1..], b[1..]);
    }
  }

  lemma {:induction false} FirstIsLeast(a: seq<string>, b: seq<string>)
    requires Ascending(a) && a != [] && b != [] && b[0] in a
    ensures a[0] == b[0] || Less(a[0], b[0])
  {
    var i :| 0 <= i < |a| && a[i] == b[0];
  }

  lemma {:induction false} NotAgain(a: seq<string>)
    requires Ascending(a) && a != []
    ensures a[0] !in a[1..]
  {
    LessIsTotal(a[0], a[0]);
    forall i | 0 <= i < |a| - 1 ensures a[1..][i] != a[0] {
      assert Less(a[0], a[i + 1]);
    }
  }

  /** The scan depends only on which keys there are. */
  lemma {:induction false} ScanIsUnique(keys: set<string>, a: seq<string>, b: seq<string>)
    requires IsScan(keys, a) && IsScan(keys, b)
    ensures a == b
  {
    var x :| a == Leading(keys) + x && Ascending(x) && (forall key :: key in x <==> key in keys && key !in WELL_KNOWN);
    var y :| b == Leading(keys) + y && Ascending(y) && (forall key :: key in y <==> key in keys && key !in WELL_KNOWN);
    AscendingIsUnique(x, y);
  }

  /** The scan names every key once. */
  lemma {:induction false} ScanIsComplete(keys: set<string>, scan: seq<string>)
    requires IsScan(keys, scan)
    ensures (forall key :: key in scan <==> key in keys) && Distinct(scan)
  {
    var rest :| scan == Leading(keys) + rest && Ascending(rest) && (forall key :: key in rest <==> key in keys && key !in WELL_KNOWN);
    assert WELL_KNOWN[0] == "policy" && WELL_KNOWN[1] == "config";
    assert "policy" in WELL_KNOWN && "config" in WELL_KNOWN;
    var first := Leading(keys);
    assert forall key :: key in first ==> key in WELL_KNOWN;
    forall i, j | 0 <= i < j < |rest| ensures rest[i] != rest[j] {
      LessIsTotal(rest[i], rest[i]);
    }
    forall i, j | 0 <= i < j < |scan| ensures scan[i] != scan[j] {
      if j >= |first| { assert scan[j] == rest[j - |first|] && scan[j] in rest; }
      if i < |first| { assert scan[i] == first[i] && scan[i] in first; }
    }
  }

  /** Put a key where it belongs in an ascending list. */
  method Insert(sorted: seq<string>, key: string) returns (longer: seq<string>)
    requires Ascending(sorted) && key !in sorted
    ensures Ascending(longer) && forall k :: k in longer <==> k in sorted || k == key
  {
    var i := 0;
    while i < |sorted| && Less(sorted[i], key)
      invariant 0 <= i <= |sorted|
      invariant forall k :: 0 <= k < i ==> Less(sorted[k], key)
    {
      i := i + 1;
    }
    longer := sorted[..i] + [key] + sorted[i..];
    InsertKeepsOrder(sorted, key, i);
    assert sorted == sorted[..i] + sorted[i..];
  }

  lemma {:induction false} InsertKeepsOrder(sorted: seq<string>, key: string, i: nat)
    requires Ascending(sorted) && key !in sorted && i <= |sorted|
    requires (forall k :: 0 <= k < i ==> Less(sorted[k], key)) && (i < |sorted| ==> !Less(sorted[i], key))
    ensures Ascending(sorted[..i] + [key] + sorted[i..])
  {
    forall k | i <= k < |sorted| ensures Less(key, sorted[k]) {
      LessIsTotal(key, sorted[i]);
      assert sorted[i] in sorted;
      if k > i { LessIsTransitive(key, sorted[i], sorted[k]); }
    }
  }

  predicate IsWellKnown(key: string) {
    key in WELL_KNOWN
  }

  /** The keys in the order they are scanned; the map yields them in any order. */
  method CandidateKeys(data: map<string, Decoded>) returns (scan: seq<string>)
    ensures IsScan(data.Keys, scan)
  {
    scan := [];
    for i := 0 to |WELL_KNOWN|
      invariant i == 0 ==> scan == []
      invariant i == 1 ==> scan == if "policy" in data then ["policy"] else []
      invariant i == 2 ==> scan == Leading(data.Keys)
    {
      if WELL_KNOWN[i] in data { scan := scan + [WELL_KNOWN[i]]; }
    }
    var rest: seq<string> := [];
    var left := data.Keys;
    while left != {}
      invariant left <= data.Keys && Ascending(rest)
      invariant forall key :: key in rest <==> key in data.Keys && key !in left && key !in WELL_KNOWN
      decreases |left|
    {
      var key :| key in left;
      left := left - {key};
      if !IsWellKnown(key) { rest := Insert(rest, key); }
    }
    scan := scan + rest;
  }

  // ---------- one key's pools ----------

  /** A field's text: empty, unreadable, or a number. */
  datatype Text<T> = Blank | Garbage | Number(value: T)

  datatype RawPool = RawPool(
    name: string,
    cpu: Text<real>,
    memory: Text<real>,
    gpu: Text<real>,
    podCpu: Text<int>,
    podMemory: Text<int>,
    podGpu: Text<int>,
    minPods: int,
    tolerations: seq<Toleration>)

  /** What decoding one value of the ConfigMap gives. */
  datatype Decoded = NotYaml | Yaml(pools: seq<RawPool>)

  const DEFAULT_POD_CPU := 500 * MILLI
  const DEFAULT_POD_MEMORY := 512 * 1024 * 1024 * UNIT
  const MIN_POD_CPU := MILLI
  const MIN_POD_MEMORY := 1024 * 1024 * UNIT

  /** A percentage as a fraction; blank is zero. */
  function Fraction(text: Text<real>): Option<real> {
    match text
    case Blank => Some(0.0)
    case Garbage => None
    case Number(v) => if v < 0.0 || v > 100.0 then None else Some(v / 100.0)
  }

  /** A quantity; blank is the default. */
  function Size(text: Text<int>, default: int): Option<int> {
    match text
    case Blank => Some(default)
    case Garbage => None
    case Number(v) => Some(v)
  }

  predicate KnownToleration(t: Toleration) {
    t.operator in {"", "Exists", "Equal"} && t.effect in {"", "NoSchedule", "PreferNoSchedule", "NoExecute"}
  }

  /** Everything about a pool entry that can be wrong, short of its name. */
  predicate Sensible(p: RawPool) {
    && Fraction(p.cpu).Some? && Fraction(p.memory).Some? && Fraction(p.gpu).Some?
    && Size(p.podCpu, DEFAULT_POD_CPU).Some? && Size(p.podCpu, DEFAULT_POD_CPU).value >= MIN_POD_CPU
    && Size(p.podMemory, DEFAULT_POD_MEMORY).Some? && Size(p.podMemory, DEFAULT_POD_MEMORY).value >= MIN_POD_MEMORY
    && Size(p.podGpu, 0).Some? && Size(p.podGpu, 0).value >= 0
    && p.minPods >= 0
    && forall i :: 0 <= i < |p.tolerations| ==> KnownToleration(p.tolerations[i])
  }

  function PolicyOf(p: RawPool): Policy
    requires Sensible(p)
  {
    Policy(p.name, Fraction(p.cpu).value, Fraction(p.memory).value, Fraction(p.gpu).value,
           Size(p.podCpu, DEFAULT_POD_CPU).value, Size(p.podMemory, DEFAULT_POD_MEMORY).value, Size(p.podGpu, 0).value,
           p.minPods, p.tolerations)
  }

  /** What the calculator may take for granted of a policy that was read. */
  predicate ReadPolicy(p: Policy) {
    && p.name != "" && 0.0 <= p.cpu <= 1.0 && 0.0 <= p.memory <= 1.0 && 0.0 <= p.gpu <= 1.0
    && p.podCpu >= MIN_POD_CPU && p.podMemory >= MIN_POD_MEMORY && p.podGpu >= 0 && p.minPods >= 0
  }

  /** The entries with a name. */
  function Named(pools: seq<RawPool>): seq<RawPool> {
    if pools == [] then []
    else Named(pools[..|pools| - 1]) + if pools[|pools| - 1].name != "" then [pools[|pools| - 1]] else []
  }

  /** Entries that can all be taken: each sensible, no name twice. */
  predicate Acceptable(pools: seq<RawPool>) {
    && (forall i :: 0 <= i < |pools| ==> Sensible(pools[i]))
    && (forall i, j :: 0 <= i < j < |pools| ==> pools[i].name != pools[j].name)
  }

  function PoliciesOf(pools: seq<RawPool>): (policies: seq<Policy>)
    requires forall i :: 0 <= i < |pools| ==> Sensible(pools[i])
    ensures |policies| == |pools| && forall i :: 0 <= i < |pools| ==> policies[i] == PolicyOf(pools[i])
  {
    seq(|pools|, i requires 0 <= i < |pools| => PolicyOf(pools[i]))
  }

  /** One value's pools, or None for an error. */
  function Pools(decoded: Decoded): Option<seq<Policy>> {
    match decoded
    case NotYaml => None
    case Yaml(raw) => if Acceptable(Named(raw)) then Some(PoliciesOf(Named(raw))) else None
  }

  lemma {:induction false} NamedHaveNames(pools: seq<RawPool>)
    ensures forall p :: p in Named(pools) <==> p in pools && p.name != ""
    ensures forall i :: 0 <= i < |Named(pools)| ==> Named(pools)[i].name != ""
  {
    if pools != [] {
      NamedHaveNames(pools[..|pools| - 1]);
      assert pools == pools[..|pools| - 1] + [pools[|pools| - 1]];
    }
  }

  /** Policies that were read are in range, and no pool is named twice. */
  lemma {:induction false} ReadPoliciesAreSound(decoded: Decoded)
    requires Pools(decoded).Some?
    ensures var policies := Pools(decoded).value;
            && (forall i :: 0 <= i < |policies| ==> ReadPolicy(policies[i]))
            && (forall i, j :: 0 <= i < j < |policies| ==> policies[i].name != policies[j].name)
  {
    NamedHaveNames(decoded.pools);
    var named := Named(decoded.pools);
    forall i | 0 <= i < |named| ensures ReadPolicy(PolicyOf(named[i])) {
      assert Sensible(named[i]);
    }
  }

  /** The checks on one entry, in the order they are made. */
  method ParsePool(p: RawPool) returns (policy: Option<Policy>)
    ensures policy == if Sensible(p) then Some(PolicyOf(p)) else None
  {
    var cpu, memory, gpu := Fraction(p.cpu), Fraction(p.memory), Some(0.0);
    if cpu.None? || memory.None? { return None; }
    if !p.gpu.Blank? { gpu := Fraction(p.gpu); }
    if gpu.None? { return None; }
    var podCpu := Size(p.podCpu, DEFAULT_POD_CPU);
    if podCpu.None? || podCpu.value < MIN_POD_CPU { return None; }
    var podMemory := Size(p.podMemory, DEFAULT_POD_MEMORY);
    if podMemory.None? || podMemory.value < MIN_POD_MEMORY { return None; }
    var podGpu := Size(p.podGpu, 0);
    if podGpu.None? || podGpu.value < 0 { return None; }
    if p.minPods < 0 { return None; }
    for i := 0 to |p.tolerations|
      invariant forall k :: 0 <= k < i ==> KnownToleration(p.tolerations[k])
    {
      if !KnownToleration(p.tolerations[i]) { return None; }
    }
    policy := Some(Policy(p.name, cpu.value, memory.value, gpu.value, podCpu.value, podMemory.value, podGpu.value, p.minPods, p.tolerations));
  }

  method UnmarshalPools(decoded: Decoded) returns (pools: Option<seq<Policy>>)
    ensures pools == Pools(decoded)
  {
    if decoded.NotYaml? { return None; }
    var raw := decoded.pools;
    var out: seq<Policy> := [];
    var seen: set<string> := {};
    hide Sensible;
    for i := 0 to |raw|
      invariant Acceptable(Named(raw[..i])) && out == PoliciesOf(Named(raw[..i])) && seen == NamesOf(Named(raw[..i]))
    {
      var p := raw[i];
      NamedGrows(raw, i);
      if p.name == "" { continue; }
      OneMoreEntry(Named(raw[..i]), p);
      if p.name in seen {
        TooBad(raw, i + 1);
        return None;
      }
      seen := seen + {p.name};
      var policy := ParsePool(p);
      if policy.None? {
        TooBad(raw, i + 1);
        return None;
      }
      out := out + [policy.value];
    }
    assert raw[..|raw|] == raw;
    pools := Some(out);
  }

  function NamesOf(pools: seq<RawPool>): set<string> {
    set k | 0 <= k < |pools| :: pools[k].name
  }

  /** An entry can be taken after these exactly when it is sensible and its name is new. */
  lemma {:induction false} OneMoreEntry(pools: seq<RawPool>, p: RawPool)
    requires Acceptable(pools)
    ensures Acceptable(pools + [p]) <==> Sensible(p) && p.name !in NamesOf(pools)
    ensures NamesOf(pools + [p]) == NamesOf(pools) + {p.name}
    ensures Sensible(p) ==> PoliciesOf(pools + [p]) == PoliciesOf(pools) + [PolicyOf(p)]
  {
    hide Sensible, PolicyOf;
    var longer := pools + [p];
    assert longer[|pools|] == p && forall k :: 0 <= k < |pools| ==> longer[k] == pools[k];
  }

  lemma {:induction false} NamedGrows(raw: seq<RawPool>, i: nat)
    requires i < |raw|
    ensures Named(raw[..i + 1]) == Named(raw[..i]) + if raw[i].name != "" then [raw[i]] else []
  {
    assert raw[..i + 1][..i] == raw[..i];
  }

  lemma {:induction false} NamedPrefix(raw: seq<RawPool>, i: nat)
    requires i <= |raw|
    ensures Named(raw[..i]) <= Named(raw)
    decreases |raw| - i
  {
    if i == |raw| {
      assert raw[..i] == raw;
    } else {
      NamedGrows(raw, i);
      NamedPrefix(raw, i + 1);
    }
  }

  /** One bad entry spoils the whole value. */
  lemma {:induction false} TooBad(raw: seq<RawPool>, i: nat)
    requires i <= |raw| && !Acceptable(Named(raw[..i]))
    ensures !Acceptable(Named(raw))
  {
    NamedPrefix(raw, i);
    var a, b := Named(raw[..i]), Named(raw);
    assert forall k :: 0 <= k < |a| ==> a[k] == b[k];
  }

  // ---------- the whole ConfigMap ----------

  predicate Useful(decoded: Decoded) {
    Pools(decoded).Some? && Pools(decoded).value != []
  }

  /** The policy: the pools of the first useful key, none at all, or an error if some key could not be read. */
  datatype Loaded = Policies(pools: seq<Policy>) | Broken

  ghost predicate IsChoice(data: map<string, Decoded>, scan: seq<string>, loaded: Loaded) {
    if exists i :: 0 <= i < |scan| && scan[i] in data && Useful(data[scan[i]]) then
      exists i :: FirstUseful(data, scan, i) && loaded == Policies(Pools(data[scan[i]]).value)
    else if exists key :: key in data && Pools(data[key]).None? then loaded == Broken
    else loaded == Policies([])
  }

  ghost predicate FirstUseful(data: map<string, Decoded>, scan: seq<string>, i: int) {
    && 0 <= i < |scan| && scan[i] in data && Useful(data[scan[i]])
    && forall k :: 0 <= k < i ==> scan[k] in data && !Useful(data[scan[k]])
  }

  ghost predicate NoneUseful(data: map<string, Decoded>, keys: seq<string>, n: int) {
    forall k :: 0 <= k < n && k < |keys| && keys[k] in data ==> !Useful(data[keys[k]])
  }

  ghost predicate SomeBroken(data: map<string, Decoded>, keys: seq<string>, n: int) {
    exists k :: 0 <= k < n && k < |keys| && keys[k] in data && Pools(data[keys[k]]).None?
  }

  method ParseHeadroomConfig(data: map<string, Decoded>) returns (loaded: Loaded)
    ensures IsPolicy(data, loaded)
  {
    var keys := CandidateKeys(data);
    assert IsScan(data.Keys, keys);
    ScanIsComplete(data.Keys, keys);
    hide IsScan, Pools, IsChoice, Distinct, Scanned;
    NothingScanned(data, keys);
    var pools: seq<Policy>, failed := [], false;
    ghost var at := -1;
    for i := 0 to |keys|
      invariant Scanned(data, keys, i, pools, at, failed)
    {
      var key := keys[i];
      assert key in keys && key in data;
      var got := UnmarshalPools(data[key]);
      ScannedMore(data, keys, i, pools, at, failed);
      if got.None? {
        failed := true;
        continue;
      }
      if got.value == [] { continue; }
      if pools == [] {
        pools := got.value;
        at := i;
      }
    }
    loaded := if pools != [] then Policies(pools) else if failed then Broken else Policies([]);
    ChoiceMade(data, keys, pools, at, failed);
  }

  /** Where the scan stands after n keys. */
  ghost predicate Scanned(data: map<string, Decoded>, keys: seq<string>, n: int, pools: seq<Policy>, at: int, failed: bool) {
    && (pools == [] ==> NoneUseful(data, keys, n))
    && (pools != [] ==> FirstUseful(data, keys, at) && pools == Pools(data[keys[at]]).value)
    && (failed <==> SomeBroken(data, keys, n))
  }

  lemma {:induction false} NothingScanned(data: map<string, Decoded>, keys: seq<string>)
    ensures Scanned(data, keys, 0, [], -1, false)
  {
  }

  lemma {:induction false} ScannedMore(data: map<string, Decoded>, keys: seq<string>, n: nat, pools: seq<Policy>, at: int, failed: bool)
    requires Scanned(data, keys, n, pools, at, failed) && n < |keys| && forall key :: key in keys ==> key in data
    ensures keys[n] in data
    ensures var got := Pools(data[keys[n]]);
            && (got.None? ==> Scanned(data, keys, n + 1, pools, at, true))
            && (got.Some? && (got.value == [] || pools != []) ==> Scanned(data, keys, n + 1, pools, at, failed))
            && (got.Some? && got.value != [] && pools == [] ==> Scanned(data, keys, n + 1, got.value, n, failed))
  {
    hide Pools;
    assert keys[n] in keys;
  }

  lemma {:induction false} ChoiceMade(data: map<string, Decoded>, scan: seq<string>, pools: seq<Policy>, at: int, failed: bool)
    requires (forall key :: key in scan <==> key in data) && Scanned(data, scan, |scan|, pools, at, failed)
    ensures IsChoice(data, scan, if pools != [] then Policies(pools) else if failed then Broken else Policies([]))
  {
    hide Pools, Useful;
    if pools == [] {
      forall key | key in data ensures exists k :: 0 <= k < |scan| && scan[k] == key {
        assert key in scan;
      }
    }
  }

  /** The policy of a ConfigMap: the choice along a scan of its keys. */
  ghost predicate IsPolicy(data: map<string, Decoded>, loaded: Loaded) {
    exists scan :: IsScan(data.Keys, scan) && IsChoice(data, scan, loaded)
  }

  /** The policy chosen depends only on the keys and their values. */
  lemma {:induction false} PolicyIsUnique(data: map<string, Decoded>, x: Loaded, y: Loaded)
    requires IsPolicy(data, x) && IsPolicy(data, y)
    ensures x == y
  {
    var a :| IsScan(data.Keys, a) && IsChoice(data, a, x);
    var b :| IsScan(data.Keys, b) && IsChoice(data, b, y);
    ScanIsUnique(data.Keys, a, b);
    hide IsScan, Pools;
    if exists i :: 0 <= i < |a| && a[i] in data && Useful(data[a[i]]) {
      var i :| FirstUseful(data, a, i) && x == Policies(Pools(data[a[i]]).value);
      var j :| FirstUseful(data, b, j) && y == Policies(Pools(data[b[j]]).value);
      assert i == j;
    }
  }

  /** An error is only reported when no key is useful and one is unreadable; and then always. */
  lemma {:induction false} BrokenExactlyWhenUnusable(data: map<string, Decoded>, loaded: Loaded)
    requires IsPolicy(data, loaded)
    ensures loaded.Broken? <==> (forall key :: key in data ==> !Useful(data[key])) && exists key :: key in data && Pools(data[key]).None?
  {
    var scan :| IsScan(data.Keys, scan) && IsChoice(data, scan, loaded);
    ScanIsComplete(data.Keys, scan);
    hide IsScan, Pools;
    if key :| key in data && Useful(data[key]) {
      assert key in scan;
      var i :| 0 <= i < |scan| && scan[i] == key;
    }
  }

  /** Whatever is chosen, the policies are in range and name no pool twice. */
  lemma {:induction false} ChosenPoliciesAreSound(data: map<string, Decoded>, loaded: Loaded)
    requires IsPolicy(data, loaded) && loaded.Policies?
    ensures (forall i :: 0 <= i < |loaded.pools| ==> ReadPolicy(loaded.pools[i]))
    ensures forall i, j :: 0 <= i < j < |loaded.pools| ==> loaded.pools[i].name != loaded.pools[j].name
  {
    var scan :| IsScan(data.Keys, scan) && IsChoice(data, scan, loaded);
    hide IsScan;
    if exists i :: 0 <= i < |scan| && scan[i] in data && Useful(data[scan[i]]) {
      var i :| FirstUseful(data, scan, i) && loaded == Policies(Pools(data[scan[i]]).value);
      ReadPoliciesAreSound(data[scan[i]]);
    }
  }
}
