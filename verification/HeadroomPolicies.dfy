/**
  What a headroom policy says, in terms of the ConfigMap's own fields: which entries are
  taken and what each becomes, in which order the keys are read, and which key wins.
 */
module HeadroomPolicies {
  import opened BatchTypes
  import opened HeadroomMath
  import opened HeadroomConfig

  // ---------- one entry ----------

  /** The fraction is the percentage of this field, nothing if it is blank. */
  predicate PercentIs(text: Text<real>, fraction: real) {
    match text
    case Blank => fraction == 0.0
    case Garbage => false
    case Number(v) => 100.0 * fraction == v
  }

  /** The size is this field's, the default if it is blank. */
  predicate SizeIs(text: Text<int>, default: int, size: int) {
    match text
    case Blank => size == default
    case Garbage => false
    case Number(v) => size == v
  }

  /** The policy says what the entry says, field by field; a pod is 500m and 512Mi unless the entry says otherwise. */
  predicate Says(policy: Policy, entry: RawPool) {
    && policy.name == entry.name && policy.minPods == entry.minPods && policy.tolerations == entry.tolerations
    && PercentIs(entry.cpu, policy.cpu) && PercentIs(entry.memory, policy.memory) && PercentIs(entry.gpu, policy.gpu)
    && SizeIs(entry.podCpu, 500_000_000, policy.podCpu)
    && SizeIs(entry.podMemory, 536_870_912_000_000_000, policy.podMemory)
    && SizeIs(entry.podGpu, 0, policy.podGpu)
  }

  predicate PercentOk(text: Text<real>) {
    text.Blank? || (text.Number? && 0.0 <= text.value <= 100.0)
  }

  predicate SizeOk(text: Text<int>, least: int) {
    text.Blank? || (text.Number? && text.value >= least)
  }

  /** The entry can be taken: percentages from 0 to 100, a pod of at least 1m and 1Mi, no negative count, known tolerations. */
  predicate Proper(entry: RawPool) {
    && PercentOk(entry.cpu) && PercentOk(entry.memory) && PercentOk(entry.gpu)
    && SizeOk(entry.podCpu, 1_000_000) && SizeOk(entry.podMemory, 1_048_576_000_000_000) && SizeOk(entry.podGpu, 0)
    && entry.minPods >= 0
    && forall t :: t in entry.tolerations ==>
         t.operator in {"", "Exists", "Equal"} && t.effect in {"", "NoSchedule", "PreferNoSchedule", "NoExecute"}
  }

  lemma {:induction false} SensibleIsProper(entry: RawPool)
    ensures Sensible(entry) <==> Proper(entry)
    ensures Sensible(entry) ==> Says(PolicyOf(entry), entry)
  {
    assert forall i :: 0 <= i < |entry.tolerations| ==> entry.tolerations[i] in entry.tolerations;
  }

  // ---------- one key's entries ----------

  /** These are the positions of the entries with a name, in order. */
  predicate NamedAt(entries: seq<RawPool>, at: seq<int>) {
    && (forall k :: 0 <= k < |at| ==> 0 <= at[k] < |entries| && entries[at[k]].name != "")
    && (forall k, m :: 0 <= k < m < |at| ==> at[k] < at[m])
    && (forall i :: 0 <= i < |entries| && entries[i].name != "" ==> i in at)
  }

  lemma {:induction false} NamedPositions(entries: seq<RawPool>) returns (at: seq<int>)
    ensures NamedAt(entries, at) && |Named(entries)| == |at|
    ensures forall k :: 0 <= k < |at| ==> Named(entries)[k] == entries[at[k]]
  {
    at := [];
    if entries != [] {
      var rest, last := entries[..|entries| - 1], |entries| - 1;
      var before := NamedPositions(rest);
      at := NamedOneMore(entries, before);
    }
  }

  lemma {:induction false} NamedOneMore(entries: seq<RawPool>, before: seq<int>) returns (at: seq<int>)
    requires entries != [] && NamedAt(entries[..|entries| - 1], before)
    ensures NamedAt(entries, at) && at == before + if entries[|entries| - 1].name != "" then [|entries| - 1] else []
  {
    var last := |entries| - 1;
    at := before + if entries[last].name != "" then [last] else [];
    assert forall i :: 0 <= i < last ==> entries[..last][i] == entries[i];
    if entries[last].name != "" { assert at[|before|] == last; }
    assert forall i :: i in before ==> i in at;
  }

  /** No two entries have one name, the nameless apart. */
  predicate NamesDiffer(entries: seq<RawPool>) {
    forall i, j :: 0 <= i < j < |entries| && entries[i].name != "" ==> entries[i].name != entries[j].name
  }

  /** A value is read exactly when its named entries are all proper and no two share a name. */
  lemma {:induction false} ReadExactlyWhenProper(entries: seq<RawPool>)
    ensures Pools(Yaml(entries)).Some? <==> NamesDiffer(entries) && forall i :: 0 <= i < |entries| && entries[i].name != "" ==> Proper(entries[i])
    ensures Pools(NotYaml).None?
  {
    var at := NamedPositions(entries);
    forall entry ensures Sensible(entry) <==> Proper(entry) { SensibleIsProper(entry); }
    hide Sensible, Proper;
    AcceptableAtPositions(Named(entries), entries, at);
  }

  lemma {:induction false} AcceptableAtPositions(named: seq<RawPool>, entries: seq<RawPool>, at: seq<int>)
    requires NamedAt(entries, at) && |named| == |at| && forall k :: 0 <= k < |at| ==> named[k] == entries[at[k]]
    ensures Acceptable(named) <==> NamesDiffer(entries) && forall i :: 0 <= i < |entries| && entries[i].name != "" ==> Sensible(entries[i])
  {
    hide Sensible;
    if Acceptable(named) {
      forall i | 0 <= i < |entries| && entries[i].name != "" ensures Sensible(entries[i]) {
        var k := PositionOf(entries, at, i);
        assert named[k] == entries[i];
      }
      forall i, j | 0 <= i < j < |entries| && entries[i].name != "" ensures entries[i].name != entries[j].name {
        if entries[j].name != "" {
          var k, m := PositionOf(entries, at, i), PositionOf(entries, at, j);
          assert named[k] == entries[i] && named[m] == entries[j];
        }
      }
    }
  }

  ghost function PositionOf(entries: seq<RawPool>, at: seq<int>, i: nat): (k: nat)
    requires NamedAt(entries, at) && i < |entries| && entries[i].name != ""
    ensures k < |at| && at[k] == i
  {
    var k :| 0 <= k < |at| && at[k] == i; k
  }

  /** Each policy that is read is one named entry's, in their order, and says what that entry says. */
  lemma {:induction false} PoliciesSayWhatEntriesSay(entries: seq<RawPool>) returns (at: seq<int>)
    requires Pools(Yaml(entries)).Some?
    ensures var policies := Pools(Yaml(entries)).value;
            && NamedAt(entries, at) && |policies| == |at|
            && forall k :: 0 <= k < |at| ==> Says(policies[k], entries[at[k]])
  {
    at := NamedPositions(entries);
    var policies := Pools(Yaml(entries)).value;
    forall k | 0 <= k < |at| ensures Says(policies[k], entries[at[k]]) {
      SensibleIsProper(entries[at[k]]);
      assert policies[k] == PolicyOf(Named(entries)[k]);
    }
  }

  // ---------- the keys ----------

  /** The first place where the two differ decides, and a prefix comes first. */
  predicate Precedes(a: string, b: string, k: int) {
    && 0 <= k <= |a| && k <= |b| && a[..k] == b[..k]
    && ((k == |a| && k < |b|) || (k < |a| && k < |b| && a[k] < b[k]))
  }

  ghost predicate SortsBefore(a: string, b: string) {
    exists k :: Precedes(a, b, k)
  }

  lemma {:induction false} LessMeans(a: string, b: string) returns (k: int)
    ensures Less(a, b) ==> Precedes(a, b, k)
  {
    k := 0;
    if Less(a, b) && a != "" && a[0] == b[0] {
      var n := LessMeans(a[1..], b[1..]);
      k := n + 1;
      assert a[..k] == [a[0]] + a[1..][..n] && b[..k] == [b[0]] + b[1..][..n];
    }
  }

  /** The keys are read with "policy" first, then "config", then the others as they sort. */
  lemma {:induction false} ScanOrder(keys: set<string>, scan: seq<string>)
    requires IsScan(keys, scan)
    ensures "policy" in keys ==> |scan| > 0 && scan[0] == "policy"
    ensures "config" in keys ==> var n := if "policy" in keys then 1 else 0; n < |scan| && scan[n] == "config"
    ensures forall i, j :: 0 <= i < j < |scan| && scan[i] != "policy" && scan[i] != "config" ==> SortsBefore(scan[i], scan[j])
  {
    var rest :| scan == Leading(keys) + rest && Ascending(rest) && (forall key :: key in rest <==> key in keys && key !in WELL_KNOWN);
    var n := |Leading(keys)|;
    forall i, j | 0 <= i < j < |scan| && scan[i] != "policy" && scan[i] != "config" ensures SortsBefore(scan[i], scan[j]) {
      assert forall m :: 0 <= m < n ==> Leading(keys)[m] == "policy" || Leading(keys)[m] == "config";
      assert i >= n && scan[i] == rest[i - n] && scan[j] == rest[j - n];
      var k := LessMeans(scan[i], scan[j]);
    }
  }

  /** The key at this place of the scan is the first whose value gives any pools. */
  predicate Wins(data: map<string, Decoded>, scan: seq<string>, i: int) {
    && 0 <= i < |scan| && scan[i] in data && Pools(data[scan[i]]).Some? && |Pools(data[scan[i]]).value| > 0
    && forall k :: 0 <= k < i ==> scan[k] in data && (Pools(data[scan[k]]).None? || Pools(data[scan[k]]).value == [])
  }

  /**
    The policy is that of the first key in the scan that gives any pools. Without one, it
    is empty if every key could be read, and an error if some key could not.
   */
  lemma {:induction false} FirstKeyWins(data: map<string, Decoded>, loaded: Loaded, scan: seq<string>)
    requires IsPolicy(data, loaded) && IsScan(data.Keys, scan)
    ensures (exists i :: Wins(data, scan, i)) ==> exists i :: Wins(data, scan, i) && loaded == Policies(Pools(data[scan[i]]).value)
    ensures !(exists i :: Wins(data, scan, i)) ==>
              loaded == if forall key :: key in data ==> Pools(data[key]).Some? then Policies([]) else Broken
  {
    var a :| IsScan(data.Keys, a) && IsChoice(data, a, loaded);
    ScanIsUnique(data.Keys, a, scan);
    ScanIsComplete(data.Keys, scan);
    hide IsScan, Pools, Distinct;
    assert forall i :: Wins(data, scan, i) <==> FirstUseful(data, scan, i);
    if i :| 0 <= i < |scan| && scan[i] in data && Useful(data[scan[i]]) { var _ := FirstOfThem(data, scan, i); }
  }

  lemma {:induction false} FirstOfThem(data: map<string, Decoded>, scan: seq<string>, i: nat) returns (first: nat)
    requires i < |scan| && (forall key :: key in scan <==> key in data) && Useful(data[scan[i]])
    ensures FirstUseful(data, scan, first)
  {
    hide Useful;
    first := i;
    if k :| 0 <= k < i && Useful(data[scan[k]]) { first := FirstOfThem(data, scan, k); }
    assert forall k :: 0 <= k < |scan| ==> scan[k] in scan;
  }
}
