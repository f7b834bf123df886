/** Grouping the awaited claims by batch, as the resume at start-up does it. */
module ResumeGroups {
  import opened BatchTypes
  import opened ProviderIds
  import opened NodeMatching
  import opened Fleet

  lemma {:induction false} TrimLeftStarts(s: string)
    ensures TrimLeft(s) == "" || !IsSpace(TrimLeft(s)[0])
    ensures TrimLeft(TrimLeft(s)) == TrimLeft(s)
  {
    if s != "" && IsSpace(s[0]) { TrimLeftStarts(s[1..]); }
  }

  lemma {:induction false} TrimRightEnds(s: string)
    ensures TrimRight(s) <= s && (TrimRight(s) == "" || !IsSpace(TrimRight(s)[|TrimRight(s)| - 1]))
    ensures TrimRight(TrimRight(s)) == TrimRight(s)
  {
    if s != "" && IsSpace(s[|s| - 1]) { TrimRightEnds(s[..|s| - 1]); }
  }

  lemma {:induction false} TrimIsDone(s: string)
    ensures Trim(Trim(s)) == Trim(s)
  {
    var left, once := TrimLeft(s), Trim(s);
    TrimLeftStarts(s);
    TrimRightEnds(left);
    if once != "" { assert once[0] == left[0]; }
  }

  /** Trimming drops the white space at both ends and nothing else. */
  lemma {:induction false} TrimIsExact(s: string) returns (i: nat, j: nat)
    ensures i <= j <= |s| && Trim(s) == s[i..j]
    ensures (forall k :: 0 <= k < i || j <= k < |s| ==> IsSpace(s[k])) && (i < j ==> !IsSpace(s[i]) && !IsSpace(s[j - 1]))
  {
    i := TrimLeftDrops(s);
    var n := TrimRightDrops(s[i..]);
    TrimLeftStarts(s);
    TrimRightEnds(s[i..]);
    j := i + n;
    assert forall k :: j <= k < |s| ==> s[k] == s[i..][k - i];
    if i < j { assert Trim(s)[0] == s[i] && Trim(s)[n - 1] == s[j - 1]; }
  }

  lemma {:induction false} TrimLeftDrops(s: string) returns (i: nat)
    ensures i <= |s| && TrimLeft(s) == s[i..] && forall k :: 0 <= k < i ==> IsSpace(s[k])
  {
    i := 0;
    if s != "" && IsSpace(s[0]) {
      var n := TrimLeftDrops(s[1..]);
      i := n + 1;
      assert forall k :: 0 < k < i ==> s[k] == s[1..][k - 1];
    }
  }

  lemma {:induction false} TrimRightDrops(s: string) returns (j: nat)
    ensures j <= |s| && TrimRight(s) == s[..j] && forall k :: j <= k < |s| ==> IsSpace(s[k])
  {
    j := |s|;
    if s != "" && IsSpace(s[|s| - 1]) { j := TrimRightDrops(s[..|s| - 1]); }
  }

  lemma {:induction false} GroupedByAwaited(list: seq<Claim>)
    ensures forall id :: id in Grouped(list) ==> id != "" && Trim(id) == id && Grouped(list)[id] != []
    ensures forall claim :: claim in list && Awaited(claim) ==> Trim(claim.batchId) in Grouped(list) && claim.uid in Grouped(list)[Trim(claim.batchId)]
    ensures forall id, uid :: id in Grouped(list) && uid in Grouped(list)[id] ==>
              exists claim :: claim in list && Awaited(claim) && Trim(claim.batchId) == id && claim.uid == uid
  {
    if list != [] {
      var shorter, last := list[..|list| - 1], list[|list| - 1];
      GroupedByAwaited(shorter);
      TrimIsDone(last.batchId);
      assert list == shorter + [last];
      hide Awaited, Trim;
      forall id, uid | id in Grouped(list) && uid in Grouped(list)[id]
        ensures exists claim :: claim in list && Awaited(claim) && Trim(claim.batchId) == id && claim.uid == uid
      {
        if Awaited(last) && Trim(last.batchId) == id && uid == last.uid {
          assert last in list;
        } else {
          var claim :| claim in shorter && Awaited(claim) && Trim(claim.batchId) == id && claim.uid == uid;
          assert claim in list;
        }
      }
    }
  }

  /** The claim waits for its node, and is annotated with this batch. */
  predicate WaitsIn(claim: Claim, id: string) {
    IsPending(claim.providerId) && !claim.deleting && Trim(claim.batchId) == id && id != ""
  }

  /** An operation is in a batch's group if and only if it is that of a listed claim that waits in that batch. */
  lemma {:induction false} GroupedExact(list: seq<Claim>)
    ensures forall id :: id in Grouped(list) ==> id != "" && Trim(id) == id && Grouped(list)[id] != []
    ensures forall claim, id :: claim in list && WaitsIn(claim, id) ==> id in Grouped(list) && claim.uid in Grouped(list)[id]
    ensures forall id, uid :: id in Grouped(list) && uid in Grouped(list)[id] ==> exists claim :: claim in list && WaitsIn(claim, id) && claim.uid == uid
  {
    GroupedByAwaited(list);
    forall claim, id ensures WaitsIn(claim, id) <==> Awaited(claim) && Trim(claim.batchId) == id {
    }
    hide Awaited, WaitsIn, Grouped, Trim;
  }

  /** With distinct UIDs no operation is resumed twice. */
  lemma {:induction false} GroupsDistinct(list: seq<Claim>)
    requires forall i, j :: 0 <= i < j < |list| ==> list[i].uid != list[j].uid
    ensures forall id :: id in Grouped(list) ==> Distinct(Grouped(list)[id])
    ensures forall id, other, uid :: id in Grouped(list) && other in Grouped(list) && id != other && uid in Grouped(list)[id] ==> uid !in Grouped(list)[other]
  {
    if list != [] {
      var shorter, last := list[..|list| - 1], list[|list| - 1];
      GroupsDistinct(shorter);
      GroupedByAwaited(shorter);
      assert forall claim :: claim in shorter ==> claim.uid != last.uid;
      hide Awaited, Trim;
      assert forall id :: id in Grouped(shorter) ==> last.uid !in Grouped(shorter)[id];
    }
  }
}
