/** The values the node batcher moves around, and its fixed settings. */
module BatchTypes {

  datatype Option<+T> = None | Some(value: T)

  /** Durations and instants are counted in nanoseconds. */
  const SECOND := 1_000_000_000
  const MAX_BATCH_SIZE := 10
  const QUEUE_CAPACITY := 256
  const POLL_INTERVAL := 30 * SECOND
  const INITIAL_DELAY := 120 * SECOND
  const MAX_BATCH_AGE := 7200 * SECOND
  const SUCCEEDED_RETENTION := 7200 * SECOND
  const MAX_EMPTY_POLLS := 3
  const EXPIRED_DETAIL := "batch expired at broker"

  datatype Kind = Add | Remove

  /** The payload of a request; an operation resumed after a restart has none. */
  datatype Request =
    | NoRequest
    | AddNodes(instanceType: string, nodePool: string)
    | RemoveNodes(instanceType: string, nodePool: string, providerId: string)

  datatype Item = Item(op: string, kind: Kind, req: Request)

  datatype SendError = QueueFull | SendFailed(kind: Kind, cause: string)

  /** What a blocked Create or Delete call receives. */
  datatype Result = Acked(batchId: string) | Refused(err: SendError)

  datatype NodeState = Unspecified | Accepted | Running | Succeeded | Failed

  /** One entry of a broker status reply. */
  datatype NodeResult = NodeResult(op: string, state: NodeState, detail: string)

  /** One call of the failure handler. */
  datatype Report = Report(op: string, kind: Kind, detail: string)

  /** What is remembered of an operation once its payload is dropped. */
  type Tag = (string, Kind)

  function Ops(items: seq<Item>): set<string> {
    set i | 0 <= i < |items| :: items[i].op
  }

  lemma {:induction false} OpsOfHead(items: seq<Item>)
    requires items != []
    ensures Ops(items) == {items[0].op} + Ops(items[1..])
  {
    assert forall i :: 1 <= i < |items| ==> items[i] == items[1..][i - 1];
  }

  /** Every item carries the given kind. */
  predicate OfKind(items: seq<Item>, kind: Kind) {
    forall i :: 0 <= i < |items| ==> items[i].kind == kind
  }

  /** No operation is listed twice. */
  predicate DistinctOps(items: seq<Item>) {
    forall i, j :: 0 <= i < j < |items| ==> items[i].op != items[j].op
  }

  predicate Distinct<T(==)>(s: seq<T>) {
    forall i, j :: 0 <= i < j < |s| ==> s[i] != s[j]
  }

  /** The second sequence is the first with some elements left out; these are the places of the rest. */
  predicate Embeds(before: seq<Item>, after: seq<Item>, at: seq<int>) {
    && |at| == |after|
    && (forall i :: 0 <= i < |at| ==> 0 <= at[i] < |before| && before[at[i]] == after[i])
    && forall i, j :: 0 <= i < j < |at| ==> at[i] < at[j]
  }

  lemma {:induction false} EmbedMore(items: seq<Item>, part: seq<Item>, rest: seq<int>, kept: bool) returns (at: seq<int>)
    requires items != [] && Embeds(items[1..], part, rest)
    ensures Embeds(items, (if kept then [items[0]] else []) + part, at)
  {
    var moved := seq(|rest|, i requires 0 <= i < |rest| => rest[i] + 1);
    assert Embeds(items, part, moved);
    at := moved;
    if kept { at := PutFirst(items, part, moved); } else { assert [] + part == part; }
  }

  lemma {:induction false} PutFirst(items: seq<Item>, part: seq<Item>, moved: seq<int>) returns (at: seq<int>)
    requires items != [] && Embeds(items, part, moved) && forall i :: 0 <= i < |moved| ==> moved[i] > 0
    ensures Embeds(items, [items[0]] + part, at)
  {
    at := [0] + moved;
    forall i, j | 0 <= i < j < |at| ensures at[i] < at[j] {
      if i > 0 { assert moved[i - 1] < moved[j - 1]; }
    }
  }

  // White space as the source's trimming knows it.
  predicate IsSpace(c: char) {
    || c in {' ', '\t', '\n', '\r', '\U{000B}', '\U{000C}', '\U{0085}', '\U{00A0}'}
    || c in {'\U{1680}', '\U{2028}', '\U{2029}', '\U{202F}', '\U{205F}', '\U{3000}'}
    || '\U{2000}' <= c <= '\U{200A}'
  }

  function TrimLeft(s: string): string {
    if s != "" && IsSpace(s[0]) then TrimLeft(s[1..]) else s
  }

  function TrimRight(s: string): string {
    if s != "" && IsSpace(s[|s| - 1]) then TrimRight(s[..|s| - 1]) else s
  }

  function Trim(s: string): string {
    TrimRight(TrimLeft(s))
  }
}
