/** Provider IDs: how the platform's IDs are built and taken apart, and which of them look pending. */
module ProviderIds {
  import opened BatchTypes

  const PREFIX := "rafay://"
  const PENDING_PREFIX := "rafay://pending/"

  predicate HasPrefix(s: string, prefix: string) {
    |prefix| <= |s| && s[..|prefix|] == prefix
  }

  /** rafay://pool/sku/host, or nothing if a segment is missing. */
  function Build(pool: string, sku: string, host: string): string {
    if pool == "" || sku == "" || host == "" then "" else PREFIX + pool + "/" + sku + "/" + host
  }

  /** The index of the first slash, or the length. */
  function FirstSlash(s: string): (i: nat)
    ensures i <= |s| && '/' !in s[..i] && (i < |s| ==> s[i] == '/')
  {
    if s == "" || s[0] == '/' then 0
    else
      var i := FirstSlash(s[1..]) + 1;
      assert s[..i] == [s[0]] + s[1..][..i - 1];
      i
  }

  /** First path segment and the rest; neither may be empty. */
  function Parse(id: string): Option<(string, string)> {
    if !HasPrefix(id, PREFIX) then None
    else
      var trimmed := id[|PREFIX|..];
      var i := FirstSlash(trimmed);
      if i == |trimmed| || i == 0 || i + 1 == |trimmed| then None
      else Some((trimmed[..i], trimmed[i + 1..]))
  }

  predicate IsPending(id: string) {
    HasPrefix(id, PENDING_PREFIX)
  }

  /** The synthetic ID of a claim whose node has not been found. */
  function PendingId(uid: string): (id: string)
    ensures IsPending(id) && id != ""
  {
    PENDING_PREFIX + uid
  }

  lemma {:induction false} FirstSlashIsFirst(a: string, b: string)
    requires '/' !in a
    ensures FirstSlash(a + "/" + b) == |a|
  {
    var s := a + "/" + b;
    var i := FirstSlash(s);
    assert s[|a|] == '/';
    assert forall k :: 0 <= k < |a| ==> s[k] == a[k] && a[k] in a;
    assert forall k :: 0 <= k < i ==> s[..i][k] == s[k];
  }

  /** Every accepted ID is rebuilt exactly from its parse. */
  lemma {:induction false} ParseIsExact(id: string, first: string, rest: string)
    ensures Parse(id) == Some((first, rest))
            <==> id == PREFIX + first + "/" + rest && first != "" && rest != "" && '/' !in first
  {
    if id == PREFIX + first + "/" + rest && first != "" && rest != "" && '/' !in first {
      assert id == PREFIX + (first + "/" + rest);
      var trimmed := id[|PREFIX|..];
      assert id[..|PREFIX|] == PREFIX;
      assert trimmed == first + "/" + rest;
      FirstSlashIsFirst(first, rest);
      assert trimmed[..|first|] == first && trimmed[|first| + 1..] == rest;
    }
    if Parse(id) == Some((first, rest)) {
      var trimmed := id[|PREFIX|..];
      var i := FirstSlash(trimmed);
      assert trimmed == trimmed[..i] + [trimmed[i]] + trimmed[i + 1..];
      assert id == PREFIX + trimmed;
    }
  }

  /** A built ID parses back to its pool and "sku/host" exactly when the pool has no slash in it. */
  lemma {:induction false} ParseUndoesBuild(pool: string, sku: string, host: string)
    requires pool != "" && sku != "" && host != ""
    ensures Parse(Build(pool, sku, host)) == Some((pool, sku + "/" + host)) <==> '/' !in pool
  {
    var rest := sku + "/" + host;
    assert Build(pool, sku, host) == PREFIX + pool + "/" + rest;
    ParseIsExact(Build(pool, sku, host), pool, rest);
  }

  /** Nothing is built from a missing segment, and what is not built does not parse. */
  lemma {:induction false} MissingSegmentsDoNotParse(pool: string, sku: string, host: string)
    requires pool == "" || sku == "" || host == ""
    ensures Parse(Build(pool, sku, host)).None?
  {
  }

  /** Distinct nodes get distinct IDs, as long as pools and SKUs hold no slash. */
  lemma {:induction false} BuildIsInjective(pool: string, sku: string, host: string, pool': string, sku': string, host': string)
    requires Build(pool, sku, host) != "" && Build(pool, sku, host) == Build(pool', sku', host')
    requires '/' !in pool && '/' !in pool' && '/' !in sku && '/' !in sku'
    ensures pool == pool' && sku == sku' && host == host'
  {
    ParseUndoesBuild(pool, sku, host);
    ParseUndoesBuild(pool', sku', host');
    var rest := sku + "/" + host;
    FirstSlashIsFirst(sku, host);
    FirstSlashIsFirst(sku', host');
    assert rest[..|sku|] == sku && rest[..|sku'|] == sku';
    assert rest[|sku| + 1..] == host && rest[|sku'| + 1..] == host';
  }

  /** With a slash in a SKU, two different nodes can get one ID. */
  lemma {:induction false} SlashesCollide()
    ensures Build("p", "a/b", "c") == Build("p", "a", "b/c") == "rafay://p/a/b/c"
  {
  }

  /** A built ID looks pending exactly for a pool named "pending", or one that starts with "pending/". */
  lemma {:induction false} OnlyPendingLooksPending(pool: string, sku: string, host: string)
    requires pool != "" && sku != "" && host != ""
    ensures IsPending(Build(pool, sku, host)) <==> pool == "pending" || HasPrefix(pool, "pending/")
    ensures '/' !in pool ==> (IsPending(Build(pool, sku, host)) <==> pool == "pending")
  {
    var id, word := Build(pool, sku, host), "pending/";
    var tail := pool + "/" + (sku + "/" + host);
    assert id == PREFIX + tail;
    assert PENDING_PREFIX == PREFIX + word;
    PrefixUnderPrefix(PREFIX, tail, word);
    assert IsPending(id) <==> HasPrefix(tail, word);
    if pool == "pending" {
      assert tail[..|word|] == word;
    } else if HasPrefix(pool, word) {
      assert tail[..|word|] == pool[..|word|];
    } else if HasPrefix(tail, word) {
      PendingPool(pool, sku + "/" + host);
    }
    if HasPrefix(pool, word) { SlashInside(pool); }
  }

  lemma {:induction false} SlashInside(pool: string)
    requires HasPrefix(pool, "pending/")
    ensures '/' in pool
  {
    assert pool[..8][7] == '/' && pool[7] in pool;
  }

  lemma {:induction false} PrefixUnderPrefix(p: string, s: string, q: string)
    ensures HasPrefix(p + s, p + q) <==> HasPrefix(s, q)
  {
    if HasPrefix(s, q) {
      assert (p + s)[..|p + q|] == p + s[..|q|];
    }
    if HasPrefix(p + s, p + q) {
      assert s[..|q|] == (p + s)[..|p + q|][|p|..];
      assert (p + q)[|p|..] == q;
    }
  }

  /** The pool of a pending-looking ID. */
  lemma {:induction false} PendingPool(pool: string, rest: string)
    requires HasPrefix(pool + "/" + rest, "pending/")
    ensures pool == "pending" || HasPrefix(pool, "pending/")
  {
    var s, word := pool + "/" + rest, "pending/";
    if |pool| < |word| {
      assert s[..|word|][|pool|] == '/';
      assert word[|pool|] == '/';
      assert |pool| == 7;
      assert pool == s[..|word|][..7] == word[..7];
    } else {
      assert pool[..|word|] == s[..|word|];
    }
  }

  /** The synthetic ID of a claim is accepted too, under the pool name "pending". */
  lemma {:induction false} PendingIdsParse(uid: string)
    requires uid != ""
    ensures Parse(PendingId(uid)) == Some(("pending", uid))
  {
    assert PendingId(uid) == PREFIX + "pending" + "/" + uid;
    ParseIsExact(PendingId(uid), "pending", uid);
  }
}
