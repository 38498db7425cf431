// cmd/account-purge/main.go: deleting every key of an account in batches, against a
// service that may leave any part of any batch undone.
module BatchDelete {
  import opened Prelude

  const BATCH: nat := 25
  const RETRIES: nat := 8
  const FIRST_WAIT: nat := 50   // milliseconds

  datatype ItemKey = ItemKey(pk: string, sk: string)

  // ----- Distinct keys in first-seen order -----

  function FirstSeen(s: seq<ItemKey>): seq<ItemKey> {
    if s == [] then []
    else
      var r := FirstSeen(s[..|s| - 1]);
      if s[|s| - 1] in r then r else r + [s[|s| - 1]]
  }

  function FirstIndex(s: seq<ItemKey>, k: ItemKey): nat {
    if s == [] || s[0] == k then 0 else 1 + FirstIndex(s[1..], k)
  }

  lemma {:induction false} FirstSeenHasAll(s: seq<ItemKey>)
    ensures forall k :: k in FirstSeen(s) <==> k in s
    ensures NoDuplicates(FirstSeen(s)) && |FirstSeen(s)| <= |s|
  {
    if s != [] {
      FirstSeenHasAll(s[..|s| - 1]);
      assert s == s[..|s| - 1] + [s[|s| - 1]];
    }
  }

  lemma {:induction false} FirstIndexExtends(s: seq<ItemKey>, x: ItemKey, k: ItemKey)
    ensures k in s ==> FirstIndex(s + [x], k) == FirstIndex(s, k) < |s|
    ensures k !in s ==> FirstIndex(s, k) == |s| && FirstIndex(s + [x], k) >= |s|
  {
    if s != [] {
      FirstIndexExtends(s[1..], x, k);
      assert (s + [x])[1..] == s[1..] + [x];
    }
  }

  // Keys keep the order in which each was first seen.
  lemma {:induction false} FirstSeenInOrder(s: seq<ItemKey>, i: nat, j: nat)
    requires i < j < |FirstSeen(s)|
    ensures FirstIndex(s, FirstSeen(s)[i]) < FirstIndex(s, FirstSeen(s)[j])
  {
    var before, x := s[..|s| - 1], s[|s| - 1];
    var r := FirstSeen(before);
    assert s == before + [x];
    FirstSeenHasAll(before);
    FirstIndexExtends(before, x, FirstSeen(s)[i]);
    FirstIndexExtends(before, x, FirstSeen(s)[j]);
    if j < |r| { FirstSeenInOrder(before, i, j); }
  }

  // The dedup loop: the distinct keys are moved to the front of the same array.
  method Dedup(keys: array<ItemKey>) returns (n: nat)
    modifies keys
    ensures n <= keys.Length && keys[..n] == FirstSeen(old(keys[..]))
    ensures keys[n..] == old(keys[n..])
  {
    var seen: set<ItemKey> := {};
    n := 0;
    var i := 0;
    while i < keys.Length
      invariant 0 <= n <= i <= keys.Length
      invariant keys[..n] == FirstSeen(old(keys[..])[..i])
      invariant forall k :: n <= k < keys.Length ==> keys[k] == old(keys[k])
      invariant forall k :: k in seen <==> k in keys[..n]
    {
      assert old(keys[..])[..i + 1][..i] == old(keys[..])[..i];
      var k := keys[i];
      if k !in seen {
        seen := seen + {k};
        keys[n] := k;
        n := n + 1;
        assert keys[..n] == keys[..n - 1] + [k];
      }
      i := i + 1;
    }
    assert old(keys[..])[..keys.Length] == old(keys[..]);
  }

  // ----- The service -----

  // What the service does with one batch: refuse it, or leave the named keys undone.
  datatype Answer = Fails | LeavesUndone(keys: set<ItemKey>)

  class Service {
    var answers: seq<Answer>        // what it will do, call by call; then it does everything
    var deleted: set<ItemKey>
    var calls: nat
    var waited: nat                 // milliseconds slept between calls

    constructor (script: seq<Answer>)
      ensures answers == script && deleted == {} && calls == 0 && waited == 0
    {
      answers, deleted, calls, waited := script, {}, 0, 0;
    }

    // BatchWriteItem rejects empty, oversized and repeated batches: callers must not send them.
    method BatchWrite(batch: seq<ItemKey>) returns (ok: bool, undone: seq<ItemKey>)
      requires 1 <= |batch| <= BATCH && NoDuplicates(batch)
      modifies this
      ensures calls == old(calls) + 1 && waited == old(waited)
      ensures ok ==> NoDuplicates(undone) && |undone| <= |batch| && (forall k :: k in undone ==> k in batch)
      ensures ok ==> deleted == old(deleted) + set k | k in batch && k !in undone
      ensures !ok ==> deleted == old(deleted) && undone == []
    {
      calls := calls + 1;
      var answer := if answers == [] then LeavesUndone({}) else answers[0];
      answers := if answers == [] then [] else answers[1..];
      if answer.Fails? { return false, []; }
      undone := [];
      var i := 0;
      while i < |batch|
        invariant 0 <= i <= |batch| && |undone| <= i && NoDuplicates(undone)
        invariant forall k :: k in undone <==> k in batch[..i] && k in answer.keys
      {
        assert forall k :: k in batch[..i + 1] <==> k in batch[..i] || k == batch[i];
        assert batch[i] !in batch[..i];
        if batch[i] in answer.keys { undone := undone + [batch[i]]; }
        i := i + 1;
      }
      assert batch[..|batch|] == batch;
      deleted := deleted + set k | k in batch && k !in undone;
      ok := true;
    }

    method Sleep(ms: nat)
      modifies this`waited
      ensures waited == old(waited) + ms
    {
      waited := waited + ms;
    }
  }

  function Doubling(n: nat): nat { if n == 0 then 1 else 2 * Doubling(n - 1) }

  lemma WaitsAddUp()
    ensures Doubling(RETRIES) == 256
  {
    assert Doubling(4) == 16;
  }

  function Chunks(n: nat): nat { (n + BATCH - 1) / BATCH }

  // One chunk: at most nine requests, each for what the last one left undone.
  method DeleteChunk(service: Service, chunk: seq<ItemKey>) returns (ok: bool)
    requires 1 <= |chunk| <= BATCH && NoDuplicates(chunk)
    modifies service
    ensures ok ==> service.deleted == old(service.deleted) + Keys(chunk)
    ensures old(service.deleted) <= service.deleted <= old(service.deleted) + Keys(chunk)
    ensures service.calls <= old(service.calls) + RETRIES + 1
    ensures service.waited <= old(service.waited) + FIRST_WAIT * 255
  {
    var pending, attempt := chunk, 0;
    WaitsAddUp();
    while true
      invariant attempt <= RETRIES && 1 <= |pending| <= BATCH && NoDuplicates(pending)
      invariant forall k :: k in pending ==> k in chunk
      invariant forall k :: k in chunk ==> k in pending || k in service.deleted
      invariant old(service.deleted) <= service.deleted <= old(service.deleted) + Keys(chunk)
      invariant service.calls == old(service.calls) + attempt
      invariant service.waited == old(service.waited) + FIRST_WAIT * (Doubling(attempt) - 1)
      invariant Doubling(attempt) <= 256
      decreases RETRIES - attempt
    {
      var sent, undone := service.BatchWrite(pending);
      if !sent { return false; }
      if undone == [] { return true; }
      if attempt >= RETRIES { return false; }
      service.Sleep(Doubling(attempt) * FIRST_WAIT);
      pending, attempt := undone, attempt + 1;
      DoublingGrows(attempt, RETRIES);
    }
  }

  lemma {:induction false} DoublingGrows(a: nat, b: nat)
    requires a <= b
    ensures 1 <= Doubling(a) <= Doubling(b)
  {
    if a < b { DoublingGrows(a, b - 1); }
    if a > 0 && a == b { DoublingGrows(a - 1, b - 1); }
  }

  function Keys(s: seq<ItemKey>): set<ItemKey> { set k | k in s }

  lemma KeysSplit(s: seq<ItemKey>, a: nat, b: nat)
    requires a <= b <= |s|
    ensures Keys(s[..b]) == Keys(s[..a]) + Keys(s[a..b]) && Keys(s[..b]) <= Keys(s)
  {
    assert s[..b] == s[..a] + s[a..b];
  }

  lemma KeysOfNone(s: seq<ItemKey>)
    ensures Keys(s[..0]) == {}
  {
  }

  lemma OneMoreChunk(n: nat, start: nat, rounds: nat)
    requires start == BATCH * rounds
    ensures start < n ==> rounds + 1 <= Chunks(n)
    ensures n <= start < n + BATCH ==> rounds == Chunks(n)
  {
  }

  // The chunk loop over the distinct keys.
  method DeleteAll(service: Service, uniq: seq<ItemKey>) returns (ok: bool)
    requires NoDuplicates(uniq)
    modifies service
    ensures ok ==> service.deleted == old(service.deleted) + Keys(uniq)
    ensures old(service.deleted) <= service.deleted <= old(service.deleted) + Keys(uniq)
    ensures service.calls <= old(service.calls) + (RETRIES + 1) * Chunks(|uniq|)
    ensures service.waited <= old(service.waited) + FIRST_WAIT * 255 * Chunks(|uniq|)
  {
    hide Keys, Chunks;
    var start := 0;
    ghost var rounds := 0;
    KeysOfNone(uniq);
    while start < |uniq|
      invariant 0 <= start == BATCH * rounds < |uniq| + BATCH
      invariant service.deleted == old(service.deleted) + Keys(uniq[..Min(start, |uniq|)])
      invariant service.calls <= old(service.calls) + (RETRIES + 1) * rounds
      invariant service.waited <= old(service.waited) + FIRST_WAIT * 255 * rounds
    {
      var end := if start + BATCH < |uniq| then start + BATCH else |uniq|;
      KeysSplit(uniq, start, end);
      OneMoreChunk(|uniq|, start, rounds);
      ok := DeleteChunk(service, uniq[start..end]);
      if !ok { return; }
      start, rounds := start + BATCH, rounds + 1;
    }
    assert uniq[..Min(start, |uniq|)] == uniq;
    OneMoreChunk(|uniq|, start, rounds);
    ok := true;
  }

  // Success means every key that was handed in is gone; failure never deletes anything
  // else. Requests and waiting are bounded by the number of chunks.
  method BatchDelete(service: Service, keys: array<ItemKey>) returns (ok: bool)
    modifies service, keys
    ensures ok ==> service.deleted == old(service.deleted) + Keys(old(keys[..]))
    ensures old(service.deleted) <= service.deleted <= old(service.deleted) + Keys(old(keys[..]))
    ensures service.calls <= old(service.calls) + (RETRIES + 1) * Chunks(|FirstSeen(old(keys[..]))|)
    ensures service.waited <= old(service.waited) + FIRST_WAIT * 255 * Chunks(|FirstSeen(old(keys[..]))|)
  {
    ghost var all := keys[..];
    FirstSeenHasAll(all);
    var n := Dedup(keys);
    assert Keys(FirstSeen(all)) == Keys(all);
    ok := DeleteAll(service, keys[..n]);
  }
}
