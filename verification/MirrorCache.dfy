/** The mirror itself: an ordered dictionary from block hash to the engines the block was sent to, oldest record first. */
module MirrorCache {
  import opened Runtime
  import opened PrefixMirror

  /** A block that was sent to an engine. */
  datatype Sent = Sent(hash: Hash, engine: nat)

  datatype Blocks = Blocks(order: seq<Hash>, engines: map<Hash, set<nat>>)

  function Without(s: seq<Hash>, h: Hash): seq<Hash> {
    if s == [] then [] else if s[|s| - 1] == h then Without(s[..|s| - 1], h) else Without(s[..|s| - 1], h) + [s[|s| - 1]]
  }

  /** Pop and reinsert at the end. */
  function Touched(b: Blocks, h: Hash, engine: nat): Blocks {
    Blocks(Without(b.order, h) + [h], b.engines[h := GetOr(b.engines, h, {}) + {engine}])
  }

  function TouchedAll(b: Blocks, hashes: seq<Hash>, engine: nat): Blocks {
    if hashes == [] then b
    else Touched(TouchedAll(b, hashes[..|hashes| - 1], engine), hashes[|hashes| - 1], engine)
  }

  /** Evict the oldest down to `max` blocks. */
  function Trimmed(b: Blocks, max: nat): Blocks {
    if |b.order| <= max then b
    else
      var kept := b.order[|b.order| - max..];
      Blocks(kept, map h | h in b.engines && h in kept :: b.engines[h])
  }

  function Recorded(b: Blocks, hashes: seq<Hash>, engine: nat, max: nat): Blocks {
    Trimmed(TouchedAll(b, hashes, engine), max)
  }

  // ----- the naive lookup -----

  predicate Holds(b: Blocks, h: Hash, engine: nat) {
    h in b.engines && engine in b.engines[h]
  }

  /** An engine's run of leading blocks. */
  function RunLength(b: Blocks, hashes: seq<Hash>, engine: nat): (n: nat)
    ensures n <= |hashes|
  {
    if hashes == [] || !Holds(b, hashes[0], engine) then 0 else 1 + RunLength(b, hashes[1..], engine)
  }

  lemma {:induction false} RunIsLongest(b: Blocks, hashes: seq<Hash>, engine: nat, k: nat)
    requires k <= |hashes|
    ensures k <= RunLength(b, hashes, engine) <==> forall j :: 0 <= j < k ==> Holds(b, hashes[j], engine)
  {
    if k > 0 && Holds(b, hashes[0], engine) {
      RunIsLongest(b, hashes[1..], engine, k - 1);
      assert forall j :: 1 <= j < k ==> hashes[j] == hashes[1..][j - 1];
    }
  }

  // ----- what is retained -----

  /** Every block ever recorded, once, in the order of its last record. */
  function LastSeen(log: seq<Hash>): seq<Hash> {
    if log == [] then [] else Without(LastSeen(log[..|log| - 1]), log[|log| - 1]) + [log[|log| - 1]]
  }

  /** The distinct blocks recorded since `h` last was. */
  function Since(log: seq<Hash>, h: Hash): set<Hash> {
    if log == [] || log[|log| - 1] == h then {} else Since(log[..|log| - 1], h) + {log[|log| - 1]}
  }

  function Elements(s: seq<Hash>): set<Hash> {
    set h | h in s
  }

  ghost predicate Suffix(s: seq<Hash>, all: seq<Hash>) {
    |s| <= |all| && s == all[|all| - |s|..]
  }

  lemma Append(s: seq<Hash>, h: Hash)
    ensures Elements(s + [h]) == Elements(s) + {h} && forall x :: x in s + [h] <==> x in s || x == h
    ensures Distinct(s) && h !in s ==> Distinct(s + [h])
  {
  }

  lemma WithoutExactly(s: seq<Hash>, h: Hash)
    requires Distinct(s)
    ensures Distinct(Without(s, h)) && Elements(Without(s, h)) == Elements(s) - {h}
    ensures h !in Without(s, h) && forall x :: x in Without(s, h) <==> x in s && x != h
    ensures |Without(s, h)| == |s| - if h in s then 1 else 0
    ensures h !in s ==> Without(s, h) == s
  {
    if s != [] {
      var n := |s| - 1;
      assert s == s[..n] + [s[n]];
      assert s[n] !in s[..n];
      WithoutExactly(s[..n], h);
      Append(s[..n], s[n]);
      Append(Without(s[..n], h), s[n]);
    }
  }

  lemma {:induction false} WithoutConcat(a: seq<Hash>, b: seq<Hash>, h: Hash)
    ensures Without(a + b, h) == Without(a, h) + Without(b, h)
  {
    if b == [] {
      assert a + b == a;
    } else {
      var n := |b| - 1;
      assert (a + b)[..|a + b| - 1] == a + b[..n];
      WithoutConcat(a, b[..n], h);
    }
  }

  lemma {:induction false} LastSeenExactly(log: seq<Hash>)
    ensures Distinct(LastSeen(log)) && Elements(LastSeen(log)) == Elements(log)
  {
    if log != [] {
      var n := |log| - 1;
      LastSeenExactly(log[..n]);
      WithoutExactly(LastSeen(log[..n]), log[n]);
      assert log == log[..n] + [log[n]];
      Append(log[..n], log[n]);
      Append(Without(LastSeen(log[..n]), log[n]), log[n]);
    }
  }

  /** The dictionary's order is the tail of the last-record order, at least `max` long if blocks are missing. */
  ghost predicate Retains(order: seq<Hash>, log: seq<Hash>, max: nat) {
    Suffix(order, LastSeen(log)) && (|order| < max ==> order == LastSeen(log))
  }

  lemma TouchRetains(order: seq<Hash>, log: seq<Hash>, max: nat, h: Hash)
    requires Retains(order, log, max)
    ensures Retains(Without(order, h) + [h], log + [h], max)
  {
    var all := LastSeen(log);
    assert (log + [h])[..|log|] == log;
    LastSeenExactly(log);
    var gone := all[..|all| - |order|];
    assert all == gone + order;
    TouchTail(gone, order, h);
    assert LastSeen(log + [h]) == Without(gone, h) + (Without(order, h) + [h]);
    assert |order| < max ==> gone == [];
  }

  lemma TouchTail(gone: seq<Hash>, order: seq<Hash>, h: Hash)
    requires Distinct(gone + order)
    ensures Without(gone + order, h) + [h] == Without(gone, h) + (Without(order, h) + [h])
    ensures |Without(order, h) + [h]| >= |order|
  {
    WithoutConcat(gone, order, h);
    assert Distinct(order) by {
      assert forall i :: 0 <= i < |order| ==> order[i] == (gone + order)[|gone| + i];
    }
    WithoutExactly(order, h);
  }

  lemma TrimRetains(order: seq<Hash>, log: seq<Hash>, max: nat)
    requires Retains(order, log, max) && |order| > max
    ensures Retains(order[|order| - max..], log, max)
  {
  }

  /** Position in the last-record order: behind a block are exactly those recorded since. */
  lemma {:induction false} SinceIsBehind(log: seq<Hash>, i: nat)
    requires i < |LastSeen(log)|
    ensures Elements(LastSeen(log)[i + 1..]) == Since(log, LastSeen(log)[i])
  {
    var n := |log| - 1;
    var last, before := log[n], LastSeen(log[..n]);
    LastSeenExactly(log[..n]);
    WithoutExactly(before, last);
    var rest := Without(before, last);
    if i < |rest| {
      assert rest[i] in rest && rest[i] in before;
      var j :| 0 <= j < |before| && before[j] == rest[i];
      SinceIsBehind(log[..n], j);
      BehindNext(before, last, i, j);
    }
  }

  lemma BehindNext(before: seq<Hash>, last: Hash, i: nat, j: nat)
    requires Distinct(before) && i < |Without(before, last)| && j < |before|
    requires before[j] == Without(before, last)[i] && before[j] != last
    ensures Elements((Without(before, last) + [last])[i + 1..]) == Elements(before[j + 1..]) + {last}
  {
    var rest := Without(before, last);
    WithoutKeepsOrder(before, last, i, j);
    assert (rest + [last])[i + 1..] == rest[i + 1..] + [last];
    Append(rest[i + 1..], last);
  }

  lemma WithoutKeepsOrder(s: seq<Hash>, h: Hash, i: nat, j: nat)
    requires Distinct(s) && i < |Without(s, h)| && j < |s| && s[j] == Without(s, h)[i] && s[j] != h
    ensures Elements(Without(s, h)[i + 1..]) == Elements(s[j + 1..]) - {h}
  {
    var a, b := s[..j] + [s[j]], s[j + 1..];
    assert s == a + b;
    assert (s[..j] + [s[j]])[..j] == s[..j];
    WithoutConcat(a, b, h);
    WithoutExactly(s, h);
    SplitAt(Without(a, h), Without(b, h), i, s[j]);
    DistinctTail(s, j + 1);
    WithoutExactly(b, h);
  }

  lemma DistinctTail(s: seq<Hash>, j: nat)
    requires Distinct(s) && j <= |s|
    ensures Distinct(s[j..])
  {
    var b := s[j..];
    assert forall k :: 0 <= k < |b| ==> b[k] == s[j + k];
  }

  lemma SplitAt(a: seq<Hash>, b: seq<Hash>, i: nat, x: Hash)
    requires Distinct(a + b) && a != [] && a[|a| - 1] == x && i < |a + b| && (a + b)[i] == x
    ensures (a + b)[i + 1..] == b
  {
    assert (a + b)[|a| - 1] == x;
  }

  lemma {:induction false} DistinctCount(s: seq<Hash>)
    requires Distinct(s)
    ensures |Elements(s)| == |s|
  {
    if s != [] {
      var n := |s| - 1;
      DistinctCount(s[..n]);
      assert s == s[..n] + [s[n]];
      assert Elements(s) == Elements(s[..n]) + {s[n]};
    }
  }

  /** Retained are exactly the `max` most recently recorded: a block stays while fewer than `max`
      distinct others were recorded after it. */
  lemma RetainedExactly(order: seq<Hash>, log: seq<Hash>, max: nat, h: Hash)
    requires Retains(order, log, max) && |order| <= max
    ensures h in order <==> h in log && |Since(log, h)| < max
  {
    var all := LastSeen(log);
    LastSeenExactly(log);
    assert h in log <==> h in Elements(log);
    assert h in all <==> h in Elements(all);
    TailWithin(order, all);
    if h in all {
      var i :| 0 <= i < |all| && all[i] == h;
      RetainedAt(order, log, max, i);
    }
  }

  lemma TailWithin(tail: seq<Hash>, all: seq<Hash>)
    requires Suffix(tail, all)
    ensures forall h :: h in tail ==> h in all
  {
    var start := |all| - |tail|;
    assert forall k :: 0 <= k < |tail| ==> tail[k] == all[start + k];
  }

  lemma RetainedAt(order: seq<Hash>, log: seq<Hash>, max: nat, i: nat)
    requires Retains(order, log, max) && |order| <= max && i < |LastSeen(log)|
    ensures LastSeen(log)[i] in order <==> |Since(log, LastSeen(log)[i])| < max
  {
    var all := LastSeen(log);
    LastSeenExactly(log);
    SinceIsBehind(log, i);
    CountBehind(all, i);
    InTail(order, all, i);
  }

  lemma CountBehind(s: seq<Hash>, i: nat)
    requires Distinct(s) && i < |s|
    ensures |Elements(s[i + 1..])| == |s| - i - 1
  {
    var tail := s[i + 1..];
    assert forall k :: 0 <= k < |tail| ==> tail[k] == s[i + 1 + k];
    DistinctCount(tail);
  }

  lemma InTail(tail: seq<Hash>, all: seq<Hash>, i: nat)
    requires Suffix(tail, all) && Distinct(all) && i < |all|
    ensures all[i] in tail <==> i >= |all| - |tail|
  {
    var start := |all| - |tail|;
    assert forall k :: 0 <= k < |tail| ==> tail[k] == all[start + k];
    assert i >= start ==> tail[i - start] == all[i];
  }
}
