/**
 The API server's mirror of the engines' prefix caches: chained block hashes, the engines each
 block was sent to, and eviction of the blocks recorded longest ago.
 */
module PrefixMirror {
  import opened Runtime

  /** Chained block hashes with no collisions: a hash is what was folded into it. */
  datatype Hash = Seed(salt: Option<string>) | Link(parent: Hash, tokens: seq<Token>, items: seq<(string, int)>)

  /** A multimodal item, in prompt order. */
  datatype Item = Item(identifier: string, offset: nat, length: nat)

  ghost predicate InPromptOrder(items: seq<Item>) {
    forall i, j :: 0 <= i < j < |items| ==> items[i].offset + items[i].length <= items[j].offset
  }

  // ----- block hashes -----

  /** Every item that overlaps `[start, end)`, at its offset in the block. */
  function Overlapping(items: seq<Item>, start: nat, end: nat): seq<(string, int)> {
    if items == [] then []
    else
      var n := |items| - 1;
      Overlapping(items[..n], start, end)
      + if items[n].offset < end && items[n].offset + items[n].length > start then [(items[n].identifier, items[n].offset - start)] else []
  }

  /** The hash of the first `k` full blocks. */
  function ChainTo(size: nat, prompt: seq<Token>, items: seq<Item>, salt: Option<string>, k: nat): Hash
    requires k * size <= |prompt|
  {
    if k == 0 then Seed(salt)
    else
      assert (k - 1) * size <= k * size;
      Link(ChainTo(size, prompt, items, salt, k - 1), prompt[(k - 1) * size..k * size], Overlapping(items, (k - 1) * size, k * size))
  }

  function FullBlocks(size: nat, prompt: seq<Token>): (k: nat)
    requires size > 0
    ensures k * size <= |prompt| < (k + 1) * size
  {
    |prompt| / size
  }

  ghost predicate IsChain(size: nat, prompt: seq<Token>, items: seq<Item>, salt: Option<string>, k: nat, h: Hash) {
    k * size <= |prompt| && h == ChainTo(size, prompt, items, salt, k)
  }

  /** The hashes of a prompt's first `|hashes|` blocks. */
  ghost predicate HashesOf(size: nat, prompt: seq<Token>, items: seq<Item>, salt: Option<string>, hashes: seq<Hash>) {
    forall k :: 0 <= k < |hashes| ==> IsChain(size, prompt, items, salt, k + 1, hashes[k])
  }

  /** Hashes of two prompts at block `k` are equal exactly when the prompts share salt, tokens and
      overlapping items of the first `k` blocks. */
  lemma {:induction false} SameChainExactly(size: nat, p: seq<Token>, a: seq<Item>, s: Option<string>, q: seq<Token>, b: seq<Item>,
                                            t: Option<string>, k: nat)
    requires k * size <= |p| && k * size <= |q|
    ensures ChainTo(size, p, a, s, k) == ChainTo(size, q, b, t, k)
            <==> s == t && p[..k * size] == q[..k * size]
                 && forall j :: 0 <= j < k ==> Overlapping(a, j * size, (j + 1) * size) == Overlapping(b, j * size, (j + 1) * size)
  {
    if k > 0 {
      var m := k - 1;
      assert m * size <= k * size;
      SameChainExactly(size, p, a, s, q, b, t, m);
      assert p[..k * size] == p[..m * size] + p[m * size..k * size];
      assert q[..k * size] == q[..m * size] + q[m * size..k * size];
      if p[..k * size] == q[..k * size] {
        assert p[..m * size] == p[..k * size][..m * size] && q[..m * size] == q[..k * size][..m * size];
        assert p[m * size..k * size] == p[..k * size][m * size..] && q[m * size..k * size] == q[..k * size][m * size..];
      }
    }
  }

  /** Hashes at different depths never collide. */
  lemma {:induction false} ChainDepth(size: nat, p: seq<Token>, a: seq<Item>, s: Option<string>, q: seq<Token>, b: seq<Item>,
                                      t: Option<string>, k: nat, m: nat)
    requires k * size <= |p| && m * size <= |q| && ChainTo(size, p, a, s, k) == ChainTo(size, q, b, t, m)
    ensures k == m
  {
    if k > 0 && m > 0 {
      assert (k - 1) * size <= k * size && (m - 1) * size <= m * size;
      ChainDepth(size, p, a, s, q, b, t, k - 1, m - 1);
    }
  }

  /** Item keys of `items[first..stop]` relative to a block. */
  function Keys(items: seq<Item>, start: nat, first: nat, stop: nat): seq<(string, int)>
    requires first <= stop <= |items|
  {
    seq(stop - first, i requires 0 <= i < stop - first => (items[first + i].identifier, items[first + i].offset - start))
  }

  /** Items before `first` ended before `start`; those from `stop` on begin at or after `end`. */
  ghost predicate Range(items: seq<Item>, start: nat, end: nat, first: nat, stop: nat) {
    && first <= stop <= |items|
    && (forall i :: 0 <= i < first ==> items[i].offset + items[i].length <= start)
    && (forall i :: first <= i < stop ==> items[i].offset < end && items[i].offset + items[i].length > start)
    && (forall i :: stop <= i < |items| ==> items[i].offset >= end)
  }

  lemma RangePrefix(items: seq<Item>, start: nat, end: nat, first: nat, stop: nat)
    requires Range(items, start, end, first, stop) && items != []
    ensures var n := |items| - 1; Range(items[..n], start, end, Min(first, n), Min(stop, n))
  {
    var n := |items| - 1;
    assert forall i :: 0 <= i < n ==> items[..n][i] == items[i];
  }

  lemma {:induction false} OverlapIsRange(items: seq<Item>, start: nat, end: nat, first: nat, stop: nat)
    requires Range(items, start, end, first, stop)
    ensures Overlapping(items, start, end) == Keys(items, start, first, stop)
  {
    if items != [] {
      var n := |items| - 1;
      RangePrefix(items, start, end, first, stop);
      OverlapIsRange(items[..n], start, end, Min(first, n), Min(stop, n));
      KeysNext(items, start, first, stop);
    }
  }

  lemma KeysNext(items: seq<Item>, start: nat, first: nat, stop: nat)
    requires first <= stop <= |items| && items != []
    ensures var n := |items| - 1;
            Keys(items, start, first, stop)
            == Keys(items[..n], start, Min(first, n), Min(stop, n))
               + if first < stop == |items| then [(items[n].identifier, items[n].offset - start)] else []
  {
  }

  /** The items of one block, from `first` on and up to the first that begins behind the block. */
  method BlockItems(items: seq<Item>, start: nat, end: nat, first: nat) returns (overlapping: seq<(string, int)>)
    requires InPromptOrder(items) && first <= |items|
    requires forall i :: 0 <= i < first ==> items[i].offset + items[i].length <= start
    requires first < |items| ==> items[first].offset + items[first].length > start
    ensures overlapping == Overlapping(items, start, end)
  {
    overlapping := [];
    var i := first;
    while i < |items| && items[i].offset < end
      invariant first <= i <= |items|
      invariant forall j :: first <= j < i ==> items[j].offset < end && items[j].offset + items[j].length > start
      invariant overlapping == Keys(items, start, first, i)
    {
      assert i > first ==> items[first].offset + items[first].length <= items[i].offset;
      overlapping := overlapping + [(items[i].identifier, items[i].offset - start)];
      i := i + 1;
    }
    assert forall j :: i < j < |items| ==> items[i].offset <= items[i].offset + items[i].length <= items[j].offset;
    OverlapIsRange(items, start, end, first, i);
  }

  /** An item that ended at or before this block ended before every later block too. */
  method SkipEnded(items: seq<Item>, start: nat, from: nat) returns (first: nat)
    requires from <= |items| && forall i :: 0 <= i < from ==> items[i].offset + items[i].length <= start
    ensures from <= first <= |items| && forall i :: 0 <= i < first ==> items[i].offset + items[i].length <= start
    ensures first < |items| ==> items[first].offset + items[first].length > start
  {
    first := from;
    while first < |items| && items[first].offset + items[first].length <= start
      invariant from <= first <= |items| && forall i :: 0 <= i < first ==> items[i].offset + items[i].length <= start
    {
      first := first + 1;
    }
  }

  /** After `k` blocks: `start` is where the next one begins. */
  ghost predicate Hashing(size: nat, prompt: seq<Token>, items: seq<Item>, salt: Option<string>, hashes: seq<Hash>, parent: Hash, start: nat) {
    start == |hashes| * size && HashesOf(size, prompt, items, salt, hashes) && IsChain(size, prompt, items, salt, |hashes|, parent)
  }

  lemma HashingNext(size: nat, prompt: seq<Token>, items: seq<Item>, salt: Option<string>, hashes: seq<Hash>, parent: Hash, start: nat)
    requires Hashing(size, prompt, items, salt, hashes, parent, start) && start + size <= |prompt|
    ensures var next := Link(parent, prompt[start..start + size], Overlapping(items, start, start + size));
            Hashing(size, prompt, items, salt, hashes + [next], next, start + size)
  {
    var next := Link(parent, prompt[start..start + size], Overlapping(items, start, start + size));
    ChainNext(size, prompt, items, salt, |hashes|, start);
    assert IsChain(size, prompt, items, salt, |hashes| + 1, next);
  }

  lemma ChainNext(size: nat, prompt: seq<Token>, items: seq<Item>, salt: Option<string>, k: nat, start: nat)
    requires start == k * size && start + size <= |prompt|
    ensures (k + 1) * size == start + size
    ensures ChainTo(size, prompt, items, salt, k + 1)
            == Link(ChainTo(size, prompt, items, salt, k), prompt[start..start + size], Overlapping(items, start, start + size))
  {
  }

  /** `block_hashes`: one pass over the prompt, with one pointer into the items. */
  method BlockHashes(size: nat, prompt: seq<Token>, items: seq<Item>, salt: Option<string>) returns (hashes: seq<Hash>)
    requires size > 0 && InPromptOrder(items)
    ensures HashesOf(size, prompt, items, salt, hashes) && |hashes| == FullBlocks(size, prompt)
  {
    var parent := Seed(salt);
    hashes := [];
    var first, start := 0, 0;
    while start + size <= |prompt|
      invariant Hashing(size, prompt, items, salt, hashes, parent, start)
      invariant first <= |items| && forall i :: 0 <= i < first ==> items[i].offset + items[i].length <= start
      decreases |prompt| - start
    {
      first := SkipEnded(items, start, first);
      var overlapping := BlockItems(items, start, start + size, first);
      HashingNext(size, prompt, items, salt, hashes, parent, start);
      parent := Link(parent, prompt[start..start + size], overlapping);
      hashes := hashes + [parent];
      start := start + size;
    }
    HashedAll(size, prompt, |hashes|, start);
  }

  lemma HashedAll(size: nat, prompt: seq<Token>, k: nat, start: nat)
    requires size > 0 && start == k * size <= |prompt| && start + size > |prompt|
    ensures k == FullBlocks(size, prompt)
  {
    assert (k + 1) * size == start + size;
    BlockCount(size, prompt, k);
  }

  lemma BlockCount(size: nat, prompt: seq<Token>, k: nat)
    requires size > 0 && k * size <= |prompt| < (k + 1) * size
    ensures k == FullBlocks(size, prompt)
  {
    var f := FullBlocks(size, prompt);
    Scaled(size, k + 1, f);
    Scaled(size, f + 1, k);
  }

  lemma Scaled(size: nat, a: nat, b: nat)
    ensures a <= b ==> a * size <= b * size
  {
  }
}
