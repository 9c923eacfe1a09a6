/** `PrefixCacheMirror`: what is recorded, what is looked up, and what a hit proves. */
module MirrorRecords {
  import opened Runtime
  import opened PrefixMirror
  import opened MirrorCache

  /** A prompt sent to an engine. */
  datatype Dispatch = Dispatch(prompt: seq<Token>, items: seq<Item>, salt: Option<string>, engine: nat)

  function Hashes(log: seq<Sent>): seq<Hash> {
    seq(|log|, i requires 0 <= i < |log| => log[i].hash)
  }

  /** `d` is a prompt whose first `k` blocks, salt and items included, are those of the given prompt. */
  predicate SharesPrefix(size: nat, d: Dispatch, prompt: seq<Token>, items: seq<Item>, salt: Option<string>, k: nat) {
    && k * size <= |d.prompt| && k * size <= |prompt| && d.salt == salt && d.prompt[..k * size] == prompt[..k * size]
    && forall j :: 0 <= j < k ==> Overlapping(d.items, j * size, (j + 1) * size) == Overlapping(items, j * size, (j + 1) * size)
  }

  ghost predicate IsBlockOf(size: nat, d: Dispatch, s: Sent, k: nat) {
    k * size <= |d.prompt| && s == Sent(ChainTo(size, d.prompt, d.items, d.salt, k), d.engine)
  }

  /** Every recorded block is a block of a recorded prompt, on that prompt's engine. */
  ghost predicate Explained(size: nat, log: seq<Sent>, prompts: seq<Dispatch>) {
    forall i :: 0 <= i < |log| ==> Recalled(size, log[i], prompts)
  }

  ghost predicate Recalled(size: nat, s: Sent, prompts: seq<Dispatch>) {
    exists p, k: nat :: 0 <= p < |prompts| && IsBlockOf(size, prompts[p], s, k)
  }

  /** The mirror knows of an engine only what was recorded for it. */
  ghost predicate Sound(b: Blocks, log: seq<Sent>) {
    forall h, e :: Holds(b, h, e) ==> Sent(h, e) in log
  }

  ghost predicate Consistent(b: Blocks, log: seq<Sent>, max: nat) {
    Elements(b.order) == b.engines.Keys && Retains(b.order, Hashes(log), max) && Sound(b, log)
  }

  function AllEngines(n: nat): (all: set<nat>)
    ensures forall e: nat :: e in all <==> e < n
  {
    if n == 0 then {} else AllEngines(n - 1) + {n - 1}
  }

  lemma TouchedSound(b: Blocks, log: seq<Sent>, h: Hash, engine: nat)
    requires Sound(b, log)
    ensures Sound(Touched(b, h, engine), log + [Sent(h, engine)])
    ensures Holds(Touched(b, h, engine), h, engine)
    ensures forall x, e :: Holds(b, x, e) ==> Holds(Touched(b, h, engine), x, e)
  {
    var after := Touched(b, h, engine);
    forall x, e | Holds(after, x, e) ensures Sent(x, e) in log + [Sent(h, engine)] {
      if !(x == h && e == engine) { assert Holds(b, x, e); }
    }
  }

  lemma TouchedKeys(b: Blocks, h: Hash, engine: nat)
    requires Distinct(b.order) && Elements(b.order) == b.engines.Keys
    ensures Elements(Touched(b, h, engine).order) == Touched(b, h, engine).engines.Keys
  {
    WithoutExactly(b.order, h);
    Append(Without(b.order, h), h);
  }

  lemma TouchedOk(b: Blocks, log: seq<Sent>, max: nat, h: Hash, engine: nat)
    requires Consistent(b, log, max)
    ensures Consistent(Touched(b, h, engine), log + [Sent(h, engine)], max)
  {
    TouchedSound(b, log, h, engine);
    OrderDistinct(b.order, Hashes(log));
    TouchedKeys(b, h, engine);
    TouchRetains(b.order, Hashes(log), max, h);
    HashesAppend(log, h, engine);
  }

  lemma HashesAppend(log: seq<Sent>, h: Hash, engine: nat)
    ensures Hashes(log + [Sent(h, engine)]) == Hashes(log) + [h]
  {
  }

  lemma OrderDistinct(order: seq<Hash>, log: seq<Hash>)
    requires Suffix(order, LastSeen(log))
    ensures Distinct(order)
  {
    LastSeenExactly(log);
  }

  lemma TrimmedOk(b: Blocks, log: seq<Sent>, max: nat)
    requires Consistent(b, log, max)
    ensures Consistent(Trimmed(b, max), log, max) && |Trimmed(b, max).order| <= max
  {
    if |b.order| > max {
      TrimRetains(b.order, Hashes(log), max);
      var kept := b.order[|b.order| - max..];
      forall h ensures h in Elements(kept) <==> h in Trimmed(b, max).engines.Keys {
        if h in kept { assert h in b.order && h in Elements(b.order); }
      }
      forall h, e | Holds(Trimmed(b, max), h, e) ensures Sent(h, e) in log {
        assert Holds(b, h, e);
      }
    }
  }

  lemma ExplainedNext(size: nat, log: seq<Sent>, prompts: seq<Dispatch>, s: Sent, p: nat, k: nat)
    requires Explained(size, log, prompts) && p < |prompts| && IsBlockOf(size, prompts[p], s, k)
    ensures Explained(size, log + [s], prompts)
  {
    assert Recalled(size, s, prompts);
  }

  lemma ExplainedMore(size: nat, log: seq<Sent>, prompts: seq<Dispatch>, d: Dispatch)
    requires Explained(size, log, prompts)
    ensures Explained(size, log, prompts + [d])
  {
    forall i | 0 <= i < |log| ensures Recalled(size, log[i], prompts + [d]) {
      var p, k: nat :| 0 <= p < |prompts| && IsBlockOf(size, prompts[p], log[i], k);
      assert (prompts + [d])[p] == prompts[p];
    }
  }

  /** While the oldest blocks are evicted: what is left is a tail of the order, with its engines. */
  ghost predicate Trimming(touched: Blocks, b: Blocks, max: nat) {
    && Distinct(touched.order) && Elements(touched.order) == touched.engines.Keys
    && Suffix(b.order, touched.order) && |b.order| >= Min(max, |touched.order|)
    && (forall h :: h in b.engines <==> h in b.order)
    && (forall h :: h in b.engines ==> h in touched.engines && b.engines[h] == touched.engines[h])
  }

  lemma TrimmingFrom(touched: Blocks, max: nat)
    requires Distinct(touched.order) && Elements(touched.order) == touched.engines.Keys
    ensures Trimming(touched, touched, max)
  {
    assert forall h :: h in touched.engines <==> h in Elements(touched.order);
  }

  /** `del blocks[next(iter(blocks))]`. */
  lemma TrimmingNext(touched: Blocks, b: Blocks, max: nat)
    requires Trimming(touched, b, max) && |b.order| > max
    ensures Trimming(touched, Blocks(b.order[1..], b.engines - {b.order[0]}), max)
  {
    var start := |touched.order| - |b.order|;
    assert forall k :: 0 <= k < |b.order| ==> b.order[k] == touched.order[start + k];
    assert b.order == [b.order[0]] + b.order[1..];
    assert b.order[0] !in b.order[1..];
  }

  lemma TrimmingDone(touched: Blocks, b: Blocks, max: nat)
    requires Trimming(touched, b, max) && |b.order| <= max
    ensures b == Trimmed(touched, max)
  {
    assert forall h :: h in touched.engines <==> h in Elements(touched.order);
    var t := Trimmed(touched, max);
    assert b.order == t.order;
    SameEntries(b.engines, t.engines);
  }

  lemma SameEntries(a: map<Hash, set<nat>>, b: map<Hash, set<nat>>)
    requires forall h :: h in a <==> h in b
    requires forall h :: h in a ==> a[h] == b[h]
    ensures a == b
  {
  }

  /** After inserting the first `i` hashes. */
  ghost predicate InsertedUpTo(b0: Blocks, log0: seq<Sent>, hashes: seq<Hash>, engine: nat, i: nat, b: Blocks, log: seq<Sent>) {
    i <= |hashes| && b == TouchedAll(b0, hashes[..i], engine) && Hashes(log) == Hashes(log0) + hashes[..i]
  }

  lemma InsertedNext(b0: Blocks, log0: seq<Sent>, hashes: seq<Hash>, engine: nat, i: nat, b: Blocks, log: seq<Sent>)
    requires InsertedUpTo(b0, log0, hashes, engine, i, b, log) && i < |hashes|
    ensures InsertedUpTo(b0, log0, hashes, engine, i + 1, Touched(b, hashes[i], engine), log + [Sent(hashes[i], engine)])
  {
    HashesAppend(log, hashes[i], engine);
    assert hashes[..i + 1][..i] == hashes[..i];
    PrefixNext(Hashes(log0), hashes, i);
  }

  lemma BlockOfPrompt(size: nat, d: Dispatch, hashes: seq<Hash>, i: nat)
    requires HashesOf(size, d.prompt, d.items, d.salt, hashes) && i < |hashes|
    ensures IsBlockOf(size, d, Sent(hashes[i], d.engine), i + 1)
  {
    assert IsChain(size, d.prompt, d.items, d.salt, i + 1, hashes[i]);
  }

  lemma ExplainedBlock(size: nat, log: seq<Sent>, prompts: seq<Dispatch>, d: Dispatch, hashes: seq<Hash>, i: nat)
    requires Explained(size, log, prompts) && prompts != [] && prompts[|prompts| - 1] == d
    requires HashesOf(size, d.prompt, d.items, d.salt, hashes) && i < |hashes|
    ensures Explained(size, log + [Sent(hashes[i], d.engine)], prompts)
  {
    BlockOfPrompt(size, d, hashes, i);
    ExplainedNext(size, log, prompts, Sent(hashes[i], d.engine), |prompts| - 1, i + 1);
  }

  lemma PrefixNext(before: seq<Hash>, hashes: seq<Hash>, i: nat)
    requires i < |hashes|
    ensures before + hashes[..i] + [hashes[i]] == before + hashes[..i + 1]
  {
  }

  lemma EmptyConsistent(max: nat)
    ensures Consistent(Blocks([], map[]), [], max)
  {
    assert Hashes([]) == [] && LastSeen([]) == [];
    assert Elements([]) == {};
  }

  class Mirror {
    const blockSize: nat
    const numEngines: nat
    const maxBlocks: nat
    var order: seq<Hash>
    var engines: map<Hash, set<nat>>
    /** The blocks and the prompts recorded since the last clear. */
    ghost var log: seq<Sent>
    ghost var prompts: seq<Dispatch>

    constructor (blockSize: nat, numEngines: nat, maxBlocks: nat)
      requires blockSize >= 1 && numEngines >= 1 && maxBlocks >= 1
      ensures this.blockSize == blockSize && this.numEngines == numEngines && this.maxBlocks == maxBlocks
      ensures Valid() && Model() == Blocks([], map[]) && prompts == []
    {
      this.blockSize, this.numEngines, this.maxBlocks := blockSize, numEngines, maxBlocks;
      order, engines, log, prompts := [], map[], [], [];
      EmptyConsistent(maxBlocks);
    }

    function Model(): Blocks
      reads this
    {
      Blocks(order, engines)
    }

    ghost predicate Valid()
      reads this
    {
      && blockSize >= 1 && maxBlocks >= 1
      && Consistent(Model(), log, maxBlocks) && |order| <= maxBlocks && Explained(blockSize, log, prompts)
    }

    /** Each engine's run of leading blocks, found in one walk over the hashes for all engines at once. */
    method CachedTokens(hashes: seq<Hash>, maxHit: int) returns (hits: seq<int>)
      ensures |hits| == numEngines
      ensures forall e :: 0 <= e < numEngines ==> hits[e] == Min(RunLength(Model(), hashes, e) * blockSize, maxHit)
    {
      hits := seq(numEngines, _ => 0);
      var alive: set<nat> := AllEngines(numEngines);
      var held := 0;
      while held < |hashes|
        invariant held <= |hashes| && |hits| == numEngines && (forall e :: e in alive ==> e < numEngines)
        invariant forall e :: e in alive ==> forall j :: 0 <= j < held ==> Holds(Model(), hashes[j], e)
        invariant forall e :: 0 <= e < numEngines && e !in alive ==> hits[e] == Min(RunLength(Model(), hashes, e) * blockSize, maxHit)
        decreases |hashes| - held
      {
        var still: set<nat> := GetOr(engines, hashes[held], {}) * alive;
        if still != alive {
          hits := Settle(hits, alive - still, hashes, held, maxHit);
          alive := still;
          if alive == {} { return; }
        }
        held := held + 1;
      }
      forall e | e in alive ensures RunLength(Model(), hashes, e) == |hashes| {
        RunIsLongest(Model(), hashes, e, |hashes|);
      }
      hits := SettleAll(hits, alive, hashes, maxHit);
    }

    /** The engines whose run ends here. */
    method Settle(hits: seq<int>, lost: set<nat>, hashes: seq<Hash>, held: nat, maxHit: int) returns (settled: seq<int>)
      requires held < |hashes| && |hits| == numEngines
      requires forall e :: e in lost ==> !Holds(Model(), hashes[held], e) && forall j :: 0 <= j < held ==> Holds(Model(), hashes[j], e)
      ensures |settled| == numEngines
      ensures forall e :: 0 <= e < numEngines ==>
                settled[e] == if e in lost then Min(RunLength(Model(), hashes, e) * blockSize, maxHit) else hits[e]
    {
      settled := hits;
      for e := 0 to numEngines
        invariant |settled| == numEngines
        invariant forall i :: 0 <= i < numEngines ==>
                    settled[i] == if i < e && i in lost then Min(RunLength(Model(), hashes, i) * blockSize, maxHit) else hits[i]
      {
        if e in lost {
          RunIsLongest(Model(), hashes, e, held);
          RunIsLongest(Model(), hashes, e, held + 1);
          settled := settled[e := Min(held * blockSize, maxHit)];
        }
      }
    }

    method SettleAll(hits: seq<int>, alive: set<nat>, hashes: seq<Hash>, maxHit: int) returns (settled: seq<int>)
      requires |hits| == numEngines && forall e :: e in alive ==> RunLength(Model(), hashes, e) == |hashes|
      ensures |settled| == numEngines
      ensures forall e :: 0 <= e < numEngines ==> settled[e] == if e in alive then Min(|hashes| * blockSize, maxHit) else hits[e]
    {
      settled := hits;
      for e := 0 to numEngines
        invariant |settled| == numEngines
        invariant forall i :: 0 <= i < numEngines ==> settled[i] == if i < e && i in alive then Min(|hashes| * blockSize, maxHit) else hits[i]
      {
        if e in alive { settled := settled[e := Min(|hashes| * blockSize, maxHit)]; }
      }
    }

    /** `record`: reinsert each block at the end with the engine added, then evict from the front. */
    method Record(hashes: seq<Hash>, engine: nat, ghost d: Dispatch)
      requires Valid() && HashesOf(blockSize, d.prompt, d.items, d.salt, hashes) && d.engine == engine
      modifies this
      ensures Valid() && Model() == Recorded(old(Model()), hashes, engine, maxBlocks) && prompts == old(prompts) + [d]
      ensures Hashes(log) == Hashes(old(log)) + hashes
    {
      Insert(hashes, engine, d);
      ghost var touched := Model();
      TrimmedOk(touched, log, maxBlocks);
      OrderDistinct(order, Hashes(log));
      TrimmingFrom(touched, maxBlocks);
      Evict(touched);
    }

    method Evict(ghost touched: Blocks)
      requires Trimming(touched, Model(), maxBlocks)
      modifies this`order, this`engines
      ensures Model() == Trimmed(touched, maxBlocks)
    {
      while |order| > maxBlocks
        invariant Trimming(touched, Model(), maxBlocks)
      {
        TrimmingNext(touched, Model(), maxBlocks);
        engines := engines - {order[0]};
        order := order[1..];
      }
      TrimmingDone(touched, Model(), maxBlocks);
    }

    method Insert(hashes: seq<Hash>, engine: nat, ghost d: Dispatch)
      requires Valid() && HashesOf(blockSize, d.prompt, d.items, d.salt, hashes) && d.engine == engine
      modifies this
      ensures Consistent(Model(), log, maxBlocks) && Explained(blockSize, log, prompts)
      ensures Model() == TouchedAll(old(Model()), hashes, engine) && prompts == old(prompts) + [d]
      ensures Hashes(log) == Hashes(old(log)) + hashes
    {
      prompts := prompts + [d];
      ExplainedMore(blockSize, log, old(prompts), d);
      ghost var before, was := Model(), log;
      assert Hashes(was) + [] == Hashes(was);
      for i := 0 to |hashes|
        invariant prompts == old(prompts) + [d]
        invariant Consistent(Model(), log, maxBlocks) && Explained(blockSize, log, prompts)
        invariant InsertedUpTo(before, was, hashes, engine, i, Model(), log)
      {
        TouchedOk(Model(), log, maxBlocks, hashes[i], engine);
        ExplainedBlock(blockSize, log, prompts, d, hashes, i);
        InsertedNext(before, was, hashes, engine, i, Model(), log);
        engines := engines[hashes[i] := GetOr(engines, hashes[i], {}) + {engine}];
        order := Without(order, hashes[i]) + [hashes[i]];
        log := log + [Sent(hashes[i], engine)];
      }
      assert hashes[..|hashes|] == hashes;
    }

    /** `clear`. */
    method Clear()
      requires Valid()
      modifies this
      ensures Valid() && Model() == Blocks([], map[]) && prompts == []
    {
      order, engines, log, prompts := [], map[], [], [];
      EmptyConsistent(maxBlocks);
    }
  }

  // ----- what a hit means -----

  /** A hit of `k` blocks on an engine means that a prompt with the same first `k` blocks, salt and
      overlapping items was sent to it since the last clear. */
  lemma HitIsShared(size: nat, max: nat, b: Blocks, log: seq<Sent>, prompts: seq<Dispatch>, prompt: seq<Token>, items: seq<Item>,
                    salt: Option<string>, hashes: seq<Hash>, engine: nat, k: nat)
    requires Consistent(b, log, max) && Explained(size, log, prompts) && HashesOf(size, prompt, items, salt, hashes)
    requires 1 <= k <= RunLength(b, hashes, engine)
    ensures exists d :: d in prompts && d.engine == engine && SharesPrefix(size, d, prompt, items, salt, k)
  {
    RunIsLongest(b, hashes, engine, k);
    var s := Sent(hashes[k - 1], engine);
    assert Holds(b, s.hash, engine) && s in log;
    var i :| 0 <= i < |log| && log[i] == s;
    assert Recalled(size, log[i], prompts);
    var p, m: nat :| 0 <= p < |prompts| && IsBlockOf(size, prompts[p], s, m);
    var d := prompts[p];
    assert IsChain(size, prompt, items, salt, k, hashes[k - 1]);
    ChainDepth(size, d.prompt, d.items, d.salt, prompt, items, salt, m, k);
    SameChainExactly(size, d.prompt, d.items, d.salt, prompt, items, salt, k);
    assert d in prompts && SharesPrefix(size, d, prompt, items, salt, k);
  }

  /** A prompt's own hashes never collide. */
  lemma HashesDistinct(size: nat, prompt: seq<Token>, items: seq<Item>, salt: Option<string>, hashes: seq<Hash>)
    requires HashesOf(size, prompt, items, salt, hashes)
    ensures Distinct(hashes)
  {
    forall i, j | 0 <= i < j < |hashes| ensures hashes[i] != hashes[j] {
      assert IsChain(size, prompt, items, salt, i + 1, hashes[i]) && IsChain(size, prompt, items, salt, j + 1, hashes[j]);
      if hashes[i] == hashes[j] {
        ChainDepth(size, prompt, items, salt, prompt, items, salt, i + 1, j + 1);
      }
    }
  }

  lemma TailNext(order: seq<Hash>, tail: seq<Hash>, h: Hash)
    requires Suffix(tail, order) && Distinct(tail) && h !in tail
    ensures Suffix(tail + [h], Without(order, h) + [h])
  {
    var front := order[..|order| - |tail|];
    assert order == front + tail;
    WithoutConcat(front, tail, h);
    WithoutExactly(tail, h);
    assert Without(order, h) + [h] == Without(front, h) + (tail + [h]);
  }

  lemma {:induction false} TouchedTail(b: Blocks, hashes: seq<Hash>, engine: nat)
    requires Distinct(hashes)
    ensures Suffix(hashes, TouchedAll(b, hashes, engine).order)
  {
    if hashes != [] {
      var n := |hashes| - 1;
      TouchedTail(b, hashes[..n], engine);
      assert hashes[n] !in hashes[..n];
      TailNext(TouchedAll(b, hashes[..n], engine).order, hashes[..n], hashes[n]);
      assert hashes == hashes[..n] + [hashes[n]];
    }
  }

  lemma {:induction false} TouchedHeld(b: Blocks, hashes: seq<Hash>, engine: nat, h: Hash)
    requires h in hashes
    ensures Holds(TouchedAll(b, hashes, engine), h, engine)
  {
    var n := |hashes| - 1;
    assert hashes == hashes[..n] + [hashes[n]];
    if h in hashes[..n] { TouchedHeld(b, hashes[..n], engine, h); }
  }

  /** Once recorded, a prompt that fits the mirror hits in full on its engine. */
  lemma RecordedPromptHits(size: nat, max: nat, b: Blocks, prompt: seq<Token>, items: seq<Item>, salt: Option<string>,
                           hashes: seq<Hash>, engine: nat)
    requires HashesOf(size, prompt, items, salt, hashes) && |hashes| <= max
    ensures RunLength(Recorded(b, hashes, engine, max), hashes, engine) == |hashes|
  {
    HashesDistinct(size, prompt, items, salt, hashes);
    TouchedTail(b, hashes, engine);
    forall h | h in hashes ensures Holds(TouchedAll(b, hashes, engine), h, engine) {
      TouchedHeld(b, hashes, engine, h);
    }
    var touched, after := TouchedAll(b, hashes, engine), Recorded(b, hashes, engine, max);
    forall j | 0 <= j < |hashes| ensures Holds(after, hashes[j], engine) {
      assert hashes[j] in hashes && Holds(touched, hashes[j], engine);
      if |touched.order| > max {
        var kept := touched.order[|touched.order| - max..];
        assert kept[max - |hashes| + j] == hashes[j];
      }
    }
    RunIsLongest(after, hashes, engine, |hashes|);
  }
}
