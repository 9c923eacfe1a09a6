/**
 Speculative noise of the seeded host sampler. Noise for the next call is drawn early on private
 clones of the generators and kept, by generator, in a cache bounded by bytes. None of it may be
 visible in what a call samples with or in the generator states it leaves.
 */
module NoiseCache {
  import opened Runtime

  /** A request's generator, by identity; requests move between rows, generators do not. */
  datatype GenRef = GenRef(id: nat)

  datatype RngState = RngState(words: seq<int>)

  type Noise = seq<real>

  /** `_PrefetchedNoise` with its future resolved: what a clone of `state` drew, and the state after. */
  datatype Entry = Entry(state: RngState, vocab: nat, size: nat, noise: Noise, next: RngState)

  /** Drawing `vocab` exponentials from a generator state. */
  type Draw = (RngState, nat) -> (Noise, RngState)

  function NoiseBytes(fp64: bool, vocab: nat): (bytes: nat)
    ensures vocab > 0 ==> bytes > 0
  {
    vocab * if fp64 then 8 else 4
  }

  function PrefetchCount(batch: nat, maxBytes: nat, noiseBytes: nat): (count: nat)
    requires noiseBytes > 0
    ensures count <= batch
  {
    Min(batch, maxBytes / noiseBytes)
  }

  function Prepared(draw: Draw, fp64: bool, state: RngState, vocab: nat): Entry {
    Entry(state, vocab, NoiseBytes(fp64, vocab), draw(state, vocab).0, draw(state, vocab).1)
  }

  // ----- byte accounting -----

  /** Bytes of the cached entries, oldest first. */
  function Total(order: seq<GenRef>, entries: map<GenRef, Entry>): nat {
    if order == [] then 0
    else (if order[0] in entries then entries[order[0]].size else 0) + Total(order[1..], entries)
  }

  function Without(order: seq<GenRef>, g: GenRef): seq<GenRef> {
    if order == [] then [] else if order[0] == g then order[1..] else [order[0]] + Without(order[1..], g)
  }

  lemma {:induction false} TotalIgnores(order: seq<GenRef>, a: map<GenRef, Entry>, b: map<GenRef, Entry>)
    requires forall g :: g in order ==> (g in a <==> g in b) && (g in a ==> a[g] == b[g])
    ensures Total(order, a) == Total(order, b)
  {
    if order != [] {
      assert order[0] in order;
      TotalIgnores(order[1..], a, b);
    }
  }

  lemma {:induction false} TotalAppend(order: seq<GenRef>, entries: map<GenRef, Entry>, g: GenRef)
    requires g in entries
    ensures Total(order + [g], entries) == Total(order, entries) + entries[g].size
  {
    if order == [] {
      assert [] + [g] == [g];
      assert Total([g][1..], entries) == 0;
    } else {
      TotalAppend(order[1..], entries, g);
      assert (order + [g])[1..] == order[1..] + [g];
    }
  }

  lemma {:induction false} WithoutExactly(order: seq<GenRef>, entries: map<GenRef, Entry>, g: GenRef)
    requires Distinct(order) && g in order && g in entries
    ensures Distinct(Without(order, g)) && forall x :: x in Without(order, g) <==> x in order && x != g
    ensures Total(Without(order, g), entries) == Total(order, entries) - entries[g].size
  {
    assert order == [order[0]] + order[1..];
    if order[0] != g {
      WithoutExactly(order[1..], entries, g);
      var rest := Without(order[1..], g);
      assert order[0] !in order[1..] && ([order[0]] + rest)[1..] == rest;
    } else {
      assert forall i :: 0 <= i < |order[1..]| ==> order[1..][i] == order[i + 1];
    }
  }

  // ----- the cache -----

  /** The ordered dictionary and its byte count as a value. */
  datatype Cache = Cache(order: seq<GenRef>, entries: map<GenRef, Entry>, bytes: nat)

  /** The byte count is the sum of the entries, and every entry is what drawing from its state gives. */
  ghost predicate CacheOk(draw: Draw, fp64: bool, c: Cache) {
    && Distinct(c.order) && (forall g :: g in c.order <==> g in c.entries)
    && c.bytes == Total(c.order, c.entries)
    && forall g :: g in c.entries ==> c.entries[g] == Prepared(draw, fp64, c.entries[g].state, c.entries[g].vocab)
  }

  function Popped(c: Cache, g: GenRef): Cache
    requires g in c.entries ==> c.entries[g].size <= c.bytes
  {
    if g in c.entries then Cache(Without(c.order, g), c.entries - {g}, c.bytes - c.entries[g].size) else c
  }

  function Inserted(c: Cache, g: GenRef, e: Entry): Cache {
    Cache(c.order + [g], c.entries[g := e], c.bytes + e.size)
  }

  lemma PopKeeps(draw: Draw, fp64: bool, c: Cache, g: GenRef)
    requires CacheOk(draw, fp64, c)
    ensures (g in c.entries ==> c.entries[g].size <= c.bytes) && CacheOk(draw, fp64, Popped(c, g))
    ensures Popped(c, g).entries.Keys == c.entries.Keys - {g} && Popped(c, g).bytes <= c.bytes
  {
    if g in c.entries {
      WithoutExactly(c.order, c.entries, g);
      TotalIgnores(Without(c.order, g), c.entries, c.entries - {g});
    }
  }

  lemma InsertKeeps(draw: Draw, fp64: bool, c: Cache, g: GenRef, e: Entry)
    requires CacheOk(draw, fp64, c) && g !in c.entries && e == Prepared(draw, fp64, e.state, e.vocab)
    ensures CacheOk(draw, fp64, Inserted(c, g, e))
  {
    TotalIgnores(c.order, c.entries, c.entries[g := e]);
    TotalAppend(c.order, c.entries[g := e], g);
  }

  /** The oldest entry can always be evicted while the cache is over any bound. */
  lemma OldestExists(draw: Draw, fp64: bool, c: Cache)
    requires CacheOk(draw, fp64, c) && c.bytes > 0
    ensures c.order != [] && c.order[0] in c.entries && Without(c.order, c.order[0]) == c.order[1..]
  {
    assert c.order != [] ==> c.order[0] in c.order;
  }

  // ----- sampling directly -----

  function DirectNoise(draw: Draw, states: map<GenRef, RngState>, gens: seq<GenRef>, vocab: nat): seq<Noise>
    requires forall g :: g in gens ==> g in states
  {
    seq(|gens|, i requires 0 <= i < |gens| => assert gens[i] in gens; draw(states[gens[i]], vocab).0)
  }

  function DirectStates(draw: Draw, states: map<GenRef, RngState>, gens: seq<GenRef>, vocab: nat): map<GenRef, RngState> {
    map g | g in states :: if g in gens then draw(states[g], vocab).1 else states[g]
  }

  /** None of the first `i` rows' generators has noise in the cache. */
  ghost predicate Uncached(gens: seq<GenRef>, i: nat, entries: map<GenRef, Entry>) {
    i <= |gens| && forall j :: 0 <= j < i ==> gens[j] !in entries
  }

  ghost predicate PreparedFor(draw: Draw, fp64: bool, states: map<GenRef, RngState>, gens: seq<GenRef>, vocab: nat, prepared: seq<Entry>) {
    |prepared| <= |gens| && forall j :: 0 <= j < |prepared| ==>
      gens[j] in states && prepared[j] == Prepared(draw, fp64, states[gens[j]], vocab)
  }

  lemma PreparedNext(draw: Draw, fp64: bool, states: map<GenRef, RngState>, gens: seq<GenRef>, vocab: nat, prepared: seq<Entry>, entry: Entry)
    requires PreparedFor(draw, fp64, states, gens, vocab, prepared) && |prepared| < |gens| && gens[|prepared|] in states
    requires entry == Prepared(draw, fp64, states[gens[|prepared|]], vocab)
    ensures PreparedFor(draw, fp64, states, gens, vocab, prepared + [entry])
  {
  }

  /** After the first `row` rows: their noise is out and their generators have moved. */
  ghost predicate Drawn(draw: Draw, before: map<GenRef, RngState>, gens: seq<GenRef>, vocab: nat, row: nat,
                        states: map<GenRef, RngState>, noise: seq<Noise>) {
    && row <= |gens| && |noise| == row && states == DirectStates(draw, before, gens[..row], vocab)
    && forall i :: 0 <= i < row ==> gens[i] in before && noise[i] == draw(before[gens[i]], vocab).0
  }

  lemma DrawnNone(draw: Draw, before: map<GenRef, RngState>, gens: seq<GenRef>, vocab: nat)
    ensures Drawn(draw, before, gens, vocab, 0, before, [])
  {
    assert DirectStates(draw, before, [], vocab) == before;
    assert gens[..0] == [];
  }

  lemma DrawnNext(draw: Draw, fp64: bool, before: map<GenRef, RngState>, gens: seq<GenRef>, vocab: nat, row: nat,
                  states: map<GenRef, RngState>, noise: seq<Noise>, prepared: seq<Entry>)
    requires Drawn(draw, before, gens, vocab, row, states, noise) && row < |gens| == |prepared| && Distinct(gens)
    requires PreparedFor(draw, fp64, before, gens, vocab, prepared)
    ensures Drawn(draw, before, gens, vocab, row + 1, states[gens[row] := prepared[row].next], noise + [prepared[row].noise])
  {
    var g := gens[row];
    assert gens[..row + 1] == gens[..row] + [g] && g !in gens[..row];
    var after := DirectStates(draw, before, gens[..row + 1], vocab);
    assert forall x :: x in before && x != g ==> (x in gens[..row + 1] <==> x in gens[..row]);
    assert after == states[g := prepared[row].next];
  }

  lemma DrawnAll(draw: Draw, before: map<GenRef, RngState>, gens: seq<GenRef>, vocab: nat, states: map<GenRef, RngState>, noise: seq<Noise>)
    requires Drawn(draw, before, gens, vocab, |gens|, states, noise) && forall g :: g in gens ==> g in before
    ensures noise == DirectNoise(draw, before, gens, vocab) && states == DirectStates(draw, before, gens, vocab)
  {
    assert gens[..|gens|] == gens;
  }

  class Sampler {
    const draw: Draw
    const fp64: bool
    const maxBytes: nat
    var order: seq<GenRef>
    var entries: map<GenRef, Entry>
    var cachedBytes: nat
    /** The requests' generators, which anyone may change between calls. */
    var states: map<GenRef, RngState>

    constructor (draw: Draw, fp64: bool, maxBytes: nat)
      ensures Valid() && this.draw == draw && this.fp64 == fp64 && this.maxBytes == maxBytes && states == map[]
    {
      this.draw, this.fp64, this.maxBytes := draw, fp64, maxBytes;
      order, entries, cachedBytes, states := [], map[], 0, map[];
    }

    function Model(): Cache
      reads this
    {
      Cache(order, entries, cachedBytes)
    }

    ghost predicate Valid()
      reads this
    {
      CacheOk(draw, fp64, Model()) && cachedBytes <= maxBytes
    }

    /** A generator created, reseeded or advanced by somebody else. */
    method SetState(g: GenRef, state: RngState)
      requires Valid()
      modifies this`states
      ensures Valid() && states == old(states)[g := state]
    {
      states := states[g := state];
    }

    /** Cached noise is taken only for the same width and the generator's complete state. */
    method TakeNoise(g: GenRef, vocab: nat) returns (entry: Entry)
      requires CacheOk(draw, fp64, Model()) && g in states
      modifies this`order, this`entries, this`cachedBytes
      ensures CacheOk(draw, fp64, Model()) && entries.Keys == old(entries).Keys - {g} && cachedBytes <= old(cachedBytes)
      ensures entry == Prepared(draw, fp64, states[g], vocab)
    {
      PopKeeps(draw, fp64, Model(), g);
      if g in entries {
        entry := entries[g];
        order, entries, cachedBytes := Without(order, g), entries - {g}, cachedBytes - entry.size;
        if entry.vocab == vocab && entry.state == states[g] { return; }
      }
      entry := Prepared(draw, fp64, states[g], vocab);
    }

    /** One prefetched entry, then the oldest out until the bound holds. */
    method Prefetch(g: GenRef, state: RngState, vocab: nat)
      requires Valid() && g !in entries
      modifies this`order, this`entries, this`cachedBytes
      ensures Valid() && entries.Keys <= old(entries).Keys + {g}
    {
      var entry := Prepared(draw, fp64, state, vocab);
      InsertKeeps(draw, fp64, Model(), g, entry);
      order, entries, cachedBytes := order + [g], entries[g := entry], cachedBytes + entry.size;
      while cachedBytes > maxBytes
        invariant CacheOk(draw, fp64, Model()) && entries.Keys <= old(entries).Keys + {g}
        decreases |order|
      {
        OldestExists(draw, fp64, Model());
        PopKeeps(draw, fp64, Model(), order[0]);
        var oldest := order[0];
        cachedBytes := cachedBytes - entries[oldest].size;
        order, entries := order[1..], entries - {oldest};
      }
    }

    /** Takes or draws every row's noise before any generator moves. */
    method PrepareRows(gens: seq<GenRef>, vocab: nat) returns (prepared: seq<Entry>)
      requires Valid() && forall g :: g in gens ==> g in states
      modifies this`order, this`entries, this`cachedBytes
      ensures Valid() && Uncached(gens, |gens|, entries) && PreparedFor(draw, fp64, states, gens, vocab, prepared) && |prepared| == |gens|
    {
      prepared := [];
      for i := 0 to |gens|
        invariant Valid() && |prepared| == i
        invariant Uncached(gens, i, entries) && PreparedFor(draw, fp64, states, gens, vocab, prepared)
      {
        var entry := TakeNoise(gens[i], vocab);
        PreparedNext(draw, fp64, states, gens, vocab, prepared, entry);
        prepared := prepared + [entry];
      }
    }

    /** `_sample_seeded`, as far as randomness goes: whatever is cached, a call uses the noise and leaves
        the generator states that drawing directly would. */
    method SampleSeeded(gens: seq<GenRef>, vocab: nat) returns (noise: seq<Noise>)
      requires Valid() && Distinct(gens) && vocab > 0 && forall g :: g in gens ==> g in states
      modifies this
      ensures Valid()
      ensures noise == DirectNoise(draw, old(states), gens, vocab)
      ensures states == DirectStates(draw, old(states), gens, vocab)
    {
      var prepared := PrepareRows(gens, vocab);
      noise := Draws(gens, prepared, vocab);
      PrefetchRows(gens, prepared, vocab, |gens| - PrefetchCount(|gens|, maxBytes, NoiseBytes(fp64, vocab)));
    }

    /** Row by row: the prepared noise is used and the generator set to the state behind it. */
    method Draws(gens: seq<GenRef>, prepared: seq<Entry>, vocab: nat) returns (noise: seq<Noise>)
      requires Distinct(gens) && (forall g :: g in gens ==> g in states) && |prepared| == |gens|
      requires PreparedFor(draw, fp64, states, gens, vocab, prepared)
      modifies this`states
      ensures noise == DirectNoise(draw, old(states), gens, vocab)
      ensures states == DirectStates(draw, old(states), gens, vocab)
    {
      noise := [];
      DrawnNone(draw, states, gens, vocab);
      for row := 0 to |gens|
        invariant Drawn(draw, old(states), gens, vocab, row, states, noise)
      {
        DrawnNext(draw, fp64, old(states), gens, vocab, row, states, noise, prepared);
        noise := noise + [prepared[row].noise];
        states := states[gens[row] := prepared[row].next];
      }
      DrawnAll(draw, old(states), gens, vocab, states, noise);
    }

    /** The last rows of the call, as many as the bound can hold at once. */
    method PrefetchRows(gens: seq<GenRef>, prepared: seq<Entry>, vocab: nat, first: nat)
      requires Valid() && Distinct(gens) && |prepared| == |gens| && first <= |gens| && Uncached(gens, |gens|, entries)
      modifies this`order, this`entries, this`cachedBytes
      ensures Valid()
    {
      for row := first to |gens|
        invariant Valid() && forall i :: row <= i < |gens| ==> gens[i] !in entries
      {
        Prefetch(gens[row], prepared[row].next, vocab);
      }
    }
  }
}
