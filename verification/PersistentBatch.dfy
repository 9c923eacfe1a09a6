/**
 The persistent input batch: parallel arrays, row-keyed dictionaries and per-request sets that have
 to describe, row by row, exactly the scheduled requests. A request's whole description is its
 `RowView`; `FreshView` is what a batch built from nothing would hold for it.
 */
module PersistentBatch {
  import opened Runtime

  /** Identity of a request's output list. The batch row and the request state hold the same one, so
      the list's contents live in one place, `OutputLists`, whoever extends them. */
  datatype ListRef = ListRef(id: nat)

  type OutputLists = map<ListRef, seq<Token>>

  /** Identity of a request's random generator. */
  datatype Generator = Generator(seed: int)

  datatype Params = Params(
    temperature: real, topP: real, topK: int,
    presence: real, frequency: real, repetition: real,
    seed: Option<int>, logprobs: Option<int>,
    allowed: seq<Token>, badWords: seq<seq<Token>>)

  datatype Request = Request(
    prompt: seq<Token>, output: ListRef, numComputed: nat, blocks: seq<seq<nat>>,
    params: Params, generator: Option<Generator>)

  /** One row of the sampling tensors. */
  datatype Sampling = Sampling(
    temperature: real, topP: real, topK: int,
    presence: real, frequency: real, repetition: real,
    seed: int, numLogprobs: int)

  const SEED_NONE_SENTINEL := -1
  const LOGPROBS_NONE_SENTINEL := -2

  /** Token history, lengths and block table of a row. */
  datatype Columns = Columns(tokens: seq<Token>, numPrompt: nat, numComputed: nat, blocks: seq<seq<nat>>)

  /** Sampling tensors, generator, bad words and allowlist mask of a row. */
  datatype Controls = Controls(sampling: Sampling, generator: Option<Generator>, badWords: Option<seq<seq<Token>>>,
                               disallowed: set<Token>)

  /** Membership in the batch-wide fast-path sets. */
  datatype Flags = Flags(random: bool, presence: bool, frequency: bool, repetition: bool, allowlisted: bool)

  datatype RowView = RowView(columns: Columns, output: Option<ListRef>, controls: Controls, flags: Flags)

  /** `top_k` outside (0, vocab) means every token, and `top_k == 1` collapses the nucleus. */
  function NormalTopK(topK: int, vocab: nat): int {
    if 0 < topK < vocab then topK else vocab
  }

  function NormalLogprobs(logprobs: Option<int>, vocab: nat, disabled: bool): int {
    if disabled || logprobs.None? then LOGPROBS_NONE_SENTINEL
    else if logprobs.value == -1 then vocab else logprobs.value
  }

  function FreshSampling(p: Params, vocab: nat, disableLogprobs: bool): Sampling {
    var topK := NormalTopK(p.topK, vocab);
    Sampling(p.temperature, if topK == 1 then 0.0 else p.topP, topK, p.presence, p.frequency, p.repetition,
             if p.seed.Some? then p.seed.value else SEED_NONE_SENTINEL, NormalLogprobs(p.logprobs, vocab, disableLogprobs))
  }

  /** The mask row of an allowlist: every id of the vocabulary that is not allowed. */
  function Disallowed(vocab: nat, allowed: seq<Token>): set<Token> {
    if allowed == [] then {} else set t: Token | 0 <= t < vocab && t !in allowed
  }

  function FreshColumns(request: Request, output: seq<Token>): Columns {
    Columns(request.prompt + output, |request.prompt|, request.numComputed, request.blocks)
  }

  function FreshControls(p: Params, generator: Option<Generator>, vocab: nat, disableLogprobs: bool): Controls {
    Controls(FreshSampling(p, vocab, disableLogprobs), generator,
             if p.badWords == [] then None else Some(p.badWords), Disallowed(vocab, p.allowed))
  }

  function FreshFlags(p: Params): Flags {
    Flags(p.temperature != 0.0, p.presence != 0.0, p.frequency != 0.0, p.repetition != 1.0, p.allowed != [])
  }

  function FreshView(request: Request, output: seq<Token>, vocab: nat, disableLogprobs: bool): RowView {
    RowView(FreshColumns(request, output), Some(request.output),
            FreshControls(request.params, request.generator, vocab, disableLogprobs), FreshFlags(request.params))
  }

  /** Appending newly allocated blocks, group by group. */
  function AppendBlocks(blocks: seq<seq<nat>>, more: seq<seq<nat>>): seq<seq<nat>> {
    seq(|blocks|, g requires 0 <= g < |blocks| => if g < |more| then blocks[g] + more[g] else blocks[g])
  }

  /** The batch-wide sets, tracked by request id. */
  datatype FastPath = FastPath(random: set<ReqId>, presence: set<ReqId>, frequency: set<ReqId>, repetition: set<ReqId>,
                               allowlisted: set<ReqId>) {
    function Of(r: ReqId): Flags {
      Flags(r in random, r in presence, r in frequency, r in repetition, r in allowlisted)
    }

    function Ids(): set<ReqId> {
      random + presence + frequency + repetition + allowlisted
    }

    /** Both directions for the first four, because an id can be reused. */
    function Track(r: ReqId, p: Params): (after: FastPath)
      requires r !in allowlisted
      ensures after.Of(r) == FreshFlags(p) && after.Ids() <= Ids() + {r}
      ensures forall q :: q != r ==> after.Of(q) == Of(q)
    {
      FastPath(if p.temperature == 0.0 then random - {r} else random + {r},
               if p.presence == 0.0 then presence - {r} else presence + {r},
               if p.frequency == 0.0 then frequency - {r} else frequency + {r},
               if p.repetition == 1.0 then repetition - {r} else repetition + {r},
               if p.allowed == [] then allowlisted else allowlisted + {r})
    }

    function Drop(r: ReqId): (after: FastPath)
      ensures after.Ids() == Ids() - {r} && forall q :: q != r ==> after.Of(q) == Of(q)
    {
      FastPath(random - {r}, presence - {r}, frequency - {r}, repetition - {r}, allowlisted - {r})
    }
  }

  /** Rows and `req_id_to_index` are inverse to each other. */
  ghost predicate Inverse(reqIds: seq<Option<ReqId>>, index: map<ReqId, nat>) {
    && (forall r :: r in index ==> index[r] < |reqIds| && reqIds[index[r]] == Some(r))
    && (forall i :: 0 <= i < |reqIds| && reqIds[i].Some? ==> reqIds[i].value in index && index[reqIds[i].value] == i)
  }

  /** A hole is filled, or the rows grow by one. */
  function Entered<T>(rows: seq<Option<T>>, at: nat, value: T): seq<Option<T>>
    requires at <= |rows|
  {
    if at == |rows| then rows + [Some(value)] else rows[at := Some(value)]
  }

  lemma InverseAdd(reqIds: seq<Option<ReqId>>, index: map<ReqId, nat>, r: ReqId, at: nat)
    requires Inverse(reqIds, index) && r !in index && at <= |reqIds| && (at < |reqIds| ==> reqIds[at].None?)
    ensures Inverse(Entered(reqIds, at, r), index[r := at])
    ensures forall q :: q in index ==> index[q] != at
  {
  }

  lemma InverseRemove(reqIds: seq<Option<ReqId>>, index: map<ReqId, nat>, r: ReqId)
    requires Inverse(reqIds, index) && r in index
    ensures Inverse(reqIds[index[r] := None], index - {r})
    ensures forall q :: q in index && q != r ==> index[q] != index[r]
  {
    forall q | q in index && q != r ensures index[q] != index[r] {
      assert reqIds[index[q]] == Some(q);
    }
  }

  /** The sampling half of the batch as a value: tensors, row-keyed dictionaries and the lazily
      allocated allowlist mask. */
  datatype SamplingRows = SamplingRows(rows: seq<Sampling>, generators: map<nat, Generator>,
                                       badWords: map<nat, seq<seq<Token>>>, mask: Option<seq<set<Token>>>) {
    predicate Shaped(n: nat) {
      |rows| == n && (mask.Some? ==> |mask.value| == n)
    }

    function At(i: nat): Controls
      requires i < |rows| && Shaped(|rows|)
    {
      Controls(rows[i], if i in generators then Some(generators[i]) else None,
               if i in badWords then Some(badWords[i]) else None, if mask.Some? then mask.value[i] else {})
    }

    /** Nothing row-keyed is left over at row `i`. */
    predicate Quiet(i: nat) {
      i !in generators && i !in badWords
    }

    /** Every row but the two named keeps its controls. */
    ghost predicate Keeps(before: SamplingRows, i: nat, k: nat)
      requires Shaped(|rows|) && before.Shaped(|before.rows|)
    {
      && |rows| == |before.rows|
      && (forall j :: 0 <= j < |rows| && j != i && j != k ==> At(j) == before.At(j))
      && (forall j: nat :: j != i && j != k && before.Quiet(j) ==> Quiet(j))
    }
  }

  /** Token histories, lengths and block tables as a value. */
  datatype ColumnRows = ColumnRows(tokenIds: seq<seq<Token>>, numTokens: seq<nat>, numPrompt: seq<nat>, numComputed: seq<nat>,
                                   blockTable: seq<seq<seq<nat>>>) {
    ghost predicate Shaped(n: nat, width: nat) {
      && |tokenIds| == |numTokens| == |numPrompt| == |numComputed| == |blockTable| == n
      && forall i :: 0 <= i < n ==> |tokenIds[i]| == width && numTokens[i] <= width
    }

    ghost function At(i: nat): Columns
      requires i < |tokenIds| && i < |numTokens| && i < |numPrompt| && i < |numComputed| && i < |blockTable|
    {
      Columns(if numTokens[i] <= |tokenIds[i]| then tokenIds[i][..numTokens[i]] else [], numPrompt[i], numComputed[i], blockTable[i])
    }

    ghost predicate Keeps(before: ColumnRows, n: nat, width: nat, i: nat)
      requires Shaped(n, width) && before.Shaped(n, width)
    {
      forall j :: 0 <= j < n && j != i ==> At(j) == before.At(j)
    }
  }

  /** The whole batch as a value. */
  datatype Contents = Contents(reqIds: seq<Option<ReqId>>, outputs: seq<Option<ListRef>>, index: map<ReqId, nat>, fastPath: FastPath,
                               columns: ColumnRows, sampling: SamplingRows) {
    /** Nothing row-keyed or id-keyed outlives its row. Holes are allowed: they exist between a
        removal and `condense`. */
    ghost predicate Ok(n: nat, width: nat) {
      && columns.Shaped(n, width) && sampling.Shaped(n)
      && |reqIds| == |outputs| <= n && Addressable()
      && Inverse(reqIds, index) && fastPath.Ids() <= index.Keys
      && forall i: nat :: i >= |reqIds| || reqIds[i].None? ==> sampling.Quiet(i)
    }

    /** Every indexed row is a row of every column. */
    ghost predicate Addressable() {
      && |columns.tokenIds| == |columns.numTokens| == |columns.numPrompt| == |columns.numComputed| == |columns.blockTable|
      && |sampling.rows| == |columns.tokenIds| && sampling.Shaped(|sampling.rows|) && |outputs| <= |sampling.rows|
      && forall r :: r in index ==> index[r] < |outputs|
    }

    ghost function ViewOf(r: ReqId): RowView
      requires Addressable() && r in index
    {
      RowView(columns.At(index[r]), outputs[index[r]], sampling.At(index[r]), fastPath.Of(r))
    }

    /** What the batch holds, by request: every column and every dictionary entry of its row. */
    ghost function Views(): map<ReqId, RowView>
      requires Addressable()
    {
      map r | r in index :: ViewOf(r)
    }

    /** No holes: the live rows are exactly `[0, num_reqs)`. */
    ghost predicate Packed() {
      forall i :: 0 <= i < |reqIds| ==> reqIds[i].Some?
    }
  }

  /** `d` differs from `c` only by request `r` now living at row `at`. */
  ghost predicate Added(n: nat, width: nat, c: Contents, d: Contents, r: ReqId, at: nat, output: ListRef) {
    && c.Ok(n, width) && r !in c.index && at < n && at <= |c.reqIds| && (at < |c.reqIds| ==> c.reqIds[at].None?)
    && d.columns.Shaped(n, width) && d.sampling.Shaped(n)
    && d.columns.Keeps(c.columns, n, width, at) && d.sampling.Keeps(c.sampling, at, at)
    && d.index == c.index[r := at] && d.fastPath.Ids() <= c.fastPath.Ids() + {r}
    && (forall q :: q != r ==> d.fastPath.Of(q) == c.fastPath.Of(q))
    && d.reqIds == Entered(c.reqIds, at, r)
    && d.outputs == Entered(c.outputs, at, output)
  }

  lemma AddedOk(n: nat, width: nat, c: Contents, d: Contents, r: ReqId, at: nat, output: ListRef)
    requires Added(n, width, c, d, r, at, output)
    ensures d.Ok(n, width)
  {
    InverseAdd(c.reqIds, c.index, r, at);
  }

  lemma AddedView(n: nat, width: nat, c: Contents, d: Contents, r: ReqId, at: nat, output: ListRef, q: ReqId)
    requires Added(n, width, c, d, r, at, output) && d.Ok(n, width) && q in c.index
    ensures q in d.index && d.ViewOf(q) == c.ViewOf(q)
  {
    InverseAdd(c.reqIds, c.index, r, at);
    var i := c.index[q];
    assert i < n && i != at;
    assert d.columns.At(i) == c.columns.At(i) && d.sampling.At(i) == c.sampling.At(i);
  }

  lemma AddedOwnView(n: nat, width: nat, c: Contents, d: Contents, r: ReqId, at: nat, view: RowView)
    requires view.output.Some? && Added(n, width, c, d, r, at, view.output.value) && d.Ok(n, width)
    requires view == RowView(d.columns.At(at), view.output, d.sampling.At(at), d.fastPath.Of(r))
    ensures r in d.index && d.ViewOf(r) == view
  {
  }

  lemma SameMap<K, V>(a: map<K, V>, b: map<K, V>)
    requires a.Keys == b.Keys && forall k :: k in a ==> a[k] == b[k]
    ensures a == b
  {
  }

  /** One entry of the two maps below. */
  lemma AddedEntry(n: nat, width: nat, c: Contents, d: Contents, r: ReqId, at: nat, view: RowView, q: ReqId)
    requires view.output.Some? && Added(n, width, c, d, r, at, view.output.value) && d.Ok(n, width) && q in d.index
    requires view == RowView(d.columns.At(at), view.output, d.sampling.At(at), d.fastPath.Of(r))
    ensures d.ViewOf(q) == if q == r then view else c.ViewOf(q)
  {
    if q == r {
      AddedOwnView(n, width, c, d, r, at, view);
    } else {
      AddedView(n, width, c, d, r, at, view.output.value, q);
    }
  }

  lemma AddedEntries(n: nat, width: nat, c: Contents, d: Contents, r: ReqId, at: nat, view: RowView)
    requires view.output.Some? && Added(n, width, c, d, r, at, view.output.value) && d.Ok(n, width)
    requires view == RowView(d.columns.At(at), view.output, d.sampling.At(at), d.fastPath.Of(r))
    ensures d.index.Keys == c.index.Keys + {r} && c.Addressable()
    ensures forall q :: q in d.index ==> d.ViewOf(q) == if q == r then view else c.ViewOf(q)
  {
    forall q | q in d.index ensures d.ViewOf(q) == if q == r then view else c.ViewOf(q) {
      AddedEntry(n, width, c, d, r, at, view, q);
    }
  }

  lemma AddedViews(n: nat, width: nat, c: Contents, d: Contents, r: ReqId, at: nat, view: RowView)
    requires view.output.Some? && Added(n, width, c, d, r, at, view.output.value)
    requires view == RowView(d.columns.At(at), view.output, d.sampling.At(at), d.fastPath.Of(r))
    ensures d.Ok(n, width) && d.Views() == c.Views()[r := view]
  {
    AddedOk(n, width, c, d, r, at, view.output.value);
    OkAddressable(n, width, d);
    AddedEntries(n, width, c, d, r, at, view);
    ViewsWith(c, d, r, view);
  }

  lemma OkAddressable(n: nat, width: nat, c: Contents)
    requires c.Ok(n, width)
    ensures c.Addressable()
  {
  }

  lemma MapWith<K, V>(before: map<K, V>, after: map<K, V>, key: K, value: V)
    requires after.Keys == before.Keys + {key} && after[key] == value
    requires forall k :: k in before && k != key ==> after[k] == before[k]
    ensures after == before[key := value]
  {
  }

  lemma ViewsWith(c: Contents, d: Contents, r: ReqId, view: RowView)
    requires c.Addressable() && d.Addressable() && d.index.Keys == c.index.Keys + {r}
    requires forall q :: q in d.index ==> d.ViewOf(q) == if q == r then view else c.ViewOf(q)
    ensures d.Views() == c.Views()[r := view]
  {
    ViewsAre(c);
    ViewsAre(d);
    MapWith(c.Views(), d.Views(), r, view);
  }

  lemma ViewsAre(c: Contents)
    requires c.Addressable()
    ensures c.Views().Keys == c.index.Keys && forall q :: q in c.index ==> c.Views()[q] == c.ViewOf(q)
  {
  }

  /** `d` differs from `c` only by the row of `r` having become a hole. */
  ghost predicate Removed(n: nat, width: nat, c: Contents, d: Contents, r: ReqId) {
    && c.Ok(n, width) && r in c.index
    && d.columns == c.columns && d.sampling.Shaped(n) && d.sampling.Keeps(c.sampling, c.index[r], c.index[r])
    && d.sampling.Quiet(c.index[r]) && d.index == c.index - {r} && d.fastPath == c.fastPath.Drop(r)
    && d.reqIds == c.reqIds[c.index[r] := None] && d.outputs == c.outputs[c.index[r] := None]
  }

  lemma RemovedOk(n: nat, width: nat, c: Contents, d: Contents, r: ReqId)
    requires Removed(n, width, c, d, r)
    ensures d.Ok(n, width)
  {
    InverseRemove(c.reqIds, c.index, r);
  }

  lemma RemovedView(n: nat, width: nat, c: Contents, d: Contents, r: ReqId, q: ReqId)
    requires Removed(n, width, c, d, r) && d.Ok(n, width) && q in d.index
    ensures q in c.index && d.ViewOf(q) == c.ViewOf(q)
  {
    InverseRemove(c.reqIds, c.index, r);
    var i := c.index[q];
    assert i < n && i != c.index[r];
    assert d.sampling.At(i) == c.sampling.At(i);
  }

  lemma RemovedViews(n: nat, width: nat, c: Contents, d: Contents, r: ReqId)
    requires Removed(n, width, c, d, r)
    ensures d.Ok(n, width) && d.Views() == c.Views() - {r}
  {
    RemovedOk(n, width, c, d, r);
    var before, after := c.Views(), d.Views();
    forall q | q in after ensures after[q] == (before - {r})[q] {
      RemovedView(n, width, c, d, r, q);
    }
    SameMap(after, before - {r});
  }

  /** `d` differs from `c` only by the request at row `from` now living in the hole `to`. */
  ghost predicate Moved(n: nat, width: nat, c: Contents, d: Contents, r: ReqId, from: nat, to: nat) {
    && c.Ok(n, width) && to < from < |c.reqIds| && c.reqIds[from] == Some(r) && c.reqIds[to].None?
    && d.columns.Shaped(n, width) && d.sampling.Shaped(n)
    && d.columns.Keeps(c.columns, n, width, to) && d.columns.At(to) == c.columns.At(from)
    && d.sampling.Keeps(c.sampling, from, to) && d.sampling.At(to) == c.sampling.At(from) && d.sampling.Quiet(from)
    && d.index == c.index[r := to] && d.fastPath == c.fastPath
    && d.reqIds == c.reqIds[to := Some(r)][from := None]
    && d.outputs == c.outputs[to := c.outputs[from]][from := None]
  }

  lemma InverseMove(reqIds: seq<Option<ReqId>>, index: map<ReqId, nat>, r: ReqId, from: nat, to: nat)
    requires Inverse(reqIds, index) && to < from < |reqIds| && reqIds[from] == Some(r) && reqIds[to].None?
    ensures r in index && index[r] == from && Inverse(reqIds[to := Some(r)][from := None], index[r := to])
    ensures forall q :: q in index && q != r ==> index[q] != from && index[q] != to
  {
    forall q | q in index && q != r ensures index[q] != from && index[q] != to {
      assert reqIds[index[q]] == Some(q);
    }
  }

  lemma MovedOk(n: nat, width: nat, c: Contents, d: Contents, r: ReqId, from: nat, to: nat)
    requires Moved(n, width, c, d, r, from, to)
    ensures d.Ok(n, width)
  {
    InverseMove(c.reqIds, c.index, r, from, to);
  }

  lemma MovedView(n: nat, width: nat, c: Contents, d: Contents, r: ReqId, from: nat, to: nat, q: ReqId)
    requires Moved(n, width, c, d, r, from, to) && d.Ok(n, width) && q in c.index
    ensures q in d.index && d.ViewOf(q) == c.ViewOf(q)
  {
    InverseMove(c.reqIds, c.index, r, from, to);
    var i := c.index[q];
    assert i < n;
    if q != r {
      assert d.columns.At(i) == c.columns.At(i) && d.sampling.At(i) == c.sampling.At(i);
    }
  }

  lemma MovedViews(n: nat, width: nat, c: Contents, d: Contents, r: ReqId, from: nat, to: nat)
    requires Moved(n, width, c, d, r, from, to)
    ensures d.Ok(n, width) && d.Views() == c.Views()
  {
    MovedOk(n, width, c, d, r, from, to);
    InverseMove(c.reqIds, c.index, r, from, to);
    var before, after := c.Views(), d.Views();
    assert after.Keys == before.Keys;
    forall q | q in after ensures after[q] == before[q] {
      MovedView(n, width, c, d, r, from, to, q);
    }
    SameMap(after, before);
  }

  function AdvancedView(view: RowView, computed: nat, newBlocks: Option<seq<seq<nat>>>): RowView {
    view.(columns := view.columns.(numComputed := computed,
      blocks := if newBlocks.Some? then AppendBlocks(view.columns.blocks, newBlocks.value) else view.columns.blocks))
  }

  lemma AdvancedViews(n: nat, width: nat, c: Contents, d: Contents, r: ReqId, computed: nat, newBlocks: Option<seq<seq<nat>>>)
    requires c.Ok(n, width) && r in c.index
    requires var i, blocks := c.index[r], c.columns.blockTable;
             d == c.(columns := c.columns.(numComputed := c.columns.numComputed[i := computed],
                     blockTable := if newBlocks.Some? then blocks[i := AppendBlocks(blocks[i], newBlocks.value)] else blocks))
    ensures d.Ok(n, width)
    ensures d.Views() == c.Views()[r := AdvancedView(c.Views()[r], computed, newBlocks)]
  {
    forall q | q in d.index
      ensures d.ViewOf(q) == if q == r then AdvancedView(c.Views()[r], computed, newBlocks) else c.ViewOf(q)
    {
      assert q != r ==> c.reqIds[c.index[q]] == Some(q) && c.index[q] != c.index[r];
    }
    ViewsWith(c, d, r, AdvancedView(c.Views()[r], computed, newBlocks));
  }

  function WithTokens(view: RowView, tokens: seq<Token>): RowView {
    view.(columns := view.columns.(tokens := view.columns.tokens + tokens))
  }

  /** The part of a block that fits behind a row's history. */
  function Fit(width: nat, view: RowView, block: seq<Token>): (fit: seq<Token>)
    ensures fit <= block
  {
    block[..Min(|block|, Max(0, width - |view.columns.tokens|))]
  }

  lemma FitIs(width: nat, view: RowView, block: seq<Token>, k: nat)
    requires k <= |block| && k == Min(|view.columns.tokens| + |block|, width) - |view.columns.tokens|
    ensures Fit(width, view, block) == block[..k]
  {
  }

  lemma ExtendedViews(n: nat, width: nat, c: Contents, d: Contents, r: ReqId, fit: seq<Token>)
    requires c.Ok(n, width) && r in c.index && c.columns.numTokens[c.index[r]] + |fit| <= width
    requires var i, before := c.index[r], c.columns.numTokens[c.index[r]];
             d == c.(columns := c.columns.(
                     tokenIds := c.columns.tokenIds[i := c.columns.tokenIds[i][..before] + fit + c.columns.tokenIds[i][before + |fit|..]],
                     numTokens := c.columns.numTokens[i := before + |fit|]))
    ensures d.Ok(n, width)
    ensures d.Views() == c.Views()[r := WithTokens(c.Views()[r], fit)]
  {
    var i, before := c.index[r], c.columns.numTokens[c.index[r]];
    assert d.columns.tokenIds[i][..before + |fit|] == c.columns.tokenIds[i][..before] + fit;
    var target := c.Views()[r := WithTokens(c.Views()[r], fit)];
    forall q | q in d.Views() ensures d.Views()[q] == target[q] {
      assert q != r ==> c.reqIds[c.index[q]] == Some(q) && c.index[q] != c.index[r];
    }
    SameMap(d.Views(), target);
  }

  // ----- counting rows -----

  ghost function LiveRows(reqIds: seq<Option<ReqId>>): set<nat> {
    set i: nat | i < |reqIds| && reqIds[i].Some?
  }

  ghost function Rows(n: nat): (rows: set<nat>)
    ensures |rows| == n && forall i: nat :: i in rows <==> i < n
  {
    if n == 0 then {} else Rows(n - 1) + {n - 1}
  }

  ghost function Elements(s: seq<nat>): set<nat> {
    set e | e in s
  }

  /** `num_reqs` counts the live rows, holes or not. */
  lemma {:induction false} LiveCount(reqIds: seq<Option<ReqId>>, index: map<ReqId, nat>)
    requires Inverse(reqIds, index)
    ensures |index| == |LiveRows(reqIds)|
    decreases |index.Keys|
  {
    if index != map[] {
      var r :| r in index;
      InverseRemove(reqIds, index, r);
      LiveCount(reqIds[index[r] := None], index - {r});
      assert (index - {r}).Keys == index.Keys - {r};
      assert LiveRows(reqIds[index[r] := None]) == LiveRows(reqIds) - {index[r]};
    }
  }

  /** Strictly descending row numbers, as `_update_states` sorts the rows it freed. */
  ghost predicate Descending(rows: seq<nat>) {
    forall i, j :: 0 <= i < j < |rows| ==> rows[i] > rows[j]
  }

  /** `empties` lists exactly the holes. */
  ghost predicate ListsHoles(reqIds: seq<Option<ReqId>>, empties: seq<nat>) {
    && (forall e :: e in empties ==> e < |reqIds| && reqIds[e].None?)
    && (forall i :: 0 <= i < |reqIds| && reqIds[i].None? ==> i in empties)
  }

  lemma {:induction false} DescendingSize(rows: seq<nat>)
    requires Descending(rows)
    ensures |Elements(rows)| == |rows|
  {
    if rows != [] {
      var k := |rows| - 1;
      DescendingSize(rows[..k]);
      assert rows == rows[..k] + [rows[k]];
      assert Elements(rows) == Elements(rows[..k]) + {rows[k]};
    }
  }

  lemma HoleCount(reqIds: seq<Option<ReqId>>, index: map<ReqId, nat>, empties: seq<nat>)
    requires Inverse(reqIds, index) && Descending(empties) && ListsHoles(reqIds, empties)
    ensures |index| + |empties| == |reqIds|
  {
    LiveCount(reqIds, index);
    DescendingSize(empties);
    assert LiveRows(reqIds) + Elements(empties) == Rows(|reqIds|) && LiveRows(reqIds) !! Elements(empties);
  }

  /** When the live rows are exactly the first `k`, there are `k` requests. */
  lemma PrefixCount(reqIds: seq<Option<ReqId>>, index: map<ReqId, nat>, k: nat)
    requires Inverse(reqIds, index) && k <= |reqIds|
    requires forall i :: 0 <= i < |reqIds| ==> (reqIds[i].Some? <==> i < k)
    ensures |index| == k
  {
    LiveCount(reqIds, index);
    assert LiveRows(reqIds) == Rows(k);
  }

  lemma TrimmedOk(n: nat, width: nat, c: Contents, k: nat)
    requires c.Ok(n, width) && k <= |c.reqIds| && forall i :: 0 <= i < |c.reqIds| ==> (c.reqIds[i].Some? <==> i < k)
    ensures var d := c.(reqIds := c.reqIds[..k], outputs := c.outputs[..k]);
            d.Ok(n, width) && d.Packed() && d.Views() == c.Views()
  {
    var d := c.(reqIds := c.reqIds[..k], outputs := c.outputs[..k]);
    assert forall q :: q in c.index ==> c.reqIds[c.index[q]] == Some(q);
    SameMap(d.Views(), c.Views());
  }

  /** `SamplingInputBatch`: per-row sampling state. */
  class SamplingBatch {
    const maxReqs: nat
    const vocab: nat
    const disableLogprobs: bool
    const rows: array<Sampling>
    var generators: map<nat, Generator>
    var badWords: map<nat, seq<seq<Token>>>
    var mask: Option<seq<set<Token>>>

    ghost function Model(): SamplingRows
      reads this, rows
    {
      SamplingRows(rows[..], generators, badWords, mask)
    }

    ghost predicate Valid()
      reads this, rows
    {
      Model().Shaped(maxReqs)
    }

    constructor (maxReqs: nat, vocab: nat, disableLogprobs: bool)
      ensures Valid() && fresh(rows) && forall i: nat :: Model().Quiet(i)
      ensures this.maxReqs == maxReqs && this.vocab == vocab && this.disableLogprobs == disableLogprobs
    {
      this.maxReqs, this.vocab, this.disableLogprobs := maxReqs, vocab, disableLogprobs;
      generators, badWords, mask := map[], map[], None;
      rows := new Sampling[maxReqs](_ => Sampling(0.0, 1.0, 1, 0.0, 0.0, 1.0, SEED_NONE_SENTINEL, LOGPROBS_NONE_SENTINEL));
    }

    method WriteTensors(i: nat, p: Params)
      requires rows.Length == maxReqs && i < maxReqs
      modifies rows
      ensures rows[..] == old(rows[..])[i := FreshSampling(p, vocab, disableLogprobs)]
    {
      var row := rows[i].(temperature := p.temperature);
      var topP, topK := p.topP, p.topK;
      if !(0 < topK < vocab) { topK := vocab; }
      if topK == 1 { topP := 0.0; }
      row := row.(topP := topP, topK := topK);
      row := row.(presence := p.presence, frequency := p.frequency, repetition := p.repetition);
      row := row.(seed := if p.seed.Some? then p.seed.value else SEED_NONE_SENTINEL);
      if disableLogprobs || p.logprobs.None? {
        row := row.(numLogprobs := LOGPROBS_NONE_SENTINEL);
      } else {
        row := row.(numLogprobs := if p.logprobs.value == -1 then vocab else p.logprobs.value);
      }
      rows[i] := row;
    }

    method Write(i: nat, p: Params, generator: Option<Generator>)
      requires Valid() && i < maxReqs && Model().Quiet(i)
      modifies this, rows
      ensures Valid() && Model().At(i) == FreshControls(p, generator, vocab, disableLogprobs)
      ensures Model().Keeps(old(Model()), i, i)
    {
      ghost var before := Model();
      WriteTensors(i, p);
      if generator.Some? { generators := generators[i := generator.value]; }
      if p.allowed != [] {
        var bits := if mask.None? then seq(maxReqs, _ => {}) else mask.value;
        mask := Some(bits[i := Disallowed(vocab, p.allowed)]);
      } else if mask.Some? {
        // The row may still hold the bits of a request that `condense` moved away.
        mask := Some(mask.value[i := {}]);
      }
      if p.badWords != [] { badWords := badWords[i := p.badWords]; }
      WrittenControls(maxReqs, before, Model(), i, p, generator, vocab, disableLogprobs);
    }

    method Clear(i: nat)
      requires Valid() && i < maxReqs
      modifies this
      ensures Valid() && Model().Quiet(i) && Model().Keeps(old(Model()), i, i)
    {
      ghost var before := Model();
      generators := generators - {i};
      badWords := badWords - {i};
      if mask.Some? { mask := Some(mask.value[i := {}]); }
      assert forall j :: 0 <= j < maxReqs && j != i ==> Model().At(j) == before.At(j);
    }

    /** The sampling half of one `condense` move. */
    method Move(from: nat, to: nat)
      requires Valid() && from < maxReqs && to < maxReqs && from != to && Model().Quiet(to)
      modifies this, rows
      ensures Valid() && Model().Quiet(from) && Model().At(to) == old(Model().At(from))
      ensures Model().Keeps(old(Model()), from, to)
    {
      ghost var before := Model();
      var row := rows[to].(temperature := rows[from].temperature);
      row := row.(topP := rows[from].topP);
      row := row.(topK := rows[from].topK);
      row := row.(presence := rows[from].presence);
      row := row.(frequency := rows[from].frequency);
      row := row.(repetition := rows[from].repetition);
      row := row.(seed := rows[from].seed);
      rows[to] := row.(numLogprobs := rows[from].numLogprobs);
      if from in generators {
        var generator := generators[from];
        generators := (generators - {from})[to := generator];
      }
      if from in badWords {
        var words := badWords[from];
        badWords := (badWords - {from})[to := words];
      }
      if mask.Some? { mask := Some(mask.value[to := mask.value[from]]); }
      assert rows[..] == before.rows[to := before.rows[from]];
      MovedControls(maxReqs, before, Model(), from, to);
    }
  }

  /** What a row's write leaves behind, whether or not the mask had to be allocated for it. */
  lemma WrittenControls(n: nat, c: SamplingRows, d: SamplingRows, i: nat, p: Params, generator: Option<Generator>, vocab: nat,
                        disableLogprobs: bool)
    requires c.Shaped(n) && i < n && c.Quiet(i)
    requires d.rows == c.rows[i := FreshSampling(p, vocab, disableLogprobs)]
    requires d.generators == if generator.Some? then c.generators[i := generator.value] else c.generators
    requires d.badWords == if p.badWords != [] then c.badWords[i := p.badWords] else c.badWords
    requires d.mask == if p.allowed != [] then
                         Some((if c.mask.None? then seq(n, _ => {}) else c.mask.value)[i := Disallowed(vocab, p.allowed)])
                       else if c.mask.Some? then Some(c.mask.value[i := {}]) else None
    ensures d.Shaped(n) && d.At(i) == FreshControls(p, generator, vocab, disableLogprobs) && d.Keeps(c, i, i)
  {
  }

  lemma MovedControls(n: nat, c: SamplingRows, d: SamplingRows, from: nat, to: nat)
    requires c.Shaped(n) && from < n && to < n && from != to && c.Quiet(to)
    requires d.rows == c.rows[to := c.rows[from]]
    requires d.generators == if from in c.generators then (c.generators - {from})[to := c.generators[from]] else c.generators
    requires d.badWords == if from in c.badWords then (c.badWords - {from})[to := c.badWords[from]] else c.badWords
    requires d.mask == if c.mask.Some? then Some(c.mask.value[to := c.mask.value[from]]) else None
    ensures d.Shaped(n) && d.Quiet(from) && d.At(to) == c.At(from) && d.Keeps(c, from, to)
  {
  }

  class Batch {
    const maxReqs: nat
    const maxModelLen: nat

    var reqIds: seq<Option<ReqId>>
    var outputs: seq<Option<ListRef>>
    var index: map<ReqId, nat>
    var fastPath: FastPath

    /** What the batch holds, by request; `Valid` ties it to the columns and dictionaries. */
    ghost var views: map<ReqId, RowView>

    const tokenIds: array<seq<Token>>
    const numTokens: array<nat>
    const numPrompt: array<nat>
    const numComputed: array<nat>
    const blockTable: array<seq<seq<nat>>>
    const sampling: SamplingBatch

    ghost function Columns(): ColumnRows
      reads tokenIds, numTokens, numPrompt, numComputed, blockTable
    {
      ColumnRows(tokenIds[..], numTokens[..], numPrompt[..], numComputed[..], blockTable[..])
    }

    ghost function Model(): Contents
      reads this`reqIds, this`outputs, this`index, this`fastPath
      reads tokenIds, numTokens, numPrompt, numComputed, blockTable, sampling, sampling.rows
    {
      Contents(reqIds, outputs, index, fastPath, Columns(), sampling.Model())
    }

    /** Every object whose state the batch owns. */
    ghost function Repr(): set<object> {
      {this, tokenIds, numTokens, numPrompt, numComputed, blockTable, sampling, sampling.rows}
    }

    ghost predicate Separate() {
      && tokenIds.Length == numTokens.Length == numPrompt.Length == numComputed.Length == blockTable.Length == maxReqs
      && numTokens != numPrompt && numTokens != numComputed && numPrompt != numComputed
      && sampling.maxReqs == sampling.rows.Length == maxReqs
    }

    ghost predicate Valid()
      reads Repr()
    {
      Separate() && Model().Ok(maxReqs, maxModelLen) && views == Model().Views()
    }

    constructor (maxReqs: nat, maxModelLen: nat, vocab: nat, disableLogprobs: bool)
      ensures Valid() && views == map[] && Model().Packed() && reqIds == []
      ensures this.maxReqs == maxReqs && this.maxModelLen == maxModelLen
      ensures sampling.vocab == vocab && sampling.disableLogprobs == disableLogprobs
    {
      this.maxReqs, this.maxModelLen := maxReqs, maxModelLen;
      reqIds, outputs, index, views := [], [], map[], map[];
      fastPath := FastPath({}, {}, {}, {}, {});
      tokenIds := new seq<Token>[maxReqs](_ => seq(maxModelLen, _ => 0));
      numTokens := new nat[maxReqs](_ => 0);
      numPrompt := new nat[maxReqs](_ => 0);
      numComputed := new nat[maxReqs](_ => 0);
      blockTable := new seq<seq<nat>>[maxReqs](_ => []);
      sampling := new SamplingBatch(maxReqs, vocab, disableLogprobs);
      new;
      assert Separate() && Columns().Shaped(maxReqs, maxModelLen);
      assert Model().Ok(maxReqs, maxModelLen);
    }

    lemma Settled()
      requires Separate() && Model().Ok(maxReqs, maxModelLen) && views == Model().Views()
      ensures Valid()
    {
    }

    lemma RowsFit()
      requires Valid()
      ensures Inverse(reqIds, index) && |reqIds| <= maxReqs
    {
    }

    lemma ViewsKeys()
      requires Valid()
      ensures views.Keys == index.Keys
    {
    }

    /** Copies prompt and output ids into the row and sets its counters. */
    method WriteColumns(i: nat, request: Request, output: seq<Token>)
      requires Separate() && Columns().Shaped(maxReqs, maxModelLen) && i < maxReqs
      requires |request.prompt| + |output| <= maxModelLen
      modifies tokenIds, numTokens, numPrompt, numComputed, blockTable
      ensures Columns().Shaped(maxReqs, maxModelLen) && Columns().At(i) == FreshColumns(request, output)
      ensures Columns().Keeps(old(Columns()), maxReqs, maxModelLen, i)
    {
      ghost var before := Columns();
      var n := |request.prompt|;
      var end := n + |output|;
      numPrompt[i] := n;
      tokenIds[i] := request.prompt + tokenIds[i][n..];
      tokenIds[i] := tokenIds[i][..n] + output + tokenIds[i][end..];
      numTokens[i] := end;
      numComputed[i] := request.numComputed;
      blockTable[i] := request.blocks;
      assert tokenIds[i][..end] == request.prompt + output;
      assert forall j :: 0 <= j < maxReqs && j != i ==> Columns().At(j) == before.At(j);
    }

    /** The column half of one `condense` move: only the live prefix of the token row is copied. */
    method MoveColumns(from: nat, to: nat)
      requires Separate() && Columns().Shaped(maxReqs, maxModelLen) && from < maxReqs && to < maxReqs && from != to
      modifies tokenIds, numTokens, numPrompt, numComputed, blockTable
      ensures Columns().Shaped(maxReqs, maxModelLen) && Columns().At(to) == old(Columns().At(from))
      ensures Columns().Keeps(old(Columns()), maxReqs, maxModelLen, to)
    {
      ghost var before := Columns();
      var n := numTokens[from];
      tokenIds[to] := tokenIds[from][..n] + tokenIds[to][n..];
      numTokens[to] := n;
      numPrompt[to] := numPrompt[from];
      numComputed[to] := numComputed[from];
      blockTable[to] := blockTable[from];
      assert tokenIds[to][..n] == before.tokenIds[from][..n];
      assert forall j :: 0 <= j < maxReqs && j != to ==> Columns().At(j) == before.At(j);
    }

    /** `add_request`: fills a hole, or appends when `at` is the end of the rows. */
    method AddRequest(r: ReqId, request: Request, output: seq<Token>, at: nat)
      requires Valid() && r !in index && at < maxReqs
      requires at <= |reqIds| && (at < |reqIds| ==> reqIds[at].None?)
      requires |request.prompt| + |output| <= maxModelLen
      modifies Repr()
      ensures Valid() && index == old(index)[r := at]
      ensures reqIds == Entered(old(reqIds), at, r)
      ensures views == old(views)[r := FreshView(request, output, sampling.vocab, sampling.disableLogprobs)]
    {
      ghost var before := Model();
      ghost var view := FreshView(request, output, sampling.vocab, sampling.disableLogprobs);
      WriteRow(r, request, output, at);
      AddedViews(maxReqs, maxModelLen, before, Model(), r, at, view);
      views := views[r := view];
      Settled();
    }

    /** Every list, column and dictionary of a new row. */
    method WriteRow(r: ReqId, request: Request, output: seq<Token>, at: nat)
      requires Valid() && r !in index && at < maxReqs
      requires at <= |reqIds| && (at < |reqIds| ==> reqIds[at].None?)
      requires |request.prompt| + |output| <= maxModelLen
      modifies Repr()
      ensures Separate() && views == old(views)
      ensures Added(maxReqs, maxModelLen, old(Model()), Model(), r, at, request.output)
      ensures FreshView(request, output, sampling.vocab, sampling.disableLogprobs)
              == RowView(Columns().At(at), Some(request.output), sampling.Model().At(at), fastPath.Of(r))
    {
      EnterRow(r, request, at);
      WriteColumns(at, request, output);
      sampling.Write(at, request.params, request.generator);
    }

    /** The identity half of `add_request`: row lists, index and the batch-wide sets. */
    method EnterRow(r: ReqId, request: Request, at: nat)
      requires at <= |reqIds| == |outputs| && r !in fastPath.allowlisted
      modifies this`reqIds, this`outputs, this`index, this`fastPath
      ensures reqIds == Entered(old(reqIds), at, r)
      ensures outputs == Entered(old(outputs), at, request.output)
      ensures index == old(index)[r := at] && fastPath == old(fastPath).Track(r, request.params)
    {
      if at == |reqIds| {
        reqIds, outputs := reqIds + [Some(r)], outputs + [Some(request.output)];
      } else {
        reqIds, outputs := reqIds[at := Some(r)], outputs[at := Some(request.output)];
      }
      index := index[r := at];
      fastPath := fastPath.Track(r, request.params);
    }

    /** `remove_request`: the row becomes a hole; None when the request holds no row. */
    method RemoveRequest(r: ReqId) returns (row: Option<nat>)
      requires Valid()
      modifies this, sampling
      ensures Valid() && index == old(index) - {r} && views == old(views) - {r}
      ensures row == if r in old(index) then Some(old(index)[r]) else None
      ensures reqIds == if row.Some? then old(reqIds)[row.value := None] else old(reqIds)
    {
      if r in index {
        row := Some(index[r]);
        FreeRow(r, index[r]);
      } else {
        assert index - {r} == index && views - {r} == views;
        row := None;
      }
    }

    method FreeRow(r: ReqId, i: nat)
      requires Valid() && r in index && index[r] == i
      modifies this, sampling
      ensures Valid() && index == old(index) - {r} && views == old(views) - {r} && reqIds == old(reqIds)[i := None]
    {
      ghost var before := Model();
      DropEntry(r, i);
      sampling.Clear(i);
      RemovedViews(maxReqs, maxModelLen, before, Model(), r);
    }

    /** The identity half of `remove_request`. */
    method DropEntry(r: ReqId, i: nat)
      requires i < |reqIds| == |outputs|
      modifies this
      ensures index == old(index) - {r} && reqIds == old(reqIds)[i := None] && outputs == old(outputs)[i := None]
      ensures fastPath == old(fastPath).Drop(r) && views == old(views) - {r}
    {
      index := index - {r};
      reqIds, outputs := reqIds[i := None], outputs[i := None];
      fastPath := fastPath.Drop(r);
      views := views - {r};
    }

    /** A kept request's row takes the scheduler's counters and its newly allocated blocks. */
    method UpdateRow(r: ReqId, computed: nat, newBlocks: Option<seq<seq<nat>>>)
      requires Valid() && r in index
      modifies this`views, numComputed, blockTable
      ensures Valid() && views == old(views)[r := AdvancedView(old(views)[r], computed, newBlocks)]
    {
      ghost var before := Model();
      AdvanceColumns(index[r], computed, newBlocks);
      AdvancedViews(maxReqs, maxModelLen, before, Model(), r, computed, newBlocks);
      views := views[r := AdvancedView(views[r], computed, newBlocks)];
      Settled();
    }

    method AdvanceColumns(i: nat, computed: nat, newBlocks: Option<seq<seq<nat>>>)
      requires Separate() && i < maxReqs
      modifies numComputed, blockTable
      ensures Columns() == old(Columns()).(numComputed := old(Columns()).numComputed[i := computed],
                blockTable := if newBlocks.Some? then old(blockTable[..])[i := AppendBlocks(old(blockTable[i]), newBlocks.value)]
                              else old(blockTable[..]))
    {
      numComputed[i] := computed;
      if newBlocks.Some? { blockTable[i] := AppendBlocks(blockTable[i], newBlocks.value); }
    }

    /** A request's history length is its row's token count. */
    lemma RowLength(r: ReqId)
      requires Valid() && r in index
      ensures index[r] < numTokens.Length && r in views && numTokens[index[r]] == |views[r].columns.tokens| <= maxModelLen
    {
      assert Columns().Shaped(maxReqs, maxModelLen);
    }

    /** Writes the part of a block that fits behind the request's history. */
    method AppendTokens(r: ReqId, block: seq<Token>) returns (fit: seq<Token>)
      requires Valid() && r in index
      modifies this`views, tokenIds, numTokens
      ensures Valid() && r in old(views) && views == old(views)[r := WithTokens(old(views)[r], fit)]
      ensures fit == Fit(maxModelLen, old(views)[r], block)
    {
      RowLength(r);
      var i := index[r];
      var start := numTokens[i];
      var end := Min(start + |block|, maxModelLen);
      fit := block[..end - start];
      FitIs(maxModelLen, views[r], block, end - start);
      WriteTokens(r, i, start, fit);
    }

    method WriteTokens(ghost r: ReqId, i: nat, start: nat, fit: seq<Token>)
      requires Valid() && r in index && index[r] == i && i < numTokens.Length && numTokens[i] == start && start + |fit| <= maxModelLen
      modifies this`views, tokenIds, numTokens
      ensures Valid() && r in old(views) && views == old(views)[r := WithTokens(old(views)[r], fit)]
    {
      ghost var before := Model();
      assert Columns().Shaped(maxReqs, maxModelLen);
      tokenIds[i] := tokenIds[i][..start] + fit + tokenIds[i][start + |fit|..];
      numTokens[i] := start + |fit|;
      ExtendedViews(maxReqs, maxModelLen, before, Model(), r, fit);
      views := views[r := WithTokens(views[r], fit)];
      Settled();
    }

    /** Moves the request at row `from` into the hole `to`, every column and dictionary entry with it. */
    method MoveRow(from: nat, to: nat)
      requires Valid() && to < from < |reqIds| && reqIds[from].Some? && reqIds[to].None?
      modifies Repr()
      ensures Valid() && views == old(views)
      ensures index == old(index)[old(reqIds)[from].value := to]
      ensures reqIds == old(reqIds)[to := old(reqIds)[from]][from := None]
    {
      ghost var before := Model();
      ghost var r := reqIds[from].value;
      CopyRow(from, to);
      MovedViews(maxReqs, maxModelLen, before, Model(), r, from, to);
      Settled();
    }

    /** Every list, column and dictionary of a moved row. */
    method CopyRow(from: nat, to: nat)
      requires Valid() && to < from < |reqIds| && reqIds[from].Some? && reqIds[to].None?
      modifies Repr()
      ensures Separate() && views == old(views)
      ensures Moved(maxReqs, maxModelLen, old(Model()), Model(), old(reqIds)[from].value, from, to)
    {
      MoveEntry(reqIds[from].value, from, to);
      MoveColumns(from, to);
      sampling.Move(from, to);
    }

    /** The identity half of one `condense` move. */
    method MoveEntry(r: ReqId, from: nat, to: nat)
      requires to < from < |reqIds| == |outputs| && reqIds[from] == Some(r)
      modifies this`reqIds, this`outputs, this`index
      ensures reqIds == old(reqIds)[to := Some(r)][from := None]
      ensures outputs == old(outputs)[to := old(outputs)[from]][from := None] && index == old(index)[r := to]
    {
      var output := outputs[from];
      reqIds := reqIds[to := Some(r)][from := None];
      outputs := outputs[to := output][from := None];
      index := index[r := to];
    }

    /** `condense`: the highest live row moves into the lowest hole until no hole is left below a live
        row, then the row lists are cut to the request count. */
    method Condense(empties: seq<nat>)
      requires Valid() && Descending(empties) && ListsHoles(reqIds, empties)
      modifies Repr()
      ensures Valid() && Model().Packed() && views == old(views)
      ensures index.Keys == old(index).Keys && |reqIds| == |index|
      ensures forall r :: r in index && old(index)[r] < |index| ==> index[r] == old(index)[r]
    {
      HoleCount(reqIds, index, empties);
      if |index| == 0 {
        PrefixOfNone(reqIds, index);
        TrimmedOk(maxReqs, maxModelLen, Model(), 0);
        assert reqIds[..0] == [] && outputs[..0] == [];
        reqIds, outputs := [], [];
        return;
      }
      ghost var start := index;
      var left: seq<nat> := empties;
      var last := |index| + |left| - 1;
      var more := true;
      while more && left != []
        invariant Valid() && views == old(views) && index.Keys == start.Keys
        invariant Condensing(reqIds, index, start, if more then left else [], last)
        decreases |left|, more
      {
        left, last, more := FillLowestHole(start, left, last);
      }
      Trim(start, last + 1);
    }

    /** The largest live row at or below `top`. */
    static method SkipHoles(ghost reqIds: seq<Option<ReqId>>, ghost index: map<ReqId, nat>, ghost start: map<ReqId, nat>,
                            left: seq<nat>, top: int)
      returns (last: int)
      requires Condensing(reqIds, index, start, left, top)
      ensures Condensing(reqIds, index, start, left, last) && last !in left
    {
      last := top;
      while last in left
        invariant Condensing(reqIds, index, start, left, last)
        decreases last
      {
        last := last - 1;
      }
    }

    /** One pass of the loop in `condense`; `more` is false when the lowest hole lies above every live row. */
    method FillLowestHole(ghost start: map<ReqId, nat>, empties: seq<nat>, top: int)
      returns (left: seq<nat>, last: int, more: bool)
      requires Valid() && empties != [] && Condensing(reqIds, index, start, empties, top)
      modifies Repr()
      ensures Valid() && views == old(views)
      ensures |left| == |empties| - 1
      ensures more ==> Condensing(reqIds, index, start, left, last)
      ensures !more ==> Condensing(reqIds, index, start, [], last)
    {
      last := SkipHoles(reqIds, index, start, empties, top);
      left := empties[..|empties| - 1];
      var hole := empties[|empties| - 1];
      if hole >= last {
        CondensingHole(reqIds, index, start, empties, last);
        return left, last, false;
      }
      assert left + [hole] == empties;
      FillHole(start, left, hole, last);
      return left, last - 1, true;
    }

    method FillHole(ghost start: map<ReqId, nat>, ghost left: seq<nat>, hole: nat, last: nat)
      requires Valid() && Condensing(reqIds, index, start, left + [hole], last) && last !in left + [hole] && hole < last
      modifies Repr()
      ensures Valid() && views == old(views) && Condensing(reqIds, index, start, left, last - 1)
    {
      CondensingStep(reqIds, index, start, left, hole, last);
      MoveRow(last, hole);
    }

    /** `del self._req_ids[self.num_reqs:]`, once the live rows are a prefix. */
    method Trim(ghost start: map<ReqId, nat>, ghost live: nat)
      requires Valid() && Condensing(reqIds, index, start, [], live - 1)
      modifies this
      ensures Valid() && Model().Packed() && views == old(views)
      ensures index == old(index) && |reqIds| == |index|
      ensures forall r :: r in index && start[r] < |index| ==> index[r] == start[r]
    {
      PrefixCount(reqIds, index, live);
      TrimmedOk(maxReqs, maxModelLen, Model(), |index|);
      reqIds, outputs := reqIds[..|index|], outputs[..|index|];
    }
  }

  /** The state of `condense`: every row above `last` is a hole, and below it the holes are `left`. */
  ghost predicate Condensing(reqIds: seq<Option<ReqId>>, index: map<ReqId, nat>, start: map<ReqId, nat>, left: seq<nat>, last: int) {
    && index.Keys == start.Keys && -1 <= last < |reqIds| && Descending(left)
    && (forall i :: 0 <= i < |reqIds| ==> (reqIds[i].Some? <==> i <= last && i !in left))
    && (forall e :: e in left ==> e < |reqIds|)
    && (forall r :: r in index ==> index[r] == start[r] || start[r] > last)
  }

  lemma PrefixOfNone(reqIds: seq<Option<ReqId>>, index: map<ReqId, nat>)
    requires Inverse(reqIds, index) && |index| == 0
    ensures forall i :: 0 <= i < |reqIds| ==> reqIds[i].None?
  {
  }

  /** The last listed hole is the lowest. At or above `last`, every remaining hole is too, so the live
      rows are already a prefix. */
  lemma CondensingHole(reqIds: seq<Option<ReqId>>, index: map<ReqId, nat>, start: map<ReqId, nat>, left: seq<nat>, last: int)
    requires Condensing(reqIds, index, start, left, last) && left != [] && last !in left
    ensures left[|left| - 1] >= last ==> Condensing(reqIds, index, start, [], last)
  {
    var hole := left[|left| - 1];
    assert forall e :: e in left ==> e >= hole;
    assert hole in left;
  }

  lemma CondensingStep(reqIds: seq<Option<ReqId>>, index: map<ReqId, nat>, start: map<ReqId, nat>, left: seq<nat>, hole: nat, last: nat)
    requires Inverse(reqIds, index) && Condensing(reqIds, index, start, left + [hole], last)
    requires last !in left + [hole] && hole < last
    ensures reqIds[last].Some? && reqIds[hole].None?
    ensures Condensing(reqIds[hole := reqIds[last]][last := None], index[reqIds[last].value := hole], start, left, last - 1)
  {
    var all := left + [hole];
    assert forall e :: e in all <==> e in left || e == hole;
    assert all[..|left|] == left;
    assert forall i :: 0 <= i < |left| ==> all[i] == left[i];
    assert all[|left|] == hole;
    assert reqIds[last].Some?;
    InverseMove(reqIds, index, reqIds[last].value, last, hole);
  }
}
