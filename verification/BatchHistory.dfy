/**
 Histories over whole runs: scheduler outputs and applied tokens alternate, and after each of them
 every row of the persistent batch is the rebuild of its request, prompt and output list included.
 */
module BatchHistory {
  import opened Runtime
  import opened PersistentBatch
  import opened RequestStates

  // ----- applying tokens -----

  /** The part of a block that still fits the row; a request without a row takes the whole block. */
  function Fitting(shape: Shape, h: Host, r: ReqId, block: seq<Token>): (fit: seq<Token>)
    ensures fit <= block
  {
    if r in h.views then Fit(shape.maxModelLen, h.views[r], block) else block
  }

  /** One request's tokens: written behind its row's history, and put on its output list once. */
  function ExtendOne(shape: Shape, h: Host, r: ReqId, block: seq<Token>): Host
    requires r in h.requests && h.requests[r].output in h.lists
  {
    var fit, output := Fitting(shape, h, r, block), h.requests[r].output;
    h.(lists := h.lists[output := h.lists[output] + fit],
       views := if r in h.views then h.views[r := WithTokens(h.views[r], fit)] else h.views)
  }

  ghost predicate Held(h: Host, rows: seq<ReqId>, skip: set<ReqId>) {
    forall r :: r in rows && r !in skip ==> r in h.requests && h.requests[r].output in h.lists
  }

  /** One step's blocks, row by row; a skipped frame was already accounted for by a forced reset. */
  function ExtendAll(shape: Shape, h: Host, rows: seq<ReqId>, blocks: seq<seq<Token>>, skip: set<ReqId>): (after: Host)
    requires |rows| == |blocks| && Held(h, rows, skip)
    ensures after.requests == h.requests && after.lists.Keys == h.lists.Keys && after.views.Keys == h.views.Keys
  {
    if rows == [] then h
    else
      var n := |rows| - 1;
      var before := ExtendAll(shape, h, rows[..n], blocks[..n], skip);
      if rows[n] in skip then before else ExtendOne(shape, before, rows[n], blocks[n])
  }

  predicate Overflows(shape: Shape, h: Host, r: ReqId) {
    r in h.views && |h.views[r].columns.tokens| + 1 > shape.maxModelLen
  }

  /** `_apply_sampled_tokens_to_state`: one-token frames are all checked before any is written, wider
      ones are clipped. None is the overflow error. */
  function ApplyFrame(shape: Shape, h: Host, rows: seq<ReqId>, blocks: seq<seq<Token>>, skip: set<ReqId>, width: nat): Option<Host>
    requires |rows| == |blocks| && Held(h, rows, skip)
  {
    if width == 1 && exists r :: r in rows && r !in skip && Overflows(shape, h, r) then None
    else Some(ExtendAll(shape, h, rows, blocks, skip))
  }

  /** An extension keeps every row matching its rebuild, its block table untouched; it keeps the length bound unless the request
      holds no row and its block does not fit. */
  lemma ExtendKeeps(shape: Shape, h: Host, r: ReqId, block: seq<Token>)
    requires HostOk(shape, h) && Matching(shape, h) && r in h.requests
    ensures h.requests[r].output in h.lists
    ensures var after := ExtendOne(shape, h, r, block);
            && Matching(shape, after) && SameBlocks(h, after)
            && (HostOk(shape, after) <==>
                  r in h.views || |h.requests[r].prompt| + |h.lists[h.requests[r].output]| + |block| <= shape.maxModelLen)
  {
    assert Placeable(h.requests, h.lists, shape.maxModelLen, r);
    var after := ExtendOne(shape, h, r, block);
    forall q | q in h.requests
      ensures h.requests[q].output in after.lists
      ensures q != r ==> after.lists[h.requests[q].output] == h.lists[h.requests[q].output]
    {
      assert Placeable(h.requests, h.lists, shape.maxModelLen, q);
    }
    if r in h.views {
      assert Matches(shape, h, r);
      ExtendedRebuild(h.requests[r], h.lists[h.requests[r].output], shape.vocab, shape.disableLogprobs, Fitting(shape, h, r, block));
    }
    forall q | q in after.views ensures Matches(shape, after, q) {
      assert Matches(shape, h, q);
    }
    forall q | q in after.requests && (q == r ==> r in h.views || |h.requests[r].prompt| + |h.lists[h.requests[r].output]| + |block| <= shape.maxModelLen)
      ensures Placeable(after.requests, after.lists, shape.maxModelLen, q)
    {
      assert Placeable(h.requests, h.lists, shape.maxModelLen, q);
    }
    if HostOk(shape, after) {
      assert Placeable(after.requests, after.lists, shape.maxModelLen, r);
    }
  }

  /** Rows and requests keep their block ids. */
  ghost predicate SameBlocks(h: Host, after: Host) {
    && after.requests == h.requests && after.views.Keys == h.views.Keys
    && forall r :: r in h.views ==> after.views[r].columns.blocks == h.views[r].columns.blocks
  }

  lemma ExtendedRebuild(request: Request, output: seq<Token>, vocab: nat, disableLogprobs: bool, fit: seq<Token>)
    ensures WithTokens(FreshView(request, output, vocab, disableLogprobs), fit) == FreshView(request, output + fit, vocab, disableLogprobs)
  {
    assert request.prompt + output + fit == request.prompt + (output + fit);
  }

  /** What a request's length must leave room for when it holds no row: that branch applies no cap. */
  ghost predicate RowlessFits(shape: Shape, h: Host, rows: seq<ReqId>, blocks: seq<seq<Token>>, skip: set<ReqId>) {
    |rows| == |blocks| && forall i :: 0 <= i < |rows| && rows[i] !in skip && rows[i] in h.requests && rows[i] !in h.views ==>
      h.requests[rows[i]].output in h.lists
      && |h.requests[rows[i]].prompt| + |h.lists[h.requests[rows[i]].output]| + |blocks[i]| <= shape.maxModelLen
  }

  function RowOf(rows: seq<ReqId>, q: ReqId): (i: nat)
    requires q in rows
    ensures i < |rows| && rows[i] == q
  {
    if rows[|rows| - 1] == q then |rows| - 1 else RowOf(rows[..|rows| - 1], q)
  }

  /** What one step applies to a request. */
  function FrameOf(shape: Shape, h: Host, rows: seq<ReqId>, blocks: seq<seq<Token>>, skip: set<ReqId>, q: ReqId): seq<Token>
    requires |rows| == |blocks|
  {
    if q in rows && q !in skip then Fitting(shape, h, q, blocks[RowOf(rows, q)]) else []
  }

  /** Output list and row of `q` both grew by exactly `tokens`. */
  predicate Grew(h: Host, after: Host, q: ReqId, tokens: seq<Token>) {
    && after.requests == h.requests && after.views.Keys == h.views.Keys
    && q in h.requests && h.requests[q].output in h.lists && h.requests[q].output in after.lists
    && after.lists[h.requests[q].output] == h.lists[h.requests[q].output] + tokens
    && (q in h.views ==> after.views[q] == WithTokens(h.views[q], tokens))
  }

  lemma ExtendOneAt(shape: Shape, h: Host, r: ReqId, block: seq<Token>, q: ReqId)
    requires r in h.requests && q in h.requests && (h.requests[r].output == h.requests[q].output ==> r == q)
    requires h.requests[r].output in h.lists && h.requests[q].output in h.lists
    ensures Grew(h, ExtendOne(shape, h, r, block), q, if q == r then Fitting(shape, h, q, block) else [])
  {
    if q != r && q in h.views { assert h.views[q].columns.tokens + [] == h.views[q].columns.tokens; }
  }

  lemma GrewNothing(h: Host, q: ReqId)
    requires q in h.requests && h.requests[q].output in h.lists
    ensures Grew(h, h, q, [])
  {
    assert q in h.views ==> h.views[q].columns.tokens + [] == h.views[q].columns.tokens;
  }

  lemma GrewTwice(h: Host, m: Host, after: Host, q: ReqId, a: seq<Token>, b: seq<Token>)
    requires Grew(h, m, q, a) && Grew(m, after, q, b)
    ensures Grew(h, after, q, a + b)
  {
    assert h.lists[h.requests[q].output] + a + b == h.lists[h.requests[q].output] + (a + b);
    assert q in h.views ==> h.views[q].columns.tokens + a + b == h.views[q].columns.tokens + (a + b);
  }

  lemma FrameOfPrefix(shape: Shape, h: Host, before: Host, rows: seq<ReqId>, blocks: seq<seq<Token>>, skip: set<ReqId>, q: ReqId)
    requires |rows| == |blocks| > 0 && Distinct(rows)
    requires Grew(h, before, q, FrameOf(shape, h, rows[..|rows| - 1], blocks[..|rows| - 1], skip, q))
    ensures var n := |rows| - 1;
            FrameOf(shape, h, rows[..n], blocks[..n], skip, q)
            + (if q == rows[n] && q !in skip then Fitting(shape, before, q, blocks[n]) else []) == FrameOf(shape, h, rows, blocks, skip, q)
  {
    var n := |rows| - 1;
    assert rows == rows[..n] + [rows[n]];
    assert q in rows[..n] ==> blocks[..n][RowOf(rows[..n], q)] == blocks[RowOf(rows[..n], q)] && rows[n] != q;
  }

  /** Nothing but its own frame reaches a request, and that one exactly once. */
  lemma {:induction false} ExtendAllAt(shape: Shape, h: Host, rows: seq<ReqId>, blocks: seq<seq<Token>>, skip: set<ReqId>, q: ReqId)
    requires HostOk(shape, h) && Distinct(rows) && |rows| == |blocks| && Held(h, rows, skip) && q in h.requests
    requires h.requests[q].output in h.lists
    ensures Grew(h, ExtendAll(shape, h, rows, blocks, skip), q, FrameOf(shape, h, rows, blocks, skip, q))
  {
    if rows == [] {
      GrewNothing(h, q);
    } else {
      var n := |rows| - 1;
      var before := ExtendAll(shape, h, rows[..n], blocks[..n], skip);
      ExtendAllAt(shape, h, rows[..n], blocks[..n], skip, q);
      FrameOfPrefix(shape, h, before, rows, blocks, skip, q);
      if rows[n] in skip {
        GrewNothing(before, q);
      } else {
        ExtendOneAt(shape, before, rows[n], blocks[n], q);
      }
      GrewTwice(h, before, ExtendAll(shape, h, rows, blocks, skip), q, FrameOf(shape, h, rows[..n], blocks[..n], skip, q),
                if q == rows[n] && q !in skip then Fitting(shape, before, q, blocks[n]) else []);
    }
  }

  lemma {:induction false} ExtendAllKeeps(shape: Shape, h: Host, rows: seq<ReqId>, blocks: seq<seq<Token>>, skip: set<ReqId>)
    requires HostOk(shape, h) && Matching(shape, h) && Distinct(rows) && Held(h, rows, skip) && RowlessFits(shape, h, rows, blocks, skip)
    ensures var after := ExtendAll(shape, h, rows, blocks, skip);
            HostOk(shape, after) && Matching(shape, after) && SameBlocks(h, after)
  {
    if rows != [] {
      var n := |rows| - 1;
      assert forall i :: 0 <= i < n ==> rows[..n][i] == rows[i] && blocks[..n][i] == blocks[i];
      ExtendAllKeeps(shape, h, rows[..n], blocks[..n], skip);
      if rows[n] !in skip {
        var before := ExtendAll(shape, h, rows[..n], blocks[..n], skip);
        assert rows[n] !in rows[..n];
        ExtendAllAt(shape, h, rows[..n], blocks[..n], skip, rows[n]);
        ExtendKeeps(shape, before, rows[n], blocks[n]);
      }
    }
  }

  /** A refused frame is refused whole, and an accepted one-token frame loses no token to the cap. */
  lemma OneTokenFrameExact(shape: Shape, h: Host, rows: seq<ReqId>, blocks: seq<seq<Token>>, skip: set<ReqId>, i: nat)
    requires HostOk(shape, h) && Distinct(rows) && |rows| == |blocks| && Held(h, rows, skip) && i < |rows| && rows[i] !in skip
    requires |blocks[i]| == 1 && ApplyFrame(shape, h, rows, blocks, skip, 1).Some?
    ensures rows[i] in h.requests && h.requests[rows[i]].output in h.lists
    ensures var after, output := ApplyFrame(shape, h, rows, blocks, skip, 1).value, h.requests[rows[i]].output;
            after.lists[output] == h.lists[output] + blocks[i]
  {
    assert rows[i] in rows;
    assert Placeable(h.requests, h.lists, shape.maxModelLen, rows[i]);
    ExtendAllAt(shape, h, rows, blocks, skip, rows[i]);
    assert RowOf(rows, rows[i]) == i;
    assert !Overflows(shape, h, rows[i]);
    assert Fitting(shape, h, rows[i], blocks[i]) == blocks[i];
  }
}
