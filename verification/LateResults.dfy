/**
 Late results: what `apply_ready_completed_decode_steps` writes to request state. A forced reset
 leaves the newest results of a request unapplied, a finished request gets none.
 */
module LateResults {
  import opened Runtime

  /** One completed step: the requests it was submitted for, the tokens it published for each, and whether
      it was a verify. */
  datatype Frame = Frame(rows: seq<ReqId>, tokens: seq<seq<Token>>, verified: bool)

  type Histories = map<ReqId, seq<Token>>

  ghost predicate FrameOk(f: Frame) {
    |f.rows| == |f.tokens| && Distinct(f.rows)
  }

  ghost predicate FramesOk(frames: seq<Frame>) {
    forall k :: 0 <= k < |frames| ==> FrameOk(frames[k])
  }

  function RowOf(rows: seq<ReqId>, r: ReqId): (i: nat)
    ensures i <= |rows| && (i < |rows| <==> r in rows) && (r in rows ==> rows[i] == r)
  {
    if rows == [] || rows[0] == r then 0 else 1 + RowOf(rows[1..], r)
  }

  function TokensAt(rows: seq<ReqId>, tokens: seq<seq<Token>>, r: ReqId): seq<Token> {
    var i := RowOf(rows, r);
    if i < |rows| && i < |tokens| then tokens[i] else []
  }

  function TokensOf(f: Frame, r: ReqId): seq<Token> {
    TokensAt(f.rows, f.tokens, r)
  }

  /** Steps that published at least one token for `r`. */
  function Results(frames: seq<Frame>, r: ReqId): seq<seq<Token>> {
    if frames == [] then []
    else if TokensOf(frames[0], r) == [] then Results(frames[1..], r)
    else [TokensOf(frames[0], r)] + Results(frames[1..], r)
  }

  function Flatten(blocks: seq<seq<Token>>): seq<Token> {
    if blocks == [] then [] else blocks[0] + Flatten(blocks[1..])
  }

  /** Everything the frames hold for `r`. */
  function AllTokens(frames: seq<Frame>, r: ReqId): seq<Token> {
    if frames == [] then [] else TokensOf(frames[0], r) + AllTokens(frames[1..], r)
  }

  /** One frame, without the skipped requests. */
  function ApplyFrame(histories: Histories, f: Frame, skip: set<ReqId>): Histories {
    map r | r in histories :: if r in skip then histories[r] else histories[r] + TokensOf(f, r)
  }

  /** The requests whose result in `frames[0]` is one of the newest to discard. */
  function Discarded(frames: seq<Frame>, discards: map<ReqId, nat>): set<ReqId>
    requires frames != []
  {
    set r | r in frames[0].rows && TokensOf(frames[0], r) != [] && |Results(frames, r)| <= GetOr(discards, r, 0)
  }

  /** All frames, oldest first. */
  function ApplyAll(histories: Histories, frames: seq<Frame>, suppressed: set<ReqId>, discards: map<ReqId, nat>): Histories
    decreases |frames|
  {
    if frames == [] then histories
    else ApplyAll(ApplyFrame(histories, frames[0], suppressed + Discarded(frames, discards)), frames[1..], suppressed, discards)
  }

  /** The accepted counts one frame records: none for a plain step; for a verify what each row committed,
      never below 1, unless the row is skipped or has neither a batch row nor a state slot any more. */
  function RecordFrame(counts: map<ReqId, nat>, f: Frame, skip: set<ReqId>, kept: set<ReqId>): map<ReqId, nat> {
    if f.verified then counts + (map r | r in f.rows && r !in skip && r in kept :: CommittedCount(f, r)) else counts
  }

  function CommittedCount(f: Frame, r: ReqId): nat {
    if TokensOf(f, r) == [] then 1 else |TokensOf(f, r)|
  }

  function RecordAll(counts: map<ReqId, nat>, frames: seq<Frame>, suppressed: set<ReqId>, discards: map<ReqId, nat>,
                     kept: set<ReqId>): map<ReqId, nat>
    decreases |frames|
  {
    if frames == [] then counts
    else RecordAll(RecordFrame(counts, frames[0], suppressed + Discarded(frames, discards), kept), frames[1..],
                   suppressed, discards, kept)
  }

  /** Some request has fewer results than the reset wants discarded. */
  predicate Missing(frames: seq<Frame>, discards: map<ReqId, nat>) {
    exists r :: r in discards && |Results(frames, r)| < discards[r]
  }

  lemma {:induction false} ApplyAllKeys(histories: Histories, frames: seq<Frame>, suppressed: set<ReqId>, discards: map<ReqId, nat>)
    ensures ApplyAll(histories, frames, suppressed, discards).Keys == histories.Keys
    decreases |frames|
  {
    if frames != [] {
      ApplyAllKeys(ApplyFrame(histories, frames[0], suppressed + Discarded(frames, discards)), frames[1..], suppressed, discards);
    }
  }

  lemma {:induction false} FlattenResults(frames: seq<Frame>, r: ReqId)
    ensures Flatten(Results(frames, r)) == AllTokens(frames, r)
  {
    if frames != [] {
      FlattenResults(frames[1..], r);
      var results := Results(frames[1..], r);
      if TokensOf(frames[0], r) != [] {
        assert ([TokensOf(frames[0], r)] + results)[1..] == results;
      }
    }
  }

  /** All results but the newest `d`. */
  function AllBut(results: seq<seq<Token>>, d: nat): seq<seq<Token>> {
    results[..Max(0, |results| - d)]
  }

  /** A request's results but the newest `d`. */
  function Older(frames: seq<Frame>, r: ReqId, d: nat): seq<seq<Token>> {
    AllBut(Results(frames, r), d)
  }

  lemma FlattenCut(first: seq<Token>, rest: seq<seq<Token>>, results: seq<seq<Token>>, d: nat)
    requires results == [first] + rest
    ensures Flatten(AllBut(results, d)) == (if |results| <= d then [] else first) + Flatten(AllBut(rest, d))
  {
    if |results| > d {
      var kept := results[..|results| - d];
      assert kept[0] == first && kept[1..] == rest[..|rest| - d];
    }
  }

  lemma OlderFirst(frames: seq<Frame>, r: ReqId, d: nat)
    requires frames != []
    ensures Flatten(Older(frames, r, d))
            == (if |Results(frames, r)| <= d then [] else TokensOf(frames[0], r)) + Flatten(Older(frames[1..], r, d))
  {
    var first, rest := TokensOf(frames[0], r), Results(frames[1..], r);
    if first == [] {
      NothingFirst(Flatten(AllBut(rest, d)));
    } else {
      FlattenCut(first, rest, Results(frames, r), d);
    }
  }

  lemma NothingFirst(s: seq<Token>)
    ensures [] + s == s
  {
  }

  lemma ApplyFrameAt(histories: Histories, frames: seq<Frame>, suppressed: set<ReqId>, discards: map<ReqId, nat>, r: ReqId)
    requires frames != [] && r in histories
    ensures var after := ApplyFrame(histories, frames[0], suppressed + Discarded(frames, discards));
            && r in after
            && after[r] == histories[r] + if r in suppressed || |Results(frames, r)| <= GetOr(discards, r, 0) then [] else TokensOf(frames[0], r)
  {
    if TokensOf(frames[0], r) == [] {
      assert histories[r] + [] == histories[r];
    } else {
      assert r in frames[0].rows;
    }
  }

  /** Of a request's results exactly the newest `d` are left out, and the older ones are applied in
      order; a suppressed request gets nothing. */
  lemma {:induction false} NewestAreDiscarded(histories: Histories, frames: seq<Frame>, suppressed: set<ReqId>,
                                              discards: map<ReqId, nat>, r: ReqId)
    requires r in histories
    ensures r in ApplyAll(histories, frames, suppressed, discards)
    ensures ApplyAll(histories, frames, suppressed, discards)[r]
            == histories[r] + if r in suppressed then [] else Flatten(Older(frames, r, GetOr(discards, r, 0)))
    decreases |frames|
  {
    if frames == [] {
      assert Older(frames, r, GetOr(discards, r, 0)) == [];
    } else {
      var next := ApplyFrame(histories, frames[0], suppressed + Discarded(frames, discards));
      ApplyFrameAt(histories, frames, suppressed, discards, r);
      NewestAreDiscarded(next, frames[1..], suppressed, discards, r);
      OlderFirst(frames, r, GetOr(discards, r, 0));
      Associate(histories[r], next[r], ApplyAll(next, frames[1..], suppressed, discards)[r],
                if r in suppressed || |Results(frames, r)| <= GetOr(discards, r, 0) then [] else TokensOf(frames[0], r),
                if r in suppressed then [] else Flatten(Older(frames[1..], r, GetOr(discards, r, 0))));
    }
  }

  lemma Associate(history: seq<Token>, next: seq<Token>, last: seq<Token>, a: seq<Token>, b: seq<Token>)
    requires next == history + a && last == next + b
    ensures last == history + (a + b)
  {
  }

  /** Without a discard every token arrives, so applying moves tokens and loses none. */
  lemma AppliedWhole(histories: Histories, frames: seq<Frame>, suppressed: set<ReqId>, discards: map<ReqId, nat>, r: ReqId)
    requires r in histories && r !in suppressed && GetOr(discards, r, 0) == 0
    ensures r in ApplyAll(histories, frames, suppressed, discards)
    ensures ApplyAll(histories, frames, suppressed, discards)[r] == histories[r] + AllTokens(frames, r)
  {
    NewestAreDiscarded(histories, frames, suppressed, discards, r);
    FlattenResults(frames, r);
    var results := Results(frames, r);
    assert Older(frames, r, 0) == results;
  }

  // ----- accepted counts -----

  /** The count of `r` once the frames are committed. */
  function CountAfter(count: nat, frames: seq<Frame>, r: ReqId): nat
    decreases |frames|
  {
    if frames == [] then count
    else CountAfter(if frames[0].verified && r in frames[0].rows then CommittedCount(frames[0], r) else count, frames[1..], r)
  }

  /** A live request that keeps its state and loses no result ends with the count of the last verify it was in. */
  lemma {:induction false} RecordedCount(counts: map<ReqId, nat>, frames: seq<Frame>, suppressed: set<ReqId>,
                                         discards: map<ReqId, nat>, kept: set<ReqId>, r: ReqId)
    requires r in kept && r !in suppressed && GetOr(discards, r, 0) == 0
    ensures GetOr(RecordAll(counts, frames, suppressed, discards, kept), r, 1) == CountAfter(GetOr(counts, r, 1), frames, r)
    decreases |frames|
  {
    if frames != [] {
      var skip := suppressed + Discarded(frames, discards);
      if r in frames[0].rows && TokensOf(frames[0], r) != [] { ResultsFirst(frames, r); }
      assert r !in skip;
      RecordedCount(RecordFrame(counts, frames[0], skip, kept), frames[1..], suppressed, discards, kept, r);
    }
  }

  lemma {:induction false} CountAfterJoin(count: nat, a: seq<Frame>, b: seq<Frame>, r: ReqId)
    ensures CountAfter(count, a + b, r) == CountAfter(CountAfter(count, a, r), b, r)
    decreases |a|
  {
    if a == [] {
      assert a + b == b;
    } else {
      assert (a + b)[1..] == a[1..] + b;
      CountAfterJoin(if a[0].verified && r in a[0].rows then CommittedCount(a[0], r) else count, a[1..], b, r);
    }
  }

  /** Plain steps leave it alone. */
  lemma {:induction false} PlainFramesKeepCount(count: nat, frames: seq<Frame>, r: ReqId)
    requires forall f :: f in frames ==> !f.verified
    ensures CountAfter(count, frames, r) == count
    decreases |frames|
  {
    if frames != [] {
      assert frames[0] in frames;
      PlainFramesKeepCount(count, frames[1..], r);
    }
  }

  // ----- the runner's loops -----

  /** `remaining_results`: one entry per request with a result. */
  ghost predicate Counts(remaining: map<ReqId, nat>, frames: seq<Frame>) {
    forall r :: GetOr(remaining, r, 0) == |Results(frames, r)|
  }

  lemma {:induction false} ResultsAppend(frames: seq<Frame>, f: Frame, r: ReqId)
    ensures Results(frames + [f], r) == Results(frames, r) + if TokensOf(f, r) != [] then [TokensOf(f, r)] else []
  {
    if frames == [] {
      assert frames + [f] == [f];
      assert Results([f][1..], r) == [];
    } else {
      ResultsAppend(frames[1..], f, r);
      assert (frames + [f])[1..] == frames[1..] + [f];
    }
  }

  lemma {:induction false} RowOfAt(rows: seq<ReqId>, i: nat)
    requires Distinct(rows) && i < |rows|
    ensures RowOf(rows, rows[i]) == i
  {
    if i > 0 { RowOfAt(rows[1..], i - 1); }
  }

  /** Adds (or, with `back`, subtracts) one frame's results. */
  method CountFrame(counts: map<ReqId, nat>, f: Frame, back: bool) returns (after: map<ReqId, nat>)
    requires FrameOk(f) && (back ==> forall r :: TokensOf(f, r) != [] ==> GetOr(counts, r, 0) >= 1)
    ensures forall r :: GetOr(after, r, 0)
                        == GetOr(counts, r, 0) + if TokensOf(f, r) == [] then 0 else if back then -1 else 1
  {
    after := counts;
    for i := 0 to |f.rows|
      invariant forall r :: GetOr(after, r, 0)
                            == GetOr(counts, r, 0) + if TokensOf(f, r) == [] || RowOf(f.rows, r) >= i then 0 else if back then -1 else 1
    {
      var r := f.rows[i];
      RowOfAt(f.rows, i);
      assert forall q :: q != r && RowOf(f.rows, q) == i ==> i == |f.rows|;
      if f.tokens[i] != [] {
        var was := GetOr(after, r, 0);
        after := after[r := if back then was - 1 else was + 1];
      }
    }
  }

  method CountResults(frames: seq<Frame>) returns (remaining: map<ReqId, nat>)
    requires FramesOk(frames)
    ensures Counts(remaining, frames)
  {
    remaining := map[];
    for k := 0 to |frames|
      invariant Counts(remaining, frames[..k])
    {
      assert frames[..k + 1] == frames[..k] + [frames[k]];
      forall r ensures |Results(frames[..k + 1], r)| == |Results(frames[..k], r)| + if TokensOf(frames[k], r) != [] then 1 else 0 {
        ResultsAppend(frames[..k], frames[k], r);
      }
      remaining := CountFrame(remaining, frames[k], false);
    }
    assert frames[..|frames|] == frames;
  }

  /** `published_req_ids` with a positive remaining count inside the discard window. */
  method FrameDiscards(f: Frame, remaining: map<ReqId, nat>, discards: map<ReqId, nat>, ghost frames: seq<Frame>)
    returns (ids: set<ReqId>)
    requires frames != [] && f == frames[0] && FrameOk(f) && Counts(remaining, frames)
    ensures ids == Discarded(frames, discards)
  {
    ids := {};
    for i := 0 to |f.rows|
      invariant forall r :: r in ids ==> RowOf(f.rows, r) < i
      invariant forall k :: 0 <= k < i ==> (f.rows[k] in ids <==> InWindow(f, k, frames, discards))
    {
      var r := f.rows[i];
      RowOfAt(f.rows, i);
      if f.tokens[i] != [] {
        ResultsFirst(frames, r);
        if 0 < GetOr(remaining, r, 0) <= GetOr(discards, r, 0) { ids := ids + {r}; }
      }
    }
    WindowIsDiscarded(f, frames, discards, ids);
  }

  ghost predicate InWindow(f: Frame, k: nat, frames: seq<Frame>, discards: map<ReqId, nat>)
    requires FrameOk(f) && k < |f.rows|
  {
    f.tokens[k] != [] && |Results(frames, f.rows[k])| <= GetOr(discards, f.rows[k], 0)
  }

  lemma ResultsFirst(frames: seq<Frame>, r: ReqId)
    requires frames != [] && TokensOf(frames[0], r) != []
    ensures |Results(frames, r)| > 0
  {
  }

  lemma WindowIsDiscarded(f: Frame, frames: seq<Frame>, discards: map<ReqId, nat>, ids: set<ReqId>)
    requires frames != [] && f == frames[0] && FrameOk(f)
    requires forall r :: r in ids ==> r in f.rows
    requires forall k :: 0 <= k < |f.rows| ==> (f.rows[k] in ids <==> InWindow(f, k, frames, discards))
    ensures ids == Discarded(frames, discards)
  {
    forall k | 0 <= k < |f.rows| ensures TokensOf(f, f.rows[k]) == f.tokens[k] {
      RowOfAt(f.rows, k);
    }
    forall r ensures r in ids <==> r in Discarded(frames, discards) {
      if r in f.rows {
        var k :| 0 <= k < |f.rows| && f.rows[k] == r;
      }
    }
  }

  /** The first `i` rows of a frame are written. */
  ghost predicate Written(histories: Histories, f: Frame, skip: set<ReqId>, i: nat, after: Histories) {
    && after.Keys == histories.Keys
    && forall r :: r in histories ==> after[r] == if r in skip || RowOf(f.rows, r) >= i then histories[r] else histories[r] + TokensOf(f, r)
  }

  lemma WrittenNext(histories: Histories, f: Frame, skip: set<ReqId>, i: nat, after: Histories)
    requires FrameOk(f) && i < |f.rows| && Written(histories, f, skip, i, after)
    ensures Written(histories, f, skip, i + 1,
                    if f.rows[i] !in skip && f.rows[i] in after then after[f.rows[i] := after[f.rows[i]] + f.tokens[i]] else after)
  {
    RowOfAt(f.rows, i);
    var next := if f.rows[i] !in skip && f.rows[i] in after then after[f.rows[i] := after[f.rows[i]] + f.tokens[i]] else after;
    forall r | r in histories
      ensures next[r] == if r in skip || RowOf(f.rows, r) >= i + 1 then histories[r] else histories[r] + TokensOf(f, r)
    {
      assert r != f.rows[i] ==> RowOf(f.rows, r) != i;
    }
  }

  lemma WrittenAll(histories: Histories, f: Frame, skip: set<ReqId>, after: Histories)
    requires FrameOk(f) && Written(histories, f, skip, |f.rows|, after)
    ensures after == ApplyFrame(histories, f, skip)
  {
    forall r | r in histories ensures after[r] == ApplyFrame(histories, f, skip)[r] {
      assert histories[r] + [] == histories[r];
    }
  }

  method WriteFrame(histories: Histories, f: Frame, skip: set<ReqId>) returns (after: Histories)
    requires FrameOk(f)
    ensures after == ApplyFrame(histories, f, skip)
  {
    after := histories;
    for i := 0 to |f.rows|
      invariant Written(histories, f, skip, i, after)
    {
      WrittenNext(histories, f, skip, i, after);
      if f.rows[i] !in skip && f.rows[i] in after {
        after := after[f.rows[i] := after[f.rows[i]] + f.tokens[i]];
      }
    }
    WrittenAll(histories, f, skip, after);
  }

  /** The first `i` rows of a verify's frame are recorded. */
  ghost predicate Recording(counts: map<ReqId, nat>, f: Frame, skip: set<ReqId>, kept: set<ReqId>, i: nat, after: map<ReqId, nat>) {
    forall r ::
      if RowOf(f.rows, r) < Min(i, |f.rows|) && r !in skip && r in kept then r in after && after[r] == CommittedCount(f, r)
      else (r in after <==> r in counts) && (r in after ==> after[r] == counts[r])
  }

  lemma RecordingNext(counts: map<ReqId, nat>, f: Frame, skip: set<ReqId>, kept: set<ReqId>, i: nat, after: map<ReqId, nat>)
    requires FrameOk(f) && i < |f.rows| && Recording(counts, f, skip, kept, i, after)
    ensures var r := f.rows[i];
            Recording(counts, f, skip, kept, i + 1, if r !in skip && r in kept then after[r := CommittedCount(f, r)] else after)
  {
    RowOfAt(f.rows, i);
    assert forall q :: q != f.rows[i] ==> RowOf(f.rows, q) != i;
  }

  lemma RecordingAll(counts: map<ReqId, nat>, f: Frame, skip: set<ReqId>, kept: set<ReqId>, after: map<ReqId, nat>)
    requires f.verified && Recording(counts, f, skip, kept, |f.rows|, after)
    ensures after == RecordFrame(counts, f, skip, kept)
  {
    forall r ensures r in after <==> r in RecordFrame(counts, f, skip, kept) {
      assert r in f.rows <==> RowOf(f.rows, r) < |f.rows|;
    }
  }

  /** `_apply_committed_spec_tokens_to_state`, as far as the counts go. */
  method WriteCounts(counts: map<ReqId, nat>, f: Frame, skip: set<ReqId>, kept: set<ReqId>) returns (after: map<ReqId, nat>)
    requires FrameOk(f)
    ensures after == RecordFrame(counts, f, skip, kept)
  {
    if !f.verified { return counts; }
    after := counts;
    for i := 0 to |f.rows|
      invariant Recording(counts, f, skip, kept, i, after)
    {
      RecordingNext(counts, f, skip, kept, i, after);
      RowOfAt(f.rows, i);
      var r := f.rows[i];
      if r !in skip && r in kept { after := after[r := if f.tokens[i] == [] then 1 else |f.tokens[i]|]; }
    }
    RecordingAll(counts, f, skip, kept, after);
  }

  /** A finished request's late result is taken out of the published output before the scheduler sees it. */
  method Scrub(f: Frame, suppressed: set<ReqId>) returns (published: Frame)
    requires FrameOk(f)
    ensures published.rows == f.rows && |published.tokens| == |f.tokens|
    ensures forall i :: 0 <= i < |f.rows| ==> published.tokens[i] == if f.rows[i] in suppressed then [] else f.tokens[i]
  {
    var tokens := f.tokens;
    for i := 0 to |f.rows|
      invariant |tokens| == |f.tokens|
      invariant forall k :: 0 <= k < |f.rows| ==> tokens[k] == if k < i && f.rows[k] in suppressed then [] else f.tokens[k]
    {
      if f.rows[i] in suppressed { tokens := tokens[i := []]; }
    }
    return f.(tokens := tokens);
  }

  /** `apply_ready_completed_decode_steps` over the drained frames; None is the missing-outputs error,
      raised before anything is applied. */
  method ApplyReady(histories: Histories, counts: map<ReqId, nat>, frames: seq<Frame>, suppressed: set<ReqId>,
                    discards: map<ReqId, nat>, kept: set<ReqId>)
    returns (after: Option<(Histories, map<ReqId, nat>)>)
    requires FramesOk(frames)
    ensures after.None? <==> Missing(frames, discards)
    ensures after.Some? ==> after.value.0 == ApplyAll(histories, frames, suppressed, discards)
    ensures after.Some? ==> after.value.1 == RecordAll(counts, frames, suppressed, discards, kept)
  {
    var remaining := CountResults(frames);
    if exists r :: r in discards && GetOr(remaining, r, 0) < discards[r] {
      return None;
    }
    var written, recorded := histories, counts;
    for k := 0 to |frames|
      invariant Counts(remaining, frames[k..])
      invariant ApplyAll(written, frames[k..], suppressed, discards) == ApplyAll(histories, frames, suppressed, discards)
      invariant RecordAll(recorded, frames[k..], suppressed, discards, kept) == RecordAll(counts, frames, suppressed, discards, kept)
    {
      assert frames[k..][0] == frames[k] && frames[k..][1..] == frames[k + 1..];
      var discarded := FrameDiscards(frames[k], remaining, discards, frames[k..]);
      written := WriteFrame(written, frames[k], suppressed + discarded);
      recorded := WriteCounts(recorded, frames[k], suppressed + discarded, kept);
      remaining := CountFrame(remaining, frames[k], true);
    }
    return Some((written, recorded));
  }
}
