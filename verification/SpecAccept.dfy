/**
 The greedy accept walk over one verify's answer, and the draft cap of a step.
 A tensor of shape [B, W] is a `Block`: its width and B rows of that width.
 */
module SpecAccept {
  import opened Runtime

  datatype Block = Block(width: nat, rows: seq<seq<Token>>) {
    ghost predicate Shaped(numRows: nat, w: nat) {
      |rows| == numRows && width == w && forall i :: 0 <= i < |rows| ==> |rows[i]| == w
    }
  }

  /** What the walk returns: committed ids padded with the placeholder, and each row's count. */
  datatype Walk = Walk(committed: Block, counts: seq<nat>)

  datatype AcceptError = DraftShape | CountShape | PlaceholderDraft

  /** `valid & ~matched` for one row. */
  function RejectMask(ids: seq<Token>, drafts: seq<Token>, valid: nat): (mask: seq<bool>)
    requires |ids| == |drafts| + 1
  {
    seq(|drafts|, j requires 0 <= j < |drafts| => j < valid && ids[j] != drafts[j])
  }

  /** `argmax` of a 0/1 row: the first true column, and column 0 when there is none. */
  function ArgMax(mask: seq<bool>): nat {
    if true !in mask || mask[0] then 0 else 1 + ArgMax(mask[1..])
  }

  function RowCount(ids: seq<Token>, drafts: seq<Token>, valid: nat): nat
    requires |ids| == |drafts| + 1
  {
    var mask := RejectMask(ids, drafts, valid);
    if true in mask then ArgMax(mask) + 1 else valid + 1
  }

  function RowCommitted(ids: seq<Token>, count: nat): seq<Token> {
    seq(|ids|, j requires 0 <= j < |ids| => if j < count then ids[j] else PLACEHOLDER_TOKEN_ID)
  }

  /** The padding marker inside a row's own draft count. */
  predicate HasPlaceholderDraft(drafts: seq<Token>, valid: nat) {
    exists j :: 0 <= j < |drafts| && j < valid && drafts[j] == PLACEHOLDER_TOKEN_ID
  }

  /** `num_valid_drafts` lies in [0, K] by the tensor's contract; every shape error is answered. */
  function AcceptGreedyDrafts(argmaxIds: Block, drafts: Block, numValid: seq<nat>): Result<Walk, AcceptError>
    requires argmaxIds.Shaped(|argmaxIds.rows|, argmaxIds.width) && argmaxIds.width > 0
    requires drafts.Shaped(|drafts.rows|, drafts.width)
    requires forall i :: 0 <= i < |numValid| ==> numValid[i] <= drafts.width
  {
    var B := |argmaxIds.rows|;
    if |drafts.rows| != B || drafts.width != argmaxIds.width - 1 then Err(DraftShape)
    else if |numValid| != B then Err(CountShape)
    else if drafts.width == 0 then Ok(Walk(argmaxIds, seq(B, _ => 1)))
    else if exists i :: 0 <= i < B && HasPlaceholderDraft(drafts.rows[i], numValid[i]) then Err(PlaceholderDraft)
    else
      var counts := seq(B, i requires 0 <= i < B => RowCount(argmaxIds.rows[i], drafts.rows[i], numValid[i]));
      Ok(Walk(Block(argmaxIds.width,
                    seq(B, i requires 0 <= i < B => RowCommitted(argmaxIds.rows[i], counts[i]))),
              counts))
  }

  /** What greedy acceptance promises, stated without the mask: drafts match up to the last
      committed column, which is either the target's correction or the bonus. */
  ghost predicate AcceptsExactly(ids: seq<Token>, drafts: seq<Token>, valid: nat, count: nat) {
    && 1 <= count <= valid + 1
    && valid <= |drafts| && |ids| == |drafts| + 1
    && (forall j :: 0 <= j < count - 1 ==> ids[j] == drafts[j])
    && (count <= valid ==> ids[count - 1] != drafts[count - 1])
  }

  lemma {:induction false} ArgMaxIsFirst(mask: seq<bool>)
    requires true in mask
    ensures ArgMax(mask) < |mask| && mask[ArgMax(mask)]
    ensures forall j :: 0 <= j < ArgMax(mask) ==> !mask[j]
  {
    if !mask[0] {
      assert true in mask[1..];
      ArgMaxIsFirst(mask[1..]);
    }
  }

  /** The count is the unique one greedy acceptance allows. */
  lemma RowCountExact(ids: seq<Token>, drafts: seq<Token>, valid: nat, count: nat)
    requires |ids| == |drafts| + 1 && valid <= |drafts|
    ensures RowCount(ids, drafts, valid) == count <==> AcceptsExactly(ids, drafts, valid, count)
  {
    var mask := RejectMask(ids, drafts, valid);
    var c := RowCount(ids, drafts, valid);
    if true in mask {
      ArgMaxIsFirst(mask);
    } else {
      assert forall j :: 0 <= j < |mask| ==> mask[j] in mask;
    }
    forall j | 0 <= j < c - 1 ensures ids[j] == drafts[j] {
      assert !mask[j];
    }
    assert AcceptsExactly(ids, drafts, valid, c);
  }

  /** The whole walk: it fails exactly on a shape or marker fault, and otherwise every row's count
      is the greedy one and its block is the target's own choices up to that count. */
  lemma AcceptGreedyDraftsCorrect(argmaxIds: Block, drafts: Block, numValid: seq<nat>)
    requires argmaxIds.Shaped(|argmaxIds.rows|, argmaxIds.width) && argmaxIds.width > 0
    requires drafts.Shaped(|drafts.rows|, drafts.width)
    requires forall i :: 0 <= i < |numValid| ==> numValid[i] <= drafts.width
    ensures AcceptGreedyDrafts(argmaxIds, drafts, numValid).Ok? <==>
            && |drafts.rows| == |argmaxIds.rows| == |numValid|
            && drafts.width == argmaxIds.width - 1
            && forall i, j :: 0 <= i < |numValid| && 0 <= j < numValid[i] ==> drafts.rows[i][j] != PLACEHOLDER_TOKEN_ID
    ensures AcceptGreedyDrafts(argmaxIds, drafts, numValid).Ok? ==>
              var walk := AcceptGreedyDrafts(argmaxIds, drafts, numValid).value;
              && walk.committed.Shaped(|argmaxIds.rows|, argmaxIds.width) && |walk.counts| == |argmaxIds.rows|
              && forall i :: 0 <= i < |argmaxIds.rows| ==>
                   && AcceptsExactly(argmaxIds.rows[i], drafts.rows[i], numValid[i], walk.counts[i])
                   && walk.committed.rows[i][..walk.counts[i]] == argmaxIds.rows[i][..walk.counts[i]]
                   && forall j :: walk.counts[i] <= j < argmaxIds.width ==> walk.committed.rows[i][j] == PLACEHOLDER_TOKEN_ID
  {
    var r := AcceptGreedyDrafts(argmaxIds, drafts, numValid);
    if |drafts.rows| == |argmaxIds.rows| == |numValid| && drafts.width == argmaxIds.width - 1 {
      forall i | 0 <= i < |numValid|
        ensures HasPlaceholderDraft(drafts.rows[i], numValid[i]) <==>
                exists j :: 0 <= j < numValid[i] && drafts.rows[i][j] == PLACEHOLDER_TOKEN_ID
      {
        assert numValid[i] <= |drafts.rows[i]|;
      }
      if r.Ok? {
        forall i | 0 <= i < |numValid|
          ensures AcceptsExactly(argmaxIds.rows[i], drafts.rows[i], numValid[i], r.value.counts[i])
        {
          RowCountExact(argmaxIds.rows[i], drafts.rows[i], numValid[i],
                        RowCount(argmaxIds.rows[i], drafts.rows[i], numValid[i]));
        }
      }
    }
  }

  // ----- SpecPlan.draft_cap -----

  /** `SpecPlan.k_by_rows` as `__post_init__` leaves it: ascending row limits, caps in [1, K], K reached. */
  ghost predicate ValidKByRows(kByRows: seq<(nat, nat)>, effectiveK: nat) {
    && effectiveK >= 1
    && (forall i :: 0 <= i < |kByRows| ==> 1 <= kByRows[i].1 <= effectiveK && 1 <= kByRows[i].0)
    && (forall i, j :: 0 <= i < j < |kByRows| ==> kByRows[i].0 < kByRows[j].0)
    && (kByRows != [] ==> exists i :: 0 <= i < |kByRows| && kByRows[i].1 == effectiveK)
  }

  function FirstCovering(kByRows: seq<(nat, nat)>, liveRows: nat): Option<nat> {
    if kByRows == [] then None
    else if liveRows <= kByRows[0].0 then Some(kByRows[0].1)
    else FirstCovering(kByRows[1..], liveRows)
  }

  /** The draft cap a step with `liveRows` live rows may use; None is the uncovered ValueError. */
  function DraftCap(kByRows: seq<(nat, nat)>, effectiveK: nat, liveRows: nat): Option<nat> {
    if liveRows < 1 then None
    else if kByRows == [] then Some(effectiveK)
    else FirstCovering(kByRows, liveRows)
  }

  method LookUpDraftCap(kByRows: seq<(nat, nat)>, effectiveK: nat, liveRows: nat) returns (cap: Option<nat>)
    ensures cap == DraftCap(kByRows, effectiveK, liveRows)
  {
    if liveRows < 1 { return None; }
    if kByRows == [] { return Some(effectiveK); }
    for i := 0 to |kByRows|
      invariant FirstCovering(kByRows, liveRows) == FirstCovering(kByRows[i..], liveRows)
    {
      if liveRows <= kByRows[i].0 { return Some(kByRows[i].1); }
    }
    return None;
  }

  /** Entry `i` has the smallest declared row limit that is at least the live rows. */
  ghost predicate Covers(kByRows: seq<(nat, nat)>, liveRows: nat, i: nat) {
    && i < |kByRows| && liveRows <= kByRows[i].0
    && forall j :: 0 <= j < |kByRows| && liveRows <= kByRows[j].0 ==> kByRows[i].0 <= kByRows[j].0
  }

  lemma {:induction false} FirstCoveringIsTightest(kByRows: seq<(nat, nat)>, liveRows: nat)
    requires forall i, j :: 0 <= i < j < |kByRows| ==> kByRows[i].0 < kByRows[j].0
    ensures FirstCovering(kByRows, liveRows).None? <==> forall i :: 0 <= i < |kByRows| ==> kByRows[i].0 < liveRows
    ensures FirstCovering(kByRows, liveRows).Some? ==>
              exists i: nat :: Covers(kByRows, liveRows, i) && kByRows[i].1 == FirstCovering(kByRows, liveRows).value
  {
    if kByRows != [] {
      if liveRows <= kByRows[0].0 {
        assert Covers(kByRows, liveRows, 0);
      } else {
        var rest := kByRows[1..];
        FirstCoveringIsTightest(rest, liveRows);
        assert forall i :: 0 < i < |kByRows| ==> kByRows[i] == rest[i - 1];
        if FirstCovering(rest, liveRows).Some? {
          var i: nat :| Covers(rest, liveRows, i) && rest[i].1 == FirstCovering(rest, liveRows).value;
          assert Covers(kByRows, liveRows, i + 1);
        }
      }
    }
  }

  /** A granted cap lies in [1, K] and is the one the tightest covering entry declares. */
  lemma DraftCapCorrect(kByRows: seq<(nat, nat)>, effectiveK: nat, liveRows: nat)
    requires ValidKByRows(kByRows, effectiveK) && liveRows >= 1
    ensures DraftCap(kByRows, effectiveK, liveRows).None? <==>
            kByRows != [] && forall i :: 0 <= i < |kByRows| ==> kByRows[i].0 < liveRows
    ensures DraftCap(kByRows, effectiveK, liveRows).Some? ==>
              && 1 <= DraftCap(kByRows, effectiveK, liveRows).value <= effectiveK
              && (kByRows != [] ==>
                    exists i: nat ::
                      Covers(kByRows, liveRows, i) && kByRows[i].1 == DraftCap(kByRows, effectiveK, liveRows).value)
  {
    FirstCoveringIsTightest(kByRows, liveRows);
  }
}
