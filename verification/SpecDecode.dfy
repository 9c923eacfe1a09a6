/**
 One speculative decode step, from the drafts the runner holds to the tokens it commits.
 The functions here are the specification: `SpecRunner` builds and commits with the runner's
 own loops and dictionaries, `SpecRuns` composes the steps into whole runs.
 */
module SpecDecode {
  import opened Runtime
  import opened SpecAccept

  /** What one launch fixes. `k` of 0 is a launch that never speculates. */
  datatype Launch = Launch(k: nat, narrow: bool, asyncScheduling: bool, maxModelLen: nat, kByRows: seq<(nat, nat)>)

  /** The runner state a step reads and writes: token histories, `_req_accepted_counts`
      and `_proposed_draft_token_ids`. */
  datatype Host = Host(history: map<ReqId, seq<Token>>, counts: map<ReqId, nat>, proposed: map<ReqId, seq<Token>>)

  /** One decode step's request: the scheduler's draft lists, the live requests, the block row
      each sits at, the width of the batch and which requests an accept walk can certify. */
  datatype StepIn = StepIn(
    scheduled: map<ReqId, seq<Token>>,
    rows: seq<ReqId>,
    liveRows: seq<nat>,
    numRows: nat,
    speculable: set<ReqId>)

  /** `SpecDecodeRows`: a [B, 1] or [B, 1+K] block. `accepted` is set while the model needs counts. */
  datatype SpecRows = SpecRows(
    tokens: seq<seq<Token>>,
    positions: seq<seq<int>>,
    drafts: seq<seq<Token>>,
    numValid: seq<nat>,
    accepted: Option<seq<nat>>,
    verify: bool)

  datatype StepError = MixedReservation | TooManyDrafts | UncoveredRows | BadPlacement

  // ----- which drafts a step verifies -----

  function CountPlaceholders(tokens: seq<Token>): nat {
    if tokens == [] then 0
    else (if tokens[0] == PLACEHOLDER_TOKEN_ID then 1 else 0) + CountPlaceholders(tokens[1..])
  }

  /** One request's drafts under asynchronous scheduling: placeholders reserve lookahead for the
      retained proposal, real ids are the proposal itself, a mix is refused. */
  function ResolveDraft(offered: seq<Token>, proposal: seq<Token>): Option<seq<Token>> {
    var placeholders := CountPlaceholders(offered);
    if placeholders == 0 then Some(offered)
    else if placeholders != |offered| then None
    else Some(proposal[..Min(placeholders, |proposal|)])
  }

  function ResolveFor(host: Host, scheduled: map<ReqId, seq<Token>>, r: ReqId): Option<seq<Token>> {
    ResolveDraft(GetOr(scheduled, r, []), GetOr(host.proposed, r, []))
  }

  function DraftsToVerify(launch: Launch, host: Host, scheduled: map<ReqId, seq<Token>>, rows: seq<ReqId>)
    : Result<(map<ReqId, seq<Token>>, map<ReqId, seq<Token>>), StepError>
  {
    if !launch.asyncScheduling then Ok((scheduled, host.proposed))
    else if exists r :: r in rows && ResolveFor(host, scheduled, r).None? then Err(MixedReservation)
    else Ok((map r | r in rows && ResolveFor(host, scheduled, r) != Some([]) :: ResolveFor(host, scheduled, r).value,
             map r | r in host.proposed && r !in rows :: host.proposed[r]))
  }

  // ----- the block -----

  /** Index of the live request that sits at block row `row`; the length when none does. */
  function LiveAt(liveRows: seq<nat>, row: nat): (k: nat)
    ensures k <= |liveRows|
    ensures k < |liveRows| ==> liveRows[k] == row
    ensures k == |liveRows| <==> row !in liveRows
  {
    if liveRows == [] then 0 else if liveRows[0] == row then 0 else 1 + LiveAt(liveRows[1..], row)
  }

  function DraftOf(drafts: map<ReqId, seq<Token>>, r: ReqId): seq<Token> {
    GetOr(drafts, r, [])
  }

  function ValidDrafts(cap: nat, drafts: seq<Token>): nat {
    Min(cap, |drafts|)
  }

  function PadDrafts(k: nat, cap: nat, drafts: seq<Token>): seq<Token> {
    var valid := ValidDrafts(cap, drafts);
    seq(k, j requires 0 <= j < k => if j < valid then drafts[j] else PLACEHOLDER_TOKEN_ID)
  }

  function CandidateTokens(drafts: seq<Token>, valid: nat, token: Token): seq<Token> {
    seq(1 + |drafts|, j requires 0 <= j <= |drafts| =>
      if j == 0 then token else if j > valid then PLACEHOLDER_TOKEN_ID else drafts[j - 1])
  }

  function CandidatePositions(k: nat, valid: nat, position: int): seq<int> {
    seq(1 + k, j requires 0 <= j <= k => if j > valid then -1 else position + j)
  }

  predicate UnresolvedCommit(counts: seq<nat>) {
    exists i :: 0 <= i < |counts| && counts[i] > 1
  }

  /** `_step_verifies`: the four rules in order. */
  predicate StepVerifies(narrow: bool, everyRowSpeculable: bool, numValid: seq<nat>, counts: seq<nat>) {
    if !narrow then true
    else if !everyRowSpeculable then false
    else if exists i :: 0 <= i < |numValid| && numValid[i] != 0 then true
    else UnresolvedCommit(counts)
  }

  predicate Placed(step: StepIn) {
    |step.liveRows| == |step.rows| && forall k :: 0 <= k < |step.liveRows| ==> step.liveRows[k] < step.numRows
  }

  function LiveCounts(host: Host, rows: seq<ReqId>): (counts: seq<nat>) {
    seq(|rows|, k requires 0 <= k < |rows| => GetOr(host.counts, rows[k], 1))
  }

  function LiveValid(cap: nat, drafts: map<ReqId, seq<Token>>, rows: seq<ReqId>): seq<nat> {
    seq(|rows|, k requires 0 <= k < |rows| => ValidDrafts(cap, DraftOf(drafts, rows[k])))
  }

  function LiveDrafts(k: nat, cap: nat, drafts: map<ReqId, seq<Token>>, rows: seq<ReqId>): seq<seq<Token>> {
    seq(|rows|, i requires 0 <= i < |rows| => PadDrafts(k, cap, DraftOf(drafts, rows[i])))
  }

  /** The block's tokens; a padding row's draft columns carry token 0 like its column 0. */
  function WideTokens(k: nat, step: StepIn, block: seq<seq<Token>>, valid: seq<nat>, tokens: seq<Token>): seq<seq<Token>>
    requires |block| == |valid| == |tokens| == step.numRows
  {
    seq(step.numRows, i requires 0 <= i < step.numRows =>
      if i in step.liveRows then CandidateTokens(block[i], valid[i], tokens[i]) else seq(1 + k, _ => 0))
  }

  function WidePositions(k: nat, step: StepIn, valid: seq<nat>, positions: seq<int>): seq<seq<int>>
    requires |valid| == |positions| == step.numRows
  {
    seq(step.numRows, i requires 0 <= i < step.numRows => CandidatePositions(k, valid[i], positions[i]))
  }

  /** Scatters a per-live-request value over the block rows. */
  function Spread<T>(step: StepIn, live: seq<T>, padding: T): seq<T>
    requires |live| == |step.liveRows|
  {
    seq(step.numRows, i requires 0 <= i < step.numRows => var k := LiveAt(step.liveRows, i); if k < |live| then live[k] else padding)
  }

  function WithoutRows(counts: map<ReqId, nat>, rows: seq<ReqId>): map<ReqId, nat> {
    map r | r in counts && r !in rows :: counts[r]
  }

  /** `_forget_finished_spec_state`. */
  function ForgetFinished(host: Host): Host {
    host.(counts := map r | r in host.counts && r in host.history :: host.counts[r])
  }

  function PlainRows(tokens: seq<Token>, positions: seq<int>, accepted: Option<seq<nat>>): SpecRows
    requires |tokens| == |positions|
  {
    SpecRows(seq(|tokens|, i requires 0 <= i < |tokens| => [tokens[i]]),
             seq(|tokens|, i requires 0 <= i < |tokens| => [positions[i]]), [], [], accepted, false)
  }

  /** The step's draft cap; None is an uncovered row count or a cap outside [1, K]. */
  function CapFor(launch: Launch, rows: seq<ReqId>): Option<nat> {
    var cap := DraftCap(launch.kByRows, launch.k, |rows|);
    if cap.Some? && 1 <= cap.value <= launch.k then cap else None
  }

  /** The side tensors, the block and the host update once the drafts are known. `tokens` and
      `positions` already carry padding rows as token 0 at position -1. */
  function FullBuild(launch: Launch, host: Host, drafts: map<ReqId, seq<Token>>, step: StepIn,
                     tokens: seq<Token>, positions: seq<int>): Result<(Host, SpecRows), StepError>
    requires Placed(step) && |tokens| == |positions| == step.numRows
  {
    if CapFor(launch, step.rows).None? then Err(UncoveredRows)
    else if exists r :: r in step.rows && |DraftOf(drafts, r)| > launch.k then Err(TooManyDrafts)
    else
      var cap := CapFor(launch, step.rows).value;
      var liveCounts := LiveCounts(host, step.rows);
      var liveValid := LiveValid(cap, drafts, step.rows);
      var counts := Spread(step, liveCounts, 1);
      if StepVerifies(launch.narrow, forall r :: r in step.rows ==> r in step.speculable, liveValid, liveCounts) then
        var valid := Spread(step, liveValid, 0);
        var block := Spread(step, LiveDrafts(launch.k, cap, drafts, step.rows), PadDrafts(launch.k, 0, []));
        Ok((host, SpecRows(WideTokens(launch.k, step, block, valid, tokens), WidePositions(launch.k, step, valid, positions),
                           block, valid, Some(counts), true)))
      else
        Ok((host.(counts := WithoutRows(host.counts, step.rows)),
            PlainRows(tokens, positions, if UnresolvedCommit(liveCounts) then Some(counts) else None)))
  }

  predicate Declines(launch: Launch, host: Host, drafts: map<ReqId, seq<Token>>, rows: seq<ReqId>) {
    && launch.narrow
    && (forall r :: r in drafts ==> drafts[r] == [])
    && (forall r :: r in rows ==> GetOr(host.counts, r, 1) <= 1)
  }

  /** A row no live request owns is sent inactive: token 0 at position -1. */
  function MaskTokens(step: StepIn, tokens: seq<Token>): seq<Token> {
    seq(|tokens|, i requires 0 <= i < |tokens| => if i in step.liveRows then tokens[i] else 0)
  }

  function MaskPositions(step: StepIn, positions: seq<int>): seq<int> {
    seq(|positions|, i requires 0 <= i < |positions| => if i in step.liveRows then positions[i] else -1)
  }

  /** `_spec_decode_rows`, with its early return for a step that verifies nothing. */
  function BuildRows(launch: Launch, host: Host, step: StepIn, tokens: seq<Token>, positions: seq<int>)
    : Result<(Host, SpecRows), StepError>
    requires |tokens| == |positions| == step.numRows
  {
    if launch.k == 0 then Ok((host, PlainRows(tokens, positions, None)))
    else if !Placed(step) then Err(BadPlacement)
    else
      var kept := ForgetFinished(host);
      match DraftsToVerify(launch, kept, step.scheduled, step.rows)
      case Err(e) => Err(e)
      case Ok((drafts, proposed)) =>
        var consumed := kept.(proposed := proposed);
        var t, p := MaskTokens(step, tokens), MaskPositions(step, positions);
        if Declines(launch, consumed, drafts, step.rows) then
          Ok((consumed.(counts := WithoutRows(consumed.counts, step.rows)), PlainRows(t, p, None)))
        else
          FullBuild(launch, consumed, drafts, step, t, p)
  }

  /** What admission checks of a launch: a cap in [1, K] for every row count up to `maxRows`. */
  ghost predicate Admitted(launch: Launch, maxRows: nat) {
    && launch.k >= 1 && ValidKByRows(launch.kByRows, launch.k)
    && (launch.kByRows != [] ==> launch.kByRows[|launch.kByRows| - 1].0 >= maxRows)
  }

  /** An admitted launch never asks for a row count its caps do not cover. */
  lemma AdmittedCovers(launch: Launch, maxRows: nat, rows: seq<ReqId>)
    requires Admitted(launch, maxRows)
    ensures 1 <= |rows| <= maxRows ==> CapFor(launch, rows).Some?
    ensures rows == [] ==> CapFor(launch, rows).None?
  {
    if 1 <= |rows| <= maxRows {
      DraftCapCorrect(launch.kByRows, launch.k, |rows|);
    }
  }

  /** The early return changes nothing, same rows and same state, exactly where the full build has a cap for
      the row count; elsewhere the full build raises and the early return does not. */
  lemma DeclinedStepEqualsFullBuild(launch: Launch, host: Host, drafts: map<ReqId, seq<Token>>, step: StepIn,
                                    tokens: seq<Token>, positions: seq<int>)
    requires Placed(step) && |tokens| == |positions| == step.numRows
    requires Declines(launch, host, drafts, step.rows)
    ensures FullBuild(launch, host, drafts, step, tokens, positions)
            == Ok((host.(counts := WithoutRows(host.counts, step.rows)), PlainRows(tokens, positions, None)))
            <==> CapFor(launch, step.rows).Some?
    ensures CapFor(launch, step.rows).None? ==> FullBuild(launch, host, drafts, step, tokens, positions) == Err(UncoveredRows)
  {
    if CapFor(launch, step.rows).Some? {
      var liveValid := LiveValid(CapFor(launch, step.rows).value, drafts, step.rows);
      forall k | 0 <= k < |step.rows| ensures liveValid[k] == 0 && LiveCounts(host, step.rows)[k] <= 1 {
        assert step.rows[k] in step.rows;
      }
    }
  }

  /** A row no live request owns proposes nothing, sits nowhere and stands on its own input token. */
  predicate Inert(launch: Launch, built: SpecRows, i: nat)
    requires i < |built.tokens| && i < |built.positions| && i < |built.drafts| && i < |built.numValid|
    requires built.accepted.Some? && i < |built.accepted.value|
  {
    && built.tokens[i] == seq(1 + launch.k, _ => 0) && built.positions[i] == seq(1 + launch.k, _ => -1)
    && built.drafts[i] == seq(launch.k, _ => PLACEHOLDER_TOKEN_ID) && built.numValid[i] == 0 && built.accepted.value[i] == 1
  }

  /** A live row carries its last token, its drafts up to the valid count, and nothing beyond. */
  predicate Carrying(launch: Launch, built: SpecRows, i: nat, token: Token, position: int)
    requires i < |built.tokens| && i < |built.positions| && i < |built.drafts| && i < |built.numValid|
  {
    var valid := built.numValid[i];
    && valid <= launch.k && |built.tokens[i]| == |built.positions[i]| == 1 + launch.k && |built.drafts[i]| == launch.k
    && built.tokens[i][0] == token && built.positions[i][0] == position
    && (forall j :: 1 <= j <= launch.k ==>
          && built.tokens[i][j] == (if j <= valid then built.drafts[i][j - 1] else PLACEHOLDER_TOKEN_ID)
          && built.positions[i][j] == (if j <= valid then position + j else -1))
    && forall j :: valid <= j < launch.k ==> built.drafts[i][j] == PLACEHOLDER_TOKEN_ID
  }

  /** Every row of a verify's block is one or the other, wherever the live rows sit. */
  lemma VerifyBlockShape(launch: Launch, host: Host, drafts: map<ReqId, seq<Token>>, step: StepIn,
                         tokens: seq<Token>, positions: seq<int>, i: nat)
    requires Placed(step) && |tokens| == |positions| == step.numRows && i < step.numRows
    requires FullBuild(launch, host, drafts, step, MaskTokens(step, tokens), MaskPositions(step, positions)).Ok?
    requires FullBuild(launch, host, drafts, step, MaskTokens(step, tokens), MaskPositions(step, positions)).value.1.verify
    ensures var built := FullBuild(launch, host, drafts, step, MaskTokens(step, tokens), MaskPositions(step, positions)).value.1;
            && |built.tokens| == |built.positions| == |built.drafts| == |built.numValid| == step.numRows
            && built.accepted.Some? && |built.accepted.value| == step.numRows
            && (i in step.liveRows ==> Carrying(launch, built, i, tokens[i], positions[i]))
            && (i !in step.liveRows ==> Inert(launch, built, i))
  {
    var built := FullBuild(launch, host, drafts, step, MaskTokens(step, tokens), MaskPositions(step, positions)).value.1;
    var cap := CapFor(launch, step.rows).value;
    var k := LiveAt(step.liveRows, i);
    if i in step.liveRows {
      var draft := DraftOf(drafts, step.rows[k]);
      assert built.numValid[i] == ValidDrafts(cap, draft) && built.drafts[i] == PadDrafts(launch.k, cap, draft);
      assert built.tokens[i] == CandidateTokens(built.drafts[i], built.numValid[i], tokens[i]);
      assert built.positions[i] == CandidatePositions(launch.k, built.numValid[i], positions[i]);
    } else {
      assert built.numValid[i] == 0 && built.drafts[i] == PadDrafts(launch.k, 0, []);
      assert built.tokens[i] == seq(1 + launch.k, _ => 0);
      assert built.positions[i] == CandidatePositions(launch.k, 0, -1);
      assert built.positions[i] == seq(1 + launch.k, _ => -1);
      assert built.drafts[i] == seq(launch.k, _ => PLACEHOLDER_TOKEN_ID);
    }
  }

  // ----- the commit -----

  /** `spec_committed_prefixes` for one row: cut at what fits past the submitted position. */
  function PublishedPrefix(maxModelLen: nat, firstPosition: int, committed: seq<Token>, count: nat): seq<Token>
    requires count <= |committed|
  {
    committed[..Min(count, Max(0, maxModelLen - (firstPosition + 1)))]
  }

  /** The block `_apply_committed_spec_tokens_to_state` writes: capped only for a request that
      holds a row of the persistent batch. None is the write past the end of that row. */
  function WrittenBlock(maxModelLen: nat, length: nat, holdsRow: bool, committed: seq<Token>, count: nat): Option<seq<Token>>
    requires count <= |committed|
  {
    if !holdsRow then Some(committed[..count])
    else if length > maxModelLen then None
    else Some(committed[..Min(count, maxModelLen - length)])
  }

  /** A prefix cut behind position `length - 1` is what a commit at `length` writes exactly when the length
      is within the cap of a request that holds a row, or the whole prefix fits one that does not: the
      rowless branch applies no cap of its own. */
  lemma CutIsWrittenExactly(maxModelLen: nat, length: nat, holdsRow: bool, committed: seq<Token>, count: nat)
    requires 1 <= count <= |committed|
    ensures WrittenBlock(maxModelLen, length, holdsRow, committed, count)
            == Some(PublishedPrefix(maxModelLen, length - 1, committed, count))
            <==> if holdsRow then length <= maxModelLen else length + count <= maxModelLen
  {
    if !holdsRow && length + count > maxModelLen {
      assert |PublishedPrefix(maxModelLen, length - 1, committed, count)| < |committed[..count]|;
    }
  }

  /** The rowless branch at the cap: one token fits, two are written. */
  lemma RowlessCommitOverflows()
    ensures PublishedPrefix(4, 2, [7, 8], 2) == [7]
    ensures WrittenBlock(4, 3, false, [7, 8], 2) == Some([7, 8])
    ensures 3 + |WrittenBlock(4, 3, false, [7, 8], 2).value| > 4
  {
    assert [7, 8][..2] == [7, 8] && [7, 8][..1] == [7];
  }

  /** One row's commit. A request without row and slot has lost its candidate state, so it records no count. */
  function CommitOne(maxModelLen: nat, host: Host, r: ReqId, committed: seq<Token>, count: nat,
                     batch: set<ReqId>, slots: set<ReqId>): Option<Host>
    requires count <= |committed|
  {
    if r !in host.history then
      // A request the runner no longer holds: nothing to extend, and a count only if it kept a slot.
      Some(if r in slots then host.(counts := host.counts[r := Max(count, 1)]) else host)
    else
      match WrittenBlock(maxModelLen, |host.history[r]|, r in batch, committed, count)
      case None => None
      case Some(block) =>
        var extended := host.(history := host.history[r := host.history[r] + block]);
        Some(if r in batch || r in slots then extended.(counts := extended.counts[r := Max(|block|, 1)]) else extended)
  }

  /** `_apply_committed_spec_tokens_to_state` over the step's live rows, oldest row first. */
  function CommitRows(maxModelLen: nat, host: Host, rows: seq<ReqId>, committed: seq<seq<Token>>, counts: seq<nat>,
                      skip: set<ReqId>, batch: set<ReqId>, slots: set<ReqId>): Option<Host>
    requires |rows| == |committed| == |counts|
    requires forall i :: 0 <= i < |rows| ==> counts[i] <= |committed[i]|
  {
    if rows == [] then Some(host)
    else
      var n := |rows| - 1;
      match CommitRows(maxModelLen, host, rows[..n], committed[..n], counts[..n], skip, batch, slots)
      case None => None
      case Some(before) =>
        if rows[n] in skip then Some(before)
        else CommitOne(maxModelLen, before, rows[n], committed[n], counts[n], batch, slots)
  }
}
