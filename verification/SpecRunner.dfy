/**
 The speculative half of `TTModelRunner` in its own form: dictionaries updated in place, rows
 built by loops. Every method is tied to the specification function of the same step.
 */
module SpecRunner {
  import opened Runtime
  import opened SpecAccept
  import opened SpecDecode

  class Runner {
    const launch: Launch
    var history: map<ReqId, seq<Token>>
    var acceptedCounts: map<ReqId, nat>
    var proposed: map<ReqId, seq<Token>>
    /** Requests holding a row of the persistent batch, and requests holding a device state slot. */
    var batch: set<ReqId>
    var slots: set<ReqId>

    constructor (launch: Launch)
      ensures this.launch == launch && Model() == Host(map[], map[], map[]) && batch == {} && slots == {}
    {
      this.launch := launch;
      history, acceptedCounts, proposed := map[], map[], map[];
      batch, slots := {}, {};
    }

    function Model(): Host
      reads this
    {
      Host(history, acceptedCounts, proposed)
    }

    /** One request of `_drafts_to_verify`: its proposal is popped whatever is verified. */
    method TakeDraft(scheduled: map<ReqId, seq<Token>>, r: ReqId) returns (draft: Option<seq<Token>>)
      modifies this`proposed
      ensures draft == ResolveFor(old(Model()), scheduled, r)
      ensures draft.Some? ==> proposed == old(proposed) - {r}
    {
      var offered := GetOr(scheduled, r, []);
      var placeholders := CountPlaceholders(offered);
      if placeholders != 0 && placeholders != |offered| { return None; }
      var taken := GetOr(proposed, r, []);
      proposed := proposed - {r};
      if placeholders == 0 { return Some(offered); }
      return Some(taken[..Min(placeholders, |taken|)]);
    }

    /** `_drafts_to_verify`: a proposal is consumed once, whatever the step turns out to be. */
    method ConsumeDrafts(scheduled: map<ReqId, seq<Token>>, rows: seq<ReqId>)
      returns (result: Result<map<ReqId, seq<Token>>, StepError>)
      requires Distinct(rows)
      modifies this`proposed
      ensures match DraftsToVerify(launch, old(Model()), scheduled, rows)
              case Err(e) => result == Err(e)
              case Ok((drafts, left)) => result == Ok(drafts) && proposed == left
    {
      if !launch.asyncScheduling { return Ok(scheduled); }
      ghost var before := Model();
      var drafts := map[];
      for i := 0 to |rows|
        invariant forall j :: 0 <= j < i ==> ResolveFor(before, scheduled, rows[j]).Some?
        invariant forall r :: r in drafts <==> r in rows[..i] && ResolveFor(before, scheduled, r) != Some([])
        invariant forall r :: r in drafts ==> ResolveFor(before, scheduled, r) == Some(drafts[r])
        invariant forall r :: r in proposed <==> r in before.proposed && r !in rows[..i]
        invariant forall r :: r in proposed ==> proposed[r] == before.proposed[r]
      {
        var r := rows[i];
        assert rows[..i + 1] == rows[..i] + [r] && r !in rows[..i];
        assert ResolveFor(Model(), scheduled, r) == ResolveFor(before, scheduled, r);
        var draft := TakeDraft(scheduled, r);
        if draft.None? {
          assert r in rows;
          return Err(MixedReservation);
        }
        if draft.value != [] { drafts := drafts[r := draft.value]; }
      }
      assert rows[..|rows|] == rows;
      assert forall r :: r in rows ==> ResolveFor(before, scheduled, r).Some?;
      ghost var (wanted, left) := DraftsToVerify(launch, before, scheduled, rows).value;
      assert drafts == wanted && proposed == left;
      return Ok(drafts);
    }

    /** `_spec_row_state`: drafts come from the resolved proposals, counts from the runner. */
    method RowState(drafts: map<ReqId, seq<Token>>, rows: seq<ReqId>, cap: nat)
      returns (result: Result<(seq<seq<Token>>, seq<nat>, seq<nat>), StepError>)
      requires cap <= launch.k
      ensures result.Err? <==> exists r :: r in rows && |DraftOf(drafts, r)| > launch.k
      ensures result.Err? ==> result == Err(TooManyDrafts)
      ensures result.Ok? ==> result.value == (
        LiveDrafts(launch.k, cap, drafts, rows), LiveValid(cap, drafts, rows), LiveCounts(Model(), rows))
    {
      var padded := seq(|rows|, _ => seq(launch.k, _ => PLACEHOLDER_TOKEN_ID));
      var valid: seq<nat> := seq(|rows|, _ => 0);
      var counts: seq<nat> := seq(|rows|, _ => 1);
      for i := 0 to |rows|
        invariant |padded| == |valid| == |counts| == |rows|
        invariant forall j :: 0 <= j < i ==> |DraftOf(drafts, rows[j])| <= launch.k
        invariant forall j :: 0 <= j < i ==> padded[j] == PadDrafts(launch.k, cap, DraftOf(drafts, rows[j]))
        invariant forall j :: i <= j < |rows| ==>
                    |padded[j]| == launch.k && forall c :: 0 <= c < launch.k ==> padded[j][c] == PLACEHOLDER_TOKEN_ID
        invariant forall j :: 0 <= j < i ==> valid[j] == ValidDrafts(cap, DraftOf(drafts, rows[j]))
        invariant forall j :: 0 <= j < i ==> counts[j] == GetOr(acceptedCounts, rows[j], 1)
      {
        counts := counts[i := GetOr(acceptedCounts, rows[i], 1)];
        var offered := GetOr(drafts, rows[i], []);
        if |offered| > launch.k {
          assert rows[i] in rows;
          return Err(TooManyDrafts);
        }
        var kept := offered[..Min(cap, |offered|)];
        valid := valid[i := |kept|];
        var row := kept + padded[i][|kept|..];
        assert row == PadDrafts(launch.k, cap, DraftOf(drafts, rows[i]));
        padded := padded[i := row];
      }
      assert padded == LiveDrafts(launch.k, cap, drafts, rows);
      assert valid == LiveValid(cap, drafts, rows);
      assert counts == LiveCounts(Model(), rows);
      return Ok((padded, valid, counts));
    }

    /** `drafts[rows] = live`: a scatter into a block filled with the padding value. */
    static method Scatter<T>(step: StepIn, live: seq<T>, padding: T) returns (block: seq<T>)
      requires Placed(step) && Distinct(step.liveRows) && |live| == |step.liveRows|
      ensures block == Spread(step, live, padding)
    {
      block := seq(step.numRows, _ => padding);
      for k := 0 to |live|
        invariant |block| == step.numRows
        invariant forall i :: 0 <= i < |block| ==>
                    block[i] == var k' := LiveAt(step.liveRows, i); if k' < k then live[k'] else padding
      {
        block := block[step.liveRows[k] := live[k]];
        assert LiveAt(step.liveRows, step.liveRows[k]) == k;
      }
    }

    method PopCounts(rows: seq<ReqId>)
      modifies this`acceptedCounts
      ensures acceptedCounts == WithoutRows(old(acceptedCounts), rows)
    {
      for i := 0 to |rows|
        invariant acceptedCounts == WithoutRows(old(acceptedCounts), rows[..i])
      {
        assert rows[..i + 1] == rows[..i] + [rows[i]];
        acceptedCounts := acceptedCounts - {rows[i]};
      }
      assert rows[..|rows|] == rows;
    }

    /** `_spec_decode_rows`. */
    method BuildStep(step: StepIn, inputTokens: seq<Token>, inputPositions: seq<int>)
      returns (result: Result<SpecRows, StepError>)
      requires |inputTokens| == |inputPositions| == step.numRows
      requires Distinct(step.rows) && Distinct(step.liveRows)
      modifies this`acceptedCounts, this`proposed
      ensures match BuildRows(launch, old(Model()), step, inputTokens, inputPositions)
              case Err(e) => result == Err(e)
              case Ok((host, built)) => result == Ok(built) && Model() == host
    {
      if launch.k == 0 { return Ok(PlainRows(inputTokens, inputPositions, None)); }
      if !Placed(step) { return Err(BadPlacement); }
      acceptedCounts := map r | r in acceptedCounts && r in history :: acceptedCounts[r];
      ghost var kept := Model();
      var tokens, positions := MaskTokens(step, inputTokens), MaskPositions(step, inputPositions);
      var resolved := ConsumeDrafts(step.scheduled, step.rows);
      if resolved.Err? { return Err(resolved.error); }
      var drafts := resolved.value;
      ghost var consumed := Model();
      assert consumed == kept.(proposed := DraftsToVerify(launch, kept, step.scheduled, step.rows).value.1);
      if Declines(launch, Model(), drafts, step.rows) {
        PopCounts(step.rows);
        return Ok(PlainRows(tokens, positions, None));
      }
      var cap := LookUpDraftCap(launch.kByRows, launch.k, |step.rows|);
      if cap.None? || !(1 <= cap.value <= launch.k) { return Err(UncoveredRows); }
      result := BuildFromDrafts(step, drafts, tokens, positions, cap.value);
    }

    /** The tail of `_spec_decode_rows` after the early return: side tensors, then one of the two shapes. */
    method BuildFromDrafts(step: StepIn, drafts: map<ReqId, seq<Token>>, tokens: seq<Token>, positions: seq<int>, cap: nat)
      returns (result: Result<SpecRows, StepError>)
      requires Placed(step) && Distinct(step.liveRows) && |tokens| == |positions| == step.numRows
      requires CapFor(launch, step.rows) == Some(cap)
      modifies this`acceptedCounts
      ensures match FullBuild(launch, old(Model()), drafts, step, tokens, positions)
              case Err(e) => result == Err(e)
              case Ok((host, built)) => result == Ok(built) && Model() == host
    {
      var live := RowState(drafts, step.rows, cap);
      if live.Err? { return Err(live.error); }
      var (liveDrafts, liveValid, liveCounts) := live.value;
      var block := Scatter(step, liveDrafts, PadDrafts(launch.k, 0, []));
      var valid := Scatter(step, liveValid, 0);
      var counts := Scatter(step, liveCounts, 1);
      if StepVerifies(launch.narrow, forall r :: r in step.rows ==> r in step.speculable, liveValid, liveCounts) {
        return Ok(SpecRows(WideTokens(launch.k, step, block, valid, tokens), WidePositions(launch.k, step, valid, positions),
                           block, valid, Some(counts), true));
      }
      PopCounts(step.rows);
      return Ok(PlainRows(tokens, positions, if UnresolvedCommit(liveCounts) then Some(counts) else None));
    }

    /** `_apply_committed_spec_tokens_to_state`: `ok` is false when a write would not fit its row. */
    method ApplyCommitted(rows: seq<ReqId>, committed: seq<seq<Token>>, counts: seq<nat>, skip: set<ReqId>)
      returns (ok: bool)
      requires |rows| == |committed| == |counts|
      requires forall i :: 0 <= i < |rows| ==> counts[i] <= |committed[i]|
      requires batch <= history.Keys
      modifies this`history, this`acceptedCounts
      ensures ok <==> CommitRows(launch.maxModelLen, old(Model()), rows, committed, counts, skip, batch, slots).Some?
      ensures ok ==> CommitRows(launch.maxModelLen, old(Model()), rows, committed, counts, skip, batch, slots) == Some(Model())
    {
      ghost var before := Model();
      for i := 0 to |rows|
        invariant batch <= history.Keys
        invariant CommitRows(launch.maxModelLen, before, rows[..i], committed[..i], counts[..i], skip, batch, slots) == Some(Model())
      {
        PrefixStep(launch.maxModelLen, before, rows, committed, counts, skip, batch, slots, i);
        var r := rows[i];
        if r !in skip {
          var block := committed[i][..counts[i]];
          if r in batch {
            var start := |history[r]|;
            if start > launch.maxModelLen {
              PrefixFails(launch.maxModelLen, before, rows, committed, counts, skip, batch, slots, i + 1);
              return false;
            }
            block := block[..Min(|block|, launch.maxModelLen - start)];
            assert block == committed[i][..Min(counts[i], launch.maxModelLen - start)];
            history := history[r := history[r] + block];
          } else if r in history {
            history := history[r := history[r] + block];
          }
          if r in batch || r in slots {
            acceptedCounts := acceptedCounts[r := Max(|block|, 1)];
          }
        }
      }
      assert rows[..|rows|] == rows && committed[..|rows|] == committed && counts[..|rows|] == counts;
      return true;
    }
  }

  lemma PrefixStep(maxModelLen: nat, host: Host, rows: seq<ReqId>, committed: seq<seq<Token>>, counts: seq<nat>,
                   skip: set<ReqId>, batch: set<ReqId>, slots: set<ReqId>, i: nat)
    requires |rows| == |committed| == |counts| && i < |rows|
    requires forall i :: 0 <= i < |rows| ==> counts[i] <= |committed[i]|
    ensures CommitRows(maxModelLen, host, rows[..i + 1], committed[..i + 1], counts[..i + 1], skip, batch, slots)
            == match CommitRows(maxModelLen, host, rows[..i], committed[..i], counts[..i], skip, batch, slots)
               case None => None
               case Some(before) =>
                 if rows[i] in skip then Some(before)
                 else CommitOne(maxModelLen, before, rows[i], committed[i], counts[i], batch, slots)
  {
    assert rows[..i + 1][..i] == rows[..i] && committed[..i + 1][..i] == committed[..i] && counts[..i + 1][..i] == counts[..i];
  }

  lemma {:induction false} PrefixFails(maxModelLen: nat, host: Host, rows: seq<ReqId>, committed: seq<seq<Token>>,
                                       counts: seq<nat>, skip: set<ReqId>, batch: set<ReqId>, slots: set<ReqId>, i: nat)
    requires |rows| == |committed| == |counts| && i <= |rows|
    requires forall i :: 0 <= i < |rows| ==> counts[i] <= |committed[i]|
    requires CommitRows(maxModelLen, host, rows[..i], committed[..i], counts[..i], skip, batch, slots).None?
    ensures CommitRows(maxModelLen, host, rows, committed, counts, skip, batch, slots).None?
    decreases |rows| - i
  {
    if i == |rows| {
      assert rows[..i] == rows && committed[..i] == committed && counts[..i] == counts;
    } else {
      PrefixStep(maxModelLen, host, rows, committed, counts, skip, batch, slots, i);
      PrefixFails(maxModelLen, host, rows, committed, counts, skip, batch, slots, i + 1);
    }
  }
}
