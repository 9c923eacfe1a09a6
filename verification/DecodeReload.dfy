/**
 The decisions of the async decode controller as functions: what a decode submission reloads, what an
 accepted or a failed one leaves behind, and when a submission may overlap an unread one.
 Contract version 1 or later, front-packed batch.
 */
module DecodeReload {
  import opened Runtime
  import opened SpecDecode

  /** A row's block ids, per KV cache group. */
  type Tables = seq<seq<seq<nat>>>

  /** What one launch fixes, and the facts about a request that never change while it lives.
      `traced`: some step kind is traced; `decodeTraced`: decodes are. `resident`: the model keeps decode
      inputs on the device. `plain(r)`: r asks for no penalty, token filter, logits processor or logprobs.
      `sampler(ids)`: the device samples a batch of exactly these requests. */
  datatype Engine = Engine(launch: Launch, traced: bool, decodeTraced: bool, resident: bool,
                           plain: ReqId -> bool, sampler: set<ReqId> -> bool,
                           certified: ReqId -> bool, certifiedWhenSampled: ReqId -> bool)

  /** One scheduler output, reduced to what the overlap decisions read. */
  datatype SchedOut = SchedOut(scheduled: set<ReqId>, prefill: bool, finished: set<ReqId>, structured: bool,
                               drafts: map<ReqId, seq<Token>>, discards: map<ReqId, nat>)

  datatype Input = Input(rows: SpecRows, deviceSampling: bool, layoutChanged: bool, hostControls: bool, tables: Tables)

  datatype ReloadPlan = ReloadPlan(reloadInputs: bool, reloadPageTable: bool, reloadSampling: bool, resetSampling: bool) {
    predicate OverlapSafe() {
      !(reloadInputs || reloadSampling || resetSampling)
    }
  }

  /** Decode residency, committed at submission rather than readback. */
  datatype Chain = Chain(valid: bool, deviceSampling: Option<bool>, verified: bool, hostAnswered: bool, tables: Option<Tables>)

  const COLD_CHAIN := Chain(false, None, false, false, None)

  predicate Transition(c: Chain, input: Input) {
    || !c.valid
    || input.layoutChanged
    || (c.deviceSampling.Some? && c.deviceSampling.value != input.deviceSampling)
    || (c.verified && !input.rows.verify)
    || (c.hostAnswered && !input.rows.verify)
  }

  /** `plan_decode_reload`. */
  function Plan(engine: Engine, c: Chain, input: Input): ReloadPlan {
    var transition := Transition(c, input);
    var reload := input.rows.verify || !input.deviceSampling || transition || !engine.resident || !engine.decodeTraced;
    var reset := input.deviceSampling && transition;
    ReloadPlan(reload, !reload && c.tables != Some(input.tables), reset, reset)
  }

  /** `commit_decode_submission`. */
  function Committed(c: Chain, input: Input, plan: ReloadPlan, hostAnswered: bool): Chain {
    Chain(true, Some(input.deviceSampling), input.rows.verify, hostAnswered,
          if plan.reloadInputs || plan.reloadPageTable || c.tables.None? then Some(input.tables) else c.tables)
  }

  /** The model took the decode, its answer never arrived. */
  function ReadFailed(c: Chain): Chain {
    c.(valid := false, verified := false, hostAnswered := false)
  }

  function PrefillNoted(c: Chain): Chain {
    c.(valid := false)
  }

  predicate BaseEnabled(engine: Engine) {
    engine.launch.asyncScheduling && engine.traced
  }

  predicate AllPlain(engine: Engine, ids: set<ReqId>) {
    forall r :: r in ids ==> engine.plain(r)
  }

  /** `can_attempt_steady_decode_from_scheduler`: asked before the batch is updated, so of the
      requests of the previous step. */
  predicate CanAttempt(engine: Engine, c: Chain, out: SchedOut, held: set<ReqId>, layoutChanged: bool) {
    && BaseEnabled(engine)
    && !out.prefill && !layoutChanged
    && c.valid && c.deviceSampling == Some(true)
    && held == out.scheduled
    && !out.structured
    && AllPlain(engine, held) && engine.sampler(held)
  }

  /** `can_use_steady_decode_fast_path`: asked of the decode that was built. */
  predicate CanUseSteady(engine: Engine, c: Chain, input: Input) {
    && BaseEnabled(engine)
    && input.deviceSampling && !input.layoutChanged && !input.hostControls
    && Plan(engine, c, input).OverlapSafe()
  }

  predicate Speculable(engine: Engine, r: ReqId, sampled: bool) {
    engine.certified(r) || (sampled && engine.certifiedWhenSampled(r))
  }

  /** One scheduled request that would make the step a verify. */
  predicate WantsVerify(host: Host, out: SchedOut, r: ReqId) {
    || (exists i :: 0 <= i < |GetOr(out.drafts, r, [])| && GetOr(out.drafts, r, [])[i] != PLACEHOLDER_TOKEN_ID)
    || GetOr(host.proposed, r, []) != []
    || GetOr(host.counts, r, 1) > 1
  }

  /** `_next_step_verifies`; `outstanding`: some step is still pending. */
  predicate NextVerifies(engine: Engine, host: Host, out: SchedOut, outstanding: bool) {
    && engine.launch.k != 0 && outstanding
    && (engine.launch.narrow ==> forall r :: r in out.scheduled ==> Speculable(engine, r, true))
    && exists r :: r in out.scheduled && WantsVerify(host, out, r)
  }

  /** `must_drain_pending_async_steps`. */
  predicate MustDrain(engine: Engine, host: Host, out: SchedOut, overlapOk: seq<bool>, candidate: bool) {
    && overlapOk != []
    && (out.discards != map[] || !candidate || false in overlapOk || NextVerifies(engine, host, out, true))
  }

  // ----- the decode that gets built -----

  function Sampled(engine: Engine, out: SchedOut, rows: seq<ReqId>): bool {
    !out.structured && engine.sampler(set r | r in rows)
  }

  function LastToken(history: seq<Token>): Token {
    if history == [] then 0 else history[|history| - 1]
  }

  function HostTokens(host: Host, rows: seq<ReqId>): (s: seq<Token>)
    ensures |s| == |rows|
  {
    seq(|rows|, i requires 0 <= i < |rows| => LastToken(GetOr(host.history, rows[i], [])))
  }

  function HostPositions(host: Host, rows: seq<ReqId>): (s: seq<int>)
    ensures |s| == |rows|
  {
    seq(|rows|, i requires 0 <= i < |rows| => |GetOr(host.history, rows[i], [])| - 1)
  }

  function TablesOf(tables: map<ReqId, seq<seq<nat>>>, rows: seq<ReqId>): Tables {
    seq(|rows|, i requires 0 <= i < |rows| => GetOr(tables, rows[i], []))
  }

  function DecodeStep(engine: Engine, out: SchedOut, rows: seq<ReqId>): (step: StepIn)
    ensures step.numRows == |rows|
  {
    var sampled := Sampled(engine, out, rows);
    StepIn(out.drafts, rows, seq(|rows|, i requires 0 <= i < |rows| => i), |rows|, set r | r in rows && Speculable(engine, r, sampled))
  }

  /** `_prepare_model_inputs` for a decode. */
  function BuildDecode(engine: Engine, host: Host, out: SchedOut, rows: seq<ReqId>, tables: map<ReqId, seq<seq<nat>>>,
                       layoutChanged: bool): Result<(Host, Input), StepError>
  {
    match BuildRows(engine.launch, host, DecodeStep(engine, out, rows), HostTokens(host, rows), HostPositions(host, rows))
    case Err(e) => Err(e)
    case Ok((after, block)) =>
      Ok((after, Input(block, Sampled(engine, out, rows), layoutChanged, exists r :: r in rows && !engine.plain(r),
                       TablesOf(tables, rows))))
  }

  // ----- what the build means -----

  /** Column 0 of the block is each live row's last token at its position, whatever the step verifies. */
  lemma BuiltColumnZero(engine: Engine, host: Host, out: SchedOut, rows: seq<ReqId>, tables: map<ReqId, seq<seq<nat>>>,
                        layoutChanged: bool)
    requires BuildDecode(engine, host, out, rows, tables, layoutChanged).Ok?
    ensures var block := BuildDecode(engine, host, out, rows, tables, layoutChanged).value.1.rows;
            && |block.tokens| == |block.positions| == |rows|
            && forall i :: 0 <= i < |rows| ==>
                 && |block.tokens[i]| > 0 && |block.positions[i]| > 0
                 && block.tokens[i][0] == HostTokens(host, rows)[i] && block.positions[i][0] == HostPositions(host, rows)[i]
  {
    var step, t, p := DecodeStep(engine, out, rows), HostTokens(host, rows), HostPositions(host, rows);
    forall i | 0 <= i < |rows| ensures i in step.liveRows {
      assert step.liveRows[i] == i;
    }
    assert MaskTokens(step, t) == t && MaskPositions(step, p) == p;
    BuiltBlock(engine.launch, host, step, t, p);
  }

  lemma BuiltBlock(launch: Launch, host: Host, step: StepIn, tokens: seq<Token>, positions: seq<int>)
    requires |tokens| == |positions| == step.numRows && BuildRows(launch, host, step, tokens, positions).Ok?
    requires MaskTokens(step, tokens) == tokens && MaskPositions(step, positions) == positions
    requires forall i :: 0 <= i < step.numRows ==> i in step.liveRows
    ensures var block := BuildRows(launch, host, step, tokens, positions).value.1;
            && |block.tokens| == |block.positions| == step.numRows
            && forall i :: 0 <= i < step.numRows ==>
                 && |block.tokens[i]| > 0 && |block.positions[i]| > 0
                 && block.tokens[i][0] == tokens[i] && block.positions[i][0] == positions[i]
  {
  }

  /** A row of a built verify: last token and position in column 0, drafts and consecutive positions behind. */
  lemma BuiltVerifyRow(engine: Engine, host: Host, out: SchedOut, rows: seq<ReqId>, tables: map<ReqId, seq<seq<nat>>>,
                       layoutChanged: bool, i: nat)
    requires var built := BuildDecode(engine, host, out, rows, tables, layoutChanged); built.Ok? && built.value.1.rows.verify
    requires i < |rows|
    ensures var block := BuildDecode(engine, host, out, rows, tables, layoutChanged).value.1.rows;
            && i < |block.tokens| && i < |block.positions| && i < |block.drafts| && i < |block.numValid|
            && Carrying(engine.launch, block, i, HostTokens(host, rows)[i], HostPositions(host, rows)[i])
  {
    var step, t, p := DecodeStep(engine, out, rows), HostTokens(host, rows), HostPositions(host, rows);
    assert step.liveRows[i] == i;
    VerifiedRow(engine.launch, host, step, t, p, i);
  }

  lemma VerifiedRow(launch: Launch, host: Host, step: StepIn, tokens: seq<Token>, positions: seq<int>, i: nat)
    requires |tokens| == |positions| == step.numRows && i < step.numRows && i in step.liveRows
    requires var built := BuildRows(launch, host, step, tokens, positions); built.Ok? && built.value.1.verify
    ensures var block := BuildRows(launch, host, step, tokens, positions).value.1;
            && i < |block.tokens| && i < |block.positions| && i < |block.drafts| && i < |block.numValid|
            && Carrying(launch, block, i, tokens[i], positions[i])
  {
    var kept := ForgetFinished(host);
    var (drafts, proposed) := DraftsToVerify(launch, kept, step.scheduled, step.rows).value;
    VerifyBlockShape(launch, kept.(proposed := proposed), drafts, step, tokens, positions, i);
  }

  /** The preflight over-approximates the build: with a step outstanding, a decode that is built as a
      verify was predicted to be one. Only a launch without narrow decodes verifies unpredicted. */
  lemma PreflightSeesVerify(engine: Engine, host: Host, out: SchedOut, rows: seq<ReqId>, tables: map<ReqId, seq<seq<nat>>>,
                            layoutChanged: bool)
    requires engine.launch.asyncScheduling && engine.launch.narrow && (set r | r in rows) == out.scheduled
    requires var built := BuildDecode(engine, host, out, rows, tables, layoutChanged); built.Ok? && built.value.1.rows.verify
    ensures NextVerifies(engine, host, out, true)
  {
    var step := DecodeStep(engine, out, rows);
    var launch := engine.launch;
    assert launch.k != 0;
    var kept := ForgetFinished(host);
    var (drafts, proposed) := DraftsToVerify(launch, kept, step.scheduled, rows).value;
    var consumed := kept.(proposed := proposed);
    assert !Declines(launch, consumed, drafts, rows);
    VerifyCause(launch, consumed, drafts, step, MaskTokens(step, HostTokens(host, rows)), MaskPositions(step, HostPositions(host, rows)));
    forall r | r in out.scheduled ensures Speculable(engine, r, true) {
      assert r in rows && r in step.speculable;
    }
    var r :| r in rows && (DraftOf(drafts, r) != [] || GetOr(consumed.counts, r, 1) > 1);
    DraftedWants(launch, host, out, rows, r);
    assert r in out.scheduled;
  }

  /** A row with a draft to verify or an unresolved commit is what the preflight looks for. */
  lemma DraftedWants(launch: Launch, host: Host, out: SchedOut, rows: seq<ReqId>, r: ReqId)
    requires launch.asyncScheduling && r in rows && DraftsToVerify(launch, ForgetFinished(host), out.drafts, rows).Ok?
    requires || DraftOf(DraftsToVerify(launch, ForgetFinished(host), out.drafts, rows).value.0, r) != []
             || GetOr(ForgetFinished(host).counts, r, 1) > 1
    ensures WantsVerify(host, out, r)
  {
    if DraftOf(DraftsToVerify(launch, ForgetFinished(host), out.drafts, rows).value.0, r) != [] {
      DraftIsOffered(ForgetFinished(host), out.drafts, r);
    }
  }

  /** A narrow step verifies only speculable rows, and only for a draft or an unresolved commit. */
  lemma VerifyCause(launch: Launch, host: Host, drafts: map<ReqId, seq<Token>>, step: StepIn, tokens: seq<Token>, positions: seq<int>)
    requires launch.narrow && Placed(step) && |tokens| == |positions| == step.numRows
    requires var built := FullBuild(launch, host, drafts, step, tokens, positions); built.Ok? && built.value.1.verify
    ensures forall r :: r in step.rows ==> r in step.speculable
    ensures exists r :: r in step.rows && (DraftOf(drafts, r) != [] || GetOr(host.counts, r, 1) > 1)
  {
    var cap := CapFor(launch, step.rows).value;
    var valid, counts := LiveValid(cap, drafts, step.rows), LiveCounts(host, step.rows);
    if i :| 0 <= i < |valid| && valid[i] != 0 {
      assert step.rows[i] in step.rows && ValidDrafts(cap, DraftOf(drafts, step.rows[i])) == valid[i];
    } else {
      var i :| 0 <= i < |counts| && counts[i] > 1;
      assert step.rows[i] in step.rows;
    }
  }

  /** A draft to verify is a real offered token, or comes from a retained proposal. */
  lemma DraftIsOffered(host: Host, scheduled: map<ReqId, seq<Token>>, r: ReqId)
    requires ResolveFor(host, scheduled, r).Some? && ResolveFor(host, scheduled, r).value != []
    ensures (exists i :: 0 <= i < |GetOr(scheduled, r, [])| && GetOr(scheduled, r, [])[i] != PLACEHOLDER_TOKEN_ID)
            || GetOr(host.proposed, r, []) != []
  {
    var offered := GetOr(scheduled, r, []);
    if CountPlaceholders(offered) == 0 {
      assert offered[0] != PLACEHOLDER_TOKEN_ID;
    }
  }
}
