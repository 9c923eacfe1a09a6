/** Every event keeps the invariant, so every run is lossless. */
module SpecTheorems {
  import opened Runtime
  import opened SpecAccept
  import opened SpecDecode
  import opened SpecRuns
  import opened SpecLossless

  // ----- the two commits, row by row -----

  /** The inputs of one verify commit. */
  datatype Verified = Verified(maxModelLen: nat, rows: seq<ReqId>, committed: seq<seq<Token>>, counts: seq<nat>,
                               skip: set<ReqId>, batch: set<ReqId>, slots: set<ReqId>) {
    ghost predicate Shaped() {
      |rows| == |committed| == |counts| && Distinct(rows) && forall i :: 0 <= i < |rows| ==> counts[i] <= |committed[i]|
    }

    ghost function Apply(host: Host): Option<Host>
      requires Shaped()
    {
      CommitRows(maxModelLen, host, rows, committed, counts, skip, batch, slots)
    }

    ghost function Prefix(): Verified
      requires rows != [] && Shaped()
    {
      var n := |rows| - 1;
      this.(rows := rows[..n], committed := committed[..n], counts := counts[..n])
    }
  }

  lemma {:induction false} CommitRowsElsewhere(v: Verified, host: Host, q: ReqId)
    requires v.Shaped() && v.Apply(host).Some?
    ensures v.Apply(host).value.history.Keys == host.history.Keys
    ensures q !in v.rows || q in v.skip ==>
              && (q in host.history ==> v.Apply(host).value.history[q] == host.history[q])
              && (q in v.Apply(host).value.counts <==> q in host.counts)
              && (q in host.counts ==> v.Apply(host).value.counts[q] == host.counts[q])
    decreases |v.rows|
  {
    if v.rows != [] {
      CommitRowsElsewhere(v.Prefix(), host, q);
      assert v.rows == v.Prefix().rows + [v.rows[|v.rows| - 1]];
    }
  }

  /** A verify's commit extends each row it does not skip by the block written for it, and records
      that block's length as the row's count, never below 1. */
  lemma {:induction false} CommitRowsAt(v: Verified, host: Host, k: nat)
    requires v.Shaped() && v.Apply(host).Some? && k < |v.rows| && v.rows[k] !in v.skip && v.rows[k] in host.history
    ensures var r, after := v.rows[k], v.Apply(host).value;
            var written := WrittenBlock(v.maxModelLen, |host.history[r]|, r in v.batch, v.committed[k], v.counts[k]);
            && written.Some? && r in after.history
            && after.history[r] == host.history[r] + written.value
            && (r in v.batch || r in v.slots ==> r in after.counts && after.counts[r] == Max(|written.value|, 1))
    decreases |v.rows|
  {
    var n := |v.rows| - 1;
    assert v.rows == v.Prefix().rows + [v.rows[n]];
    CommitRowsElsewhere(v.Prefix(), host, v.rows[n]);
    CommitRowsElsewhere(v.Prefix(), host, v.rows[k]);
    if k < n {
      CommitRowsAt(v.Prefix(), host, k);
    }
  }

  lemma {:induction false} CommitRowsCounts(v: Verified, host: Host, bound: nat, q: ReqId)
    requires v.Shaped() && v.Apply(host).Some? && bound >= 1 && forall k :: 0 <= k < |v.rows| ==> v.counts[k] <= bound
    requires q in host.counts ==> 1 <= host.counts[q] <= bound
    ensures q in v.Apply(host).value.counts ==> 1 <= v.Apply(host).value.counts[q] <= bound
    decreases |v.rows|
  {
    if v.rows != [] {
      CommitRowsCounts(v.Prefix(), host, bound, q);
    }
  }

  /** Row `k` of a plain commit got its own token, and no other. */
  predicate GotToken(maxModelLen: nat, host: Host, after: Host, r: ReqId, token: Token, batch: set<ReqId>) {
    && r in host.history && r in after.history && after.history[r] == host.history[r] + [token]
    && (r in batch ==> |host.history[r]| < maxModelLen)
  }

  /** A plain step's commit appends exactly its own token to every row that is not skipped. */
  lemma {:induction false} CommitPlainPointwise(maxModelLen: nat, host: Host, rows: seq<ReqId>, tokens: seq<Token>,
                                                skip: set<ReqId>, batch: set<ReqId>)
    requires |rows| == |tokens| && Distinct(rows)
    requires CommitPlain(maxModelLen, host, rows, tokens, skip, batch).Some?
    ensures var after := CommitPlain(maxModelLen, host, rows, tokens, skip, batch).value;
            && after.history.Keys == host.history.Keys && after.counts == host.counts
            && (forall q :: q in host.history && (q !in rows || q in skip) ==> after.history[q] == host.history[q])
            && (forall k :: 0 <= k < |rows| && rows[k] !in skip ==> GotToken(maxModelLen, host, after, rows[k], tokens[k], batch))
  {
    if rows != [] {
      var n := |rows| - 1;
      CommitPlainPointwise(maxModelLen, host, rows[..n], tokens[..n], skip, batch);
      assert rows == rows[..n] + [rows[n]];
      assert rows[n] !in rows[..n];
      var before := CommitPlain(maxModelLen, host, rows[..n], tokens[..n], skip, batch).value;
      var after := CommitPlain(maxModelLen, host, rows, tokens, skip, batch).value;
      forall k | 0 <= k < n && rows[k] !in skip ensures GotToken(maxModelLen, host, after, rows[k], tokens[k], batch) {
        assert rows[..n][k] == rows[k] && tokens[..n][k] == tokens[k] && rows[k] != rows[n];
      }
    }
  }

  // ----- submission -----

  lemma {:induction false} IndexOfAt(rows: seq<ReqId>, k: nat)
    requires Distinct(rows) && k < |rows|
    ensures IndexOf(rows, rows[k]) == k
  {
  }

  lemma ForwardShape(target: Target, s: State, e: Event, host: Host, built: SpecRows)
    requires e.Submit? && CanSubmit(s, e) && AllWellshaped(e, built) && |built.tokens| == e.step.numRows
    ensures FlightShape(Forward(target, s, e, host, built).flight.value)
  {
    var answers := Forward(target, s, e, host, built).flight.value.answers;
    forall i | 0 <= i < e.step.numRows ensures |answers[i]| == |built.tokens[i]| {
      assert answers[i] == AnswerAt(target, s, e, built, i);
    }
  }

  lemma ForwardedRow(launch: Launch, target: Target, s: State, e: Event, host: Host, built: SpecRows, k: nat)
    requires e.Submit? && CanSubmit(s, e) && AllWellshaped(e, built) && |built.tokens| == e.step.numRows
    requires FlightShape(Forward(target, s, e, host, built).flight.value)
    requires k < |e.step.rows| && e.step.rows[k] in s.host.history && e.step.rows[k] in s.device
    requires var r, i, h := e.step.rows[k], e.step.liveRows[k], s.host.history[e.step.rows[k]];
             && Carries(launch, built, i, h[|h| - 1], |h| - 1, GetOr(s.host.counts, r, 1))
             && Aligned(launch.maxModelLen, s.device[r], h, GetOr(s.host.counts, r, 1))
    ensures var after, r := Forward(target, s, e, host, built), e.step.rows[k];
            && AnswersHistory(launch.maxModelLen, target, r, s.host.history[r], after.flight.value, e.step.liveRows[k])
            && DeviceHolds(launch.maxModelLen, after.device[r], s.host.history[r], after.flight.value, e.step.liveRows[k])
  {
    var r, i, h := e.step.rows[k], e.step.liveRows[k], s.host.history[e.step.rows[k]];
    LiveAtPlaced(e.step.liveRows, k);
    IndexOfAt(e.step.rows, k);
    ForwardRow(launch.maxModelLen, target, r, s.device[r], h, built, i, e.idleAnswers[i]);
    var after := Forward(target, s, e, host, built);
    assert after.flight.value.answers[i] == AnswerAt(target, s, e, built, i)
        == RowAnswer(target, r, s.device[r], built, i, e.idleAnswers[i]);
    assert after.device[r] == RowAfter(s.device[r], built, i);
  }

  /** Every live row of the built step carries its request's last token, drafts and count. */
  ghost predicate RowsCarry(launch: Launch, s: State, e: Event, built: SpecRows)
    requires e.Submit? && CanSubmit(s, e)
  {
    forall k :: 0 <= k < |e.step.rows| ==> RowCarries(launch, s, e, built, k)
  }

  ghost predicate RowCarries(launch: Launch, s: State, e: Event, built: SpecRows, k: nat)
    requires e.Submit? && CanSubmit(s, e) && k < |e.step.rows|
  {
    assert e.step.rows[k] in e.step.rows;
    var h := s.host.history[e.step.rows[k]];
    Carries(launch, built, e.step.liveRows[k], h[|h| - 1], |h| - 1, GetOr(s.host.counts, e.step.rows[k], 1))
  }

  /** Building changes only counts, and an ordinary decode leaves its rows without one. */
  ghost predicate BuildEffect(s: State, e: Event, host: Host, built: SpecRows)
    requires e.Submit?
  {
    && host.history == s.host.history
    && (forall r :: r in host.counts ==> r in s.host.counts && host.counts[r] == s.host.counts[r])
    && (forall r :: r in host.history && r !in e.step.rows ==> GetOr(host.counts, r, 1) == GetOr(s.host.counts, r, 1))
    && (!built.verify ==> forall r :: r in e.step.rows ==> r !in host.counts)
  }

  lemma ForwardFlightFits(launch: Launch, target: Target, s: State, e: Event, host: Host, built: SpecRows)
    requires Inv(launch, target, s) && e.Submit? && CanSubmit(s, e)
    requires AllWellshaped(e, built) && |built.tokens| == e.step.numRows && (built.verify ==> launch.k >= 1)
    requires BuildEffect(s, e, host, built) && RowsCarry(launch, s, e, built)
    ensures var after := Forward(target, s, e, host, built);
            after.flight.Some? && FlightFits(launch, target, after, after.flight.value)
  {
    ForwardShape(target, s, e, host, built);
    var after := Forward(target, s, e, host, built);
    var f := after.flight.value;
    forall k | 0 <= k < |f.rows|
      ensures f.rows[k] in s.host.history
      ensures AnswersHistory(launch.maxModelLen, target, f.rows[k], s.host.history[f.rows[k]], f, f.liveRows[k])
      ensures DeviceHolds(launch.maxModelLen, after.device[f.rows[k]], s.host.history[f.rows[k]], f, f.liveRows[k])
      ensures !built.verify ==> f.rows[k] !in host.counts
    {
      assert e.step.rows[k] in e.step.rows;
      assert RowCarries(launch, s, e, built, k);
      assert !InFlight(s, e.step.rows[k]);
      ForwardedRow(launch, target, s, e, host, built, k);
    }
  }

  lemma ForwardKeeps(launch: Launch, target: Target, s: State, e: Event, host: Host, built: SpecRows)
    requires Inv(launch, target, s) && e.Submit? && CanSubmit(s, e)
    requires AllWellshaped(e, built) && |built.tokens| == e.step.numRows && (built.verify ==> launch.k >= 1)
    requires BuildEffect(s, e, host, built) && RowsCarry(launch, s, e, built)
    ensures Inv(launch, target, Forward(target, s, e, host, built))
  {
    ForwardFlightFits(launch, target, s, e, host, built);
    var after := Forward(target, s, e, host, built);
    forall r | r in after.device && !InFlight(after, r)
      ensures Aligned(launch.maxModelLen, after.device[r], after.host.history[r], GetOr(after.host.counts, r, 1))
    {
      assert r !in e.step.rows;
      assert !InFlight(s, r);
    }
  }

  /** The builder's rows meet what the forward needs. */
  lemma SubmittedRowCarries(launch: Launch, s: State, e: Event, k: nat)
    requires e.Submit? && CanSubmit(s, e) && CountsInRange(launch, s.host.counts) && k < |e.step.rows|
    requires BuildRows(launch, s.host, e.step, InputTokens(s, e), InputPositions(s, e)).Ok?
    ensures var built := BuildRows(launch, s.host, e.step, InputTokens(s, e), InputPositions(s, e)).value.1;
            |built.tokens| == e.step.numRows && RowCarries(launch, s, e, built, k)
  {
    var r, i := e.step.rows[k], e.step.liveRows[k];
    assert r in e.step.rows;
    var h := s.host.history[r];
    LiveAtPlaced(e.step.liveRows, k);
    assert InputTokens(s, e)[i] == InputToken(s.host, e.step, e.idleTokens, i) == h[|h| - 1];
    assert InputPositions(s, e)[i] == InputPosition(s.host, e.step, e.idlePositions, i) == |h| - 1;
    BuiltRow(launch, s.host, e.step, InputTokens(s, e), InputPositions(s, e), k);
  }

  lemma SubmitKeeps(launch: Launch, target: Target, s: State, e: Event)
    requires Inv(launch, target, s) && e.Submit? && CanSubmit(s, e)
    requires SubmitStep(launch, target, s, e).Some?
    ensures Inv(launch, target, SubmitStep(launch, target, s, e).value)
  {
    var (host, built) := BuildRows(launch, s.host, e.step, InputTokens(s, e), InputPositions(s, e)).value;
    BuildKeepsHistory(launch, s.host, e.step, InputTokens(s, e), InputPositions(s, e));
    forall k | 0 <= k < |e.step.rows| ensures RowCarries(launch, s, e, built, k) {
      SubmittedRowCarries(launch, s, e, k);
    }
    BuiltWidth(launch, s.host, e.step, InputTokens(s, e), InputPositions(s, e));
    ForwardKeeps(launch, target, s, e, host, built);
  }

  lemma BuiltWidth(launch: Launch, host: Host, step: StepIn, tokens: seq<Token>, positions: seq<int>)
    requires |tokens| == |positions| == step.numRows && BuildRows(launch, host, step, tokens, positions).Ok?
    ensures |BuildRows(launch, host, step, tokens, positions).value.1.tokens| == step.numRows
  {
  }

  // ----- commit -----

  /** Row `k` of the verify in flight commits `block`. */
  ghost predicate Verifies(launch: Launch, target: Target, s: State, f: Flight, walk: Walk, k: nat, block: seq<Token>) {
    && Inv(launch, target, s) && s.flight == Some(f) && f.built.verify && k < |f.rows| && f.rows[k] in s.host.history
    && FlightShape(f) && Walkable(launch, f) && WalkOf(launch, f) == Ok(walk) && WalkFits(f, walk)
    && WrittenBlock(launch.maxModelLen, |s.host.history[f.rows[k]]|, f.rows[k] in s.batch, walk.committed.rows[f.liveRows[k]],
                    walk.counts[f.liveRows[k]]) == Some(block)
    && (f.rows[k] !in s.batch ==> |s.host.history[f.rows[k]]| < launch.maxModelLen)
  }

  /** One live row of a verify, from its answer to its extended history. */
  lemma VerifiedRowContinues(launch: Launch, target: Target, s: State, f: Flight, walk: Walk, k: nat, block: seq<Token>)
    requires Verifies(launch, target, s, f, walk, k, block)
    ensures var r := f.rows[k]; var h := s.host.history[r] + block;
            && Continues(target, r, s.prompts[r], h)
            && (r in s.device ==> Aligned(launch.maxModelLen, s.device[r], h, Max(|block|, 1)))
  {
    if |s.host.history[f.rows[k]]| < launch.maxModelLen {
      OpenRowContinues(launch, target, s, f, walk, k, block);
    } else {
      FullRowContinues(launch, target, s, f, walk, k, block);
    }
  }

  lemma OpenRowContinues(launch: Launch, target: Target, s: State, f: Flight, walk: Walk, k: nat, block: seq<Token>)
    requires Verifies(launch, target, s, f, walk, k, block) && |s.host.history[f.rows[k]]| < launch.maxModelLen
    ensures var r := f.rows[k]; var h := s.host.history[r] + block;
            && Continues(target, r, s.prompts[r], h)
            && (r in s.device ==> Aligned(launch.maxModelLen, s.device[r], h, Max(|block|, 1)))
  {
    var r, i := f.rows[k], f.liveRows[k];
    var h, c, valid := s.host.history[r], walk.counts[i], RowValid(f.built, i);
    BlockIsAnswer(launch, target, s, f, walk, k, block);
    assert AnswersHistory(launch.maxModelLen, target, r, h, f, i);
    AcceptedContinues(target, r, s.prompts[r], h, f.built.tokens[i], f.answers[i], c);
    if r in s.device {
      assert DeviceHolds(launch.maxModelLen, s.device[r], h, f, i);
      CommittedRowAligned(launch.maxModelLen, s.device[r], h, f.built.tokens[i], f.answers[i], valid, |block|);
    }
  }

  /** Below the cap the committed block is a non-empty prefix of the accepted answer. */
  lemma BlockIsAnswer(launch: Launch, target: Target, s: State, f: Flight, walk: Walk, k: nat, block: seq<Token>)
    requires Verifies(launch, target, s, f, walk, k, block) && |s.host.history[f.rows[k]]| < launch.maxModelLen
    ensures var i := f.liveRows[k];
            && |f.built.drafts| == |f.answers| && AcceptsExactly(f.answers[i], f.built.drafts[i], RowValid(f.built, i), walk.counts[i])
            && 1 <= |block| <= walk.counts[i] <= |f.answers[i]| && block == f.answers[i][..|block|]
  {
    var i, c := f.liveRows[k], walk.counts[f.liveRows[k]];
    AcceptGreedyDraftsCorrect(Block(launch.k + 1, f.answers), Block(launch.k, f.built.drafts), f.built.numValid);
    assert AcceptsExactly(f.answers[i], f.built.drafts[i], RowValid(f.built, i), c);
    assert block == walk.committed.rows[i][..c][..|block|] == f.answers[i][..c][..|block|];
  }

  /** A history at the cap takes nothing more. */
  lemma FullRowContinues(launch: Launch, target: Target, s: State, f: Flight, walk: Walk, k: nat, block: seq<Token>)
    requires Verifies(launch, target, s, f, walk, k, block) && |s.host.history[f.rows[k]]| >= launch.maxModelLen
    ensures var r := f.rows[k]; var h := s.host.history[r] + block;
            && Continues(target, r, s.prompts[r], h)
            && (r in s.device ==> Aligned(launch.maxModelLen, s.device[r], h, Max(|block|, 1)))
  {
    var r, i := f.rows[k], f.liveRows[k];
    var h := s.host.history[r];
    assert block == [] && h + block == h;
    if r in s.device {
      assert DeviceHolds(launch.maxModelLen, s.device[r], h, f, i);
      FullRowAligned(launch.maxModelLen, s.device[r], h, f.built.tokens[i], RowValid(f.built, i));
    }
  }

  lemma FullRowAligned(maxModelLen: nat, row: DeviceRow, history: seq<Token>, tokens: seq<Token>, valid: nat)
    requires history != [] && |history| >= maxModelLen && valid < |tokens|
    requires |row.kv| >= |history| + valid && row.kv[..|history| + valid] == history[..|history| - 1] + tokens[..valid + 1]
    ensures Aligned(maxModelLen, row, history, 1)
  {
    assert row.kv[..|history| - 1] == row.kv[..|history| + valid][..|history| - 1];
  }

  lemma CommitVerifyKeeps(launch: Launch, target: Target, s: State, skip: set<ReqId>)
    requires Inv(launch, target, s) && CanCommit(launch, s, skip) && s.flight.value.built.verify
    requires CommitStep(launch, s, skip).Some?
    ensures Inv(launch, target, CommitStep(launch, s, skip).value)
  {
    var f := s.flight.value;
    var walk := WalkOf(launch, f).value;
    var v := Verified(launch.maxModelLen, f.rows, LiveCommitted(f, walk), LiveAccepted(f, walk), skip, s.batch, s.device.Keys);
    var after := CommitStep(launch, s, skip).value;
    assert v.Apply(s.host) == Some(after.host);
    AcceptGreedyDraftsCorrect(Block(launch.k + 1, f.answers), Block(launch.k, f.built.drafts), f.built.numValid);
    forall q ensures after.host.history.Keys == s.host.history.Keys
             ensures q in after.host.counts ==> 1 <= after.host.counts[q] <= 1 + launch.k
    {
      CommitRowsElsewhere(v, s.host, q);
      CommitRowsCounts(v, s.host, 1 + launch.k, q);
    }
    forall r | r in s.prompts
      ensures Continues(target, r, s.prompts[r], after.host.history[r])
      ensures r in s.device ==> Aligned(launch.maxModelLen, s.device[r], after.host.history[r], GetOr(after.host.counts, r, 1))
    {
      if r in f.rows && r !in skip {
        var k := IndexOf(f.rows, r);
        CommitRowsAt(v, s.host, k);
        var written := WrittenBlock(v.maxModelLen, |s.host.history[r]|, r in v.batch, v.committed[k], v.counts[k]).value;
        VerifiedRowContinues(launch, target, s, f, walk, k, written);
      } else {
        CommitRowsElsewhere(v, s.host, r);
      }
    }
  }

  lemma SampledRowContinues(launch: Launch, target: Target, s: State, f: Flight, k: nat)
    requires Inv(launch, target, s) && s.flight == Some(f) && !f.built.verify && k < |f.rows| && f.rows[k] in s.host.history
    requires FlightShape(f) && |s.host.history[f.rows[k]]| < launch.maxModelLen
    ensures var r := f.rows[k]; var h := s.host.history[r] + [f.answers[f.liveRows[k]][0]];
            && Continues(target, r, s.prompts[r], h)
            && (r in s.device ==> Aligned(launch.maxModelLen, s.device[r], h, GetOr(s.host.counts, r, 1)))
  {
    var r, i := f.rows[k], f.liveRows[k];
    var h, tokens, answer := s.host.history[r], f.built.tokens[i], f.answers[i];
    assert AnswersHistory(launch.maxModelLen, target, r, h, f, i);
    AcceptedContinues(target, r, s.prompts[r], h, tokens, answer, 1);
    assert answer[..1] == [answer[0]];
    if r in s.device {
      assert DeviceHolds(launch.maxModelLen, s.device[r], h, f, i);
      CommittedRowAligned(launch.maxModelLen, s.device[r], h, tokens, answer, 0, 1);
    }
  }

  lemma CommitPlainKeeps(launch: Launch, target: Target, s: State, skip: set<ReqId>)
    requires Inv(launch, target, s) && CanCommit(launch, s, skip) && !s.flight.value.built.verify
    requires CommitStep(launch, s, skip).Some?
    ensures Inv(launch, target, CommitStep(launch, s, skip).value)
  {
    var f := s.flight.value;
    var after := CommitStep(launch, s, skip).value;
    CommitPlainPointwise(launch.maxModelLen, s.host, f.rows, LiveSampled(f), skip, s.batch);
    forall r | r in s.prompts
      ensures Continues(target, r, s.prompts[r], after.host.history[r])
      ensures r in s.device ==> Aligned(launch.maxModelLen, s.device[r], after.host.history[r], GetOr(after.host.counts, r, 1))
    {
      if r in f.rows && r !in skip {
        var k := IndexOf(f.rows, r);
        SampledRowContinues(launch, target, s, f, k);
      }
    }
  }

  lemma PrefilledAligned(maxModelLen: nat, history: seq<Token>, token: Token)
    ensures Aligned(maxModelLen, DeviceRow(history, [history]), history + [token], 1)
  {
    assert (history + [token])[..|history|] == history;
  }

  lemma PrefillKeeps(launch: Launch, target: Target, s: State, rows: seq<ReqId>)
    requires Inv(launch, target, s) && CanPrefill(launch, s, rows)
    ensures Inv(launch, target, PrefillStep(target, s, rows))
  {
    var after := PrefillStep(target, s, rows);
    forall r | r in s.prompts
      ensures Continues(target, r, s.prompts[r], after.host.history[r])
      ensures r in after.device ==>
                Aligned(launch.maxModelLen, after.device[r], after.host.history[r], GetOr(after.host.counts, r, 1))
    {
      var h := s.host.history[r];
      if r in rows {
        ContinuesByOne(target, r, s.prompts[r], h, target(r, h, h));
        PrefilledAligned(launch.maxModelLen, h, target(r, h, h));
      } else {
        assert r in after.device ==> r in s.device && !InFlight(s, r);
      }
    }
  }

  lemma CommitKeeps(launch: Launch, target: Target, s: State, skip: set<ReqId>)
    requires Inv(launch, target, s) && CanCommit(launch, s, skip) && CommitStep(launch, s, skip).Some?
    ensures Inv(launch, target, CommitStep(launch, s, skip).value)
  {
    if s.flight.value.built.verify {
      CommitVerifyKeeps(launch, target, s, skip);
    } else {
      CommitPlainKeeps(launch, target, s, skip);
    }
  }

  lemma AdmitKeeps(launch: Launch, target: Target, s: State, e: Event)
    requires Inv(launch, target, s) && e.Admit? && Next(launch, target, s, e).Some?
    ensures Inv(launch, target, Next(launch, target, s, e).value)
  {
    var after := Next(launch, target, s, e).value;
    forall r | r in after.device && !InFlight(after, r)
      ensures Aligned(launch.maxModelLen, after.device[r], after.host.history[r], GetOr(after.host.counts, r, 1))
    {
      assert r in s.device && !InFlight(s, r);
    }
  }

  /** Losing a request's row, state or whole record. */
  lemma DropKeeps(launch: Launch, target: Target, s: State, e: Event)
    requires Inv(launch, target, s) && (e.Preempt? || e.Finish? || e.Rebatch? || e.Propose?) && Next(launch, target, s, e).Some?
    ensures Inv(launch, target, Next(launch, target, s, e).value)
  {
    var after := Next(launch, target, s, e).value;
    forall r | r in after.device && !InFlight(after, r)
      ensures Aligned(launch.maxModelLen, after.device[r], after.host.history[r], GetOr(after.host.counts, r, 1))
    {
      assert r in s.device && !InFlight(s, r);
    }
  }

  lemma NextKeeps(launch: Launch, target: Target, s: State, e: Event)
    requires Inv(launch, target, s) && Next(launch, target, s, e).Some?
    ensures Inv(launch, target, Next(launch, target, s, e).value)
  {
    match e
    case Submit(_, _, _, _) => SubmitKeeps(launch, target, s, e);
    case Commit(skip) => CommitKeeps(launch, target, s, skip);
    case Prefill(rows) => PrefillKeeps(launch, target, s, rows);
    case Admit(_, _) => AdmitKeeps(launch, target, s, e);
    case Rebatch(_) => DropKeeps(launch, target, s, e);
    case Propose(_) => DropKeeps(launch, target, s, e);
    case Preempt(_) => DropKeeps(launch, target, s, e);
    case Finish(_) => DropKeeps(launch, target, s, e);
  }

  lemma {:induction false} RunInvariant(launch: Launch, target: Target, events: seq<Event>)
    requires Run(launch, target, events).Some?
    ensures Inv(launch, target, Run(launch, target, events).value)
  {
    if events != [] {
      var n := |events| - 1;
      RunInvariant(launch, target, events[..n]);
      NextKeeps(launch, target, Run(launch, target, events[..n]).value, events[n]);
    }
  }

  // ----- main results -----

  /** Losslessness over every run: each history is what ordinary decoding generates at that length. */
  lemma SpeculationIsLossless(launch: Launch, target: Target, events: seq<Event>)
    requires Run(launch, target, events).Some?
    ensures var s := Run(launch, target, events).value;
            s.host.history.Keys == s.prompts.Keys
            && forall r :: r in s.prompts ==>
                 s.host.history[r] == Generate(target, r, s.prompts[r], |s.host.history[r]|)
  {
    RunInvariant(launch, target, events);
    var s := Run(launch, target, events).value;
    forall r | r in s.prompts ensures s.host.history[r] == Generate(target, r, s.prompts[r], |s.host.history[r]|) {
      ContinuesIsGenerate(target, r, s.prompts[r], s.host.history[r]);
    }
  }

  lemma {:induction false} GenerateExtends(target: Target, r: ReqId, prompt: seq<Token>, short: nat, long: nat)
    requires short <= long
    ensures |Generate(target, r, prompt, long)| == Max(|prompt|, long)
    ensures Generate(target, r, prompt, short) <= Generate(target, r, prompt, long)
    decreases long
  {
    if long > |prompt| {
      GenerateExtends(target, r, prompt, Min(short, long - 1), long - 1);
    }
  }

  /** Two launches, speculating or not, batched and interleaved in any way, give a request the same text. */
  lemma RunsAgree(launch1: Launch, events1: seq<Event>, launch2: Launch, events2: seq<Event>, target: Target, r: ReqId)
    requires Run(launch1, target, events1).Some? && Run(launch2, target, events2).Some?
    requires var s1, s2 := Run(launch1, target, events1).value, Run(launch2, target, events2).value;
             && r in s1.prompts && r in s2.prompts && s1.prompts[r] == s2.prompts[r]
             && r in s1.host.history && r in s2.host.history && |s1.host.history[r]| <= |s2.host.history[r]|
    ensures Run(launch1, target, events1).value.host.history[r]
            <= Run(launch2, target, events2).value.host.history[r]
  {
    SpeculationIsLossless(launch1, target, events1);
    SpeculationIsLossless(launch2, target, events2);
    var s1, s2 := Run(launch1, target, events1).value, Run(launch2, target, events2).value;
    GenerateExtends(target, r, s1.prompts[r], |s1.host.history[r]|, |s2.host.history[r]|);
  }

  /** In every reachable state every count lies in [1, 1+K]. Between its steps a request's count selects the
      state that holds everything but its last token, for every placement; at the length cap, where
      nothing more is committed, only the KV is claimed. */
  lemma CountsSelectTheirState(launch: Launch, target: Target, events: seq<Event>, r: ReqId)
    requires Run(launch, target, events).Some?
    ensures 1 <= GetOr(Run(launch, target, events).value.host.counts, r, 1) <= 1 + launch.k
    ensures var s := Run(launch, target, events).value;
            r in s.device && !InFlight(s, r) ==>
              && r in s.host.history && s.host.history[r] != []
              && var count, h := GetOr(s.host.counts, r, 1), s.host.history[r];
                 && |s.device[r].kv| >= |h| - 1 && s.device[r].kv[..|h| - 1] == h[..|h| - 1]
                 && (|h| < launch.maxModelLen ==> Selected(s.device[r], count) == h[..|h| - 1])
  {
    RunInvariant(launch, target, events);
  }

  // ----- what a verify publishes -----

  /** The position row `k` was submitted at. */
  ghost function SubmittedAt(f: Flight, k: nat): int
    requires FlightShape(f) && k < |f.rows|
  {
    assert Wellshaped(f.built, f.liveRows[k]);
    f.built.positions[f.liveRows[k]][0]
  }

  /** `spec_committed_prefixes`: what the readback publishes for row `k`, from the submitted step alone. */
  ghost function Published(launch: Launch, f: Flight, walk: Walk, k: nat): seq<Token>
    requires FlightShape(f) && WalkFits(f, walk) && k < |f.rows|
  {
    var i := f.liveRows[k];
    PublishedPrefix(launch.maxModelLen, SubmittedAt(f, k), walk.committed.rows[i], walk.counts[i])
  }

  /** A verify whose walk is known. */
  ghost predicate Walked(launch: Launch, s: State, walk: Walk) {
    && s.flight.Some? && s.flight.value.built.verify && FlightShape(s.flight.value)
    && Walkable(launch, s.flight.value) && WalkOf(launch, s.flight.value) == Ok(walk) && WalkFits(s.flight.value, walk)
  }

  /** In every reachable state with a verify in flight, whatever happened since it was submitted: the position
      its block was built at is still the end of each live request's history, so what the readback
      publishes is what a commit would write, exactly where the commit caps or needs no cap. */
  lemma PublishedIsWrittenExactly(launch: Launch, target: Target, events: seq<Event>, walk: Walk, k: nat)
    requires Run(launch, target, events).Some? && Walked(launch, Run(launch, target, events).value, walk)
    requires k < |Run(launch, target, events).value.flight.value.rows|
    requires Run(launch, target, events).value.flight.value.rows[k] in Run(launch, target, events).value.host.history
    ensures var s := Run(launch, target, events).value;
            var f := s.flight.value;
            var r, i, length := f.rows[k], f.liveRows[k], |s.host.history[f.rows[k]]|;
            && SubmittedAt(f, k) == length - 1
            && (WrittenBlock(launch.maxModelLen, length, r in s.batch, walk.committed.rows[i], walk.counts[i])
                == Some(Published(launch, f, walk, k))
                <==> if r in s.batch then length <= launch.maxModelLen else length + walk.counts[i] <= launch.maxModelLen)
  {
    RunInvariant(launch, target, events);
    var s := Run(launch, target, events).value;
    var f := s.flight.value;
    var r, i := f.rows[k], f.liveRows[k];
    AcceptedWithinBlock(launch, f, walk, k);
    assert AnswersHistory(launch.maxModelLen, target, r, s.host.history[r], f, i);
    CutIsWrittenExactly(launch.maxModelLen, |s.host.history[r]|, r in s.batch, walk.committed.rows[i], walk.counts[i]);
  }

  /** What a commit adds to a request it does not skip is what was published for it, if and only if the request
      holds a row or its whole prefix fits. */
  lemma CommitWritesPublished(launch: Launch, target: Target, events: seq<Event>, skip: set<ReqId>, walk: Walk, k: nat)
    requires Run(launch, target, events).Some? && Walked(launch, Run(launch, target, events).value, walk)
    requires CanCommit(launch, Run(launch, target, events).value, skip)
    requires CommitStep(launch, Run(launch, target, events).value, skip).Some?
    requires k < |Run(launch, target, events).value.flight.value.rows|
    requires var s := Run(launch, target, events).value; s.flight.value.rows[k] in s.host.history && s.flight.value.rows[k] !in skip
    ensures var s, after := Run(launch, target, events).value, CommitStep(launch, Run(launch, target, events).value, skip).value;
            var f, r := s.flight.value, s.flight.value.rows[k];
            && r in after.host.history
            && (after.host.history[r] == s.host.history[r] + Published(launch, f, walk, k)
                <==> r in s.batch || |s.host.history[r]| + walk.counts[f.liveRows[k]] <= launch.maxModelLen)
  {
    PublishedIsWrittenExactly(launch, target, events, walk, k);
    var s := Run(launch, target, events).value;
    var f := s.flight.value;
    var v := Verified(launch.maxModelLen, f.rows, LiveCommitted(f, walk), LiveAccepted(f, walk), skip, s.batch, s.device.Keys);
    CommitRowsAt(v, s.host, k);
    var written := WrittenBlock(launch.maxModelLen, |s.host.history[f.rows[k]]|, f.rows[k] in s.batch,
                                walk.committed.rows[f.liveRows[k]], walk.counts[f.liveRows[k]]).value;
    SameTail(s.host.history[f.rows[k]], written, Published(launch, f, walk, k));
  }

  lemma SameTail(history: seq<Token>, a: seq<Token>, b: seq<Token>)
    ensures history + a == history + b <==> a == b
  {
    if history + a == history + b {
      assert (history + a)[|history|..] == a && (history + b)[|history|..] == b;
    }
  }

  /** A verify makes progress: a live row below the cap gains at least one token and at most 1+K,
      cut only by the room that is left, and records exactly what it gained. */
  ghost predicate Progressed(launch: Launch, f: Flight, k: nat, before: seq<Token>, after: seq<Token>, count: nat)
    requires FlightShape(f) && k < |f.rows| && f.built.verify && Walkable(launch, f)
  {
    var i := f.liveRows[k];
    && |before| <= launch.maxModelLen
    && exists accepted: nat ::
         && AcceptsExactly(f.answers[i], f.built.drafts[i], RowValid(f.built, i), accepted)
         && accepted <= 1 + launch.k
         && |after| == |before| + Min(accepted, launch.maxModelLen - |before|)
         && count == Max(|after| - |before|, 1)
  }

  lemma VerifyProgress(launch: Launch, target: Target, s: State, skip: set<ReqId>, k: nat)
    requires Inv(launch, target, s) && CanCommit(launch, s, skip) && s.flight.value.built.verify
    requires CommitStep(launch, s, skip).Some?
    requires k < |s.flight.value.rows| && s.flight.value.rows[k] in s.batch && s.flight.value.rows[k] !in skip
    ensures var f, r, after := s.flight.value, s.flight.value.rows[k], CommitStep(launch, s, skip).value;
            && Walkable(launch, f) && r in s.host.history && r in after.host.history && r in after.host.counts
            && Progressed(launch, f, k, s.host.history[r], after.host.history[r], after.host.counts[r])
  {
    var f := s.flight.value;
    var walk := WalkOf(launch, f).value;
    var v := Verified(launch.maxModelLen, f.rows, LiveCommitted(f, walk), LiveAccepted(f, walk), skip, s.batch, s.device.Keys);
    CommitRowsAt(v, s.host, k);
    AcceptedWithinBlock(launch, f, walk, k);
  }

  lemma AcceptedWithinBlock(launch: Launch, f: Flight, walk: Walk, k: nat)
    requires FlightShape(f) && k < |f.rows| && f.built.verify && Walkable(launch, f) && WalkOf(launch, f) == Ok(walk)
    requires WalkFits(f, walk)
    ensures var i := f.liveRows[k];
            AcceptsExactly(f.answers[i], f.built.drafts[i], RowValid(f.built, i), walk.counts[i]) && walk.counts[i] <= 1 + launch.k
  {
    AcceptGreedyDraftsCorrect(Block(launch.k + 1, f.answers), Block(launch.k, f.built.drafts), f.built.numValid);
  }
}
