/**
 Speculation is lossless: whatever is drafted, however a step is shaped and placed, every request's
 history is the target's own autoregressive continuation of its prompt.
 */
module SpecLossless {
  import opened Runtime
  import opened SpecAccept
  import opened SpecDecode
  import opened SpecRuns

  // ----- the reference: ordinary decoding, one token at a time -----

  /** The target's continuation of a prompt up to a length, with no speculation anywhere. */
  ghost function Generate(target: Target, r: ReqId, prompt: seq<Token>, length: nat): seq<Token> {
    if length <= |prompt| then prompt
    else var h := Generate(target, r, prompt, length - 1); h + [target(r, h, h)]
  }

  /** `history` extends `prompt` by nothing but target choices. */
  ghost predicate Continues(target: Target, r: ReqId, prompt: seq<Token>, history: seq<Token>) {
    && |prompt| <= |history| && history[..|prompt|] == prompt
    && forall i :: |prompt| <= i < |history| ==> history[i] == target(r, history[..i], history[..i])
  }

  /** A continuation is a shorter one and one more answer. */
  lemma ContinuesByOne(target: Target, r: ReqId, prompt: seq<Token>, h: seq<Token>, token: Token)
    requires |prompt| <= |h|
    ensures Continues(target, r, prompt, h + [token]) <==> Continues(target, r, prompt, h) && token == target(r, h, h)
  {
    var longer := h + [token];
    assert longer[..|prompt|] == h[..|prompt|] && longer[..|h|] == h;
    assert forall i :: 0 <= i < |h| ==> longer[i] == h[i] && longer[..i] == h[..i];
  }

  lemma {:induction false} ContinuesIsGenerate(target: Target, r: ReqId, prompt: seq<Token>, history: seq<Token>)
    ensures Continues(target, r, prompt, history) <==>
            |prompt| <= |history| && history == Generate(target, r, prompt, |history|)
    decreases |history|
  {
    if |history| > |prompt| {
      var n := |history| - 1;
      var h := history[..n];
      ContinuesIsGenerate(target, r, prompt, h);
      ContinuesByOne(target, r, prompt, h, history[n]);
      assert history == h + [history[n]];
      OneLonger(h, history[n], Generate(target, r, prompt, n), target(r, Generate(target, r, prompt, n), Generate(target, r, prompt, n)));
    } else if |history| == |prompt| {
      assert history[..|prompt|] == history;
    }
  }

  lemma OneLonger(a: seq<Token>, x: Token, b: seq<Token>, y: Token)
    ensures a + [x] == b + [y] <==> a == b && x == y
  {
    if a + [x] == b + [y] {
      assert a == (a + [x])[..|a|] && b == (b + [y])[..|b|] && (a + [x])[|a|] == x && (b + [y])[|b|] == y;
    }
  }

  // ----- what holds between steps -----

  /** The device is ready to continue a history: its KV and the state the count selects both hold
      everything but the last token. A history already at the length cap commits nothing more. */
  ghost predicate Aligned(maxModelLen: nat, row: DeviceRow, history: seq<Token>, count: nat) {
    && history != [] && |history| - 1 <= |row.kv| && row.kv[..|history| - 1] == history[..|history| - 1]
    && (|history| < maxModelLen ==> 1 <= count <= |row.states| && row.states[count - 1] == history[..|history| - 1])
  }

  /** Block row `i` was built from this history, and its answer is the target's choice per column. */
  ghost predicate AnswersHistory(maxModelLen: nat, target: Target, r: ReqId, history: seq<Token>, f: Flight, i: nat)
    requires FlightShape(f) && i < |f.answers|
  {
    var tokens, answer, valid := f.built.tokens[i], f.answers[i], RowValid(f.built, i);
    && history != [] && tokens[0] == history[|history| - 1] && f.built.positions[i][0] == |history| - 1
    && (|history| < maxModelLen ==>
          forall j :: 0 <= j <= valid ==> answer[j] == target(r, history + tokens[1..j + 1], history + tokens[1..j + 1]))
    && (f.built.verify ==>
          && |f.built.drafts| == |f.built.numValid| == |f.answers|
          && |tokens| == |f.built.drafts[i]| + 1
          && forall j :: 0 <= j < valid ==> f.built.drafts[i][j] == tokens[j + 1])
  }

  /** After the forward, every candidate column has its own state and its KV is in place. */
  ghost predicate DeviceHolds(maxModelLen: nat, row: DeviceRow, history: seq<Token>, f: Flight, i: nat)
    requires FlightShape(f) && i < |f.answers|
  {
    var tokens, valid := f.built.tokens[i], RowValid(f.built, i);
    && history != [] && |row.kv| >= |history| + valid
    && row.kv[..|history| + valid] == history[..|history| - 1] + tokens[..valid + 1]
    && (|history| < maxModelLen ==>
          && |row.states| == valid + 1
          && forall j :: 0 <= j <= valid ==> row.states[j] == history[..|history| - 1] + tokens[..j + 1])
  }

  /** A count is recorded by verifies only, and never below 1. */
  ghost predicate CountsSet(launch: Launch, counts: map<ReqId, nat>) {
    forall r :: r in counts ==> counts[r] >= 1 && launch.k >= 1
  }

  ghost predicate CountsInRange(launch: Launch, counts: map<ReqId, nat>) {
    forall r :: r in counts ==> 1 <= counts[r] <= 1 + launch.k && launch.k >= 1
  }

  ghost predicate InFlight(s: State, r: ReqId) {
    s.flight.Some? && r in s.flight.value.rows
  }

  ghost predicate FlightFits(launch: Launch, target: Target, s: State, f: Flight) {
    && FlightShape(f)
    && (f.built.verify ==> launch.k >= 1)
    && (forall k :: 0 <= k < |f.rows| && f.rows[k] in s.host.history ==>
          && AnswersHistory(launch.maxModelLen, target, f.rows[k], s.host.history[f.rows[k]], f, f.liveRows[k])
          && (!f.built.verify ==> f.rows[k] !in s.host.counts))
    && (forall k :: 0 <= k < |f.rows| && f.rows[k] in s.device ==>
          && f.rows[k] in s.host.history
          && DeviceHolds(launch.maxModelLen, s.device[f.rows[k]], s.host.history[f.rows[k]], f, f.liveRows[k]))
  }

  ghost predicate Inv(launch: Launch, target: Target, s: State) {
    && s.host.history.Keys == s.prompts.Keys
    && s.device.Keys <= s.host.history.Keys && s.batch <= s.host.history.Keys
    && (forall r :: r in s.prompts ==> s.prompts[r] != [] && Continues(target, r, s.prompts[r], s.host.history[r]))
    && CountsInRange(launch, s.host.counts)
    && (forall r :: r in s.device && !InFlight(s, r) ==>
          Aligned(launch.maxModelLen, s.device[r], s.host.history[r], GetOr(s.host.counts, r, 1)))
    && (s.flight.Some? ==> FlightFits(launch, target, s, s.flight.value))
  }

  // ----- one row through one step -----

  lemma {:induction false} KvWritten(kv: seq<Token>, history: seq<Token>, tokens: seq<Token>, positions: seq<int>, n: nat)
    requires history != [] && |history| - 1 <= |kv| && kv[..|history| - 1] == history[..|history| - 1]
    requires n <= |tokens| && n <= |positions|
    requires forall j :: 0 <= j < n ==> positions[j] == |history| - 1 + j
    ensures var w := WriteKv(kv, tokens, positions, n);
            |w| >= |history| - 1 + n && w[..|history| - 1 + n] == history[..|history| - 1] + tokens[..n]
  {
    if n > 0 {
      KvWritten(kv, history, tokens, positions, n - 1);
      var before, w := WriteKv(kv, tokens, positions, n - 1), WriteKv(kv, tokens, positions, n);
      var p := |history| - 1 + (n - 1);
      assert w[..p] == before[..p] && w[p] == tokens[n - 1];
      assert tokens[..n] == tokens[..n - 1] + [tokens[n - 1]];
      assert w[..p + 1] == w[..p] + [w[p]];
    }
  }

  /** A block row that starts at the last token and runs over consecutive positions. */
  ghost predicate Continuing(built: SpecRows, i: nat, history: seq<Token>) {
    && Wellshaped(built, i) && history != []
    && built.tokens[i][0] == history[|history| - 1]
    && forall j :: 0 <= j <= RowValid(built, i) ==> built.positions[i][j] == |history| - 1 + j
  }

  lemma ForwardRow(maxModelLen: nat, target: Target, r: ReqId, row: DeviceRow, history: seq<Token>, built: SpecRows, i: nat,
                   padding: seq<Token>)
    requires Continuing(built, i, history) && |padding| == |built.tokens[i]|
    requires Aligned(maxModelLen, row, history, RowCountSent(built, i))
    ensures var after, valid, tokens := RowAfter(row, built, i), RowValid(built, i), built.tokens[i];
            && |after.kv| >= |history| + valid
            && after.kv[..|history| + valid] == history[..|history| - 1] + tokens[..valid + 1]
            && |after.states| == valid + 1
            && (|history| < maxModelLen ==>
                  && (forall j :: 0 <= j <= valid ==> after.states[j] == history[..|history| - 1] + tokens[..j + 1])
                  && (forall j :: 0 <= j <= valid ==>
                        RowAnswer(target, r, row, built, i, padding)[j]
                        == target(r, history + tokens[1..j + 1], history + tokens[1..j + 1])))
  {
    var valid, tokens, positions := RowValid(built, i), built.tokens[i], built.positions[i];
    KvWritten(row.kv, history, tokens, positions, valid + 1);
    var kv := WriteKv(row.kv, tokens, positions, valid + 1);
    var state := Selected(row, RowCountSent(built, i));
    if |history| < maxModelLen {
      forall j | 0 <= j <= valid
        ensures RowAnswer(target, r, row, built, i, padding)[j]
                == target(r, history + tokens[1..j + 1], history + tokens[1..j + 1])
      {
        ColumnContext(kv, history, tokens, valid, j);
        assert Attended(kv, positions[j]) == history + tokens[1..j + 1];
      }
    }
  }

  /** Up to column `j`, the KV and the state hold the history and the drafts so far. */
  lemma ColumnContext(kv: seq<Token>, history: seq<Token>, tokens: seq<Token>, valid: nat, j: nat)
    requires history != [] && j <= valid < |tokens| && tokens[0] == history[|history| - 1]
    requires |kv| >= |history| + valid && kv[..|history| + valid] == history[..|history| - 1] + tokens[..valid + 1]
    ensures kv[..|history| + j] == history + tokens[1..j + 1] == history[..|history| - 1] + tokens[..j + 1]
  {
    assert tokens[..j + 1] == [tokens[0]] + tokens[1..j + 1];
    assert history == history[..|history| - 1] + [history[|history| - 1]];
    var whole := history[..|history| - 1] + tokens[..valid + 1];
    assert kv[..|history| + j] == whole[..|history| + j];
    assert whole[..|history| + j] == history[..|history| - 1] + tokens[..j + 1];
  }

  /** Target choices that agree with the drafts up to the count are the autoregressive continuation. */
  lemma {:induction false} AcceptedContinues(target: Target, r: ReqId, prompt: seq<Token>, history: seq<Token>,
                                             tokens: seq<Token>, answer: seq<Token>, count: nat)
    requires Continues(target, r, prompt, history)
    requires 1 <= count <= |answer| && count <= |tokens|
    requires forall j :: 0 <= j < count ==> answer[j] == target(r, history + tokens[1..j + 1], history + tokens[1..j + 1])
    requires forall j :: 0 <= j < count - 1 ==> answer[j] == tokens[j + 1]
    ensures forall m :: 0 <= m <= count ==> Continues(target, r, prompt, history + answer[..m])
  {
    forall m | 0 <= m <= count ensures Continues(target, r, prompt, history + answer[..m]) {
      var h := history + answer[..m];
      assert h[..|prompt|] == history[..|prompt|];
      forall i | |prompt| <= i < |h| ensures h[i] == target(r, h[..i], h[..i]) {
        if i < |history| {
          assert h[..i] == history[..i];
        } else {
          var j := i - |history|;
          assert answer[..j] == tokens[1..j + 1];
          assert h[..i] == history + tokens[1..j + 1];
        }
      }
    }
  }

  /** Committing `m` of an accepted prefix leaves the device ready for what follows. */
  lemma CommittedRowAligned(maxModelLen: nat, row: DeviceRow, history: seq<Token>, tokens: seq<Token>, answer: seq<Token>,
                            valid: nat, m: nat)
    requires history != [] && |history| < maxModelLen && valid < |tokens| && 1 <= m <= valid + 1 && m <= |answer|
    requires tokens[0] == history[|history| - 1]
    requires |row.kv| >= |history| + valid && row.kv[..|history| + valid] == history[..|history| - 1] + tokens[..valid + 1]
    requires |row.states| == valid + 1
    requires forall j :: 0 <= j <= valid ==> row.states[j] == history[..|history| - 1] + tokens[..j + 1]
    requires forall j :: 0 <= j < m - 1 ==> answer[j] == tokens[j + 1]
    ensures Aligned(maxModelLen, row, history + answer[..m], m)
  {
    var h := history + answer[..m];
    assert answer[..m - 1] == tokens[1..m];
    assert tokens[..m] == [tokens[0]] + tokens[1..m];
    assert history == history[..|history| - 1] + [history[|history| - 1]];
    assert h[..|h| - 1] == history + answer[..m - 1] == history[..|history| - 1] + tokens[..m];
    assert row.kv[..|h| - 1] == row.kv[..|history| + valid][..|h| - 1];
    assert (history[..|history| - 1] + tokens[..valid + 1])[..|h| - 1] == history[..|history| - 1] + tokens[..m];
  }

  // ----- the builder -----

  lemma {:induction false} LiveAtPlaced(liveRows: seq<nat>, k: nat)
    requires Distinct(liveRows) && k < |liveRows|
    ensures LiveAt(liveRows, liveRows[k]) == k
  {
  }

  /** Block row `i` carries a token at a position, the row's drafts behind it, and the row's count. */
  ghost predicate Carries(launch: Launch, built: SpecRows, i: nat, token: Token, position: int, count: nat) {
    && Wellshaped(built, i)
    && built.tokens[i][0] == token
    && (forall j :: 0 <= j <= RowValid(built, i) ==> built.positions[i][j] == position + j)
    && RowCountSent(built, i) == count
    && (built.verify ==>
          && launch.k >= 1 && |built.tokens[i]| == 1 + launch.k
          && |built.drafts| == |built.numValid| == |built.tokens| && i < |built.drafts| && |built.drafts[i]| == launch.k
          && forall j :: 0 <= j < RowValid(built, i) ==> built.drafts[i][j] == built.tokens[i][j + 1])
  }

  lemma PlainRowCarries(launch: Launch, tokens: seq<Token>, positions: seq<int>, accepted: Option<seq<nat>>, i: nat, count: nat)
    requires |tokens| == |positions| && i < |tokens|
    requires accepted.Some? ==> i < |accepted.value| && accepted.value[i] == count
    requires accepted.None? ==> count == 1
    ensures Carries(launch, PlainRows(tokens, positions, accepted), i, tokens[i], positions[i], count)
  {
  }

  lemma WideRowCarries(launch: Launch, step: StepIn, block: seq<seq<Token>>, valid: seq<nat>, counts: seq<nat>,
                       tokens: seq<Token>, positions: seq<int>, i: nat)
    requires |block| == |valid| == |counts| == |tokens| == |positions| == step.numRows
    requires launch.k >= 1 && i in step.liveRows && i < step.numRows
    requires |block[i]| == launch.k && valid[i] <= launch.k
    ensures Carries(launch, SpecRows(WideTokens(launch.k, step, block, valid, tokens), WidePositions(launch.k, step, valid, positions),
                                     block, valid, Some(counts), true), i, tokens[i], positions[i], counts[i])
  {
    assert WideTokens(launch.k, step, block, valid, tokens)[i] == CandidateTokens(block[i], valid[i], tokens[i]);
    assert WidePositions(launch.k, step, valid, positions)[i] == CandidatePositions(launch.k, valid[i], positions[i]);
  }

  lemma FullBuildRow(launch: Launch, host: Host, drafts: map<ReqId, seq<Token>>, step: StepIn, tokens: seq<Token>,
                     positions: seq<int>, k: nat)
    requires Placed(step) && |tokens| == |positions| == step.numRows && Distinct(step.liveRows) && k < |step.rows|
    requires launch.k >= 1 && forall r :: r in host.counts ==> host.counts[r] >= 1
    requires FullBuild(launch, host, drafts, step, tokens, positions).Ok?
    ensures var built, i := FullBuild(launch, host, drafts, step, tokens, positions).value.1, step.liveRows[k];
            |built.tokens| == step.numRows
            && Carries(launch, built, i, tokens[i], positions[i], GetOr(host.counts, step.rows[k], 1))
  {
    var i, r := step.liveRows[k], step.rows[k];
    LiveAtPlaced(step.liveRows, k);
    assert i in step.liveRows;
    var cap := CapFor(launch, step.rows).value;
    var liveCounts, liveValid := LiveCounts(host, step.rows), LiveValid(cap, drafts, step.rows);
    var liveDrafts := LiveDrafts(launch.k, cap, drafts, step.rows);
    var counts, valid := Spread(step, liveCounts, 1), Spread(step, liveValid, 0);
    var block := Spread(step, liveDrafts, PadDrafts(launch.k, 0, []));
    assert counts[i] == liveCounts[k] == GetOr(host.counts, r, 1);
    assert valid[i] == liveValid[k] == ValidDrafts(cap, DraftOf(drafts, r));
    assert block[i] == liveDrafts[k] == PadDrafts(launch.k, cap, DraftOf(drafts, r));
    if StepVerifies(launch.narrow, forall r :: r in step.rows ==> r in step.speculable, liveValid, liveCounts) {
      WideRowCarries(launch, step, block, valid, counts, tokens, positions, i);
    } else if UnresolvedCommit(liveCounts) {
      PlainRowCarries(launch, tokens, positions, Some(counts), i, counts[i]);
    } else {
      assert liveCounts[k] <= 1;
      PlainRowCarries(launch, tokens, positions, None, i, 1);
    }
  }

  /** What one live row of a built step carries: its last token at its own position, its drafts behind
      it, and the count its last step committed, whichever row of the block it was placed at. */
  lemma BuiltRow(launch: Launch, host: Host, step: StepIn, tokens: seq<Token>, positions: seq<int>, k: nat)
    requires |tokens| == |positions| == step.numRows && Placed(step) && Distinct(step.liveRows)
    requires CountsSet(launch, host.counts)
    requires k < |step.rows| && step.rows[k] in host.history
    requires BuildRows(launch, host, step, tokens, positions).Ok?
    ensures var built, i := BuildRows(launch, host, step, tokens, positions).value.1, step.liveRows[k];
            |built.tokens| == step.numRows
            && Carries(launch, built, i, tokens[i], positions[i], GetOr(host.counts, step.rows[k], 1))
  {
    var i, r := step.liveRows[k], step.rows[k];
    assert i in step.liveRows && r in step.rows;
    if launch.k == 0 {
      PlainRowCarries(launch, tokens, positions, None, i, 1);
    } else {
      var kept := ForgetFinished(host);
      var (drafts, proposed) := DraftsToVerify(launch, kept, step.scheduled, step.rows).value;
      var consumed := kept.(proposed := proposed);
      var t, p := MaskTokens(step, tokens), MaskPositions(step, positions);
      assert GetOr(consumed.counts, r, 1) == GetOr(host.counts, r, 1);
      if Declines(launch, consumed, drafts, step.rows) {
        PlainRowCarries(launch, t, p, None, i, 1);
      } else {
        FullBuildRow(launch, consumed, drafts, step, t, p, k);
      }
    }
  }

  lemma FullBuildKeeps(launch: Launch, host: Host, drafts: map<ReqId, seq<Token>>, step: StepIn, tokens: seq<Token>, positions: seq<int>)
    requires Placed(step) && |tokens| == |positions| == step.numRows
    requires FullBuild(launch, host, drafts, step, tokens, positions).Ok?
    ensures var (after, built) := FullBuild(launch, host, drafts, step, tokens, positions).value;
            after == if built.verify then host else host.(counts := WithoutRows(host.counts, step.rows))
  {
  }

  /** Building touches no history, only forgets counts, and an ordinary decode resets its rows' counts. */
  lemma BuildKeepsHistory(launch: Launch, host: Host, step: StepIn, tokens: seq<Token>, positions: seq<int>)
    requires |tokens| == |positions| == step.numRows
    requires BuildRows(launch, host, step, tokens, positions).Ok?
    requires CountsSet(launch, host.counts)
    ensures var (after, built) := BuildRows(launch, host, step, tokens, positions).value;
            && after.history == host.history
            && (forall r :: r in after.counts ==> r in host.counts && after.counts[r] == host.counts[r])
            && (forall r :: r in host.history && r !in step.rows ==> GetOr(after.counts, r, 1) == GetOr(host.counts, r, 1))
            && (!built.verify ==> forall r :: r in step.rows ==> r !in after.counts)
            && (built.verify ==> launch.k >= 1)
  {
    if launch.k != 0 {
      var kept := ForgetFinished(host);
      var (drafts, proposed) := DraftsToVerify(launch, kept, step.scheduled, step.rows).value;
      var consumed := kept.(proposed := proposed);
      if !Declines(launch, consumed, drafts, step.rows) {
        FullBuildKeeps(launch, consumed, drafts, step, MaskTokens(step, tokens), MaskPositions(step, positions));
      }
    }
  }
}
