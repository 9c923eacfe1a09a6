/** What holds in every run of the asynchronous runner. */
module AsyncTheorems {
  import opened Runtime
  import opened SpecDecode
  import opened DecodeReload
  import opened LateResults
  import opened AsyncRuns
  import opened AsyncResidency

  // ----- the state a step is built from -----

  lemma ReadyBase(engine: Engine, s: State, e: Event)
    requires Base(engine, s) && Legal(engine, s, e)
    ensures Progress(s, e, Prepared(engine, s, e)) && Base(engine, Prepared(engine, s, e))
  {
    PreparedKeeps(engine, s, e);
    PreparedNonempty(engine, s, e);
    DrainedOrOverlaps(engine, s, e);
    BaseFrom(engine, s, e, Prepared(engine, s, e));
  }

  lemma BaseFrom(engine: Engine, s: State, e: Event, ready: State)
    requires Base(engine, s) && Legal(engine, s, e) && Progress(s, e, ready) && Nonempty(ready.host.history)
    requires ready.queue.pending == [] || Overlaps(engine, s, e, ready)
    ensures Base(engine, ready)
  {
    var n, k := |s.queue.pending|, |ready.queue.pending|;
    assert ready.queue.overlapOk == s.queue.overlapOk[n - k..];
    assert true in ready.queue.overlapOk ==> true in s.queue.overlapOk;
  }

  /** A row whose request stays live is fed on: its current history is the one before the step. */
  lemma ReadyAgrees(engine: Engine, s: State, e: Event)
    requires Inv(engine, s) && Legal(engine, s, e) && e.out.discards.Keys !! e.out.scheduled
    ensures Inv(engine, Prepared(engine, s, e))
  {
    ReadyBase(engine, s, e);
    var ready := Prepared(engine, s, e);
    if Feeding(ready) {
      assert ready.rows == s.rows && Feeding(s);
      forall r | r in s.rows ensures Current(ready, r) == Current(s, r) {
        assert r in Members(s.rows);
        PreparedCurrent(engine, s, e, r);
      }
      AgreesMoved(s, ready);
    }
  }

  lemma AgreesMoved(s: State, t: State)
    requires s.queue.resolved <= |s.queue.pending| && t.queue.resolved <= |t.queue.pending|
    requires t.rows == s.rows && t.device == s.device && Agrees(s, s.device)
    requires forall r :: r in s.rows ==> Current(t, r) == Current(s, r)
    ensures Agrees(t, t.device)
  {
    assert forall i :: 0 <= i < |s.rows| ==> s.rows[i] in s.rows;
  }

  // ----- the build over outstanding work -----

  /** The preflight's facts about the old batch are facts about the step it leads to. */
  lemma CandidateBuilds(engine: Engine, s: State, e: Event, ready: State)
    requires Base(engine, s) && Legal(engine, s, e) && Progress(s, e, ready) && Overlaps(engine, s, e, ready)
    requires ready.queue.pending != [] && Built(engine, ready, e).Ok?
    ensures var input := Built(engine, ready, e).value.1;
            && input.deviceSampling && !input.layoutChanged && !input.hostControls && !input.rows.verify
  {
    var input := Built(engine, ready, e).value.1;
    assert ready.rows == s.rows && Members(s.rows) == (set r | r in s.rows);
    assert forall r :: r in s.rows ==> r in Members(s.rows);
    var n, k := |s.queue.pending|, |ready.queue.pending|;
    var ok := ready.queue.overlapOk[0];
    assert ok in ready.queue.overlapOk && ok == s.queue.overlapOk[n - k];
    assert ok && ok in s.queue.overlapOk;
    if input.rows.verify {
      assert engine.launch.k != 0;
      PreflightSeesVerify(engine, ready.host, e.out, ready.rows, ready.tables, ready.layoutChanged);
    }
  }

  /** Work still outstanding forces the steady path: the plan reloads nothing. */
  lemma OverlapIsSteady(engine: Engine, s: State, e: Event, ready: State)
    requires Base(engine, s) && Legal(engine, s, e) && Progress(s, e, ready) && Overlaps(engine, s, e, ready)
    requires ready.queue.pending != [] && Built(engine, ready, e).Ok?
    ensures var input := Built(engine, ready, e).value.1; !input.rows.verify && CanUseSteady(engine, ready.chain, input)
  {
    CandidateBuilds(engine, s, e, ready);
    var n, k := |s.queue.pending|, |ready.queue.pending|;
    assert ready.queue.overlapOk == s.queue.overlapOk[n - k..];
    assert ready.queue.overlapOk[k - 1] in ready.queue.overlapOk;
    assert s.queue.overlapOk[n - 1] == ready.queue.overlapOk[k - 1];
  }

  lemma NothingPending(q: Queue)
    requires QueueOk(q) && q.pending == [] && q.completed == []
    ensures q.Unapplied() == []
  {
  }

  /** The host is authoritative on every reload: a submission that reloads its inputs finds every
      earlier result applied. */
  lemma ReloadSeesEverything(engine: Engine, s: State, e: Event)
    requires Base(engine, s) && Legal(engine, s, e) && Built(engine, Prepared(engine, s, e), e).Ok?
    ensures var ready := Prepared(engine, s, e);
            && ready.queue.resolved <= |ready.queue.pending|
            && (!CanUseSteady(engine, ready.chain, Built(engine, ready, e).value.1) ==> ready.queue.pending == [])
            && (Built(engine, ready, e).value.1.rows.verify ==> ready.queue.pending == [])
            && (Plan(engine, ready.chain, Built(engine, ready, e).value.1).reloadInputs ==> ready.queue.Unapplied() == [])
  {
    ReadyBase(engine, s, e);
    DrainedOrOverlaps(engine, s, e);
    var ready := Prepared(engine, s, e);
    if ready.queue.pending == [] {
      NothingPending(ready.queue);
    } else {
      OverlapIsSteady(engine, s, e, ready);
    }
  }

  /** So does a prefill. */
  lemma PrefillSeesEverything(engine: Engine, s: State, e: Event)
    requires Base(engine, s) && Legal(engine, s, e) && e.out.prefill
    ensures var ready := Prepared(engine, s, e);
            ready.queue.resolved <= |ready.queue.pending| && ready.queue.pending == [] && ready.queue.Unapplied() == []
  {
    ReadyBase(engine, s, e);
    DrainedOrOverlaps(engine, s, e);
    NothingPending(Prepared(engine, s, e).queue);
  }

  // ----- what the decode consumes -----

  /** Building a decode consumes drafts and counts, never history. */
  lemma BuildKeepsHost(launch: Launch, host: Host, step: StepIn, tokens: seq<Token>, positions: seq<int>)
    requires |tokens| == |positions| == step.numRows && BuildRows(launch, host, step, tokens, positions).Ok?
    ensures BuildRows(launch, host, step, tokens, positions).value.0.history == host.history
  {
  }

  lemma BuiltKeepsHistory(engine: Engine, s: State, e: Event)
    requires Built(engine, s, e).Ok?
    ensures Built(engine, s, e).value.0.history == s.host.history
  {
    BuildKeepsHost(engine.launch, s.host, DecodeStep(engine, e.out, s.rows), HostTokens(s.host, s.rows), HostPositions(s.host, s.rows));
  }

  /** Loaded from the host: with nothing outstanding the host is the current history. */
  lemma HostAgrees(engine: Engine, s: State, e: Event)
    requires QueueOk(s.queue) && s.queue.Unapplied() == [] && Built(engine, s, e).Ok?
    ensures var input := Built(engine, s, e).value.1;
            Agrees(s, Device(ColumnZero(input.rows.tokens, 0), ColumnZero(input.rows.positions, -1), input.tables))
  {
    BuiltColumnZero(engine, s.host, e.out, s.rows, s.tables, s.layoutChanged);
    forall r ensures Current(s, r) == GetOr(s.host.history, r, []) {}
  }

  /** What the decode of this step reads: its tokens, positions and page table once the reload
      commands are carried out. */
  function Consumed(engine: Engine, ready: State, e: Event): Device
    requires Built(engine, ready, e).Ok?
  {
    var input := Built(engine, ready, e).value.1;
    Loaded(ready.device, input, Plan(engine, ready.chain, input))
  }

  lemma LoadedAgrees(engine: Engine, ready: State, e: Event)
    requires Inv(engine, ready) && Built(engine, ready, e).Ok?
    requires Plan(engine, ready.chain, Built(engine, ready, e).value.1).reloadInputs ==> ready.queue.Unapplied() == []
    ensures Agrees(ready, Consumed(engine, ready, e))
    ensures Consumed(engine, ready, e).tables == Built(engine, ready, e).value.1.tables
  {
    var input := Built(engine, ready, e).value.1;
    var plan := Plan(engine, ready.chain, input);
    if plan.reloadInputs {
      HostAgrees(engine, ready, e);
    } else {
      assert Feeding(ready);
    }
  }

  /** Residency refines always-reload. Whatever is outstanding and whether or not anything is reloaded,
      the decode reads, for every live row, the last token of the row's current history at its
      position, and the block tables the step was built with. */
  lemma DecodeConsumesCurrent(engine: Engine, s: State, e: Event)
    requires Inv(engine, s) && Legal(engine, s, e) && !e.out.prefill && Built(engine, Prepared(engine, s, e), e).Ok?
    ensures var ready := Prepared(engine, s, e);
            && Inv(engine, ready) && ready.rows == e.rows
            && Agrees(ready, Consumed(engine, ready, e))
            && Consumed(engine, ready, e).tables == TablesOf(e.tables, e.rows)
  {
    PreparedKeeps(engine, s, e);
    ReadyAgrees(engine, s, e);
    ReloadSeesEverything(engine, s, e);
    LoadedAgrees(engine, Prepared(engine, s, e), e);
  }

  // ----- the state a step leaves behind -----

  lemma AllTokensOne(frames: seq<Frame>, f: Frame, r: ReqId)
    ensures AllTokens(frames + [f], r) == AllTokens(frames, r) + TokensOf(f, r)
  {
    AllTokensAppend(frames, [f], r);
    assert AllTokens([f], r) == TokensOf(f, r) + AllTokens([f][1..], r);
  }

  /** A recorded step adds its tokens to the current history of each of its rows, at once. */
  lemma RecordedCurrent(engine: Engine, s: State, frame: Frame, steady: bool, overlapOk: bool, r: ReqId)
    requires QueueOk(s.queue) && FrameOk(frame) && r in s.host.history && QueuesNothing(engine, s.queue)
    ensures var after := Recorded(engine, s, frame, steady, overlapOk);
            && QueueOk(after.queue) && r in after.host.history
            && Current(after, r) == Current(s, r) + TokensOf(frame, r)
  {
    var after := Recorded(engine, s, frame, steady, overlapOk);
    if engine.launch.asyncScheduling {
      AllTokensOne(s.queue.Unapplied(), frame, r);
      assert after.queue.Unapplied() == s.queue.Unapplied() + [frame] by {
        assert (s.queue.pending + [frame])[s.queue.resolved..] == s.queue.pending[s.queue.resolved..] + [frame];
      }
    } else {
      NothingPending(s.queue);
    }
  }

  lemma RecordedBase(engine: Engine, s: State, frame: Frame, steady: bool, overlapOk: bool)
    requires QueueOk(s.queue) && RowsOk(s) && ChainOk(s) && s.counters.unsafe == 0 && FrameOk(frame)
    requires QueuesNothing(engine, s.queue) && FramesMatch(s) && frame.rows == s.rows
    requires engine.launch.k != 0 && !engine.launch.narrow ==> true !in s.queue.overlapOk && !overlapOk
    requires s.queue.pending != [] ==> steady
    requires overlapOk ==> engine.resident && engine.decodeTraced && !s.chain.verified && !s.chain.hostAnswered
    ensures Base(engine, Recorded(engine, s, frame, steady, overlapOk))
  {
    if engine.launch.asyncScheduling {
      QueueAppend(s.queue, frame, overlapOk);
    } else {
      FrameNonempty(s.host.history, frame);
    }
  }

  lemma QueueAppend(q: Queue, frame: Frame, overlapOk: bool)
    requires QueueOk(q) && FrameOk(frame)
    ensures QueueOk(q.(pending := q.pending + [frame], overlapOk := q.overlapOk + [overlapOk]))
  {
  }

  /** A launch without narrow decodes verifies on every step. */
  lemma WideLaunchVerifies(launch: Launch, host: Host, step: StepIn, tokens: seq<Token>, positions: seq<int>)
    requires |tokens| == |positions| == step.numRows && BuildRows(launch, host, step, tokens, positions).Ok?
    requires launch.k != 0 && !launch.narrow
    ensures BuildRows(launch, host, step, tokens, positions).value.1.verify
  {
  }

  lemma WideBuildVerifies(engine: Engine, s: State, e: Event)
    requires Built(engine, s, e).Ok? && engine.launch.k != 0 && !engine.launch.narrow
    ensures Built(engine, s, e).value.1.rows.verify
  {
    WideLaunchVerifies(engine.launch, s.host, DecodeStep(engine, e.out, s.rows), HostTokens(s.host, s.rows),
                       HostPositions(s.host, s.rows));
  }

  /** Commit and device agree on the page table: it was resent, or it has not changed since it was. */
  lemma CommittedTables(engine: Engine, c: Chain, device: Device, input: Input, tokens: seq<seq<Token>>, answer: Answer)
    requires c.valid ==> c.tables == Some(device.tables)
    requires !answer.Unread?
    ensures var plan := Plan(engine, c, input);
            Committed(c, input, plan, answer.HostAnswered?).tables == Some(Fed(Loaded(device, input, plan), input, tokens, answer).tables)
  {
  }

  /** The invariant without the residents, across one submission over a steady or an empty queue. */
  lemma SubmittedBase(engine: Engine, s: State, input: Input, tokens: seq<seq<Token>>, answer: Answer)
    requires Base(engine, s) && |tokens| == |s.rows|
    requires s.queue.pending != [] ==> !input.rows.verify && CanUseSteady(engine, s.chain, input)
    requires engine.launch.k != 0 && !engine.launch.narrow ==> input.rows.verify
    ensures Base(engine, Submitted(engine, s, input, tokens, answer))
  {
    if !answer.Unread? {
      CommittedTables(engine, s.chain, s.device, input, tokens, answer);
      var steady := !input.rows.verify && CanUseSteady(engine, s.chain, input);
      RecordedBase(engine, Accepted(engine, s, input, tokens, answer), Frame(s.rows, tokens, input.rows.verify), steady, steady && !answer.HostAnswered?);
    }
  }

  /** Every answer that arrives joins the current history of its rows, whatever the device held. */
  lemma SubmittedCurrent(engine: Engine, s: State, input: Input, tokens: seq<seq<Token>>, answer: Answer, i: nat)
    requires QueueOk(s.queue) && RowsOk(s) && QueuesNothing(engine, s.queue)
    requires |tokens| == |s.rows| && i < |s.rows| && !answer.Unread?
    ensures var after := Submitted(engine, s, input, tokens, answer);
            && after.rows == s.rows && after.queue.resolved <= |after.queue.pending|
            && Current(after, s.rows[i]) == Current(s, s.rows[i]) + tokens[i]
  {
    var accepted := Accepted(engine, s, input, tokens, answer);
    assert accepted.queue == s.queue && accepted.host == s.host && accepted.rows == s.rows;
    var steady := !input.rows.verify && CanUseSteady(engine, s.chain, input);
    RecordedRow(engine, accepted, tokens, input.rows.verify, steady, steady && !answer.HostAnswered?, i);
    SameCurrent(s, accepted, s.rows[i]);
  }

  lemma SameCurrent(s: State, t: State, r: ReqId)
    requires s.queue == t.queue && s.host == t.host && s.queue.resolved <= |s.queue.pending|
    ensures Current(s, r) == Current(t, r)
  {
  }

  /** An answer that never arrives joins nobody's. */
  lemma UnreadCurrent(engine: Engine, s: State, input: Input, tokens: seq<seq<Token>>, answer: Answer, r: ReqId)
    requires QueueOk(s.queue) && answer.Unread?
    ensures var after := Submitted(engine, s, input, tokens, answer);
            after.queue == s.queue && Current(after, r) == Current(s, r) && !after.chain.valid
  {
    SameCurrent(s, Submitted(engine, s, input, tokens, answer), r);
  }

  lemma RecordedRow(engine: Engine, s: State, tokens: seq<seq<Token>>, verified: bool, steady: bool, overlapOk: bool, i: nat)
    requires QueueOk(s.queue) && RowsOk(s) && QueuesNothing(engine, s.queue)
    requires |tokens| == |s.rows| && i < |s.rows|
    ensures var after := Recorded(engine, s, Frame(s.rows, tokens, verified), steady, overlapOk);
            && after.rows == s.rows && after.queue.resolved <= |after.queue.pending|
            && Current(after, s.rows[i]) == Current(s, s.rows[i]) + tokens[i]
  {
    var r := s.rows[i];
    assert r in Members(s.rows);
    FrameAt(s.rows, tokens, i);
    RecordedCurrent(engine, s, Frame(s.rows, tokens, verified), steady, overlapOk, r);
  }

  lemma FrameAt(rows: seq<ReqId>, tokens: seq<seq<Token>>, i: nat)
    requires Distinct(rows) && |tokens| == |rows| && i < |rows|
    ensures TokensAt(rows, tokens, rows[i]) == tokens[i]
  {
    RowOfAt(rows, i);
  }

  /** A traced plain decode leaves the residents at the new last tokens. */
  lemma SubmittedAgrees(engine: Engine, s: State, input: Input, tokens: seq<seq<Token>>, answer: Answer)
    requires Base(engine, s) && |tokens| == |s.rows| && (!input.rows.verify ==> forall i :: 0 <= i < |tokens| ==> |tokens[i]| == 1)
    requires Agrees(s, Loaded(s.device, input, Plan(engine, s.chain, input)))
    ensures var after := Submitted(engine, s, input, tokens, answer);
            after.queue.resolved <= |after.queue.pending| && (Feeding(after) ==> Agrees(after, after.device))
  {
    var after := Submitted(engine, s, input, tokens, answer);
    if Feeding(after) {
      forall i | 0 <= i < |s.rows|
        ensures after.rows == s.rows && after.queue.resolved <= |after.queue.pending|
                && Current(after, s.rows[i]) == Current(s, s.rows[i]) + tokens[i]
      {
        SubmittedCurrent(engine, s, input, tokens, answer, i);
      }
      FedAgrees(s, after, Loaded(s.device, input, Plan(engine, s.chain, input)), tokens);
    }
  }

  lemma FedAgrees(s: State, after: State, device: Device, tokens: seq<seq<Token>>)
    requires s.queue.resolved <= |s.queue.pending| && after.queue.resolved <= |after.queue.pending|
    requires after.rows == s.rows && |tokens| == |s.rows| && Agrees(s, device)
    requires forall i :: 0 <= i < |s.rows| ==> |tokens[i]| == 1 && Current(after, s.rows[i]) == Current(s, s.rows[i]) + tokens[i]
    requires after.device.tokens == ColumnZero(tokens, 0)
    requires after.device.positions == seq(|device.positions|, i requires 0 <= i < |device.positions| => device.positions[i] + 1)
    ensures Agrees(after, after.device)
  {
  }

  lemma DecodeKeeps(engine: Engine, s: State, e: Event)
    requires Inv(engine, s) && Legal(engine, s, e) && Fits(engine, s, e) && e.action.Decode?
    ensures Inv(engine, Next(engine, s, e))
  {
    var ready := Prepared(engine, s, e);
    var (host, input) := Built(engine, ready, e).value;
    DecodeConsumesCurrent(engine, s, e);
    ReloadSeesEverything(engine, s, e);
    BuiltKeepsHistory(engine, ready, e);
    DecodeSubmits(engine, ready, e, host, input, e.action.tokens, e.action.answer);
  }

  lemma DecodeSubmits(engine: Engine, ready: State, e: Event, host: Host, input: Input, tokens: seq<seq<Token>>, answer: Answer)
    requires Base(engine, ready) && Built(engine, ready, e) == Ok((host, input)) && host.history == ready.host.history
    requires |tokens| == |ready.rows| && (!input.rows.verify ==> forall i :: 0 <= i < |tokens| ==> |tokens[i]| == 1)
    requires Agrees(ready, Loaded(ready.device, input, Plan(engine, ready.chain, input)))
    requires ready.queue.pending != [] ==> !input.rows.verify && CanUseSteady(engine, ready.chain, input)
    ensures Inv(engine, Submitted(engine, ready.(host := host), input, tokens, answer))
  {
    if engine.launch.k != 0 && !engine.launch.narrow { WideBuildVerifies(engine, ready, e); }
    var built := ready.(host := host);
    SameHistoryAgrees(ready, built, Loaded(ready.device, input, Plan(engine, ready.chain, input)));
    SubmittedBase(engine, built, input, tokens, answer);
    SubmittedAgrees(engine, built, input, tokens, answer);
  }

  lemma SameHistoryAgrees(s: State, t: State, device: Device)
    requires s.queue.resolved <= |s.queue.pending| && Agrees(s, device)
    requires t == s.(host := t.host) && t.host.history == s.host.history
    ensures Agrees(t, device)
  {
  }

  /** A prefill leaves no chain to continue. */
  lemma PrefillKeeps(engine: Engine, s: State, e: Event)
    requires Inv(engine, s) && Legal(engine, s, e) && Fits(engine, s, e) && e.action.Prefill?
    ensures Inv(engine, Next(engine, s, e))
  {
    ReadyBase(engine, s, e);
    PrefilledBase(engine, Prepared(engine, s, e), e.action.tokens, e.action.left);
  }

  lemma PrefilledBase(engine: Engine, s: State, tokens: seq<seq<Token>>, left: Device)
    requires Base(engine, s) && |tokens| == |s.rows|
    ensures Inv(engine, Prefilled(engine, s, tokens, left))
  {
    FrameNonempty(s.host.history, Frame(s.rows, tokens, false));
  }

  lemma FrameNonempty(histories: Histories, frame: Frame)
    requires Nonempty(histories)
    ensures var after := LateResults.ApplyFrame(histories, frame, {}); after.Keys == histories.Keys && Nonempty(after)
  {
  }

  lemma StepKeeps(engine: Engine, s: State, e: Event)
    requires Inv(engine, s) && Legal(engine, s, e) && Fits(engine, s, e)
    ensures Inv(engine, Next(engine, s, e))
  {
    match e.action
    case Idle => ReadyAgrees(engine, s, e);
    case Prefill(_, _) => PrefillKeeps(engine, s, e);
    case Decode(_, _) => DecodeKeeps(engine, s, e);
  }
}
