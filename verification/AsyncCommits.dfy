/**
 What a verify commits in a run of the asynchronous runner. A verify is serialized: its results are the
 only ones on their way and the next step applies them, so they are written where its block was built.
 And the accepted counts a build sends are those of every verify before it, however results were late.
 */
module AsyncCommits {
  import opened Runtime
  import opened SpecDecode
  import opened DecodeReload
  import opened LateResults
  import opened AsyncRuns
  import opened AsyncResidency
  import opened AsyncTheorems
  import opened AsyncHistory
  import SpecLossless

  // ----- a pending verify is never overlapped -----

  ghost predicate Marked(q: Queue) {
    |q.pending| == |q.overlapOk| && forall i :: 0 <= i < |q.pending| ==> q.pending[i].verified ==> !q.overlapOk[i]
  }

  lemma ShiftedMarked(before: Queue, after: Queue)
    requires Shifted(before, after) && Marked(before)
    ensures Marked(after)
  {
    var n := |before.pending| - |after.pending|;
    forall i | 0 <= i < |after.pending| && after.pending[i].verified ensures !after.overlapOk[i] {
      assert after.pending[i] == before.pending[n + i] && after.overlapOk[i] == before.overlapOk[n + i];
    }
  }

  lemma PreparedMarked(engine: Engine, s: State, e: Event)
    requires QueueOk(s.queue) && Marked(s.queue)
    ensures Marked(Prepared(engine, s, e).queue)
  {
    PreparedKeeps(engine, s, e);
    ShiftedMarked(s.queue, Prepared(engine, s, e).queue);
  }

  lemma SubmittedMarked(engine: Engine, s: State, input: Input, tokens: seq<seq<Token>>, answer: Answer)
    requires Marked(s.queue)
    ensures Marked(Submitted(engine, s, input, tokens, answer).queue)
  {
  }

  lemma NextMarked(engine: Engine, s: State, e: Event)
    requires QueueOk(s.queue) && Marked(s.queue)
    ensures Marked(AsyncRuns.Next(engine, s, e).queue)
  {
    PreparedMarked(engine, s, e);
    var ready := Prepared(engine, s, e);
    if e.action.Decode? && Built(engine, ready, e).Ok? {
      var (host, input) := Built(engine, ready, e).value;
      SubmittedMarked(engine, ready.(host := host), input, e.action.tokens, e.action.answer);
    }
  }

  lemma PlainQueue(q: Queue)
    requires q.resolved <= |q.pending| && q.completed == [] && Marked(q) && (q.pending == [] || false !in q.overlapOk)
    ensures forall f :: f in q.Unapplied() ==> !f.verified
  {
    forall f | f in q.Unapplied() ensures !f.verified {
      var i :| q.resolved <= i < |q.pending| && q.pending[i] == f;
      assert q.overlapOk[i] in q.overlapOk;
    }
  }

  /** What is left unread at a build holds no verify. */
  lemma ReadyIsPlain(engine: Engine, s: State, e: Event)
    requires QueueOk(s.queue) && Marked(s.queue)
    ensures var ready := Prepared(engine, s, e);
            ready.queue.resolved <= |ready.queue.pending| && forall f :: f in ready.queue.Unapplied() ==> !f.verified
  {
    PreparedKeeps(engine, s, e);
    PreparedMarked(engine, s, e);
    DrainedOrOverlaps(engine, s, e);
    PlainQueue(Prepared(engine, s, e).queue);
  }

  lemma LastStep(engine: Engine, device: Device, before: seq<Event>, e: Event)
    requires Run(engine, device, before + [e]).Some?
    ensures Run(engine, device, before).Some?
    ensures var s := Run(engine, device, before).value;
            && s.queue.resolved <= |s.queue.pending| == |s.queue.overlapOk| && Legal(engine, s, e) && Fits(engine, s, e)
            && Run(engine, device, before + [e]) == Some(AsyncRuns.Next(engine, s, e))
  {
    assert (before + [e])[..|before|] == before;
  }

  // ----- where a verify's results are written -----

  /** A step that submits a verify and gets its answer. */
  ghost predicate Verifies(engine: Engine, s: State, e: Event) {
    && s.queue.resolved <= |s.queue.pending| == |s.queue.overlapOk|
    && e.action.Decode? && !e.action.answer.Unread?
    && Built(engine, Prepared(engine, s, e), e).Ok? && Built(engine, Prepared(engine, s, e), e).value.1.rows.verify
  }

  /** The position row `i` of the step was built at. */
  function BuiltAt(engine: Engine, s: State, e: Event, i: nat): int
    requires s.queue.resolved <= |s.queue.pending| == |s.queue.overlapOk| && Built(engine, Prepared(engine, s, e), e).Ok?
  {
    var positions := Built(engine, Prepared(engine, s, e), e).value.1.rows.positions;
    if i < |positions| && positions[i] != [] then positions[i][0] else -1
  }

  /** In an asynchronous launch the verify is alone in the queue, over an unchanged history. */
  lemma VerifyAlone(engine: Engine, s: State, e: Event, i: nat)
    requires Inv(engine, s) && Legal(engine, s, e) && Verifies(engine, s, e) && engine.launch.asyncScheduling && i < |e.rows|
    ensures var next := AsyncRuns.Next(engine, s, e);
            && next.queue == Queue([Frame(e.rows, e.action.tokens, true)], [false], 0, [])
            && e.rows[i] in next.host.history && |next.host.history[e.rows[i]]| == BuiltAt(engine, s, e, i) + 1
  {
    ReadyBase(engine, s, e);
    PreparedKeeps(engine, s, e);
    ReloadSeesEverything(engine, s, e);
    BuiltKeepsHistory(engine, Prepared(engine, s, e), e);
    BuiltAtEnd(engine, s, e, i);
    VerifySubmitted(engine, Prepared(engine, s, e), e);
  }

  lemma VerifySubmitted(engine: Engine, ready: State, e: Event)
    requires e.action.Decode? && !e.action.answer.Unread? && ready.rows == e.rows && QueueOk(ready.queue)
    requires Built(engine, ready, e).Ok? && Built(engine, ready, e).value.1.rows.verify
    requires engine.launch.asyncScheduling && ready.queue.pending == [] && ready.queue.completed == []
    ensures Acted(engine, ready, e).queue == Queue([Frame(e.rows, e.action.tokens, true)], [false], 0, [])
    ensures Acted(engine, ready, e).host == Built(engine, ready, e).value.0
  {
  }

  lemma BuiltAtEnd(engine: Engine, s: State, e: Event, i: nat)
    requires QueueOk(s.queue) && Legal(engine, s, e) && Built(engine, Prepared(engine, s, e), e).Ok? && i < |e.rows|
    requires Members(s.rows) <= s.host.history.Keys
    ensures var history := Prepared(engine, s, e).host.history;
            e.rows[i] in history && |history[e.rows[i]]| == BuiltAt(engine, s, e, i) + 1
  {
    PreparedKeeps(engine, s, e);
    assert e.rows[i] in Members(e.rows);
    ColumnAtEnd(engine, Prepared(engine, s, e), e, i);
  }

  lemma ColumnAtEnd(engine: Engine, ready: State, e: Event, i: nat)
    requires Built(engine, ready, e).Ok? && i < |ready.rows| && ready.rows[i] in ready.host.history
    ensures var positions := Built(engine, ready, e).value.1.rows.positions;
            i < |positions| && positions[i] != [] && positions[i][0] + 1 == |ready.host.history[ready.rows[i]]|
  {
    BuiltColumnZero(engine, ready.host, e.out, ready.rows, ready.tables, ready.layoutChanged);
  }

  /** The next step, whatever it is, drains exactly that frame. */
  lemma AloneIsDrained(engine: Engine, s: State, e: Event, frame: Frame)
    requires s.queue == Queue([frame], [false], 0, [])
    ensures var updated := AsyncRuns.Updated(Preflight(engine, s, e), e);
            updated.queue == Queue([frame], [false], 1, [frame]) && Drained(updated, e.early) == [frame]
  {
    assert [frame][0..1] == [frame] && [frame][1..] == [] && [frame][1..1] == [];
    var queue := s.queue.ResolveTo(e.early.beforeCheck);
    assert queue.ResolveAll() == Queue([frame], [false], 1, [frame]);
    assert MustDrain(engine, s.host, e.out, queue.overlapOk, false) by { assert false in queue.overlapOk; }
  }

  /** The state that step `e` finds when it comes to apply late results. */
  function AtApply(engine: Engine, s: State, e: Event): (updated: State)
    ensures s.queue.resolved <= |s.queue.pending| == |s.queue.overlapOk| ==>
              updated.queue.resolved <= |updated.queue.pending| == |updated.queue.overlapOk|
  {
    if s.queue.resolved <= |s.queue.pending| then AsyncRuns.Updated(Preflight(engine, s, e), e) else s
  }

  /** Row `i` of a verify meets, when it is written, a history that ends where the row was built, so that its
      published prefix, cut at submission, is what the commit writes, exactly where the commit caps (the
      request still has a row) or needs no cap. */
  ghost predicate WritesPublished(launch: Launch, updated: State, r: ReqId, position: int, committed: seq<Token>, count: nat)
    requires 1 <= count <= |committed|
  {
    && r in updated.host.history
    && var length := |updated.host.history[r]|;
       && length == position + 1
       && (WrittenBlock(launch.maxModelLen, length, r in updated.rows, committed, count)
           == Some(PublishedPrefix(launch.maxModelLen, position, committed, count))
           <==> if r in updated.rows then length <= launch.maxModelLen else length + count <= launch.maxModelLen)
  }

  /** A verify of any asynchronous run is written whole by the very next step, and nothing with it. */
  lemma VerifyIsWrittenWhereBuilt(engine: Engine, device: Device, events: seq<Event>, e: Event, next: Event, i: nat,
                                  committed: seq<Token>, count: nat)
    requires Run(engine, device, events + [e]).Some? && Run(engine, device, events).Some? && engine.launch.asyncScheduling
    requires Verifies(engine, Run(engine, device, events).value, e) && i < |e.rows| && 1 <= count <= |committed|
    ensures var updated := AtApply(engine, Run(engine, device, events + [e]).value, next);
            && updated.queue.resolved <= |updated.queue.pending| == |updated.queue.overlapOk|
            && Drained(updated, next.early) == [Frame(e.rows, e.action.tokens, true)]
            && (e.rows[i] !in next.out.finished && e.rows[i] !in next.arrivals ==>
                  WritesPublished(engine.launch, updated, e.rows[i], BuiltAt(engine, Run(engine, device, events).value, e, i), committed, count))
  {
    RunKeeps(engine, device, events);
    LastStep(engine, device, events, e);
    WrittenAfter(engine, Run(engine, device, events).value, e, next, i, committed, count);
  }

  lemma WrittenAfter(engine: Engine, s: State, e: Event, next: Event, i: nat, committed: seq<Token>, count: nat)
    requires Inv(engine, s) && Legal(engine, s, e) && Verifies(engine, s, e) && engine.launch.asyncScheduling
    requires i < |e.rows| && 1 <= count <= |committed|
    ensures var updated := AtApply(engine, AsyncRuns.Next(engine, s, e), next);
            && updated.queue.resolved <= |updated.queue.pending| == |updated.queue.overlapOk|
            && Drained(updated, next.early) == [Frame(e.rows, e.action.tokens, true)]
            && (e.rows[i] !in next.out.finished && e.rows[i] !in next.arrivals ==>
                  WritesPublished(engine.launch, updated, e.rows[i], BuiltAt(engine, s, e, i), committed, count))
  {
    VerifyAlone(engine, s, e, i);
    var after := AsyncRuns.Next(engine, s, e);
    AloneIsDrained(engine, after, next, Frame(e.rows, e.action.tokens, true));
    CutIsWrittenExactly(engine.launch.maxModelLen, BuiltAt(engine, s, e, i) + 1, e.rows[i] in AtApply(engine, after, next).rows,
                        committed, count);
  }

  // ----- the counts a build sends -----

  /** Counts exist in speculating launches only, and only there is a frame a verify's. */
  ghost predicate CountsOk(engine: Engine, s: State) {
    && SpecLossless.CountsSet(engine.launch, s.host.counts)
    && (engine.launch.k == 0 ==> forall f :: f in s.queue.pending || f in s.queue.completed ==> !f.verified)
  }

  /** The count of `r` once everything on its way is committed. */
  function NextCount(s: State, r: ReqId): nat
    requires s.queue.resolved <= |s.queue.pending|
  {
    CountAfter(GetOr(s.host.counts, r, 1), s.queue.Unapplied(), r)
  }

  lemma ApplyKeepsCount(s: State, readers: Readers, suppressed: set<ReqId>, discards: map<ReqId, nat>, proposed: Proposals, r: ReqId)
    requires QueueOk(s.queue) && r in Kept(s) && r !in suppressed && GetOr(discards, r, 0) == 0
    ensures var after := ApplyDrained(s, readers, suppressed, discards, proposed);
            after.queue.resolved <= |after.queue.pending| && NextCount(after, r) == NextCount(s, r)
  {
    DrainSplits(s.queue, readers);
    ApplyCountFrom(s, ApplyDrained(s, readers, suppressed, discards, proposed),
                   s.queue.ResolveTo(readers.beforePrune).Pruned().ResolveTo(readers.beforeDrain), suppressed, discards, r);
  }

  lemma ApplyCountFrom(s: State, after: State, drained: Queue, suppressed: set<ReqId>, discards: map<ReqId, nat>, r: ReqId)
    requires s.queue.resolved <= |s.queue.pending| && drained.resolved <= |drained.pending|
    requires drained.completed + drained.pending[drained.resolved..] == s.queue.Unapplied()
    requires after.queue == drained.(completed := [])
    requires after.host.counts == RecordAll(s.host.counts, drained.completed, suppressed, discards, Kept(s))
    requires r in Kept(s) && r !in suppressed && GetOr(discards, r, 0) == 0
    ensures NextCount(after, r) == NextCount(s, r)
  {
    var rest := drained.pending[drained.resolved..];
    assert after.queue.Unapplied() == rest;
    RecordedCount(s.host.counts, drained.completed, suppressed, discards, Kept(s), r);
    CountAfterJoin(GetOr(s.host.counts, r, 1), drained.completed, rest, r);
  }

  lemma BuildApplyCount(engine: Engine, s: State, e: Event, r: ReqId)
    requires QueueOk(s.queue) && r in Kept(s) && r !in e.out.finished && GetOr(e.out.discards, r, 0) == 0
    ensures var after := ApplyBeforeBuild(engine, s, e);
            after.queue.resolved <= |after.queue.pending| && NextCount(after, r) == NextCount(s, r)
  {
    ApplyQueue(s, e.early, e.out.finished, e.out.discards, e.first);
    ApplyKeepsCount(s, e.early, e.out.finished, e.out.discards, e.first, r);
    var applied := ApplyDrained(s, e.early, e.out.finished, e.out.discards, e.first);
    if NextVerifies(engine, applied.host, e.out, applied.queue.pending != []) {
      var waited := applied.(queue := applied.queue.ResolveAll());
      ResolveKeeps(applied.queue, |applied.queue.pending|);
      ApplyKeepsCount(waited, e.late, e.out.finished, map[], e.second, r);
    }
  }

  /** Whatever is drained when, a request that keeps its row or slot and loses no result is built with the
      count of the last verify it was in. */
  lemma PreparedCount(engine: Engine, s: State, e: Event, r: ReqId)
    requires QueueOk(s.queue) && Marked(s.queue)
    requires r in Members(e.rows) + e.slots && r !in e.out.finished && GetOr(e.out.discards, r, 0) == 0
    ensures var ready := Prepared(engine, s, e);
            ready.queue.resolved <= |ready.queue.pending| && NextCount(ready, r) == NextCount(s, r) == GetOr(ready.host.counts, r, 1)
  {
    PreflightKeeps(engine, s, e);
    BuildApplyCount(engine, AsyncRuns.Updated(Preflight(engine, s, e), e), e, r);
    ReadyIsPlain(engine, s, e);
    var ready := Prepared(engine, s, e);
    PlainFramesKeepCount(GetOr(ready.host.counts, r, 1), ready.queue.Unapplied(), r);
  }

  lemma {:induction false} RecordedSet(launch: Launch, counts: map<ReqId, nat>, frames: seq<Frame>, suppressed: set<ReqId>,
                                       discards: map<ReqId, nat>, kept: set<ReqId>)
    requires SpecLossless.CountsSet(launch, counts) && (launch.k == 0 ==> forall f :: f in frames ==> !f.verified)
    ensures SpecLossless.CountsSet(launch, RecordAll(counts, frames, suppressed, discards, kept))
    decreases |frames|
  {
    if frames != [] {
      assert frames[0] in frames;
      RecordedSet(launch, RecordFrame(counts, frames[0], suppressed + Discarded(frames, discards), kept), frames[1..], suppressed,
                  discards, kept);
    }
  }

  lemma ApplySet(engine: Engine, s: State, readers: Readers, suppressed: set<ReqId>, discards: map<ReqId, nat>, proposed: Proposals)
    requires QueueOk(s.queue) && CountsOk(engine, s)
    ensures CountsOk(engine, ApplyDrained(s, readers, suppressed, discards, proposed))
  {
    DrainSplits(s.queue, readers);
    var drained := s.queue.ResolveTo(readers.beforePrune).Pruned().ResolveTo(readers.beforeDrain);
    assert forall f :: f in drained.completed ==> f in s.queue.Unapplied() by {
      assert s.queue.Unapplied() == drained.completed + drained.pending[drained.resolved..];
    }
    RecordedSet(engine.launch, s.host.counts, drained.completed, suppressed, discards, Kept(s));
  }

  /** Readers and the scheduler output touch neither counts nor frames. */
  lemma MovedSet(engine: Engine, s: State, t: State)
    requires CountsOk(engine, s) && t.host.counts == s.host.counts
    requires forall f :: f in t.queue.pending || f in t.queue.completed ==> f in s.queue.pending || f in s.queue.completed
    ensures CountsOk(engine, t)
  {
  }

  lemma ResolvedSet(engine: Engine, s: State, n: nat)
    requires s.queue.resolved <= |s.queue.pending| && CountsOk(engine, s)
    ensures CountsOk(engine, s.(queue := s.queue.ResolveTo(n)))
  {
    MovedSet(engine, s, s.(queue := s.queue.ResolveTo(n)));
  }

  lemma PreflightSet(engine: Engine, s: State, e: Event)
    requires QueueOk(s.queue) && CountsOk(engine, s)
    ensures CountsOk(engine, AsyncRuns.Updated(Preflight(engine, s, e), e))
  {
    var reached := s.(queue := s.queue.ResolveTo(e.early.beforeCheck));
    ResolvedSet(engine, s, e.early.beforeCheck);
    ResolvedSet(engine, reached, |reached.queue.pending|);
    MovedSet(engine, Preflight(engine, s, e), AsyncRuns.Updated(Preflight(engine, s, e), e));
  }

  lemma PreparedSet(engine: Engine, s: State, e: Event)
    requires QueueOk(s.queue) && CountsOk(engine, s)
    ensures CountsOk(engine, Prepared(engine, s, e))
  {
    PreflightKeeps(engine, s, e);
    PreflightSet(engine, s, e);
    BuildApplySet(engine, AsyncRuns.Updated(Preflight(engine, s, e), e), e);
  }

  lemma BuildApplySet(engine: Engine, s: State, e: Event)
    requires QueueOk(s.queue) && CountsOk(engine, s)
    ensures CountsOk(engine, ApplyBeforeBuild(engine, s, e))
  {
    ApplySet(engine, s, e.early, e.out.finished, e.out.discards, e.first);
    ApplyQueue(s, e.early, e.out.finished, e.out.discards, e.first);
    var applied := ApplyDrained(s, e.early, e.out.finished, e.out.discards, e.first);
    ResolveKeeps(applied.queue, |applied.queue.pending|);
    ResolvedSet(engine, applied, |applied.queue.pending|);
    ApplySet(engine, applied.(queue := applied.queue.ResolveAll()), e.late, e.out.finished, map[], e.second);
  }

  // ----- the counts a step leaves -----

  lemma BuiltCounts(engine: Engine, ready: State, e: Event)
    requires Built(engine, ready, e).Ok? && SpecLossless.CountsSet(engine.launch, ready.host.counts)
    ensures var (host, input) := Built(engine, ready, e).value;
            && host.history == ready.host.history && SpecLossless.CountsSet(engine.launch, host.counts)
            && (input.rows.verify ==> engine.launch.k >= 1)
            && (!input.rows.verify ==> forall r :: r in ready.rows ==> r !in host.counts)
            && forall r :: r in ready.host.history && r !in ready.rows ==> GetOr(host.counts, r, 1) == GetOr(ready.host.counts, r, 1)
  {
    SpecLossless.BuildKeepsHistory(engine.launch, ready.host, DecodeStep(engine, e.out, ready.rows), HostTokens(ready.host, ready.rows),
                                   HostPositions(ready.host, ready.rows));
  }

  /** A decode leaves each of its rows at the count of what it committed, and everybody else's alone. */
  lemma DecodedCount(engine: Engine, ready: State, e: Event, r: ReqId)
    requires QueueOk(ready.queue) && e.action.Decode? && Built(engine, ready, e).Ok? && CountsOk(engine, ready) && r in ready.host.history
    requires ready.rows == e.rows && QueuesNothing(engine, ready.queue) && forall f :: f in ready.queue.Unapplied() ==> !f.verified
    ensures var after, verify := Acted(engine, ready, e), Built(engine, ready, e).value.1.rows.verify;
            && after.queue.resolved <= |after.queue.pending| && CountsOk(engine, after)
            && (r !in e.rows ==> NextCount(after, r) == NextCount(ready, r))
            && (r in e.rows && !verify ==> NextCount(after, r) == 1)
            && (r in e.rows && verify && !e.action.answer.Unread? ==>
                  NextCount(after, r) == CommittedCount(Frame(e.rows, e.action.tokens, true), r))
  {
    BuiltCounts(engine, ready, e);
    var (host, input) := Built(engine, ready, e).value;
    var frame := Frame(e.rows, e.action.tokens, input.rows.verify);
    SubmittedCount(engine, ready.(host := host), input, e.action.tokens, e.action.answer, frame, r);
    PlainFramesKeepCount(GetOr(host.counts, r, 1), ready.queue.Unapplied(), r);
    PlainFramesKeepCount(GetOr(ready.host.counts, r, 1), ready.queue.Unapplied(), r);
  }

  lemma SubmittedCount(engine: Engine, s: State, input: Input, tokens: seq<seq<Token>>, answer: Answer, frame: Frame, r: ReqId)
    requires QueueOk(s.queue) && QueuesNothing(engine, s.queue) && CountsOk(engine, s) && (frame.verified ==> engine.launch.k >= 1)
    requires frame == Frame(s.rows, tokens, input.rows.verify)
    ensures var after := Submitted(engine, s, input, tokens, answer);
            && after.queue.resolved <= |after.queue.pending| && CountsOk(engine, after)
            && NextCount(after, r) == if !answer.Unread? && frame.verified && r in s.rows then CommittedCount(frame, r) else NextCount(s, r)
  {
    var after := Submitted(engine, s, input, tokens, answer);
    if answer.Unread? {
    } else if engine.launch.asyncScheduling {
      assert after.queue.Unapplied() == s.queue.Unapplied() + [frame] by {
        assert (s.queue.pending + [frame])[s.queue.resolved..] == s.queue.pending[s.queue.resolved..] + [frame];
      }
      CountAfterJoin(GetOr(s.host.counts, r, 1), s.queue.Unapplied(), [frame], r);
      assert [frame][1..] == [];
    } else {
      NothingPending(s.queue);
    }
  }

  lemma ResetCount(launch: Launch, host: Host, rows: seq<ReqId>, r: ReqId)
    requires SpecLossless.CountsSet(launch, host.counts) && r in host.history
    ensures GetOr(CountsReset(launch, host, rows).counts, r, 1) == if r in rows then 1 else GetOr(host.counts, r, 1)
  {
    assert launch.k == 0 ==> r !in host.counts;
  }

  /** A prefill puts its rows back to the default. */
  lemma PrefilledCount(engine: Engine, ready: State, tokens: seq<seq<Token>>, left: Device, r: ReqId)
    requires QueueOk(ready.queue) && CountsOk(engine, ready) && r in ready.host.history && ready.queue.Unapplied() == []
    ensures var after := Prefilled(engine, ready, tokens, left);
            && after.queue.resolved <= |after.queue.pending| && CountsOk(engine, after)
            && NextCount(after, r) == if r in ready.rows then 1 else NextCount(ready, r)
  {
    var frame, after := Frame(ready.rows, tokens, false), Prefilled(engine, ready, tokens, left);
    ResetCount(engine.launch, ready.host, ready.rows, r);
    PrefilledSet(engine, ready, tokens, left);
    if engine.launch.asyncScheduling {
      assert after.queue.Unapplied() == [frame] by {
        assert ready.queue.completed == [] && ready.queue.pending[ready.queue.resolved..] == [];
      }
      PlainFramesKeepCount(GetOr(after.host.counts, r, 1), [frame], r);
    } else {
      assert after.queue.Unapplied() == [] && after.host.counts == CountsReset(engine.launch, ready.host, ready.rows).counts;
    }
  }

  lemma PrefilledSet(engine: Engine, ready: State, tokens: seq<seq<Token>>, left: Device)
    requires CountsOk(engine, ready)
    ensures CountsOk(engine, Prefilled(engine, ready, tokens, left))
  {
  }

  /** Both invariants over one step. */
  lemma NextCountsOk(engine: Engine, s: State, e: Event)
    requires Inv(engine, s) && Legal(engine, s, e) && Fits(engine, s, e) && Marked(s.queue) && CountsOk(engine, s)
    ensures Marked(AsyncRuns.Next(engine, s, e).queue) && CountsOk(engine, AsyncRuns.Next(engine, s, e))
  {
    NextMarked(engine, s, e);
    PreparedSet(engine, s, e);
    ReadyBase(engine, s, e);
    ReadyIsPlain(engine, s, e);
    ActedCountsOk(engine, s, e, Prepared(engine, s, e));
  }

  lemma ActedCountsOk(engine: Engine, s: State, e: Event, ready: State)
    requires Base(engine, ready) && CountsOk(engine, ready) && ready.rows == e.rows
    requires forall f :: f in ready.queue.Unapplied() ==> !f.verified
    ensures CountsOk(engine, Acted(engine, ready, e))
  {
    match e.action
    case Idle =>
    case Prefill(tokens, left) => PrefilledSet(engine, ready, tokens, left);
    case Decode(tokens, answer) =>
      if Built(engine, ready, e).Ok? {
        BuiltCounts(engine, ready, e);
        var (host, input) := Built(engine, ready, e).value;
        SubmittedCount(engine, ready.(host := host), input, tokens, answer, Frame(e.rows, tokens, input.rows.verify), ReqId(""));
      }
  }

  lemma {:induction false} RunCountsOk(engine: Engine, device: Device, events: seq<Event>)
    requires Run(engine, device, events).Some?
    ensures Inv(engine, Run(engine, device, events).value)
    ensures Marked(Run(engine, device, events).value.queue) && CountsOk(engine, Run(engine, device, events).value)
  {
    RunKeeps(engine, device, events);
    if events != [] {
      var before, e := events[..|events| - 1], events[|events| - 1];
      RunKeeps(engine, device, before);
      RunCountsOk(engine, device, before);
      NextCountsOk(engine, Run(engine, device, before).value, e);
    }
  }
}
