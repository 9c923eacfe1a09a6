/**
 The device decodes what an always-reload runner with an up-to-date history would have sent.
 `Current` is that history: what the host holds and what is still on its way to it.
 */
module AsyncResidency {
  import opened Runtime
  import opened SpecDecode
  import opened DecodeReload
  import opened LateResults
  import opened AsyncRuns

  // ----- the invariant -----

  ghost predicate QueueOk(q: Queue) {
    q.resolved <= |q.pending| == |q.overlapOk| && FramesOk(q.pending) && FramesOk(q.completed)
  }

  /** The history of `r` a runner that applies every answer at once would hold. */
  function Current(s: State, r: ReqId): seq<Token>
    requires s.queue.resolved <= |s.queue.pending|
  {
    GetOr(s.host.history, r, []) + AllTokens(s.queue.Unapplied(), r)
  }

  /** The device's residents are every live row's last token at its position. */
  ghost predicate Agrees(s: State, device: Device)
    requires s.queue.resolved <= |s.queue.pending|
  {
    && |device.tokens| == |device.positions| == |s.rows|
    && forall i :: 0 <= i < |s.rows| ==>
         device.tokens[i] == LastToken(Current(s, s.rows[i])) && device.positions[i] == |Current(s, s.rows[i])| - 1
  }

  /** The last submission fed its own tokens back and nothing has moved since. */
  predicate Feeding(s: State) {
    && s.chain.valid && s.chain.deviceSampling == Some(true)
    && !s.chain.verified && !s.chain.hostAnswered && !s.layoutChanged
  }

  ghost predicate Nonempty(histories: Histories) {
    forall r :: r in histories ==> histories[r] != []
  }

  ghost predicate RowsOk(s: State) {
    Distinct(s.rows) && Members(s.rows) <= s.host.history.Keys && Nonempty(s.host.history)
  }

  /** Every frame that may still be unapplied belongs to the rows the batch has now. */
  ghost predicate FramesMatch(s: State) {
    forall f :: f in s.queue.pending || f in s.queue.completed ==> f.rows == s.rows
  }

  /** A synchronous launch queues nothing. */
  predicate QueuesNothing(engine: Engine, q: Queue) {
    !engine.launch.asyncScheduling ==> q.pending == [] && q.completed == []
  }

  /** What an overlap-safe newest pending step says about the launch and the chain. */
  ghost predicate OverlapOk(engine: Engine, s: State) {
    && |s.queue.overlapOk| == |s.queue.pending|
    && QueuesNothing(engine, s.queue)
    && (engine.launch.k != 0 && !engine.launch.narrow ==> true !in s.queue.overlapOk)
    && (s.chain.valid && s.queue.overlapOk != [] && s.queue.overlapOk[|s.queue.overlapOk| - 1] ==>
          engine.resident && engine.decodeTraced && !s.chain.verified && !s.chain.hostAnswered)
  }

  ghost predicate ChainOk(s: State) {
    s.chain.valid ==> s.chain.deviceSampling.Some? && s.chain.tables == Some(s.device.tables)
  }

  /** All of the invariant that does not look at the residents. */
  ghost predicate Base(engine: Engine, s: State) {
    && QueueOk(s.queue) && FramesMatch(s) && RowsOk(s) && OverlapOk(engine, s) && ChainOk(s)
    && s.counters.unsafe == 0
  }

  ghost predicate Inv(engine: Engine, s: State) {
    Base(engine, s) && (Feeding(s) ==> Agrees(s, s.device))
  }

  // ----- queue steps keep what is on its way -----

  lemma ResolveKeeps(q: Queue, n: nat)
    requires QueueOk(q)
    ensures QueueOk(q.ResolveTo(n)) && q.ResolveTo(n).Unapplied() == q.Unapplied()
  {
    var upTo := Max(q.resolved, Min(n, |q.pending|));
    assert q.pending[q.resolved..] == q.pending[q.resolved..upTo] + q.pending[upTo..];
  }

  lemma PruneKeeps(q: Queue)
    requires QueueOk(q)
    ensures QueueOk(q.Pruned()) && q.Pruned().Unapplied() == q.Unapplied()
  {
    assert q.Pruned().pending[0..] == q.Pruned().pending;
  }

  lemma {:induction false} AllTokensAppend(a: seq<Frame>, b: seq<Frame>, r: ReqId)
    ensures AllTokens(a + b, r) == AllTokens(a, r) + AllTokens(b, r)
  {
    if a == [] {
      assert a + b == b;
    } else {
      AllTokensAppend(a[1..], b, r);
      assert a + b == [a[0]] + (a[1..] + b);
      AllTokensCons(a[0], a[1..] + b, r);
      Regroup(TokensOf(a[0], r), AllTokens(a[1..], r), AllTokens(b, r));
    }
  }

  lemma AllTokensCons(f: Frame, rest: seq<Frame>, r: ReqId)
    ensures AllTokens([f] + rest, r) == TokensOf(f, r) + AllTokens(rest, r)
  {
    assert ([f] + rest)[1..] == rest;
  }

  /** Prune, then drain: what is drained comes off the front of what was on its way. */
  lemma DrainSplits(q: Queue, readers: Readers)
    requires QueueOk(q)
    ensures var pruned := q.ResolveTo(readers.beforePrune).Pruned();
            var drained := pruned.ResolveTo(readers.beforeDrain);
            && QueueOk(drained.(completed := [])) && drained.pending == pruned.pending
            && drained.completed + drained.pending[drained.resolved..] == q.Unapplied()
            && |drained.pending| <= |q.pending| && drained.pending == q.pending[|q.pending| - |drained.pending|..]
            && drained.overlapOk == q.overlapOk[|q.pending| - |drained.pending|..]
  {
    var first := q.ResolveTo(readers.beforePrune);
    ResolveKeeps(q, readers.beforePrune);
    PruneKeeps(first);
    ResolveKeeps(first.Pruned(), readers.beforeDrain);
  }

  ghost predicate Shifted(before: Queue, after: Queue) {
    && QueueOk(after) && |after.pending| <= |before.pending| == |before.overlapOk|
    && after.pending == before.pending[|before.pending| - |after.pending|..]
    && after.overlapOk == before.overlapOk[|before.pending| - |after.pending|..]
  }

  lemma ApplyQueue(s: State, readers: Readers, suppressed: set<ReqId>, discards: map<ReqId, nat>, proposed: Proposals)
    requires QueueOk(s.queue)
    ensures var after := ApplyDrained(s, readers, suppressed, discards, proposed);
            && Shifted(s.queue, after.queue) && after.queue.completed == []
            && after == s.(queue := after.queue, host := after.host)
            && after.host.history.Keys == s.host.history.Keys
  {
    DrainSplits(s.queue, readers);
    ApplyAllKeys(s.host.history, Drained(s, readers), suppressed, discards);
  }

  lemma AppliedMoves(histories: Histories, frames: seq<Frame>, rest: seq<Frame>, suppressed: set<ReqId>, discards: map<ReqId, nat>,
                     r: ReqId)
    requires r in histories && r !in suppressed && r !in discards
    ensures var after := ApplyAll(histories, frames, suppressed, discards);
            r in after && histories[r] <= after[r] && after[r] + AllTokens(rest, r) == histories[r] + AllTokens(frames + rest, r)
  {
    var after := ApplyAll(histories, frames, suppressed, discards);
    AppliedWhole(histories, frames, suppressed, discards, r);
    AllTokensAppend(frames, rest, r);
    Associate(histories[r], after[r], after[r] + AllTokens(rest, r), AllTokens(frames, r), AllTokens(rest, r));
  }

  /** Applying moves results into the history; a live request that is not discarded keeps its current history. */
  lemma ApplyCurrent(s: State, readers: Readers, suppressed: set<ReqId>, discards: map<ReqId, nat>, proposed: Proposals, r: ReqId)
    requires QueueOk(s.queue) && r in s.host.history && r !in suppressed && r !in discards
    ensures var after := ApplyDrained(s, readers, suppressed, discards, proposed);
            && after.queue.resolved <= |after.queue.pending| && Current(after, r) == Current(s, r)
            && r in after.host.history && s.host.history[r] <= after.host.history[r]
  {
    DrainSplits(s.queue, readers);
    ApplyCurrentFrom(s, ApplyDrained(s, readers, suppressed, discards, proposed),
                     s.queue.ResolveTo(readers.beforePrune).Pruned().ResolveTo(readers.beforeDrain), suppressed, discards, r);
  }

  lemma ApplyCurrentFrom(s: State, after: State, drained: Queue, suppressed: set<ReqId>, discards: map<ReqId, nat>, r: ReqId)
    requires s.queue.resolved <= |s.queue.pending| && drained.resolved <= |drained.pending|
    requires drained.completed + drained.pending[drained.resolved..] == s.queue.Unapplied()
    requires after.queue == drained.(completed := [])
    requires after.host.history == ApplyAll(s.host.history, drained.completed, suppressed, discards)
    requires r in s.host.history && r !in suppressed && r !in discards
    ensures Current(after, r) == Current(s, r) && r in after.host.history && s.host.history[r] <= after.host.history[r]
  {
    AppliedMoves(s.host.history, drained.completed, drained.pending[drained.resolved..], suppressed, discards, r);
    CurrentIs(after, drained.pending[drained.resolved..], r);
    CurrentIs(s, s.queue.Unapplied(), r);
  }

  lemma CurrentIs(s: State, unapplied: seq<Frame>, r: ReqId)
    requires s.queue.resolved <= |s.queue.pending| && r in s.host.history && unapplied == s.queue.Unapplied()
    ensures Current(s, r) == s.host.history[r] + AllTokens(unapplied, r)
  {
  }

  /** Once every reader has finished, an apply leaves nothing outstanding. */
  lemma ApplyAfterResolveAll(s: State, readers: Readers, suppressed: set<ReqId>, discards: map<ReqId, nat>, proposed: Proposals)
    requires QueueOk(s.queue) && s.queue.resolved == |s.queue.pending|
    ensures ApplyDrained(s, readers, suppressed, discards, proposed).queue.pending == []
  {
  }

  // ----- up to the build -----

  /** The step neither finishes the request nor discards a result of it. */
  predicate Steady(e: Event, r: ReqId) {
    r !in e.out.finished && r !in e.out.discards
  }

  lemma PreflightKeeps(engine: Engine, s: State, e: Event)
    requires QueueOk(s.queue)
    ensures var after := Preflight(engine, s, e);
            && QueueOk(after.queue) && after.queue.Unapplied() == s.queue.Unapplied()
            && after.queue.pending == s.queue.pending && after.queue.overlapOk == s.queue.overlapOk
            && after == s.(queue := after.queue)
  {
    ResolveKeeps(s.queue, e.early.beforeCheck);
    ResolveKeeps(s.queue.ResolveTo(e.early.beforeCheck), |s.queue.pending|);
  }

  lemma BuildApplyKeeps(engine: Engine, s: State, e: Event)
    requires QueueOk(s.queue)
    ensures var after := ApplyBeforeBuild(engine, s, e);
            && Shifted(s.queue, after.queue) && after.queue.completed == []
            && after == s.(queue := after.queue, host := after.host)
            && after.host.history.Keys == s.host.history.Keys
  {
    ApplyQueue(s, e.early, e.out.finished, e.out.discards, e.first);
    var applied := ApplyDrained(s, e.early, e.out.finished, e.out.discards, e.first);
    ResolveKeeps(applied.queue, |applied.queue.pending|);
    ApplyQueue(applied.(queue := applied.queue.ResolveAll()), e.late, e.out.finished, map[], e.second);
  }

  lemma BuildApplyCurrent(engine: Engine, s: State, e: Event, r: ReqId)
    requires QueueOk(s.queue) && r in s.host.history && Steady(e, r)
    ensures var after := ApplyBeforeBuild(engine, s, e);
            && after.queue.resolved <= |after.queue.pending| && Current(after, r) == Current(s, r)
            && r in after.host.history && s.host.history[r] <= after.host.history[r]
  {
    ApplyQueue(s, e.early, e.out.finished, e.out.discards, e.first);
    ApplyCurrent(s, e.early, e.out.finished, e.out.discards, e.first, r);
    var applied := ApplyDrained(s, e.early, e.out.finished, e.out.discards, e.first);
    ResolveKeeps(applied.queue, |applied.queue.pending|);
    ApplyCurrent(applied.(queue := applied.queue.ResolveAll()), e.late, e.out.finished, map[], e.second, r);
  }

  /** After the second apply nothing is outstanding; otherwise the step was predicted not to verify. */
  lemma BuildApplyDrains(engine: Engine, s: State, e: Event)
    requires QueueOk(s.queue)
    ensures var after := ApplyBeforeBuild(engine, s, e);
            after.queue.pending == [] || !NextVerifies(engine, after.host, e.out, true)
    ensures s.queue.resolved == |s.queue.pending| ==> ApplyBeforeBuild(engine, s, e).queue.pending == []
  {
    ApplyQueue(s, e.early, e.out.finished, e.out.discards, e.first);
    var applied := ApplyDrained(s, e.early, e.out.finished, e.out.discards, e.first);
    ResolveKeeps(applied.queue, |applied.queue.pending|);
    ApplyAfterResolveAll(applied.(queue := applied.queue.ResolveAll()), e.late, e.out.finished, map[], e.second);
    if s.queue.resolved == |s.queue.pending| {
      ApplyAfterResolveAll(s, e.early, e.out.finished, e.out.discards, e.first);
    }
  }

  /** What still being behind at the build implies. */
  ghost predicate Overlaps(engine: Engine, s: State, e: Event, ready: State) {
    && CanAttempt(engine, s.chain, e.out, Members(s.rows), s.layoutChanged)
    && false !in ready.queue.overlapOk
    && !NextVerifies(engine, ready.host, e.out, true)
  }

  /** Work is left unread only for a step that was a steady candidate, over overlap-safe steps, and
      that is not about to verify. */
  lemma DrainedOrOverlaps(engine: Engine, s: State, e: Event)
    requires QueueOk(s.queue)
    ensures var ready := Prepared(engine, s, e);
            ready.queue.pending == [] || Overlaps(engine, s, e, ready)
  {
    PreflightKeeps(engine, s, e);
    var checked := Preflight(engine, s, e);
    var updated := AsyncRuns.Updated(checked, e);
    BuildApplyKeeps(engine, updated, e);
    BuildApplyDrains(engine, updated, e);
    var ready := Prepared(engine, s, e);
    assert false in ready.queue.overlapOk ==> false in s.queue.overlapOk;
  }

  /** What preparing a step leaves alone, and what it makes of rows, layout flag and known requests. */
  ghost predicate Progress(s: State, e: Event, ready: State) {
    && Shifted(s.queue, ready.queue) && ready.queue.completed == []
    && ready.chain == s.chain && ready.counters == s.counters && ready.device == s.device
    && ready.rows == e.rows && ready.tables == e.tables
    && ready.layoutChanged == (s.layoutChanged || Members(s.rows) != e.out.scheduled)
    && ready.host.history.Keys == s.host.history.Keys - e.out.finished + e.arrivals.Keys
  }

  lemma ProgressFrom(s: State, e: Event, checked: State, updated: State, ready: State)
    requires QueueOk(s.queue)
    requires checked.queue.pending == s.queue.pending && checked.queue.overlapOk == s.queue.overlapOk
    requires checked == s.(queue := checked.queue) && updated == AsyncRuns.Updated(checked, e)
    requires Shifted(updated.queue, ready.queue) && ready.queue.completed == []
    requires ready == updated.(queue := ready.queue, host := ready.host) && ready.host.history.Keys == updated.host.history.Keys
    ensures Progress(s, e, ready)
  {
  }

  lemma PreparedKeeps(engine: Engine, s: State, e: Event)
    requires QueueOk(s.queue)
    ensures Progress(s, e, Prepared(engine, s, e))
  {
    PreflightKeeps(engine, s, e);
    var checked := Preflight(engine, s, e);
    var updated := AsyncRuns.Updated(checked, e);
    BuildApplyKeeps(engine, updated, e);
    ProgressFrom(s, e, checked, updated, Prepared(engine, s, e));
  }

  /** Preparing a step moves results and forgets nobody: the current history of a live request stays. */
  lemma PreparedCurrent(engine: Engine, s: State, e: Event, r: ReqId)
    requires QueueOk(s.queue) && Steady(e, r) && r in s.host.history && r !in e.arrivals
    ensures var ready := Prepared(engine, s, e);
            && ready.queue.resolved <= |ready.queue.pending| && Current(ready, r) == Current(s, r)
            && r in ready.host.history && s.host.history[r] <= ready.host.history[r]
  {
    PreflightKeeps(engine, s, e);
    BuildApplyCurrent(engine, AsyncRuns.Updated(Preflight(engine, s, e), e), e, r);
  }

  lemma ApplyNonempty(histories: Histories, frames: seq<Frame>, suppressed: set<ReqId>, discards: map<ReqId, nat>)
    requires Nonempty(histories)
    ensures Nonempty(ApplyAll(histories, frames, suppressed, discards))
  {
    ApplyAllKeys(histories, frames, suppressed, discards);
    forall r | r in ApplyAll(histories, frames, suppressed, discards) ensures ApplyAll(histories, frames, suppressed, discards)[r] != [] {
      NewestAreDiscarded(histories, frames, suppressed, discards, r);
    }
  }

  lemma PreparedNonempty(engine: Engine, s: State, e: Event)
    requires QueueOk(s.queue) && Nonempty(s.host.history) && Nonempty(e.arrivals)
    ensures Nonempty(Prepared(engine, s, e).host.history)
  {
    PreflightKeeps(engine, s, e);
    var updated := AsyncRuns.Updated(Preflight(engine, s, e), e);
    ApplyQueue(updated, e.early, e.out.finished, e.out.discards, e.first);
    ApplyNonempty(updated.host.history, Drained(updated, e.early), e.out.finished, e.out.discards);
    var applied := ApplyDrained(updated, e.early, e.out.finished, e.out.discards, e.first);
    var resolved := applied.(queue := applied.queue.ResolveAll());
    ResolveKeeps(applied.queue, |applied.queue.pending|);
    ApplyNonempty(applied.host.history, Drained(resolved, e.late), e.out.finished, map[]);
  }
}
