/** The other direction: what the conditions on overlap are for does happen. */
module AsyncOverlap {
  import opened Runtime
  import opened SpecDecode
  import opened DecodeReload
  import opened LateResults
  import opened AsyncRuns
  import opened AsyncResidency
  import opened AsyncTheorems
  import opened AsyncHistory

  /** The state after the first apply, before the re-check. */
  function FirstApplied(engine: Engine, s: State, e: Event): State
    requires s.queue.resolved <= |s.queue.pending| == |s.queue.overlapOk|
  {
    ApplyDrained(AsyncRuns.Updated(Preflight(engine, s, e), e), e.early, e.out.finished, e.out.discards, e.first)
  }

  /** A steady candidate over overlap-safe steps that neither check expects to verify. */
  ghost predicate SteadyBehind(engine: Engine, s: State, e: Event)
    requires s.queue.resolved <= |s.queue.pending| == |s.queue.overlapOk|
  {
    && CanAttempt(engine, s.chain, e.out, Members(s.rows), s.layoutChanged)
    && e.out.discards == map[] && false !in s.queue.overlapOk
    && !NextVerifies(engine, s.host, e.out, true) && !NextVerifies(engine, FirstApplied(engine, s, e).host, e.out, true)
  }

  /** The queue when nobody waits: the readers' own progress, pruned and drained. */
  function Reached(q: Queue, readers: Readers): Queue
    requires q.resolved <= |q.pending| == |q.overlapOk|
  {
    q.ResolveTo(readers.beforeCheck).ResolveTo(readers.beforePrune).Pruned().ResolveTo(readers.beforeDrain).(completed := [])
  }

  /** Such a step waits for nobody: exactly what the readers have not got to stays unread. */
  lemma LeavesUnread(engine: Engine, s: State, e: Event)
    requires QueueOk(s.queue) && SteadyBehind(engine, s, e)
    ensures Prepared(engine, s, e) == FirstApplied(engine, s, e) && Prepared(engine, s, e).queue == Reached(s.queue, e.early)
  {
    assert Preflight(engine, s, e).queue == s.queue.ResolveTo(e.early.beforeCheck);
  }

  /** A steady decode is submitted over whatever is still unread, without a reload, in a speculating
      launch as in any other. If a step is still pending it counts as an overlap, never as an unsafe
      one, and the next step has the same choice again. */
  lemma SteadyDecodeOverlaps(engine: Engine, s: State, e: Event)
    requires Inv(engine, s) && Legal(engine, s, e) && SteadyBehind(engine, s, e)
    requires Reached(s.queue, e.early).pending != [] && Built(engine, Prepared(engine, s, e), e).Ok?
    requires e.action.Decode? && |e.action.tokens| == |e.rows| && e.action.answer.Traced?
    ensures var ready := Prepared(engine, s, e);
            var plan := Plan(engine, ready.chain, Built(engine, ready, e).value.1);
            ready.queue == Reached(s.queue, e.early) && !plan.reloadInputs && plan.OverlapSafe()
    ensures var queue, after := Reached(s.queue, e.early), AsyncRuns.Next(engine, s, e);
            && after.counters == Counters(s.counters.overlapped + 1, s.counters.unsafe)
            && after.queue == queue.(pending := queue.pending + [Frame(e.rows, e.action.tokens, false)], overlapOk := queue.overlapOk + [true])
            && false !in after.queue.overlapOk
  {
    LeavesUnread(engine, s, e);
    ReadyBase(engine, s, e);
    DrainedOrOverlaps(engine, s, e);
    var ready := Prepared(engine, s, e);
    OverlapIsSteady(engine, s, e, ready);
    var (host, input) := Built(engine, ready, e).value;
    SteadySubmission(engine, ready.(host := host), input, e.action.tokens, e.action.answer);
  }

  /** Readers that have not reached the newest step leave something pending. */
  lemma SomethingPending(q: Queue, readers: Readers)
    requires q.resolved <= |q.pending| == |q.overlapOk|
    ensures Reached(q, readers).pending != []
            <==> q.resolved < |q.pending| && readers.beforeCheck < |q.pending| && readers.beforePrune < |q.pending|
  {
  }

  lemma SteadySubmission(engine: Engine, s: State, input: Input, tokens: seq<seq<Token>>, answer: Answer)
    requires !input.rows.verify && CanUseSteady(engine, s.chain, input) && answer.Traced? && s.queue.pending != []
    ensures var after := Submitted(engine, s, input, tokens, answer);
            && after.counters == Counters(s.counters.overlapped + 1, s.counters.unsafe)
            && after.queue == s.queue.(pending := s.queue.pending + [Frame(s.rows, tokens, false)], overlapOk := s.queue.overlapOk + [true])
  {
  }

  // ----- runs that overlap to any depth -----

  /** A launch without speculation whose device keeps and samples the batch {r}. */
  ghost predicate Resident(engine: Engine, r: ReqId) {
    && engine.launch.asyncScheduling && engine.launch.k == 0 && engine.traced && engine.decodeTraced && engine.resident
    && engine.plain(r) && engine.sampler({r})
  }

  const NOBODY := Readers(0, 0, 0)
  const ANY_DEVICE := Device([], [], [])

  function PrefillOf(r: ReqId): Event {
    Event(SchedOut({r}, true, {}, false, map[], map[]), [r], {r}, map[r := [0]], map[], NOBODY, NOBODY, map[], map[],
          Prefill([[0]], ANY_DEVICE))
  }

  /** A decode before which no reader gets anywhere. */
  function DecodeOf(r: ReqId): Event {
    Event(SchedOut({r}, false, {}, false, map[], map[]), [r], {r}, map[], map[], NOBODY, NOBODY, map[], map[],
          Decode([[0]], Traced(ANY_DEVICE)))
  }

  /** One prefill and `n` decodes. */
  function Rolled(r: ReqId, n: nat): seq<Event> {
    if n == 0 then [PrefillOf(r)] else Rolled(r, n - 1) + [DecodeOf(r)]
  }

  /** A state that decodes {r}, with `depth` unread steps. */
  ghost predicate Rolling(s: State, r: ReqId, depth: nat) {
    && s.rows == [r] && !s.layoutChanged && r in s.host.history
    && s.chain.valid && s.chain.deviceSampling == Some(true) && !s.chain.verified && !s.chain.hostAnswered
    && s.queue.resolved == 0 && s.queue.completed == [] && |s.queue.pending| == |s.queue.overlapOk| == depth
  }

  lemma OneRow(engine: Engine, r: ReqId)
    requires Resident(engine, r)
    ensures Members([r]) == {r} && AllPlain(engine, {r})
  {
  }

  lemma DecodeLegal(engine: Engine, s: State, r: ReqId)
    requires r in s.host.history && (s.rows == [r] || Members(s.rows) != {r})
    ensures Legal(engine, s, DecodeOf(r))
  {
  }

  /** Without speculation a decode is always built, as a plain one that the device samples. */
  lemma PlainBuilt(engine: Engine, s: State, r: ReqId)
    requires Resident(engine, r) && s.rows == [r]
    ensures Built(engine, s, DecodeOf(r)).Ok?
    ensures var (host, input) := Built(engine, s, DecodeOf(r)).value;
            && host == s.host && !input.rows.verify && input.deviceSampling && !input.hostControls
            && input.layoutChanged == s.layoutChanged
  {
    OneRow(engine, r);
    assert (set x | x in s.rows) == Members(s.rows);
  }

  predicate Unbroken(s: State) {
    && s.chain.valid && !s.layoutChanged && (s.chain.deviceSampling.Some? ==> s.chain.deviceSampling.value)
    && !s.chain.verified && !s.chain.hostAnswered
  }

  /** What a decode makes of a state that is ready for it. */
  lemma Decoded(engine: Engine, ready: State, r: ReqId)
    requires Resident(engine, r) && ready.rows == [r] && r in ready.host.history
    requires ready.queue.resolved == 0 && ready.queue.completed == [] && |ready.queue.pending| == |ready.queue.overlapOk|
    ensures var after, q := Acted(engine, ready, DecodeOf(r)), ready.queue;
            && Rolling(after, r, |q.pending| + 1)
            && after.queue.overlapOk == q.overlapOk + [Unbroken(ready)]
            && after.counters == Counters(ready.counters.overlapped + (if q.pending == [] then 0 else 1),
                                          ready.counters.unsafe + (if q.pending == [] || Unbroken(ready) then 0 else 1))
  {
    PlainBuilt(engine, ready, r);
    var (host, input) := Built(engine, ready, DecodeOf(r)).value;
    var submitted := Submitted(engine, ready.(host := host), input, [[0]], Traced(ANY_DEVICE));
    assert Acted(engine, ready, DecodeOf(r)) == submitted;
    assert (!input.rows.verify && CanUseSteady(engine, ready.chain, input)) == Unbroken(ready);
  }

  /** With readers that stand still the step finds the queue as it was, but for what is already completed;
      or empty, if the preflight has to wait. */
  lemma Readied(engine: Engine, s: State, r: ReqId)
    requires Resident(engine, r) && s.rows == [r] && r in s.host.history && QueueOk(s.queue) && s.queue.resolved == 0
    requires s.queue.pending == [] || (Unbroken(s) && s.chain.deviceSampling.Some?)
    ensures var ready, e := Prepared(engine, s, DecodeOf(r)), DecodeOf(r);
            && !Missing(Drained(AsyncRuns.Updated(Preflight(engine, s, e), e), e.early), e.out.discards)
            && ready.rows == [r] && r in ready.host.history && ready.chain == s.chain && ready.counters == s.counters
            && ready.layoutChanged == s.layoutChanged
            && ready.queue == if false in s.queue.overlapOk then Queue([], [], 0, []) else s.queue.(completed := [])
  {
    OneRow(engine, r);
    PreparedMembers(engine, s, DecodeOf(r), r);
    ReadiedQueue(engine, s, r);
  }

  lemma ReadiedQueue(engine: Engine, s: State, r: ReqId)
    requires Resident(engine, r) && s.rows == [r] && QueueOk(s.queue) && s.queue.resolved == 0
    requires s.queue.pending == [] || (Unbroken(s) && s.chain.deviceSampling.Some?)
    ensures Prepared(engine, s, DecodeOf(r)).queue
            == if false in s.queue.overlapOk then Queue([], [], 0, []) else s.queue.(completed := [])
  {
    OneRow(engine, r);
    var q := s.queue;
    assert q.ResolveTo(0) == q by { assert q.pending[0..0] == []; }
    var ready := Preflight(engine, s, DecodeOf(r));
    assert MustDrain(engine, s.host, DecodeOf(r).out, q.overlapOk, CanAttempt(engine, s.chain, DecodeOf(r).out, Members(s.rows), s.layoutChanged))
           <==> false in q.overlapOk;
    if false in q.overlapOk {
      assert ready.queue == q.ResolveAll();
    } else {
      assert ready.queue == q;
      assert q.Pruned() == q;
    }
  }

  /** Where a run of one prefill and `n` decodes stands: the first decode reloads, so the second waits for
      it; from then on every decode overlaps. */
  ghost predicate Phase(s: State, r: ReqId, n: nat) {
    if n == 0 then s.rows == [r] && r in s.host.history && s.layoutChanged && s.queue.resolved == 0 && s.queue.pending == []
                   && s.counters == Counters(0, 0)
    else if n == 1 then Rolling(s, r, 1) && s.queue.overlapOk == [false] && s.counters == Counters(0, 0)
    else Rolling(s, r, n - 1) && false !in s.queue.overlapOk && s.counters == Counters(n - 2, 0)
  }

  ghost predicate Reaches(engine: Engine, device: Device, events: seq<Event>, r: ReqId, n: nat) {
    exists s :: Run(engine, device, events) == Some(s) && Phase(s, r, n)
  }

  lemma FirstPhase(engine: Engine, device: Device, r: ReqId)
    requires Resident(engine, r)
    ensures Reaches(engine, device, [PrefillOf(r)], r, 0)
  {
    var s, e := Cold(device), PrefillOf(r);
    assert Legal(engine, s, e);
    assert Preflight(engine, s, e) == s by { assert s.queue.ResolveTo(0) == s.queue; }
    assert [e][..0] == [];
    assert Run(engine, device, [e]) == Some(AsyncRuns.Next(engine, s, e));
  }

  lemma NextPhase(engine: Engine, s: State, r: ReqId, n: nat)
    requires Resident(engine, r) && QueueOk(s.queue) && Phase(s, r, n)
    ensures Legal(engine, s, DecodeOf(r)) && Fits(engine, s, DecodeOf(r))
    ensures Phase(AsyncRuns.Next(engine, s, DecodeOf(r)), r, n + 1)
  {
    Readied(engine, s, r);
    DecodeLegal(engine, s, r);
    var ready := Prepared(engine, s, DecodeOf(r));
    PlainBuilt(engine, ready, r);
    Decoded(engine, ready, r);
  }

  lemma RunOne(engine: Engine, device: Device, before: seq<Event>, s: State, e: Event)
    requires Run(engine, device, before) == Some(s)
    requires s.queue.resolved <= |s.queue.pending| == |s.queue.overlapOk| && Legal(engine, s, e) && Fits(engine, s, e)
    ensures Run(engine, device, before + [e]) == Some(AsyncRuns.Next(engine, s, e))
  {
    assert (before + [e])[..|before|] == before;
  }

  lemma PhaseAfter(engine: Engine, device: Device, before: seq<Event>, r: ReqId, n: nat, events: seq<Event>)
    requires Resident(engine, r) && Reaches(engine, device, before, r, n) && events == before + [DecodeOf(r)]
    ensures Reaches(engine, device, events, r, n + 1)
  {
    var s :| Run(engine, device, before) == Some(s) && Phase(s, r, n);
    RunKeeps(engine, device, before);
    NextPhase(engine, s, r, n);
    RunOne(engine, device, before, s, DecodeOf(r));
  }

  lemma {:induction false} EachPhase(engine: Engine, device: Device, r: ReqId, n: nat, events: seq<Event>)
    requires Resident(engine, r) && events == Rolled(r, n)
    ensures Reaches(engine, device, events, r, n)
  {
    if n == 0 {
      FirstPhase(engine, device, r);
    } else {
      var before := Rolled(r, n - 1);
      EachPhase(engine, device, r, n - 1, before);
      PhaseAfter(engine, device, before, r, n - 1, events);
    }
  }

  /** Overlap has no bound of its own: with readers that stand still, any number of decodes is submitted
      unread, each over all earlier ones, none of them unsafely. */
  lemma OverlapHasNoBound(engine: Engine, device: Device, r: ReqId, depth: nat)
    requires Resident(engine, r) && depth > 0
    ensures Run(engine, device, Rolled(r, depth + 1)).Some?
    ensures var end := Run(engine, device, Rolled(r, depth + 1)).value;
            |end.queue.pending| == depth && end.queue.resolved == 0 && end.counters == Counters(depth - 1, 0)
  {
    EachPhase(engine, device, r, depth + 1, Rolled(r, depth + 1));
  }
}
