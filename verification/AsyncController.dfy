/** `TTAsyncDecodeController`: the fields and loops behind the decisions of `DecodeReload`. */
module AsyncController {
  import opened Runtime
  import opened SpecDecode
  import opened DecodeReload
  import opened LateResults
  import opened AsyncRuns

  class Controller {
    const engine: Engine

    var chainValid: bool
    var previousDeviceSampling: Option<bool>
    var previousVerified: bool
    var previousHostAnswered: bool
    var submittedTables: Option<Tables>
    var overlapped: nat
    var overlappedUnsafe: nat

    /** The runner's deques. `resolved` counts the pending steps whose completion event is set. */
    var pending: seq<Frame>
    var overlapOk: seq<bool>
    var resolved: nat
    var completed: seq<Frame>

    constructor (engine: Engine)
      ensures this.engine == engine && Residency() == COLD_CHAIN && Work() == Queue([], [], 0, []) && Overlaps() == Counters(0, 0)
    {
      this.engine := engine;
      chainValid, previousDeviceSampling, previousVerified, previousHostAnswered := false, None, false, false;
      submittedTables := None;
      overlapped, overlappedUnsafe := 0, 0;
      pending, overlapOk, resolved, completed := [], [], 0, [];
    }

    function Residency(): Chain
      reads this
    {
      Chain(chainValid, previousDeviceSampling, previousVerified, previousHostAnswered, submittedTables)
    }

    function Work(): Queue
      reads this
    {
      Queue(pending, overlapOk, resolved, completed)
    }

    function Overlaps(): Counters
      reads this
    {
      Counters(overlapped, overlappedUnsafe)
    }

    predicate Valid()
      reads this
    {
      resolved <= |pending| == |overlapOk|
    }

    // ----- residency -----

    method PageTablesChanged(input: Input) returns (changed: bool)
      ensures changed <==> submittedTables != Some(input.tables)
    {
      if submittedTables.None? || |submittedTables.value| != |input.tables| { return true; }
      for i := 0 to |input.tables|
        invariant submittedTables.value[..i] == input.tables[..i]
      {
        if submittedTables.value[i] != input.tables[i] { return true; }
      }
      assert submittedTables.value[..|input.tables|] == submittedTables.value && input.tables[..|input.tables|] == input.tables;
      return false;
    }

    /** A plan that leaves the inputs alone is overlap-safe, and there is one only for a plain decode that
        continues a chain nothing has moved; whatever the plan, committing it records the step's own tables. */
    method PlanDecodeReload(input: Input) returns (plan: ReloadPlan)
      ensures plan == Plan(engine, Residency(), input)
      ensures plan.OverlapSafe() <==> !plan.reloadInputs
      ensures !plan.reloadInputs ==>
                && chainValid && !previousVerified && !previousHostAnswered && !input.rows.verify && !input.layoutChanged
                && (submittedTables == Some(input.tables) || plan.reloadPageTable)
      ensures forall hostAnswered :: Committed(Residency(), input, plan, hostAnswered).tables == Some(input.tables)
    {
      var modeChanged := previousDeviceSampling.Some? && previousDeviceSampling.value != input.deviceSampling;
      var verifyToPlain := previousVerified && !input.rows.verify;
      var hostAnsweredToPlain := previousHostAnswered && !input.rows.verify;
      var transition := !chainValid || input.layoutChanged || modeChanged || verifyToPlain || hostAnsweredToPlain;
      var reload := input.rows.verify || !input.deviceSampling || transition || !engine.resident || !engine.decodeTraced;
      var tables := PageTablesChanged(input);
      return ReloadPlan(reload, !reload && tables, input.deviceSampling && transition, input.deviceSampling && transition);
    }

    method CommitDecodeSubmission(input: Input, plan: ReloadPlan, hostAnswered: bool)
      modifies this`chainValid, this`previousDeviceSampling, this`previousVerified, this`previousHostAnswered, this`submittedTables
      ensures Residency() == Committed(old(Residency()), input, plan, hostAnswered)
    {
      chainValid := true;
      previousDeviceSampling := Some(input.deviceSampling);
      previousVerified := input.rows.verify;
      previousHostAnswered := hostAnswered;
      if plan.reloadInputs || plan.reloadPageTable || submittedTables.None? { submittedTables := Some(input.tables); }
    }

    method NotePrefillSubmitted()
      modifies this`chainValid
      ensures Residency() == PrefillNoted(old(Residency()))
    {
      chainValid := false;
    }

    // ----- eligibility -----

    method CanAttemptSteady(out: SchedOut, held: set<ReqId>, layoutChanged: bool) returns (ok: bool)
      ensures ok <==> CanAttempt(engine, Residency(), out, held, layoutChanged)
    {
      if !engine.launch.asyncScheduling || !engine.traced { return false; }
      if out.prefill || layoutChanged { return false; }
      if !chainValid || previousDeviceSampling != Some(true) { return false; }
      if held != out.scheduled || out.structured { return false; }
      if !AllPlain(engine, held) { return false; }
      return engine.sampler(held);
    }

    method CanUseSteadyFastPath(input: Input) returns (ok: bool)
      ensures ok <==> CanUseSteady(engine, Residency(), input)
    {
      if !engine.launch.asyncScheduling || !engine.traced || !input.deviceSampling || input.layoutChanged || input.hostControls {
        return false;
      }
      var plan := PlanDecodeReload(input);
      return plan.OverlapSafe();
    }

    method NextStepVerifies(host: Host, out: SchedOut) returns (verifies: bool)
      ensures verifies <==> NextVerifies(engine, host, out, pending != [])
    {
      if engine.launch.k == 0 || pending == [] { return false; }
      if engine.launch.narrow && !forall r :: r in out.scheduled ==> Speculable(engine, r, true) { return false; }
      var rest := out.scheduled;
      while rest != {}
        invariant rest <= out.scheduled
        invariant forall r :: r in out.scheduled - rest ==> !WantsVerify(host, out, r)
        decreases rest
      {
        var r :| r in rest;
        var offered := GetOr(out.drafts, r, []);
        var drafted := exists i :: 0 <= i < |offered| && offered[i] != PLACEHOLDER_TOKEN_ID;
        if drafted || GetOr(host.proposed, r, []) != [] || GetOr(host.counts, r, 1) > 1 { return true; }
        rest := rest - {r};
      }
      return false;
    }

    method MustDrainPending(host: Host, out: SchedOut, candidate: bool) returns (drain: bool)
      requires Valid()
      ensures drain <==> MustDrain(engine, host, out, overlapOk, candidate)
    {
      if pending == [] { return false; }
      if out.discards != map[] || !candidate { return true; }
      for i := 0 to |overlapOk|
        invariant false !in overlapOk[..i]
      {
        if !overlapOk[i] { return true; }
      }
      assert overlapOk[..|overlapOk|] == overlapOk;
      drain := NextStepVerifies(host, out);
    }

    // ----- the deques -----

    /** `ensure_finalized` on the oldest unresolved step: enqueue the completion, then set the event. */
    method FinalizeNext()
      requires Valid() && resolved < |pending|
      modifies this`resolved, this`completed
      ensures Valid() && resolved == old(resolved) + 1 && completed == old(completed) + [pending[old(resolved)]]
    {
      completed := completed + [pending[resolved]];
      resolved := resolved + 1;
    }

    /** A reader gets as far as the first `n` pending steps. */
    method ReadersReach(n: nat)
      requires Valid()
      modifies this`resolved, this`completed
      ensures Valid() && Work() == old(Work()).ResolveTo(n)
    {
      var start := resolved;
      while resolved < n && resolved < |pending|
        invariant start <= resolved <= |pending| && resolved <= Max(start, n)
        invariant completed == old(completed) + pending[start..resolved]
        decreases |pending| - resolved
      {
        assert pending[start..resolved + 1] == pending[start..resolved] + [pending[resolved]];
        FinalizeNext();
      }
    }

    method WaitForAllPending()
      requires Valid()
      modifies this`resolved, this`completed
      ensures Valid() && Work() == old(Work()).ResolveAll()
    {
      ReadersReach(|pending|);
    }

    method PruneFinished()
      requires Valid()
      modifies this`pending, this`overlapOk, this`resolved
      ensures Valid() && Work() == old(Work()).Pruned()
    {
      while resolved > 0
        invariant Valid() && resolved <= old(resolved)
        invariant pending == old(pending)[old(resolved) - resolved..] && overlapOk == old(overlapOk)[old(resolved) - resolved..]
      {
        pending, overlapOk, resolved := pending[1..], overlapOk[1..], resolved - 1;
      }
    }

    method DrainCompleted() returns (drained: seq<Frame>)
      modifies this`completed
      ensures drained == old(completed) && completed == []
    {
      drained := [];
      while completed != []
        invariant drained + completed == old(completed)
        decreases |completed|
      {
        drained := drained + [completed[0]];
        completed := completed[1..];
      }
    }

    method RegisterPending(step: Frame, steady: bool, mayOverlap: bool)
      requires Valid()
      modifies this`pending, this`overlapOk, this`overlapped, this`overlappedUnsafe
      ensures Valid() && pending == old(pending) + [step] && overlapOk == old(overlapOk) + [mayOverlap]
      ensures overlapped == old(overlapped) + if old(pending) != [] then 1 else 0
      ensures overlappedUnsafe == old(overlappedUnsafe) + if old(pending) != [] && !steady then 1 else 0
    {
      if pending != [] {
        overlapped := overlapped + 1;
        if !steady { overlappedUnsafe := overlappedUnsafe + 1; }
      }
      pending, overlapOk := pending + [step], overlapOk + [mayOverlap];
    }

    // ----- the order within one step -----

    /** The decision taken before the batch is updated. */
    method BeforeUpdate(host: Host, out: SchedOut, held: set<ReqId>, layoutChanged: bool, reached: nat)
      requires Valid()
      modifies this`resolved, this`completed
      ensures Valid()
      ensures var queue := old(Work()).ResolveTo(reached);
              var candidate := CanAttempt(engine, old(Residency()), out, held, layoutChanged);
              Work() == if MustDrain(engine, host, out, queue.overlapOk, candidate) then queue.ResolveAll() else queue
    {
      var candidate := CanAttemptSteady(out, held, layoutChanged);
      ReadersReach(reached);
      var drain := MustDrainPending(host, out, candidate);
      if drain { WaitForAllPending(); }
    }

    /** Prune first: what is pruned is already in the queue the drain reads. None is the missing-outputs error. */
    method ApplyReadySteps(host: Host, suppressed: set<ReqId>, discards: map<ReqId, nat>, kept: set<ReqId>, readers: Readers,
                           proposed: Proposals)
      returns (after: Option<Host>)
      requires Valid() && FramesOk(pending) && FramesOk(completed)
      modifies this`pending, this`overlapOk, this`resolved, this`completed
      ensures Valid() && FramesOk(pending) && completed == []
      ensures var drained := old(Work()).ResolveTo(readers.beforePrune).Pruned().ResolveTo(readers.beforeDrain);
              && Work() == drained.(completed := [])
              && (after.None? <==> Missing(drained.completed, discards))
              && (after.Some? ==>
                    after.value == Host(ApplyAll(host.history, drained.completed, suppressed, discards),
                                        RecordAll(host.counts, drained.completed, suppressed, discards, kept), proposed))
    {
      ReadersReach(readers.beforePrune);
      PruneFinished();
      ReadersReach(readers.beforeDrain);
      var frames := DrainCompleted();
      var written := ApplyReady(host.history, host.counts, frames, suppressed, discards, kept);
      if written.None? { return None; }
      return Some(Host(written.value.0, written.value.1, proposed));
    }

    /** `submit_decode`, with what the model answers; `steady` is what the submission was built with. */
    method SubmitDecode(input: Input, answer: Answer) returns (steady: bool)
      modifies this`chainValid, this`previousDeviceSampling, this`previousVerified, this`previousHostAnswered, this`submittedTables
      ensures steady == (!input.rows.verify && CanUseSteady(engine, old(Residency()), input))
      ensures Residency() == if answer.Unread? then ReadFailed(old(Residency()))
                             else Committed(old(Residency()), input, Plan(engine, old(Residency()), input), answer.HostAnswered?)
    {
      steady := CanUseSteadyFastPath(input);
      steady := steady && !input.rows.verify;
      var plan := PlanDecodeReload(input);
      if answer.Unread? {
        chainValid, previousVerified, previousHostAnswered := false, false, false;
      } else {
        CommitDecodeSubmission(input, plan, answer.HostAnswered?);
      }
    }

    /** `submit_async_decode`: a submission whose answer will arrive is registered. */
    method SubmitAsyncDecode(input: Input, step: Frame, answer: Answer)
      requires Valid() && engine.launch.asyncScheduling
      modifies this
      ensures Valid()
      ensures var plan := Plan(engine, old(Residency()), input);
              var steady := !input.rows.verify && CanUseSteady(engine, old(Residency()), input);
              if answer.Unread? then
                Residency() == ReadFailed(old(Residency())) && Work() == old(Work()) && Overlaps() == old(Overlaps())
              else
                && Residency() == Committed(old(Residency()), input, plan, answer.HostAnswered?)
                && Work() == old(Work()).(pending := old(pending) + [step],
                                          overlapOk := old(overlapOk) + [steady && !answer.HostAnswered?])
                && Overlaps() == Counters(old(overlapped) + (if old(pending) != [] then 1 else 0),
                                          old(overlappedUnsafe) + (if old(pending) != [] && !steady then 1 else 0))
    {
      var steady := SubmitDecode(input, answer);
      if !answer.Unread? { RegisterPending(step, steady, steady && !answer.HostAnswered?); }
    }

    /** `enqueue_completed_decode_step`, for the frame of a prefill. */
    method EnqueueCompleted(step: Frame)
      modifies this`completed
      ensures completed == old(completed) + [step]
    {
      completed := completed + [step];
    }
  }
}
