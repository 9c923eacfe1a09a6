/**
 Runs of the asynchronous runner: scheduler outputs arrive, readers resolve submissions whenever they
 get to it, results are applied late, and the device decodes from whatever it holds. The device
 part of the state is ghost: it says what the next decode would consume.
 */
module AsyncRuns {
  import opened Runtime
  import opened SpecDecode
  import opened DecodeReload
  import opened LateResults

  /** What the device holds for the decode trace, by row, and the page table it was last given. */
  datatype Device = Device(tokens: seq<Token>, positions: seq<int>, tables: Tables)

  /** Submitted steps not yet pruned, how many of them a reader has resolved, and the completed steps
      the engine has not drained: resolved ones, and a prefill, which is never pending. A reader
      resolves in submission order. */
  datatype Queue = Queue(pending: seq<Frame>, overlapOk: seq<bool>, resolved: nat, completed: seq<Frame>) {
    /** Submitted results that are not in the host history yet, oldest first. */
    function Unapplied(): seq<Frame>
      requires resolved <= |pending|
    {
      completed + pending[resolved..]
    }

    /** Readers resolve up to the first `n` pending steps; completions are enqueued in that order. */
    function ResolveTo(n: nat): Queue
      requires resolved <= |pending|
    {
      var upTo := Max(resolved, Min(n, |pending|));
      this.(resolved := upTo, completed := completed + pending[resolved..upTo])
    }

    /** `wait_for_all_pending_async_steps`. */
    function ResolveAll(): Queue
      requires resolved <= |pending|
    {
      ResolveTo(|pending|)
    }

    /** `prune_finished_async_events`. */
    function Pruned(): Queue
      requires resolved <= |pending| == |overlapOk|
    {
      Queue(pending[resolved..], overlapOk[resolved..], 0, completed)
    }
  }

  datatype Counters = Counters(overlapped: nat, unsafe: nat)

  /** `slots`: the requests that hold a model state slot. */
  datatype State = State(chain: Chain, queue: Queue, counters: Counters, rows: seq<ReqId>, slots: set<ReqId>,
                         layoutChanged: bool, host: Host, tables: map<ReqId, seq<seq<nat>>>, device: Device)

  /** How far the readers got at the three points where it matters. */
  datatype Readers = Readers(beforeCheck: nat, beforePrune: nat, beforeDrain: nat)

  /** The proposals after an apply: what drafters publish is not restricted. */
  type Proposals = map<ReqId, seq<Token>>

  /** How the device answers a decode it accepted. `left` is what a step leaves in the residents when
      its own tokens are not fed back. */
  datatype Answer = Traced(left: Device) | HostAnswered(left: Device) | Unread(left: Device)

  datatype Action =
    | Idle
    | Prefill(tokens: seq<seq<Token>>, left: Device)
    | Decode(tokens: seq<seq<Token>>, answer: Answer)

  /** One `execute_model`: the scheduler output, the batch it leads to and the environment's choices. */
  datatype Event = Event(out: SchedOut, rows: seq<ReqId>, slots: set<ReqId>, arrivals: map<ReqId, seq<Token>>,
                         tables: map<ReqId, seq<seq<nat>>>, early: Readers, late: Readers, first: Proposals, second: Proposals,
                         action: Action)

  function Members(rows: seq<ReqId>): set<ReqId> {
    set r | r in rows
  }

  // ----- the phases of a step -----

  /** Preflight: decide on the batch of the previous step whether outstanding work may stay unread. */
  function Preflight(engine: Engine, s: State, e: Event): State
    requires s.queue.resolved <= |s.queue.pending|
  {
    var queue := s.queue.ResolveTo(e.early.beforeCheck);
    var candidate := CanAttempt(engine, s.chain, e.out, Members(s.rows), s.layoutChanged);
    s.(queue := if MustDrain(engine, s.host, e.out, queue.overlapOk, candidate) then queue.ResolveAll() else queue)
  }

  /** `_update_states`, as far as residency sees it: rows, state slots, request states, block tables. */
  function Updated(s: State, e: Event): State {
    s.(rows := e.rows, slots := e.slots, layoutChanged := s.layoutChanged || Members(s.rows) != e.out.scheduled, tables := e.tables,
       host := s.host.(history := (map r | r in s.host.history && r !in e.out.finished :: s.host.history[r]) + e.arrivals))
  }

  /** Who still has a batch row or a state slot: only they record an accepted count. */
  function Kept(s: State): set<ReqId> {
    Members(s.rows) + s.slots
  }

  /** `apply_ready_completed_decode_steps`. */
  function ApplyDrained(s: State, readers: Readers, suppressed: set<ReqId>, discards: map<ReqId, nat>, proposed: Proposals): State
    requires s.queue.resolved <= |s.queue.pending| == |s.queue.overlapOk|
  {
    var drained := s.queue.ResolveTo(readers.beforePrune).Pruned().ResolveTo(readers.beforeDrain);
    s.(queue := drained.(completed := []),
       host := Host(ApplyAll(s.host.history, drained.completed, suppressed, discards),
                    RecordAll(s.host.counts, drained.completed, suppressed, discards, Kept(s)), proposed))
  }

  /** The frames the apply above drains. */
  function Drained(s: State, readers: Readers): seq<Frame>
    requires s.queue.resolved <= |s.queue.pending| == |s.queue.overlapOk|
  {
    s.queue.ResolveTo(readers.beforePrune).Pruned().ResolveTo(readers.beforeDrain).completed
  }

  /** `apply_completed_decode_steps_before_build`: an apply can publish a proposal the preflight could not see. */
  function ApplyBeforeBuild(engine: Engine, s: State, e: Event): State
    requires s.queue.resolved <= |s.queue.pending| == |s.queue.overlapOk|
  {
    var applied := ApplyDrained(s, e.early, e.out.finished, e.out.discards, e.first);
    if NextVerifies(engine, applied.host, e.out, applied.queue.pending != []) then
      ApplyDrained(applied.(queue := applied.queue.ResolveAll()), e.late, e.out.finished, map[], e.second)
    else applied
  }

  /** Everything up to the build. */
  function Prepared(engine: Engine, s: State, e: Event): State
    requires s.queue.resolved <= |s.queue.pending| == |s.queue.overlapOk|
  {
    ApplyBeforeBuild(engine, Updated(Preflight(engine, s, e), e), e)
  }

  // ----- submissions -----

  function ColumnZero<T>(block: seq<seq<T>>, padding: T): seq<T> {
    seq(|block|, i requires 0 <= i < |block| => if block[i] == [] then padding else block[i][0])
  }

  /** The reload commands, carried out: from here the decode reads the device. */
  function Loaded(device: Device, input: Input, plan: ReloadPlan): Device {
    if plan.reloadInputs then Device(ColumnZero(input.rows.tokens, 0), ColumnZero(input.rows.positions, -1), input.tables)
    else if plan.reloadPageTable then device.(tables := input.tables)
    else device
  }

  /** The device after the decode. A traced, device-sampled plain decode feeds its tokens back at the
      next position; nothing is known of the residents after a verify, a host-sampled or a
      host-answered decode, and of nothing at all when the answer never arrived. */
  function Fed(device: Device, input: Input, tokens: seq<seq<Token>>, answer: Answer): Device {
    match answer
    case Unread(left) => left
    case HostAnswered(left) => left.(tables := device.tables)
    case Traced(left) =>
      if input.rows.verify || !input.deviceSampling then left.(tables := device.tables)
      else Device(ColumnZero(tokens, 0), seq(|device.positions|, i requires 0 <= i < |device.positions| => device.positions[i] + 1),
                  device.tables)
  }

  /** A synchronous launch commits a step's tokens and counts at once. */
  function AppliedNow(s: State, frame: Frame): Host {
    s.host.(history := LateResults.ApplyFrame(s.host.history, frame, {}), counts := RecordFrame(s.host.counts, frame, {}, Kept(s)))
  }

  /** `register_pending_async_step`, and the immediate apply of a synchronous launch. */
  function Recorded(engine: Engine, s: State, frame: Frame, steady: bool, overlapOk: bool): State {
    if !engine.launch.asyncScheduling then
      s.(host := AppliedNow(s, frame))
    else
      var overlaps := s.queue.pending != [];
      s.(queue := s.queue.(pending := s.queue.pending + [frame], overlapOk := s.queue.overlapOk + [overlapOk]),
         counters := Counters(s.counters.overlapped + (if overlaps then 1 else 0),
                              s.counters.unsafe + (if overlaps && !steady then 1 else 0)))
  }

  /** The model took the decode: the layout change is consumed and the chain is committed, or broken. */
  function Accepted(engine: Engine, s: State, input: Input, tokens: seq<seq<Token>>, answer: Answer): State {
    var plan := Plan(engine, s.chain, input);
    s.(layoutChanged := false, device := Fed(Loaded(s.device, input, plan), input, tokens, answer),
       chain := if answer.Unread? then ReadFailed(s.chain) else Committed(s.chain, input, plan, answer.HostAnswered?))
  }

  /** `submit_decode` and its registration. A verify is never overlap-safe, nor is a host answer. */
  function Submitted(engine: Engine, s: State, input: Input, tokens: seq<seq<Token>>, answer: Answer): State {
    var steady := !input.rows.verify && CanUseSteady(engine, s.chain, input);
    var accepted := Accepted(engine, s, input, tokens, answer);
    if answer.Unread? then accepted
    else Recorded(engine, accepted, Frame(s.rows, tokens, input.rows.verify), steady, steady && !answer.HostAnswered?)
  }

  /** `_reset_spec_state_for_prefill`: a prefill's rows start over at the default count. */
  function CountsReset(launch: Launch, host: Host, rows: seq<ReqId>): Host {
    if launch.k == 0 then host
    else var kept := ForgetFinished(host); kept.(counts := WithoutRows(kept.counts, rows))
  }

  /** A prefill breaks the chain. Its tokens, none for a row that is still mid-prompt, go to the state at
      once in a synchronous launch; in an asynchronous one they wait among the completed steps, where
      a forced reset can still discard them. */
  function Prefilled(engine: Engine, s: State, tokens: seq<seq<Token>>, left: Device): State {
    var frame := Frame(s.rows, tokens, false);
    var noted := s.(chain := PrefillNoted(s.chain), device := left, host := CountsReset(engine.launch, s.host, s.rows));
    if engine.launch.asyncScheduling then
      noted.(queue := s.queue.(completed := s.queue.completed + [frame]))
    else
      noted.(host := AppliedNow(noted, frame))
  }

  function Built(engine: Engine, s: State, e: Event): Result<(Host, Input), StepError> {
    BuildDecode(engine, s.host, e.out, s.rows, s.tables, s.layoutChanged)
  }

  /** What a step does once it is prepared. */
  function Acted(engine: Engine, ready: State, e: Event): State {
    match e.action
    case Idle => ready
    case Prefill(tokens, left) => Prefilled(engine, ready, tokens, left)
    case Decode(tokens, answer) =>
      match Built(engine, ready, e)
      case Err(_) => ready
      case Ok((host, input)) => Submitted(engine, ready.(host := host), input, tokens, answer)
  }

  function Next(engine: Engine, s: State, e: Event): State
    requires s.queue.resolved <= |s.queue.pending| == |s.queue.overlapOk|
  {
    Acted(engine, Prepared(engine, s, e), e)
  }

  // ----- what the environment guarantees -----

  ghost predicate Legal(engine: Engine, s: State, e: Event) {
    && Distinct(e.rows) && Members(e.rows) == e.out.scheduled
    // `_update_states` moves no row when nobody joins or leaves.
    && (Members(s.rows) == e.out.scheduled ==> e.rows == s.rows)
    && e.out.scheduled !! e.out.finished
    && e.arrivals.Keys !! s.host.history.Keys && e.arrivals.Keys <= e.out.scheduled
    && (forall r :: r in e.arrivals ==> e.arrivals[r] != [])
    && (forall r :: r in e.out.scheduled ==> r in s.host.history || r in e.arrivals)
    // A forced reset preempts: its requests come back, if at all, in a prefill step.
    && (e.out.prefill || e.out.discards.Keys !! e.out.scheduled)
  }

  /** The discards and the action fit what the step finds. */
  ghost predicate Fits(engine: Engine, s: State, e: Event)
    requires s.queue.resolved <= |s.queue.pending| == |s.queue.overlapOk|
  {
    var ready := Prepared(engine, s, e);
    && !Missing(Drained(Updated(Preflight(engine, s, e), e), e.early), e.out.discards)
    && match e.action
       case Idle => e.out.scheduled == {}
       case Prefill(tokens, _) => e.out.prefill && |tokens| == |e.rows|
       case Decode(tokens, answer) =>
         && !e.out.prefill && |tokens| == |e.rows| > 0 && Built(engine, ready, e).Ok?
         && var input := Built(engine, ready, e).value.1;
            && (!input.rows.verify ==> forall i :: 0 <= i < |tokens| ==> |tokens[i]| == 1)
            && (answer.HostAnswered? ==> engine.launch.k != 0 && !input.rows.verify)
  }
}
