/** One `execute_model` in the source's order: preflight, update, late results, build, submission. */
module AsyncRunner {
  import opened Runtime
  import opened SpecDecode
  import opened DecodeReload
  import opened LateResults
  import opened AsyncRuns
  import opened AsyncController

  class Runner {
    const controller: Controller
    var rows: seq<ReqId>
    var slots: set<ReqId>
    var layoutChanged: bool
    var host: Host
    var tables: map<ReqId, seq<seq<nat>>>
    /** What the device would decode from. */
    ghost var device: Device

    constructor (controller: Controller, ghost device: Device)
      ensures this.controller == controller && rows == [] && slots == {} && layoutChanged && host == Host(map[], map[], map[]) && tables == map[]
      ensures this.device == device
    {
      this.controller, this.device := controller, device;
      rows, slots, layoutChanged, host, tables := [], {}, true, Host(map[], map[], map[]), map[];
    }

    ghost function Model(): State
      reads this, controller
    {
      State(controller.Residency(), controller.Work(), controller.Overlaps(), rows, slots, layoutChanged, host, tables, device)
    }

    ghost predicate Valid()
      reads this, controller
    {
      controller.Valid() && FramesOk(controller.pending) && FramesOk(controller.completed)
    }

    /** The controller's decision on the batch of the previous step. */
    method BeforeUpdate(e: Event)
      requires Valid()
      modifies controller`resolved, controller`completed
      ensures Valid() && Model() == Preflight(controller.engine, old(Model()), e)
    {
      ghost var queue := controller.Work();
      controller.BeforeUpdate(host, e.out, Members(rows), layoutChanged, e.early.beforeCheck);
      StillFrames(queue, controller.Work(), e.early.beforeCheck);
    }

    /** `_update_states`: the scheduler output's rows, request states and block tables. */
    method Update(e: Event)
      modifies this`rows, this`slots, this`layoutChanged, this`host, this`tables
      ensures Model() == AsyncRuns.Updated(old(Model()), e)
    {
      layoutChanged := layoutChanged || Members(rows) != e.out.scheduled;
      rows, slots, tables := e.rows, e.slots, e.tables;
      host := host.(history := (map r | r in host.history && r !in e.out.finished :: host.history[r]) + e.arrivals);
    }

    /** `apply_completed_decode_steps_before_build`; false is the missing-outputs error. */
    method ApplyCompletedBeforeBuild(e: Event) returns (ok: bool)
      requires Valid()
      modifies this`host, controller`pending, controller`overlapOk, controller`resolved, controller`completed
      ensures ok <==> !Missing(Drained(old(Model()), e.early), e.out.discards)
      ensures ok ==> Valid() && Model() == ApplyBeforeBuild(controller.engine, old(Model()), e)
    {
      var after := controller.ApplyReadySteps(host, e.out.finished, e.out.discards, Members(rows) + slots, e.early, e.first);
      if after.None? { return false; }
      host := after.value;
      var verifies := controller.NextStepVerifies(host, e.out);
      if verifies { WaitAndApply(e); }
      return true;
    }

    /** A verify that became visible only now is serialized. */
    method WaitAndApply(e: Event)
      requires Valid() && controller.completed == []
      modifies this`host, controller`pending, controller`overlapOk, controller`resolved, controller`completed
      ensures Valid()
      ensures var waited := old(Model()).(queue := old(controller.Work()).ResolveAll());
              Model() == ApplyDrained(waited, e.late, e.out.finished, map[], e.second)
    {
      ghost var queue := controller.Work();
      controller.WaitForAllPending();
      StillFrames(queue, controller.Work(), |queue.pending|);
      var after := controller.ApplyReadySteps(host, e.out.finished, map[], Members(rows) + slots, e.late, e.second);
      assert after.Some?;
      host := after.value;
    }

    /** A synchronous launch commits at once. */
    method ApplyNow(frame: Frame)
      requires FrameOk(frame)
      modifies this`host
      ensures host == AppliedNow(old(Model()), frame)
    {
      var histories := WriteFrame(host.history, frame, {});
      var counts := WriteCounts(host.counts, frame, {}, Members(rows) + slots);
      host := host.(history := histories, counts := counts);
    }

    /** A prefill, with what it samples. */
    method SubmitPrefill(e: Event)
      requires Valid() && e.action.Prefill? && |e.action.tokens| == |rows| && Distinct(rows)
      modifies this`host, this`device, controller`chainValid, controller`completed
      ensures Valid() && Model() == Prefilled(controller.engine, old(Model()), e.action.tokens, e.action.left)
    {
      var frame := Frame(rows, e.action.tokens, false);
      host := CountsReset(controller.engine.launch, host, rows);
      controller.NotePrefillSubmitted();
      device := e.action.left;
      if controller.engine.launch.asyncScheduling {
        controller.EnqueueCompleted(frame);
      } else {
        ApplyNow(frame);
      }
    }

    /** A decode, with what the model answers. */
    method Submit(input: Input, tokens: seq<seq<Token>>, answer: Answer)
      requires Valid() && |tokens| == |rows| && Distinct(rows)
      modifies this`host, this`device, this`layoutChanged, controller
      ensures Valid() && Model() == Submitted(controller.engine, old(Model()), input, tokens, answer)
    {
      var frame := Frame(rows, tokens, input.rows.verify);
      device := Fed(Loaded(device, input, Plan(controller.engine, controller.Residency(), input)), input, tokens, answer);
      layoutChanged := false;
      if controller.engine.launch.asyncScheduling {
        controller.SubmitAsyncDecode(input, frame, answer);
      } else {
        SubmitNow(input, frame, answer);
      }
    }

    /** A synchronous launch waits for the answer. */
    method SubmitNow(input: Input, frame: Frame, answer: Answer)
      requires Valid() && FrameOk(frame)
      modifies this`host, controller`chainValid, controller`previousDeviceSampling, controller`previousVerified
      modifies controller`previousHostAnswered, controller`submittedTables
      ensures host == if answer.Unread? then old(host) else AppliedNow(old(Model()), frame)
      ensures controller.Residency() == if answer.Unread? then ReadFailed(old(controller.Residency()))
                                        else Committed(old(controller.Residency()), input,
                                                       Plan(controller.engine, old(controller.Residency()), input), answer.HostAnswered?)
    {
      var steady := controller.SubmitDecode(input, answer);
      if !answer.Unread? { ApplyNow(frame); }
    }

    /** The whole step; false is a raise: missing outputs, or a step that cannot be built. */
    method Execute(e: Event) returns (ok: bool)
      requires Valid() && Distinct(e.rows) && (e.action.Idle? || |e.action.tokens| == |e.rows|)
      modifies this, controller
      ensures ok ==> Valid() && Model() == AsyncRuns.Next(controller.engine, old(Model()), e)
      ensures ok <==> !Missing(Drained(AsyncRuns.Updated(Preflight(controller.engine, old(Model()), e), e), e.early), e.out.discards)
                      && (e.action.Decode? ==> Built(controller.engine, Prepared(controller.engine, old(Model()), e), e).Ok?)
    {
      BeforeUpdate(e);
      Update(e);
      ok := ApplyCompletedBeforeBuild(e);
      if ok { ok := BuildAndSubmit(e); }
    }

    method BuildAndSubmit(e: Event) returns (ok: bool)
      requires Valid() && Distinct(rows) && rows == e.rows && (e.action.Idle? || |e.action.tokens| == |e.rows|)
      modifies this`host, this`device, this`layoutChanged, controller
      ensures ok <==> (e.action.Decode? ==> Built(controller.engine, old(Model()), e).Ok?)
      ensures ok ==> Valid() && Model() == Acted(controller.engine, old(Model()), e)
    {
      if e.action.Idle? { return true; }
      if e.action.Prefill? {
        SubmitPrefill(e);
        return true;
      }
      var built := BuildDecode(controller.engine, host, e.out, rows, tables, layoutChanged);
      if built.Err? { return false; }
      host := built.value.0;
      Submit(built.value.1, e.action.tokens, e.action.answer);
      return true;
    }
  }

  /** Resolving moves frames and makes none. */
  lemma StillFrames(before: Queue, after: Queue, n: nat)
    requires before.resolved <= |before.pending| && FramesOk(before.pending) && FramesOk(before.completed)
    requires after in {before.ResolveTo(n), before.ResolveTo(n).ResolveAll(), before.ResolveAll()}
    ensures FramesOk(after.pending) && FramesOk(after.completed)
  {
  }
}
