/**
 `DeferredDecodeOutput` under threads. Several threads resolve submitted steps through
 `ensure_finalized`, one atomic action at a time and in any interleaving, while the engine prunes and
 drains. A thread may only call on a step when it knows the earlier ones to be resolved: it returned
 from them, or saw their completion event.
 */
module DeferredOutput {
  import opened Runtime

  /** How a readback ends. */
  datatype Outcome = Output(value: int) | Failure(error: int)

  /** One submitted step. `runs` counts device readbacks. An empty step's event is set at submission. */
  datatype Step = Step(empty: bool, finalized: bool, lock: Option<nat>, cached: Option<Outcome>, event: bool, runs: nat)

  /** Where a thread is inside `ensure_finalized(k)`. From `Locked` to `Signalled` it holds the lock. */
  datatype Pc =
    | Outside
    | Unlocked(k: nat)
    | Waiting(k: nat)
    | Locked(k: nat)
    | Reading(k: nat)
    | Read(k: nat, o: Outcome)
    | Enqueued(k: nat, o: Outcome)
    | Cached(k: nat, o: Outcome)
    | Flagged(k: nat, o: Outcome)
    | Signalled(k: nat, o: Outcome)
    | Replaying(k: nat)

  /** A call that returned or raised. */
  datatype Return = Return(k: nat, o: Outcome)

  /** `queued` is every completion ever enqueued, of which the engine has drained the first `drained`;
      `known[t]` steps are known to thread `t` to be resolved. */
  datatype World = World(steps: seq<Step>, pcs: seq<Pc>, known: seq<nat>, queued: seq<nat>, drained: nat, pruned: nat,
                         outcomes: seq<Return>)

  datatype Action =
    | Submit(empty: bool)
    | Call(t: nat, k: nat)
    | Advance(t: nat, o: Outcome)
    | Observe(t: nat)
    | Prune
    | Drain

  /** The step a thread holds the lock of. */
  function Holding(pc: Pc): Option<nat> {
    match pc
    case Locked(k) => Some(k)
    case Reading(k) => Some(k)
    case Read(k, _) => Some(k)
    case Enqueued(k, _) => Some(k)
    case Cached(k, _) => Some(k)
    case Flagged(k, _) => Some(k)
    case Signalled(k, _) => Some(k)
    case _ => None
  }

  predicate Enabled(w: World, a: Action) {
    match a
    case Submit(_) => true
    case Call(t, k) => t < |w.pcs| == |w.known| && w.pcs[t].Outside? && k < |w.steps| && k <= w.known[t]
    case Advance(t, _) =>
      && t < |w.pcs| && !w.pcs[t].Outside? && w.pcs[t].k < |w.steps|
      && (w.pcs[t].Waiting? ==> w.steps[w.pcs[t].k].lock.None?)
      && (w.pcs[t].Replaying? ==> w.steps[w.pcs[t].k].cached.Some?)
    case Observe(t) => t < |w.known| && w.known[t] < |w.steps| && w.steps[w.known[t]].event
    case Prune => w.pruned < |w.steps| && w.steps[w.pruned].event
    case Drain => true
  }

  function Put(w: World, t: nat, pc: Pc, k: nat, step: Step): World
    requires t < |w.pcs| && k < |w.steps|
  {
    w.(pcs := w.pcs[t := pc], steps := w.steps[k := step])
  }

  function Returned(w: World, t: nat, k: nat, o: Outcome): World
    requires t < |w.pcs| == |w.known|
  {
    w.(pcs := w.pcs[t := Outside], outcomes := w.outcomes + [Return(k, o)],
       known := if w.known[t] == k then w.known[t := k + 1] else w.known)
  }

  /** One atomic action of a thread inside `ensure_finalized`; `o` is what a readback comes back with. */
  function Advanced(w: World, t: nat, o: Outcome): World
    requires Enabled(w, Advance(t, o)) && |w.known| == |w.pcs|
  {
    var k := w.pcs[t].k;
    var step := w.steps[k];
    match w.pcs[t]
    case Unlocked(_) => w.(pcs := w.pcs[t := if step.finalized then Replaying(k) else Waiting(k)])
    case Waiting(_) => Put(w, t, Locked(k), k, step.(lock := Some(t)))
    case Locked(_) =>
      if step.finalized then Put(w, t, Replaying(k), k, step.(lock := None)) else w.(pcs := w.pcs[t := Reading(k)])
    case Reading(_) => Put(w, t, Read(k, o), k, step.(runs := step.runs + 1))
    case Read(_, outcome) =>
      w.(pcs := w.pcs[t := Enqueued(k, outcome)], queued := if outcome.Output? then w.queued + [k] else w.queued)
    case Enqueued(_, outcome) => Put(w, t, Cached(k, outcome), k, step.(cached := Some(outcome)))
    case Cached(_, outcome) => Put(w, t, Flagged(k, outcome), k, step.(finalized := true))
    case Flagged(_, outcome) => Put(w, t, Signalled(k, outcome), k, step.(event := true))
    case Signalled(_, outcome) => Returned(w.(steps := w.steps[k := step.(lock := None)]), t, k, outcome)
    case Replaying(_) => Returned(w, t, k, step.cached.value)
  }

  function Next(w: World, a: Action): World
    requires Enabled(w, a) && |w.known| == |w.pcs| && w.drained <= |w.queued|
  {
    match a
    case Submit(empty) => w.(steps := w.steps + [Step(empty, false, None, None, empty, 0)])
    case Call(t, k) => w.(pcs := w.pcs[t := Unlocked(k)])
    case Advance(t, o) => Advanced(w, t, o)
    case Observe(t) => w.(known := w.known[t := w.known[t] + 1])
    case Prune => w.(pruned := w.pruned + 1)
    case Drain => w.(drained := |w.queued|)
  }

  // ----- the invariant -----

  /** Every real step before `k` is resolved. */
  predicate Behind(w: World, k: nat) {
    k <= |w.steps| && forall j :: 0 <= j < k && !w.steps[j].empty ==> w.steps[j].finalized
  }

  /** What one step's fields say of each other. */
  predicate StepOk(w: World, k: nat)
    requires k < |w.steps|
  {
    var s := w.steps[k];
    && s.runs <= 1
    && (s.finalized ==> s.cached.Some?)
    && (s.cached.Some? ==> s.runs == 1)
    && (s.event && !s.empty ==> s.finalized)
    && (s.cached.Some? && s.cached.value.Output? ==> k in w.queued)
    && (s.lock.None? ==> s.finalized || (s.runs == 0 && s.cached.None? && k !in w.queued))
    && (s.lock.Some? ==> s.lock.value < |w.pcs| && Holding(w.pcs[s.lock.value]) == Some(k))
  }

  /** What a thread's place says of its step. */
  predicate ThreadOk(w: World, t: nat)
    requires t < |w.pcs|
  {
    var pc := w.pcs[t];
    pc.Outside? ||
    (&& pc.k < |w.steps| && Behind(w, pc.k)
     && (Holding(pc).Some? ==> w.steps[pc.k].lock == Some(t))
     && var s := w.steps[pc.k];
        match pc
        case Reading(k) => !s.finalized && s.runs == 0 && s.cached.None? && k !in w.queued
        case Read(k, _) => !s.finalized && s.runs == 1 && s.cached.None? && k !in w.queued
        case Enqueued(k, o) => !s.finalized && s.runs == 1 && s.cached.None? && (o.Output? <==> k in w.queued)
        case Cached(_, o) => !s.finalized && s.cached == Some(o)
        case Flagged(_, o) => s.finalized && s.cached == Some(o)
        case Signalled(_, o) => s.finalized && s.cached == Some(o)
        case Replaying(_) => s.finalized
        case Locked(k) => s.finalized || (s.runs == 0 && s.cached.None? && k !in w.queued)
        case _ => true)
  }

  /** Completions are enqueued once and in submission order. */
  predicate QueueOk(w: World) {
    && w.drained <= |w.queued|
    && (forall i :: 0 <= i < |w.queued| ==> w.queued[i] < |w.steps| && Behind(w, w.queued[i]))
    && (forall i, j :: 0 <= i < j < |w.queued| ==> w.queued[i] != w.queued[j])
    && (forall i, j :: 0 <= i < j < |w.queued| && !w.steps[w.queued[i]].empty && !w.steps[w.queued[j]].empty ==>
          w.queued[i] < w.queued[j])
  }

  predicate ReturnsOk(w: World) {
    forall i :: 0 <= i < |w.outcomes| ==>
      w.outcomes[i].k < |w.steps| && w.steps[w.outcomes[i].k].finalized && w.steps[w.outcomes[i].k].cached == Some(w.outcomes[i].o)
  }

  predicate PruneOk(w: World) {
    w.pruned <= |w.steps| && forall j :: 0 <= j < w.pruned ==> w.steps[j].event
  }

  predicate Inv(w: World) {
    && |w.known| == |w.pcs|
    && (forall k :: 0 <= k < |w.steps| ==> StepOk(w, k))
    && (forall t :: 0 <= t < |w.pcs| ==> ThreadOk(w, t))
    && (forall t :: 0 <= t < |w.known| ==> Behind(w, w.known[t]))
    && QueueOk(w) && ReturnsOk(w) && PruneOk(w)
  }

  // ----- every action keeps it -----

  /** `after` differs from `w` in thread `t`, in step `k`, and by at most one completion of `k`. */
  predicate Local(w: World, after: World, t: nat, k: nat) {
    && t < |w.pcs| == |w.known| && k < |w.steps| && (Holding(w.pcs[t]).None? || Holding(w.pcs[t]) == Some(k))
    && |after.pcs| == |w.pcs| && |after.steps| == |w.steps| && after.known == w.known
    && after.drained == w.drained && after.pruned == w.pruned && after.outcomes == w.outcomes
    && (forall i :: 0 <= i < |w.pcs| && i != t ==> after.pcs[i] == w.pcs[i])
    && (forall j :: 0 <= j < |w.steps| && j != k ==> after.steps[j] == w.steps[j])
    && after.queued in {w.queued, w.queued + [k]}
    && var s, d := w.steps[k], after.steps[k];
       d.empty == s.empty && (s.finalized ==> d.finalized) && (s.cached.Some? ==> d.cached == s.cached) && (s.event ==> d.event)
  }

  lemma LocalKeeps(w: World, after: World, t: nat, k: nat)
    requires Inv(w) && Local(w, after, t, k)
    requires forall i :: 0 <= i < |w.pcs| && i != t ==> Holding(w.pcs[i]) != Some(k)
    requires StepOk(after, k) && ThreadOk(after, t) && QueueOk(after)
    ensures Inv(after)
  {
    forall n | Behind(w, n) ensures Behind(after, n) {}
    forall j | 0 <= j < |after.steps| ensures StepOk(after, j) {
      if j != k { assert StepOk(w, j); }
    }
    forall i | 0 <= i < |after.pcs| ensures ThreadOk(after, i) {
      if i != t {
        assert ThreadOk(w, i);
        if w.pcs[i].Outside? {} else if w.pcs[i].k == k { assert Holding(w.pcs[i]).None?; }
      }
    }
  }

  /** Whoever holds the lock holds it alone. */
  lemma Alone(w: World, t: nat, k: nat)
    requires Inv(w) && t < |w.pcs| && k < |w.steps| && (Holding(w.pcs[t]) == Some(k) || w.steps[k].lock.None?)
    ensures forall i :: 0 <= i < |w.pcs| && i != t ==> Holding(w.pcs[i]) != Some(k)
  {
    assert ThreadOk(w, t);
    forall i | 0 <= i < |w.pcs| && i != t ensures Holding(w.pcs[i]) != Some(k) {
      assert ThreadOk(w, i);
    }
  }

  /** A completion that is about to be enqueued is newer than all real ones enqueued before it. */
  lemma EnqueueKeepsOrder(w: World, k: nat)
    requires Inv(w) && k < |w.steps| && !w.steps[k].finalized && k !in w.queued && Behind(w, k)
    ensures QueueOk(w.(queued := w.queued + [k]))
  {
    var after := w.(queued := w.queued + [k]);
    forall i | 0 <= i < |w.queued| && !w.steps[w.queued[i]].empty && !w.steps[k].empty ensures w.queued[i] < k {
      assert w.queued[i] in w.queued && Behind(w, w.queued[i]);
    }
    assert forall n :: Behind(w, n) ==> Behind(after, n);
    assert forall i :: 0 <= i < |w.queued| ==> w.queued[i] in w.queued;
  }

  lemma SameQueue(w: World, after: World, t: nat, k: nat)
    requires Inv(w) && Local(w, after, t, k) && after.queued == w.queued
    ensures QueueOk(after)
  {
    forall i | 0 <= i < |w.queued| ensures Behind(after, w.queued[i]) {
      assert Behind(w, w.queued[i]);
    }
  }

  /** Taking the lock, and looking again under it. */
  lemma LockKeeps(w: World, t: nat, o: Outcome)
    requires Inv(w) && Enabled(w, Advance(t, o)) && (w.pcs[t].Waiting? || w.pcs[t].Locked?)
    ensures Inv(Advanced(w, t, o))
  {
    var k := w.pcs[t].k;
    assert ThreadOk(w, t) && StepOk(w, k);
    SameQueue(w, Advanced(w, t, o), t, k);
    Alone(w, t, k);
    LocalKeeps(w, Advanced(w, t, o), t, k);
  }

  /** The readback itself. */
  lemma ReadingKeeps(w: World, t: nat, o: Outcome)
    requires Inv(w) && Enabled(w, Advance(t, o)) && w.pcs[t].Reading?
    ensures Inv(Advanced(w, t, o))
  {
    var k := w.pcs[t].k;
    assert ThreadOk(w, t) && StepOk(w, k);
    SameQueue(w, Advanced(w, t, o), t, k);
    Alone(w, t, k);
    LocalKeeps(w, Advanced(w, t, o), t, k);
  }

  /** Its completion is enqueued when it succeeded. */
  lemma ReadKeeps(w: World, t: nat, o: Outcome)
    requires Inv(w) && Enabled(w, Advance(t, o)) && w.pcs[t].Read?
    ensures Inv(Advanced(w, t, o))
  {
    var k := w.pcs[t].k;
    assert ThreadOk(w, t) && StepOk(w, k);
    var moved := w.(pcs := w.pcs[t := Enqueued(k, w.pcs[t].o)]);
    if w.pcs[t].o.Output? {
      EnqueueKeepsOrder(w, k);
      QueueIgnoresThreads(w.(queued := w.queued + [k]), Advanced(w, t, o));
    } else {
      SameQueue(w, moved, t, k);
    }
    Alone(w, t, k);
    LocalKeeps(w, Advanced(w, t, o), t, k);
  }

  lemma QueueIgnoresThreads(w: World, after: World)
    requires QueueOk(w) && after == w.(pcs := after.pcs)
    ensures QueueOk(after)
  {
    assert forall n :: Behind(w, n) ==> Behind(after, n);
  }

  /** Caching the outcome, then the flag, then the event. */
  lemma FinishKeeps(w: World, t: nat, o: Outcome)
    requires Inv(w) && Enabled(w, Advance(t, o)) && (w.pcs[t].Enqueued? || w.pcs[t].Cached? || w.pcs[t].Flagged?)
    ensures Inv(Advanced(w, t, o))
  {
    var k := w.pcs[t].k;
    assert ThreadOk(w, t) && StepOk(w, k);
    SameQueue(w, Advanced(w, t, o), t, k);
    Alone(w, t, k);
    LocalKeeps(w, Advanced(w, t, o), t, k);
  }

  lemma AdvanceKeeps(w: World, t: nat, o: Outcome)
    requires Inv(w) && Enabled(w, Advance(t, o))
    ensures Inv(Advanced(w, t, o))
  {
    match w.pcs[t]
    case Unlocked(k) =>
      assert ThreadOk(w, t);
      UnlockedKeeps(w, Advanced(w, t, o), t, k);
    case Waiting(_) => LockKeeps(w, t, o);
    case Locked(_) => LockKeeps(w, t, o);
    case Reading(_) => ReadingKeeps(w, t, o);
    case Read(_, _) => ReadKeeps(w, t, o);
    case Signalled(_, _) => ReturnKeeps(w, t, o);
    case Replaying(_) => ReturnKeeps(w, t, o);
    case _ => FinishKeeps(w, t, o);
  }

  /** Looking at the flag without the lock changes nothing but the thread's place. */
  lemma UnlockedKeeps(w: World, after: World, t: nat, k: nat)
    requires Inv(w) && t < |w.pcs| && w.pcs[t] == Unlocked(k) && k < |w.steps|
    requires after == w.(pcs := w.pcs[t := if w.steps[k].finalized then Replaying(k) else Waiting(k)])
    ensures Inv(after)
  {
    forall j | 0 <= j < |w.steps| ensures StepOk(after, j) {
      assert StepOk(w, j);
    }
    forall i | 0 <= i < |w.pcs| ensures ThreadOk(after, i) {
      assert ThreadOk(w, i);
    }
    assert forall n :: Behind(w, n) ==> Behind(after, n);
  }

  /** Returning from a call: the outcome is the step's cached one. */
  lemma ReturnKeeps(w: World, t: nat, o: Outcome)
    requires Inv(w) && Enabled(w, Advance(t, o)) && (w.pcs[t].Signalled? || w.pcs[t].Replaying?)
    ensures Inv(Advanced(w, t, o))
  {
    var k := w.pcs[t].k;
    var after := Advanced(w, t, o);
    assert ThreadOk(w, t) && StepOk(w, k);
    assert forall n :: Behind(w, n) ==> Behind(after, n);
    forall j | 0 <= j < |w.steps| ensures StepOk(after, j) {
      assert StepOk(w, j);
    }
    forall i | 0 <= i < |w.pcs| ensures ThreadOk(after, i) {
      assert ThreadOk(w, i);
    }
    if w.known[t] == k { assert Behind(after, k + 1); }
  }

  lemma SubmitKeeps(w: World, empty: bool)
    requires Inv(w)
    ensures Inv(Next(w, Submit(empty)))
  {
    var after := Next(w, Submit(empty));
    forall n | Behind(w, n) ensures Behind(after, n) {}
    forall j | 0 <= j < |after.steps| ensures StepOk(after, j) {
      if j < |w.steps| { assert StepOk(w, j); }
    }
    forall i | 0 <= i < |w.pcs| ensures ThreadOk(after, i) {
      assert ThreadOk(w, i);
    }
  }

  lemma CallKeeps(w: World, t: nat, k: nat)
    requires Inv(w) && Enabled(w, Call(t, k))
    ensures Inv(Next(w, Call(t, k)))
  {
    var after := Next(w, Call(t, k));
    assert forall n :: Behind(w, n) ==> Behind(after, n);
    assert Behind(w, w.known[t]);
    forall j | 0 <= j < |w.steps| ensures StepOk(after, j) {
      assert StepOk(w, j);
    }
    forall i | 0 <= i < |w.pcs| ensures ThreadOk(after, i) {
      assert ThreadOk(w, i);
    }
  }

  /** Observe, prune and drain read events and move the engine's own markers. */
  lemma EngineKeeps(w: World, a: Action)
    requires Inv(w) && Enabled(w, a) && (a.Observe? || a.Prune? || a.Drain?)
    ensures Inv(Next(w, a))
  {
    var after := Next(w, a);
    assert forall n :: Behind(w, n) ==> Behind(after, n);
    forall j | 0 <= j < |w.steps| ensures StepOk(after, j) {
      assert StepOk(w, j);
    }
    forall i | 0 <= i < |w.pcs| ensures ThreadOk(after, i) {
      assert ThreadOk(w, i);
    }
    if a.Observe? {
      assert StepOk(w, w.known[a.t]) && Behind(after, w.known[a.t] + 1);
    }
  }

  lemma NextKeeps(w: World, a: Action)
    requires Inv(w) && Enabled(w, a)
    ensures Inv(Next(w, a))
  {
    match a
    case Submit(empty) => SubmitKeeps(w, empty);
    case Call(t, k) => CallKeeps(w, t, k);
    case Advance(t, o) => AdvanceKeeps(w, t, o);
    case Observe(_) => EngineKeeps(w, a);
    case Prune => EngineKeeps(w, a);
    case Drain => EngineKeeps(w, a);
  }

  // ----- runs -----

  function Start(threads: nat): World {
    World([], seq(threads, _ => Outside), seq(threads, _ => 0), [], 0, 0, [])
  }

  /** None once an action was not enabled. */
  function Run(threads: nat, actions: seq<Action>): Option<World> {
    if actions == [] then Some(Start(threads))
    else
      var a := actions[|actions| - 1];
      match Run(threads, actions[..|actions| - 1])
      case None => None
      case Some(w) => if Enabled(w, a) && |w.known| == |w.pcs| && w.drained <= |w.queued| then Some(Next(w, a)) else None
  }

  lemma {:induction false} RunKeeps(threads: nat, actions: seq<Action>)
    requires Run(threads, actions).Some?
    ensures Inv(Run(threads, actions).value)
  {
    if actions != [] {
      RunKeeps(threads, actions[..|actions| - 1]);
      NextKeeps(Run(threads, actions[..|actions| - 1]).value, actions[|actions| - 1]);
    }
  }

  predicate Real(w: World, k: nat) {
    k < |w.steps| && !w.steps[k].empty
  }

  /** Under every interleaving: a step is read back at most once, all its callers see one outcome,
      completions are enqueued in submission order and none twice. */
  lemma ExactlyOnceInOrder(threads: nat, actions: seq<Action>)
    requires Run(threads, actions).Some?
    ensures var w := Run(threads, actions).value;
            && (forall k :: 0 <= k < |w.steps| ==> w.steps[k].runs <= 1)
            && (forall i, j :: 0 <= i < |w.outcomes| && 0 <= j < |w.outcomes| && w.outcomes[i].k == w.outcomes[j].k ==>
                  w.outcomes[i].o == w.outcomes[j].o)
            && (forall i, j :: 0 <= i < j < |w.queued| ==> w.queued[i] != w.queued[j])
            && (forall i, j :: 0 <= i < j < |w.queued| && Real(w, w.queued[i]) && Real(w, w.queued[j]) ==> w.queued[i] < w.queued[j])
  {
    RunKeeps(threads, actions);
    var w := Run(threads, actions).value;
    forall k | 0 <= k < |w.steps| ensures w.steps[k].runs <= 1 {
      assert StepOk(w, k);
    }
  }

  /** What prune drops has been enqueued before, so the drain that follows sees it. */
  lemma PrunedIsQueued(threads: nat, actions: seq<Action>, k: nat)
    requires Run(threads, actions).Some? && k < Run(threads, actions).value.pruned
    ensures var w := Run(threads, actions).value;
            && k < |w.steps| && (!w.steps[k].empty ==> w.steps[k].cached.Some? && w.steps[k].runs == 1)
            && (!w.steps[k].empty && w.steps[k].cached.value.Output? ==> k in w.queued)
  {
    RunKeeps(threads, actions);
    assert StepOk(Run(threads, actions).value, k);
  }

  /** An empty step is the exception: its event is set before anything was read, so it can be pruned
      while its completion is still to come. */
  lemma EmptyStepPrunesEarly()
    ensures Run(1, [Submit(true), Prune]).Some?
    ensures var w := Run(1, [Submit(true), Prune]).value; w.pruned == 1 && 0 !in w.queued
  {
    var actions := [Submit(true), Prune];
    assert actions[..1] == [Submit(true)] && [Submit(true)][..0] == [];
    var first := Next(Start(1), Submit(true));
    assert Run(1, [Submit(true)]) == Some(first);
    assert Run(1, actions) == Some(Next(first, Prune));
  }
}
