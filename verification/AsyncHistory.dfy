/**
 Whole runs of the asynchronous runner against a runner that waits for every answer. The waiting
 runner is a ledger per request: a settled history and the results since, of which a forced reset
 takes back the newest.
 */
module AsyncHistory {
  import opened Runtime
  import opened SpecDecode
  import opened DecodeReload
  import opened LateResults
  import opened AsyncRuns
  import opened AsyncResidency
  import opened AsyncTheorems

  // ----- the waiting runner -----

  datatype Ledger = Ledger(settled: seq<Token>, results: seq<seq<Token>>) {
    function History(): seq<Token> {
      settled + Flatten(results)
    }

    /** A forced reset takes back the newest `d` results. */
    function Without(d: nat): Ledger {
      this.(results := results[..Max(0, |results| - d)])
    }

    /** An answer is history at once; an empty one is no result. */
    function With(tokens: seq<Token>): Ledger {
      if tokens == [] then this else this.(results := results + [tokens])
    }
  }

  /** The tokens a step answers for `r`. */
  function AnsweredFor(e: Event, r: ReqId): seq<Token> {
    match e.action
    case Idle => []
    case Prefill(tokens, _) => TokensAt(e.rows, tokens, r)
    case Decode(tokens, answer) => if answer.Unread? then [] else TokensAt(e.rows, tokens, r)
  }

  /** A new request starts with its prompt, a finished one is forgotten. */
  function Listed(l: Option<Ledger>, e: Event, r: ReqId): Option<Ledger> {
    if r in e.arrivals then Some(Ledger(e.arrivals[r], [])) else if r in e.out.finished then None else l
  }

  /** What the scheduler output makes of a request, before the step runs: none for one it does not know. */
  function Announced(l: Option<Ledger>, e: Event, r: ReqId): Option<Ledger> {
    match Listed(l, e, r)
    case None => None
    case Some(was) => Some(was.Without(GetOr(e.out.discards, r, 0)))
  }

  function Waited(l: Option<Ledger>, e: Event, r: ReqId): Option<Ledger> {
    match Announced(l, e, r)
    case None => None
    case Some(ready) => Some(ready.With(AnsweredFor(e, r)))
  }

  /** The waiting runner over a run that starts with no request. */
  function WaitingRun(events: seq<Event>, r: ReqId): Option<Ledger> {
    if events == [] then None else Waited(WaitingRun(events[..|events| - 1], r), events[|events| - 1], r)
  }

  // ----- the asynchronous run -----

  function Cold(device: Device): State {
    State(COLD_CHAIN, Queue([], [], 0, []), Counters(0, 0), [], {}, true, Host(map[], map[], map[]), map[], device)
  }

  lemma ColdInv(engine: Engine, device: Device)
    ensures Inv(engine, Cold(device))
  {
  }

  /** None once an event was not legal: nothing is claimed of what follows. */
  ghost function Run(engine: Engine, device: Device, events: seq<Event>): Option<State> {
    if events == [] then Some(Cold(device))
    else
      match Run(engine, device, events[..|events| - 1])
      case None => None
      case Some(s) =>
        var e := events[|events| - 1];
        if s.queue.resolved <= |s.queue.pending| == |s.queue.overlapOk| && Legal(engine, s, e) && Fits(engine, s, e) then
          Some(AsyncRuns.Next(engine, s, e))
        else None
  }

  lemma {:induction false} RunKeeps(engine: Engine, device: Device, events: seq<Event>)
    requires Run(engine, device, events).Some?
    ensures Inv(engine, Run(engine, device, events).value)
  {
    if events == [] {
      ColdInv(engine, device);
    } else {
      RunKeeps(engine, device, events[..|events| - 1]);
      StepKeeps(engine, Run(engine, device, events[..|events| - 1]).value, events[|events| - 1]);
    }
  }

  // ----- a state tracks a ledger -----

  /** The newest results of the ledger are those still on their way, and the host holds the others. */
  ghost predicate Tracks(s: State, r: ReqId, l: Ledger)
    requires s.queue.resolved <= |s.queue.pending|
  {
    var open := Results(s.queue.Unapplied(), r);
    Splits(GetOr(s.host.history, r, []), open, l)
  }

  ghost predicate Splits(host: seq<Token>, open: seq<seq<Token>>, l: Ledger) {
    && |open| <= |l.results| && l.results[|l.results| - |open|..] == open
    && host == l.settled + Flatten(l.results[..|l.results| - |open|])
  }

  ghost predicate Known(s: State, r: ReqId, l: Option<Ledger>)
    requires s.queue.resolved <= |s.queue.pending|
  {
    (r in s.host.history <==> l.Some?) && (l.Some? ==> Tracks(s, r, l.value))
  }

  lemma {:induction false} FlattenAppend(a: seq<seq<Token>>, b: seq<seq<Token>>)
    ensures Flatten(a + b) == Flatten(a) + Flatten(b)
  {
    if a == [] {
      assert a + b == b;
    } else {
      FlattenAppend(a[1..], b);
      assert a + b == [a[0]] + (a[1..] + b);
      FlattenCons(a[0], a[1..] + b);
      Regroup(a[0], Flatten(a[1..]), Flatten(b));
    }
  }

  lemma FlattenCons(first: seq<Token>, rest: seq<seq<Token>>)
    ensures Flatten([first] + rest) == first + Flatten(rest)
  {
    assert ([first] + rest)[1..] == rest;
  }

  lemma FlattenOne(block: seq<Token>)
    ensures Flatten([block]) == block
  {
    assert [block][1..] == [] && Flatten([]) == [];
  }

  lemma {:induction false} ResultsJoin(a: seq<Frame>, b: seq<Frame>, r: ReqId)
    ensures Results(a + b, r) == Results(a, r) + Results(b, r)
  {
    if b == [] {
      assert a + b == a;
    } else {
      var n := |b| - 1;
      ResultsJoin(a, b[..n], r);
      assert a + b == (a + b[..n]) + [b[n]] && b == b[..n] + [b[n]];
      ResultsAppend(a + b[..n], b[n], r);
      ResultsAppend(b[..n], b[n], r);
    }
  }

  /** What a state tracks is its current history. */
  lemma SplitHistory(host: seq<Token>, open: seq<seq<Token>>, l: Ledger)
    requires Splits(host, open, l)
    ensures host + Flatten(open) == l.History()
  {
    var n := |l.results| - |open|;
    assert l.results == l.results[..n] + open;
    FlattenAppend(l.results[..n], open);
    Regroup(l.settled, Flatten(l.results[..n]), Flatten(open));
  }

  lemma TracksCurrent(s: State, r: ReqId, l: Ledger)
    requires s.queue.resolved <= |s.queue.pending| && Tracks(s, r, l)
    ensures Current(s, r) == l.History()
  {
    FlattenResults(s.queue.Unapplied(), r);
    SplitHistory(GetOr(s.host.history, r, []), Results(s.queue.Unapplied(), r), l);
  }

  // ----- applying late results -----

  /** Draining moves results from the open part to the host; the newest `d` are dropped, which needs
      either none to drop or nothing left behind. */
  lemma DrainSplit(host: seq<Token>, drained: seq<seq<Token>>, rest: seq<seq<Token>>, l: Ledger, d: nat)
    requires Splits(host, drained + rest, l) && (d == 0 || rest == []) && d <= |drained|
    ensures Splits(host + Flatten(drained[..|drained| - d]), rest, l.Without(d))
  {
    var n := |l.results| - |drained + rest|;
    var older := drained[..|drained| - d];
    var after := l.Without(d);
    assert l.results == l.results[..n] + (drained + rest);
    assert after.results == l.results[..n] + (older + rest);
    assert after.results[..|after.results| - |rest|] == l.results[..n] + older;
    FlattenAppend(l.results[..n], older);
    Regroup(l.settled, Flatten(l.results[..n]), Flatten(older));
  }

  lemma AppliedTracks(s: State, readers: Readers, suppressed: set<ReqId>, discards: map<ReqId, nat>, proposed: Proposals, r: ReqId, l: Ledger)
    requires QueueOk(s.queue) && r in s.host.history && r !in suppressed && Tracks(s, r, l)
    requires !Missing(Drained(s, readers), discards)
    requires discards == map[] || ApplyDrained(s, readers, suppressed, discards, proposed).queue.pending == []
    ensures var after := ApplyDrained(s, readers, suppressed, discards, proposed);
            && after.queue.resolved <= |after.queue.pending| && r in after.host.history
            && Tracks(after, r, l.Without(GetOr(discards, r, 0)))
  {
    DrainSplits(s.queue, readers);
    AppliedTracksFrom(s, ApplyDrained(s, readers, suppressed, discards, proposed),
                      s.queue.ResolveTo(readers.beforePrune).Pruned().ResolveTo(readers.beforeDrain), suppressed, discards, r, l);
  }

  lemma AppliedTracksFrom(s: State, after: State, drained: Queue, suppressed: set<ReqId>, discards: map<ReqId, nat>, r: ReqId, l: Ledger)
    requires s.queue.resolved <= |s.queue.pending| && drained.resolved <= |drained.pending|
    requires drained.completed + drained.pending[drained.resolved..] == s.queue.Unapplied()
    requires after.queue == drained.(completed := [])
    requires after.host.history == ApplyAll(s.host.history, drained.completed, suppressed, discards)
    requires r in s.host.history && r !in suppressed && Tracks(s, r, l) && !Missing(drained.completed, discards)
    requires discards == map[] || after.queue.pending == []
    ensures r in after.host.history && Tracks(after, r, l.Without(GetOr(discards, r, 0)))
  {
    var rest := drained.pending[drained.resolved..];
    assert after.queue.Unapplied() == rest;
    AppliedSplit(s.host.history, drained.completed, rest, suppressed, discards, r, l);
  }

  lemma AppliedSplit(histories: Histories, drained: seq<Frame>, rest: seq<Frame>, suppressed: set<ReqId>, discards: map<ReqId, nat>,
                     r: ReqId, l: Ledger)
    requires r in histories && r !in suppressed && Splits(histories[r], Results(drained + rest, r), l)
    requires !Missing(drained, discards) && (discards == map[] || rest == [])
    ensures var after := ApplyAll(histories, drained, suppressed, discards);
            r in after && Splits(after[r], Results(rest, r), l.Without(GetOr(discards, r, 0)))
  {
    NewestAreDiscarded(histories, drained, suppressed, discards, r);
    ResultsJoin(drained, rest, r);
    DiscardFits(drained, rest, discards, r);
    DrainedSplit(histories[r], ApplyAll(histories, drained, suppressed, discards)[r], Results(drained, r), Results(rest, r),
                 Results(drained + rest, r), l, GetOr(discards, r, 0));
  }

  lemma DiscardFits(drained: seq<Frame>, rest: seq<Frame>, discards: map<ReqId, nat>, r: ReqId)
    requires !Missing(drained, discards) && (discards == map[] || rest == [])
    ensures GetOr(discards, r, 0) <= |Results(drained, r)| && (GetOr(discards, r, 0) == 0 || Results(rest, r) == [])
  {
  }

  lemma DrainedSplit(host: seq<Token>, after: seq<Token>, drained: seq<seq<Token>>, rest: seq<seq<Token>>, all: seq<seq<Token>>,
                     l: Ledger, d: nat)
    requires all == drained + rest && Splits(host, all, l) && after == host + Flatten(AllBut(drained, d))
    requires d <= |drained| && (d == 0 || rest == [])
    ensures Splits(after, rest, l.Without(d))
  {
    DrainSplit(host, drained, rest, l, d);
  }

  // ----- up to the build -----

  lemma {:induction false} OthersHaveNoResults(frames: seq<Frame>, rows: seq<ReqId>, r: ReqId)
    requires (forall f :: f in frames ==> f.rows == rows) && r !in rows
    ensures Results(frames, r) == []
  {
    if frames != [] {
      assert frames[0] in frames;
      OthersHaveNoResults(frames[1..], rows, r);
    }
  }

  /** A new request starts with its prompt and nothing on its way; a finished one is forgotten. */
  lemma UpdatedTracks(engine: Engine, s: State, e: Event, r: ReqId, l: Option<Ledger>)
    requires Base(engine, s) && Legal(engine, s, e) && Known(s, r, l) && Listed(l, e, r).Some?
    ensures var updated := AsyncRuns.Updated(Preflight(engine, s, e), e);
            QueueOk(updated.queue) && r in updated.host.history && r !in e.out.finished && Tracks(updated, r, Listed(l, e, r).value)
  {
    PreflightKeeps(engine, s, e);
    if r in e.arrivals {
      assert r !in Members(s.rows) && r in e.out.scheduled;
      OthersHaveNoResults(s.queue.Unapplied(), s.rows, r);
      assert e.arrivals[r] + Flatten([]) == e.arrivals[r];
    }
  }

  /** A discard makes the preflight wait for everything. */
  lemma DiscardDrains(engine: Engine, s: State, e: Event)
    requires QueueOk(s.queue) && e.out.discards != map[]
    ensures var updated := AsyncRuns.Updated(Preflight(engine, s, e), e);
            && updated.queue.resolved == |updated.queue.pending| == |updated.queue.overlapOk|
            && ApplyDrained(updated, e.early, e.out.finished, e.out.discards, e.first).queue.pending == []
  {
    PreflightKeeps(engine, s, e);
    var updated := AsyncRuns.Updated(Preflight(engine, s, e), e);
    ApplyAfterResolveAll(updated, e.early, e.out.finished, e.out.discards, e.first);
  }

  lemma BuildApplyTracks(engine: Engine, s: State, e: Event, r: ReqId, l: Ledger)
    requires QueueOk(s.queue) && r in s.host.history && r !in e.out.finished && Tracks(s, r, l)
    requires !Missing(Drained(s, e.early), e.out.discards)
    requires e.out.discards == map[] || ApplyDrained(s, e.early, e.out.finished, e.out.discards, e.first).queue.pending == []
    ensures var after := ApplyBeforeBuild(engine, s, e);
            && after.queue.resolved <= |after.queue.pending| && r in after.host.history
            && Tracks(after, r, l.Without(GetOr(e.out.discards, r, 0)))
  {
    var d := GetOr(e.out.discards, r, 0);
    ApplyQueue(s, e.early, e.out.finished, e.out.discards, e.first);
    AppliedTracks(s, e.early, e.out.finished, e.out.discards, e.first, r, l);
    var applied := ApplyDrained(s, e.early, e.out.finished, e.out.discards, e.first);
    if NextVerifies(engine, applied.host, e.out, applied.queue.pending != []) {
      var waited := applied.(queue := applied.queue.ResolveAll());
      ResolveKeeps(applied.queue, |applied.queue.pending|);
      AppliedTracks(waited, e.late, e.out.finished, map[], e.second, r, l.Without(d));
      WithoutNone(l.Without(d));
    }
  }

  lemma WithoutNone(l: Ledger)
    ensures l.Without(0) == l
  {
    assert l.results[..|l.results|] == l.results;
  }

  lemma PreparedTracks(engine: Engine, s: State, e: Event, r: ReqId, l: Option<Ledger>)
    requires Base(engine, s) && Legal(engine, s, e) && Known(s, r, l) && Announced(l, e, r).Some?
    requires !Missing(Drained(AsyncRuns.Updated(Preflight(engine, s, e), e), e.early), e.out.discards)
    ensures var ready := Prepared(engine, s, e);
            ready.queue.resolved <= |ready.queue.pending| && r in ready.host.history && Tracks(ready, r, Announced(l, e, r).value)
  {
    UpdatedTracks(engine, s, e, r, l);
    if e.out.discards != map[] { DiscardDrains(engine, s, e); }
    BuildApplyTracks(engine, AsyncRuns.Updated(Preflight(engine, s, e), e), e, r, Listed(l, e, r).value);
  }

  lemma PreparedMembers(engine: Engine, s: State, e: Event, r: ReqId)
    requires QueueOk(s.queue)
    ensures Prepared(engine, s, e).queue.resolved <= |Prepared(engine, s, e).queue.pending|
    ensures r in Prepared(engine, s, e).host.history <==> r in e.arrivals || (r in s.host.history && r !in e.out.finished)
  {
    PreparedKeeps(engine, s, e);
  }

  /** Preparing a step does to the request what its scheduler output announces, whatever was drained when. */
  lemma PreparedKnown(engine: Engine, s: State, e: Event, r: ReqId, l: Option<Ledger>)
    requires Base(engine, s) && Legal(engine, s, e) && Known(s, r, l)
    requires !Missing(Drained(AsyncRuns.Updated(Preflight(engine, s, e), e), e.early), e.out.discards)
    ensures var ready := Prepared(engine, s, e);
            ready.queue.resolved <= |ready.queue.pending| && Known(ready, r, Announced(l, e, r))
  {
    PreparedMembers(engine, s, e, r);
    if Announced(l, e, r).Some? { PreparedTracks(engine, s, e, r, l); }
  }

  // ----- the answer -----

  lemma OpenGrows(host: seq<Token>, open: seq<seq<Token>>, l: Ledger, tokens: seq<Token>)
    requires Splits(host, open, l)
    ensures Splits(host, if tokens == [] then open else open + [tokens], l.With(tokens))
  {
    var n := |l.results| - |open|;
    assert l.results == l.results[..n] + open;
    assert l.results + [tokens] == l.results[..n] + (open + [tokens]);
    assert (l.results + [tokens])[..n] == l.results[..n];
  }

  lemma HostGrows(host: seq<Token>, l: Ledger, tokens: seq<Token>)
    requires Splits(host, [], l)
    ensures Splits(host + tokens, [], l.With(tokens))
  {
    assert l.results[..|l.results|] == l.results;
    if tokens == [] {
      assert host + tokens == host;
    } else {
      FlattenAppend(l.results, [tokens]);
      FlattenOne(tokens);
      Regroup(l.settled, Flatten(l.results), tokens);
      assert (l.results + [tokens])[..|l.results| + 1] == l.results + [tokens];
    }
  }

  /** A frame that joins the queues. */
  lemma QueuedTracks(s: State, after: State, frame: Frame, r: ReqId, l: Ledger)
    requires s.queue.resolved <= |s.queue.pending| && after.queue.resolved <= |after.queue.pending|
    requires after.queue.Unapplied() == s.queue.Unapplied() + [frame] && after.host.history == s.host.history && Tracks(s, r, l)
    ensures Tracks(after, r, l.With(TokensOf(frame, r)))
  {
    ResultsAppend(s.queue.Unapplied(), frame, r);
    OpenGrows(GetOr(s.host.history, r, []), Results(s.queue.Unapplied(), r), l, TokensOf(frame, r));
    var open := Results(s.queue.Unapplied(), r);
    assert open + [] == open;
  }

  /** A frame that is applied at once. */
  lemma AppliedNowTracks(s: State, after: State, frame: Frame, r: ReqId, l: Ledger)
    requires s.queue.resolved <= |s.queue.pending| && s.queue.Unapplied() == [] && after.queue == s.queue && r in s.host.history
    requires after.host.history == LateResults.ApplyFrame(s.host.history, frame, {}) && Tracks(s, r, l)
    ensures Tracks(after, r, l.With(TokensOf(frame, r)))
  {
    HostGrows(s.host.history[r], l, TokensOf(frame, r));
  }

  lemma RecordedTracks(engine: Engine, s: State, frame: Frame, steady: bool, overlapOk: bool, r: ReqId, l: Ledger)
    requires QueueOk(s.queue) && QueuesNothing(engine, s.queue) && r in s.host.history && Tracks(s, r, l)
    ensures var after := Recorded(engine, s, frame, steady, overlapOk);
            after.queue.resolved <= |after.queue.pending| && Tracks(after, r, l.With(TokensOf(frame, r)))
  {
    var after := Recorded(engine, s, frame, steady, overlapOk);
    if engine.launch.asyncScheduling {
      assert (s.queue.pending + [frame])[s.queue.resolved..] == s.queue.pending[s.queue.resolved..] + [frame];
      QueuedTracks(s, after, frame, r, l);
    } else {
      AppliedNowTracks(s, after, frame, r, l);
    }
  }

  lemma PrefilledTracks(engine: Engine, s: State, tokens: seq<seq<Token>>, left: Device, r: ReqId, l: Ledger)
    requires QueueOk(s.queue) && QueuesNothing(engine, s.queue) && s.queue.pending == [] && r in s.host.history && Tracks(s, r, l)
    ensures var after := Prefilled(engine, s, tokens, left);
            after.queue.resolved <= |after.queue.pending| && Tracks(after, r, l.With(TokensAt(s.rows, tokens, r)))
  {
    var after := Prefilled(engine, s, tokens, left);
    if engine.launch.asyncScheduling {
      QueuedTracks(s, after, Frame(s.rows, tokens, false), r, l);
    } else {
      AppliedNowTracks(s, after, Frame(s.rows, tokens, false), r, l);
    }
  }

  // ----- one step -----

  lemma DecodeKnown(engine: Engine, ready: State, e: Event, tokens: seq<seq<Token>>, answer: Answer, r: ReqId, l: Option<Ledger>)
    requires Base(engine, ready) && Known(ready, r, l) && Built(engine, ready, e).Ok?
    ensures var (host, input) := Built(engine, ready, e).value;
            var after := Submitted(engine, ready.(host := host), input, tokens, answer);
            && after.queue.resolved <= |after.queue.pending|
            && Known(after, r, match l case None => None
                               case Some(was) => Some(was.With(if answer.Unread? then [] else TokensAt(ready.rows, tokens, r))))
  {
    var (host, input) := Built(engine, ready, e).value;
    BuiltKeepsHistory(engine, ready, e);
    var accepted := Accepted(engine, ready.(host := host), input, tokens, answer);
    var steady := !input.rows.verify && CanUseSteady(engine, ready.chain, input);
    assert accepted.queue == ready.queue && accepted.host.history == ready.host.history;
    if l.Some? && !answer.Unread? {
      RecordedTracks(engine, accepted, Frame(ready.rows, tokens, input.rows.verify), steady, steady && !answer.HostAnswered?, r, l.value);
    }
  }

  lemma PrefillKnown(engine: Engine, ready: State, tokens: seq<seq<Token>>, left: Device, r: ReqId, l: Option<Ledger>)
    requires Base(engine, ready) && ready.queue.pending == [] && Known(ready, r, l)
    ensures var after := Prefilled(engine, ready, tokens, left);
            && after.queue.resolved <= |after.queue.pending|
            && Known(after, r, match l case None => None case Some(was) => Some(was.With(TokensAt(ready.rows, tokens, r))))
  {
    if l.Some? { PrefilledTracks(engine, ready, tokens, left, r, l.value); }
  }

  /** One step of the asynchronous runner is one step of the waiting one, for every request: whatever is
      overlapped, applied late, taken back by a reset or never read, no token is lost, doubled or reordered. */
  lemma NextKnown(engine: Engine, s: State, e: Event, r: ReqId, l: Option<Ledger>)
    requires Inv(engine, s) && Legal(engine, s, e) && Fits(engine, s, e) && Known(s, r, l)
    ensures var next := AsyncRuns.Next(engine, s, e);
            next.queue.resolved <= |next.queue.pending| && Known(next, r, Waited(l, e, r))
  {
    ReadyBase(engine, s, e);
    PreparedKnown(engine, s, e, r, l);
    if e.action.Prefill? { PrefillSeesEverything(engine, s, e); }
    NextFrom(engine, s, e, Prepared(engine, s, e), r, l);
  }

  lemma NextFrom(engine: Engine, s: State, e: Event, ready: State, r: ReqId, l: Option<Ledger>)
    requires s.queue.resolved <= |s.queue.pending| == |s.queue.overlapOk| && ready == Prepared(engine, s, e)
    requires Base(engine, ready) && ready.rows == e.rows && Known(ready, r, Announced(l, e, r))
    requires e.action.Prefill? ==> ready.queue.pending == []
    requires e.action.Decode? ==> Built(engine, ready, e).Ok?
    ensures var next := AsyncRuns.Next(engine, s, e);
            next.queue.resolved <= |next.queue.pending| && Known(next, r, Waited(l, e, r))
  {
    match e.action
    case Idle =>
    case Prefill(tokens, left) => PrefillKnown(engine, ready, tokens, left, r, Announced(l, e, r));
    case Decode(tokens, answer) => DecodeKnown(engine, ready, e, tokens, answer, r, Announced(l, e, r));
  }

  lemma {:induction false} RunKnown(engine: Engine, device: Device, events: seq<Event>, r: ReqId)
    requires Run(engine, device, events).Some?
    ensures var end := Run(engine, device, events).value;
            Inv(engine, end) && Known(end, r, WaitingRun(events, r))
  {
    RunKeeps(engine, device, events);
    if events != [] {
      var before := events[..|events| - 1];
      RunKeeps(engine, device, before);
      RunKnown(engine, device, before, r);
      NextKnown(engine, Run(engine, device, before).value, events[|events| - 1], r, WaitingRun(before, r));
    }
  }

  // ----- main results -----

  /** The step builds a decode. */
  ghost predicate Decodes(engine: Engine, s: State, e: Event) {
    && s.queue.resolved <= |s.queue.pending| == |s.queue.overlapOk|
    && Legal(engine, s, e) && !e.out.prefill
    && !Missing(Drained(AsyncRuns.Updated(Preflight(engine, s, e), e), e.early), e.out.discards)
    && Built(engine, Prepared(engine, s, e), e).Ok?
  }

  /** In every run, with any overlap depth and any mix of prefills, plain decodes, verifies, host answers,
      failed reads and forced resets: a decode reads for row `i` the last token, at its position, of the
      history the waiting runner holds, and the block tables of its own step. */
  lemma DeviceDecodesSynchronousHistory(engine: Engine, device: Device, events: seq<Event>, e: Event, i: nat)
    requires Run(engine, device, events).Some? && Decodes(engine, Run(engine, device, events).value, e) && i < |e.rows|
    ensures var consumed := Consumed(engine, Prepared(engine, Run(engine, device, events).value, e), e);
            var waiting := Announced(WaitingRun(events, e.rows[i]), e, e.rows[i]);
            && waiting.Some? && |consumed.tokens| == |consumed.positions| == |e.rows|
            && consumed.tokens[i] == LastToken(waiting.value.History()) && consumed.positions[i] == |waiting.value.History()| - 1
            && consumed.tables == TablesOf(e.tables, e.rows)
  {
    var s, r := Run(engine, device, events).value, e.rows[i];
    RunKnown(engine, device, events, r);
    DecodeConsumesCurrent(engine, s, e);
    PreparedKnown(engine, s, e, r, WaitingRun(events, r));
    assert r in Members(e.rows);
    TracksCurrent(Prepared(engine, s, e), r, Announced(WaitingRun(events, r), e, r).value);
  }

  /** In every run no submission ever overlaps an unread step unsafely, a reload finds every earlier
      result applied, and so does a verify. */
  lemma OverlapIsAlwaysSafe(engine: Engine, device: Device, events: seq<Event>)
    requires Run(engine, device, events).Some?
    ensures var end := Run(engine, device, events).value;
            && end.counters.unsafe == 0
            && forall e :: Decodes(engine, end, e) ==> ReloadsSafely(engine, end, e)
  {
    RunKeeps(engine, device, events);
    var end := Run(engine, device, events).value;
    forall e | Decodes(engine, end, e) ensures ReloadsSafely(engine, end, e) {
      ReloadSeesEverything(engine, end, e);
    }
  }

  ghost predicate ReloadsSafely(engine: Engine, s: State, e: Event)
    requires Decodes(engine, s, e)
  {
    var ready := Prepared(engine, s, e);
    var input := Built(engine, ready, e).value.1;
    && ready.queue.resolved <= |ready.queue.pending|
    && (Plan(engine, ready.chain, input).reloadInputs ==> ready.queue.Unapplied() == [])
    && (input.rows.verify ==> ready.queue.pending == [])
  }
}
