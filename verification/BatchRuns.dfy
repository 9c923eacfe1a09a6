/**
 Whole runs of the persistent batch. A scheduler output may resume a request in the step that reports
 its preemption: a forced prefix-cache reset preempts between two steps. Such a request still holds
 its row, and keeps its old blocks in front of the new ones.
 */
module BatchRuns {
  import opened Runtime
  import opened PersistentBatch
  import opened RequestStates
  import opened BatchHistory

  /** The host, and the requests that were resumed in place behind blocks since they last entered the batch. */
  datatype World = World(host: Host, behind: set<ReqId>)

  datatype Event =
    | Schedule(out: SchedulerOutput, created: seq<ListRef>)
    | Apply(rows: seq<ReqId>, blocks: seq<seq<Token>>, skip: set<ReqId>, width: nat)

  /** One list of block ids per KV cache group. */
  ghost predicate Grouped(groups: nat, out: SchedulerOutput) {
    && (forall n :: n in out.newReqs ==> |n.blocks| == groups)
    && (forall u :: u in out.cached && u.newBlocks.Some? ==> |u.newBlocks.value| == groups)
  }

  ghost predicate Admissible(shape: Shape, groups: nat, w: World, e: Event) {
    match e
    case Schedule(out, created) => Legal(shape, w.host, out) && NewLists(w.host, out, created) && Grouped(groups, out)
    case Apply(rows, blocks, skip, width) =>
      Distinct(rows) && Held(w.host, rows, skip) && RowlessFits(shape, w.host, rows, blocks, skip)
  }

  predicate AnyBlock(blocks: seq<seq<nat>>) {
    exists g :: 0 <= g < |blocks| && blocks[g] != []
  }

  /** A request that keeps its row is resumed with replacement blocks while the row still lists some. */
  predicate ResumedBehind(h: Host, out: SchedulerOutput, r: ReqId) {
    && r in Kept(h.views, out) && r in CachedIds(out.cached)
    && var u := UpdateFor(out.cached, r); u.resumed && u.newBlocks.Some? && AnyBlock(h.views[r].columns.blocks)
  }

  /** A refused frame raises before it writes anything: nothing follows from it. */
  ghost function Next(shape: Shape, groups: nat, w: World, e: Event): World
    requires Admissible(shape, groups, w, e)
  {
    match e
    case Schedule(out, created) =>
      World(Stepped(shape, w.host, out, created),
            set r | r in Kept(w.host.views, out) && (r in w.behind || ResumedBehind(w.host, out, r)))
    case Apply(rows, blocks, skip, width) =>
      match ApplyFrame(shape, w.host, rows, blocks, skip, width)
      case Some(host) => w.(host := host)
      case None => w
  }

  const EMPTY := World(Host(map[], map[], map[]), {})

  /** None once an event was not admissible. */
  ghost function Run(shape: Shape, groups: nat, events: seq<Event>): Option<World> {
    if events == [] then Some(EMPTY)
    else
      var e := events[|events| - 1];
      match Run(shape, groups, events[..|events| - 1])
      case None => None
      case Some(w) => if Admissible(shape, groups, w, e) then Some(Next(shape, groups, w, e)) else None
  }

  // ----- block tables -----

  /** A row's table ends with its request's own blocks, group by group, and is longer exactly when `behind`. */
  ghost predicate TableOk(groups: nat, row: seq<seq<nat>>, own: seq<seq<nat>>, behind: bool) {
    && |row| == |own| == groups
    && (forall g :: 0 <= g < groups ==> EndsWith(row[g], own[g]))
    && (behind <==> exists g :: 0 <= g < groups && |row[g]| > |own[g]|)
  }

  predicate EndsWith(row: seq<nat>, own: seq<nat>) {
    |own| <= |row| && row[|row| - |own|..] == own
  }

  /** The table is the request's own exactly when it is not behind. */
  lemma TableExactly(groups: nat, row: seq<seq<nat>>, own: seq<seq<nat>>, behind: bool)
    requires TableOk(groups, row, own, behind)
    ensures row == own <==> !behind
  {
    if !behind {
      forall g | 0 <= g < groups ensures row[g] == own[g] {
        assert EndsWith(row[g], own[g]);
      }
    }
  }

  lemma TableOwn(groups: nat, own: seq<seq<nat>>)
    requires |own| == groups
    ensures TableOk(groups, own, own, false)
  {
    assert forall g :: 0 <= g < groups ==> EndsWith(own[g], own[g]);
  }

  /** Both sides append the same blocks. */
  lemma TableExtended(groups: nat, row: seq<seq<nat>>, own: seq<seq<nat>>, behind: bool, more: seq<seq<nat>>)
    requires TableOk(groups, row, own, behind) && |more| == groups
    ensures TableOk(groups, AppendBlocks(row, more), AppendBlocks(own, more), behind)
  {
    var longer, theirs := AppendBlocks(row, more), AppendBlocks(own, more);
    forall g | 0 <= g < groups ensures EndsWith(longer[g], theirs[g]) && |longer[g]| - |theirs[g]| == |row[g]| - |own[g]| {
      assert EndsWith(row[g], own[g]);
      assert longer[g] == row[g] + more[g] && theirs[g] == own[g] + more[g];
      assert row[g] == row[g][..|row[g]| - |own[g]|] + own[g];
    }
    if behind {
      var g :| 0 <= g < groups && |row[g]| > |own[g]|;
      assert |longer[g]| > |theirs[g]|;
    }
  }

  /** The request replaces its blocks, the row appends the replacement. */
  lemma TableReplaced(groups: nat, row: seq<seq<nat>>, own: seq<seq<nat>>, behind: bool, more: seq<seq<nat>>)
    requires TableOk(groups, row, own, behind) && |more| == groups
    ensures TableOk(groups, AppendBlocks(row, more), more, behind || AnyBlock(row))
  {
    var longer := AppendBlocks(row, more);
    forall g | 0 <= g < groups ensures EndsWith(longer[g], more[g]) && |longer[g]| - |more[g]| == |row[g]| {
      assert longer[g] == row[g] + more[g];
    }
    if behind {
      var g :| 0 <= g < groups && |row[g]| > |own[g]|;
      assert row[g] != [];
    }
    if AnyBlock(row) {
      var g :| 0 <= g < |row| && row[g] != [];
      assert |longer[g]| > |more[g]|;
    }
  }

  // ----- the invariant -----

  ghost predicate Tables(groups: nat, w: World) {
    && (forall r :: r in w.host.requests ==> |w.host.requests[r].blocks| == groups)
    && (forall r :: r in w.host.views ==> r in w.host.requests && RowTable(groups, w, r))
    && w.behind <= w.host.views.Keys
  }

  ghost predicate RowTable(groups: nat, w: World, r: ReqId)
    requires r in w.host.views && r in w.host.requests
  {
    TableOk(groups, w.host.views[r].columns.blocks, w.host.requests[r].blocks, r in w.behind)
  }

  ghost predicate Inv(shape: Shape, groups: nat, w: World) {
    HostOk(shape, w.host) && Matching(shape, w.host) && Tables(groups, w)
  }

  lemma SteppedGroups(shape: Shape, groups: nat, h: Host, out: SchedulerOutput, created: seq<ListRef>, r: ReqId)
    requires Legal(shape, h, out) && NewLists(h, out, created) && Grouped(groups, out)
    requires forall q :: q in h.requests ==> |h.requests[q].blocks| == groups
    requires r in SteppedRequests(h, out, created)
    ensures |SteppedRequests(h, out, created)[r].blocks| == groups
  {
    SteppedRequest(shape, h, out, created, r);
    if r in IdSet(NewIds(out.newReqs)) {
      var i: nat :| i < |out.newReqs| && NewIds(out.newReqs)[i] == r;
      assert out.newReqs[i] in out.newReqs;
    }
  }

  lemma ScheduleTable(shape: Shape, groups: nat, w: World, out: SchedulerOutput, created: seq<ListRef>, r: ReqId)
    requires Inv(shape, groups, w) && Admissible(shape, groups, w, Schedule(out, created)) && r in out.scheduled
    ensures var after := Next(shape, groups, w, Schedule(out, created));
            Matches(shape, after.host, r) && RowTable(groups, after, r)
  {
    var after := Next(shape, groups, w, Schedule(out, created));
    SteppedMatches(shape, w.host, out, created, r);
    SteppedGroups(shape, groups, w.host, out, created, r);
    if r in Entering(w.host.views, out) {
      NotBehind(shape, w, out, r);
      TableOwn(groups, after.host.requests[r].blocks);
    } else {
      var u := UpdateFor(out.cached, r);
      assert u in out.cached && RowTable(groups, w, r);
      var row, own := w.host.views[r].columns.blocks, w.host.requests[r].blocks;
      if u.newBlocks.Some? {
        if u.resumed {
          TableReplaced(groups, row, own, r in w.behind, u.newBlocks.value);
        } else {
          TableExtended(groups, row, own, r in w.behind, u.newBlocks.value);
        }
      }
    }
  }

  lemma NotBehind(shape: Shape, w: World, out: SchedulerOutput, r: ReqId)
    requires Legal(shape, w.host, out) && r in Entering(w.host.views, out)
    ensures r !in Kept(w.host.views, out)
  {
    forall i | 0 <= i < |out.newReqs| ensures out.newReqs[i].id !in Kept(w.host.views, out) {
      assert out.newReqs[i] in out.newReqs;
    }
  }

  lemma ScheduleKeeps(shape: Shape, groups: nat, w: World, out: SchedulerOutput, created: seq<ListRef>)
    requires Inv(shape, groups, w) && Admissible(shape, groups, w, Schedule(out, created))
    ensures Inv(shape, groups, Next(shape, groups, w, Schedule(out, created)))
  {
    var after := Next(shape, groups, w, Schedule(out, created));
    SteppedKeys(shape, w.host, out, created);
    forall r | r in after.host.views ensures Matches(shape, after.host, r) && RowTable(groups, after, r) {
      ScheduleTable(shape, groups, w, out, created, r);
    }
    forall r | r in after.host.requests ensures |after.host.requests[r].blocks| == groups {
      SteppedGroups(shape, groups, w.host, out, created, r);
    }
  }

  lemma ApplyKeeps(shape: Shape, groups: nat, w: World, e: Event)
    requires Inv(shape, groups, w) && e.Apply? && Admissible(shape, groups, w, e)
    ensures Inv(shape, groups, Next(shape, groups, w, e))
  {
    ExtendAllKeeps(shape, w.host, e.rows, e.blocks, e.skip);
    var after := Next(shape, groups, w, e);
    forall r | r in after.host.views ensures r in after.host.requests && RowTable(groups, after, r) {
      assert RowTable(groups, w, r);
    }
  }

  lemma {:induction false} RunKeeps(shape: Shape, groups: nat, events: seq<Event>)
    requires Run(shape, groups, events).Some?
    ensures Inv(shape, groups, Run(shape, groups, events).value)
  {
    if events != [] {
      var e, before := events[|events| - 1], events[..|events| - 1];
      RunKeeps(shape, groups, before);
      match e
      case Schedule(out, created) => ScheduleKeeps(shape, groups, Run(shape, groups, before).value, out, created);
      case Apply(_, _, _, _) => ApplyKeeps(shape, groups, Run(shape, groups, before).value, e);
    }
  }

  // ----- main results -----

  /** In every run each row is what a rebuild from its request's state would hold, in every column, control,
      generator, mask and set, and its tokens are prompt and output list. Its block table is the
      rebuild's if and only if the request was not resumed in place behind blocks since it entered. */
  lemma BatchIsAlwaysARebuild(shape: Shape, groups: nat, events: seq<Event>, r: ReqId)
    requires Run(shape, groups, events).Some? && r in Run(shape, groups, events).value.host.views
    ensures var w := Run(shape, groups, events).value;
            && Matches(shape, w.host, r)
            && w.host.views[r].output == Some(w.host.requests[r].output)
            && w.host.views[r].columns.tokens == w.host.requests[r].prompt + w.host.lists[w.host.requests[r].output]
            && (w.host.views[r].columns.blocks == w.host.requests[r].blocks <==> r !in w.behind)
            && (w.host.views[r] == Rebuilt(shape, w.host, r) <==> r !in w.behind)
  {
    RunKeeps(shape, groups, events);
    var w := Run(shape, groups, events).value;
    assert Matches(shape, w.host, r) && RowTable(groups, w, r);
    TableExactly(groups, w.host.views[r].columns.blocks, w.host.requests[r].blocks, r in w.behind);
    MatchIsRebuild(shape, w.host, r);
  }

  /** A request that is never resumed in place has its own block table in every run: so it is while
      preemption and resume are two outputs, as between two steps of the scheduler's own preemption. */
  lemma {:induction false} BehindByResumeOnly(shape: Shape, groups: nat, events: seq<Event>, r: ReqId)
    requires Run(shape, groups, events).Some? && r in Run(shape, groups, events).value.behind
    ensures exists n :: 0 <= n < |events| && ResumesAt(shape, groups, events, n, r)
  {
    var n := |events| - 1;
    var before := events[..n];
    if r in Run(shape, groups, before).value.behind {
      BehindByResumeOnly(shape, groups, before, r);
      var m :| 0 <= m < n && ResumesAt(shape, groups, before, m, r);
      assert before[..m] == events[..m];
      assert ResumesAt(shape, groups, events, m, r);
    } else {
      assert ResumesAt(shape, groups, events, n, r);
    }
  }

  /** Event `n` resumes `r` in place behind blocks. */
  ghost predicate ResumesAt(shape: Shape, groups: nat, events: seq<Event>, n: nat, r: ReqId) {
    && n < |events| && events[n].Schedule? && Run(shape, groups, events[..n]).Some?
    && ResumedBehind(Run(shape, groups, events[..n]).value.host, events[n].out, r)
  }

  /** A request is added with a prompt and a block; a forced reset preempts it; the next output resumes it
      with another block. The row lists both, the request one. */
  lemma ResumeInPlaceDiffers(shape: Shape, params: Params)
    requires shape.maxReqs >= 1 && shape.maxModelLen >= 1
    ensures var r := ReqId("a");
            var add := Schedule(SchedulerOutput([], [NewRequest(r, [7], 0, [[1]], params, None)], [], {r}), [ListRef(0)]);
            var resume := Schedule(SchedulerOutput([], [], [CachedUpdate(r, 0, Some([[2]]), true)], {r}), []);
            && Run(shape, 1, [add, resume]).Some?
            && var h := Run(shape, 1, [add, resume]).value.host;
               && r in h.views && r in h.requests && h.requests[r].output in h.lists
               && h.requests[r].blocks == [[2]] && h.views[r].columns.blocks == [[1, 2]] && h.views[r] != Rebuilt(shape, h, r)
  {
    var r := ReqId("a");
    var n, u := NewRequest(r, [7], 0, [[1]], params, None), CachedUpdate(r, 0, Some([[2]]), true);
    var add := Schedule(SchedulerOutput([], [n], [], {r}), [ListRef(0)]);
    var resume := Schedule(SchedulerOutput([], [], [u], {r}), []);
    var first := Added(shape, params, r, n, add);
    Resumed(shape, first, r, u, resume);
    RunOfTwo(shape, 1, add, resume, first);
    BatchIsAlwaysARebuild(shape, 1, [add, resume], r);
  }

  lemma RunOfTwo(shape: Shape, groups: nat, a: Event, b: Event, first: World)
    requires Admissible(shape, groups, EMPTY, a) && first == Next(shape, groups, EMPTY, a) && Admissible(shape, groups, first, b)
    ensures Run(shape, groups, [a, b]) == Some(Next(shape, groups, first, b))
  {
    RunLast(shape, groups, [], EMPTY, a);
    RunLast(shape, groups, [a], first, b);
    assert [] + [a] == [a] && [a] + [b] == [a, b];
  }

  lemma RunLast(shape: Shape, groups: nat, before: seq<Event>, w: World, e: Event)
    requires Run(shape, groups, before) == Some(w) && Admissible(shape, groups, w, e)
    ensures Run(shape, groups, before + [e]) == Some(Next(shape, groups, w, e))
  {
    assert (before + [e])[..|before|] == before;
  }

  lemma Added(shape: Shape, params: Params, r: ReqId, n: NewRequest, add: Event) returns (first: World)
    requires shape.maxReqs >= 1 && shape.maxModelLen >= 1 && n == NewRequest(r, [7], 0, [[1]], params, None)
    requires add == Schedule(SchedulerOutput([], [n], [], {r}), [ListRef(0)])
    ensures Admissible(shape, 1, EMPTY, add) && first == Next(shape, 1, EMPTY, add) && Inv(shape, 1, first)
    ensures r in first.host.views && r in first.host.requests && first.host.views[r].columns.blocks == [[1]]
  {
    assert NewIds([n]) == [r] && CachedIds([]) == [] && IdSet([r]) == {r} && IdSet([]) == {};
    first := Next(shape, 1, EMPTY, add);
    ScheduleKeeps(shape, 1, EMPTY, add.out, add.created);
    EnteringRow(shape, EMPTY.host, add.out, add.created, r);
    SteppedRequest(shape, EMPTY.host, add.out, add.created, r);
  }

  lemma Resumed(shape: Shape, first: World, r: ReqId, u: CachedUpdate, resume: Event)
    requires shape.maxReqs >= 1 && Inv(shape, 1, first) && r in first.host.views && r in first.host.requests
    requires first.host.views[r].columns.blocks == [[1]] && u == CachedUpdate(r, 0, Some([[2]]), true)
    requires resume == Schedule(SchedulerOutput([], [], [u], {r}), [])
    ensures Admissible(shape, 1, first, resume)
    ensures var h := Next(shape, 1, first, resume).host;
            && r in h.views && r in h.requests && h.requests[r].blocks == [[2]] && h.views[r].columns.blocks == [[1, 2]]
    ensures r in Next(shape, 1, first, resume).behind
  {
    ResumeIsLegal(shape, first, r, u, resume.out);
    assert Admissible(shape, 1, first, resume);
    ResumedTable(shape, first.host, r, u, resume.out);
  }

  lemma ResumeIsLegal(shape: Shape, first: World, r: ReqId, u: CachedUpdate, out: SchedulerOutput)
    requires shape.maxReqs >= 1 && r in first.host.requests && u == CachedUpdate(r, 0, Some([[2]]), true)
    requires out == SchedulerOutput([], [], [u], {r})
    ensures Legal(shape, first.host, out) && NewLists(first.host, out, []) && Grouped(1, out)
    ensures CachedIds(out.cached) == [r] && UpdateFor(out.cached, r) == u && IdSet(NewIds(out.newReqs)) == {} && IdSet(out.finished) == {}
  {
    assert CachedIds([u]) == [r] && NewIds([]) == [];
    assert IdSet([r]) == {r};
  }

  lemma ResumedTable(shape: Shape, h: Host, r: ReqId, u: CachedUpdate, out: SchedulerOutput)
    requires HostOk(shape, h) && Matching(shape, h) && Legal(shape, h, out) && NewLists(h, out, [])
    requires out == SchedulerOutput([], [], [u], {r}) && u == CachedUpdate(r, 0, Some([[2]]), true)
    requires CachedIds(out.cached) == [r] && UpdateFor(out.cached, r) == u && IdSet(NewIds(out.newReqs)) == {} && IdSet(out.finished) == {}
    requires r in h.views && h.views[r].columns.blocks == [[1]]
    ensures var after := Stepped(shape, h, out, []);
            r in after.views && r in after.requests && after.requests[r].blocks == [[2]] && after.views[r].columns.blocks == [[1, 2]]
    ensures ResumedBehind(h, out, r)
  {
    assert r in IdSet([r]) && r !in Entering(h.views, out);
    SteppedMatches(shape, h, out, [], r);
    OneBehindOther();
  }

  lemma OneBehindOther()
    ensures AppendBlocks([[1]], [[2]]) == [[1, 2]] && AnyBlock([[1]])
  {
    var one: seq<seq<nat>>, two: seq<seq<nat>> := [[1]], [[2]];
    assert one[0] == [1] && two[0] == [2];
    var both: seq<seq<nat>> := [[1, 2]];
    assert AppendBlocks(one, two)[0] == one[0] + two[0] == both[0];
    assert AppendBlocks(one, two) == both;
    assert AnyBlock(one);
  }
}
