/**
 The request states `_update_states` works on, and the batch as seen from them: what one scheduler
 output makes of every request's row, and when that is what a rebuild would give.
 */
module RequestStates {
  import opened Runtime
  import opened PersistentBatch

  datatype NewRequest = NewRequest(id: ReqId, prompt: seq<Token>, numComputed: nat, blocks: seq<seq<nat>>, params: Params,
                                   generator: Option<Generator>)

  /** One entry of `scheduled_cached_reqs`. */
  datatype CachedUpdate = CachedUpdate(id: ReqId, numComputed: nat, newBlocks: Option<seq<seq<nat>>>, resumed: bool)

  datatype SchedulerOutput = SchedulerOutput(finished: seq<ReqId>, newReqs: seq<NewRequest>, cached: seq<CachedUpdate>,
                                             scheduled: set<ReqId>)

  /** `apply_cached_req_state_update`: a resume replaces the block ids, anything else extends them. */
  function Updated(request: Request, u: CachedUpdate): Request {
    request.(numComputed := u.numComputed,
             blocks := if u.newBlocks.None? then request.blocks
                       else if u.resumed then u.newBlocks.value else AppendBlocks(request.blocks, u.newBlocks.value))
  }

  function NewIds(newReqs: seq<NewRequest>): (ids: seq<ReqId>)
    ensures |ids| == |newReqs| && forall i :: 0 <= i < |ids| ==> ids[i] == newReqs[i].id
  {
    seq(|newReqs|, i requires 0 <= i < |newReqs| => newReqs[i].id)
  }

  function CachedIds(cached: seq<CachedUpdate>): (ids: seq<ReqId>)
    ensures |ids| == |cached| && forall i :: 0 <= i < |ids| ==> ids[i] == cached[i].id
  {
    seq(|cached|, i requires 0 <= i < |cached| => cached[i].id)
  }

  function IdSet(ids: seq<ReqId>): set<ReqId> {
    set r | r in ids
  }

  /** The update of a scheduled cached request. */
  function UpdateFor(cached: seq<CachedUpdate>, r: ReqId): (u: CachedUpdate)
    requires r in CachedIds(cached)
    ensures u in cached && u.id == r
  {
    if cached[0].id == r then cached[0] else UpdateFor(cached[1..], r)
  }

  /** The rebuild of each listed request. */
  function FreshViews(requests: map<ReqId, Request>, lists: OutputLists, ids: set<ReqId>, vocab: nat, disableLogprobs: bool)
    : map<ReqId, RowView>
  {
    map r | r in ids && r in requests && requests[r].output in lists ::
      FreshView(requests[r], lists[requests[r].output], vocab, disableLogprobs)
  }

  predicate Placeable(requests: map<ReqId, Request>, lists: OutputLists, maxModelLen: nat, r: ReqId) {
    r in requests && requests[r].output in lists
    && |requests[r].prompt| + |lists[requests[r].output]| <= maxModelLen
  }

  // ----- what the update loops compute -----

  function AdmitAll(requests: map<ReqId, Request>, newReqs: seq<NewRequest>, lists: seq<ListRef>): map<ReqId, Request>
    requires |newReqs| == |lists|
  {
    if newReqs == [] then requests
    else
      var k := |newReqs| - 1;
      var n := newReqs[k];
      AdmitAll(requests, newReqs[..k], lists[..k])
        [n.id := Newborn(n, lists[k])]
  }

  function UpdateInto(requests: map<ReqId, Request>, u: CachedUpdate): map<ReqId, Request> {
    if u.id in requests then requests[u.id := Updated(requests[u.id], u)] else requests
  }

  function AdvanceInto(views: map<ReqId, RowView>, u: CachedUpdate): map<ReqId, RowView> {
    if u.id in views then views[u.id := AdvancedView(views[u.id], u.numComputed, u.newBlocks)] else views
  }

  function UpdateAll(requests: map<ReqId, Request>, cached: seq<CachedUpdate>): map<ReqId, Request> {
    if cached == [] then requests
    else var k := |cached| - 1; UpdateInto(UpdateAll(requests, cached[..k]), cached[k])
  }

  function AdvanceAll(views: map<ReqId, RowView>, cached: seq<CachedUpdate>): map<ReqId, RowView> {
    if cached == [] then views
    else var k := |cached| - 1; AdvanceInto(AdvanceAll(views, cached[..k]), cached[k])
  }

  function Unheld(ids: seq<ReqId>, held: set<ReqId>): seq<ReqId> {
    if ids == [] then []
    else var k := |ids| - 1; Unheld(ids[..k], held) + if ids[k] in held then [] else [ids[k]]
  }

  function Newborn(n: NewRequest, output: ListRef): Request {
    Request(n.prompt, output, n.numComputed, n.blocks, n.params, n.generator)
  }

  lemma NewIdsLast(newReqs: seq<NewRequest>)
    requires newReqs != []
    ensures var k := |newReqs| - 1;
            && NewIds(newReqs[..k]) == NewIds(newReqs)[..k] && IdSet(NewIds(newReqs)) == IdSet(NewIds(newReqs)[..k]) + {newReqs[k].id}
            && (Distinct(NewIds(newReqs)) ==> forall i :: 0 <= i < k ==> newReqs[..k][i] == newReqs[i] && newReqs[i].id != newReqs[k].id)
  {
    var k, ids := |newReqs| - 1, NewIds(newReqs);
    assert ids == ids[..k] + [ids[k]];
    assert forall i :: 0 <= i < k ==> ids[i] == newReqs[i].id;
  }

  lemma {:induction false} AdmitAllAt(requests: map<ReqId, Request>, newReqs: seq<NewRequest>, lists: seq<ListRef>)
    requires |newReqs| == |lists| && Distinct(NewIds(newReqs))
    ensures var after := AdmitAll(requests, newReqs, lists);
            && after.Keys == requests.Keys + IdSet(NewIds(newReqs))
            && (forall r :: r in requests && r !in IdSet(NewIds(newReqs)) ==> after[r] == requests[r])
            && (forall i :: 0 <= i < |newReqs| ==> newReqs[i].id in after && after[newReqs[i].id] == Newborn(newReqs[i], lists[i]))
  {
    if newReqs != [] {
      var k := |newReqs| - 1;
      NewIdsLast(newReqs);
      AdmitAllAt(requests, newReqs[..k], lists[..k]);
    }
  }

  /** With one entry per request, the loops apply exactly that request's own update. */
  lemma {:induction false} UpdateAllAt(requests: map<ReqId, Request>, views: map<ReqId, RowView>, cached: seq<CachedUpdate>, r: ReqId)
    requires Distinct(CachedIds(cached))
    ensures UpdateAll(requests, cached).Keys == requests.Keys && AdvanceAll(views, cached).Keys == views.Keys
    ensures r in requests && r !in CachedIds(cached) ==> UpdateAll(requests, cached)[r] == requests[r]
    ensures r in views && r !in CachedIds(cached) ==> AdvanceAll(views, cached)[r] == views[r]
    ensures r in CachedIds(cached) ==>
              var u := UpdateFor(cached, r);
              && (r in requests ==> UpdateAll(requests, cached)[r] == Updated(requests[r], u))
              && (r in views ==> AdvanceAll(views, cached)[r] == AdvancedView(views[r], u.numComputed, u.newBlocks))
  {
    if cached != [] {
      var k := |cached| - 1;
      var ids := CachedIds(cached);
      assert CachedIds(cached[..k]) == ids[..k] && ids == ids[..k] + [ids[k]];
      UpdateAllAt(requests, views, cached[..k], r);
      UpdateForPrefix(cached, r);
    }
  }

  /** The last entry is found for its own id, and does not hide the earlier ones. */
  lemma {:induction false} UpdateForPrefix(cached: seq<CachedUpdate>, r: ReqId)
    requires cached != [] && Distinct(CachedIds(cached))
    ensures var k := |cached| - 1;
            && (r == cached[k].id ==> r in CachedIds(cached) && r !in CachedIds(cached[..k]) && UpdateFor(cached, r) == cached[k])
            && (r in CachedIds(cached[..k]) ==> r in CachedIds(cached) && UpdateFor(cached, r) == UpdateFor(cached[..k], r))
  {
    var k := |cached| - 1;
    CachedIdsSplit(cached);
    if k > 0 {
      assert cached[1..][..k - 1] == cached[..k][1..];
      CachedIdsSplit(cached[..k]);
      UpdateForPrefix(cached[1..], r);
    }
  }

  lemma CachedIdsSplit(cached: seq<CachedUpdate>)
    requires cached != []
    ensures var k, ids := |cached| - 1, CachedIds(cached);
            && CachedIds(cached[..k]) == ids[..k] && ids == ids[..k] + [cached[k].id]
            && CachedIds(cached[1..]) == ids[1..] && ids == [cached[0].id] + ids[1..]
            && (Distinct(ids) ==> Distinct(ids[1..]) && cached[k].id !in ids[..k])
  {
    var k, ids := |cached| - 1, CachedIds(cached);
    var rest := ids[1..];
    assert forall i :: 0 <= i < |rest| ==> rest[i] == ids[i + 1];
  }

  lemma {:induction false} UnheldIds(ids: seq<ReqId>, held: set<ReqId>)
    requires Distinct(ids)
    ensures Distinct(Unheld(ids, held)) && IdSet(Unheld(ids, held)) == IdSet(ids) - held
  {
    if ids != [] {
      var k := |ids| - 1;
      UnheldIds(ids[..k], held);
      assert ids == ids[..k] + [ids[k]];
      assert IdSet(ids) == IdSet(ids[..k]) + {ids[k]};
      var before := Unheld(ids[..k], held);
      assert ids[k] !in IdSet(before);
      assert IdSet(before + [ids[k]]) == IdSet(before) + {ids[k]};
    }
  }

  // ----- one scheduler output -----

  /** The runner's request states, their output lists and what the batch holds. */
  datatype Host = Host(requests: map<ReqId, Request>, lists: OutputLists, views: map<ReqId, RowView>)

  /** Widths the batch was built with. */
  datatype Shape = Shape(maxReqs: nat, maxModelLen: nat, vocab: nat, disableLogprobs: bool)

  function EmptyLists(created: seq<ListRef>): OutputLists {
    map l | l in created :: []
  }

  /** Rows left after the finished and the unscheduled requests gave theirs back. */
  function Kept(views: map<ReqId, RowView>, out: SchedulerOutput): map<ReqId, RowView> {
    map r | r in views && r !in IdSet(out.finished) && r in out.scheduled :: views[r]
  }

  /** Requests that get a row this step. */
  function Entering(views: map<ReqId, RowView>, out: SchedulerOutput): set<ReqId> {
    IdSet(NewIds(out.newReqs)) + (IdSet(CachedIds(out.cached)) - Kept(views, out).Keys)
  }

  function SteppedRequests(h: Host, out: SchedulerOutput, created: seq<ListRef>): map<ReqId, Request>
    requires |created| == |out.newReqs|
  {
    UpdateAll(AdmitAll(h.requests - IdSet(out.finished), out.newReqs, created), out.cached)
  }

  /** `_update_states` as a function: kept rows are advanced in place, entering rows are rebuilt. */
  function Stepped(shape: Shape, h: Host, out: SchedulerOutput, created: seq<ListRef>): Host
    requires |created| == |out.newReqs|
  {
    var requests := SteppedRequests(h, out, created);
    var lists := h.lists + EmptyLists(created);
    var entering := FreshViews(requests, lists, Entering(h.views, out), shape.vocab, shape.disableLogprobs);
    Host(requests, lists, AdvanceAll(Kept(h.views, out), out.cached) + entering)
  }

  /** The lists created for the new requests: one each, held by nobody. */
  ghost predicate NewLists(h: Host, out: SchedulerOutput, created: seq<ListRef>) {
    |created| == |out.newReqs| && Distinct(created) && forall l :: l in created ==> l !in h.lists
  }

  /** What the scheduler guarantees about an output. A finished id may come back as a new request. */
  ghost predicate Legal(shape: Shape, h: Host, out: SchedulerOutput) {
    && Distinct(NewIds(out.newReqs) + CachedIds(out.cached))
    && out.scheduled == IdSet(NewIds(out.newReqs)) + IdSet(CachedIds(out.cached))
    && |out.newReqs| + |out.cached| <= shape.maxReqs
    && (forall n :: n in out.newReqs ==> |n.prompt| <= shape.maxModelLen && (n.id in h.views ==> n.id in out.finished))
    && (forall r :: r in CachedIds(out.cached) ==> r in h.requests && r !in out.finished)
  }

  /** Every request has its own output list and fits a row; whoever holds a row is a request. */
  ghost predicate HostOk(shape: Shape, h: Host) {
    && (forall r :: r in h.requests ==> Placeable(h.requests, h.lists, shape.maxModelLen, r))
    && (forall r, q :: r in h.requests && q in h.requests && h.requests[r].output == h.requests[q].output ==> r == q)
    && h.views.Keys <= h.requests.Keys
  }

  function Rebuilt(shape: Shape, h: Host, r: ReqId): RowView
    requires r in h.requests && h.requests[r].output in h.lists
  {
    FreshView(h.requests[r], h.lists[h.requests[r].output], shape.vocab, shape.disableLogprobs)
  }

  /** The persistent batch is what a fresh batch built from the request states would hold. */
  ghost predicate Synced(shape: Shape, h: Host) {
    forall r :: r in h.views ==> r in h.requests && h.requests[r].output in h.lists && h.views[r] == Rebuilt(shape, h, r)
  }

  /** A row with another block table. */
  function Reblocked(view: RowView, blocks: seq<seq<nat>>): RowView {
    view.(columns := view.columns.(blocks := blocks))
  }

  /** Everything but the block table of a request's row is its rebuild. */
  ghost predicate Matches(shape: Shape, h: Host, r: ReqId) {
    && r in h.views && r in h.requests && h.requests[r].output in h.lists
    && h.views[r] == Reblocked(Rebuilt(shape, h, r), h.views[r].columns.blocks)
  }

  ghost predicate Matching(shape: Shape, h: Host) {
    forall r :: r in h.views ==> Matches(shape, h, r)
  }

  lemma MatchIsRebuild(shape: Shape, h: Host, r: ReqId)
    requires Matches(shape, h, r)
    ensures h.views[r] == Rebuilt(shape, h, r) <==> h.views[r].columns.blocks == h.requests[r].blocks
  {
  }

  /** A resumed request that still holds its row gets its replacement blocks appended behind the old
      ones, where its request state drops the old ones. */
  predicate AppendsStale(h: Host, out: SchedulerOutput, u: CachedUpdate) {
    && u.resumed && u.newBlocks.Some? && u.id in Kept(h.views, out) && u.id in h.requests
    && AppendBlocks(h.requests[u.id].blocks, u.newBlocks.value) != u.newBlocks.value
  }

  /** Appending equals replacing only behind empty groups. */
  lemma AppendIsReplace(blocks: seq<seq<nat>>, more: seq<seq<nat>>)
    ensures AppendBlocks(blocks, more) == more <==> |blocks| == |more| && forall g :: 0 <= g < |blocks| ==> blocks[g] == []
  {
    if |blocks| == |more| {
      assert forall g :: 0 <= g < |blocks| ==> AppendBlocks(blocks, more)[g] == blocks[g] + more[g];
      assert forall g :: 0 <= g < |blocks| ==> (blocks[g] + more[g] == more[g] <==> blocks[g] == []);
    }
  }

  lemma LegalIds(shape: Shape, h: Host, out: SchedulerOutput)
    requires Legal(shape, h, out)
    ensures Distinct(NewIds(out.newReqs)) && Distinct(CachedIds(out.cached))
    ensures IdSet(NewIds(out.newReqs)) !! IdSet(CachedIds(out.cached))
  {
    var a, b := NewIds(out.newReqs), CachedIds(out.cached);
    forall i, j | 0 <= i < |a| && 0 <= j < |b| ensures a[i] != b[j] {
      assert (a + b)[i] == a[i] && (a + b)[|a| + j] == b[j];
    }
    assert forall i :: 0 <= i < |a| ==> (a + b)[i] == a[i];
    assert forall i :: 0 <= i < |b| ==> (a + b)[|a| + i] == b[i];
  }

  /** The request state a step leaves behind. */
  lemma SteppedRequest(shape: Shape, h: Host, out: SchedulerOutput, created: seq<ListRef>, r: ReqId)
    requires Legal(shape, h, out) && NewLists(h, out, created)
    ensures var after := SteppedRequests(h, out, created);
            && after.Keys == h.requests.Keys - IdSet(out.finished) + IdSet(NewIds(out.newReqs))
            && (r in CachedIds(out.cached) ==> r in h.requests && after[r] == Updated(h.requests[r], UpdateFor(out.cached, r)))
            && (r in h.requests && r !in out.finished && r !in out.scheduled ==> after[r] == h.requests[r])
            && (forall i :: 0 <= i < |created| && out.newReqs[i].id == r ==>
                  var n := out.newReqs[i];
                  after[r] == Newborn(n, created[i]))
  {
    LegalIds(shape, h, out);
    var admitted := AdmitAll(h.requests - IdSet(out.finished), out.newReqs, created);
    AdmitAllAt(h.requests - IdSet(out.finished), out.newReqs, created);
    UpdateAllAt(admitted, map[], out.cached, r);
    if r in CachedIds(out.cached) {
      assert r in IdSet(CachedIds(out.cached)) && r !in IdSet(NewIds(out.newReqs));
    }
    assert forall i :: 0 <= i < |created| ==> NewIds(out.newReqs)[i] == out.newReqs[i].id && NewIds(out.newReqs)[i] in IdSet(NewIds(out.newReqs));
  }

  /** The kept rows after the in-place updates: each advanced by its own request's update. */
  lemma KeptRow(shape: Shape, h: Host, out: SchedulerOutput, r: ReqId)
    requires Legal(shape, h, out) && HostOk(shape, h)
    ensures var kept := AdvanceAll(Kept(h.views, out), out.cached);
            && kept.Keys == Kept(h.views, out).Keys
            && (r in kept ==> r in CachedIds(out.cached) && var u := UpdateFor(out.cached, r);
                  kept[r] == AdvancedView(h.views[r], u.numComputed, u.newBlocks))
  {
    LegalIds(shape, h, out);
    UpdateAllAt(map[], Kept(h.views, out), out.cached, r);
    forall i | 0 <= i < |out.newReqs| ensures out.newReqs[i].id !in Kept(h.views, out) {
      assert out.newReqs[i] in out.newReqs;
    }
  }

  /** Advancing a faithful row gives the rebuild of the updated request, up to the block table. */
  lemma AdvancedRebuild(request: Request, output: seq<Token>, vocab: nat, disableLogprobs: bool, u: CachedUpdate)
    ensures var after, row := Updated(request, u), AdvancedView(FreshView(request, output, vocab, disableLogprobs), u.numComputed, u.newBlocks);
            && row == FreshView(after, output, vocab, disableLogprobs).(columns := FreshColumns(after, output).(blocks := row.columns.blocks))
            && row.columns.blocks == if u.newBlocks.Some? then AppendBlocks(request.blocks, u.newBlocks.value) else request.blocks
  {
  }

  /** `r` is the new request that got `created[i]`. */
  ghost predicate Admitted(out: SchedulerOutput, created: seq<ListRef>, i: nat, r: ReqId, request: Request) {
    && i < |created| == |out.newReqs| && out.newReqs[i].id == r
    && request.prompt == out.newReqs[i].prompt && request.output == created[i]
  }

  /** Prompt and output list never change hands: a new request brings its own, anyone else keeps theirs. */
  lemma SteppedOrigin(shape: Shape, h: Host, out: SchedulerOutput, created: seq<ListRef>, r: ReqId)
    requires Legal(shape, h, out) && NewLists(h, out, created)
    requires r in SteppedRequests(h, out, created)
    ensures var request := SteppedRequests(h, out, created)[r];
            if r in IdSet(NewIds(out.newReqs)) then exists i: nat :: Admitted(out, created, i, r, request)
            else r in h.requests && request.prompt == h.requests[r].prompt && request.output == h.requests[r].output
  {
    SteppedRequest(shape, h, out, created, r);
    if r in IdSet(NewIds(out.newReqs)) {
      var i: nat :| i < |out.newReqs| && NewIds(out.newReqs)[i] == r;
      assert Admitted(out, created, i, r, SteppedRequests(h, out, created)[r]);
    } else if r in out.scheduled {
      assert r in CachedIds(out.cached);
    }
  }

  lemma SteppedPlaceable(shape: Shape, h: Host, out: SchedulerOutput, created: seq<ListRef>, r: ReqId)
    requires Legal(shape, h, out) && HostOk(shape, h) && NewLists(h, out, created)
    requires r in SteppedRequests(h, out, created)
    ensures Placeable(SteppedRequests(h, out, created), h.lists + EmptyLists(created), shape.maxModelLen, r)
  {
    SteppedOrigin(shape, h, out, created, r);
    var request := SteppedRequests(h, out, created)[r];
    if r in IdSet(NewIds(out.newReqs)) {
      var i: nat :| Admitted(out, created, i, r, request);
      assert created[i] in created && out.newReqs[i] in out.newReqs;
    } else {
      assert Placeable(h.requests, h.lists, shape.maxModelLen, r);
      assert request.output !in EmptyLists(created);
    }
  }

  lemma SteppedUnshared(shape: Shape, h: Host, out: SchedulerOutput, created: seq<ListRef>, r: ReqId, q: ReqId)
    requires Legal(shape, h, out) && HostOk(shape, h) && NewLists(h, out, created)
    requires var after := SteppedRequests(h, out, created);
             r in after && q in after && after[r].output == after[q].output
    ensures r == q
  {
    SteppedOrigin(shape, h, out, created, r);
    SteppedOrigin(shape, h, out, created, q);
    assert r in h.requests ==> Placeable(h.requests, h.lists, shape.maxModelLen, r);
    assert q in h.requests ==> Placeable(h.requests, h.lists, shape.maxModelLen, q);
  }

  lemma SteppedRequestsOk(shape: Shape, h: Host, out: SchedulerOutput, created: seq<ListRef>)
    requires Legal(shape, h, out) && HostOk(shape, h) && NewLists(h, out, created)
    ensures HostOk(shape, Host(SteppedRequests(h, out, created), h.lists + EmptyLists(created), map[]))
    ensures out.scheduled <= SteppedRequests(h, out, created).Keys
  {
    var after, lists := SteppedRequests(h, out, created), h.lists + EmptyLists(created);
    forall r | r in after ensures Placeable(after, lists, shape.maxModelLen, r) {
      SteppedPlaceable(shape, h, out, created, r);
    }
    forall r, q | r in after && q in after && after[r].output == after[q].output ensures r == q {
      SteppedUnshared(shape, h, out, created, r, q);
    }
    forall r | r in out.scheduled ensures r in after {
      SteppedRequest(shape, h, out, created, r);
    }
  }

  lemma FreshViewsAt(shape: Shape, h: Host, ids: set<ReqId>)
    requires HostOk(shape, h) && ids <= h.requests.Keys
    ensures var views := FreshViews(h.requests, h.lists, ids, shape.vocab, shape.disableLogprobs);
            views.Keys == ids && forall r :: r in ids ==> h.requests[r].output in h.lists && views[r] == Rebuilt(shape, h, r)
  {
    assert forall r :: r in ids ==> Placeable(h.requests, h.lists, shape.maxModelLen, r);
  }

  lemma RowsScheduled(shape: Shape, h: Host, out: SchedulerOutput)
    requires Legal(shape, h, out) && HostOk(shape, h)
    ensures Entering(h.views, out) + AdvanceAll(Kept(h.views, out), out.cached).Keys == out.scheduled
    ensures Entering(h.views, out) !! AdvanceAll(Kept(h.views, out), out.cached).Keys
  {
    LegalIds(shape, h, out);
    forall r ensures r in AdvanceAll(Kept(h.views, out), out.cached) <==> r in out.scheduled && r !in Entering(h.views, out) {
      KeptRow(shape, h, out, r);
    }
  }

  /** Afterwards exactly the scheduled requests hold a row, whatever the batch held before. */
  lemma SteppedKeys(shape: Shape, h: Host, out: SchedulerOutput, created: seq<ListRef>)
    requires Legal(shape, h, out) && HostOk(shape, h) && NewLists(h, out, created)
    ensures HostOk(shape, Stepped(shape, h, out, created))
    ensures Stepped(shape, h, out, created).views.Keys == out.scheduled
  {
    SteppedRequestsOk(shape, h, out, created);
    var loaded := Host(SteppedRequests(h, out, created), h.lists + EmptyLists(created), map[]);
    FreshViewsAt(shape, loaded, Entering(h.views, out));
    RowsScheduled(shape, h, out);
    ViewsJoin(shape, loaded, AdvanceAll(Kept(h.views, out), out.cached),
              FreshViews(loaded.requests, loaded.lists, Entering(h.views, out), shape.vocab, shape.disableLogprobs), out.scheduled);
  }

  lemma ViewsJoin(shape: Shape, loaded: Host, kept: map<ReqId, RowView>, entering: map<ReqId, RowView>, scheduled: set<ReqId>)
    requires HostOk(shape, loaded) && kept.Keys + entering.Keys == scheduled && scheduled <= loaded.requests.Keys
    ensures HostOk(shape, loaded.(views := kept + entering)) && (kept + entering).Keys == scheduled
  {
    var joined := loaded.(views := kept + entering);
    assert forall r :: r in joined.requests ==> Placeable(loaded.requests, loaded.lists, shape.maxModelLen, r);
  }

  /** An entering request's row is its rebuild. */
  lemma EnteringRow(shape: Shape, h: Host, out: SchedulerOutput, created: seq<ListRef>, r: ReqId)
    requires Legal(shape, h, out) && HostOk(shape, h) && NewLists(h, out, created) && r in Entering(h.views, out)
    ensures var after := Stepped(shape, h, out, created);
            && r in after.requests && after.requests[r].output in after.lists
            && r in after.views && after.views[r] == Rebuilt(shape, after, r)
  {
    SteppedRequestsOk(shape, h, out, created);
    RowsScheduled(shape, h, out);
    FreshViewsAt(shape, Host(SteppedRequests(h, out, created), h.lists + EmptyLists(created), map[]), Entering(h.views, out));
  }

  /** What a request that kept its row finds in it. */
  lemma KeptAdvances(shape: Shape, h: Host, out: SchedulerOutput, created: seq<ListRef>, r: ReqId)
    requires Legal(shape, h, out) && HostOk(shape, h) && NewLists(h, out, created)
    requires r in out.scheduled && r !in Entering(h.views, out)
    ensures r in h.views && r in h.requests && r in Kept(h.views, out) && r in CachedIds(out.cached)
    ensures var after, u := Stepped(shape, h, out, created), UpdateFor(out.cached, r);
            && r in after.views && after.views[r] == AdvancedView(h.views[r], u.numComputed, u.newBlocks)
            && r in after.requests && after.requests[r] == Updated(h.requests[r], u)
            && h.requests[r].output in h.lists && h.requests[r].output in after.lists
            && after.lists[h.requests[r].output] == h.lists[h.requests[r].output]
  {
    SteppedRequestsOk(shape, h, out, created);
    FreshViewsAt(shape, Host(SteppedRequests(h, out, created), h.lists + EmptyLists(created), map[]), Entering(h.views, out));
    RowsScheduled(shape, h, out);
    KeptRow(shape, h, out, r);
    SteppedRequest(shape, h, out, created, r);
    assert Placeable(h.requests, h.lists, shape.maxModelLen, r);
  }

  predicate StaleRow(h: Host, out: SchedulerOutput, r: ReqId) {
    r in CachedIds(out.cached) && AppendsStale(h, out, UpdateFor(out.cached, r))
  }

  /** The row of a scheduled request is its rebuild, but for the block table of a resumed request
      that kept its row. */
  lemma SteppedRow(shape: Shape, h: Host, out: SchedulerOutput, created: seq<ListRef>, r: ReqId)
    requires Legal(shape, h, out) && HostOk(shape, h) && Synced(shape, h) && NewLists(h, out, created) && r in out.scheduled
    ensures var after := Stepped(shape, h, out, created);
            && r in after.views && r in after.requests && after.requests[r].output in after.lists
            && (after.views[r] == Rebuilt(shape, after, r) <==> !StaleRow(h, out, r))
  {
    if r in Entering(h.views, out) {
      EnteringRow(shape, h, out, created, r);
      EnteringNotStale(shape, h, out, r);
    } else {
      KeptAdvances(shape, h, out, created, r);
      var u, request := UpdateFor(out.cached, r), h.requests[r];
      assert h.views[r] == Rebuilt(shape, h, r);
      AdvancedRebuild(request, h.lists[request.output], shape.vocab, shape.disableLogprobs, u);
    }
  }

  lemma AdvancedMatch(request: Request, output: seq<Token>, vocab: nat, disableLogprobs: bool, u: CachedUpdate, blocks: seq<seq<nat>>)
    ensures var row := AdvancedView(Reblocked(FreshView(request, output, vocab, disableLogprobs), blocks), u.numComputed, u.newBlocks);
            && row == Reblocked(FreshView(Updated(request, u), output, vocab, disableLogprobs), row.columns.blocks)
            && row.columns.blocks == if u.newBlocks.Some? then AppendBlocks(blocks, u.newBlocks.value) else blocks
  {
  }

  /** Whatever its block table held, a scheduled request's row matches its rebuild afterwards; the table of
      a kept row is the old one with the new blocks behind it, that of an entering row is its own. */
  lemma SteppedMatches(shape: Shape, h: Host, out: SchedulerOutput, created: seq<ListRef>, r: ReqId)
    requires Legal(shape, h, out) && HostOk(shape, h) && Matching(shape, h) && NewLists(h, out, created) && r in out.scheduled
    ensures var after := Stepped(shape, h, out, created);
            && Matches(shape, after, r)
            && (r in Entering(h.views, out) ==> after.views[r].columns.blocks == after.requests[r].blocks)
    ensures r !in Entering(h.views, out) ==>
              var after, u := Stepped(shape, h, out, created), UpdateFor(out.cached, r);
              && r in Kept(h.views, out) && r in h.requests && r in CachedIds(out.cached) && after.requests[r] == Updated(h.requests[r], u)
              && after.views[r].columns.blocks
                 == if u.newBlocks.Some? then AppendBlocks(h.views[r].columns.blocks, u.newBlocks.value) else h.views[r].columns.blocks
  {
    if r in Entering(h.views, out) {
      EnteringRow(shape, h, out, created, r);
    } else {
      KeptAdvances(shape, h, out, created, r);
      var u, request := UpdateFor(out.cached, r), h.requests[r];
      assert Matches(shape, h, r);
      AdvancedMatch(request, h.lists[request.output], shape.vocab, shape.disableLogprobs, u, h.views[r].columns.blocks);
    }
  }

  lemma EnteringNotStale(shape: Shape, h: Host, out: SchedulerOutput, r: ReqId)
    requires Legal(shape, h, out) && r in Entering(h.views, out)
    ensures !StaleRow(h, out, r)
  {
    LegalIds(shape, h, out);
    if r in CachedIds(out.cached) {
      assert r in IdSet(CachedIds(out.cached));
    }
  }

  /** After one scheduler output the batch equals a rebuild if and only if no resumed request that
      still held its row had blocks left in it. */
  lemma RebuildExactly(shape: Shape, h: Host, out: SchedulerOutput, created: seq<ListRef>)
    requires Legal(shape, h, out) && HostOk(shape, h) && Synced(shape, h) && NewLists(h, out, created)
    ensures Synced(shape, Stepped(shape, h, out, created)) <==> forall u :: u in out.cached ==> !AppendsStale(h, out, u)
  {
    var after := Stepped(shape, h, out, created);
    SteppedKeys(shape, h, out, created);
    forall r | r in out.scheduled
      ensures r in after.requests && after.requests[r].output in after.lists
              && (after.views[r] == Rebuilt(shape, after, r) <==> !StaleRow(h, out, r))
    {
      SteppedRow(shape, h, out, created, r);
    }
    StaleRows(shape, h, out);
    SyncedUnlessStale(shape, h, out, after);
  }

  lemma StaleRows(shape: Shape, h: Host, out: SchedulerOutput)
    requires Legal(shape, h, out)
    ensures (forall u :: u in out.cached ==> !AppendsStale(h, out, u)) <==> forall r :: r in out.scheduled ==> !StaleRow(h, out, r)
  {
    LegalIds(shape, h, out);
    forall u | u in out.cached ensures u.id in out.scheduled && StaleRow(h, out, u.id) == AppendsStale(h, out, u) {
      var i :| 0 <= i < |out.cached| && out.cached[i] == u;
      UpdateForUnique(out.cached, i);
    }
  }

  lemma SyncedUnlessStale(shape: Shape, h: Host, out: SchedulerOutput, after: Host)
    requires after.views.Keys == out.scheduled
    requires forall r :: r in out.scheduled ==>
               r in after.requests && after.requests[r].output in after.lists
               && (after.views[r] == Rebuilt(shape, after, r) <==> !StaleRow(h, out, r))
    ensures Synced(shape, after) <==> forall r :: r in out.scheduled ==> !StaleRow(h, out, r)
  {
  }

  lemma {:induction false} UpdateForUnique(cached: seq<CachedUpdate>, i: nat)
    requires Distinct(CachedIds(cached)) && i < |cached|
    ensures CachedIds(cached)[i] == cached[i].id && UpdateFor(cached, cached[i].id) == cached[i]
  {
    var u := UpdateFor(cached, cached[i].id);
    var j :| 0 <= j < |cached| && cached[j] == u;
    assert CachedIds(cached)[i] == CachedIds(cached)[j];
  }
}
