/**
 `_update_states`: one scheduler output drives removals, admissions, in-place updates, placements and
 `condense`, after which the batch has to be what a rebuild from the request states would give.
 */
module BatchUpdate {
  import opened Runtime
  import opened PersistentBatch
  import opened RequestStates
  import opened BatchHistory

  // ----- sorting the freed rows -----

  function Insert(row: nat, sorted: seq<nat>): seq<nat> {
    if sorted == [] || sorted[0] < row then [row] + sorted else [sorted[0]] + Insert(row, sorted[1..])
  }

  function SortedDescending(rows: seq<nat>): seq<nat> {
    if rows == [] then [] else Insert(rows[0], SortedDescending(rows[1..]))
  }

  lemma Prepend(top: nat, rest: seq<nat>)
    ensures forall e: nat :: e in [top] + rest <==> e == top || e in rest
    ensures Descending(rest) && (forall e :: e in rest ==> e < top) ==> Descending([top] + rest)
  {
    assert forall i :: 0 <= i < |rest| ==> rest[i] in rest;
  }

  /** What is left of a descending list lies below its head. */
  lemma Split(sorted: seq<nat>)
    requires Descending(sorted) && sorted != []
    ensures Descending(sorted[1..]) && (forall e :: e in sorted[1..] ==> e < sorted[0])
    ensures forall e: nat :: e in sorted <==> e == sorted[0] || e in sorted[1..]
  {
    var rest := sorted[1..];
    assert sorted == [sorted[0]] + rest;
    assert forall i :: 0 <= i < |rest| ==> rest[i] == sorted[i + 1];
  }

  lemma {:induction false} InsertDescending(row: nat, sorted: seq<nat>)
    requires Descending(sorted) && row !in sorted
    ensures Descending(Insert(row, sorted))
    ensures forall e: nat :: e in Insert(row, sorted) <==> e == row || e in sorted
  {
    if sorted == [] {
      Prepend(row, sorted);
    } else {
      Split(sorted);
      if sorted[0] < row {
        Prepend(row, sorted);
      } else {
        InsertDescending(row, sorted[1..]);
        Prepend(sorted[0], Insert(row, sorted[1..]));
      }
    }
  }

  lemma {:induction false} SortsDescending(rows: seq<nat>)
    requires Distinct(rows)
    ensures Descending(SortedDescending(rows))
    ensures forall e: nat :: e in SortedDescending(rows) <==> e in rows
  {
    if rows != [] {
      SortsDescending(rows[1..]);
      assert rows == [rows[0]] + rows[1..];
      Prepend(rows[0], rows[1..]);
      InsertDescending(rows[0], SortedDescending(rows[1..]));
    }
  }

  // ----- the runner -----

  ghost predicate HolesAre(reqIds: seq<Option<ReqId>>, rows: seq<nat>) {
    ListsHoles(reqIds, rows) && Distinct(rows)
  }

  class Runner {
    const batch: Batch
    var requests: map<ReqId, Request>
    var lists: OutputLists
    /** Sticky until a decode consumes it. */
    var layoutChanged: bool

    constructor (batch: Batch)
      requires batch.Valid() && batch.views == map[]
      ensures this.batch == batch && requests == map[] && lists == map[] && layoutChanged
    {
      this.batch := batch;
      requests, lists := map[], map[];
      layoutChanged := true;
    }

    /** One `remove_request`; `rows` collects the rows freed this step. */
    method RemoveOne(r: ReqId, freed: seq<nat>) returns (rows: seq<nat>)
      requires batch.Valid() && HolesAre(batch.reqIds, freed)
      modifies batch.Repr()
      ensures batch.Valid() && HolesAre(batch.reqIds, rows)
      ensures batch.views == old(batch.views) - {r} && batch.index == old(batch.index) - {r}
      ensures r !in old(batch.index) ==> rows == freed && batch.reqIds == old(batch.reqIds)
    {
      ghost var reqIds := batch.reqIds;
      var row := batch.RemoveRequest(r);
      if row.None? { return freed; }
      RemovedHole(reqIds, freed, row.value);
      return freed + [row.value];
    }

    method RemoveAll(ids: seq<ReqId>, freed: seq<nat>) returns (rows: seq<nat>, changed: bool)
      requires batch.Valid() && HolesAre(batch.reqIds, freed)
      modifies batch.Repr()
      ensures batch.Valid() && HolesAre(batch.reqIds, rows)
      ensures batch.views == old(batch.views) - IdSet(ids) && batch.index == old(batch.index) - IdSet(ids)
      ensures changed <==> batch.index != old(batch.index)
      ensures !changed ==> rows == freed && batch.reqIds == old(batch.reqIds)
    {
      rows, changed := freed, false;
      for i := 0 to |ids|
        invariant batch.Valid() && HolesAre(batch.reqIds, rows)
        invariant batch.views == old(batch.views) - IdSet(ids[..i]) && batch.index == old(batch.index) - IdSet(ids[..i])
        invariant changed <==> batch.index != old(batch.index)
        invariant !changed ==> rows == freed && batch.reqIds == old(batch.reqIds)
      {
        DroppedNext(old(batch.views), old(batch.index), ids, i);
        if ids[i] in batch.index { changed := true; }
        rows := RemoveOne(ids[i], rows);
      }
      assert ids[..|ids|] == ids;
    }

    /** Running requests this step leaves out give their row back too. */
    method RemoveUnscheduled(scheduled: set<ReqId>, freed: seq<nat>) returns (rows: seq<nat>, changed: bool)
      requires batch.Valid() && HolesAre(batch.reqIds, freed)
      modifies batch.Repr()
      ensures batch.Valid() && HolesAre(batch.reqIds, rows)
      ensures var gone := old(batch.index).Keys - scheduled;
              batch.views == old(batch.views) - gone && batch.index == old(batch.index) - gone
      ensures changed <==> batch.index != old(batch.index)
      ensures !changed ==> rows == freed && batch.reqIds == old(batch.reqIds)
    {
      var ids := Enumerate(batch.index.Keys - scheduled);
      rows, changed := RemoveAll(ids, freed);
    }

    /** Each new request gets its own, empty output list. */
    method AdmitNew(newReqs: seq<NewRequest>) returns (ghost created: seq<ListRef>)
      modifies this`requests, this`lists
      ensures |created| == |newReqs| && requests == AdmitAll(old(requests), newReqs, created)
      ensures Distinct(created) && (forall l :: l in created ==> l !in old(lists))
      ensures lists == old(lists) + EmptyLists(created)
    {
      created := [];
      AdmittingNone(newReqs, requests, lists);
      for i := 0 to |newReqs|
        invariant Admitting(newReqs, i, created, old(requests), requests, old(lists), lists)
      {
        var n := newReqs[i];
        var output := FreshRef(lists);
        AdmittingNext(newReqs, i, created, old(requests), requests, old(lists), lists, output);
        lists := lists[output := []];
        requests := requests[n.id := Newborn(n, output)];
        created := created + [output];
      }
      assert newReqs[..|newReqs|] == newReqs;
    }

    /** A cached request's row, when it holds one. */
    method UpdateHeldRow(u: CachedUpdate) returns (held: bool)
      requires batch.Valid()
      modifies batch`views, batch.numComputed, batch.blockTable
      ensures batch.Valid() && batch.views == AdvanceInto(old(batch.views), u) && held == (u.id in batch.index)
    {
      batch.ViewsKeys();
      held := u.id in batch.index;
      if held { batch.UpdateRow(u.id, u.numComputed, u.newBlocks); }
    }

    /** One cached request: its state, and its row when it holds one. */
    method UpdateOne(u: CachedUpdate) returns (held: bool)
      requires batch.Valid() && u.id in requests
      modifies this`requests, batch`views, batch.numComputed, batch.blockTable
      ensures batch.Valid() && requests == UpdateInto(old(requests), u)
      ensures batch.views == AdvanceInto(old(batch.views), u) && held == (u.id in batch.index)
    {
      requests := requests[u.id := Updated(requests[u.id], u)];
      held := UpdateHeldRow(u);
    }

    /** Running and resumed requests; the ones without a row are to be placed. */
    method UpdateCached(cached: seq<CachedUpdate>) returns (toAdd: seq<ReqId>)
      requires batch.Valid() && forall u :: u in cached ==> u.id in requests
      modifies this`requests, batch`views, batch.numComputed, batch.blockTable
      ensures batch.Valid() && requests == UpdateAll(old(requests), cached)
      ensures batch.views == AdvanceAll(old(batch.views), cached)
      ensures toAdd == Unheld(CachedIds(cached), batch.index.Keys)
    {
      ghost var views := batch.views;
      toAdd := [];
      for i := 0 to |cached|
        invariant batch.Valid() && (forall u :: u in cached ==> u.id in requests)
        invariant Updating(cached, i, old(requests), requests, views, batch.views, batch.index.Keys, toAdd)
      {
        UpdatingNext(cached, i, old(requests), requests, views, batch.views, batch.index.Keys, toAdd);
        var held := UpdateOne(cached[i]);
        if !held { toAdd := toAdd + [cached[i].id]; }
      }
      UpdatingDone(cached, old(requests), requests, views, batch.views, batch.index.Keys, toAdd);
    }

    ghost function Model(): Host
      reads this`requests, this`lists, batch`views
    {
      Host(requests, lists, batch.views)
    }

    /** Removals: the rows of finished and of unscheduled requests. */
    method ReleaseRows(finished: seq<ReqId>, scheduled: set<ReqId>, ghost out: SchedulerOutput) returns (rows: seq<nat>, changed: bool)
      requires batch.Valid() && batch.Model().Packed() && out.finished == finished && out.scheduled == scheduled
      modifies batch.Repr()
      ensures batch.Valid() && HolesAre(batch.reqIds, rows)
      ensures batch.views == Kept(old(batch.views), out) && batch.index.Keys == batch.views.Keys
      ensures changed <==> batch.views != old(batch.views)
      ensures !changed ==> rows == [] && batch.reqIds == old(batch.reqIds) && batch.index == old(batch.index)
      ensures requests == old(requests) && lists == old(lists) && layoutChanged == old(layoutChanged)
    {
      rows, changed := DropRows(finished, scheduled, out);
    }

    method DropRows(finished: seq<ReqId>, scheduled: set<ReqId>, ghost out: SchedulerOutput) returns (rows: seq<nat>, changed: bool)
      requires batch.Valid() && batch.Model().Packed() && out.finished == finished && out.scheduled == scheduled
      modifies batch.Repr()
      ensures batch.Valid() && HolesAre(batch.reqIds, rows)
      ensures batch.views == Kept(old(batch.views), out) && batch.index.Keys == batch.views.Keys
      ensures changed <==> batch.views != old(batch.views)
      ensures !changed ==> rows == [] && batch.reqIds == old(batch.reqIds) && batch.index == old(batch.index)
    {
      ghost var views, index := batch.views, batch.index;
      batch.ViewsKeys();
      var first, second;
      rows, first := RemoveAll(finished, []);
      rows, second := RemoveUnscheduled(scheduled, rows);
      changed := first || second;
      Released(views, index, out);
    }

    /** Placements, then `condense` when freed rows are left over. */
    method PlaceSome(ids: seq<ReqId>, rows: seq<nat>, ghost wanted: map<ReqId, RowView>)
      requires batch.Valid() && HolesAre(batch.reqIds, rows) && Distinct(ids) && |batch.index| + |ids| <= batch.maxReqs
      requires Wanted(ShapeOf(batch), requests, lists, ids, wanted) && wanted.Keys !! batch.index.Keys
      modifies batch.Repr()
      ensures batch.Valid() && batch.Model().Packed() && batch.views == old(batch.views) + wanted
    {
      SortsDescending(rows);
      var left := PlaceAll(batch, requests, lists, ids, SortedDescending(rows), wanted);
      CondenseLeft(left);
    }

    method CondenseLeft(left: seq<nat>)
      requires Open(batch, left)
      modifies batch.Repr()
      ensures batch.Valid() && batch.Model().Packed() && batch.views == old(batch.views)
    {
      if left != [] {
        batch.Condense(left);
      }
    }

    /** Without a placement and without a freed row nothing moves. */
    method PlaceRows(ids: seq<ReqId>, rows: seq<nat>, ghost wanted: map<ReqId, RowView>)
      requires batch.Valid() && HolesAre(batch.reqIds, rows) && Distinct(ids) && |batch.index| + |ids| <= batch.maxReqs
      requires Wanted(ShapeOf(batch), requests, lists, ids, wanted) && wanted.Keys !! batch.index.Keys
      modifies batch.Repr()
      ensures batch.Valid() && batch.Model().Packed() && batch.views == old(batch.views) + wanted
      ensures requests == old(requests) && lists == old(lists) && layoutChanged == old(layoutChanged)
      ensures ids == [] && rows == [] ==> batch.reqIds == old(batch.reqIds) && batch.index == old(batch.index)
    {
      if ids == [] && rows == [] {
        NoHoles(batch.reqIds, ids, wanted, batch.views);
      } else {
        PlaceSome(ids, rows, wanted);
      }
    }

    /** Request states, and the rows that are updated in place. */
    method LoadStates(out: SchedulerOutput, ghost before: Host, changed: bool) returns (toAdd: seq<ReqId>, ghost created: seq<ListRef>)
      requires batch.Valid() && requests == before.requests - IdSet(out.finished) && lists == before.lists
      requires Legal(ShapeOf(batch), before, out)
      modifies this, batch`views, batch.numComputed, batch.blockTable
      ensures layoutChanged == (old(layoutChanged) || changed || toAdd != [])
      ensures batch.reqIds == old(batch.reqIds) && batch.index == old(batch.index)
      ensures batch.Valid() && NewLists(before, out, created)
      ensures requests == SteppedRequests(before, out, created) && lists == before.lists + EmptyLists(created)
      ensures batch.views == AdvanceAll(old(batch.views), out.cached)
      ensures toAdd == NewIds(out.newReqs) + Unheld(CachedIds(out.cached), batch.index.Keys)
    {
      toAdd, created := LoadRows(out, before);
      layoutChanged := layoutChanged || changed || toAdd != [];
    }

    method LoadRows(out: SchedulerOutput, ghost before: Host) returns (toAdd: seq<ReqId>, ghost created: seq<ListRef>)
      requires batch.Valid() && requests == before.requests - IdSet(out.finished) && lists == before.lists
      requires Legal(ShapeOf(batch), before, out)
      modifies this`requests, this`lists, batch`views, batch.numComputed, batch.blockTable
      ensures batch.Valid() && NewLists(before, out, created)
      ensures requests == SteppedRequests(before, out, created) && lists == before.lists + EmptyLists(created)
      ensures batch.views == AdvanceAll(old(batch.views), out.cached)
      ensures toAdd == NewIds(out.newReqs) + Unheld(CachedIds(out.cached), batch.index.Keys)
    {
      created := AdmitNew(out.newReqs);
      AdmittedRequests(ShapeOf(batch), before, out, created);
      var unheld := UpdateCached(out.cached);
      return NewIds(out.newReqs) + unheld, created;
    }

    /** The second half of a step: states, in-place updates and placements. */
    method LoadAndPlace(out: SchedulerOutput, rows: seq<nat>, changed: bool, ghost before: Host) returns (ghost created: seq<ListRef>)
      requires batch.Valid() && HolesAre(batch.reqIds, rows) && HostOk(ShapeOf(batch), before) && Legal(ShapeOf(batch), before, out)
      requires requests == before.requests - IdSet(out.finished) && lists == before.lists
      requires batch.views == Kept(before.views, out) && batch.index.Keys == batch.views.Keys
      requires changed == (Kept(before.views, out) != before.views) && (!changed ==> rows == [])
      modifies this, batch.Repr()
      ensures batch.Valid() && batch.Model().Packed() && NewLists(before, out, created)
      ensures Model() == Stepped(ShapeOf(batch), before, out, created)
      ensures layoutChanged == (old(layoutChanged) || Stirs(before.views, out))
      ensures !layoutChanged ==> batch.reqIds == old(batch.reqIds) && batch.index == old(batch.index)
    {
      var toAdd;
      toAdd, created := LoadStates(out, before, changed);
      ghost var wanted := Prepared(ShapeOf(batch), before, out, created, toAdd, changed, batch.index.Keys);
      ghost var after := Host(requests, lists, batch.views + wanted);
      assert after == Stepped(ShapeOf(batch), before, out, created);
      PlaceRows(toAdd, rows, wanted);
      assert Model() == after;
    }

    /** `_update_states`. */
    method UpdateStates(out: SchedulerOutput) returns (ghost created: seq<ListRef>)
      requires batch.Valid() && batch.Model().Packed() && HostOk(ShapeOf(batch), Model()) && Legal(ShapeOf(batch), Model(), out)
      modifies this, batch.Repr()
      ensures batch.Valid() && batch.Model().Packed() && NewLists(old(Model()), out, created)
      ensures Model() == Stepped(ShapeOf(batch), old(Model()), out, created)
      ensures layoutChanged == (old(layoutChanged) || Stirs(old(batch.views), out))
      ensures !layoutChanged ==> batch.reqIds == old(batch.reqIds) && batch.index == old(batch.index)
    {
      ghost var before := Model();
      requests := requests - IdSet(out.finished);
      var rows, changed := ReleaseRows(out.finished, out.scheduled, out);
      created := LoadAndPlace(out, rows, changed, before);
      assert !layoutChanged ==> !changed;
    }

    method ApplyToRow(r: ReqId, block: seq<Token>) returns (fit: seq<Token>)
      requires batch.Valid()
      modifies batch`views, batch.tokenIds, batch.numTokens
      ensures batch.Valid() && fit == Fitting(ShapeOf(batch), old(Model()), r, block)
      ensures batch.views == if r in old(batch.views) then old(batch.views)[r := WithTokens(old(batch.views)[r], fit)]
                             else old(batch.views)
    {
      batch.ViewsKeys();
      if r in batch.index {
        fit := batch.AppendTokens(r, block);
      } else {
        fit := block;
      }
    }

    /** One request's part of a frame: its row, when it holds one, and its output list, once. */
    method ApplyOne(r: ReqId, block: seq<Token>)
      requires batch.Valid() && r in requests && requests[r].output in lists
      modifies this`lists, batch`views, batch.tokenIds, batch.numTokens
      ensures batch.Valid() && Model() == ExtendOne(ShapeOf(batch), old(Model()), r, block)
    {
      var fit := ApplyToRow(r, block);
      lists := lists[requests[r].output := lists[requests[r].output] + fit];
    }

    /** Whether a request's row is full. */
    method RowFull(r: ReqId) returns (full: bool)
      requires batch.Valid()
      ensures full == Overflows(ShapeOf(batch), Model(), r)
    {
      batch.ViewsKeys();
      if r !in batch.index { return false; }
      batch.RowLength(r);
      return batch.numTokens[batch.index[r]] + 1 > batch.maxModelLen;
    }

    /** Looks at every live row before any is written. */
    method FrameFits(rows: seq<ReqId>, skip: set<ReqId>) returns (ok: bool)
      requires batch.Valid()
      ensures ok <==> forall r :: r in rows && r !in skip ==> !Overflows(ShapeOf(batch), Model(), r)
    {
      for i := 0 to |rows|
        invariant forall k :: 0 <= k < i && rows[k] !in skip ==> !Overflows(ShapeOf(batch), Model(), rows[k])
      {
        if rows[i] !in skip {
          var full := RowFull(rows[i]);
          if full { return false; }
        }
      }
      return true;
    }

    /** The frame, row by row. */
    method ExtendRows(rows: seq<ReqId>, blocks: seq<seq<Token>>, skip: set<ReqId>)
      requires batch.Valid() && |rows| == |blocks| && Held(Model(), rows, skip)
      modifies this`lists, batch`views, batch.tokenIds, batch.numTokens
      ensures batch.Valid() && Model() == ExtendAll(ShapeOf(batch), old(Model()), rows, blocks, skip)
    {
      ghost var before := Model();
      for i := 0 to |rows|
        invariant batch.Valid() && Held(before, rows[..i], skip) && |rows[..i]| == |blocks[..i]|
        invariant Model() == ExtendAll(ShapeOf(batch), before, rows[..i], blocks[..i], skip)
      {
        assert rows[..i + 1][..i] == rows[..i] && blocks[..i + 1][..i] == blocks[..i];
        if rows[i] !in skip {
          ApplyOne(rows[i], blocks[i]);
        }
      }
      assert rows[..|rows|] == rows && blocks[..|rows|] == blocks;
    }

    /** `_apply_sampled_tokens_to_state` for captured request ids; false is the overflow error. */
    method ApplySampled(rows: seq<ReqId>, blocks: seq<seq<Token>>, skip: set<ReqId>, width: nat) returns (ok: bool)
      requires batch.Valid() && |rows| == |blocks| && Held(Model(), rows, skip)
      modifies this`lists, batch`views, batch.tokenIds, batch.numTokens
      ensures batch.Valid()
      ensures ok <==> ApplyFrame(ShapeOf(batch), old(Model()), rows, blocks, skip, width).Some?
      ensures Model() == if ok then ApplyFrame(ShapeOf(batch), old(Model()), rows, blocks, skip, width).value else old(Model())
    {
      if width == 1 {
        var fits := FrameFits(rows, skip);
        if !fits { return false; }
      }
      ExtendRows(rows, blocks, skip);
      return true;
    }
  }

  /** Some request gains or gives up a row. */
  predicate Stirs(views: map<ReqId, RowView>, out: SchedulerOutput) {
    Kept(views, out) != views || Entering(views, out) != {}
  }

  /** What is left to place, and what the batch holds once it is. */
  lemma Prepared(shape: Shape, h: Host, out: SchedulerOutput, created: seq<ListRef>, toAdd: seq<ReqId>, changed: bool,
                 held: set<ReqId>)
    returns (wanted: map<ReqId, RowView>)
    requires Legal(shape, h, out) && HostOk(shape, h) && NewLists(h, out, created) && held == Kept(h.views, out).Keys
    requires toAdd == NewIds(out.newReqs) + Unheld(CachedIds(out.cached), held) && changed == (Kept(h.views, out) != h.views)
    ensures Distinct(toAdd) && |held| + |toAdd| <= shape.maxReqs && wanted.Keys !! held
    ensures Wanted(shape, SteppedRequests(h, out, created), h.lists + EmptyLists(created), toAdd, wanted)
    ensures Stepped(shape, h, out, created)
            == Host(SteppedRequests(h, out, created), h.lists + EmptyLists(created), AdvanceAll(Kept(h.views, out), out.cached) + wanted)
    ensures changed || toAdd != [] <==> Stirs(h.views, out)
  {
    ToAdd(shape, h, out, toAdd, held);
    EnteringWanted(shape, h, out, created, toAdd);
    assert toAdd != [] ==> toAdd[0] in IdSet(toAdd);
    wanted := EnteringViews(shape, h, out, created);
  }

  lemma NoHoles(reqIds: seq<Option<ReqId>>, ids: seq<ReqId>, wanted: map<ReqId, RowView>, views: map<ReqId, RowView>)
    requires HolesAre(reqIds, []) && ids == [] && wanted.Keys == IdSet(ids)
    ensures (forall i :: 0 <= i < |reqIds| ==> reqIds[i].Some?) && views + wanted == views
  {
    SameMap(views + wanted, views);
  }

  ghost function ShapeOf(batch: Batch): Shape {
    Shape(batch.maxReqs, batch.maxModelLen, batch.sampling.vocab, batch.sampling.disableLogprobs)
  }

  lemma Released(views: map<ReqId, RowView>, index: map<ReqId, nat>, out: SchedulerOutput)
    requires views.Keys == index.Keys
    ensures var left := index - IdSet(out.finished);
            var gone := left.Keys - out.scheduled;
            && views - IdSet(out.finished) - gone == Kept(views, out)
            && (left - gone).Keys == Kept(views, out).Keys
            && (left == index && left - gone == left <==> Kept(views, out) == views)
  {
    var left := index - IdSet(out.finished);
    SameMap(views - IdSet(out.finished) - (left.Keys - out.scheduled), Kept(views, out));
    if Kept(views, out) == views {
      assert forall r :: r in views ==> r in Kept(views, out);
      SameMap(left, index);
      SameMap(left - (left.Keys - out.scheduled), left);
    } else if left == index && left - (left.Keys - out.scheduled) == left {
      assert forall r :: r in index ==> r in left && r in left - (left.Keys - out.scheduled);
      SameMap(Kept(views, out), views);
    }
  }

  lemma AdmittedRequests(shape: Shape, h: Host, out: SchedulerOutput, created: seq<ListRef>)
    requires Legal(shape, h, out) && NewLists(h, out, created)
    ensures forall u :: u in out.cached ==> u.id in AdmitAll(h.requests - IdSet(out.finished), out.newReqs, created)
  {
    LegalIds(shape, h, out);
    AdmitAllAt(h.requests - IdSet(out.finished), out.newReqs, created);
    forall u | u in out.cached ensures u.id in CachedIds(out.cached) {
      var i :| 0 <= i < |out.cached| && out.cached[i] == u;
      assert CachedIds(out.cached)[i] == u.id;
    }
  }

  ghost function EnteringViews(shape: Shape, h: Host, out: SchedulerOutput, created: seq<ListRef>): map<ReqId, RowView>
    requires |created| == |out.newReqs|
  {
    FreshViews(SteppedRequests(h, out, created), h.lists + EmptyLists(created), Entering(h.views, out), shape.vocab,
               shape.disableLogprobs)
  }

  lemma {:induction false} IdCount(ids: seq<ReqId>)
    ensures |IdSet(ids)| <= |ids| && (Distinct(ids) ==> |IdSet(ids)| == |ids|)
  {
    if ids != [] {
      var k := |ids| - 1;
      assert ids == ids[..k] + [ids[k]];
      assert IdSet(ids) == IdSet(ids[..k]) + {ids[k]};
      IdCount(ids[..k]);
    }
  }

  lemma IdsJoin(a: seq<ReqId>, b: seq<ReqId>)
    ensures IdSet(a + b) == IdSet(a) + IdSet(b)
    ensures Distinct(a) && Distinct(b) && IdSet(a) !! IdSet(b) ==> Distinct(a + b)
  {
    assert forall i :: 0 <= i < |a| ==> a[i] in IdSet(a);
    assert forall i :: 0 <= i < |b| ==> b[i] in IdSet(b);
  }

  /** The placed requests are exactly the entering ones, and they fit beside the kept rows. */
  lemma ToAdd(shape: Shape, h: Host, out: SchedulerOutput, toAdd: seq<ReqId>, held: set<ReqId>)
    requires Legal(shape, h, out) && HostOk(shape, h) && held == Kept(h.views, out).Keys
    requires toAdd == NewIds(out.newReqs) + Unheld(CachedIds(out.cached), held)
    ensures Distinct(toAdd) && IdSet(toAdd) == Entering(h.views, out) && IdSet(toAdd) !! held
    ensures |held| + |toAdd| <= shape.maxReqs
  {
    ToAddIds(shape, h, out, toAdd, held);
    RowsScheduled(shape, h, out);
    KeptKeys(shape, h, out);
    RowCount(out, toAdd, held);
  }

  lemma ToAddIds(shape: Shape, h: Host, out: SchedulerOutput, toAdd: seq<ReqId>, held: set<ReqId>)
    requires Legal(shape, h, out) && held == Kept(h.views, out).Keys
    requires toAdd == NewIds(out.newReqs) + Unheld(CachedIds(out.cached), held)
    ensures Distinct(toAdd) && IdSet(toAdd) == Entering(h.views, out)
  {
    LegalIds(shape, h, out);
    UnheldIds(CachedIds(out.cached), held);
    IdsJoin(NewIds(out.newReqs), Unheld(CachedIds(out.cached), held));
  }

  lemma RowCount(out: SchedulerOutput, toAdd: seq<ReqId>, held: set<ReqId>)
    requires Distinct(toAdd) && IdSet(toAdd) !! held && IdSet(toAdd) + held == out.scheduled
    requires out.scheduled == IdSet(NewIds(out.newReqs)) + IdSet(CachedIds(out.cached))
    ensures |held| + |toAdd| <= |out.newReqs| + |out.cached|
  {
    IdCount(toAdd);
    IdsJoin(NewIds(out.newReqs), CachedIds(out.cached));
    IdCount(NewIds(out.newReqs) + CachedIds(out.cached));
    assert |held + IdSet(toAdd)| == |held| + |IdSet(toAdd)|;
  }

  lemma KeptKeys(shape: Shape, h: Host, out: SchedulerOutput)
    requires Legal(shape, h, out) && HostOk(shape, h)
    ensures AdvanceAll(Kept(h.views, out), out.cached).Keys == Kept(h.views, out).Keys
  {
    KeptRow(shape, h, out, ReqId(""));
  }

  lemma EnteringWanted(shape: Shape, h: Host, out: SchedulerOutput, created: seq<ListRef>, ids: seq<ReqId>)
    requires Legal(shape, h, out) && HostOk(shape, h) && NewLists(h, out, created) && IdSet(ids) == Entering(h.views, out)
    ensures Wanted(shape, SteppedRequests(h, out, created), h.lists + EmptyLists(created), ids, EnteringViews(shape, h, out, created))
  {
    var after := Host(SteppedRequests(h, out, created), h.lists + EmptyLists(created), map[]);
    SteppedRequestsOk(shape, h, out, created);
    RowsScheduled(shape, h, out);
    FreshViewsAt(shape, after, Entering(h.views, out));
    assert forall r :: r in after.requests ==> Placeable(after.requests, after.lists, shape.maxModelLen, r);
  }

  /** After `i` new requests. */
  ghost predicate Admitting(newReqs: seq<NewRequest>, i: nat, created: seq<ListRef>, requests0: map<ReqId, Request>,
                            requests: map<ReqId, Request>, lists0: OutputLists, lists: OutputLists) {
    && i <= |newReqs| && |created| == i && requests == AdmitAll(requests0, newReqs[..i], created)
    && Distinct(created) && (forall l :: l in created ==> l !in lists0) && lists == lists0 + EmptyLists(created)
  }

  lemma AdmittingNone(newReqs: seq<NewRequest>, requests: map<ReqId, Request>, lists: OutputLists)
    ensures Admitting(newReqs, 0, [], requests, requests, lists, lists)
  {
    SameMap(lists, lists + EmptyLists([]));
  }

  lemma AdmittingNext(newReqs: seq<NewRequest>, i: nat, created: seq<ListRef>, requests0: map<ReqId, Request>,
                      requests: map<ReqId, Request>, lists0: OutputLists, lists: OutputLists, output: ListRef)
    requires Admitting(newReqs, i, created, requests0, requests, lists0, lists) && i < |newReqs| && output !in lists
    ensures var n := newReqs[i];
            Admitting(newReqs, i + 1, created + [output], requests0,
                      requests[n.id := Newborn(n, output)],
                      lists0, lists[output := []])
  {
    assert newReqs[..i + 1][..i] == newReqs[..i] && (created + [output])[..i] == created;
    CreatedNext(created, lists0, lists, output);
  }

  lemma CreatedNext(created: seq<ListRef>, lists0: OutputLists, lists: OutputLists, output: ListRef)
    requires Distinct(created) && (forall l :: l in created ==> l !in lists0) && lists == lists0 + EmptyLists(created)
    requires output !in lists
    ensures Distinct(created + [output]) && (forall l :: l in created + [output] ==> l !in lists0)
    ensures lists[output := []] == lists0 + EmptyLists(created + [output])
  {
    assert forall l :: l in created ==> l in EmptyLists(created);
    assert forall k :: 0 <= k < |created| ==> created[k] in created;
    SameMap(lists[output := []], lists0 + EmptyLists(created + [output]));
  }

  /** After `i` entries of the cached loop. */
  ghost predicate Updating(cached: seq<CachedUpdate>, i: nat, requests0: map<ReqId, Request>, requests: map<ReqId, Request>,
                           views0: map<ReqId, RowView>, views: map<ReqId, RowView>, held: set<ReqId>, toAdd: seq<ReqId>) {
    && i <= |cached| && requests == UpdateAll(requests0, cached[..i]) && views == AdvanceAll(views0, cached[..i])
    && toAdd == Unheld(CachedIds(cached[..i]), held)
  }

  lemma UpdatingNext(cached: seq<CachedUpdate>, i: nat, requests0: map<ReqId, Request>, requests: map<ReqId, Request>,
                     views0: map<ReqId, RowView>, views: map<ReqId, RowView>, held: set<ReqId>, toAdd: seq<ReqId>)
    requires Updating(cached, i, requests0, requests, views0, views, held, toAdd) && i < |cached|
    ensures Updating(cached, i + 1, requests0, UpdateInto(requests, cached[i]), views0, AdvanceInto(views, cached[i]), held,
                     toAdd + if cached[i].id in held then [] else [cached[i].id])
  {
    assert cached[..i + 1][..i] == cached[..i];
    assert CachedIds(cached[..i + 1])[..i] == CachedIds(cached[..i]);
  }

  lemma UpdatingDone(cached: seq<CachedUpdate>, requests0: map<ReqId, Request>, requests: map<ReqId, Request>,
                     views0: map<ReqId, RowView>, views: map<ReqId, RowView>, held: set<ReqId>, toAdd: seq<ReqId>)
    requires Updating(cached, |cached|, requests0, requests, views0, views, held, toAdd)
    ensures requests == UpdateAll(requests0, cached) && views == AdvanceAll(views0, cached)
    ensures toAdd == Unheld(CachedIds(cached), held)
  {
    assert cached[..|cached|] == cached;
  }

  /** A list object nobody holds yet. */
  method FreshRef(lists: OutputLists) returns (output: ListRef)
    ensures output !in lists
  {
    UnusedRef(lists.Keys, |lists.Keys|);
    output :| output !in lists;
  }

  lemma {:induction false} UnusedRef(used: set<ListRef>, size: nat)
    requires |used| == size
    ensures exists l :: l !in used
  {
    if forall l :: l in used {
      BelowUsed(used, size + 1);
    }
  }

  lemma {:induction false} BelowUsed(used: set<ListRef>, n: nat)
    requires forall i: nat :: i < n ==> ListRef(i) in used
    ensures |used| >= n
    decreases n
  {
    if n > 0 {
      BelowUsed(used - {ListRef(n - 1)}, n - 1);
    }
  }

  // ----- placement -----

  /** A valid batch whose holes are the listed rows. */
  ghost predicate Open(batch: Batch, rows: seq<nat>)
    reads batch.Repr()
  {
    batch.Valid() && Descending(rows) && ListsHoles(batch.reqIds, rows)
  }

  /** The lowest freed row first, the end of the batch once none is left. */
  method ChooseRow(batch: Batch, ghost r: ReqId, freed: seq<nat>) returns (at: nat, left: seq<nat>)
    requires Inverse(batch.reqIds, batch.index) && Descending(freed) && ListsHoles(batch.reqIds, freed)
    requires |batch.reqIds| <= batch.maxReqs && |batch.index| < batch.maxReqs
    ensures at <= |batch.reqIds| && at < batch.maxReqs && (at < |batch.reqIds| ==> batch.reqIds[at].None?)
    ensures Descending(left)
    ensures ListsHoles(Entered(batch.reqIds, at, r), left)
  {
    if freed == [] {
      HoleCount(batch.reqIds, batch.index, []);
      return |batch.index|, [];
    }
    FilledHole(batch.reqIds, freed, r);
    return freed[|freed| - 1], freed[..|freed| - 1];
  }

  method PlaceOne(batch: Batch, requests: map<ReqId, Request>, lists: OutputLists, r: ReqId, freed: seq<nat>)
    returns (left: seq<nat>)
    requires Open(batch, freed) && r !in batch.index && |batch.index| < batch.maxReqs
    requires Placeable(requests, lists, batch.maxModelLen, r)
    modifies batch.Repr()
    ensures Open(batch, left) && batch.index.Keys == old(batch.index).Keys + {r}
    ensures batch.views == old(batch.views)[r :=
              FreshView(requests[r], lists[requests[r].output], batch.sampling.vocab, batch.sampling.disableLogprobs)]
  {
    var at;
    batch.RowsFit();
    at, left := ChooseRow(batch, r, freed);
    batch.AddRequest(r, requests[r], lists[requests[r].output], at);
  }

  /** After placing `ids[..i]`: who holds a row, and what the rows hold. */
  ghost predicate Placing(keys: set<ReqId>, before: map<ReqId, RowView>, wanted: map<ReqId, RowView>, ids: seq<ReqId>, i: nat,
                          held: set<ReqId>, views: map<ReqId, RowView>) {
    i <= |ids| && held == keys + IdSet(ids[..i]) && |held| == |keys| + i && views == PlaceViews(before, wanted, ids[..i])
  }

  lemma PlacingNext(keys: set<ReqId>, before: map<ReqId, RowView>, wanted: map<ReqId, RowView>, ids: seq<ReqId>, i: nat,
                    held: set<ReqId>, views: map<ReqId, RowView>)
    requires Placing(keys, before, wanted, ids, i, held, views) && i < |ids|
    requires Distinct(ids) && wanted.Keys == IdSet(ids) && wanted.Keys !! keys
    ensures ids[i] !in held && ids[i] in wanted
    ensures Placing(keys, before, wanted, ids, i + 1, held + {ids[i]}, views[ids[i] := wanted[ids[i]]])
  {
    NextId(ids, i, keys);
  }

  lemma PlacingDone(keys: set<ReqId>, before: map<ReqId, RowView>, wanted: map<ReqId, RowView>, ids: seq<ReqId>, held: set<ReqId>,
                    views: map<ReqId, RowView>)
    requires Placing(keys, before, wanted, ids, |ids|, held, views) && wanted.Keys == IdSet(ids)
    ensures held == keys + IdSet(ids) && views == before + wanted
  {
    assert ids[..|ids|] == ids;
    PlacedViews(before, wanted, ids);
  }

  /** What placing the listed requests will enter for them. */
  ghost predicate Wanted(shape: Shape, requests: map<ReqId, Request>, lists: OutputLists, ids: seq<ReqId>, wanted: map<ReqId, RowView>) {
    && wanted.Keys == IdSet(ids)
    && (forall r :: r in wanted ==> Placeable(requests, lists, shape.maxModelLen, r))
    && forall r :: r in wanted ==>
         wanted[r] == FreshView(requests[r], lists[requests[r].output], shape.vocab, shape.disableLogprobs)
  }

  method PlaceAll(batch: Batch, requests: map<ReqId, Request>, lists: OutputLists, ids: seq<ReqId>, freed: seq<nat>,
                  ghost wanted: map<ReqId, RowView>)
    returns (left: seq<nat>)
    requires Open(batch, freed) && Distinct(ids) && |batch.index| + |ids| <= batch.maxReqs
    requires Wanted(ShapeOf(batch), requests, lists, ids, wanted) && wanted.Keys !! batch.index.Keys
    modifies batch.Repr()
    ensures Open(batch, left) && batch.index.Keys == old(batch.index).Keys + IdSet(ids)
    ensures batch.views == old(batch.views) + wanted
  {
    left := freed;
    ghost var views, keys := batch.views, batch.index.Keys;
    for i := 0 to |ids|
      invariant Open(batch, left)
      invariant Placing(keys, views, wanted, ids, i, batch.index.Keys, batch.views)
    {
      PlacingNext(keys, views, wanted, ids, i, batch.index.Keys, batch.views);
      left := PlaceOne(batch, requests, lists, ids[i], left);
    }
    PlacingDone(keys, views, wanted, ids, batch.index.Keys, batch.views);
  }

  function PlaceViews(views: map<ReqId, RowView>, wanted: map<ReqId, RowView>, ids: seq<ReqId>): map<ReqId, RowView> {
    if ids == [] then views
    else
      var k := |ids| - 1;
      var before := PlaceViews(views, wanted, ids[..k]);
      if ids[k] in wanted then before[ids[k] := wanted[ids[k]]] else before
  }

  lemma {:induction false} PlacedViews(views: map<ReqId, RowView>, wanted: map<ReqId, RowView>, ids: seq<ReqId>)
    requires IdSet(ids) <= wanted.Keys
    ensures PlaceViews(views, wanted, ids).Keys == views.Keys + IdSet(ids)
    ensures forall r :: r in views && r !in ids ==> PlaceViews(views, wanted, ids)[r] == views[r]
    ensures forall r :: r in ids ==> PlaceViews(views, wanted, ids)[r] == wanted[r]
    ensures wanted.Keys == IdSet(ids) ==> PlaceViews(views, wanted, ids) == views + wanted
  {
    if ids != [] {
      var k := |ids| - 1;
      assert ids == ids[..k] + [ids[k]];
      assert IdSet(ids) == IdSet(ids[..k]) + {ids[k]};
      PlacedViews(views, wanted, ids[..k]);
    }
  }

  lemma NextId(ids: seq<ReqId>, i: nat, keys: set<ReqId>)
    requires Distinct(ids) && i < |ids| && ids[i] !in keys
    ensures ids[..i + 1][..i] == ids[..i] && ids[..i + 1][i] == ids[i] && |ids[..i + 1]| == i + 1
    ensures IdSet(ids[..i + 1]) == IdSet(ids[..i]) + {ids[i]} && ids[i] !in IdSet(ids[..i]) && ids[i] in IdSet(ids)
    ensures |keys + IdSet(ids[..i]) + {ids[i]}| == |keys + IdSet(ids[..i])| + 1
    ensures keys + IdSet(ids[..i]) + {ids[i]} == keys + IdSet(ids[..i + 1])
  {
    assert ids[..i + 1] == ids[..i] + [ids[i]];
  }

  /** Filling the lowest listed hole leaves the others listed. */
  lemma FilledHole(reqIds: seq<Option<ReqId>>, rows: seq<nat>, r: ReqId)
    requires Descending(rows) && ListsHoles(reqIds, rows) && rows != []
    ensures var k := |rows| - 1;
            rows[k] < |reqIds| && reqIds[rows[k]].None? && ListsHoles(reqIds[rows[k] := Some(r)], rows[..k])
  {
    var k := |rows| - 1;
    assert rows[k] in rows;
    assert rows == rows[..k] + [rows[k]];
    assert forall i :: 0 <= i < k ==> rows[i] in rows && rows[i] != rows[k];
  }

  /** The order a set difference is walked in is not specified. */
  method Enumerate(ids: set<ReqId>) returns (order: seq<ReqId>)
    ensures IdSet(order) == ids
  {
    order := [];
    var rest := ids;
    while rest != {}
      invariant IdSet(order) + rest == ids
      decreases rest
    {
      var r :| r in rest;
      assert IdSet(order + [r]) == IdSet(order) + {r};
      order, rest := order + [r], rest - {r};
    }
  }

  lemma DroppedNext<V, W>(views: map<ReqId, V>, index: map<ReqId, W>, ids: seq<ReqId>, i: nat)
    requires i < |ids|
    ensures views - IdSet(ids[..i]) - {ids[i]} == views - IdSet(ids[..i + 1])
    ensures index - IdSet(ids[..i]) - {ids[i]} == index - IdSet(ids[..i + 1])
    ensures ids[i] !in index - IdSet(ids[..i]) ==> index - IdSet(ids[..i]) == index - IdSet(ids[..i + 1])
    ensures ids[i] in index - IdSet(ids[..i]) ==> index - IdSet(ids[..i + 1]) != index
  {
    assert ids[..i + 1] == ids[..i] + [ids[i]];
    assert IdSet(ids[..i + 1]) == IdSet(ids[..i]) + {ids[i]};
    if ids[i] in index - IdSet(ids[..i]) {
      assert ids[i] in index && ids[i] !in index - IdSet(ids[..i + 1]);
    }
  }

  lemma RemovedHole(reqIds: seq<Option<ReqId>>, rows: seq<nat>, row: nat)
    requires HolesAre(reqIds, rows) && row < |reqIds| && reqIds[row].Some?
    ensures HolesAre(reqIds[row := None], rows + [row])
  {
    forall e | e in rows + [row] ensures e in rows || e == row {}
    assert forall e :: e in rows ==> e in rows + [row];
    assert (rows + [row])[|rows|] == row;
    assert forall i :: 0 <= i < |rows| ==> rows[i] in rows;
  }
}
