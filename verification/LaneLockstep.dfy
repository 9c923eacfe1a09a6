/**
 One lane step on both sides: the coordinator builds a plan, the lane batch applies it. Both go
 through the same scheduler output on their own, and have to come out with the same rows and the same
 layout flag.
 */
module LaneLockstep {
  import opened Runtime
  import opened LaneSlots

  /** The merged scheduler output. `cached` lists running and resumed requests. */
  datatype Merged = Merged(finished: seq<ReqId>, preempted: seq<ReqId>, newReqs: seq<ReqId>, cached: seq<ReqId>, resumed: set<ReqId>,
                           scheduled: seq<ReqId>, lane: map<ReqId, nat>)

  function IdSet(ids: seq<ReqId>): set<ReqId> {
    set r | r in ids
  }

  // ----- the coordinator's half -----

  /** Releases in order; the flag says whether any of them held a row. */
  function ReleasedAll(g: Geometry, c: Coordinator, ids: seq<ReqId>): (Coordinator, bool)
    requires g.perLane > 0
  {
    if ids == [] then (c, false)
    else
      var n := |ids| - 1;
      var (before, changed) := ReleasedAll(g, c, ids[..n]);
      (Released(g, before, ids[n]), changed || ids[n] in before.rowOf)
  }

  /** One scheduled request: its lane is recorded, then it gets a slot there. None is a raise. */
  function AssignedNext(g: Geometry, c: Coordinator, r: ReqId, lane: map<ReqId, nat>): Option<Coordinator> {
    if r in lane then Assigned(g, c.(laneOf := c.laneOf[r := lane[r]]), r, lane[r])
    else if r in c.laneOf then Assigned(g, c, r, c.laneOf[r])
    else None
  }

  function AssignedAll(g: Geometry, c: Coordinator, ids: seq<ReqId>, lane: map<ReqId, nat>): Option<(Coordinator, bool)> {
    if ids == [] then Some((c, false))
    else
      var n := |ids| - 1;
      match AssignedAll(g, c, ids[..n], lane)
      case None => None
      case Some((before, changed)) =>
        match AssignedNext(g, before, ids[n], lane)
        case None => None
        case Some(after) => Some((after, changed || ids[n] !in before.rowOf))
  }

  /** `_build_step_plan` up to the finished rows; `resumed` is in whatever order the set is walked. */
  function Planned(g: Geometry, c: Coordinator, m: Merged, resumed: seq<ReqId>): Option<(Coordinator, bool)>
    requires g.perLane > 0
  {
    var (a, first) := ReleasedAll(g, c, m.finished);
    var (b, second) := ReleasedAll(g, a.(laneOf := a.laneOf - IdSet(m.finished)), m.preempted);
    var (d, third) := ReleasedAll(g, b, resumed);
    match AssignedAll(g, d, m.scheduled, m.lane)
    case None => None
    case Some((e, fourth)) => Some((e, first || second || third || fourth))
  }

  lemma {:induction false} ReleasedAllKeeps(g: Geometry, c: Coordinator, ids: seq<ReqId>)
    requires CoordOk(g, c)
    ensures var (after, changed) := ReleasedAll(g, c, ids);
            && CoordOk(g, after) && after.rowOf == c.rowOf - IdSet(ids) && after.laneOf == c.laneOf
            && (changed <==> exists r :: r in ids && r in c.rowOf)
  {
    if ids == [] {
      assert c.rowOf - IdSet(ids) == c.rowOf;
    } else {
      var n := |ids| - 1;
      assert ids == ids[..n] + [ids[n]];
      ReleasedAllKeeps(g, c, ids[..n]);
      var before := ReleasedAll(g, c, ids[..n]).0;
      ReleaseKeeps(g, before, ids[n]);
      assert IdSet(ids) == IdSet(ids[..n]) + {ids[n]};
      assert c.rowOf - IdSet(ids[..n]) - {ids[n]} == c.rowOf - IdSet(ids);
      if ids[n] in c.rowOf && ids[n] !in before.rowOf { assert ids[n] in ids[..n]; }
    }
  }

  lemma AssignedNextKeeps(g: Geometry, c: Coordinator, r: ReqId, lane: map<ReqId, nat>)
    requires CoordOk(g, c) && AssignedNext(g, c, r, lane).Some?
    ensures var after := AssignedNext(g, c, r, lane).value;
            CoordOk(g, after) && after.rowOf.Keys == c.rowOf.Keys + {r} && forall q :: q in c.rowOf ==> after.rowOf[q] == c.rowOf[q]
  {
    if r in lane {
      AssignKeeps(g, c.(laneOf := c.laneOf[r := lane[r]]), r, lane[r]);
    } else {
      AssignKeeps(g, c, r, c.laneOf[r]);
    }
  }

  /** Rows once assigned stay; every scheduled request ends up with one, and the flag is set exactly
      when one of them had none. */
  lemma AssignedAllKeeps(g: Geometry, c: Coordinator, ids: seq<ReqId>, lane: map<ReqId, nat>)
    requires CoordOk(g, c) && AssignedAll(g, c, ids, lane).Some?
    ensures var (after, changed) := AssignedAll(g, c, ids, lane).value;
            && CoordOk(g, after) && after.rowOf.Keys == c.rowOf.Keys + IdSet(ids)
            && (forall r :: r in c.rowOf ==> after.rowOf[r] == c.rowOf[r])
            && (changed <==> !(IdSet(ids) <= c.rowOf.Keys))
  {
    AssignedAllRows(g, c, ids, lane);
    AssignedAllFlag(g, c, ids, lane);
  }

  lemma {:induction false} AssignedAllRows(g: Geometry, c: Coordinator, ids: seq<ReqId>, lane: map<ReqId, nat>)
    requires CoordOk(g, c) && AssignedAll(g, c, ids, lane).Some?
    ensures var after := AssignedAll(g, c, ids, lane).value.0;
            && CoordOk(g, after) && after.rowOf.Keys == c.rowOf.Keys + IdSet(ids)
            && forall r :: r in c.rowOf ==> after.rowOf[r] == c.rowOf[r]
  {
    if ids != [] {
      var n := |ids| - 1;
      AssignedAllRows(g, c, ids[..n], lane);
      AssignedNextKeeps(g, AssignedAll(g, c, ids[..n], lane).value.0, ids[n], lane);
      IdSetLast(ids);
    }
  }

  lemma {:induction false} AssignedAllFlag(g: Geometry, c: Coordinator, ids: seq<ReqId>, lane: map<ReqId, nat>)
    requires CoordOk(g, c) && AssignedAll(g, c, ids, lane).Some?
    ensures AssignedAll(g, c, ids, lane).value.1 <==> !(IdSet(ids) <= c.rowOf.Keys)
  {
    if ids != [] {
      var n := |ids| - 1;
      AssignedAllFlag(g, c, ids[..n], lane);
      AssignedAllRows(g, c, ids[..n], lane);
      IdSetLast(ids);
    }
  }

  lemma IdSetLast(ids: seq<ReqId>)
    requires ids != []
    ensures var n := |ids| - 1;
            IdSet(ids) == IdSet(ids[..n]) + {ids[n]} && (Distinct(ids) ==> ids[n] !in IdSet(ids[..n]))
  {
    var n := |ids| - 1;
    assert ids == ids[..n] + [ids[n]];
  }

  /** The requests of a step that need a slot of a lane. */
  ghost function Newcomers(ids: seq<ReqId>, lane: map<ReqId, nat>, rowOf: map<ReqId, nat>, l: nat): set<ReqId> {
    set r | r in ids && r !in rowOf && r in lane && lane[r] == l
  }

  /** A plan never runs out of slots while every lane's holders and newcomers fit the lane. */
  lemma {:induction false} AdmissionSuffices(g: Geometry, c: Coordinator, ids: seq<ReqId>, lane: map<ReqId, nat>)
    requires CoordOk(g, c) && (forall r :: r in ids ==> r in lane && lane[r] < g.lanes)
    requires forall l :: 0 <= l < g.lanes ==> |Holders(g, c.rowOf, l) + Newcomers(ids, lane, c.rowOf, l)| <= g.perLane
    ensures AssignedAll(g, c, ids, lane).Some?
    ensures var after := AssignedAll(g, c, ids, lane).value.0;
            && CoordOk(g, after)
            && forall l: nat :: Holders(g, after.rowOf, l) == Holders(g, c.rowOf, l) + Newcomers(ids, lane, c.rowOf, l)
  {
    if ids == [] {
      forall l: nat ensures Newcomers(ids, lane, c.rowOf, l) == {} {}
    } else {
      var n := |ids| - 1;
      var r := ids[n];
      IdSetLast(ids);
      NewcomersFit(g, c, ids, lane);
      AdmissionSuffices(g, c, ids[..n], lane);
      AssignedAllKeeps(g, c, ids[..n], lane);
      var before := AssignedAll(g, c, ids[..n], lane).value.0;
      NewcomerFits(g, c, before, ids, lane);
      var bound := before.(laneOf := before.laneOf[r := lane[r]]);
      AssignSucceedsExactly(g, bound, r, lane[r]);
      AssignedNextKeeps(g, before, r, lane);
      AssignKeeps(g, bound, r, lane[r]);
      HoldersNext(g, c, before, AssignedNext(g, before, r, lane).value, ids, lane);
    }
  }

  lemma NewcomersFit(g: Geometry, c: Coordinator, ids: seq<ReqId>, lane: map<ReqId, nat>)
    requires CoordOk(g, c) && ids != []
    requires forall l :: 0 <= l < g.lanes ==> |Holders(g, c.rowOf, l) + Newcomers(ids, lane, c.rowOf, l)| <= g.perLane
    ensures forall l :: 0 <= l < g.lanes ==> |Holders(g, c.rowOf, l) + Newcomers(ids[..|ids| - 1], lane, c.rowOf, l)| <= g.perLane
  {
    forall l | 0 <= l < g.lanes ensures |Holders(g, c.rowOf, l) + Newcomers(ids[..|ids| - 1], lane, c.rowOf, l)| <= g.perLane {
      SubsetCount(Holders(g, c.rowOf, l) + Newcomers(ids[..|ids| - 1], lane, c.rowOf, l),
                  Holders(g, c.rowOf, l) + Newcomers(ids, lane, c.rowOf, l));
    }
  }

  lemma {:induction false} SubsetCount<T>(a: set<T>, b: set<T>)
    requires a <= b
    ensures |a| <= |b| && (a != b ==> |a| < |b|)
  {
    assert b == a + (b - a) && |b| == |a| + |b - a|;
  }

  lemma NewcomerFits(g: Geometry, c: Coordinator, before: Coordinator, ids: seq<ReqId>, lane: map<ReqId, nat>)
    requires CoordOk(g, c) && ids != [] && ids[|ids| - 1] in lane && lane[ids[|ids| - 1]] < g.lanes
    requires forall l :: 0 <= l < g.lanes ==> |Holders(g, c.rowOf, l) + Newcomers(ids, lane, c.rowOf, l)| <= g.perLane
    requires before.rowOf.Keys == c.rowOf.Keys + IdSet(ids[..|ids| - 1])
    requires forall l: nat :: Holders(g, before.rowOf, l) == Holders(g, c.rowOf, l) + Newcomers(ids[..|ids| - 1], lane, c.rowOf, l)
    ensures var r := ids[|ids| - 1]; r in before.rowOf || |Holders(g, before.rowOf, lane[r])| < g.perLane
  {
    var r := ids[|ids| - 1];
    var l := lane[r];
    IdSetLast(ids);
    if r !in before.rowOf {
      assert r in Newcomers(ids, lane, c.rowOf, l) && r !in Holders(g, before.rowOf, l);
      assert Newcomers(ids[..|ids| - 1], lane, c.rowOf, l) <= Newcomers(ids, lane, c.rowOf, l);
      SubsetCount(Holders(g, before.rowOf, l), Holders(g, c.rowOf, l) + Newcomers(ids, lane, c.rowOf, l));
    }
  }

  lemma HoldersNext(g: Geometry, c: Coordinator, before: Coordinator, after: Coordinator, ids: seq<ReqId>, lane: map<ReqId, nat>)
    requires CoordOk(g, c) && ids != [] && ids[|ids| - 1] in lane
    requires before.rowOf.Keys == c.rowOf.Keys + IdSet(ids[..|ids| - 1])
    requires forall l: nat :: Holders(g, before.rowOf, l) == Holders(g, c.rowOf, l) + Newcomers(ids[..|ids| - 1], lane, c.rowOf, l)
    requires after.rowOf.Keys == before.rowOf.Keys + {ids[|ids| - 1]}
    requires forall q :: q in before.rowOf ==> after.rowOf[q] == before.rowOf[q]
    requires var r := ids[|ids| - 1]; r !in before.rowOf ==> LaneOf(g, after.rowOf[r]) == lane[r]
    ensures forall l: nat :: Holders(g, after.rowOf, l) == Holders(g, c.rowOf, l) + Newcomers(ids, lane, c.rowOf, l)
  {
    var r := ids[|ids| - 1];
    IdSetLast(ids);
    forall l: nat ensures Holders(g, after.rowOf, l) == Holders(g, c.rowOf, l) + Newcomers(ids, lane, c.rowOf, l) {
      var was, now := Newcomers(ids[..|ids| - 1], lane, c.rowOf, l), Newcomers(ids, lane, c.rowOf, l);
      assert forall q :: q in ids <==> q in IdSet(ids);
      var earlier := ids[..|ids| - 1];
      assert forall q :: q in earlier <==> q in IdSet(earlier);
      forall q ensures q in Holders(g, after.rowOf, l) <==> q in Holders(g, c.rowOf, l) + now {
        assert q in Holders(g, before.rowOf, l) <==> q in Holders(g, c.rowOf, l) + was;
      }
    }
  }

  // ----- the batch's half -----

  /** What the model and the row see: a release hook called with the row, a request placed on it. */
  datatype Entry = Freed(row: nat) | Placed(row: nat, r: ReqId)

  datatype Batch = Batch(reqIds: seq<Option<ReqId>>, index: map<ReqId, nat>, log: seq<Entry>)

  datatype LaneError = NoRowToRelease | RowOutOfRange | RowOccupied | UnknownRow

  /** Who a row's log says is on it. */
  function Occupant(log: seq<Entry>, row: nat): Option<ReqId> {
    if log == [] then None
    else
      var last := log[|log| - 1];
      if last.row != row then Occupant(log[..|log| - 1], row) else if last.Placed? then Some(last.r) else None
  }

  /** Nobody is ever placed on a row that was not released. */
  predicate Alternates(log: seq<Entry>) {
    log == [] ||
    (Alternates(log[..|log| - 1])
     && (log[|log| - 1].Placed? ==> Occupant(log[..|log| - 1], log[|log| - 1].row).None?))
  }

  ghost predicate LogOk(b: Batch) {
    Alternates(b.log) && forall i :: 0 <= i < |b.reqIds| ==> Occupant(b.log, i) == b.reqIds[i]
  }

  lemma LogAppend(b: Batch, reqIds: seq<Option<ReqId>>, entry: Entry)
    requires LogOk(b) && entry.row < |b.reqIds| && (entry.Placed? ==> b.reqIds[entry.row].None?)
    requires reqIds == b.reqIds[entry.row := if entry.Placed? then Some(entry.r) else None]
    ensures forall index :: LogOk(Batch(reqIds, index, b.log + [entry]))
  {
    var log := b.log + [entry];
    assert log[..|log| - 1] == b.log;
  }

  ghost predicate BatchOk(g: Geometry, b: Batch) {
    && LogOk(b)
    && |b.reqIds| == g.lanes * g.perLane
    && (forall r :: r in b.index ==> b.index[r] < |b.reqIds| && b.reqIds[b.index[r]] == Some(r))
    && (forall i :: 0 <= i < |b.reqIds| && b.reqIds[i].Some? ==> b.reqIds[i].value in b.index && b.index[b.reqIds[i].value] == i)
  }

  /** `_free_row`: the hook first, while the request still holds the row. */
  function FreedRow(b: Batch, r: ReqId): Batch {
    if r !in b.index || b.index[r] >= |b.reqIds| then b
    else Batch(b.reqIds[b.index[r] := None], b.index - {r}, b.log + [Freed(b.index[r])])
  }

  function FreedAll(b: Batch, ids: seq<ReqId>): (Batch, bool) {
    if ids == [] then (b, false)
    else
      var n := |ids| - 1;
      var (before, changed) := FreedAll(b, ids[..n]);
      (FreedRow(before, ids[n]), changed || ids[n] in before.index)
  }

  /** Preempted requests have to hold a row. */
  function FreedPreempted(b: Batch, ids: seq<ReqId>): Result<Batch, LaneError> {
    if ids == [] then Ok(b)
    else
      var n := |ids| - 1;
      match FreedPreempted(b, ids[..n])
      case Err(e) => Err(e)
      case Ok(before) => if ids[n] in before.index then Ok(FreedRow(before, ids[n])) else Err(NoRowToRelease)
  }

  /** The batch while it goes through the cached requests, and who is to be placed. */
  datatype Through = Through(batch: Batch, toAdd: seq<ReqId>, changed: bool)

  /** A resume gives its row up; whoever is without one is to be placed. */
  function ThroughNext(t: Through, r: ReqId, resumed: set<ReqId>): Through {
    if r in resumed then Through(FreedRow(t.batch, r), t.toAdd + [r], t.changed || r in t.batch.index)
    else if r in t.batch.index then t
    else t.(toAdd := t.toAdd + [r])
  }

  function ThroughCached(b: Batch, cached: seq<ReqId>, resumed: set<ReqId>): Through {
    if cached == [] then Through(b, [], false)
    else ThroughNext(ThroughCached(b, cached[..|cached| - 1], resumed), cached[|cached| - 1], resumed)
  }

  /** `add_request_to_row` at the row the plan names. */
  function PlacedAt(b: Batch, r: ReqId, rowOf: map<ReqId, nat>): Result<Batch, LaneError> {
    if r !in rowOf then Err(UnknownRow)
    else if rowOf[r] >= |b.reqIds| then Err(RowOutOfRange)
    else if b.reqIds[rowOf[r]].Some? && b.reqIds[rowOf[r]] != Some(r) then Err(RowOccupied)
    else Ok(Batch(b.reqIds[rowOf[r] := Some(r)], b.index[r := rowOf[r]], b.log + [Placed(rowOf[r], r)]))
  }

  function PlacedAll(b: Batch, ids: seq<ReqId>, rowOf: map<ReqId, nat>): Result<Batch, LaneError> {
    if ids == [] then Ok(b)
    else
      var n := |ids| - 1;
      match PlacedAll(b, ids[..n], rowOf)
      case Err(e) => Err(e)
      case Ok(before) => PlacedAt(before, ids[n], rowOf)
  }

  /** `apply_step_plan`. */
  function Applied(b: Batch, m: Merged, rowOf: map<ReqId, nat>): Result<(Batch, bool), LaneError> {
    var (a, first) := FreedAll(b, m.finished);
    match FreedPreempted(a, m.preempted)
    case Err(e) => Err(e)
    case Ok(p) =>
      var t := ThroughCached(p, m.cached, m.resumed);
      match PlacedAll(t.batch, m.newReqs + t.toAdd, rowOf)
      case Err(e) => Err(e)
      case Ok(e) => Ok((e, first || m.preempted != [] || t.changed || m.newReqs + t.toAdd != []))
  }

  lemma FreedRowKeeps(g: Geometry, b: Batch, r: ReqId)
    requires BatchOk(g, b)
    ensures BatchOk(g, FreedRow(b, r)) && FreedRow(b, r).index == b.index - {r}
  {
    if r !in b.index {
      assert b.index - {r} == b.index;
    } else {
      assert forall q :: q in b.index && q != r ==> b.reqIds[b.index[q]] == Some(q);
      LogAppend(b, FreedRow(b, r).reqIds, Freed(b.index[r]));
    }
  }

  lemma PlacedAtKeeps(g: Geometry, b: Batch, r: ReqId, rowOf: map<ReqId, nat>)
    requires BatchOk(g, b) && r in rowOf && r !in b.index && rowOf[r] < g.lanes * g.perLane && Injective(rowOf)
    requires Within(b.index, rowOf)
    ensures PlacedAt(b, r, rowOf).Ok? && BatchOk(g, PlacedAt(b, r, rowOf).value)
    ensures PlacedAt(b, r, rowOf).value.index == b.index[r := rowOf[r]]
  {
    assert b.reqIds[rowOf[r]].None?;
    LogAppend(b, b.reqIds[rowOf[r] := Some(r)], Placed(rowOf[r], r));
  }

  lemma WithoutOneMore(index: map<ReqId, nat>, ids: seq<ReqId>)
    requires ids != []
    ensures var n := |ids| - 1; index - IdSet(ids[..n]) - {ids[n]} == index - IdSet(ids)
  {
    IdSetLast(ids);
  }

  lemma {:induction false} FreedAllIndex(g: Geometry, b: Batch, ids: seq<ReqId>)
    requires BatchOk(g, b)
    ensures BatchOk(g, FreedAll(b, ids).0) && FreedAll(b, ids).0.index == b.index - IdSet(ids)
  {
    if ids == [] {
      assert b.index - IdSet(ids) == b.index;
    } else {
      var n := |ids| - 1;
      FreedAllIndex(g, b, ids[..n]);
      FreedRowKeeps(g, FreedAll(b, ids[..n]).0, ids[n]);
      WithoutOneMore(b.index, ids);
    }
  }

  lemma {:induction false} FreedAllFlag(g: Geometry, b: Batch, ids: seq<ReqId>)
    requires BatchOk(g, b)
    ensures FreedAll(b, ids).1 <==> exists r :: r in ids && r in b.index
  {
    if ids != [] {
      var n := |ids| - 1;
      assert ids == ids[..n] + [ids[n]];
      FreedAllFlag(g, b, ids[..n]);
      FreedAllIndex(g, b, ids[..n]);
    }
  }

  lemma FreedAllKeeps(g: Geometry, b: Batch, ids: seq<ReqId>)
    requires BatchOk(g, b)
    ensures var (after, changed) := FreedAll(b, ids);
            && BatchOk(g, after) && after.index == b.index - IdSet(ids) && (changed <==> exists r :: r in ids && r in b.index)
  {
    FreedAllIndex(g, b, ids);
    FreedAllFlag(g, b, ids);
  }

  lemma {:induction false} FreedPreemptedKeeps(g: Geometry, b: Batch, ids: seq<ReqId>)
    requires BatchOk(g, b) && Distinct(ids) && IdSet(ids) <= b.index.Keys
    ensures FreedPreempted(b, ids).Ok? && BatchOk(g, FreedPreempted(b, ids).value)
    ensures FreedPreempted(b, ids).value.index == b.index - IdSet(ids)
  {
    if ids == [] {
      assert b.index - IdSet(ids) == b.index;
    } else {
      var n := |ids| - 1;
      IdSetLast(ids);
      FreedPreemptedKeeps(g, b, ids[..n]);
      FreedRowKeeps(g, FreedPreempted(b, ids[..n]).value, ids[n]);
      WithoutOneMore(b.index, ids);
    }
  }

  /** The state after the cached requests `ids`. */
  ghost predicate ThroughOk(g: Geometry, b: Batch, t: Through, ids: set<ReqId>, resumed: set<ReqId>) {
    && BatchOk(g, t.batch) && t.batch.index == b.index - (ids * resumed)
    && Distinct(t.toAdd) && IdSet(t.toAdd) == ids - t.batch.index.Keys
    && (t.changed ==> t.toAdd != [])
  }

  lemma AddedOnce(ids: seq<ReqId>, r: ReqId)
    requires Distinct(ids) && r !in IdSet(ids)
    ensures Distinct(ids + [r]) && IdSet(ids + [r]) == IdSet(ids) + {r}
  {
    assert (ids + [r])[..|ids|] == ids;
    IdSetLast(ids + [r]);
  }

  lemma ThroughResumed(g: Geometry, b: Batch, t: Through, ids: set<ReqId>, resumed: set<ReqId>, r: ReqId)
    requires ThroughOk(g, b, t, ids, resumed) && r !in ids && r in resumed
    ensures ThroughOk(g, b, ThroughNext(t, r, resumed), ids + {r}, resumed)
  {
    FreedRowKeeps(g, t.batch, r);
    AddedOnce(t.toAdd, r);
    assert b.index - (ids * resumed) - {r} == b.index - ((ids + {r}) * resumed);
  }

  lemma ThroughKept(g: Geometry, b: Batch, t: Through, ids: set<ReqId>, resumed: set<ReqId>, r: ReqId)
    requires ThroughOk(g, b, t, ids, resumed) && r !in ids && r !in resumed
    ensures ThroughOk(g, b, ThroughNext(t, r, resumed), ids + {r}, resumed)
  {
    AddedOnce(t.toAdd, r);
    assert ids * resumed == (ids + {r}) * resumed;
  }

  lemma ThroughNextKeeps(g: Geometry, b: Batch, t: Through, ids: set<ReqId>, resumed: set<ReqId>, r: ReqId)
    requires ThroughOk(g, b, t, ids, resumed) && r !in ids
    ensures ThroughOk(g, b, ThroughNext(t, r, resumed), ids + {r}, resumed)
  {
    if r in resumed {
      ThroughResumed(g, b, t, ids, resumed, r);
    } else {
      ThroughKept(g, b, t, ids, resumed, r);
    }
  }

  /** Who is to be placed: the resumed, and the cached without a row. */
  lemma {:induction false} ThroughCachedKeeps(g: Geometry, b: Batch, cached: seq<ReqId>, resumed: set<ReqId>)
    requires BatchOk(g, b) && Distinct(cached)
    ensures ThroughOk(g, b, ThroughCached(b, cached, resumed), IdSet(cached), resumed)
  {
    if cached == [] {
      assert b.index - (IdSet(cached) * resumed) == b.index;
    } else {
      var n := |cached| - 1;
      ThroughCachedKeeps(g, b, cached[..n], resumed);
      IdSetLast(cached);
      ThroughNextKeeps(g, b, ThroughCached(b, cached[..n], resumed), IdSet(cached[..n]), resumed, cached[n]);
    }
  }

  /** The batch agrees with the plan wherever it holds anybody. */
  ghost predicate Within(index: map<ReqId, nat>, rowOf: map<ReqId, nat>) {
    forall r :: r in index ==> r in rowOf && index[r] == rowOf[r]
  }

  lemma PlacedNextKeeps(g: Geometry, b: Batch, before: Batch, placed: set<ReqId>, r: ReqId, rowOf: map<ReqId, nat>)
    requires BatchOk(g, before) && before.index.Keys == b.index.Keys + placed && Within(before.index, rowOf)
    requires r in rowOf && r !in placed && r !in b.index
    requires Injective(rowOf) && (forall q :: q in rowOf ==> rowOf[q] < g.lanes * g.perLane)
    ensures PlacedAt(before, r, rowOf).Ok? && BatchOk(g, PlacedAt(before, r, rowOf).value)
    ensures PlacedAt(before, r, rowOf).value.index.Keys == b.index.Keys + (placed + {r})
    ensures Within(PlacedAt(before, r, rowOf).value.index, rowOf)
  {
    PlacedAtKeeps(g, before, r, rowOf);
  }

  /** Placements of rowless requests at rows of an injective plan that extends the batch never collide. */
  lemma {:induction false} PlacedAllKeeps(g: Geometry, b: Batch, ids: seq<ReqId>, rowOf: map<ReqId, nat>)
    requires BatchOk(g, b) && Distinct(ids) && IdSet(ids) !! b.index.Keys && IdSet(ids) <= rowOf.Keys
    requires Injective(rowOf) && (forall r :: r in rowOf ==> rowOf[r] < g.lanes * g.perLane)
    requires Within(b.index, rowOf)
    ensures PlacedAll(b, ids, rowOf).Ok? && BatchOk(g, PlacedAll(b, ids, rowOf).value)
    ensures var after := PlacedAll(b, ids, rowOf).value; after.index.Keys == b.index.Keys + IdSet(ids) && Within(after.index, rowOf)
  {
    if ids != [] {
      var n := |ids| - 1;
      IdSetLast(ids);
      PlacedAllKeeps(g, b, ids[..n], rowOf);
      PlacedNextKeeps(g, b, PlacedAll(b, ids[..n], rowOf).value, IdSet(ids[..n]), ids[n], rowOf);
    }
  }

  // ----- both halves -----

  /** What the scheduler guarantees. A finished id may come back as a new request in the same step. */
  ghost predicate Legal(c: Coordinator, m: Merged, resumed: seq<ReqId>) {
    && Distinct(m.newReqs) && Distinct(m.cached) && IdSet(m.newReqs) !! IdSet(m.cached)
    && IdSet(m.scheduled) == IdSet(m.newReqs) + IdSet(m.cached)
    && IdSet(resumed) == m.resumed && m.resumed <= IdSet(m.cached)
    // A new request holds no row; a preempted one does.
    && (forall r :: r in m.newReqs && r in c.rowOf ==> r in m.finished || r in m.preempted)
    && Distinct(m.preempted) && IdSet(m.preempted) <= c.rowOf.Keys && IdSet(m.preempted) !! IdSet(m.finished)
  }

  /** The rows both sides keep while they release. */
  function Surviving(rowOf: map<ReqId, nat>, m: Merged): map<ReqId, nat> {
    rowOf - IdSet(m.finished) - IdSet(m.preempted) - m.resumed
  }

  /** Some request gains or gives up a row. */
  predicate Stirs(rowOf: map<ReqId, nat>, m: Merged) {
    Surviving(rowOf, m) != rowOf || !(IdSet(m.scheduled) <= Surviving(rowOf, m).Keys)
  }

  lemma PlannedKeeps(g: Geometry, c: Coordinator, m: Merged, resumed: seq<ReqId>)
    requires CoordOk(g, c) && IdSet(resumed) == m.resumed && Planned(g, c, m, resumed).Some?
    ensures var (after, changed) := Planned(g, c, m, resumed).value;
            && CoordOk(g, after) && after.rowOf.Keys == Surviving(c.rowOf, m).Keys + IdSet(m.scheduled)
            && (forall r :: r in Surviving(c.rowOf, m) ==> after.rowOf[r] == c.rowOf[r])
            && (changed <==> Stirs(c.rowOf, m))
  {
    var (a, first) := ReleasedAll(g, c, m.finished);
    ReleasedAllKeeps(g, c, m.finished);
    var bound := a.(laneOf := a.laneOf - IdSet(m.finished));
    var (b, second) := ReleasedAll(g, bound, m.preempted);
    ReleasedAllKeeps(g, bound, m.preempted);
    var (d, third) := ReleasedAll(g, b, resumed);
    ReleasedAllKeeps(g, b, resumed);
    AssignedAllKeeps(g, d, m.scheduled, m.lane);
    SurvivingExactly(c.rowOf, m, resumed, first, second, third);
  }

  lemma SurvivingExactly(rowOf: map<ReqId, nat>, m: Merged, resumed: seq<ReqId>, first: bool, second: bool, third: bool)
    requires first <==> exists r :: r in m.finished && r in rowOf
    requires second <==> exists r :: r in m.preempted && r in rowOf - IdSet(m.finished)
    requires third <==> exists r :: r in resumed && r in rowOf - IdSet(m.finished) - IdSet(m.preempted)
    requires IdSet(resumed) == m.resumed
    ensures (first || second || third) <==> Surviving(rowOf, m) != rowOf
  {
    if !(first || second || third) {
      assert forall r :: r in rowOf ==> r in rowOf - IdSet(m.finished);
      assert forall r :: r in rowOf ==> r in rowOf - IdSet(m.finished) - IdSet(m.preempted);
      assert forall r :: r in rowOf ==> r in Surviving(rowOf, m);
    } else {
      if first {
        var r :| r in m.finished && r in rowOf;
        assert r !in Surviving(rowOf, m);
      } else if second {
        var r :| r in m.preempted && r in rowOf - IdSet(m.finished);
        assert r in rowOf && r !in Surviving(rowOf, m);
      } else {
        var r :| r in resumed && r in rowOf - IdSet(m.finished) - IdSet(m.preempted);
        assert r in IdSet(resumed) && r in rowOf && r !in Surviving(rowOf, m);
      }
    }
  }

  /** The batch applies any plan the coordinator makes without an error, ends with the coordinator's
      rows, and raises the same layout flag. */
  lemma Lockstep(g: Geometry, c: Coordinator, b: Batch, m: Merged, resumed: seq<ReqId>)
    requires CoordOk(g, c) && BatchOk(g, b) && b.index == c.rowOf && Legal(c, m, resumed) && Planned(g, c, m, resumed).Some?
    ensures var (planned, flag) := Planned(g, c, m, resumed).value;
            && CoordOk(g, planned) && Applied(b, m, planned.rowOf).Ok?
            && var (applied, changed) := Applied(b, m, planned.rowOf).value;
               BatchOk(g, applied) && applied.index == planned.rowOf && changed == flag
  {
    var (planned, flag) := Planned(g, c, m, resumed).value;
    PlannedKeeps(g, c, m, resumed);
    var (a, first) := FreedAll(b, m.finished);
    FreedAllKeeps(g, b, m.finished);
    FreedPreemptedKeeps(g, a, m.preempted);
    var p := FreedPreempted(a, m.preempted).value;
    ThroughCachedKeeps(g, p, m.cached, m.resumed);
    var t := ThroughCached(p, m.cached, m.resumed);
    ThroughSurvives(c.rowOf, m, p.index, t.batch.index);
    ToPlace(c, m, resumed, t.batch.index, t.toAdd);
    PlacedAllKeeps(g, t.batch, m.newReqs + t.toAdd, planned.rowOf);
    var e := PlacedAll(t.batch, m.newReqs + t.toAdd, planned.rowOf).value;
    SameRows(e.index, planned.rowOf);
    LockstepFlag(c, m, resumed, planned, flag, p, t, first);
  }

  /** The batch's own flag is the plan's. */
  lemma LockstepFlag(c: Coordinator, m: Merged, resumed: seq<ReqId>, planned: Coordinator, flag: bool, p: Batch, t: Through, first: bool)
    requires Legal(c, m, resumed) && (first <==> exists r :: r in m.finished && r in c.rowOf) && (t.changed ==> t.toAdd != [])
    requires p.index == c.rowOf - IdSet(m.finished) - IdSet(m.preempted) && (flag <==> Stirs(c.rowOf, m))
    requires IdSet(m.newReqs + t.toAdd) == IdSet(m.scheduled) - Surviving(c.rowOf, m).Keys
    ensures (first || m.preempted != [] || t.changed || m.newReqs + t.toAdd != []) == flag
  {
    FlagsAgree(c.rowOf, m, resumed, first, t.changed, t.toAdd, p.index);
  }

  /** Before the placements: what is to be placed has no row, and the plan extends what the batch holds. */
  lemma PlacementsReady(g: Geometry, c: Coordinator, b: Batch, m: Merged, resumed: seq<ReqId>)
    requires CoordOk(g, c) && BatchOk(g, b) && b.index == c.rowOf && Legal(c, m, resumed) && Planned(g, c, m, resumed).Some?
    ensures var a := FreedAll(b, m.finished).0;
            && FreedPreempted(a, m.preempted).Ok?
            && var t := ThroughCached(FreedPreempted(a, m.preempted).value, m.cached, m.resumed);
               var ids, rowOf := m.newReqs + t.toAdd, Planned(g, c, m, resumed).value.0.rowOf;
               && Distinct(ids) && IdSet(ids) !! t.batch.index.Keys && IdSet(ids) <= rowOf.Keys
               && Injective(rowOf) && (forall r :: r in rowOf ==> rowOf[r] < g.lanes * g.perLane)
               && Within(t.batch.index, rowOf)
  {
    PlannedKeeps(g, c, m, resumed);
    FreedAllKeeps(g, b, m.finished);
    var a := FreedAll(b, m.finished).0;
    FreedPreemptedKeeps(g, a, m.preempted);
    var p := FreedPreempted(a, m.preempted).value;
    ThroughCachedKeeps(g, p, m.cached, m.resumed);
    var t := ThroughCached(p, m.cached, m.resumed);
    ThroughSurvives(c.rowOf, m, p.index, t.batch.index);
    ToPlace(c, m, resumed, t.batch.index, t.toAdd);
  }

  /** A list of requests whose release succeeds has no prefix whose release fails. */
  lemma {:induction false} EveryPrefixHeld(b: Batch, ids: seq<ReqId>, n: nat)
    requires n <= |ids| && FreedPreempted(b, ids).Ok?
    ensures FreedPreempted(b, ids[..n]).Ok?
    decreases |ids|
  {
    if n == |ids| {
      assert ids[..n] == ids;
    } else {
      var k := |ids| - 1;
      EveryPrefixHeld(b, ids[..k], n);
      assert ids[..k][..n] == ids[..n];
    }
  }

  lemma ThroughSurvives(rowOf: map<ReqId, nat>, m: Merged, before: map<ReqId, nat>, after: map<ReqId, nat>)
    requires before == rowOf - IdSet(m.finished) - IdSet(m.preempted) && m.resumed <= IdSet(m.cached)
    requires after == before - (IdSet(m.cached) * m.resumed)
    ensures after == Surviving(rowOf, m)
  {
    assert IdSet(m.cached) * m.resumed == m.resumed;
  }

  lemma SameRows(a: map<ReqId, nat>, b: map<ReqId, nat>)
    requires a.Keys == b.Keys && forall r :: r in a ==> a[r] == b[r]
    ensures a == b
  {
  }

  lemma IdsJoin(a: seq<ReqId>, b: seq<ReqId>)
    requires Distinct(a) && Distinct(b) && IdSet(a) !! IdSet(b)
    ensures IdSet(a + b) == IdSet(a) + IdSet(b) && Distinct(a + b)
  {
    assert forall i :: 0 <= i < |a| ==> a[i] in IdSet(a);
    assert forall i :: 0 <= i < |b| ==> b[i] in IdSet(b);
  }

  /** Placed are exactly the scheduled requests without a row. */
  lemma ToPlace(c: Coordinator, m: Merged, resumed: seq<ReqId>, index: map<ReqId, nat>, toAdd: seq<ReqId>)
    requires Legal(c, m, resumed) && index == Surviving(c.rowOf, m)
    requires Distinct(toAdd) && IdSet(toAdd) == IdSet(m.cached) - index.Keys
    ensures Distinct(m.newReqs + toAdd) && IdSet(m.newReqs + toAdd) == IdSet(m.scheduled) - index.Keys
  {
    IdsJoin(m.newReqs, toAdd);
    forall r | r in IdSet(m.newReqs) ensures r !in index {
      assert r in m.newReqs && (r in m.finished ==> r in IdSet(m.finished)) && (r in m.preempted ==> r in IdSet(m.preempted));
    }
  }

  lemma FlagsAgree(rowOf: map<ReqId, nat>, m: Merged, resumed: seq<ReqId>, first: bool, third: bool, toAdd: seq<ReqId>,
                   before: map<ReqId, nat>)
    requires first <==> exists r :: r in m.finished && r in rowOf
    requires before == rowOf - IdSet(m.finished) - IdSet(m.preempted)
    requires IdSet(m.preempted) <= rowOf.Keys && IdSet(m.preempted) !! IdSet(m.finished) && m.resumed <= IdSet(m.scheduled)
    requires IdSet(m.newReqs + toAdd) == IdSet(m.scheduled) - Surviving(rowOf, m).Keys
    requires third ==> toAdd != []
    ensures (first || m.preempted != [] || third || m.newReqs + toAdd != []) <==> Stirs(rowOf, m)
  {
    var survived := Surviving(rowOf, m);
    if first {
      var r :| r in m.finished && r in rowOf;
      assert r in IdSet(m.finished) && r !in survived;
    } else if m.preempted != [] {
      assert m.preempted[0] in IdSet(m.preempted) && m.preempted[0] in rowOf && m.preempted[0] !in survived;
    } else if m.newReqs + toAdd != [] {
      assert (m.newReqs + toAdd)[0] in IdSet(m.newReqs + toAdd);
    } else {
      assert IdSet(m.scheduled) <= survived.Keys;
      assert forall r :: r in rowOf ==> r in survived by {
        forall r | r in rowOf ensures r in survived {
          assert r in IdSet(m.finished) ==> r in m.finished;
          assert r in m.resumed ==> r in survived.Keys;
        }
      }
      SameRows(survived, rowOf);
    }
  }

  // ----- admission and lanes -----

  /** The scheduler of each lane admits no more than the lane holds, and a request that keeps its row stays
      with the lane that row is in. */
  ghost predicate Admitted(g: Geometry, c: Coordinator, m: Merged) {
    && m.lane.Keys == IdSet(m.scheduled) && (forall r :: r in m.lane ==> m.lane[r] < g.lanes)
    && g.perLane > 0
    && OwnLane(Surviving(c.rowOf, m), c.laneOf, m.lane)
    && forall l :: 0 <= l < g.lanes ==>
         |Holders(g, Surviving(c.rowOf, m), l) + Newcomers(m.scheduled, m.lane, Surviving(c.rowOf, m), l)| <= g.perLane
  }

  ghost predicate OwnLane(rowOf: map<ReqId, nat>, laneOf: map<ReqId, nat>, lane: map<ReqId, nat>) {
    forall r :: r in rowOf && r in lane ==> r in laneOf && laneOf[r] == lane[r]
  }

  /** Every row lies in the lane its request is bound to. */
  ghost predicate InLane(g: Geometry, c: Coordinator)
    requires g.perLane > 0
  {
    forall r :: r in c.rowOf ==> r in c.laneOf && LaneOf(g, c.rowOf[r]) == c.laneOf[r]
  }

  lemma AssignedNextInLane(g: Geometry, c: Coordinator, r: ReqId, lane: map<ReqId, nat>)
    requires CoordOk(g, c) && InLane(g, c) && OwnLane(c.rowOf, c.laneOf, lane) && r in lane && AssignedNext(g, c, r, lane).Some?
    ensures var after := AssignedNext(g, c, r, lane).value; InLane(g, after) && OwnLane(after.rowOf, after.laneOf, lane)
  {
    AssignKeeps(g, c.(laneOf := c.laneOf[r := lane[r]]), r, lane[r]);
  }

  lemma {:induction false} AssignedAllInLane(g: Geometry, c: Coordinator, ids: seq<ReqId>, lane: map<ReqId, nat>)
    requires CoordOk(g, c) && InLane(g, c) && OwnLane(c.rowOf, c.laneOf, lane) && IdSet(ids) <= lane.Keys
    requires AssignedAll(g, c, ids, lane).Some?
    ensures var after := AssignedAll(g, c, ids, lane).value.0; InLane(g, after) && OwnLane(after.rowOf, after.laneOf, lane)
  {
    if ids != [] {
      var n := |ids| - 1;
      IdSetLast(ids);
      AssignedAllInLane(g, c, ids[..n], lane);
      AssignedAllKeeps(g, c, ids[..n], lane);
      AssignedNextInLane(g, AssignedAll(g, c, ids[..n], lane).value.0, ids[n], lane);
    }
  }

  /** The coordinator once everything due is released. */
  function Cleared(g: Geometry, c: Coordinator, m: Merged, resumed: seq<ReqId>): Coordinator
    requires g.perLane > 0
  {
    var a := ReleasedAll(g, c, m.finished).0;
    var b := ReleasedAll(g, a.(laneOf := a.laneOf - IdSet(m.finished)), m.preempted).0;
    ReleasedAll(g, b, resumed).0
  }

  lemma ClearedKeeps(g: Geometry, c: Coordinator, m: Merged, resumed: seq<ReqId>)
    requires CoordOk(g, c) && IdSet(resumed) == m.resumed
    ensures var d := Cleared(g, c, m, resumed);
            CoordOk(g, d) && d.rowOf == Surviving(c.rowOf, m) && d.laneOf == c.laneOf - IdSet(m.finished)
  {
    ReleasedAllKeeps(g, c, m.finished);
    var a := ReleasedAll(g, c, m.finished).0;
    var bound := a.(laneOf := a.laneOf - IdSet(m.finished));
    assert CoordOk(g, bound);
    ReleasedAllKeeps(g, bound, m.preempted);
    ReleasedAllKeeps(g, ReleasedAll(g, bound, m.preempted).0, resumed);
  }

  /** Within the admission bound no plan raises, and every row of it lies in its request's lane. */
  lemma PlanSucceeds(g: Geometry, c: Coordinator, m: Merged, resumed: seq<ReqId>)
    requires CoordOk(g, c) && InLane(g, c) && Admitted(g, c, m) && IdSet(resumed) == m.resumed
    ensures Planned(g, c, m, resumed).Some? && InLane(g, Planned(g, c, m, resumed).value.0)
  {
    var d := Cleared(g, c, m, resumed);
    ClearedKeeps(g, c, m, resumed);
    assert forall r :: r in m.scheduled ==> r in IdSet(m.scheduled);
    AdmissionSuffices(g, d, m.scheduled, m.lane);
    assert forall r :: r in d.rowOf ==> r in c.rowOf && r !in IdSet(m.finished);
    AssignedAllInLane(g, d, m.scheduled, m.lane);
  }

  // ----- runs -----

  datatype Sides = Sides(coordinator: Coordinator, batch: Batch)

  ghost predicate Inv(g: Geometry, s: Sides) {
    && CoordOk(g, s.coordinator) && InLane(g, s.coordinator)
    && BatchOk(g, s.batch) && s.batch.index == s.coordinator.rowOf
  }

  datatype Event = Event(m: Merged, resumed: seq<ReqId>)

  /** None is a raise on either side, or the runner's assertion that the two layout flags agree. */
  function Next(g: Geometry, s: Sides, e: Event): Option<Sides>
    requires g.perLane > 0
  {
    match Planned(g, s.coordinator, e.m, e.resumed)
    case None => None
    case Some((planned, flag)) =>
      match Applied(s.batch, e.m, planned.rowOf)
      case Err(_) => None
      case Ok((applied, changed)) => if changed == flag then Some(Sides(planned, applied)) else None
  }

  function Run(g: Geometry, events: seq<Event>): Option<Sides>
    requires g.perLane > 0
  {
    if events == [] then Some(Idle(g))
    else match Run(g, events[..|events| - 1]) case None => None case Some(s) => Next(g, s, events[|events| - 1])
  }

  ghost predicate AllAdmitted(g: Geometry, events: seq<Event>)
    requires g.perLane > 0
  {
    events == [] ||
    (var before, e := events[..|events| - 1], events[|events| - 1];
     && AllAdmitted(g, before)
     && (Run(g, before).Some? ==>
           Legal(Run(g, before).value.coordinator, e.m, e.resumed) && Admitted(g, Run(g, before).value.coordinator, e.m)))
  }

  function Idle(g: Geometry): Sides {
    Sides(Coordinator(map[], map[], seq(g.lanes, _ => seq(g.perLane, s => s))), Batch(seq(g.lanes * g.perLane, _ => None), map[], []))
  }

  lemma IdleInv(g: Geometry)
    requires g.perLane > 0
    ensures Inv(g, Idle(g))
  {
    var c := Idle(g).coordinator;
    forall l, s: nat | 0 <= l < g.lanes ensures s in c.free[l] <==> s < g.perLane && Row(g, l, s) !in c.rowOf.Values {
      assert s < g.perLane ==> c.free[l][s] == s;
    }
  }

  lemma {:induction false} RunKeeps(g: Geometry, events: seq<Event>)
    requires g.perLane > 0 && AllAdmitted(g, events)
    ensures Run(g, events).Some? && Inv(g, Run(g, events).value)
  {
    if events == [] {
      IdleInv(g);
    } else {
      var before, e := events[..|events| - 1], events[|events| - 1];
      RunKeeps(g, before);
      var s := Run(g, before).value;
      PlanSucceeds(g, s.coordinator, e.m, e.resumed);
      Lockstep(g, s.coordinator, s.batch, e.m, e.resumed);
    }
  }

  /** Between two occupants of a row, the release hook was called with that row. */
  lemma {:induction false} ReleasedBetween(log: seq<Entry>, i: nat, j: nat, row: nat, a: ReqId, b: ReqId)
    requires Alternates(log) && i < j < |log| && log[i] == Placed(row, a) && log[j] == Placed(row, b)
    ensures exists k :: i < k < j && log[k] == Freed(row)
  {
    var n := |log| - 1;
    if j < n {
      ReleasedBetween(log[..n], i, j, row, a, b);
      var k :| i < k < j && log[..n][k] == Freed(row);
      assert log[k] == Freed(row);
    } else {
      assert Occupant(log[..n], row).None?;
      OccupiedSince(log[..n], i, row, a);
      var k :| i < k < n && log[..n][k] == Freed(row);
      assert log[k] == Freed(row);
    }
  }

  /** A row placed at `i` and empty at the end was released in between. */
  lemma {:induction false} OccupiedSince(log: seq<Entry>, i: nat, row: nat, a: ReqId)
    requires i < |log| && log[i] == Placed(row, a) && Occupant(log, row).None?
    ensures exists k :: i < k < |log| && log[k] == Freed(row)
  {
    var n := |log| - 1;
    if log[n].row != row {
      OccupiedSince(log[..n], i, row, a);
      var k :| i < k < n && log[..n][k] == Freed(row);
      assert log[k] == Freed(row);
    } else {
      assert log[n] == Freed(row);
    }
  }

  /** In every run within the admission bound: no side raises and the two layout flags always agree; both
      keep one map; each lane's free list and held slots partition the lane, and every row lies in its
      request's lane; and no row changes hands without a release. */
  lemma LanesStayInLockstep(g: Geometry, events: seq<Event>)
    requires g.perLane > 0 && AllAdmitted(g, events)
    ensures Run(g, events).Some?
    ensures var end := Run(g, events).value;
            && end.batch.index == end.coordinator.rowOf
            && CoordOk(g, end.coordinator) && InLane(g, end.coordinator)
            && (forall lane :: 0 <= lane < g.lanes ==>
                  |end.coordinator.free[lane]| + |Holders(g, end.coordinator.rowOf, lane)| == g.perLane)
            && (forall i, j, row, a, b :: 0 <= i < j < |end.batch.log| && end.batch.log[i] == Placed(row, a)
                                          && end.batch.log[j] == Placed(row, b) ==>
                  exists k :: i < k < j && end.batch.log[k] == Freed(row))
  {
    RunKeeps(g, events);
    var end := Run(g, events).value;
    forall lane | 0 <= lane < g.lanes
      ensures |end.coordinator.free[lane]| + |Holders(g, end.coordinator.rowOf, lane)| == g.perLane
    {
      LaneIsFull(g, end.coordinator, lane);
    }
    forall i, j, row, a, b | 0 <= i < j < |end.batch.log| && end.batch.log[i] == Placed(row, a) && end.batch.log[j] == Placed(row, b)
      ensures exists k :: i < k < j && end.batch.log[k] == Freed(row)
    {
      ReleasedBetween(end.batch.log, i, j, row, a, b);
    }
  }
}
