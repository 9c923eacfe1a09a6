/** The lane coordinator and the lane batch as the objects they are: dictionaries, free lists and rows updated in place. */
module LaneRunner {
  import opened Runtime
  import opened LaneSlots
  import opened LaneLockstep

  class LaneCoordinator {
    const g: Geometry
    var reqToRow: map<ReqId, nat>
    var reqToLane: map<ReqId, nat>
    var freeSlots: seq<seq<nat>>

    constructor (g: Geometry)
      requires g.perLane > 0
      ensures this.g == g && Model() == Idle(g).coordinator && Valid()
    {
      this.g := g;
      reqToRow, reqToLane := map[], map[];
      freeSlots := seq(g.lanes, _ => seq(g.perLane, s => s));
      new;
      IdleInv(g);
    }

    function Model(): Coordinator
      reads this
    {
      Coordinator(reqToRow, reqToLane, freeSlots)
    }

    /** In each lane the sorted free list and the held slots partition the lane. */
    ghost predicate Valid()
      reads this
    {
      CoordOk(g, Model())
    }

    /** The row a request has, or else the lowest row of its lane that nobody holds; None when it has none
        and the lane has no such row. */
    method AssignSlot(r: ReqId, lane: nat) returns (row: Option<nat>)
      requires Valid()
      modifies this`reqToRow, this`freeSlots
      ensures Valid() && (row.None? ==> Model() == old(Model()))
      ensures row.None? <==> r !in old(reqToRow) && (lane < g.lanes ==> forall s: nat :: s < g.perLane ==> Row(g, lane, s) in old(reqToRow).Values)
      ensures row.Some? ==> reqToRow == old(reqToRow)[r := row.value] && (r in old(reqToRow) ==> row.value == old(reqToRow)[r])
      ensures row.Some? && r !in old(reqToRow) ==>
                && lane < g.lanes && LaneOf(g, row.value) == lane && row.value !in old(reqToRow).Values
                && forall s: nat :: s < SlotOf(g, row.value) ==> Row(g, lane, s) in old(reqToRow).Values
      ensures Assigned(g, old(Model()), r, lane) == if row.Some? then Some(Model()) else None
    {
      if r in reqToRow {
        assert reqToRow == reqToRow[r := reqToRow[r]];
        return Some(reqToRow[r]);
      }
      if lane >= |freeSlots| || freeSlots[lane] == [] { return None; }
      AssignKeeps(g, Model(), r, lane);
      LowestIsFree(g, Model(), lane);
      var slot := freeSlots[lane][0];
      freeSlots := freeSlots[lane := freeSlots[lane][1..]];
      reqToRow := reqToRow[r := lane * g.perLane + slot];
      return Some(reqToRow[r]);
    }

    /** The request's row becomes free again, wherever in its lane it is. */
    method ReleaseSlot(r: ReqId)
      requires Valid()
      modifies this`reqToRow, this`freeSlots
      ensures Valid() && reqToRow == old(reqToRow) - {r}
      ensures forall l, s: nat :: 0 <= l < g.lanes ==>
                (s in freeSlots[l] <==> s in old(freeSlots)[l] || (r in old(reqToRow) && s < g.perLane && Row(g, l, s) == old(reqToRow)[r]))
      ensures Model() == Released(g, old(Model()), r)
    {
      ReleaseKeeps(g, Model(), r);
      ReleasedFree(g, Model(), r);
      if r !in reqToRow { return; }
      var row := reqToRow[r];
      reqToRow := reqToRow - {r};
      var lane, slot := row / g.perLane, row % g.perLane;
      if lane < |freeSlots| && slot !in freeSlots[lane] {
        freeSlots := freeSlots[lane := Inserted(slot, freeSlots[lane])];
      }
    }

    method ReleaseAll(ids: seq<ReqId>) returns (changed: bool)
      requires Valid()
      modifies this`reqToRow, this`freeSlots
      ensures Valid() && (Model(), changed) == ReleasedAll(g, old(Model()), ids)
    {
      changed := false;
      for i := 0 to |ids|
        invariant Valid() && (Model(), changed) == ReleasedAll(g, old(Model()), ids[..i])
      {
        assert ids[..i + 1][..i] == ids[..i];
        changed := changed || ids[i] in reqToRow;
        ReleaseSlot(ids[i]);
      }
      assert ids[..|ids|] == ids;
    }

    /** None is the raise: a request no lane is known for, or a lane without a free slot. */
    method AssignOne(r: ReqId, lane: map<ReqId, nat>) returns (ok: bool)
      requires Valid()
      modifies this
      ensures Valid()
      ensures ok <==> AssignedNext(g, old(Model()), r, lane).Some?
      ensures ok ==> AssignedNext(g, old(Model()), r, lane) == Some(Model())
    {
      var l;
      if r in lane {
        l := lane[r];
        reqToLane := reqToLane[r := l];
      } else if r in reqToLane {
        l := reqToLane[r];
      } else {
        return false;
      }
      var row := AssignSlot(r, l);
      return row.Some?;
    }

    method AssignAll(ids: seq<ReqId>, lane: map<ReqId, nat>) returns (changed: Option<bool>)
      requires Valid()
      modifies this
      ensures Valid()
      ensures changed.Some? <==> AssignedAll(g, old(Model()), ids, lane).Some?
      ensures changed.Some? ==> AssignedAll(g, old(Model()), ids, lane) == Some((Model(), changed.value))
    {
      var flag := false;
      for i := 0 to |ids|
        invariant Valid() && AssignedAll(g, old(Model()), ids[..i], lane) == Some((Model(), flag))
      {
        assert ids[..i + 1][..i] == ids[..i];
        var missing := ids[i] !in reqToRow;
        var ok := AssignOne(ids[i], lane);
        if !ok {
          Unassignable(g, old(Model()), ids, lane, i + 1);
          return None;
        }
        flag := flag || missing;
      }
      assert ids[..|ids|] == ids;
      return Some(flag);
    }

    /** `_build_step_plan`: frees first, then assigns; the layout flag is on if anything was either. */
    method BuildStepPlan(m: Merged, resumed: seq<ReqId>) returns (changed: Option<bool>)
      requires Valid()
      modifies this
      ensures Valid()
      ensures changed.Some? <==> Planned(g, old(Model()), m, resumed).Some?
      ensures changed.Some? ==> Planned(g, old(Model()), m, resumed) == Some((Model(), changed.value))
    {
      var first := ReleaseAll(m.finished);
      reqToLane := reqToLane - IdSet(m.finished);
      var second := ReleaseAll(m.preempted);
      var third := ReleaseAll(resumed);
      var fourth := AssignAll(m.scheduled, m.lane);
      if fourth.None? { return None; }
      return Some(first || second || third || fourth.value);
    }
  }

  /** The head of a lane's free list is its lowest row that nobody holds. */
  lemma LowestIsFree(g: Geometry, c: Coordinator, lane: nat)
    requires CoordOk(g, c) && lane < g.lanes && c.free[lane] != []
    ensures var slot := c.free[lane][0];
            && slot < g.perLane && Row(g, lane, slot) !in c.rowOf.Values
            && LaneOf(g, Row(g, lane, slot)) == lane && SlotOf(g, Row(g, lane, slot)) == slot
            && forall s: nat :: s < slot ==> Row(g, lane, s) in c.rowOf.Values
  {
    var slot := c.free[lane][0];
    assert slot in c.free[lane];
    RowSplits(g, lane, slot);
    forall s: nat | s < slot ensures s !in c.free[lane] {}
  }

  lemma ReleasedFree(g: Geometry, c: Coordinator, r: ReqId)
    requires CoordOk(g, c)
    ensures |Released(g, c, r).free| == |c.free|
    ensures forall l, s: nat :: 0 <= l < g.lanes ==>
              (s in Released(g, c, r).free[l] <==> s in c.free[l] || (r in c.rowOf && s < g.perLane && Row(g, l, s) == c.rowOf[r]))
  {
    ReleaseKeeps(g, c, r);
    if r in c.rowOf { RemovedValues(c.rowOf, r); }
  }

  /** One failed assignment fails the whole plan. */
  lemma {:induction false} Unassignable(g: Geometry, c: Coordinator, ids: seq<ReqId>, lane: map<ReqId, nat>, n: nat)
    requires n <= |ids| && AssignedAll(g, c, ids[..n], lane).None?
    ensures AssignedAll(g, c, ids, lane).None?
    decreases |ids| - n
  {
    if n == |ids| {
      assert ids[..n] == ids;
    } else {
      assert ids[..n + 1][..n] == ids[..n];
      Unassignable(g, c, ids, lane, n + 1);
    }
  }

  /** One more placement of a plan that fits the batch. */
  lemma PlacedNext(g: Geometry, b: Batch, ids: seq<ReqId>, i: nat, rowOf: map<ReqId, nat>)
    requires BatchOk(g, b) && Distinct(ids) && IdSet(ids) !! b.index.Keys && IdSet(ids) <= rowOf.Keys && i < |ids|
    requires Injective(rowOf) && (forall r :: r in rowOf ==> rowOf[r] < g.lanes * g.perLane) && Within(b.index, rowOf)
    requires PlacedAll(b, ids[..i], rowOf).Ok?
    ensures ids[i] in rowOf && PlacedAll(b, ids[..i + 1], rowOf).Ok? && BatchOk(g, PlacedAll(b, ids[..i + 1], rowOf).value)
    ensures PlacedAll(b, ids[..i + 1], rowOf) == PlacedAt(PlacedAll(b, ids[..i], rowOf).value, ids[i], map[ids[i] := rowOf[ids[i]]])
  {
    assert ids[..i + 1][..i] == ids[..i];
    assert ids[i] in IdSet(ids) && IdSet(ids[..i + 1]) <= IdSet(ids);
    PlacedAllKeeps(g, b, ids[..i + 1], rowOf);
  }

  class LaneBatch {
    const reqIds: array<Option<ReqId>>
    var index: map<ReqId, nat>
    /** Release-hook calls and placements, in order. */
    ghost var log: seq<Entry>

    constructor (capacity: nat)
      ensures reqIds.Length == capacity && fresh(reqIds) && Model() == Batch(seq(capacity, _ => None), map[], [])
    {
      reqIds := new Option<ReqId>[capacity](_ => None);
      index, log := map[], [];
      new;
      assert reqIds[..] == seq(capacity, _ => None);
    }

    ghost function Model(): Batch
      reads this, reqIds
    {
      Batch(reqIds[..], index, log)
    }

    /** The hook is called while the request still holds the row. */
    method FreeRow(r: ReqId) returns (freed: bool)
      requires r in index ==> index[r] < reqIds.Length
      modifies this, reqIds
      ensures Model() == FreedRow(old(Model()), r) && freed == (r in old(index))
    {
      if r !in index { return false; }
      log := log + [Freed(index[r])];
      reqIds[index[r]] := None;
      index := index - {r};
      return true;
    }

    method AddRequestToRow(r: ReqId, row: nat) returns (error: Option<LaneError>)
      modifies this, reqIds
      ensures match PlacedAt(old(Model()), r, map[r := row])
              case Ok(after) => error.None? && Model() == after
              case Err(e) => error == Some(e) && Model() == old(Model())
    {
      if row >= reqIds.Length { return Some(RowOutOfRange); }
      if reqIds[row].Some? && reqIds[row] != Some(r) { return Some(RowOccupied); }
      reqIds[row] := Some(r);
      index := index[r := row];
      log := log + [Placed(row, r)];
      return None;
    }

    method FreeAll(g: Geometry, ids: seq<ReqId>) returns (changed: bool)
      requires BatchOk(g, Model())
      modifies this, reqIds
      ensures BatchOk(g, Model()) && (Model(), changed) == FreedAll(old(Model()), ids)
    {
      changed := false;
      for i := 0 to |ids|
        invariant BatchOk(g, Model()) && (Model(), changed) == FreedAll(old(Model()), ids[..i])
      {
        assert ids[..i + 1][..i] == ids[..i];
        FreedRowKeeps(g, Model(), ids[i]);
        var freed := FreeRow(ids[i]);
        changed := changed || freed;
      }
      assert ids[..|ids|] == ids;
    }

    /** `must_hold`: false reports a preempted request without a row. */
    method FreeHeld(g: Geometry, ids: seq<ReqId>) returns (ok: bool)
      requires BatchOk(g, Model())
      modifies this, reqIds
      ensures BatchOk(g, Model())
      ensures ok ==> FreedPreempted(old(Model()), ids) == Ok(Model())
      ensures !ok ==> exists n :: 0 <= n <= |ids| && FreedPreempted(old(Model()), ids[..n]) == Err(NoRowToRelease)
    {
      for i := 0 to |ids|
        invariant BatchOk(g, Model()) && FreedPreempted(old(Model()), ids[..i]) == Ok(Model())
      {
        assert ids[..i + 1][..i] == ids[..i];
        FreedRowKeeps(g, Model(), ids[i]);
        var freed := FreeRow(ids[i]);
        if !freed {
          assert FreedPreempted(old(Model()), ids[..i + 1]) == Err(NoRowToRelease);
          return false;
        }
      }
      assert ids[..|ids|] == ids;
      return true;
    }

    method GoThroughCached(g: Geometry, cached: seq<ReqId>, resumed: set<ReqId>) returns (toAdd: seq<ReqId>, changed: bool)
      requires BatchOk(g, Model())
      modifies this, reqIds
      ensures BatchOk(g, Model()) && Through(Model(), toAdd, changed) == ThroughCached(old(Model()), cached, resumed)
    {
      toAdd, changed := [], false;
      for i := 0 to |cached|
        invariant BatchOk(g, Model()) && Through(Model(), toAdd, changed) == ThroughCached(old(Model()), cached[..i], resumed)
      {
        assert cached[..i + 1][..i] == cached[..i];
        FreedRowKeeps(g, Model(), cached[i]);
        if cached[i] in resumed {
          var freed := FreeRow(cached[i]);
          changed, toAdd := changed || freed, toAdd + [cached[i]];
        } else if cached[i] !in index {
          toAdd := toAdd + [cached[i]];
        }
      }
      assert cached[..|cached|] == cached;
    }

    method PlaceAll(g: Geometry, ids: seq<ReqId>, rowOf: map<ReqId, nat>)
      requires BatchOk(g, Model()) && Distinct(ids) && IdSet(ids) !! index.Keys && IdSet(ids) <= rowOf.Keys
      requires Injective(rowOf) && (forall r :: r in rowOf ==> rowOf[r] < g.lanes * g.perLane)
      requires Within(index, rowOf)
      modifies this, reqIds
      ensures PlacedAll(old(Model()), ids, rowOf) == Ok(Model()) && BatchOk(g, Model())
    {
      ghost var before := Model();
      for i := 0 to |ids|
        invariant BatchOk(g, Model()) && PlacedAll(before, ids[..i], rowOf) == Ok(Model())
      {
        PlacedNext(g, before, ids, i, rowOf);
        var error := AddRequestToRow(ids[i], rowOf[ids[i]]);
      }
      assert ids[..|ids|] == ids;
    }

    /** `apply_step_plan`, for a plan the coordinator made from the same rows. */
    method ApplyStepPlan(g: Geometry, m: Merged, rowOf: map<ReqId, nat>, ghost c: Coordinator, ghost resumed: seq<ReqId>)
      returns (changed: bool)
      requires BatchOk(g, Model()) && CoordOk(g, c) && index == c.rowOf && Legal(c, m, resumed)
      requires Planned(g, c, m, resumed).Some? && rowOf == Planned(g, c, m, resumed).value.0.rowOf
      modifies this, reqIds
      ensures BatchOk(g, Model()) && Applied(old(Model()), m, rowOf) == Ok((Model(), changed))
      ensures index == rowOf && changed == Planned(g, c, m, resumed).value.1
    {
      PlacementsReady(g, c, Model(), m, resumed);
      Lockstep(g, c, Model(), m, resumed);
      var first := FreeAll(g, m.finished);
      ghost var freed := Model();
      var held := FreeHeld(g, m.preempted);
      forall n | 0 <= n <= |m.preempted| ensures FreedPreempted(freed, m.preempted[..n]).Ok? {
        EveryPrefixHeld(freed, m.preempted, n);
      }
      var toAdd, third := GoThroughCached(g, m.cached, m.resumed);
      PlaceAll(g, m.newReqs + toAdd, rowOf);
      return first || m.preempted != [] || third || m.newReqs + toAdd != [];
    }
  }
}
