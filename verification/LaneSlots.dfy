/**
 Lane slots. The coordinator hands out rows from per-lane free lists, the lane batch materializes
 them; each keeps its own request-to-row map and works out for itself whether the layout changed.
 */
module LaneSlots {
  import opened Runtime

  /** Lane `l` owns the rows `[l * perLane, (l + 1) * perLane)`. */
  datatype Geometry = Geometry(lanes: nat, perLane: nat)

  function Row(g: Geometry, lane: nat, slot: nat): nat {
    lane * g.perLane + slot
  }

  function LaneOf(g: Geometry, row: nat): nat
    requires g.perLane > 0
  {
    row / g.perLane
  }

  function SlotOf(g: Geometry, row: nat): nat
    requires g.perLane > 0
  {
    row % g.perLane
  }

  lemma RowSplits(g: Geometry, lane: nat, slot: nat)
    requires slot < g.perLane
    ensures LaneOf(g, Row(g, lane, slot)) == lane && SlotOf(g, Row(g, lane, slot)) == slot
    ensures lane < g.lanes ==> Row(g, lane, slot) < g.lanes * g.perLane
  {
    Divided(g.perLane, lane, slot, Row(g, lane, slot));
    Scaled(g.perLane, lane + 1, g.lanes);
  }

  /** Quotient and remainder are the only way to write a number as p * q + m with m below p. */
  lemma Divided(p: nat, q: nat, m: nat, n: nat)
    requires m < p && n == q * p + m
    ensures n / p == q && n % p == m
  {
    QuotientIs(p, n / p, n % p, q, m);
  }

  lemma QuotientIs(p: nat, q1: int, m1: int, q2: int, m2: int)
    requires 0 <= m1 < p && 0 <= m2 < p && p * q1 + m1 == p * q2 + m2
    ensures q1 == q2 && m1 == m2
  {
    if q1 < q2 {
      Scaled(p, q1 + 1, q2);
    } else if q2 < q1 {
      Scaled(p, q2 + 1, q1);
    }
  }

  lemma Scaled(p: nat, a: int, b: int)
    ensures a <= b ==> p * a <= p * b
  {
  }

  lemma RowJoins(g: Geometry, row: nat)
    requires g.perLane > 0
    ensures Row(g, LaneOf(g, row), SlotOf(g, row)) == row && SlotOf(g, row) < g.perLane
    ensures row < g.lanes * g.perLane ==> LaneOf(g, row) < g.lanes
  {
    var p, q := g.perLane, row / g.perLane;
    assert row == p * q + row % p;
    Scaled(p, g.lanes, q);
  }

  // ----- the coordinator -----

  datatype Coordinator = Coordinator(rowOf: map<ReqId, nat>, laneOf: map<ReqId, nat>, free: seq<seq<nat>>)

  predicate Ascending(s: seq<nat>) {
    forall i, j :: 0 <= i < j < |s| ==> s[i] < s[j]
  }

  /** `append` and `sort` on a sorted list. */
  function Inserted(slot: nat, s: seq<nat>): seq<nat> {
    if s == [] || slot < s[0] then [slot] + s else [s[0]] + Inserted(slot, s[1..])
  }

  lemma {:induction false} InsertedHolds(slot: nat, s: seq<nat>, e: nat)
    ensures e in Inserted(slot, s) <==> e == slot || e in s
  {
    if s != [] && slot >= s[0] {
      InsertedHolds(slot, s[1..], e);
      assert e in s <==> e == s[0] || e in s[1..];
    }
  }

  lemma {:induction false} InsertedAscending(slot: nat, s: seq<nat>)
    requires Ascending(s) && slot !in s
    ensures Ascending(Inserted(slot, s))
  {
    if s != [] && slot >= s[0] {
      InsertedAscending(slot, s[1..]);
      var rest := Inserted(slot, s[1..]);
      forall i | 0 <= i < |rest| ensures s[0] < rest[i] {
        InsertedHolds(slot, s[1..], rest[i]);
        assert s[0] in s && rest[i] in rest;
      }
      HeadAscending(s[0], rest);
    } else if s != [] {
      HeadAscending(slot, s);
    }
  }

  lemma HeadAscending(head: nat, rest: seq<nat>)
    requires Ascending(rest) && forall i :: 0 <= i < |rest| ==> head < rest[i]
    ensures Ascending([head] + rest)
  {
  }

  ghost predicate Injective(rowOf: map<ReqId, nat>) {
    forall r, q :: r in rowOf && q in rowOf && rowOf[r] == rowOf[q] ==> r == q
  }

  /** In each lane the free list, sorted and free of duplicates, and the slots held by requests of the
      lane partition `[0, perLane)`; no two requests share a row. */
  ghost predicate CoordOk(g: Geometry, c: Coordinator) {
    && g.perLane > 0 && |c.free| == g.lanes && Injective(c.rowOf)
    && (forall r :: r in c.rowOf ==> c.rowOf[r] < g.lanes * g.perLane)
    && (forall l :: 0 <= l < g.lanes ==> Ascending(c.free[l]))
    && forall l, s: nat :: 0 <= l < g.lanes ==> (s in c.free[l] <==> s < g.perLane && Row(g, l, s) !in c.rowOf.Values)
  }

  /** `_release_slot`. */
  function Released(g: Geometry, c: Coordinator, r: ReqId): Coordinator
    requires g.perLane > 0
  {
    if r !in c.rowOf then c
    else
      var lane, slot := LaneOf(g, c.rowOf[r]), SlotOf(g, c.rowOf[r]);
      c.(rowOf := c.rowOf - {r},
         free := if lane < |c.free| && slot !in c.free[lane] then c.free[lane := Inserted(slot, c.free[lane])] else c.free)
  }

  /** `_assign_slot`: the row a request already has, or the lowest free slot of its lane; None is the raise. */
  function Assigned(g: Geometry, c: Coordinator, r: ReqId, lane: nat): Option<Coordinator> {
    if r in c.rowOf then Some(c)
    else if lane >= |c.free| || c.free[lane] == [] then None
    else Some(c.(rowOf := c.rowOf[r := Row(g, lane, c.free[lane][0])], free := c.free[lane := c.free[lane][1..]]))
  }

  lemma RemovedValues(rowOf: map<ReqId, nat>, r: ReqId)
    requires Injective(rowOf) && r in rowOf
    ensures (rowOf - {r}).Values == rowOf.Values - {rowOf[r]} && Injective(rowOf - {r})
  {
    forall v ensures v in (rowOf - {r}).Values <==> v in rowOf.Values && v != rowOf[r] {
      if v in rowOf.Values && v != rowOf[r] {
        var q :| q in rowOf && rowOf[q] == v;
        assert q in rowOf - {r} && (rowOf - {r})[q] == v;
      }
    }
  }

  lemma AddedValues(rowOf: map<ReqId, nat>, r: ReqId, row: nat)
    requires Injective(rowOf) && r !in rowOf && row !in rowOf.Values
    ensures rowOf[r := row].Values == rowOf.Values + {row} && Injective(rowOf[r := row])
  {
    forall v ensures v in rowOf[r := row].Values <==> v in rowOf.Values || v == row {
      if v in rowOf.Values {
        var q :| q in rowOf && rowOf[q] == v;
        assert rowOf[r := row][q] == v;
      }
      assert rowOf[r := row][r] == row;
    }
  }

  /** Rows are equal only for the same lane and slot. */
  lemma SameRow(g: Geometry, lane: nat, slot: nat, l: nat, s: nat)
    requires slot < g.perLane && s < g.perLane && Row(g, lane, slot) == Row(g, l, s)
    ensures lane == l && slot == s
  {
    RowSplits(g, lane, slot);
    RowSplits(g, l, s);
  }

  /** What one lane and slot say about a coordinator. */
  ghost predicate FreeAt(g: Geometry, c: Coordinator, l: nat, s: nat)
    requires l < |c.free|
  {
    s in c.free[l] <==> s < g.perLane && Row(g, l, s) !in c.rowOf.Values
  }

  lemma ReleasedFreeAt(g: Geometry, c: Coordinator, r: ReqId, l: nat, s: nat)
    requires CoordOk(g, c) && r in c.rowOf && l < g.lanes
    ensures FreeAt(g, Released(g, c, r), l, s)
  {
    var row := c.rowOf[r];
    var lane, slot := LaneOf(g, row), SlotOf(g, row);
    RowJoins(g, row);
    assert row in c.rowOf.Values && slot !in c.free[lane];
    RemovedValues(c.rowOf, r);
    InsertedHolds(slot, c.free[lane], s);
    if s < g.perLane && Row(g, l, s) == row { SameRow(g, lane, slot, l, s); }
  }

  lemma ReleaseKeeps(g: Geometry, c: Coordinator, r: ReqId)
    requires CoordOk(g, c)
    ensures CoordOk(g, Released(g, c, r)) && Released(g, c, r).rowOf == c.rowOf - {r}
  {
    if r in c.rowOf {
      var row, after := c.rowOf[r], Released(g, c, r);
      var lane, slot := LaneOf(g, row), SlotOf(g, row);
      RowJoins(g, row);
      assert row in c.rowOf.Values && slot !in c.free[lane];
      InsertedAscending(slot, c.free[lane]);
      RemovedValues(c.rowOf, r);
      forall l, s: nat | 0 <= l < g.lanes ensures FreeAt(g, after, l, s) {
        ReleasedFreeAt(g, c, r, l, s);
      }
      FreeEverywhere(g, after);
    } else {
      assert c.rowOf - {r} == c.rowOf;
    }
  }

  lemma FreeEverywhere(g: Geometry, c: Coordinator)
    requires g.perLane > 0 && |c.free| == g.lanes && Injective(c.rowOf)
    requires forall r :: r in c.rowOf ==> c.rowOf[r] < g.lanes * g.perLane
    requires forall l :: 0 <= l < g.lanes ==> Ascending(c.free[l])
    requires forall l, s: nat :: 0 <= l < g.lanes ==> FreeAt(g, c, l, s)
    ensures CoordOk(g, c)
  {
    forall l, s: nat | 0 <= l < g.lanes ensures s in c.free[l] <==> s < g.perLane && Row(g, l, s) !in c.rowOf.Values {
      assert FreeAt(g, c, l, s);
    }
  }

  lemma AssignedFreeAt(g: Geometry, c: Coordinator, r: ReqId, lane: nat, l: nat, s: nat)
    requires CoordOk(g, c) && r !in c.rowOf && Assigned(g, c, r, lane).Some? && l < g.lanes
    ensures FreeAt(g, Assigned(g, c, r, lane).value, l, s)
  {
    var slot := c.free[lane][0];
    var row := Row(g, lane, slot);
    assert slot in c.free[lane] && row !in c.rowOf.Values;
    AddedValues(c.rowOf, r, row);
    TailHolds(c.free[lane], s);
    if s < g.perLane && Row(g, l, s) == row { SameRow(g, lane, slot, l, s); }
  }

  lemma TailHolds(s: seq<nat>, e: nat)
    requires s != [] && Ascending(s)
    ensures e in s[1..] <==> e in s && e != s[0]
  {
    assert s == [s[0]] + s[1..];
  }

  lemma AssignKeeps(g: Geometry, c: Coordinator, r: ReqId, lane: nat)
    requires CoordOk(g, c) && Assigned(g, c, r, lane).Some?
    ensures var after := Assigned(g, c, r, lane).value;
            && CoordOk(g, after) && after.rowOf.Keys == c.rowOf.Keys + {r}
            && (forall q :: q in c.rowOf ==> after.rowOf[q] == c.rowOf[q])
            && (r !in c.rowOf ==> LaneOf(g, after.rowOf[r]) == lane)
  {
    if r !in c.rowOf {
      var after, slot := Assigned(g, c, r, lane).value, c.free[lane][0];
      assert slot in c.free[lane];
      RowSplits(g, lane, slot);
      AddedValues(c.rowOf, r, Row(g, lane, slot));
      forall l, s: nat | 0 <= l < g.lanes ensures FreeAt(g, after, l, s) {
        AssignedFreeAt(g, c, r, lane, l, s);
      }
      FreeEverywhere(g, after);
    }
  }

  // ----- capacity -----

  /** The requests holding a row of a lane. */
  ghost function Holders(g: Geometry, rowOf: map<ReqId, nat>, lane: nat): set<ReqId>
    requires g.perLane > 0
  {
    set r | r in rowOf && LaneOf(g, rowOf[r]) == lane
  }

  ghost function TakenSlots(g: Geometry, rowOf: map<ReqId, nat>, holders: set<ReqId>): set<nat>
    requires g.perLane > 0 && holders <= rowOf.Keys
  {
    set r | r in holders :: SlotOf(g, rowOf[r])
  }

  lemma {:induction false} TakenCount(g: Geometry, rowOf: map<ReqId, nat>, holders: set<ReqId>, lane: nat)
    requires g.perLane > 0 && Injective(rowOf) && holders <= Holders(g, rowOf, lane)
    ensures |TakenSlots(g, rowOf, holders)| == |holders|
  {
    if holders != {} {
      var r :| r in holders;
      TakenCount(g, rowOf, holders - {r}, lane);
      forall q | q in holders && SlotOf(g, rowOf[q]) == SlotOf(g, rowOf[r]) ensures q == r {
        RowJoins(g, rowOf[q]);
        RowJoins(g, rowOf[r]);
      }
      assert TakenSlots(g, rowOf, holders) == TakenSlots(g, rowOf, holders - {r}) + {SlotOf(g, rowOf[r])};
    }
  }

  ghost function Elements(s: seq<nat>): set<nat> {
    set e | e in s
  }

  ghost function Slots(n: nat): (slots: set<nat>)
    ensures |slots| == n && forall i: nat :: i in slots <==> i < n
  {
    if n == 0 then {} else Slots(n - 1) + {n - 1}
  }

  lemma {:induction false} AscendingCount(s: seq<nat>)
    requires Ascending(s)
    ensures |Elements(s)| == |s|
  {
    if s != [] {
      var k := |s| - 1;
      AscendingCount(s[..k]);
      assert s == s[..k] + [s[k]];
      assert Elements(s) == Elements(s[..k]) + {s[k]};
    }
  }

  lemma TakenExactly(g: Geometry, rowOf: map<ReqId, nat>, lane: nat, s: nat)
    requires g.perLane > 0
    ensures s in TakenSlots(g, rowOf, Holders(g, rowOf, lane)) <==> s < g.perLane && Row(g, lane, s) in rowOf.Values
  {
    if s < g.perLane && Row(g, lane, s) in rowOf.Values {
      var r :| r in rowOf && rowOf[r] == Row(g, lane, s);
      RowSplits(g, lane, s);
      assert r in Holders(g, rowOf, lane);
    }
    if s in TakenSlots(g, rowOf, Holders(g, rowOf, lane)) {
      var r :| r in Holders(g, rowOf, lane) && SlotOf(g, rowOf[r]) == s;
      RowJoins(g, rowOf[r]);
    }
  }

  /** Free slots and holders of a lane add up to the lane. */
  lemma LaneIsFull(g: Geometry, c: Coordinator, lane: nat)
    requires CoordOk(g, c) && lane < g.lanes
    ensures |c.free[lane]| + |Holders(g, c.rowOf, lane)| == g.perLane
  {
    var holders := Holders(g, c.rowOf, lane);
    TakenCount(g, c.rowOf, holders, lane);
    AscendingCount(c.free[lane]);
    var taken, free := TakenSlots(g, c.rowOf, holders), Elements(c.free[lane]);
    forall s: nat ensures s in taken <==> s < g.perLane && s !in free {
      TakenExactly(g, c.rowOf, lane, s);
    }
    SplitCount(taken, free, g.perLane);
  }

  lemma SplitCount(taken: set<nat>, free: set<nat>, n: nat)
    requires forall s: nat :: s in taken <==> s < n && s !in free
    requires forall s: nat :: s in free ==> s < n
    ensures |taken| + |free| == n
  {
    assert taken + free == Slots(n) && taken !! free;
  }

  /** `_assign_slot` raises exactly for a request without a row in a lane whose every slot is held. */
  lemma AssignSucceedsExactly(g: Geometry, c: Coordinator, r: ReqId, lane: nat)
    requires CoordOk(g, c) && lane < g.lanes
    ensures Assigned(g, c, r, lane).Some? <==> r in c.rowOf || |Holders(g, c.rowOf, lane)| < g.perLane
  {
    LaneIsFull(g, c, lane);
  }
}
