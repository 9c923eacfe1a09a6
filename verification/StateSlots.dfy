/**
 Per-request device state slots: which slot holds a request's state, where a prefill writes and
 which gather a decode sends. `Slots` is the runner's own bookkeeping; `World` adds the device's
 slots and the model's session table, which the runner never reads.
 */
module StateSlots {
  import opened Runtime

  datatype SlotError = TooManyRows | NoFreeSlot | NoSlot | NotAPermutation

  datatype Slots = Slots(
    owner: map<ReqId, nat>,
    settle: Option<map<ReqId, nat>>,
    moves: map<nat, nat>)

  // ----- prefill allocation -----

  /** Slots owned by live requests that this prefill does not rewrite. */
  function Held(owner: map<ReqId, nat>, requests: set<ReqId>, rows: seq<ReqId>): set<nat> {
    set r | r in owner && r !in rows && r in requests :: owner[r]
  }

  function FirstFree(n: nat, held: set<nat>, from: nat): (slot: Option<nat>)
    requires from <= n
    ensures slot.Some? ==> from <= slot.value < n && slot.value !in held
    ensures slot.None? ==> forall s :: from <= s < n ==> s in held
    decreases n - from
  {
    if from == n then None else if from !in held then Some(from) else FirstFree(n, held, from + 1)
  }

  function Members(s: seq<nat>): set<nat> {
    set x | x in s
  }

  /** A row takes its own slot when nobody holds it, and the lowest free one otherwise. */
  function AllocOne(n: nat, taken: set<nat>, row: nat): Option<nat> {
    if row !in taken then Some(row) else FirstFree(n, taken, 0)
  }

  /** The slots of the first `i` rows. */
  function AllocFirst(n: nat, held: set<nat>, i: nat): Option<seq<nat>> {
    if i == 0 then Some([])
    else
      match AllocFirst(n, held, i - 1)
      case None => None
      case Some(before) =>
        match AllocOne(n, held + Members(before), i - 1)
        case None => None
        case Some(slot) => Some(before + [slot])
  }

  predicate Below(s: seq<nat>, n: nat) {
    forall i :: 0 <= i < |s| ==> s[i] < n
  }

  function AssignRows(owner: map<ReqId, nat>, rows: seq<ReqId>, slots: seq<nat>): map<ReqId, nat>
    requires |rows| == |slots|
  {
    if rows == [] then owner
    else var n := |rows| - 1; AssignRows(owner, rows[..n], slots[..n])[rows[n] := slots[n]]
  }

  /** `_alloc_prefill_state_slots`. */
  function AllocPrefill(n: nat, owner: map<ReqId, nat>, requests: set<ReqId>, rows: seq<ReqId>)
    : (r: Result<seq<nat>, SlotError>)
    ensures r.Ok? ==> |r.value| == |rows|
  {
    if |rows| > n then Err(TooManyRows)
    else match AllocFirst(n, Held(owner, requests, rows), |rows|)
      case None => Err(NoFreeSlot)
      case Some(slots) => AllocFirstLength(n, Held(owner, requests, rows), |rows|); Ok(slots)
  }

  lemma {:induction false} AllocFirstLength(n: nat, held: set<nat>, i: nat)
    ensures AllocFirst(n, held, i).Some? ==> |AllocFirst(n, held, i).value| == i
  {
    if i > 0 { AllocFirstLength(n, held, i - 1); }
  }

  // ----- decode gather -----

  function Range(n: nat): (r: seq<nat>)
    ensures |r| == n && forall i :: 0 <= i < n ==> r[i] == i
  {
    if n == 0 then [] else Range(n - 1) + [n - 1]
  }

  function Rest(n: nat, want: seq<nat>): seq<nat> {
    if n == 0 then [] else Rest(n - 1, want) + if n - 1 in want then [] else [n - 1]
  }

  /** Row `i` reads slot `GatherOf(..)[i]`: the batch's slots first, every other slot after. */
  function GatherOf(n: nat, want: seq<nat>): seq<nat> {
    want + Rest(n, want)
  }

  function PositionIn(s: seq<nat>, x: nat): (i: nat)
    requires x in s
    ensures i < |s| && s[i] == x
  {
    if s[0] == x then 0 else 1 + PositionIn(s[1..], x)
  }

  predicate AllOwned(owner: map<ReqId, nat>, rows: seq<ReqId>) {
    forall r :: r in rows ==> r in owner
  }

  function Wanted(owner: map<ReqId, nat>, rows: seq<ReqId>): (want: seq<nat>)
    requires AllOwned(owner, rows)
    ensures |want| == |rows| && forall i :: 0 <= i < |rows| ==> want[i] == owner[rows[i]]
  {
    seq(|rows|, i requires 0 <= i < |rows| => owner[rows[i]])
  }

  function Followed(owner: map<ReqId, nat>, gather: seq<nat>): map<ReqId, nat> {
    map r | r in owner :: if owner[r] in gather then PositionIn(gather, owner[r]) else owner[r]
  }

  function MovesOf(gather: seq<nat>): map<nat, nat> {
    map s | s in gather && PositionIn(gather, s) != s :: PositionIn(gather, s)
  }

  /** `_decode_state_slot_remap`: the gather, with the map it leads to left pending. An identity
      gather is not sent at all. */
  function DecodeRemap(n: nat, slots: Slots, rows: seq<ReqId>): Result<(Slots, Option<seq<nat>>), SlotError> {
    if |rows| > n then Err(TooManyRows)
    else if !AllOwned(slots.owner, rows) then Err(NoSlot)
    else
      var want := Wanted(slots.owner, rows);
      if exists i, j :: 0 <= i < j < |want| && want[i] == want[j] then Err(NotAPermutation)
      else if !Below(want, n) then Err(NotAPermutation)
      else
        var gather := GatherOf(n, want);
        if gather == Range(n) then Ok((slots.(settle := None, moves := map[]), None))
        else Ok((slots.(settle := Some(Followed(slots.owner, gather)), moves := MovesOf(gather)), Some(gather)))
  }

  /** `note_decode_state_slots_settled`. */
  function Settle(slots: Slots): Slots {
    Slots(if slots.settle.Some? then slots.settle.value else slots.owner, None, map[])
  }

  /** The runner's ownership map in its own form. */
  class SlotMap {
    const n: nat
    var owner: map<ReqId, nat>
    var requests: set<ReqId>
    var settle: Option<map<ReqId, nat>>
    var moves: map<nat, nat>

    constructor (n: nat)
      ensures this.n == n && Model() == Slots(map[], None, map[]) && requests == {}
    {
      this.n := n;
      owner, requests, settle, moves := map[], {}, None, map[];
    }

    function Model(): Slots
      reads this
    {
      Slots(owner, settle, moves)
    }

    /** `_release_dead_state_slots`: finished and preempted requests give their slot back. */
    method ReleaseDead(finished: seq<ReqId>, preempted: seq<ReqId>)
      modifies this`owner
      ensures owner == map r | r in old(owner) && r !in finished && r !in preempted :: old(owner)[r]
    {
      for i := 0 to |finished|
        invariant owner == map r | r in old(owner) && r !in finished[..i] :: old(owner)[r]
      {
        assert finished[..i + 1] == finished[..i] + [finished[i]];
        owner := owner - {finished[i]};
      }
      assert finished[..|finished|] == finished;
      for i := 0 to |preempted|
        invariant owner == map r | r in old(owner) && r !in finished && r !in preempted[..i] :: old(owner)[r]
      {
        assert preempted[..i + 1] == preempted[..i] + [preempted[i]];
        owner := owner - {preempted[i]};
      }
      assert preempted[..|preempted|] == preempted;
    }

    method Allocate(rows: seq<ReqId>) returns (result: Result<seq<nat>, SlotError>)
      modifies this`owner
      ensures result == AllocPrefill(n, old(owner), requests, rows)
      ensures result.Ok? ==> owner == AssignRows(old(owner), rows, result.value)
    {
      if |rows| > n { return Err(TooManyRows); }
      ghost var heldBefore := Held(owner, requests, rows);
      var held := Held(owner, requests, rows);
      var slots: seq<nat> := [];
      for row := 0 to |rows|
        invariant |slots| == row && AllocFirst(n, heldBefore, row) == Some(slots)
        invariant held == heldBefore + Members(slots)
        invariant owner == AssignRows(old(owner), rows[..row], slots)
      {
        var slot := row;
        if row in held {
          var free := FirstFree(n, held, 0);
          if free.None? {
            AllocFirstFails(n, heldBefore, row + 1, |rows|);
            return Err(NoFreeSlot);
          }
          slot := free.value;
        }
        ghost var taken := held;
        held := held + {slot};
        assert AllocOne(n, taken, row) == Some(slot);
        assert Members(slots + [slot]) == Members(slots) + {slot};
        assert rows[..row + 1][..row] == rows[..row] && (slots + [slot])[..row] == slots;
        owner := owner[rows[row] := slot];
        slots := slots + [slot];
      }
      assert rows[..|rows|] == rows;
      return Ok(slots);
    }

    /** The slot each decode row reads, refusing a request that never got one. */
    method CollectWanted(rows: seq<ReqId>) returns (want: Option<seq<nat>>)
      ensures want == if AllOwned(owner, rows) then Some(Wanted(owner, rows)) else None
    {
      var collected: seq<nat> := [];
      for i := 0 to |rows|
        invariant AllOwned(owner, rows[..i]) && collected == Wanted(owner, rows[..i])
      {
        assert rows[..i + 1] == rows[..i] + [rows[i]];
        if rows[i] !in owner {
          assert rows[i] in rows;
          return None;
        }
        collected := collected + [owner[rows[i]]];
      }
      assert rows[..|rows|] == rows;
      return Some(collected);
    }

    static method Complete(n: nat, want: seq<nat>) returns (gather: seq<nat>)
      ensures gather == GatherOf(n, want)
    {
      var rest: seq<nat> := [];
      for s := 0 to n
        invariant rest == Rest(s, want)
      {
        if s !in want { rest := rest + [s]; }
      }
      return want + rest;
    }

    /** The gather moves every slot, so ownership follows it, batch row or not. */
    method Follow(gather: seq<nat>) returns (moved: map<ReqId, nat>)
      requires Distinct(gather)
      ensures moved == Followed(owner, gather)
    {
      moved := owner;
      for row := 0 to |gather|
        invariant moved.Keys == owner.Keys
        invariant forall r :: r in owner && owner[r] !in gather[..row] ==> moved[r] == owner[r]
        invariant forall r :: r in owner && owner[r] in gather[..row] ==> moved[r] < row && gather[moved[r]] == owner[r]
      {
        assert gather[..row + 1] == gather[..row] + [gather[row]];
        ghost var before := moved;
        moved := map r | r in moved :: if owner[r] == gather[row] then row else moved[r];
        assert forall r :: r in owner && owner[r] != gather[row] ==> moved[r] == before[r];
      }
      assert gather[..|gather|] == gather;
    }

    method Remap(rows: seq<ReqId>) returns (result: Result<Option<seq<nat>>, SlotError>)
      modifies this`settle, this`moves
      ensures match DecodeRemap(n, old(Model()), rows)
              case Err(e) => result == Err(e)
              case Ok((slots, gather)) => result == Ok(gather) && Model() == slots
    {
      if |rows| > n { return Err(TooManyRows); }
      var collected := CollectWanted(rows);
      if collected.None? { return Err(NoSlot); }
      var want := collected.value;
      if exists i, j :: 0 <= i < j < |want| && want[i] == want[j] { return Err(NotAPermutation); }
      if !Below(want, n) { return Err(NotAPermutation); }
      var gather := Complete(n, want);
      GatherDistinct(n, want);
      var moved := Follow(gather);
      if gather == Range(n) {
        settle, moves := None, map[];
        return Ok(None);
      }
      settle, moves := Some(moved), MovesOf(gather);
      return Ok(Some(gather));
    }

    method SettleSlots() returns (noted: map<nat, nat>)
      modifies this`owner, this`settle, this`moves
      ensures Model() == Settle(old(Model())) && noted == old(moves)
    {
      if settle.Some? {
        owner := settle.value;
        settle := None;
      }
      noted := moves;
      moves := map[];
    }
  }

  lemma {:induction false} AllocFirstFails(n: nat, held: set<nat>, i: nat, j: nat)
    requires i <= j && AllocFirst(n, held, i).None?
    ensures AllocFirst(n, held, j).None?
    decreases j
  {
    if i < j { AllocFirstFails(n, held, i, j - 1); }
  }

  // ----- the gather is a permutation -----

  lemma {:induction false} RestMembers(n: nat, want: seq<nat>)
    ensures forall s: nat :: s in Rest(n, want) <==> s < n && s !in want
    ensures Distinct(Rest(n, want))
    ensures forall i, j :: 0 <= i < j < |Rest(n, want)| ==> Rest(n, want)[i] < Rest(n, want)[j]
  {
    if n > 0 {
      RestMembers(n - 1, want);
      var before := Rest(n - 1, want);
      assert forall i :: 0 <= i < |before| ==> before[i] in before;
      forall s: nat ensures s in Rest(n, want) <==> s < n && s !in want {
        assert s in Rest(n, want) <==> s in before || (n - 1 !in want && s == n - 1);
      }
    }
  }

  lemma GatherDistinct(n: nat, want: seq<nat>)
    requires Distinct(want) && Below(want, n)
    ensures Distinct(GatherOf(n, want))
    ensures forall s: nat :: s in GatherOf(n, want) <==> s < n
  {
    RestMembers(n, want);
    var gather, rest := GatherOf(n, want), Rest(n, want);
    forall i, j | 0 <= i < j < |gather| ensures gather[i] != gather[j] {
      if i < |want| <= j {
        assert gather[i] in want && gather[j] in rest;
      }
    }
  }

  // ----- the device and the model behind the bookkeeping -----

  /** `device[s]` is the request whose state slot `s` holds; `sessions` is the owner slot the model
      recorded for each request it keeps a session for. */
  datatype World = World(slots: Slots, requests: set<ReqId>, device: seq<Option<ReqId>>, sessions: map<ReqId, nat>)

  datatype Event =
    | Arrive(newcomers: set<ReqId>)
    | Release(finished: set<ReqId>, preempted: set<ReqId>)
    | Prefill(rows: seq<ReqId>)
    | Decode(rows: seq<ReqId>)
    /** A decode whose forward the model refused: the remap was built and never settled. */
    | RefusedDecode(rows: seq<ReqId>)

  /** `release_request(slot)` for every dead request, read off the map while it still knows them: the
      model drops whatever session it holds at that slot. */
  function ReleaseSessions(sessions: map<ReqId, nat>, owner: map<ReqId, nat>, dead: set<ReqId>): map<ReqId, nat> {
    map r | r in sessions && forall d :: d in dead && d in owner ==> sessions[r] != owner[d] :: sessions[r]
  }

  function NoteMoves(sessions: map<ReqId, nat>, moves: map<nat, nat>): map<ReqId, nat> {
    map r | r in sessions :: if sessions[r] in moves then moves[sessions[r]] else sessions[r]
  }

  function WriteSlots(device: seq<Option<ReqId>>, rows: seq<ReqId>, slots: seq<nat>): (after: seq<Option<ReqId>>)
    requires |rows| == |slots| && Below(slots, |device|)
    ensures |after| == |device|
    decreases |rows|
  {
    if rows == [] then device
    else var k := |rows| - 1; WriteSlots(device, rows[..k], slots[..k])[slots[k] := Some(rows[k])]
  }

  function Gather(device: seq<Option<ReqId>>, gather: Option<seq<nat>>): seq<Option<ReqId>>
    requires gather.Some? ==> |gather.value| == |device| && Below(gather.value, |device|)
  {
    if gather.None? then device
    else seq(|device|, i requires 0 <= i < |device| => device[gather.value[i]])
  }

  /** The admission bound: holders and prefilling requests never outnumber the slots. */
  ghost predicate Admissible(n: nat, w: World, e: Event) {
    match e
    case Arrive(_) => true
    case Release(_, _) => true
    case Prefill(rows) =>
      Distinct(rows) && (forall r :: r in rows ==> r in w.requests) && |w.slots.owner.Keys + set r | r in rows| <= n
    case Decode(rows) => Distinct(rows) && forall r :: r in rows ==> r in w.slots.owner
    case RefusedDecode(rows) => Distinct(rows) && forall r :: r in rows ==> r in w.slots.owner
  }

  /** None is a raise of the allocator, the remap or a transfer outside the device. */
  function Next(n: nat, w: World, e: Event): Option<World> {
    match e
    case Arrive(newcomers) => Some(w.(requests := w.requests + newcomers))
    case Release(finished, preempted) =>
      var dead := finished + preempted;
      Some(World(w.slots.(owner := w.slots.owner - dead), w.requests - finished, w.device,
                 ReleaseSessions(w.sessions, w.slots.owner, dead)))
    case Prefill(rows) =>
      (match AllocPrefill(n, w.slots.owner, w.requests, rows)
       case Err(_) => None
       case Ok(slots) =>
         if Below(slots, |w.device|) then
           Some(w.(slots := w.slots.(owner := AssignRows(w.slots.owner, rows, slots)),
                   device := WriteSlots(w.device, rows, slots),
                   sessions := AssignRows(w.sessions, rows, slots)))
         else None)
    case Decode(rows) =>
      (match DecodeRemap(n, w.slots, rows)
       case Err(_) => None
       case Ok((slots, gather)) =>
         if gather.Some? && !(|gather.value| == |w.device| && Below(gather.value, |w.device|)) then None
         else Some(w.(slots := Settle(slots), device := Gather(w.device, gather), sessions := NoteMoves(w.sessions, slots.moves))))
    case RefusedDecode(rows) =>
      (match DecodeRemap(n, w.slots, rows)
       case Err(_) => None
       case Ok((slots, _)) => Some(w.(slots := slots)))
  }

  /** Ownership is injective into the slots, every owned slot really holds its owner's state, and the
      model's session table names the same slots. */
  ghost predicate Inv(n: nat, w: World) {
    && |w.device| == n
    && w.slots.owner.Keys <= w.requests
    && (forall r :: r in w.slots.owner ==> w.slots.owner[r] < n && w.device[w.slots.owner[r]] == Some(r))
    && w.sessions == w.slots.owner
  }

  // ----- allocation never runs out and never overwrites a live request -----

  lemma {:induction false} FullRange(n: nat, held: set<nat>)
    requires forall s :: 0 <= s < n ==> s in held
    ensures |held| >= n
    decreases n
  {
    if n > 0 {
      FullRange(n - 1, held - {n - 1});
    }
  }

  lemma {:induction false} ImageSize(owner: map<ReqId, nat>, keys: set<ReqId>)
    requires keys <= owner.Keys
    ensures |set r | r in keys :: owner[r]| <= |keys|
    decreases keys
  {
    if keys != {} {
      var r :| r in keys;
      ImageSize(owner, keys - {r});
      assert (set q | q in keys :: owner[q]) == (set q | q in keys - {r} :: owner[q]) + {owner[r]};
    }
  }

  lemma {:induction false} SeqSetSize(s: seq<nat>)
    ensures |Members(s)| <= |s|
  {
    if s != [] {
      var k := |s| - 1;
      SeqSetSize(s[..k]);
      assert s == s[..k] + [s[k]];
      assert Members(s) == Members(s[..k]) + {s[k]};
    }
  }

  lemma {:induction false} DistinctSize(rows: seq<ReqId>)
    requires Distinct(rows)
    ensures |set r | r in rows| == |rows|
  {
    if rows != [] {
      var k := |rows| - 1;
      DistinctSize(rows[..k]);
      assert rows == rows[..k] + [rows[k]];
      assert rows[k] !in rows[..k];
      assert (set r | r in rows) == (set r | r in rows[..k]) + {rows[k]};
    }
  }

  lemma AllocOneWorks(n: nat, taken: set<nat>, row: nat)
    requires |taken| < n && row < n
    ensures AllocOne(n, taken, row).Some? && AllocOne(n, taken, row).value < n && AllocOne(n, taken, row).value !in taken
  {
    if row in taken && FirstFree(n, taken, 0).None? { FullRange(n, taken); }
  }

  /** Distinct slots of the device that nobody in `held` has. */
  ghost predicate Unheld(n: nat, held: set<nat>, slots: seq<nat>) {
    Distinct(slots) && Below(slots, n) && forall k :: 0 <= k < |slots| ==> slots[k] !in held
  }

  lemma UnheldNext(n: nat, held: set<nat>, slots: seq<nat>, slot: nat)
    requires Unheld(n, held, slots) && slot < n && slot !in held + Members(slots)
    ensures Unheld(n, held, slots + [slot])
  {
    assert forall k :: 0 <= k < |slots| ==> slots[k] in Members(slots);
  }

  lemma UnionSize(a: set<nat>, b: set<nat>)
    ensures |a + b| <= |a| + |b|
  {
    assert a + b == a + (b - a) && b - a <= b;
    assert b == (b - a) + (b * a) && (b - a) !! (b * a);
  }

  /** With fewer holders than slots, every row gets a slot nobody holds, and no two rows share one. */
  lemma {:induction false} AllocFirstWorks(n: nat, held: set<nat>, i: nat)
    requires |held| + i <= n
    ensures AllocFirst(n, held, i).Some?
    ensures |AllocFirst(n, held, i).value| == i && Unheld(n, held, AllocFirst(n, held, i).value)
  {
    if i > 0 {
      AllocFirstWorks(n, held, i - 1);
      var before := AllocFirst(n, held, i - 1).value;
      SeqSetSize(before);
      UnionSize(held, Members(before));
      AllocOneWorks(n, held + Members(before), i - 1);
      UnheldNext(n, held, before, AllocOne(n, held + Members(before), i - 1).value);
    }
  }

  lemma HeldCount(owner: map<ReqId, nat>, requests: set<ReqId>, rows: seq<ReqId>, n: nat)
    requires Distinct(rows) && owner.Keys <= requests && |owner.Keys + (set r | r in rows)| <= n
    ensures |Held(owner, requests, rows)| + |rows| <= n
    ensures forall r :: r in owner && r !in rows ==> owner[r] in Held(owner, requests, rows)
  {
    var prefilling := set r | r in rows;
    var others := owner.Keys - prefilling;
    DistinctSize(rows);
    assert owner.Keys + prefilling == others + prefilling;
    ImageSize(owner, others);
    assert Held(owner, requests, rows) == set r | r in others :: owner[r];
  }

  /** Under the admission bound the allocator cannot raise, and it hands out distinct slots that no
      other live request holds. */
  lemma PrefillAllocates(n: nat, w: World, rows: seq<ReqId>)
    requires Inv(n, w) && Admissible(n, w, Prefill(rows))
    ensures AllocPrefill(n, w.slots.owner, w.requests, rows).Ok?
    ensures var slots := AllocPrefill(n, w.slots.owner, w.requests, rows).value;
            && Distinct(slots) && Below(slots, n)
            && forall r :: r in w.slots.owner && r !in rows ==> w.slots.owner[r] !in slots
  {
    var held := Held(w.slots.owner, w.requests, rows);
    HeldCount(w.slots.owner, w.requests, rows, n);
    AllocFirstWorks(n, held, |rows|);
    var slots := AllocFirst(n, held, |rows|).value;
    forall r | r in w.slots.owner && r !in rows ensures w.slots.owner[r] !in slots {
      assert w.slots.owner[r] in held;
    }
  }

  lemma {:induction false} AssignRowsAt(owner: map<ReqId, nat>, rows: seq<ReqId>, slots: seq<nat>)
    requires |rows| == |slots| && Distinct(rows)
    ensures var after := AssignRows(owner, rows, slots);
            && after.Keys == owner.Keys + (set r | r in rows)
            && (forall r :: r in owner && r !in rows ==> after[r] == owner[r])
            && (forall k :: 0 <= k < |rows| ==> rows[k] in after && after[rows[k]] == slots[k])
  {
    if rows != [] {
      var k := |rows| - 1;
      AssignRowsAt(owner, rows[..k], slots[..k]);
      assert rows == rows[..k] + [rows[k]];
      assert rows[k] !in rows[..k];
    }
  }

  lemma {:induction false} WriteSlotsElsewhere(device: seq<Option<ReqId>>, rows: seq<ReqId>, slots: seq<nat>, s: nat)
    requires |rows| == |slots| && Below(slots, |device|) && s < |device| && s !in slots
    ensures WriteSlots(device, rows, slots)[s] == device[s]
    decreases |rows|
  {
    if rows != [] {
      var k := |rows| - 1;
      assert slots[k] in slots;
      assert forall q :: q in slots[..k] ==> q in slots;
      WriteSlotsElsewhere(device, rows[..k], slots[..k], s);
    }
  }

  lemma {:induction false} WriteSlotsAt(device: seq<Option<ReqId>>, rows: seq<ReqId>, slots: seq<nat>, i: nat)
    requires |rows| == |slots| && Distinct(slots) && Below(slots, |device|) && i < |rows|
    ensures slots[i] in slots && WriteSlots(device, rows, slots)[slots[i]] == Some(rows[i])
    decreases |rows|
  {
    var k := |rows| - 1;
    if i < k {
      assert slots[..k][i] == slots[i] && rows[..k][i] == rows[i] && slots[i] != slots[k];
      WriteSlotsAt(device, rows[..k], slots[..k], i);
    }
  }

  /** Writing distinct slots that no other request holds keeps every owner's state in its slot. */
  lemma PrefillWrites(n: nat, w: World, rows: seq<ReqId>, slots: seq<nat>)
    requires Inv(n, w) && Distinct(rows) && |rows| == |slots| && Distinct(slots) && Below(slots, n)
    requires forall r :: r in w.slots.owner && r !in rows ==> w.slots.owner[r] !in slots
    ensures var owner, device := AssignRows(w.slots.owner, rows, slots), WriteSlots(w.device, rows, slots);
            forall r :: r in owner ==> owner[r] < n && device[owner[r]] == Some(r)
  {
    AssignRowsAt(w.slots.owner, rows, slots);
    var owner, device := AssignRows(w.slots.owner, rows, slots), WriteSlots(w.device, rows, slots);
    forall r | r in owner ensures owner[r] < n && device[owner[r]] == Some(r) {
      if r in rows {
        var k :| 0 <= k < |rows| && rows[k] == r;
        assert owner[rows[k]] == slots[k];
        WriteSlotsAt(w.device, rows, slots, k);
      } else {
        WriteSlotsElsewhere(w.device, rows, slots, owner[r]);
      }
    }
  }

  lemma PrefillKeeps(n: nat, w: World, rows: seq<ReqId>)
    requires Inv(n, w) && Admissible(n, w, Prefill(rows))
    ensures Next(n, w, Prefill(rows)).Some? && Inv(n, Next(n, w, Prefill(rows)).value)
  {
    PrefillAllocates(n, w, rows);
    var slots := AllocPrefill(n, w.slots.owner, w.requests, rows).value;
    AssignRowsAt(w.slots.owner, rows, slots);
    PrefillWrites(n, w, rows, slots);
  }

  // ----- the gather takes every state with it -----

  /** Under the invariant the wanted slots are distinct and in range, so the remap cannot raise. */
  lemma DecodeWants(n: nat, w: World, rows: seq<ReqId>)
    requires Inv(n, w) && Admissible(n, w, Decode(rows))
    ensures AllOwned(w.slots.owner, rows) && Distinct(Wanted(w.slots.owner, rows))
    ensures Below(Wanted(w.slots.owner, rows), n)
    ensures |rows| <= n && DecodeRemap(n, w.slots, rows).Ok?
  {
    var owner := w.slots.owner;
    assert forall i :: 0 <= i < |rows| ==> rows[i] in rows;
    var want := Wanted(owner, rows);
    forall i, j | 0 <= i < j < |want| ensures want[i] != want[j] {
      assert w.device[owner[rows[i]]] == Some(rows[i]) && w.device[owner[rows[j]]] == Some(rows[j]);
    }
    BoundedDistinct(want, n);
  }

  lemma {:induction false} BoundedDistinct(s: seq<nat>, n: nat)
    requires Distinct(s) && Below(s, n)
    ensures |s| <= n
    decreases n
  {
    if n == 0 {
    } else if n - 1 in s {
      var k := PositionIn(s, n - 1);
      var rest := s[..k] + s[k + 1..];
      assert forall i :: 0 <= i < |rest| ==> rest[i] == s[if i < k then i else i + 1];
      BoundedDistinct(rest, n - 1);
    } else {
      BoundedDistinct(s, n - 1);
    }
  }

  lemma GatherSize(n: nat, want: seq<nat>)
    requires Distinct(want) && Below(want, n)
    ensures |GatherOf(n, want)| == n && Below(GatherOf(n, want), n)
  {
    GatherDistinct(n, want);
    var gather := GatherOf(n, want);
    assert forall i :: 0 <= i < |gather| ==> gather[i] in gather;
    BoundedDistinct(gather, n);
    SeqSetSize(gather);
    assert forall s: nat :: s < n ==> s in Members(gather);
    FullRange(n, Members(gather));
  }

  /** Following a permutation is what the device did, and what the model was told. */
  lemma FollowedHolds(n: nat, w: World, gather: seq<nat>)
    requires Inv(n, w) && |gather| == n && Distinct(gather) && Below(gather, n) && forall s: nat :: s < n ==> s in gather
    ensures var owner, device := Followed(w.slots.owner, gather), Gather(w.device, Some(gather));
            && (forall r :: r in owner ==> owner[r] < n && device[owner[r]] == Some(r))
            && NoteMoves(w.slots.owner, MovesOf(gather)) == owner
  {
    var owner := w.slots.owner;
    forall r | r in owner ensures owner[r] < n && owner[r] in gather && w.device[owner[r]] == Some(r) {}
    NotedIsFollowed(owner, gather);
    forall r | r in owner ensures Followed(owner, gather)[r] < n && Gather(w.device, Some(gather))[Followed(owner, gather)[r]] == Some(r) {
      GatheredAt(w.device, gather, owner[r]);
    }
  }

  lemma NotedIsFollowed(owner: map<ReqId, nat>, gather: seq<nat>)
    requires forall r :: r in owner ==> owner[r] in gather
    ensures NoteMoves(owner, MovesOf(gather)) == Followed(owner, gather)
  {
  }

  lemma GatheredAt(device: seq<Option<ReqId>>, gather: seq<nat>, s: nat)
    requires |gather| == |device| && Below(gather, |device|) && s in gather
    ensures PositionIn(gather, s) < |device| && Gather(device, Some(gather))[PositionIn(gather, s)] == device[s]
  {
  }

  /** Skipping an identity gather changes nothing. */
  lemma IdentityGather(n: nat, w: World, gather: seq<nat>)
    requires Inv(n, w) && gather == Range(n)
    ensures Followed(w.slots.owner, gather) == w.slots.owner && Gather(w.device, Some(gather)) == w.device
    ensures MovesOf(gather) == map[] && NoteMoves(w.sessions, map[]) == w.sessions
  {
    assert Gather(w.device, Some(gather)) == w.device;
    assert forall s :: s in gather ==> PositionIn(gather, s) == s;
  }

  /** An accepted decode moves ownership, device state and sessions along one permutation. */
  lemma DecodeOutcome(n: nat, w: World, rows: seq<ReqId>)
    requires Inv(n, w) && Admissible(n, w, Decode(rows))
    ensures AllOwned(w.slots.owner, rows)
    ensures var gather := GatherOf(n, Wanted(w.slots.owner, rows));
            && |gather| == n && Below(gather, n) && Distinct(gather) && (forall s: nat :: s < n ==> s in gather)
            && Next(n, w, Decode(rows)) == Some(World(
                 Slots(Followed(w.slots.owner, gather), None, map[]), w.requests, Gather(w.device, Some(gather)),
                 NoteMoves(w.sessions, MovesOf(gather))))
  {
    DecodeWants(n, w, rows);
    var want := Wanted(w.slots.owner, rows);
    GatherDistinct(n, want);
    GatherSize(n, want);
    if GatherOf(n, want) == Range(n) { IdentityGather(n, w, GatherOf(n, want)); }
  }

  /** Row `i` of an accepted decode reads the state of the request at row `i`, every other live request
      keeps its state wherever the gather moved it, and the model was told the same moves. */
  lemma DecodeFollows(n: nat, w: World, rows: seq<ReqId>)
    requires Inv(n, w) && Admissible(n, w, Decode(rows))
    ensures Next(n, w, Decode(rows)).Some? && Inv(n, Next(n, w, Decode(rows)).value)
    ensures var after := Next(n, w, Decode(rows)).value;
            && after.slots.owner.Keys == w.slots.owner.Keys
            && |rows| <= n && forall i :: 0 <= i < |rows| ==> after.device[i] == Some(rows[i])
  {
    DecodeOutcome(n, w, rows);
    DecodeWants(n, w, rows);
    var want := Wanted(w.slots.owner, rows);
    var gather := GatherOf(n, want);
    FollowedHolds(n, w, gather);
    forall i | 0 <= i < |rows| ensures w.device[gather[i]] == Some(rows[i]) {
      assert rows[i] in rows && gather[i] == want[i] == w.slots.owner[rows[i]];
    }
  }

  // ----- runs -----

  function Start(n: nat): World {
    World(Slots(map[], None, map[]), {}, seq(n, _ => None), map[])
  }

  ghost predicate AllAdmissible(n: nat, events: seq<Event>) {
    events == [] ||
    (var before := events[..|events| - 1];
     AllAdmissible(n, before) && (Run(n, before).Some? ==> Admissible(n, Run(n, before).value, events[|events| - 1])))
  }

  ghost function Run(n: nat, events: seq<Event>): Option<World> {
    if events == [] then Some(Start(n))
    else match Run(n, events[..|events| - 1]) case None => None case Some(w) => Next(n, w, events[|events| - 1])
  }

  lemma NextKeeps(n: nat, w: World, e: Event)
    requires Inv(n, w) && Admissible(n, w, e)
    ensures Next(n, w, e).Some? && Inv(n, Next(n, w, e).value)
  {
    match e
    case Arrive(_) =>
    case Release(finished, preempted) => ReleaseKeeps(n, w, finished, preempted);
    case Prefill(rows) => PrefillKeeps(n, w, rows);
    case Decode(rows) => DecodeFollows(n, w, rows);
    case RefusedDecode(rows) => DecodeWants(n, w, rows);
  }

  /** A release by current slot ends exactly the sessions of the released requests. */
  lemma ReleaseKeeps(n: nat, w: World, finished: set<ReqId>, preempted: set<ReqId>)
    requires Inv(n, w)
    ensures Inv(n, Next(n, w, Release(finished, preempted)).value)
    ensures Next(n, w, Release(finished, preempted)).value.sessions == w.sessions - (finished + preempted)
  {
    var owner, dead := w.slots.owner, finished + preempted;
    forall r | r in owner
      ensures (forall d :: d in dead && d in owner ==> owner[r] != owner[d]) <==> r !in dead
    {
      forall d | d in dead && d in owner && owner[r] == owner[d] ensures r == d {
        assert w.device[owner[r]] == Some(r) && w.device[owner[d]] == Some(d);
      }
    }
    assert ReleaseSessions(w.sessions, owner, dead) == owner - dead;
  }

  /** Over every run within the admission bound: neither raise is reachable, the device, the ownership map
      and the model's session table agree in every state, and a decode finds the state of its row `i`
      request at row `i`. */
  lemma {:induction false} StateFollowsRequests(n: nat, events: seq<Event>)
    requires AllAdmissible(n, events)
    ensures Run(n, events).Some? && Inv(n, Run(n, events).value)
    ensures events != [] && events[|events| - 1].Decode? ==>
              var w, rows := Run(n, events).value, events[|events| - 1].rows;
              |rows| <= n && forall i :: 0 <= i < |rows| ==> w.device[i] == Some(rows[i])
  {
    if events != [] {
      var w, e := Run(n, events[..|events| - 1]), events[|events| - 1];
      StateFollowsRequests(n, events[..|events| - 1]);
      NextKeeps(n, w.value, e);
      if e.Decode? { DecodeFollows(n, w.value, e.rows); }
    }
  }
}
