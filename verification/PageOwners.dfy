/**
 Whose pages a row reads and writes. The scheduler hands every page that is written to one request; a row's
 own table names exactly its request's pages as long as it was not resumed in place behind old ones.
 */
module PageOwners {
  import opened Runtime
  import opened LateResults
  import opened PagedMemory
  import opened AsyncLossless
  import RequestStates
  import BatchRuns

  /** The block table the persistent batch holds for a row's request, and the scheduler's blocks of a request. */
  ghost function RowTable(w: BatchRuns.World, r: ReqId): BlockTable {
    if r in w.host.views then w.host.views[r].columns.blocks else []
  }

  ghost function OwnBlocks(w: BatchRuns.World, r: ReqId): BlockTable {
    if r in w.host.requests then w.host.requests[r].blocks else []
  }

  /** The allocator's promise: a page a row writes, by its request's own blocks, is in nobody else's. */
  ghost predicate AllocatedApart(size: PageSize, w: BatchRuns.World, writes: seq<Write>, rows: seq<ReqId>, r: ReqId) {
    && |writes| <= |rows|
    && forall k :: 0 <= k < |writes| && rows[k] != r ==>
         KeepsOut(size, writes[k].(table := OwnBlocks(w, rows[k])), OwnBlocks(w, r))
  }

  /** Rows are built from the batch, and none of them is behind. */
  ghost predicate RowsOfBatch(w: BatchRuns.World, writes: seq<Write>, rows: seq<ReqId>) {
    && |writes| <= |rows|
    && forall k :: 0 <= k < |writes| ==> rows[k] in w.host.views && rows[k] !in w.behind && writes[k].table == RowTable(w, rows[k])
  }

  /** In every run of the persistent batch, a step none of whose rows is behind shelters every request whose
      blocks the scheduler keeps apart. */
  lemma {:induction false} NotBehindIsSheltered(m: Setting, shape: RequestStates.Shape, events: seq<BatchRuns.Event>, writes: seq<Write>,
                                                rows: seq<ReqId>, kv: Contexts, r: ReqId)
    requires BatchRuns.Run(shape, m.groups, events).Some? && Distinct(rows)
    requires var w := BatchRuns.Run(shape, m.groups, events).value;
             && RowsOfBatch(w, writes, rows) && AllocatedApart(m.size, w, writes, rows, r)
             && (RowOf(rows, r) < |writes| ==> Paged(m.size, m.groups, OwnBlocks(w, r), WriteEnd(writes[RowOf(rows, r)])))
             && (r in kv ==> Extends(kv[r].table, OwnBlocks(w, r)))
    ensures Sheltered(m, writes, rows, kv, r)
  {
    var w, i := BatchRuns.Run(shape, m.groups, events).value, RowOf(rows, r);
    forall k | 0 <= k < |writes| ensures writes[k].table == OwnBlocks(w, rows[k]) {
      OwnTable(shape, m.groups, events, rows[k]);
    }
    forall k | 0 <= k < |writes| && k != i
      ensures KeepsOut(m.size, writes[k], OwnBlocks(w, r)) && (r in kv ==> KeepsOut(m.size, writes[k], kv[r].table))
    {
      if rows[k] == r { RowOfAt(rows, k); }
      assert writes[k] == writes[k].(table := OwnBlocks(w, rows[k]));
      if r in kv { KeepsOutShorter(m.size, writes[k], kv[r].table, OwnBlocks(w, r)); }
    }
  }

  lemma OwnTable(shape: RequestStates.Shape, groups: nat, events: seq<BatchRuns.Event>, r: ReqId)
    requires BatchRuns.Run(shape, groups, events).Some?
    requires var w := BatchRuns.Run(shape, groups, events).value; r in w.host.views && r !in w.behind
    ensures var w := BatchRuns.Run(shape, groups, events).value; RowTable(w, r) == OwnBlocks(w, r)
  {
    BatchRuns.BatchIsAlwaysARebuild(shape, groups, events, r);
  }

  lemma KeepsOutShorter(size: PageSize, w: Write, table: BlockTable, longer: BlockTable)
    requires KeepsOut(size, w, longer) && Extends(table, longer)
    ensures KeepsOut(size, w, table)
  {
    forall g, j | 0 <= g < |w.table| && g < |table| && 0 <= j < |w.tokens| && j < |w.positions| && 0 <= w.positions[j]
      ensures PageAt(w.table[g], w.positions[j] / size) !in table[g]
    {
      assert PageAt(w.table[g], w.positions[j] / size) !in longer[g] && table[g] <= longer[g];
    }
  }
}
